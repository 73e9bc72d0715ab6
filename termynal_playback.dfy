/**
 * src/termynal.ts, the values the playback engine computes: the 5-pixel
 * bottom tolerance of auto-scroll, the waits of `_wait` on a virtual clock,
 * the speed multiplier as a power of two, the per-line settings `start`,
 * `type` and `progress` read from a line's attributes, and the text a
 * progress bar shows at each step.
 */
module TermynalPlayback {
  import opened Wrappers
  import opened JsString

  // ---------------------------------------------------------------------------
  // Auto-scroll

  const AutoScrollBottomBufferPx := 5

  /** The scroll geometry of the container at one moment. */
  datatype Viewport = Viewport(scrollHeight: int, scrollTop: int, clientHeight: int)

  /** _distanceFromBottom. */
  function DistanceFromBottom(v: Viewport): int {
    v.scrollHeight - v.scrollTop - v.clientHeight
  }

  /** _isAtBottom: at most 5 pixels above the bottom. */
  predicate IsAtBottom(v: Viewport) {
    DistanceFromBottom(v) <= AutoScrollBottomBufferPx
  }

  /** The flag _toggleAutoScrollBasedOnUserInteraction leaves. */
  function ToggledAutoScroll(v: Viewport, origAutoScroll: bool): bool {
    if !IsAtBottom(v) then false else origAutoScroll
  }

  /**
   * Scrolled up by more than the tolerance, auto-scroll is off; within it,
   * the configured behaviour comes back; it is never on when configured off.
   */
  lemma ToggleAutoScrollSpec(v: Viewport, origAutoScroll: bool)
    ensures v.scrollHeight - v.scrollTop - v.clientHeight > 5 ==> !ToggledAutoScroll(v, origAutoScroll)
    ensures v.scrollHeight - v.scrollTop - v.clientHeight <= 5 ==> ToggledAutoScroll(v, origAutoScroll) == origAutoScroll
    ensures ToggledAutoScroll(v, origAutoScroll) ==> origAutoScroll
  {
  }

  /** _scrollToBottom: the scroll position moves to the bottom only while auto-scroll is on. */
  function ScrolledToBottom(v: Viewport, autoScroll: bool): (w: Viewport)
    ensures w.scrollHeight == v.scrollHeight && w.clientHeight == v.clientHeight
    ensures autoScroll ==> w.scrollTop == v.scrollHeight
    ensures !autoScroll ==> w == v
  {
    if autoScroll then v.(scrollTop := v.scrollHeight) else v
  }

  /** After a scroll to the bottom with auto-scroll on, the container counts as at the bottom again. */
  lemma ScrolledIsAtBottom(v: Viewport)
    requires v.clientHeight >= 0
    ensures IsAtBottom(ScrolledToBottom(v, true))
  {
  }

  // ---------------------------------------------------------------------------
  // Speed and the virtual clock

  function Pow2(e: nat): (p: nat)
    ensures p >= 1
  {
    if e == 0 then 1 else 2 * Pow2(e - 1)
  }

  /** The speed multiplier: it starts at 1 and is only ever doubled or halved, so it is 2^e. */
  ghost function Multiplier(e: int): (m: real)
    ensures m > 0.0
  {
    if e >= 0 then Pow2(e) as real else 1.0 / Pow2(-e) as real
  }

  /** Doubling the multiplier is one more step of the exponent. */
  lemma MultiplierDoubles(e: int)
    ensures Multiplier(e + 1) == 2.0 * Multiplier(e)
  {
    if e < 0 {
      var p := Pow2(-e - 1) as real;
      assert Pow2(-e) as real == 2.0 * p;
      assert Multiplier(e + 1) == 1.0 / p;
      assert Multiplier(e) == 1.0 / (2.0 * p);
    }
  }

  /** One call of `_wait`: the nominal delay it was given and the multiplier exponent at that moment. */
  datatype Wait = Wait(delay: JsNumber, speedExp: int)

  /**
   * The timeout `_wait` sets: the nominal delay divided by the multiplier;
   * a NaN delay reaches setTimeout as NaN, which waits 0 ms.
   */
  ghost function WaitMs(w: Wait): real {
    if w.delay.NaN? then 0.0 else w.delay.n as real / Multiplier(w.speedExp)
  }

  /** A wait made one speed-up later lasts half as long. */
  lemma SpeedUpHalvesWaits(d: JsNumber, e: int)
    ensures 2.0 * WaitMs(Wait(d, e + 1)) == WaitMs(Wait(d, e))
  {
    MultiplierDoubles(e);
    if d.Num? {
      HalfOfDouble(d.n as real, Multiplier(e));
    }
  }

  lemma HalfOfDouble(x: real, m: real)
    requires m > 0.0
    ensures 2.0 * (x / (2.0 * m)) == x / m
  {
    var q := x / (2.0 * m);
    assert q * (2.0 * m) == x;
    assert (2.0 * q) * m == x;
  }

  /**
   * The label `${speedMultiplier}x` for a whole multiplier up to 2^53, where
   * JavaScript prints the integer in full.
   */
  function LabelText(e: nat): string
    requires e <= 53
  {
    NatToString(Pow2(e)) + "x"
  }

  /** The initial label is "1x", and four speed-ups later it reads "16x". */
  lemma LabelExamples()
    ensures LabelText(0) == "1x" && LabelText(4) == "16x"
  {
    assert Pow2(4) == 16;
    assert NatToString(16) == NatToString(1) + [DigitChar(6)];
  }

  // ---------------------------------------------------------------------------
  // Per-line settings

  /** `!!line.getAttribute(name)`: the attribute is present and not empty. */
  predicate Flag(attr: Option<string>) {
    attr.Some? && attr.value != ""
  }

  /**
   * `line.getAttribute(name) || setting`, handed to `_wait`: a non-empty
   * attribute string goes through parseFloat, otherwise the setting is used.
   */
  function DelayFrom(attr: Option<string>, setting: nat): JsNumber {
    if Flag(attr) then ParseFloat(attr.value) else Num(setting)
  }

  /**
   * A line's own numeric delay wins, even "0" (a comment waits 0 ms after
   * it); a missing or empty one falls back to the setting; one without
   * digits waits 0 ms.
   */
  lemma DelayFromSpec(n: nat, setting: nat)
    ensures DelayFrom(Some(NatToString(n)), setting) == Num(n)
    ensures DelayFrom(None, setting) == Num(setting) && DelayFrom(Some(""), setting) == Num(setting)
    ensures WaitMs(Wait(DelayFrom(Some("x"), setting), 0)) == 0.0
  {
    ParseFloatOfNumeral(n);
    assert !IsJsWhitespace('x') && !IsDigit('x');
    assert TrimStart("x") == "x";
  }

  // ---------------------------------------------------------------------------
  // progress()

  /** Math.round(i / len * 100) on exact rationals: the nearest integer, halves rounded up. */
  function Percent(i: nat, len: nat): nat
    requires len > 0
  {
    (200 * i + len) / (2 * len)
  }

  /**
   * Percent(i, len) is the integer nearest to 100 * i / len; it is 100 at
   * the last step and never more before it.
   */
  lemma PercentSpec(i: nat, len: nat)
    requires len > 0
    ensures Percent(i, len) * (2 * len) <= 200 * i + len < Percent(i, len) * (2 * len) + 2 * len
    ensures Percent(len, len) == 100
    ensures i <= len ==> Percent(i, len) <= 100
  {
    DivBounds(200 * i + len, 2 * len);
    DivUnique(200 * len + len, 2 * len, 100, len);
    if i <= len {
      PercentMonotone(i, len, len);
    }
  }

  lemma DivBounds(n: nat, q: nat)
    requires q > 0
    ensures (n / q) * q <= n < (n / q) * q + q
  {
  }

  lemma DivUnique(n: nat, q: nat, a: nat, r: nat)
    requires q > 0 && r < q && n == a * q + r
    ensures n / q == a
  {
    DivBounds(n, q);
    var b := n / q;
    if b < a {
      MulLess(b, a, q);
    } else if b > a {
      MulLess(a, b, q);
    }
  }

  lemma {:induction false} MulLess(b: nat, a: nat, q: nat)
    requires b < a && q > 0
    ensures b * q + q <= a * q
    decreases a
  {
    assert a * q == (a - 1) * q + q;
    if b < a - 1 {
      MulLess(b, a - 1, q);
    }
  }

  /** The percent never decreases as the bar grows. */
  lemma PercentMonotone(i: nat, j: nat, len: nat)
    requires len > 0 && i <= j
    ensures Percent(i, len) <= Percent(j, len)
  {
    DivMonotone(200 * i + len, 200 * j + len, 2 * len);
  }

  lemma DivMonotone(a: nat, b: nat, d: nat)
    requires d > 0 && a <= b
    ensures a / d <= b / d
  {
    DivBounds(a, d);
    DivBounds(b, d);
    if a / d > b / d {
      MulLess(b / d, a / d, d);
    }
  }

  /**
   * The bound `percent > progressPercent` is checked against: a non-empty
   * attribute string is compared as Number(string), otherwise the setting.
   */
  function PercentLimit(attr: Option<string>, setting: nat): JsNumber {
    if Flag(attr) then ToNumber(attr.value) else Num(setting)
  }

  /** `percent > limit`: a NaN limit is never exceeded. */
  predicate Exceeds(percent: nat, limit: JsNumber) {
    limit.Num? && percent > limit.n
  }

  /** The steps progress() shows from step i on: up to the first that exceeds the limit, at most len. */
  function StopFrom(i: nat, len: nat, limit: JsNumber): (n: nat)
    requires 1 <= i <= len
    ensures i <= n <= len
    decreases len - i
  {
    if i == len || Exceeds(Percent(i, len), limit) then i else StopFrom(i + 1, len, limit)
  }

  /** The number of steps progress() shows for a bar of len characters. */
  function ProgressSteps(len: nat, limit: JsNumber): (n: nat)
    ensures n <= len
  {
    if len == 0 then 0 else StopFrom(1, len, limit)
  }

  lemma {:induction false} StopFromSpec(i: nat, len: nat, limit: JsNumber)
    requires 1 <= i <= len
    ensures var n := StopFrom(i, len, limit);
      i <= n <= len
      && (n == len || Exceeds(Percent(n, len), limit))
      && forall j :: i <= j < n ==> !Exceeds(Percent(j, len), limit)
    decreases len - i
  {
    if !(i == len || Exceeds(Percent(i, len), limit)) {
      StopFromSpec(i + 1, len, limit);
    }
  }

  /**
   * progress() stops after len steps or at the first step whose percent
   * exceeds the limit, whichever comes first.
   */
  lemma ProgressStepsSpec(len: nat, limit: JsNumber)
    ensures var n := ProgressSteps(len, limit);
      n <= len && (len > 0 ==> 1 <= n)
      && (0 < n < len ==> Exceeds(Percent(n, len), limit))
      && forall j :: 1 <= j < n ==> !Exceeds(Percent(j, len), limit)
  {
    if len > 0 {
      StopFromSpec(1, len, limit);
    }
  }

  /** With a limit of 100 or more (the default is 100) every step is shown and the last shows 100%. */
  lemma FullProgress(len: nat, p: nat)
    requires len > 0 && p >= 100
    ensures ProgressSteps(len, Num(p)) == len && Percent(len, len) == 100
  {
    ProgressStepsSpec(len, Num(p));
    var n := ProgressSteps(len, Num(p));
    if n < len {
      PercentSpec(n, len);
    }
    PercentSpec(len, len);
  }

  /** The bar progress() fills: the character repeated, the length parsed from the line or the setting. */
  function ProgressBar(lengthAttr: Option<string>, charAttr: Option<string>, lengthSetting: nat, charSetting: string): string {
    var parsed := ParseFloat(lengthAttr.GetOr(""));
    var length := if parsed.Truthy() then parsed.n else lengthSetting;
    var ch := if Flag(charAttr) then charAttr.value else charSetting;
    Repeat(ch, length)
  }

  /** The line at step i: the first i bar characters, a space, the percent and "%". */
  function ProgressFrame(bar: string, i: nat): string
    requires 0 < i <= |bar|
  {
    bar[..i] + " " + NatToString(Percent(i, |bar|)) + "%"
  }

  /** Every step's text opens with that many bar characters and ends with the percent sign. */
  lemma ProgressFrameSpec(bar: string, i: nat)
    requires 0 < i <= |bar|
    ensures var f := ProgressFrame(bar, i);
      f[..i] == bar[..i] && f[i] == ' ' && f[|f| - 1] == '%'
      && f[i + 1..|f| - 1] == NatToString(Percent(i, |bar|))
  {
    var f := ProgressFrame(bar, i);
    var digits := NatToString(Percent(i, |bar|));
    assert f == bar[..i] + ([' '] + digits + ['%']);
  }

  /** With the default settings the bar is 40 full blocks and its last step reads "... 100%". */
  lemma DefaultProgressBar()
    ensures var bar := ProgressBar(None, None, 40, "\U{2588}");
      |bar| == 40 && ProgressSteps(|bar|, Num(100)) == 40
      && ProgressFrame(bar, 40) == bar + " 100%"
  {
    var bar := ProgressBar(None, None, 40, "\U{2588}");
    assert TrimStart("") == "";
    assert ParseFloat("") == NaN;
    assert bar == Repeat("\U{2588}", 40);
    FullProgress(40, 100);
    assert NatToString(100) == "100" by {
      assert NatToString(10) == NatToString(1) + [DigitChar(0)];
      assert NatToString(100) == NatToString(10) + [DigitChar(0)];
    }
    assert bar[..40] == bar;
  }
}
