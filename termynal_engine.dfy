/**
 * src/termynal.ts, the Termynal widget as the object it is: its container's
 * children, its line elements, its delays, auto-scroll flag and speed
 * multiplier, changed in place by `loadLines`, `init`, `start`, `type`,
 * `progress`, `_wait` and the speed-control and restart handlers.
 *
 * The browser is replaced by values: the container is the list of its
 * children, each `_wait` appends to a virtual clock instead of sleeping,
 * every text a line shows is appended to a ghost list of what was shown, and
 * the scroll geometry the user leaves before line i is a parameter.
 */
module TermynalEngine {
  import opened Wrappers
  import opened JsString
  import opened Dom
  import opened DomUtils
  import opened LineRecords
  import opened TermynalConfig
  import opened TermynalPlayback

  /** A child of the container: a speed control or restart link, numbered in creation order, or line i. */
  datatype Node = SpeedControlNode(id: nat) | LineNode(index: nat) | RestartNode(id: nat)

  /** A text line `line` showed, in the order the lines showed them. */
  datatype Shown = Shown(line: nat, text: string)

  /** The delays a run of start() uses and the multiplier exponent during that run. */
  datatype Pace = Pace(typeDelay: nat, lineDelay: nat, speedExp: int)

  // ---------------------------------------------------------------------------
  // The container's children

  /** removeChild. */
  function RemoveChild(c: seq<Node>, n: Node): (r: seq<Node>)
    ensures forall x :: x in r <==> x in c && x != n
  {
    if c == [] then [] else (if c[0] == n then [] else [c[0]]) + RemoveChild(c[1..], n)
  }

  /** appendChild: a node that is already a child moves to the end. */
  function AppendChild(c: seq<Node>, n: Node): seq<Node> {
    RemoveChild(c, n) + [n]
  }

  /** Every line appended in order, as loadLines does. */
  function AppendLines(c: seq<Node>, n: nat): seq<Node> {
    if n == 0 then c else AppendChild(AppendLines(c, n - 1), LineNode(n - 1))
  }

  /** LineNode(0), ..., LineNode(n - 1). */
  function LineNodes(n: nat): seq<Node> {
    seq(n, j requires 0 <= j => LineNode(j))
  }

  /** Lines that are not children yet end up after the other children, in order. */
  lemma {:induction false} AppendLinesFresh(c: seq<Node>, n: nat)
    requires forall x :: x in c ==> !x.LineNode?
    ensures AppendLines(c, n) == c + LineNodes(n)
  {
    if n > 0 {
      AppendLinesFresh(c, n - 1);
      var before := c + LineNodes(n - 1);
      assert LineNode(n - 1) !in before;
      RemoveAbsentChild(before, LineNode(n - 1));
      assert before + [LineNode(n - 1)] == c + LineNodes(n);
    }
  }

  /**
   * With fresh nodes, loadLines leaves the other children first, then the
   * speed control, every line in order and the restart link.
   */
  lemma LoadedInOrder(c: seq<Node>, id: nat, n: nat)
    requires forall x :: x in c ==> !x.LineNode? && x != SpeedControlNode(id) && x != RestartNode(id + 1)
    ensures AppendChild(AppendLines(AppendChild(c, SpeedControlNode(id)), n), RestartNode(id + 1))
      == c + [SpeedControlNode(id)] + LineNodes(n) + [RestartNode(id + 1)]
  {
    RemoveAbsentChild(c, SpeedControlNode(id));
    var withControl := c + [SpeedControlNode(id)];
    AppendLinesFresh(withControl, n);
    assert RestartNode(id + 1) !in withControl + LineNodes(n);
    RemoveAbsentChild(withControl + LineNodes(n), RestartNode(id + 1));
  }

  /** Removing a node that is not a child changes nothing. */
  lemma {:induction false} RemoveAbsentChild(c: seq<Node>, n: Node)
    requires n !in c
    ensures RemoveChild(c, n) == c
  {
    if c != [] {
      RemoveAbsentChild(c[1..], n);
      assert [c[0]] + c[1..] == c;
    }
  }

  /** appendChild puts the node last and keeps the other children in their order. */
  lemma AppendChildSpec(c: seq<Node>, n: Node)
    ensures n !in c ==> AppendChild(c, n) == c + [n]
    ensures n in c ==> |AppendChild(c, n)| <= |c|
    ensures forall x :: x in AppendChild(c, n) <==> x in c || x == n
  {
    if n !in c {
      RemoveAbsentChild(c, n);
    } else {
      RemoveShrinks(c, n);
    }
  }

  lemma {:induction false} RemoveShrinks(c: seq<Node>, n: Node)
    requires n in c
    ensures |RemoveChild(c, n)| < |c|
  {
    if c[0] != n {
      RemoveShrinks(c[1..], n);
    } else {
      RemoveAtMostKeeps(c[1..], n);
    }
  }

  lemma {:induction false} RemoveAtMostKeeps(c: seq<Node>, n: Node)
    ensures |RemoveChild(c, n)| <= |c|
  {
    if c != [] {
      RemoveAtMostKeeps(c[1..], n);
    }
  }

  // ---------------------------------------------------------------------------
  // What playing one line does (the body of start()'s loop)

  /** `line.getAttribute(pfx) == "input"`. */
  predicate IsInput(e: Element, cfg: Config) {
    GetAttribute(e, cfg.pfx) == Some("input")
  }

  /** `line.getAttribute(pfx) == "progress"`. */
  predicate IsProgress(e: Element, cfg: Config) {
    GetAttribute(e, cfg.pfx) == Some("progress")
  }

  /** `!!line.getAttribute(pfx-carriageReturn)`. */
  predicate CarriageReturn(e: Element, cfg: Config) {
    Flag(GetAttribute(e, cfg.pfx + "-carriageReturn"))
  }

  /** The wait after a line: its own delay attribute or the current line delay. */
  function LineDelay(e: Element, cfg: Config, pace: Pace): JsNumber {
    DelayFrom(GetAttribute(e, cfg.pfx + "-delay"), pace.lineDelay)
  }

  /** The wait before each typed character: the line's typeDelay attribute or the current type delay. */
  function TypeDelay(e: Element, cfg: Config, pace: Pace): JsNumber {
    DelayFrom(GetAttribute(e, cfg.pfx + "-typeDelay"), pace.typeDelay)
  }

  /** The bar a progress line fills. */
  function BarOf(e: Element, cfg: Config): string {
    ProgressBar(GetAttribute(e, cfg.pfx + "-progressLength"), GetAttribute(e, cfg.pfx + "-progressChar"),
      cfg.progressLength, cfg.progressChar)
  }

  /** The percentage a progress line stops after. */
  function LimitOf(e: Element, cfg: Config): JsNumber {
    PercentLimit(GetAttribute(e, cfg.pfx + "-progressPercent"), cfg.progressPercent)
  }

  /** How many steps a progress line shows. */
  function StepsOf(e: Element, cfg: Config): (n: nat)
    ensures n <= |BarOf(e, cfg)|
  {
    ProgressSteps(|BarOf(e, cfg)|, LimitOf(e, cfg))
  }

  /** The text a progress line is left with: its last step, or nothing for an empty bar. */
  function ProgressText(bar: string, steps: nat): string
    requires steps <= |bar|
  {
    if steps == 0 then "" else ProgressFrame(bar, steps)
  }

  /** A line once start() is past it: a progress line keeps its last step and the cursor attribute is gone. */
  function PlayedLine(e: Element, cfg: Config): Element {
    var shown := if IsProgress(e, cfg) then e.(text := ProgressText(BarOf(e, cfg), StepsOf(e, cfg))) else e;
    RemoveAttribute(shown, cfg.pfx + "-cursor")
  }

  /** n equal waits. */
  function Repeated(w: Wait, n: nat): (r: seq<Wait>)
    ensures |r| == n && forall k :: 0 <= k < n ==> r[k] == w
  {
    seq(n, _ => w)
  }

  /** The waits one line makes: one per typed character or progress step, then the line delay. */
  function LineWaits(e: Element, cfg: Config, pace: Pace): seq<Wait> {
    var after := [Wait(LineDelay(e, cfg, pace), pace.speedExp)];
    if IsInput(e, cfg) then Repeated(Wait(TypeDelay(e, cfg, pace), pace.speedExp), |e.text|) + after
    else if IsProgress(e, cfg) then Repeated(Wait(Num(pace.typeDelay), pace.speedExp), StepsOf(e, cfg)) + after
    else after
  }

  /** The texts a typed line shows: empty, then one more character after each wait. */
  function TypingFrames(i: nat, text: string): seq<Shown> {
    seq(|text| + 1, k requires 0 <= k <= |text| => Shown(i, text[..k]))
  }

  /** The texts a progress line shows: empty, then each step. */
  function ProgressFrames(i: nat, bar: string, steps: nat): seq<Shown>
    requires steps <= |bar|
  {
    [Shown(i, "")] + seq(steps, k requires 0 <= k < steps => Shown(i, ProgressFrame(bar, k + 1)))
  }

  /** The texts line i shows while it is played (an output line appears whole and shows none). */
  function LineFrames(i: nat, e: Element, cfg: Config): seq<Shown> {
    if IsInput(e, cfg) then TypingFrames(i, e.text)
    else if IsProgress(e, cfg) then ProgressFrames(i, BarOf(e, cfg), StepsOf(e, cfg))
    else []
  }

  /** The scroll geometry after line i, given the one the user left before it. */
  function LineView(e: Element, v: Viewport, cfg: Config): Viewport {
    if IsProgress(e, cfg) then v else ScrolledToBottom(v, ToggledAutoScroll(v, cfg.origAutoScroll))
  }

  /** The container after line i: appended, then removed again for a carriage return. */
  function StepNode(c: seq<Node>, i: nat, e: Element, cfg: Config): seq<Node> {
    var appended := AppendChild(c, LineNode(i));
    if CarriageReturn(e, cfg) then RemoveChild(appended, LineNode(i)) else appended
  }

  // ---------------------------------------------------------------------------
  // What playing the first n lines does

  function PlayedUpTo(lines: seq<Element>, n: nat, cfg: Config): (r: seq<Element>)
    ensures |r| == |lines|
  {
    seq(|lines|, j requires 0 <= j < |lines| => if j < n then PlayedLine(lines[j], cfg) else lines[j])
  }

  function ContainerUpTo(c: seq<Node>, lines: seq<Element>, n: nat, cfg: Config): seq<Node>
    requires n <= |lines|
  {
    if n == 0 then c else StepNode(ContainerUpTo(c, lines, n - 1, cfg), n - 1, lines[n - 1], cfg)
  }

  function WaitsUpTo(lines: seq<Element>, n: nat, cfg: Config, pace: Pace): seq<Wait>
    requires n <= |lines|
  {
    if n == 0 then [] else WaitsUpTo(lines, n - 1, cfg, pace) + LineWaits(lines[n - 1], cfg, pace)
  }

  function FramesUpTo(lines: seq<Element>, n: nat, cfg: Config): seq<Shown>
    requires n <= |lines|
  {
    if n == 0 then [] else FramesUpTo(lines, n - 1, cfg) + LineFrames(n - 1, lines[n - 1], cfg)
  }

  /** The part of the widget's state a run of start() changes. */
  datatype Playback = Playback(
    lines: seq<Element>, container: seq<Node>, clock: seq<Wait>, frames: seq<Shown>,
    autoScroll: bool, view: Viewport)

  /** One turn of start()'s loop on line i, the user having left the scroll geometry v. */
  function PlayStep(p: Playback, i: nat, v: Viewport, cfg: Config, pace: Pace): (q: Playback)
    requires i < |p.lines|
    ensures |q.lines| == |p.lines|
  {
    var e := p.lines[i];
    Playback(
      p.lines[i := PlayedLine(e, cfg)],
      StepNode(p.container, i, e, cfg),
      p.clock + LineWaits(e, cfg, pace),
      p.frames + LineFrames(i, e, cfg),
      ToggledAutoScroll(v, cfg.origAutoScroll),
      LineView(e, v, cfg))
  }

  /** The first n turns of start()'s loop: the state turn n starts from. */
  function PlayRun(p: Playback, n: nat, observed: nat -> Viewport, cfg: Config, pace: Pace): (q: Playback)
    requires n <= |p.lines|
    ensures |q.lines| == |p.lines|
  {
    Before(p, n, observed, cfg, pace)
  }

  /** The state turn n of start()'s loop starts from (every turn before it over). */
  function Before(p: Playback, n: nat, observed: nat -> Viewport, cfg: Config, pace: Pace): (q: Playback)
    requires n <= |p.lines|
    ensures |q.lines| == |p.lines|
    decreases n, 1
  {
    if n == 0 then p else After(p, n - 1, observed, cfg, pace)
  }

  /** The state turn i of start()'s loop ends in. */
  function After(p: Playback, i: nat, observed: nat -> Viewport, cfg: Config, pace: Pace): (q: Playback)
    requires i < |p.lines|
    ensures |q.lines| == |p.lines|
    decreases i + 1, 0
  {
    PlayStep(Before(p, i, observed, cfg, pace), i, observed(i), cfg, pace)
  }

  /** The state start()'s loop ends in, every line played. */
  function Played(p: Playback, observed: nat -> Viewport, cfg: Config, pace: Pace): (q: Playback)
    ensures |q.lines| == |p.lines|
  {
    PlayRun(p, |p.lines|, observed, cfg, pace)
  }

  /**
   * After n turns, the first n lines are played and the rest untouched;
   * the container, the clock and the shown texts have had each line's
   * effect added in order, and auto-scroll follows the last line's geometry.
   */
  lemma {:induction false} PlayRunSpec(p: Playback, n: nat, observed: nat -> Viewport, cfg: Config, pace: Pace)
    requires n <= |p.lines|
    ensures var q := PlayRun(p, n, observed, cfg, pace);
      q.lines == PlayedUpTo(p.lines, n, cfg)
      && q.container == ContainerUpTo(p.container, p.lines, n, cfg)
      && q.clock == p.clock + WaitsUpTo(p.lines, n, cfg, pace)
      && q.frames == p.frames + FramesUpTo(p.lines, n, cfg)
      && (n > 0 ==> q.autoScroll == ToggledAutoScroll(observed(n - 1), cfg.origAutoScroll)
                    && q.view == LineView(p.lines[n - 1], observed(n - 1), cfg))
  {
    if n > 0 {
      PlayRunSpec(p, n - 1, observed, cfg, pace);
      PlayRunNext(p, n - 1, observed, cfg, pace);
      PlayedUpToStep(p.lines, n - 1, cfg);
      Associative(p.clock, WaitsUpTo(p.lines, n - 1, cfg, pace), LineWaits(p.lines[n - 1], cfg, pace));
      Associative(p.frames, FramesUpTo(p.lines, n - 1, cfg), LineFrames(n - 1, p.lines[n - 1], cfg));
    }
  }

  /** The lines a run leaves in the container, in order: every line without a carriage return. */
  function KeptLines(lines: seq<Element>, n: nat, cfg: Config): seq<Node>
    requires n <= |lines|
  {
    if n == 0 then []
    else KeptLines(lines, n - 1, cfg) + (if CarriageReturn(lines[n - 1], cfg) then [] else [LineNode(n - 1)])
  }

  /** Line j is kept exactly when j < n and it has no carriage return; kept lines are in increasing order. */
  lemma {:induction false} KeptLinesSpec(lines: seq<Element>, n: nat, cfg: Config)
    requires n <= |lines|
    ensures forall x :: x in KeptLines(lines, n, cfg) <==> x.LineNode? && x.index < n && !CarriageReturn(lines[x.index], cfg)
    ensures forall a, b :: 0 <= a < b < |KeptLines(lines, n, cfg)| ==>
      KeptLines(lines, n, cfg)[a].index < KeptLines(lines, n, cfg)[b].index
  {
    if n > 0 {
      KeptLinesSpec(lines, n - 1, cfg);
    }
  }

  /**
   * Played from a container holding only the speed control, the container
   * ends up holding the speed control and then the kept lines in order.
   */
  lemma {:induction false} ContainerFromControl(control: Node, lines: seq<Element>, n: nat, cfg: Config)
    requires !control.LineNode? && n <= |lines|
    ensures ContainerUpTo([control], lines, n, cfg) == [control] + KeptLines(lines, n, cfg)
  {
    if n > 0 {
      ContainerFromControl(control, lines, n - 1, cfg);
      var before := [control] + KeptLines(lines, n - 1, cfg);
      var line := LineNode(n - 1);
      assert line !in before by {
        KeptLinesSpec(lines, n - 1, cfg);
      }
      RemoveAbsentChild(before, line);
      if CarriageReturn(lines[n - 1], cfg) {
        RemoveAppended(before, line);
      } else {
        Associative([control], KeptLines(lines, n - 1, cfg), [line]);
      }
    }
  }

  lemma {:induction false} RemoveAppended(c: seq<Node>, n: Node)
    requires n !in c
    ensures RemoveChild(c + [n], n) == c
  {
    if c != [] {
      assert (c + [n])[1..] == c[1..] + [n];
      RemoveAppended(c[1..], n);
      assert [c[0]] + c[1..] == c;
    }
  }

  /** Names the engine reads differ in length from the cursor attribute's, so removing the cursor keeps them. */
  lemma CursorRemovalKeepsSettings(e: Element, cfg: Config)
    ensures var r := RemoveAttribute(e, cfg.pfx + "-cursor");
      IsInput(r, cfg) == IsInput(e, cfg) && IsProgress(r, cfg) == IsProgress(e, cfg)
      && CarriageReturn(r, cfg) == CarriageReturn(e, cfg)
      && GetAttribute(r, cfg.pfx + "-delay") == GetAttribute(e, cfg.pfx + "-delay")
      && GetAttribute(r, cfg.pfx + "-typeDelay") == GetAttribute(e, cfg.pfx + "-typeDelay")
      && BarOf(r, cfg) == BarOf(e, cfg) && LimitOf(r, cfg) == LimitOf(e, cfg)
  {
    var cursor := cfg.pfx + "-cursor";
    OtherAttributeKept(e, cursor, "", cfg.pfx);
    OtherAttributeKept(e, cursor, "", cfg.pfx + "-carriageReturn");
    OtherAttributeKept(e, cursor, "", cfg.pfx + "-delay");
    OtherAttributeKept(e, cursor, "", cfg.pfx + "-typeDelay");
    OtherAttributeKept(e, cursor, "", cfg.pfx + "-progressLength");
    OtherAttributeKept(e, cursor, "", cfg.pfx + "-progressChar");
    OtherAttributeKept(e, cursor, "", cfg.pfx + "-progressPercent");
  }

  /**
   * A restart replays the same animation: playing an already played line
   * leaves it as it is, and with the same delays it waits and shows the
   * same as the first time.
   */
  lemma ReplayIsStable(i: nat, e: Element, cfg: Config, pace: Pace)
    requires DistinctNames(e.attrs)
    ensures PlayedLine(PlayedLine(e, cfg), cfg) == PlayedLine(e, cfg)
    ensures LineWaits(PlayedLine(e, cfg), cfg, pace) == LineWaits(e, cfg, pace)
    ensures LineFrames(i, PlayedLine(e, cfg), cfg) == LineFrames(i, e, cfg)
  {
    var cursor := cfg.pfx + "-cursor";
    var shown := if IsProgress(e, cfg) then e.(text := ProgressText(BarOf(e, cfg), StepsOf(e, cfg))) else e;
    var p := RemoveAttribute(shown, cursor);
    assert p == PlayedLine(e, cfg);
    CursorRemovalKeepsSettings(shown, cfg);
    OtherAttributeKept(shown, cursor, "", cfg.pfx);
    assert GetAttribute(shown, cfg.pfx) == GetAttribute(e, cfg.pfx);
    assert IsProgress(p, cfg) == IsProgress(e, cfg);
    RemoveAttributeGone(shown, cursor);
    if IsProgress(e, cfg) {
      assert p.(text := ProgressText(BarOf(p, cfg), StepsOf(p, cfg))) == p;
    }
  }

  /** Each wait of a typed line adds exactly the next character, and the line ends with its whole text. */
  lemma TypingFramesSpec(i: nat, text: string)
    ensures |TypingFrames(i, text)| == |text| + 1
    ensures TypingFrames(i, text)[0] == Shown(i, "") && TypingFrames(i, text)[|text|] == Shown(i, text)
    ensures forall k :: 0 <= k < |text| ==> TypingFrames(i, text)[k + 1].text == TypingFrames(i, text)[k].text + [text[k]]
  {
    assert text[..|text|] == text;
    forall k | 0 <= k < |text|
      ensures TypingFrames(i, text)[k + 1].text == TypingFrames(i, text)[k].text + [text[k]]
    {
      assert text[..k + 1] == text[..k] + [text[k]];
    }
  }

  // ---------------------------------------------------------------------------
  // The widget

  /**
   * A line's markup that gave no element: `loadLines` throws when it sets the
   * null line's style, before appending it. Hoisted markup has an element by
   * the relevance test, and a browser always finds the wrapping span, so only
   * a parser oracle that finds no element in that span reaches this.
   */
  const NoLineElement := "Cannot read properties of null (reading 'style')"

  class Termynal {
    /** The settings fixed at construction (prefix, configured delays, progress, cursor, auto-scroll). */
    const config: Config
    /** The line elements, changed in place by each run. */
    var lines: seq<Element>
    /** The container's children, in order. */
    var container: seq<Node>
    /** Every `_wait`, in order. */
    var clock: seq<Wait>
    /** Every text a typed or progress line showed, in order. */
    ghost var frames: seq<Shown>
    var startDelay: nat
    var typeDelay: nat
    var lineDelay: nat
    var autoScroll: bool
    /** The speed multiplier is 2^speedExp. */
    var speedExp: int
    /** The current speed control and the exponent its label shows. */
    var speedControl: nat
    var labelExp: int
    var speedControlHidden: bool
    var linesVisible: bool
    /** The container's scroll geometry. */
    var view: Viewport
    /** The number of controls created so far. */
    var nextId: nat

    /** The label always shows the current multiplier, and the current speed control is one already made. */
    ghost predicate Valid()
      reads this
    {
      labelExp == speedExp && speedControl < nextId
    }

    /**
     * The constructor once the container is resolved and the lines are made:
     * the settings, the field initialisers 600/90/1500 for the delays of the
     * first run, and loadLines, whose children `innerHTML = ""` clears again.
     */
    constructor(host: HostElement, options: TermynalOptions, elements: seq<Element>)
      ensures Valid()
      ensures config == ResolveConfig(options, host.attrs) && lines == elements
      ensures container == [] && clock == [] && frames == []
      ensures startDelay == DefaultStartDelay && typeDelay == DefaultTypeDelay && lineDelay == DefaultLineDelay
      ensures autoScroll == config.origAutoScroll && speedExp == 0 && speedControl == 0 && nextId == 2
      ensures speedControlHidden && !linesVisible && view == Viewport(0, 0, 0)
    {
      var resolved := ResolveConfig(options, host.attrs);
      config := resolved;
      lines := elements;
      startDelay := DefaultStartDelay;
      typeDelay := DefaultTypeDelay;
      lineDelay := DefaultLineDelay;
      autoScroll := resolved.origAutoScroll;
      speedExp := 0;
      clock := [];
      frames := [];
      view := Viewport(0, 0, 0);
      container := [];
      speedControl := 0;
      labelExp := 0;
      speedControlHidden := true;
      linesVisible := false;
      nextId := 0;
      new;
      LoadLines();
      container := [];
    }

    /**
     * loadLines: a hidden speed control, every line (hidden), then a hidden
     * restart link, appended in that order.
     */
    method LoadLines()
      modifies this`container, this`speedControl, this`labelExp, this`speedControlHidden, this`nextId, this`linesVisible
      ensures Valid() && speedControl == old(nextId) && nextId == old(nextId) + 2
      ensures speedControlHidden && !linesVisible
      ensures container == AppendChild(AppendLines(AppendChild(old(container), SpeedControlNode(old(nextId))), |lines|),
        RestartNode(old(nextId) + 1))
    {
      AddFinish();
      speedControlHidden := true;
      ghost var withControl := container;
      var i := 0;
      while i < |lines|
        invariant 0 <= i <= |lines| && container == AppendLines(withControl, i)
        modifies this`container
      {
        container := AppendChild(container, LineNode(i));
        i := i + 1;
      }
      linesVisible := false;
      AddRestart();
    }

    /** _wait: the delay, divided by the multiplier when the timer is set. */
    method WaitFor(time: JsNumber)
      modifies this`clock
      ensures clock == old(clock) + [Wait(time, speedExp)]
    {
      clock := clock + [Wait(time, speedExp)];
    }

    /** _toggleAutoScrollBasedOnUserInteraction. */
    method ToggleAutoScroll()
      modifies this`autoScroll
      ensures autoScroll == ToggledAutoScroll(view, config.origAutoScroll)
    {
      if !IsAtBottom(view) {
        autoScroll := false;
      } else {
        autoScroll := config.origAutoScroll;
      }
    }

    /** _scrollToBottom. */
    method ScrollToBottom()
      modifies this`view
      ensures view == ScrolledToBottom(old(view), autoScroll)
    {
      if autoScroll {
        view := view.(scrollTop := view.scrollHeight);
      }
    }

    /** The speed-up handler: the multiplier doubles and the label follows. */
    method SpeedUp()
      requires Valid()
      modifies this`speedExp, this`labelExp
      ensures Valid() && speedExp == old(speedExp) + 1
    {
      speedExp := speedExp + 1;
      labelExp := speedExp;
    }

    /** The slow-down handler: the multiplier halves and the label follows. */
    method SlowDown()
      requires Valid()
      modifies this`speedExp, this`labelExp
      ensures Valid() && speedExp == old(speedExp) - 1
    {
      speedExp := speedExp - 1;
      labelExp := speedExp;
    }

    /** addFinish: a new, visible speed control showing the current multiplier, appended. */
    method AddFinish()
      modifies this`speedControl, this`labelExp, this`speedControlHidden, this`container, this`nextId
      ensures Valid()
      ensures speedControl == old(nextId) && nextId == old(nextId) + 1 && !speedControlHidden
      ensures container == AppendChild(old(container), SpeedControlNode(old(nextId)))
    {
      speedControl := nextId;
      labelExp := speedExp;
      speedControlHidden := false;
      nextId := nextId + 1;
      container := AppendChild(container, SpeedControlNode(speedControl));
    }

    /** addRestart: a new restart link, appended. */
    method AddRestart()
      requires Valid()
      modifies this`container, this`nextId
      ensures Valid()
      ensures nextId == old(nextId) + 1 && container == AppendChild(old(container), RestartNode(old(nextId)))
    {
      container := AppendChild(container, RestartNode(nextId));
      nextId := nextId + 1;
    }

    /**
     * type: the line is emptied and appended, then after each wait it shows
     * one more character; it ends with its text as it was.
     */
    method Type(i: nat)
      requires i < |lines|
      modifies this`lines, this`frames, this`container, this`view, this`clock
      ensures lines == old(lines)
      ensures container == AppendChild(old(container), LineNode(i))
      ensures view == ScrolledToBottom(old(view), autoScroll)
      ensures clock == old(clock) + Repeated(Wait(TypeDelay(lines[i], config, Pace(typeDelay, lineDelay, speedExp)), speedExp), |lines[i].text|)
      ensures frames == old(frames) + TypingFrames(i, lines[i].text)
    {
      var line := lines[i];
      var chars := line.text;
      ghost var w := Wait(TypeDelay(line, config, Pace(typeDelay, lineDelay, speedExp)), speedExp);
      lines := lines[i := line.(text := "")];
      frames := frames + [Shown(i, "")];
      container := AppendChild(container, LineNode(i));
      ScrollToBottom();
      var k := 0;
      while k < |chars|
        invariant 0 <= k <= |chars|
        invariant lines == old(lines)[i := line.(text := chars[..k])]
        invariant clock == old(clock) + Repeated(w, k)
        invariant frames == old(frames) + TypingFrames(i, chars[..k])
        modifies this`lines, this`frames, this`clock
      {
        // only the text changes, so the attribute reads as it did before the loop
        var delay := DelayFrom(GetAttribute(line, config.pfx + "-typeDelay"), typeDelay);
        WaitFor(delay);
        RepeatedOneMore(w, k);
        Associative(old(clock), Repeated(w, k), [w]);
        lines := lines[i := line.(text := lines[i].text + [chars[k]])];
        TypingStep(i, chars, k);
        UpdateTwice(old(lines), i, line.(text := chars[..k]), line.(text := chars[..k + 1]));
        frames := frames + [Shown(i, chars[..k + 1])];
        Associative(old(frames), TypingFrames(i, chars[..k]), [Shown(i, chars[..k + 1])]);
        k := k + 1;
      }
      assert chars[..k] == chars;
    }

    /**
     * progress: the line is emptied and appended; each step waits the type
     * delay and shows the bar so far and its percent, and the loop stops
     * after the step that passes the limit.
     */
    method Progress(i: nat)
      requires i < |lines|
      modifies this`lines, this`frames, this`container, this`clock
      ensures var e := old(lines)[i];
        lines == old(lines)[i := e.(text := ProgressText(BarOf(e, config), StepsOf(e, config)))]
        && clock == old(clock) + Repeated(Wait(Num(typeDelay), speedExp), StepsOf(e, config))
        && frames == old(frames) + ProgressFrames(i, BarOf(e, config), StepsOf(e, config))
      ensures container == AppendChild(old(container), LineNode(i))
    {
      var line := lines[i];
      var bar := BarOf(line, config);
      var limit := LimitOf(line, config);
      FillBar(i, bar, limit);
    }

    /**
     * The rest of progress once the bar and the limit are read: the line is
     * emptied and appended, and step k shows the first k bar characters and
     * the percent.
     */
    method FillBar(i: nat, bar: string, limit: JsNumber)
      requires i < |lines|
      modifies this`lines, this`frames, this`container, this`clock
      ensures lines == old(lines)[i := old(lines)[i].(text := ProgressText(bar, ProgressSteps(|bar|, limit)))]
      ensures clock == old(clock) + Repeated(Wait(Num(typeDelay), speedExp), ProgressSteps(|bar|, limit))
      ensures frames == old(frames) + ProgressFrames(i, bar, ProgressSteps(|bar|, limit))
      ensures container == AppendChild(old(container), LineNode(i))
    {
      var line := lines[i];
      lines := lines[i := line.(text := "")];
      frames := frames + [Shown(i, "")];
      container := AppendChild(container, LineNode(i));
      ghost var w := Wait(Num(typeDelay), speedExp);
      var k := 1;
      while k < |bar| + 1
        invariant 1 <= k <= |bar| + 1
        invariant forall j :: 1 <= j < k ==> !Exceeds(Percent(j, |bar|), limit)
        invariant lines == old(lines)[i := line.(text := ProgressText(bar, k - 1))]
        invariant clock == old(clock) + Repeated(w, k - 1)
        invariant frames == old(frames) + ProgressFrames(i, bar, k - 1)
        modifies this`lines, this`frames, this`clock
      {
        WaitFor(Num(typeDelay));
        RepeatedOneMore(w, k - 1);
        Associative(old(clock), Repeated(w, k - 1), [w]);
        var percent := Percent(k, |bar|);
        lines := lines[i := line.(text := ProgressFrame(bar, k))];
        UpdateTwice(old(lines), i, line.(text := ProgressText(bar, k - 1)), line.(text := ProgressFrame(bar, k)));
        ProgressStep(i, bar, k);
        frames := frames + [Shown(i, ProgressFrame(bar, k))];
        Associative(old(frames), ProgressFrames(i, bar, k - 1), [Shown(i, ProgressFrame(bar, k))]);
        if Exceeds(percent, limit) {
          StepsAt(|bar|, limit, k);
          k := k + 1;
          break;
        }
        k := k + 1;
      }
      StepsAt(|bar|, limit, k - 1);
    }

    /**
     * One turn of start()'s loop: read the line's settings, follow the
     * user's scrolling, then type, fill or append the line, wait, drop it
     * again for a carriage return, and remove the cursor attribute.
     */
    method PlayLine(i: nat, v: Viewport)
      requires i < |lines|
      modifies this`lines, this`frames, this`container, this`view, this`clock, this`autoScroll
      ensures Snapshot() == PlayStep(old(Snapshot()), i, v, config, Pace(typeDelay, lineDelay, speedExp))
    {
      var line := lines[i];
      var kind := GetAttribute(line, config.pfx);
      var delay := DelayFrom(GetAttribute(line, config.pfx + "-delay"), lineDelay);
      var carriageReturn := Flag(GetAttribute(line, config.pfx + "-carriageReturn"));
      if kind == Some("input") {
        PlayInput(i, v, delay, carriageReturn);
      } else if kind == Some("progress") {
        var bar := BarOf(line, config);
        var limit := LimitOf(line, config);
        ProgressEffects(i, line, config, Pace(typeDelay, lineDelay, speedExp), delay, bar, limit);
        PlayProgress(i, v, bar, limit, delay, carriageReturn);
      } else {
        PlayOutput(i, v, delay, carriageReturn);
      }
    }

    /**
     * The input branch of start()'s loop body: follow the user's scrolling,
     * set the cursor, type, wait, and tidy up.
     */
    method PlayInput(i: nat, v: Viewport, delay: JsNumber, carriageReturn: bool)
      requires i < |lines| && IsInput(lines[i], config)
      requires delay == LineDelay(lines[i], config, Pace(typeDelay, lineDelay, speedExp))
      requires carriageReturn == CarriageReturn(lines[i], config)
      modifies this`lines, this`frames, this`container, this`view, this`clock, this`autoScroll
      ensures lines == old(lines)[i := PlayedLine(old(lines)[i], config)]
      ensures container == StepNode(old(container), i, old(lines)[i], config)
      ensures clock == old(clock) + LineWaits(old(lines)[i], config, Pace(typeDelay, lineDelay, speedExp))
      ensures frames == old(frames) + LineFrames(i, old(lines)[i], config)
      ensures autoScroll == ToggledAutoScroll(v, config.origAutoScroll) && view == ScrolledToBottom(v, autoScroll)
    {
      view := v;
      ToggleAutoScroll();
      var line := lines[i];
      var cursor := config.pfx + "-cursor";
      var marked := SetAttribute(line, cursor, config.cursor);
      InputEffects(i, line, config, Pace(typeDelay, lineDelay, speedExp), delay);
      lines := lines[i := marked];
      Type(i);
      WaitFor(delay);
      Associative(old(clock), Repeated(Wait(TypeDelay(marked, config, Pace(typeDelay, lineDelay, speedExp)), speedExp), |marked.text|),
        [Wait(delay, speedExp)]);
      if carriageReturn {
        container := RemoveChild(container, LineNode(i));
      }
      lines := lines[i := RemoveAttribute(lines[i], cursor)];
      UpdateTwice(old(lines), i, marked, RemoveAttribute(marked, cursor));
    }

    /**
     * The progress branch of start()'s loop body, once the line's bar, limit,
     * delay and carriage-return flag are read: follow the user's scrolling,
     * fill the bar, wait, and tidy up.
     */
    method PlayProgress(i: nat, v: Viewport, bar: string, limit: JsNumber, delay: JsNumber, carriageReturn: bool)
      requires i < |lines|
      modifies this`lines, this`frames, this`container, this`clock, this`view, this`autoScroll
      ensures var filled := old(lines)[i].(text := ProgressText(bar, ProgressSteps(|bar|, limit)));
        lines == old(lines)[i := RemoveAttribute(filled, config.pfx + "-cursor")]
      ensures var appended := AppendChild(old(container), LineNode(i));
        container == if carriageReturn then RemoveChild(appended, LineNode(i)) else appended
      ensures clock == old(clock) + (Repeated(Wait(Num(typeDelay), speedExp), ProgressSteps(|bar|, limit)) + [Wait(delay, speedExp)])
      ensures frames == old(frames) + ProgressFrames(i, bar, ProgressSteps(|bar|, limit))
      ensures autoScroll == ToggledAutoScroll(v, config.origAutoScroll) && view == v
    {
      view := v;
      ToggleAutoScroll();
      var cursor := config.pfx + "-cursor";
      ghost var filled := lines[i].(text := ProgressText(bar, ProgressSteps(|bar|, limit)));
      FillBar(i, bar, limit);
      WaitFor(delay);
      Associative(old(clock), Repeated(Wait(Num(typeDelay), speedExp), ProgressSteps(|bar|, limit)), [Wait(delay, speedExp)]);
      if carriageReturn {
        container := RemoveChild(container, LineNode(i));
      }
      lines := lines[i := RemoveAttribute(lines[i], cursor)];
      UpdateTwice(old(lines), i, filled, RemoveAttribute(filled, cursor));
    }

    /** Any other line: follow the user's scrolling, append it whole, scroll, wait, and tidy up. */
    method PlayOutput(i: nat, v: Viewport, delay: JsNumber, carriageReturn: bool)
      requires i < |lines| && !IsInput(lines[i], config) && !IsProgress(lines[i], config)
      requires delay == LineDelay(lines[i], config, Pace(typeDelay, lineDelay, speedExp))
      requires carriageReturn == CarriageReturn(lines[i], config)
      modifies this`lines, this`frames, this`container, this`view, this`clock, this`autoScroll
      ensures lines == old(lines)[i := PlayedLine(old(lines)[i], config)]
      ensures container == StepNode(old(container), i, old(lines)[i], config)
      ensures clock == old(clock) + LineWaits(old(lines)[i], config, Pace(typeDelay, lineDelay, speedExp))
      ensures frames == old(frames) + LineFrames(i, old(lines)[i], config)
      ensures autoScroll == ToggledAutoScroll(v, config.origAutoScroll) && view == ScrolledToBottom(v, autoScroll)
    {
      view := v;
      ToggleAutoScroll();
      var line := lines[i];
      OutputEffects(i, line, config, Pace(typeDelay, lineDelay, speedExp), delay);
      container := AppendChild(container, LineNode(i));
      ScrollToBottom();
      WaitFor(delay);
      if carriageReturn {
        container := RemoveChild(container, LineNode(i));
      }
      lines := lines[i := RemoveAttribute(lines[i], config.pfx + "-cursor")];
      NothingAppended(frames);
    }

    /** The state a run of start() changes. */
    ghost function Snapshot(): Playback
      reads this`lines, this`container, this`clock, this`frames, this`autoScroll, this`view
    {
      Playback(lines, container, clock, frames, autoScroll, view)
    }

    /** start()'s loop over the lines. */
    method PlayAll(observed: nat -> Viewport, ghost pace: Pace)
      requires pace == Pace(typeDelay, lineDelay, speedExp)
      modifies this`lines, this`frames, this`container, this`view, this`clock, this`autoScroll
      ensures Snapshot() == Played(old(Snapshot()), observed, config, pace)
    {
      ghost var start := Snapshot();
      var i := 0;
      while i < |lines|
        invariant 0 <= i <= |start.lines| && |lines| == |start.lines|
        invariant Snapshot() == PlayRun(start, i, observed, config, pace)
      {
        PlayNext(start, i, observed, pace);
        i := i + 1;
      }
      assert i == |old(lines)|;
    }

    /** One more turn of start()'s loop, as a step of the run so far. */
    method PlayNext(ghost start: Playback, i: nat, observed: nat -> Viewport, ghost pace: Pace)
      requires i < |start.lines| && |lines| == |start.lines| && pace == Pace(typeDelay, lineDelay, speedExp)
      requires Snapshot() == PlayRun(start, i, observed, config, pace)
      modifies this`lines, this`frames, this`container, this`view, this`clock, this`autoScroll
      ensures |lines| == |start.lines|
      ensures Snapshot() == PlayRun(start, i + 1, observed, config, pace)
    {
      PlayRunNext(start, i, observed, config, pace);
      PlayLine(i, observed(i));
    }

    /**
     * start: a speed control, the start delay, every line in order, then a
     * restart link; the speed control is hidden and the delays go back to
     * the configured ones.
     */
    method Start(observed: nat -> Viewport)
      requires Valid()
      modifies this`lines, this`frames, this`container, this`view, this`clock, this`autoScroll
      modifies this`speedControl, this`labelExp, this`speedControlHidden, this`nextId
      modifies this`lineDelay, this`typeDelay, this`startDelay
      ensures Valid()
      ensures Snapshot() == Started(old(Snapshot()), old(nextId), Wait(Num(old(startDelay)), old(speedExp)),
        observed, config, Pace(old(typeDelay), old(lineDelay), old(speedExp)))
      ensures startDelay == config.originalStartDelay && typeDelay == config.originalTypeDelay
        && lineDelay == config.originalLineDelay
      ensures speedExp == old(speedExp) && speedControl == old(nextId) && speedControlHidden
        && nextId == old(nextId) + 2
    {
      ghost var s0 := Snapshot();
      ghost var id := nextId;
      ghost var w := Wait(Num(startDelay), speedExp);
      ghost var pace := Pace(typeDelay, lineDelay, speedExp);
      Open();
      ghost var s1 := Snapshot();
      PlayAll(observed, pace);
      ghost var s2 := Snapshot();
      Close();
      StartedSteps(s0, s1, s2, Snapshot(), id, w, observed, config, pace);
    }

    /** The opening of start(): a new speed control, then the start delay. */
    method Open()
      requires Valid()
      modifies this`speedControl, this`labelExp, this`speedControlHidden, this`container, this`nextId, this`clock
      ensures Valid()
      ensures Snapshot() == Opened(old(Snapshot()), old(nextId), Wait(Num(startDelay), speedExp))
      ensures speedControl == old(nextId) && nextId == old(nextId) + 1
    {
      AddFinish();
      WaitFor(Num(startDelay));
    }

    /** The close of start(): a restart link, the speed control hidden, the configured delays back. */
    method Close()
      requires Valid()
      modifies this`container, this`nextId, this`speedControlHidden, this`lineDelay, this`typeDelay, this`startDelay
      ensures Valid()
      ensures Snapshot() == old(Snapshot()).(container := AppendChild(old(container), RestartNode(old(nextId))))
      ensures nextId == old(nextId) + 1 && speedControlHidden
      ensures startDelay == config.originalStartDelay && typeDelay == config.originalTypeDelay
        && lineDelay == config.originalLineDelay
    {
      AddRestart();
      speedControlHidden := true;
      lineDelay := config.originalLineDelay;
      typeDelay := config.originalTypeDelay;
      startDelay := config.originalStartDelay;
    }

    /**
     * What a run of `init` leaves, from the playback state `before` with its
     * container emptied: every line played, the container holding the speed
     * control, the kept lines and the restart link, the start wait and then
     * each line's waits on the clock, each line's frames shown, the whole
     * playback state as `start()` specifies it, the configured delays back,
     * the multiplier unchanged, and the new speed control hidden.
     */
    ghost predicate Initialised(before: Playback, id: nat, startWait: Wait, pace: Pace, observed: nat -> Viewport)
      reads this
    {
      var n := |before.lines|;
      lines == PlayedUpTo(before.lines, n, config)
      && container == [SpeedControlNode(id)] + KeptLines(before.lines, n, config) + [RestartNode(id + 1)]
      && clock == before.clock + [startWait] + WaitsUpTo(before.lines, n, config, pace)
      && frames == before.frames + FramesUpTo(before.lines, n, config)
      && Snapshot() == Started(before, id, startWait, observed, config, pace)
      && startDelay == config.originalStartDelay && typeDelay == config.originalTypeDelay
      && lineDelay == config.originalLineDelay
      && speedExp == pace.speedExp && speedControl == id && speedControlHidden && nextId == id + 2
    }

    /**
     * init: the container is emptied, the lines made visible, and start
     * runs; the container ends with the speed control, the lines kept in
     * order and the restart link.
     */
    method Init(observed: nat -> Viewport)
      requires Valid()
      modifies this
      ensures Valid() && linesVisible
      ensures Initialised(old(Snapshot()).(container := []), old(nextId), Wait(Num(old(startDelay)), old(speedExp)),
        Pace(old(typeDelay), old(lineDelay), old(speedExp)), observed)
    {
      container := [];
      linesVisible := true;
      ghost var p0 := Playback(lines, [SpeedControlNode(nextId)], clock + [Wait(Num(startDelay), speedExp)], frames, autoScroll, view);
      ghost var pace := Pace(typeDelay, lineDelay, speedExp);
      ghost var id := nextId;
      assert AppendChild([], SpeedControlNode(nextId)) == [SpeedControlNode(nextId)];
      Start(observed);
      PlayRunSpec(p0, |p0.lines|, observed, config, pace);
      InitContainer(id, p0.lines, config);
    }

    /** The restart handler: the container is emptied and init runs again, with the same outcome. */
    method Restart(observed: nat -> Viewport)
      requires Valid()
      modifies this
      ensures Valid() && linesVisible
      ensures Initialised(old(Snapshot()).(container := []), old(nextId), Wait(Num(old(startDelay)), old(speedExp)),
        Pace(old(typeDelay), old(lineDelay), old(speedExp)), observed)
    {
      container := [];
      Init(observed);
    }
  }

  // ---------------------------------------------------------------------------
  // Steps of the proofs above

  /** start() as its three stages: opening, the loop, closing. */
  lemma StartedSteps(s0: Playback, s1: Playback, s2: Playback, s3: Playback, id: nat, w: Wait,
                     observed: nat -> Viewport, cfg: Config, pace: Pace)
    requires s1 == Opened(s0, id, w)
    requires s2 == Played(s1, observed, cfg, pace)
    requires s3 == s2.(container := AppendChild(s2.container, RestartNode(id + 1)))
    ensures s3 == Started(s0, id, w, observed, cfg, pace)
  {
  }

  /** The state once start() has appended a speed control and waited the start delay. */
  function Opened(p: Playback, id: nat, startWait: Wait): (q: Playback)
    ensures q.lines == p.lines
  {
    p.(container := AppendChild(p.container, SpeedControlNode(id)), clock := p.clock + [startWait])
  }

  /** The state start() leaves: every line played after the opening, then a restart link appended. */
  function Started(p: Playback, id: nat, startWait: Wait, observed: nat -> Viewport, cfg: Config, pace: Pace): (q: Playback)
    ensures |q.lines| == |p.lines|
  {
    var run := Played(Opened(p, id, startWait), observed, cfg, pace);
    run.(container := AppendChild(run.container, RestartNode(id + 1)))
  }

  /** One more turn of the loop is one more step. */
  lemma PlayRunNext(p: Playback, i: nat, observed: nat -> Viewport, cfg: Config, pace: Pace)
    requires i < |p.lines|
    ensures PlayRun(p, i + 1, observed, cfg, pace) == PlayStep(PlayRun(p, i, observed, cfg, pace), i, observed(i), cfg, pace)
  {
    assert Before(p, i + 1, observed, cfg, pace) == After(p, i, observed, cfg, pace);
  }

  lemma Associative<T>(a: seq<T>, b: seq<T>, c: seq<T>)
    ensures a + b + c == a + (b + c)
  {
  }

  lemma PlayedUpToStep(lines: seq<Element>, i: nat, cfg: Config)
    requires i < |lines|
    ensures PlayedUpTo(lines, i, cfg)[i] == lines[i]
    ensures PlayedUpTo(lines, i, cfg)[i := PlayedLine(lines[i], cfg)] == PlayedUpTo(lines, i + 1, cfg)
  {
  }

  lemma TypingStep(i: nat, chars: string, k: nat)
    requires k < |chars|
    ensures TypingFrames(i, chars[..k]) + [Shown(i, chars[..k + 1])] == TypingFrames(i, chars[..k + 1])
    ensures chars[..k] + [chars[k]] == chars[..k + 1]
  {
    assert chars[..k + 1][..k] == chars[..k];
    var a := TypingFrames(i, chars[..k]) + [Shown(i, chars[..k + 1])];
    var b := TypingFrames(i, chars[..k + 1]);
    assert |a| == |b|;
    forall j | 0 <= j < |a|
      ensures a[j] == b[j]
    {
      if j <= k {
        assert chars[..k][..j] == chars[..k + 1][..j];
      } else {
        assert chars[..k + 1][..j] == chars[..k + 1];
      }
    }
  }

  lemma ProgressStep(i: nat, bar: string, k: nat)
    requires 1 <= k <= |bar|
    ensures ProgressFrames(i, bar, k - 1) + [Shown(i, ProgressFrame(bar, k))] == ProgressFrames(i, bar, k)
  {
  }

  /** A step where the loop stops (at the end, or past the limit with none before) is the step count. */
  lemma StepsAt(len: nat, limit: JsNumber, n: nat)
    requires n <= len && (len > 0 ==> 1 <= n)
    requires forall j :: 1 <= j < n ==> !Exceeds(Percent(j, len), limit)
    requires n == len || Exceeds(Percent(n, len), limit)
    ensures ProgressSteps(len, limit) == n
  {
    ProgressStepsSpec(len, limit);
  }

  lemma CursorKeepsTypeDelay(e: Element, cfg: Config)
    ensures var c := SetAttribute(e, cfg.pfx + "-cursor", cfg.cursor);
      GetAttribute(c, cfg.pfx + "-typeDelay") == GetAttribute(e, cfg.pfx + "-typeDelay")
      && RemoveAttribute(c, cfg.pfx + "-cursor") == RemoveAttribute(e, cfg.pfx + "-cursor")
  {
    OtherAttributeKept(e, cfg.pfx + "-cursor", cfg.cursor, cfg.pfx + "-typeDelay");
    RemoveAfterSet(e.attrs, AsciiLower(cfg.pfx + "-cursor"), cfg.cursor);
  }

  /** What the input branch adds up to, in the terms the branch computes them. */
  lemma InputEffects(i: nat, e: Element, cfg: Config, pace: Pace, delay: JsNumber)
    requires IsInput(e, cfg) && delay == LineDelay(e, cfg, pace)
    ensures var marked := SetAttribute(e, cfg.pfx + "-cursor", cfg.cursor);
      PlayedLine(e, cfg) == RemoveAttribute(marked, cfg.pfx + "-cursor")
      && LineWaits(e, cfg, pace) == Repeated(Wait(TypeDelay(marked, cfg, pace), pace.speedExp), |marked.text|) + [Wait(delay, pace.speedExp)]
      && LineFrames(i, e, cfg) == TypingFrames(i, marked.text)
      && !IsProgress(e, cfg)
  {
    CursorKeepsTypeDelay(e, cfg);
  }

  /** What the progress branch adds up to, in the terms the branch computes them. */
  lemma ProgressEffects(i: nat, e: Element, cfg: Config, pace: Pace, delay: JsNumber, bar: string, limit: JsNumber)
    requires IsProgress(e, cfg) && delay == LineDelay(e, cfg, pace)
    requires bar == BarOf(e, cfg) && limit == LimitOf(e, cfg)
    ensures var filled := e.(text := ProgressText(bar, ProgressSteps(|bar|, limit)));
      PlayedLine(e, cfg) == RemoveAttribute(filled, cfg.pfx + "-cursor")
      && LineWaits(e, cfg, pace) == Repeated(Wait(Num(pace.typeDelay), pace.speedExp), ProgressSteps(|bar|, limit)) + [Wait(delay, pace.speedExp)]
      && LineFrames(i, e, cfg) == ProgressFrames(i, bar, ProgressSteps(|bar|, limit))
  {
    assert !IsInput(e, cfg) by {
      assert GetAttribute(e, cfg.pfx).value[0] == 'p';
    }
  }

  /** What any other line adds up to. */
  lemma OutputEffects(i: nat, e: Element, cfg: Config, pace: Pace, delay: JsNumber)
    requires !IsInput(e, cfg) && !IsProgress(e, cfg) && delay == LineDelay(e, cfg, pace)
    ensures PlayedLine(e, cfg) == RemoveAttribute(e, cfg.pfx + "-cursor")
      && LineWaits(e, cfg, pace) == [Wait(delay, pace.speedExp)]
      && LineFrames(i, e, cfg) == []
  {
  }

  /** One more equal wait. */
  lemma RepeatedOneMore(w: Wait, n: nat)
    ensures Repeated(w, n) + [w] == Repeated(w, n + 1)
  {
    assert forall k :: 0 <= k < n + 1 ==> (Repeated(w, n) + [w])[k] == w;
  }

  lemma UpdateTwice<T>(s: seq<T>, i: nat, a: T, b: T)
    requires i < |s|
    ensures s[i := a][i := b] == s[i := b]
  {
  }

  lemma NothingAppended<T>(s: seq<T>)
    ensures s + [] == s
  {
  }

  lemma InitContainer(id: nat, lines: seq<Element>, cfg: Config)
    ensures AppendChild(ContainerUpTo([SpeedControlNode(id)], lines, |lines|, cfg), RestartNode(id + 1))
      == [SpeedControlNode(id)] + KeptLines(lines, |lines|, cfg) + [RestartNode(id + 1)]
  {
    ContainerFromControl(SpeedControlNode(id), lines, |lines|, cfg);
    var c := [SpeedControlNode(id)] + KeptLines(lines, |lines|, cfg);
    KeptLinesSpec(lines, |lines|, cfg);
    assert RestartNode(id + 1) !in c;
    AppendChildSpec(c, RestartNode(id + 1));
  }

  // ---------------------------------------------------------------------------
  // The constructor as a whole

  /**
   * The line elements once each markup's first element is taken: all of
   * them, or nothing when some markup gives no element.
   */
  method AllPresent(made: seq<Option<Element>>) returns (r: Option<seq<Element>>)
    ensures r.Some? <==> forall j :: 0 <= j < |made| ==> made[j].Some?
    ensures r.Some? ==> |r.value| == |made| && forall j :: 0 <= j < |made| ==> made[j] == Some(r.value[j])
  {
    var elements := [];
    var i := 0;
    while i < |made|
      invariant 0 <= i <= |made| && |elements| == i
      invariant forall j :: 0 <= j < i ==> made[j] == Some(elements[j])
    {
      if made[i].None? {
        return None;
      }
      elements := elements + [made[i].value];
      i := i + 1;
    }
    return Some(elements);
  }

  /** A first run, from an empty clock and no frames: the state `new Termynal` leaves when it starts. */
  lemma FirstRun(t: Termynal, before: Playback, w: Wait, pace: Pace, observed: nat -> Viewport)
    requires t.Initialised(before, 2, w, pace, observed) && before.clock == [] && t.linesVisible
    ensures var n := |before.lines|;
      t.linesVisible && t.lines == PlayedUpTo(before.lines, n, t.config)
      && t.clock == [w] + WaitsUpTo(before.lines, n, t.config, pace)
      && t.container == [SpeedControlNode(2)] + KeptLines(before.lines, n, t.config) + [RestartNode(3)]
  {
    assert [] + [w] == [w];
  }

  /** Every entry's markup gives an element. */
  ghost predicate AllRender(lineData: seq<LineData>, customPfx: string, html: Html) {
    forall j :: 0 <= j < |lineData| ==> html.firstElement(TermynalMarkup(lineData[j], customPfx, html)).Some?
  }

  /** The line elements the entries' markups give, in order. */
  ghost function Rendered(lineData: seq<LineData>, customPfx: string, html: Html): (r: seq<Element>)
    requires AllRender(lineData, customPfx, html)
    ensures |r| == |lineData|
    ensures forall j :: 0 <= j < |lineData| ==> html.firstElement(TermynalMarkup(lineData[j], customPfx, html)) == Some(r[j])
  {
    seq(|lineData|, j requires 0 <= j < |lineData| => html.firstElement(TermynalMarkup(lineData[j], customPfx, html)).value)
  }

  /**
   * `new Termynal(container, options)`: it fails exactly when the container
   * does not resolve or some line's markup gives no element; otherwise the
   * widget holds the rendered lines, and starts unless noInit.
   */
  method NewTermynal(ref: ContainerRef, querySelector: string -> Option<HostElement>, options: TermynalOptions,
    html: Html, observed: nat -> Viewport)
    returns (r: Result<Termynal>)
    ensures GetElementFromSelectorOrElement(ref, querySelector).Err? ==> r == Err(ContainerNotFound)
    ensures GetElementFromSelectorOrElement(ref, querySelector).Ok? ==>
      (r.Ok? <==> AllRender(options.lineData.GetOr([]), options.prefix.GetOr("ty"), html))
    ensures GetElementFromSelectorOrElement(ref, querySelector).Ok? && r.Err? ==> r == Err(NoLineElement)
    ensures r.Ok? ==>
      var host := GetElementFromSelectorOrElement(ref, querySelector).value;
      fresh(r.value) && r.value.Valid() && r.value.config == ResolveConfig(options, host.attrs)
    ensures r.Ok? && options.noInit != Some(true) ==>
      var elements := Rendered(options.lineData.GetOr([]), options.prefix.GetOr("ty"), html);
      r.value.linesVisible && r.value.lines == PlayedUpTo(elements, |elements|, r.value.config)
      && r.value.clock == [Wait(Num(DefaultStartDelay), 0)]
           + WaitsUpTo(elements, |elements|, r.value.config, Pace(DefaultTypeDelay, DefaultLineDelay, 0))
      && r.value.container == [SpeedControlNode(2)] + KeptLines(elements, |elements|, r.value.config) + [RestartNode(3)]
    ensures r.Ok? && options.noInit == Some(true) ==>
      r.value.lines == Rendered(options.lineData.GetOr([]), options.prefix.GetOr("ty"), html)
      && r.value.container == [] && r.value.clock == []
  {
    var host := GetElementFromSelectorOrElement(ref, querySelector);
    if host.Err? {
      return Err(host.message);
    }
    var customPfx := options.prefix.GetOr("ty");
    var lineData := options.lineData.GetOr([]);
    var made := LineDataToElements(lineData, customPfx, html);
    var present := AllPresent(made);
    if present.None? {
      return Err(NoLineElement);
    }
    assert present.value == Rendered(lineData, customPfx, html);
    var t := new Termynal(host.value, options, present.value);
    if options.noInit != Some(true) {
      ghost var before := t.Snapshot();
      ghost var w, pace := Wait(Num(DefaultStartDelay), 0), Pace(DefaultTypeDelay, DefaultLineDelay, 0);
      assert before.(container := []) == before;
      t.Init(observed);
      FirstRun(t, before, w, pace, observed);
    }
    return Ok(t);
  }
}
