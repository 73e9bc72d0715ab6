/**
 * The JavaScript string and number built-ins the terminal code relies on
 * (startsWith, indexOf, replace with a string pattern, trimEnd, slice, split,
 * join, repeat, number-to-string and parseFloat), stated over seq<char>.
 * A char stands for one code point.
 */
module JsString {

  // ---------------------------------------------------------------------------
  // Searching

  /** String.prototype.startsWith. */
  predicate StartsWith(s: string, p: string) {
    p <= s
  }

  /** `p` occurs in `s` at index `i`. */
  predicate OccursAt(s: string, p: string, i: int) {
    0 <= i && i + |p| <= |s| && s[i..i + |p|] == p
  }

  ghost predicate Contains(s: string, p: string) {
    exists i :: OccursAt(s, p, i)
  }

  /** The first occurrence of `p` in `s` at or after `from`, or -1. */
  function IndexFrom(s: string, p: string, from: nat): (r: int)
    ensures r == -1 || (from <= r && OccursAt(s, p, r))
    decreases |s| - from
  {
    if from + |p| > |s| then -1
    else if s[from..from + |p|] == p then from
    else IndexFrom(s, p, from + 1)
  }

  /** IndexFrom finds the first occurrence at or after `from`, and -1 only when there is none. */
  lemma {:induction false} IndexFromFirst(s: string, p: string, from: nat)
    ensures IndexFrom(s, p, from) == -1 ==> forall j :: from <= j ==> !OccursAt(s, p, j)
    ensures IndexFrom(s, p, from) != -1 ==> forall j :: from <= j < IndexFrom(s, p, from) ==> !OccursAt(s, p, j)
    decreases |s| - from
  {
    if from + |p| <= |s| && s[from..from + |p|] != p {
      IndexFromFirst(s, p, from + 1);
    }
  }

  /** String.prototype.indexOf: the first index of `p` in `s`, -1 when there is none. */
  function IndexOf(s: string, p: string): (r: int)
    ensures r == -1 || OccursAt(s, p, r)
  {
    IndexFrom(s, p, 0)
  }

  /** indexOf is -1 exactly when `p` does not occur, and otherwise no earlier occurrence exists. */
  lemma IndexOfFirst(s: string, p: string)
    ensures IndexOf(s, p) == -1 <==> !Contains(s, p)
    ensures IndexOf(s, p) != -1 ==> forall j :: 0 <= j < IndexOf(s, p) ==> !OccursAt(s, p, j)
  {
    IndexFromFirst(s, p, 0);
  }

  lemma IndexOfPrefix(s: string, p: string)
    requires StartsWith(s, p)
    ensures IndexOf(s, p) == 0
  {
    assert OccursAt(s, p, 0);
    IndexOfFirst(s, p);
  }

  // ---------------------------------------------------------------------------
  // Replacing and trimming

  /**
   * String.prototype.replace with a string pattern: only the FIRST occurrence
   * of `p` is replaced; the replacement is inserted literally.
   */
  function ReplaceFirst(s: string, p: string, rep: string): string {
    var i := IndexOf(s, p);
    if i == -1 then s else s[..i] + rep + s[i + |p|..]
  }

  /**
   * Without an occurrence the string is unchanged; otherwise the text before
   * the first occurrence is kept, the occurrence becomes `rep`, and the text
   * after it is kept.
   */
  lemma ReplaceFirstSpec(s: string, p: string, rep: string)
    ensures IndexOf(s, p) == -1 ==> !Contains(s, p) && ReplaceFirst(s, p, rep) == s
    ensures IndexOf(s, p) != -1 ==>
      var i := IndexOf(s, p);
      Contains(s, p)
      && ReplaceFirst(s, p, rep) == s[..i] + rep + s[i + |p|..]
      && |ReplaceFirst(s, p, rep)| == |s| - |p| + |rep|
      && forall j :: 0 <= j < i ==> !OccursAt(s, p, j)
  {
    IndexOfFirst(s, p);
  }

  /** Removing a literal that the string starts with removes exactly that prefix. */
  lemma ReplaceFirstOfPrefix(s: string, p: string)
    requires StartsWith(s, p)
    ensures ReplaceFirst(s, p, "") == s[|p|..]
  {
    IndexOfPrefix(s, p);
  }

  /** The characters that String.prototype.trimEnd removes: WhiteSpace and LineTerminator. */
  predicate IsJsWhitespace(c: char) {
    c == '\t' || c == '\n' || c == '\U{B}' || c == '\U{C}' || c == '\r' || c == ' '
    || c == '\U{A0}' || c == '\U{1680}' || ('\U{2000}' <= c <= '\U{200A}')
    || c == '\U{2028}' || c == '\U{2029}' || c == '\U{202F}' || c == '\U{205F}'
    || c == '\U{3000}' || c == '\U{FEFF}'
  }

  /** String.prototype.trimEnd: the longest prefix that does not end in whitespace. */
  function TrimEnd(s: string): (t: string)
    ensures t <= s
    ensures t == [] || !IsJsWhitespace(t[|t| - 1])
  {
    if s != [] && IsJsWhitespace(s[|s| - 1]) then TrimEnd(s[..|s| - 1]) else s
  }

  /** A string that does not end in whitespace is its own trimEnd. */
  lemma TrimEndKeeps(s: string)
    requires s != [] && !IsJsWhitespace(s[|s| - 1])
    ensures TrimEnd(s) == s
  {
  }

  /** Everything trimEnd drops is whitespace. */
  lemma {:induction false} TrimEndDropsWhitespace(s: string)
    ensures forall i :: |TrimEnd(s)| <= i < |s| ==> IsJsWhitespace(s[i])
  {
    if s != [] && IsJsWhitespace(s[|s| - 1]) {
      TrimEndDropsWhitespace(s[..|s| - 1]);
    }
  }

  /** String.prototype.trimStart. */
  function TrimStart(s: string): (t: string)
    ensures |t| <= |s|
    ensures t == [] || !IsJsWhitespace(t[0])
  {
    if s != [] && IsJsWhitespace(s[0]) then TrimStart(s[1..]) else s
  }

  /** trimStart keeps a suffix of the string. */
  lemma {:induction false} TrimStartIsSuffix(s: string)
    ensures TrimStart(s) == s[|s| - |TrimStart(s)|..]
  {
    if s != [] && IsJsWhitespace(s[0]) {
      TrimStartIsSuffix(s[1..]);
    }
  }

  /** Everything trimStart drops is whitespace. */
  lemma {:induction false} TrimStartDropsWhitespace(s: string)
    ensures forall i :: 0 <= i < |s| - |TrimStart(s)| ==> IsJsWhitespace(s[i])
  {
    if s != [] && IsJsWhitespace(s[0]) {
      var tail := s[1..];
      TrimStartDropsWhitespace(tail);
      assert TrimStart(s) == TrimStart(tail);
      forall i | 0 <= i < |s| - |TrimStart(s)|
        ensures IsJsWhitespace(s[i])
      {
        if i > 0 {
          assert s[i] == tail[i - 1];
        }
      }
    }
  }

  // ---------------------------------------------------------------------------
  // Slicing

  /** How String.prototype.slice turns a possibly negative index into a position. */
  function ClampIndex(i: int, len: nat): (r: nat)
    ensures r <= len
    ensures 0 <= i <= len ==> r == i
    ensures -(len as int) <= i < 0 ==> r as int == len as int + i
  {
    if i < 0 then (if len + i < 0 then 0 else len + i)
    else if i > len then len
    else i
  }

  /** String.prototype.slice(start, end): negative indices count from the end. */
  function Slice(s: string, start: int, end: int): (t: string)
    ensures |t| <= |s|
    ensures 0 <= start <= end <= |s| ==> t == s[start..end]
    ensures 0 <= start && end < 0 && start <= |s| + end ==> t == s[start..|s| + end]
  {
    var a, b := ClampIndex(start, |s|), ClampIndex(end, |s|);
    if a < b then s[a..b] else []
  }

  /** String.prototype.slice(start). */
  function SliceFrom(s: string, start: int): (t: string)
    ensures 0 <= start <= |s| ==> t == s[start..]
    ensures start < 0 && -start <= |s| ==> t == s[|s| + start..]
  {
    Slice(s, start, |s|)
  }

  // ---------------------------------------------------------------------------
  // Splitting and joining

  /** Array.prototype.join. */
  function Join(parts: seq<string>, sep: string): string {
    if |parts| == 0 then ""
    else if |parts| == 1 then parts[0]
    else parts[0] + sep + Join(parts[1..], sep)
  }

  /** Joining after a first part that grew by one character in front. */
  lemma JoinPrepend(c: char, parts: seq<string>, sep: string)
    requires |parts| >= 1
    ensures Join([[c] + parts[0]] + parts[1..], sep) == [c] + Join(parts, sep)
  {
    var q := [[c] + parts[0]] + parts[1..];
    assert q[1..] == parts[1..];
  }

  /** String.prototype.split with a one-character separator. */
  function Split(s: string, sep: char): (parts: seq<string>)
    ensures |parts| >= 1
    ensures forall i :: 0 <= i < |parts| ==> sep !in parts[i]
    ensures Join(parts, [sep]) == s
  {
    if s == [] then [""]
    else
      var rest := Split(s[1..], sep);
      if s[0] == sep then
        assert ([""] + rest)[1..] == rest;
        [""] + rest
      else
        JoinPrepend(s[0], rest, [sep]);
        assert s == [s[0]] + s[1..];
        [[s[0]] + rest[0]] + rest[1..]
  }

  /** A separator-free string splits into itself alone. */
  lemma {:induction false} SplitNoSeparator(x: string, sep: char)
    requires sep !in x
    ensures Split(x, sep) == [x]
  {
    if x != [] {
      SplitNoSeparator(x[1..], sep);
      assert [x[0]] + x[1..] == x;
    }
  }

  /** A separator-free first part is split off at the first separator. */
  lemma {:induction false} SplitAtSeparator(x: string, sep: char, y: string)
    requires sep !in x
    ensures Split(x + [sep] + y, sep) == [x] + Split(y, sep)
  {
    var s := x + [sep] + y;
    if x == [] {
      assert s[1..] == y;
    } else {
      assert s[1..] == x[1..] + [sep] + y;
      SplitAtSeparator(x[1..], sep, y);
      assert [x[0]] + x[1..] == x;
    }
  }

  /** Splitting a join of separator-free parts gives the parts back. */
  lemma {:induction false} SplitJoin(parts: seq<string>, sep: char)
    requires |parts| >= 1
    requires forall i :: 0 <= i < |parts| ==> sep !in parts[i]
    ensures Split(Join(parts, [sep]), sep) == parts
    decreases |parts|
  {
    if |parts| == 1 {
      SplitNoSeparator(parts[0], sep);
    } else {
      SplitJoin(parts[1..], sep);
      SplitAtSeparator(parts[0], sep, Join(parts[1..], [sep]));
      assert parts == [parts[0]] + parts[1..];
    }
  }

  /** A join of k parts holds the separator once between neighbouring parts. */
  lemma {:induction false} JoinLength(parts: seq<string>, sep: string)
    ensures |parts| >= 1 ==> |Join(parts, sep)| == SumLengths(parts) + (|parts| - 1) * |sep|
    decreases |parts|
  {
    if |parts| > 1 {
      JoinLength(parts[1..], sep);
      assert SumLengths(parts) == |parts[0]| + SumLengths(parts[1..]);
    }
  }

  function SumLengths(parts: seq<string>): nat {
    if parts == [] then 0 else |parts[0]| + SumLengths(parts[1..])
  }

  /** String.prototype.repeat. */
  function Repeat(s: string, n: nat): (r: string)
    ensures |r| == n * |s|
  {
    if n == 0 then ""
    else
      var r := s + Repeat(s, n - 1);
      assert |r| == |s| + (n - 1) * |s| == n * |s|;
      r
  }

  /** A repetition holds only characters of the repeated string. */
  lemma {:induction false} RepeatChars(s: string, n: nat)
    ensures forall i :: 0 <= i < |Repeat(s, n)| ==> Repeat(s, n)[i] in s
  {
    if n > 0 {
      RepeatChars(s, n - 1);
      var r := Repeat(s, n);
      assert r == s + Repeat(s, n - 1);
      forall i | 0 <= i < |r|
        ensures r[i] in s
      {
        if i >= |s| {
          assert r[i] == Repeat(s, n - 1)[i - |s|];
        }
      }
    }
  }

  // ---------------------------------------------------------------------------
  // ASCII case

  function AsciiLowerChar(c: char): char {
    if 'A' <= c <= 'Z' then (c as int + 32) as char else c
  }

  function AsciiUpperChar(c: char): char {
    if 'a' <= c <= 'z' then (c as int - 32) as char else c
  }

  /** ASCII lower-casing, as the DOM applies to HTML attribute names. */
  function AsciiLower(s: string): (t: string)
    ensures |t| == |s|
  {
    if s == [] then [] else [AsciiLowerChar(s[0])] + AsciiLower(s[1..])
  }

  /** Lower-casing works character by character. */
  lemma {:induction false} AsciiLowerAt(s: string)
    ensures forall i :: 0 <= i < |s| ==> AsciiLower(s)[i] == AsciiLowerChar(s[i])
  {
    if s != [] {
      AsciiLowerAt(s[1..]);
      assert forall i :: 1 <= i < |s| ==> AsciiLower(s)[i] == AsciiLower(s[1..])[i - 1];
    }
  }

  // ---------------------------------------------------------------------------
  // Numbers

  /**
   * The numbers the model uses: a natural number of milliseconds, percent or
   * characters, or NaN. Both 0 and NaN are falsy in JavaScript.
   */
  datatype JsNumber = Num(n: nat) | NaN {
    predicate Truthy() {
      Num? && n != 0
    }
  }

  predicate IsDigit(c: char) {
    '0' <= c <= '9'
  }

  function DigitChar(d: nat): (c: char)
    requires d < 10
    ensures IsDigit(c)
  {
    ('0' as int + d) as char
  }

  /** Number-to-string for a natural number: its shortest decimal numeral. */
  function NatToString(n: nat): (s: string)
    ensures |s| >= 1
    ensures forall i :: 0 <= i < |s| ==> IsDigit(s[i])
    ensures s[0] == '0' ==> n == 0
  {
    if n < 10 then [DigitChar(n)] else NatToString(n / 10) + [DigitChar(n % 10)]
  }

  /** The value of a string of decimal digits. */
  function DigitsValue(ds: string): nat
    requires forall i :: 0 <= i < |ds| ==> IsDigit(ds[i])
  {
    if ds == [] then 0 else DigitsValue(ds[..|ds| - 1]) * 10 + DigitValue(ds[|ds| - 1])
  }

  function DigitValue(c: char): (d: nat)
    requires IsDigit(c)
    ensures d < 10
  {
    c as int - '0' as int
  }

  /** Reading a printed number gives the number back. */
  lemma {:induction false} NatToStringRoundTrip(n: nat)
    ensures DigitsValue(NatToString(n)) == n
  {
    if n >= 10 {
      NatToStringRoundTrip(n / 10);
      var s := NatToString(n);
      assert s[..|s| - 1] == NatToString(n / 10);
    }
  }

  /** The number of leading decimal digits of `s`. */
  function LeadingDigits(s: string): (k: nat)
    ensures k <= |s|
    ensures forall i :: 0 <= i < k ==> IsDigit(s[i])
    ensures k < |s| ==> !IsDigit(s[k])
  {
    if s != [] && IsDigit(s[0]) then 1 + LeadingDigits(s[1..]) else 0
  }

  lemma {:induction false} AllDigitsLead(s: string)
    requires forall i :: 0 <= i < |s| ==> IsDigit(s[i])
    ensures LeadingDigits(s) == |s|
  {
    if s != [] {
      AllDigitsLead(s[1..]);
    }
  }

  /**
   * parseFloat on the integral part: leading whitespace is skipped and the
   * longest run of digits is read; with no digit the result is NaN.
   */
  function ParseFloat(s: string): (r: JsNumber)
    ensures r.Num? <==> LeadingDigits(TrimStart(s)) > 0
  {
    var t := TrimStart(s);
    var k := LeadingDigits(t);
    if k == 0 then NaN else Num(DigitsValue(t[..k]))
  }

  lemma ParseFloatOfNumeral(n: nat)
    ensures ParseFloat(NatToString(n)) == Num(n)
  {
    var s := NatToString(n);
    assert IsDigit(s[0]) && !IsJsWhitespace(s[0]);
    assert TrimStart(s) == s;
    AllDigitsLead(s);
    assert s[..|s|] == s;
    NatToStringRoundTrip(n);
  }

  /**
   * Number(s), the conversion `>` applies to a string operand: the whole
   * trimmed string must be a numeral (a fractional part is dropped); the
   * empty string is 0.
   */
  function ToNumber(s: string): (r: JsNumber)
    ensures TrimEnd(TrimStart(s)) == "" ==> r == Num(0)
  {
    var t := TrimEnd(TrimStart(s));
    var k := LeadingDigits(t);
    if t == "" then Num(0)
    else if k == 0 then NaN
    else if k == |t| then Num(DigitsValue(t))
    else if t[k] == '.' && LeadingDigits(t[k + 1..]) == |t| - k - 1 then Num(DigitsValue(t[..k]))
    else NaN
  }
}
