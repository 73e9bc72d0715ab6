/**
 * src/dom-utils.ts: the "does this string hold HTML elements" test and the
 * container lookup.
 */
module DomUtils {
  import opened Wrappers
  import opened JsString
  import opened Dom

  // ---------------------------------------------------------------------------
  // stringHasHTMLElements: /<\/?[a-z][\s\S]*>/i

  /** [a-z] under the `i` flag: an ASCII letter of either case. */
  predicate IsAsciiLetter(c: char) {
    'a' <= c <= 'z' || 'A' <= c <= 'Z'
  }

  /** `s[k]` is the letter that opens a tag: "<x" or "</x". */
  predicate TagStartAt(s: string, k: int) {
    0 <= k < |s| && IsAsciiLetter(s[k])
    && ((k >= 1 && s[k - 1] == '<') || (k >= 2 && s[k - 2] == '<' && s[k - 1] == '/'))
  }

  /** The language of the regular expression: a tag start followed somewhere later by '>'. */
  ghost predicate MatchesTagPattern(s: string) {
    exists k, j :: TagStartAt(s, k) && k < j < |s| && s[j] == '>'
  }

  /** The first tag start at or after `from`, or -1. */
  function FirstTagStart(s: string, from: nat): (k: int)
    ensures k == -1 || (from <= k && TagStartAt(s, k))
    ensures k == -1 ==> forall i :: from <= i ==> !TagStartAt(s, i)
    ensures k != -1 ==> forall i :: from <= i < k ==> !TagStartAt(s, i)
    decreases |s| - from
  {
    if from >= |s| then -1
    else if TagStartAt(s, from) then from
    else FirstTagStart(s, from + 1)
  }

  /** Some '>' occurs at or after `from`. */
  function CloseFrom(s: string, from: nat): (b: bool)
    ensures b <==> exists j :: from <= j < |s| && s[j] == '>'
    decreases |s| - from
  {
    if from >= |s| then false
    else s[from] == '>' || CloseFrom(s, from + 1)
  }

  /**
   * stringHasHTMLElements: the unanchored regex test, as a scan for the first
   * tag start followed by a closing '>'.
   */
  function StringHasHtmlElements(s: string): bool {
    var k := FirstTagStart(s, 0);
    k != -1 && CloseFrom(s, k + 1)
  }

  /** The scan accepts exactly the strings in the language of the regular expression. */
  lemma HtmlTestMatchesPattern(s: string)
    ensures StringHasHtmlElements(s) <==> MatchesTagPattern(s)
  {
    var k := FirstTagStart(s, 0);
    if k != -1 {
      forall k', j | TagStartAt(s, k') && k' < j < |s| && s[j] == '>'
        ensures CloseFrom(s, k + 1)
      {
        assert k <= k';
      }
    }
  }

  /** A string without '<' is never HTML. */
  lemma NoAngleNoHtml(s: string)
    requires '<' !in s
    ensures !StringHasHtmlElements(s)
  {
    assert forall i :: 0 <= i < |s| ==> s[i] != '<';
    HtmlTestMatchesPattern(s);
  }

  /** Plain shell text and a comparison with spaced angle brackets are not HTML. */
  lemma PlainTextExamples()
    ensures !StringHasHtmlElements("$ echo woo")
    ensures !StringHasHtmlElements("a < b > c")
  {
    NoAngleNoHtml("$ echo woo");
    var s := "a < b > c";
    forall k | 0 <= k < |s| ensures !TagStartAt(s, k) {
      assert k == 3 ==> !IsAsciiLetter(s[k]);
    }
    HtmlTestMatchesPattern(s);
  }

  /** A lone closing tag counts as HTML. */
  lemma LoneClosingTagIsHtml()
    ensures StringHasHtmlElements("</span>")
  {
    var s := "</span>";
    assert TagStartAt(s, 2) && s[6] == '>';
    HtmlTestMatchesPattern(s);
  }

  /** The test is unanchored: any string that contains an HTML string is HTML. */
  lemma HtmlInsideIsHtml(a: string, s: string, b: string)
    requires StringHasHtmlElements(s)
    ensures StringHasHtmlElements(a + s + b)
  {
    HtmlTestMatchesPattern(s);
    var k, j :| TagStartAt(s, k) && k < j < |s| && s[j] == '>';
    var t := a + s + b;
    assert t[|a| + k] == s[k];
    assert k >= 1 ==> t[|a| + k - 1] == s[k - 1];
    assert k >= 2 ==> t[|a| + k - 2] == s[k - 2];
    assert TagStartAt(t, |a| + k);
    assert t[|a| + j] == '>';
    HtmlTestMatchesPattern(t);
  }

  // ---------------------------------------------------------------------------
  // getElementFromSelectorOrElement

  /** The element a terminal is built in: its attributes and its inner markup. */
  datatype HostElement = HostElement(attrs: seq<Attr>, innerHtml: string)

  /** A container given as a selector string or as an element. */
  datatype ContainerRef = Selector(selector: string) | Given(element: HostElement)

  const ContainerNotFound := "Container element not found"

  /**
   * getElementFromSelectorOrElement: a given element is returned as it is; a
   * selector goes through `querySelector`, and a failed lookup throws.
   */
  function GetElementFromSelectorOrElement(ref: ContainerRef, querySelector: string -> Option<HostElement>)
    : (r: Result<HostElement>)
    ensures ref.Given? ==> r == Ok(ref.element)
    ensures ref.Selector? && querySelector(ref.selector).Some? ==> r == Ok(querySelector(ref.selector).value)
    ensures ref.Selector? && querySelector(ref.selector).None? ==> r == Err(ContainerNotFound)
  {
    var maybeElement := match ref
      case Selector(sel) => querySelector(sel)
      case Given(e) => Some(e);
    if maybeElement.None? then Err(ContainerNotFound) else Ok(maybeElement.value)
  }
}
