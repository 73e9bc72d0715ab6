/**
 * The slice of the DOM the terminal code touches: elements with an ordered
 * attribute list and a text content, getAttribute / setAttribute /
 * removeAttribute, the `dataset` view of `data-*` attributes, and an oracle
 * for what the HTML parser and serialiser produce.
 */
module Dom {
  import opened Wrappers
  import opened JsString

  datatype Attr = Attr(name: string, value: string)

  /**
   * An element: its tag, its attributes in document order (names as the HTML
   * parser stores them, lower-case) and its text content (the concatenated
   * text of its descendants).
   */
  datatype Element = Element(tag: string, attrs: seq<Attr>, text: string)

  /**
   * What parsing and serialising HTML gives, taken as given:
   * - textContent(m): the text content of a div whose innerHTML is m;
   * - firstElement(m): the firstElementChild of such a div, if any;
   * - outerHtml(e): the serialisation of an element whose only child is its text;
   * - camelCase(s): the regex-driven camelCase helper of the terminal code.
   */
  datatype Html = Html(
    textContent: string -> string,
    firstElement: string -> Option<Element>,
    outerHtml: Element -> string,
    camelCase: string -> string)

  // ---------------------------------------------------------------------------
  // Attribute lists

  /** The value of the first attribute called `key`. */
  function Lookup(attrs: seq<Attr>, key: string): Option<string> {
    if attrs == [] then None
    else if attrs[0].name == key then Some(attrs[0].value)
    else Lookup(attrs[1..], key)
  }

  /** Nothing is found exactly when no attribute has the name; what is found is an attribute's value. */
  lemma {:induction false} LookupSpec(attrs: seq<Attr>, key: string)
    ensures Lookup(attrs, key).None? <==> forall i :: 0 <= i < |attrs| ==> attrs[i].name != key
    ensures Lookup(attrs, key).Some? ==> exists i :: 0 <= i < |attrs| && attrs[i] == Attr(key, Lookup(attrs, key).value)
  {
    if attrs != [] && attrs[0].name != key {
      LookupSpec(attrs[1..], key);
      assert forall i :: 1 <= i < |attrs| ==> attrs[i] == attrs[1..][i - 1];
      if Lookup(attrs, key).Some? {
        var j :| 0 <= j < |attrs[1..]| && attrs[1..][j] == Attr(key, Lookup(attrs, key).value);
        assert attrs[j + 1] == Attr(key, Lookup(attrs, key).value);
      }
    }
  }

  /** Sets the first attribute called `key` to `value`, or appends one. */
  function SetIn(attrs: seq<Attr>, key: string, value: string): seq<Attr> {
    if attrs == [] then [Attr(key, value)]
    else if attrs[0].name == key then [Attr(key, value)] + attrs[1..]
    else [attrs[0]] + SetIn(attrs[1..], key, value)
  }

  /** Removes the first attribute called `key`, if any. */
  function RemoveIn(attrs: seq<Attr>, key: string): seq<Attr> {
    if attrs == [] then []
    else if attrs[0].name == key then attrs[1..]
    else [attrs[0]] + RemoveIn(attrs[1..], key)
  }

  lemma {:induction false} LookupAfterSet(attrs: seq<Attr>, key: string, value: string, other: string)
    ensures Lookup(SetIn(attrs, key, value), key) == Some(value)
    ensures other != key ==> Lookup(SetIn(attrs, key, value), other) == Lookup(attrs, other)
  {
    if attrs != [] && attrs[0].name != key {
      LookupAfterSet(attrs[1..], key, value, other);
      assert SetIn(attrs, key, value)[1..] == SetIn(attrs[1..], key, value);
    } else if attrs != [] {
      assert SetIn(attrs, key, value)[1..] == attrs[1..];
    }
  }

  lemma {:induction false} LookupAfterRemove(attrs: seq<Attr>, key: string, other: string)
    ensures other != key ==> Lookup(RemoveIn(attrs, key), other) == Lookup(attrs, other)
  {
    if attrs != [] && attrs[0].name != key {
      LookupAfterRemove(attrs[1..], key, other);
      assert RemoveIn(attrs, key)[1..] == RemoveIn(attrs[1..], key);
    }
  }

  /** Setting an attribute and then removing it is the same as removing it. */
  lemma {:induction false} RemoveAfterSet(attrs: seq<Attr>, key: string, value: string)
    ensures RemoveIn(SetIn(attrs, key, value), key) == RemoveIn(attrs, key)
  {
    if attrs != [] && attrs[0].name != key {
      RemoveAfterSet(attrs[1..], key, value);
      var s := SetIn(attrs, key, value);
      assert s[0] == attrs[0] && s[1..] == SetIn(attrs[1..], key, value);
    }
  }

  /** Removing an attribute that is not there changes nothing. */
  lemma {:induction false} RemoveAbsent(attrs: seq<Attr>, key: string)
    requires Lookup(attrs, key).None?
    ensures RemoveIn(attrs, key) == attrs
  {
    if attrs != [] {
      RemoveAbsent(attrs[1..], key);
    }
  }

  /** An element never carries two attributes of the same name. */
  predicate DistinctNames(attrs: seq<Attr>) {
    forall i, j :: 0 <= i < j < |attrs| ==> attrs[i].name != attrs[j].name
  }

  /** With distinct names, a removed attribute is gone. */
  lemma {:induction false} LookupAfterRemoveSame(attrs: seq<Attr>, key: string)
    requires DistinctNames(attrs)
    ensures Lookup(RemoveIn(attrs, key), key).None?
  {
    if attrs != [] {
      if attrs[0].name == key {
        LookupSpec(attrs[1..], key);
        assert forall i :: 0 <= i < |attrs[1..]| ==> attrs[1..][i] == attrs[i + 1];
      } else {
        assert DistinctNames(attrs[1..]) by {
          assert forall i :: 0 <= i < |attrs[1..]| ==> attrs[1..][i] == attrs[i + 1];
        }
        LookupAfterRemoveSame(attrs[1..], key);
        assert RemoveIn(attrs, key)[1..] == RemoveIn(attrs[1..], key);
      }
    }
  }

  // ---------------------------------------------------------------------------
  // Element operations (attribute names are ASCII-lower-cased by the DOM)

  /** Element.getAttribute. */
  function GetAttribute(e: Element, name: string): Option<string> {
    Lookup(e.attrs, AsciiLower(name))
  }

  /** Element.setAttribute. */
  function SetAttribute(e: Element, name: string, value: string): (r: Element)
    ensures r.tag == e.tag && r.text == e.text
    ensures GetAttribute(r, name) == Some(value)
  {
    LookupAfterSet(e.attrs, AsciiLower(name), value, AsciiLower(name));
    e.(attrs := SetIn(e.attrs, AsciiLower(name), value))
  }

  /** Element.removeAttribute. */
  function RemoveAttribute(e: Element, name: string): (r: Element)
    ensures r.tag == e.tag && r.text == e.text
  {
    e.(attrs := RemoveIn(e.attrs, AsciiLower(name)))
  }

  /** Setting or removing one attribute leaves every attribute of another (lower-cased) name as it was. */
  lemma OtherAttributeKept(e: Element, name: string, value: string, other: string)
    requires AsciiLower(name) != AsciiLower(other)
    ensures GetAttribute(SetAttribute(e, name, value), other) == GetAttribute(e, other)
    ensures GetAttribute(RemoveAttribute(e, name), other) == GetAttribute(e, other)
  {
    LookupAfterSet(e.attrs, AsciiLower(name), value, AsciiLower(other));
    LookupAfterRemove(e.attrs, AsciiLower(name), AsciiLower(other));
  }

  /** Once removed, an attribute reads as missing, and removing it again changes nothing. */
  lemma RemoveAttributeGone(e: Element, name: string)
    requires DistinctNames(e.attrs)
    ensures GetAttribute(RemoveAttribute(e, name), name).None?
    ensures RemoveAttribute(RemoveAttribute(e, name), name) == RemoveAttribute(e, name)
  {
    LookupAfterRemoveSame(e.attrs, AsciiLower(name));
    RemoveAbsent(RemoveIn(e.attrs, AsciiLower(name)), AsciiLower(name));
  }

  // ---------------------------------------------------------------------------
  // dataset

  predicate IsAsciiUpper(c: char) {
    'A' <= c <= 'Z'
  }

  predicate IsAsciiLowerLetter(c: char) {
    'a' <= c <= 'z'
  }

  /** The dataset name of a `data-*` attribute: each "-x" (x a lower-case letter) becomes "X". */
  function Camelize(x: string): string {
    if |x| >= 2 && x[0] == '-' && IsAsciiLowerLetter(x[1]) then [AsciiUpperChar(x[1])] + Camelize(x[2..])
    else if x == [] then []
    else [x[0]] + Camelize(x[1..])
  }

  /** An attribute shows up in `dataset`: "data-" followed by no ASCII upper-case letter. */
  predicate IsDataAttribute(name: string) {
    StartsWith(name, "data-") && forall i :: 5 <= i < |name| ==> !IsAsciiUpper(name[i])
  }

  /** The keys of `element.dataset`, in attribute order. */
  function DatasetKeys(attrs: seq<Attr>): (keys: seq<string>)
    ensures |keys| <= |attrs|
  {
    if attrs == [] then []
    else
      (if IsDataAttribute(attrs[0].name) then [Camelize(attrs[0].name[5..])] else [])
      + DatasetKeys(attrs[1..])
  }

  /**
   * For a prefix of lower-case letters, a dataset key starts with it exactly
   * when the attribute name (after "data-") does.
   */
  lemma {:induction false} CamelizeKeepsLowerPrefix(x: string, p: string)
    requires forall i :: 0 <= i < |p| ==> IsAsciiLowerLetter(p[i])
    ensures StartsWith(Camelize(x), p) <==> StartsWith(x, p)
    decreases |p|
  {
    if p != [] && x != [] {
      if |x| >= 2 && x[0] == '-' && IsAsciiLowerLetter(x[1]) {
        assert Camelize(x)[0] == AsciiUpperChar(x[1]);
        assert !IsAsciiLowerLetter(AsciiUpperChar(x[1]));
        assert p[0] != Camelize(x)[0];
        assert p[0] != x[0];
      } else {
        var c := Camelize(x);
        assert c == [x[0]] + Camelize(x[1..]);
        if x[0] == p[0] {
          CamelizeKeepsLowerPrefix(x[1..], p[1..]);
          assert StartsWith(c, p) <==> StartsWith(Camelize(x[1..]), p[1..]);
          assert StartsWith(x, p) <==> StartsWith(x[1..], p[1..]);
        }
      }
    }
  }
}
