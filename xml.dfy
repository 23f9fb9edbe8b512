/** Abstract XML: qualified names, streaming events, DOM elements, and well-nesting of an event stream. */
module Xml {
  import opened Wrappers
  import opened Certificates

  datatype QName = QName(namespaceUri: string, localPart: string)

  /** The attributes of a start element, by qualified name (their order carries no meaning). */
  type Attributes = map<QName, string>

  /** Character content: literal text, or the Base64 encoding of some bytes (the encoding itself is opaque). */
  datatype Text = Str(s: string) | Base64(bytes: Bytes)

  datatype XmlEvent =
    | Start(name: QName, attributes: Attributes)
    | Chars(text: Text)
    | End(name: QName)

  /** A DOM element as a value: its name, attributes and list of children. */
  datatype Element = Element(name: QName, attributes: Attributes, children: seq<Element>)

  /**
   * Feeds `events` to a stack of open element names (innermost last). None when an end
   * event does not close the innermost open element; otherwise the stack left at the end.
   */
  function Close(events: seq<XmlEvent>, open: seq<QName>): Option<seq<QName>>
    decreases |events|
  {
    if events == [] then Some(open)
    else match events[0]
      case Start(n, _) => Close(events[1..], open + [n])
      case Chars(_) => Close(events[1..], open)
      case End(n) =>
        if |open| > 0 && open[|open| - 1] == n then Close(events[1..], open[..|open| - 1]) else None
  }

  /** Every start element is closed, innermost first, and nothing is closed that was not opened. */
  predicate WellNested(events: seq<XmlEvent>) {
    Close(events, []) == Some([])
  }

  /** Feeding `a + b` is feeding `a`, then `b` from where `a` left the stack. */
  lemma {:induction false} CloseConcat(a: seq<XmlEvent>, b: seq<XmlEvent>, open: seq<QName>)
    ensures Close(a + b, open) == match Close(a, open) case None => None case Some(s) => Close(b, s)
    decreases |a|
  {
    if a != [] {
      assert (a + b)[0] == a[0];
      assert (a + b)[1..] == a[1..] + b;
      match a[0]
      case Start(n, _) => CloseConcat(a[1..], b, open + [n]);
      case Chars(_) => CloseConcat(a[1..], b, open);
      case End(n) =>
        if |open| > 0 && open[|open| - 1] == n {
          CloseConcat(a[1..], b, open[..|open| - 1]);
        }
    } else {
      assert a + b == b;
    }
  }

  /** Elements still open below a stream do not change how the stream nests. */
  lemma {:induction false} CloseUnder(a: seq<XmlEvent>, open: seq<QName>, below: seq<QName>)
    requires Close(a, open).Some?
    ensures Close(a, below + open) == Some(below + Close(a, open).value)
    decreases |a|
  {
    if a != [] {
      match a[0]
      case Start(n, _) =>
        assert below + open + [n] == below + (open + [n]);
        CloseUnder(a[1..], open + [n], below);
      case Chars(_) =>
        CloseUnder(a[1..], open, below);
      case End(n) =>
        assert (below + open)[..|below + open| - 1] == below + open[..|open| - 1];
        CloseUnder(a[1..], open[..|open| - 1], below);
    }
  }

  lemma ConcatWellNested(a: seq<XmlEvent>, b: seq<XmlEvent>)
    requires WellNested(a) && WellNested(b)
    ensures WellNested(a + b)
  {
    CloseConcat(a, b, []);
  }

  /** A well-nested body wrapped in a start and the matching end is well nested. */
  lemma WrapWellNested(name: QName, attributes: Attributes, body: seq<XmlEvent>)
    requires WellNested(body)
    ensures WellNested([Start(name, attributes)] + body + [End(name)])
  {
    var s := [Start(name, attributes)] + body + [End(name)];
    assert s[0] == Start(name, attributes);
    assert s[1..] == body + [End(name)];
    assert [] + [name] == [name];
    assert Close(s, []) == Close(body + [End(name)], [name]);
    CloseUnder(body, [], [name]);
    assert [name] + [] == [name];
    CloseConcat(body, [End(name)], [name]);
    assert [name][..0] == [];
    assert Close([End(name)], [name]) == Close([], []);
  }

}
