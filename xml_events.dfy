/**
 * The XML writer the plist serialisers drive, seen only through the calls
 * made on it: each call appends one event to the writer's record. Whether
 * the calls nest properly is a property of the event sequence, stated here
 * as a running count of open elements.
 */
module XmlEvents {

  datatype Event =
    | DocStart                                          // startDocument()
    | DocType(name: string, pubId: string, sysId: string) // writeDocType(name, pubId, sysId)
    | Open(name: string)                                // startElement(name)
    | Attr(name: string, value: string)                 // writeAttribute(name, value)
    | Chars(text: string)                               // text(text)
    | Close                                             // endElement()
    | DocEnd                                            // endDocument()

  /** An `XMLWriter`: the calls made on it so far, in order. */
  class XmlWriter {
    var events: seq<Event>

    constructor ()
      ensures events == []
    {
      events := [];
    }

    method StartDocument()
      modifies this
      ensures events == old(events) + [DocStart]
    {
      events := events + [DocStart];
    }

    method WriteDocType(name: string, pubId: string, sysId: string)
      modifies this
      ensures events == old(events) + [DocType(name, pubId, sysId)]
    {
      events := events + [DocType(name, pubId, sysId)];
    }

    method StartElement(name: string)
      modifies this
      ensures events == old(events) + [Open(name)]
    {
      events := events + [Open(name)];
    }

    method WriteAttribute(name: string, value: string)
      modifies this
      ensures events == old(events) + [Attr(name, value)]
    {
      events := events + [Attr(name, value)];
    }

    method Text(text: string)
      modifies this
      ensures events == old(events) + [Chars(text)]
    {
      events := events + [Chars(text)];
    }

    method EndElement()
      modifies this
      ensures events == old(events) + [Close]
    {
      events := events + [Close];
    }

    method EndDocument()
      modifies this
      ensures events == old(events) + [DocEnd]
    {
      events := events + [DocEnd];
    }
  }

  // ---------------------------------------------------------------------
  // Nesting

  function Delta(e: Event): int
  {
    match e
    case Open(_) => 1
    case Close => -1
    case _ => 0
  }

  /** Elements opened and not yet closed after `evs`. */
  function Opened(evs: seq<Event>): int
  {
    if evs == [] then 0 else Opened(evs[..|evs| - 1]) + Delta(evs[|evs| - 1])
  }

  /**
   * Every `endElement` closes an element opened before it, and every
   * element opened is closed by the end.
   */
  predicate Balanced(evs: seq<Event>)
  {
    && Opened(evs) == 0
    && forall i :: 0 <= i <= |evs| ==> Opened(evs[..i]) >= 0
  }

  lemma {:induction false} OpenedConcat(a: seq<Event>, b: seq<Event>)
    ensures Opened(a + b) == Opened(a) + Opened(b)
    decreases |b|
  {
    if b == [] {
      assert a + b == a;
    } else {
      var b' := b[..|b| - 1];
      assert (a + b)[..|a + b| - 1] == a + b';
      OpenedConcat(a, b');
    }
  }

  /** Two balanced runs of calls, one after the other, are balanced. */
  lemma BalancedConcat(a: seq<Event>, b: seq<Event>)
    requires Balanced(a) && Balanced(b)
    ensures Balanced(a + b)
  {
    OpenedConcat(a, b);
    forall i | 0 <= i <= |a + b|
      ensures Opened((a + b)[..i]) >= 0
    {
      if i <= |a| {
        assert (a + b)[..i] == a[..i];
      } else {
        assert (a + b)[..i] == a + b[..i - |a|];
        OpenedConcat(a, b[..i - |a|]);
      }
    }
  }

  /** A call that neither opens nor closes an element is balanced on its own. */
  lemma BalancedNeutral(e: Event)
    requires Delta(e) == 0
    ensures Balanced([e])
  {
    assert [e][..0] == [];
    assert [e][..1] == [e];
  }

  /** A balanced run wrapped in one element is balanced. */
  lemma BalancedWrap(name: string, a: seq<Event>)
    requires Balanced(a)
    ensures Balanced([Open(name)] + a + [Close])
  {
    var w := [Open(name)] + a + [Close];
    OpenedConcat([Open(name)], a);
    OpenedConcat([Open(name)] + a, [Close]);
    assert Opened([Open(name)]) == 1 by {
      assert [Open(name)][..0] == [];
    }
    assert Opened([Close]) == -1 by {
      assert [Close][..0] == [];
    }
    forall i | 0 <= i <= |w|
      ensures Opened(w[..i]) >= 0
    {
      if i == 0 {
        assert w[..i] == [];
      } else if i <= |a| + 1 {
        assert w[..i] == [Open(name)] + a[..i - 1];
        OpenedConcat([Open(name)], a[..i - 1]);
      } else {
        assert w[..i] == w;
      }
    }
  }

  /** An element holding only text is balanced. */
  lemma BalancedTextElement(name: string, text: string)
    ensures Balanced([Open(name), Chars(text), Close])
  {
    var t := [Chars(text)];
    assert Opened(t) == 0 by {
      assert t[..0] == [];
    }
    assert forall i :: 0 <= i <= |t| ==> t[..i] == [] || t[..i] == t;
    BalancedWrap(name, t);
    assert [Open(name)] + t + [Close] == [Open(name), Chars(text), Close];
  }

  /** An empty element is balanced. */
  lemma BalancedEmptyElement(name: string)
    ensures Balanced([Open(name), Close])
  {
    BalancedWrap(name, []);
    assert [Open(name)] + [] + [Close] == [Open(name), Close];
  }
}
