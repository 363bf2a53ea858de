/**
 * The walk both plist serialisers make over a JSON tree (`parsetoXML`,
 * `toXML`, `parsetoJson` in json2plist.js and in src/core/converters.js),
 * as the sequence of writer calls it issues, and what that sequence denotes
 * when it is read back as a property list.
 *
 * The two serialisers differ only in how they test the `x` and `w` members
 * of a geometry value, so the walk takes the text of a geometry value as a
 * parameter `coord`.
 */
module PlistTree {
  import opened JsValue
  import opened XmlEvents
  import FrameText

  /** The keys whose object values are written as coordinate strings. */
  predicate IsGeometryKey(k: string)
  {
    k == "frame" || k == "offset" || k == "sourceColorRect" || k == "sourceSize" || k == "spriteSourceSize"
  }

  /** `<key>k</key>`. */
  function KeyEvents(k: string): seq<Event>
  {
    [Open("key"), Chars(k), Close]
  }

  /** `<string>t</string>`. */
  function StringElement(t: string): seq<Event>
  {
    [Open("string"), Chars(t), Close]
  }

  /** The tag `toXML` writes for a scalar, after its key. */
  function ScalarEvents(v: Json): seq<Event>
  {
    match v
    case Bool(b) => [Open(if b then "true" else "false"), Close]
    case Num(n) => [Open("integer"), Chars(IntToString(n)), Close]
    case _ => StringElement(Text(v))
  }

  /** `toXML(xml, key, value)`. */
  function ToXmlEvents(k: string, v: Json): seq<Event>
  {
    KeyEvents(k) + ScalarEvents(v)
  }

  /** A value of object type read out of `v` lies deeper inside it. */
  lemma MemberDepth(v: Json, k: string)
    ensures IsObjectType(Get(v, k)) ==> Depth(Get(v, k)) < Depth(v)
  {
    GetDepth(v, k);
  }

  /** The calls `parsetoXML` makes for the keys `keys` of `v`, in order. */
  function Entries(v: Json, keys: seq<string>, coord: Json -> string): seq<Event>
    decreases Depth(v), 1, |keys|
  {
    if keys == [] then [] else Member(v, keys[0], coord) + Entries(v, keys[1..], coord)
  }

  /** The calls for one key `k` of `v`. */
  function Member(v: Json, k: string, coord: Json -> string): seq<Event>
    decreases Depth(v), 1, 0
  {
    var value := Get(v, k);
    MemberDepth(v, k);
    if IsObjectType(value) then KeyEvents(k) + ObjectEvents(k, value, coord)
    else ToXmlEvents(k, value)
  }

  /** After the key of an object value: a coordinate string, or a nested `<dict>`. */
  function ObjectEvents(k: string, value: Json, coord: Json -> string): seq<Event>
    requires IsObjectType(value)
    decreases Depth(value), 2, 0
  {
    if IsGeometryKey(k) then StringElement(coord(value))
    else [Open("dict")] + Entries(value, ForInKeys(value), coord) + [Close]
  }

  /** `parsetoXML(xml, json)`. */
  function DictEvents(v: Json, coord: Json -> string): seq<Event>
  {
    Entries(v, ForInKeys(v), coord)
  }

  /** The calls for one key: the key, then the object or scalar part. */
  lemma MemberShape(v: Json, k: string, coord: Json -> string)
    ensures IsObjectType(Get(v, k)) ==> Member(v, k, coord) == KeyEvents(k) + ObjectEvents(k, Get(v, k), coord)
    ensures !IsObjectType(Get(v, k)) ==> Member(v, k, coord) == ToXmlEvents(k, Get(v, k))
  {
  }

  lemma {:induction false} EntriesSnoc(v: Json, keys: seq<string>, k: string, coord: Json -> string)
    ensures Entries(v, keys + [k], coord) == Entries(v, keys, coord) + Member(v, k, coord)
    decreases |keys|
  {
    if keys == [] {
      assert keys + [k] == [k];
    } else {
      EntriesSnoc(v, keys[1..], k, coord);
      EntriesSnocStep(v, keys, k, coord);
    }
  }

  /** The entries of one more key of the same list. */
  lemma EntriesPrefix(v: Json, keys: seq<string>, i: nat, coord: Json -> string)
    requires i < |keys|
    ensures Entries(v, keys[..i + 1], coord) == Entries(v, keys[..i], coord) + Member(v, keys[i], coord)
  {
    assert keys[..i + 1] == keys[..i] + [keys[i]];
    EntriesSnoc(v, keys[..i], keys[i], coord);
  }

  /** What a writer holds after one more round of the `parsetoXML` loop. */
  lemma EntriesLoopStep(before: seq<Event>, v: Json, keys: seq<string>, i: nat, coord: Json -> string)
    requires i < |keys|
    ensures before + Entries(v, keys[..i + 1], coord) == (before + Entries(v, keys[..i], coord)) + Member(v, keys[i], coord)
  {
    EntriesPrefix(v, keys, i, coord);
    Associate(before, Entries(v, keys[..i], coord), Member(v, keys[i], coord));
  }

  lemma EntriesSnocStep(v: Json, keys: seq<string>, k: string, coord: Json -> string)
    requires keys != []
    requires Entries(v, keys[1..] + [k], coord) == Entries(v, keys[1..], coord) + Member(v, k, coord)
    ensures Entries(v, keys + [k], coord) == Entries(v, keys, coord) + Member(v, k, coord)
  {
    var ks := keys + [k];
    assert ks[0] == keys[0] && ks[1..] == keys[1..] + [k];
    Associate(Member(v, keys[0], coord), Entries(v, keys[1..], coord), Member(v, k, coord));
  }

  // ---------------------------------------------------------------------
  // The calls nest properly

  lemma ScalarBalanced(k: string, v: Json)
    ensures Balanced(ToXmlEvents(k, v))
  {
    BalancedTextElement("key", k);
    match v {
      case Bool(b) => BalancedEmptyElement(if b then "true" else "false");
      case Num(n) => BalancedTextElement("integer", IntToString(n));
      case _ => BalancedTextElement("string", Text(v));
    }
    BalancedConcat(KeyEvents(k), ScalarEvents(v));
  }

  /** Every element the walk opens it also closes, in nesting order. */
  lemma {:induction false} EntriesBalanced(v: Json, keys: seq<string>, coord: Json -> string)
    ensures Balanced(Entries(v, keys, coord))
    decreases Depth(v), 1, |keys|
  {
    if keys == [] {
    } else {
      MemberBalanced(v, keys[0], coord);
      EntriesBalanced(v, keys[1..], coord);
      BalancedConcat(Member(v, keys[0], coord), Entries(v, keys[1..], coord));
    }
  }

  lemma {:induction false} MemberBalanced(v: Json, k: string, coord: Json -> string)
    ensures Balanced(Member(v, k, coord))
    decreases Depth(v), 1, 0
  {
    var value := Get(v, k);
    MemberDepth(v, k);
    if IsObjectType(value) {
      BalancedTextElement("key", k);
      ObjectBalanced(k, value, coord);
      BalancedConcat(KeyEvents(k), ObjectEvents(k, value, coord));
    } else {
      ScalarBalanced(k, value);
    }
  }

  lemma {:induction false} ObjectBalanced(k: string, value: Json, coord: Json -> string)
    requires IsObjectType(value)
    ensures Balanced(ObjectEvents(k, value, coord))
    decreases Depth(value), 2, 0
  {
    if IsGeometryKey(k) {
      BalancedTextElement("string", coord(value));
    } else {
      EntriesBalanced(value, ForInKeys(value), coord);
      BalancedWrap("dict", Entries(value, ForInKeys(value), coord));
    }
  }

  // ---------------------------------------------------------------------
  // Reading the calls back as a property list

  /** Whether `evs` starts with a `<key>…</key>` triple. */
  predicate StartsKey(evs: seq<Event>)
  {
    |evs| >= 3 && evs[0] == Open("key") && evs[1].Chars? && evs[2] == Close
  }

  /** Reads one plist value off the front of `evs`; returns it with the events left over. */
  function ReadValue(evs: seq<Event>): (r: Option<(Json, seq<Event>)>)
    ensures r.Some? ==> |r.value.1| < |evs|
    decreases |evs|, 1
  {
    if |evs| >= 2 && evs[0] == Open("true") && evs[1] == Close then Some((Bool(true), evs[2..]))
    else if |evs| >= 2 && evs[0] == Open("false") && evs[1] == Close then Some((Bool(false), evs[2..]))
    else if |evs| >= 3 && evs[0] == Open("integer") && evs[1].Chars? && evs[2] == Close then
      match FrameText.ParseInt(evs[1].text)
      case Some(n) => Some((Num(n), evs[3..]))
      case None => None
    else if |evs| >= 3 && evs[0] == Open("string") && evs[1].Chars? && evs[2] == Close then
      Some((Str(evs[1].text), evs[3..]))
    else if |evs| >= 1 && evs[0] == Open("dict") then
      match ReadEntries(evs[1..])
      case Some((fs, rest)) =>
        if |rest| >= 1 && rest[0] == Close then Some((Obj(fs), rest[1..])) else None
      case None => None
    else None
  }

  /** Reads the key/value pairs of a `<dict>` up to the first event that does not start a key. */
  function ReadEntries(evs: seq<Event>): (r: Option<(seq<Field>, seq<Event>)>)
    ensures r.Some? ==> |r.value.1| <= |evs|
    decreases |evs|, 0
  {
    if StartsKey(evs) then
      match ReadValue(evs[3..])
      case Some((v, rest)) =>
        (match ReadEntries(rest)
         case Some((fs, rest')) => Some(([Field(evs[1].text, v)] + fs, rest'))
         case None => None)
      case None => None
    else Some(([], evs))
  }

  /** What a scalar reads back as: booleans and integers as themselves, anything else as its text. */
  function DenotedScalar(v: Json): Json
  {
    match v
    case Bool(b) => Bool(b)
    case Num(n) => Num(n)
    case _ => Str(Text(v))
  }

  /** What the entries written for `keys` of `v` read back as. */
  function DenotedEntries(v: Json, keys: seq<string>, coord: Json -> string): (r: seq<Field>)
    ensures Keys(r) == keys
    decreases Depth(v), 1, |keys|
  {
    if keys == [] then []
    else [Field(keys[0], DenotedMember(v, keys[0], coord))] + DenotedEntries(v, keys[1..], coord)
  }

  function DenotedMember(v: Json, k: string, coord: Json -> string): Json
    decreases Depth(v), 1, 0
  {
    var value := Get(v, k);
    MemberDepth(v, k);
    if IsObjectType(value) then DenotedObject(k, value, coord) else DenotedScalar(value)
  }

  /** A geometry value reads back as its coordinate string; any other object value as a dictionary. */
  function DenotedObject(k: string, value: Json, coord: Json -> string): Json
    requires IsObjectType(value)
    decreases Depth(value), 2, 0
  {
    if IsGeometryKey(k) then Str(coord(value))
    else Obj(DenotedEntries(value, ForInKeys(value), coord))
  }

  lemma ReadScalar(v: Json, rest: seq<Event>)
    ensures ReadValue(ScalarEvents(v) + rest) == Some((DenotedScalar(v), rest))
  {
    match v
    case Bool(b) => ReadBool(b, rest);
    case Num(n) => ReadInteger(n, rest);
    case _ => ReadString(Text(v), rest);
  }

  lemma ReadBool(b: bool, rest: seq<Event>)
    ensures ReadValue([Open(if b then "true" else "false"), Close] + rest) == Some((Bool(b), rest))
  {
    assert ([Open(if b then "true" else "false"), Close] + rest)[2..] == rest;
  }

  lemma ReadInteger(n: int, rest: seq<Event>)
    ensures ReadValue([Open("integer"), Chars(IntToString(n)), Close] + rest) == Some((Num(n), rest))
  {
    FrameText.ParseIntOf(n);
    assert ([Open("integer"), Chars(IntToString(n)), Close] + rest)[3..] == rest;
  }

  lemma Associate(a: seq<Event>, b: seq<Event>, c: seq<Event>)
    ensures (a + b) + c == a + (b + c)
  {
  }

  lemma Regroup(a: seq<Event>, b: seq<Event>, c: seq<Event>, d: seq<Event>)
    ensures a + b + c + d == a + (b + (c + d))
  {
  }

  /** A key triple followed by a readable value and readable entries reads as one more entry. */
  lemma ReadKeyed(k: string, x: seq<Event>, v: Json, rest: seq<Event>)
    requires ReadValue(x) == Some((v, rest)) && ReadEntries(rest).Some?
    ensures ReadEntries(KeyEvents(k) + x)
         == Some(([Field(k, v)] + ReadEntries(rest).value.0, ReadEntries(rest).value.1))
  {
    assert (KeyEvents(k) + x)[3..] == x;
  }

  /** `<dict>`, readable entries, then `</dict>`. */
  lemma ReadDict(x: seq<Event>, fs: seq<Field>, rest: seq<Event>)
    requires ReadEntries(x) == Some((fs, [Close] + rest))
    ensures ReadValue([Open("dict")] + x) == Some((Obj(fs), rest))
  {
    assert ([Open("dict")] + x)[1..] == x;
    assert ([Close] + rest)[1..] == rest;
  }

  lemma ReadString(t: string, rest: seq<Event>)
    ensures ReadValue(StringElement(t) + rest) == Some((Str(t), rest))
  {
    assert (StringElement(t) + rest)[3..] == rest;
  }

  /**
   * Reading back the calls for `keys` of `v`, followed by anything that does
   * not start with a key, gives the denoted entries and leaves the rest.
   */
  lemma {:induction false} ReadEntriesOf(v: Json, keys: seq<string>, coord: Json -> string, rest: seq<Event>)
    requires !StartsKey(rest)
    ensures ReadEntries(Entries(v, keys, coord) + rest) == Some((DenotedEntries(v, keys, coord), rest))
    decreases Depth(v), 1, |keys|
  {
    if keys == [] {
      assert Entries(v, keys, coord) + rest == rest;
    } else {
      var k := keys[0];
      var tail := Entries(v, keys[1..], coord) + rest;
      ReadEntriesOf(v, keys[1..], coord, rest);
      ReadMember(v, k, coord, tail);
      assert Entries(v, keys, coord) == Member(v, k, coord) + Entries(v, keys[1..], coord);
      Associate(Member(v, k, coord), Entries(v, keys[1..], coord), rest);
    }
  }

  lemma {:induction false} ReadMember(v: Json, k: string, coord: Json -> string, tail: seq<Event>)
    requires ReadEntries(tail).Some?
    ensures ReadEntries(Member(v, k, coord) + tail)
         == Some(([Field(k, DenotedMember(v, k, coord))] + ReadEntries(tail).value.0, ReadEntries(tail).value.1))
    decreases Depth(v), 1, 0
  {
    var value := Get(v, k);
    MemberDepth(v, k);
    if IsObjectType(value) {
      ReadObjectMember(k, value, coord, tail);
    } else {
      ReadScalarMember(k, value, tail);
    }
  }

  lemma ReadScalarMember(k: string, value: Json, tail: seq<Event>)
    requires ReadEntries(tail).Some?
    ensures ReadEntries(ToXmlEvents(k, value) + tail)
         == Some(([Field(k, DenotedScalar(value))] + ReadEntries(tail).value.0, ReadEntries(tail).value.1))
  {
    var body := ScalarEvents(value);
    ReadScalar(value, tail);
    ReadKeyed(k, body + tail, DenotedScalar(value), tail);
    assert ToXmlEvents(k, value) + tail == KeyEvents(k) + (body + tail);
  }

  lemma {:induction false} ReadObjectMember(k: string, value: Json, coord: Json -> string, tail: seq<Event>)
    requires IsObjectType(value) && ReadEntries(tail).Some?
    ensures ReadEntries(KeyEvents(k) + ObjectEvents(k, value, coord) + tail)
         == Some(([Field(k, DenotedObject(k, value, coord))] + ReadEntries(tail).value.0, ReadEntries(tail).value.1))
    decreases Depth(value), 2, 1
  {
    var body := ObjectEvents(k, value, coord);
    ReadObject(k, value, coord, tail);
    ReadKeyed(k, body + tail, DenotedObject(k, value, coord), tail);
    Associate(KeyEvents(k), body, tail);
  }

  lemma {:induction false} ReadObject(k: string, value: Json, coord: Json -> string, rest: seq<Event>)
    requires IsObjectType(value)
    ensures ReadValue(ObjectEvents(k, value, coord) + rest) == Some((DenotedObject(k, value, coord), rest))
    decreases Depth(value), 2, 0
  {
    if IsGeometryKey(k) {
      ReadString(coord(value), rest);
    } else {
      var inner := Entries(value, ForInKeys(value), coord);
      ReadEntriesOf(value, ForInKeys(value), coord, [Close] + rest);
      ReadDict(inner + ([Close] + rest), DenotedEntries(value, ForInKeys(value), coord), rest);
      assert ObjectEvents(k, value, coord) == [Open("dict")] + inner + [Close];
      Regroup([Open("dict")], inner, [Close], rest);
    }
  }

  // ---------------------------------------------------------------------
  // The document

  const PlistPublicId: string := "-/" + "/Apple Computer/" + "/DTD PLIST 1.0/" + "/EN"
  const PlistSystemId: string := "http:/" + "/www.apple.com/DTDs/PropertyList-1.0.dtd"

  /** The calls opening a property list: doctype, `<plist version='1.0'>` and the root `<dict>`. */
  function DocumentHead(): seq<Event>
  {
    [DocStart, DocType("plist", PlistPublicId, PlistSystemId), Open("plist"), Attr("version", "1.0"), Open("dict")]
  }

  /** The calls closing the root `<dict>`, the `<plist>` and the document. */
  function DocumentTail(): seq<Event>
  {
    [Close, Close, DocEnd]
  }

  /** Reads a whole document back: the envelope, then exactly the entries of the root dictionary. */
  function ReadDocument(evs: seq<Event>): Option<Json>
  {
    if |evs| >= 8 && evs[..5] == DocumentHead() && evs[|evs| - 3..] == DocumentTail() then
      match ReadEntries(evs[5..|evs| - 3])
      case Some((fs, rest)) => if rest == [] then Some(Obj(fs)) else None
      case None => None
    else None
  }

  /** The document written for `v` reads back as the object its root entries denote. */
  lemma ReadDocumentOf(v: Json, coord: Json -> string)
    ensures ReadDocument(DocumentHead() + DictEvents(v, coord) + DocumentTail())
         == Some(Obj(DenotedEntries(v, ForInKeys(v), coord)))
  {
    var body := DictEvents(v, coord);
    var evs := DocumentHead() + body + DocumentTail();
    assert evs[..5] == DocumentHead();
    assert evs[|evs| - 3..] == DocumentTail();
    assert evs[5..|evs| - 3] == body + [];
    ReadEntriesOf(v, ForInKeys(v), coord, []);
  }

  /** The document is balanced: the root `<dict>` and `<plist>` enclose balanced entries. */
  lemma DocumentBalanced(v: Json, coord: Json -> string)
    ensures Balanced(DocumentHead() + DictEvents(v, coord) + DocumentTail())
  {
    var body := DictEvents(v, coord);
    EntriesBalanced(v, ForInKeys(v), coord);
    BalancedWrap("dict", body);
    var d := [Open("dict")] + body + [Close];
    var version := Attr("version", "1.0");
    BalancedNeutral(version);
    BalancedConcat([version], d);
    BalancedWrap("plist", [version] + d);
    var p := [Open("plist")] + ([version] + d) + [Close];
    BalancedNeutral(DocStart);
    BalancedNeutral(DocType("plist", PlistPublicId, PlistSystemId));
    BalancedConcat([DocStart], [DocType("plist", PlistPublicId, PlistSystemId)]);
    BalancedConcat([DocStart] + [DocType("plist", PlistPublicId, PlistSystemId)], p);
    BalancedNeutral(DocEnd);
    BalancedConcat([DocStart] + [DocType("plist", PlistPublicId, PlistSystemId)] + p, [DocEnd]);
    DocumentShape(body);
  }

  /** The document regrouped as prolog, `<plist>` element and end of document. */
  lemma DocumentShape(body: seq<Event>)
    ensures DocumentHead() + body + DocumentTail()
         == [DocStart] + [DocType("plist", PlistPublicId, PlistSystemId)]
            + ([Open("plist")] + ([Attr("version", "1.0")] + ([Open("dict")] + body + [Close])) + [Close]) + [DocEnd]
  {
  }

  // ---------------------------------------------------------------------
  // Trees the property list carries unchanged

  /**
   * Booleans, integers, strings, and objects with distinct non-geometry keys
   * over such values: the trees whose property list reads back as themselves.
   */
  predicate Plain(v: Json)
  {
    match v
    case Bool(_) => true
    case Num(_) => true
    case Str(_) => true
    case Obj(fs) => DistinctKeys(fs) && forall i :: 0 <= i < |fs| ==> !IsGeometryKey(fs[i].key) && Plain(fs[i].value)
    case _ => false
  }

  lemma {:induction false} DenotedPlainFields(fs: seq<Field>, j: nat, coord: Json -> string)
    requires Plain(Obj(fs)) && j <= |fs|
    ensures DenotedEntries(Obj(fs), Keys(fs)[j..], coord) == fs[j..]
    decreases Depth(Obj(fs)), 0, |fs| - j
  {
    if j < |fs| {
      var v := Obj(fs);
      var ks := Keys(fs)[j..];
      assert ks[0] == fs[j].key;
      assert ks[1..] == Keys(fs)[j + 1..];
      assert DenotedEntries(v, ks, coord) ==
        [Field(fs[j].key, DenotedMember(v, fs[j].key, coord))] + DenotedEntries(v, Keys(fs)[j + 1..], coord);
      DenotedPlainFields(fs, j + 1, coord);
      DenotedPlainMember(fs, j, coord);
      assert fs[j..] == [fs[j]] + fs[j + 1..];
    }
  }

  lemma {:induction false} DenotedPlainMember(fs: seq<Field>, j: nat, coord: Json -> string)
    requires Plain(Obj(fs)) && j < |fs|
    ensures DenotedMember(Obj(fs), fs[j].key, coord) == fs[j].value
    decreases Depth(Obj(fs)), 0, 0
  {
    var v := Obj(fs);
    GetFieldAt(fs, j);
    MemberDepth(v, fs[j].key);
    var value := fs[j].value;
    if value.Obj? {
      DenotedPlainFields(value.fields, 0, coord);
      assert Keys(value.fields)[0..] == Keys(value.fields);
      assert value.fields[0..] == value.fields;
    }
  }

  /** A plain object under a non-geometry key reads back as itself. */
  lemma DenotedPlainObject(k: string, value: Json, coord: Json -> string)
    requires value.Obj? && Plain(value) && !IsGeometryKey(k)
    ensures DenotedObject(k, value, coord) == value
  {
    DenotedPlainFields(value.fields, 0, coord);
    assert Keys(value.fields)[0..] == Keys(value.fields);
    assert value.fields[0..] == value.fields;
  }

  /** A plain object's property list reads back as that very object. */
  lemma PlainRoundTrip(v: Json, coord: Json -> string)
    requires v.Obj? && Plain(v)
    ensures ReadDocument(DocumentHead() + DictEvents(v, coord) + DocumentTail()) == Some(v)
  {
    ReadDocumentOf(v, coord);
    DenotedPlainFields(v.fields, 0, coord);
    assert Keys(v.fields)[0..] == Keys(v.fields);
    assert v.fields[0..] == v.fields;
  }
}
