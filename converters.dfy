/**
 * src/core/converters.js: the refactored copy of the plist conversion. It
 * walks the document with the same writer calls as json2plist.js, with two
 * differences: `parsetoJson` tests `x` and `w` with `!== undefined` (so a
 * null `x` selects the rectangle form), and `addProperties` works on a
 * spread copy and deletes `meta` only when it is truthy.
 *
 * Reading the `.json` file, measuring the `.png`, the random identifiers
 * and writing the `.plist` text are outside the model: the parsed document,
 * the image size (absent when the image cannot be read) and the three
 * identifiers are parameters.
 */
module Converters {
  import opened JsValue
  import opened FrameText
  import opened XmlEvents
  import opened PlistTree
  import opened ConfigLoader
  import Json2Plist

  /** `parsetoJson`'s text: `{{x,y},{w,h}}` when `x` and `w` are `!== undefined`, else `{w,h}`. */
  function Coordinate(value: Json): string
  {
    var x, y, w, h := Get(value, "x"), Get(value, "y"), Get(value, "w"), Get(value, "h");
    if !x.Undefined? && !w.Undefined? then RectText(x, y, w, h)
    else PointText(w, h)
  }

  /** Where neither `x` nor `w` is null, both copies write the same coordinate text. */
  lemma CoordinateAgrees(value: Json)
    requires !Get(value, "x").Null? && !Get(value, "w").Null?
    ensures Coordinate(value) == Json2Plist.Coordinate(value)
  {
  }

  /** A rectangle with numeric `x`, `y`, `w`, `h` is written as `{{x,y},{w,h}}` and reads back as the four numbers. */
  lemma CoordinateOfRect(value: Json, x: int, y: int, w: int, h: int)
    requires Get(value, "x") == Num(x) && Get(value, "y") == Num(y)
    requires Get(value, "w") == Num(w) && Get(value, "h") == Num(h)
    ensures ParseRect(Coordinate(value)) == Some((x, y, w, h))
  {
    ParseRectText(x, y, w, h);
  }

  /** A size without `x` is written as `{w,h}` and reads back as the two numbers. */
  lemma CoordinateOfSize(value: Json, w: int, h: int)
    requires Get(value, "w") == Num(w) && Get(value, "h") == Num(h) && Get(value, "x").Undefined?
    ensures ParsePoint(Coordinate(value)) == Some((w, h))
  {
    ParsePointText(w, h);
  }

  /** The value `{x: null, y: 0, w: 1, h: 2}`. */
  function NullX(): Json
  {
    Obj([Field("x", Null), Field("y", Num(0)), Field("w", Num(1)), Field("h", Num(2))])
  }

  lemma NullXFields()
    ensures Get(NullX(), "x") == Null && Get(NullX(), "y") == Num(0)
    ensures Get(NullX(), "w") == Num(1) && Get(NullX(), "h") == Num(2)
  {
    var fs := NullX().fields;
    GetFieldAt(fs, 0);
    GetFieldAt(fs, 1);
    GetFieldAt(fs, 2);
    GetFieldAt(fs, 3);
  }

  lemma SmallTexts()
    ensures Text(Null) == "null" && Text(Num(0)) == "0" && Text(Num(1)) == "1" && Text(Num(2)) == "2"
  {
    assert NatToString(0) == [DigitChar(0)] == "0";
    assert NatToString(1) == [DigitChar(1)] == "1";
    assert NatToString(2) == [DigitChar(2)] == "2";
  }

  /** A null `x` gives the rectangle form here. */
  lemma CoordinateNullX()
    ensures Coordinate(NullX()) == "{{null,0},{1,2}}"
  {
    NullXFields();
    NullXRect();
  }

  /** The same value gives the size form in json2plist.js, which tests `x != undefined`. */
  lemma LegacyCoordinateNullX()
    ensures Json2Plist.Coordinate(NullX()) == "{1,2}"
  {
    NullXFields();
    SizeText();
  }

  lemma SizeText()
    ensures PointText(Num(1), Num(2)) == "{1,2}"
  {
    SmallTexts();
  }

  lemma NullXRect()
    ensures RectText(Null, Num(0), Num(1), Num(2)) == "{{null,0},{1,2}}"
  {
    SmallTexts();
    SizeText();
    assert PointText(Null, Num(0)) == "{null,0}";
  }

  /** `parsetoJson(xml, value)`. */
  method ParseToJson(xml: XmlWriter, value: Json)
    modifies xml
    ensures xml.events == old(xml.events) + StringElement(Coordinate(value))
  {
    xml.StartElement("string");
    var json: string;
    if !Get(value, "x").Undefined? && !Get(value, "w").Undefined? {
      json := RectText(Get(value, "x"), Get(value, "y"), Get(value, "w"), Get(value, "h"));
    } else {
      json := PointText(Get(value, "w"), Get(value, "h"));
    }
    xml.Text(json);
    xml.EndElement();
  }

  /** `toXML(xml, key, value)`: the key, then an empty boolean element, an `<integer>` or a `<string>`. */
  method ToXml(xml: XmlWriter, key: string, value: Json)
    modifies xml
    ensures xml.events == old(xml.events) + ToXmlEvents(key, value)
  {
    xml.StartElement("key");
    xml.Text(key);
    xml.EndElement();
    if value.Bool? {
      xml.StartElement(if value.b then "true" else "false");
    } else if value.Num? {
      xml.StartElement("integer");
      xml.Text(Text(value));
    } else {
      xml.StartElement("string");
      xml.Text(Text(value));
    }
    xml.EndElement();
  }

  /** `parsetoXML(xml, json)`: the keys of `json` in iteration order. */
  method ParseToXml(xml: XmlWriter, json: Json)
    modifies xml
    ensures xml.events == old(xml.events) + DictEvents(json, Coordinate)
    decreases Depth(json), 1
  {
    var keys := ForInKeys(json);
    var i := 0;
    while i < |keys|
      invariant 0 <= i <= |keys|
      invariant xml.events == old(xml.events) + Entries(json, keys[..i], Coordinate)
    {
      WriteMember(xml, json, keys[i]);
      EntriesLoopStep(old(xml.events), json, keys, i, Coordinate);
      i := i + 1;
    }
    assert keys[..|keys|] == keys;
  }

  /** The loop body of `parsetoXML` for one key. */
  method WriteMember(xml: XmlWriter, json: Json, key: string)
    modifies xml
    ensures xml.events == old(xml.events) + Member(json, key, Coordinate)
    decreases Depth(json), 0
  {
    var value := Get(json, key);
    MemberDepth(json, key);
    MemberShape(json, key, Coordinate);
    if IsObjectType(value) {
      xml.StartElement("key");
      xml.Text(key);
      xml.EndElement();
      assert xml.events == old(xml.events) + KeyEvents(key);
      ghost var keyed := xml.events;
      if IsGeometryKey(key) {
        ParseToJson(xml, value);
      } else {
        xml.StartElement("dict");
        ParseToXml(xml, value);
        xml.EndElement();
        Regroup(keyed, [Open("dict")], DictEvents(value, Coordinate), [Close]);
      }
      assert xml.events == keyed + ObjectEvents(key, value, Coordinate);
      Associate(old(xml.events), KeyEvents(key), ObjectEvents(key, value, Coordinate));
    } else {
      ToXml(xml, key, value);
    }
  }

  /** `createXmlDocument(json)`: the plist envelope around `parsetoXML` of the document. */
  method CreateXmlDocument(json: Json) returns (xml: XmlWriter)
    ensures fresh(xml)
    ensures xml.events == DocumentHead() + DictEvents(json, Coordinate) + DocumentTail()
  {
    xml := new XmlWriter();
    xml.StartDocument();
    xml.WriteDocType("plist", PlistPublicId, PlistSystemId);
    xml.StartElement("plist");
    xml.WriteAttribute("version", "1.0");
    xml.StartElement("dict");
    assert xml.events == DocumentHead();
    ParseToXml(xml, json);
    xml.EndElement();
    xml.EndElement();
    xml.EndDocument();
    Regroup(DocumentHead(), DictEvents(json, Coordinate), [Close, Close], [DocEnd]);
  }

  // ---------------------------------------------------------------------
  // addProperties

  /** `getImageSize(fileName)`: `{width,height}`, or `{0,0}` when the image cannot be read. */
  function ImageSize(image: Option<(int, int)>): string
  {
    match image
    case Some((width, height)) => Json2Plist.SizeText(width, height)
    case None => "{0,0}"
  }

  /** The metadata of this copy: stamps are the generated identifiers as they are. */
  function MetadataOf(fileName: string, image: Option<(int, int)>, ids: (string, string, string)): Json
  {
    Json2Plist.Metadata(Json2Plist.TextureName(fileName), ImageSize(image), Json2Plist.SmartUpdate(ids.0, ids.1, ids.2))
  }

  /** `result['meta']` of the spread copy is truthy. */
  predicate MetaTruthy(json: Json)
  {
    Lookup(OwnFields(json), "meta").Some? && Truthy(Lookup(OwnFields(json), "meta").value)
  }

  /**
   * `addProperties(json, fileName)`: a spread copy of the document with
   * `metadata` set, and `meta` deleted when it is truthy.
   */
  function AddProperties(json: Json, fileName: string, image: Option<(int, int)>, ids: (string, string, string)): (r: Json)
    ensures r.Obj?
    ensures Lookup(r.fields, "metadata") == Some(MetadataOf(fileName, image, ids))
    ensures MetaTruthy(json) ==> Lookup(r.fields, "meta") == None
    ensures !MetaTruthy(json) ==> Lookup(r.fields, "meta") == Lookup(OwnFields(json), "meta")
    ensures forall k :: k != "metadata" && k != "meta" ==> Lookup(r.fields, k) == Lookup(OwnFields(json), k)
  {
    var result := SetField(OwnFields(json), "metadata", MetadataOf(fileName, image, ids));
    assert |"metadata"| != |"meta"|;
    assert Lookup(result, "meta") == Lookup(OwnFields(json), "meta");
    if MetaTruthy(json) then Obj(DeleteField(result, "meta")) else Obj(result)
  }

  /** A falsy `meta` (here null) survives in this copy, where json2plist.js deletes it. */
  lemma FalsyMetaSurvives(json: Json, fileName: string, image: Option<(int, int)>, ids: (string, string, string),
                          width: int, height: int, stamps: (string, string, string))
    requires json.Obj? && Lookup(json.fields, "meta") == Some(Null)
    ensures Lookup(AddProperties(json, fileName, image, ids).fields, "meta") == Some(Null)
    ensures Get(Json2Plist.AddProperties(json, fileName, width, height, stamps), "meta") == Undefined
  {
  }

  /**
   * `jsonToPlist` once the file is parsed: properties added to a copy, then
   * the XML document of the copy.
   */
  method JsonToPlist(json: Json, fileName: string, image: Option<(int, int)>, ids: (string, string, string))
    returns (xml: XmlWriter)
    ensures fresh(xml)
    ensures xml.events == DocumentHead() + DictEvents(AddProperties(json, fileName, image, ids), Coordinate) + DocumentTail()
  {
    var enhancedJson := AddProperties(json, fileName, image, ids);
    xml := CreateXmlDocument(enhancedJson);
  }
}
