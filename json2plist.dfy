/**
 * json2plist.js: the sprite-sheet frame table written by the resolver as
 * `<name>.json` is given its TexturePacker `metadata` and rewritten as an
 * Apple property list through an XML writer.
 *
 * Reading the `.json` file, measuring the `.png`, the random v1 identifiers
 * and writing the `.plist` text are outside the model: the parsed document,
 * the image size and the three identifiers are parameters, and the result
 * is the writer with the calls made on it.
 */
module Json2Plist {
  import opened JsValue
  import opened NodePath
  import opened FrameText
  import opened XmlEvents
  import opened PlistTree
  import UuidUtils

  /**
   * The text `parsetoJson` writes for a geometry value: `{w,h}`, or
   * `{{x,y},{w,h}}` when `x` and `w` are both `!= undefined` (neither null
   * nor undefined).
   */
  function Coordinate(value: Json): string
  {
    var x, y, w, h := Get(value, "x"), Get(value, "y"), Get(value, "w"), Get(value, "h");
    if !LooseEquals(x, Undefined) && !LooseEquals(w, Undefined) then RectText(x, y, w, h)
    else PointText(w, h)
  }

  /** A size `{w,h}` with no `x` is written as `{w,h}` and reads back as the two numbers. */
  lemma CoordinateOfSize(value: Json, w: int, h: int)
    requires Get(value, "w") == Num(w) && Get(value, "h") == Num(h)
    requires Get(value, "x").Undefined? || Get(value, "x").Null?
    ensures ParsePoint(Coordinate(value)) == Some((w, h))
  {
    ParsePointText(w, h);
  }

  /** A rectangle with numeric `x`, `y`, `w`, `h` is written as `{{x,y},{w,h}}` and reads back as the four numbers. */
  lemma CoordinateOfRect(value: Json, x: int, y: int, w: int, h: int)
    requires Get(value, "x") == Num(x) && Get(value, "y") == Num(y)
    requires Get(value, "w") == Num(w) && Get(value, "h") == Num(h)
    ensures ParseRect(Coordinate(value)) == Some((x, y, w, h))
  {
    ParseRectText(x, y, w, h);
  }

  /** `parsetoJson(xml, value)`: one `<string>` element holding the coordinate text. */
  method ParseToJson(xml: XmlWriter, value: Json)
    modifies xml
    ensures xml.events == old(xml.events) + StringElement(Coordinate(value))
  {
    xml.StartElement("string");
    var json := PointText(Get(value, "w"), Get(value, "h"));
    if !LooseEquals(Get(value, "x"), Undefined) && !LooseEquals(Get(value, "w"), Undefined) {
      json := RectText(Get(value, "x"), Get(value, "y"), Get(value, "w"), Get(value, "h"));
    }
    xml.Text(json);
    xml.EndElement();
  }

  /** `toXML(xml, key, value)`: the key, then an empty boolean element, an `<integer>` or a `<string>`. */
  method ToXml(xml: XmlWriter, key: string, value: Json)
    modifies xml
    ensures xml.events == old(xml.events) + ToXmlEvents(key, value)
  {
    xml.StartElement("key");
    xml.Text(key);
    xml.EndElement();
    if value.Bool? {
      xml.StartElement(if value.b then "true" else "false");
    } else if value.Num? {
      xml.StartElement("integer");
      xml.Text(Text(value));
    } else {
      xml.StartElement("string");
      xml.Text(Text(value));
    }
    xml.EndElement();
  }

  /**
   * `parsetoXML(xml, json)`: the keys of `json` in iteration order, each
   * written by the body of its loop.
   */
  method ParseToXml(xml: XmlWriter, json: Json)
    modifies xml
    ensures xml.events == old(xml.events) + DictEvents(json, Coordinate)
    decreases Depth(json), 1
  {
    var keys := ForInKeys(json);
    var i := 0;
    while i < |keys|
      invariant 0 <= i <= |keys|
      invariant xml.events == old(xml.events) + Entries(json, keys[..i], Coordinate)
    {
      WriteMember(xml, json, keys[i]);
      EntriesLoopStep(old(xml.events), json, keys, i, Coordinate);
      i := i + 1;
    }
    assert keys[..|keys|] == keys;
  }

  /**
   * The loop body of `parsetoXML` for one key: an object value gets its key
   * and then a coordinate string (geometry keys) or a nested `<dict>`; any
   * other value goes to `toXML`.
   */
  method WriteMember(xml: XmlWriter, json: Json, key: string)
    modifies xml
    ensures xml.events == old(xml.events) + Member(json, key, Coordinate)
    decreases Depth(json), 0
  {
    var value := Get(json, key);
    MemberDepth(json, key);
    MemberShape(json, key, Coordinate);
    if IsObjectType(value) {
      xml.StartElement("key");
      xml.Text(key);
      xml.EndElement();
      assert xml.events == old(xml.events) + KeyEvents(key);
      ghost var keyed := xml.events;
      if IsGeometryKey(key) {
        ParseToJson(xml, value);
      } else {
        xml.StartElement("dict");
        ParseToXml(xml, value);
        xml.EndElement();
        Regroup(keyed, [Open("dict")], DictEvents(value, Coordinate), [Close]);
      }
      assert xml.events == keyed + ObjectEvents(key, value, Coordinate);
      Associate(old(xml.events), KeyEvents(key), ObjectEvents(key, value, Coordinate));
    } else {
      ToXml(xml, key, value);
    }
  }

  // ---------------------------------------------------------------------
  // addProperties

  /** `$TexturePacker:SmartUpdate:<a>:<b>:<c>$`. */
  function SmartUpdate(a: string, b: string, c: string): string
  {
    SmartUpdatePrefix + a + ":" + b + ":" + c + "$"
  }

  const SmartUpdatePrefix: string := "$TexturePacker:SmartUpdate:"

  /** `p + a + ':' + b + ':' + c + '$'` splits back into `a`, `b` and `c` when none holds its separator. */
  lemma ThreeParts(p: string, a: string, b: string, c: string)
    requires ':' !in a && ':' !in b && '$' !in c
    ensures var s := p + a + ":" + b + ":" + c + "$";
      && s[..|p|] == p
      && BeforeFirst(s[|p|..], ':') == a
      && BeforeFirst(s[|p| + |a| + 1..], ':') == b
      && BeforeFirst(s[|p| + |a| + |b| + 2..], '$') == c
  {
    var s := p + a + ":" + b + ":" + c + "$";
    PartAfter(p, a, ':', b + ":" + c + "$");
    assert s == p + a + [':'] + (b + ":" + c + "$");
    PartAfter(p + a + ":", b, ':', c + "$");
    assert s == (p + a + ":") + b + [':'] + (c + "$");
    PartAfter(p + a + ":" + b + ":", c, '$', "");
    assert s == (p + a + ":" + b + ":") + c + ['$'] + "";
  }

  lemma PartAfter(p: string, a: string, sep: char, rest: string)
    requires sep !in a
    ensures |p + a + [sep] + rest| >= |p|
    ensures BeforeFirst((p + a + [sep] + rest)[|p|..], sep) == a
  {
    assert (p + a + [sep] + rest)[|p|..] == a + [sep] + rest;
    BeforeFirstOf(a, sep, rest);
  }

  /** The smart-update stamp starts with its fixed prefix and holds the three parts, colon-separated, up to the closing `$`. */
  lemma SmartUpdateParts(a: string, b: string, c: string)
    requires ':' !in a && ':' !in b && '$' !in c
    ensures var s := SmartUpdate(a, b, c);
      && s[..|SmartUpdatePrefix|] == SmartUpdatePrefix
      && BeforeFirst(s[|SmartUpdatePrefix|..], ':') == a
      && BeforeFirst(s[|SmartUpdatePrefix| + |a| + 1..], ':') == b
      && BeforeFirst(s[|SmartUpdatePrefix| + |a| + |b| + 2..], '$') == c
  {
    ThreeParts(SmartUpdatePrefix, a, b, c);
  }

  /** The TexturePacker `metadata` record. */
  function Metadata(textureName: string, size: string, smartupdate: string): Json
  {
    Obj([Field("format", Num(3)),
         Field("pixelFormat", Str("RGBA8888")),
         Field("premultiplyAlpha", Bool(false)),
         Field("realTextureFileName", Str(textureName)),
         Field("size", Str(size)),
         Field("smartupdate", Str(smartupdate)),
         Field("textureFileName", Str(textureName))])
  }

  /** The texture file named in the metadata: the basename of the document's path plus `.png`. */
  function TextureName(fileName: string): string
  {
    Basename(fileName) + ".png"
  }

  /** The record declares format 3, pixel format `RGBA8888` and no premultiplied alpha. */
  lemma MetadataFormat(textureName: string, size: string, smartupdate: string)
    ensures var m := Metadata(textureName, size, smartupdate);
      && Get(m, "format") == Num(3)
      && Get(m, "pixelFormat") == Str("RGBA8888")
      && Get(m, "premultiplyAlpha") == Bool(false)
  {
    var fs := Metadata(textureName, size, smartupdate).fields;
    GetFieldAt(fs, 0);
    GetFieldAt(fs, 1);
    GetFieldAt(fs, 2);
  }

  /** Both texture file names of the record are the same name. */
  lemma MetadataNames(textureName: string, size: string, smartupdate: string)
    ensures var m := Metadata(textureName, size, smartupdate);
      && Get(m, "textureFileName") == Str(textureName)
      && Get(m, "realTextureFileName") == Str(textureName)
  {
    var fs := Metadata(textureName, size, smartupdate).fields;
    GetFieldAt(fs, 3);
    assert forall j :: 0 <= j < 6 ==> |fs[j].key| != |fs[6].key|;
    GetFieldAt(fs, 6);
  }

  /** The record carries the image size and the smart-update stamp it was given. */
  lemma MetadataStamp(textureName: string, size: string, smartupdate: string)
    ensures var m := Metadata(textureName, size, smartupdate);
      && Get(m, "size") == Str(size)
      && Get(m, "smartupdate") == Str(smartupdate)
  {
    var fs := Metadata(textureName, size, smartupdate).fields;
    GetFieldAt(fs, 4);
    GetFieldAt(fs, 5);
  }

  /** The metadata record passes through the property list unchanged. */
  lemma MetadataPlain(textureName: string, size: string, smartupdate: string)
    ensures Plain(Metadata(textureName, size, smartupdate))
  {
    var fs := Metadata(textureName, size, smartupdate).fields;
    assert forall i :: 0 <= i < |fs| ==> !IsGeometryKey(fs[i].key) && Plain(fs[i].value);
    assert DistinctKeys(fs);
  }

  /** `sizeof(fileName)`: `{width,height}` of the `.png`. */
  function SizeText(width: int, height: int): string
  {
    PointText(Num(width), Num(height))
  }

  /**
   * `addProperties(json, fileName)`: sets `metadata` and deletes `meta` on
   * the document itself. The stamps are three v1 identifiers, hyphens
   * removed. A document that is not an object is left as it is.
   */
  function AddProperties(json: Json, fileName: string, width: int, height: int, ids: (string, string, string)): (r: Json)
    ensures json.Obj? ==> r.Obj?
    ensures json.Obj? ==> Get(r, "metadata") == Metadata(TextureName(fileName), SizeText(width, height), Stamp(ids))
    ensures json.Obj? ==> Get(r, "meta") == Undefined
    ensures json.Obj? ==> forall k :: k != "metadata" && k != "meta" ==> Lookup(r.fields, k) == Lookup(json.fields, k)
    ensures json.Obj? ==> forall k :: k in Keys(r.fields) <==> (k in Keys(json.fields) && k != "meta") || k == "metadata"
    ensures !json.Obj? ==> r == json
  {
    if json.Obj? then
      var fs := SetThenDelete(json.fields, "metadata", Metadata(TextureName(fileName), SizeText(width, height), Stamp(ids)), "meta");
      Obj(fs)
    else json
  }

  /** `o[k] = v; delete o[gone]` on the fields of an object, for two different keys. */
  function SetThenDelete(fields: seq<Field>, k: string, v: Json, gone: string): (r: seq<Field>)
    requires |k| != |gone|
    ensures Lookup(r, k) == Some(v) && Lookup(r, gone) == None
    ensures forall k' :: k' != k && k' != gone ==> Lookup(r, k') == Lookup(fields, k')
    ensures forall k' :: k' in Keys(r) <==> (k' in Keys(fields) && k' != gone) || k' == k
  {
    var withValue := SetField(fields, k, v);
    var r := DeleteField(withValue, gone);
    KeysOfLookup(fields);
    KeysOfLookup(withValue);
    KeysOfLookup(r);
    r
  }

  /** The smart-update stamp of three v1 identifiers with their hyphens removed. */
  function Stamp(ids: (string, string, string)): string
  {
    SmartUpdate(UuidUtils.RemoveHyphens(ids.0), UuidUtils.RemoveHyphens(ids.1), UuidUtils.RemoveHyphens(ids.2))
  }

  lemma KeysOfLookup(fs: seq<Field>)
    ensures forall k :: k in Keys(fs) <==> Lookup(fs, k).Some?
  {
  }

  /**
   * `readJson` once the file is parsed: the doctype, `<plist version='1.0'>`,
   * the root `<dict>` holding `parsetoXML` of the document with its
   * properties added, and the closing calls.
   */
  method ReadJson(json: Json, fileName: string, width: int, height: int, ids: (string, string, string))
    returns (xml: XmlWriter)
    ensures fresh(xml)
    ensures xml.events == DocumentHead() + DictEvents(AddProperties(json, fileName, width, height, ids), Coordinate) + DocumentTail()
  {
    var doc := AddProperties(json, fileName, width, height, ids);
    xml := new XmlWriter();
    xml.StartDocument();
    xml.WriteDocType("plist", PlistPublicId, PlistSystemId);
    xml.StartElement("plist");
    xml.WriteAttribute("version", "1.0");
    xml.StartElement("dict");
    assert xml.events == DocumentHead();
    ParseToXml(xml, doc);
    xml.EndElement();
    xml.EndElement();
    xml.EndDocument();
    Regroup(DocumentHead(), DictEvents(doc, Coordinate), [Close, Close], [DocEnd]);
  }

  /**
   * The document written for an object reads back with the `metadata`
   * entry exactly as added, and with no `meta` key.
   */
  lemma ReadJsonMetadata(json: Json, fileName: string, width: int, height: int, ids: (string, string, string))
    requires json.Obj?
    ensures var doc := AddProperties(json, fileName, width, height, ids);
      && DenotedMember(doc, "metadata", Coordinate) == Metadata(TextureName(fileName), SizeText(width, height), Stamp(ids))
      && "meta" !in ForInKeys(doc)
      && "metadata" in ForInKeys(doc)
  {
    var doc := AddProperties(json, fileName, width, height, ids);
    var m := Metadata(TextureName(fileName), SizeText(width, height), Stamp(ids));
    MetadataPlain(TextureName(fileName), SizeText(width, height), Stamp(ids));
    DenotedPlainObject("metadata", m, Coordinate);
  }
}
