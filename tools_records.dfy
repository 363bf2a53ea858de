/**
 * The value-level pieces of the asset resolver: the effects it plans on the
 * output project, the meta records it writes, the settings lookups, the
 * recursive identifier decoding of a document and the bitmap-font text.
 */
module ToolsRecords {
  import opened JsValue
  import opened NodePath
  import opened UuidUtils
  import opened FrameText

  /** Width and height of an image, as `sizeOf(path)` reports them. */
  datatype Size = Size(width: int, height: int)

  /** One call that touches the output project, in the order the resolver makes the calls. */
  datatype Output =
      /** `writeFile(dir, file, data)`: the JSON text of `data` at `./project/assets/<dir>/<file>`. */
    | Write(dir: string, file: string, data: Json)
      /** `writeFile(dir, file, JSON.parse(text))`: the document the text holds, written the same way. */
    | WriteParsed(dir: string, file: string, source: Json)
      /** `fs.appendFileSync(path, text, {flag: 'w+'})`: the file holds exactly `text`. */
    | WriteText(path: string, content: string)
      /**
       * The call `json2plist.readJson(base)`, not its result: it only starts
       * an asynchronous read of `<base>.json`, and whether `<base>.plist` is
       * ever written is decided by `ConvertRacing`.
       */
    | ConvertPlist(base: string)
      /** `fs.unlinkSync(path)`. */
    | Unlink(path: string)
      /** One queued copy of `copyFile`: the bytes of `from` streamed to `to`. */
    | Copy(from: string, to: string)

  /** The copy queue played back: one copy per queued pair, in order. */
  function CopyPlan(sources: seq<string>, targets: seq<string>): (cs: seq<Output>)
    requires |sources| == |targets|
    ensures |cs| == |sources|
    ensures forall i :: 0 <= i < |sources| ==> cs[i] == Copy(sources[i], targets[i])
  {
    seq(|sources|, i requires 0 <= i < |sources| => Copy(sources[i], targets[i]))
  }

  /** What a file of the picture directory holds: a JSON value's text, or the plist `readJson` renders from one. */
  datatype FileBody = JsonText(data: Json) | PlistOf(data: Json)

  /**
   * The picture directory after `json2plist.readJson(base)` and, at once,
   * `fs.unlinkSync(base + '.json')`, as `convertToSpriteAtlaFile` makes the
   * two calls. `readJson` only starts an asynchronous `fs.readFile`, whose
   * callback writes the plist; `openedFirst` says whether that read opened the
   * JSON before the unlink removed it. When it did not, the read fails, the
   * error is logged, and no plist is written.
   */
  function ConvertRacing(files: map<string, FileBody>, base: string, openedFirst: bool): (r: map<string, FileBody>)
    requires base + ".json" in files && files[base + ".json"].JsonText?
    ensures base + ".json" !in r
    ensures forall p :: p in files && p != base + ".json" && p != base + ".plist" ==> p in r && r[p] == files[p]
  {
    var afterUnlink := files - {base + ".json"};
    if openedFirst then afterUnlink[base + ".plist" := PlistOf(files[base + ".json"].data)] else afterUnlink
  }

  /** The two calls as evidently intended: the plist is rendered from the JSON, then the JSON is removed. */
  function ConvertThenUnlink(files: map<string, FileBody>, base: string): (r: map<string, FileBody>)
    requires base + ".json" in files && files[base + ".json"].JsonText?
    ensures base + ".json" !in r
    ensures base + ".plist" in r && r[base + ".plist"] == PlistOf(files[base + ".json"].data)
    ensures forall p :: p in files && p != base + ".json" && p != base + ".plist" ==> p in r && r[p] == files[p]
    ensures forall p :: p in r ==> p in files || p == base + ".plist"
  {
    (files - {base + ".json"})[base + ".plist" := PlistOf(files[base + ".json"].data)]
  }

  /** When the unlink wins the race, the sheet is lost: neither its JSON nor a plist is left. */
  lemma ConvertRacingLosesPlist(files: map<string, FileBody>, base: string)
    requires base + ".json" in files && files[base + ".json"].JsonText?
    requires base + ".plist" !in files
    ensures base + ".json" !in ConvertRacing(files, base, false)
    ensures base + ".plist" !in ConvertRacing(files, base, false)
  {
  }

  /** When the read opens the JSON first, the calls as written do what was intended. */
  lemma ConvertRacingOpenedFirst(files: map<string, FileBody>, base: string)
    requires base + ".json" in files && files[base + ".json"].JsonText?
    ensures ConvertRacing(files, base, true) == ConvertThenUnlink(files, base)
  {
  }

  /** The path `writeFile` and the copy queue use for a file of the output project. */
  function AssetPath(dir: string, file: string): string
  {
    "./project/assets/" + dir + "/" + file
  }

  /**
   * `a + b` where at least one side is a string: the two texts joined. (When
   * neither is a string JavaScript adds numerically; see the README.)
   */
  function Plus(a: Json, b: Json): string
  {
    Text(a) + Text(b)
  }

  /** `v[k1][k2]`. */
  function Get2(v: Json, k1: string, k2: string): Json
  {
    Get(Get(v, k1), k2)
  }

  /** `v[k1][k2][k3]`. */
  function Get3(v: Json, k1: string, k2: string, k3: string): Json
  {
    Get(Get(Get(v, k1), k2), k3)
  }

  // ---------------------------------------------------------------------
  // Meta records

  /** The `ver` 1.2.7 meta of scenes, prefabs, animations and audio clips. */
  function AssetMeta(uuid: Json): Json
  {
    Obj([Field("ver", Str("1.2.7")), Field("uuid", uuid), Field("optimizationPolicy", Str("AUTO")),
         Field("asyncLoadAssets", Bool(false)), Field("readonly", Bool(false)), Field("subMetas", EmptyObject)])
  }

  /** A meta with only `ver`, `uuid` and empty `subMetas` (text assets, bones, particles). */
  function PlainMeta(ver: string, uuid: Json): Json
  {
    Obj([Field("ver", Str(ver)), Field("uuid", uuid), Field("subMetas", EmptyObject)])
  }

  /** The `ver` 2.0.0 meta of `.mp3` files. */
  function AudioMeta(uuid: Json): Json
  {
    Obj([Field("ver", Str("2.0.0")), Field("uuid", uuid), Field("downloadMode", Num(0)), Field("subMetas", EmptyObject)])
  }

  /** The placement and trimming numbers of one sprite. */
  datatype Frame = Frame(offsetX: Json, offsetY: Json, trimX: Json, trimY: Json, width: Json, height: Json,
                         rawWidth: Json, rawHeight: Json, top: Json, bottom: Json, left: Json, right: Json)

  /** The numbers of a sprite-frame `content`: `offset`, `rect`, `originalSize`, `capInsets`. */
  function FrameOf(content: Json): Frame
  {
    Frame(Get(Get(content, "offset"), "0"), Get(Get(content, "offset"), "1"),
          Get(Get(content, "rect"), "0"), Get(Get(content, "rect"), "1"),
          Get(Get(content, "rect"), "2"), Get(Get(content, "rect"), "3"),
          Get(Get(content, "originalSize"), "0"), Get(Get(content, "originalSize"), "1"),
          Get(Get(content, "capInsets"), "0"), Get(Get(content, "capInsets"), "1"),
          Get(Get(content, "capInsets"), "2"), Get(Get(content, "capInsets"), "3"))
  }

  /** A whole, untrimmed picture of the given size. */
  function WholeFrame(width: int, height: int): Frame
  {
    Frame(Num(0), Num(0), Num(0), Num(0), Num(width), Num(height), Num(width), Num(height),
          Num(0), Num(0), Num(0), Num(0))
  }

  /** The `ver` 1.0.4 sub-meta of one sprite of a texture. */
  function SpriteSubMeta(uuid: Json, rawTextureUuid: Json, f: Frame): Json
  {
    Obj([Field("ver", Str("1.0.4")), Field("uuid", uuid), Field("rawTextureUuid", rawTextureUuid),
         Field("trimType", Str("auto")), Field("trimThreshold", Num(1)), Field("rotated", Bool(false)),
         Field("offsetX", f.offsetX), Field("offsetY", f.offsetY), Field("trimX", f.trimX), Field("trimY", f.trimY),
         Field("width", f.width), Field("height", f.height), Field("rawWidth", f.rawWidth), Field("rawHeight", f.rawHeight),
         Field("borderTop", f.top), Field("borderBottom", f.bottom), Field("borderLeft", f.left), Field("borderRight", f.right),
         Field("spriteType", Str("normal")), Field("subMetas", EmptyObject)])
  }

  /** The `ver` 2.3.4 meta of a texture image. */
  function TextureMeta(uuid: Json, width: int, height: int, subMetas: Json): Json
  {
    Obj([Field("ver", Str("2.3.4")), Field("uuid", uuid), Field("type", Str("sprite")), Field("wrapMode", Str("clamp")),
         Field("filterMode", Str("bilinear")), Field("premultiplyAlpha", Bool(false)), Field("genMipmaps", Bool(false)),
         Field("packable", Bool(true)), Field("width", Num(width)), Field("height", Num(height)),
         Field("platformSettings", EmptyObject), Field("subMetas", subMetas)])
  }

  /** The `ver` 1.2.4 meta of a generated `.plist` sprite sheet. */
  function PlistMeta(uuid: Json, rawTextureUuid: Json, width: int, height: int, subMetas: Json): Json
  {
    Obj([Field("ver", Str("1.2.4")), Field("uuid", uuid), Field("rawTextureUuid", rawTextureUuid),
         Field("size", Obj([Field("width", Num(width)), Field("height", Num(height))])),
         Field("type", Str("Texture Packer")), Field("subMetas", subMetas)])
  }

  /** The `ver` 2.1.0 meta of a bitmap font. */
  function FontMeta(uuid: Json, textureUuid: Json): Json
  {
    Obj([Field("ver", Str("2.1.0")), Field("uuid", uuid), Field("textureUuid", textureUuid),
         Field("fontSize", Num(36)), Field("subMetas", EmptyObject)])
  }

  /** The frame record of one sprite in the sprite-sheet JSON, with its coordinate strings. */
  function FrameEntry(content: Json): Json
  {
    var f := FrameOf(content);
    Obj([Field("aliases", Arr([])),
         Field("spriteOffset", Str(PointText(f.offsetX, f.offsetY))),
         Field("spriteSize", Str(PointText(f.rawWidth, f.rawHeight))),
         Field("spriteSourceSize", Str(PointText(f.rawWidth, f.rawHeight))),
         Field("textureRect", Str(RectText(f.trimX, f.trimY, f.width, f.height))),
         Field("textureRotated", Bool(false))])
  }

  /**
   * `convertToPictureFile`'s record: the texture meta of one picture holding a
   * single sprite sub-meta named after the file (up to its first dot).
   */
  function PictureMeta(sprite: Json, uuid: Json, filename: string, width: int, height: int): Json
  {
    var content := Get(sprite, "content");
    var texture := DecodeValue(Get(content, "texture"));
    var subMetas := Obj([Field(BeforeFirst(filename, '.'), SpriteSubMeta(uuid, texture, FrameOf(content)))]);
    TextureMeta(texture, width, height, subMetas)
  }

  /** The texture meta carries its uuid and its sub-metas under those names. */
  lemma TextureMetaGets(uuid: Json, width: int, height: int, subMetas: Json)
    ensures Get(TextureMeta(uuid, width, height, subMetas), "uuid") == uuid
    ensures Get(TextureMeta(uuid, width, height, subMetas), "subMetas") == subMetas
  {
    TextureMetaUuid(uuid, width, height, subMetas);
    TextureMetaSubMetas(uuid, width, height, subMetas);
  }

  lemma TextureMetaUuid(uuid: Json, width: int, height: int, subMetas: Json)
    ensures Get(TextureMeta(uuid, width, height, subMetas), "uuid") == uuid
  {
    GetFieldAt(TextureMeta(uuid, width, height, subMetas).fields, 1);
  }

  lemma TextureMetaSubMetas(uuid: Json, width: int, height: int, subMetas: Json)
    ensures Get(TextureMeta(uuid, width, height, subMetas), "subMetas") == subMetas
  {
    GetFieldAt(TextureMeta(uuid, width, height, subMetas).fields, 11);
  }

  /** A sprite sub-meta carries its own uuid and the uuid of its texture. */
  lemma SpriteSubMetaGets(uuid: Json, rawTextureUuid: Json, f: Frame)
    ensures Get(SpriteSubMeta(uuid, rawTextureUuid, f), "uuid") == uuid
    ensures Get(SpriteSubMeta(uuid, rawTextureUuid, f), "rawTextureUuid") == rawTextureUuid
  {
    SpriteSubMetaUuid(uuid, rawTextureUuid, f);
    SpriteSubMetaTexture(uuid, rawTextureUuid, f);
  }

  lemma SpriteSubMetaUuid(uuid: Json, rawTextureUuid: Json, f: Frame)
    ensures Get(SpriteSubMeta(uuid, rawTextureUuid, f), "uuid") == uuid
  {
    GetFieldAt(SpriteSubMeta(uuid, rawTextureUuid, f).fields, 1);
  }

  lemma SpriteSubMetaTexture(uuid: Json, rawTextureUuid: Json, f: Frame)
    ensures Get(SpriteSubMeta(uuid, rawTextureUuid, f), "rawTextureUuid") == rawTextureUuid
  {
    GetFieldAt(SpriteSubMeta(uuid, rawTextureUuid, f).fields, 2);
  }

  /**
   * The picture meta names exactly one sprite, the file's name up to its first
   * dot; the sprite carries the given uuid and points back at the texture the
   * meta describes.
   */
  lemma PictureMetaLinks(sprite: Json, uuid: Json, filename: string, width: int, height: int)
    ensures var m := PictureMeta(sprite, uuid, filename, width, height);
      && ForInKeys(Get(m, "subMetas")) == [BeforeFirst(filename, '.')]
      && Get2(Get(m, "subMetas"), BeforeFirst(filename, '.'), "uuid") == uuid
      && Get2(Get(m, "subMetas"), BeforeFirst(filename, '.'), "rawTextureUuid") == Get(m, "uuid")
      && Get(m, "uuid") == DecodeValue(Get2(sprite, "content", "texture"))
  {
    var content := Get(sprite, "content");
    var texture := DecodeValue(Get(content, "texture"));
    var name := BeforeFirst(filename, '.');
    var sub := SpriteSubMeta(uuid, texture, FrameOf(content));
    var subMetas := Obj([Field(name, sub)]);
    TextureMetaGets(texture, width, height, subMetas);
    GetFieldAt(subMetas.fields, 0);
    SpriteSubMetaGets(uuid, texture, FrameOf(content));
  }

  // ---------------------------------------------------------------------
  // The meta file of a known asset (`convertToMetaFile`)

  /** The asset directory of an extension; other extensions stay at the top. */
  function MetaDirectory(ext: string): string
  {
    if ext == ".fire" then "Scene"
    else if ext == ".prefab" then "Prefab"
    else if ext == ".ts" then "Scripts"
    else if ext == ".anim" then "Animation"
    else if ext == ".mp3" then "Audio"
    else ""
  }

  /** The record of a known asset's meta: the audio record for `.mp3`, the asset record otherwise. */
  function MetaRecord(ext: string, uuid: Json): Json
  {
    if ext == ".mp3" then AudioMeta(uuid) else AssetMeta(uuid)
  }

  /** The meta written for a known asset: by extension, with `.mp3` special. */
  function MetaFileOutput(name: string, uuid: Json): Output
  {
    var ext := ExtName(name);
    Write(MetaDirectory(ext), name + ".meta", MetaRecord(ext, uuid))
  }

  /**
   * A simple `stem.ext` name: its meta is `stem.ext.meta`, in the directory
   * and with the record of `.ext`.
   */
  lemma MetaFileOfName(stem: string, ext: string, uuid: Json)
    requires stem != [] && '.' !in stem && '/' !in stem
    requires '.' !in ext && '/' !in ext
    ensures MetaFileOutput(stem + "." + ext, uuid)
      == Write(MetaDirectory("." + ext), stem + "." + ext + ".meta", MetaRecord("." + ext, uuid))
  {
    ExtNameOfSimpleName(stem, ext);
  }

  /** Only `.mp3` gets the audio record; every other extension the asset record. */
  lemma MetaRecordKinds(ext: string, uuid: Json)
    ensures MetaRecord(ext, uuid) == AudioMeta(uuid) <==> ext == ".mp3"
    ensures MetaRecord(ext, uuid) == AssetMeta(uuid) <==> ext != ".mp3"
  {
    assert |AudioMeta(uuid).fields| != |AssetMeta(uuid).fields|;
  }

  /** Each known extension has its own directory; any other one stays at the top. */
  lemma MetaDirectoryTable(ext: string)
    ensures MetaDirectory(ext) == "Scene" <==> ext == ".fire"
    ensures MetaDirectory(ext) == "Prefab" <==> ext == ".prefab"
    ensures MetaDirectory(ext) == "Scripts" <==> ext == ".ts"
    ensures MetaDirectory(ext) == "Animation" <==> ext == ".anim"
    ensures MetaDirectory(ext) == "Audio" <==> ext == ".mp3"
    ensures MetaDirectory(ext) == "" <==> ext !in [".fire", ".prefab", ".ts", ".anim", ".mp3"]
  {
  }

  // ---------------------------------------------------------------------
  // Settings lookups

  /** `isEmptyObject(obj)`: `for ... in` visits no key. */
  function IsEmptyObject(v: Json): (r: bool)
    ensures !(v.Obj? || v.Arr? || v.Str?) ==> r
    ensures v.Obj? ==> (r <==> v.fields == [])
    ensures v.Arr? ==> (r <==> v.items == [])
    ensures v.Str? ==> (r <==> v.s == "")
  {
    ForInKeys(v) == []
  }

  /**
   * `createLibrary(index, key)` of the resolver: the entry `index` of
   * `packedAssets[key]`, turned into `uuids[entry]` when it is a number;
   * undefined when `key` is not a packed-asset group or the settings are the
   * text `{}`.
   */
  function CreateLibrary(settings: Json, index: string, key: string): Json
  {
    if LooseEquals(settings, Str("{}")) then Undefined
    else ScanPacked(settings, ForInKeys(Get(settings, "packedAssets")), index, key)
  }

  /** The `for (key1 in packedAssets)` search, returning at the first key equal to `key`. */
  function ScanPacked(settings: Json, keys: seq<string>, index: string, key: string): Json
  {
    if keys == [] then Undefined
    else if key == keys[0] then
      var entry := Get2(Get(settings, "packedAssets"), key, index);
      if entry.Num? then Get(Get(settings, "uuids"), IntToString(entry.n)) else entry
    else ScanPacked(settings, keys[1..], index, key)
  }

  /** The search finds the entry of `key` exactly when `key` is among the keys searched. */
  lemma {:induction false} ScanPackedFinds(settings: Json, keys: seq<string>, index: string, key: string)
    ensures key !in keys ==> ScanPacked(settings, keys, index, key) == Undefined
    ensures key in keys ==>
      var entry := Get2(Get(settings, "packedAssets"), key, index);
      ScanPacked(settings, keys, index, key) == if entry.Num? then Get(Get(settings, "uuids"), IntToString(entry.n)) else entry
    decreases |keys|
  {
    if keys != [] && key != keys[0] {
      ScanPackedFinds(settings, keys[1..], index, key);
      assert key in keys <==> key in keys[1..];
    }
  }

  /**
   * `createLibrary` is undefined under the settings text `{}` and for a key
   * that is not a packed-asset group; otherwise it is that group's entry
   * `index`, looked up in `uuids` when it is a number.
   */
  lemma CreateLibraryFinds(settings: Json, index: string, key: string)
    ensures LooseEquals(settings, Str("{}")) ==> CreateLibrary(settings, index, key) == Undefined
    ensures key !in ForInKeys(Get(settings, "packedAssets")) ==> CreateLibrary(settings, index, key) == Undefined
    ensures !LooseEquals(settings, Str("{}")) && key in ForInKeys(Get(settings, "packedAssets")) ==>
      var entry := Get2(Get(settings, "packedAssets"), key, index);
      CreateLibrary(settings, index, key) == if entry.Num? then Get(Get(settings, "uuids"), IntToString(entry.n)) else entry
  {
    ScanPackedFinds(settings, ForInKeys(Get(settings, "packedAssets")), index, key);
  }

  /**
   * `globalFinding(data, key, value)`: walks the members of an array; the
   * first member that is an array ends the walk with the search inside it,
   * the first other member with a truthy `key` ends it with `member[key][value]`.
   */
  function GlobalFinding(data: Json, key: string, value: string): Json
    decreases data, 1
  {
    match data
    case Arr(items) => FindIn(items, key, value)
    case Str(s) => FindInChars(s, key, value)
    case _ => Undefined
  }

  function FindIn(items: seq<Json>, key: string, value: string): Json
    decreases items, 0
  {
    if items == [] then Undefined
    else if IsArray(items[0]) then GlobalFinding(items[0], key, value)
    else if Truthy(Get(items[0], key)) then Get2(items[0], key, value)
    else FindIn(items[1..], key, value)
  }

  /** The walk over the one-character strings `for ... of` gives for a string. */
  function FindInChars(s: string, key: string, value: string): Json
  {
    if s == [] then Undefined
    else if Truthy(Get(Str([s[0]]), key)) then Get2(Str([s[0]]), key, value)
    else FindInChars(s[1..], key, value)
  }

  /** The walk stops at the first member that is an array or holds the key. */
  lemma {:induction false} FindInFirstHit(items: seq<Json>, key: string, value: string, i: nat)
    requires i < |items| && (IsArray(items[i]) || Truthy(Get(items[i], key)))
    requires forall j :: 0 <= j < i ==> !IsArray(items[j]) && !Truthy(Get(items[j], key))
    ensures FindIn(items, key, value) ==
      if IsArray(items[i]) then GlobalFinding(items[i], key, value) else Get2(items[i], key, value)
    decreases i
  {
    if i > 0 {
      FindInFirstHit(items[1..], key, value, i - 1);
    }
  }

  /** With no array member and no member holding the key, the result is undefined. */
  lemma {:induction false} FindInMiss(items: seq<Json>, key: string, value: string)
    requires forall j :: 0 <= j < |items| ==> !IsArray(items[j]) && !Truthy(Get(items[j], key))
    ensures FindIn(items, key, value) == Undefined
    decreases |items|
  {
    if items != [] {
      FindInMiss(items[1..], key, value);
    }
  }

  /** A nested array that holds nothing still ends the walk: a later match is not reached. */
  lemma FindInStopsAtArray()
    ensures GlobalFinding(Arr([Arr([]), Obj([Field("k", Obj([Field("v", Num(1))]))])]), "k", "v") == Undefined
    ensures GlobalFinding(Arr([Obj([Field("k", Obj([Field("v", Num(1))]))])]), "k", "v") == Num(1)
  {
  }

  // ---------------------------------------------------------------------
  // `reveal`: decoding every identifier of a document

  /**
   * `reveal(v)`: every object-typed member is revealed first; then a member
   * named `__uuid__` with a truthy value is replaced by `decodeUuid` of it.
   */
  function Reveal(v: Json): (r: Json)
    ensures v.Obj? <==> r.Obj?
    ensures v.Arr? <==> r.Arr?
    ensures ForInKeys(r) == ForInKeys(v)
    ensures !v.Obj? && !v.Arr? ==> r == v
    decreases v, 0
  {
    match v
    case Obj(fs) => Obj(RevealFields(fs))
    case Arr(items) => Arr(RevealItems(items))
    case _ => v
  }

  /** The new value of member `key` holding `x`. */
  function RevealMember(key: string, x: Json): Json
    decreases x, 1
  {
    var y := if IsObjectType(x) then Reveal(x) else x;
    if key == "__uuid__" && Truthy(y) then DecodeValue(y) else y
  }

  function RevealFields(fs: seq<Field>): (r: seq<Field>)
    ensures Keys(r) == Keys(fs)
    decreases fs, 0
  {
    if fs == [] then []
    else [Field(fs[0].key, RevealMember(fs[0].key, fs[0].value))] + RevealFields(fs[1..])
  }

  /** Array members have index keys, never `__uuid__`: they are only revealed. */
  function RevealItems(items: seq<Json>): (r: seq<Json>)
    ensures |r| == |items|
    decreases items, 0
  {
    if items == [] then []
    else [if IsObjectType(items[0]) then Reveal(items[0]) else items[0]] + RevealItems(items[1..])
  }

  /** A 22-symbol identifier under `__uuid__` becomes its 36-character decoded form. */
  lemma RevealDecodesUuid(s: string)
    requires |s| == 22
    ensures RevealMember("__uuid__", Str(s)) == Str(Decoded(s))
    ensures 26 <= |Decoded(s)| <= 36
  {
    DecodedLength(s);
  }

  /** Revealing twice is revealing once: decoded identifiers decode to themselves. */
  lemma {:induction false} RevealIdempotent(v: Json)
    ensures Reveal(Reveal(v)) == Reveal(v)
    decreases v, 0
  {
    match v
    case Obj(fs) => RevealFieldsIdempotent(fs);
    case Arr(items) => RevealItemsIdempotent(items);
    case _ =>
  }

  lemma {:induction false} RevealMemberIdempotent(key: string, x: Json)
    ensures RevealMember(key, RevealMember(key, x)) == RevealMember(key, x)
    decreases x, 1
  {
    var y := if IsObjectType(x) then Reveal(x) else x;
    if IsObjectType(x) {
      RevealIdempotent(x);
    }
    if key == "__uuid__" && Truthy(y) {
      if y.Str? {
        DecodedIdempotent(y.s);
      }
    }
  }

  lemma {:induction false} RevealFieldsIdempotent(fs: seq<Field>)
    ensures RevealFields(RevealFields(fs)) == RevealFields(fs)
    decreases fs, 0
  {
    if fs != [] {
      RevealMemberIdempotent(fs[0].key, fs[0].value);
      RevealFieldsIdempotent(fs[1..]);
      assert RevealFields(fs)[1..] == RevealFields(fs[1..]);
    }
  }

  lemma {:induction false} RevealItemsIdempotent(items: seq<Json>)
    ensures RevealItems(RevealItems(items)) == RevealItems(items)
    decreases items, 0
  {
    if items != [] {
      if IsObjectType(items[0]) {
        RevealIdempotent(items[0]);
      }
      RevealItemsIdempotent(items[1..]);
      assert RevealItems(items)[1..] == RevealItems(items[1..]);
    }
  }

  // ---------------------------------------------------------------------
  // `extractValidInfo`

  /** The three properties `extractValidInfo` always keeps when they are truthy. */
  const InfoNames: seq<string> := ["__type__", "_name", "fileId"]

  /** The first loop: the named properties with truthy values, in the order of the list. */
  function NamedInfo(data: Json, names: seq<string>): seq<Field>
  {
    if names == [] then []
    else
      var info := NamedInfo(data, names[..|names| - 1]);
      var k := names[|names| - 1];
      if Truthy(Get(data, k)) then SetField(info, k, Get(data, k)) else info
  }

  /**
   * The second loop as written: the test `(data[key], '__uuid__')` is a comma
   * expression whose value is the non-empty string, so every key is copied.
   */
  function CopyAll(data: Json, keys: seq<string>, info: seq<Field>): seq<Field>
  {
    if keys == [] then info
    else
      var k := keys[|keys| - 1];
      SetField(CopyAll(data, keys[..|keys| - 1], info), k, Get(data, k))
  }

  /** `extractValidInfo(data)` as written. */
  function InfoAsWritten(data: Json): Json
  {
    Obj(CopyAll(data, ForInKeys(data), NamedInfo(data, InfoNames)))
  }

  /**
   * `extractValidInfo(data)`: the loop over the named properties, then the
   * loop over all keys of `data`.
   */
  method ExtractValidInfo(data: Json) returns (info: Json)
    ensures info == InfoAsWritten(data)
  {
    var fields: seq<Field> := [];
    for i := 0 to |InfoNames|
      invariant fields == NamedInfo(data, InfoNames[..i])
    {
      NamedInfoStep(data, InfoNames, i);
      if Truthy(Get(data, InfoNames[i])) {
        fields := SetField(fields, InfoNames[i], Get(data, InfoNames[i]));
      }
    }
    WholePrefix(InfoNames);
    var keys := ForInKeys(data);
    ghost var named := fields;
    for j := 0 to |keys|
      invariant fields == CopyAll(data, keys[..j], named)
    {
      CopyAllStep(data, keys, named, j);
      fields := SetField(fields, keys[j], Get(data, keys[j]));
    }
    WholePrefix(keys);
    info := Obj(fields);
  }

  lemma NamedInfoStep(data: Json, names: seq<string>, i: nat)
    requires i < |names|
    ensures NamedInfo(data, names[..i + 1]) ==
      var info := NamedInfo(data, names[..i]);
      if Truthy(Get(data, names[i])) then SetField(info, names[i], Get(data, names[i])) else info
  {
    assert names[..i + 1][..i] == names[..i];
  }

  lemma CopyAllStep(data: Json, keys: seq<string>, info: seq<Field>, j: nat)
    requires j < |keys|
    ensures CopyAll(data, keys[..j + 1], info) == SetField(CopyAll(data, keys[..j], info), keys[j], Get(data, keys[j]))
  {
    assert keys[..j + 1][..j] == keys[..j];
  }

  /** The copying loop leaves every copied key holding the value `data` has there. */
  lemma {:induction false} CopyAllHolds(data: Json, keys: seq<string>, info: seq<Field>)
    ensures forall k :: k in keys ==> Lookup(CopyAll(data, keys, info), k) == Some(Get(data, k))
    ensures forall k :: k !in keys ==> Lookup(CopyAll(data, keys, info), k) == Lookup(info, k)
    decreases |keys|
  {
    if keys != [] {
      var init := keys[..|keys| - 1];
      CopyAllHolds(data, init, info);
      forall k | k in keys && k != keys[|keys| - 1] ensures k in init {
        var i :| 0 <= i < |keys| && keys[i] == k;
        assert init[i] == k;
      }
    }
  }

  /**
   * As written, the result holds every property of `data`, whether or not it
   * carries a `__uuid__`.
   */
  lemma InfoKeepsEverything(data: Json, k: string)
    requires k in ForInKeys(data)
    ensures Get(InfoAsWritten(data), k) == Get(data, k)
  {
    CopyAllHolds(data, ForInKeys(data), NamedInfo(data, InfoNames));
  }

  /** A plain number property with no identifier in it survives the filter. */
  lemma InfoKeepsPlainProperty()
    ensures Get(Get(Obj([Field("width", Num(3))]), "width"), "__uuid__") == Undefined
    ensures Get(InfoAsWritten(Obj([Field("width", Num(3))])), "width") == Num(3)
  {
    InfoKeepsEverything(Obj([Field("width", Num(3))]), "width");
  }

  /** A property worth keeping under the evident intent: its value holds a truthy `__uuid__`. */
  predicate HoldsUuid(data: Json, k: string)
  {
    Truthy(Get(Get(data, k), "__uuid__"))
  }

  /** The second loop with the evident test `data[key] && data[key]['__uuid__']`. */
  function CopyUuids(data: Json, keys: seq<string>, info: seq<Field>): (r: seq<Field>)
    ensures forall k :: k in keys && HoldsUuid(data, k) ==> Lookup(r, k) == Some(Get(data, k))
    ensures forall k :: !(k in keys && HoldsUuid(data, k)) ==> Lookup(r, k) == Lookup(info, k)
  {
    if keys == [] then info
    else
      var k := keys[|keys| - 1];
      var prev := CopyUuids(data, keys[..|keys| - 1], info);
      assert forall k' :: k' in keys[..|keys| - 1] ==> k' in keys;
      assert forall k' :: k' in keys && k' != k ==> k' in keys[..|keys| - 1];
      if HoldsUuid(data, k) then SetField(prev, k, Get(data, k)) else prev
  }

  lemma {:induction false} NamedInfoHolds(data: Json, names: seq<string>)
    ensures forall k :: k in names && Truthy(Get(data, k)) ==> Lookup(NamedInfo(data, names), k) == Some(Get(data, k))
    ensures forall k :: !(k in names && Truthy(Get(data, k))) ==> Lookup(NamedInfo(data, names), k) == None
    decreases |names|
  {
    if names != [] {
      var init := names[..|names| - 1];
      NamedInfoHolds(data, init);
      assert forall k' :: k' in names && k' != names[|names| - 1] ==> k' in init;
    }
  }

  /** `extractValidInfo` with the evident test. */
  function InfoIntended(data: Json): (r: Json)
    ensures r.Obj?
    ensures forall k :: Lookup(r.fields, k).Some? <==>
      (k in InfoNames && Truthy(Get(data, k))) || (k in ForInKeys(data) && HoldsUuid(data, k))
    ensures forall k :: Lookup(r.fields, k).Some? ==> Lookup(r.fields, k).value == Get(data, k)
  {
    NamedInfoHolds(data, InfoNames);
    Obj(CopyUuids(data, ForInKeys(data), NamedInfo(data, InfoNames)))
  }

  // ---------------------------------------------------------------------
  // Bitmap-font text

  /** The `char` record of glyph `id` in the `.fnt` text. */
  function CharRecord(id: string, glyph: Json): string
  {
    "char id=" + id + "     x=" + Text(Get2(glyph, "rect", "x")) + "   y=" + Text(Get2(glyph, "rect", "y"))
    + "   width=" + Text(Get2(glyph, "rect", "width")) + "    height=" + Text(Get2(glyph, "rect", "height"))
    + "     xoffset=" + Text(Get(glyph, "xOffset")) + "     yoffset=" + Text(Get(glyph, "yOffset"))
    + "    xadvance=" + Text(Get(glyph, "xAdvance")) + "     page=0 chnl=0 letter=\"\""
  }

  /** The records of the glyphs under `ids`, in order, with no separator. */
  function CharRecords(dict: Json, ids: seq<string>): string
  {
    if ids == [] then ""
    else CharRecords(dict, ids[..|ids| - 1]) + CharRecord(ids[|ids| - 1], Get(dict, ids[|ids| - 1]))
  }

  /** The fixed settings of the `info` line and the start of the `common` line. */
  const FntInfoTail: string := " bold=1 italic=0 charset=\"\" unicode=0 stretchH=100 smooth=1 aa=1 padding=0,0,0,0 spacing=2,2 common lineHeight="

  /** The fixed settings of the `common` line and the start of the `page` line. */
  const FntCommonTail: string := " scaleW=512 scaleH=256 pages=1 packed=0 page id=0 file=\""

  /** The `info ... common ... page ... chars count=` header up to the glyph count. */
  function FntHeaderLead(font: Json, config: Json): string
  {
    "info face=\"" + Text(Get(font, "_name")) + "\" size=" + Text(Get(font, "fontSize"))
    + FntInfoTail
    + Text(Get(config, "commonHeight")) + " base=" + Text(Get(config, "fontSize"))
    + FntCommonTail + Text(Get(config, "atlasName"))
    + "\" chars count="
  }

  /**
   * The loop over `fontDefDictionary`: the glyph records and how many there
   * are.
   */
  method RenderCharRecords(dict: Json) returns (res: string, count: nat)
    ensures res == CharRecords(dict, ForInKeys(dict))
    ensures count == |ForInKeys(dict)|
  {
    var ids := ForInKeys(dict);
    res := "";
    count := 0;
    while count < |ids|
      invariant count <= |ids|
      invariant res == CharRecords(dict, ids[..count])
    {
      CharRecordsSnoc(dict, ids, count);
      res := res + CharRecord(ids[count], Get(dict, ids[count]));
      count := count + 1;
    }
    assert ids[..count] == ids;
  }

  lemma CharRecordsSnoc(dict: Json, ids: seq<string>, i: nat)
    requires i < |ids|
    ensures CharRecords(dict, ids[..i + 1]) == CharRecords(dict, ids[..i]) + CharRecord(ids[i], Get(dict, ids[i]))
  {
    assert ids[..i + 1][..i] == ids[..i];
  }

  /** The whole `.fnt` text of a font: the header, the glyph count, then the glyph records. */
  function FntText(font: Json): string
  {
    var config := Get(font, "_fntConfig");
    var dict := Get(config, "fontDefDictionary");
    FntLayout(FntHeaderLead(font, config), |ForInKeys(dict)|, CharRecords(dict, ForInKeys(dict)))
  }

  /** A header ending in `chars count=`, the count in decimal, then the records. */
  function FntLayout(lead: string, count: nat, records: string): string
  {
    lead + NatToString(count) + records
  }

  /**
   * After the header, the digits of `chars count=` read back as the number of
   * glyph records, and the records follow directly.
   */
  lemma FntCountsGlyphs(lead: string, count: nat, records: string)
    ensures var t := FntLayout(lead, count, records);
      var digits := NatToString(count);
      && |lead| + |digits| <= |t|
      && IsIndexKey(t[|lead|..|lead| + |digits|]) && DigitsValue(t[|lead|..|lead| + |digits|]) == count
      && t[|lead| + |digits|..] == records
  {
    ParseNatToString(count);
    var t := FntLayout(lead, count, records);
    var digits := NatToString(count);
    assert t[|lead|..|lead| + |digits|] == digits by {
      forall k | 0 <= k < |digits| ensures t[|lead| + k] == digits[k] { }
    }
    assert t[|lead| + |digits|..] == records by {
      forall k | 0 <= k < |records| ensures t[|lead| + |digits| + k] == records[k] { }
    }
  }
}
