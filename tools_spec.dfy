/**
 * The asset resolver of `tools.js` as state transitions: what the first pass
 * (`process` and its `writeData` dispatch) and the second pass
 * (`convertToFile`) do to the resolver's maps, its copy queue and the plan
 * of effects on the output project.
 */
module ToolsSpec {
  import opened JsValue
  import opened NodePath
  import opened UuidUtils
  import opened OrderedMaps
  import opened ToolsRecords

  /**
   * What the resolver reads from outside: the settings record of the game,
   * `sizeOf(path)` of an image, and `stringRandom(length)` as the text of the
   * n-th draw.
   */
  datatype Env = Env(settings: Json, sizeOf: string -> Size, random: (nat, nat) -> string)

  /**
   * The resolver's fields. `count` is the collision counter of the pass under
   * way (a local of `process` and of `convertToFile`, 0 at their start), and
   * `draws` the number of random texts drawn so far.
   */
  datatype State = State(
    fileList: seq<string>,
    fileMap: OMap<string, string>,
    cacheReadList: seq<string>,
    cacheWriteList: seq<string>,
    nodeData: Json,
    sceneAssets: seq<Json>,
    prefabsMap: OMap<string, Json>,
    spriteFramesMap: OMap<Json, Json>,
    spriteAtlasMap: OMap<Json, Json>,
    audio: seq<Json>,
    ttfMap: OMap<Json, Json>,
    animation: seq<Json>,
    animationProps: seq<Field>,
    pictureMap: OMap<Json, OMap<Json, Json>>,
    plan: seq<Output>,
    count: nat,
    draws: nat)

  /** The fields as the module object starts. */
  function Initial(): State
  {
    State([], [], [], [], EmptyObject, [], [], [], [], [], [], [], [], [], [], 0, 0)
  }

  /** Every queued copy has its destination: the two lists have the same length. */
  predicate Paired(s: State)
  {
    |s.cacheReadList| == |s.cacheWriteList|
  }

  /**
   * `r` is a later state of `s`: both copy lists only grow, by the same number
   * of entries, and the plan only grows.
   */
  predicate Grows(s: State, r: State)
  {
    && s.cacheReadList <= r.cacheReadList
    && s.cacheWriteList <= r.cacheWriteList
    && |r.cacheReadList| - |s.cacheReadList| == |r.cacheWriteList| - |s.cacheWriteList|
    && s.plan <= r.plan
  }

  lemma GrowsTrans(a: State, b: State, c: State)
    requires Grows(a, b) && Grows(b, c)
    ensures Grows(a, c)
  {
  }

  /** A state that has grown from a paired one is paired. */
  lemma GrowsPaired(s: State, r: State)
    requires Paired(s) && Grows(s, r)
    ensures Paired(r)
  {
  }

  // ---------------------------------------------------------------------
  // Effects shared by the handlers

  /** `writeFile(dir, file, data)`. */
  function WriteOut(s: State, dir: string, file: string, data: Json): (r: State)
    ensures Grows(s, r) && |r.plan| == |s.plan| + 1
  {
    s.(plan := s.plan + [Write(dir, file, data)])
  }

  /** `fileMap.has(v)`: only a string can be a key of the file index. */
  predicate FileHas(s: State, v: Json)
  {
    v.Str? && Has(s.fileMap, v.s)
  }

  /** The uuid member `j` of the document resolves to, `decodeUuid(createLibrary(j, key))`. */
  function Uuid(env: Env, j: string, key: string): Json
  {
    DecodeValue(CreateLibrary(env.settings, j, key))
  }

  /** The name a collision gives: `<stem>_<count><ext>`. */
  function Renamed(stem: string, count: nat, ext: string): string
  {
    stem + "_" + NatToString(count) + ext
  }

  /** `cacheWriteList.includes('./project/assets/<dir>/<name>')`. */
  predicate Taken(s: State, dir: string, name: string)
  {
    AssetPath(dir, name) in s.cacheWriteList
  }

  /** The name a copy gets: `name`, or the renamed form when `dir/name` is already queued. */
  function Placed(s: State, checkDir: string, name: string, stem: string, ext: string): string
  {
    if Taken(s, checkDir, name) then Renamed(stem, s.count, ext) else name
  }

  /**
   * Queue the copy of `from` into `toDir` under its placed name; a collision,
   * tested in `checkDir`, uses up one value of `count`.
   */
  function CopyAs(s: State, from: string, checkDir: string, toDir: string, name: string, stem: string, ext: string): (r: State)
    ensures Grows(s, r) && |r.cacheReadList| == |s.cacheReadList| + 1
    ensures r.plan == s.plan && r.fileMap == s.fileMap && r.draws == s.draws
  {
    s.(cacheReadList := s.cacheReadList + [from],
       cacheWriteList := s.cacheWriteList + [AssetPath(toDir, Placed(s, checkDir, name, stem, ext))],
       count := if Taken(s, checkDir, name) then s.count + 1 else s.count)
  }

  /** A free name is used as it is and leaves the counter alone. */
  lemma PlacedFresh(s: State, from: string, checkDir: string, name: string, stem: string, ext: string)
    requires !Taken(s, checkDir, name)
    ensures var r := CopyAs(s, from, checkDir, checkDir, name, stem, ext);
      && r.cacheWriteList == s.cacheWriteList + [AssetPath(checkDir, name)]
      && r.cacheReadList == s.cacheReadList + [from]
      && r.count == s.count
  {
  }

  /** A taken name becomes `<stem>_<count><ext>`, and the counter moves on by one. */
  lemma PlacedRenamed(s: State, from: string, checkDir: string, toDir: string, name: string, stem: string, ext: string)
    requires Taken(s, checkDir, name)
    ensures var r := CopyAs(s, from, checkDir, toDir, name, stem, ext);
      && r.cacheWriteList == s.cacheWriteList + [AssetPath(toDir, stem + "_" + NatToString(s.count) + ext)]
      && r.count == s.count + 1
  {
  }

  /** The renamed form is not tested again: it can be a path that is already queued. */
  lemma PlacedNotRechecked(s: State, from: string, stem: string, ext: string)
    requires AssetPath("Picture", stem + ext) in s.cacheWriteList
    requires AssetPath("Picture", Renamed(stem, s.count, ext)) in s.cacheWriteList
    ensures var r := CopyAs(s, from, "Picture", "Picture", stem + ext, stem, ext);
      && r.cacheWriteList[|s.cacheWriteList|] in s.cacheWriteList
  {
  }

  /**
   * Audio copies are tested against the `Texture` directory but written to
   * `Audio`: a second clip of the same name is queued to the same path.
   */
  lemma AudioCollisionChecksTexture(s: State, from: string, name: string, ext: string)
    requires AssetPath("Audio", name) in s.cacheWriteList && !Taken(s, "Texture", name)
    ensures var r := CopyAs(s, from, "Texture", "Audio", name, name, ext);
      && r.cacheWriteList[|s.cacheWriteList|] == AssetPath("Audio", name)
      && r.cacheWriteList[|s.cacheWriteList|] in s.cacheWriteList
  {
  }

  /**
   * Copy the indexed file `k` into `toDir` (adding its extension to `base`
   * when `withExt`), then drop `k` from the index.
   */
  function MoveFile(s: State, k: string, checkDir: string, toDir: string, base: string, withExt: bool): (r: State)
    requires Has(s.fileMap, k)
    ensures Grows(s, r) && |r.cacheReadList| == |s.cacheReadList| + 1
    ensures r.plan == s.plan && !Has(r.fileMap, k)
  {
    var from := Find(s.fileMap, k).value;
    var ext := ExtName(from);
    var r := CopyAs(s, from, checkDir, toDir, if withExt then base + ext else base, base, ext);
    r.(fileMap := Remove(s.fileMap, k))
  }

  /** `convertToPictureFile(sprite, uuid, filename, w, h, filePath)`: one meta, in `Picture` unless a directory is given. */
  function PictureFile(sprite: Json, uuid: Json, filename: string, width: int, height: int, filePath: string): Output
  {
    Write(if filePath == "" then "Picture" else filePath, filename + ".meta", PictureMeta(sprite, uuid, filename, width, height))
  }

  /**
   * The picture meta of a whole image `from` copied to `path`: its size is
   * read and its uuid is the next random text, decoded.
   */
  function RandomPicture(env: Env, s: State, sprite: Json, from: string, path: string, dir: string): (r: State)
    ensures Grows(s, r) && |r.plan| == |s.plan| + 1 && r.draws == s.draws + 1
  {
    var size := env.sizeOf(from);
    var uuid := DecodeValue(Str(env.random(s.draws, 22)));
    s.(draws := s.draws + 1, plan := s.plan + [PictureFile(sprite, uuid, path, size.width, size.height, dir)])
  }

  /** The stand-in sprite frame of a whole picture. */
  function PlaceholderSprite(name: Json, texture: Json): Json
  {
    Obj([Field("__type__", Str("cc.SpriteFrame")),
         Field("content", Obj([Field("name", name), Field("texture", texture),
                               Field("rect", Arr([Num(0), Num(0), Num(0), Num(0)])),
                               Field("offset", Arr([Num(0), Num(0)])),
                               Field("originalSize", Arr([Num(0), Num(0)])),
                               Field("capInsets", Arr([Num(0), Num(0), Num(0), Num(0)]))]))])
  }

  // ---------------------------------------------------------------------
  // The first pass: `writeData`

  /** A node with a truthy `_name` equal to the member's. */
  predicate NameMatch(node: Json, item: Json)
  {
    Truthy(Get(node, "_name")) && LooseEquals(Get(node, "_name"), Get(item, "_name"))
  }

  /**
   * A frame joins the group of its texture under `uuid`: a new group is made
   * for a new texture, and a uuid already in the group is not added again.
   */
  function Group(pm: OMap<Json, OMap<Json, Json>>, texture: Json, uuid: Json, frame: Json): (r: OMap<Json, OMap<Json, Json>>)
    ensures Has(r, texture) && Has(Find(r, texture).value, uuid)
    ensures forall t :: t != texture ==> Find(r, t) == Find(pm, t)
  {
    if Has(pm, texture) then
      var g := Find(pm, texture).value;
      if Has(g, uuid) then pm else Put(pm, texture, Put(g, uuid, frame))
    else Put(pm, texture, [Entry(uuid, frame)])
  }

  /** A group never loses a member, and a member already present keeps its frame. */
  lemma GroupKeeps(pm: OMap<Json, OMap<Json, Json>>, texture: Json, uuid: Json, frame: Json, u: Json)
    requires Has(pm, texture) && Has(Find(pm, texture).value, u)
    ensures Has(Find(Group(pm, texture, uuid, frame), texture).value, u)
    ensures Find(Find(Group(pm, texture, uuid, frame), texture).value, u) == Find(Find(pm, texture).value, u)
  {
  }

  /** A uuid already in its texture's group leaves the picture map as it was. */
  lemma GroupNoRepeat(pm: OMap<Json, OMap<Json, Json>>, texture: Json, uuid: Json, frame: Json)
    requires Has(pm, texture) && Has(Find(pm, texture).value, uuid)
    ensures Group(pm, texture, uuid, frame) == pm
  {
  }

  /** The scene's own entry (an array whose first member has the scene's name) gives the scene meta. */
  function VisitScene(env: Env, filename: string, key: string, data: Json, s: State, j: string): (r: State)
    ensures Grows(s, r) && r.nodeData == s.nodeData
  {
    var node := Get(s.nodeData, j);
    if IsArray(node) && LooseEquals(Get2(node, "0", "_name"), Get2(data, "0", "_name")) then
      WriteOut(s, "Scene", filename + ".meta", AssetMeta(Uuid(env, j, key)))
    else s
  }

  /**
   * A prefab meta for an array entry of the same name, and one more for a
   * `cc.Prefab` node of the same name, whose uuid is the document key when
   * that is longer than nine characters.
   */
  function VisitPrefab(env: Env, name: Json, filename: string, key: string, data: Json, s: State, j: string): (r: State)
    ensures Grows(s, r) && r.nodeData == s.nodeData
  {
    var s1 := PrefabArrayMeta(env, filename, key, data, s, j);
    var r := PrefabNodeMeta(env, name, filename, key, s1, j);
    GrowsTrans(s, s1, r);
    r
  }

  /** The first test of the prefab handler: a node array whose first entry bears the document's name. */
  function PrefabArrayMeta(env: Env, filename: string, key: string, data: Json, s: State, j: string): (r: State)
    ensures Grows(s, r) && r.nodeData == s.nodeData
  {
    var node := Get(s.nodeData, j);
    if IsArray(node) && LooseEquals(Get2(node, "0", "_name"), Get2(data, "0", "_name")) then
      WriteOut(s, "Prefab", filename + ".meta", AssetMeta(Uuid(env, j, key)))
    else s
  }

  /** The second test: a `cc.Prefab` node of the same name; a key longer than nine characters is the uuid itself. */
  function PrefabNodeMeta(env: Env, name: Json, filename: string, key: string, s: State, j: string): (r: State)
    ensures Grows(s, r) && r.nodeData == s.nodeData
  {
    var node := Get(s.nodeData, j);
    if LooseEquals(Get(node, "__type__"), Str("cc.Prefab")) && LooseEquals(Get(node, "_name"), name) then
      WriteOut(s, "Prefab", filename + ".meta", AssetMeta(if |key| > 9 then Str(key) else Uuid(env, j, key)))
    else s
  }

  /** A node naming the clip moves its indexed file to `Audio` and gives its meta. */
  function VisitAudio(env: Env, name: string, key: string, item: Json, s: State, j: string): (r: State)
    ensures Grows(s, r) && r.nodeData == s.nodeData
  {
    if NameMatch(Get(s.nodeData, j), item) then
      var uuid := Uuid(env, j, key);
      var s1 := if FileHas(s, uuid) then MoveFile(s, uuid.s, "Texture", "Audio", name, false) else s;
      WriteOut(s1, "Audio", name + ".meta", AssetMeta(uuid))
    else s
  }

  /** A node naming the clip records its uuid in `animationMap` and gives its meta. */
  function VisitAnimation(env: Env, filename: string, key: string, item: Json, s: State, j: string): (r: State)
    ensures Grows(s, r) && r.nodeData == s.nodeData
  {
    if NameMatch(Get(s.nodeData, j), item) then
      var s1 := s.(animationProps := SetField(s.animationProps, filename, Uuid(env, j, key)));
      WriteOut(s1, "Animation", filename + ".meta", AssetMeta(Uuid(env, j, key)))
    else s
  }

  /** A node naming the font stores it in `ttfMap` under its uuid. */
  function VisitFont(env: Env, key: string, item: Json, s: State, j: string): (r: State)
    ensures Grows(s, r) && r.nodeData == s.nodeData
  {
    if NameMatch(Get(s.nodeData, j), item) then s.(ttfMap := Put(s.ttfMap, Uuid(env, j, key), item)) else s
  }

  /** A node naming native bones data gives its meta, then its indexed file is copied beside it. */
  function VisitBonesNative(env: Env, name: string, dir: string, filename: string, key: string, item: Json, s: State, j: string): (r: State)
    ensures Grows(s, r) && r.nodeData == s.nodeData
  {
    if NameMatch(Get(s.nodeData, j), item) then
      var uuid := Uuid(env, j, key);
      var s1 := WriteOut(s, dir, filename + ".meta", PlainMeta("1.0.1", uuid));
      if FileHas(s1, uuid) then MoveFile(s1, uuid.s, "Texture", dir, name, true) else s1
    else s
  }

  /** A node naming bones JSON or a bones atlas gives the meta of the written JSON. */
  function VisitBonesMeta(env: Env, dir: string, filename: string, key: string, item: Json, s: State, j: string): (r: State)
    ensures Grows(s, r) && r.nodeData == s.nodeData
  {
    if NameMatch(Get(s.nodeData, j), item) then WriteOut(s, dir, filename + ".meta", PlainMeta("1.0.1", Uuid(env, j, key))) else s
  }

  /** A node of the particle's name is its texture: recorded in `spriteAtlasMap`, with the particle meta. */
  function VisitParticle(env: Env, name: Json, filename: string, key: string, item: Json, s: State, j: string): (r: State)
    ensures Grows(s, r) && r.nodeData == s.nodeData
  {
    if LooseEquals(Get(Get(s.nodeData, j), "_name"), name) then
      var texture := Uuid(env, j, key);
      var s1 := s.(spriteAtlasMap := Put(s.spriteAtlasMap, texture, item));
      WriteOut(s1, "Picture", filename + ".meta", PlainMeta("1.0.1", texture))
    else s
  }

  /** A node of the atlas's name: the atlas is recorded in `spriteAtlasMap` under its uuid. */
  function VisitAtlas(env: Env, name: Json, key: string, item: Json, s: State, j: string): (r: State)
    ensures Grows(s, r) && r.nodeData == s.nodeData
  {
    if LooseEquals(Get(Get(s.nodeData, j), "_name"), name) then s.(spriteAtlasMap := Put(s.spriteAtlasMap, Uuid(env, j, key), item)) else s
  }

  /** A node of the same frame: the frame is stored under its uuid and grouped under its texture. */
  function VisitFrame(env: Env, texture: Json, key: string, item: Json, s: State, j: string): (r: State)
    ensures Grows(s, r) && r.nodeData == s.nodeData
  {
    if FrameMatch(Get(s.nodeData, j), item) then
      var uuid := Uuid(env, j, key);
      s.(spriteFramesMap := Put(s.spriteFramesMap, uuid, item),
         pictureMap := Group(s.pictureMap, texture, uuid, item))
    else s
  }

  /** A node describing the same frame: same texture and same name in its `content`. */
  predicate FrameMatch(node: Json, item: Json)
  {
    && Truthy(Get(node, "content"))
    && LooseEquals(Get2(node, "content", "texture"), Get2(item, "content", "texture"))
    && LooseEquals(Get2(node, "content", "name"), Get2(item, "content", "name"))
  }

  /** The `for (let j in nodeData)` loop of the scene handler over the keys `js`, in order. */
  function SceneVisits(env: Env, filename: string, key: string, data: Json, s: State, js: seq<string>): (r: State)
    ensures Grows(s, r)
    ensures r.nodeData == s.nodeData
    decreases |js|
  {
    if js == [] then s
    else
      var p := SceneVisits(env, filename, key, data, s, js[..|js| - 1]);
      var r := VisitScene(env, filename, key, data, p, js[|js| - 1]);
      GrowsTrans(s, p, r);
      r
  }

  /** The `for (let j in nodeData)` loop of the prefab handler over the keys `js`, in order. */
  function PrefabVisits(env: Env, name: Json, filename: string, key: string, data: Json, s: State, js: seq<string>): (r: State)
    ensures Grows(s, r)
    ensures r.nodeData == s.nodeData
    decreases |js|
  {
    if js == [] then s
    else
      var p := PrefabVisits(env, name, filename, key, data, s, js[..|js| - 1]);
      var r := VisitPrefab(env, name, filename, key, data, p, js[|js| - 1]);
      GrowsTrans(s, p, r);
      r
  }

  /** The `for (let j in nodeData)` loop of the audio-clip handler over the keys `js`, in order. */
  function AudioVisits(env: Env, name: string, key: string, item: Json, s: State, js: seq<string>): (r: State)
    ensures Grows(s, r)
    ensures r.nodeData == s.nodeData
    decreases |js|
  {
    if js == [] then s
    else
      var p := AudioVisits(env, name, key, item, s, js[..|js| - 1]);
      var r := VisitAudio(env, name, key, item, p, js[|js| - 1]);
      GrowsTrans(s, p, r);
      r
  }

  /** The `for (let j in nodeData)` loop of the animation-clip handler over the keys `js`, in order. */
  function AnimationVisits(env: Env, filename: string, key: string, item: Json, s: State, js: seq<string>): (r: State)
    ensures Grows(s, r)
    ensures r.nodeData == s.nodeData
    decreases |js|
  {
    if js == [] then s
    else
      var p := AnimationVisits(env, filename, key, item, s, js[..|js| - 1]);
      var r := VisitAnimation(env, filename, key, item, p, js[|js| - 1]);
      GrowsTrans(s, p, r);
      r
  }

  /** The `for (let j in nodeData)` loop of the font handler over the keys `js`, in order. */
  function FontVisits(env: Env, key: string, item: Json, s: State, js: seq<string>): (r: State)
    ensures Grows(s, r)
    ensures r.nodeData == s.nodeData
    decreases |js|
  {
    if js == [] then s
    else
      var p := FontVisits(env, key, item, s, js[..|js| - 1]);
      var r := VisitFont(env, key, item, p, js[|js| - 1]);
      GrowsTrans(s, p, r);
      r
  }

  /** The `for (let j in nodeData)` loop of the native dragon-bones handler over the keys `js`, in order. */
  function BonesNativeVisits(env: Env, name: string, dir: string, filename: string, key: string, item: Json, s: State, js: seq<string>): (r: State)
    ensures Grows(s, r)
    ensures r.nodeData == s.nodeData
    decreases |js|
  {
    if js == [] then s
    else
      var p := BonesNativeVisits(env, name, dir, filename, key, item, s, js[..|js| - 1]);
      var r := VisitBonesNative(env, name, dir, filename, key, item, p, js[|js| - 1]);
      GrowsTrans(s, p, r);
      r
  }

  /** The `for (let j in nodeData)` loop of the bones JSON and bones atlas handler over the keys `js`, in order. */
  function BonesMetaVisits(env: Env, dir: string, filename: string, key: string, item: Json, s: State, js: seq<string>): (r: State)
    ensures Grows(s, r)
    ensures r.nodeData == s.nodeData
    decreases |js|
  {
    if js == [] then s
    else
      var p := BonesMetaVisits(env, dir, filename, key, item, s, js[..|js| - 1]);
      var r := VisitBonesMeta(env, dir, filename, key, item, p, js[|js| - 1]);
      GrowsTrans(s, p, r);
      r
  }

  /** The `for (let j in nodeData)` loop of the particle handler over the keys `js`, in order. */
  function ParticleVisits(env: Env, name: Json, filename: string, key: string, item: Json, s: State, js: seq<string>): (r: State)
    ensures Grows(s, r)
    ensures r.nodeData == s.nodeData
    decreases |js|
  {
    if js == [] then s
    else
      var p := ParticleVisits(env, name, filename, key, item, s, js[..|js| - 1]);
      var r := VisitParticle(env, name, filename, key, item, p, js[|js| - 1]);
      GrowsTrans(s, p, r);
      r
  }

  /** The `for (let j in nodeData)` loop of the sprite-atlas handler over the keys `js`, in order. */
  function AtlasVisits(env: Env, name: Json, key: string, item: Json, s: State, js: seq<string>): (r: State)
    ensures Grows(s, r)
    ensures r.nodeData == s.nodeData
    decreases |js|
  {
    if js == [] then s
    else
      var p := AtlasVisits(env, name, key, item, s, js[..|js| - 1]);
      var r := VisitAtlas(env, name, key, item, p, js[|js| - 1]);
      GrowsTrans(s, p, r);
      r
  }

  /** The `for (let j in nodeData)` loop of the sprite-frame handler over the keys `js`, in order. */
  function FrameVisits(env: Env, texture: Json, key: string, item: Json, s: State, js: seq<string>): (r: State)
    ensures Grows(s, r)
    ensures r.nodeData == s.nodeData
    decreases |js|
  {
    if js == [] then s
    else
      var p := FrameVisits(env, texture, key, item, s, js[..|js| - 1]);
      var r := VisitFrame(env, texture, key, item, p, js[|js| - 1]);
      GrowsTrans(s, p, r);
      r
  }

  /** A matching frame is stored under its uuid in `spriteFramesMap` and in the group of its texture. */
  lemma FrameVisitGroups(env: Env, key: string, item: Json, s: State, j: string)
    requires FrameMatch(Get(s.nodeData, j), item)
    ensures var r := VisitFrame(env, Get2(item, "content", "texture"), key, item, s, j);
      var uuid := Uuid(env, j, key);
      && Find(r.spriteFramesMap, uuid) == Some(item)
      && Has(Find(r.pictureMap, Get2(item, "content", "texture")).value, uuid)
      && r.cacheReadList == s.cacheReadList && r.plan == s.plan
  {
  }

  /** The handlers of `writeData`, one per branch of its chain of tag tests. */
  datatype Kind = SceneKind | PrefabKind | AudioKind | AnimationKind | FontKind | BonesKind
    | BonesAtlasKind | ParticleKind | AtlasKind | FrameKind | OtherKind

  /** The handler of a member tagged `tag`: the first test of the chain that holds. */
  function KindOf(tag: Json): Kind
  {
    if StrictEquals(tag, Str("cc.SceneAsset")) then SceneKind
    else if StrictEquals(tag, Str("cc.Prefab")) then PrefabKind
    else if LooseEquals(tag, Str("cc.AudioClip")) then AudioKind
    else if LooseEquals(tag, Str("cc.AnimationClip")) then AnimationKind
    else if LooseEquals(tag, Str("cc.TTFFont")) || LooseEquals(tag, Str("cc.BitmapFont")) || LooseEquals(tag, Str("cc.LabelAtlas")) then FontKind
    else if LooseEquals(tag, Str("dragonBones.DragonBonesAsset")) then BonesKind
    else if LooseEquals(tag, Str("dragonBones.DragonBonesAtlasAsset")) then BonesAtlasKind
    else if LooseEquals(tag, Str("cc.ParticleAsset")) then ParticleKind
    else if LooseEquals(tag, Str("cc.SpriteAtlas")) then AtlasKind
    else if LooseEquals(tag, Str("cc.SpriteFrame")) then FrameKind
    else OtherKind
  }

  /** The new state for the member `item` of `data`, chosen by its tag. */
  function HandleMember(env: Env, key: string, s: State, data: Json, item: Json): (r: State)
    ensures Grows(s, r)
    ensures r.nodeData == s.nodeData
  {
    match KindOf(Get(item, "__type__"))
    case SceneKind => SceneStep(env, key, s, data, item)
    case PrefabKind => PrefabStep(env, key, s, data, item)
    case AudioKind => AudioStep(env, key, s, data, item)
    case AnimationKind => AnimationStep(env, key, s, data, item)
    case FontKind => FontVisits(env, key, item, s, ForInKeys(s.nodeData))
    case BonesKind => BonesStep(env, key, s, data, item)
    case BonesAtlasKind => BonesAtlasStep(env, key, s, data, item)
    case ParticleKind => ParticleStep(env, key, s, item)
    case AtlasKind => AtlasVisits(env, Get(item, "_name"), key, item, s, ForInKeys(s.nodeData))
    case FrameKind => FrameVisits(env, Get2(item, "content", "texture"), key, item, s, ForInKeys(s.nodeData))
    case OtherKind => s
  }

  /** A scene: the document is kept and written under the scene's name, then its meta is looked for. */
  function SceneStep(env: Env, key: string, s: State, data: Json, item: Json): (r: State)
    ensures Grows(s, r) && r.nodeData == s.nodeData
  {
    var filename := Plus(Get2(data, "0", "_name"), Str(".fire"));
    var s1 := WriteOut(s.(sceneAssets := s.sceneAssets + [data]), "Scene", filename, data);
    SceneVisits(env, filename, key, data, s1, ForInKeys(s.nodeData))
  }

  /**
   * A prefab: written under its name, or under `<name>_<count++>.prefab` when
   * that name is already in `prefabsMap`, then its metas are looked for.
   */
  function PrefabStep(env: Env, key: string, s: State, data: Json, item: Json): (r: State)
    ensures Grows(s, r) && r.nodeData == s.nodeData
  {
    var name := Get(item, "_name");
    var r := PrefabVisits(env, name, PrefabFilename(s, name), key, data, PrefabPlaced(s, name, data), ForInKeys(s.nodeData));
    GrowsTrans(s, PrefabPlaced(s, name, data), r);
    r
  }

  /** `<name>.prefab`, or its renamed form when `prefabsMap` already holds that name. */
  function PrefabFilename(s: State, name: Json): string
  {
    var base := Plus(name, Str(".prefab"));
    if Has(s.prefabsMap, base) then Renamed(Text(name), s.count, ".prefab") else base
  }

  /** The prefab recorded in `prefabsMap` under its file name and written out; a renaming uses up one `count`. */
  function PrefabPlaced(s: State, name: Json, data: Json): (r: State)
    ensures Grows(s, r) && r.nodeData == s.nodeData
  {
    var taken := Has(s.prefabsMap, Plus(name, Str(".prefab")));
    var filename := PrefabFilename(s, name);
    WriteOut(s.(count := if taken then s.count + 1 else s.count, prefabsMap := Put(s.prefabsMap, filename, data)), "Prefab", filename, data)
  }

  /** An audio clip: kept in `audio`, then its file and meta are looked for. */
  function AudioStep(env: Env, key: string, s: State, data: Json, item: Json): (r: State)
    ensures Grows(s, r) && r.nodeData == s.nodeData
  {
    var name := Plus(Get(item, "_name"), Get(item, "_native"));
    AudioVisits(env, name, key, item, s.(audio := s.audio + [item]), ForInKeys(s.nodeData))
  }

  /** A particle: its texture and meta are looked for under the particle's name. */
  function ParticleStep(env: Env, key: string, s: State, item: Json): (r: State)
    ensures Grows(s, r) && r.nodeData == s.nodeData
  {
    var name := Get(item, "_name");
    ParticleVisits(env, name, Plus(name, Get(item, "_native")), key, item, s, ForInKeys(s.nodeData))
  }

  /** An animation clip: written and kept, then its meta is looked for. */
  function AnimationStep(env: Env, key: string, s: State, data: Json, item: Json): (r: State)
    ensures Grows(s, r) && r.nodeData == s.nodeData
  {
    var filename := Plus(Get(item, "_name"), Str(".anim"));
    var s1 := WriteOut(s, "Animation", filename, item).(animation := s.animation + [item]);
    AnimationVisits(env, filename, key, item, s1, ForInKeys(s.nodeData))
  }

  /**
   * Dragon-bones data: a native file is looked for by name, else the
   * embedded JSON is written and its meta looked for; neither, nothing.
   */
  function BonesStep(env: Env, key: string, s: State, data: Json, item: Json): (r: State)
    ensures Grows(s, r) && r.nodeData == s.nodeData
  {
    var name := Get(item, "_name");
    var dir := "Texture/" + Text(name);
    if Truthy(Get(item, "_native")) then
      BonesNativeVisits(env, Text(name), dir, Plus(name, Get(item, "_native")), key, item, s, ForInKeys(s.nodeData))
    else if Truthy(Get(item, "_dragonBonesJson")) then
      var filename := Plus(name, Str(".json"));
      var s1 := s.(plan := s.plan + [WriteParsed(dir, filename, Get(item, "_dragonBonesJson"))]);
      BonesMetaVisits(env, dir, filename, key, item, s1, ForInKeys(s.nodeData))
    else s
  }

  /**
   * A bones atlas: its JSON text and metas, then the copy of its texture and
   * the picture meta of the whole image.
   */
  function BonesAtlasStep(env: Env, key: string, s: State, data: Json, item: Json): (r: State)
    ensures Grows(s, r)
    ensures r.nodeData == s.nodeData
  {
    var name := Get(item, "_name");
    var filename := Plus(name, Str(".json"));
    var dir := "Texture/" + Text(name);
    var s1 := s.(plan := s.plan + [WriteParsed(dir, filename, Get(item, "_atlasJson"))]);
    var s2 := BonesMetaVisits(env, dir, filename, key, item, s1, ForInKeys(s.nodeData));
    var r := BonesTexture(env, s2, name, filename, dir, DecodeValue(Get2(item, "_texture", "__uuid__")));
    GrowsTrans(s, s1, s2);
    GrowsTrans(s, s2, r);
    r
  }

  /**
   * The texture of a bones atlas, when indexed: copied beside the atlas
   * under the atlas's name, given a picture meta with a fresh uuid, and
   * dropped from the index.
   */
  function BonesTexture(env: Env, s: State, name: Json, filename: string, dir: string, texture: Json): (r: State)
    ensures Grows(s, r)
    ensures r.nodeData == s.nodeData
  {
    if FileHas(s, texture) then
      var from := Find(s.fileMap, texture.s).value;
      var ext := ExtName(from);
      var writePath := Placed(s, "Texture", Text(name) + ext, Text(name), ext);
      var s1 := CopyAs(s, from, "Texture", dir, Text(name) + ext, Text(name), ext);
      var s2 := RandomPicture(env, s1, PlaceholderSprite(name, Str(filename)), from, writePath, dir);
      s2.(fileMap := Remove(s2.fileMap, texture.s))
    else s
  }

  /**
   * `writeData(data)` for a document whose tag is truthy: audio clips, text
   * assets and animation clips, with the document key as their uuid.
   */
  function TypedStep(key: string, s: State, data: Json): (r: State)
    ensures Grows(s, r)
    ensures r.nodeData == s.nodeData
  {
    var tag := Get(data, "__type__");
    if LooseEquals(tag, Str("cc.AudioClip")) then TopAudio(key, s, data)
    else if LooseEquals(tag, Str("cc.TextAsset")) then TopText(key, s, data)
    else if LooseEquals(tag, Str("cc.AnimationClip")) then TopAnimation(key, s, data)
    else s
  }

  /** A top-level audio clip: its indexed file moved to `Audio`, then its meta. */
  function TopAudio(key: string, s: State, data: Json): (r: State)
    ensures Grows(s, r)
    ensures r.nodeData == s.nodeData
  {
    var name := Plus(Get(data, "_name"), Get(data, "_native"));
    var s1 := if Has(s.fileMap, key) then MoveFile(s, key, "Texture", "Audio", name, false) else s;
    WriteOut(s1, "Audio", name + ".meta", AssetMeta(Str(key)))
  }

  /** A top-level text asset: the document as `<name>.json` under `resource`, then its 1.2.7 meta. */
  function TopText(key: string, s: State, data: Json): (r: State)
    ensures Grows(s, r)
    ensures r.nodeData == s.nodeData
  {
    var name := Plus(Get(data, "_name"), Str(".json"));
    WriteOut(WriteOut(s, "resource", name, data), "resource", name + ".meta", PlainMeta("1.2.7", Str(key)))
  }

  /** A top-level animation clip: the document as `<name>.anim`, kept in `animation`, then its meta. */
  function TopAnimation(key: string, s: State, data: Json): (r: State)
    ensures Grows(s, r)
    ensures r.nodeData == s.nodeData
  {
    var filename := Plus(Get(data, "_name"), Str(".anim"));
    var s1 := WriteOut(s, "Animation", filename, data).(animation := s.animation + [data]);
    WriteOut(s1, "Animation", filename + ".meta", AssetMeta(Str(key)))
  }

  /** `writeData(data)`: a tagged document, or the walk over its members. */
  function WriteData(env: Env, key: string, s: State, data: Json): (r: State)
    ensures Grows(s, r)
    ensures r.nodeData == s.nodeData
    decreases Depth(data), 1
  {
    if IsObjectType(data) && Truthy(Get(data, "__type__")) then TypedStep(key, s, data)
    else Members(env, key, s, data, ForInKeys(data))
  }

  /** The `for (let i in data)` loop over the keys `ks`, in order. */
  function Members(env: Env, key: string, s: State, data: Json, ks: seq<string>): (r: State)
    ensures Grows(s, r)
    ensures r.nodeData == s.nodeData
    decreases Depth(data), 0, |ks|
  {
    if ks == [] then s
    else
      var p := Members(env, key, s, data, ks[..|ks| - 1]);
      var r := Member(env, key, p, data, ks[|ks| - 1]);
      GrowsTrans(s, p, r);
      r
  }

  /** One member: an array is walked in turn, a tagged member goes to its handler. */
  function Member(env: Env, key: string, s: State, data: Json, i: string): (r: State)
    ensures Grows(s, r)
    ensures r.nodeData == s.nodeData
    decreases Depth(data), 0, 0
  {
    var item := Get(data, i);
    if IsArray(item) then
      GetDepth(data, i);
      WriteData(env, key, s, item)
    else if Truthy(Get(item, "__type__")) then HandleMember(env, key, s, data, item)
    else s
  }

  /**
   * `process(key, doc)` after `nodeData` holds the parsed document: nothing
   * when the settings are the text `{}`, otherwise `writeData` of the revealed
   * copy with a fresh counter.
   */
  function Process(env: Env, key: string, s: State, doc: Json): (r: State)
    ensures Grows(s, r)
    ensures r.nodeData == s.nodeData
  {
    if LooseEquals(env.settings, Str("{}")) then s
    else WriteData(env, key, s.(count := 0), Reveal(doc))
  }

  /** With the settings text `{}` a document changes nothing. */
  lemma ProcessGuard(env: Env, key: string, s: State, doc: Json)
    requires env.settings == Str("{}")
    ensures Process(env, key, s, doc) == s
  {
  }

  /** A tagged top-level document that is none of the three kinds changes nothing. */
  lemma TypedOthers(env: Env, key: string, s: State, data: Json)
    requires data.Obj? && Get(data, "__type__").Str? && Get(data, "__type__").s != ""
    requires Get(data, "__type__").s !in ["cc.AudioClip", "cc.TextAsset", "cc.AnimationClip"]
    ensures WriteData(env, key, s, data) == s
  {
  }

  /** A member that is neither an array nor tagged changes nothing. */
  lemma MemberIgnored(env: Env, key: string, s: State, data: Json, i: string)
    requires !IsArray(Get(data, i)) && !Truthy(Get(Get(data, i), "__type__"))
    ensures Member(env, key, s, data, i) == s
  {
  }

  /** A text asset writes its document and its 1.2.7 meta, under `resource`, and nothing else. */
  lemma TextAssetWrites(env: Env, key: string, s: State, data: Json)
    requires data.Obj? && Get(data, "__type__") == Str("cc.TextAsset")
    ensures var name := Text(Get(data, "_name")) + ".json";
      WriteData(env, key, s, data) == s.(plan := s.plan + [Write("resource", name, data), Write("resource", name + ".meta", PlainMeta("1.2.7", Str(key)))])
  {
  }

  /**
   * A top-level audio clip whose key is indexed queues exactly one copy to
   * `Audio` and leaves the index without the key; the meta is written either way.
   */
  lemma AudioClipQueues(env: Env, key: string, s: State, data: Json)
    requires data.Obj? && Get(data, "__type__") == Str("cc.AudioClip")
    ensures var r := WriteData(env, key, s, data);
      && |r.plan| == |s.plan| + 1
      && r.plan[|s.plan|] == Write("Audio", Plus(Get(data, "_name"), Get(data, "_native")) + ".meta", AssetMeta(Str(key)))
      && (Has(s.fileMap, key) ==> |r.cacheReadList| == |s.cacheReadList| + 1 && !Has(r.fileMap, key))
      && (!Has(s.fileMap, key) ==> r.cacheReadList == s.cacheReadList && r.fileMap == s.fileMap)
  {
  }

  /** `readFile` records a file: the list grows by it and the index maps its key to it. */
  function IndexFile(s: State, path: string): (r: State)
    ensures r.fileList == s.fileList + [path]
    ensures Find(r.fileMap, FileIndexKey(path)) == Some(path)
    ensures forall k :: k != FileIndexKey(path) ==> Find(r.fileMap, k) == Find(s.fileMap, k)
  {
    s.(fileList := s.fileList + [path], fileMap := Put(s.fileMap, FileIndexKey(path), path))
  }

  /**
   * The document loop of `readFile`: every `.json` file of the list, in order,
   * parsed into `nodeData` and processed under the key `basename` up to its
   * first dot. `docs` stands for reading and parsing a file.
   */
  function ProcessFiles(env: Env, s: State, files: seq<string>, docs: string -> Json): (r: State)
    ensures Grows(s, r)
    decreases |files|
  {
    if files == [] then s
    else
      var p := ProcessFiles(env, s, files[..|files| - 1], docs);
      var path := files[|files| - 1];
      if ExtName(path) == ".json" then
        var r := Process(env, BeforeFirst(Basename(path), '.'), p.(nodeData := docs(path)), docs(path));
        GrowsTrans(s, p, r);
        r
      else p
  }

  // ---------------------------------------------------------------------
  // The second pass: `convertToFile`

  /** What the first loop records per atlas texture: the atlas's texture uuid and its name. */
  datatype AtlasRef = AtlasRef(texture: Json, atlas: Json)

  /** The inner loop over `_spriteFrames` of one atlas entry, keys `ks` in order. */
  function AtlasRefs(frames: OMap<Json, Json>, temp: OMap<Json, AtlasRef>, texture: Json, atlas: Json, ks: seq<string>): OMap<Json, AtlasRef>
    decreases |ks|
  {
    if ks == [] then temp
    else AtlasRefAdd(frames, AtlasRefs(frames, temp, texture, atlas, ks[..|ks| - 1]), texture, atlas, ks[|ks| - 1])
  }

  /** One key of `_spriteFrames`: a known frame records its texture against the atlas. */
  function AtlasRefAdd(frames: OMap<Json, Json>, temp: OMap<Json, AtlasRef>, texture: Json, atlas: Json, k: string): OMap<Json, AtlasRef>
  {
    var u := Get2(Get(atlas, "_spriteFrames"), k, "__uuid__");
    if Has(frames, u) then
      var sprite := Find(frames, u).value;
      Put(temp, DecodeValue(Get2(sprite, "content", "texture")), AtlasRef(texture, Get(atlas, "_name")))
    else temp
  }

  /** The first loop's record for the atlas entries `es`, in order. */
  function AtlasTable(frames: OMap<Json, Json>, es: OMap<Json, Json>): OMap<Json, AtlasRef>
    decreases |es|
  {
    if es == [] then []
    else
      var e := es[|es| - 1];
      AtlasRefs(frames, AtlasTable(frames, es[..|es| - 1]), e.key, e.value, ForInKeys(Get(e.value, "_spriteFrames")))
  }

  /** A particle entry of the first loop: its indexed texture is copied to `Picture`. */
  function ParticleCopy(s: State, e: Entry<Json, Json>): (r: State)
    ensures Grows(s, r) && r.plan == s.plan && r.spriteFramesMap == s.spriteFramesMap && r.pictureMap == s.pictureMap
    ensures r.fileMap == s.fileMap && r.ttfMap == s.ttfMap
  {
    if LooseEquals(Get(e.value, "__type__"), Str("cc.ParticleAsset")) && FileHas(s, e.key) then
      var from := Find(s.fileMap, e.key.s).value;
      var ext := ExtName(from);
      var filename := Text(Get(e.value, "_name"));
      CopyAs(s, from, "Picture", "Picture", filename + ext, filename, ext)
    else s
  }

  function ParticleCopies(s: State, es: OMap<Json, Json>): (r: State)
    ensures Grows(s, r) && r.plan == s.plan && r.spriteFramesMap == s.spriteFramesMap && r.pictureMap == s.pictureMap
    ensures r.fileMap == s.fileMap && r.ttfMap == s.ttfMap
    decreases |es|
  {
    if es == [] then s else ParticleCopy(ParticleCopies(s, es[..|es| - 1]), es[|es| - 1])
  }

  /** One member of an atlas group: the frame, the atlas uuid (a fresh one unless recorded) and its uuid. */
  datatype AtlasSprite = AtlasSprite(sprite: Json, altas: Json, uuid: Json)

  /**
   * The members of an atlas group, in order. A random id is drawn for each
   * member, and replaced by the recorded atlas texture when there is one.
   */
  function AtlasSprites(env: Env, draws: nat, temp: OMap<Json, AtlasRef>, texture: Json, g: OMap<Json, Json>): (subs: seq<AtlasSprite>)
    ensures |subs| == |g|
    decreases |g|
  {
    if g == [] then []
    else
      var k := |g| - 1;
      AtlasSprites(env, draws, temp, texture, g[..k]) + [AtlasSprite(g[k].value, AtlasUuid(env, draws + k, temp, texture), g[k].key)]
  }

  /** The atlas uuid of a member: the recorded atlas texture, else the random text of draw `d`, decoded. */
  function AtlasUuid(env: Env, d: nat, temp: OMap<Json, AtlasRef>, texture: Json): Json
  {
    if Has(temp, texture) then Find(temp, texture).value.texture else DecodeValue(Str(env.random(d, 22)))
  }

  /** Member `i` of a group is the frame and uuid of entry `i`, with the atlas uuid of draw `draws + i`. */
  lemma {:induction false} AtlasSpritesAt(env: Env, draws: nat, temp: OMap<Json, AtlasRef>, texture: Json, g: OMap<Json, Json>, i: nat)
    requires i < |g|
    ensures AtlasSprites(env, draws, temp, texture, g)[i] == AtlasSprite(g[i].value, AtlasUuid(env, draws + i, temp, texture), g[i].key)
    decreases |g|
  {
    var k := |g| - 1;
    if i < k {
      AtlasSpritesAt(env, draws, temp, texture, g[..k], i);
    }
  }

  /** The three records `convertToSpriteAtlaFile` builds from its members. */
  datatype Sheet = Sheet(subMetas: seq<Field>, altas: Option<Json>, frames: seq<Field>)

  /** The sprite name of a member: `<name>.jpeg`, or `<name>_0.jpeg` when that is already used. */
  function SpriteName(subMetas: seq<Field>, sprite: Json): string
  {
    var name := Text(Get2(sprite, "content", "name"));
    if Lookup(subMetas, name + ".jpeg").Some? then name + "_" + NatToString(0) + ".jpeg" else name + ".jpeg"
  }

  /** The `forEach` over the members `subs`, in order. */
  function SheetOf(texture: Json, subs: seq<AtlasSprite>): Sheet
  {
    if subs == [] then Sheet([], None, [])
    else SheetAdd(SheetOf(texture, subs[..|subs| - 1]), texture, subs[|subs| - 1])
  }

  /** One member added to the sheet under its sprite name; the atlas uuid is the last member's. */
  function SheetAdd(sh: Sheet, texture: Json, sub: AtlasSprite): Sheet
  {
    var content := Get(sub.sprite, "content");
    var n := SpriteName(sh.subMetas, sub.sprite);
    Sheet(SetField(sh.subMetas, n, SpriteSubMeta(sub.uuid, texture, FrameOf(content))),
          Some(sub.altas),
          SetField(sh.frames, n, FrameEntry(content)))
  }

  lemma NatToStringZero()
    ensures NatToString(0) == "0"
  {
  }

  /**
   * Members that all share one sprite name give two entries whatever their
   * number: `<name>.jpeg` for the first and `<name>_0.jpeg` for the last of
   * the others, which overwrites the ones before it.
   */
  lemma {:induction false} SheetSameName(texture: Json, subs: seq<AtlasSprite>, name: string)
    requires |subs| >= 2
    requires forall i :: 0 <= i < |subs| ==> Text(Get2(subs[i].sprite, "content", "name")) == name
    ensures var sh := SheetOf(texture, subs);
      var last := subs[|subs| - 1];
      && Keys(sh.subMetas) == [name + ".jpeg", name + "_0.jpeg"]
      && Lookup(sh.subMetas, name + "_0.jpeg") == Some(SpriteSubMeta(last.uuid, texture, FrameOf(Get(last.sprite, "content"))))
    decreases |subs|
  {
    var init := subs[..|subs| - 1];
    if |subs| == 2 {
      SheetFirst(texture, init, name);
    } else {
      SheetSameName(texture, init, name);
    }
    SheetRepeat(texture, subs, name);
  }

  /** One more member of an already used name lands on `<name>_0.jpeg`. */
  lemma SheetRepeat(texture: Json, subs: seq<AtlasSprite>, name: string)
    requires |subs| >= 2
    requires Text(Get2(subs[|subs| - 1].sprite, "content", "name")) == name
    requires var ks := Keys(SheetOf(texture, subs[..|subs| - 1]).subMetas);
      ks == [name + ".jpeg"] || ks == [name + ".jpeg", name + "_0.jpeg"]
    ensures var sh := SheetOf(texture, subs);
      var last := subs[|subs| - 1];
      && Keys(sh.subMetas) == [name + ".jpeg", name + "_0.jpeg"]
      && Lookup(sh.subMetas, name + "_0.jpeg") == Some(SpriteSubMeta(last.uuid, texture, FrameOf(Get(last.sprite, "content"))))
  {
    var last := subs[|subs| - 1];
    var before := SheetOf(texture, subs[..|subs| - 1]);
    assert SheetOf(texture, subs) == SheetAdd(before, texture, last);
    RepeatName(before.subMetas, last.sprite, name);
    RepeatKeys(before.subMetas, name, SpriteSubMeta(last.uuid, texture, FrameOf(Get(last.sprite, "content"))));
  }

  /** A sprite whose `<name>.jpeg` is taken is named `<name>_0.jpeg`. */
  lemma RepeatName(subMetas: seq<Field>, sprite: Json, name: string)
    requires Text(Get2(sprite, "content", "name")) == name && name + ".jpeg" in Keys(subMetas)
    ensures SpriteName(subMetas, sprite) == name + "_0.jpeg"
  {
    NatToStringZero();
  }

  /** Setting `<name>_0.jpeg` next to `<name>.jpeg` keeps exactly those two keys. */
  lemma RepeatKeys(subMetas: seq<Field>, name: string, sub: Json)
    requires Keys(subMetas) == [name + ".jpeg"] || Keys(subMetas) == [name + ".jpeg", name + "_0.jpeg"]
    ensures Keys(SetField(subMetas, name + "_0.jpeg", sub)) == [name + ".jpeg", name + "_0.jpeg"]
    ensures Lookup(SetField(subMetas, name + "_0.jpeg", sub), name + "_0.jpeg") == Some(sub)
  {
    assert name + ".jpeg" != name + "_0.jpeg" by {
      assert |name + ".jpeg"| != |name + "_0.jpeg"|;
    }
  }

  /** The first member takes `<name>.jpeg`. */
  lemma SheetFirst(texture: Json, subs: seq<AtlasSprite>, name: string)
    requires |subs| == 1 && Text(Get2(subs[0].sprite, "content", "name")) == name
    ensures Keys(SheetOf(texture, subs).subMetas) == [name + ".jpeg"]
  {
    assert subs[..0] == [];
  }

  /**
   * `convertToSpriteAtlaFile(subs, filename, texture, w, h)`: the texture meta
   * with one whole-picture sprite, the sheet JSON, the `.plist` meta, the
   * plist conversion and the removal of the JSON.
   */
  function SpriteAtlaFile(env: Env, s: State, subs: seq<AtlasSprite>, filename: string, texture: Json, width: int, height: int): (r: State)
    ensures Grows(s, r) && |r.plan| == |s.plan| + 5
    ensures r.cacheReadList == s.cacheReadList && r.fileMap == s.fileMap && r.draws == s.draws + 1
  {
    var uuid := DecodeValue(Str(env.random(s.draws, 22)));
    s.(plan := s.plan + SheetWrites(filename, texture, width, height, uuid, SheetOf(texture, subs), subs == []),
       draws := s.draws + 1)
  }

  /**
   * The five calls of `convertToSpriteAtlaFile` once its id `uuid` is drawn
   * and its sheet `sh` is built: the texture meta with one whole-picture
   * sprite, the sheet JSON (an empty object when there are no members), the
   * `.plist` meta (an empty object when no member named an atlas), the
   * `readJson` call and the removal of the JSON. What the last two leave in
   * the directory depends on scheduling; see `ConvertRacing`.
   */
  function SheetWrites(filename: string, texture: Json, width: int, height: int, uuid: Json, sh: Sheet, noSubs: bool): (r: seq<Output>)
    ensures |r| == 5 && r[0].Write? && r[0].file == filename + ".meta"
    ensures r[3] == ConvertPlist("./project/assets/Picture/" + BeforeFirst(filename, '.'))
    ensures r[4] == Unlink("./project/assets/Picture/" + BeforeFirst(filename, '.') + ".json")
  {
    var pictureName := BeforeFirst(filename, '.');
    var whole := SpriteSubMeta(uuid, texture, WholeFrame(width, height));
    var meta := TextureMeta(texture, width, height, Obj([Field(pictureName, whole)]));
    var plistJson := if noSubs then EmptyObject else Obj([Field("frames", Obj(sh.frames))]);
    var spriteMap := if sh.altas.None? then EmptyObject else PlistMeta(sh.altas.value, texture, width, height, Obj(sh.subMetas));
    var base := "./project/assets/Picture/" + pictureName;
    [Write("Picture", filename + ".meta", meta), Write("Picture", pictureName + ".json", plistJson),
     Write("Picture", pictureName + ".plist.meta", spriteMap), ConvertPlist(base), Unlink(base + ".json")]
  }

  /** A group of several frames: one id drawn per member, then one copy of the texture and one sprite sheet. */
  function AtlasGroup(env: Env, s: State, temp: OMap<Json, AtlasRef>, texture: Json, from: string, g: OMap<Json, Json>): (r: State)
    ensures Grows(s, r) && |r.plan| == |s.plan| + 5 && |r.cacheReadList| == |s.cacheReadList| + 1
    ensures r.fileMap == s.fileMap
  {
    AtlasSheet(env, Drawn(s, |g|), AtlasSprites(env, s.draws, temp, texture, g), AtlasName(temp, texture, from), texture, from)
  }

  /** The state after `n` more random texts were drawn. */
  function Drawn(s: State, n: nat): State
  {
    s.(draws := s.draws + n)
  }

  /** The name of a group's sheet: the recorded atlas name, or the texture file's name up to its first dot. */
  function AtlasName(temp: OMap<Json, AtlasRef>, texture: Json, from: string): Json
  {
    if Has(temp, texture) then Find(temp, texture).value.atlas else Str(BeforeFirst(Basename(from), '.'))
  }

  /** The copy of the texture under the group's file name, then the sprite sheet over it. */
  function AtlasSheet(env: Env, s: State, subs: seq<AtlasSprite>, filename: Json, texture: Json, from: string): (r: State)
    ensures Grows(s, r) && |r.plan| == |s.plan| + 5 && |r.cacheReadList| == |s.cacheReadList| + 1
    ensures r.fileMap == s.fileMap
  {
    var size := env.sizeOf(from);
    var ext := ExtName(from);
    var stem := BeforeFirst(Text(filename), '.');
    var writePath := Placed(s, "Picture", stem + ext, stem, ext);
    var s1 := CopyAs(s, from, "Picture", "Picture", stem + ext, stem, ext);
    var r := SpriteAtlaFile(env, s1, subs, writePath, texture, size.width, size.height);
    GrowsTrans(s, s1, r);
    r
  }

  /** A group of one frame: one copy and one picture meta, unless the frame's name starts with `default_`. */
  function SingleGroup(env: Env, s: State, from: string, e: Entry<Json, Json>): (r: State)
    ensures Grows(s, r)
    ensures r.fileMap == s.fileMap
  {
    var name := Text(Get2(e.value, "content", "name"));
    if BeforeFirst(name, '_') == "default" then s
    else
      var ext := ExtName(from);
      var writePath := Placed(s, "Picture", name + ext, BeforeFirst(name, '.'), ext);
      var s1 := CopyAs(s, from, "Picture", "Picture", name + ext, BeforeFirst(name, '.'), ext);
      var size := env.sizeOf(from);
      s1.(plan := s1.plan + [PictureFile(e.value, e.key, writePath, size.width, size.height, "")])
  }

  /** One entry of `pictureMap`: handled only when its decoded texture is indexed, then dropped from the index. */
  function PictureGroup(env: Env, s: State, temp: OMap<Json, AtlasRef>, e: Entry<Json, OMap<Json, Json>>): (r: State)
    ensures Grows(s, r)
  {
    var texture := DecodeValue(e.key);
    if !FileHas(s, texture) then s
    else
      var from := Find(s.fileMap, texture.s).value;
      var s1 :=
        if |e.value| > 1 then AtlasGroup(env, s, temp, texture, from, e.value)
        else if |e.value| == 1 then SingleGroup(env, s, from, e.value[0])
        else s;
      s1.(fileMap := Remove(s1.fileMap, texture.s))
  }

  function PicturePass(env: Env, s: State, temp: OMap<Json, AtlasRef>, es: OMap<Json, OMap<Json, Json>>): (r: State)
    ensures Grows(s, r)
    decreases |es|
  {
    if es == [] then s
    else
      var p := PicturePass(env, s, temp, es[..|es| - 1]);
      var r := PictureGroup(env, p, temp, es[|es| - 1]);
      GrowsTrans(s, p, r);
      r
  }

  /** A group whose decoded texture is not indexed emits nothing and changes nothing. */
  lemma PictureGroupMissing(env: Env, s: State, temp: OMap<Json, AtlasRef>, e: Entry<Json, OMap<Json, Json>>)
    requires !FileHas(s, DecodeValue(e.key))
    ensures PictureGroup(env, s, temp, e) == s
  {
  }

  /**
   * A group of several frames with an indexed texture: exactly one sheet
   * (five effects) and one copy, and the texture leaves the index.
   */
  lemma PictureGroupAtlas(env: Env, s: State, temp: OMap<Json, AtlasRef>, e: Entry<Json, OMap<Json, Json>>)
    requires FileHas(s, DecodeValue(e.key)) && |e.value| > 1
    ensures var r := PictureGroup(env, s, temp, e);
      && |r.plan| == |s.plan| + 5 && |r.cacheReadList| == |s.cacheReadList| + 1
      && !Has(r.fileMap, DecodeValue(e.key).s)
  {
  }

  /**
   * A group of one frame with an indexed texture: one picture meta and one
   * copy, or nothing when the frame's name starts with `default_`; the
   * texture leaves the index either way.
   */
  lemma PictureGroupSingle(env: Env, s: State, temp: OMap<Json, AtlasRef>, e: Entry<Json, OMap<Json, Json>>)
    requires FileHas(s, DecodeValue(e.key)) && |e.value| == 1
    ensures var r := PictureGroup(env, s, temp, e);
      var isDefault := BeforeFirst(Text(Get2(e.value[0].value, "content", "name")), '_') == "default";
      && (isDefault ==> r.plan == s.plan && r.cacheReadList == s.cacheReadList)
      && (!isDefault ==> |r.plan| == |s.plan| + 1 && |r.cacheReadList| == |s.cacheReadList| + 1)
      && !Has(r.fileMap, DecodeValue(e.key).s)
  {
  }

  /** One index entry left after the groups: a `.png` or `.jpg` becomes a picture of its own. */
  function Orphan(env: Env, s: State, e: Entry<string, string>): (r: State)
    ensures Grows(s, r)
  {
    var ext := ExtName(e.value);
    if ext == ".png" || ext == ".jpg" then
      var writePath := Placed(s, "Picture", e.key + ext, BeforeFirst(e.key, '.'), ext);
      var s1 := CopyAs(s, e.value, "Picture", "Picture", e.key + ext, BeforeFirst(e.key, '.'), ext);
      OrphanPicture(env, s1, e.key, e.value, writePath)
    else s
  }

  /** The picture meta of an image kept under its own uuid `name`, with a random four-letter sprite name. */
  function OrphanPicture(env: Env, s: State, name: string, from: string, path: string): (r: State)
    ensures Grows(s, r) && |r.plan| == |s.plan| + 1 && r.draws == s.draws + 1
  {
    var size := env.sizeOf(from);
    var sprite := PlaceholderSprite(Str(env.random(s.draws, 4)), Str(name));
    s.(draws := s.draws + 1, plan := s.plan + [PictureFile(sprite, Str(name), path, size.width, size.height, "")])
  }

  function Orphans(env: Env, s: State, es: OMap<string, string>): (r: State)
    ensures Grows(s, r)
    decreases |es|
  {
    if es == [] then s
    else
      var p := Orphans(env, s, es[..|es| - 1]);
      var r := Orphan(env, p, es[|es| - 1]);
      GrowsTrans(s, p, r);
      r
  }

  /** Only images are taken over: any other indexed file adds nothing. */
  lemma OrphanSkipsOthers(env: Env, s: State, e: Entry<string, string>)
    requires ExtName(e.value) != ".png" && ExtName(e.value) != ".jpg"
    ensures Orphan(env, s, e) == s
  {
  }

  /** One font of `ttfMap`: the `.fnt` text of a bitmap or label-atlas font, and its meta when its frame is known. */
  function FontFile(s: State, e: Entry<Json, Json>): (r: State)
    ensures Grows(s, r) && r.spriteFramesMap == s.spriteFramesMap
  {
    var font := e.value;
    var tag := Get(font, "__type__");
    if (LooseEquals(tag, Str("cc.BitmapFont")) || LooseEquals(tag, Str("cc.LabelAtlas"))) && Truthy(Get(font, "_name")) then
      var fnt := Plus(Get(font, "_name"), Str(".fnt"));
      var s1 := s.(plan := s.plan + [WriteText("./project/assets/Fonts/" + fnt, FntText(font))]);
      var uuid := DecodeValue(Get2(font, "spriteFrame", "__uuid__"));
      if Has(s.spriteFramesMap, uuid) then
        var frame := Find(s.spriteFramesMap, uuid).value;
        WriteOut(s1, "Fonts", fnt + ".meta", FontMeta(e.key, DecodeValue(Get2(frame, "content", "texture"))))
      else s1
    else s
  }

  function FontFiles(s: State, es: OMap<Json, Json>): (r: State)
    ensures Grows(s, r) && r.spriteFramesMap == s.spriteFramesMap
    decreases |es|
  {
    if es == [] then s
    else
      var p := FontFiles(s, es[..|es| - 1]);
      var r := FontFile(p, es[|es| - 1]);
      GrowsTrans(s, p, r);
      r
  }

  /**
   * A named bitmap font writes its `.fnt` text, followed by its meta exactly
   * when its sprite frame is in `spriteFramesMap`.
   */
  lemma FontFileMeta(s: State, e: Entry<Json, Json>)
    requires Get(e.value, "__type__") == Str("cc.BitmapFont") && Truthy(Get(e.value, "_name"))
    ensures var r := FontFile(s, e);
      var fnt := Text(Get(e.value, "_name")) + ".fnt";
      && r.plan[|s.plan|] == WriteText("./project/assets/Fonts/" + fnt, FntText(e.value))
      && (|r.plan| == |s.plan| + 2 <==> Has(s.spriteFramesMap, DecodeValue(Get2(e.value, "spriteFrame", "__uuid__"))))
      && |r.plan| <= |s.plan| + 2
  {
    var fnt := Plus(Get(e.value, "_name"), Str(".fnt"));
    var s1 := s.(plan := s.plan + [WriteText("./project/assets/Fonts/" + fnt, FntText(e.value))]);
    assert LooseEquals(Get(e.value, "__type__"), Str("cc.BitmapFont"));
    var uuid := DecodeValue(Get2(e.value, "spriteFrame", "__uuid__"));
    if Has(s.spriteFramesMap, uuid) {
      var frame := Find(s.spriteFramesMap, uuid).value;
      assert FontFile(s, e) == WriteOut(s1, "Fonts", fnt + ".meta", FontMeta(e.key, DecodeValue(Get2(frame, "content", "texture"))));
    } else {
      assert FontFile(s, e) == s1;
    }
  }

  /** `copyFile()`: the copy queue, pair by pair, appended to the plan. */
  function CopyFile(s: State): (r: State)
    requires Paired(s)
    ensures Grows(s, r)
  {
    s.(plan := s.plan + CopyPlan(s.cacheReadList, s.cacheWriteList))
  }

  /** Each queued pair becomes one copy from its source to its destination, in queue order. */
  lemma CopyFileCopies(s: State)
    requires Paired(s)
    ensures var r := CopyFile(s);
      && |r.plan| == |s.plan| + |s.cacheReadList|
      && forall i :: 0 <= i < |s.cacheReadList| ==> r.plan[|s.plan| + i] == Copy(s.cacheReadList[i], s.cacheWriteList[i])
  {
    var cs := CopyPlan(s.cacheReadList, s.cacheWriteList);
    var r := CopyFile(s);
    assert r.plan == s.plan + cs;
    forall i | 0 <= i < |s.cacheReadList|
      ensures r.plan[|s.plan| + i] == Copy(s.cacheReadList[i], s.cacheWriteList[i])
    {
      assert r.plan[|s.plan| + i] == cs[i];
    }
  }

  /**
   * `convertToFile()`: the atlas table and particle copies, the picture
   * groups, the remaining images, the fonts, then the copies.
   */
  function ConvertToFile(env: Env, s: State): (r: State)
    requires Paired(s)
    ensures Grows(s, r) && Paired(r)
  {
    var s0 := s.(count := 0);
    var temp := AtlasTable(s0.spriteFramesMap, s0.spriteAtlasMap);
    var s1 := ParticleCopies(s0, s0.spriteAtlasMap);
    var s2 := PicturePass(env, s1, temp, s1.pictureMap);
    var s3 := Orphans(env, s2, s2.fileMap);
    var s4 := FontFiles(s3, s3.ttfMap);
    GrowsTrans(s0, s1, s2);
    GrowsTrans(s0, s2, s3);
    GrowsTrans(s0, s3, s4);
    CopyFile(s4)
  }

  /** `convertToMetaFile(fileMap)`: the metas of the named assets, in key order. */
  function MetaOutputs(files: Json, names: seq<string>): (os: seq<Output>)
    ensures |os| == |names|
  {
    MapNames(MetaOf(files), names)
  }

  /** The meta of one asset name, with the uuid `files` holds under it. */
  function MetaOf(files: Json): string -> Output
  {
    name => MetaFileOutput(name, Get(files, name))
  }

  /** `f` applied to each name, in order. */
  function MapNames(f: string -> Output, names: seq<string>): (os: seq<Output>)
    ensures |os| == |names|
    decreases |names|
  {
    if names == [] then [] else MapNames(f, names[..|names| - 1]) + [f(names[|names| - 1])]
  }

  lemma {:induction false} MapNamesAt(f: string -> Output, names: seq<string>, i: nat)
    requires i < |names|
    ensures MapNames(f, names)[i] == f(names[i])
    decreases |names|
  {
    var init := names[..|names| - 1];
    if i < |init| {
      MapNamesAt(f, init, i);
      assert init[i] == names[i];
    }
  }

  /** The meta at position `i` is the one of the `i`-th name, with the uuid stored under it. */
  lemma MetaOutputsAt(files: Json, names: seq<string>, i: nat)
    requires i < |names|
    ensures MetaOutputs(files, names)[i] == MetaFileOutput(names[i], Get(files, names[i]))
  {
    MapNamesAt(MetaOf(files), names, i);
  }

  // ---------------------------------------------------------------------
  // One more round of each loop

  lemma SceneVisitsStep(env: Env, filename: string, key: string, data: Json, s: State, js: seq<string>, i: nat)
    requires i < |js|
    ensures SceneVisits(env, filename, key, data, s, js[..i + 1]) == VisitScene(env, filename, key, data, SceneVisits(env, filename, key, data, s, js[..i]), js[i])
  {
    assert js[..i + 1][..i] == js[..i];
  }

  lemma PrefabVisitsStep(env: Env, name: Json, filename: string, key: string, data: Json, s: State, js: seq<string>, i: nat)
    requires i < |js|
    ensures PrefabVisits(env, name, filename, key, data, s, js[..i + 1]) == VisitPrefab(env, name, filename, key, data, PrefabVisits(env, name, filename, key, data, s, js[..i]), js[i])
  {
    assert js[..i + 1][..i] == js[..i];
  }

  lemma AudioVisitsStep(env: Env, name: string, key: string, item: Json, s: State, js: seq<string>, i: nat)
    requires i < |js|
    ensures AudioVisits(env, name, key, item, s, js[..i + 1]) == VisitAudio(env, name, key, item, AudioVisits(env, name, key, item, s, js[..i]), js[i])
  {
    assert js[..i + 1][..i] == js[..i];
  }

  lemma AnimationVisitsStep(env: Env, filename: string, key: string, item: Json, s: State, js: seq<string>, i: nat)
    requires i < |js|
    ensures AnimationVisits(env, filename, key, item, s, js[..i + 1]) == VisitAnimation(env, filename, key, item, AnimationVisits(env, filename, key, item, s, js[..i]), js[i])
  {
    assert js[..i + 1][..i] == js[..i];
  }

  lemma FontVisitsStep(env: Env, key: string, item: Json, s: State, js: seq<string>, i: nat)
    requires i < |js|
    ensures FontVisits(env, key, item, s, js[..i + 1]) == VisitFont(env, key, item, FontVisits(env, key, item, s, js[..i]), js[i])
  {
    assert js[..i + 1][..i] == js[..i];
  }

  lemma BonesNativeVisitsStep(env: Env, name: string, dir: string, filename: string, key: string, item: Json, s: State, js: seq<string>, i: nat)
    requires i < |js|
    ensures BonesNativeVisits(env, name, dir, filename, key, item, s, js[..i + 1]) == VisitBonesNative(env, name, dir, filename, key, item, BonesNativeVisits(env, name, dir, filename, key, item, s, js[..i]), js[i])
  {
    assert js[..i + 1][..i] == js[..i];
  }

  lemma BonesMetaVisitsStep(env: Env, dir: string, filename: string, key: string, item: Json, s: State, js: seq<string>, i: nat)
    requires i < |js|
    ensures BonesMetaVisits(env, dir, filename, key, item, s, js[..i + 1]) == VisitBonesMeta(env, dir, filename, key, item, BonesMetaVisits(env, dir, filename, key, item, s, js[..i]), js[i])
  {
    assert js[..i + 1][..i] == js[..i];
  }

  lemma ParticleVisitsStep(env: Env, name: Json, filename: string, key: string, item: Json, s: State, js: seq<string>, i: nat)
    requires i < |js|
    ensures ParticleVisits(env, name, filename, key, item, s, js[..i + 1]) == VisitParticle(env, name, filename, key, item, ParticleVisits(env, name, filename, key, item, s, js[..i]), js[i])
  {
    assert js[..i + 1][..i] == js[..i];
  }

  lemma AtlasVisitsStep(env: Env, name: Json, key: string, item: Json, s: State, js: seq<string>, i: nat)
    requires i < |js|
    ensures AtlasVisits(env, name, key, item, s, js[..i + 1]) == VisitAtlas(env, name, key, item, AtlasVisits(env, name, key, item, s, js[..i]), js[i])
  {
    assert js[..i + 1][..i] == js[..i];
  }

  lemma FrameVisitsStep(env: Env, texture: Json, key: string, item: Json, s: State, js: seq<string>, i: nat)
    requires i < |js|
    ensures FrameVisits(env, texture, key, item, s, js[..i + 1]) == VisitFrame(env, texture, key, item, FrameVisits(env, texture, key, item, s, js[..i]), js[i])
  {
    assert js[..i + 1][..i] == js[..i];
  }

  lemma MembersStep(env: Env, key: string, s: State, data: Json, ks: seq<string>, i: nat)
    requires i < |ks|
    ensures Members(env, key, s, data, ks[..i + 1]) == Member(env, key, Members(env, key, s, data, ks[..i]), data, ks[i])
  {
    assert ks[..i + 1][..i] == ks[..i];
  }

  lemma ProcessFilesStep(env: Env, s: State, files: seq<string>, docs: string -> Json, i: nat)
    requires i < |files|
    ensures var p := ProcessFiles(env, s, files[..i], docs);
      ProcessFiles(env, s, files[..i + 1], docs) ==
        if ExtName(files[i]) == ".json" then Process(env, BeforeFirst(Basename(files[i]), '.'), p.(nodeData := docs(files[i])), docs(files[i]))
        else p
  {
    assert files[..i + 1][..i] == files[..i];
  }

  lemma AtlasRefsStep(frames: OMap<Json, Json>, temp: OMap<Json, AtlasRef>, texture: Json, atlas: Json, ks: seq<string>, i: nat)
    requires i < |ks|
    ensures AtlasRefs(frames, temp, texture, atlas, ks[..i + 1]) == AtlasRefAdd(frames, AtlasRefs(frames, temp, texture, atlas, ks[..i]), texture, atlas, ks[i])
  {
    assert ks[..i + 1][..i] == ks[..i];
  }

  lemma AtlasPassStep(s: State, es: OMap<Json, Json>, i: nat)
    requires i < |es|
    ensures AtlasTable(s.spriteFramesMap, es[..i + 1]) == AtlasRefs(s.spriteFramesMap, AtlasTable(s.spriteFramesMap, es[..i]), es[i].key, es[i].value, ForInKeys(Get(es[i].value, "_spriteFrames")))
    ensures ParticleCopies(s, es[..i + 1]) == ParticleCopy(ParticleCopies(s, es[..i]), es[i])
  {
    assert es[..i + 1][..i] == es[..i];
  }

  lemma PicturePassStep(env: Env, s: State, temp: OMap<Json, AtlasRef>, es: OMap<Json, OMap<Json, Json>>, i: nat)
    requires i < |es|
    ensures PicturePass(env, s, temp, es[..i + 1]) == PictureGroup(env, PicturePass(env, s, temp, es[..i]), temp, es[i])
  {
    assert es[..i + 1][..i] == es[..i];
  }

  lemma AtlasSpritesStep(env: Env, draws: nat, temp: OMap<Json, AtlasRef>, texture: Json, g: OMap<Json, Json>, i: nat)
    requires i < |g|
    ensures AtlasSprites(env, draws, temp, texture, g[..i + 1]) ==
      AtlasSprites(env, draws, temp, texture, g[..i]) + [AtlasSprite(g[i].value, AtlasUuid(env, draws + i, temp, texture), g[i].key)]
  {
    assert g[..i + 1][..i] == g[..i];
  }

  lemma SheetStep(texture: Json, subs: seq<AtlasSprite>, i: nat)
    requires i < |subs|
    ensures SheetOf(texture, subs[..i + 1]) == SheetAdd(SheetOf(texture, subs[..i]), texture, subs[i])
  {
    assert subs[..i + 1][..i] == subs[..i];
  }

  lemma OrphansStep(env: Env, s: State, es: OMap<string, string>, i: nat)
    requires i < |es|
    ensures Orphans(env, s, es[..i + 1]) == Orphan(env, Orphans(env, s, es[..i]), es[i])
  {
    assert es[..i + 1][..i] == es[..i];
  }

  lemma FontFilesStep(s: State, es: OMap<Json, Json>, i: nat)
    requires i < |es|
    ensures FontFiles(s, es[..i + 1]) == FontFile(FontFiles(s, es[..i]), es[i])
  {
    assert es[..i + 1][..i] == es[..i];
  }

  lemma MetaOutputsStep(files: Json, names: seq<string>, i: nat)
    requires i < |names|
    ensures MetaOutputs(files, names[..i + 1]) == MetaOutputs(files, names[..i]) + [MetaFileOutput(names[i], Get(files, names[i]))]
  {
    assert MetaOf(files)(names[i]) == MetaFileOutput(names[i], Get(files, names[i]));
    assert names[..i + 1][..i] == names[..i];
  }

  /** Appending to a plan that already ends in a list of outputs extends that list. */
  lemma AppendLast<T>(a: seq<T>, b: seq<T>, c: seq<T>, x: T)
    requires a == b + c
    ensures a + [x] == b + (c + [x])
  {
  }
}
