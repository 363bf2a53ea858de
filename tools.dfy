/**
 * The asset resolver of `tools.js` as an object: its fields are updated in
 * place by the first pass (`process`) and the second pass (`convertToFile`),
 * and every effect on the output project is appended to `plan`. Each method
 * is proved to take the fields to the state the matching function of
 * `ToolsSpec` describes.
 */
module Tools {
  import opened JsValue
  import opened NodePath
  import opened UuidUtils
  import opened OrderedMaps
  import opened ToolsRecords
  import opened ToolsSpec

  class Resolver {
    /** The settings, image sizes and random texts the resolver reads. */
    const env: Env

    var fileList: seq<string>
    var fileMap: OMap<string, string>
    var cacheReadList: seq<string>
    var cacheWriteList: seq<string>
    var nodeData: Json
    var sceneAssets: seq<Json>
    var prefabsMap: OMap<string, Json>
    var spriteFramesMap: OMap<Json, Json>
    var spriteAtlasMap: OMap<Json, Json>
    var audio: seq<Json>
    var ttfMap: OMap<Json, Json>
    var animation: seq<Json>
    /** The properties set on the `animationMap` object (`animationMap[name] = uuid`). */
    var animationProps: seq<Field>
    var pictureMap: OMap<Json, OMap<Json, Json>>
    var plan: seq<Output>
    var count: nat
    var draws: nat

    /** The fields as one value. */
    function Snapshot(): State
      reads this
    {
      State(fileList, fileMap, cacheReadList, cacheWriteList, nodeData, sceneAssets, prefabsMap,
            spriteFramesMap, spriteAtlasMap, audio, ttfMap, animation, animationProps, pictureMap,
            plan, count, draws)
    }

    /** The copy queue holds pairs. */
    predicate Valid()
      reads this
    {
      Paired(Snapshot())
    }

    constructor(env: Env)
      ensures this.env == env
      ensures Snapshot() == Initial() && Valid()
    {
      this.env := env;
      fileList := [];
      fileMap := [];
      cacheReadList := [];
      cacheWriteList := [];
      nodeData := EmptyObject;
      sceneAssets := [];
      prefabsMap := [];
      spriteFramesMap := [];
      spriteAtlasMap := [];
      audio := [];
      ttfMap := [];
      animation := [];
      animationProps := [];
      pictureMap := [];
      plan := [];
      count := 0;
      draws := 0;
    }

    // -------------------------------------------------------------------
    // Effects

    /** `writeFile(dir, file, data)`. */
    method WriteFile(dir: string, file: string, data: Json)
      modifies this
      ensures Snapshot() == WriteOut(old(Snapshot()), dir, file, data)
    {
      plan := plan + [Write(dir, file, data)];
    }

    /**
     * The collision test and the push onto both copy lists: `name` unless
     * `checkDir/name` is queued, else `<stem>_<count++><ext>`.
     */
    method QueueCopy(from: string, checkDir: string, toDir: string, name: string, stem: string, ext: string) returns (placed: string)
      modifies this
      ensures placed == Placed(old(Snapshot()), checkDir, name, stem, ext)
      ensures Snapshot() == CopyAs(old(Snapshot()), from, checkDir, toDir, name, stem, ext)
    {
      placed := name;
      if AssetPath(checkDir, name) in cacheWriteList {
        placed := Renamed(stem, count, ext);
        count := count + 1;
      }
      cacheReadList := cacheReadList + [from];
      cacheWriteList := cacheWriteList + [AssetPath(toDir, placed)];
    }

    /** Copy the indexed file `k` and drop it from the index. */
    method MoveFile(k: string, checkDir: string, toDir: string, base: string, withExt: bool)
      requires Has(fileMap, k)
      modifies this
      ensures Snapshot() == ToolsSpec.MoveFile(old(Snapshot()), k, checkDir, toDir, base, withExt)
    {
      var from := Find(fileMap, k).value;
      var ext := ExtName(from);
      var _ := QueueCopy(from, checkDir, toDir, if withExt then base + ext else base, base, ext);
      fileMap := Remove(fileMap, k);
    }

    /** `convertToPictureFile(sprite, uuid, filename, w, h, filePath)`. */
    method ConvertToPictureFile(sprite: Json, uuid: Json, filename: string, width: int, height: int, filePath: string)
      modifies this
      ensures Snapshot() == old(Snapshot()).(plan := old(plan) + [PictureFile(sprite, uuid, filename, width, height, filePath)])
    {
      var meta := PictureMeta(sprite, uuid, filename, width, height);
      var dir := "Picture";
      if filePath != "" {
        dir := filePath;
      }
      plan := plan + [Write(dir, filename + ".meta", meta)];
    }

    /** The picture meta of the whole image `from`, copied to `path`, with a random uuid. */
    method AddRandomPicture(sprite: Json, from: string, path: string, dir: string)
      modifies this
      ensures Snapshot() == RandomPicture(env, old(Snapshot()), sprite, from, path, dir)
    {
      var size := env.sizeOf(from);
      var uuid := RandomUuid();
      ConvertToPictureFile(sprite, uuid, path, size.width, size.height, dir);
    }

    /** `decodeUuid(stringRandom(22))`: the next random text, decoded. */
    method RandomUuid() returns (uuid: Json)
      modifies this
      ensures uuid == DecodeValue(Str(env.random(old(draws), 22)))
      ensures Snapshot() == old(Snapshot()).(draws := old(draws) + 1)
    {
      uuid := DecodeValue(Str(env.random(draws, 22)));
      draws := draws + 1;
    }

    // -------------------------------------------------------------------
    // The first pass

    /** `readFile` recording one file: the list and the index by its key. */
    method IndexFile(path: string)
      modifies this
      ensures Snapshot() == ToolsSpec.IndexFile(old(Snapshot()), path)
    {
      var r := ToolsSpec.IndexFile(Snapshot(), path);
      fileList := r.fileList;
      fileMap := r.fileMap;
    }

    /** The document loop of `readFile` over `fileList`; `docs` reads and parses a file. */
    method ReadDocuments(docs: string -> Json)
      modifies this
      ensures Snapshot() == ProcessFiles(env, old(Snapshot()), old(fileList), docs)
    {
      ReadFiles(fileList, docs);
    }

    /** The same loop over the paths `files`, in order. */
    method ReadFiles(files: seq<string>, docs: string -> Json)
      modifies this
      ensures Snapshot() == ProcessFiles(env, old(Snapshot()), files, docs)
    {
      ghost var s0 := Snapshot();
      for i := 0 to |files|
        invariant Snapshot() == ProcessFiles(env, s0, files[..i], docs)
      {
        ProcessFilesStep(env, s0, files, docs, i);
        var path := files[i];
        if ExtName(path) == ".json" {
          var key := BeforeFirst(Basename(path), '.');
          nodeData := docs(path);
          Process(key, docs(path));
        }
      }
      WholePrefix(files);
    }

    /** `process(key, doc)`. */
    method Process(key: string, doc: Json)
      modifies this
      ensures Snapshot() == ToolsSpec.Process(env, key, old(Snapshot()), doc)
    {
      if LooseEquals(env.settings, Str("{}")) {
        return;
      }
      count := 0;
      WriteData(key, Reveal(doc));
    }

    /** `writeData(data)`. */
    method WriteData(key: string, data: Json)
      modifies this
      ensures Snapshot() == ToolsSpec.WriteData(env, key, old(Snapshot()), data)
      decreases Depth(data)
    {
      if IsObjectType(data) && Truthy(Get(data, "__type__")) {
        TypedData(key, data);
        return;
      }
      var ks := ForInKeys(data);
      ghost var s0 := Snapshot();
      for i := 0 to |ks|
        invariant Snapshot() == Members(env, key, s0, data, ks[..i])
      {
        MembersStep(env, key, s0, data, ks, i);
        var item := Get(data, ks[i]);
        if IsArray(item) {
          GetDepth(data, ks[i]);
          WriteData(key, item);
        } else if Truthy(Get(item, "__type__")) {
          HandleMember(key, data, item);
        }
      }
      WholePrefix(ks);
    }

    /** The branch of `writeData` for a tagged document. */
    method TypedData(key: string, data: Json)
      modifies this
      ensures Snapshot() == TypedStep(key, old(Snapshot()), data)
    {
      var tag := Get(data, "__type__");
      if LooseEquals(tag, Str("cc.AudioClip")) {
        TopAudio(key, data);
      } else if LooseEquals(tag, Str("cc.TextAsset")) {
        TopText(key, data);
      } else if LooseEquals(tag, Str("cc.AnimationClip")) {
        TopAnimation(key, data);
      }
    }

    method TopAudio(key: string, data: Json)
      modifies this
      ensures Snapshot() == ToolsSpec.TopAudio(key, old(Snapshot()), data)
    {
      var name := Plus(Get(data, "_name"), Get(data, "_native"));
      if Has(fileMap, key) {
        MoveFile(key, "Texture", "Audio", name, false);
      }
      WriteFile("Audio", name + ".meta", AssetMeta(Str(key)));
    }

    method TopText(key: string, data: Json)
      modifies this
      ensures Snapshot() == ToolsSpec.TopText(key, old(Snapshot()), data)
    {
      var name := Plus(Get(data, "_name"), Str(".json"));
      WriteFile("resource", name, data);
      WriteFile("resource", name + ".meta", PlainMeta("1.2.7", Str(key)));
    }

    method TopAnimation(key: string, data: Json)
      modifies this
      ensures Snapshot() == ToolsSpec.TopAnimation(key, old(Snapshot()), data)
    {
      var filename := Plus(Get(data, "_name"), Str(".anim"));
      WriteFile("Animation", filename, data);
      animation := animation + [data];
      WriteFile("Animation", filename + ".meta", AssetMeta(Str(key)));
    }

    /** The handler of a tagged member `item` of `data`, chosen by its tag. */
    method HandleMember(key: string, data: Json, item: Json)
      modifies this
      ensures Snapshot() == ToolsSpec.HandleMember(env, key, old(Snapshot()), data, item)
    {
      match KindOf(Get(item, "__type__"))
      case SceneKind => MemberScene(key, data, item);
      case PrefabKind => MemberPrefab(key, data, item);
      case AudioKind => MemberAudio(key, data, item);
      case AnimationKind => MemberAnimation(key, data, item);
      case FontKind => MemberFont(key, data, item);
      case BonesKind => MemberBones(key, data, item);
      case BonesAtlasKind => MemberBonesAtlas(key, data, item);
      case ParticleKind => MemberParticle(key, data, item);
      case AtlasKind => MemberAtlas(key, data, item);
      case FrameKind => MemberFrame(key, data, item);
      case OtherKind =>
    }

    /** The branch of that chain for the tags of `SceneKind`. */
    method MemberScene(key: string, data: Json, item: Json)
      requires KindOf(Get(item, "__type__")) == SceneKind
      modifies this
      ensures Snapshot() == ToolsSpec.HandleMember(env, key, old(Snapshot()), data, item)
    {
      HandleScene(key, data, item);
    }

    /** The branch of that chain for the tags of `PrefabKind`. */
    method MemberPrefab(key: string, data: Json, item: Json)
      requires KindOf(Get(item, "__type__")) == PrefabKind
      modifies this
      ensures Snapshot() == ToolsSpec.HandleMember(env, key, old(Snapshot()), data, item)
    {
      HandlePrefab(key, data, item);
    }

    /** The branch of that chain for the tags of `AudioKind`. */
    method MemberAudio(key: string, data: Json, item: Json)
      requires KindOf(Get(item, "__type__")) == AudioKind
      modifies this
      ensures Snapshot() == ToolsSpec.HandleMember(env, key, old(Snapshot()), data, item)
    {
      HandleAudio(key, data, item);
    }

    /** The branch of that chain for the tags of `AnimationKind`. */
    method MemberAnimation(key: string, data: Json, item: Json)
      requires KindOf(Get(item, "__type__")) == AnimationKind
      modifies this
      ensures Snapshot() == ToolsSpec.HandleMember(env, key, old(Snapshot()), data, item)
    {
      HandleAnimation(key, data, item);
    }

    /** The branch of that chain for the tags of `FontKind`. */
    method MemberFont(key: string, data: Json, item: Json)
      requires KindOf(Get(item, "__type__")) == FontKind
      modifies this
      ensures Snapshot() == ToolsSpec.HandleMember(env, key, old(Snapshot()), data, item)
    {
      FontNodes(key, item);
    }

    /** The branch of that chain for the tags of `BonesKind`. */
    method MemberBones(key: string, data: Json, item: Json)
      requires KindOf(Get(item, "__type__")) == BonesKind
      modifies this
      ensures Snapshot() == ToolsSpec.HandleMember(env, key, old(Snapshot()), data, item)
    {
      HandleBones(key, data, item);
    }

    /** The branch of that chain for the tags of `BonesAtlasKind`. */
    method MemberBonesAtlas(key: string, data: Json, item: Json)
      requires KindOf(Get(item, "__type__")) == BonesAtlasKind
      modifies this
      ensures Snapshot() == ToolsSpec.HandleMember(env, key, old(Snapshot()), data, item)
    {
      BonesAtlas(key, data, item);
    }

    /** The branch of that chain for the tags of `ParticleKind`. */
    method MemberParticle(key: string, data: Json, item: Json)
      requires KindOf(Get(item, "__type__")) == ParticleKind
      modifies this
      ensures Snapshot() == ToolsSpec.HandleMember(env, key, old(Snapshot()), data, item)
    {
      HandleParticle(key, item);
    }

    /** The branch of that chain for the tags of `AtlasKind`. */
    method MemberAtlas(key: string, data: Json, item: Json)
      requires KindOf(Get(item, "__type__")) == AtlasKind
      modifies this
      ensures Snapshot() == ToolsSpec.HandleMember(env, key, old(Snapshot()), data, item)
    {
      AtlasNodes(Get(item, "_name"), key, item);
    }

    /** The branch of that chain for the tags of `FrameKind`. */
    method MemberFrame(key: string, data: Json, item: Json)
      requires KindOf(Get(item, "__type__")) == FrameKind
      modifies this
      ensures Snapshot() == ToolsSpec.HandleMember(env, key, old(Snapshot()), data, item)
    {
      FrameNodes(Get2(item, "content", "texture"), key, item);
    }

    /** The scene handler. */
    method HandleScene(key: string, data: Json, item: Json)
      modifies this
      ensures Snapshot() == SceneStep(env, key, old(Snapshot()), data, item)
    {
      var filename := Plus(Get2(data, "0", "_name"), Str(".fire"));
      sceneAssets := sceneAssets + [data];
      WriteFile("Scene", filename, data);
      SceneNodes(filename, key, data);
    }

    /** The prefab handler, with its renaming on a repeated name. */
    method HandlePrefab(key: string, data: Json, item: Json)
      modifies this
      ensures Snapshot() == PrefabStep(env, key, old(Snapshot()), data, item)
    {
      var name := Get(item, "_name");
      var filename := PlacePrefab(name, data);
      PrefabNodes(name, filename, key, data);
    }

    /** The renaming on a collision, the entry in `prefabsMap` and the write of the prefab. */
    method PlacePrefab(name: Json, data: Json) returns (filename: string)
      modifies this
      ensures filename == PrefabFilename(old(Snapshot()), name)
      ensures Snapshot() == PrefabPlaced(old(Snapshot()), name, data)
    {
      filename := Plus(name, Str(".prefab"));
      if Has(prefabsMap, filename) {
        filename := Renamed(Text(name), count, ".prefab");
        count := count + 1;
      }
      prefabsMap := Put(prefabsMap, filename, data);
      WriteFile("Prefab", filename, data);
    }

    /** The audio-clip handler. */
    method HandleAudio(key: string, data: Json, item: Json)
      modifies this
      ensures Snapshot() == AudioStep(env, key, old(Snapshot()), data, item)
    {
      var name := Plus(Get(item, "_name"), Get(item, "_native"));
      audio := audio + [item];
      AudioNodes(name, key, item);
    }

    /** The particle handler. */
    method HandleParticle(key: string, item: Json)
      modifies this
      ensures Snapshot() == ParticleStep(env, key, old(Snapshot()), item)
    {
      var name := Get(item, "_name");
      ParticleNodes(name, Plus(name, Get(item, "_native")), key, item);
    }

    /** The animation-clip handler. */
    method HandleAnimation(key: string, data: Json, item: Json)
      modifies this
      ensures Snapshot() == AnimationStep(env, key, old(Snapshot()), data, item)
    {
      var filename := Plus(Get(item, "_name"), Str(".anim"));
      WriteFile("Animation", filename, item);
      animation := animation + [item];
      AnimationNodes(filename, key, item);
    }

    /** The dragon-bones handler. */
    method HandleBones(key: string, data: Json, item: Json)
      modifies this
      ensures Snapshot() == BonesStep(env, key, old(Snapshot()), data, item)
    {
      var name := Get(item, "_name");
      var dir := "Texture/" + Text(name);
      if Truthy(Get(item, "_native")) {
        BonesNativeNodes(Text(name), dir, Plus(name, Get(item, "_native")), key, item);
      } else if Truthy(Get(item, "_dragonBonesJson")) {
        var filename := Plus(name, Str(".json"));
        plan := plan + [WriteParsed(dir, filename, Get(item, "_dragonBonesJson"))];
        BonesMetaNodes(dir, filename, key, item);
      }
    }

    /** The bones-atlas handler: JSON text, metas, then the texture picture. */
    method BonesAtlas(key: string, data: Json, item: Json)
      modifies this
      ensures Snapshot() == BonesAtlasStep(env, key, old(Snapshot()), data, item)
    {
      var name := Get(item, "_name");
      var filename := Plus(name, Str(".json"));
      var dir := "Texture/" + Text(name);
      plan := plan + [WriteParsed(dir, filename, Get(item, "_atlasJson"))];
      BonesMetaNodes(dir, filename, key, item);
      BonesTexture(name, filename, dir, DecodeValue(Get2(item, "_texture", "__uuid__")));
    }

    /** The texture of a bones atlas: copied, given its picture meta, dropped from the index. */
    method BonesTexture(name: Json, filename: string, dir: string, texture: Json)
      modifies this
      ensures Snapshot() == ToolsSpec.BonesTexture(env, old(Snapshot()), name, filename, dir, texture)
    {
      if texture.Str? && Has(fileMap, texture.s) {
        var from := Find(fileMap, texture.s).value;
        var ext := ExtName(from);
        var writePath := QueueCopy(from, "Texture", dir, Text(name) + ext, Text(name), ext);
        AddRandomPicture(PlaceholderSprite(name, Str(filename)), from, writePath, dir);
        fileMap := Remove(fileMap, texture.s);
      }
    }

    /** The `for (let j in nodeData)` loop of the scene handler. */
    method SceneNodes(filename: string, key: string, data: Json)
      modifies this
      ensures Snapshot() == SceneVisits(env, filename, key, data, old(Snapshot()), ForInKeys(old(nodeData)))
    {
      ghost var s0 := Snapshot();
      var js := ForInKeys(nodeData);
      for i := 0 to |js|
        invariant Snapshot() == SceneVisits(env, filename, key, data, s0, js[..i])
      {
        SceneVisitsStep(env, filename, key, data, s0, js, i);
        VisitScene(filename, key, data, js[i]);
      }
      WholePrefix(js);
    }

    /** The `for (let j in nodeData)` loop of the prefab handler. */
    method PrefabNodes(name: Json, filename: string, key: string, data: Json)
      modifies this
      ensures Snapshot() == PrefabVisits(env, name, filename, key, data, old(Snapshot()), ForInKeys(old(nodeData)))
    {
      ghost var s0 := Snapshot();
      var js := ForInKeys(nodeData);
      for i := 0 to |js|
        invariant Snapshot() == PrefabVisits(env, name, filename, key, data, s0, js[..i])
      {
        PrefabVisitsStep(env, name, filename, key, data, s0, js, i);
        VisitPrefab(name, filename, key, data, js[i]);
      }
      WholePrefix(js);
    }

    /** The `for (let j in nodeData)` loop of the audio-clip handler. */
    method AudioNodes(name: string, key: string, item: Json)
      modifies this
      ensures Snapshot() == AudioVisits(env, name, key, item, old(Snapshot()), ForInKeys(old(nodeData)))
    {
      ghost var s0 := Snapshot();
      var js := ForInKeys(nodeData);
      for i := 0 to |js|
        invariant Snapshot() == AudioVisits(env, name, key, item, s0, js[..i])
      {
        AudioVisitsStep(env, name, key, item, s0, js, i);
        VisitAudio(name, key, item, js[i]);
      }
      WholePrefix(js);
    }

    /** The `for (let j in nodeData)` loop of the animation-clip handler. */
    method AnimationNodes(filename: string, key: string, item: Json)
      modifies this
      ensures Snapshot() == AnimationVisits(env, filename, key, item, old(Snapshot()), ForInKeys(old(nodeData)))
    {
      ghost var s0 := Snapshot();
      var js := ForInKeys(nodeData);
      for i := 0 to |js|
        invariant Snapshot() == AnimationVisits(env, filename, key, item, s0, js[..i])
      {
        AnimationVisitsStep(env, filename, key, item, s0, js, i);
        VisitAnimation(filename, key, item, js[i]);
      }
      WholePrefix(js);
    }

    /** The `for (let j in nodeData)` loop of the font handler. */
    method FontNodes(key: string, item: Json)
      modifies this
      ensures Snapshot() == FontVisits(env, key, item, old(Snapshot()), ForInKeys(old(nodeData)))
    {
      ghost var s0 := Snapshot();
      var js := ForInKeys(nodeData);
      for i := 0 to |js|
        invariant Snapshot() == FontVisits(env, key, item, s0, js[..i])
      {
        FontVisitsStep(env, key, item, s0, js, i);
        VisitFont(key, item, js[i]);
      }
      WholePrefix(js);
    }

    /** The `for (let j in nodeData)` loop of the native dragon-bones handler. */
    method BonesNativeNodes(name: string, dir: string, filename: string, key: string, item: Json)
      modifies this
      ensures Snapshot() == BonesNativeVisits(env, name, dir, filename, key, item, old(Snapshot()), ForInKeys(old(nodeData)))
    {
      ghost var s0 := Snapshot();
      var js := ForInKeys(nodeData);
      for i := 0 to |js|
        invariant Snapshot() == BonesNativeVisits(env, name, dir, filename, key, item, s0, js[..i])
      {
        BonesNativeVisitsStep(env, name, dir, filename, key, item, s0, js, i);
        VisitBonesNative(name, dir, filename, key, item, js[i]);
      }
      WholePrefix(js);
    }

    /** The `for (let j in nodeData)` loop of the bones JSON and bones atlas handler. */
    method BonesMetaNodes(dir: string, filename: string, key: string, item: Json)
      modifies this
      ensures Snapshot() == BonesMetaVisits(env, dir, filename, key, item, old(Snapshot()), ForInKeys(old(nodeData)))
    {
      ghost var s0 := Snapshot();
      var js := ForInKeys(nodeData);
      for i := 0 to |js|
        invariant Snapshot() == BonesMetaVisits(env, dir, filename, key, item, s0, js[..i])
      {
        BonesMetaVisitsStep(env, dir, filename, key, item, s0, js, i);
        VisitBonesMeta(dir, filename, key, item, js[i]);
      }
      WholePrefix(js);
    }

    /** The `for (let j in nodeData)` loop of the particle handler. */
    method ParticleNodes(name: Json, filename: string, key: string, item: Json)
      modifies this
      ensures Snapshot() == ParticleVisits(env, name, filename, key, item, old(Snapshot()), ForInKeys(old(nodeData)))
    {
      ghost var s0 := Snapshot();
      var js := ForInKeys(nodeData);
      for i := 0 to |js|
        invariant Snapshot() == ParticleVisits(env, name, filename, key, item, s0, js[..i])
      {
        ParticleVisitsStep(env, name, filename, key, item, s0, js, i);
        VisitParticle(name, filename, key, item, js[i]);
      }
      WholePrefix(js);
    }

    /** The `for (let j in nodeData)` loop of the sprite-atlas handler. */
    method AtlasNodes(name: Json, key: string, item: Json)
      modifies this
      ensures Snapshot() == AtlasVisits(env, name, key, item, old(Snapshot()), ForInKeys(old(nodeData)))
    {
      ghost var s0 := Snapshot();
      var js := ForInKeys(nodeData);
      for i := 0 to |js|
        invariant Snapshot() == AtlasVisits(env, name, key, item, s0, js[..i])
      {
        AtlasVisitsStep(env, name, key, item, s0, js, i);
        VisitAtlas(name, key, item, js[i]);
      }
      WholePrefix(js);
    }

    /** The `for (let j in nodeData)` loop of the sprite-frame handler. */
    method FrameNodes(texture: Json, key: string, item: Json)
      modifies this
      ensures Snapshot() == FrameVisits(env, texture, key, item, old(Snapshot()), ForInKeys(old(nodeData)))
    {
      ghost var s0 := Snapshot();
      var js := ForInKeys(nodeData);
      for i := 0 to |js|
        invariant Snapshot() == FrameVisits(env, texture, key, item, s0, js[..i])
      {
        FrameVisitsStep(env, texture, key, item, s0, js, i);
        VisitFrame(texture, key, item, js[i]);
      }
      WholePrefix(js);
    }

    method VisitScene(filename: string, key: string, data: Json, j: string)
      modifies this
      ensures Snapshot() == ToolsSpec.VisitScene(env, filename, key, data, old(Snapshot()), j)
    {
      var node := Get(nodeData, j);
      if IsArray(node) && LooseEquals(Get2(node, "0", "_name"), Get2(data, "0", "_name")) {
        WriteFile("Scene", filename + ".meta", AssetMeta(Uuid(env, j, key)));
      }
    }

    method VisitPrefab(name: Json, filename: string, key: string, data: Json, j: string)
      modifies this
      ensures Snapshot() == ToolsSpec.VisitPrefab(env, name, filename, key, data, old(Snapshot()), j)
    {
      PrefabArrayMeta(filename, key, data, j);
      PrefabNodeMeta(name, filename, key, j);
    }

    method PrefabArrayMeta(filename: string, key: string, data: Json, j: string)
      modifies this
      ensures Snapshot() == ToolsSpec.PrefabArrayMeta(env, filename, key, data, old(Snapshot()), j)
    {
      var node := Get(nodeData, j);
      if IsArray(node) && LooseEquals(Get2(node, "0", "_name"), Get2(data, "0", "_name")) {
        WriteFile("Prefab", filename + ".meta", AssetMeta(Uuid(env, j, key)));
      }
    }

    method PrefabNodeMeta(name: Json, filename: string, key: string, j: string)
      modifies this
      ensures Snapshot() == ToolsSpec.PrefabNodeMeta(env, name, filename, key, old(Snapshot()), j)
    {
      var node := Get(nodeData, j);
      if LooseEquals(Get(node, "__type__"), Str("cc.Prefab")) && LooseEquals(Get(node, "_name"), name) {
        var uuid := Uuid(env, j, key);
        if |key| > 9 {
          uuid := Str(key);
        }
        WriteFile("Prefab", filename + ".meta", AssetMeta(uuid));
      }
    }

    method VisitAudio(name: string, key: string, item: Json, j: string)
      modifies this
      ensures Snapshot() == ToolsSpec.VisitAudio(env, name, key, item, old(Snapshot()), j)
    {
      if NameMatch(Get(nodeData, j), item) {
        var uuid := Uuid(env, j, key);
        if uuid.Str? && Has(fileMap, uuid.s) {
          MoveFile(uuid.s, "Texture", "Audio", name, false);
        }
        WriteFile("Audio", name + ".meta", AssetMeta(uuid));
      }
    }

    method VisitAnimation(filename: string, key: string, item: Json, j: string)
      modifies this
      ensures Snapshot() == ToolsSpec.VisitAnimation(env, filename, key, item, old(Snapshot()), j)
    {
      if NameMatch(Get(nodeData, j), item) {
        animationProps := SetField(animationProps, filename, Uuid(env, j, key));
        WriteFile("Animation", filename + ".meta", AssetMeta(Uuid(env, j, key)));
      }
    }

    method VisitFont(key: string, item: Json, j: string)
      modifies this
      ensures Snapshot() == ToolsSpec.VisitFont(env, key, item, old(Snapshot()), j)
    {
      if NameMatch(Get(nodeData, j), item) {
        ttfMap := Put(ttfMap, Uuid(env, j, key), item);
      }
    }

    method VisitBonesNative(name: string, dir: string, filename: string, key: string, item: Json, j: string)
      modifies this
      ensures Snapshot() == ToolsSpec.VisitBonesNative(env, name, dir, filename, key, item, old(Snapshot()), j)
    {
      if NameMatch(Get(nodeData, j), item) {
        var uuid := Uuid(env, j, key);
        WriteFile(dir, filename + ".meta", PlainMeta("1.0.1", uuid));
        if uuid.Str? && Has(fileMap, uuid.s) {
          MoveFile(uuid.s, "Texture", dir, name, true);
        }
      }
    }

    method VisitBonesMeta(dir: string, filename: string, key: string, item: Json, j: string)
      modifies this
      ensures Snapshot() == ToolsSpec.VisitBonesMeta(env, dir, filename, key, item, old(Snapshot()), j)
    {
      if NameMatch(Get(nodeData, j), item) {
        WriteFile(dir, filename + ".meta", PlainMeta("1.0.1", Uuid(env, j, key)));
      }
    }

    method VisitParticle(name: Json, filename: string, key: string, item: Json, j: string)
      modifies this
      ensures Snapshot() == ToolsSpec.VisitParticle(env, name, filename, key, item, old(Snapshot()), j)
    {
      if LooseEquals(Get(Get(nodeData, j), "_name"), name) {
        var texture := Uuid(env, j, key);
        spriteAtlasMap := Put(spriteAtlasMap, texture, item);
        WriteFile("Picture", filename + ".meta", PlainMeta("1.0.1", texture));
      }
    }

    method VisitAtlas(name: Json, key: string, item: Json, j: string)
      modifies this
      ensures Snapshot() == ToolsSpec.VisitAtlas(env, name, key, item, old(Snapshot()), j)
    {
      if LooseEquals(Get(Get(nodeData, j), "_name"), name) {
        spriteAtlasMap := Put(spriteAtlasMap, Uuid(env, j, key), item);
      }
    }

    method VisitFrame(texture: Json, key: string, item: Json, j: string)
      modifies this
      ensures Snapshot() == ToolsSpec.VisitFrame(env, texture, key, item, old(Snapshot()), j)
    {
      if FrameMatch(Get(nodeData, j), item) {
        var uuid := Uuid(env, j, key);
        spriteFramesMap := Put(spriteFramesMap, uuid, item);
        pictureMap := Group(pictureMap, texture, uuid, item);
      }
    }

    // -------------------------------------------------------------------
    // The second pass

    /** `convertToFile()`. */
    method ConvertToFile()
      requires Valid()
      modifies this
      ensures Snapshot() == ToolsSpec.ConvertToFile(env, old(Snapshot()))
      ensures Valid()
    {
      count := 0;
      var temp := AtlasPass();
      PicturePass(temp);
      OrphanPass();
      FontPass();
      CopyFile();
    }

    /** The `spriteAtlasMap.forEach` loop: particle copies, and the table of atlas textures it returns. */
    method AtlasPass() returns (temp: OMap<Json, AtlasRef>)
      modifies this
      ensures temp == AtlasTable(old(spriteFramesMap), old(spriteAtlasMap))
      ensures Snapshot() == ParticleCopies(old(Snapshot()), old(spriteAtlasMap))
    {
      temp := AtlasEntries(spriteAtlasMap);
    }

    /** The same loop over the entries `es`, in order. */
    method AtlasEntries(es: OMap<Json, Json>) returns (temp: OMap<Json, AtlasRef>)
      modifies this
      ensures temp == AtlasTable(old(spriteFramesMap), es)
      ensures Snapshot() == ParticleCopies(old(Snapshot()), es)
    {
      ghost var s0 := Snapshot();
      temp := [];
      for i := 0 to |es|
        invariant Snapshot() == ParticleCopies(s0, es[..i])
        invariant temp == AtlasTable(s0.spriteFramesMap, es[..i])
      {
        AtlasPassStep(s0, es, i);
        ParticleCopy(es[i]);
        var texture, atlas := es[i].key, es[i].value;
        temp := AtlasFrames(spriteFramesMap, temp, texture, atlas, ForInKeys(Get(atlas, "_spriteFrames")));
      }
      WholePrefix(es);
    }

    /** A particle asset's texture, when indexed, is copied to `Picture` under the asset's name. */
    method ParticleCopy(e: Entry<Json, Json>)
      modifies this
      ensures Snapshot() == ToolsSpec.ParticleCopy(old(Snapshot()), e)
    {
      var texture, atlas := e.key, e.value;
      if LooseEquals(Get(atlas, "__type__"), Str("cc.ParticleAsset")) && texture.Str? && Has(fileMap, texture.s) {
        var from := Find(fileMap, texture.s).value;
        var filename := Text(Get(atlas, "_name"));
        var ext := ExtName(from);
        var _ := QueueCopy(from, "Picture", "Picture", filename + ext, filename, ext);
      }
    }

    /** The `for (let key in spriteAtla['_spriteFrames'])` loop over the keys `ks`, in order. */
    method AtlasFrames(frames: OMap<Json, Json>, temp0: OMap<Json, AtlasRef>, texture: Json, atlas: Json, ks: seq<string>) returns (temp: OMap<Json, AtlasRef>)
      ensures temp == AtlasRefs(frames, temp0, texture, atlas, ks)
    {
      var sprites := Get(atlas, "_spriteFrames");
      temp := temp0;
      for i := 0 to |ks|
        invariant temp == AtlasRefs(frames, temp0, texture, atlas, ks[..i])
      {
        AtlasRefsStep(frames, temp0, texture, atlas, ks, i);
        var u := Get2(sprites, ks[i], "__uuid__");
        if Has(frames, u) {
          var sprite := Find(frames, u).value;
          temp := Put(temp, DecodeValue(Get2(sprite, "content", "texture")), AtlasRef(texture, Get(atlas, "_name")));
        }
      }
      WholePrefix(ks);
    }

    /** The `pictureMap.forEach` loop. */
    method PicturePass(temp: OMap<Json, AtlasRef>)
      modifies this
      ensures Snapshot() == ToolsSpec.PicturePass(env, old(Snapshot()), temp, old(pictureMap))
    {
      PictureGroups(temp, pictureMap);
    }

    /** The same loop over the groups `es`, in order. */
    method PictureGroups(temp: OMap<Json, AtlasRef>, es: OMap<Json, OMap<Json, Json>>)
      modifies this
      ensures Snapshot() == ToolsSpec.PicturePass(env, old(Snapshot()), temp, es)
    {
      ghost var s0 := Snapshot();
      for i := 0 to |es|
        invariant Snapshot() == ToolsSpec.PicturePass(env, s0, temp, es[..i])
      {
        PicturePassStep(env, s0, temp, es, i);
        PictureGroup(temp, es[i]);
      }
      WholePrefix(es);
    }

    /** One group of `pictureMap`. */
    method PictureGroup(temp: OMap<Json, AtlasRef>, e: Entry<Json, OMap<Json, Json>>)
      modifies this
      ensures Snapshot() == ToolsSpec.PictureGroup(env, old(Snapshot()), temp, e)
    {
      var texture := DecodeValue(e.key);
      if texture.Str? && Has(fileMap, texture.s) {
        var from := Find(fileMap, texture.s).value;
        if |e.value| > 1 {
          AtlasGroup(temp, texture, from, e.value);
        }
        if |e.value| == 1 {
          SingleGroup(from, e.value[0]);
        }
        fileMap := Remove(fileMap, texture.s);
      }
    }

    /** A group of several frames: its members, the copy of the texture, the sprite sheet. */
    method AtlasGroup(temp: OMap<Json, AtlasRef>, texture: Json, from: string, g: OMap<Json, Json>)
      requires |g| > 1
      modifies this
      ensures Snapshot() == ToolsSpec.AtlasGroup(env, old(Snapshot()), temp, texture, from, g)
    {
      var d0 := draws;
      draws := draws + |g|;
      ghost var sd := Snapshot();
      assert sd == Drawn(old(Snapshot()), |g|);
      var subs, filename := DrawSprites(temp, texture, from, g, d0);
      assert filename == AtlasName(temp, texture, from);
      AtlasSheet(subs, filename, texture, from);
      assert Snapshot() == ToolsSpec.AtlasSheet(env, sd, subs, filename, texture, from);
    }

    /** The copy of the texture and the sprite sheet of one group. */
    method AtlasSheet(subs: seq<AtlasSprite>, filename: Json, texture: Json, from: string)
      modifies this
      ensures Snapshot() == ToolsSpec.AtlasSheet(env, old(Snapshot()), subs, filename, texture, from)
    {
      var size := env.sizeOf(from);
      var ext := ExtName(from);
      var stem := BeforeFirst(Text(filename), '.');
      var writePath := QueueCopy(from, "Picture", "Picture", stem + ext, stem, ext);
      ghost var s1 := Snapshot();
      ConvertToSpriteAtlaFile(subs, writePath, texture, size.width, size.height);
      assert Snapshot() == SpriteAtlaFile(env, s1, subs, writePath, texture, size.width, size.height);
    }

    /**
     * The `value.forEach` loop over the members of a group: a random id per
     * member (draws `d0`, `d0 + 1`, ...), replaced by the recorded atlas
     * texture and name when there is one.
     */
    method DrawSprites(temp: OMap<Json, AtlasRef>, texture: Json, from: string, g: OMap<Json, Json>, d0: nat) returns (subs: seq<AtlasSprite>, filename: Json)
      ensures subs == AtlasSprites(env, d0, temp, texture, g)
      ensures filename == if |g| > 0 && Has(temp, texture) then Find(temp, texture).value.atlas else Str(BeforeFirst(Basename(from), '.'))
    {
      subs := [];
      filename := Str(BeforeFirst(Basename(from), '.'));
      for i := 0 to |g|
        invariant subs == AtlasSprites(env, d0, temp, texture, g[..i])
        invariant filename == if i > 0 && Has(temp, texture) then Find(temp, texture).value.atlas else Str(BeforeFirst(Basename(from), '.'))
      {
        AtlasSpritesStep(env, d0, temp, texture, g, i);
        var uuid := DecodeValue(Str(env.random(d0 + i, 22)));
        if Has(temp, texture) {
          uuid := Find(temp, texture).value.texture;
          filename := Find(temp, texture).value.atlas;
        }
        subs := subs + [AtlasSprite(g[i].value, uuid, g[i].key)];
      }
      WholePrefix(g);
    }

    /** A group of one frame: its picture, unless its name starts with `default_`. */
    method SingleGroup(from: string, e: Entry<Json, Json>)
      modifies this
      ensures Snapshot() == ToolsSpec.SingleGroup(env, old(Snapshot()), from, e)
    {
      var name := Text(Get2(e.value, "content", "name"));
      if BeforeFirst(name, '_') != "default" {
        var ext := ExtName(from);
        var writePath := QueueCopy(from, "Picture", "Picture", name + ext, BeforeFirst(name, '.'), ext);
        var size := env.sizeOf(from);
        ConvertToPictureFile(e.value, e.key, writePath, size.width, size.height, "");
      }
    }

    /** `convertToSpriteAtlaFile(subs, filename, texture, w, h)`. */
    method ConvertToSpriteAtlaFile(subs: seq<AtlasSprite>, filename: string, texture: Json, width: int, height: int)
      modifies this
      ensures Snapshot() == SpriteAtlaFile(env, old(Snapshot()), subs, filename, texture, width, height)
    {
      var uuid := RandomUuid();
      var sh := BuildSheet(texture, subs);
      plan := plan + SheetWrites(filename, texture, width, height, uuid, sh, subs == []);
    }

    /** The `subs.forEach` loop of `convertToSpriteAtlaFile`: sprite metas, atlas uuid and frames. */
    method BuildSheet(texture: Json, subs: seq<AtlasSprite>) returns (sh: Sheet)
      ensures sh == SheetOf(texture, subs)
    {
      var subMetas: seq<Field> := [];
      var altas: Option<Json> := None;
      var frames: seq<Field> := [];
      for i := 0 to |subs|
        invariant Sheet(subMetas, altas, frames) == SheetOf(texture, subs[..i])
      {
        SheetStep(texture, subs, i);
        var content := Get(subs[i].sprite, "content");
        var n := SpriteName(subMetas, subs[i].sprite);
        subMetas := SetField(subMetas, n, SpriteSubMeta(subs[i].uuid, texture, FrameOf(content)));
        altas := Some(subs[i].altas);
        frames := SetField(frames, n, FrameEntry(content));
      }
      WholePrefix(subs);
      sh := Sheet(subMetas, altas, frames);
    }

    /** The `fileMap.forEach` loop over the images no group took. */
    method OrphanPass()
      modifies this
      ensures Snapshot() == Orphans(env, old(Snapshot()), old(fileMap))
    {
      OrphanEntries(fileMap);
    }

    /** The same loop over the index entries `es`, in order. */
    method OrphanEntries(es: OMap<string, string>)
      modifies this
      ensures Snapshot() == Orphans(env, old(Snapshot()), es)
    {
      ghost var s0 := Snapshot();
      for i := 0 to |es|
        invariant Snapshot() == Orphans(env, s0, es[..i])
      {
        OrphansStep(env, s0, es, i);
        Orphan(es[i]);
      }
      WholePrefix(es);
    }

    /** One index entry left after the groups: an image becomes a picture of its own. */
    method Orphan(e: Entry<string, string>)
      modifies this
      ensures Snapshot() == ToolsSpec.Orphan(env, old(Snapshot()), e)
    {
      var name, path := e.key, e.value;
      var ext := ExtName(path);
      if ext == ".png" || ext == ".jpg" {
        var writePath := QueueCopy(path, "Picture", "Picture", name + ext, BeforeFirst(name, '.'), ext);
        AddOrphanPicture(name, path, writePath);
      }
    }

    /** The picture meta of an image kept under its own uuid, with a random sprite name. */
    method AddOrphanPicture(name: string, from: string, path: string)
      modifies this
      ensures Snapshot() == OrphanPicture(env, old(Snapshot()), name, from, path)
    {
      var size := env.sizeOf(from);
      var sprite := PlaceholderSprite(Str(env.random(draws, 4)), Str(name));
      draws := draws + 1;
      ConvertToPictureFile(sprite, Str(name), path, size.width, size.height, "");
    }

    /** The `ttfMap.forEach` loop: `.fnt` texts and font metas. */
    method FontPass()
      modifies this
      ensures Snapshot() == FontFiles(old(Snapshot()), old(ttfMap))
    {
      FontEntries(ttfMap);
    }

    /** The same loop over the fonts `es`, in order. */
    method FontEntries(es: OMap<Json, Json>)
      modifies this
      ensures Snapshot() == FontFiles(old(Snapshot()), es)
    {
      ghost var s0 := Snapshot();
      for i := 0 to |es|
        invariant Snapshot() == FontFiles(s0, es[..i])
      {
        FontFilesStep(s0, es, i);
        FontEntry(es[i]);
      }
      WholePrefix(es);
    }

    /** One round of that loop: the font `e.value` under the key `e.key`. */
    method FontEntry(e: Entry<Json, Json>)
      modifies this
      ensures Snapshot() == FontFile(old(Snapshot()), e)
    {
      var font := e.value;
      var tag := Get(font, "__type__");
      if (LooseEquals(tag, Str("cc.BitmapFont")) || LooseEquals(tag, Str("cc.LabelAtlas"))) && Truthy(Get(font, "_name")) {
        var config := Get(font, "_fntConfig");
        var records, n := RenderCharRecords(Get(config, "fontDefDictionary"));
        var text := FntLayout(FntHeaderLead(font, config), n, records);
        var fnt := Plus(Get(font, "_name"), Str(".fnt"));
        plan := plan + [WriteText("./project/assets/Fonts/" + fnt, text)];
        var uuid := DecodeValue(Get2(font, "spriteFrame", "__uuid__"));
        if Has(spriteFramesMap, uuid) {
          var frame := Find(spriteFramesMap, uuid).value;
          WriteFile("Fonts", fnt + ".meta", FontMeta(e.key, DecodeValue(Get2(frame, "content", "texture"))));
        }
      }
    }

    /** `copyFile()`: one copy per queued pair. */
    method CopyFile()
      requires Valid()
      modifies this
      ensures Snapshot() == ToolsSpec.CopyFile(old(Snapshot()))
    {
      CopyPairs(cacheReadList, cacheWriteList);
    }

    /** The same loop over the pairs of `sources` and `targets`. */
    method CopyPairs(sources: seq<string>, targets: seq<string>)
      requires |sources| == |targets|
      modifies this
      ensures Snapshot() == old(Snapshot()).(plan := old(plan) + CopyPlan(sources, targets))
    {
      var i := 0;
      while i < |sources|
        invariant i <= |sources|
        invariant Snapshot() == old(Snapshot()).(plan := old(plan) + CopyPlan(sources[..i], targets[..i]))
      {
        plan := plan + [Copy(sources[i], targets[i])];
        i := i + 1;
      }
      assert sources[..i] == sources && targets[..i] == targets;
    }

    /** `convertToMetaFile(files)`: one meta per named asset, by extension. */
    method ConvertToMetaFile(files: Json)
      modifies this
      ensures Snapshot() == old(Snapshot()).(plan := old(plan) + MetaOutputs(files, ForInKeys(files)))
    {
      MetaFiles(files, ForInKeys(files));
    }

    /** The loop over the asset names of `convertToMetaFile`. */
    method MetaFiles(files: Json, names: seq<string>)
      modifies this
      ensures Snapshot() == old(Snapshot()).(plan := old(plan) + MetaOutputs(files, names))
    {
      ghost var p0 := plan;
      for i := 0 to |names|
        invariant Snapshot() == old(Snapshot()).(plan := plan)
        invariant plan == p0 + MetaOutputs(files, names[..i])
      {
        MetaOutputsStep(files, names, i);
        AppendLast(plan, p0, MetaOutputs(files, names[..i]), MetaFileOutput(names[i], Get(files, names[i])));
        AppendMeta(files, names[i]);
      }
      WholePrefix(names);
    }

    /** One meta appended to the plan. */
    method AppendMeta(files: Json, name: string)
      modifies this
      ensures Snapshot() == old(Snapshot()).(plan := old(plan) + [MetaFileOutput(name, Get(files, name))])
    {
      var o := MetaFile(files, name);
      plan := plan + [o];
    }

    /** The meta of one asset: its directory by extension, the audio record for `.mp3`. */
    method MetaFile(files: Json, name: string) returns (o: Output)
      ensures o == MetaFileOutput(name, Get(files, name))
    {
      var ext := ExtName(name);
      var dir := "";
      if ext == ".fire" {
        dir := "Scene";
      }
      if ext == ".prefab" {
        dir := "Prefab";
      }
      if ext == ".ts" {
        dir := "Scripts";
      }
      if ext == ".anim" {
        dir := "Animation";
      }
      if ext == ".mp3" {
        dir := "Audio";
        o := Write(dir, name + ".meta", AudioMeta(Get(files, name)));
      } else {
        o := Write(dir, name + ".meta", AssetMeta(Get(files, name)));
      }
    }
  }
}
