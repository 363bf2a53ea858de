/**
 * The refactored resource processor of `src/core/resourceProcessor.js` as
 * an object whose fields its methods update in place. Each method is proved
 * to take the fields to the state the matching function of `ResourceSpec`
 * describes. Those functions only grow the two copy lists together
 * (`ResourceSpec.Grows`), so the entry points `ProcessJsonFiles`,
 * `ProcessData` and `CopyFiles` keep them paired (`Valid`).
 */
module ResourceProcessor {
  import opened JsValue
  import opened NodePath
  import opened UuidUtils
  import opened OrderedMaps
  import opened ToolsRecords
  import opened ResourceSpec

  class Processor {
    /** The settings, the output directory and the random texts the processor reads. */
    const setup: Setup

    var fileList: seq<string>
    var fileMap: OMap<string, string>
    var cacheReadList: seq<string>
    var cacheWriteList: seq<string>
    var nodeData: Json
    var sceneAssets: seq<Json>
    var spriteFrames: seq<Field>
    var audio: seq<Json>
    var animation: seq<Json>
    var plan: seq<Output>
    var draws: nat

    /** The fields as one value. */
    function Snapshot(): State
      reads this
    {
      State(fileList, fileMap, cacheReadList, cacheWriteList, nodeData, sceneAssets, spriteFrames,
            audio, animation, plan, draws)
    }

    /** The copy queue holds pairs. */
    predicate Valid()
      reads this
    {
      Paired(Snapshot())
    }

    /** The module object as it starts: every list and record empty, nothing written or drawn. */
    constructor (setup: Setup)
      ensures this.setup == setup
      ensures Snapshot() == State([], [], [], [], EmptyObject, [], [], [], [], [], 0) && Valid()
    {
      this.setup := setup;
      fileList := [];
      fileMap := [];
      cacheReadList := [];
      cacheWriteList := [];
      nodeData := EmptyObject;
      sceneAssets := [];
      spriteFrames := [];
      audio := [];
      animation := [];
      plan := [];
      draws := 0;
    }

    /** `resetState()`: every list and record emptied and a fresh index; what was written stays written. */
    method ResetState()
      modifies this
      ensures fileList == [] && fileMap == [] && cacheReadList == [] && cacheWriteList == []
      ensures nodeData == EmptyObject && sceneAssets == [] && spriteFrames == [] && audio == [] && animation == []
      ensures plan == old(plan) && draws == old(draws)
      ensures Valid()
    {
      fileList := [];
      fileMap := [];
      cacheReadList := [];
      cacheWriteList := [];
      nodeData := EmptyObject;
      sceneAssets := [];
      spriteFrames := [];
      audio := [];
      animation := [];
    }

    /** `fileManager.writeFile(dir, file, data)`. */
    method WriteFile(dir: string, file: string, data: Json)
      modifies this
      ensures Snapshot() == WriteOut(old(Snapshot()), dir, file, data)
    {
      plan := plan + [Write(dir, file, data)];
    }

    // -------------------------------------------------------------------
    // Reading the resource directory

    /** `readFiles` meeting a file: it joins the list and the index, under its key. */
    method IndexFile(path: string)
      modifies this
      ensures Snapshot() == ResourceSpec.IndexFile(old(Snapshot()), path)
    {
      var r := ResourceSpec.IndexFile(Snapshot(), path);
      fileList := r.fileList;
      fileMap := r.fileMap;
    }

    /** `processJsonFiles()`: the document loop over `fileList`; `docs` reads and parses a file. */
    method ProcessJsonFiles(docs: string -> Option<Json>)
      modifies this
      ensures Snapshot() == JsonFiles(setup, old(Snapshot()), old(fileList), docs)
      ensures old(Valid()) ==> Valid()
    {
      JsonFileLoop(fileList, docs);
      if old(Valid()) {
        GrowsPaired(old(Snapshot()), Snapshot());
      }
    }

    /** The same loop over the paths `files`, in order. */
    method JsonFileLoop(files: seq<string>, docs: string -> Option<Json>)
      modifies this
      ensures Snapshot() == JsonFiles(setup, old(Snapshot()), files, docs)
    {
      ghost var s0 := Snapshot();
      for i := 0 to |files|
        invariant Snapshot() == JsonFiles(setup, s0, files[..i], docs)
      {
        JsonFilesStep(setup, s0, files, docs, i);
        var path := files[i];
        if ExtName(path) == ".json" {
          var doc := docs(path);
          if doc.Some? {
            var key := BeforeFirst(Basename(path), '.');
            nodeData := doc.value;
            ProcessData(key, doc.value);
          }
        }
      }
      WholePrefix(files);
    }

    // -------------------------------------------------------------------
    // The dispatch

    /** `processData(key, data)`. */
    method ProcessData(key: string, data: Json)
      modifies this
      ensures Snapshot() == ResourceSpec.ProcessData(setup, key, old(Snapshot()), data)
      ensures old(Valid()) ==> Valid()
    {
      if !Truthy(setup.settings) || IsEmptyObject(setup.settings) {
        return;
      }
      WriteProcessedData(data, key);
      if old(Valid()) {
        GrowsPaired(old(Snapshot()), Snapshot());
      }
    }

    /** `writeProcessedData(data, key)`. */
    method WriteProcessedData(data: Json, key: string)
      modifies this
      ensures Snapshot() == WriteProcessed(setup, key, old(Snapshot()), data)
      decreases Depth(data)
    {
      if IsObjectType(data) && Truthy(Get(data, "__type__")) {
        ProcessTypeData(data, key);
        return;
      }
      var ks := ForInKeys(data);
      ghost var s0 := Snapshot();
      for i := 0 to |ks|
        invariant Snapshot() == Members(setup, key, s0, data, ks[..i])
      {
        MembersStep(setup, key, s0, data, ks, i);
        var item := Get(data, ks[i]);
        var tag := Get(item, "__type__");
        if IsArray(item) {
          GetDepth(data, ks[i]);
          WriteProcessedData(item, key);
        } else if Truthy(tag) {
          ProcessTypeObject(tag, data, ks[i], key);
        }
      }
      WholePrefix(ks);
    }

    /** `processTypeData(data, key)`. */
    method ProcessTypeData(data: Json, key: string)
      modifies this
      ensures Snapshot() == TypeData(setup, key, old(Snapshot()), data)
    {
      var tag := Get(data, "__type__");
      if Truthy(tag) {
        if StrictEquals(tag, Str("cc.AudioClip")) {
          ProcessAudioClip(data, key);
        } else if StrictEquals(tag, Str("cc.TextAsset")) {
          ProcessTextAsset(data, key);
        } else if StrictEquals(tag, Str("cc.AnimationClip")) {
          ProcessAnimationClip(data, key);
        }
      }
    }

    /** `processTypeObject(type, data, index, key)`. */
    method ProcessTypeObject(tag: Json, data: Json, index: string, key: string)
      modifies this
      ensures Snapshot() == TypeObject(setup, key, old(Snapshot()), tag, data)
    {
      if StrictEquals(tag, Str("cc.SceneAsset")) {
        ProcessSceneAsset(data, index, key);
      } else if StrictEquals(tag, Str("cc.SpriteFrame")) {
        ProcessSpriteFrame(data, index, key);
      }
    }

    // -------------------------------------------------------------------
    // The handlers

    /** `processAudioClip(data, key)`. */
    method ProcessAudioClip(data: Json, key: string)
      modifies this
      ensures Snapshot() == AudioClip(setup, key, old(Snapshot()), data)
    {
      var name := Plus(Get(data, "_name"), Get(data, "_native"));
      if Has(fileMap, key) {
        QueueAudio(key, name);
      }
      WriteFile("Audio", name + ".meta", AssetMeta(Str(key)));
      audio := audio + [data];
    }

    /** The copy of the indexed audio file into `Audio`, and its key dropped from `fileMap`. */
    method QueueAudio(key: string, name: string)
      requires Has(fileMap, key)
      modifies this
      ensures Snapshot() == AudioCopy(setup, old(Snapshot()), key, name)
    {
      var currPath := Find(fileMap, key).value;
      cacheReadList := cacheReadList + [currPath];
      cacheWriteList := cacheWriteList + [AudioTarget(setup.output, name)];
      fileMap := Remove(fileMap, key);
    }

    /** `processTextAsset(data, key)`. */
    method ProcessTextAsset(data: Json, key: string)
      modifies this
      ensures Snapshot() == TextAsset(key, old(Snapshot()), data)
    {
      var name := Plus(Get(data, "_name"), Str(".json"));
      WriteFile("resource", name, data);
      WriteFile("resource", name + ".meta", PlainMeta("1.2.7", Str(key)));
    }

    /** `processAnimationClip(data, key)`. */
    method ProcessAnimationClip(data: Json, key: string)
      modifies this
      ensures Snapshot() == AnimationClip(key, old(Snapshot()), data)
    {
      var filename := Plus(Get(data, "_name"), Str(".anim"));
      WriteFile("Animation", filename, data);
      animation := animation + [data];
      WriteFile("Animation", filename + ".meta", AssetMeta(Str(key)));
    }

    /** `processSceneAsset(data, index, key)`. */
    method ProcessSceneAsset(data: Json, index: string, key: string)
      modifies this
      ensures Snapshot() == SceneAsset(setup, key, old(Snapshot()), data)
    {
      var name := Get(Get(data, "0"), "_name");
      var filename := Plus(name, Str(".fire"));
      sceneAssets := sceneAssets + [data];
      WriteFile("Scene", filename, data);
      SceneMetaLoop(filename, name, key, ForInKeys(nodeData));
    }

    /** The `for (let j in this.nodeData)` loop of `processSceneAsset` over the keys `js`, in order. */
    method SceneMetaLoop(filename: string, name: Json, key: string, js: seq<string>)
      modifies this
      ensures Snapshot() == SceneMetas(setup, key, old(Snapshot()), filename, name, js)
    {
      ghost var s0 := Snapshot();
      for i := 0 to |js|
        invariant Snapshot() == SceneMetas(setup, key, s0, filename, name, js[..i])
      {
        SceneMetasStep(setup, key, s0, filename, name, js, i);
        var j := js[i];
        if IsArray(Get(nodeData, j)) && LooseEquals(Get(Get(Get(nodeData, j), "0"), "_name"), name) {
          var library := CreateLibrary(j, key);
          WriteFile("Scene", filename + ".meta", AssetMeta(DecodeValue(library)));
        }
      }
      WholePrefix(js);
    }

    /** `processSpriteFrame(data, index, key)`. */
    method ProcessSpriteFrame(data: Json, index: string, key: string)
      modifies this
      ensures Snapshot() == SpriteFrame(key, old(Snapshot()), data)
    {
      spriteFrames := SetField(spriteFrames, key, data);
    }

    /** `createLibrary(index, key)`: the known uuid of `key`, or `generateUuid()`. */
    method CreateLibrary(index: string, key: string) returns (r: Json)
      modifies this
      ensures r == Library(setup, old(draws), key)
      ensures Snapshot() == old(Snapshot()).(draws := LibraryDraws(setup, old(draws), key))
    {
      if Truthy(setup.settings) && Truthy(Get(setup.settings, "uuids")) {
        var known := Get2(setup.settings, "uuids", key);
        if Truthy(known) {
          return known;
        }
      }
      r := Str(setup.random(draws));
      draws := draws + 1;
    }

    /** `copyFiles()`: every queued pair copied, in order. */
    method CopyFiles()
      requires Valid()
      modifies this
      ensures Snapshot() == ResourceSpec.CopyFiles(old(Snapshot())) && Valid()
    {
      CopyPairs(cacheReadList, cacheWriteList);
    }

    /** The same loop over the pairs of `sources` and `targets`. */
    method CopyPairs(sources: seq<string>, targets: seq<string>)
      requires |sources| == |targets|
      modifies this
      ensures Snapshot() == old(Snapshot()).(plan := old(plan) + CopyPlan(sources, targets))
    {
      var i := 0;
      while i < |sources|
        invariant i <= |sources|
        invariant Snapshot() == old(Snapshot()).(plan := old(plan) + CopyPlan(sources[..i], targets[..i]))
      {
        plan := plan + [Copy(sources[i], targets[i])];
        i := i + 1;
      }
      assert sources[..i] == sources && targets[..i] == targets;
    }
  }
}
