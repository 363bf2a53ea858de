# cc-reverse core, modelled in Dafny

cc-reverse rebuilds an editor project from a built Cocos Creator game. Its core
turns packed asset identifiers back into editor identifiers and metadata. This
project models that core and proves properties of the model:

- **Identifier codec** (`src/utils/uuidUtils.js`, legacy copy `_uuid.js`).
  - `decodeUuid` fills a 36-slot template from a 22-symbol text (class `UuidUtils.UuidDecoder` over an array).
  - `compress_uuid`, `decompress_uuid` and `original_uuid` parse hex pairs and use standard base64 (section 4 of RFC 4648).
  - Lemmas prove the round trips, the lengths and the documented example.
- **Asset graph resolver** (`tools.js`, class `Tools.Resolver`).
  - `process`/`writeData` dispatch on the `__type__` tag.
  - `convertToFile` is the second pass.
  - The module's maps and lists are fields, and every file write or copy is appended to an output plan.
  - Each method is proved equal to a specification function in `ToolsSpec`; lemmas about those functions state what the code promises.
- **Resource dispatcher** (`src/core/resourceProcessor.js`, class `ResourceProcessor.Processor`), built in the same style with its own specification `ResourceSpec`.
- **Plist serialisers** (`json2plist.js`, `src/core/converters.js`).
  - The XML writer is a class that records start/text/end events (`XmlEvents.XmlWriter`).
  - The tree walk is proved to emit exactly the events of `PlistTree.DictEvents`.
  - Those events are balanced, and for plain objects they read back as the object (`PlistTree.PlainRoundTrip`).
- **Config merge** (`src/config/configLoader.js`): `deepMerge` and `isObject` as pure functions, with their key-set and override laws.

JSON values are the datatype `JsValue.Json`: undefined, null, booleans, integers, strings, arrays, and objects as ordered field lists. JavaScript `Map`s are `OrderedMaps.OMap` (insertion-ordered entry lists).

## Model

| member | source | states |
|---|---|---|
| UuidUtils.LookupValue | src/utils/uuidUtils.js:9-14 | `BASE64_VALUES`: a symbol's position in the alphabet; 64 for every other character code below 123 |
| UuidUtils.HexSlot | src/utils/uuidUtils.js:17 | `HexChars[n]` joins as the digit of `n` below 16, and as nothing for the out-of-range index 16 |
| UuidUtils.PairSlotsOfSymbols | src/utils/uuidUtils.js:62-69 | two symbols write the digits of `lhs>>2`, `((lhs&3)<<2)\|(rhs>>4)` and `rhs&15`, in that order |
| UuidUtils.IndicesEnumerate | src/utils/uuidUtils.js:20-22 | `Indices` lists the 32 non-hyphen slots in increasing order, skipping 8, 13, 18 and 23 |
| UuidUtils.UuidDecoder.constructor | src/utils/uuidUtils.js:20-21 | the template starts as 36 empty slots with hyphens at 8, 13, 18 and 23 |
| UuidUtils.UuidDecoder.DecodeUuid | src/utils/uuidUtils.js:43-77 | `undefined` for a non-string, the input unchanged when its length is not 22, otherwise the joined template; the hyphens stay in place |
| UuidUtils.UuidDecoder.WritePair | src/utils/uuidUtils.js:62-69 | one loop round writes the three slots of its pair and no other slot |
| UuidUtils.TemplateFilled | src/utils/uuidUtils.js:58-72 | once slots 0 and 1 and all ten pairs are written, the template is the decoded one, so no earlier call shows through |
| UuidUtils.DecodedLength | src/utils/uuidUtils.js:58-72 | a 22-character input decodes to between 26 and 36 characters |
| UuidUtils.FilledCount | src/utils/uuidUtils.js:20-68 | exactly 26 slots always hold one character |
| UuidUtils.DecodedIdempotent | src/utils/uuidUtils.js:51-54 | decoding a decoded text changes nothing |
| UuidUtils.GoldenExample | src/utils/uuidUtils.js:38 | `fcmR3XADNLgJ1ByKhqcC5Z` decodes to `fc991dd7-0033-4b80-9d41-c8a86a702e59` |
| UuidUtils.CompressUuid | src/utils/uuidUtils.js:86-105 | the byte loop gives `Compressed`: five characters kept, then the base64 of the hex pairs of the rest plus `f`, less its last two characters |
| UuidUtils.DecompressUuid | src/utils/uuidUtils.js:114-133 | the byte loop gives `Decompressed`: two characters kept, then the full base64 of the rest plus `f` |
| UuidUtils.Padding | src/utils/uuidUtils.js:148-153 | `original_uuid` adds `==` or `=` so the length becomes a multiple of three |
| UuidUtils.RemoveHyphensOfUuid | src/utils/uuidUtils.js:90-118 | removing hyphens from a canonical identifier after position 2 or 5 leaves its digits from there on |
| UuidUtils.CompressedOfUuid | src/utils/uuidUtils.js:89-100 | a canonical identifier compresses to its first five characters and the symbols of its other 27 digits: 23 characters |
| UuidUtils.DecompressedOfUuid | src/utils/uuidUtils.js:117-128 | a canonical identifier decompresses to its first two characters and the symbols of its other 30 digits: 22 characters |
| UuidUtils.DecodeDecompressed | src/utils/uuidUtils.js:43-128 | decoding the decompressed form of a canonical identifier gives the identifier back |
| UuidUtils.DecompressDecoded | src/utils/uuidUtils.js:43-128 | decompressing the decoded form of a 22-character text gives it back when characters 2-21 are symbols |
| UuidUtils.OriginalOfCompressed | src/utils/uuidUtils.js:141-161 | `original_uuid(compress_uuid(u)) == decompress_uuid(u)` for every canonical identifier |
| Hex.PairBytesOfHex | src/utils/uuidUtils.js:93-96 | parsing hex pairs packs their nibbles; a trailing odd digit is dropped |
| Hex.UnpackPack | src/utils/uuidUtils.js:156 | the hex text of packed nibbles gives the nibbles back, up to a trailing odd one |
| Hex.PackUnpack | src/utils/uuidUtils.js:156 | packing the nibbles of bytes gives the bytes back |
| Base64.EncodeLength | src/utils/uuidUtils.js:99 | the base64 text has four characters for every three bytes or part of three |
| Base64.DecodeEncode | src/utils/uuidUtils.js:99-156 | decoding the base64 of any bytes gives them back |
| Base64.DecodeIgnoresPadding | src/utils/uuidUtils.js:148-156 | `=` characters added to a text do not change what it decodes to |
| Base64.EncodePack | src/utils/uuidUtils.js:93-99 | the base64 of packed nibbles, six at a time, is the symbols of their triples |
| Base64.EncodePackDropTwo | src/utils/uuidUtils.js:99-100 | for 6k+4 nibbles, dropping two characters of the base64 leaves the symbols of all but the last nibble |
| Base64.UntripleTriples | src/utils/uuidUtils.js:62-69 | reading two symbols as three nibbles inverts grouping three nibbles as two symbols |
| Base64.TriplesUntriple | src/utils/uuidUtils.js:62-69 | and the other way round |
| LegacyUuid.LegacyCompressUuid | _uuid.js:6-18 | the loop over every index, pushing at even ones, gives the same result as the later copy |
| LegacyUuid.LegacyDecompressUuid | _uuid.js:20-31 | likewise for `decompress_uuid` |
| LegacyUuid.ParseEvenPairs | _uuid.js:10-15 | pushing `parseInt` of the pair at each even index parses the same pairs as stepping by two |
| LegacyUuid.LegacyPadding | _uuid.js:37-42 | `==` exactly for a length of 1 modulo 3 |
| LegacyUuid.LegacyPaddingMissesTwo | _uuid.js:38-42 | a tail of length 2 gets no `=`, where the later copy adds one |
| LegacyUuid.LegacyOriginalAgrees | _uuid.js:33-47 | both copies of `original_uuid` return the same text for every input |
| LegacyUuid.LegacyOriginalOfCompressed | _uuid.js:33-47 | the legacy restore inverts compression into decompression |
| ToolsRecords.CreateLibraryFinds | tools.js:462-476 | `undefined` when the settings text is `{}` or `key` is not in `packedAssets`; otherwise `uuids[entry]` for a number entry, else the entry itself |
| ToolsRecords.ScanPackedFinds | tools.js:466-475 | the `for ... in` search returns at `key` exactly when `key` is among the keys searched |
| ToolsRecords.IsEmptyObject | tools.js:47-52 | true exactly when `for ... in` visits no key: an empty object, array or string, or any other value |
| ToolsRecords.FindInFirstHit | tools.js:90-98 | `globalFinding` stops at the first member that is an array or holds the key |
| ToolsRecords.FindInStopsAtArray | tools.js:91-93 | a nested array ends the walk even when it holds nothing, so a later match is not reached |
| ToolsRecords.Reveal | tools.js:450-460 | revealing keeps the shape and the keys of a value and leaves scalars alone |
| ToolsRecords.RevealDecodesUuid | tools.js:455-457 | a truthy `__uuid__` string becomes its decoded form |
| ToolsRecords.RevealIdempotent | tools.js:450-460 | revealing twice is revealing once |
| ToolsRecords.ExtractValidInfo | tools.js:879-895 | the two loops give `InfoAsWritten` |
| ToolsRecords.InfoKeepsEverything | tools.js:889-893 | as written, every own property of the record is copied |
| ToolsRecords.InfoKeepsPlainProperty | tools.js:889-893 | a number property with no `__uuid__` in it is kept |
| ToolsRecords.InfoIntended | tools.js:879-895 | with the intended test, the result holds exactly the truthy named properties and the properties holding a truthy `__uuid__`, with their values |
| ToolsRecords.ConvertRacing | json2plist.js:7-31 | after `readJson` and the unlink the JSON is gone and every other file is kept; the plist appears only when the asynchronous read opened the JSON first |
| ToolsRecords.ConvertRacingLosesPlist | tools.js:600-601 | when the unlink runs before the read opens the JSON, the directory holds neither the JSON nor a plist |
| ToolsRecords.ConvertThenUnlink | tools.js:600-601 | the intended order leaves the plist rendered from the JSON, removes the JSON, and keeps every other file |
| ToolsRecords.ConvertRacingOpenedFirst | tools.js:600-601 | when the read opens the JSON first, the calls as written give the intended directory |
| ToolsRecords.PictureMetaLinks | tools.js:603-647 | the picture meta has one sub-meta, named after the file before its first dot, whose `uuid` is the sprite's and whose `rawTextureUuid` is the decoded texture, the meta's own uuid |
| ToolsRecords.MetaDirectoryTable | tools.js:812-829 | `.fire` goes to Scene, `.prefab` to Prefab, `.ts` to Scripts, `.anim` to Animation, `.mp3` to Audio, any other extension to the top directory |
| ToolsRecords.MetaRecordKinds | tools.js:828-846 | only `.mp3` gets the 2.0.0 record with `downloadMode`; every other extension the 1.2.7 record |
| ToolsRecords.MetaFileOfName | tools.js:812-848 | the meta of `stem.ext` is written as `stem.ext.meta` in the directory and with the record of its extension |
| ToolsRecords.RenderCharRecords | tools.js:762-770 | the glyph loop gives one `char id=` record per `fontDefDictionary` key, in order, and counts them |
| ToolsRecords.FntCountsGlyphs | tools.js:771-772 | in the `.fnt` text, the digits after the header's `chars count=` read back as the glyph count, and the records follow them |
| ToolsSpec.PlacedFresh | tools.js:133-137 | a free name is queued as it is, and the counter stays |
| ToolsSpec.PlacedRenamed | tools.js:133-137 | a taken name is queued as `<stem>_<count><ext>`, and the counter moves on by one |
| ToolsSpec.PlacedNotRechecked | tools.js:713-716 | the renamed form is not checked again and can be a path that is already queued |
| ToolsSpec.AudioCollisionChecksTexture | tools.js:129-137 | the audio handler tests the `Texture` path but queues under `Audio`, so an audio path can be queued twice |
| ToolsSpec.CopyAs | tools.js:136-137 | one copy queues one source and one destination together |
| ToolsSpec.GroupKeeps | tools.js:431-438 | grouping never loses a member of a texture's group, nor changes its frame |
| ToolsSpec.GroupNoRepeat | tools.js:433-435 | a uuid already in its texture's group leaves the picture map unchanged |
| ToolsSpec.FrameVisitGroups | tools.js:421-439 | a matching frame is stored under its uuid in `spriteFramesMap` and in its texture's group, with no copy and no write |
| ToolsSpec.ProcessGuard | tools.js:103-106 | with the settings text `{}`, a document changes nothing |
| ToolsSpec.TypedOthers | tools.js:114-171 | a tagged document of any other kind than the three handled changes nothing |
| ToolsSpec.MemberIgnored | tools.js:174-178 | a member that is neither an array nor tagged changes nothing |
| ToolsSpec.TextAssetWrites | tools.js:142-153 | a text asset writes its document and its 1.2.7 meta under `resource`, and nothing else |
| ToolsSpec.AudioClipQueues | tools.js:117-141 | an audio clip writes one meta; it queues one copy and drops the key exactly when the key is indexed |
| ToolsSpec.AtlasSpritesAt | tools.js:688-699 | member `i` of a group pairs its frame and uuid with the atlas uuid of draw `i` |
| ToolsSpec.SheetFirst | tools.js:546-552 | the first sprite of a sheet is named `<name>.jpeg` |
| ToolsSpec.SheetSameName | tools.js:546-552 | however many sprites share a name, the sheet has only `<name>.jpeg` and `<name>_0.jpeg`, the second holding the last of them |
| ToolsSpec.SheetRepeat | tools.js:549-552 | a repeated name lands on `<name>_0.jpeg`, because `count` never moves there |
| ToolsSpec.SheetWrites | tools.js:545-601 | a sheet makes five calls, in order: the texture meta, the frames JSON, the plist meta, the `readJson` call on the frames, and the removal of the JSON |
| ToolsSpec.SpriteAtlaFile | tools.js:501-602 | a sheet adds five outputs and draws one random id, and queues no copy |
| ToolsSpec.PictureGroupMissing | tools.js:680-681 | a group whose decoded texture is not indexed changes nothing |
| ToolsSpec.PictureGroupAtlas | tools.js:683-726 | a group of several frames queues one copy and writes one sheet, then its texture leaves the index |
| ToolsSpec.PictureGroupSingle | tools.js:709-726 | a group of one frame queues one copy and writes one picture meta unless the frame's name starts with `default_`; either way the texture leaves the index |
| ToolsSpec.OrphanSkipsOthers | tools.js:730-731 | an indexed file that is not a `.png` or `.jpg` adds nothing |
| ToolsSpec.FontFileMeta | tools.js:758-802 | a bitmap font writes its `.fnt` text; its meta is written exactly when its sprite frame is known |
| ToolsSpec.CopyFileCopies | tools.js:485-492 | each queued pair becomes one copy from its source to its destination, in queue order |
| ToolsSpec.ConvertToFile | tools.js:649-808 | the second pass keeps every copy paired with its destination |
| ToolsSpec.MetaOutputsAt | tools.js:812-848 | the meta at position `i` is that of the `i`-th asset name, with the uuid stored under it |
| Tools.Resolver.constructor | tools.js:13-34 | every map and list starts empty, and nothing is queued or written |
| Tools.Resolver.QueueCopy | tools.js:133-137 | the place a copy gets and the new state, as `Placed` and `CopyAs` state them |
| Tools.Resolver.IndexFile | tools.js:63-65 | a file joins `fileList`, and `fileMap` maps its key to it |
| Tools.Resolver.ReadDocuments | tools.js:75-82 | each `.json` file of the list becomes `nodeData` and is processed, in list order |
| Tools.Resolver.Process | tools.js:103-110 | the settings guard, then `writeData` of the revealed document |
| Tools.Resolver.WriteData | tools.js:112-178 | a tagged document goes to its handler; otherwise the members are walked in key order |
| Tools.Resolver.HandleMember | tools.js:179-444 | a member's handler is the first test of the tag chain that holds |
| Tools.Resolver.TypedData | tools.js:114-171 | a tagged document is handled as an audio clip, text asset or animation clip |
| Tools.Resolver.PlacePrefab | tools.js:203-210 | a prefab is written as `<name>.prefab`, renamed when `prefabsMap` already holds that name, and recorded |
| Tools.Resolver.SceneNodes | tools.js:184-198 | the scene's meta loop over `nodeData`, key by key |
| Tools.Resolver.PrefabNodes | tools.js:211-241 | the prefab's meta loop over `nodeData`, key by key |
| Tools.Resolver.AudioNodes | tools.js:247-270 | the audio clip's loop over `nodeData`, key by key |
| Tools.Resolver.AnimationNodes | tools.js:278-292 | the animation clip's loop over `nodeData`, key by key |
| Tools.Resolver.FontNodes | tools.js:295-300 | the font's loop over `nodeData`, key by key |
| Tools.Resolver.ParticleNodes | tools.js:397-408 | the particle's loop over `nodeData`, key by key |
| Tools.Resolver.AtlasNodes | tools.js:414-419 | the sprite atlas's loop over `nodeData`, key by key |
| Tools.Resolver.FrameNodes | tools.js:425-440 | the sprite frame's loop over `nodeData`, key by key |
| Tools.Resolver.BonesTexture | tools.js:364-390 | a bones atlas texture is copied, given its picture meta, and dropped from the index |
| Tools.Resolver.ConvertToFile | tools.js:649-808 | the atlas pass, the picture pass, orphans, fonts and the copies, as `ConvertToFile` states, keeping copies paired |
| Tools.Resolver.AtlasPass | tools.js:652-678 | particle textures are copied, and the returned table maps each known frame's texture to its atlas |
| Tools.Resolver.PictureGroup | tools.js:679-728 | one group of `pictureMap`, as `PictureGroup` states |
| Tools.Resolver.BuildSheet | tools.js:546-595 | the `forEach` over the members builds the sprite metas, atlas uuid and frames of `SheetOf` |
| Tools.Resolver.ConvertToSpriteAtlaFile | tools.js:501-602 | the sheet writes, as `SpriteAtlaFile` states |
| Tools.Resolver.ConvertToPictureFile | tools.js:603-647 | one picture meta appended, in `Picture` unless a directory is given |
| Tools.Resolver.OrphanPass | tools.js:730-757 | each image still indexed becomes a picture of its own |
| Tools.Resolver.FontPass | tools.js:758-806 | each font of `ttfMap`, as `FontFile` states |
| Tools.Resolver.CopyFile | tools.js:485-492 | every queued pair is copied, in order |
| Tools.Resolver.ConvertToMetaFile | tools.js:812-849 | one meta per asset name, in key order |
| Tools.Resolver.MetaFile | tools.js:813-847 | the meta of one asset: its directory by extension, the audio record for `.mp3` |
| ResourceSpec.ProcessDataSkipped | src/core/resourceProcessor.js:157-161 | without settings, or with settings that have no key, a document changes nothing |
| ResourceSpec.TypeDataIgnores | src/core/resourceProcessor.js:202-214 | a tagged record of any other kind than the three handled changes nothing |
| ResourceSpec.TypeObjectIgnores | src/core/resourceProcessor.js:223-230 | a tagged member that is neither a scene nor a sprite frame changes nothing |
| ResourceSpec.MemberIgnored | src/core/resourceProcessor.js:186-193 | a member that is neither an array nor tagged changes nothing |
| ResourceSpec.AudioClipQueues | src/core/resourceProcessor.js:237-261 | an indexed clip queues exactly one copy to `output/assets/Audio/<name>` (joined without normalisation) and leaves the index; the meta and the `audio` entry come either way |
| ResourceSpec.TextAssetWrites | src/core/resourceProcessor.js:268-280 | a text asset writes the document and its 1.2.7 meta under `resource`, and nothing else |
| ResourceSpec.SpriteFrameStored | src/core/resourceProcessor.js:345-348 | a sprite frame stores its container under the document key, replacing an earlier entry; other keys keep theirs |
| ResourceSpec.SceneMetasWrite | src/core/resourceProcessor.js:321-336 | one scene meta for every matching node array, and for nothing else |
| ResourceSpec.SceneAssetWrites | src/core/resourceProcessor.js:314-336 | a scene is written once, then gets one meta per node array named like its first node |
| ResourceSpec.LibraryKnown | src/core/resourceProcessor.js:356-358 | a truthy `settings.uuids[key]` is returned, and no random id is drawn |
| ResourceSpec.LibraryFresh | src/core/resourceProcessor.js:357-360 | otherwise the next random id is drawn and returned; `index` plays no part |
| ResourceSpec.JsonFileSkipped | src/core/resourceProcessor.js:125-136 | a path that is not `.json`, or whose text does not parse, is skipped |
| ResourceSpec.CopyFilesCopies | src/core/resourceProcessor.js:381-396 | each queued pair becomes one copy, in queue order |
| ResourceSpec.IndexFile | src/core/resourceProcessor.js:86-87 | a file joins the list, and the index maps its key to it and keeps the other keys |
| ResourceProcessor.Processor.constructor | src/core/resourceProcessor.js:21-33 | every list and record starts empty |
| ResourceProcessor.Processor.ResetState | src/core/resourceProcessor.js:59-69 | every list and record is emptied and the index is fresh; what was written stays written |
| ResourceProcessor.Processor.ProcessJsonFiles | src/core/resourceProcessor.js:124-138 | the document loop reaches the state `ResourceSpec.JsonFiles` gives for the listed files, and the copy lists stay paired |
| ResourceProcessor.Processor.ProcessData | src/core/resourceProcessor.js:157-165 | as `ResourceSpec.ProcessData` states, and the copy lists stay paired |
| ResourceProcessor.Processor.WriteProcessedData | src/core/resourceProcessor.js:182-195 | a tagged record goes to `processTypeData`; otherwise arrays are walked and tagged members go to `processTypeObject` |
| ResourceProcessor.Processor.ProcessAudioClip | src/core/resourceProcessor.js:237-261 | as `ResourceSpec.AudioClip` states |
| ResourceProcessor.Processor.QueueAudio | src/core/resourceProcessor.js:250-257 | the indexed file is queued for `Audio`, and its key is dropped |
| ResourceProcessor.Processor.ProcessSceneAsset | src/core/resourceProcessor.js:314-336 | as `ResourceSpec.SceneAsset` states |
| ResourceProcessor.Processor.CreateLibrary | src/core/resourceProcessor.js:356-361 | the known uuid or the next random id, drawing one exactly when the uuid is unknown |
| ResourceProcessor.Processor.CopyFiles | src/core/resourceProcessor.js:381-401 | every queued pair copied, in order |
| NodePath.FileIndexKeyOf | src/core/resourceProcessor.js:87 | the index key of `dir/stem.ext` is `stem` |
| NodePath.FileIndexKeyCutsDirectory | tools.js:65 | the key of `/a.<rest>` is `a` whatever `<rest>` holds, so a dot in a directory name cuts the path there |
| NodePath.ExtNameShape | src/core/resourceProcessor.js:126 | an extension starts with a dot and holds no other dot nor separator |
| OrderedMaps.PutKeys | tools.js:429-437 | `set` keeps the key order and appends a new key at the end |
| OrderedMaps.PutDistinct | tools.js:429-437 | `set` keeps the keys distinct |
| XmlEvents.BalancedConcat | json2plist.js:33-50 | two balanced runs of calls, one after the other, are balanced |
| PlistTree.MemberShape | json2plist.js:34-49 | each key writes `<key>k</key>`, then a coordinate string or nested dict for an object value, or the scalar's tag |
| PlistTree.EntriesBalanced | json2plist.js:33-77 | every element the walk opens it also closes, in nesting order |
| PlistTree.DocumentBalanced | json2plist.js:15-25 | the whole document is balanced |
| PlistTree.ReadScalar | json2plist.js:53-67 | a scalar reads back as a boolean, an integer or its text |
| PlistTree.ReadDocumentOf | json2plist.js:14-25 | the document written for a value reads back as the object its root entries denote |
| PlistTree.PlainRoundTrip | json2plist.js:14-67 | the property list of a plain object reads back as that very object |
| Json2Plist.CoordinateOfSize | json2plist.js:69-77 | a size without `x` is written as `{w,h}` and reads back as the two numbers |
| Json2Plist.CoordinateOfRect | json2plist.js:69-77 | a rectangle is written as `{{x,y},{w,h}}` and reads back as the four numbers |
| Json2Plist.ParseToJson | json2plist.js:69-77 | one `<string>` element holding the coordinate text |
| Json2Plist.ToXml | json2plist.js:53-67 | the key, then an empty `<true/>`/`<false/>`, an `<integer>` or a `<string>` |
| Json2Plist.ParseToXml | json2plist.js:33-51 | the keys in iteration order, each as `PlistTree.Member` states |
| Json2Plist.ReadJson | json2plist.js:12-25 | the doctype, `<plist version="1.0">` and the root `<dict>` around the walk of the completed document |
| Json2Plist.AddProperties | json2plist.js:79-98 | `metadata` set, `meta` removed, every other key kept with its value |
| Json2Plist.MetadataFormat | json2plist.js:85-88 | format 3, pixel format `RGBA8888`, no premultiplied alpha |
| Json2Plist.MetadataNames | json2plist.js:89-92 | `textureFileName` and `realTextureFileName` are the same name |
| Json2Plist.SmartUpdateParts | json2plist.js:91 | the stamp is `$TexturePacker:SmartUpdate:` and three colon-separated parts up to `$` |
| Json2Plist.ReadJsonMetadata | json2plist.js:13-94 | the written document reads back with its `metadata` record as set |
| Converters.CreateXmlDocument | src/core/converters.js:68-89 | the plist envelope around the walk of the document |
| Converters.ParseToXml | src/core/converters.js:96-121 | the same walk and geometry-key rule as json2plist |
| Converters.ToXml | src/core/converters.js:129-150 | the same scalar tags as json2plist |
| Converters.ParseToJson | src/core/converters.js:157-171 | one `<string>` element holding the coordinate text |
| Converters.CoordinateAgrees | src/core/converters.js:161 | where neither `x` nor `w` is null, both copies write the same coordinate text |
| Converters.CoordinateNullX | src/core/converters.js:161-163 | a null `x` gives the rectangle form here, since the test is `!== undefined` |
| Converters.LegacyCoordinateNullX | json2plist.js:72 | the same value gives the size form in json2plist.js, whose test is `!= undefined` |
| Converters.AddProperties | src/core/converters.js:179-201 | a copy with `metadata` set; `meta` removed only when it is truthy; every other key as in the argument |
| Converters.FalsyMetaSurvives | src/core/converters.js:196-198 | a null `meta` survives this copy, where json2plist.js deletes it |
| Converters.JsonToPlist | src/core/converters.js:42-55 | the document of the completed copy |
| ConfigLoader.IsObjectExactly | src/config/configLoader.js:113-115 | `isObject` holds exactly for plain objects |
| ConfigLoader.DeepMerge | src/config/configLoader.js:81-106 | the result is an object whose keys are those of the target and, for a truthy source, those of the source |
| ConfigLoader.MergeFalsySource | src/config/configLoader.js:83-88 | a falsy source gives a copy of the target |
| ConfigLoader.MergeReplaces | src/config/configLoader.js:99-101 | a source value that is not a plain object replaces the target's, arrays and null included |
| ConfigLoader.MergeRecurses | src/config/configLoader.js:93-95 | two plain objects under one key are merged recursively |
| ConfigLoader.MergeCopies | src/config/configLoader.js:96-98 | a plain object over anything else is copied |
| ConfigLoader.MergeKeepsTarget | src/config/configLoader.js:83-103 | keys the source lacks keep the target's value |
| FrameText.ParsePointText | tools.js:588-590 | `{a,b}` of two numbers reads back as the pair |
| FrameText.ParseRectText | tools.js:591 | `{{x,y},{w,h}}` of four numbers reads back as the four numbers |
| JsValue.SetField | tools.js:885-891 | `o[k] = v`: `k` holds `v`, other keys keep their values, and a new key goes last |
| JsValue.DeleteField | json2plist.js:95 | `delete o[k]`: `k` is gone, and other keys keep their values |

## Left out

- File system, streams and console output. Writes, copies, the `.fnt` text and the `readJson` call are entries of an output plan; directories are not created, and errors from the file system are not modelled.
- Directory walks. `readFile`/`readFiles` recursion over directories and the `subpackages` lookup are not modelled; one file at a time is recorded through `IndexFile`, and the document loop runs over the recorded list.
- Random ids (`stringRandom`, `uuid.v1`, `generateUuid`) and image sizes (`sizeOf`, `imageinfo`) are parameters of `Env`/`Setup` and of the metadata functions.
- Asynchronous scheduling. `reveal(...).then`, `readFile` promises and awaits run in program order. The one race whose outcome matters, `readJson` against the unlink of its JSON, is modelled by `ToolsRecords.ConvertRacing`.
- `loadConfig` and `defaultConfig` are not modelled. They read the working directory's config file through `require`.
- `convertSpriteAtlas` of `converters.js` is not modelled. It only logs.
- The `./decode` module that `tools.js` requires is not part of this model. Its `decodeUuid` is taken to be the one of `uuidUtils.js`.
- Numbers are integers. NaN, fractions and exponent notation in `String(n)` are left out.
- `typeof`/`==` on mixed types are simplified. Objects compare unequal under `==`, mixed-type loose equality other than null/undefined is false, and reading a member of null or undefined yields undefined where JavaScript throws.
- Object key order is insertion order. JavaScript's move of integer-like keys to the front is not modelled.
- `JSON.stringify` of written data and `JSON.parse` of read files are left out. Documents are JSON values, and the parser is the `docs` parameter.
- `Buffer` base64 decoding reads the alphabet, the URL-safe `-` and `_`, skips other characters and stops at `=`. Malformed hex given to `Buffer`'s hex output is not modelled.
- Try/catch fallbacks in `compress_uuid`, `decompress_uuid`, `original_uuid` and `decodeUuid` are not modelled. They return the input when a call throws, and no modelled input throws.
- ToolsRecords.Reveal: modelled on values. The in-place overwrite of `__uuid__` fields, and any aliasing between the document and `nodeData`, is not captured.
- Json2Plist.AddProperties: modelled on values, so the mutation of the caller's object (visible only through aliasing) is not captured.
- Tools.Resolver.ConvertToFile: the counter `count` shared by the atlas, picture and orphan loops is a field reset at the pass's start. `pictureName`, `filename` and `fileName`, which leak as implicit globals, are not modelled as globals.
- ToolsSpec.SheetWrites: records the `readJson` call and the unlink of the JSON as two plan entries in call order. Whether the plist is written depends on whether the asynchronous read of `readJson` opens the JSON before `fs.unlinkSync` removes it. If it does not, the read fails, the error is logged and no plist is written. `ToolsRecords.ConvertRacing` models that outcome; the plan itself does not decide it.
- NodePath.Join: joins with `/` by plain concatenation. `path.join` at `src/core/resourceProcessor.js:255` also normalises: it drops a leading `./`, resolves `..` and collapses repeated separators. So `ResourceSpec.AudioTarget` is the unnormalised string, not always the one the source queues.
- ResourceSpec.SceneAssetWrites: `sceneAssets` receives the scene document itself. The source pushes its `JSON.stringify` text (`src/core/resourceProcessor.js:318`), and the text is not rendered here.
- XmlEvents.XmlWriter: only the sequence of calls is recorded. The XML text the writer produces, its escaping and its indentation are not modelled.

## Findings

| source | as written | input that shows it | evidently intended | confidence | as-written member | corrected member |
|---|---|---|---|---|---|---|
| _uuid.js:38-42 | `else if (end.length % 3 == 1)` repeats the first test, so a tail of length 2 modulo 3 is never padded | a 23-character compressed id with an 18-character tail has no padding either way; a 7-character input with the tail `ab` gets no `=` | `% 3 == 2` adds `=`, as `uuidUtils.js:151` does; `LegacyOriginalAgrees` shows the result is the same, because the decoder stops at the first `=` | not executed | LegacyUuid.LegacyPaddingMissesTwo | UuidUtils.Padding |
| tools.js:889-893 | `if (data[key], '__uuid__')` is a comma expression whose value is the non-empty string `'__uuid__'`, so every property is copied | `{width: 3}` keeps `width` although it holds no identifier | copy a property only when `data[key] && data[key]['__uuid__']` | not executed | ToolsRecords.InfoKeepsPlainProperty | ToolsRecords.InfoIntended |
| tools.js:600-601 | `json2plist.readJson(fileName)` only starts an asynchronous `fs.readFile` of `<fileName>.json`, and `fs.unlinkSync(fileName + '.json')` runs at once, before the read's callback writes the plist | any sheet whose read opens the JSON only after the unlink: the read fails with the error logged, and neither `<fileName>.json` nor `<fileName>.plist` is left | render the plist, then remove the JSON (wait for the read, or read synchronously) | not executed | ToolsRecords.ConvertRacingLosesPlist | ToolsRecords.ConvertThenUnlink |
