# Bedrock definitions: a model of resource resolution

This project models, in Dafny, how the Visual Studio Code extension for
Minecraft Bedrock add-ons resolves references. Entity, model, particle,
animation, render controller, material, dialogue and sound files define
identifiers. Client and behaviour entity files and function files point
at them. The model covers how the extension lists those definitions,
caches them, classifies the word under the cursor and finds the definition
it names.

The modules follow the source files:

- `Json` and `Documents`: parsed JSON with JavaScript's truthiness, property
  access and `Object.keys`, and the host's documents, workspace search and
  node-to-range conversion, reduced to values.
- `ResourceFiles`: the per-file identifier extractors of the newer file
  classes. These are key-based files, description-based files, geometry in
  its two `format_version` schemas, dialogue scene tags, and the same-file
  event and component-group lookup of server entities.
- `FileHandler` and `LibFileHandler`: the two generations of bulk
  extractors. They push each definition and its identifier together, so the
  `files` and `identifiers` lists stay index-aligned.
- `ResponseCache`, a class with its `map` field, and `FileSearcher`: the
  cache of search responses by type and path, and identifier lookup through
  it. Lookup takes an exact match first; materials and geometry fall back to
  a `name:parent` identifier.
- `EditorDocumentHandler`: the type of the edited document, read off its
  file name and top-level keys, and the predicates that gate the features.
- `JsonPath`: the `jsonPathTo` scanner that computes the stack of
  containers enclosing an offset. Each method is proved against a step
  function.
- `Cursor`, `Selection` and `SharedProvider`: the parent and key of the
  cursor, the word with its quotes removed, and the last-match-wins rule
  tables that give the word a reference type.
- `OrderedMap`, `LineParser` and `CommandHandler`: the usages recorded on a
  command line, including selector arguments with `{...}` compound values,
  and the function, particle and summon calls of a function file with
  their ranges and links.
- `DefinitionProvider` and `CompletionProvider`: go to definition and
  completion for pointer text in entity files.
- `LegacyDefinitionProvider`: the first go-to-definition provider. It uses
  first-match prefix and parent tables and scans the workspace's files.

Host calls become parameters or values: `findFiles`, `openTextDocument`,
`getText` of a range, `getWordRangeAtPosition`, `positionAt`, the
`jsonc-parser` tree lookups and the `json-source-map` pointers. Regular
expression matches are given as inputs. A call that throws in the source is
modelled as the `Throw` outcome of a `Completion`. Where the source updates
state (the cache, a selection, a line parser's usages, the legacy provider's
document), the model is a class whose methods state the whole new state.
The loops of the source are methods with invariants, proved against the
functions that specify them.

## Model

| member | source | states |
|---|---|---|
| Base.MkRange | src/lib/FileHandler.ts:67 | a constructed range never ends before it starts, has the two given positions as its ends, and keeps them as given when they are in order |
| Base.Names | src/handlers/FileHandler.ts:226-231 | the identifiers are the names of the definitions, position by position |
| Base.NamesAppend | src/handlers/FileHandler.ts:226-231 | the names of appended definitions are the appended names |
| Base.Lower | src/DefinitionProvider.ts:98 | lowercasing keeps the length and lowers each letter in place |
| Base.TrimStartRemovesLeadingSpace | src/lib/LineParser.ts:210 | trimming the start removes exactly the leading white space |
| Base.TrimEndRemovesTrailingSpace | src/lib/LineParser.ts:210 | trimming the end removes exactly the trailing white space |
| Base.IndexOf | src/handlers/CommandHandler.ts:173 | the index found is the first occurrence of the substring, and none is found only when it never occurs |
| Base.Substring | src/lib/LineParser.ts:91 | in-range bounds select exactly that slice of the text |
| Base.ReplaceFirstLength | src/lib/LineParser.ts:157 | removing the first occurrence of a present substring shortens the text by its length |
| Base.Split | src/lib/FileHandler.ts:143 | splitting gives at least one piece, no piece holds the separator, and joining the pieces with it gives back the text |
| Base.NumberOf | src/lib/FileHandler.ts:144 | a number is read exactly when the trimmed text is all digits, and blank text reads as zero |
| Base.NumberOfDigits | src/lib/FileHandler.ts:144 | a string of digits reads as its decimal value |
| Base.NatToString | src/DefinitionProvider.ts:275 | an index is written as its decimal digits, whose value is the index, with no leading zero unless the index is 0 |
| Base.Dedup | src/handlers/CommandHandler.ts:188 | removing duplicates keeps exactly the same elements, each once, and never lengthens the list |
| Json.Lookup | src/DefinitionProvider.ts:361 | a member is found exactly when some member has that key, and what is found is one of its values |
| Json.Keys | src/DefinitionProvider.ts:396 | the keys of an object are exactly the names that can be read from it, each once; null, booleans and numbers have none |
| Json.GetAppend | src/lib/util.ts:29-31 | a member appended to an object overrides any earlier member of that key and changes no other read |
| Json.KeysAppend | src/DefinitionProvider.ts:396 | a member appended to an object adds its key at the end of the keys unless the key is already there |
| Json.Elements | src/DefinitionProvider.ts:270-273 | the elements of an array are its items, as many as its length, each read at its index |
| OrderedMap.GetKeys | src/lib/LineParser.ts:147-148 | a key has an entry exactly when it is among the keys, and the entry read is in the map |
| OrderedMap.PutGet | src/lib/LineParser.ts:166-169 | after setting a key, reading it gives the new value and reading any other key gives what it gave before |
| OrderedMap.PutKeys | src/lib/LineParser.ts:147 | setting a present key keeps the key order; setting a new key appends it |
| OrderedMap.PutPut | src/lib/LineParser.ts:166-169 | setting the same key twice is setting it once to the second value |
| OrderedMap.PutDistinct | src/lib/LineParser.ts:147 | setting a key keeps the keys distinct |
| Documents.NodeToRange | src/handlers/FileHandler.ts:105-110 | `nodeToRange`: the range runs between the positions one character after the node's start and one character before its end, in order; the older copy (src/lib/FileHandler.ts:63-68) is identical |
| Documents.NodeToRangeInside | src/handlers/FileHandler.ts:105-110 | for a node of two or more characters and a monotone `positionAt`, the range starts exactly one character inside the node and ends exactly one character inside it |
| Documents.DescriptionIdentifier | src/handlers/FileHandler.ts:142-144 | `verifyDescriptionIdentifier` throws exactly on `null`; it yields a string identifier iff `description` and `description.identifier` are both truthy and that identifier is a string, and the yielded identifier is non-empty and is the one stored (truthy non-string identifiers, which the source also returns, are dropped; see Left out) |
| Documents.Release | src/files/Geometry.ts:15-18 | the release of a geometry file: it throws iff `format_version` is truthy but not a string; a release exists only when `format_version` is truthy |
| Documents.VersionRelease | src/files/Geometry.ts:17-18 | `Number(version.split('.')[1])` gives a release exactly when there is a second dot-separated component and it is decimal digits after trimming; untrimmed digits are read as their decimal value |
| Documents.VersionReleaseReadsSecondComponent | src/files/Geometry.ts:17-18 | `Number(version.split('.')[1])` reads the digits between the first and second dots, whatever the major component and whatever follows |
| FileSearcher.Fetched | src/lib/FileSearcher.ts:25-66 | the extractor each type is routed to; the response it hands to the cache keeps `files` and `identifiers` aligned |
| FileSearcher.SearchCache | src/lib/FileSearcher.ts:22-69 | `findByType` leaves the cache as it was for an unsearchable or already cached type, never touches another type's entry, and after a successful fetch holds an entry for the type |
| FileSearcher.SearchTwice | src/lib/FileSearcher.ts:22-69 | searching a type twice returns the same response and leaves the cache as the first search left it, so the extractor runs at most once per type |
| FileSearcher.FirstSearchLists | src/lib/FileSearcher.ts:22-69 | the first search of a type returns exactly the (identifier, definition) pairs of its extractor's response, regrouped file by file |
| FileSearcher.FirstIndex | src/lib/FileSearcher.ts:85 | `indexOf`: no index iff the identifier is absent; otherwise an index holding it, with no earlier occurrence |
| FileSearcher.FirstWithPrefix | src/lib/FileSearcher.ts:81 | `find(key => key.startsWith(prefix))`: none iff no key has the prefix; otherwise the first key that has it |
| FileSearcher.FindIdentifier | src/lib/FileSearcher.ts:76-88 | a found definition is listed under the identifier, or under an `identifier:` key for a material or geometry that is not listed; an exact match is the first occurrence; other types get no prefix fallback; with neither, nothing |
| FileSearcher.FileSearcher.constructor | src/lib/FileSearcher.ts:12-16 | the searcher keeps the given cache and workspace |
| FileSearcher.FileSearcher.FindByType | src/lib/FileSearcher.ts:22-69 | `findByType`: an unsearchable type gives an empty response; otherwise the cache answers, and the extractor's response is stored only when the type is missing |
| FileSearcher.FileSearcher.Fetch | src/lib/FileSearcher.ts:25-66 | runs the extractor of the `switch` branch for the type |
| FileSearcher.FileSearcher.FindByIdentifier | src/lib/FileSearcher.ts:76-88 | `findByIndentifier`: a throwing search throws; otherwise the definition chosen by the exact-then-prefix rule, or nothing |
| ResponseCache.Paths | src/lib/ResponseCache.ts:53 | `Object.keys` of a type's object: one key per entry, in order |
| ResponseCache.LookupPaths | src/lib/ResponseCache.ts:53 | a path can be read iff it is one of the object's keys |
| ResponseCache.PutLookup | src/lib/ResponseCache.ts:93 | writing a path changes what that path holds and nothing else |
| ResponseCache.PutPaths | src/lib/ResponseCache.ts:93 | writing a path adds it as the last key when new; the other keys keep their order |
| ResponseCache.PutDistinct | src/lib/ResponseCache.ts:93 | writing a path keeps the object's keys distinct |
| ResponseCache.FilePaths | src/lib/ResponseCache.ts:92 | `data.files.map(f => f.uri.path)`: the i-th path is the i-th file's |
| ResponseCache.ResetLookup | src/lib/ResponseCache.ts:93 | after the reset loop every mentioned path holds an empty list and every other path is unchanged |
| ResponseCache.PushesLookup | src/lib/ResponseCache.ts:95-107 | after the push loop over the first n definitions, a mentioned path holds exactly the kept pairs at that path, in order; every other path is unchanged |
| ResponseCache.SelectedStep | src/lib/ResponseCache.ts:95-107 | one more definition adds its pair at its own path, when it is kept |
| ResponseCache.SetTableLookup | src/lib/ResponseCache.ts:85-108 | after `setCache` a mentioned path holds exactly the kept pairs of `data` at that path, in order; every other path reads as before |
| ResponseCache.SelectedOtherPath | src/lib/ResponseCache.ts:101 | with a uri, nothing is pushed at any other path |
| ResponseCache.SelectedAll | src/lib/ResponseCache.ts:95-107 | without a uri, a path receives the pair of every definition in that file |
| ResponseCache.PathOf | src/lib/ResponseCache.ts:38 | `uri?.path` as `checkCache` and `fromCache` test it: a path that is used is never empty |
| ResponseCache.CheckCacheIn | src/lib/ResponseCache.ts:49-57 | `checkCache` holds iff the type is present and either no path is given or the path is a key |
| ResponseCache.LookupPathsAll | src/lib/ResponseCache.ts:53 | for a present type, a path is a key iff it can be read |
| ResponseCache.Response | src/lib/ResponseCache.ts:66-80 | the response read back from pairs keeps files and identifiers aligned, index by index |
| ResponseCache.SetCachePresent | src/lib/ResponseCache.ts:85-108 | after `setCache` the type is present and reading it back does not throw |
| ResponseCache.SetCacheLeavesOthers | src/lib/ResponseCache.ts:85-108 | `setCache` leaves every other type, and every path `data` does not mention, reading as before |
| ResponseCache.FromCacheAfterSet | src/lib/ResponseCache.ts:76-80 | reading one mentioned path right after `setCache` gives exactly that path's kept pairs of `data`, in order |
| ResponseCache.SecondCallUsesCache | src/lib/ResponseCache.ts:40-42 | once a response is stored, a second call without `overwrite` does not call the producer (with a path, when the response mentions it) |
| ResponseCache.EmptyFileFetchedAgain | src/lib/ResponseCache.ts:40-42 | a response that mentions nothing at the uri's own path leaves no key for it, so the next call for that uri calls the producer again |
| ResponseCache.FlattenMembers | src/lib/ResponseCache.ts:66-74 | a pair is read back without a path iff it is listed under one of the paths |
| ResponseCache.DistinctLookup | src/lib/ResponseCache.ts:67-68 | with distinct keys, each key reads its own entry |
| ResponseCache.ResetDistinct | src/lib/ResponseCache.ts:93 | the reset loop keeps the keys distinct |
| ResponseCache.PushesDistinct | src/lib/ResponseCache.ts:95-107 | the push loop keeps the keys distinct |
| ResponseCache.FromCacheAllAfterFirstSet | src/lib/ResponseCache.ts:59-108 | the first time a type is stored without a uri, reading it back without a path gives a pair iff it is the identifier and the definition at the same index of the stored response |
| ResponseCache.ResponseCache.constructor | src/lib/ResponseCache.ts:10 | the cache starts empty |
| ResponseCache.ResponseCache.EmptyCache | src/lib/ResponseCache.ts:13-16 | `emptyCache`: afterwards `checkCache` is false for every type and path |
| ResponseCache.ResponseCache.PurgeAllByType | src/lib/ResponseCache.ts:18-22 | `purgeAllByType` removes that type and leaves every other type as it was |
| ResponseCache.ResponseCache.FromCache | src/lib/ResponseCache.ts:59-83 | `fromCache` returns the pairs of the type (all paths, or one path, or nothing for an absent path) as aligned lists |
| ResponseCache.ResponseCache.SetCache | src/lib/ResponseCache.ts:85-108 | `setCache` creates the type's object when missing, resets the mentioned paths, then pushes the kept pairs |
| ResponseCache.ResponseCache.SetOrGetFromCache | src/lib/ResponseCache.ts:34-47 | the producer is called only when the entry is missing or `overwrite` is set; otherwise the cache is unchanged; the result is what `fromCache` reads afterwards |
| ResponseCache.CopyAll | src/lib/ResponseCache.ts:66-74 | the copy loop over every path collects all pairs, path after path in key order |
| ResponseCache.AppendSymbols | src/lib/ResponseCache.ts:69-72 | the inner copy loop appends the files and identifiers of the pairs, in order |
| ResponseCache.ResponseAppend | src/lib/ResponseCache.ts:67-73 | reading two runs of pairs one after the other gives their files and identifiers concatenated |
| FileHandler.ListedMembers | src/handlers/FileHandler.ts:337-348 | a definition is pushed for a file iff it carries that file's uri and some extracted entry found its name and range; at most one definition per entry |
| FileHandler.ListedFold | src/handlers/FileHandler.ts:337-348 | the names pushed for a file are exactly the keys of the identifier map the file-level extractor builds from the same entries |
| FileHandler.PushStep | src/handlers/FileHandler.ts:340-346 | one more entry: a found entry appends its definition to `files` and its name to `identifiers`, a missing pointer appends nothing |
| FileHandler.PushAll | src/handlers/FileHandler.ts:226-231 | the push pair: after the loop, `files` has gained exactly the listed definitions, in order, and `identifiers` exactly their names; the older handler has the same pair (src/lib/FileHandler.ts:153-158) |
| FileHandler.Respond | src/handlers/FileHandler.ts:262-265 | the returned response has `identifiers[i] == files[i].name` at every index, so the two lists stay aligned |
| FileHandler.ScannedMembers | src/handlers/FileHandler.ts:329-351 | a definition is in the scan iff it comes from a found file that parsed, carries that file's uri and was found in it; a file that fails to parse contributes nothing and the scan goes on |
| FileHandler.ScanFiles | src/handlers/FileHandler.ts:329-356 | the per-file loop over the found files returns the aligned response of all files' definitions, file after file |
| FileHandler.GeometryFileAgrees | src/handlers/FileHandler.ts:214-256 | one geometry file throws exactly when the file-level geometry extractor throws, and otherwise lists exactly the identifiers that extractor keeps |
| FileHandler.ReadGeometryEntries | src/handlers/FileHandler.ts:214-256 | the release and schema dispatch of one geometry file: no entries when the release is falsy, the `geometry.` keys before release 12, the described `minecraft:geometry` elements from release 12 on, and a throw when the version or an element is unreadable |
| FileHandler.ScannedStep | src/handlers/FileHandler.ts:209-260 | one more geometry file: the scan so far followed by that file's definitions, or a throw if either throws |
| FileHandler.ScannedOrThrowThrows | src/handlers/FileHandler.ts:209-260 | the geometry scan throws iff some found file throws |
| FileHandler.ScannedOrThrowMembers | src/handlers/FileHandler.ts:209-260 | when the geometry scan completes, a definition is in it iff one of the found files lists it |
| FileHandler.GetGeometries | src/handlers/FileHandler.ts:203-266 | `getGeometries` rejects exactly when some geometry file throws, and otherwise returns the aligned response of every file's definitions in order; the older copy (src/lib/FileHandler.ts:130-193) is the same code |
| FileHandler.ThrowPropagates | src/handlers/FileHandler.ts:209-260 | once a prefix of the found files has thrown, the whole scan throws |
| FileHandler.GetParticles | src/handlers/FileHandler.ts:271-304 | `getParticles` lists, for every parsed particle file, its described `particle_effect` identifier with the range of the `particle_effect` node; the older copy (src/lib/FileHandler.ts:198-231) is the same code |
| FileHandler.ParticleFileAgrees | src/handlers/FileHandler.ts:282-294 | a particle file lists at most one identifier, and exactly the identifier the file-level particle extractor keeps |
| FileHandler.EntityRoot | src/handlers/FileHandler.ts:364 | client entity identifiers are read under `minecraft:client_entity` and every other entity type under `minecraft:entity`, both ways |
| FileHandler.EntityFolder | src/handlers/FileHandler.ts:365 | client entities are searched in `entity/` and every other entity type in `entities/`, both ways |
| FileHandler.ScanEntities | src/handlers/FileHandler.ts:367-400 | the entity loop: every parsed file in the folder lists its described identifier under the root, with the range of the root node |
| FileHandler.GetEntities | src/handlers/FileHandler.ts:363-401 | `getEntities(type)` scans the folder chosen for `type` and reads the root chosen for `type` |
| FileHandler.FileExtension | src/handlers/FileHandler.ts:311-312 | only materials are searched with the `.material` extension; every other type with `.json` |
| FileHandler.ScanRootKeys | src/handlers/FileHandler.ts:324-356 | the root-key loop: every parsed file lists each key of `data[rootKey]` whose node is found, with its range |
| FileHandler.GetByFileType | src/handlers/FileHandler.ts:310-357 | `getByFileType(type)` searches `**/<rootKey>/**/*.<extension>` with the `rootKeys` table and reads the keys under that root key |
| FileHandler.RootKeyFileAgrees | src/handlers/FileHandler.ts:334-348 | a file read by root keys lists exactly the identifiers the file-level key-based extractor keeps for that root |
| FileHandler.AnimationRoot | src/handlers/FileHandler.ts:424-428 | the root is `minecraft:client_entity` whenever that key is present, else `minecraft:entity` when present; there is none iff neither is present |
| FileHandler.AnimationEntries | src/handlers/FileHandler.ts:430-445 | one entry per key of `description.animations`, in key order, each with the range at `[root, description, animations, name]`; none when the chain is missing |
| FileHandler.GetAnimations | src/handlers/FileHandler.ts:407-454 | `getAnimations(document)` returns the aligned response of the animations of that one document; the older copy (src/lib/FileHandler.ts:323-370) is the same code |
| FileHandler.AnimationsListed | src/handlers/FileHandler.ts:430-445 | a definition is listed iff the animations object exists, it carries the document's uri, its name is a key of that object, and the pointer at its path gives its range |
| FileHandler.GetTexture | src/handlers/FileHandler.ts:460-472 | `getTexture(path)` is undefined iff no `png` or `tga` file matches; otherwise it is the first match, named by the path, with the empty range at the start |
| FileHandler.GetSoundDefinitions | src/handlers/FileHandler.ts:477-509 | `getSoundDefinitions` reads only when exactly one `sounds/sound_definitions.json` is found, and then lists its top-level keys |
| FileHandler.SoundDefinitionsListed | src/handlers/FileHandler.ts:483-501 | no definitions unless exactly one file is found; otherwise an identifier is listed iff it is a top-level key of that parsed file whose node is found |
| FileHandler.BehaviourDefinitionInCurrentFile | src/handlers/FileHandler.ts:174-198 | finds a definition exactly when the newer `getBehaviourDefinitionInFile` lookup finds it in the reopened current document, with the same range; the result carries the document's uri and the definition's name |
| LibFileHandler.PrefixExtension | src/lib/FileHandler.ts:238-239 | only the `materials` folder is searched with `.material`; every other folder with `.json` |
| LibFileHandler.GetByFileType | src/lib/FileHandler.ts:237-273 | the older `getByFileType(prefix)` searches `**/<prefix>/**/*.<extension>` and reads the keys under `data[prefix]` |
| LibFileHandler.PrefixOf | src/lib/FileHandler.ts:237 | each file type read by root keys maps to one of the four folder strings the older handler accepts |
| LibFileHandler.ByFileTypeGenerationsAgree | src/lib/FileHandler.ts:237-273 | for materials, animations, animation controllers and render controllers, the older and newer `getByFileType` use the same glob and root and list the same definitions |
| LibFileHandler.SideRoot | src/lib/FileHandler.ts:280 | the side `client` reads `minecraft:client_entity` and any other side `minecraft:entity`, both ways |
| LibFileHandler.RootFolder | src/lib/FileHandler.ts:281 | the folder follows the root: `entity/` for client entities, `entities/` otherwise, both ways |
| LibFileHandler.GetEntities | src/lib/FileHandler.ts:279-317 | the older `getEntities(side)` scans the folder and root chosen for the side |
| LibFileHandler.EntitiesGenerationsAgree | src/lib/FileHandler.ts:279-281 | the sides `client` and `server` choose the same root and folder as the newer handler's client and server entity types |
| LibFileHandler.GetTexture | src/lib/FileHandler.ts:376-387 | the older `getTexture` is undefined iff nothing matches; otherwise it is the first match named by the path, and it agrees with the newer one on uri and name |
| ResourceFiles.FoldStep | src/files/KeyBasedFile.ts:27-30 | one more step of an extraction loop: a found range sets (or overwrites) that identifier in the `Data` map, a missing range leaves the map as it was |
| ResourceFiles.FoldDomain | src/files/KeyBasedFile.ts:23-31 | an identifier is in the map built by `response.set` iff some step of the loop set it |
| ResourceFiles.FoldValue | src/files/KeyBasedFile.ts:23-31 | every identifier in the map holds the range of some step that set it |
| ResourceFiles.FoldLast | src/files/Geometry.ts:36-47 | when several steps set the same identifier, the map holds the range of the last of them (later `set` overwrites) |
| ResourceFiles.FoldSize | src/files/KeyBasedFile.ts:23-31 | the map never has more identifiers than the loop had steps |
| ResourceFiles.FoldSkip | src/files/KeyBasedFile.ts:27-30 | a step whose range is not found changes nothing |
| ResourceFiles.KeyPath | src/files/KeyBasedFile.ts:24-25 | the pointer path of a key is `[root, key]` with a root and `[key]` without one; it always ends in the key |
| ResourceFiles.KeyEntries | src/files/KeyBasedFile.ts:21-31 | one step per key, in `Object.keys` order, each looking up that key's path |
| ResourceFiles.KeyEntriesFold | src/files/KeyBasedFile.ts:23-31 | setting each key whose range is found keeps exactly those keys, each with the range at its own path |
| ResourceFiles.KeyBasedIdentifiers | src/files/KeyBasedFile.ts:13-35 | a key-based file yields exactly the keys of `content[root]` (of the whole content without a root) whose range is found, each with that range; a falsy rooted content yields nothing |
| ResourceFiles.ExtractKeyBased | src/files/KeyBasedFile.ts:13-35 | the `Object.keys` loop of `extractIdentifiers` computes the key-based data of the content |
| ResourceFiles.KeyBasedWithoutRoot | src/files/SoundEffect.ts:10 | without a root (sound definitions) each top-level key whose range is found is an identifier, with the range at `[key]` |
| ResourceFiles.KeyBasedLocal | src/files/KeyBasedFile.ts:27-30 | changing the range lookup at one key's path changes no other key's presence or range |
| ResourceFiles.DescriptionBasedData | src/files/DescriptionBasedFile.ts:18-34 | a description-based file yields at most one identifier: the `description.identifier` of a truthy `content[root]`, with the range of the root node, and yields one iff all of those are present |
| ResourceFiles.DescriptionEntryFold | src/files/DescriptionBasedFile.ts:21-31 | the single-entry loop of the bulk extractors builds the same map as the file-level description extractor |
| ResourceFiles.DescriptionBasedNeverThrows | src/files/DescriptionBasedFile.ts:21-22 | reading the identifier of a truthy root never throws |
| ResourceFiles.LegacyGeometryEntries | src/files/Geometry.ts:22-31 | one step per top-level key, in order, for files before release 12 |
| ResourceFiles.ArrayGeometryEntries | src/files/Geometry.ts:34-47 | one step per element of `minecraft:geometry`, in index order, each with the path `['minecraft:geometry', i]` |
| ResourceFiles.LegacyGeometryIdentifiers | src/files/Geometry.ts:21-31 | before release 12 the identifiers are exactly the top-level keys starting with `geometry.` whose range is found, each with that range |
| ResourceFiles.GeometrySchemas | src/files/Geometry.ts:12-54 | the release selects the schema: an unreadable version throws, no release yields nothing, below 12 the `geometry.` keys, from 12 on the described array elements, which throw iff some element is `null` |
| ResourceFiles.ExtractLegacyGeometry | src/files/Geometry.ts:22-31 | the loop over the top-level keys computes the legacy geometry data |
| ResourceFiles.ExtractArrayGeometry | src/files/Geometry.ts:35-47 | the indexed loop over `minecraft:geometry` computes the array geometry data, throwing on a `null` element |
| ResourceFiles.ExtractGeometry | src/files/Geometry.ts:12-54 | `extractIdentifiers` of a geometry file computes the geometry data of the content |
| ResourceFiles.GeometryLaterElementWins | src/files/Geometry.ts:36-45 | when two array elements share an identifier, the later element's range is kept |
| ResourceFiles.LegacyIgnoresOtherKey | src/files/Geometry.ts:23 | before release 12 a top-level key not starting with `geometry.` changes nothing |
| ResourceFiles.LegacyIgnoresGeometryArray | src/files/Geometry.ts:21-31 | before release 12 a `minecraft:geometry` array is ignored |
| ResourceFiles.CurrentIgnoresLegacyKeys | src/files/Geometry.ts:32-48 | from release 12 on a top-level `geometry.` key is ignored |
| ResourceFiles.SceneEntries | src/files/Dialogue.ts:33-45 | one step per scene, in index order, each with the path `[root, 'scenes', i]` |
| ResourceFiles.ExtractDialogue | src/files/Dialogue.ts:26-50 | the loop over the scenes computes the dialogue data |
| ResourceFiles.DialogueIdentifiers | src/files/Dialogue.ts:33-45 | a dialogue file yields at most one identifier per scene; each identifier is the string `scene_tag` of some scene and holds that scene's range |
| ResourceFiles.DialogueLastSceneWins | src/files/Dialogue.ts:39-43 | the last scene that sets a tag decides its range |
| ResourceFiles.DialogueWithoutScenes | src/files/Dialogue.ts:29-31 | a file without `scenes` under the root yields nothing |
| ResourceFiles.BehaviourDefinitionInFile | src/files/ServerEntity.ts:31-48 | a behaviour definition is found only in a parsed file with `minecraft:entity[events or component_groups][definition]` and a node at that path; it carries the document's uri, the definition's name and the node's range |
| ResourceFiles.BehaviourDefinitionFound | src/files/ServerEntity.ts:36-44 | when every step of that chain is present and the node is found, the lookup succeeds |
| ResourceFiles.ExtractIdentifiers | src/files/ResourceFile.ts:20-24 | `extractIdentifiers` dispatched on the file kind computes that kind's data, and only geometry files can throw |
| Cursor.SegmentAt | src/lib/Selection.ts:61-63 | reading `path[i]` gives a segment exactly when `i` is an index of the path, and `undefined` otherwise |
| Cursor.ParentAndKey | src/lib/Selection.ts:60-65 | the key is the last segment (absent for an empty path); the parent is the second-to-last segment when that is a key, otherwise the third-to-last when the path is longer than three, and a path longer than three always has a parent; `getParentAndKey` of the shared provider (src/providers/SharedProvider.ts:62-67) is the same |
| Cursor.ParentSkipsOneIndex | src/lib/Selection.ts:61-62 | a key inside an array element (`..., parentKey, i, key`) has the array's key as its parent |
| Cursor.StripQuotes | src/lib/Selection.ts:70-84 | a quoted word loses its quotes: the range shrinks to the inner range and the text is the lower-cased inner text; an unquoted word is kept as it is |
| Cursor.StripQuotesInside | src/lib/Selection.ts:75-81 | on one line, a quoted word of at least two characters becomes its inner characters lower-cased, with the range one character in from each end |
| Cursor.FindPrefix | src/lib/Selection.ts:111 | the prefix found is one of the prefixes the text starts with, and there is none iff the text starts with none of them |
| Cursor.LastMatchWins | src/lib/Selection.ts:107-121 | the type after the `checkGroups` loop is the result of the last matching group, since a later match overwrites an earlier one |
| Cursor.LastMatchNone | src/lib/Selection.ts:104-121 | when no group matches, the type stays at its initial value |
| Cursor.LastMatchFrom | src/lib/Selection.ts:104-121 | the type is either the initial value or the result of some matching group |
| Cursor.LastMatchSome | src/lib/Selection.ts:107-121 | when some group matches, the type is the result of a matching group |
| Cursor.ApplyRules | src/lib/Selection.ts:107-121 | the `for` loop over the groups computes the last-match type; the same loop is in `getCurrentTextType` (src/providers/SharedProvider.ts:118-132) |
| Selection.PathToCursor | src/lib/Selection.ts:43-54 | a `.json` document gives the location path at the cursor, any other document the empty path |
| Selection.RuleResults | src/lib/Selection.ts:91-102 | no group of the table yields `None` or `EventIdentifier` |
| Selection.RulesUnmatched | src/lib/Selection.ts:104-121 | the groups alone give `None` exactly when no group matches |
| Selection.EventOnlyWhenUnmatched | src/lib/Selection.ts:123-126 | outside the entity case, an `event` key gives `EventIdentifier` exactly when no group matched |
| Selection.EntityOverride | src/lib/Selection.ts:128-132 | an `identifier` under `description` in an entity file is the client entity when the path contains `minecraft:client_entity`, else the server entity, whatever the groups said |
| Selection.ControllerByParent | src/lib/Selection.ts:92-93 | a `controller.animation.` word is an animation controller under `animations` and a render controller under `render_controllers` |
| Selection.Selection.constructor | src/lib/Selection.ts:18-32 | the new selection holds the path to the cursor, the unquoted word and its range, the parent and key of the path, and the type those give |
| Selection.Selection.SetType | src/lib/Selection.ts:34-36 | `setType` replaces the type and leaves every other field as it was |
| Selection.Selection.GetSelectionType | src/lib/Selection.ts:89-135 | `getSelectionType` returns the type the groups, the `event` case and the entity case give for the selection's own fields |
| SharedProvider.CurrentFileType | src/providers/SharedProvider.ts:47-56 | a client file iff the path starts at `minecraft:client_entity`, a behaviour file iff it starts at `minecraft:entity`, never both |
| SharedProvider.CurrentText | src/providers/SharedProvider.ts:74-91 | no text iff there is no word range; otherwise the word with its quotes stripped |
| SharedProvider.CurrentTextType | src/providers/SharedProvider.ts:100-148 | `getCurrentTextType` returns the type the groups, the `event` case and the entity case give, and flags a pointer text exactly when there is a type |
| SharedProvider.PointerTextCases | src/providers/SharedProvider.ts:114-145 | a text is a pointer exactly when a group matched, the key is `event`, or the entity case applies; an `event` key outside `description` is an event exactly when no group matched |
| SharedProvider.IndexParentMatchesNothing | src/providers/SharedProvider.ts:123 | a parent that is an array index matches no group, since every group asks for a string parent |
| EditorDocumentHandler.LastRootWins | src/handlers/EditorDocumentHandler.ts:145-149 | among the `pathRoots` that are keys of the document, the last one in table order decides the type |
| EditorDocumentHandler.NoRootMatches | src/handlers/EditorDocumentHandler.ts:145-149 | when no root is a key, the loop leaves the type at `None` |
| EditorDocumentHandler.SomeRootMatches | src/handlers/EditorDocumentHandler.ts:134-149 | when some root is a key, the loop gives a type other than `None` |
| EditorDocumentHandler.FileNameRules | src/handlers/EditorDocumentHandler.ts:125-155 | a `.mcfunction` file is a function file; a file that is neither `.json` nor `.mcfunction` has no type |
| EditorDocumentHandler.UnversionedJson | src/handlers/EditorDocumentHandler.ts:125-132 | a `.json` document that does not parse, is falsy, or has no `format_version` key has no type |
| EditorDocumentHandler.VersionedJson | src/handlers/EditorDocumentHandler.ts:130-154 | in a versioned document the last root among the keys decides, and only when none is present does a `geometry.` key make it a geometry file |
| EditorDocumentHandler.EntityWithAnimations | src/handlers/EditorDocumentHandler.ts:134-149 | a behaviour entity document that also has a top-level `animations` key is classified as an animation file |
| EditorDocumentHandler.GatesRelate | src/handlers/EditorDocumentHandler.ts:92-110 | a handled selection is always in a resource document that is not handled for commands; function files are handled for commands but are not resource documents; animations and controllers are both; a document without a type is neither |
| EditorDocumentHandler.EditorDocumentHandler.constructor | src/handlers/EditorDocumentHandler.ts:19-27 | the handler keeps the selection it is given and types the document from its file name and content |
| EditorDocumentHandler.EditorDocumentHandler.GetDocumentType | src/handlers/EditorDocumentHandler.ts:122-158 | the loop over the root table and the geometry fallback compute the document type |
| EditorDocumentHandler.EditorDocumentHandler.SetSelectionType | src/handlers/EditorDocumentHandler.ts:29-31 | only a selection whose type is not `None` is retyped; a `None` selection keeps `None`, and no other field of the selection changes |
| JsonPath.EndQuote | src/jsonPathTo.ts:69-86 | `findEndQuote` stops at the first `"` at or after `i`, or at the end of the text; no quote lies between `i` and the result |
| JsonPath.Backtrack | src/jsonPathTo.ts:75-77 | the backtracking moves left over exactly the backslashes that end at the quote and stops before the first other character or the start |
| JsonPath.FindEndQuote | src/jsonPathTo.ts:69-86 | the loop of `findEndQuote` returns the first quote at or after `i` |
| JsonPath.StringAt | src/jsonPathTo.ts:59-66 | `readString` always moves at least two characters past the opening quote |
| JsonPath.StringAtContents | src/jsonPathTo.ts:59-66 | the string read at a quote is exactly the quote-free characters up to the next quote, and the new position is just past that quote |
| JsonPath.ReadString | src/jsonPathTo.ts:59-66 | the method computes `readString` |
| JsonPath.Step | src/jsonPathTo.ts:16-53 | each iteration of the scan moves the position forward |
| JsonPath.JsonPathTo | src/jsonPathTo.ts:10-57 | the `while` loop returns the stack of the scan run up to `offset` |
| JsonPath.StepShaped | src/jsonPathTo.ts:29-49 | one step keeps every array frame at index 0 and every object frame without an index |
| JsonPath.ArrayIndexNeverAdvances | src/jsonPathTo.ts:34-46 | `,` never advances an array index: it starts at 0 and `if (frame.index)` is false there, so every array frame stays at index 0 |
| JsonPath.PathIndicesZero | src/jsonPathTo.ts:10-57 | at every offset, the path's array frames all have index 0 |
| JsonPath.OpenersMonotone | src/jsonPathTo.ts:29-35 | fewer positions hold no more opening brackets |
| JsonPath.DepthBounded | src/jsonPathTo.ts:29-39 | the stack never holds more frames than there are `{` and `[` before the offset, since only they push |
| JsonPath.PathBeforeStart | src/jsonPathTo.ts:15 | an offset of zero or less gives the empty path |
| JsonPath.KeyOfOpenObject | src/jsonPathTo.ts:18-32 | after `{"k"` the path is a single object frame keyed `k` |
| JsonPath.EndQuoteFirst | src/jsonPathTo.ts:70-83 | the end quote is the first quote from `i` |
| CommandHandler.RunEnd | src/handlers/CommandHandler.ts:10 | the run of `rc` characters from `i` stays within the text and takes at least the first character when it is an `rc` character |
| CommandHandler.RunEndStops | src/handlers/CommandHandler.ts:10 | the run is made of `rc` characters only and stops at the end of the text or before the first other character |
| CommandHandler.RunChars | src/handlers/CommandHandler.ts:10-11 | the text of the run is made of `rc` characters |
| CommandHandler.ResourceEnd | src/handlers/CommandHandler.ts:12 | the resource group ends within the text, not before its start |
| CommandHandler.ResourceEndMaximal | src/handlers/CommandHandler.ts:12 | the resource group matches `(?:\/?rc+)*` and is greedy: neither one more `rc` character nor a slash and an `rc` character can extend it |
| CommandHandler.MatchAt | src/handlers/CommandHandler.ts:11-15 | a namespace is taken exactly as the non-empty `rc` run after the command and space, when a `:` follows it, and the resource starts after that `:`; without a namespace the resource starts right after the space |
| CommandHandler.ExtractCallFromLine | src/handlers/CommandHandler.ts:130-160 | a call is extracted only from a line that is not a comment after its leading white space and that matches the call pattern; its identifier ends with the matched resource and its range lies on the given line |
| CommandHandler.MatchCallPosition | src/handlers/CommandHandler.ts:136-137 | there is no match iff the command name and a space occur nowhere in the line; otherwise the match is at their first occurrence |
| CommandHandler.MatchResource | src/handlers/CommandHandler.ts:137-140 | the resource is the text from where the group starts, matches a resource path, and the next characters cannot extend it |
| CommandHandler.CommentLineHasNoCall | src/handlers/CommandHandler.ts:132-134 | a line whose content after leading white space starts with `#`, `//` or `*` has no call |
| CommandHandler.CallIdentifier | src/handlers/CommandHandler.ts:139-159 | a namespaced function call is ignored; another function call's identifier is its resource; particle and summon identifiers are `namespace:resource`, with the literal `undefined` when no namespace was written |
| CommandHandler.CallRange | src/handlers/CommandHandler.ts:157 | the range of a call starts just after the command name and its space and is as long as the identifier, on the call's line, as `getRangeFromLine` (src/handlers/CommandHandler.ts:242-250) builds it |
| CommandHandler.IdentifierText | src/handlers/CommandHandler.ts:140-157 | right after the command and space the line reads the resource (no namespace), or `namespace:resource`, so the range covers the identifier's own text |
| CommandHandler.LineCalls | src/handlers/CommandHandler.ts:117-119 | one entry per line, each the call extracted from that line with its line number |
| CommandHandler.RangesOfLines | src/handlers/CommandHandler.ts:117-125 | a range is one of `id`'s exactly when some line has a call of `id` at that range |
| CommandHandler.Grouped | src/handlers/CommandHandler.ts:120-124 | an identifier has an entry exactly when some line calls it, and the entry is its ranges in line order |
| CommandHandler.CallsGrouped | src/handlers/CommandHandler.ts:114-128 | `getCallsFromDocument` has an entry for `id` iff some line calls `id`, and a range is in it iff some line's call is `id` at that range |
| CommandHandler.GroupKeysDistinct | src/handlers/CommandHandler.ts:115-127 | each identifier is a key of the calls object only once |
| CommandHandler.LinksToRanges | src/handlers/CommandHandler.ts:203-205 | exactly one link to the file per range, in order |
| CommandHandler.FunctionLinksMatch | src/handlers/CommandHandler.ts:196-208 | a link from a range to a file exists iff the file was found, its function path was extracted and is called, and the range is one of that path's calls; such a file gets one link per call |
| CommandHandler.CommandHandler.constructor | src/handlers/CommandHandler.ts:39-41 | the handler reads the lines of its document |
| CommandHandler.CommandHandler.GetCallsFromDocument | src/handlers/CommandHandler.ts:114-128 | the loop over the lines builds the grouped calls of the document |
| CommandHandler.CommandHandler.GetFunctionLinksFromCalls | src/handlers/CommandHandler.ts:184-211 | the loops over the found files and their calls build the function links |
| CommandHandler.PutTwice | src/handlers/CommandHandler.ts:122-123 | creating an empty list for a new identifier before pushing the range gives the same calls as pushing it at once |
| LineParser.InitKeeps | src/lib/LineParser.ts:147 | initialising a type's map leaves every recorded list as it was, and the type then has an entry |
| LineParser.RecordAppends | src/lib/LineParser.ts:166-169 | recording a usage appends it to the list of its type and identifier and changes no other list |
| LineParser.CommandRangeAtMatchEnd | src/lib/LineParser.ts:154-164 | when the id occurs in the match, the usage range is as long as the id and ends where the match ends, on the line's number |
| LineParser.MatchesKeep | src/lib/LineParser.ts:152-171 | the matches of one regex only ever append usages |
| LineParser.RegexesKeep | src/lib/LineParser.ts:145-172 | the regexes of one command only append usages, and the command's type has an entry once its first regex has run |
| LineParser.CommandsKeep | src/lib/LineParser.ts:141-174 | the command scan only ever appends usages |
| LineParser.CommandTypesPresent | src/lib/LineParser.ts:142-148 | after the command scan every supported command's type has an entry, even one no match filled |
| LineParser.ScanUntil | src/lib/LineParser.ts:204-207 | a `while` loop of `parseSelector` reads exactly the characters from `index` up to the index it reaches, and reads nothing from past the end |
| LineParser.ScanUntilStops | src/lib/LineParser.ts:204-207 | the loop reads no `stop` character and stops at one unless it reached the end |
| LineParser.ArgumentAt | src/lib/LineParser.ts:198-232 | each argument read moves the index forward |
| LineParser.ArgumentKey | src/lib/LineParser.ts:203-216 | the raw key is the text from `index` up to the first `=`, and the value's start on the line is counted from just after the `=` |
| LineParser.CompoundValue | src/lib/LineParser.ts:219-225 | a `scores` or `hasitem` value starts after `={`, keeps its commas and stops at `}` |
| LineParser.PlainValue | src/lib/LineParser.ts:226-232 | any other value starts after `=` and stops at the next `,` |
| LineParser.NegationStripped | src/lib/LineParser.ts:235-243 | a value starting with `!` is recorded without it, one character further on and one shorter; any other is recorded trimmed with the raw value's start and length |
| LineParser.ArgumentsStep | src/lib/LineParser.ts:198-269 | `parseSelector` stops at once at `]` or past the end, and otherwise reads the argument at `index` and continues just past its end |
| LineParser.SelectorStep | src/lib/LineParser.ts:198-270 | one call of `parseSelector` records the argument at `index` and then what the recursive call from just past its end records |
| LineParser.OnlyTypeRecords | src/lib/LineParser.ts:251-266 | only an argument whose raw key is exactly `type` records anything: an entity identifier usage with no link, when the value is empty or passes the resource test; otherwise nothing changes |
| LineParser.SelectorRulesKeep | src/lib/LineParser.ts:251-266 | the selector table only ever appends usages |
| LineParser.ArgumentsKeep | src/lib/LineParser.ts:198-270 | applying the arguments of a selector only ever appends usages |
| LineParser.MatchSelectorKeep | src/lib/LineParser.ts:181-189 | one selector match only ever appends usages |
| LineParser.SelectorsKeep | src/lib/LineParser.ts:179-190 | the selector scan only ever appends usages |
| LineParser.LineUsagesShape | src/lib/LineParser.ts:89-99 | a comment line has no usages; on any other line every supported command type has an entry and the selector scan keeps every command usage |
| LineParser.FirstInfo | src/lib/LineParser.ts:108-109 | the usage found is one of the list whose range contains the cursor; none is found iff no range of the list contains it |
| LineParser.FirstEntry | src/lib/LineParser.ts:107-124 | the usage found belongs to some identifier of the map and contains the cursor; none is found iff no identifier's list has one |
| LineParser.FirstUsage | src/lib/LineParser.ts:106-125 | the usage found is under a recorded type and contains the cursor; none is found iff no type's map has one |
| LineParser.CutAtCursor | src/lib/LineParser.ts:110-116 | the returned range starts where the usage starts and ends on its line, no later than its end and no later than the cursor's character |
| LineParser.UsageAtCursor | src/lib/LineParser.ts:105-126 | `undefined` iff no type's map has a usage containing the cursor |
| LineParser.UsageAtCursorFound | src/lib/LineParser.ts:105-126 | a usage is found exactly when some recorded range contains the cursor; the result names a recorded type and identifier with such a range, cut at the cursor |
| LineParser.LineParser.constructor | src/lib/LineParser.ts:89-99 | the parser keeps the line, its content after the leading white space and that index, and the usages of the command and selector scans unless the line is a comment |
| LineParser.LineParser.IsValid | src/lib/LineParser.ts:131-133 | `isValidLine` is false exactly for content starting with `#`, `//` or `*` |
| LineParser.LineParser.ExtractCommandCalls | src/lib/LineParser.ts:141-174 | the nested loops record the usages of every supported command's matches |
| LineParser.LineParser.RecordMatches | src/lib/LineParser.ts:152-171 | the loop over one regex's matches records each match with one group |
| LineParser.LineParser.ExtractSelectors | src/lib/LineParser.ts:179-190 | the loop over the selector matches parses each non-empty argument list with its ending quote removed |
| LineParser.LineParser.ParseSelector | src/lib/LineParser.ts:198-270 | `parseSelector` records the usages of all the arguments from `index` on |
| LineParser.LineParser.ApplyArgument | src/lib/LineParser.ts:234-266 | the value is trimmed, a `!` stripped, and the selector table applied |
| LineParser.LineParser.ReadArgument | src/lib/LineParser.ts:203-232 | the key and value loops read the argument at `index` |
| LineParser.LineParser.ReadUntil | src/lib/LineParser.ts:204-207 | one `while` loop of `parseSelector` |
| LineParser.LineParser.ApplySelectors | src/lib/LineParser.ts:251-266 | the labelled `selectorLoop` over the supported selectors |
| LineParser.LineParser.GetUsageAtCursorPosition | src/lib/LineParser.ts:105-126 | the three nested loops return the first usage containing the cursor, cut at the cursor |
| DefinitionProvider.FoundAtFirst | src/providers/DefinitionProvider.ts:113-117 | in an aligned response an identifier is found exactly when it is listed, as the file at its first index, whose name is that identifier |
| DefinitionProvider.MaterialPrefixFirst | src/providers/DefinitionProvider.ts:108-117 | for materials the first identifier starting with `identifier:` is found even when the identifier itself is listed; with no such identifier the lookup is the plain one |
| DefinitionProvider.GeometryExactThenPrefix | src/providers/DefinitionProvider.ts:125-138 | a listed geometry name is found at its first index; an unlisted one is found as the first `name:parent` identifier, and with neither nothing is found |
| DefinitionProvider.FetchByFileType | src/providers/DefinitionProvider.ts:96-106 | the search made is the particle, server entity, client entity or folder extractor chosen by the type |
| DefinitionProvider.ByFileType | src/providers/DefinitionProvider.ts:96-118 | the location is the material-aware lookup of the identifier in the response of the chosen extractor |
| DefinitionProvider.HandleGeometry | src/providers/DefinitionProvider.ts:125-138 | a throwing geometry scan propagates; otherwise the location is the exact-then-parented lookup in the geometries |
| DefinitionProvider.GoToBehaviourDefinition | src/providers/DefinitionProvider.ts:147-164 | a found event or component group is in the current document, and one is found exactly when the current file defines it under `minecraft:entity` |
| DefinitionProvider.GoToScriptsAnimate | src/providers/DefinitionProvider.ts:172-180 | the location is the range of the first animation of that name in the current document's animations, in the current document |
| DefinitionProvider.HandlerFolders | src/providers/DefinitionProvider.ts:45-81 | every folder the dispatch hands to byFileType is one byFileType accepts |
| DefinitionProvider.ProvideDefinition | src/providers/DefinitionProvider.ts:21-88 | the result is the definition specification: the early returns, then the handler for the classified word |
| DefinitionProvider.Resolve | src/providers/DefinitionProvider.ts:42-85 | a text type with no handler gives no location; the only handler that can throw is the geometry one, when the geometry search throws |
| DefinitionProvider.Dispatch | src/providers/DefinitionProvider.ts:42-85 | the three blocks of branches, reassigning the location, give what the handler for the type finds, or nothing |
| DefinitionProvider.NothingOutsideEntityFiles | src/providers/DefinitionProvider.ts:24-40 | without an editor, outside client and behaviour entity files, or without a classified non-empty word, nothing is resolved |
| DefinitionProvider.DispatchesToHandler | src/providers/DefinitionProvider.ts:39-85 | past the checks the result is the handler's result, and a type with no handler gives nothing rather than the word's own location |
| DefinitionProvider.ReciprocalEntities | src/providers/DefinitionProvider.ts:45-70 | client entity identifiers go to server entities and server entity identifiers to client entities; client-only and behaviour-only types resolve only in their kind of file |
| DefinitionProvider.PathGatedHandlers | src/providers/DefinitionProvider.ts:63-75 | component groups resolve exactly under `events` in behaviour files, `animate` exactly under `scripts` and `animate`, events always in behaviour files |
| DefinitionProvider.SameDocumentTargets | src/providers/DefinitionProvider.ts:147-180 | event, component group and animate lookups never throw and only give locations in the current document |
| CompletionProvider.StartingWith | src/providers/CompletionProvider.ts:33 | an identifier is kept exactly when it is listed and starts with the typed text |
| CompletionProvider.FirstOccurrencesDedup | src/providers/CompletionProvider.ts:34 | keeping each element at its first index removes repeats and keeps first occurrences in order |
| CompletionProvider.FilterAndCompletionItems | src/providers/CompletionProvider.ts:31-35 | the items are the identifiers starting with the typed text, each once, in first-occurrence order, all on the word's range |
| CompletionProvider.LineEnd | src/providers/CompletionProvider.ts:48 | the line from an index ends at the first line terminator or the end of the text |
| CompletionProvider.LastColon | src/providers/CompletionProvider.ts:48 | the position found is a `:` with no `:` after it in the range, and none is found only when the range has no `:` |
| CompletionProvider.GeometryLabels | src/providers/CompletionProvider.ts:49-52 | each geometry identifier is mapped to its label, position by position |
| CompletionProvider.GeometryLabelCutsLastColon | src/providers/CompletionProvider.ts:48-52 | a one-line `name:parent` identifier is offered as the text before its last `:`, and one with no `:` as it is |
| CompletionProvider.GeometryLabelFirstColonLine | src/providers/CompletionProvider.ts:48-52 | in a multi-line identifier lines before the first line with a `:` are skipped |
| CompletionProvider.LineEndAt | src/providers/CompletionProvider.ts:48 | a line ends at the first terminator from its start |
| CompletionProvider.SourceFor | src/providers/CompletionProvider.ts:38-69 | every folder a type completes from is one the searches accept |
| CompletionProvider.ProvideCompletionItems | src/providers/CompletionProvider.ts:10-72 | the result is the completion specification: the early returns, then the filtered identifiers of the type's source |
| CompletionProvider.UnhandledTypesGiveNothing | src/providers/CompletionProvider.ts:37-70 | materials, component groups, events, animate and server entity identifiers are never completed; client-only types only in client files |
| CompletionProvider.SourceFolders | src/providers/CompletionProvider.ts:39-67 | client entity identifiers complete with server entities; animations and animation controllers from their folders in either file kind |
| CompletionProvider.CompletionsOnlyForPointerText | src/providers/CompletionProvider.ts:13-72 | a list is given only with an editor, in an entity file, for classified pointer text of a completed type, and each item is an identifier of that source starting with the typed word on its range |
| LegacyDefinitionProvider.OpenAll | src/DefinitionProvider.ts:345-346 | each listed file is opened, in order, one document per file |
| LegacyDefinitionProvider.VerifyDescriptionIdentifier | src/DefinitionProvider.ts:216-223 | the check throws exactly on a null object |
| LegacyDefinitionProvider.VerifyDescriptionIdentifierIff | src/DefinitionProvider.ts:216-223 | the check holds exactly when `description.identifier` is the given non-empty string |
| LegacyDefinitionProvider.FirstPrefixRow | src/DefinitionProvider.ts:112-118 | the row chosen is the first whose prefix the word starts with, and none exactly when no prefix matches |
| LegacyDefinitionProvider.FirstParentRow | src/DefinitionProvider.ts:120-126 | the row chosen is the first whose key is the parent, and none exactly when no key is the parent |
| LegacyDefinitionProvider.ClassifyWord | src/DefinitionProvider.ts:109-131 | the word is pointer text exactly when it gets a type, and the type is the prefix rule overridden by the parent rule overridden by the event rule |
| LegacyDefinitionProvider.ControllerAnimationFirst | src/DefinitionProvider.ts:81-86 | a `controller.animation.` word is an animation controller, never a render controller, although it also starts with `controller.` |
| LegacyDefinitionProvider.ParentOverridesPrefix | src/DefinitionProvider.ts:120-126 | a parent key in the table decides the type whatever the word is |
| LegacyDefinitionProvider.EventUnconditional | src/DefinitionProvider.ts:128-131 | a key named `event` makes the word an event identifier whatever the word and parent |
| LegacyDefinitionProvider.UnclassifiedIff | src/DefinitionProvider.ts:109-131 | a word is unclassified exactly when no prefix, no parent key and no `event` key applies |
| LegacyDefinitionProvider.PathKeys | src/DefinitionProvider.ts:65 | the keys are those of the frames, position by position |
| LegacyDefinitionProvider.LegacyWord | src/DefinitionProvider.ts:96-107 | the word has no capital letter and its range is the word range or that range without its end characters |
| LegacyDefinitionProvider.LegacyWordStripsQuotes | src/DefinitionProvider.ts:98-107 | a quoted word is read again from the range shrunk by one on each side; an unquoted one is kept, both lowercased |
| LegacyDefinitionProvider.NothingOutsideEntityRoots | src/DefinitionProvider.ts:62-75 | a path of fewer than two frames, or outside the client and behaviour entity roots, leads to no lookup |
| LegacyDefinitionProvider.RequestWordLowercased | src/DefinitionProvider.ts:71-131 | a request's word is lowercase, its file is exactly one of the two kinds, and its type is that of the classification |
| LegacyDefinitionProvider.ParentFallsBackPastArray | src/DefinitionProvider.ts:77-79 | under an array deeper than three frames the key above the array is the parent, so a word in an array under `textures` is a texture |
| LegacyDefinitionProvider.KeyTypeSearchSound | src/DefinitionProvider.ts:342-370 | a location comes from a file whose `prefix` member holds the name; a throw from a parsed file that is null or lacks the `prefix` member |
| LegacyDefinitionProvider.KeyTypeMissingRootThrows | src/DefinitionProvider.ts:361 | a parsed file without the `prefix` member ends the search with a throw whatever files follow |
| LegacyDefinitionProvider.HandleKeyType | src/DefinitionProvider.ts:342-370 | the file loop gives the key-type search over the folder's files |
| LegacyDefinitionProvider.ParticleSearchSound | src/DefinitionProvider.ts:292-319 | a location comes from a file whose `particle_effect` names the particle; a throw from a null document |
| LegacyDefinitionProvider.HandleParticles | src/DefinitionProvider.ts:292-319 | the file loop gives the particle search over the particle files |
| LegacyDefinitionProvider.MaterialSearchSound | src/DefinitionProvider.ts:376-410 | a location comes from a file with a material key starting with `name:`; a throw from a null document |
| LegacyDefinitionProvider.MaterialsOnlyByPrefix | src/DefinitionProvider.ts:396-400 | with no `name:` key anywhere nothing is found, even where `name` itself is a key |
| LegacyDefinitionProvider.HandleMaterials | src/DefinitionProvider.ts:376-410 | the file loop gives the material search over the `.material` files |
| LegacyDefinitionProvider.FormatRelease | src/DefinitionProvider.ts:250-252 | the release is read without a throw exactly when `format_version` is a string |
| LegacyDefinitionProvider.FlatGeometryName | src/DefinitionProvider.ts:259-262 | the name used is the name itself or a key of the file extending it by `:` |
| LegacyDefinitionProvider.FlatGeometryExactThenPrefix | src/DefinitionProvider.ts:259-262 | an exact key wins; without it the first `name:` key in key order; with neither the name stays |
| LegacyDefinitionProvider.GeometryArrayStep | src/DefinitionProvider.ts:270-280 | a geometry found is an element from the index on whose description names it and that has a pointer, located at that pointer's value |
| LegacyDefinitionProvider.GeometryFileStep | src/DefinitionProvider.ts:232-283 | a file passes on the name or a `name:` extension of it, and a location found is in that file |
| LegacyDefinitionProvider.GeometrySearchInFiles | src/DefinitionProvider.ts:229-286 | a location found is in one of the model files |
| LegacyDefinitionProvider.NameExtends | src/DefinitionProvider.ts:259-261 | a name renamed twice by `:` extensions still extends the original name |
| LegacyDefinitionProvider.FindInGeometryArray | src/DefinitionProvider.ts:270-280 | the array loop gives the first element that names the geometry and has a pointer, or a throw on a null element |
| LegacyDefinitionProvider.HandleGeometry | src/DefinitionProvider.ts:229-286 | the file loop gives the geometry search over the model files, carrying a renamed name on to later files |
| LegacyDefinitionProvider.BehaviourDefinition | src/DefinitionProvider.ts:418-432 | `goToBehaviourDefinition` throws on a null or unparsed document and otherwise only where the definition's pointer is missing; a location is always in the current document |
| LegacyDefinitionProvider.BehaviourDefinitionInSection | src/DefinitionProvider.ts:418-432 | a location is in the current document and only for a definition present under `minecraft:entity` in the given section |
| LegacyDefinitionProvider.AnimateRoot | src/DefinitionProvider.ts:444-448 | the root chosen is present, and there is none exactly when neither entity root is present |
| LegacyDefinitionProvider.ScriptsAnimate | src/DefinitionProvider.ts:439-464 | `goToScriptsAnimate` throws on a null or unparsed document and otherwise only where a root is chosen and the animation's pointer under it is missing; a location is always in the current document |
| LegacyDefinitionProvider.ScriptsAnimatePrefersClient | src/DefinitionProvider.ts:444-457 | in a document with a client entity root the animation is looked up under that root |
| LegacyDefinitionProvider.TextureLocation | src/DefinitionProvider.ts:325-334 | a texture is found exactly when some `path.png` is listed, at the start of the first one |
| LegacyDefinitionProvider.BlocksDisjoint | src/DefinitionProvider.ts:136-167 | no type is handled by two of the three blocks, so no later block overwrites an earlier location |
| LegacyDefinitionProvider.CallsMatchFileKind | src/DefinitionProvider.ts:136-167 | client lookups serve client files and behaviour lookups behaviour files; component groups need `events`, animate needs `scripts` and `animate`; animations always go to their folder |
| LegacyDefinitionProvider.Dispatch | src/DefinitionProvider.ts:133-171 | the blocks give the chosen handler's answer, and nothing when no handler is chosen |
| LegacyDefinitionProvider.DefinitionProvider.constructor | src/DefinitionProvider.ts:53-54 | a new provider has no document |
| LegacyDefinitionProvider.DefinitionProvider.ProvideDefinition | src/DefinitionProvider.ts:56-175 | the provider keeps the request's document and answers with the definition specification over the cursor's JSON path |

## Left out

- Regular expressions are not executed: the matches of the command and selector patterns are inputs of a line (the call pattern is modelled by `MatchAt` and `ResourceEndMaximal`), and the comment-stripping `replace` before `JSON.parse` is folded into the parsed value a file gives.
- `removeEndingQuote`, `getRangeFromPath` and the `Data`/`DataType` types are not defined in the files modelled. The first two are function parameters; the others are not part of this model.
- JSON parsing (`JSON.parse`, `jsonc-parser`, `json-source-map`) is not modelled. A file's parsed value, its syntax-tree node lookup and its pointers are given; duplicate keys read as the last one, as `JSON.parse` does.
- `Object.keys` is taken in first-occurrence order. JavaScript's moving of integer-like keys to the front is not modelled.
- Property reads on arrays, strings and objects by a string key that is not an own member, such as `length` or prototype members, read as `undefined`. `null` and `undefined` are one value except where the source reads a property of `null`, which throws.
- `Number()` is modelled on decimal digit strings only, after trimming white space; any other text gives no release. Hexadecimal, exponent and sign forms are not modelled.
- Lowercasing (`toLowerCase`) covers only the letters A to Z.
- The proximity ordering of found files (`orderByDistance` and its copies) is not modelled: file order is the order the workspace search gives.
- Concurrency is not modelled: the cache's mutexes are left out, and `setOrGetFromCache` is one sequential step whose fetched response is an argument.
- Host I/O is not modelled: the workspace search, document opening, word ranges, offsets and positions are inputs.
- The document-link and completion-item constructors of `src/lib/util.ts` are not modelled beyond the fields the providers set.
- The texture paths the completion provider computes with `path.relative` are an input.
- `getLinks`, `getLinksFromFilesSearch`, `getCompletionItems` and `getFunctionsFromPath` are not modelled beyond the matching part of function links. They build host objects from paths.
- The glob, open and parse orchestration of the resource file classes, `guessPackTypeFromDocument`, the extension's registration code and the event wiring of `src/Provider.ts` are not modelled.
- Logging (`console.log` in the dialogue extractor and the handlers' `log` calls) is not modelled.
- ResponseCache.ResponseCache.SetCache: requires at least as many identifiers as files. With fewer, the source would store `undefined` identifiers, which the model does not represent.
- ResponseCache.SetCacheIn: the same requirement as `SetCache`, for the same reason.
- Selection.Selection.constructor: takes the word range as a range. The source casts a possibly `undefined` word range, and that case is not modelled.
- DefinitionProvider.FoundAt: an index past the end of `files` gives no definition. In the source it would read a property of `undefined` and throw; aligned responses never reach it.
- LegacyDefinitionProvider.DefinitionProvider.ProvideDefinition: the cursor offset is given as an offset into the document's text. The current document the handlers read is the workspace's opened copy at its URI.
- Json.Get and Json.Length: inherited object properties such as `constructor` and `__proto__` read as absent, and an object's own `length` member is never taken as a length. In JavaScript those properties are truthy functions or objects.
- CommandHandler.CallsGrouped: a call whose identifier is `constructor` or `__proto__` is grouped by `CallsOf` like any other. The source throws there, because `calls[id]` reads the inherited property and `push` is not a function of it.
- CommandHandler.CommandHandler.GetCallsFromDocument: the same as `CallsGrouped`; a call of `constructor` or `__proto__` does not throw in the model.
- LegacyDefinitionProvider.DefinitionProvider.ProvideDefinition: a definition or animation word such as `constructor` or `__proto__` reads an inherited truthy property in `goToBehaviourDefinition` and `goToScriptsAnimate`, and the source then throws at `pointer.keyEnd`. The model gives no location there.
- LegacyDefinitionProvider.BehaviourDefinition: the same as above for inherited properties; the model reads only own members.
- LegacyDefinitionProvider.ScriptsAnimate: the same as above for inherited properties; the model reads only own members.
- Documents.DescriptionIdentifier: only string identifiers are yielded. A truthy identifier that is not a string (a number, `true`, an object or an array) is listed by the source, and a later `startsWith` on it throws; the model drops it.
- ResourceFiles.DescriptionBasedData: the same as `DescriptionIdentifier`; a description-based file with a truthy non-string identifier yields nothing in the model.
- ResourceFiles.DialogueIdentifiers: a truthy `scene_tag` that is not a string is dropped. The source lists it.
- ResourceFiles.ArrayGeometryEntry: a truthy non-string `description.identifier` is dropped, as in `DescriptionIdentifier`.
- FileHandler.GetParticles: a truthy non-string particle identifier is dropped, as in `DescriptionIdentifier`.
- ResponseCache.ResponseCache.SetOrGetFromCache: when the producer rejects, the source never releases the type's mutex, so every later call for that type waits forever. The model leaves the cache unchanged, and a later call fetches again.
- FileSearcher.SearchCache: the same as `SetOrGetFromCache`; after a failed fetch the model's next search of the type fetches again instead of hanging.
- String offsets are counted in characters. JavaScript counts UTF-16 code units, so offsets differ on lines with characters outside the Basic Multilingual Plane. This affects the JSON path, cursor, line parser and command handler offsets.
