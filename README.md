# Zone and world manifests: a Dafny model of the editor persistence core

This project models the part of the luawow level editor that has a contract: the
world-manifest data model and the editor commands that move a manifest between
the editor's **draft** copy (`ZoneLoaderEditorState`), the **active** copy (the
`ZoneLoader` resource, with its `dirty` flag) and the **on-disk document** kept
under a key derived from the selected folder.

Three plugins handle persistence, and each is one module:

- `SaveLoader` (`src/save_loader/mod.rs`) is a class `EditorSession`. Its fields
  are the draft, the focused zone index, the boot root, the active `ZoneLoader`
  and the disk, modelled as `map<string, ZoneLoader>`. Each button closure of the
  window is a method with a `modifies` frame. The pipeline captures exactly the
  `ZoneLoader` resource. On load it removes the resource and installs the stored
  one.
- `WorldEditor` (`src/world_editor/mod.rs`) is a class `WorldSession`. It holds
  the live entities, which have distinct ids. Capture is a pure filter that keeps
  the entities carrying a `WorldManifest`. Load spawns the stored entities fresh,
  after the live ones, with no deduplication. "load zone" then marks this
  plugin's `ZoneLoader` dirty.
- `ZoneEditor` (`src/zone_editor/mod.rs`) is a class `ZoneEditorSession`. It
  holds the optional `ZoneCollectionManifest` resource. "create or overwrite
  root manifest" removes the resource, inserts `new()` and saves. "load
  manifest" does nothing.

`Basics` holds `Option`, the `u32` newtype, the `Transform` record and
`Outcome`. `Paths` models `Path::join` with the Unix separator. It also models the manifest key
`folder/manifest` and the file `key.json` that the JSON file backend uses for
a key.

Behaviour worth noting:

- A load in the save/loader plugin installs the stored `dirty` flag as it was
  saved. Only the world editor's "load zone" sets `dirty` to true.
- "copy loader to loader editor" also clears `dirty`. The boot-time copy in
  `app_setup` does not.
- The boot load does not check that the root folder or its manifest exists. A
  missing document makes the load fail.
- Resizing a grid never touches `grid_values`. `SaveLoader.ResizeBreaksConsistency`
  shows that a resize leaves the one-cell-per-position layout broken.
- Every window asserts `folder.is_dir()` before its `folder.exists()` check, so
  that check is always true. The only gate left is whether the manifest file
  exists. In the model it exists exactly when its key is in the disk map (see
  `Paths.ExistenceCheckIsStoredFile`).
- A failed load aborts the program (`expect`). The model's loads return
  `Fail` and leave every field unchanged. Saves always succeed in the model
  (see "## Left out").

## Model

| member | source | states |
|---|---|---|
| `Paths.Join` | src/save_loader/mod.rs:168 | `folder.join(name)` is the folder, then at most one separator (only when the folder is non-empty and does not already end in one), then the name |
| `Paths.ExistenceCheckIsStoredFile` | src/save_loader/mod.rs:168-170 | the `manifest.json` existence check looks at exactly the file that a save under the `manifest` key writes |
| `Paths.TrailingSeparatorSameKey` | src/world_editor/mod.rs:137-140 | a folder written with and without a trailing separator gives the same key, so one save overwrites the other |
| `SaveLoader.WithGridSize` | src/save_loader/mod.rs:180-185 | a grid-size slider sets one dimension; the other two, the palette, the cells and the scene path are unchanged |
| `SaveLoader.RemoveZone` | src/save_loader/mod.rs:210-216 | an in-range index deletes exactly that zone: earlier zones stay, later ones shift down by one, the length drops by one; an out-of-range index changes nothing |
| `SaveLoader.FocusSliderMax` | src/save_loader/mod.rs:174-177 | the focus slider ends at `max(len, 1) - 1`: the last zone's index when there are zones, 0 when there are none |
| `SaveLoader.Offered` | src/save_loader/mod.rs:171-245 | the grid-size sliders are shown exactly when the manifest file exists and the focus names a zone; every other widget is shown when the manifest file exists, and without it only the two copy buttons and the write button |
| `SaveLoader.RemoveZoneInverse` | src/save_loader/mod.rs:214 | re-inserting the removed zone at its index restores the zones |
| `SaveLoader.AppendThenRemoveRestores` | src/save_loader/mod.rs:210-223 | appending a zone and removing it with the focus on it restores the zones |
| `SaveLoader.RemoveTwiceAtSameFocus` | src/save_loader/mod.rs:210-216 | with zones [A, B, C] and focus 1, one removal leaves [A, C] and a second leaves [A] |
| `SaveLoader.DefaultZoneConsistent` | src/save_loader/mod.rs:64-77 | the default zone is empty (sizes 0, no palette, no cells, no scene) and has the one-cell-per-position layout |
| `SaveLoader.RemoveZoneKeepsConsistency` | src/save_loader/mod.rs:72-74 | removing a zone keeps every remaining zone's cells one per position and within the palette |
| `SaveLoader.ResizeBreaksConsistency` | src/save_loader/mod.rs:180-185 | the cells are not resized: changing one dimension of a consistent zone whose other dimensions are non-zero makes it inconsistent |
| `SaveLoader.EditorSession.constructor` | src/save_loader/mod.rs:27-34 | plugin build: default draft with the boot root remembered, focus 0, default `ZoneLoader` |
| `SaveLoader.EditorSession.Save` | src/save_loader/mod.rs:141-145 | the stored document is the `ZoneLoader` resource, dirty flag included; the draft is not saved |
| `SaveLoader.EditorSession.Load` | src/save_loader/mod.rs:147-152 | a stored document replaces the active state outright, with no merge; a missing one fails and changes nothing |
| `SaveLoader.EditorSession.SetFocusedZoneIndex` | src/save_loader/mod.rs:173-177 | the slider sets the focus within `0..=max(len, 1) - 1`, which is a valid index whenever there are zones |
| `SaveLoader.EditorSession.SetGridSize` | src/save_loader/mod.rs:178-185 | grid sliders are shown only while the focus is in range; then only the focused zone's one dimension changes (up to 1000) |
| `SaveLoader.EditorSession.RemoveFocusedZone` | src/save_loader/mod.rs:210-216 | the draft's zones become `RemoveZone` of the old zones at the focus; focus, active state and disk are not touched |
| `SaveLoader.EditorSession.AppendZone` | src/save_loader/mod.rs:218-223 | a default zone (identity transform, empty and consistent) goes on the end; earlier zones and the focus stay |
| `SaveLoader.EditorSession.CopyDraftToActive` | src/save_loader/mod.rs:230-235 | the active manifest becomes the draft and `dirty` is false; the draft stays |
| `SaveLoader.EditorSession.CopyActiveToDraft` | src/save_loader/mod.rs:236-241 | the draft becomes the active manifest; the active manifest stays and `dirty` is false |
| `SaveLoader.EditorSession.ReadFromDisk` | src/save_loader/mod.rs:224-227 | loads the folder's `manifest` key, replacing the active state; fails without change when no document is stored |
| `SaveLoader.EditorSession.WriteToDisk` | src/save_loader/mod.rs:242-245 | stores the active state under the folder's `manifest` key |
| `SaveLoader.EditorSession.AppSetup` | src/save_loader/mod.rs:256-271 | with a boot root, the root's document becomes the active state and its manifest the draft; without one nothing changes |
| `SaveLoader.StartEditor` | src/save_loader/mod.rs:256-271 | build then boot: the draft is the empty default without a root, or the root's stored manifest |
| `SaveLoader.SaveRunOverRun` | src/save_loader/mod.rs:285-299 | a fresh app's save, loaded by a second app, yields the default `ZoneLoader`: no zones, not dirty |
| `SaveLoader.WritePromoteRead` | src/save_loader/mod.rs:230-245 | write, promote, read: the active state is exactly what was written and the draft is untouched |
| `SaveLoader.PromoteThenRefresh` | src/save_loader/mod.rs:230-241 | promote then refresh leaves the draft as it was and makes the active copy equal to it, clean |
| `WorldEditor.DefaultWorldManifestEmpty` | src/world_editor/mod.rs:79-86 | the default world has no start zones and no zones, so no start zone dangles |
| `WorldEditor.Capture` | src/world_editor/mod.rs:109-115 | the captured document holds exactly the components of the entities carrying a `WorldManifest`, and no others |
| `WorldEditor.CaptureCount` | src/world_editor/mod.rs:109-115 | the document has one entry per entity carrying a `WorldManifest` |
| `WorldEditor.CaptureAppend` | src/world_editor/mod.rs:109-115 | capturing two parts of a world captures each part, in order |
| `WorldEditor.CaptureSpawned` | src/world_editor/mod.rs:109-121 | entities spawned from a document are captured back as that same document |
| `WorldEditor.SaveLoadSaveStable` | src/world_editor/mod.rs:109-121 | save, load into an empty world, save: both documents are equal |
| `WorldEditor.LoadTwiceDuplicates` | src/world_editor/mod.rs:117-121 | no deduplication: loading a document twice adds its manifests twice |
| `WorldEditor.SpawnKeepsFreshIds` | src/world_editor/mod.rs:117-121 | appending spawned entities keeps entity ids distinct and below the next id |
| `WorldEditor.WorldSession.constructor` | src/world_editor/mod.rs:20-29 | plugin build: no entities and a default `ZoneLoader` |
| `WorldEditor.WorldSession.SpawnEntity` | src/world_editor/mod.rs:181 | spawning adds one entity with a fresh id and keeps ids distinct |
| `WorldEditor.WorldSession.Save` | src/world_editor/mod.rs:109-115 | the stored document is the capture of the live entities; no resource is saved |
| `WorldEditor.WorldSession.Load` | src/world_editor/mod.rs:117-121 | live entities stay; the stored ones are appended as new entities taking the next ids, components unchanged, and the id counter advances by their number; a missing document fails and changes nothing (partners: `CaptureSpawned`, `SpawnKeepsFreshIds`) |
| `WorldEditor.WorldSession.LoadZone` | src/world_editor/mod.rs:141-148 | after a successful load the `ZoneLoader` is dirty and its manifest unchanged; a failed one changes nothing |
| `WorldEditor.WorldSession.CreateOrOverwriteRootManifest` | src/world_editor/mod.rs:150-155 | saves the capture under the folder's `manifest` key |
| `WorldEditor.Offered` | src/world_editor/mod.rs:136-155 | "load zone" is offered exactly when the manifest file exists; saving is always offered |
| `WorldEditor.SaveRunOverRun` | src/world_editor/mod.rs:173-196 | saving one empty `WorldManifest` entity and loading into a fresh world gives exactly one entity, carrying that manifest |
| `WorldEditor.LoadZoneTwice` | src/world_editor/mod.rs:141-148 | two "load zone" clicks of one folder double the loaded manifests and leave the loader dirty |
| `ZoneEditor.NewHasNoStartZone` | src/zone_editor/mod.rs:53-60 | `new()` has start zone 0 and no zones, so its start zone names no zone |
| `ZoneEditor.Offered` | src/zone_editor/mod.rs:104-113 | "load manifest" is offered exactly when the manifest file exists; the overwrite is always offered |
| `ZoneEditor.ZoneEditorSession.Save` | src/zone_editor/mod.rs:85-88 | the stored document is the `ZoneCollectionManifest` resource and nothing else |
| `ZoneEditor.ZoneEditorSession.LoadManifest` | src/zone_editor/mod.rs:107-110 | "load manifest" changes no state |
| `ZoneEditor.ZoneEditorSession.CreateOrOverwriteRootManifest` | src/zone_editor/mod.rs:113-119 | the resource becomes `new()` and exactly that is stored under the folder's key, whatever was there before |
| `ZoneEditor.OverwriteWritesEmptyCollection` | src/zone_editor/mod.rs:113-119 | from any prior resource and disk, the document written is the empty collection with start zone 0 |

## Left out

- The egui widgets, the file dialog and the `selected_file` bookkeeping are not modelled. Slider ranges become preconditions of the edit methods (`SetFocusedZoneIndex`, `SetGridSize`).
- The JSON codec, the file backend and the snapshot builder and applier internals are foreign library code. The disk is an abstract map from key to stored value, and a stored value reads back unchanged.
- Each plugin has its own disk map. All three write the same `folder/manifest` file, but a document written by one plugin and read by another (a schema mismatch) is not modelled.
- Entity-component-system machinery is not modelled (`run_system_once`, `Commands`, resource lookup, type registration). Resources are plain fields of the session objects.
- `Transform` is a record of reals compared only for equality. Its `f32` arithmetic and NaN equality are not modelled. Tile attributes are a plain `map<string, string>`.
- The debug-grid respawn closure (src/save_loader/mod.rs:191-208) is not modelled: it spawns render bundles, and its loops have empty bodies. `draw_debug` (a `todo!()`) and `src/main.rs` are also not modelled.
- `is_dir`, `exists` and the panics of `assert!` and `expect` are not modelled as such. A selected folder is taken to be a directory, manifest existence is membership in the disk map, and a failed load returns `Fail`.
- Zone counts are compared unbounded. The source casts `len()` to `u32`, which differs only past 2^32 zones.
- When several widgets change in one frame, the grid sliders index with the focus read before the focus slider moved. The model runs one command at a time.
- The save/loader apply removes `ZoneLoader` before installing the stored one. Because every stored document holds the resource, the model states this as outright replacement. A document without the resource is not modelled.
- The world editor's entity ids are a counter. Bevy's entity generations and the applier's entity-mapping modes are not modelled.
- Save failures are not modelled. The `expect` after each save (src/save_loader/mod.rs:244, src/world_editor/mod.rs:153, src/zone_editor/mod.rs:118) aborts on a missing directory or an I/O error; every model `Save` succeeds.
- `Paths.Join` follows Unix path rules only: `/` is the one separator it inserts and recognises. Windows builds insert `\` and accept both `/` and `\`, and Windows prefixes are not modelled either, so `Join` and `TrailingSeparatorSameKey` describe Unix paths.
