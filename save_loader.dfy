/**
 * The zone save/loader plugin: the world-manifest data model, the draft copy the
 * editor window mutates, the active `ZoneLoader` resource, and the commands that
 * move a manifest between the two copies and the on-disk document.
 */
module SaveLoader {
  import opened Basics
  import Paths

  // ---------------------------------------------------------------- data model

  /** One palette entry: an asset path, a placement and free-form string attributes. */
  datatype TileData = TileData(tileDataPath: string, transform: Transform, dynamicMap: map<string, string>)

  /** A zone: a 3D grid of palette indices, its palette and an optional dynamic-scene path. */
  datatype ZoneManifest = ZoneManifest(
    sizeGridX: u32,
    sizeGridY: u32,
    sizeGridZ: u32,              // layers
    tileset: seq<TileData>,
    gridValues: seq<u32>,        // flattened [x, y, z] cells, each an index into tileset
    dynamicScenePath: Option<string>)

  /** A zone placed in the world; the transform applies to the zone's root only. */
  datatype TransformZoneManifest = TransformZoneManifest(transform: Transform, zoneManifest: ZoneManifest)

  /** The ordered zones of a world; a zone's position is its "zone index". */
  datatype WorldManifest = WorldManifest(zonesWithTransforms: seq<TransformZoneManifest>)

  /** The active world state: the canonical manifest and an advisory dirty flag. */
  datatype ZoneLoader = ZoneLoader(manifest: WorldManifest, dirty: bool)

  datatype Axis = X | Y | Z

  /** Upper end of the grid-size sliders. */
  const GRID_SIZE_MAX: u32 := 1000

  function DefaultZoneManifest(): ZoneManifest {
    ZoneManifest(0, 0, 0, [], [], None)
  }

  function DefaultTransformZoneManifest(): TransformZoneManifest {
    TransformZoneManifest(IDENTITY, DefaultZoneManifest())
  }

  function DefaultWorldManifest(): WorldManifest {
    WorldManifest([])
  }

  function DefaultZoneLoader(): ZoneLoader {
    ZoneLoader(DefaultWorldManifest(), false)
  }

  /** A zone with nothing in it: no extent, no palette, no cells, no scene. */
  predicate IsEmptyZone(z: ZoneManifest) {
    z.sizeGridX == 0 && z.sizeGridY == 0 && z.sizeGridZ == 0
    && z.tileset == [] && z.gridValues == [] && z.dynamicScenePath.None?
  }

  /**
   * The layout the field comments describe: one cell per grid position, each
   * naming a palette entry. Nothing in the plugin enforces it.
   */
  predicate GridConsistent(z: ZoneManifest) {
    |z.gridValues| == z.sizeGridX as int * z.sizeGridY as int * z.sizeGridZ as int
    && forall i :: 0 <= i < |z.gridValues| ==> z.gridValues[i] as int < |z.tileset|
  }

  function GridSize(z: ZoneManifest, axis: Axis): u32 {
    match axis
    case X => z.sizeGridX
    case Y => z.sizeGridY
    case Z => z.sizeGridZ
  }

  /** What a grid-size slider writes: one dimension, and nothing else. */
  function WithGridSize(z: ZoneManifest, axis: Axis, size: u32): (r: ZoneManifest)
    ensures GridSize(r, axis) == size
    ensures forall a :: a != axis ==> GridSize(r, a) == GridSize(z, a)
    ensures r.tileset == z.tileset && r.gridValues == z.gridValues
    ensures r.dynamicScenePath == z.dynamicScenePath
  {
    match axis
    case X => z.(sizeGridX := size)
    case Y => z.(sizeGridY := size)
    case Z => z.(sizeGridZ := size)
  }

  /**
   * `Vec::remove` behind the bounds check of "remove focused zone": the element at
   * `index` goes, later zones shift down by one; an out-of-range index changes nothing.
   */
  function RemoveZone(zones: seq<TransformZoneManifest>, index: nat): (r: seq<TransformZoneManifest>)
    ensures index < |zones| ==>
              |r| == |zones| - 1
              && (forall j :: 0 <= j < index ==> r[j] == zones[j])
              && (forall j :: index <= j < |r| ==> r[j] == zones[j + 1])
    ensures index >= |zones| ==> r == zones
  {
    if index < |zones| then zones[..index] + zones[index + 1..] else zones
  }

  /** Upper end of the focused-zone slider, `max(len, 1) - 1`. */
  function FocusSliderMax(zoneCount: nat): (m: nat)
    ensures zoneCount > 0 ==> m < zoneCount && m + 1 == zoneCount
    ensures zoneCount == 0 ==> m == 0
  {
    if zoneCount > 1 then zoneCount - 1 else 0
  }

  /** The widgets of the window, once a folder is selected. */
  datatype Widget =
    | FocusSlider | GridSizeSliders | RemoveFocusedZoneButton | AppendZoneButton
    | ReadFromDiskButton | CopyDraftToActiveButton | CopyActiveToDraftButton | WriteToDiskButton

  /**
   * Which widgets are shown for a selected folder. The folder is a directory (the
   * window aborts otherwise). Without the manifest file only the two copies and
   * the write are offered; with it every widget is, except that the grid-size
   * sliders also need the focus (as read before the focus slider) to name a zone.
   */
  function Offered(w: Widget, manifestExists: bool, focus: nat, zoneCount: nat): (r: bool)
    ensures w == GridSizeSliders ==> (r <==> manifestExists && focus < zoneCount)
    ensures w != GridSizeSliders && manifestExists ==> r
    ensures w != GridSizeSliders && !manifestExists ==>
              (r <==> w in {CopyDraftToActiveButton, CopyActiveToDraftButton, WriteToDiskButton})
  {
    match w
    case CopyDraftToActiveButton => true
    case CopyActiveToDraftButton => true
    case WriteToDiskButton => true
    case GridSizeSliders => manifestExists && focus < zoneCount
    case _ => manifestExists
  }

  // ------------------------------------------------------- lemmas on the model

  /** Putting the removed zone back where it was restores the sequence. */
  lemma RemoveZoneInverse(zones: seq<TransformZoneManifest>, index: nat)
    requires index < |zones|
    ensures var r := RemoveZone(zones, index); r[..index] + [zones[index]] + r[index..] == zones
  {
  }

  /** Appending a zone and then removing it with the focus on it gives back the zones. */
  lemma AppendThenRemoveRestores(zones: seq<TransformZoneManifest>)
    ensures RemoveZone(zones + [DefaultTransformZoneManifest()], |zones|) == zones
  {
  }

  /** Zones [A, B, C] with focus 1: one removal leaves [A, C], a second one [A]. */
  lemma RemoveTwiceAtSameFocus(a: TransformZoneManifest, b: TransformZoneManifest, c: TransformZoneManifest)
    ensures RemoveZone([a, b, c], 1) == [a, c]
    ensures RemoveZone(RemoveZone([a, b, c], 1), 1) == [a]
  {
  }

  /** The zone "append" pushes satisfies the grid layout. */
  lemma DefaultZoneConsistent()
    ensures IsEmptyZone(DefaultZoneManifest()) && GridConsistent(DefaultZoneManifest())
  {
  }

  /** Removing a zone keeps every remaining zone's grid layout. */
  lemma RemoveZoneKeepsConsistency(zones: seq<TransformZoneManifest>, index: nat)
    requires forall i :: 0 <= i < |zones| ==> GridConsistent(zones[i].zoneManifest)
    ensures forall i :: 0 <= i < |RemoveZone(zones, index)| ==> GridConsistent(RemoveZone(zones, index)[i].zoneManifest)
  {
  }

  /**
   * Resizing does not resize the cells: changing one dimension of a consistent zone
   * whose other two dimensions are non-zero leaves it inconsistent.
   */
  lemma {:induction false} ResizeBreaksConsistency(z: ZoneManifest, axis: Axis, size: u32)
    requires GridConsistent(z)
    requires size != GridSize(z, axis)
    requires forall a :: a != axis ==> GridSize(z, a) != 0
    ensures !GridConsistent(WithGridSize(z, axis, size))
  {
    var r := WithGridSize(z, axis, size);
    var x, y, w := z.sizeGridX as int, z.sizeGridY as int, z.sizeGridZ as int;
    match axis
    case X =>
      assert GridSize(z, Y) != 0 && GridSize(z, Z) != 0;
      ProductDiffers(x, size as int, y * w);
      assert x * y * w == x * (y * w) && size as int * y * w == size as int * (y * w);
    case Y =>
      assert GridSize(z, X) != 0 && GridSize(z, Z) != 0;
      ProductDiffers(y, size as int, x * w);
      assert x * y * w == y * (x * w) && x * size as int * w == size as int * (x * w);
    case Z =>
      assert GridSize(z, X) != 0 && GridSize(z, Y) != 0;
      ProductDiffers(w, size as int, x * y);
      assert x * y * w == w * (x * y) && x * y * size as int == size as int * (x * y);
  }

  /** Scaling two different numbers by the same non-zero factor gives different products. */
  lemma ProductDiffers(a: int, b: int, k: int)
    requires a != b && k != 0
    ensures a * k != b * k
  {
  }

  // ------------------------------------------------------------ the session

  /**
   * The plugin's state: the editor draft (`ZoneLoaderEditorState`), the active
   * `ZoneLoader` resource and the documents the file backend holds, by key.
   */
  class EditorSession {
    var bootZoneRoot: Option<string>
    var draft: WorldManifest
    var focusedZoneIndex: u32
    var zoneLoader: ZoneLoader
    var disk: map<string, ZoneLoader>

    /** Plugin build: a default draft remembering the boot root, and a default `ZoneLoader`. */
    constructor (zoneRoot: Option<string>, files: map<string, ZoneLoader>)
      ensures bootZoneRoot == zoneRoot && draft == DefaultWorldManifest() && focusedZoneIndex == 0
      ensures zoneLoader == DefaultZoneLoader() && disk == files
    {
      bootZoneRoot := zoneRoot;
      draft := DefaultWorldManifest();
      focusedZoneIndex := 0;
      zoneLoader := DefaultZoneLoader();
      disk := files;
    }

    /** The pipeline's save: the document holds the `ZoneLoader` resource, dirty flag included, and nothing else. */
    method Save(key: string)
      modifies this`disk
      ensures disk == old(disk)[key := zoneLoader]
    {
      disk := disk[key := zoneLoader];
    }

    /**
     * The pipeline's load: the resource is removed and the stored one installed in
     * its place, with nothing merged from the old value. A missing document fails
     * and changes nothing.
     */
    method Load(key: string) returns (r: Outcome)
      modifies this`zoneLoader
      ensures key in disk ==> r == Pass && zoneLoader == disk[key]
      ensures key !in disk ==> r == Fail(NoDocument(key)) && zoneLoader == old(zoneLoader)
    {
      if key !in disk {
        return Fail(NoDocument(key));
      }
      zoneLoader := disk[key];
      r := Pass;
    }

    /** The focused-zone slider; its range is `0..=max(len, 1) - 1`. */
    method SetFocusedZoneIndex(index: u32)
      requires index as int <= FocusSliderMax(|draft.zonesWithTransforms|)
      modifies this`focusedZoneIndex
      ensures focusedZoneIndex == index
      ensures |draft.zonesWithTransforms| > 0 ==> focusedZoneIndex as int < |draft.zonesWithTransforms|
    {
      focusedZoneIndex := index;
    }

    /**
     * A grid-size slider of the focused zone. The sliders are shown only while the
     * focus is in range; the cells are not resized.
     */
    method SetGridSize(axis: Axis, size: u32) returns (shown: bool)
      requires size <= GRID_SIZE_MAX
      modifies this`draft
      ensures shown <==> focusedZoneIndex as int < |old(draft.zonesWithTransforms)|
      ensures !shown ==> draft == old(draft)
      ensures shown ==> var i := focusedZoneIndex as int; var zones := old(draft.zonesWithTransforms);
        draft.zonesWithTransforms == zones[i := zones[i].(zoneManifest := WithGridSize(zones[i].zoneManifest, axis, size))]
    {
      var zones := draft.zonesWithTransforms;
      shown := focusedZoneIndex as int < |zones|;
      if shown {
        var i := focusedZoneIndex as int;
        var zone := zones[i];
        draft := draft.(zonesWithTransforms := zones[i := zone.(zoneManifest := WithGridSize(zone.zoneManifest, axis, size))]);
      }
    }

    /** "removed focused zone": only the draft's zones change; focus, active state and disk stay. */
    method RemoveFocusedZone()
      modifies this`draft
      ensures draft.zonesWithTransforms == RemoveZone(old(draft.zonesWithTransforms), focusedZoneIndex as nat)
    {
      var zones := draft.zonesWithTransforms;
      if focusedZoneIndex as int < |zones| {
        var i := focusedZoneIndex as int;
        draft := draft.(zonesWithTransforms := zones[..i] + zones[i + 1..]);
      }
    }

    /** "append zone to loader editor": an identity-placed empty zone goes to the end. */
    method AppendZone()
      modifies this`draft
      ensures draft.zonesWithTransforms == old(draft.zonesWithTransforms) + [DefaultTransformZoneManifest()]
      ensures var last := draft.zonesWithTransforms[|draft.zonesWithTransforms| - 1];
        last.transform == IDENTITY && IsEmptyZone(last.zoneManifest) && GridConsistent(last.zoneManifest)
    {
      draft := draft.(zonesWithTransforms := draft.zonesWithTransforms + [DefaultTransformZoneManifest()]);
      DefaultZoneConsistent();
    }

    /** "copy loader editor to loader": the active manifest becomes the draft, and is clean. */
    method CopyDraftToActive()
      modifies this`zoneLoader
      ensures zoneLoader == ZoneLoader(draft, false)
    {
      zoneLoader := zoneLoader.(manifest := draft);
      zoneLoader := zoneLoader.(dirty := false);
    }

    /** "copy loader to loader editor": the draft becomes the active manifest, which stays but is marked clean. */
    method CopyActiveToDraft()
      modifies this`draft, this`zoneLoader
      ensures draft == old(zoneLoader.manifest)
      ensures zoneLoader == ZoneLoader(old(zoneLoader.manifest), false)
    {
      draft := zoneLoader.manifest;
      zoneLoader := zoneLoader.(dirty := false);
    }

    /** "read loader from disk": load the folder's manifest key. */
    method ReadFromDisk(folder: string) returns (r: Outcome)
      modifies this`zoneLoader
      ensures var key := Paths.ManifestKey(folder);
        if key in disk then r == Pass && zoneLoader == disk[key]
        else r == Fail(NoDocument(key)) && zoneLoader == old(zoneLoader)
    {
      r := Load(Paths.ManifestKey(folder));
    }

    /** "write loader to persistence": save the active state under the folder's manifest key. */
    method WriteToDisk(folder: string)
      modifies this`disk
      ensures disk == old(disk)[Paths.ManifestKey(folder) := zoneLoader]
    {
      Save(Paths.ManifestKey(folder));
    }

    /**
     * Boot: with a root folder, load its manifest key and copy the loaded manifest
     * into the draft (the dirty flag is left as loaded); without one nothing happens.
     */
    method AppSetup() returns (r: Outcome)
      modifies this`zoneLoader, this`draft
      ensures bootZoneRoot.None? ==> r == Pass && zoneLoader == old(zoneLoader) && draft == old(draft)
      ensures bootZoneRoot.Some? ==> var key := Paths.ManifestKey(bootZoneRoot.value);
        if key in disk then r == Pass && zoneLoader == disk[key] && draft == disk[key].manifest
        else r == Fail(NoDocument(key)) && zoneLoader == old(zoneLoader) && draft == old(draft)
    {
      r := Pass;
      if bootZoneRoot.Some? {
        r := Load(Paths.ManifestKey(bootZoneRoot.value));
        if r.Pass? {
          draft := zoneLoader.manifest;
        }
      }
    }
  }

  // ------------------------------------------------------ sessions end to end

  /** Plugin build followed by boot: the draft starts empty, or as the root folder's stored manifest. */
  method StartEditor(zoneRoot: Option<string>, files: map<string, ZoneLoader>) returns (s: EditorSession, r: Outcome)
    ensures zoneRoot.None? ==> r == Pass && s.draft == DefaultWorldManifest() && s.zoneLoader == DefaultZoneLoader()
    ensures zoneRoot.Some? && Paths.ManifestKey(zoneRoot.value) in files ==>
      r == Pass && s.zoneLoader == files[Paths.ManifestKey(zoneRoot.value)]
      && s.draft == s.zoneLoader.manifest
    ensures s.focusedZoneIndex == 0 && s.disk == files
  {
    s := new EditorSession(zoneRoot, files);
    r := s.AppSetup();
  }

  /** A fresh app saves its default `ZoneLoader`; a second fresh app loading that key gets it back. */
  method SaveRunOverRun(key: string) returns (loaded: ZoneLoader, r: Outcome)
    ensures r == Pass && loaded == DefaultZoneLoader()
    ensures loaded.manifest.zonesWithTransforms == [] && !loaded.dirty
  {
    var first := new EditorSession(None, map[]);
    first.Save(key);
    var second := new EditorSession(None, first.disk);
    second.zoneLoader := ZoneLoader(WorldManifest([DefaultTransformZoneManifest()]), true);
    r := second.Load(key);
    loaded := second.zoneLoader;
  }

  /**
   * Write, promote a different draft, read back: the active state is exactly what
   * was written, dirty flag included, and the draft is untouched.
   */
  method WritePromoteRead(s: EditorSession, folder: string) returns (r: Outcome)
    modifies s
    ensures r == Pass && s.zoneLoader == old(s.zoneLoader) && s.draft == old(s.draft)
  {
    s.WriteToDisk(folder);
    s.CopyDraftToActive();
    r := s.ReadFromDisk(folder);
  }

  /** Promote then refresh: the draft is unchanged and the active copy equals it, clean. */
  method PromoteThenRefresh(s: EditorSession)
    modifies s
    ensures s.draft == old(s.draft) && s.zoneLoader == ZoneLoader(old(s.draft), false)
  {
    s.CopyDraftToActive();
    s.CopyActiveToDraft();
  }
}
