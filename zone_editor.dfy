/**
 * The zone editor window: it persists the `ZoneCollectionManifest` resource.
 * "Create or overwrite root manifest" resets the resource and saves it;
 * "load manifest" only logs.
 */
module ZoneEditor {
  import opened Basics
  import Paths

  // ---------------------------------------------------------------- data model

  datatype TileData = TileData(relativePath: string, transform: Transform, dynamicMap: map<string, string>)

  /** A zone whose cells are nested by x, then y, then z. */
  datatype ZoneManifest = ZoneManifest(
    sizeGridX: u32,
    sizeGridY: u32,
    sizeGridZ: u32,
    tileset: seq<TileData>,
    gridValues: seq<seq<seq<u32>>>,
    zoneDynamicRootPath: string)

  datatype TransformZoneManifest = TransformZoneManifest(transform: Transform, zoneManifest: ZoneManifest)

  /** The zones of a collection and the index of the zone play starts in. */
  datatype ZoneCollectionManifest = ZoneCollectionManifest(startZone: u32, zonesWithTransforms: seq<TransformZoneManifest>)

  /** The stored document: the `ZoneCollectionManifest` resource, if the world had one. */
  datatype Snapshot = Snapshot(collection: Option<ZoneCollectionManifest>)

  /** `ZoneCollectionManifest::new()`. */
  function New(): ZoneCollectionManifest {
    ZoneCollectionManifest(0, [])
  }

  /** The start zone names one of the collection's zones. */
  predicate StartZoneValid(c: ZoneCollectionManifest) {
    (c.startZone as int) < |c.zonesWithTransforms|
  }

  /** A fresh collection has no zones, so its start zone 0 names none. */
  lemma NewHasNoStartZone()
    ensures New().zonesWithTransforms == [] && New().startZone == 0
    ensures !StartZoneValid(New())
  {
  }

  /** The buttons of the window, once a folder is selected. */
  datatype Widget = LoadManifestButton | CreateOrOverwriteButton

  /** Saving is always offered for a selected directory, "load manifest" only when the manifest file exists. */
  function Offered(w: Widget, manifestExists: bool): (r: bool)
    ensures w == LoadManifestButton ==> (r <==> manifestExists)
    ensures w == CreateOrOverwriteButton ==> r
  {
    w == CreateOrOverwriteButton || manifestExists
  }

  // ------------------------------------------------------------ the session

  /** The world's `ZoneCollectionManifest` resource and the documents the file backend holds, by key. */
  class ZoneEditorSession {
    var collection: Option<ZoneCollectionManifest>
    var disk: map<string, Snapshot>

    constructor (initial: Option<ZoneCollectionManifest>, files: map<string, Snapshot>)
      ensures collection == initial && disk == files
    {
      collection := initial;
      disk := files;
    }

    /** The pipeline's save: the document holds the `ZoneCollectionManifest` resource and nothing else. */
    method Save(key: string)
      modifies this`disk
      ensures disk == old(disk)[key := Snapshot(collection)]
    {
      disk := disk[key := Snapshot(collection)];
    }

    /** "load manifest": logs and changes nothing. */
    method LoadManifest()
      ensures unchanged(this)
    {
    }

    /**
     * "create or overwrite root manifest": the resource is removed, a fresh
     * `new()` one inserted, and that saved under the folder's manifest key.
     */
    method CreateOrOverwriteRootManifest(folder: string)
      modifies this`collection, this`disk
      ensures collection == Some(New())
      ensures disk == old(disk)[Paths.ManifestKey(folder) := Snapshot(Some(New()))]
    {
      collection := None;
      collection := Some(New());
      Save(Paths.ManifestKey(folder));
    }
  }

  /**
   * Whatever collection the world held, and whatever the disk held, the document
   * "create or overwrite root manifest" writes is the empty collection.
   */
  method OverwriteWritesEmptyCollection(prior: Option<ZoneCollectionManifest>, files: map<string, Snapshot>, folder: string)
    returns (written: Snapshot)
    ensures written.collection.Some? && written.collection.value.zonesWithTransforms == []
    ensures written.collection.value.startZone == 0
  {
    var s := new ZoneEditorSession(prior, files);
    s.CreateOrOverwriteRootManifest(folder);
    written := s.disk[Paths.ManifestKey(folder)];
  }
}
