/**
 * The world editor plugin: the persisted unit is every entity carrying a
 * `WorldManifest` component. Loading spawns the stored entities next to the ones
 * already alive and marks the `ZoneLoader` resource dirty.
 */
module WorldEditor {
  import opened Basics
  import Paths
  import SaveLoader

  // ---------------------------------------------------------------- data model
  // Tiles, zones and placed zones have the same fields as in the save/loader
  // plugin; only the world manifest differs, by its start zones.

  datatype WorldManifest = WorldManifest(startZones: seq<u32>, zonesWithTransforms: seq<SaveLoader.TransformZoneManifest>)

  /** This plugin's own `ZoneLoader` resource. */
  datatype ZoneLoader = ZoneLoader(manifest: WorldManifest, dirty: bool)

  function DefaultWorldManifest(): WorldManifest {
    WorldManifest([], [])
  }

  /** Every start zone names one of the world's zones. */
  predicate StartZonesValid(m: WorldManifest) {
    forall i :: 0 <= i < |m.startZones| ==> (m.startZones[i] as int) < |m.zonesWithTransforms|
  }

  /** The default world has no zones and no start zones, and so no dangling start zone. */
  lemma DefaultWorldManifestEmpty()
    ensures DefaultWorldManifest().startZones == [] && DefaultWorldManifest().zonesWithTransforms == []
    ensures StartZonesValid(DefaultWorldManifest())
  {
  }

  /**
   * The components of one entity: its `WorldManifest`, if any, and the names of
   * the other components it carries (copied along, never inspected).
   */
  datatype EntityData = EntityData(worldManifest: Option<WorldManifest>, otherComponents: seq<string>)

  datatype Entity = Entity(id: nat, data: EntityData)

  /** The stored document: the captured entities, in world order. */
  datatype Snapshot = Snapshot(entities: seq<EntityData>)

  predicate HasWorldManifest(d: EntityData) {
    d.worldManifest.Some?
  }

  /** The components of every entity of the world, in order. */
  function Components(world: seq<Entity>): seq<EntityData> {
    seq(|world|, k requires 0 <= k < |world| => world[k].data)
  }

  /** How many entities of the world carry a `WorldManifest`. */
  function CountWorldManifests(world: seq<Entity>): nat {
    if world == [] then 0
    else (if HasWorldManifest(world[0].data) then 1 else 0) + CountWorldManifests(world[1..])
  }

  /**
   * The pipeline's capture, `extract_entities_matching(contains::<WorldManifest>)`:
   * exactly the entities carrying a `WorldManifest`, in world order, with all
   * their components.
   */
  function Capture(world: seq<Entity>): (r: seq<EntityData>)
    ensures |r| <= |world|
    ensures forall d :: d in r <==> d in Components(world) && HasWorldManifest(d)
  {
    if world == [] then []
    else
      var rest := Capture(world[1..]);
      assert Components(world) == [world[0].data] + Components(world[1..]);
      if HasWorldManifest(world[0].data) then [world[0].data] + rest else rest
  }

  /** The applier spawns each stored entity as a fresh entity, ids counting up from `firstId`. */
  function Spawn(stored: seq<EntityData>, firstId: nat): seq<Entity> {
    seq(|stored|, k requires 0 <= k < |stored| => Entity(firstId + k, stored[k]))
  }

  /** Live entities have distinct ids, all below the next id to hand out. */
  ghost predicate FreshIds(world: seq<Entity>, nextId: nat) {
    (forall i :: 0 <= i < |world| ==> world[i].id < nextId)
    && (forall i, j :: 0 <= i < j < |world| ==> world[i].id != world[j].id)
  }

  // ------------------------------------------------------- lemmas on the model

  /** The capture holds one entry per entity carrying a `WorldManifest`. */
  lemma {:induction false} CaptureCount(world: seq<Entity>)
    ensures |Capture(world)| == CountWorldManifests(world)
  {
    if world != [] {
      CaptureCount(world[1..]);
    }
  }

  /** Capturing a world made of two parts captures each part, in order. */
  lemma {:induction false} CaptureAppend(a: seq<Entity>, b: seq<Entity>)
    ensures Capture(a + b) == Capture(a) + Capture(b)
  {
    if a == [] {
      assert a + b == b;
    } else {
      assert (a + b)[0] == a[0];
      assert (a + b)[1..] == a[1..] + b;
      CaptureAppend(a[1..], b);
    }
  }

  /** Spawned entities are captured back as exactly the stored document. */
  lemma {:induction false} CaptureSpawned(stored: seq<EntityData>, firstId: nat)
    requires forall d :: d in stored ==> HasWorldManifest(d)
    ensures Capture(Spawn(stored, firstId)) == stored
  {
    if stored != [] {
      var spawned := Spawn(stored, firstId);
      assert spawned[0] == Entity(firstId, stored[0]);
      assert spawned[1..] == Spawn(stored[1..], firstId + 1);
      CaptureSpawned(stored[1..], firstId + 1);
      assert stored == [stored[0]] + stored[1..];
    }
  }

  /**
   * Save, load into an empty world, save again: the second document equals the
   * first, whatever else the original world held.
   */
  lemma SaveLoadSaveStable(world: seq<Entity>, firstId: nat)
    ensures Capture(Spawn(Capture(world), firstId)) == Capture(world)
  {
    CaptureSpawned(Capture(world), firstId);
  }

  /**
   * No deduplication: loading the same document twice into a world adds its
   * manifests twice.
   */
  lemma LoadTwiceDuplicates(world: seq<Entity>, stored: seq<EntityData>, firstId: nat, secondId: nat)
    requires forall d :: d in stored ==> HasWorldManifest(d)
    ensures CountWorldManifests(world + Spawn(stored, firstId) + Spawn(stored, secondId))
         == CountWorldManifests(world) + 2 * |stored|
  {
    var once := world + Spawn(stored, firstId);
    CaptureAppend(world, Spawn(stored, firstId));
    CaptureAppend(once, Spawn(stored, secondId));
    CaptureSpawned(stored, firstId);
    CaptureSpawned(stored, secondId);
    CaptureCount(world);
    CaptureCount(once + Spawn(stored, secondId));
  }

  /** Loading appends fresh entities, so distinct, bounded ids stay distinct and bounded. */
  lemma SpawnKeepsFreshIds(world: seq<Entity>, nextId: nat, stored: seq<EntityData>)
    requires FreshIds(world, nextId)
    ensures FreshIds(world + Spawn(stored, nextId), nextId + |stored|)
  {
  }

  // ------------------------------------------------------------ the session

  /**
   * The ECS world as this plugin sees it: the live entities, the next entity id,
   * its `ZoneLoader` resource and the documents the file backend holds, by key.
   */
  class WorldSession {
    var entities: seq<Entity>
    var nextId: nat
    var zoneLoader: ZoneLoader
    var disk: map<string, Snapshot>

    ghost predicate Valid()
      reads this
    {
      FreshIds(entities, nextId)
    }

    /** Plugin build: no entities yet, a default `ZoneLoader`. */
    constructor (files: map<string, Snapshot>)
      ensures Valid() && entities == [] && zoneLoader == ZoneLoader(DefaultWorldManifest(), false)
      ensures disk == files
    {
      entities := [];
      nextId := 0;
      zoneLoader := ZoneLoader(DefaultWorldManifest(), false);
      disk := files;
    }

    /** `world.spawn`: one fresh entity. */
    method SpawnEntity(data: EntityData) returns (id: nat)
      requires Valid()
      modifies this`entities, this`nextId
      ensures Valid() && id == old(nextId) && nextId == old(nextId) + 1
      ensures entities == old(entities) + [Entity(id, data)]
    {
      id := nextId;
      SpawnKeepsFreshIds(entities, nextId, [data]);
      entities := entities + Spawn([data], nextId);
      nextId := nextId + 1;
    }

    /** The pipeline's save: the captured entities, and no resource. */
    method Save(key: string)
      modifies this`disk
      ensures disk == old(disk)[key := Snapshot(Capture(entities))]
    {
      disk := disk[key := Snapshot(Capture(entities))];
    }

    /**
     * The pipeline's load: the stored entities are spawned fresh after the live
     * ones, which all stay. A missing document fails and changes nothing.
     */
    method Load(key: string) returns (r: Outcome)
      requires Valid()
      modifies this`entities, this`nextId
      ensures Valid()
      ensures key in disk ==>
                r == Pass && entities == old(entities) + Spawn(disk[key].entities, old(nextId))
                && nextId == old(nextId) + |disk[key].entities|
      ensures key !in disk ==>
                r == Fail(NoDocument(key)) && entities == old(entities) && nextId == old(nextId)
    {
      if key !in disk {
        return Fail(NoDocument(key));
      }
      var stored := disk[key].entities;
      SpawnKeepsFreshIds(entities, nextId, stored);
      entities := entities + Spawn(stored, nextId);
      nextId := nextId + |stored|;
      r := Pass;
    }

    /** "load zone": load the folder's manifest key, then mark the `ZoneLoader` dirty. */
    method LoadZone(folder: string) returns (r: Outcome)
      requires Valid()
      modifies this`entities, this`nextId, this`zoneLoader
      ensures Valid()
      ensures var key := Paths.ManifestKey(folder);
        if key in disk then
          r == Pass && zoneLoader == old(zoneLoader).(dirty := true)
          && entities == old(entities) + Spawn(disk[key].entities, old(nextId))
          && nextId == old(nextId) + |disk[key].entities|
        else
          r == Fail(NoDocument(key)) && zoneLoader == old(zoneLoader) && entities == old(entities)
          && nextId == old(nextId)
    {
      r := Load(Paths.ManifestKey(folder));
      if r.Pass? {
        zoneLoader := zoneLoader.(dirty := true);
      }
    }

    /** "create or overwrite root manifest": save under the folder's manifest key. */
    method CreateOrOverwriteRootManifest(folder: string)
      modifies this`disk
      ensures disk == old(disk)[Paths.ManifestKey(folder) := Snapshot(Capture(entities))]
    {
      Save(Paths.ManifestKey(folder));
    }
  }

  /** The buttons of the window, once a folder is selected. */
  datatype Widget = LoadZoneButton | CreateOrOverwriteButton

  /**
   * Which buttons are shown for a selected folder. The folder is a directory (the
   * window aborts otherwise): saving is always offered, loading only when the
   * manifest file exists.
   */
  function Offered(w: Widget, manifestExists: bool): (r: bool)
    ensures w == LoadZoneButton ==> (r <==> manifestExists)
    ensures w == CreateOrOverwriteButton ==> r
  {
    w == CreateOrOverwriteButton || manifestExists
  }

  // ------------------------------------------------------ sessions end to end

  /**
   * Save a world holding one empty `WorldManifest` entity, load it into a fresh
   * world: that world has exactly one entity, and it carries the manifest.
   */
  method SaveRunOverRun(key: string) returns (loaded: seq<Entity>, r: Outcome)
    ensures r == Pass && |loaded| == 1 && CountWorldManifests(loaded) == 1
    ensures loaded[0].data.worldManifest == Some(DefaultWorldManifest())
  {
    var first := new WorldSession(map[]);
    var manifestEntity := EntityData(Some(WorldManifest([], [])), []);
    var _ := first.SpawnEntity(manifestEntity);
    first.Save(key);
    var second := new WorldSession(first.disk);
    r := second.Load(key);
    loaded := second.entities;
    assert Capture([Entity(0, manifestEntity)]) == [manifestEntity] by {
      assert [Entity(0, manifestEntity)][1..] == [];
    }
    CaptureCount(loaded);
    CaptureSpawned([manifestEntity], 0);
  }

  /** A second "load zone" of the same folder doubles the loaded manifests, and the loader stays dirty. */
  method LoadZoneTwice(s: WorldSession, folder: string) returns (r1: Outcome, r2: Outcome)
    requires s.Valid()
    requires Paths.ManifestKey(folder) in s.disk
    requires forall d :: d in s.disk[Paths.ManifestKey(folder)].entities ==> HasWorldManifest(d)
    modifies s
    ensures s.disk == old(s.disk)
    ensures s.Valid() && r1 == Pass && r2 == Pass && s.zoneLoader.dirty
    ensures CountWorldManifests(s.entities)
         == CountWorldManifests(old(s.entities)) + 2 * |s.disk[Paths.ManifestKey(folder)].entities|
  {
    ghost var stored := s.disk[Paths.ManifestKey(folder)].entities;
    r1 := s.LoadZone(folder);
    ghost var firstId := old(s.nextId);
    ghost var secondId := s.nextId;
    r2 := s.LoadZone(folder);
    LoadTwiceDuplicates(old(s.entities), stored, firstId, secondId);
  }
}
