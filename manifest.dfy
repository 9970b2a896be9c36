/**
 * The processing-results helper: given the response for a processing job's
 * manifest (`ok` and the parsed `manifest.json`), it renames each entry's type
 * through a fixed table and sorts the typed entries into 3D-tiles `layers` and
 * downloadable `files`, in manifest order.
 */
module Manifest {
  import opened Js

  /** The public bucket the mock reads from. */
  const Bucket := "test.datahub-benchmark.1"

  /** `internals.mapTypes`: types that have other names. */
  const MapTypes: Fields := [
    ("3dmesh", Str("mesh")),
    ("pointCloud", Str("pointcloud")),
    ("subsampled_pointCloud", Str("subsampled_pointcloud")),
    ("groundreturn_pointCloud", Str("groundreturn_pointcloud")),
    ("DSM", Str("dsm")),
    ("ortho", Str("orthophoto"))]

  /** `internals.mapTypes[type] || type`. */
  function Rename(t: Value): Value {
    var mapped := Lookup(MapTypes, ToStr(t));
    if Truthy(mapped) then mapped else t
  }

  /** The table read at one name: the listed new name, or nothing. */
  lemma {:induction false} MapTypesAt(name: string)
    ensures Lookup(MapTypes, name) ==
      if name == "3dmesh" then Str("mesh")
      else if name == "pointCloud" then Str("pointcloud")
      else if name == "subsampled_pointCloud" then Str("subsampled_pointcloud")
      else if name == "groundreturn_pointCloud" then Str("groundreturn_pointcloud")
      else if name == "DSM" then Str("dsm")
      else if name == "ortho" then Str("orthophoto")
      else Undefined
  {
    var m := MapTypes;
    assert m[6..] == [];
    assert Lookup(m, name) == if name == "3dmesh" then Str("mesh") else Lookup(m[1..], name);
    assert Lookup(m[1..], name) == if name == "pointCloud" then Str("pointcloud") else Lookup(m[2..], name);
    assert Lookup(m[2..], name) == if name == "subsampled_pointCloud" then Str("subsampled_pointcloud") else Lookup(m[3..], name);
    assert Lookup(m[3..], name) == if name == "groundreturn_pointCloud" then Str("groundreturn_pointcloud") else Lookup(m[4..], name);
    assert Lookup(m[4..], name) == if name == "DSM" then Str("dsm") else Lookup(m[5..], name);
    assert Lookup(m[5..], name) == if name == "ortho" then Str("orthophoto") else Lookup(m[6..], name);
  }

  /** The new names the table gives. */
  const NewNames: set<string> := {"mesh", "pointcloud", "subsampled_pointcloud", "groundreturn_pointcloud", "dsm", "orthophoto"}

  /** The renaming table: a listed name becomes its new name, any other type is kept. */
  lemma RenameMeaning(t: Value)
    ensures Lookup(MapTypes, ToStr(t)) == Undefined ==> Rename(t) == t
    ensures Lookup(MapTypes, ToStr(t)) != Undefined ==> Rename(t).Str? && Rename(t).s in NewNames
    ensures ToStr(t) == "3dmesh" ==> Rename(t) == Str("mesh")
    ensures ToStr(t) == "pointCloud" ==> Rename(t) == Str("pointcloud")
    ensures ToStr(t) == "subsampled_pointCloud" ==> Rename(t) == Str("subsampled_pointcloud")
    ensures ToStr(t) == "groundreturn_pointCloud" ==> Rename(t) == Str("groundreturn_pointcloud")
    ensures ToStr(t) == "DSM" ==> Rename(t) == Str("dsm")
    ensures ToStr(t) == "ortho" ==> Rename(t) == Str("orthophoto")
  {
    MapTypesAt(ToStr(t));
  }

  /** No new name is spelled like one of the listed old names. */
  lemma NewNamesAreNotOld(s: string)
    requires s in NewNames
    ensures s != "3dmesh" && s != "pointCloud" && s != "subsampled_pointCloud"
    ensures s != "groundreturn_pointCloud" && s != "DSM" && s != "ortho"
  {
    assert "pointcloud"[5] != "pointCloud"[5];
    assert "subsampled_pointcloud"[16] != "subsampled_pointCloud"[16];
    assert "groundreturn_pointcloud"[18] != "groundreturn_pointCloud"[18];
    assert "dsm"[0] != "DSM"[0];
    assert "orthophoto"[0] != "pointCloud"[0];
  }

  /** So the table has nothing under a new name. */
  lemma NewNameUnlisted(s: string)
    requires s in NewNames
    ensures Lookup(MapTypes, s) == Undefined
  {
    NewNamesAreNotOld(s);
    MapTypesAt(s);
  }

  /** No new name is itself an old name, so renaming twice is renaming once. */
  lemma RenameIdempotent(t: Value)
    ensures Rename(Rename(t)) == Rename(t)
  {
    RenameMeaning(t);
    if Lookup(MapTypes, ToStr(t)) != Undefined {
      NewNameUnlisted(Rename(t).s);
      assert ToStr(Rename(t)) == Rename(t).s;
    }
  }

  /** `type.indexOf('3dtiles') !== -1`: a substring test on text, an element test on arrays, no method otherwise. */
  function Contains3dTiles(t: Value): Result<bool> {
    match t
    case Str(s) => Ok(IndexOf(s, "3dtiles", 0) != -1)
    case Arr(items) => Ok(Str("3dtiles") in items)
    case _ => Throw(TypeError)
  }

  /** `typeToDir[type]` as the path template renders it. */
  function TileDir(t: Value): string {
    if ToStr(t) == "3dtiles_pointcloud" then "pointcloud" else "undefined"
  }

  datatype Layer = Layer(kind: Value, bucket: string, path: string)

  datatype FileEntry = FileEntry(
    name: Value, ccrs: Value, kind: Value, resolution: Value, url: string, bucket: string, path: string)

  /** `{results: {layers, files}}`. */
  datatype Results = Results(layers: seq<Layer>, files: seq<FileEntry>)

  /** Where one manifest entry ends up. */
  datatype Placement = Skipped | AsLayer(layer: Layer) | AsFile(file: FileEntry)

  /** The layer pushed for an entry whose renamed type mentions 3D tiles. */
  function TilesLayer(puuid: Value, renamed: Value): Layer {
    Layer(renamed, Bucket, ToStr(puuid) + "/3dtiles/" + TileDir(renamed) + "/tileset.json")
  }

  /** The file pushed for any other typed entry; `resolution` defaults to `'full'`. */
  function DownloadFile(puuid: Value, f: Value, renamed: Value): FileEntry {
    FileEntry(Get(f, "filename"), Get(f, "projection"), renamed, OrDefault(Get(f, "resolution"), Str("full")),
      "", Bucket, ToStr(puuid) + "/" + ToStr(Get(f, "filename")))
  }

  /** What the loop body does with one entry. */
  function ShapeEntry(puuid: Value, f: Value): Result<Placement> {
    if Nullish(f) then Throw(TypeError)
    else if !Truthy(Get(f, "type")) then Ok(Skipped)
    else
      var renamed := Rename(Get(f, "type"));
      var tiles :- Contains3dTiles(renamed);
      Ok(if tiles then AsLayer(TilesLayer(puuid, renamed)) else AsFile(DownloadFile(puuid, f, renamed)))
  }

  /** How the loop body places one entry. */
  type Shaper = Value -> Result<Placement>

  /** The loop body of the handler for the job `puuid`. */
  function EntryShaper(puuid: Value): Shaper {
    f => ShapeEntry(puuid, f)
  }

  /** The lists after the loop has run over `entries`. */
  function Shape(shape: Shaper, entries: seq<Value>): Result<Results> {
    if entries == [] then Ok(Results([], []))
    else
      var acc :- Shape(shape, entries[..|entries| - 1]);
      var placed :- shape(entries[|entries| - 1]);
      Ok(Add(acc, placed))
  }

  /** `layers.push(...)` or `files.push(...)`, or nothing for an entry that is skipped. */
  function Add(acc: Results, placed: Placement): Results {
    match placed
    case Skipped => acc
    case AsLayer(l) => Results(acc.layers + [l], acc.files)
    case AsFile(e) => Results(acc.layers, acc.files + [e])
  }

  /** The loop's next step in terms of the previous one. */
  lemma ShapeSnoc(shape: Shaper, entries: seq<Value>, i: nat)
    requires i < |entries|
    ensures Shape(shape, entries[..i + 1]) ==
      match Shape(shape, entries[..i])
      case Throw(e) => Throw(e)
      case Ok(acc) =>
        match shape(entries[i])
        case Throw(e) => Throw(e)
        case Ok(placed) => Ok(Add(acc, placed))
  {
    assert entries[..i + 1][..i] == entries[..i];
  }

  /** The whole handler after the fetch: the `ok` check comes first, then the loop over the manifest. */
  function Handle(puuid: Value, ok: bool, manifest: Value): Result<Results> {
    if !ok then Throw(ReferenceError("uuid"))
    else if !manifest.Arr? then Throw(TypeError)
    else Shape(EntryShaper(puuid), manifest.items)
  }

  /** The message the failed-status check evidently means to throw: it names the job being read. */
  function FailureMessage(puuid: Value): string {
    "Failed to retrieve processing job " + ToStr(puuid) + " data"
  }

  /** The handler with the failed-status check throwing the error its message describes. */
  function HandleIntended(puuid: Value, ok: bool, manifest: Value): Result<Results> {
    if !ok then Throw(Error(FailureMessage(puuid)))
    else Handle(puuid, ok, manifest)
  }

  /**
   * As written, a failed response never yields the error naming the job: building
   * its message reads the undeclared `uuid`, whatever `puuid` and the manifest are.
   */
  lemma FailedStatusIsReferenceError(puuid: Value, manifest: Value)
    ensures Handle(puuid, false, manifest) == Throw(ReferenceError("uuid"))
    ensures Handle(puuid, false, manifest) != HandleIntended(puuid, false, manifest)
  {
  }

  /**
   * Corrected, a failed response throws an `Error` whose message names the job, and
   * a successful one is handled exactly as before.
   */
  lemma HandleIntendedMeaning(puuid: Value, ok: bool, manifest: Value)
    ensures !ok ==> HandleIntended(puuid, ok, manifest).Throw?
    ensures !ok ==> HandleIntended(puuid, ok, manifest).exception.Error?
    ensures !ok ==> var m := HandleIntended(puuid, ok, manifest).exception.message;
      m[..34] == "Failed to retrieve processing job " && m[34..|m| - 5] == ToStr(puuid)
    ensures ok ==> HandleIntended(puuid, ok, manifest) == Handle(puuid, ok, manifest)
  {
    if !ok {
      var m := FailureMessage(puuid);
      assert m[..34] == "Failed to retrieve processing job ";
      assert m[34..|m| - 5] == ToStr(puuid);
    }
  }

  /** Once an entry has thrown, the loop ends with that exception. */
  lemma {:induction false} ShapeStaysThrown(shape: Shaper, entries: seq<Value>, i: nat)
    requires i <= |entries| && Shape(shape, entries[..i]).Throw?
    ensures Shape(shape, entries) == Shape(shape, entries[..i])
    decreases |entries| - i
  {
    if i < |entries| {
      assert entries[..i + 1][..i] == entries[..i];
      ShapeStaysThrown(shape, entries, i + 1);
    } else {
      assert entries[..i] == entries;
    }
  }

  /** The `forEach` callback for one entry: destructure it, rename its type, choose the list. */
  method PlaceEntry(puuid: Value, f: Value) returns (r: Result<Placement>)
    ensures r == ShapeEntry(puuid, f)
  {
    if Nullish(f) {
      return Throw(TypeError);
    }
    var kind := Get(f, "type");
    if !Truthy(kind) {
      return Ok(Skipped);
    }
    kind := Rename(kind);
    var tiles := Contains3dTiles(kind);
    if tiles.Throw? {
      return Throw(tiles.exception);
    }
    if tiles.value {
      r := Ok(AsLayer(TilesLayer(puuid, kind)));
    } else {
      r := Ok(AsFile(DownloadFile(puuid, f, kind)));
    }
  }

  /**
   * The handler, step by step: the response status is checked before anything
   * else (the error message names an undeclared `uuid`, so what is thrown is a
   * ReferenceError), then each entry is pushed to `layers` or `files`.
   */
  method ShapeManifest(puuid: Value, ok: bool, manifest: Value) returns (r: Result<Results>)
    ensures r == Handle(puuid, ok, manifest)
  {
    if !ok {
      return Throw(ReferenceError("uuid"));
    }
    if !manifest.Arr? {
      return Throw(TypeError);
    }
    var entries := manifest.items;
    var shape := EntryShaper(puuid);
    var files: seq<FileEntry> := [];
    var layers: seq<Layer> := [];
    var i := 0;
    while i < |entries|
      invariant 0 <= i <= |entries|
      invariant Shape(shape, entries[..i]) == Ok(Results(layers, files))
    {
      ShapeSnoc(shape, entries, i);
      var placed := PlaceEntry(puuid, entries[i]);
      assert placed == shape(entries[i]);
      if placed.Throw? {
        ShapeStaysThrown(shape, entries, i + 1);
        return Throw(placed.exception);
      }
      match placed.value {
        case Skipped =>
        case AsLayer(l) => layers := layers + [l];
        case AsFile(e) => files := files + [e];
      }
      i := i + 1;
    }
    assert entries[..i] == entries;
    return Ok(Results(layers, files));
  }

  // ---------------------------------------------------------------------------
  // The loop as a partition

  /** Each entry's placement, entry by entry. */
  function Placements(shape: Shaper, entries: seq<Value>): (r: Result<seq<Placement>>)
    ensures r.Ok? ==> |r.value| == |entries|
  {
    if entries == [] then Ok([])
    else
      var init :- Placements(shape, entries[..|entries| - 1]);
      var last :- shape(entries[|entries| - 1]);
      Ok(init + [last])
  }

  /** The layers among some placements, in order. */
  function LayersOf(ps: seq<Placement>): seq<Layer> {
    if ps == [] then []
    else LayersOf(ps[..|ps| - 1]) + (if ps[|ps| - 1].AsLayer? then [ps[|ps| - 1].layer] else [])
  }

  /** The files among some placements, in order. */
  function FilesOf(ps: seq<Placement>): seq<FileEntry> {
    if ps == [] then []
    else FilesOf(ps[..|ps| - 1]) + (if ps[|ps| - 1].AsFile? then [ps[|ps| - 1].file] else [])
  }

  /** How many placements put their entry somewhere. */
  function KeptCount(ps: seq<Placement>): nat {
    if ps == [] then 0 else KeptCount(ps[..|ps| - 1]) + (if ps[|ps| - 1].Skipped? then 0 else 1)
  }

  /** The placements exist exactly when every entry can be shaped. */
  lemma {:induction false} PlacementsOk(shape: Shaper, entries: seq<Value>)
    ensures Placements(shape, entries).Ok? <==> forall i :: 0 <= i < |entries| ==> shape(entries[i]).Ok?
  {
    if entries != [] {
      var init := entries[..|entries| - 1];
      PlacementsOk(shape, init);
      assert forall i :: 0 <= i < |init| ==> init[i] == entries[i];
    }
  }

  /** The placements are the entries shaped one by one, at the same positions. */
  lemma {:induction false} PlacementsAt(shape: Shaper, entries: seq<Value>)
    requires Placements(shape, entries).Ok?
    ensures forall i :: 0 <= i < |entries| ==> Ok(Placements(shape, entries).value[i]) == shape(entries[i])
  {
    if entries != [] {
      var init := entries[..|entries| - 1];
      PlacementsAt(shape, init);
      var ps := Placements(shape, entries).value;
      var before := Placements(shape, init).value;
      assert ps == before + [shape(entries[|entries| - 1]).value];
      assert forall i :: 0 <= i < |init| ==> init[i] == entries[i] && ps[i] == before[i];
    }
  }

  /**
   * The loop partitions the manifest: `layers` are the layer placements and `files`
   * the file placements, each in manifest order, and it throws exactly when some
   * entry cannot be shaped.
   */
  lemma {:induction false} ShapeIsPartition(shape: Shaper, entries: seq<Value>)
    ensures Shape(shape, entries).Ok? <==> Placements(shape, entries).Ok?
    ensures Shape(shape, entries).Ok? ==>
      var ps := Placements(shape, entries).value;
      Shape(shape, entries).value == Results(LayersOf(ps), FilesOf(ps))
  {
    if entries != [] {
      var init := entries[..|entries| - 1];
      ShapeIsPartition(shape, init);
      if Placements(shape, entries).Ok? {
        var ps := Placements(shape, entries).value;
        assert ps[..|ps| - 1] == Placements(shape, init).value;
      }
    }
  }

  /** Every kept placement lands in exactly one list. */
  lemma {:induction false} PartitionCount(ps: seq<Placement>)
    ensures |LayersOf(ps)| + |FilesOf(ps)| == KeptCount(ps)
  {
    if ps != [] {
      PartitionCount(ps[..|ps| - 1]);
    }
  }

  /** How many entries carry a truthy `type`. */
  function TypedCount(entries: seq<Value>): nat {
    if entries == [] then 0
    else TypedCount(entries[..|entries| - 1]) + (if Truthy(Get(entries[|entries| - 1], "type")) then 1 else 0)
  }

  /** The handler keeps exactly the entries with a truthy `type`. */
  lemma {:induction false} KeptAreTyped(puuid: Value, entries: seq<Value>)
    requires Placements(EntryShaper(puuid), entries).Ok?
    ensures KeptCount(Placements(EntryShaper(puuid), entries).value) == TypedCount(entries)
  {
    if entries != [] {
      var init := entries[..|entries| - 1];
      KeptAreTyped(puuid, init);
      var ps := Placements(EntryShaper(puuid), entries).value;
      assert ps[..|ps| - 1] == Placements(EntryShaper(puuid), init).value;
    }
  }

  /**
   * For a well-formed response, the lists hold as many entries together as the
   * manifest has typed entries.
   */
  lemma HandleCounts(puuid: Value, manifest: Value)
    requires manifest.Arr? && Handle(puuid, true, manifest).Ok?
    ensures var res := Handle(puuid, true, manifest).value;
      |res.layers| + |res.files| == TypedCount(manifest.items)
  {
    ShapeIsPartition(EntryShaper(puuid), manifest.items);
    var ps := Placements(EntryShaper(puuid), manifest.items).value;
    PartitionCount(ps);
    KeptAreTyped(puuid, manifest.items);
  }

  /**
   * One entry: null or undefined throws; a falsy type is dropped; otherwise the
   * renamed type decides.  A textual type mentioning `3dtiles` makes a layer of that
   * type in the bucket at `<puuid>/3dtiles/<dir>/tileset.json`; any other makes a
   * file named after `filename`, with its projection, an empty URL, the path
   * `<puuid>/<filename>` and a resolution that defaults to `full`.
   */
  lemma ShapeEntryMeaning(puuid: Value, f: Value)
    ensures Nullish(f) ==> ShapeEntry(puuid, f) == Throw(TypeError)
    ensures !Nullish(f) && !Truthy(Get(f, "type")) ==> ShapeEntry(puuid, f) == Ok(Skipped)
    ensures !Nullish(f) && Truthy(Get(f, "type")) && Rename(Get(f, "type")).Str? ==>
      var t := Rename(Get(f, "type")).s;
      var r := ShapeEntry(puuid, f);
      && r.Ok? && !r.value.Skipped?
      && (r.value.AsLayer? <==> exists i: nat :: OccursAt(t, "3dtiles", i))
      && (r.value.AsLayer? ==>
            && r.value.layer.kind == Str(t)
            && r.value.layer.bucket == Bucket
            && r.value.layer.path == ToStr(puuid) + "/3dtiles/"
                 + (if t == "3dtiles_pointcloud" then "pointcloud" else "undefined") + "/tileset.json")
      && (r.value.AsFile? ==>
            && r.value.file.name == Get(f, "filename")
            && r.value.file.ccrs == Get(f, "projection")
            && r.value.file.kind == Str(t)
            && r.value.file.url == ""
            && r.value.file.bucket == Bucket
            && r.value.file.path == ToStr(puuid) + "/" + ToStr(Get(f, "filename"))
            && r.value.file.resolution ==
                 (if Get(f, "resolution").Undefined? then Str("full") else Get(f, "resolution")))
  {
    if !Nullish(f) && Truthy(Get(f, "type")) && Rename(Get(f, "type")).Str? {
      var t := Rename(Get(f, "type")).s;
      assert ToStr(Str(t)) == t;
      if IndexOf(t, "3dtiles", 0) != -1 {
        assert OccursAt(t, "3dtiles", IndexOf(t, "3dtiles", 0) as nat);
      }
    }
  }

  /** Text whose characters never start the pattern holds no occurrence of it. */
  lemma NoOccurrence(s: string, pat: string)
    requires pat != [] && pat[0] !in s
    ensures IndexOf(s, pat, 0) == -1
  {
  }

  /** None of the new names holds the digit 3. */
  lemma NewNamesWithoutThree(n: string)
    requires n in NewNames
    ensures '3' !in n
  {
    assert n == "mesh" || n == "pointcloud" || n == "subsampled_pointcloud" || n == "groundreturn_pointcloud"
      || n == "dsm" || n == "orthophoto";
  }

  /** A known type is renamed to a name without `3dtiles`, so such entries always become files. */
  lemma RenamedTypesAreFiles(puuid: Value, f: Value)
    requires !Nullish(f) && Truthy(Get(f, "type")) && Lookup(MapTypes, ToStr(Get(f, "type"))) != Undefined
    ensures ShapeEntry(puuid, f) == Ok(AsFile(DownloadFile(puuid, f, Rename(Get(f, "type")))))
  {
    RenameMeaning(Get(f, "type"));
    NewNamesWithoutThree(Rename(Get(f, "type")).s);
    NoOccurrence(Rename(Get(f, "type")).s, "3dtiles");
  }
}
