/** Catalog directories: each holds a provider/surface pair once, and later directories overlay earlier ones. */
module FlowCollection {
  import opened Results
  import opened Json
  import opened FlowModel

  datatype DirectoryEntry = DirectoryEntry(sourcePath: string, catalog: Catalog)

  /** A directory: absent, or the outcome of reading each of its JSON files in path order. */
  datatype Directory = Missing | Files(files: seq<Result<DirectoryEntry, BlobError>>)

  predicate SamePair(a: DirectoryEntry, b: DirectoryEntry) {
    a.catalog.provider == b.catalog.provider && a.catalog.surface == b.catalog.surface
  }

  /** Each provider/surface pair stands in the list once. */
  ghost predicate OncePerPair(entries: seq<DirectoryEntry>) {
    forall i, j :: 0 <= i < j < |entries| ==> !SamePair(entries[i], entries[j])
  }

  function PairKey(e: DirectoryEntry): string {
    e.catalog.provider + "/" + e.catalog.surface
  }

  /** Every file loads and the joined keys differ. */
  ghost predicate Loads(files: seq<Result<DirectoryEntry, BlobError>>) {
    && (forall i :: 0 <= i < |files| ==> files[i].Ok?)
    && forall i, j :: 0 <= i < j < |files| && files[i].Ok? && files[j].Ok? ==>
         PairKey(files[i].value) != PairKey(files[j].value)
  }

  /** `from_json_dir`: every file must load, and no two catalogs may share the joined key. */
  method FromJsonDir(files: seq<Result<DirectoryEntry, BlobError>>) returns (r: Result<seq<DirectoryEntry>, BlobError>)
    ensures r.Ok? <==> Loads(files)
    ensures r.Ok? ==> |r.value| == |files| && (forall i :: 0 <= i < |files| ==> files[i] == Ok(r.value[i]))
    ensures r.Ok? ==> OncePerPair(r.value)
  {
    var entries: seq<DirectoryEntry> := [];
    var seen: set<string> := {};
    for i := 0 to |files|
      invariant |entries| == i && forall j :: 0 <= j < i ==> files[j] == Ok(entries[j])
      invariant forall j :: 0 <= j < i ==> PairKey(entries[j]) in seen
      invariant forall k :: k in seen ==> exists j :: 0 <= j < i && PairKey(entries[j]) == k
      invariant forall j, k :: 0 <= j < k < i ==> PairKey(entries[j]) != PairKey(entries[k])
    {
      if files[i].Err? {
        return Err(files[i].error);
      }
      var key := PairKey(files[i].value);
      if key in seen {
        var j :| 0 <= j < i && PairKey(entries[j]) == key;
        assert files[j] == Ok(entries[j]);
        return Err(Configuration(DuplicateId("catalog", key)));
      }
      seen := seen + {key};
      entries := entries + [files[i].value];
    }
    return Ok(entries);
  }

  // ----- the overlay -----

  function PairAt(entries: seq<DirectoryEntry>, e: DirectoryEntry): (i: nat)
    ensures i <= |entries| && (i < |entries| ==> SamePair(entries[i], e))
    ensures forall j :: 0 <= j < i ==> !SamePair(entries[j], e)
  {
    if entries == [] || SamePair(entries[0], e) then 0 else 1 + PairAt(entries[1..], e)
  }

  /** An entry replaces the one with its pair in place, or is appended. */
  function Put(entries: seq<DirectoryEntry>, e: DirectoryEntry): seq<DirectoryEntry> {
    var i := PairAt(entries, e);
    if i < |entries| then entries[i := e] else entries + [e]
  }

  function Overlay(entries: seq<DirectoryEntry>, layer: seq<DirectoryEntry>): seq<DirectoryEntry> {
    if layer == [] then entries else Put(Overlay(entries, layer[..|layer| - 1]), layer[|layer| - 1])
  }

  function Overlaid(layers: seq<seq<DirectoryEntry>>): seq<DirectoryEntry> {
    if layers == [] then [] else Overlay(Overlaid(layers[..|layers| - 1]), layers[|layers| - 1])
  }

  /** The catalog `get` returns. */
  function Get(entries: seq<DirectoryEntry>, provider: string, surface: string): Option<Catalog> {
    var found :=
      FindFirst((e: DirectoryEntry) => e.catalog.provider == provider && e.catalog.surface == surface, entries);
    if found.Some? then Some(found.value.catalog) else None
  }

  /** The catalog of the last layer that has the pair. */
  function LastLayerWith(layers: seq<seq<DirectoryEntry>>, provider: string, surface: string): Option<Catalog> {
    if layers == [] then None
    else
      var here := Get(layers[|layers| - 1], provider, surface);
      if here.Some? then here else LastLayerWith(layers[..|layers| - 1], provider, surface)
  }

  /** With one entry per pair, `get` returns the entry's catalog wherever it stands. */
  lemma GetFinds(entries: seq<DirectoryEntry>, i: nat)
    requires OncePerPair(entries) && i < |entries|
    ensures Get(entries, entries[i].catalog.provider, entries[i].catalog.surface) == Some(entries[i].catalog)
  {
    var p := (e: DirectoryEntry) =>
      e.catalog.provider == entries[i].catalog.provider && e.catalog.surface == entries[i].catalog.surface;
    assert p(entries[i]);
    var found := FindFirst(p, entries).value;
    var j :| 0 <= j < |entries| && entries[j] == found;
    assert SamePair(entries[i], entries[j]) && SamePair(entries[j], entries[i]);
  }

  lemma GetNothing(entries: seq<DirectoryEntry>, provider: string, surface: string)
    requires forall e :: e in entries ==> !(e.catalog.provider == provider && e.catalog.surface == surface)
    ensures Get(entries, provider, surface) == None
  {
  }

  lemma PutKeepsOnce(entries: seq<DirectoryEntry>, e: DirectoryEntry)
    requires OncePerPair(entries)
    ensures OncePerPair(Put(entries, e)) && e in Put(entries, e)
  {
    var i := PairAt(entries, e);
    assert Put(entries, e)[i] == e;
  }

  lemma PutChangesOnlyItsPair(entries: seq<DirectoryEntry>, e: DirectoryEntry, provider: string, surface: string)
    requires OncePerPair(entries)
    ensures Get(Put(entries, e), provider, surface) ==
            if e.catalog.provider == provider && e.catalog.surface == surface then Some(e.catalog)
            else Get(entries, provider, surface)
  {
    hide Get;
    var after := Put(entries, e);
    var at := PairAt(entries, e);
    PutKeepsOnce(entries, e);
    if e.catalog.provider == provider && e.catalog.surface == surface {
      GetFinds(after, at);
    } else if i: nat :|
      i < |entries| && entries[i].catalog.provider == provider && entries[i].catalog.surface == surface
    {
      GetFinds(entries, i);
      GetFinds(after, i);
    } else {
      GetNothing(entries, provider, surface);
      GetNothing(after, provider, surface);
    }
  }

  /** Overlaying one layer: its own catalogs are found there, every other pair as before. */
  lemma {:induction false} OverlayGets(entries: seq<DirectoryEntry>, layer: seq<DirectoryEntry>, provider: string,
                                       surface: string)
    requires OncePerPair(entries) && OncePerPair(layer)
    ensures OncePerPair(Overlay(entries, layer))
    ensures Get(Overlay(entries, layer), provider, surface) ==
            if Get(layer, provider, surface).Some? then Get(layer, provider, surface)
            else Get(entries, provider, surface)
  {
    hide Get, Put;
    if layer == [] {
      GetNothing(layer, provider, surface);
    } else {
      var init, last := layer[..|layer| - 1], layer[|layer| - 1];
      OverlayGets(entries, init, provider, surface);
      PutKeepsOnce(Overlay(entries, init), last);
      PutChangesOnlyItsPair(Overlay(entries, init), last, provider, surface);
      LayerGets(init, last, provider, surface);
      assert layer == init + [last];
    }
  }

  lemma LayerGets(init: seq<DirectoryEntry>, last: DirectoryEntry, provider: string, surface: string)
    requires OncePerPair(init + [last])
    ensures Get(init + [last], provider, surface) ==
            if last.catalog.provider == provider && last.catalog.surface == surface then Some(last.catalog)
            else Get(init, provider, surface)
  {
    var all := init + [last];
    assert forall i :: 0 <= i < |init| ==> all[i] == init[i];
    assert all[|init|] == last;
    assert forall i :: 0 <= i < |init| ==> !SamePair(init[i], last);
    assert PairAt(init, last) == |init|;
    PutChangesOnlyItsPair(init, last, provider, surface);
  }

  /** Lookup in the overlay finds the catalog of the last directory that has the pair. */
  lemma {:induction false} LastDirectoryWins(layers: seq<seq<DirectoryEntry>>, provider: string, surface: string)
    requires forall k :: 0 <= k < |layers| ==> OncePerPair(layers[k])
    ensures OncePerPair(Overlaid(layers))
    ensures Get(Overlaid(layers), provider, surface) == LastLayerWith(layers, provider, surface)
  {
    hide Get, Overlay, OncePerPair;
    if layers == [] {
      EmptyIsOnce();
      GetNothing([], provider, surface);
    } else {
      LastDirectoryWins(layers[..|layers| - 1], provider, surface);
      OverlayGets(Overlaid(layers[..|layers| - 1]), layers[|layers| - 1], provider, surface);
    }
  }

  lemma EmptyIsOnce()
    ensures OncePerPair([])
  {
  }

  /** A missing first directory is an error, a missing later one is skipped. */
  method FromJsonDirs(dirs: seq<Directory>)
    returns (r: Result<seq<DirectoryEntry>, BlobError>, ghost layers: seq<seq<DirectoryEntry>>)
    ensures r.Ok? ==> r.value == Overlaid(layers) && forall k :: 0 <= k < |layers| ==> OncePerPair(layers[k])
    ensures r.Ok? <==> (dirs != [] ==> dirs[0].Files?) && forall d :: d in dirs && d.Files? ==> Loads(d.files)
    ensures r.Ok? ==> |layers| == |Keep(Exists(), dirs)|
    ensures r.Ok? ==> forall k :: 0 <= k < |layers| ==> Holds(Keep(Exists(), dirs)[k], layers[k])
  {
    hide Put, Keep, Loads, OncePerPair, PairKey;
    var entries: seq<DirectoryEntry> := [];
    layers := [];
    EmptyIsOnce();
    assert dirs[..0] == [];
    KeepOfNone(Exists());
    for i := 0 to |dirs|
      invariant entries == Overlaid(layers) && forall k :: 0 <= k < |layers| ==> OncePerPair(layers[k])
      invariant |layers| == |Keep(Exists(), dirs[..i])|
      invariant forall k :: 0 <= k < |layers| ==> Holds(Keep(Exists(), dirs[..i])[k], layers[k])
      invariant i > 0 ==> dirs[0].Files?
      invariant forall k :: 0 <= k < i && dirs[k].Files? ==> Loads(dirs[k].files)
    {
      assert dirs[..i + 1] == dirs[..i] + [dirs[i]];
      KeepAppend(Exists(), dirs[..i], dirs[i]);
      if dirs[i].Missing? {
        if i == 0 {
          return Err(Configuration(Other("directory"))), layers;
        }
        continue;
      }
      var collection := FromJsonDir(dirs[i].files);
      assert dirs[i] in dirs;
      if collection.Err? {
        return Err(collection.error), layers;
      }
      ghost var layer, before := collection.value, entries;
      for k := 0 to |collection.value|
        invariant entries == Overlay(before, layer[..k])
      {
        assert layer[..k + 1][..k] == layer[..k];
        entries := Put(entries, collection.value[k]);
      }
      assert layer[..|layer|] == layer;
      layers := layers + [layer];
      assert layers[..|layers| - 1] + [layer] == layers;
    }
    assert dirs[..|dirs|] == dirs;
    return Ok(entries), layers;
  }

  function Exists(): Directory -> bool {
    (d: Directory) => d.Files?
  }

  /** The layer is what the directory's files loaded. */
  predicate Holds(d: Directory, layer: seq<DirectoryEntry>) {
    d.Files? && |layer| == |d.files| && forall i :: 0 <= i < |layer| ==> d.files[i] == Ok(layer[i])
  }
}
