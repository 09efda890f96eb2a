/**
 * One step of the object identifier job: content-based deduplication of a chunk of
 * file paths. Every analysed path gets its `cas_id`; paths whose `cas_id` already
 * belongs to a file path of some object are connected to that object; every other
 * path gets an object of its own.
 */
module IdentifierJob {
  import opened Outcomes
  import opened Catalog
  import Decimal

  /** The integer value of `ObjectKind::Unknown`. */
  const UNKNOWN_KIND: int := 0

  datatype Stat = Stat(isDir: bool, len: nat)

  /**
   * What the filesystem answers for one path: `fs::metadata`, the object kind that
   * `Extension::resolve_conflicting` leads to, and `generate_cas_id`. `None` is a failure.
   */
  datatype Probe = Probe(stat: Option<Stat>, resolvedKind: Option<int>, casId: Option<CasId>)

  datatype FileMetadata = FileMetadata(casId: CasId, kind: int, len: nat)

  datatype MetadataError = IoError | DirectoryRejected

  /** `FileMetadata::new`: directories are rejected, an unresolved kind is `Unknown`. */
  function NewFileMetadata(p: Probe): (r: Result<FileMetadata, MetadataError>)
    ensures r == Err(DirectoryRejected) <==> p.stat.Some? && p.stat.value.isDir
    ensures r.Ok? <==> p.stat.Some? && !p.stat.value.isDir && p.casId.Some?
    ensures r.Ok? ==> r.value.casId == p.casId.value && r.value.len == p.stat.value.len
    ensures r.Ok? && p.resolvedKind.None? ==> r.value.kind == UNKNOWN_KIND
    ensures r.Ok? && p.resolvedKind.Some? ==> r.value.kind == p.resolvedKind.value
  {
    match p.stat
    case None => Err(IoError)
    case Some(st) =>
      if st.isDir then Err(DirectoryRejected)
      else match p.casId
        case None => Err(IoError)
        case Some(cas) => Ok(FileMetadata(cas, p.resolvedKind.GetOr(UNKNOWN_KIND), st.len))
  }

  /** The metadata of a file path, read from the filesystem `fs` under the location's path. */
  function Analyse(locationPath: Path, fs: Path -> Probe, fp: FilePath): Result<FileMetadata, MetadataError> {
    NewFileMetadata(fs(Join(locationPath, fp.materializedPath)))
  }

  /** Some path of the chunk is a directory: the assertion in `FileMetadata::new` fails. */
  predicate AnyDirectory(locationPath: Path, fs: Path -> Probe, fps: seq<FilePath>) {
    exists i :: 0 <= i < |fps| && Analyse(locationPath, fs, fps[i]) == Err(DirectoryRejected)
  }

  datatype Analysed = Analysed(id: FilePathId, meta: FileMetadata, filePath: FilePath)

  predicate HasId(metas: seq<Analysed>, id: FilePathId) {
    exists k :: 0 <= k < |metas| && metas[k].id == id
  }

  predicate DistinctIds(metas: seq<Analysed>) {
    forall k, l :: 0 <= k < l < |metas| ==> metas[k].id != metas[l].id
  }

  /**
   * The `HashMap` of analysed file paths keyed by id: a path whose metadata cannot be
   * assembled is dropped, and of two paths with one id the later one wins. Listed in
   * the order of each id's winning occurrence.
   */
  function Gather(locationPath: Path, fs: Path -> Probe, fps: seq<FilePath>): (metas: seq<Analysed>)
    decreases |fps|
  {
    if fps == [] then []
    else
      var rest := Gather(locationPath, fs, fps[1..]);
      match Analyse(locationPath, fs, fps[0])
      case Ok(meta) => if HasId(rest, fps[0].id) then rest else [Analysed(fps[0].id, meta, fps[0])] + rest
      case Err(_) => rest
  }

  /** Position `i` is the last position of its id whose metadata could be assembled. */
  predicate LastSuccess(locationPath: Path, fs: Path -> Probe, fps: seq<FilePath>, i: int)
    requires 0 <= i < |fps|
  {
    Analyse(locationPath, fs, fps[i]).Ok? &&
    forall j :: i < j < |fps| && fps[j].id == fps[i].id ==> Analyse(locationPath, fs, fps[j]).Err?
  }

  lemma HasIdCons(a: Analysed, rest: seq<Analysed>, id: FilePathId)
    ensures HasId([a] + rest, id) <==> a.id == id || HasId(rest, id)
  {
    if HasId(rest, id) {
      var k :| 0 <= k < |rest| && rest[k].id == id;
      assert ([a] + rest)[k + 1] == rest[k];
    }
    assert ([a] + rest)[0] == a;
    if HasId([a] + rest, id) {
      var k :| 0 <= k < |[a] + rest| && ([a] + rest)[k].id == id;
      if k > 0 { assert ([a] + rest)[k] == rest[k - 1]; }
    }
  }

  /** An id is in the analysed chunk iff some path with that id could be analysed. */
  lemma {:induction false} GatherHasId(locationPath: Path, fs: Path -> Probe, fps: seq<FilePath>, id: FilePathId)
    ensures HasId(Gather(locationPath, fs, fps), id) <==>
      exists j :: 0 <= j < |fps| && fps[j].id == id && Analyse(locationPath, fs, fps[j]).Ok?
    decreases |fps|
  {
    if fps != [] {
      var tail := fps[1..];
      GatherHasId(locationPath, fs, tail, id);
      var rest := Gather(locationPath, fs, tail);
      var g := Gather(locationPath, fs, fps);
      assert HasId(g, id) <==> HasId(rest, id) || (Analyse(locationPath, fs, fps[0]).Ok? && fps[0].id == id) by {
        match Analyse(locationPath, fs, fps[0])
        case Ok(meta) =>
          if !HasId(rest, fps[0].id) {
            HasIdCons(Analysed(fps[0].id, meta, fps[0]), rest, id);
          }
        case Err(_) =>
      }
      assert (exists j :: 0 <= j < |fps| && fps[j].id == id && Analyse(locationPath, fs, fps[j]).Ok?) <==>
        (exists j :: 0 <= j < |tail| && tail[j].id == id && Analyse(locationPath, fs, tail[j]).Ok?) ||
        (fps[0].id == id && Analyse(locationPath, fs, fps[0]).Ok?)
      by {
        forall j | 0 <= j < |tail|
          ensures tail[j] == fps[j + 1]
        {
        }
        if exists j :: 0 <= j < |fps| && fps[j].id == id && Analyse(locationPath, fs, fps[j]).Ok? {
          var j :| 0 <= j < |fps| && fps[j].id == id && Analyse(locationPath, fs, fps[j]).Ok?;
          if j > 0 { assert tail[j - 1] == fps[j]; }
        }
      }
    }
  }

  /** Dropping the first path shifts the last successes of the others by one. */
  lemma LastSuccessTail(locationPath: Path, fs: Path -> Probe, fps: seq<FilePath>, i: int)
    requires 1 <= i < |fps|
    ensures LastSuccess(locationPath, fs, fps, i) <==> LastSuccess(locationPath, fs, fps[1..], i - 1)
  {
    var tail := fps[1..];
    assert tail[i - 1] == fps[i];
    if LastSuccess(locationPath, fs, tail, i - 1) {
      forall j | i < j < |fps| && fps[j].id == fps[i].id
        ensures Analyse(locationPath, fs, fps[j]).Err?
      {
        assert tail[j - 1] == fps[j];
      }
    }
    if LastSuccess(locationPath, fs, fps, i) {
      forall j | i - 1 < j < |tail| && tail[j].id == tail[i - 1].id
        ensures Analyse(locationPath, fs, tail[j]).Err?
      {
        assert tail[j] == fps[j + 1];
      }
    }
  }

  /** The first path is a last success iff it analyses and no later path of its id does. */
  lemma LastSuccessHead(locationPath: Path, fs: Path -> Probe, fps: seq<FilePath>)
    requires fps != []
    ensures LastSuccess(locationPath, fs, fps, 0) <==>
      Analyse(locationPath, fs, fps[0]).Ok? && !HasId(Gather(locationPath, fs, fps[1..]), fps[0].id)
  {
    var tail := fps[1..];
    GatherHasId(locationPath, fs, tail, fps[0].id);
    forall j | 0 <= j < |tail|
      ensures tail[j] == fps[j + 1]
    {
    }
  }

  /** The analysed chunk never holds two entries for one id. */
  lemma {:induction false} GatherDistinct(locationPath: Path, fs: Path -> Probe, fps: seq<FilePath>)
    ensures DistinctIds(Gather(locationPath, fs, fps))
    decreases |fps|
  {
    if fps != [] {
      var rest := Gather(locationPath, fs, fps[1..]);
      GatherDistinct(locationPath, fs, fps[1..]);
      var g := Gather(locationPath, fs, fps);
      if g != rest {
        forall k | 0 <= k < |rest|
          ensures rest[k].id != fps[0].id
        {
        }
        assert g == [g[0]] + rest && g[0].id == fps[0].id;
        forall k, l | 0 <= k < l < |g|
          ensures g[k].id != g[l].id
        {
          assert g[l] == rest[l - 1];
          if k > 0 {
            assert g[k] == rest[k - 1];
          }
        }
      }
    }
  }

  /**
   * The analysed chunk is keyed by file_path id: ids are distinct, and the entries are
   * exactly the last successfully analysed occurrence of each id.
   */
  lemma {:induction false} GatherKeyedById(locationPath: Path, fs: Path -> Probe, fps: seq<FilePath>)
    ensures DistinctIds(Gather(locationPath, fs, fps))
    ensures forall a :: a in Gather(locationPath, fs, fps) <==>
      exists i :: 0 <= i < |fps| && LastSuccess(locationPath, fs, fps, i) &&
        a == Analysed(fps[i].id, Analyse(locationPath, fs, fps[i]).value, fps[i])
    decreases |fps|
  {
    GatherDistinct(locationPath, fs, fps);
    if fps != [] {
      var tail := fps[1..];
      GatherKeyedById(locationPath, fs, tail);
      LastSuccessHead(locationPath, fs, fps);
      var rest := Gather(locationPath, fs, tail);
      var g := Gather(locationPath, fs, fps);
      forall a | a in g
        ensures exists i :: (0 <= i < |fps| && LastSuccess(locationPath, fs, fps, i) &&
          a == Analysed(fps[i].id, Analyse(locationPath, fs, fps[i]).value, fps[i]))
      {
        if a in rest {
          var i :| 0 <= i < |tail| && LastSuccess(locationPath, fs, tail, i) &&
            a == Analysed(tail[i].id, Analyse(locationPath, fs, tail[i]).value, tail[i]);
          assert tail[i] == fps[i + 1];
          LastSuccessTail(locationPath, fs, fps, i + 1);
        }
      }
      forall i | 0 <= i < |fps| && LastSuccess(locationPath, fs, fps, i)
        ensures Analysed(fps[i].id, Analyse(locationPath, fs, fps[i]).value, fps[i]) in g
      {
        if i > 0 {
          LastSuccessTail(locationPath, fs, fps, i);
          assert tail[i - 1] == fps[i];
        }
      }
    }
  }

  /** A file path of the table is connected to object `obj` and has content id `cas`. */
  predicate ConnectedWithCas(t: seq<FilePath>, obj: PubId, cas: CasId) {
    exists i :: 0 <= i < |t| && t[i].objectId == Some(obj) && t[i].casId == Some(cas)
  }

  /** The set of `cas_id`s of the chunk. */
  function UniqueCasIds(metas: seq<Analysed>): set<CasId> {
    set k | 0 <= k < |metas| :: metas[k].meta.casId
  }

  /** `object.find_many([file_paths::some([cas_id::in_vec(cas)])])`, in table order. */
  function ExistingObjects(objs: seq<Object>, t: seq<FilePath>, cas: set<CasId>): (r: seq<Object>)
    ensures forall o :: o in r <==> o in objs && exists c :: c in cas && ConnectedWithCas(t, o.pubId, c)
  {
    if objs == [] then []
    else
      var rest := ExistingObjects(objs[1..], t, cas);
      if exists c :: c in cas && ConnectedWithCas(t, objs[0].pubId, c) then [objs[0]] + rest else rest
  }

  /** The `cas_id`s of all file paths connected to the existing objects. */
  function ExistingCasIds(existing: seq<Object>, t: seq<FilePath>): set<CasId> {
    set i, k | 0 <= i < |t| && 0 <= k < |existing| && t[i].objectId == Some(existing[k].pubId) && t[i].casId.Some?
      :: t[i].casId.value
  }

  /** The first object of the list that has a file path with content id `cas`. */
  function FindObject(objs: seq<Object>, t: seq<FilePath>, cas: CasId): Option<PubId> {
    if objs == [] then None
    else if ConnectedWithCas(t, objs[0].pubId, cas) then Some(objs[0].pubId)
    else FindObject(objs[1..], t, cas)
  }

  /**
   * `FindObject` finds an object exactly when one has a file path with that `cas_id`,
   * and then it is the first such object.
   */
  lemma {:induction false} FindObjectSpec(objs: seq<Object>, t: seq<FilePath>, cas: CasId)
    ensures FindObject(objs, t, cas).Some? <==> exists k :: 0 <= k < |objs| && ConnectedWithCas(t, objs[k].pubId, cas)
    ensures FindObject(objs, t, cas).Some? ==> exists k :: (0 <= k < |objs| &&
      FindObject(objs, t, cas).value == objs[k].pubId && ConnectedWithCas(t, objs[k].pubId, cas) &&
      forall l :: 0 <= l < k ==> !ConnectedWithCas(t, objs[l].pubId, cas))
  {
    if objs != [] && !ConnectedWithCas(t, objs[0].pubId, cas) {
      FindObjectSpec(objs[1..], t, cas);
      if FindObject(objs, t, cas).Some? {
        var k :| 0 <= k < |objs[1..]| && FindObject(objs, t, cas).value == objs[1..][k].pubId &&
          ConnectedWithCas(t, objs[1..][k].pubId, cas) &&
          forall l :: 0 <= l < k ==> !ConnectedWithCas(t, objs[1..][l].pubId, cas);
        assert objs[k + 1] == objs[1..][k];
        forall l | 0 <= l < k + 1
          ensures !ConnectedWithCas(t, objs[l].pubId, cas)
        {
          if l > 0 { assert objs[l] == objs[1..][l - 1]; }
        }
      } else {
        forall k | 0 <= k < |objs|
          ensures !ConnectedWithCas(t, objs[k].pubId, cas)
        {
          if k > 0 { assert objs[k] == objs[1..][k - 1]; }
        }
      }
    }
  }

  /**
   * Searching only the objects the query returned finds the same object as searching
   * the whole object table, for any `cas_id` of the chunk.
   */
  lemma {:induction false} FindInExistingIsFindInTable(objs: seq<Object>, t: seq<FilePath>, cas: set<CasId>, c: CasId)
    requires c in cas
    ensures FindObject(ExistingObjects(objs, t, cas), t, c) == FindObject(objs, t, c)
  {
    if objs != [] {
      FindInExistingIsFindInTable(objs[1..], t, cas, c);
    }
  }

  /** A `cas_id` of the chunk is among the existing objects' `cas_id`s iff some object has a file path with it. */
  lemma ExistingCasIdsSpec(objs: seq<Object>, t: seq<FilePath>, cas: set<CasId>, c: CasId)
    requires c in cas
    ensures c in ExistingCasIds(ExistingObjects(objs, t, cas), t) <==> FindObject(objs, t, c).Some?
  {
    var e := ExistingObjects(objs, t, cas);
    FindObjectSpec(objs, t, c);
    FindObjectSpec(e, t, c);
    FindInExistingIsFindInTable(objs, t, cas, c);
    if c in ExistingCasIds(e, t) {
      var i, k :| 0 <= i < |t| && 0 <= k < |e| && t[i].objectId == Some(e[k].pubId) && t[i].casId == Some(c);
      assert ConnectedWithCas(t, e[k].pubId, c);
    }
    if FindObject(e, t, c).Some? {
      var k :| 0 <= k < |e| && ConnectedWithCas(t, e[k].pubId, c);
      var i :| 0 <= i < |t| && t[i].objectId == Some(e[k].pubId) && t[i].casId == Some(c);
      assert c == t[i].casId.value;
    }
  }

  /** The (file path, object) pairs of paths connected to an existing object. */
  function LinkPairs(metas: seq<Analysed>, existing: seq<Object>, t: seq<FilePath>): seq<(FilePathId, PubId)> {
    if metas == [] then []
    else
      (match FindObject(existing, t, metas[0].meta.casId)
       case Some(o) => [(metas[0].id, o)]
       case None => [])
      + LinkPairs(metas[1..], existing, t)
  }

  /** The paths whose `cas_id` is not among the existing objects' `cas_id`s. */
  function NewPaths(metas: seq<Analysed>, existingCas: set<CasId>): seq<Analysed> {
    if metas == [] then []
    else (if metas[0].meta.casId in existingCas then [] else [metas[0]]) + NewPaths(metas[1..], existingCas)
  }

  /**
   * The chunk splits into two groups: a path is linked (to the first object of the
   * table having a file path with its `cas_id`) exactly when such an object exists,
   * and needs a new object exactly when none does; the two groups' sizes add up to
   * the chunk's.
   */
  lemma {:induction false} PartitionIsExact(metas: seq<Analysed>, objs: seq<Object>, t: seq<FilePath>, cas: set<CasId>)
    requires forall k :: 0 <= k < |metas| ==> metas[k].meta.casId in cas
    ensures var e := ExistingObjects(objs, t, cas);
      |LinkPairs(metas, e, t)| + |NewPaths(metas, ExistingCasIds(e, t))| == |metas|
    ensures var e := ExistingObjects(objs, t, cas);
      forall a :: a in NewPaths(metas, ExistingCasIds(e, t)) <==> a in metas && FindObject(objs, t, a.meta.casId).None?
    ensures var e := ExistingObjects(objs, t, cas);
      forall id, p :: (id, p) in LinkPairs(metas, e, t) <==>
        exists a :: a in metas && a.id == id && FindObject(objs, t, a.meta.casId) == Some(p)
  {
    if metas != [] {
      var e := ExistingObjects(objs, t, cas);
      PartitionIsExact(metas[1..], objs, t, cas);
      FindInExistingIsFindInTable(objs, t, cas, metas[0].meta.casId);
      ExistingCasIdsSpec(objs, t, cas, metas[0].meta.casId);
      assert metas == [metas[0]] + metas[1..];
    }
  }

  /** No path is both linked and given a new object. */
  lemma LinkedAndNewAreDisjoint(metas: seq<Analysed>, objs: seq<Object>, t: seq<FilePath>, cas: set<CasId>)
    requires DistinctIds(metas)
    requires forall k :: 0 <= k < |metas| ==> metas[k].meta.casId in cas
    ensures var e := ExistingObjects(objs, t, cas);
      forall a, p :: a in NewPaths(metas, ExistingCasIds(e, t)) ==> (a.id, p) !in LinkPairs(metas, e, t)
  {
    PartitionIsExact(metas, objs, t, cas);
  }

  /** The linked pairs come from distinct paths of the chunk. */
  lemma {:induction false} LinkPairsFromChunk(metas: seq<Analysed>, e: seq<Object>, t: seq<FilePath>)
    requires DistinctIds(metas)
    ensures forall k :: 0 <= k < |LinkPairs(metas, e, t)| ==> HasId(metas, LinkPairs(metas, e, t)[k].0)
    ensures forall k, l :: 0 <= k < l < |LinkPairs(metas, e, t)| ==>
      LinkPairs(metas, e, t)[k].0 != LinkPairs(metas, e, t)[l].0
  {
    if metas != [] {
      var tail := metas[1..];
      LinkPairsFromChunk(tail, e, t);
      var rest := LinkPairs(tail, e, t);
      var l := LinkPairs(metas, e, t);
      forall k | 0 <= k < |rest|
        ensures HasId(metas, rest[k].0) && rest[k].0 != metas[0].id
      {
        var j :| 0 <= j < |tail| && tail[j].id == rest[k].0;
        assert metas[j + 1] == tail[j];
      }
      assert metas[0].id == metas[0].id;
      if l != rest {
        assert l == [(metas[0].id, FindObject(e, t, metas[0].meta.casId).value)] + rest;
        forall k | 0 < k < |l|
          ensures l[k] == rest[k - 1]
        {
        }
      }
    }
  }

  /** The paths needing a new object are distinct paths of the chunk. */
  lemma {:induction false} NewPathsFromChunk(metas: seq<Analysed>, cas: set<CasId>)
    requires DistinctIds(metas)
    ensures forall a :: a in NewPaths(metas, cas) ==> a in metas
    ensures DistinctIds(NewPaths(metas, cas))
  {
    if metas != [] {
      var tail := metas[1..];
      NewPathsFromChunk(tail, cas);
      var rest := NewPaths(tail, cas);
      var n := NewPaths(metas, cas);
      forall k | 0 <= k < |rest|
        ensures rest[k].id != metas[0].id
      {
        assert rest[k] in rest;
        var j :| 0 <= j < |tail| && tail[j] == rest[k];
        assert metas[j + 1] == tail[j];
      }
      if n != rest {
        forall k | 0 < k < |n|
          ensures n[k] == rest[k - 1]
        {
        }
      }
    }
  }

  lemma SameIdSamePath(metas: seq<Analysed>, a: Analysed, b: Analysed)
    requires DistinctIds(metas) && a in metas && b in metas && a.id == b.id
    ensures a == b
  {
    var k :| 0 <= k < |metas| && metas[k] == a;
    var l :| 0 <= l < |metas| && metas[l] == b;
  }

  /** `file_path_object_connect_ops`: the owned update that connects a file path to an object. */
  function ConnectOp(id: FilePathId, obj: PubId, location: Location): CrdtOperation {
    OwnedUpdate(FilePathSyncId(id, location.pubId), [("object", ObjectRef(obj))])
  }

  /** The owned update that records a file path's `cas_id`. */
  function CasOp(a: Analysed, location: Location): CrdtOperation {
    OwnedUpdate(FilePathSyncId(a.id, location.pubId), [("cas_id", Str(a.meta.casId))])
  }

  function CasOps(metas: seq<Analysed>, location: Location): seq<CrdtOperation> {
    seq(|metas|, k requires 0 <= k < |metas| => CasOp(metas[k], location))
  }

  function CasUpdates(metas: seq<Analysed>): seq<(FilePathId, ColumnSet)> {
    seq(|metas|, k requires 0 <= k < |metas| => (metas[k].id, CasIdSet(metas[k].meta.casId)))
  }

  /**
   * The first write: one owned update per analysed path, carrying only its `cas_id`,
   * and no two of them for the same file path.
   */
  lemma CasOpsOnePerPath(metas: seq<Analysed>, location: Location)
    requires DistinctIds(metas)
    ensures |CasOps(metas, location)| == |metas|
    ensures forall k :: 0 <= k < |metas| ==>
      CasOps(metas, location)[k].OwnedUpdate? &&
      CasOps(metas, location)[k].filePath == FilePathSyncId(metas[k].id, location.pubId) &&
      CasOps(metas, location)[k].fields == [("cas_id", Str(metas[k].meta.casId))]
    ensures forall k, l :: 0 <= k < l < |metas| ==>
      CasOps(metas, location)[k].filePath != CasOps(metas, location)[l].filePath
  {
  }

  function LinkOps(links: seq<(FilePathId, PubId)>, location: Location): seq<CrdtOperation> {
    seq(|links|, k requires 0 <= k < |links| => ConnectOp(links[k].0, links[k].1, location))
  }

  function LinkUpdates(links: seq<(FilePathId, PubId)>): seq<(FilePathId, ColumnSet)> {
    seq(|links|, k requires 0 <= k < |links| => (links[k].0, ObjectConnect(links[k].1)))
  }

  /**
   * `file_path_object_connect_ops` pairs each sync operation with the row update it
   * records: the k-th operation names the file path (by id and location pub id) whose
   * row the k-th update targets, with the object that update connects. This holds for
   * the links to existing objects and for the links to new ones.
   */
  lemma ConnectOpsMatchUpdates(links: seq<(FilePathId, PubId)>, news: seq<Analysed>, ids: seq<PubId>, location: Location)
    requires |ids| == |news|
    ensures |LinkOps(links, location)| == |LinkUpdates(links)|
    ensures forall k :: 0 <= k < |links| ==>
      && LinkOps(links, location)[k].OwnedUpdate?
      && LinkOps(links, location)[k].filePath == FilePathSyncId(LinkUpdates(links)[k].0, location.pubId)
      && LinkOps(links, location)[k].fields == [("object", ObjectRef(LinkUpdates(links)[k].1.obj))]
    ensures |NewLinkOps(news, ids, location)| == |NewLinkUpdates(news, ids)|
    ensures forall k :: 0 <= k < |news| ==>
      && NewLinkOps(news, ids, location)[k].OwnedUpdate?
      && NewLinkOps(news, ids, location)[k].filePath == FilePathSyncId(NewLinkUpdates(news, ids)[k].0, location.pubId)
      && NewLinkOps(news, ids, location)[k].fields == [("object", ObjectRef(NewLinkUpdates(news, ids)[k].1.obj))]
  {
  }

  /** The row `object::create_unchecked` inserts for a path that needs a new object. */
  function NewObject(a: Analysed, pubId: PubId): Object {
    Object(pubId, a.filePath.dateCreated, a.meta.kind, Decimal.Render(a.meta.len))
  }

  /** One shared create followed by shared updates of `date_created`, `kind` and `size_in_bytes`. */
  function CreateOps(a: Analysed, pubId: PubId): seq<CrdtOperation> {
    [SharedCreate(pubId),
     SharedUpdate(pubId, "date_created", Date(a.filePath.dateCreated)),
     SharedUpdate(pubId, "kind", Int(a.meta.kind)),
     SharedUpdate(pubId, "size_in_bytes", Str(Decimal.Render(a.meta.len)))]
  }

  /**
   * The sync operations of a new object are one create and one update per column of
   * the row inserted for it, with that row's values, and the stored size reads back as
   * the file's length.
   */
  lemma CreateOpsMatchRow(a: Analysed, pubId: PubId)
    ensures var ops := CreateOps(a, pubId); var o := NewObject(a, pubId);
      && |ops| == 4
      && ops[0] == SharedCreate(o.pubId)
      && (forall k :: 1 <= k < |ops| ==> ops[k].SharedUpdate? && ops[k].objectPubId == o.pubId)
      && ops[1].field == "date_created" && ops[2].field == "kind" && ops[3].field == "size_in_bytes"
      && ops[1].value == Date(o.dateCreated)
      && ops[2].value == Int(o.kind)
      && ops[3].value == Str(o.sizeInBytes)
      && Decimal.Parse(o.sizeInBytes) == Some(a.meta.len)
  {
    Decimal.ParseRender(a.meta.len);
  }

  /** The pub ids handed out by `Uuid::new_v4`, one per path that needs a new object. */
  function NewPubIds(n: nat, uuids: nat -> PubId): (ids: seq<PubId>)
    ensures |ids| == n
  {
    seq(n, k requires 0 <= k < n => uuids(k))
  }

  function NewObjects(news: seq<Analysed>, ids: seq<PubId>): seq<Object>
    requires |ids| == |news|
  {
    seq(|news|, k requires 0 <= k < |news| => NewObject(news[k], ids[k]))
  }

  function AllCreateOps(news: seq<Analysed>, ids: seq<PubId>): seq<CrdtOperation>
    requires |ids| == |news|
    decreases |news|
  {
    if news == [] then [] else CreateOps(news[0], ids[0]) + AllCreateOps(news[1..], ids[1..])
  }

  function NewLinkOps(news: seq<Analysed>, ids: seq<PubId>, location: Location): seq<CrdtOperation>
    requires |ids| == |news|
  {
    seq(|news|, k requires 0 <= k < |news| => ConnectOp(news[k].id, ids[k], location))
  }

  function NewLinkUpdates(news: seq<Analysed>, ids: seq<PubId>): seq<(FilePathId, ColumnSet)>
    requires |ids| == |news|
  {
    seq(|news|, k requires 0 <= k < |news| => (news[k].id, ObjectConnect(ids[k])))
  }

  /** The new pub ids are distinct and unused: `create_many` meets the unique constraint on `pub_id`. */
  predicate FreshIds(objs: seq<Object>, ids: seq<PubId>) {
    (forall k, l :: 0 <= k < l < |ids| ==> ids[k] != ids[l]) &&
    (forall k, j :: 0 <= k < |ids| && 0 <= j < |objs| ==> ids[k] != objs[j].pubId)
  }

  /** The database refuses the corresponding write (or query). */
  datatype Faults = Faults(casWrite: bool, objectQuery: bool, linkWrite: bool, objectCreate: bool, newLinkWrite: bool)

  /** The intermediate values of one step over the database `t0`, `objs`. */
  datatype Plan = Plan(
    metas: seq<Analysed>,
    afterCas: seq<FilePath>,
    existing: seq<Object>,
    links: seq<(FilePathId, PubId)>,
    afterLinks: seq<FilePath>,
    news: seq<Analysed>,
    newIds: seq<PubId>)

  function MakePlan(location: Location, locationPath: Path, fps: seq<FilePath>, fs: Path -> Probe, uuids: nat -> PubId,
                    t0: seq<FilePath>, objs: seq<Object>): (p: Plan)
    ensures |p.newIds| == |p.news|
  {
    var metas := Gather(locationPath, fs, fps);
    var afterCas := UpdateRows(t0, location.id, CasUpdates(metas));
    var existing := ExistingObjects(objs, afterCas, UniqueCasIds(metas));
    var links := LinkPairs(metas, existing, afterCas);
    var news := NewPaths(metas, ExistingCasIds(existing, afterCas));
    Plan(metas, afterCas, existing, links, UpdateRows(afterCas, location.id, LinkUpdates(links)),
         news, NewPubIds(|news|, uuids))
  }

  predicate CasWriteSucceeds(p: Plan, location: Location, t0: seq<FilePath>, faults: Faults) {
    !faults.casWrite && forall k :: 0 <= k < |p.metas| ==> HasKey(t0, location.id, p.metas[k].id)
  }

  predicate CreateSucceeds(p: Plan, objs: seq<Object>, faults: Faults) {
    |p.news| > 0 && !faults.objectCreate && FreshIds(objs, p.newIds)
  }

  /**
   * Whether a path needs a new object depends on its `cas_id` alone, and each such
   * path gets an object of its own: two new paths sharing a `cas_id` in one chunk
   * yield two objects with distinct pub ids.
   */
  lemma NewObjectPerPathNotPerCasId(location: Location, locationPath: Path, fps: seq<FilePath>, fs: Path -> Probe,
                                    uuids: nat -> PubId, t0: seq<FilePath>, objs: seq<Object>)
    ensures var p := MakePlan(location, locationPath, fps, fs, uuids, t0, objs);
      forall a, b :: a in p.news && b in p.metas && b.meta.casId == a.meta.casId ==> b in p.news
    ensures var p := MakePlan(location, locationPath, fps, fs, uuids, t0, objs);
      FreshIds(objs, p.newIds) ==>
        |NewObjects(p.news, p.newIds)| == |p.news| &&
        forall k, l :: 0 <= k < l < |p.news| ==> NewObjects(p.news, p.newIds)[k].pubId != NewObjects(p.news, p.newIds)[l].pubId
  {
    var p := MakePlan(location, locationPath, fps, fs, uuids, t0, objs);
    PartitionIsExact(p.metas, objs, p.afterCas, UniqueCasIds(p.metas));
  }

  /** The final table of a step whose writes all succeed. */
  function FinalFilePaths(p: Plan, location: Location): seq<FilePath>
    requires |p.newIds| == |p.news|
  {
    UpdateRows(p.afterLinks, location.id, NewLinkUpdates(p.news, p.newIds))
  }

  /** How the chunk divides between linked and new paths, as the step needs it. */
  predicate Divides(metas: seq<Analysed>, links: seq<(FilePathId, PubId)>, news: seq<Analysed>) {
    && DistinctIds(metas)
    && (forall l :: 0 <= l < |links| ==> HasId(metas, links[l].0))
    && (forall k, l :: 0 <= k < l < |links| ==> links[k].0 != links[l].0)
    && (forall a :: a in news ==> a in metas)
    && DistinctIds(news)
    && (forall a, l :: a in news && 0 <= l < |links| ==> links[l].0 != a.id)
  }

  /** The three writes of a fully successful step, seen from one row of the table. */
  lemma {:induction false} ThreeWritesRow(t0: seq<FilePath>, loc: LocationId, metas: seq<Analysed>,
                                          links: seq<(FilePathId, PubId)>, news: seq<Analysed>, ids: seq<PubId>, i: int)
    requires Divides(metas, links, news) && |ids| == |news| && 0 <= i < |t0|
    ensures var tf := UpdateRows(UpdateRows(UpdateRows(t0, loc, CasUpdates(metas)), loc, LinkUpdates(links)),
                                 loc, NewLinkUpdates(news, ids));
      && |tf| == |t0|
      && (forall k :: 0 <= k < |metas| && t0[i].locationId == loc && t0[i].id == metas[k].id ==>
            tf[i].casId == Some(metas[k].meta.casId))
      && (forall l :: 0 <= l < |links| && t0[i].locationId == loc && t0[i].id == links[l].0 ==>
            tf[i].objectId == Some(links[l].1))
      && (forall m :: 0 <= m < |news| && t0[i].locationId == loc && t0[i].id == news[m].id ==>
            tf[i].objectId == Some(ids[m]))
      && (!(t0[i].locationId == loc && HasId(metas, t0[i].id)) ==> tf[i] == t0[i])
  {
    var casUps := CasUpdates(metas);
    var linkUps := LinkUpdates(links);
    var newUps := NewLinkUpdates(news, ids);
    var t1 := UpdateRows(t0, loc, casUps);
    var t2 := UpdateRows(t1, loc, linkUps);
    var tf := UpdateRows(t2, loc, newUps);
    UpdateRowsSpec(t0, loc, casUps);
    UpdateRowsSpec(t1, loc, linkUps);
    UpdateRowsSpec(t2, loc, newUps);
    var id := t0[i].id;
    if t0[i].locationId == loc {
      // Each write changes only the columns it sets, on the rows it targets.
      assert t1[i].casId == (if Targets(casUps, id) then Some(metas[Pick(casUps, id)].meta.casId) else t0[i].casId)
        && t1[i].objectId == t0[i].objectId by {
        if Targets(casUps, id) {
          var k := Pick(casUps, id);
          assert casUps[k] == (metas[k].id, CasIdSet(metas[k].meta.casId));
        }
      }
      assert t2[i].casId == t1[i].casId by {
        if Targets(linkUps, id) {
          var l := Pick(linkUps, id);
          assert linkUps[l] == (links[l].0, ObjectConnect(links[l].1));
        }
      }
      assert tf[i].casId == t2[i].casId by {
        if Targets(newUps, id) {
          var m := Pick(newUps, id);
          assert newUps[m] == (news[m].id, ObjectConnect(ids[m]));
        }
      }
      forall k | 0 <= k < |metas| && id == metas[k].id
        ensures tf[i].casId == Some(metas[k].meta.casId)
      {
        assert casUps[k].0 == id;
      }
      forall l | 0 <= l < |links| && id == links[l].0
        ensures tf[i].objectId == Some(links[l].1)
      {
        assert linkUps[l] == (links[l].0, ObjectConnect(links[l].1));
      }
      forall m | 0 <= m < |news| && id == news[m].id
        ensures tf[i].objectId == Some(ids[m])
      {
        assert newUps[m] == (news[m].id, ObjectConnect(ids[m]));
      }
      if !HasId(metas, id) {
        assert !Targets(casUps, id);
        assert !Targets(linkUps, id);
        assert !Targets(newUps, id) by {
          forall m | 0 <= m < |newUps|
            ensures newUps[m].0 != id
          {
            assert newUps[m].0 == news[m].id && news[m] in news;
          }
        }
      }
    }
  }

  /** The position of an update that targets `id`. */
  function Pick(ups: seq<(FilePathId, ColumnSet)>, id: FilePathId): (k: nat)
    requires Targets(ups, id)
    ensures k < |ups| && ups[k].0 == id
  {
    if ups[0].0 == id then 0 else 1 + Pick(ups[1..], id)
  }

  /** The plan's linked and new paths divide the analysed chunk as `FindObject` says. */
  lemma PlanDivides(location: Location, locationPath: Path, fps: seq<FilePath>, fs: Path -> Probe,
                    uuids: nat -> PubId, t0: seq<FilePath>, objs: seq<Object>)
    ensures var p := MakePlan(location, locationPath, fps, fs, uuids, t0, objs);
      && Divides(p.metas, p.links, p.news)
      && (forall a, o :: a in p.metas && FindObject(objs, p.afterCas, a.meta.casId) == Some(o) ==> (a.id, o) in p.links)
      && (forall a :: a in p.metas && FindObject(objs, p.afterCas, a.meta.casId) == None ==> a in p.news)
  {
    var p := MakePlan(location, locationPath, fps, fs, uuids, t0, objs);
    GatherKeyedById(locationPath, fs, fps);
    PartitionIsExact(p.metas, objs, p.afterCas, UniqueCasIds(p.metas));
    LinkPairsFromChunk(p.metas, p.existing, p.afterCas);
    NewPathsFromChunk(p.metas, ExistingCasIds(p.existing, p.afterCas));
    forall a, l | a in p.news && 0 <= l < |p.links|
      ensures p.links[l].0 != a.id
    {
      if p.links[l].0 == a.id {
        assert p.links[l] in p.links;
        var b :| b in p.metas && b.id == a.id && FindObject(objs, p.afterCas, b.meta.casId) == Some(p.links[l].1);
        SameIdSamePath(p.metas, a, b);
      }
    }
  }

  /**
   * After a step whose writes all succeed, every analysed path has its `cas_id` and an
   * object: the first object of the table that has a file path with that `cas_id`, or
   * else the new object made for it alone. Rows outside the chunk are untouched.
   */
  lemma StepIdentifiesEveryPath(location: Location, locationPath: Path, fps: seq<FilePath>, fs: Path -> Probe,
                                uuids: nat -> PubId, t0: seq<FilePath>, objs: seq<Object>)
    ensures var p := MakePlan(location, locationPath, fps, fs, uuids, t0, objs);
      var tf := FinalFilePaths(p, location);
      && |tf| == |t0|
      && (forall k, i :: 0 <= k < |p.metas| && 0 <= i < |t0| && (t0[i].locationId, t0[i].id) == (location.id, p.metas[k].id)
            ==> && tf[i].casId == Some(p.metas[k].meta.casId)
                && tf[i].objectId.Some?
                && (FindObject(objs, p.afterCas, p.metas[k].meta.casId).Some? ==>
                      tf[i].objectId == FindObject(objs, p.afterCas, p.metas[k].meta.casId)))
      && (forall m, i :: 0 <= m < |p.news| && 0 <= i < |t0| && (t0[i].locationId, t0[i].id) == (location.id, p.news[m].id)
            ==> tf[i].objectId == Some(p.newIds[m]))
      && (forall i :: 0 <= i < |t0| && !(t0[i].locationId == location.id && HasId(p.metas, t0[i].id))
            ==> tf[i] == t0[i])
  {
    var p := MakePlan(location, locationPath, fps, fs, uuids, t0, objs);
    PlanDivides(location, locationPath, fps, fs, uuids, t0, objs);
    forall i | 0 <= i < |t0| {
      StepIdentifiesRow(p, location, t0, objs, i);
    }
  }

  /** One row of `StepIdentifiesEveryPath`, for any plan that divides the chunk as `MakePlan` does. */
  lemma StepIdentifiesRow(p: Plan, location: Location, t0: seq<FilePath>, objs: seq<Object>, i: int)
    requires |p.newIds| == |p.news| && 0 <= i < |t0|
    requires Divides(p.metas, p.links, p.news)
    requires p.afterCas == UpdateRows(t0, location.id, CasUpdates(p.metas))
    requires p.afterLinks == UpdateRows(p.afterCas, location.id, LinkUpdates(p.links))
    requires forall a, o :: a in p.metas && FindObject(objs, p.afterCas, a.meta.casId) == Some(o) ==> (a.id, o) in p.links
    requires forall a :: a in p.metas && FindObject(objs, p.afterCas, a.meta.casId) == None ==> a in p.news
    ensures var tf := FinalFilePaths(p, location);
      && |tf| == |t0|
      && (forall k :: 0 <= k < |p.metas| && (t0[i].locationId, t0[i].id) == (location.id, p.metas[k].id)
            ==> && tf[i].casId == Some(p.metas[k].meta.casId)
                && tf[i].objectId.Some?
                && (FindObject(objs, p.afterCas, p.metas[k].meta.casId).Some? ==>
                      tf[i].objectId == FindObject(objs, p.afterCas, p.metas[k].meta.casId)))
      && (forall m :: 0 <= m < |p.news| && (t0[i].locationId, t0[i].id) == (location.id, p.news[m].id)
            ==> tf[i].objectId == Some(p.newIds[m]))
      && (!(t0[i].locationId == location.id && HasId(p.metas, t0[i].id)) ==> tf[i] == t0[i])
  {
    var tf := FinalFilePaths(p, location);
    ThreeWritesRow(t0, location.id, p.metas, p.links, p.news, p.newIds, i);
    forall k | 0 <= k < |p.metas| && (t0[i].locationId, t0[i].id) == (location.id, p.metas[k].id)
      ensures tf[i].objectId.Some?
      ensures FindObject(objs, p.afterCas, p.metas[k].meta.casId).Some? ==>
        tf[i].objectId == FindObject(objs, p.afterCas, p.metas[k].meta.casId)
    {
      var a := p.metas[k];
      assert a in p.metas;
      match FindObject(objs, p.afterCas, a.meta.casId)
      case Some(o) =>
        assert (a.id, o) in p.links;
        var l :| 0 <= l < |p.links| && p.links[l] == (a.id, o);
        assert tf[i].objectId == Some(o);
      case None =>
        assert a in p.news;
        var m :| 0 <= m < |p.news| && p.news[m] == a;
        assert tf[i].objectId == Some(p.newIds[m]);
    }
  }

  /**
   * `identifier_job_step`: writes the chunk's `cas_id`s, connects paths to existing
   * objects, creates the missing objects and connects their paths. Each batched write
   * is all-or-nothing; a failed object insert is swallowed and counts as 0 created.
   * Returns `(created, linked_to_existing)`. The files are read under `locationPath`,
   * the caller's `location_path` argument, which need not be the location row's path.
   */
  method IdentifierJobStep(lib: Library, location: Location, locationPath: Path, fps: seq<FilePath>,
                           fs: Path -> Probe,
                           uuids: nat -> PubId, faults: Faults) returns (r: Result<(nat, nat), JobError>)
    requires lib.Valid()
    modifies lib
    ensures lib.Valid()
    ensures AnyDirectory(locationPath, fs, fps) ==> r == Err(Panic(DirectoryAssertion)) && unchanged(lib)
    ensures var p := MakePlan(location, locationPath, fps, fs, uuids, old(lib.filePaths), old(lib.objects));
      !AnyDirectory(locationPath, fs, fps) && !CasWriteSucceeds(p, location, old(lib.filePaths), faults) ==>
        r == Err(Database) && unchanged(lib)
    ensures var p := MakePlan(location, locationPath, fps, fs, uuids, old(lib.filePaths), old(lib.objects));
      !AnyDirectory(locationPath, fs, fps) && CasWriteSucceeds(p, location, old(lib.filePaths), faults) &&
      (faults.objectQuery || faults.linkWrite) ==>
        && r == Err(Database)
        && lib.filePaths == p.afterCas && lib.objects == old(lib.objects)
        && lib.ops == old(lib.ops) + CasOps(p.metas, location)
    ensures var p := MakePlan(location, locationPath, fps, fs, uuids, old(lib.filePaths), old(lib.objects));
      !AnyDirectory(locationPath, fs, fps) && CasWriteSucceeds(p, location, old(lib.filePaths), faults) &&
      !faults.objectQuery && !faults.linkWrite ==>
        var created := CreateSucceeds(p, old(lib.objects), faults);
        && lib.objects == old(lib.objects) + (if created then NewObjects(p.news, p.newIds) else [])
        && lib.filePaths ==
             (if created && !faults.newLinkWrite
              then UpdateRows(p.afterLinks, location.id, NewLinkUpdates(p.news, p.newIds))
              else p.afterLinks)
        && lib.ops == old(lib.ops) + CasOps(p.metas, location) + LinkOps(p.links, location)
             + (if created then AllCreateOps(p.news, p.newIds) else [])
             + (if created && !faults.newLinkWrite then NewLinkOps(p.news, p.newIds, location) else [])
        && r == (if created && faults.newLinkWrite then Err(Database)
                 else Ok((if created then |p.news| else 0, |p.links|)))
    ensures r.Ok? ==> r.value.1 + |MakePlan(location, locationPath, fps, fs, uuids, old(lib.filePaths), old(lib.objects)).news|
                      == |Gather(locationPath, fs, fps)|
  {
    if AnyDirectory(locationPath, fs, fps) {
      return Err(Panic(DirectoryAssertion));
    }
    var p := MakePlan(location, locationPath, fps, fs, uuids, lib.filePaths, lib.objects);
    var objs := lib.objects;

    // Assign cas_id to each file path.
    if !CasWriteSucceeds(p, location, lib.filePaths, faults) {
      return Err(Database);
    }
    WriteFilePaths(lib, location.id, CasUpdates(p.metas), CasOps(p.metas, location));

    // Connect paths whose cas_id already belongs to an object.
    if faults.objectQuery || faults.linkWrite {
      return Err(Database);
    }
    WriteFilePaths(lib, location.id, LinkUpdates(p.links), LinkOps(p.links, location));
    PartitionIsExact(p.metas, objs, p.afterCas, UniqueCasIds(p.metas));

    r := CreateAndConnect(lib, p, location, faults);
  }

  /**
   * The last phase of a step: create the objects that do not exist yet, then connect
   * their paths to them. Nothing is created when the insert fails, and then nothing
   * is connected either.
   */
  method CreateAndConnect(lib: Library, p: Plan, location: Location, faults: Faults) returns (r: Result<(nat, nat), JobError>)
    requires lib.Valid()
    requires |p.newIds| == |p.news|
    modifies lib
    ensures lib.Valid()
    ensures var created := CreateSucceeds(p, old(lib.objects), faults);
      && lib.objects == old(lib.objects) + (if created then NewObjects(p.news, p.newIds) else [])
      && lib.filePaths ==
           (if created && !faults.newLinkWrite
            then UpdateRows(old(lib.filePaths), location.id, NewLinkUpdates(p.news, p.newIds))
            else old(lib.filePaths))
      && lib.ops == old(lib.ops)
           + (if created then AllCreateOps(p.news, p.newIds) else [])
           + (if created && !faults.newLinkWrite then NewLinkOps(p.news, p.newIds, location) else [])
      && r == (if created && faults.newLinkWrite then Err(Database)
               else Ok((if created then |p.news| else 0, |p.links|)))
  {
    var created: nat := 0;
    if CreateSucceeds(p, lib.objects, faults) {
      WriteObjects(lib, NewObjects(p.news, p.newIds), AllCreateOps(p.news, p.newIds));
      created := |p.news|;
    }
    if created > 0 {
      if faults.newLinkWrite {
        return Err(Database);
      }
      WriteFilePaths(lib, location.id, NewLinkUpdates(p.news, p.newIds), NewLinkOps(p.news, p.newIds, location));
    }
    r := Ok((created, |p.links|));
  }

  /** `SyncManager::write_ops` for a batch of file_path updates and their sync operations. */
  method WriteFilePaths(lib: Library, loc: LocationId, ups: seq<(FilePathId, ColumnSet)>, ops: seq<CrdtOperation>)
    requires lib.Valid()
    modifies lib
    ensures lib.Valid()
    ensures lib.filePaths == UpdateRows(old(lib.filePaths), loc, ups)
    ensures lib.objects == old(lib.objects) && lib.ops == old(lib.ops) + ops
  {
    lib.filePaths := UpdateRows(lib.filePaths, loc, ups);
    lib.ops := lib.ops + ops;
  }

  /** `SyncManager::write_ops` for `object.create_many` of rows with fresh pub ids. */
  method WriteObjects(lib: Library, rows: seq<Object>, ops: seq<CrdtOperation>)
    requires lib.Valid()
    requires UniquePubIds(rows)
    requires forall k, j :: 0 <= k < |rows| && 0 <= j < |lib.objects| ==> rows[k].pubId != lib.objects[j].pubId
    modifies lib
    ensures lib.Valid()
    ensures lib.objects == old(lib.objects) + rows
    ensures lib.filePaths == old(lib.filePaths) && lib.ops == old(lib.ops) + ops
  {
    lib.objects := lib.objects + rows;
    lib.ops := lib.ops + ops;
  }
}
