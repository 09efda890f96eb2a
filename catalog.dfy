/**
 * The library database as the three jobs see it: the `file_path` table (rows keyed by
 * `(location_id, id)`), the `object` table (rows keyed by `pub_id`), both in row order,
 * and the log of sync operations that every batched write appends to.
 */
module Catalog {
  import opened Outcomes

  type LocationId = int
  type FilePathId = int
  /** A globally unique object or location id (a UUID stored as bytes). */
  type PubId = nat
  type CasId = string
  type Path = string

  datatype Location = Location(id: LocationId, pubId: PubId, path: Path)

  datatype FilePath = FilePath(
    id: FilePathId,
    locationId: LocationId,
    materializedPath: string,
    extension: string,
    casId: Option<CasId>,
    objectId: Option<PubId>,
    dateCreated: int)

  datatype Object = Object(pubId: PubId, dateCreated: int, kind: int, sizeInBytes: string)

  /** JSON values carried by sync operations. */
  datatype Value = Str(s: string) | Int(i: int) | Date(t: int) | ObjectRef(pubId: PubId)

  datatype FilePathSyncId = FilePathSyncId(id: FilePathId, location: PubId)

  /** The operations a write hands to the sync manager. */
  datatype CrdtOperation =
    | OwnedUpdate(filePath: FilePathSyncId, fields: seq<(string, Value)>)
    | SharedCreate(objectPubId: PubId)
    | SharedUpdate(objectPubId: PubId, field: string, value: Value)

  datatype PanicReason = DirectoryAssertion | MissingSubPath | MissingRootPath | MissingJobData

  /** Why a job's `init` or step stopped. `Panic` stands for an `assert!` or `expect` that fails. */
  datatype JobError =
    | Database
    | Io
    | RuleConversion
    | SubPathNotInLocation
    | SubPathNotDirectory
    | MaterializedPathFailed
    | WalkFailed
    | StepFailed
    | Panic(reason: PanicReason)

  /**
   * `Path::join` on Unix paths: an absolute right side replaces the left; otherwise the
   * result is the base, one `/` (the base's own trailing one, or an added one), then
   * the right side.
   */
  function Join(base: Path, p: Path): (r: Path)
    ensures base == [] ==> r == p
    ensures |p| > 0 && p[0] == '/' ==> r == p
    ensures |base| > 0 && !(|p| > 0 && p[0] == '/') ==>
      && base <= r && |p| < |r| && r[|r| - |p|..] == p
      && r[|r| - |p| - 1] == '/'
      && |r| == |base| + |p| + (if base[|base| - 1] == '/' then 0 else 1)
  {
    if base == [] || (|p| > 0 && p[0] == '/') then p
    else if base[|base| - 1] == '/' then base + p
    else base + "/" + p
  }

  predicate HasKey(t: seq<FilePath>, loc: LocationId, id: FilePathId) {
    exists i :: 0 <= i < |t| && t[i].locationId == loc && t[i].id == id
  }

  /** The primary key `(location_id, id)` of the file_path table. */
  predicate UniqueKeys(t: seq<FilePath>) {
    forall i, j :: 0 <= i < j < |t| ==> t[i].locationId != t[j].locationId || t[i].id != t[j].id
  }

  /** `pub_id` is unique in the object table. */
  predicate UniquePubIds(objs: seq<Object>) {
    forall i, j :: 0 <= i < j < |objs| ==> objs[i].pubId != objs[j].pubId
  }

  /** Two tables with the same rows up to non-key columns. */
  predicate SameKeys(t: seq<FilePath>, u: seq<FilePath>) {
    |t| == |u| && forall i :: 0 <= i < |t| ==> t[i].locationId == u[i].locationId && t[i].id == u[i].id
  }

  /** The column a `file_path.update` sets: its `cas_id`, or its `object` relation. */
  datatype ColumnSet = CasIdSet(cas: CasId) | ObjectConnect(obj: PubId)

  function ApplySet(row: FilePath, c: ColumnSet): FilePath {
    match c
    case CasIdSet(cas) => row.(casId := Some(cas))
    case ObjectConnect(obj) => row.(objectId := Some(obj))
  }

  /** `file_path.update(location_id_id(loc, id), [c])`. */
  function UpdateRow(t: seq<FilePath>, loc: LocationId, id: FilePathId, c: ColumnSet): (r: seq<FilePath>)
    ensures SameKeys(t, r)
  {
    seq(|t|, i requires 0 <= i < |t| =>
      if t[i].locationId == loc && t[i].id == id then ApplySet(t[i], c) else t[i])
  }

  /** A batch of updates of rows of location `loc`, applied in order. */
  function UpdateRows(t: seq<FilePath>, loc: LocationId, ups: seq<(FilePathId, ColumnSet)>): (r: seq<FilePath>)
    ensures SameKeys(t, r)
    decreases |ups|
  {
    if ups == [] then t else UpdateRows(UpdateRow(t, loc, ups[0].0, ups[0].1), loc, ups[1..])
  }

  predicate DistinctTargets(ups: seq<(FilePathId, ColumnSet)>) {
    forall k, l :: 0 <= k < l < |ups| ==> ups[k].0 != ups[l].0
  }

  predicate Targets(ups: seq<(FilePathId, ColumnSet)>, id: FilePathId) {
    exists k :: 0 <= k < |ups| && ups[k].0 == id
  }

  /**
   * A batch whose updates target distinct rows sets exactly the targeted rows of the
   * location, each as its own update says, and leaves every other row as it was.
   */
  lemma {:induction false} UpdateRowsSpec(t: seq<FilePath>, loc: LocationId, ups: seq<(FilePathId, ColumnSet)>)
    requires DistinctTargets(ups)
    ensures |UpdateRows(t, loc, ups)| == |t|
    ensures forall k, i :: 0 <= k < |ups| && 0 <= i < |t| && t[i].locationId == loc && t[i].id == ups[k].0 ==>
      UpdateRows(t, loc, ups)[i] == ApplySet(t[i], ups[k].1)
    ensures forall i :: 0 <= i < |t| && !(t[i].locationId == loc && Targets(ups, t[i].id)) ==>
      UpdateRows(t, loc, ups)[i] == t[i]
    decreases |ups|
  {
    if ups != [] {
      var t' := UpdateRow(t, loc, ups[0].0, ups[0].1);
      UpdateRowsSpec(t', loc, ups[1..]);
      var r := UpdateRows(t, loc, ups);
      assert r == UpdateRows(t', loc, ups[1..]);
      forall k, i | 0 <= k < |ups| && 0 <= i < |t| && t[i].locationId == loc && t[i].id == ups[k].0
        ensures r[i] == ApplySet(t[i], ups[k].1)
      {
        if k > 0 {
          assert ups[1..][k - 1] == ups[k];
        }
      }
      forall i | 0 <= i < |t| && !(t[i].locationId == loc && Targets(ups, t[i].id))
        ensures r[i] == t[i]
      {
        assert t[i].locationId == loc ==> ups[0].0 != t[i].id;
      }
    }
  }

  /** The library's database and the operations its sync manager has recorded. */
  class Library {
    var filePaths: seq<FilePath>
    var objects: seq<Object>
    var ops: seq<CrdtOperation>

    ghost predicate Valid()
      reads this
    {
      UniqueKeys(filePaths) && UniquePubIds(objects)
    }

    constructor (filePaths: seq<FilePath>, objects: seq<Object>)
      requires UniqueKeys(filePaths) && UniquePubIds(objects)
      ensures Valid()
      ensures this.filePaths == filePaths && this.objects == objects && ops == []
    {
      this.filePaths := filePaths;
      this.objects := objects;
      ops := [];
    }
  }

  /** The job's worker context, reduced to the progress updates it has been sent, batch by batch. */
  class WorkerContext<U> {
    var sent: seq<seq<U>>

    constructor ()
      ensures sent == []
    {
      sent := [];
    }

    method Progress(updates: seq<U>)
      modifies this
      ensures sent == old(sent) + [updates]
    {
      sent := sent + [updates];
    }
  }
}
