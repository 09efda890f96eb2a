/**
 * Planning of the thumbnailer job: it picks the location (or one directory of it),
 * queries the file_path rows under it whose extension is an image (and, when video
 * support is built in, a video) extension, and queues one step per row, images first.
 */
module ThumbnailerJob {
  import opened Outcomes
  import opened Catalog
  import Decimal

  datatype ThumbnailerJobInit = ThumbnailerJobInit(location: Location, subPath: Option<Path>, background: bool)

  datatype ThumbnailerJobStepKind = Image | Video

  /** The `file_path_just_materialized_path_cas_id` selection of a row. */
  datatype FilePathSelection = FilePathSelection(materializedPath: string, casId: Option<CasId>)

  datatype ThumbnailerJobStep = ThumbnailerJobStep(filePath: FilePathSelection, kind: ThumbnailerJobStepKind)

  datatype ThumbnailerJobReport = ThumbnailerJobReport(locationId: LocationId, materializedPath: string,
                                                       thumbnailsCreated: nat)

  datatype ThumbnailerJobState = ThumbnailerJobState(thumbnailDir: Path, locationPath: Path,
                                                     report: ThumbnailerJobReport)

  datatype JobReportUpdate = TaskCount(count: nat) | Message(text: string)

  /**
   * The collaborators of `init` that this model does not contain, as their answers:
   * the library's data directory, the cache directory's name, the extension lists,
   * whether video support is built in, the two sub-path checks, `MaterializedPath::new`,
   * and whether creating the cache directory or either query fails.
   */
  datatype ThumbnailerEnv = ThumbnailerEnv(
    dataDirectory: Path,
    cacheDirName: Path,
    imageExtensions: seq<string>,
    videoExtensions: seq<string>,
    ffmpeg: bool,
    inLocation: (Path, Path) -> Option<Path>,
    isDirectory: (Path, Path) -> bool,
    materialize: (LocationId, Path, Path, bool) -> Option<string>,
    createDirFails: bool,
    imageQueryFails: bool,
    videoQueryFails: bool)

  // ---------------------------------------------------------------------------
  // The query

  /** The conditions of the `find_many`: same location, listed extension, under the scope. */
  predicate Matches(row: FilePath, loc: LocationId, scope: string, extensions: seq<string>) {
    row.locationId == loc && row.extension in extensions && scope <= row.materializedPath
  }

  function StepOf(row: FilePath, kind: ThumbnailerJobStepKind): ThumbnailerJobStep {
    ThumbnailerJobStep(FilePathSelection(row.materializedPath, row.casId), kind)
  }

  /** `get_files_by_extensions`: the matching rows in table order, each tagged with `kind`. */
  function GetFilesByExtensions(t: seq<FilePath>, loc: LocationId, scope: string,
                                extensions: seq<string>, kind: ThumbnailerJobStepKind): seq<ThumbnailerJobStep>
    decreases |t|
  {
    if t == [] then []
    else (if Matches(t[0], loc, scope, extensions) then [StepOf(t[0], kind)] else [])
         + GetFilesByExtensions(t[1..], loc, scope, extensions, kind)
  }

  /**
   * A step is returned exactly for each row of the location whose extension is listed
   * and whose materialized path starts with the scope, carrying that row's materialized
   * path and cas id and the requested kind.
   */
  lemma {:induction false} GetFilesByExtensionsSpec(t: seq<FilePath>, loc: LocationId, scope: string,
                                                    extensions: seq<string>, kind: ThumbnailerJobStepKind)
    ensures var r := GetFilesByExtensions(t, loc, scope, extensions, kind);
      && |r| <= |t|
      && (forall x :: x in r ==> x.kind == kind)
      && (forall x :: x in r <==> exists i :: 0 <= i < |t| && Matches(t[i], loc, scope, extensions) && x == StepOf(t[i], kind))
    decreases |t|
  {
    if t != [] {
      GetFilesByExtensionsSpec(t[1..], loc, scope, extensions, kind);
      var r := GetFilesByExtensions(t, loc, scope, extensions, kind);
      forall x
        ensures x in r <==> exists i :: 0 <= i < |t| && Matches(t[i], loc, scope, extensions) && x == StepOf(t[i], kind)
      {
        if exists i :: 0 <= i < |t| && Matches(t[i], loc, scope, extensions) && x == StepOf(t[i], kind) {
          var i :| 0 <= i < |t| && Matches(t[i], loc, scope, extensions) && x == StepOf(t[i], kind);
          if i > 0 {
            assert t[1..][i - 1] == t[i];
          }
        }
        if x in GetFilesByExtensions(t[1..], loc, scope, extensions, kind) {
          var i :| 0 <= i < |t[1..]| && Matches(t[1..][i], loc, scope, extensions) && x == StepOf(t[1..][i], kind);
          assert t[i + 1] == t[1..][i];
        }
      }
    }
  }

  /** The query keeps table order: over two stretches of the table it returns the first stretch's steps first. */
  lemma {:induction false} GetFilesByExtensionsAppend(t1: seq<FilePath>, t2: seq<FilePath>, loc: LocationId, scope: string,
                                                      extensions: seq<string>, kind: ThumbnailerJobStepKind)
    ensures GetFilesByExtensions(t1 + t2, loc, scope, extensions, kind)
         == GetFilesByExtensions(t1, loc, scope, extensions, kind) + GetFilesByExtensions(t2, loc, scope, extensions, kind)
    decreases |t1|
  {
    if t1 != [] {
      assert (t1 + t2)[1..] == t1[1..] + t2;
      GetFilesByExtensionsAppend(t1[1..], t2, loc, scope, extensions, kind);
    } else {
      assert t1 + t2 == t2;
    }
  }

  // ---------------------------------------------------------------------------
  // The job

  /**
   * The materialized path of the directory the job covers: the location root without a
   * sub-path, otherwise the sub-path after checking it lies in the location and is a
   * directory.
   */
  function Scope(init: ThumbnailerJobInit, env: ThumbnailerEnv): Result<string, JobError> {
    var loc := init.location;
    match init.subPath
    case Some(subPath) =>
      (match env.inLocation(loc.path, subPath)
       case None => Err(SubPathNotInLocation)
       case Some(fullPath) =>
         if !env.isDirectory(loc.path, subPath) then Err(SubPathNotDirectory)
         else match env.materialize(loc.id, loc.path, fullPath, true)
           case None => Err(MaterializedPathFailed)
           case Some(mp) => Ok(mp))
    case None =>
      match env.materialize(loc.id, loc.path, loc.path, true)
      case None => Err(MaterializedPathFailed)
      case Some(mp) => Ok(mp)
  }

  /**
   * A scope is found only for a sub-path that passed both checks, or for the location
   * root when there is none; it is what `MaterializedPath::new` gave for that directory.
   */
  lemma ScopeSpec(init: ThumbnailerJobInit, env: ThumbnailerEnv)
    ensures var loc := init.location;
      Scope(init, env).Ok? && init.subPath.Some? ==>
        && env.inLocation(loc.path, init.subPath.value).Some?
        && env.isDirectory(loc.path, init.subPath.value)
        && env.materialize(loc.id, loc.path, env.inLocation(loc.path, init.subPath.value).value, true)
           == Some(Scope(init, env).value)
    ensures var loc := init.location;
      init.subPath.None? ==>
        && (Scope(init, env).Ok? <==> env.materialize(loc.id, loc.path, loc.path, true).Some?)
        && (Scope(init, env).Ok? ==> env.materialize(loc.id, loc.path, loc.path, true) == Some(Scope(init, env).value))
  {
  }

  /** What a successful `init` computes: the scope and the queue of steps. */
  datatype ThumbnailPlan = ThumbnailPlan(scope: string, steps: seq<ThumbnailerJobStep>)

  /** `ThumbnailerJob::init` as a function of its inputs: the first failure, or the plan. */
  function PlanThumbnails(init: ThumbnailerJobInit, env: ThumbnailerEnv, t: seq<FilePath>): Result<ThumbnailPlan, JobError> {
    match Scope(init, env)
    case Err(e) => Err(e)
    case Ok(scope) =>
      if env.createDirFails then Err(Io)
      else if env.imageQueryFails then Err(Database)
      else
        var images := GetFilesByExtensions(t, init.location.id, scope, env.imageExtensions, Image);
        if !env.ffmpeg then Ok(ThumbnailPlan(scope, images))
        else if env.videoQueryFails then Err(Database)
        else Ok(ThumbnailPlan(scope, images + GetFilesByExtensions(t, init.location.id, scope, env.videoExtensions, Video)))
  }

  /**
   * A successful `init` queues every image row under the scope, then (with video
   * support) every video row, and nothing else; all image steps come before all video
   * steps, and without video support no video step is queued.
   */
  lemma PlanThumbnailsSpec(init: ThumbnailerJobInit, env: ThumbnailerEnv, t: seq<FilePath>)
    ensures var r := PlanThumbnails(init, env, t);
      r.Ok? ==>
        var loc := init.location.id;
        var steps := r.value.steps;
        && Scope(init, env) == Ok(r.value.scope)
        && (forall x :: x in steps && x.kind == Image <==>
              exists i :: 0 <= i < |t| && Matches(t[i], loc, r.value.scope, env.imageExtensions) && x == StepOf(t[i], Image))
        && (forall x :: x in steps && x.kind == Video <==>
              env.ffmpeg && exists i :: 0 <= i < |t| && Matches(t[i], loc, r.value.scope, env.videoExtensions) && x == StepOf(t[i], Video))
        && (forall i, j :: 0 <= i < j < |steps| && steps[j].kind == Image ==> steps[i].kind == Image)
  {
    var r := PlanThumbnails(init, env, t);
    if r.Ok? {
      var loc := init.location.id;
      var scope := r.value.scope;
      var images := GetFilesByExtensions(t, loc, scope, env.imageExtensions, Image);
      var videos := GetFilesByExtensions(t, loc, scope, env.videoExtensions, Video);
      GetFilesByExtensionsSpec(t, loc, scope, env.imageExtensions, Image);
      GetFilesByExtensionsSpec(t, loc, scope, env.videoExtensions, Video);
      var steps := r.value.steps;
      assert steps == if env.ffmpeg then images + videos else images;
      assert forall k :: 0 <= k < |steps| && k >= |images| ==> steps[k] in videos && steps[k].kind == Video;
      assert forall k :: 0 <= k < |images| ==> steps[k] in images && steps[k].kind == Image;
    }
  }

  /** The job's state: its init record, its data, its queue and the number of the current step. */
  class ThumbnailerJobRun {
    const init: ThumbnailerJobInit
    var data: Option<ThumbnailerJobState>
    var steps: seq<ThumbnailerJobStep>
    var stepNumber: nat

    constructor (init: ThumbnailerJobInit)
      ensures this.init == init && data == None && steps == [] && stepNumber == 0
    {
      this.init := init;
      data := None;
      steps := [];
      stepNumber := 0;
    }
  }

  /** The two updates `init` sends once the queue is known. */
  function PreparingUpdates(n: nat): seq<JobReportUpdate> {
    [TaskCount(n), Message("Preparing to process " + Decimal.Render(n) + " files")]
  }

  /**
   * `ThumbnailerJob::init`: on failure nothing is recorded; on success the worker is
   * told the number of steps, the data holds the cache directory, the location path
   * and a report with no thumbnail created yet, and the queue is the planned steps.
   */
  method Init(state: ThumbnailerJobRun, lib: Library, ctx: WorkerContext<JobReportUpdate>, env: ThumbnailerEnv)
    returns (r: Result<(), JobError>)
    modifies state, ctx
    ensures PlanThumbnails(state.init, env, lib.filePaths).Err? ==>
      && r == Err(PlanThumbnails(state.init, env, lib.filePaths).error)
      && unchanged(state) && unchanged(ctx)
    ensures PlanThumbnails(state.init, env, lib.filePaths).Ok? ==>
      var plan := PlanThumbnails(state.init, env, lib.filePaths).value;
      && r == Ok(())
      && ctx.sent == old(ctx.sent) + [PreparingUpdates(|plan.steps|)]
      && state.data == Some(ThumbnailerJobState(
           Join(env.dataDirectory, env.cacheDirName), state.init.location.path,
           ThumbnailerJobReport(state.init.location.id, plan.scope, 0)))
      && state.steps == plan.steps
      && state.stepNumber == old(state.stepNumber)
  {
    var thumbnailDir := Join(env.dataDirectory, env.cacheDirName);
    var locationId := state.init.location.id;
    var locationPath := state.init.location.path;

    var scope := Scope(state.init, env);
    if scope.Err? {
      return Err(scope.error);
    }
    var materializedPath := scope.value;

    if env.createDirFails {
      return Err(Io);
    }
    if env.imageQueryFails {
      return Err(Database);
    }
    var allFiles := GetFilesByExtensions(lib.filePaths, locationId, materializedPath, env.imageExtensions, Image);
    if env.ffmpeg {
      if env.videoQueryFails {
        return Err(Database);
      }
      allFiles := allFiles + GetFilesByExtensions(lib.filePaths, locationId, materializedPath, env.videoExtensions, Video);
    }

    ctx.Progress(PreparingUpdates(|allFiles|));

    state.data := Some(ThumbnailerJobState(thumbnailDir, locationPath,
                                           ThumbnailerJobReport(locationId, materializedPath, 0)));
    state.steps := allFiles;
    r := Ok(());
  }

  /**
   * `execute_step`: a job without data fails its `expect` before anything runs;
   * otherwise the first queued step is processed with the job's background flag and
   * step number, and the data becomes what processing left in it.
   */
  method ExecuteStep(state: ThumbnailerJobRun,
                     process: (bool, nat, ThumbnailerJobStep, ThumbnailerJobState) -> (ThumbnailerJobState, Result<(), JobError>))
    returns (r: Result<(), JobError>)
    requires |state.steps| > 0
    modifies state
    ensures state.steps == old(state.steps) && state.stepNumber == old(state.stepNumber)
    ensures old(state.data).None? ==> r == Err(Panic(MissingJobData)) && state.data == old(state.data)
    ensures old(state.data).Some? ==>
      var outcome := process(state.init.background, state.stepNumber, state.steps[0], old(state.data).value);
      && state.data == Some(outcome.0)
      && r == outcome.1
  {
    if state.data.None? {
      return Err(Panic(MissingJobData));
    }
    var outcome := process(state.init.background, state.stepNumber, state.steps[0], state.data.value);
    state.data := Some(outcome.0);
    r := outcome.1;
  }

  // ---------------------------------------------------------------------------
  // Job identity

  datatype HashToken = LocationToken(id: LocationId) | PathToken(path: Path)

  /** The values `Hash for ThumbnailerJobInit` feeds to the hasher: the sub-path only when there is one. */
  function HashInput(init: ThumbnailerJobInit): seq<HashToken> {
    [LocationToken(init.location.id)] + match init.subPath
      case None => []
      case Some(p) => [PathToken(p)]
  }

  /**
   * Two jobs hash alike exactly when they cover the same location and the same
   * sub-path (both absent, or both present and equal); the background flag plays no part.
   */
  lemma HashInputIdentity(a: ThumbnailerJobInit, b: ThumbnailerJobInit)
    ensures HashInput(a) == HashInput(b) <==> a.location.id == b.location.id && a.subPath == b.subPath
  {
    if HashInput(a) == HashInput(b) {
      assert HashInput(a)[0] == HashInput(b)[0];
      if a.subPath.Some? {
        assert HashInput(a)[1] == HashInput(b)[1];
      }
    }
  }
}
