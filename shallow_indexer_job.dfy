/**
 * Planning of the shallow indexer job: it walks one directory of a location (without
 * descending), keeps the entries that are not yet in the database, gives them
 * consecutive file_path ids after the location's current maximum, and cuts them into
 * batches that the job's steps write one by one.
 */
module ShallowIndexerJob {
  import opened Outcomes
  import opened Catalog
  import Decimal

  /** The number of entries each step writes. */
  const BATCH_SIZE: nat := 1000

  type RuleKind = int

  /** An `indexer_rule` row attached to a location. */
  datatype RuleRow = RuleRow(name: string, kind: int, parameters: string)

  /** An `IndexerRule` decoded from its row. */
  datatype IndexerRule = IndexerRule(name: string, kind: RuleKind, parameters: string)

  datatype IndexerLocation = IndexerLocation(id: LocationId, path: Path, indexerRules: seq<RuleRow>)

  datatype ShallowIndexerJobInit = ShallowIndexerJobInit(location: IndexerLocation, subPath: Path)

  /** An entry `walk_single_dir` found. */
  datatype WalkedEntry = WalkedEntry(path: Path, isDir: bool, createdAt: int)

  /** `IndexerJobStepEntry`: a path to write to the file_path table. */
  datatype StepEntry = StepEntry(fullPath: Path, materializedPath: string, createdAt: int,
                                 fileId: int, parentId: Option<FilePathId>)

  /** `IndexerJobData` without its clock readings. */
  datatype IndexerJobData = IndexerJobData(totalPaths: nat, indexedPaths: nat)

  /**
   * The collaborators of `init` that this model does not contain, as their answers:
   * the stored maximum file_path id, `IndexerRule::try_from`, the two sub-path checks,
   * `MaterializedPath::new`, `walk_single_dir`, and whether the two database lookups fail.
   */
  datatype IndexerEnv = IndexerEnv(
    maxFilePathId: Option<int>,
    convert: RuleRow -> Option<IndexerRule>,
    inLocation: (Path, Path) -> Option<Path>,
    isDirectory: (Path, Path) -> bool,
    materialize: (LocationId, Path, Path, bool) -> Option<string>,
    walk: (Path, map<RuleKind, seq<IndexerRule>>) -> Option<seq<WalkedEntry>>,
    parentLookupFails: bool,
    existingLookupFails: bool)

  // ---------------------------------------------------------------------------
  // Indexer rules grouped by kind

  /** The decoded rules, or `None` as soon as one row fails to decode. */
  function ConvertAll(rows: seq<RuleRow>, convert: RuleRow -> Option<IndexerRule>): (r: Option<seq<IndexerRule>>)
    ensures r.Some? ==> |r.value| == |rows|
    decreases |rows|
  {
    if rows == [] then Some([])
    else match ConvertAll(rows[..|rows| - 1], convert)
      case None => None
      case Some(rules) =>
        match convert(rows[|rows| - 1])
        case None => None
        case Some(rule) => Some(rules + [rule])
  }

  /** Decoding fails exactly when some row fails to decode; otherwise it decodes every row. */
  lemma {:induction false} ConvertAllSpec(rows: seq<RuleRow>, convert: RuleRow -> Option<IndexerRule>)
    ensures ConvertAll(rows, convert).None? <==> exists i :: 0 <= i < |rows| && convert(rows[i]).None?
    ensures ConvertAll(rows, convert).Some? ==>
      forall i :: 0 <= i < |rows| ==> convert(rows[i]) == Some(ConvertAll(rows, convert).value[i])
    decreases |rows|
  {
    if rows != [] {
      var init := rows[..|rows| - 1];
      ConvertAllSpec(init, convert);
      forall i | 0 <= i < |init|
        ensures init[i] == rows[i]
      {
      }
      if exists i :: 0 <= i < |rows| && convert(rows[i]).None? {
        var i :| 0 <= i < |rows| && convert(rows[i]).None?;
        if i < |init| {
          assert convert(init[i]).None?;
        }
      }
    }
  }

  /** `entry(kind).or_default().push(rule)` over the rules in attachment order. */
  function GroupByKind(rules: seq<IndexerRule>): map<RuleKind, seq<IndexerRule>>
    decreases |rules|
  {
    if rules == [] then map[]
    else
      var m := GroupByKind(rules[..|rules| - 1]);
      var rule := rules[|rules| - 1];
      m[rule.kind := (if rule.kind in m then m[rule.kind] else []) + [rule]]
  }

  /** The rules of one kind, in order. */
  function OfKind(rules: seq<IndexerRule>, kind: RuleKind): seq<IndexerRule> {
    if rules == [] then []
    else (if rules[0].kind == kind then [rules[0]] else []) + OfKind(rules[1..], kind)
  }

  lemma {:induction false} OfKindSnoc(rules: seq<IndexerRule>, rule: IndexerRule, kind: RuleKind)
    ensures OfKind(rules + [rule], kind) == OfKind(rules, kind) + (if rule.kind == kind then [rule] else [])
  {
    if rules != [] {
      assert (rules + [rule])[1..] == rules[1..] + [rule];
      OfKindSnoc(rules[1..], rule, kind);
    }
  }

  /**
   * The grouping has a key for exactly the kinds that occur, and under each key the
   * rules of that kind in attachment order.
   */
  lemma {:induction false} GroupByKindSpec(rules: seq<IndexerRule>)
    ensures forall kind :: kind in GroupByKind(rules) <==> exists i :: 0 <= i < |rules| && rules[i].kind == kind
    ensures forall kind :: kind in GroupByKind(rules) ==> GroupByKind(rules)[kind] == OfKind(rules, kind)
    decreases |rules|
  {
    if rules != [] {
      var init := rules[..|rules| - 1];
      var rule := rules[|rules| - 1];
      assert rules == init + [rule];
      GroupByKindSpec(init);
      forall kind
        ensures kind in GroupByKind(rules) <==> exists i :: 0 <= i < |rules| && rules[i].kind == kind
        ensures kind in GroupByKind(rules) ==> GroupByKind(rules)[kind] == OfKind(rules, kind)
      {
        OfKindSnoc(init, rule, kind);
        if exists i :: 0 <= i < |rules| && rules[i].kind == kind {
          var i :| 0 <= i < |rules| && rules[i].kind == kind;
          if i < |init| { assert init[i] == rules[i]; }
        }
        if exists i :: 0 <= i < |init| && init[i].kind == kind {
          var i :| 0 <= i < |init| && init[i].kind == kind;
          assert rules[i] == init[i];
        }
        if kind !in GroupByKind(init) {
          assert OfKind(init, kind) == [] by {
            OfKindEmpty(init, kind);
          }
        }
      }
    }
  }

  lemma {:induction false} OfKindEmpty(rules: seq<IndexerRule>, kind: RuleKind)
    requires forall i :: 0 <= i < |rules| ==> rules[i].kind != kind
    ensures OfKind(rules, kind) == []
  {
    if rules != [] {
      OfKindEmpty(rules[1..], kind);
    }
  }

  /**
   * The loop of `init` that groups the location's rules by kind; a rule that fails to
   * decode aborts it.
   */
  method GroupRulesByKind(rows: seq<RuleRow>, convert: RuleRow -> Option<IndexerRule>)
    returns (r: Result<map<RuleKind, seq<IndexerRule>>, JobError>)
    ensures ConvertAll(rows, convert).None? ==> r == Err(RuleConversion)
    ensures ConvertAll(rows, convert).Some? ==> r == Ok(GroupByKind(ConvertAll(rows, convert).value))
  {
    var byKind: map<RuleKind, seq<IndexerRule>> := map[];
    var i := 0;
    while i < |rows|
      invariant 0 <= i <= |rows|
      invariant ConvertAll(rows[..i], convert).Some?
      invariant byKind == GroupByKind(ConvertAll(rows[..i], convert).value)
    {
      ConvertOneMore(rows, convert, i);
      var rule := convert(rows[i]);
      if rule.Some? {
        GroupOneMore(ConvertAll(rows[..i], convert).value, rule.value);
      }
      if rule.None? {
        PrefixFailure(rows, convert, i + 1);
        return Err(RuleConversion);
      }
      var kind := rule.value.kind;
      byKind := byKind[kind := (if kind in byKind then byKind[kind] else []) + [rule.value]];
      i := i + 1;
    }
    assert rows[..i] == rows;
    r := Ok(byKind);
  }

  lemma {:induction false} PrefixFailure(rows: seq<RuleRow>, convert: RuleRow -> Option<IndexerRule>, n: nat)
    requires n <= |rows| && ConvertAll(rows[..n], convert).None?
    ensures ConvertAll(rows, convert).None?
    decreases |rows| - n
  {
    if n < |rows| {
      assert rows[..n + 1][..n] == rows[..n];
      PrefixFailure(rows, convert, n + 1);
    } else {
      assert rows[..n] == rows;
    }
  }

  /** One more row extends the decoded prefix by that row's rule, or fails with it. */
  lemma ConvertOneMore(rows: seq<RuleRow>, convert: RuleRow -> Option<IndexerRule>, i: nat)
    requires i < |rows| && ConvertAll(rows[..i], convert).Some?
    ensures convert(rows[i]).None? ==> ConvertAll(rows[..i + 1], convert).None?
    ensures convert(rows[i]).Some? ==>
      ConvertAll(rows[..i + 1], convert) == Some(ConvertAll(rows[..i], convert).value + [convert(rows[i]).value])
  {
    assert rows[..i + 1][..i] == rows[..i];
  }

  /** One more rule is pushed onto the group of its kind. */
  lemma GroupOneMore(rules: seq<IndexerRule>, rule: IndexerRule)
    ensures var m := GroupByKind(rules);
      GroupByKind(rules + [rule]) == m[rule.kind := (if rule.kind in m then m[rule.kind] else []) + [rule]]
  {
    assert (rules + [rule])[..|rules|] == rules;
  }

  // ---------------------------------------------------------------------------
  // The directory to walk

  /** `get_existing_file_path_id`: the id of the location's row with that materialized path. */
  function FindFilePathId(t: seq<FilePath>, loc: LocationId, materializedPath: string): (r: Option<FilePathId>)
    ensures r.Some? <==> exists i :: 0 <= i < |t| && t[i].locationId == loc && t[i].materializedPath == materializedPath
    ensures r.Some? ==>
      exists i :: (0 <= i < |t| && t[i].locationId == loc && t[i].materializedPath == materializedPath && t[i].id == r.value)
    decreases |t|
  {
    if t == [] then None
    else if t[0].locationId == loc && t[0].materializedPath == materializedPath then Some(t[0].id)
    else FindFilePathId(t[1..], loc, materializedPath)
  }

  /**
   * The directory to walk and its file_path id: the location root for an empty
   * `sub_path`, otherwise the sub-path after checking it lies in the location and is
   * a directory. A directory missing from the database fails the `expect`.
   */
  function WalkTarget(init: ShallowIndexerJobInit, env: IndexerEnv, t: seq<FilePath>): Result<(Path, FilePathId), JobError> {
    var loc := init.location;
    if init.subPath != [] then
      match env.inLocation(loc.path, init.subPath)
      case None => Err(SubPathNotInLocation)
      case Some(fullPath) =>
        if !env.isDirectory(loc.path, init.subPath) then Err(SubPathNotDirectory)
        else match env.materialize(loc.id, loc.path, fullPath, true)
          case None => Err(MaterializedPathFailed)
          case Some(mp) =>
            if env.parentLookupFails then Err(Database)
            else match FindFilePathId(t, loc.id, mp)
              case None => Err(Panic(MissingSubPath))
              case Some(parentId) => Ok((Join(loc.path, init.subPath), parentId))
    else
      match env.materialize(loc.id, loc.path, loc.path, true)
      case None => Err(MaterializedPathFailed)
      case Some(mp) =>
        if env.parentLookupFails then Err(Database)
        else match FindFilePathId(t, loc.id, mp)
          case None => Err(Panic(MissingRootPath))
          case Some(parentId) => Ok((loc.path, parentId))
  }

  /** The full path whose materialized path is looked up: the root, or the checked sub-path. */
  function LookedUpDirectory(init: ShallowIndexerJobInit, env: IndexerEnv): Option<Path> {
    if init.subPath == [] then Some(init.location.path) else env.inLocation(init.location.path, init.subPath)
  }

  /**
   * An empty `sub_path` walks the location root; any other walks the joined path, and
   * only when it passed both checks. The parent id is that of an existing row of the
   * location with the directory's materialized path, and the `expect` fails exactly
   * when the checks and lookups pass but no such row exists.
   */
  lemma WalkTargetSpec(init: ShallowIndexerJobInit, env: IndexerEnv, t: seq<FilePath>)
    ensures var r := WalkTarget(init, env, t);
      r.Ok? ==> (init.subPath == [] ==> r.value.0 == init.location.path)
    ensures var r := WalkTarget(init, env, t);
      r.Ok? && init.subPath != [] ==>
        && r.value.0 == Join(init.location.path, init.subPath)
        && env.inLocation(init.location.path, init.subPath).Some?
        && env.isDirectory(init.location.path, init.subPath)
    ensures var r := WalkTarget(init, env, t); var loc := init.location; var dir := LookedUpDirectory(init, env);
      r.Ok? ==>
        && dir.Some?
        && env.materialize(loc.id, loc.path, dir.value, true).Some?
        && !env.parentLookupFails
        && exists i :: (0 <= i < |t| && t[i].locationId == loc.id &&
                        t[i].materializedPath == env.materialize(loc.id, loc.path, dir.value, true).value &&
                        t[i].id == r.value.1)
    ensures var r := WalkTarget(init, env, t); var loc := init.location; var dir := LookedUpDirectory(init, env);
      r == Err(Panic(if init.subPath == [] then MissingRootPath else MissingSubPath)) <==>
        && dir.Some?
        && (init.subPath != [] ==> env.isDirectory(loc.path, init.subPath))
        && env.materialize(loc.id, loc.path, dir.value, true).Some?
        && !env.parentLookupFails
        && forall i :: 0 <= i < |t| && t[i].locationId == loc.id ==>
             t[i].materializedPath != env.materialize(loc.id, loc.path, dir.value, true).value
  {
  }

  // ---------------------------------------------------------------------------
  // New entries

  /** The materialized path of a walked entry, when one can be built. */
  function MaterializedOf(env: IndexerEnv, loc: IndexerLocation, w: WalkedEntry): Option<string> {
    env.materialize(loc.id, loc.path, w.path, w.isDir)
  }

  /** The materialized paths of the walked entries, the query's argument. */
  function Candidates(env: IndexerEnv, loc: IndexerLocation, walked: seq<WalkedEntry>): set<string> {
    set i | 0 <= i < |walked| && MaterializedOf(env, loc, walked[i]).Some? :: MaterializedOf(env, loc, walked[i]).value
  }

  /** `find_many_file_paths_by_full_path`: the materialized paths of the walked entries already stored. */
  function AlreadyExisting(t: seq<FilePath>, loc: LocationId, candidates: set<string>): set<string> {
    set i | 0 <= i < |t| && t[i].locationId == loc && t[i].materializedPath in candidates :: t[i].materializedPath
  }

  function NewEntry(w: WalkedEntry, mp: string, parentId: FilePathId): StepEntry {
    StepEntry(w.path, mp, w.createdAt, 0, Some(parentId))
  }

  /** A new entry as it is planned: with its parent and its file id. */
  function Planned(w: WalkedEntry, mp: string, parentId: FilePathId, fileId: int): StepEntry {
    StepEntry(w.path, mp, w.createdAt, fileId, Some(parentId))
  }

  /** The `filter_map` over the walked entries, in walk order. */
  function NewEntries(env: IndexerEnv, loc: IndexerLocation, walked: seq<WalkedEntry>,
                      existing: set<string>, parentId: FilePathId): seq<StepEntry>
    decreases |walked|
  {
    if walked == [] then []
    else
      (match MaterializedOf(env, loc, walked[0])
       case None => []
       case Some(mp) => if mp in existing then [] else [NewEntry(walked[0], mp, parentId)])
      + NewEntries(env, loc, walked[1..], existing, parentId)
  }

  /** Whether a walked entry is new: its materialized path can be built and no row of the location has it. */
  predicate IsNew(env: IndexerEnv, loc: IndexerLocation, t: seq<FilePath>, w: WalkedEntry) {
    MaterializedOf(env, loc, w).Some? &&
    forall i :: 0 <= i < |t| && t[i].locationId == loc.id ==> t[i].materializedPath != MaterializedOf(env, loc, w).value
  }

  /**
   * The new entries are exactly the walked entries whose materialized path is not in
   * the database (entries without one are dropped), each with `parent_id` set and its
   * file id still 0.
   */
  lemma {:induction false} NewEntriesSpec(env: IndexerEnv, loc: IndexerLocation, t: seq<FilePath>,
                                          walked: seq<WalkedEntry>, all: seq<WalkedEntry>, parentId: FilePathId)
    requires forall w :: w in walked ==> w in all
    ensures var e := NewEntries(env, loc, walked, AlreadyExisting(t, loc.id, Candidates(env, loc, all)), parentId);
      && (forall x :: x in e ==> x.parentId == Some(parentId) && x.fileId == 0)
      && (forall x :: x in e <==>
            exists w :: w in walked && IsNew(env, loc, t, w) && x == NewEntry(w, MaterializedOf(env, loc, w).value, parentId))
    ensures |NewEntries(env, loc, walked, AlreadyExisting(t, loc.id, Candidates(env, loc, all)), parentId)| <= |walked|
    decreases |walked|
  {
    if walked != [] {
      var existing := AlreadyExisting(t, loc.id, Candidates(env, loc, all));
      NewEntriesSpec(env, loc, t, walked[1..], all, parentId);
      var w := walked[0];
      assert w in all;
      var k :| 0 <= k < |all| && all[k] == w;
      match MaterializedOf(env, loc, w)
      case None =>
      case Some(mp) =>
        assert mp in Candidates(env, loc, all);
        assert mp in existing <==> !IsNew(env, loc, t, w) by {
          if mp in existing {
            var i :| 0 <= i < |t| && t[i].locationId == loc.id && t[i].materializedPath in Candidates(env, loc, all) &&
              t[i].materializedPath == mp;
          }
          if !IsNew(env, loc, t, w) {
            var i :| 0 <= i < |t| && t[i].locationId == loc.id && t[i].materializedPath == mp;
          }
        }
    }
  }

  /** The filter keeps walk order: filtering a concatenation concatenates the filtered parts. */
  lemma {:induction false} NewEntriesAppend(env: IndexerEnv, loc: IndexerLocation, w1: seq<WalkedEntry>,
                                            w2: seq<WalkedEntry>, existing: set<string>, parentId: FilePathId)
    ensures NewEntries(env, loc, w1 + w2, existing, parentId) ==
            NewEntries(env, loc, w1, existing, parentId) + NewEntries(env, loc, w2, existing, parentId)
    decreases |w1|
  {
    if w1 != [] {
      assert (w1 + w2)[0] == w1[0];
      assert (w1 + w2)[1..] == w1[1..] + w2;
      NewEntriesAppend(env, loc, w1[1..], w2, existing, parentId);
    } else {
      assert w1 + w2 == w2;
    }
  }

  /**
   * One walked entry yields one new entry when it is new and none otherwise; with
   * `NewEntriesAppend` this fixes the count and the order of the new entries.
   */
  lemma NewEntriesSingle(env: IndexerEnv, loc: IndexerLocation, t: seq<FilePath>, w: WalkedEntry,
                         all: seq<WalkedEntry>, parentId: FilePathId)
    requires w in all
    ensures NewEntries(env, loc, [w], AlreadyExisting(t, loc.id, Candidates(env, loc, all)), parentId) ==
            if IsNew(env, loc, t, w) then [NewEntry(w, MaterializedOf(env, loc, w).value, parentId)] else []
  {
    NewEntriesSpec(env, loc, t, [w], all, parentId);
    var e := NewEntries(env, loc, [w], AlreadyExisting(t, loc.id, Candidates(env, loc, all)), parentId);
    assert [w][1..] == [];
    if IsNew(env, loc, t, w) {
      assert e != [];
    }
  }

  /** The new walked entries, in walk order: the reference for what the filter keeps. */
  function NewWalked(env: IndexerEnv, loc: IndexerLocation, t: seq<FilePath>, walked: seq<WalkedEntry>): (r: seq<WalkedEntry>)
    ensures forall i :: 0 <= i < |r| ==> IsNew(env, loc, t, r[i])
    ensures forall w :: w in r <==> w in walked && IsNew(env, loc, t, w)
    ensures |r| <= |walked|
    decreases |walked|
  {
    if walked == [] then []
    else (if IsNew(env, loc, t, walked[0]) then [walked[0]] else []) + NewWalked(env, loc, t, walked[1..])
  }

  /**
   * The filter over the walk yields, in order and one for one, an entry for each new
   * walked entry.
   */
  lemma {:induction false} NewEntriesInWalkOrder(env: IndexerEnv, loc: IndexerLocation, t: seq<FilePath>,
                                                 walked: seq<WalkedEntry>, all: seq<WalkedEntry>, parentId: FilePathId)
    requires forall w :: w in walked ==> w in all
    ensures var e := NewEntries(env, loc, walked, AlreadyExisting(t, loc.id, Candidates(env, loc, all)), parentId);
      var nw := NewWalked(env, loc, t, walked);
      && |e| == |nw|
      && forall i :: 0 <= i < |e| ==> e[i] == NewEntry(nw[i], MaterializedOf(env, loc, nw[i]).value, parentId)
    decreases |walked|
  {
    if walked != [] {
      var existing := AlreadyExisting(t, loc.id, Candidates(env, loc, all));
      var w := walked[0];
      assert walked == [w] + walked[1..];
      NewEntriesAppend(env, loc, [w], walked[1..], existing, parentId);
      NewEntriesSingle(env, loc, t, w, all, parentId);
      NewEntriesInWalkOrder(env, loc, t, walked[1..], all, parentId);
    }
  }

  // ---------------------------------------------------------------------------
  // File ids

  /** The entries with the ids `first, first + 1, ...` in order. */
  function WithFileIds(entries: seq<StepEntry>, first: int): (r: seq<StepEntry>)
    ensures |r| == |entries|
  {
    seq(|entries|, i requires 0 <= i < |entries| => entries[i].(fileId := first + i))
  }

  /** The `iter_mut().zip(first_file_id..last_file_id)` loop, in place. */
  method AssignFileIds(a: array<StepEntry>, first: int)
    modifies a
    ensures a[..] == WithFileIds(old(a[..]), first)
  {
    var i := 0;
    while i < a.Length
      invariant 0 <= i <= a.Length
      invariant forall j :: 0 <= j < i ==> a[j] == old(a[j]).(fileId := first + j)
      invariant forall j :: i <= j < a.Length ==> a[j] == old(a[j])
    {
      a[i] := a[i].(fileId := first + i);
      i := i + 1;
    }
  }

  /** Copies the new entries into a buffer and numbers them there. */
  method NumberEntries(entries: seq<StepEntry>, first: int) returns (numbered: seq<StepEntry>)
    ensures numbered == WithFileIds(entries, first)
  {
    var buffer := new StepEntry[|entries|](i requires 0 <= i < |entries| => entries[i]);
    assert buffer[..] == entries;
    AssignFileIds(buffer, first);
    numbered := buffer[..];
  }

  /**
   * With the previous maximum `prevMax`, the i-th new entry gets `prevMax + 1 + i`:
   * the ids are consecutive, distinct and above the old maximum, and the recorded
   * maximum `first + n` is one more than the largest id given out, so the next job
   * starts at `first + n + 1` and the id `first + n` is never used, neither by this
   * job nor by the `next` one.
   */
  lemma FileIdsAreFresh(entries: seq<StepEntry>, prevMax: int, next: seq<StepEntry>)
    ensures var r := WithFileIds(entries, prevMax + 1); var stored := prevMax + 1 + |entries|;
      && (forall i :: 0 <= i < |r| ==> prevMax < r[i].fileId < stored)
      && (forall i :: 0 <= i < |r| - 1 ==> r[i + 1].fileId == r[i].fileId + 1)
      && (forall i, j :: 0 <= i < j < |r| ==> r[i].fileId != r[j].fileId)
      && (|r| > 0 ==> r[|r| - 1].fileId == stored - 1)
      && var n := WithFileIds(next, stored + 1);
         forall j :: 0 <= j < |n| ==> n[j].fileId > stored
  {
  }

  // ---------------------------------------------------------------------------
  // Batches

  /** `chunks(size)`: consecutive slices of `size` entries, the last one possibly shorter. */
  function Chunks<T>(s: seq<T>, size: nat): seq<seq<T>>
    requires size > 0
    decreases |s|
  {
    if s == [] then []
    else if |s| <= size then [s]
    else [s[..size]] + Chunks(s[size..], size)
  }

  function Flatten<T>(ss: seq<seq<T>>): seq<T>
    decreases |ss|
  {
    if ss == [] then [] else ss[0] + Flatten(ss[1..])
  }

  /**
   * The batches concatenate back to the entries in order, none is empty, none holds
   * more than `size` entries, all but the last hold exactly `size`, and there are
   * `n / size` of them, rounded up.
   */
  lemma {:induction false} ChunksSpec<T>(s: seq<T>, size: nat)
    requires size > 0
    ensures Flatten(Chunks(s, size)) == s
    ensures forall k :: 0 <= k < |Chunks(s, size)| ==> 0 < |Chunks(s, size)[k]| <= size
    ensures forall k :: 0 <= k < |Chunks(s, size)| - 1 ==> |Chunks(s, size)[k]| == size
    ensures |s| <= |Chunks(s, size)| * size < |s| + size
    decreases |s|
  {
    if s != [] && |s| > size {
      var rest := Chunks(s[size..], size);
      ChunksSpec(s[size..], size);
      var c := Chunks(s, size);
      assert c == [s[..size]] + rest;
      assert c[1..] == rest;
      assert s == s[..size] + s[size..];
      forall k | 1 <= k < |c|
        ensures c[k] == rest[k - 1]
      {
      }
      assert |c| * size == |rest| * size + size;
    } else if s != [] {
      var c := Chunks(s, size);
      assert c == [s];
      assert Flatten(c) == s + Flatten(c[1..]);
    }
  }

  // ---------------------------------------------------------------------------
  // Progress while the batches are built

  /** The `ScanProgress` updates sent while the batches are built. */
  datatype ScanProgress = SavedChunks(index: nat) | Message(text: string)

  function WritingMessage(written: nat, total: nat): string {
    "Writing " + Decimal.Render(written) + " of " + Decimal.Render(total) + " to db"
  }

  /** The two updates sent for batch `i`. */
  function ChunkUpdate(i: nat, written: nat, total: nat): seq<ScanProgress> {
    [SavedChunks(i), Message(WritingMessage(written, total))]
  }

  /** The count the source reports for batch `i`: `i` times the length of that batch. */
  function WrittenBeforeAsWritten(chunks: seq<seq<StepEntry>>, i: nat): nat
    requires i < |chunks|
  {
    i * |chunks[i]|
  }

  /** The count reported for batch `i` in this model: `i` full batches. */
  function WrittenBefore(i: nat): nat {
    i * BATCH_SIZE
  }

  /** The updates for all batches, in order. */
  function ChunkUpdates(chunks: seq<seq<StepEntry>>, total: nat): (r: seq<seq<ScanProgress>>)
    ensures |r| == |chunks|
  {
    seq(|chunks|, i requires 0 <= i < |chunks| => ChunkUpdate(i, WrittenBefore(i), total))
  }

  lemma {:induction false} FlattenPrefixLength<T>(ss: seq<seq<T>>, size: nat, i: nat)
    requires i < |ss|
    requires forall k :: 0 <= k < |ss| - 1 ==> |ss[k]| == size
    ensures |Flatten(ss[..i])| == i * size
  {
    if i > 0 {
      assert ss[..i] == [ss[0]] + ss[1..][..i - 1];
      FlattenPrefixLength(ss[1..], size, i - 1);
    } else {
      assert ss[..i] == [];
    }
  }

  /** The count reported for every batch is the number of entries in the batches before it. */
  lemma WrittenBeforeCountsEarlierBatches(s: seq<StepEntry>, i: nat)
    requires i < |Chunks(s, BATCH_SIZE)|
    ensures WrittenBefore(i) == |Flatten(Chunks(s, BATCH_SIZE)[..i])|
  {
    ChunksSpec(s, BATCH_SIZE);
    FlattenPrefixLength(Chunks(s, BATCH_SIZE), BATCH_SIZE, i);
  }

  /**
   * As written, a short last batch misreports: with 2500 entries the third batch says
   * 1000 entries came before it, where 2000 did.
   */
  lemma ChunkReportAsWrittenMiscounts(s: seq<StepEntry>)
    requires |s| == 2500
    ensures |Chunks(s, BATCH_SIZE)| == 3
    ensures WrittenBeforeAsWritten(Chunks(s, BATCH_SIZE), 2) == 1000
    ensures |Flatten(Chunks(s, BATCH_SIZE)[..2])| == 2000
  {
    var c := Chunks(s, BATCH_SIZE);
    var rest := s[BATCH_SIZE..];
    assert c == [s[..BATCH_SIZE]] + Chunks(rest, BATCH_SIZE);
    assert Chunks(rest, BATCH_SIZE) == [rest[..BATCH_SIZE]] + Chunks(rest[BATCH_SIZE..], BATCH_SIZE);
    assert Chunks(rest[BATCH_SIZE..], BATCH_SIZE) == [rest[BATCH_SIZE..]];
    assert |c[2]| == 500;
    FlattenPrefixLength(c, BATCH_SIZE, 2);
  }

  /** The `enumerate().map(...)` over the batches, sending each batch's updates in turn. */
  method ReportChunks(ctx: WorkerContext<ScanProgress>, chunks: seq<seq<StepEntry>>, total: nat)
    modifies ctx
    ensures ctx.sent == old(ctx.sent) + ChunkUpdates(chunks, total)
  {
    for i := 0 to |chunks|
      invariant ctx.sent == old(ctx.sent) + ChunkUpdates(chunks[..i], total)
    {
      assert ChunkUpdates(chunks[..i + 1], total) == ChunkUpdates(chunks[..i], total) + [ChunkUpdate(i, WrittenBefore(i), total)];
      ctx.Progress(ChunkUpdate(i, WrittenBefore(i), total));
    }
    assert chunks[..|chunks|] == chunks;
  }

  // ---------------------------------------------------------------------------
  // The job

  /** What a successful `init` computes. */
  datatype InitPlan = InitPlan(firstFileId: int, rulesByKind: map<RuleKind, seq<IndexerRule>>,
                               toWalk: Path, parentId: FilePathId, entries: seq<StepEntry>)

  /** `ShallowIndexerJob::init` as a function of its inputs: the first failure, or the plan. */
  function PlanInit(init: ShallowIndexerJobInit, env: IndexerEnv, t: seq<FilePath>): Result<InitPlan, JobError> {
    var loc := init.location;
    match env.maxFilePathId
    case None => Err(Database)
    case Some(maxId) =>
      match ConvertAll(loc.indexerRules, env.convert)
      case None => Err(RuleConversion)
      case Some(rules) =>
        match WalkTarget(init, env, t)
        case Err(e) => Err(e)
        case Ok((toWalk, parentId)) =>
          var byKind := GroupByKind(rules);
          match env.walk(toWalk, byKind)
          case None => Err(WalkFailed)
          case Some(walked) =>
            if env.existingLookupFails then Err(Database)
            else
              var existing := AlreadyExisting(t, loc.id, Candidates(env, loc, walked));
              var unseen := NewEntries(env, loc, walked, existing, parentId);
              Ok(InitPlan(maxId + 1, byKind, toWalk, parentId, WithFileIds(unseen, maxId + 1)))
  }

  /**
   * The planned entries of a walk: entry `i` is the `i`-th new walked entry in walk
   * order, hung under the walked directory's row, with id `first + i`; so every new
   * walked entry is planned, once.
   */
  predicate PlannedFrom(env: IndexerEnv, loc: IndexerLocation, t: seq<FilePath>, walked: seq<WalkedEntry>,
                        parentId: FilePathId, first: int, e: seq<StepEntry>)
  {
    && (forall i :: 0 <= i < |e| ==>
          && e[i].fileId == first + i && e[i].parentId == Some(parentId)
          && exists w :: (w in walked && IsNew(env, loc, t, w) &&
               e[i] == Planned(w, MaterializedOf(env, loc, w).value, parentId, first + i)))
    && (forall w :: w in walked && IsNew(env, loc, t, w) ==>
          exists i :: (0 <= i < |e| &&
            e[i] == Planned(w, MaterializedOf(env, loc, w).value, parentId, first + i)))
    && NumberedInOrder(env, loc, NewWalked(env, loc, t, walked), parentId, first, e)
  }

  /** Entry `i` is built from the `i`-th of the given walked entries, with id `first + i`. */
  predicate NumberedInOrder(env: IndexerEnv, loc: IndexerLocation, ws: seq<WalkedEntry>,
                            parentId: FilePathId, first: int, e: seq<StepEntry>)
  {
    && |e| == |ws|
    && forall i :: 0 <= i < |e| ==>
         MaterializedOf(env, loc, ws[i]).Some? &&
         e[i] == Planned(ws[i], MaterializedOf(env, loc, ws[i]).value, parentId, first + i)
  }

  /** Numbering the new entries of a walk from `first` plans exactly the new walked entries. */
  lemma NumberedNewEntriesArePlanned(env: IndexerEnv, loc: IndexerLocation, t: seq<FilePath>,
                                     walked: seq<WalkedEntry>, parentId: FilePathId, first: int)
    ensures PlannedFrom(env, loc, t, walked, parentId, first,
      WithFileIds(NewEntries(env, loc, walked, AlreadyExisting(t, loc.id, Candidates(env, loc, walked)), parentId), first))
  {
    var unseen := NewEntries(env, loc, walked, AlreadyExisting(t, loc.id, Candidates(env, loc, walked)), parentId);
    var nw := NewWalked(env, loc, t, walked);
    NewEntriesInWalkOrder(env, loc, t, walked, walked, parentId);
    var e := WithFileIds(unseen, first);
    assert NumberedInOrder(env, loc, nw, parentId, first, e) by {
      forall i | 0 <= i < |e|
        ensures e[i] == Planned(nw[i], MaterializedOf(env, loc, nw[i]).value, parentId, first + i)
      {
        assert e[i] == unseen[i].(fileId := first + i);
      }
    }
    InOrderIsPlanned(env, loc, t, walked, parentId, first, e);
  }

  /** Entries numbered in the order of the new walked entries plan each of them. */
  lemma InOrderIsPlanned(env: IndexerEnv, loc: IndexerLocation, t: seq<FilePath>, walked: seq<WalkedEntry>,
                         parentId: FilePathId, first: int, e: seq<StepEntry>)
    requires NumberedInOrder(env, loc, NewWalked(env, loc, t, walked), parentId, first, e)
    ensures PlannedFrom(env, loc, t, walked, parentId, first, e)
  {
    var nw := NewWalked(env, loc, t, walked);
    forall i | 0 <= i < |e|
      ensures && e[i].fileId == first + i && e[i].parentId == Some(parentId)
              && exists w :: (w in walked && IsNew(env, loc, t, w) &&
                   e[i] == Planned(w, MaterializedOf(env, loc, w).value, parentId, first + i))
    {
      assert nw[i] in nw;
      assert e[i] == Planned(nw[i], MaterializedOf(env, loc, nw[i]).value, parentId, first + i);
    }
    NewArePlanned(env, loc, t, walked, parentId, first, e);
  }

  lemma NewArePlanned(env: IndexerEnv, loc: IndexerLocation, t: seq<FilePath>, walked: seq<WalkedEntry>,
                      parentId: FilePathId, first: int, e: seq<StepEntry>)
    requires NumberedInOrder(env, loc, NewWalked(env, loc, t, walked), parentId, first, e)
    ensures forall w :: w in walked && IsNew(env, loc, t, w) ==>
      exists i :: (0 <= i < |e| &&
        e[i] == Planned(w, MaterializedOf(env, loc, w).value, parentId, first + i))
  {
    var nw := NewWalked(env, loc, t, walked);
    forall w | w in walked && IsNew(env, loc, t, w)
      ensures exists i :: (0 <= i < |e| &&
        e[i] == Planned(w, MaterializedOf(env, loc, w).value, parentId, first + i))
    {
      assert w in nw;
      var i :| 0 <= i < |nw| && nw[i] == w;
      assert e[i] == Planned(w, MaterializedOf(env, loc, w).value, parentId, first + i);
    }
  }

  /**
   * A successful `init` numbers from one past the stored maximum, walks with the
   * grouped rules, and plans exactly the new entries of that walk.
   */
  lemma PlanInitSpec(init: ShallowIndexerJobInit, env: IndexerEnv, t: seq<FilePath>)
    ensures var r := PlanInit(init, env, t);
      r.Ok? ==>
        && env.maxFilePathId.Some? && r.value.firstFileId == env.maxFilePathId.value + 1
        && ConvertAll(init.location.indexerRules, env.convert).Some?
        && r.value.rulesByKind == GroupByKind(ConvertAll(init.location.indexerRules, env.convert).value)
        && WalkTarget(init, env, t) == Ok((r.value.toWalk, r.value.parentId))
        && env.walk(r.value.toWalk, r.value.rulesByKind).Some?
        && PlannedFrom(env, init.location, t, env.walk(r.value.toWalk, r.value.rulesByKind).value,
                       r.value.parentId, r.value.firstFileId, r.value.entries)
  {
    var r := PlanInit(init, env, t);
    if r.Ok? {
      NumberedNewEntriesArePlanned(env, init.location, t, env.walk(r.value.toWalk, r.value.rulesByKind).value,
                                   r.value.parentId, r.value.firstFileId);
    }
  }

  /** The job's state: its init record, its data and its queue of steps. */
  class IndexerJobState {
    const init: ShallowIndexerJobInit
    var data: Option<IndexerJobData>
    var steps: seq<seq<StepEntry>>

    constructor (init: ShallowIndexerJobInit)
      ensures this.init == init && data == None && steps == []
    {
      this.init := init;
      data := None;
      steps := [];
    }
  }

  /** The library's record of the largest file_path id of each location. */
  class LastFilePathIdManager {
    var maxIds: map<LocationId, int>

    constructor ()
      ensures maxIds == map[]
    {
      maxIds := map[];
    }

    method SetMaxFilePathId(loc: LocationId, id: int)
      modifies this
      ensures maxIds == old(maxIds)[loc := id]
    {
      maxIds := maxIds[loc := id];
    }
  }

  /**
   * `ShallowIndexerJob::init`: on failure nothing is recorded; on success the stored
   * maximum id becomes `first + n`, the job's data says `n` paths with none indexed
   * yet, and the steps are the planned entries in batches of `BATCH_SIZE`.
   */
  method Init(state: IndexerJobState, lib: Library, ids: LastFilePathIdManager,
              ctx: WorkerContext<ScanProgress>, env: IndexerEnv)
    returns (r: Result<(), JobError>)
    modifies state, ids, ctx
    ensures PlanInit(state.init, env, lib.filePaths).Err? ==>
      && r == Err(PlanInit(state.init, env, lib.filePaths).error)
      && unchanged(state) && unchanged(ids) && unchanged(ctx)
    ensures PlanInit(state.init, env, lib.filePaths).Ok? ==>
      var plan := PlanInit(state.init, env, lib.filePaths).value;
      && r == Ok(())
      && ids.maxIds == old(ids.maxIds)[state.init.location.id := plan.firstFileId + |plan.entries|]
      && state.data == Some(IndexerJobData(|plan.entries|, 0))
      && state.steps == Chunks(plan.entries, BATCH_SIZE)
      && ctx.sent == old(ctx.sent) + ChunkUpdates(state.steps, |plan.entries|)
  {
    var loc := state.init.location;
    if env.maxFilePathId.None? {
      return Err(Database);
    }
    var firstFileId := env.maxFilePathId.value + 1;

    var grouped := GroupRulesByKind(loc.indexerRules, env.convert);
    if grouped.Err? {
      return Err(grouped.error);
    }
    var byKind := grouped.value;

    var target := WalkTarget(state.init, env, lib.filePaths);
    if target.Err? {
      return Err(target.error);
    }
    var (toWalk, parentId) := target.value;

    var found := env.walk(toWalk, byKind);
    if found.None? {
      return Err(WalkFailed);
    }
    if env.existingLookupFails {
      return Err(Database);
    }
    var existing := AlreadyExisting(lib.filePaths, loc.id, Candidates(env, loc, found.value));
    var unseen := NewEntries(env, loc, found.value, existing, parentId);

    var totalPaths := |unseen|;
    ids.SetMaxFilePathId(loc.id, firstFileId + totalPaths);

    var entries := NumberEntries(unseen, firstFileId);

    state.data := Some(IndexerJobData(totalPaths, 0));
    var chunks := Chunks(entries, BATCH_SIZE);
    ReportChunks(ctx, chunks, totalPaths);
    state.steps := chunks;
    r := Ok(());
  }

  /**
   * `execute_step`: runs the first step of the queue and overwrites `indexed_paths`
   * with that step's count; the queue itself is left to the job runner.
   */
  method ExecuteStep(state: IndexerJobState, run: (IndexerLocation, seq<StepEntry>) -> Option<nat>)
    returns (r: Result<(), JobError>)
    requires |state.steps| > 0
    modifies state
    ensures state.steps == old(state.steps)
    ensures run(state.init.location, old(state.steps)[0]).None? ==> r == Err(StepFailed) && state.data == old(state.data)
    ensures run(state.init.location, old(state.steps)[0]).Some? && old(state.data).None? ==>
      r == Err(Panic(MissingJobData)) && state.data == old(state.data)
    ensures run(state.init.location, old(state.steps)[0]).Some? && old(state.data).Some? ==>
      && r == Ok(())
      && state.data == Some(old(state.data).value.(indexedPaths := run(state.init.location, old(state.steps)[0]).value))
  {
    var outcome := run(state.init.location, state.steps[0]);
    if outcome.None? {
      return Err(StepFailed);
    }
    if state.data.None? {
      return Err(Panic(MissingJobData));
    }
    state.data := Some(state.data.value.(indexedPaths := outcome.value));
    r := Ok(());
  }

  // ---------------------------------------------------------------------------
  // Job identity

  datatype HashToken = LocationToken(id: LocationId) | PathToken(path: Path)

  /** The values `Hash for ShallowIndexerJobInit` feeds to the hasher, in order. */
  function HashInput(init: ShallowIndexerJobInit): seq<HashToken> {
    [LocationToken(init.location.id), PathToken(init.subPath)]
  }

  /** Two jobs hash alike exactly when they index the same sub-path of the same location. */
  lemma HashInputIdentity(a: ShallowIndexerJobInit, b: ShallowIndexerJobInit)
    ensures HashInput(a) == HashInput(b) <==> a.location.id == b.location.id && a.subPath == b.subPath
  {
    if HashInput(a) == HashInput(b) {
      assert HashInput(a)[0] == HashInput(b)[0];
      assert HashInput(a)[1] == HashInput(b)[1];
    }
  }
}
