# Spacedrive library jobs: identifier step, shallow indexer, thumbnailer

A Dafny model of three pieces of Spacedrive's core library jobs, with proofs of what
each one promises.

- **The object identifier step** (`identifier_job_step`). It analyses a chunk of file
  paths and writes each path's content id (`cas_id`). A path whose `cas_id` already
  belongs to a file path of some object is connected to that object. Every other path
  gets a new object of its own. Each database write goes through the sync manager and
  is logged as CRDT operations.
- **The shallow indexer job** (`ShallowIndexerJob::init` / `execute_step`). It walks
  one directory of a location without descending into sub-directories. It keeps the
  entries that are not yet in the `file_path` table and numbers them after the
  location's largest file_path id. It then cuts them into steps of 1000 entries.
- **The thumbnailer job** (`ThumbnailerJob::init` / `execute_step`). It selects the
  image rows of a location, or of one directory of it, and the video rows when video
  support is built in. It queues one step per row.

Files:

- `outcomes.dfy`: `Option` and `Result`.
- `catalog.dfy`: the library's database. It holds the `file_path` and `object` tables
  as sequences in row order, the sync operation log, the batched row updates, path
  joining, and the worker context's progress channel.
- `decimal.dfy`: the decimal text of `u64::to_string`, as stored in `size_in_bytes`.
- `identifier_job.dfy`, `shallow_indexer_job.dfy`, `thumbnailer_job.dfy`: the three
  jobs.

Code the model cannot see becomes a parameter. This covers the filesystem (one
`Probe` per path), `Uuid::new_v4` (a supply of ids), `MaterializedPath::new`, the
sub-path checks, `walk_single_dir`, `IndexerRule::try_from`, `process_step` and
`execute_indexer_step`. A database failure is an injected fault flag. Each job
operation is modelled twice. A function computes its outcome from the inputs and the
old state. A method then changes the job's or library's state and is proved to match
that function.

## Model

| member | source | states |
|---|---|---|
| IdentifierJob.NewFileMetadata | core/src/object/identifier_job/mod.rs:49-77 | metadata fails with a directory rejection exactly for a directory, succeeds exactly for a non-directory with a readable stat and `cas_id`, carries that `cas_id` and length, and has kind `Unknown` when no kind resolves |
| IdentifierJob.GatherHasId | core/src/object/identifier_job/mod.rs:88-102 | an id is in the analysed chunk iff some path with that id could be analysed |
| IdentifierJob.GatherDistinct | core/src/object/identifier_job/mod.rs:88-102 | the analysed chunk, collected into a map keyed by file_path id, holds at most one entry per id |
| IdentifierJob.GatherKeyedById | core/src/object/identifier_job/mod.rs:88-102 | ids are distinct and the entries are exactly the last successfully analysed path of each id (later entries overwrite earlier ones when collected into the `HashMap`) |
| IdentifierJob.ExistingObjects | core/src/object/identifier_job/mod.rs:137-148 | the query returns exactly the objects that have a file path whose `cas_id` is one of the chunk's |
| IdentifierJob.FindObjectSpec | core/src/object/identifier_job/mod.rs:163-169 | the search finds an object iff some object has a file path with the `cas_id`, and then it is the first such object in table order |
| IdentifierJob.FindInExistingIsFindInTable | core/src/object/identifier_job/mod.rs:137-169 | searching the query's result finds the same object as searching the whole table, for every `cas_id` of the chunk |
| IdentifierJob.ExistingCasIdsSpec | core/src/object/identifier_job/mod.rs:150-153 | a chunk `cas_id` is among the existing objects' `cas_id`s iff the search finds an object for it |
| IdentifierJob.PartitionIsExact | core/src/object/identifier_job/mod.rs:157-195 | a path is linked to object `o` iff the search finds `o` for its `cas_id`; it needs a new object iff the search finds none; the two counts add up to the chunk size |
| IdentifierJob.LinkedAndNewAreDisjoint | core/src/object/identifier_job/mod.rs:157-195 | no path is both linked to an existing object and given a new one |
| IdentifierJob.LinkPairsFromChunk | core/src/object/identifier_job/mod.rs:160-171 | every linked pair comes from a path of the chunk, and no path is linked twice |
| IdentifierJob.NewPathsFromChunk | core/src/object/identifier_job/mod.rs:192-195 | the paths needing an object are distinct paths of the chunk |
| IdentifierJob.CasOpsOnePerPath | core/src/object/identifier_job/mod.rs:104-128 | the first write logs one owned update per analysed path, naming that path and carrying only its `cas_id`, never two for one path |
| IdentifierJob.ConnectOpsMatchUpdates | core/src/object/identifier_job/mod.rs:287-318 | each connect operation names the file path (id and location pub id) whose row its paired update targets, with the object that update connects |
| IdentifierJob.CreateOpsMatchRow | core/src/object/identifier_job/mod.rs:212-244 | a new object is logged as exactly four operations: a shared create of its pub id, then shared updates of `date_created`, `kind` and `size_in_bytes` in that order, each with the value of the inserted row; the stored size reads back as the file length |
| IdentifierJob.MakePlan | core/src/object/identifier_job/mod.rs:209-251 | one pub id is drawn from the supply per path needing a new object |
| IdentifierJob.NewObjectPerPathNotPerCasId | core/src/object/identifier_job/mod.rs:192-251 | two paths with one `cas_id` fall in the same group; when ids are fresh, two new paths sharing a `cas_id` still get distinct objects |
| IdentifierJob.ThreeWritesRow | core/src/object/identifier_job/mod.rs:104-275 | per row, the three batched writes set the chunk's `cas_id`, connect linked paths to their object and new paths to their new object, and leave other rows alone |
| IdentifierJob.PlanDivides | core/src/object/identifier_job/mod.rs:88-195 | the planned chunk divides as the writes need: distinct ids, links and new paths from the chunk, disjoint, covering every path |
| IdentifierJob.StepIdentifiesEveryPath | core/src/object/identifier_job/mod.rs:80-283 | after a step whose writes succeed, every analysed row has its `cas_id` and an object: the found one when there is one, else its own new object; rows outside the chunk are unchanged |
| IdentifierJob.IdentifierJobStep | core/src/object/identifier_job/mod.rs:80-283 | a directory panics and writes nothing; a failed write returns a database error after the writes before it; a failed `create_many` is swallowed as 0 created and skips the new links; the result is `(created, linked)` and, when Ok, the linked count plus the new-path count is the chunk size |
| IdentifierJob.CreateAndConnect | core/src/object/identifier_job/mod.rs:197-280 | objects are inserted all or nothing, their paths are connected only when some were created, and the count is `created` or 0 |
| IdentifierJob.WriteFilePaths | core/src/object/identifier_job/mod.rs:105-128 | a batched file_path write applies every update, appends its operations to the log and keeps the table's keys unique |
| IdentifierJob.WriteObjects | core/src/object/identifier_job/mod.rs:254-264 | `create_many` of rows with fresh pub ids appends them and their operations and keeps pub ids unique |
| Catalog.Join | core/src/object/identifier_job/mod.rs:53 | joining onto an empty base or with an absolute right side gives the right side; otherwise the result is the base, exactly one `/` (the base's trailing one or an added one), then the right side |
| Catalog.UpdateRows | core/src/object/identifier_job/mod.rs:120-123 | batched updates by `(location_id, id)` keep the table's keys |
| Catalog.UpdateRowsSpec | core/src/object/identifier_job/mod.rs:120-123 | each targeted row gets exactly its update's column and every other row is unchanged |
| Decimal.RenderIsCanonical | core/src/object/identifier_job/mod.rs:220 | the size text is non-empty, all digits, and starts with `0` only for zero |
| Decimal.ParseRender | core/src/object/identifier_job/mod.rs:220 | the size text parses back to the length |
| Decimal.RenderInjective | core/src/object/identifier_job/mod.rs:220 | distinct lengths give distinct size texts |
| ShallowIndexerJob.ConvertAllSpec | core/src/location/indexer/shallow_indexer_job.rs:86-87 | rule conversion fails iff some attached rule fails to convert, and otherwise converts each rule in order |
| ShallowIndexerJob.GroupByKindSpec | core/src/location/indexer/shallow_indexer_job.rs:84-93 | the grouping has a key for exactly the kinds that occur, and under each key the rules of that kind in attachment order |
| ShallowIndexerJob.GroupRulesByKind | core/src/location/indexer/shallow_indexer_job.rs:84-93 | the loop fails with a rule conversion error iff some rule fails to convert, and otherwise yields the grouping of all converted rules |
| ShallowIndexerJob.FindFilePathId | core/src/location/indexer/shallow_indexer_job.rs:103-124 | the lookup finds an id iff some row of the location has the materialized path, and returns that row's id |
| ShallowIndexerJob.WalkTargetSpec | core/src/location/indexer/shallow_indexer_job.rs:95-126 | an empty sub-path walks the location root; otherwise the joined sub-path, only after both checks passed; the parent id is that of a row of the location whose materialized path is the walked directory's; the `expect` fails exactly when the checks and lookups pass but no such row exists |
| ShallowIndexerJob.NewEntriesSpec | core/src/location/indexer/shallow_indexer_job.rs:144-186 | the new entries are exactly the walked entries whose materialized path can be built and is in no row of the location, each with the parent id set and file id 0 |
| ShallowIndexerJob.NewEntriesAppend | core/src/location/indexer/shallow_indexer_job.rs:161-186 | the `filter_map` keeps walk order: filtering two walks one after the other gives the two filtered lists one after the other |
| ShallowIndexerJob.NewEntriesSingle | core/src/location/indexer/shallow_indexer_job.rs:161-186 | one walked entry yields exactly one new entry when its materialized path can be built and is in no row of the location, and none otherwise |
| ShallowIndexerJob.NewWalked | core/src/location/indexer/shallow_indexer_job.rs:161-186 | the new walked entries in walk order contain exactly the walked entries that are new |
| ShallowIndexerJob.NewEntriesInWalkOrder | core/src/location/indexer/shallow_indexer_job.rs:161-186 | the new entries correspond one for one and in order to the new walked entries |
| ShallowIndexerJob.AssignFileIds | core/src/location/indexer/shallow_indexer_job.rs:196-201 | in place, entry `i` gets file id `first + i` and nothing else changes |
| ShallowIndexerJob.NumberEntries | core/src/location/indexer/shallow_indexer_job.rs:196-201 | the numbered entries are the new entries with ids `first, first + 1, ...` |
| ShallowIndexerJob.FileIdsAreFresh | core/src/location/indexer/shallow_indexer_job.rs:78-201 | the ids are consecutive, distinct and above the old maximum; the stored maximum is one past the last id, so the next run starts one later and skips an id |
| ShallowIndexerJob.ChunksSpec | core/src/location/indexer/shallow_indexer_job.rs:212-232 | the steps concatenate back to the entries in order; none is empty or over 1000; all but the last hold exactly 1000; their number is the entry count divided by 1000, rounded up |
| ShallowIndexerJob.WrittenBeforeCountsEarlierBatches | core/src/location/indexer/shallow_indexer_job.rs:219-229 | the corrected progress count for step `i` is the number of entries in the steps before it |
| ShallowIndexerJob.ChunkReportAsWrittenMiscounts | core/src/location/indexer/shallow_indexer_job.rs:219-229 | as written, with 2500 entries the third step reports 1000 entries before it where 2000 precede it |
| ShallowIndexerJob.ReportChunks | core/src/location/indexer/shallow_indexer_job.rs:212-232 | one `SavedChunks(i)` and one "Writing" message are sent per step, in step order |
| ShallowIndexerJob.NumberedNewEntriesArePlanned | core/src/location/indexer/shallow_indexer_job.rs:162-201 | entry `i` is the `i`-th new walked entry in walk order, with id `first + i`, under the walked directory; so every new walked entry is planned exactly once |
| ShallowIndexerJob.PlanInitSpec | core/src/location/indexer/shallow_indexer_job.rs:67-235 | a successful `init` numbers from one past the stored maximum, walks the checked directory with the grouped rules, and plans exactly that walk's new entries, in walk order |
| ShallowIndexerJob.LastFilePathIdManager.SetMaxFilePathId | core/src/location/indexer/shallow_indexer_job.rs:191-194 | the location's recorded maximum becomes the given id; other locations keep theirs |
| ShallowIndexerJob.Init | core/src/location/indexer/shallow_indexer_job.rs:67-235 | on failure returns the first error and records nothing; on success stores `first + n` as the maximum, sets data to `n` total and 0 indexed, queues the entries in steps of 1000, and sends one progress pair per step |
| ShallowIndexerJob.ExecuteStep | core/src/location/indexer/shallow_indexer_job.rs:238-252 | runs the first step; a failed step leaves the data; otherwise missing data panics, else `indexed_paths` is overwritten with the step's count; the queue is untouched |
| ShallowIndexerJob.HashInputIdentity | core/src/location/indexer/shallow_indexer_job.rs:44-49 | two jobs hash alike iff they have the same location id and sub-path |
| ThumbnailerJob.GetFilesByExtensionsSpec | core/src/object/preview/thumbnail/thumbnailer_job.rs:168-187 | a step is returned exactly for each row of the location whose extension is listed and whose materialized path starts with the scope, with that row's path and `cas_id` and the requested kind |
| ThumbnailerJob.GetFilesByExtensionsAppend | core/src/object/preview/thumbnail/thumbnailer_job.rs:168-187 | the query keeps table order |
| ThumbnailerJob.ScopeSpec | core/src/object/preview/thumbnail/thumbnailer_job.rs:70-83 | a scope exists only for a sub-path that passed both checks, or for the location root when there is none, and it is that directory's materialized path |
| ThumbnailerJob.PlanThumbnailsSpec | core/src/object/preview/thumbnail/thumbnailer_job.rs:58-137 | a successful `init` queues every image row under the scope, then every video row when video support is on and none otherwise; all image steps come before all video steps |
| ThumbnailerJob.Init | core/src/object/preview/thumbnail/thumbnailer_job.rs:58-137 | on failure returns the first error and records nothing; on success reports the task count and message, stores the cache directory, the location path and a report with 0 thumbnails, and queues the planned steps |
| ThumbnailerJob.ExecuteStep | core/src/object/preview/thumbnail/thumbnailer_job.rs:139-155 | missing data panics before processing; otherwise the first step is processed with the job's background flag and step number, and the data becomes what processing left |
| ThumbnailerJob.HashInputIdentity | core/src/object/preview/thumbnail/thumbnailer_job.rs:39-46 | two jobs hash alike iff they have the same location id and the same sub-path (both absent or both equal); the background flag plays no part |

## Left out

- The filesystem, `generate_cas_id` and `Extension::resolve_conflicting` are one `Probe` per path. Hashing and kind detection are not modelled.
- `join_all` runs the analyses concurrently. The model analyses the paths one after another; the outcome does not depend on the order.
- The `HashMap` of analysed paths is listed in the order of each id's winning occurrence, which Rust does not promise (its iteration order is unspecified). The row contents after a step do not depend on this order. The order of the logged sync operations and of the inserted object rows follows the model's order, not Rust's.
- Prisma and the sync manager are reduced to row updates, inserts and the operation log. A batched write either applies completely or fails by an injected fault flag.
- `create_many` also fails when the new pub ids are not fresh and distinct. This stands in for the unique constraint on `pub_id`.
- `Uuid::new_v4` is a supply of ids. Their freshness is a condition, not a guarantee.
- `MaterializedPath::new`, `ensure_sub_path_is_in_location`, `ensure_sub_path_is_directory`, `walk_single_dir`, `IndexerRule::try_from` and `find_many_file_paths_by_full_path` are not part of this model. The first five are parameters that may fail. The last is a query for rows of the location whose materialized path is one of the walked entries'.
- `execute_indexer_step`, `process_step`, `finalize_indexer`, `finalize_thumbnailer` and `LastFilePathIdManager::get_max_file_path_id` are not part of this model. The step runners and the stored maximum are parameters; the finalizers are not modelled.
- The walker's own progress callback (`Scanning` messages and `ChunkCount`) runs inside `walk_single_dir` and is not modelled.
- `Instant::now`, `Utc::now`, `db_write_start` and `scan_read_time` are clock readings and are dropped from `IndexerJobData`.
- Log output (`info!`, `error!`) is not modelled.
- `ShallowIndexerJob.Init`: `first_file_id + total_paths as i32` is unbounded here, because a location with over two billion file paths is outside the job's evident range.
- `Catalog.Join`: models Unix paths only (an absolute path starts with `/`).
- Sub-paths and paths are strings compared character by character. Rust's `Path` compares by components, so `photos` and `photos/` are equal there but not here (in `HashInputIdentity` of both jobs, and in the empty sub-path test).
- `ShallowIndexerJob.Init`: the "Writing" progress message it sends for step `i` uses the corrected count `i * 1000` (`WrittenBefore`), not the count as written (`i * chunk_steps.len()`, `WrittenBeforeAsWritten`); the two differ only for the last, shorter step, as the Findings table shows.
- `ShallowIndexerJob.ReportChunks`: sends the corrected count, as `ShallowIndexerJob.Init` does.
- The extension lists, the thumbnail cache directory name and the `ffmpeg` build feature are parameters.
- The API router (`core/src/api/mod.rs`) is not part of this model.
- The indexer's `ScanProgress` updates are recorded as sent. Their conversion into job report updates happens outside the model.

## Findings

| source | as written | input that shows it | evidently intended | confidence | as-written member | corrected member |
|---|---|---|---|---|---|---|
| core/src/location/indexer/shallow_indexer_job.rs:219-229 | the "Writing {} of {} to db" message for step `i` reports `i * chunk_steps.len()` | 2500 new entries: the third step, of 500 entries, reports 1000 where 2000 entries precede it | `i * BATCH_SIZE`, the number of entries in the steps before it | not executed; high that the message is wrong, low impact (progress text only) | ShallowIndexerJob.ChunkReportAsWrittenMiscounts | ShallowIndexerJob.WrittenBeforeCountsEarlierBatches |
