# VolleySense backend bookkeeping, modelled in Dafny

This project models the stateful bookkeeping of two Python backends of the VolleySense
volleyball video tool, and proves what that code promises.

From `backend/`:

- the log capture pipeline: the bounded `LogBuffer`, with its filtered `tail` and its
  drop-oldest subscriber queues; the `LogBufferHandler` that turns log records into entries;
  and the log-query predicate of the logs router;
- the ingest bookkeeping: the `ingest_state` job table, the worker's stage and progress
  sequence, its stderr tail and its error rule, the upload status resolver of the ingest router,
  the legacy five-state `IngestJobStore`, and the small progress API over it;
- the annotation store (sanitised per-upload JSON Lines files, tolerant reload, append on
  create) and the calibration store (payload constraints, record layout, save and the two
  projection guards, with the homography maths as opaque functions);
- the trainer proposal and commit endpoints.

From `volley-sense/apps/api`:

- the two module managers, `ModuleManager` (loader.py) and `ModuleRegistry` (manager.py):
  enable precedence, route guards, enable/disable, and the failure counters of health
  monitoring;
- the core-video ingest module with its simulated transcode;
- the stand-alone video routes;
- the two trainer definition stores, one a list and one a dict;
- the deterministic parts of the mock-data service: the seed, the player adjustment and the
  CSV export.

There is one Dafny module per source file. Code that updates state in place (the log buffer,
the job tables, the upload store, the module managers, the definition stores) is a class whose
methods are proved against specification functions. Pure code (entry formatting, predicates,
path and URL derivation) is functions and lemmas. Three shared modules support the rest:
`Base` holds Option, Result, the error kinds and pass/fail outcomes; `Text` holds ASCII case
mapping, strip over Python's whitespace set, split, join and decimal rendering; `PyValues` models Python values, with
truthiness, `str()`, dict lookup and the pathlib name, suffix and stem.

Clocks, UUIDs, JSON encoding, MIME guessing, random draws, subprocess results, health probes,
router imports and the homography maths are inputs to the model. They are parameters (values
or functions), not computed.

Observations about the source that the model states:

- `schemas.py` does not define `ModuleStatusPayload` or the `IngestResponse` that manager.py
  and video.py import. The model uses the fields those modules construct.
- In core_video, the name fallback `file.filename or "upload"` is never taken: an upload without
  a name has already failed the suffix check (`CoreVideo.AcceptedUploadHasName`).
- In trainer.py, `definition.createdAt or datetime.now(UTC)` always keeps `createdAt`, because
  a `datetime` is never falsy.
- The two module managers disagree on duplicate manifest ids. loader.py keeps the first
  (`ModuleLoader.FirstManifestWins`); manager.py keeps the last (`Registry.LastManifestWins`).
- The two managers read the environment differently. In loader.py a word outside both word
  sets is ignored. In manager.py any set value other than a true word disables the module,
  even a core one (`Registry.UnrecognisedWordDisables`).
- loader.py's `set_enabled` writes the state and the config file before mounting. A failed
  mount raises after both have changed, which `ModuleLoader.ModuleManager.SetEnabled` states.
- Annotation paths replace "/" by "_", so uploads "a/b" and "a_b" share one file
  (`Annotations.SlashAndUnderscoreShareAFile`).
- The CSV export reads back line by line only when no player name contains a line break
  (`MockData.CsvLines`).
- backend's `main.py` calls `ingest_state.load_from_disk()`, which ingest_state.py does not
  define. main.py is not part of this model.

## Model

| member | source | states |
|---|---|---|
| LogBuffer.MissingKeys | backend/app/services/logbuffer.py:21-22 | the missing names are exactly the required names the dict does not hold |
| LogBuffer.MissingKeysEmpty | backend/app/services/logbuffer.py:21-24 | nothing is missing exactly when all five required keys are present |
| LogBuffer.Restrict | backend/app/services/logbuffer.py:26-29 | the copy holds exactly ts, level, source, msg and meta, each with the entry's value |
| LogBuffer.SanitizeEntry | backend/app/services/logbuffer.py:15-29 | a non-mapping gives the TypeError; a mapping is accepted exactly when it holds the five keys, otherwise a KeyError; an accepted copy holds exactly the five keys with the entry's values |
| LogBuffer.SanitizeAccepts | backend/app/services/logbuffer.py:21-29 | a mapping with the five keys is stored as its restriction to them |
| LogBuffer.Select | backend/app/services/logbuffer.py:82-98 | the selection holds exactly the snapshot entries that pass every filter (None ignored, membership for a non-string iterable, equality otherwise) and the predicate |
| LogBuffer.Matches | backend/app/services/logbuffer.py:82-96 | defines `matches`: every filter whose expected value is not None holds of the entry, and the predicate, when given, accepts it; what selection keeps is stated by Select and SelectIsSubsequence |
| LogBuffer.SelectIsSubsequence | backend/app/services/logbuffer.py:98 | the selection is an order-preserving subsequence of the snapshot |
| LogBuffer.TailWithPositiveLimit | backend/app/services/logbuffer.py:98-101 | for limit >= 1 the result is the last min(limit, #matches) matches, each in the buffer and matching |
| LogBuffer.SliceFromIsLastN | backend/app/services/logbuffer.py:100 | `s[-n:]` for n >= 1 is the last n elements |
| LogBuffer.TailWithoutUsefulLimit | backend/app/services/logbuffer.py:98-101 | limit None and limit 0 (through `[-0:]`) return every match; a negative limit drops the first -limit matches |
| LogBuffer.TailOf | backend/app/services/logbuffer.py:70-101 | defines `tail` on a snapshot: the matching entries in order, then the slice `[-limit:]` when a limit is given; stated by TailWithPositiveLimit, SliceFromIsLastN and TailWithoutUsefulLimit |
| LogBuffer.Enqueue | backend/app/services/logbuffer.py:137-150 | the new entry is last; a full queue loses exactly its oldest item; a queue within its maxsize stays within it; the maxsize is kept |
| LogBuffer.Deliver | backend/app/services/logbuffer.py:58-68 | notification never adds a subscriber |
| LogBuffer.DeliverAll | backend/app/services/logbuffer.py:58-68 | the loop over the subscriber snapshot produces the table `Deliver` describes |
| LogBuffer.DeliverRespectsPredicates | backend/app/services/logbuffer.py:60-68 | a subscriber whose predicate rejects the entry is untouched; one that wants it gets it enqueued, or is unregistered when its loop is closed |
| Text.LastNAppend | backend/app/services/logbuffer.py:43-57 | trimming to n before or after appending gives the same deque, so a bounded deque holds the last n items ever appended |
| LogBuffer.StoreStep | backend/app/services/logbuffer.py:43-57 | appending a well-formed entry keeps the deque the last n of the history, and the history well-formed |
| LogBuffer.LogBuffer.constructor | backend/app/services/logbuffer.py:42-47 | an empty buffer of the given capacity, no subscribers, counter at 0 |
| LogBuffer.LogBuffer.Append | backend/app/services/logbuffer.py:51-68 | a refused entry propagates its error and changes nothing; an accepted one is stored as the last `max_entries` of everything appended, subscribers notified; the buffer never exceeds `max_entries` |
| LogBuffer.LogBuffer.Store | backend/app/services/logbuffer.py:56-57 | the deque becomes the last `max_entries` of the history extended by the entry; subscribers untouched |
| LogBuffer.LogBuffer.RegisterSubscriber | backend/app/services/logbuffer.py:105-126 | a new empty queue of the requested size under the next, unused key; the buffer is untouched |
| LogBuffer.LogBuffer.Unregister | backend/app/services/logbuffer.py:128-133 | no key: no change; otherwise exactly that subscriber is removed |
| LogHandler.SafeJsonShape | backend/app/services/loghandler.py:41-52 | scalars unchanged; a dict becomes one with distinct `str` keys, exactly the key texts of the original, no more items than it had, and under each text the sanitised value of the last key with that text; lists, tuples and sets become lists of the sanitised elements; an unserialisable leaf becomes its repr, a serialisable one is kept |
| LogHandler.SafeJson | backend/app/services/loghandler.py:41-52 | defines `_safe_json`: scalars unchanged, dicts rebuilt under `str` keys with equal key texts merged (the last value kept), lists, tuples and sets as lists, values `json.dumps` refuses as their `repr`; stated by SafeJsonShape, SafeJsonKeyOrder, SafeJsonIsJsonSafe and SafeJsonKeepsJsonSafe |
| LogHandler.SafeJsonIsJsonSafe | backend/app/services/loghandler.py:41-52 | the result is always in sanitised form: distinct string dict keys, no tuples or sets, no unserialisable leaves, all the way down |
| LogHandler.SafeJsonKeepsJsonSafe | backend/app/services/loghandler.py:41-52 | a value already in sanitised form is returned unchanged |
| LogHandler.SafeJsonIdempotent | backend/app/services/loghandler.py:41-52 | sanitising twice is sanitising once |
| LogHandler.SafeJsonKeyOrder | backend/app/services/loghandler.py:45 | a sanitised dict holds each key text once, at the position where that text first occurs among the original keys |
| LogHandler.SafeJsonMergesKeyTexts | backend/app/services/loghandler.py:45 | two keys with the same `str` text merge: `{1: "a", "1": "b"}` sanitises to `{"1": "b"}` |
| PyValues.DictFromPairsKeys | backend/app/services/loghandler.py:45 | a dict built from pairs in order has distinct keys, exactly the keys of the pairs, no more items than pairs, and only items taken from the pairs |
| PyValues.DictFromPairsHoldsLast | backend/app/services/loghandler.py:45 | the last pair given for a key is an item of the built dict |
| PyValues.DictFromPairsLastWins | backend/app/services/loghandler.py:45 | looking a key up in the built dict finds the value of the last pair with that key |
| PyValues.DictFromPairsOrder | backend/app/services/loghandler.py:45 | the built dict lists the keys of the pairs in order of first occurrence, each once |
| PyValues.DictFromDistinctPairs | backend/app/services/loghandler.py:45 | pairs whose keys are already distinct become exactly those items, in order |
| LogHandler.ExtrasContents | backend/app/services/loghandler.py:84-95 | the extras hold no reserved name, hold every non-reserved attribute sanitised, and are empty exactly when every attribute is reserved |
| LogHandler.Extras | backend/app/services/loghandler.py:89-93 | defines the `extras` comprehension: the record attributes whose names are not reserved, with sanitised values, in order; stated by ExtrasContents |
| LogHandler.FormatEntry | backend/app/services/loghandler.py:71-103 | `_format_entry` raises exactly when `getMessage()` raises, with that error, and otherwise yields a dict of five items |
| LogHandler.FormatEntryLookups | backend/app/services/loghandler.py:97-103 | ts, level, source (the logger name), msg and meta are looked up to the record's fields |
| LogHandler.FormatEntryHasRequiredKeys | backend/app/services/loghandler.py:97-103 | a formatted record holds every key the buffer requires |
| LogHandler.FormatEntryIsAccepted | backend/app/services/loghandler.py:97-103 | a formatted record always passes sanitising and is stored with exactly the five keys, source equal to the logger name |
| LogHandler.EntryOf | backend/app/services/loghandler.py:97-103 | defines the stored form of a formatted record: its dict restricted to the five required keys; its fields are stated by FormatEntryIsAccepted |
| LogHandler.MetaHasKey | backend/app/services/loghandler.py:75-95 | a meta key comes from exactly one of the fixed part, exc_type, exc_text or extra |
| LogHandler.MetaExtra | backend/app/services/loghandler.py:89-95 | `meta.extra` exists exactly when some attribute is not reserved, and then holds the sanitised extras, none of them reserved |
| LogHandler.MetaException | backend/app/services/loghandler.py:84-87 | exc_type exists exactly when exc_info is set, exc_text exactly when it is non-empty |
| LogHandler.LogBufferHandler.constructor | backend/app/services/loghandler.py:58-60 | the handler writes to the given buffer |
| LogHandler.LogBufferHandler.Emit | backend/app/services/loghandler.py:63-68 | `handleError` is reached exactly when `getMessage()` raises, and then the buffer is left unchanged; otherwise the formatted record is appended to the history, the trimmed buffer and the subscribers it matches |
| Logs.AcceptsAllWithoutCriteria | backend/app/routers/logs.py:30-48 | with level, source and search all None or empty every entry is accepted |
| Logs.Accepts | backend/app/routers/logs.py:27-51 | defines the predicate `_build_predicate` returns: the upper-cased level and the source must equal the entry's, and a search text must occur, ignoring case, in `str(msg)` or else in the JSON text of a dict-valued `meta.extra`; stated by AcceptsAllWithoutCriteria, AcceptedLevelAndSource, SearchCriterion and SearchCaseInsensitive |
| Logs.AcceptedLevelAndSource | backend/app/routers/logs.py:30-37 | an accepted entry has the upper-cased query level and exactly the query source |
| Logs.SearchCriterion | backend/app/routers/logs.py:31-47 | a case-insensitive match in `str(msg)` accepts; otherwise an entry is accepted exactly when `meta.extra` is a dict whose lower-cased JSON contains the needle, and rejected when there is no such dict |
| Logs.SearchCaseInsensitive | backend/app/routers/logs.py:31-40 | the case of the search text does not change the verdict |
| Logs.ReadLogsPage | backend/app/routers/logs.py:54-64 | a limit outside 1..2000 gives 422; otherwise the count equals the number of entries, at most the limit, each in the buffer and accepted, and they are the most recent matches |
| Logs.QueryFilters | backend/app/routers/logs.py:63 | defines the `filters` dict `read_logs` passes to `tail`: the upper-cased level (None when missing or empty) and the source as given; its effect is stated by EmptySourceDropsEntries |
| Logs.ReadLogs | backend/app/routers/logs.py:54-64 | defines `read_logs` on a buffer snapshot, with the 422 for a limit outside 1..2000; stated by ReadLogsPage |
| Logs.EmptySourceDropsEntries | backend/app/routers/logs.py:36-63 | with `source=""` an entry with another source is accepted by the predicate yet not returned |
| Logs.IntendedFiltersAreRedundant | backend/app/routers/logs.py:33-63 | with the filters read as the predicate reads them, an entry is selected exactly when the predicate accepts it |
| Logs.IntendedSelectsAll | backend/app/routers/logs.py:30-63 | with no criteria the intended selection is the whole buffer |
| Logs.ReadLogsIntendedUnfiltered | backend/app/routers/logs.py:54-64 | with no criteria (an empty source included) the intended query returns the most recent `limit` entries and their count |
| Logs.SseRoundTrip | backend/app/routers/logs.py:67-68 | a frame is "data: " + JSON + "\n\n", the JSON text can be read back from it, and one-line JSON gives one data line and the blank line |
| Logs.FormatSse | backend/app/routers/logs.py:67-68 | defines one server-sent event: `data: ` and the JSON text, then a blank line; stated by SseRoundTrip |
| IngestState.Clone | backend/app/services/ingest_state.py:26-30 | the copy never holds a None message, keeps every other key, keeps a non-None message, and equals the job when it had no None message |
| IngestState.NewJob | backend/app/services/ingest_state.py:37-42 | defines the job `create_job` stores: status and stage "queued", progress 0 and the default assets; stated by CreatedJobShape |
| IngestState.UpdatedJob | backend/app/services/ingest_state.py:51-77 | defines the stored job after `update_job`: message cleared or set, plain fields written, dict assets merged slot by slot; stated by UpdateMessage, UpdateFields, UpdateAssets and UpdateKeepsGoodJob |
| IngestState.UpdateFailure | backend/app/services/ingest_state.py:58-75 | defines the AttributeError `update_job` raises, after writing, when `assets` is neither None nor a dict; its use is stated by IngestState.UpdateJob |
| IngestState.UpdateMessage | backend/app/services/ingest_state.py:62-67 | `message=None` removes the message, any other message is stored, no message argument leaves it alone |
| IngestState.UpdateFields | backend/app/services/ingest_state.py:69-70 | passed fields overwrite their keys; fields not passed keep their value |
| IngestState.UpdateAssets | backend/app/services/ingest_state.py:60-75 | an assets update merges slot by slot (passed slots are overwritten, the rest kept); no assets argument or `None` keeps the assets |
| IngestState.UpdateKeepsGoodJob | backend/app/services/ingest_state.py:51-77 | updating keeps the assets a dict and the message never None |
| IngestState.WriteFields | backend/app/services/ingest_state.py:69-70 | the field loop writes every plain field over the job |
| IngestState.MergeInto | backend/app/services/ingest_state.py:72-75 | the slot loop gives the key-by-key merge |
| IngestState.IngestState.constructor | backend/app/services/ingest_state.py:11-12 | both tables start empty |
| IngestState.IngestState.CreateJob | backend/app/services/ingest_state.py:16-48 | the job is queued/queued/0 with only the original asset set, replacing any job under that id; the meta records the two paths; the snapshot equals the job |
| IngestState.IngestState.UpdateJob | backend/app/services/ingest_state.py:51-77 | an unknown id gives KeyError and changes nothing; otherwise the stored job becomes the merged update and the snapshot is its copy; an assets value that is not a dict raises after the other fields are written |
| IngestState.IngestState.GetJob | backend/app/services/ingest_state.py:80-87 | None exactly for an unknown or empty job, otherwise its copy without a None message |
| IngestState.IngestState.GetJobMeta | backend/app/services/ingest_state.py:90-95 | None exactly for an unknown id, otherwise the recorded paths |
| IngestState.IngestState.ResetState | backend/app/services/ingest_state.py:98-103 | both tables are emptied |
| IngestState.CreatedJobShape | backend/app/services/ingest_state.py:16-42 | a new job is well formed, non-empty, its own copy, with only `original_url` set among the asset slots |
| IngestWorker.StageProgressIncreases | backend/app/services/ingest_worker.py:28-34 | the table covers exactly the five stages, progress strictly increases along validate, transcode_mezz, make_proxy, thumbs, ready, and ends at 100 |
| IngestWorker.GpuEnabledCases | backend/app/services/ingest_worker.py:106-107 | the GPU is off when `USE_GPU` is unset, the switch ignores case, and "TRUE"/"On" turn it on while "0" does not |
| IngestWorker.GpuEnabled | backend/app/services/ingest_worker.py:106-107 | defines `_gpu_enabled` for the `USE_GPU` value (default "false"); stated by GpuEnabledCases |
| IngestWorker.BuildAssetUrls | backend/app/services/ingest_worker.py:110-116 | defines `_build_asset_urls`: the four asset paths of an upload; stated by AssetUrlsNameTheUpload and AssetUrlsInjective |
| IngestWorker.AssetUrlsNameTheUpload | backend/app/services/ingest_worker.py:110-116 | there are exactly the four asset keys and the upload id is recovered from each of the four templates |
| IngestWorker.AssetUrlsInjective | backend/app/services/ingest_worker.py:110-116 | different uploads never get the same asset URLs |
| IngestWorker.KeptLines | backend/app/services/ingest_worker.py:58-61 | every kept line is non-empty and right-stripped |
| IngestWorker.DrainStderr | backend/app/services/ingest_worker.py:50-62 | the tail is the last 40 of the non-empty right-stripped lines, in their original order, so at most 40 lines |
| IngestWorker.SuccessUpdates | backend/app/services/ingest_worker.py:150-296 | a successful ingest makes six updates |
| IngestWorker.PlanProgressNonDecreasing | backend/app/services/ingest_worker.py:146-312 | the progress values an ingest reports never go down, and a failure reports the progress of the last update before it |
| IngestWorker.SuccessProgress | backend/app/services/ingest_worker.py:150-296 | the successful updates report 1, 5, 60, 80, 95, 100 |
| IngestWorker.FailureProgress | backend/app/services/ingest_worker.py:146-312 | a failure after n updates reports the n-th progress value |
| IngestWorker.UpdatedStatus | backend/app/services/ingest_worker.py:150-312 | each pipeline update stores its status, stage and progress |
| IngestWorker.SuccessEnd | backend/app/services/ingest_worker.py:284-296 | a successful ingest ends ready/ready at 100 with all four asset URLs stored |
| IngestWorker.FailureEnd | backend/app/services/ingest_worker.py:298-312 | a failed ingest ends error/error at the last progress reached, with the failure message |
| IngestWorker.FailureMessageRule | backend/app/services/ingest_worker.py:298-304 | a failed command reports its last ten stderr lines joined by "\n", or `str(exc)` (command line and exit code) when it has none |
| IngestWorker.CommandMessage | backend/app/services/ingest_worker.py:43-44 | defines the text of a `CommandError`: the command line and the exit code; used by FailureMessageRule |
| IngestWorker.FailureMessage | backend/app/services/ingest_worker.py:298-304 | defines the message stored with a failed job: the last ten stderr lines of a failed command, the error text when there are none, or the exception text; stated by FailureMessageRule |
| IngestWorker.FirstFailure | backend/app/services/ingest_worker.py:150-282 | defines where `run_ingest` stops: the updates made before the failure, the progress reached and the failure, for the probe, the missing video stream and each command in turn; stated by FailureProgress and FailureEnd |
| IngestWorker.Plan | backend/app/services/ingest_worker.py:146-313 | defines the `update_job` calls `run_ingest` makes for a known job; stated by PlanProgressNonDecreasing, SuccessProgress, FailureProgress, SuccessEnd and FailureEnd |
| IngestWorker.Update | backend/app/services/ingest_state.py:51-77 | one pipeline update on a known job extends the replayed trace by that update |
| IngestWorker.ReplayStep | backend/app/services/ingest_state.py:51-77 | replaying one more update applies `update_job` once more |
| IngestWorker.Advance | backend/app/services/ingest_worker.py:169-296 | the next update of the successful path is applied to the stored job and nothing else changes |
| IngestWorker.Transcode | backend/app/services/ingest_worker.py:168-254 | after validation the mezzanine and proxy stages run as far as the first failure, with the updates, progress and failure `FirstFailure` names |
| IngestWorker.Publish | backend/app/services/ingest_worker.py:256-296 | the thumbnail, keyframe and ready stages run as far as the first failure, with the updates, progress and failure `FirstFailure` names |
| IngestWorker.RunIngest | backend/app/services/ingest_worker.py:141-313 | an unknown job raises KeyError with no change; otherwise the job receives exactly the planned updates (the successful ones up to the failure, then the error update) and the failure is raised again; the meta table is untouched |
| IngestWorker.Ingest | backend/app/services/ingest_worker.py:146-313 | the stored job becomes the replay of the plan, and the failure returned is the first failure |
| IngestRouter.StageTableClosed | backend/app/routers/ingest.py:18-33 | every table value is a stage name, and every stage name maps to itself |
| IngestRouter.VocabularyWords | backend/app/routers/ingest.py:18-33 | the vocabulary is the six stage names |
| IngestRouter.NormalizeStageCases | backend/app/routers/ingest.py:48-54 | None or empty gives "ready", a known alias in any case maps through the table, anything else gives "error"; the result is always in the six-name vocabulary |
| IngestRouter.NormalizeStageIdempotent | backend/app/routers/ingest.py:48-54 | normalising a normalised stage changes nothing |
| IngestRouter.NormalizeStage | backend/app/routers/ingest.py:48-54 | defines `_normalize_stage`: the default stage for a missing or empty stage, the table's word for a known lower-cased stage, "error" otherwise; stated by NormalizeStageCases and NormalizeStageIdempotent |
| IngestRouter.ClampProgressProperties | backend/app/routers/ingest.py:57-60 | the result is in [0, 100], the identity inside it, 0 below and 100 above |
| IngestRouter.ClampProgress | backend/app/routers/ingest.py:57-60 | defines `_clamp_progress`; stated by ClampProgressProperties |
| IngestRouter.NormalizedAssets | backend/app/routers/ingest.py:72-76 | exactly original_url, proxy_url and mezzanine_url, each the input's value or None |
| IngestRouter.BuildStatusPayload | backend/app/routers/ingest.py:63-85 | status echoed, stage normalised, progress clamped, exactly the three asset slots, and a message exactly when a non-empty one is given |
| IngestRouter.ClonePayload | backend/app/routers/ingest.py:88-103 | the copy has the three asset slots and equals any well-formed payload |
| IngestRouter.AssetUrls | backend/app/routers/ingest.py:121-128 | the result has exactly the three asset slots |
| IngestRouter.AssetUrlsShape | backend/app/routers/ingest.py:121-128 | without an extension all slots are None; with one, original and proxy are both "/assets/original/" + id + the dotted extension and mezzanine is None |
| IngestRouter.LocateExistingExtension | backend/app/routers/ingest.py:131-138 | None exactly when no allowed extension has a file; otherwise the first one in sorted order that has |
| IngestRouter.FirstExisting | backend/app/routers/ingest.py:134-138 | defines the loop of `_locate_existing_extension`: the first extension, in the given order, under which the upload exists on disk; stated by LocateExistingExtension |
| IngestRouter.SortedExtensionsAreAllowed | backend/app/routers/ingest.py:134 | the sorted list holds exactly the allowed extensions, none empty |
| IngestRouter.UploadExtension | backend/app/routers/ingest.py:193-201 | an accepted extension starts with a dot |
| IngestRouter.AllowedAreDotted | backend/app/routers/ingest.py:11 | every allowed extension starts with a dot |
| IngestRouter.UploadExtensionCases | backend/app/routers/ingest.py:193-201 | a missing name gives 400; a file is accepted exactly when its lower-cased suffix is allowed, with that suffix as extension; any other refusal is 415 |
| StageWords.StageNameIsLower | backend/app/routers/ingest.py:18-33 | no stage name changes under lower-casing |
| IngestRouter.UploadStore.constructor | backend/app/routers/ingest.py:39 | the store starts empty |
| IngestRouter.UploadStore.StoreStatus | backend/app/routers/ingest.py:106-118 | the built payload is stored and an equal copy returned |
| IngestRouter.UploadStore.EnsureHealthSeed | backend/app/routers/ingest.py:151-155 | afterwards the health id is stored; an existing entry is kept, a missing one becomes ready/100 with empty assets |
| IngestRouter.UploadStore.ResolveStatus | backend/app/routers/ingest.py:158-172 | a stored payload first, unchanged; else a file under the first sorted allowed extension, then stored as ready/100; else queued/validate/0 for the health id or a UUID-like id, unstored; else an error payload naming the id |
| IngestRouter.UploadStore.GetStatus | backend/app/routers/ingest.py:222-227 | the health seed is stored first; then a payload stored in the seeded store is answered unchanged; else a file on disk under the first sorted allowed extension is stored as ready and answered; else a UUID-like id is queued/validate/0 and any other id gets an error payload naming it, the seeded store unchanged; files are never touched |
| IngestRouter.UploadStore.UploadVideo | backend/app/routers/ingest.py:189-219 | the 400/415 refusals and the 500 for a failed write change nothing; otherwise the file is saved as the new id plus the extension, a ready payload stored, and the response carries the original and proxy URLs and no mezzanine |
| IngestRouter.UploadStore.SaveUpload | backend/app/routers/ingest.py:203-219 | the written file and its ready payload are recorded and the response names them |
| IngestRouter.UploadStore.GetHealth | backend/app/routers/ingest.py:230-242 | without an id the report is always ok, because of the seed, and the store is the seeded store; with one it is ok exactly when the id is stored, is the health id, is UUID-like or has a file on disk, and the store is the seeded store plus, for an id it lacked that has a file on disk, that id's ready payload; files are never touched |
| IngestRouter.Seeded | backend/app/routers/ingest.py:151-155 | the seeded store holds the health id and keeps every existing entry; a missing health entry is ready with empty assets |
| IngestJobs.Next | backend/app/services/ingest.py:13-19 | the next position stays in the cycle and wraps from the last state to the first |
| IngestJobs.Advanced | backend/app/services/ingest.py:40 | repeated advances stay in the cycle |
| IngestJobs.AdvancedIsModular | backend/app/services/ingest.py:36-41 | after n advances a job sits at position (p + n) mod 5 |
| IngestJobs.FiveAdvancesReturn | backend/app/services/ingest.py:13-41 | five advances bring a job back to its state, and "completed" is followed by "queued" |
| IngestJobs.JobIdInjective | backend/app/services/ingest.py:26 | different numbers give different job ids |
| IngestJobs.JobId | backend/app/services/ingest.py:26 | defines the id `job-<n>`; stated by JobIdInjective and NextIdIsFresh |
| IngestJobs.NextIdIsFresh | backend/app/services/ingest.py:26 | after job-1 .. job-n, the next id is none of them |
| IngestJobs.Views | backend/app/services/ingest.py:43-50 | one view per id, in order, each with that job's current state |
| IngestJobs.NextIdExtends | backend/app/services/ingest.py:26-29 | appending the next id keeps job-i at position i |
| IngestJobs.CreateKeepsWellFormed | backend/app/services/ingest.py:25-34 | the new id is unused, and adding it keeps the ids job-1 .. job-n in creation order |
| IngestJobs.IngestJobStore.constructor | backend/app/services/ingest.py:11-19 | the store starts empty |
| IngestJobs.IngestJobStore.Sequence | backend/app/services/ingest.py:13-23 | the five distinct states, from "queued" to "completed" |
| IngestJobs.IngestJobStore.CreateJob | backend/app/services/ingest.py:25-34 | the new job is "job-{n+1}" for n jobs before, unused, starts in "queued" with its source, and is listed last |
| IngestJobs.IngestJobStore.AdvanceJob | backend/app/services/ingest.py:36-41 | an unknown id gives KeyError and no change; otherwise only that job moves to the next state of the cycle, which is returned |
| IngestJobs.IngestJobStore.PeekJob | backend/app/services/ingest.py:43-47 | KeyError exactly for an unknown id; otherwise the current state, nothing changed |
| IngestJobs.IngestJobStore.ListJobs | backend/app/services/ingest.py:49-50 | every job, in creation order (job-1, job-2, ...), as `peek_job` reports it |
| IngestApi.ProgressMapAlongSequence | backend/app/api/ingest.py:11-17 | the map covers every state of the sequence, rises strictly along it and is 1.0 for "completed" |
| IngestApi.StatusOf | backend/app/api/ingest.py:27-48 | the response echoes the job id, the state and the sequence, with a progress in (0, 1.0] |
| IngestApi.StartIngest | backend/app/api/ingest.py:24-33 | a new job-{n+1}, state "queued", progress 0.05, states equal to the sequence |
| IngestApi.GetIngestStatus | backend/app/api/ingest.py:36-48 | an unknown id gives 404 and no change; otherwise the job advances (advance=True) or is only peeked (advance=False), and the response carries the resulting state and its progress |
| Annotations.CheckPayload | backend/app/routers/annotations.py:27-41 | accepted exactly when there is a rectangle or a polygon and any polygon has at least 3 points; a short polygon gives 422, no geometry gives 400 |
| Annotations.BothShapesAccepted | backend/app/routers/annotations.py:39-41 | a payload with both a rectangle and a polygon is accepted: the check asks for at least one shape, not exactly one |
| Annotations.AnnotationPath | backend/app/routers/annotations.py:47-49 | the file name never contains "/", and is the id (same length) followed by ".jsonl" |
| Annotations.SlashAndUnderscoreShareAFile | backend/app/routers/annotations.py:47-49 | "a/b" and "a_b" are stored in the same file |
| Annotations.Kept | backend/app/routers/annotations.py:59-65 | one line contributes at most one record |
| Annotations.Lines | backend/app/routers/annotations.py:57-58 | defines the lines a text-mode read yields; used by ParsedFromLines and LinesAppend |
| Annotations.Parsed | backend/app/routers/annotations.py:58-65 | defines the records `_load_annotations` keeps: each line stripped, blank and undecodable lines skipped; stated by ParseLines and ParsedFromLines |
| Annotations.ParseLine | backend/app/routers/annotations.py:59-65 | one pass strips the line, skips it when blank or undecodable, and otherwise keeps its record |
| Annotations.ParsedFromLines | backend/app/routers/annotations.py:56-66 | every kept record comes from a non-blank line that decodes to it, and there are no more records than lines |
| Annotations.ParseLines | backend/app/routers/annotations.py:56-66 | the loop keeps the records of the non-blank decodable lines, in file order |
| Annotations.LinesAppend | backend/app/routers/annotations.py:84-86 | a file the store writes reads as lines and an empty last piece, and appending a plain line puts it just before that piece |
| Annotations.AppendLine | backend/app/routers/annotations.py:52-86 | appending one line to such a file adds exactly that line's record, if any, to what a reload returns |
| Annotations.AnnotationStore.constructor | backend/app/routers/annotations.py:15-17 | the annotation directory starts empty |
| Annotations.AnnotationStore.LoadAnnotations | backend/app/routers/annotations.py:52-66 | a missing file gives no records; otherwise the decodable non-blank lines in file order |
| Annotations.AnnotationStore.CreateAnnotation | backend/app/routers/annotations.py:74-88 | a refused payload changes nothing; otherwise the record with its new id and time is appended as one line to the upload's file (created if missing), no other file changes, and the record is returned |
| Annotations.CreateThenList | backend/app/routers/annotations.py:69-88 | after a create the list is the old list plus the new record at the end, when the record encodes as one line that decodes back |
| Calibration.CheckPayload | backend/app/routers/calibration.py:29-40 | accepted exactly with 4 image points, 2 net points and the template id "indoor_fivb_18x9"; every refusal is 422 |
| Calibration.CalibrationPath | backend/app/routers/calibration.py:50-52 | the file name never contains "/", and is the id (same length) followed by ".json" |
| Calibration.SavedRecordLayout | backend/app/routers/calibration.py:63-91 | a saved record echoes frame_t, image_size, image_points and net_points, holds the template and its corner points (0,0), (18,0), (18,9), (0,9), the homography and its inverse, and one court point per net point when `apply_h` returns one point per input |
| Calibration.SaveRefusals | backend/app/routers/calibration.py:68-76 | a refused payload gives its 422; a failing `compute_h` gives 400; a failing inversion gives 400 "Homography inversion failed" |
| Calibration.SaveOutcome | backend/app/routers/calibration.py:63-91 | defines what `save_calibration` returns before the write: 422 for a refused payload, 400 when the homography cannot be computed or inverted, otherwise the record; stated by SavedRecordLayout and SaveRefusals |
| Calibration.ErrorText | backend/app/routers/calibration.py:68-71 | defines `str(exc)` of the error `compute_h` raised, the detail of the 400; used by SaveOutcome |
| Calibration.Transform | backend/app/routers/calibration.py:109-123 | a missing matrix gives 400 with the given detail, otherwise the mapped points |
| Calibration.CalibrationStore.constructor | backend/app/routers/calibration.py:15-17 | the calibration directory starts empty |
| Calibration.CalibrationStore.SaveCalibration | backend/app/routers/calibration.py:63-98 | a refused save writes nothing; a successful one overwrites the upload's record, returns exactly what was written, and a get then returns it |
| Calibration.CalibrationStore.GetCalibration | backend/app/routers/calibration.py:55-60 | 404 exactly when there is no file, otherwise the stored record |
| Calibration.CalibrationStore.PixelToCourt | backend/app/routers/calibration.py:106-113 | no points gives 422, no calibration 404, a missing homography 400, otherwise the points mapped by the homography |
| Calibration.CalibrationStore.CourtToPixel | backend/app/routers/calibration.py:116-123 | the same guards with the inverse homography |
| Calibration.SavedCalibrationTransforms | backend/app/routers/calibration.py:93-123 | after a save, both transforms of that upload go through the saved matrices |
| TrainerApi.LassoPoints | backend/app/api/trainer.py:24-27 | every lasso has three points |
| TrainerApi.RegionPlayers | backend/app/api/trainer.py:20-30 | one player id per region |
| TrainerApi.ProposalShape | backend/app/api/trainer.py:18-36 | one region per selected player id, in the same order; each is a lasso of (32, 24), (44, 32), (56, 40); label and frame timestamp are echoed |
| TrainerApi.Propose | backend/app/api/trainer.py:19-35 | defines `propose_training_event`: the label and timestamp echoed, one lasso region per selected player, the fixed note; stated by ProposalShape |
| TrainerApi.Commit | backend/app/api/trainer.py:44-49 | the proposal id is echoed; "applied" exactly when accepted, "discarded" exactly when not |
| ModuleLoader.EnvOverride | volley-sense/apps/api/app/modules/loader.py:117-127 | the override is true exactly when `MODULES_<ID>` (dashes to underscores, upper-cased) is set to one of 1/true/yes/on in any case, false exactly for 0/false/no/off, and absent when the variable is unset or holds any other word |
| ModuleLoader.EnvKey | volley-sense/apps/api/app/modules/loader.py:118 | defines the variable consulted: `MODULES_` and the id with `-` replaced by `_`, upper-cased; used by EnvOverride |
| ModuleLoader.WordSetsDisjoint | volley-sense/apps/api/app/modules/loader.py:122-125 | no word is both a true word and a false word, so the override is never ambiguous |
| ModuleLoader.EnablePrecedence | volley-sense/apps/api/app/modules/loader.py:90-97 | a recognised environment word decides enablement; failing that the config file's `enabled` entry; failing that the manifest's `enabled_by_default` |
| ModuleLoader.ConfigEnabled | volley-sense/apps/api/app/modules/loader.py:90 | defines `self._config.get(id, {}).get("enabled")`; used by EnablePrecedence |
| ModuleLoader.Enabled | volley-sense/apps/api/app/modules/loader.py:90-97 | defines the enablement `load` computes: the environment override, else the saved choice, else the manifest default; stated by EnablePrecedence |
| ModuleLoader.Included | volley-sense/apps/api/app/modules/loader.py:107-115 | defines whether routers get mounted: an enabled module with a backend whose mounting raises nothing; used by LoadOne |
| ModuleLoader.InitialState | volley-sense/apps/api/app/modules/loader.py:98-115 | a newly loaded module keeps its id and enablement; disabled modules are "disabled" with no error, enabled ones without a backend or that mount are "healthy", enabled ones with a backend whose mount raises are "error" with the mount's message |
| ModuleLoader.LoadAllStep | volley-sense/apps/api/app/modules/loader.py:84-115 | loading a prefix one manifest longer is loading the shorter prefix and then that manifest |
| ModuleLoader.Ids | volley-sense/apps/api/app/modules/loader.py:83-89 | the id set of a manifest list holds every manifest's id and nothing else |
| ModuleLoader.LoadAllKeys | volley-sense/apps/api/app/modules/loader.py:83-107 | after `load` from empty tables both the manifest table and the state table are keyed by exactly the ids found |
| ModuleLoader.LoadOneKeeps | volley-sense/apps/api/app/modules/loader.py:86-89 | loading another manifest never changes an entry already loaded |
| ModuleLoader.LoadOneAdds | volley-sense/apps/api/app/modules/loader.py:89-115 | a manifest whose id is new is recorded, with its initial state |
| ModuleLoader.LoadOne | volley-sense/apps/api/app/modules/loader.py:86-115 | defines one step of the loading loop: an id already loaded is skipped, otherwise manifest, state and order gain it; stated by LoadOneKeeps and LoadOneAdds |
| ModuleLoader.LoadAll | volley-sense/apps/api/app/modules/loader.py:83-115 | defines the loading loop over the sorted manifests; stated by LoadAllStep, LoadAllKeys, FirstManifestWins and LastManifestAdded |
| ModuleLoader.FirstManifestWins | volley-sense/apps/api/app/modules/loader.py:83-89 | after `load`, each id maps to the first manifest with that id in sorted path order and to that manifest's initial state; later duplicates are ignored |
| ModuleLoader.LastManifestAdded | volley-sense/apps/api/app/modules/loader.py:86-107 | a manifest whose id no earlier manifest carries is loaded with its own initial state |
| ModuleLoader.Guard | volley-sense/apps/api/app/modules/loader.py:204-211 | the route guard fails with KeyError for an unknown module; a known module passes exactly when it is enabled and neither "disabled" nor "error" (a "degraded" module passes), else 503 |
| ModuleLoader.UpdateState | volley-sense/apps/api/app/modules/loader.py:194-202 | only the named module's entry can change; nothing changes for an unknown module or a "healthy" report on a disabled one; otherwise the status is the reported one (or "disabled" when the module is disabled) and the error is replaced |
| ModuleLoader.FailureRunAtLeast | volley-sense/apps/api/app/modules/loader.py:177-186 | the monitor's failure counter is at least k exactly when the last k probes all failed |
| ModuleLoader.DegradedAfterThreeFailures | volley-sense/apps/api/app/modules/loader.py:184-187 | a "degraded" report is sent after a probe exactly when that probe and the two before it all failed |
| ModuleLoader.FailureRunBound | volley-sense/apps/api/app/modules/loader.py:171-186 | the failure counter never exceeds the number of probes made |
| ModuleLoader.ProbeError | volley-sense/apps/api/app/modules/loader.py:176-186 | defines `str(exc)` of a failed probe: "Health returned <code>" or the raised text; used by Report |
| ModuleLoader.FailureRun | volley-sense/apps/api/app/modules/loader.py:171-186 | defines the monitor's `failures` counter: the failures since the last success; stated by FailureRunAtLeast and FailureRunBound |
| ModuleLoader.Report | volley-sense/apps/api/app/modules/loader.py:176-186 | defines the report after a probe: healthy on a success, degraded with the error text from the third failure in a row, none otherwise; stated by DegradedAfterThreeFailures |
| ModuleLoader.Monitored | volley-sense/apps/api/app/modules/loader.py:169-192 | defines the states after the monitor has worked through its probes; ModuleManager.MonitorHealth is proved to reach them |
| ModuleLoader.Interval | volley-sense/apps/api/app/modules/loader.py:172 | the probe interval is at least 5 seconds, and equals the manifest's interval whenever that is 5 or more |
| ModuleLoader.StatesOf | volley-sense/apps/api/app/modules/loader.py:235-236 | the listing has one state per id, in the given order |
| ModuleLoader.ModuleManager.constructor | volley-sense/apps/api/app/modules/loader.py:56-65 | the manager starts with the config read from disk and no manifests or states |
| ModuleLoader.ModuleManager.Load | volley-sense/apps/api/app/modules/loader.py:81-115 | the tables after `load` are those of loading the manifests one by one in order; the config is unchanged |
| ModuleLoader.ModuleManager.LoadManifest | volley-sense/apps/api/app/modules/loader.py:85-115 | one iteration of `load` skips a duplicate id and otherwise records the manifest, its inclusion and its initial state |
| ModuleLoader.ModuleManager.ReportState | volley-sense/apps/api/app/modules/loader.py:194-202 | `_update_state` changes the states exactly as UpdateState says and nothing else |
| ModuleLoader.ModuleManager.SetEnabled | volley-sense/apps/api/app/modules/loader.py:213-233 | 404 for an unknown module with nothing changed; otherwise the state becomes healthy or disabled (error cleared only on enable), the config records the choice, and enabling an unmounted module with a backend mounts it (one without a backend is never mounted and cannot fail); a failed mount raises after state and config were written |
| ModuleLoader.ModuleManager.MonitorHealth | volley-sense/apps/api/app/modules/loader.py:169-192 | after the probes the counter is the number of failures since the last success, and the states are those the reports (healthy on a 200, degraded from the third consecutive failure) produce |
| ModuleLoader.ModuleManager.States | volley-sense/apps/api/app/modules/loader.py:235-236 | `states()` lists every module's state in load order |
| Registry.Word | volley-sense/apps/api/app/modules/manager.py:17 | a status is always one of the four words healthy, degraded, error, disabled |
| Registry.ShouldEnable | volley-sense/apps/api/app/modules/manager.py:116-125 | a set `MODULES_<ID>` variable decides alone (enabled exactly for 1/true/yes/on in any case); otherwise a core module is always enabled and an optional one follows its config entry, then its default |
| Registry.EnvKey | volley-sense/apps/api/app/modules/manager.py:117 | defines the variable consulted: `MODULES_` and the id upper-cased, with `-` replaced by `_`; used by ShouldEnable |
| Registry.UnrecognisedWordDisables | volley-sense/apps/api/app/modules/manager.py:118-120 | an environment value that is not a true word (including "0", "off" or a typo) disables even a core module |
| Registry.ConfigFromItems | volley-sense/apps/api/app/modules/manager.py:108 | the config holds exactly the `str()` texts of the document's keys |
| Registry.ConfigLastItemWins | volley-sense/apps/api/app/modules/manager.py:108 | when two keys share one text, the value is the truthiness of the last item with that text |
| Registry.LoadConfig | volley-sense/apps/api/app/modules/manager.py:99-108 | no path, a missing file, invalid JSON and a document that is not an object all give the empty config; an object gives its items' truthiness; a file written by `_save_config` reads back as the dict written |
| Registry.LoadedState | volley-sense/apps/api/app/modules/manager.py:82-97 | a loaded module starts with no failures and no check time; disabled when not enabled; an enabled module whose router import raises becomes "error", not enabled, carrying the exception text; otherwise healthy and enabled |
| Registry.NewState | volley-sense/apps/api/app/modules/manager.py:83-97 | the state built step by step in `load` is LoadedState |
| Registry.LoadAllStep | volley-sense/apps/api/app/modules/manager.py:79-97 | loading a prefix one manifest longer is loading the shorter prefix and then that manifest |
| Registry.LoadOneWellFormed | volley-sense/apps/api/app/modules/manager.py:79-97 | loading a manifest keeps the tables agreeing: same ids in both dicts, each state with its manifest and consistent status, and a duplicate-free key order |
| Registry.ReplaceStateWellFormed | volley-sense/apps/api/app/modules/manager.py:153-156 | replacing a module's state by a consistent one with the same manifest keeps the tables agreeing |
| Registry.LastManifestWins | volley-sense/apps/api/app/modules/manager.py:79-86 | after `load`, an id maps to the last manifest with that id in sorted path order and to its loaded state |
| Registry.LoadOneKeeps | volley-sense/apps/api/app/modules/manager.py:81-86 | loading a manifest leaves the entries of every other id unchanged |
| Registry.LoadOne | volley-sense/apps/api/app/modules/manager.py:80-97 | defines one step of the loading loop: the manifest replaces any earlier one of its id, which keeps its position; stated by LoadOneKeeps, LoadOneWellFormed and LastManifestWins |
| Registry.LoadAll | volley-sense/apps/api/app/modules/manager.py:79-97 | defines the loading loop over the sorted manifests; stated by LoadAllStep and LastManifestWins |
| Registry.Consistent | volley-sense/apps/api/app/modules/manager.py:83-97 | defines how status goes with `enabled`: "disabled" only when not enabled, and a module not enabled is "disabled" or "error"; kept by LoadOneWellFormed and ReplaceStateWellFormed and used by OnlyHealthyPasses |
| Registry.RequireEnabled | volley-sense/apps/api/app/modules/manager.py:130-145 | 503 for an unknown, a disabled, an errored and a degraded module, in that order; an errored module's detail carries its last error text, or "unknown error" when there is none; all other modules pass |
| Registry.OnlyHealthyPasses | volley-sense/apps/api/app/modules/manager.py:130-145 | on consistent states a module passes the guard exactly when it is healthy |
| Registry.Check | volley-sense/apps/api/app/modules/manager.py:169-184 | a check stamps the time; a 200 with a truthy "ok" resets the failures, makes the module healthy and clears the error; anything else counts a failure, records `status <code>` or the exception text, and degrades from the third failure; an eligible, consistent module stays so |
| Registry.FailureText | volley-sense/apps/api/app/modules/manager.py:177-181 | defines `str(exc)` of a failed check: "status <code>" or the raised text; used by Check |
| Registry.Eligible | volley-sense/apps/api/app/modules/manager.py:167-168 | defines whether `refresh_health` checks a module: enabled, with a health endpoint, not in error; stated by RefreshSkipsIneligible |
| Registry.CheckAll | volley-sense/apps/api/app/modules/manager.py:169-184 | defines one module checked through a run of probes; stated by ConsecutiveFailures and DegradedStaysDegraded |
| Registry.ConsecutiveFailures | volley-sense/apps/api/app/modules/manager.py:179-184 | from a healthy module with k < 3 failures, n failed checks leave the counter at k + n, degraded exactly when k + n is at least three |
| Registry.DegradedStaysDegraded | volley-sense/apps/api/app/modules/manager.py:179-184 | further failed checks keep a degraded module degraded and keep counting |
| Registry.Refreshed | volley-sense/apps/api/app/modules/manager.py:162-168 | a refresh never adds or removes a module |
| Registry.RefreshOne | volley-sense/apps/api/app/modules/manager.py:165-168 | visiting one module never adds or removes a module |
| Registry.RefreshSkipsIneligible | volley-sense/apps/api/app/modules/manager.py:167-168 | a disabled, health-less or errored module is left exactly as it was, and no module changes its manifest or `enabled` flag |
| Registry.RefreshedStep | volley-sense/apps/api/app/modules/manager.py:165-184 | refreshing one more module is refreshing the shorter list and then that module |
| Registry.RefreshUntouched | volley-sense/apps/api/app/modules/manager.py:165 | a module not in the visited list is untouched |
| Registry.RefreshChecksOnce | volley-sense/apps/api/app/modules/manager.py:165-184 | an eligible module listed once is checked exactly once, with its own probe |
| Registry.Cleaned | volley-sense/apps/api/app/modules/manager.py:153-156 | `set_enabled` leaves the module healthy or disabled as asked, with no failures and no error, keeping its manifest and last check time |
| Registry.PayloadsOf | volley-sense/apps/api/app/modules/manager.py:127-128 | one payload per module, in the given order |
| Registry.Payload | volley-sense/apps/api/app/modules/manager.py:56-67 | defines `ModuleState.payload`: the manifest's id, name, version and optional flag with the state's fields; used by PayloadsOf |
| Registry.SavedConfigReadsBack | volley-sense/apps/api/app/modules/manager.py:157-159 | the config file written by `set_enabled` reads back with the new choice |
| Registry.ModuleRegistry.constructor | volley-sense/apps/api/app/modules/manager.py:71-74 | the registry starts empty, with no config path |
| Registry.ModuleRegistry.Load | volley-sense/apps/api/app/modules/manager.py:76-97 | the tables after `load` are those of loading the manifests one by one with the config read once; they stay well formed |
| Registry.ModuleRegistry.LoadManifest | volley-sense/apps/api/app/modules/manager.py:80-97 | one iteration of `load` replaces the id's manifest and state, placing a new id last in the dict order |
| Registry.ModuleRegistry.ListStatuses | volley-sense/apps/api/app/modules/manager.py:127-128 | one payload per module in dict order |
| Registry.ModuleRegistry.SetEnabled | volley-sense/apps/api/app/modules/manager.py:147-160 | 404 for an unknown module and 400 for disabling a core one, with nothing changed; otherwise the module is cleaned, its payload returned, and the config file (when there is a path) is what it held plus the new choice |
| Registry.ModuleRegistry.SaveChoice | volley-sense/apps/api/app/modules/manager.py:157-159 | the config file becomes its old entries plus the choice when there is a path, and is untouched otherwise |
| Registry.ModuleRegistry.RefreshHealth | volley-sense/apps/api/app/modules/manager.py:162-184 | after `refresh_health` the states are those of checking every eligible module once, in dict order, and the tables stay well formed |
| Registry.ModuleRegistry.CheckModule | volley-sense/apps/api/app/modules/manager.py:165-184 | one iteration checks the module when it is eligible and skips it otherwise |
| CoreVideo.CheckUpload | volley-sense/apps/api/app/modules/core_video/router.py:70-75 | an upload passes exactly when its lower-cased suffix is supported and any MIME guess starts with "video/"; the suffix is checked first, each refusal a 400 with the source's message |
| CoreVideo.UploadSuffix | volley-sense/apps/api/app/modules/core_video/router.py:70 | defines `Path(file.filename or "").suffix.lower()`; used by CheckUpload |
| CoreVideo.ResponseOf | volley-sense/apps/api/app/modules/core_video/router.py:80-87 | defines the response for a stored job: its fields without the history; used by JobTable.IngestVideo and JobTable.GetJob |
| CoreVideo.AcceptedUploadHasName | volley-sense/apps/api/app/modules/core_video/router.py:70-77 | an accepted upload always has a non-empty file name, so the "upload" fallback for the job's name is never used |
| CoreVideo.QueuedJob | volley-sense/apps/api/app/modules/core_video/router.py:77 | a new job is queued under its id with no URLs, no thumbnails and an empty history |
| CoreVideo.TranscodeTrace | volley-sense/apps/api/app/modules/core_video/router.py:39-60 | the transcode can be observed at six points, the first being the job as it was before the task began |
| CoreVideo.TranscodeLifecycle | volley-sense/apps/api/app/modules/core_video/router.py:39-60 | starting from a queued job the status goes queued, processing, complete; at the end the mezzanine and proxy URLs sit under `/media/<job id>/`, there are exactly the three numbered thumbnails, the history is the six step entries in order, every step only appends to the history, and id and name never change |
| CoreVideo.TranscodeStatuses | volley-sense/apps/api/app/modules/core_video/router.py:42-60 | the job is "processing" at every intermediate pause and "complete" at the end, keeping its id and name |
| CoreVideo.MediaUrlSplits | volley-sense/apps/api/app/modules/core_video/router.py:45 | a media URL is the job's `/media/<id>` prefix, a slash and the file name |
| CoreVideo.TranscodeUrls | volley-sense/apps/api/app/modules/core_video/router.py:45-49 | the final mezzanine and proxy URLs are `/media/<id>/mezzanine-1080p.mp4` and `/media/<id>/proxy-720p.mp4` |
| CoreVideo.TranscodeThumbnails | volley-sense/apps/api/app/modules/core_video/router.py:54-58 | the final job has three thumbnails, `/media/<id>/thumb-k.jpg` for k = 1, 2, 3 |
| CoreVideo.TranscodeHistoryGrows | volley-sense/apps/api/app/modules/core_video/router.py:43-59 | from an empty history the transcode ends with the six entries in order, each pause's history a prefix of the next |
| CoreVideo.Analyze | volley-sense/apps/api/app/modules/core_video/router.py:112-114 | `analyze` echoes the game id with status "started" |
| CoreVideo.JobTable.constructor | volley-sense/apps/api/app/modules/core_video/router.py:17 | `JOBS` starts empty |
| CoreVideo.JobTable.IngestVideo | volley-sense/apps/api/app/modules/core_video/router.py:68-87 | a refused upload returns its 400 and changes nothing; an accepted one stores a queued job under the new id, returns its description, and that job can then be looked up |
| CoreVideo.JobTable.SimulateTranscode | volley-sense/apps/api/app/modules/core_video/router.py:39-60 | an unknown job id raises KeyError with nothing changed; otherwise the job goes through each point of TranscodeTrace in turn and is stored in its final form, nothing else changing |
| CoreVideo.JobTable.GetJob | volley-sense/apps/api/app/modules/core_video/router.py:90-102 | 404 exactly for an unknown id; otherwise the stored job's id, status, name, URLs and thumbnails |
| VideoRoutes.UploadName | volley-sense/apps/api/app/routers/video.py:28 | the upload's name, or "upload.mp4" when there is none or it is empty |
| VideoRoutes.UrlStem | volley-sense/apps/api/app/routers/video.py:32 | the URL stem holds no space and is as long as the name's stem |
| VideoRoutes.IngestVideo | volley-sense/apps/api/app/routers/video.py:26-39 | 415 exactly when the lower-cased suffix is unsupported; otherwise a queued response echoing the name, with the 1080p30 and 720p30 transcode URLs and the three thumbnail URLs of the stem |
| VideoRoutes.ThumbnailsNumbered | volley-sense/apps/api/app/routers/video.py:37 | the thumbnail URLs are `/thumbnails/<stem>-1.jpg`, `-2.jpg` and `-3.jpg`, all different |
| VideoRoutes.Thumbnail | volley-sense/apps/api/app/routers/video.py:37 | defines the URL of the thumbnail numbered `index`; stated by ThumbnailsNumbered |
| VideoRoutes.PlainName | volley-sense/apps/api/app/routers/video.py:29-32 | a name made of a non-empty stem and one extension has that extension as its suffix and that stem as its stem |
| VideoRoutes.DefaultNameAccepted | volley-sense/apps/api/app/routers/video.py:28-32 | an upload without a name is taken as "upload.mp4", accepted, with URL stem "upload" |
| VideoRoutes.DefaultSuffixSupported | volley-sense/apps/api/app/routers/video.py:29-30 | the default name's suffix ".mp4" is supported |
| VideoRoutes.DefaultStem | volley-sense/apps/api/app/routers/video.py:32 | the default name's URL stem is "upload" |
| VideoRoutes.DefaultNameParts | volley-sense/apps/api/app/routers/video.py:28-32 | "upload.mp4" has suffix ".mp4" and stem "upload" |
| VideoRoutes.SuffixDecides | volley-sense/apps/api/app/routers/video.py:29-31 | an upload is accepted exactly when the lower-cased suffix of its name is supported |
| VideoRoutes.AnalyzeVideo | volley-sense/apps/api/app/routers/video.py:42-44 | `analyze_video` echoes the game id with status "started" |
| EventTrainer.DefinitionMap.constructor | volley-sense/apps/api/app/modules/event_trainer/router.py:15 | `_DEFINITIONS` starts with the two default definitions, each under its own id, in default order |
| EventTrainer.DefinitionMap.ListDefinitions | volley-sense/apps/api/app/modules/event_trainer/router.py:33-35 | the listing is the stored definitions in dict order |
| EventTrainer.DefinitionMap.UpsertDefinition | volley-sense/apps/api/app/modules/event_trainer/router.py:38-42 | the payload is stored under its id, replacing any earlier one and keeping that key's position; a new id goes last; nothing else changes; the definition is returned |
| EventTrainer.DefinitionMap.PreviewEvents | volley-sense/apps/api/app/modules/event_trainer/router.py:45-49 | the preview is allowed exactly for a stored definition id, and is 404 "Definition not found" otherwise |
| EventTrainer.ValuesOf | volley-sense/apps/api/app/modules/event_trainer/router.py:35 | one definition per key, in key order |
| EventTrainer.ListingIsTheStore | volley-sense/apps/api/app/modules/event_trainer/router.py:33-35 | the listing contains exactly the stored definitions, with as many entries as there are ids |
| EventTrainer.KeysAreOrder | volley-sense/apps/api/app/modules/event_trainer/router.py:15 | a duplicate-free key order listing exactly the keys has one entry per key |
| EventTrainer.UpsertThenList | volley-sense/apps/api/app/modules/event_trainer/router.py:38-49 | once a definition is stored it is listed, and previewing its id is allowed |
| TrainerDefinitions.FindDefinition | volley-sense/apps/api/app/routers/trainer.py:22-24 | nothing is found exactly when no entry has the id; otherwise the result is the first entry with that id |
| TrainerDefinitions.Upsert | volley-sense/apps/api/app/routers/trainer.py:26-29 | when the id is listed, every entry with that id becomes the new definition in place and the rest stay; otherwise the definition is appended |
| TrainerDefinitions.UpsertIdempotent | volley-sense/apps/api/app/routers/trainer.py:20-30 | saving the same definition twice gives the same list as saving it once, and afterwards looking up its id finds it |
| TrainerDefinitions.UpsertReplaces | volley-sense/apps/api/app/routers/trainer.py:26-27 | when the id is listed, the replacing comprehension's result is the upsert |
| TrainerDefinitions.ReplaceAll | volley-sense/apps/api/app/routers/trainer.py:27 | the comprehension keeps the length and replaces exactly the entries with the payload's id |
| TrainerDefinitions.DefinitionList.constructor | volley-sense/apps/api/app/routers/trainer.py:12 | `definitions_db` starts as the default definitions |
| TrainerDefinitions.DefinitionList.ListDefinitions | volley-sense/apps/api/app/routers/trainer.py:15-17 | the listing is the stored list itself |
| TrainerDefinitions.DefinitionList.SaveDefinition | volley-sense/apps/api/app/routers/trainer.py:20-30 | the list becomes the upsert of the definition, the definition is returned unchanged, and it is found under its id |
| MockData.DefaultDefinitions | volley-sense/apps/api/app/services/mock_data.py:40-59 | there are two defaults, "event-contact" then "event-injury", each stamped with its own clock reading |
| MockData.SeedConcat | volley-sense/apps/api/app/services/mock_data.py:62-64 | the seed of a concatenation is the sum of the seeds of its parts |
| MockData.Seed | volley-sense/apps/api/app/services/mock_data.py:63 | defines `sum(ord(char) for char in game_id)`; stated by SeedConcat, SeedPermutation and SeedRemoveAt |
| MockData.SeedPermutation | volley-sense/apps/api/app/services/mock_data.py:62-64 | two game ids with the same characters, in any order, give the same seed |
| MockData.MultisetRemoveAt | volley-sense/apps/api/app/services/mock_data.py:63 | deleting one character of a text deletes one occurrence from its character multiset |
| MockData.SeedRemoveAt | volley-sense/apps/api/app/services/mock_data.py:63 | deleting one character removes its code from the seed |
| MockData.Adjusted | volley-sense/apps/api/app/services/mock_data.py:87-95 | an adjusted player keeps jersey and name, and no statistic is negative |
| MockData.Clamp | volley-sense/apps/api/app/services/mock_data.py:91-94 | `max(0, x)` is at least 0 and at least x, and is one of them |
| MockData.AdjustmentTable | volley-sense/apps/api/app/services/mock_data.py:86-94 | for each modifier `randint(-1, 2)` draws, blocks move by -1, 0, 0, 1 and aces by -1, 0, 0, 0 under floor division; a statistic the shift keeps non-negative moves by exactly the shift |
| MockData.AdjustPlayers | volley-sense/apps/api/app/services/mock_data.py:84-97 | the result has one entry per player, the i-th being the i-th player adjusted by the i-th draw |
| MockData.GeneratePlayers | volley-sense/apps/api/app/services/mock_data.py:82-97 | four players, the seed players in order with their jerseys and names, none with a negative statistic, each adjusted by its draw |
| MockData.CsvRows | volley-sense/apps/api/app/services/mock_data.py:130-132 | the header row comes first, then one row per player, in order |
| MockData.BuildCsv | volley-sense/apps/api/app/services/mock_data.py:129-133 | the CSV is the header and the player rows joined by line breaks |
| MockData.JoinNoChar | volley-sense/apps/api/app/services/mock_data.py:132-133 | joining parts that do not contain a character, with a separator that does not contain it either, gives a text without it |
| MockData.RowHasNoNewline | volley-sense/apps/api/app/services/mock_data.py:132 | a row has no line break when the player's name has none |
| MockData.RowNotEmpty | volley-sense/apps/api/app/services/mock_data.py:132 | a row is never empty |
| MockData.CsvRow | volley-sense/apps/api/app/services/mock_data.py:132 | defines one CSV row: the six fields joined by commas; stated by RowHasNoNewline and RowNotEmpty |
| MockData.RowsHaveNoNewline | volley-sense/apps/api/app/services/mock_data.py:130-132 | no row has a line break when no name has one |
| MockData.CsvLines | volley-sense/apps/api/app/services/mock_data.py:129-133 | when no name holds a line break, splitting the CSV at line breaks gives back exactly the header and the rows: one more line than players, the last one not empty |

## Left out

- Concurrency is not modelled: asyncio tasks and locks, the worker's `_tasks` registry with `register_task` and `is_job_running`, the module health tasks with `startup`/`shutdown`, and the log buffer's RLock. Each operation is one atomic step, and `call_soon_threadsafe` delivery to a subscriber queue is synchronous.
- What `handleError` itself does (printing the failure to stderr) is not modelled: `Emit` reports only whether it is called.
- SSE streaming and its keepalive loop, and `download_logs`: these are transport plumbing. Only the frame text `_format_sse` is modelled.
- JSON encoding and decoding are opaque parameters (`dumps`, parsed documents), not a JSON implementation. This covers `json.dumps` in the handler and the predicate, the JSONL lines of annotations, and the module config files.
- Pydantic validation is reduced to the constraints the routes rely on (point counts, template id, required fields). Pydantic's own error texts are not reproduced.
- Random draws are inputs: `generate_players` receives each player's modifier. `generate_events`, `generate_preview`, `explain_event` and `generate_overlay` are not modelled, and neither are the preview events of the event trainer beyond its membership check, since their output is random jitter.
- `datetime.now`, `uuid4` and UUID parsing are parameters: the rendered timestamp, the fresh id, and whether an id parses as a UUID.
- `mimetypes.guess_type` is a parameter (the guessed type).
- Health probes over httpx are given results: a status code with an "ok" flag, or an exception text. The five-second timeout and the wait between probes are not modelled; only the interval computation is.
- The ffmpeg and ffprobe command lines (the argv lists, including the GPU flags) are not modelled. Each command is its return code and stderr lines. File writes such as the keyframes file are assumed to succeed.
- Filesystem failures other than the ones routed to an error (the upload write's 500) are not modelled. Disk is a map from path to contents.
- The upload write is atomic in the model: either the whole file is saved or nothing is. A partial file left on disk when a write fails part-way (backend/app/routers/ingest.py:178-183 opens it with "wb" before copying chunks) is not modelled.
- Case mapping is ASCII-only: Python's full Unicode `lower()` and `upper()` are not modelled. `strip()` and `isspace()` do follow Python's whitespace set (`Text.IsSpace`).
- Floating-point values are reals (thresholds, calibration points) or integer hundredths (`PROGRESS_MAP`). Rounding is not modelled.
- The homography computation (`compute_h`, `invert_h`, `apply_h` over numpy and OpenCV) is an opaque function. Its only assumption is one output point per input point. `compute_h` failing is one error result turned into a 400 with its text; the ValueError and ValidationError cases are not told apart, and any other exception it might raise is not modelled.
- Python's `1 == 1.0 == True` equality between numbers and booleans in `tail`'s filters is not modelled; values of different kinds never compare equal. Iterable filter values are lists, tuples, sets and dicts (matched against the keys); other iterables such as generators are not modelled.
- Aliasing of the upload store's payload copies is not modelled, since payloads are values. `_store_status` returning an independent copy is therefore automatic, not proved.
- Config values of loader.py's modules.json are booleans. Non-boolean `enabled` values are not modelled.
- The calibration document is the record the model saves. Arbitrary JSON on disk is not modelled.
- LogBuffer.LogBuffer.Tail: it has no contract of its own; it reads the buffer through `TailOf`, whose lemmas (`SelectIsSubsequence`, `TailWithPositiveLimit`, `TailWithoutUsefulLimit`) carry the properties.
- App wiring is not modelled because it holds no logic of its own: both `main.py` files, `config.py`, the routers that only return canned content (insights, screensnap, stats, events, exports, overlays, timeline), the PDF and ZIP builders and `data.py`.

## Findings

| source | as written | input that shows it | evidently intended | confidence | as-written member | corrected member |
|---|---|---|---|---|---|---|
| backend/app/routers/logs.py:36, 63 | the predicate treats `source=""` as no filter, but `read_logs` also passes `{"source": ""}` to `tail`, whose filter then demands an entry source equal to "" | one buffered entry with source "app" and the query `?source=`: the predicate accepts it, yet the page is empty | an empty source means no source filter, as for level and search | not executed | `Logs.EmptySourceDropsEntries` | `Logs.ReadLogsIntendedUnfiltered` (with `Logs.IntendedFiltersAreRedundant`) |
