# Video combiner, modelled in Dafny

The video combiner is a batch job. It reads a job queue kept in a spreadsheet
worksheet named `JobQueue`. It picks the rows whose status is `pending` or
`new`, in any letter case. It drives each job through these steps:
- mark it `processing`;
- list the videos of the job's source folder on the storage service, dropping
  files of 100 MB or more;
- draw a random subset of at most `MaxVideos` of them and download it;
- keep, in order, the clips that fit the `MaxDuration` budget, join them and
  write the result;
- upload the combined video to the output folder and delete the local files;
- write `completed` (with the count and the link) or `failed` (with the
  error text) back to the first row with the job's id.

The model has one module per source file, plus two small support modules:

- `Wrappers`: `Option`.
- `Cells`: cell values (text or whole numbers) and the Python conversions the
  code applies to them: `int(x)`, `str(x)` and ASCII `lower()`.
- `Config` (`src/config.py`):
  - the policy constants;
  - job validation;
  - the timestamped output name;
  - the run counters, as class `Metrics`.
- `Sheets` (`src/google_sheets.py`): the worksheet as class `JobQueueSheet`.
  - It holds the data rows, each a map from column name to cell, and whether
    the worksheet can be opened.
  - Its methods read the pending jobs, write a job's status and append a job.
  - Pure functions specify each method, with lemmas about them.
- `VideoProcessing` (`src/video_processor.py`):
  - the size filter;
  - the clip scan `Scan`, the duration-budget selection as a left fold;
  - the outcome of one job as a function, `Outcome`;
  - class `VideoProcessor`, which owns the scratch directory. Its methods
    `CombineVideos`, `CleanupTempFiles` and `ProcessJob` are loops proved
    against those functions.
- `Runner` (`src/main.py`): the batch run.
  - It returns how the run ended and the trace of status writes.
  - It proves that the worksheet ends as the fold of those writes.
  - It proves that the first row carrying each job's id ends `completed` or
    `failed` according to its result when the pending jobs' ids are distinct,
    and that the job's own row does when ids are unique across the worksheet.
    When an older row shares the id, the writes land there and the job stays
    `pending`.

The storage service and the media library are not modelled. What they do for
one job is a `Collaborators` value:
- the folder listing, or its failure;
- which downloads fail;
- what each local file opens as;
- whether writing the output works;
- the upload link;
- which deletions fail.

The random draw is a nondeterministic choice of distinct positions (`:|`). The
clock readings are parameters.

Some settings and comments in the repository promise more than its code does;
the model follows the code:
- `StorageConfig.CLEANUP_AFTER_PROCESS = True` (`src/config.py:42`) suggests
  that local files are always removed. The code deletes them only after a
  successful upload (`src/video_processor.py:226-234`), so a failed job leaves
  its downloads (and a written output) in the scratch directory.
- The `# Cleanup` that closes the clips (`src/video_processor.py:147-150`)
  runs only after the output was written. When writing fails, the opened clips
  are not released; the `released` result of `CombineVideos` records this.
- `validate_job_config` (`src/config.py:111`) is never called by the runner,
  and `GitHubActionsConfig.MAX_RUN_TIME` (`src/config.py:71`) is never
  checked: the run has no time budget.
- The `# Status column`, `# Message column` and `# OutputURL column` comments
  (`src/google_sheets.py:64-67`) name columns, but the code writes by position
  (3, 4, 5), while the pending jobs are read by column name.

## Model

| member | source | states |
|---|---|---|
| Cells.NatText | src/main.py:80 | the decimal text of a count is non-empty, all digits and has no leading zero |
| Cells.NatTextValue | src/main.py:80 | reading the decimal text of a natural number back gives the number |
| Cells.IntText | src/main.py:80 | `str(i)` of a Python int: a minus sign before the digits of a negative number; its partner is IntTextRoundTrip |
| Cells.ParseInt | src/google_sheets.py:43-44 | `int(s)` on text: an optional sign and at least one decimal digit, anything else raises (None) |
| Cells.IntOf | src/google_sheets.py:43-44 | `int(v)` on a cell: a number is itself, text is parsed |
| Cells.IntTextRoundTrip | src/google_sheets.py:43-44 | `int(str(i)) == i` for every integer, negative ones included |
| Cells.Lower | src/google_sheets.py:38 | `lower()` keeps the length and lowers each ASCII capital, character by character; its properties are LowerIsLowerCase and LowerMatches |
| Cells.UpperChar | src/google_sheets.py:38 | the capital of an ASCII small letter, defined by the distance between the alphabets rather than through `LowerChar`; other characters are kept |
| Cells.SameUpToCase | src/google_sheets.py:38 | `s` spells the lower-case text `t` with each letter in either case |
| Cells.LowerIsLowerCase | src/google_sheets.py:38 | no ASCII capital is left in `s.lower()`, and lowering twice gives the same text as lowering once |
| Cells.LowerMatches | src/google_sheets.py:38 | for a lower-case `t`, `s.lower() == t` iff `s` is `t` with each letter in either case |
| Config.ValidateJobConfig | src/config.py:111-123 | the video-count error is reported iff the limit (default 3) exceeds 5; the duration error iff the limit (default 300) exceeds 600; no error iff both are within the caps; when both are reported, the video-count error comes first |
| Config.OutputFilename | src/config.py:125-128 | the name starts with `combined_`, ends with the extension and has the length of its parts |
| Config.OutputFilenameRoundTrip | src/config.py:125-128 | the job id can be recovered from the output name, given the timestamp and the extension |
| Config.OutputFilenameInjective | src/config.py:125-128 | two jobs named at the same timestamp never get the same output name |
| Config.Metrics.constructor | src/config.py:144-148 | all four counters start at zero |
| Config.Metrics.Reset | src/config.py:150-155 | every counter is zero afterwards |
| Sheets.FirstIndex | src/google_sheets.py:45 | `records.index(record)` is the position of the first record equal to it |
| Sheets.JobAt | src/google_sheets.py:39-46 | a pending record gives a job exactly when both limits parse; the id and the folders are copied; a present limit is `int()` of its cell and an absent column takes 3 or 300 (a blank cell does not: see BlankLimitFailsRead); the row index names the first sheet row holding an identical record, so it is at most the record's own row |
| Sheets.StatusText | src/google_sheets.py:38 | `record.get('Status', '').lower()`: an absent Status reads as empty text, text is lowered, and a number gives no value because `lower()` raises on it |
| Sheets.IsPending | src/google_sheets.py:38 | the lowered status is `pending` or `new`; PendingInAnyCase states it in terms of the cell itself |
| Sheets.IntFieldOr | src/google_sheets.py:43-44 | `int(record.get(key, default))`: the default only for an absent column, otherwise `int()` of the cell, with no value where `int()` raises |
| Sheets.Readable | src/google_sheets.py:38-46 | a record is read without raising when its Status is not a number and, if it is pending, both its limits parse |
| Sheets.PendingInAnyCase | src/google_sheets.py:38 | a record is picked iff its Status cell is text spelling `pending` or `new` with each letter in either case |
| Sheets.NumericStatusFailsRead | src/google_sheets.py:38 | a numeric Status cell on any record, pending or not, makes the whole read raise, so no job is read |
| Sheets.BlankLimitFailsRead | src/google_sheets.py:43-44 | a blank MaxVideos or MaxDuration cell on a pending record makes the whole read raise, as `int('')` does |
| Sheets.PendingRows | src/google_sheets.py:37-38 | the pending positions are exactly the records whose lower-cased status is `pending` or `new`, in increasing order |
| Sheets.PendingPrefix | src/google_sheets.py:36-47 | the read loop over the first n records as a left fold: a record that raises fails the whole read, a pending one adds its job |
| Sheets.PendingJobs | src/google_sheets.py:30-53 | the read over the whole worksheet; its properties are PendingJobsIsFilter and PendingFailureSticks |
| Sheets.PendingPrefixIsFilter | src/google_sheets.py:36-49 | reading succeeds iff every record is readable, and then gives one job per pending record, in sheet order |
| Sheets.PendingJobsIsFilter | src/google_sheets.py:30-49 | the same for the whole worksheet |
| Sheets.PendingFailureSticks | src/google_sheets.py:32-53 | once one record raises, reading the queue fails as a whole |
| Sheets.FindRow | src/google_sheets.py:61-62 | the row found is the first whose JobID equals the id; none is found only when no row carries the id |
| Sheets.Overwrite | src/google_sheets.py:63-67 | the row after columns 3 and 4, and column 5 when the link is non-empty, are written; its property is OverwriteFields |
| Sheets.StatusUpdated | src/google_sheets.py:55-73 | the worksheet after a status update of the first row with the id; its properties are StatusUpdateEffect and StatusUpdateKeepsIds |
| Sheets.OverwriteFields | src/google_sheets.py:63-67 | a write sets Status and Message, sets OutputURL only when the link is non-empty, and leaves every other cell as it was |
| Sheets.SameIdsSameRows | src/google_sheets.py:61-62 | looking up a row depends only on the rows' job ids |
| Sheets.StatusUpdateKeepsIds | src/google_sheets.py:61-70 | a status update keeps every job on the row it was found on, and leaves the row found for any other id unchanged |
| Sheets.StatusUpdateEffect | src/google_sheets.py:55-73 | only the first row with the id changes, in the three written cells; a missing id changes nothing |
| Sheets.JobRowFound | src/google_sheets.py:45 | when no other record carries the job's id, the row index is the record's own row and the status update finds exactly that row |
| Sheets.NewJobRow | src/google_sheets.py:87-97 | the nine cells of a new job, in column order |
| Sheets.RecordOf | src/google_sheets.py:34 | a row read back as a record under the header; cells past the row's end read as empty |
| Sheets.NewJobRecordFields | src/google_sheets.py:87-99 | the appended row reads back under the header with the new id, `pending`, `Waiting for processing`, an empty link and the given folders and limits |
| Sheets.JobQueueSheet.constructor | src/google_sheets.py:8-10 | the manager starts on the given worksheet contents |
| Sheets.JobQueueSheet.GetPendingJobs | src/google_sheets.py:30-53 | the loop returns the filtered pending jobs, or an empty list when the worksheet cannot be opened or a record raises |
| Sheets.JobQueueSheet.UpdateCell | src/google_sheets.py:64-67 | one cell of one data row changes and nothing else does |
| Sheets.JobQueueSheet.UpdateJobStatus | src/google_sheets.py:55-77 | the result is true iff the worksheet opens and a row has the id; the worksheet becomes the status-updated one, or stays unchanged |
| Sheets.JobQueueSheet.CreateJob | src/google_sheets.py:79-105 | the id is `job_` followed by the timestamp; one row is appended; the result is None with nothing appended when the worksheet cannot be opened |
| Sheets.FirstIndexExtended | src/google_sheets.py:45 | appending rows does not move the first copy of a record |
| Sheets.PendingPrefixExtended | src/google_sheets.py:37-47 | reading earlier rows does not depend on rows appended later |
| Sheets.CreatedJobIsPending | src/google_sheets.py:85-99 | a created job is the last pending job of the next read, with its limits and its own row number |
| VideoProcessing.WithinSizeLimit | src/video_processor.py:42-45 | the size filter never adds entries |
| VideoProcessing.WithinSizeLimitMembers | src/video_processor.py:42-45 | an entry is kept iff it is listed and its size (0 when missing) is under 100 MB |
| VideoProcessing.WithinSizeLimitAppend | src/video_processor.py:42-45 | the filter works entry by entry and keeps the listing order |
| VideoProcessing.VideosFromFolder | src/video_processor.py:29-52 | a failed listing gives no videos; otherwise exactly the listed videos under the ceiling |
| VideoProcessing.Consider | src/video_processor.py:106-122 | one turn of the clip loop: nothing after the stop, an unreadable clip is skipped, a clip that would exceed the budget is skipped, otherwise it is added and the scan stops once the total reaches the budget |
| VideoProcessing.Scan | src/video_processor.py:106-122 | the clip loop as a left fold of Consider; its properties are ScanOrdered, ScanBudget, ScanIncludes, ScanStaysStopped and ScanExtends |
| VideoProcessing.ScanOrdered | src/video_processor.py:106-118 | the chosen positions are increasing, in range, and each names a clip that opened |
| VideoProcessing.ScanBudget | src/video_processor.py:104-122 | the total is the summed duration of the chosen clips; the scan stops iff a clip brings the total to the budget; a non-empty choice never exceeds the budget |
| VideoProcessing.ScanStaysStopped | src/video_processor.py:120-122 | once the budget is reached, later clips change nothing |
| VideoProcessing.ScanExtends | src/video_processor.py:106-122 | what is chosen from a prefix is a prefix of the final choice, and later choices lie beyond that prefix |
| VideoProcessing.ScanIncludes | src/video_processor.py:106-122 | clip i is chosen iff, at its turn, the scan has not stopped, the clip opens, and adding it keeps the total within the budget |
| VideoProcessing.ScanExample | src/video_processor.py:106-122 | durations 120, 50, 200, 10 under a budget of 150 choose the first and the last, 130 seconds in all |
| VideoProcessing.Downloaded | src/video_processor.py:188-192 | no more paths than videos drawn |
| VideoProcessing.DownloadedAppend | src/video_processor.py:188-192 | downloading works entry by entry, in draw order |
| VideoProcessing.DownloadedSingle | src/video_processor.py:190-192 | one drawn entry yields its local path iff its download succeeds |
| VideoProcessing.DownloadedInDir | src/video_processor.py:57 | every downloaded file lies in the scratch directory |
| VideoProcessing.OutputName | src/video_processor.py:202 | `combined_` followed by `str()` of the job id (`None` when absent) and `.mp4` |
| VideoProcessing.Outcome | src/video_processor.py:159-248 | the result of a job for a draw: no videos, a rejected sample size, no downloads, nothing combined, a failed upload, or success with the count and the link, in that order; its properties are OutcomeReport and CombinedWithinBudget |
| VideoProcessing.OutcomeReport | src/video_processor.py:159-248 | only a success carries a link, and then no error text; failures before the upload report zero videos; a failed upload and a success report between 1 and the number drawn |
| VideoProcessing.CombinedWithinBudget | src/video_processor.py:205-217 | a successful job combined a non-empty choice whose total is within its duration budget |
| VideoProcessing.ScratchAfter | src/video_processor.py:187-234 | the scratch directory after a job: downloads are added, the output once written, and all of them are deleted, except undeletable ones, only on success; its properties are ScratchCleanup and ScratchAfterInDir |
| VideoProcessing.ScratchCleanup | src/video_processor.py:233-234 | a failed job removes no local file; after a success, every file the job created is gone unless its deletion failed |
| VideoProcessing.ScratchAfterInDir | src/video_processor.py:187-234 | every file a job adds to the scratch directory lies inside it |
| VideoProcessing.VideoProcessor.constructor | src/video_processor.py:13-15 | the scratch directory starts empty |
| VideoProcessing.VideoProcessor.CombineVideos | src/video_processor.py:97-157 | the loop chooses exactly the scan's positions; it succeeds iff something was chosen and the write works; it stops opening clips just after the budget is reached |
| VideoProcessing.VideoProcessor.CleanupTempFiles | src/video_processor.py:250-257 | every listed path is deleted except those whose deletion fails; nothing else changes |
| VideoProcessing.VideoProcessor.ProcessJob | src/video_processor.py:159-248 | the draw is a sample of min(MaxVideos, n) distinct videos; the result is the job's outcome for that draw; the scratch directory ends as that outcome leaves it |
| Runner.ClaimWrite | src/main.py:71 | the claim: `processing` with `Downloading videos...` and no link |
| Runner.TerminalWrite | src/main.py:76-90 | the outcome write: `completed` with the count message and the link on success, `failed` with the error text otherwise; its properties are BatchWritesShape and SuccessMessageCount |
| Runner.SuccessMessageCount | src/main.py:80 | the count in a success message reads back with `int()` as the number of videos processed |
| Runner.Applied | src/main.py:66-91 | the worksheet after a sequence of status writes, applied in order |
| Runner.BatchWrites | src/main.py:66-91 | a batch issues exactly two status writes per job |
| Runner.Successes | src/main.py:65-83 | the success count never exceeds the number of jobs |
| Runner.BatchWritesShape | src/main.py:66-91 | write 2k claims job k as `processing`; write 2k+1 is `completed`, with the count and the link, iff job k succeeded, and `failed`, with its error text, otherwise |
| Runner.BatchStatuses | src/main.py:71-90 | every status written is in the status domain, and `cancelled` is never written |
| Runner.AppliedKeepsRows | src/main.py:66-91 | after any sequence of writes, every job is still found on its row |
| Runner.BatchFinalStatus | src/main.py:66-91 | with distinct ids among the pending jobs, the first row carrying each job's id (where the writes go) ends `completed` if the job succeeded and `failed` if not |
| Runner.BatchFinalStatusOwnRow | src/main.py:66-91 | when no two records share a job id, each pending job's own row (its row index) ends `completed` or `failed` according to its result |
| Runner.DuplicateIdPending | src/google_sheets.py:30-49 | a worksheet with an older completed row and a queued row of the same id reads as one pending job on sheet row 3 |
| Runner.DuplicateIdRerun | src/google_sheets.py:30-73 | for that worksheet the batch sets the older row's Status to `completed` or `failed` by the job's result, leaves the queued row unchanged and `pending`, and the next read returns the same job again |
| Runner.ScratchAfterBatch | src/main.py:66-91 | the scratch directory after the first jobs of a batch, as a fold of ScratchAfter over their draws |
| Runner.BatchScratchInDir | src/main.py:66-91 | every file a batch adds lies in the processor's scratch directory |
| Runner.BatchScratchKeepsFailures | src/main.py:66-91 | a batch in which no job succeeds deletes no file |
| Runner.RunJob | src/main.py:67-91 | one job is claimed, processed and settled, with the link only on success; the result is the job's outcome for the draw, and the scratch directory ends as ScratchAfter |
| Runner.ProcessAll | src/main.py:64-91 | the loop returns the success count, the writes issued, and the worksheet as the fold of those writes; every result is its job's outcome for its draw; the scratch directory ends as ScratchAfterBatch |
| Runner.RunBatch | src/main.py:38-97 | a missing spreadsheet id, missing credentials or a client that fails to start end the run before the queue is read; when no job is read, nothing is written, the worksheet and the scratch directory are unchanged and there are no results or draws; otherwise every pending job is run, in order, the run reports successes out of the total, and the worksheet and scratch directory end as the folds of the batch |

## Left out

- Google API clients, authentication, scopes and logging are not modelled. Starting either client can fail (`src/google_sheets.py:12-28`, `src/video_processor.py:18-27`); the run's `startupError` parameter stands for the error raised, whose text comes from those libraries.
- Download, upload and the media library are not modelled; their effects are inputs. A failed download that leaves an empty local file behind is not modelled.
- The size filter hardcodes `100 * 1024 * 1024` (`src/video_processor.py:44`); the model derives `MaxVideoBytes` from `MAX_VIDEO_SIZE_MB` (`src/config.py:27`), which gives the same value.
- The listing's page size of 20 entries is not modelled; the listing is an input.
- `os.path.join` is modelled as `dir + "/" + name`. Names that are absolute paths or contain separators are not modelled.
- Python `int()` is modelled on text as an optional sign followed by ASCII decimal digits. Surrounding whitespace, underscores, non-ASCII decimal digits (such as Arabic-Indic digits, which `int()` accepts and `ParseInt` rejects), floating-point cells and `bool` cells are not modelled.
- The worksheet does not turn written numeric-looking text back into numbers.
- `str.lower()` is modelled on ASCII letters only.
- The per-job `except` branch of the runner (`src/main.py:93-95`) cannot be reached in the model. `process_job` and `update_job_status` catch every error themselves, and the model has no other source of exceptions there.
- The random draw is a nondeterministic choice of distinct positions. Its distribution is not modelled.
- The static configuration classes (`VideoConfig`, `StorageConfig`, `GitHubActionsConfig`, `PerformanceConfig`, `DEFAULT_JOB_CONFIG`) are not modelled beyond the constants the model uses. Neither are `setup_logging`, `get_spreadsheet_id`, `should_process_jobs` or `Metrics.print_summary`. They are logging or environment glue, or unused by the core.
- The temporary credentials file written at start-up and deleted at the end (`src/main.py:25-36`, `src/main.py:103-107`) is not modelled.
- The column layout is assumed: columns 3, 4 and 5 are identified with Status, Message and OutputURL of the configured header. The code writes by position.
- BatchFinalStatus: speaks of the first row carrying each job's id, because `update_job_status` writes there and ignores the row index read at `src/google_sheets.py:45`. When an older record shares the id, the job's own row stays `pending` and is read again by every run; DuplicateIdRerun proves this for a two-row worksheet, and BatchFinalStatusOwnRow states the own-row result when ids are unique across the worksheet. Both hold only because every status write after the first read reaches the worksheet; failed or partial writes are not modelled (see RunJob).
- RunJob: whether the worksheet can be opened is fixed for the whole run (`reachable`). A status write that fails after the first read (`src/google_sheets.py:75-77`), possibly after writing only column 3, is not modelled; main ignores the return value at `src/main.py:71`, `src/main.py:77` and `src/main.py:86`.
- ProcessAll: the worksheet ends as the fold of all status writes only because every write after the first read reaches the worksheet; failing writes are not modelled (see RunJob).
- RunBatch: a worksheet that cannot be opened at the first read is reported as no pending jobs, as `get_pending_jobs` does; a worksheet that becomes unreachable during the run is not modelled (see RunJob).
