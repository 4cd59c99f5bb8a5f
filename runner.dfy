/**
 * The batch entry point: check the configuration, read the pending jobs, and
 * drive each one, in queue order, from `processing` to `completed` or `failed`.
 */
module Runner {
  import opened Wrappers
  import opened Cells
  import opened Sheets
  import opened VideoProcessing
  import Config

  /** One call that writes a job's status into the queue. */
  datatype StatusWrite = StatusWrite(jobId: Option<Value>, status: string, message: string, outputUrl: string)

  /** How a batch run ends. */
  datatype RunOutcome =
    | MissingSpreadsheetId          // returned before touching the queue
    | Aborted(error: string)        // a start-up error, raised to the caller
    | NoPendingJobs
    | Finished(successful: nat, total: nat)

  const ProcessingMessage: string := "Downloading videos..."
  const MissingCredentials: string := "CREDENTIALS_JSON environment variable not set"

  /** An environment variable that is set and non-empty. */
  predicate Present(variable: Option<string>) {
    variable.Some? && variable.value != ""
  }

  /** The write that claims a job before it is processed. */
  function ClaimWrite(job: Job): StatusWrite {
    StatusWrite(job.jobId, "processing", ProcessingMessage, "")
  }

  /** The write that records a job's outcome. */
  function TerminalWrite(job: Job, result: JobResult): StatusWrite {
    if result.success then
      StatusWrite(job.jobId, "completed",
                  "Successfully processed " + IntText(result.videosProcessed) + " videos",
                  result.outputUrl.GetOr(""))
    else StatusWrite(job.jobId, "failed", result.errorMessage.GetOr(""), "")
  }

  /** The writes of a batch: for each job in order, its claim and then its outcome. */
  function BatchWrites(jobs: seq<Job>, results: seq<JobResult>): (writes: seq<StatusWrite>)
    requires |results| == |jobs|
    ensures |writes| == 2 * |jobs|
  {
    if jobs == [] then []
    else
      var n := |jobs| - 1;
      BatchWrites(jobs[..n], results[..n]) + [ClaimWrite(jobs[n]), TerminalWrite(jobs[n], results[n])]
  }

  /** The number of successful results. */
  function Successes(results: seq<JobResult>): (count: nat)
    ensures count <= |results|
  {
    if results == [] then 0
    else Successes(results[..|results| - 1]) + (if results[|results| - 1].success then 1 else 0)
  }

  /** The worksheet after the writes, in order. */
  function Applied(rs: seq<Record>, writes: seq<StatusWrite>): seq<Record> {
    if writes == [] then rs
    else
      var w := writes[|writes| - 1];
      StatusUpdated(Applied(rs, writes[..|writes| - 1]), w.jobId, w.status, w.message, w.outputUrl)
  }

  /**
   * Job k of a batch is claimed by write 2k and settled by write 2k + 1; the
   * settling write is `completed`, with the count and the link, exactly when
   * the job succeeded, and `failed` with its error text otherwise.
   */
  lemma {:induction false} BatchWritesShape(jobs: seq<Job>, results: seq<JobResult>, k: nat)
    requires |results| == |jobs| && k < |jobs|
    ensures var writes := BatchWrites(jobs, results);
      && writes[2 * k] == StatusWrite(jobs[k].jobId, "processing", ProcessingMessage, "")
      && writes[2 * k + 1].jobId == jobs[k].jobId
      && (writes[2 * k + 1].status == "completed" <==> results[k].success)
      && (writes[2 * k + 1].status == "failed" <==> !results[k].success)
      && (results[k].success ==>
            writes[2 * k + 1].message == "Successfully processed " + IntText(results[k].videosProcessed) + " videos"
            && writes[2 * k + 1].outputUrl == results[k].outputUrl.GetOr(""))
      && (!results[k].success ==> writes[2 * k + 1].message == results[k].errorMessage.GetOr(""))
  {
    var n := |jobs| - 1;
    if k < n {
      BatchWritesShape(jobs[..n], results[..n], k);
    }
  }

  /** The runner writes only statuses of the status domain, and never `cancelled`. */
  lemma {:induction false} BatchStatuses(jobs: seq<Job>, results: seq<JobResult>)
    requires |results| == |jobs|
    ensures forall w :: w in BatchWrites(jobs, results) ==>
      w.status in Config.StatusValues && w.status != "cancelled"
  {
    if jobs != [] {
      var n := |jobs| - 1;
      BatchStatuses(jobs[..n], results[..n]);
    }
  }

  lemma {:induction false} AppliedKeepsRows(rs: seq<Record>, writes: seq<StatusWrite>, id: Option<Value>)
    ensures |Applied(rs, writes)| == |rs|
    ensures FindRow(Applied(rs, writes), id) == FindRow(rs, id)
  {
    if writes != [] {
      AppliedKeepsRows(rs, writes[..|writes| - 1], id);
      var w := writes[|writes| - 1];
      StatusUpdateKeepsIds(Applied(rs, writes[..|writes| - 1]), w.jobId, w.status, w.message, w.outputUrl, id);
    }
  }

  predicate DistinctIds(jobs: seq<Job>) {
    forall i, j :: 0 <= i < j < |jobs| ==> jobs[i].jobId != jobs[j].jobId
  }

  /**
   * After a batch over jobs with distinct ids, the row of each job that the
   * queue still holds carries that job's final status: `completed` when it
   * succeeded and `failed` otherwise.
   */
  lemma {:induction false} BatchFinalStatus(rs: seq<Record>, jobs: seq<Job>, results: seq<JobResult>, k: nat)
    requires |results| == |jobs| && k < |jobs| && DistinctIds(jobs)
    requires FindRow(rs, jobs[k].jobId).Some?
    ensures var after := Applied(rs, BatchWrites(jobs, results));
      var row := FindRow(rs, jobs[k].jobId).value;
      row < |after| &&
      Field(after[row], "Status") == Some(Str(if results[k].success then "completed" else "failed"))
  {
    var n := |jobs| - 1;
    var id := jobs[k].jobId;
    var earlier := BatchWrites(jobs[..n], results[..n]);
    var claim := ClaimWrite(jobs[n]);
    var settle := TerminalWrite(jobs[n], results[n]);
    assert BatchWrites(jobs, results) == earlier + [claim, settle];
    AppliedTwo(rs, earlier, claim, settle);
    var mid := Applied(rs, earlier);
    var claimed := StatusUpdated(mid, claim.jobId, claim.status, claim.message, claim.outputUrl);
    AppliedKeepsRows(rs, earlier, id);
    StatusUpdateKeepsIds(mid, claim.jobId, claim.status, claim.message, claim.outputUrl, id);
    if k == n {
      StatusUpdateEffect(claimed, id, settle.status, settle.message, settle.outputUrl);
    } else {
      assert jobs[..n][k] == jobs[k] && results[..n][k] == results[k];
      assert jobs[n].jobId != id;
      BatchFinalStatus(rs, jobs[..n], results[..n], k);
      StatusUpdateKeepsIds(claimed, settle.jobId, settle.status, settle.message, settle.outputUrl, id);
    }
  }

  /**
   * When no two records of the worksheet share a job id, each pending job's own
   * row (the one its row index names) ends `completed` or `failed` according to
   * its result.
   */
  lemma BatchFinalStatusOwnRow(rs: seq<Record>, results: seq<JobResult>, i: nat)
    requires PendingJobs(rs).Some? && |results| == |PendingJobs(rs).value| && i < |results|
    requires forall a, b :: 0 <= a < b < |rs| ==> JobIdOf(rs[a]) != JobIdOf(rs[b])
    ensures var jobs := PendingJobs(rs).value;
      var after := Applied(rs, BatchWrites(jobs, results));
      var row := jobs[i].rowIndex - 2;
      0 <= row < |after| &&
      Field(after[row], "Status") == Some(Str(if results[i].success then "completed" else "failed"))
  {
    var jobs := PendingJobs(rs).value;
    UniqueIdsPendingRows(rs, i);
    BatchFinalStatus(rs, jobs, results, i);
  }

  /** With ids unique across the worksheet, the pending jobs have distinct ids and each is found on its own row. */
  lemma UniqueIdsPendingRows(rs: seq<Record>, i: nat)
    requires PendingJobs(rs).Some? && i < |PendingJobs(rs).value|
    requires forall a, b :: 0 <= a < b < |rs| ==> JobIdOf(rs[a]) != JobIdOf(rs[b])
    ensures DistinctIds(PendingJobs(rs).value)
    ensures var job := PendingJobs(rs).value[i];
      FindRow(rs, job.jobId) == Some(job.rowIndex - 2)
  {
    var jobs := PendingJobs(rs).value;
    PendingJobsIsFilter(rs);
    var rows := PendingRows(rs, |rs|);
    assert JobAt(rs, rows[i]) == Some(jobs[i]);
    JobRowFound(rs, rows[i]);
    forall a, b | 0 <= a < b < |jobs|
      ensures jobs[a].jobId != jobs[b].jobId
    {
      assert JobAt(rs, rows[a]) == Some(jobs[a]) && JobAt(rs, rows[b]) == Some(jobs[b]);
      assert rows[a] < rows[b];
    }
  }

  /** Two records with job id `a`: an older completed one, then a queued one. */
  function DuplicateIdSheet(): seq<Record> {
    [map["JobID" := Str("a"), "Status" := Str("completed")], map["JobID" := Str("a"), "Status" := Str("pending")]]
  }

  /** The queued job of that worksheet: its second row, sheet row 3. */
  function QueuedJob(): Job {
    Job(Some(Str("a")), None, None, DefaultMaxVideos, DefaultMaxDuration, 3)
  }

  /**
   * A two-row worksheet whose first row is settled and whose second row is the
   * queued record of `DuplicateIdSheet` reads as the queued job alone.
   */
  lemma SettledThenQueued(rs: seq<Record>, status: string)
    requires |rs| == 2 && rs[1] == DuplicateIdSheet()[1]
    requires status == "completed" || status == "failed"
    requires Field(rs[0], "Status") == Some(Str(status))
    ensures PendingJobs(rs) == Some([QueuedJob()])
  {
    var older := rs[0];
    var queued := rs[1];
    var job := QueuedJob();
    assert Lower("completed") == "completed";
    assert Lower("failed") == "failed";
    assert Lower("pending") == "pending";
    assert older != queued by { assert Field(older, "Status") != Field(queued, "Status"); }
    assert FirstIndex(rs, queued) == 1;
    assert StatusText(older) == Some(status) && !IsPending(older);
    assert PendingPrefix(rs, 1) == Some([]);
    assert StatusText(queued) == Some("pending") && IsPending(queued);
    assert IntFieldOr(queued, "MaxVideos", DefaultMaxVideos) == Some(DefaultMaxVideos);
    assert IntFieldOr(queued, "MaxDuration", DefaultMaxDuration) == Some(DefaultMaxDuration);
    assert JobAt(rs, 1) == Some(job);
    assert Readable(rs, 1);
    assert PendingPrefix(rs, 2) == Some([] + [job]);
    assert [] + [job] == [job];
    assert PendingJobs(rs) == PendingPrefix(rs, 2);
  }

  /** The one pending job of that worksheet, read from its second row (sheet row 3). */
  lemma DuplicateIdPending()
    ensures PendingJobs(DuplicateIdSheet()) == Some([QueuedJob()])
  {
    SettledThenQueued(DuplicateIdSheet(), "completed");
  }

  /**
   * Status writes go to the first row with the job's id, not to the job's own
   * row: the batch overwrites the older row and leaves the queued row
   * `pending`, so the next run picks the job up again.
   */
  lemma DuplicateIdRerun(result: JobResult)
    ensures var rs := DuplicateIdSheet();
      var after := Applied(rs, BatchWrites([QueuedJob()], [result]));
      && PendingJobs(rs) == Some([QueuedJob()])
      && |after| == 2
      && Field(after[0], "Status") == Some(Str(if result.success then "completed" else "failed"))
      && after[1] == rs[1] && IsPending(after[1])
      && PendingJobs(after) == Some([QueuedJob()])
  {
    var rs := DuplicateIdSheet();
    var job := QueuedJob();
    DuplicateIdPending();
    var claim := ClaimWrite(job);
    var settle := TerminalWrite(job, result);
    assert BatchWrites([job], [result]) == [] + [claim, settle];
    AppliedTwo(rs, [], claim, settle);
    assert FindRow(rs, job.jobId) == Some(0);
    var claimed := StatusUpdated(rs, claim.jobId, claim.status, claim.message, claim.outputUrl);
    StatusUpdateKeepsIds(rs, claim.jobId, claim.status, claim.message, claim.outputUrl, job.jobId);
    StatusUpdateEffect(claimed, job.jobId, settle.status, settle.message, settle.outputUrl);
    var after := Applied(rs, BatchWrites([job], [result]));
    assert after[1] == rs[1];
    assert Lower("pending") == "pending";
    assert settle.status == if result.success then "completed" else "failed";
    SettledThenQueued(after, settle.status);
  }

  /** `result` is the outcome of `job` for the draw `draw`. */
  predicate Settled(dir: string, job: Job, env: Collaborators, draw: seq<nat>, result: JobResult) {
    ValidPositions(draw, |VideosFromFolder(env.listing)|) && result == Outcome(dir, job, env, draw)
  }

  /** The settled prefix of a batch grows by the job just settled. */
  lemma SettledExtended(dir: string, jobs: seq<Job>, drive: nat -> Collaborators,
                        draws: seq<seq<nat>>, results: seq<JobResult>, draw: seq<nat>, result: JobResult)
    requires |draws| == |results| < |jobs|
    requires forall k :: 0 <= k < |results| ==> Settled(dir, jobs[k], drive(k), draws[k], results[k])
    requires Settled(dir, jobs[|results|], drive(|results|), draw, result)
    ensures forall k :: 0 <= k <= |results| ==>
      Settled(dir, jobs[k], drive(k), (draws + [draw])[k], (results + [result])[k])
  {
    forall k | 0 <= k <= |results|
      ensures Settled(dir, jobs[k], drive(k), (draws + [draw])[k], (results + [result])[k])
    {
      if k < |results| {
        assert (draws + [draw])[k] == draws[k] && (results + [result])[k] == results[k];
      }
    }
  }

  /** One more settled job adds its claim and its outcome to the writes. */
  lemma BatchStep(jobs: seq<Job>, results: seq<JobResult>, result: JobResult)
    requires |results| < |jobs|
    ensures BatchWrites(jobs[..|results| + 1], results + [result])
         == BatchWrites(jobs[..|results|], results) + [ClaimWrite(jobs[|results|]), TerminalWrite(jobs[|results|], result)]
  {
    var i := |results|;
    var js := jobs[..i + 1];
    var rs := results + [result];
    assert js[..i] == jobs[..i] && js[i] == jobs[i];
    assert rs[..i] == results && rs[i] == result;
  }

  /** One more result counts once if it succeeded. */
  lemma SuccessStep(results: seq<JobResult>, result: JobResult)
    ensures Successes(results + [result]) == Successes(results) + (if result.success then 1 else 0)
  {
    var rs := results + [result];
    assert rs[..|rs| - 1] == results && rs[|rs| - 1] == result;
  }

  lemma AppliedTwo(rs: seq<Record>, writes: seq<StatusWrite>, first: StatusWrite, second: StatusWrite)
    ensures Applied(rs, writes + [first, second]) ==
      StatusUpdated(StatusUpdated(Applied(rs, writes), first.jobId, first.status, first.message, first.outputUrl),
                    second.jobId, second.status, second.message, second.outputUrl)
  {
    var all := writes + [first, second];
    assert all[..|all| - 1] == writes + [first];
    assert all[..|all| - 1][..|all| - 2] == writes;
  }

  /** Each draw of a batch is a list of positions in its own job's filtered listing. */
  predicate ValidDraws(drive: nat -> Collaborators, draws: seq<seq<nat>>) {
    forall k :: 0 <= k < |draws| ==> ValidPositions(draws[k], |VideosFromFolder(drive(k).listing)|)
  }

  /** The scratch directory after the first |draws| jobs of a batch, each with its own draw. */
  function ScratchAfterBatch(before: set<string>, dir: string, jobs: seq<Job>, drive: nat -> Collaborators,
                             draws: seq<seq<nat>>): set<string>
    requires |draws| <= |jobs|
    requires ValidDraws(drive, draws)
  {
    if draws == [] then before
    else
      var n := |draws| - 1;
      ScratchAfter(ScratchAfterBatch(before, dir, jobs, drive, draws[..n]), dir, jobs[n], drive(n), draws[n])
  }

  lemma ScratchBatchStep(before: set<string>, dir: string, jobs: seq<Job>, drive: nat -> Collaborators,
                         draws: seq<seq<nat>>, draw: seq<nat>)
    requires |draws| < |jobs|
    requires ValidDraws(drive, draws)
    requires ValidPositions(draw, |VideosFromFolder(drive(|draws|).listing)|)
    ensures ValidDraws(drive, draws + [draw])
    ensures ScratchAfterBatch(before, dir, jobs, drive, draws + [draw])
         == ScratchAfter(ScratchAfterBatch(before, dir, jobs, drive, draws), dir, jobs[|draws|], drive(|draws|), draw)
  {
    ValidDrawsStep(drive, draws, draw);
    var all := draws + [draw];
    assert all[..|all| - 1] == draws && all[|all| - 1] == draw;
  }

  lemma ValidDrawsStep(drive: nat -> Collaborators, draws: seq<seq<nat>>, draw: seq<nat>)
    requires ValidDraws(drive, draws)
    requires ValidPositions(draw, |VideosFromFolder(drive(|draws|).listing)|)
    ensures ValidDraws(drive, draws + [draw])
  {
    var all := draws + [draw];
    forall k | 0 <= k < |all|
      ensures ValidPositions(all[k], |VideosFromFolder(drive(k).listing)|)
    {
      if k < |draws| {
        assert all[k] == draws[k];
      }
    }
  }

  /** Every file a batch adds to the scratch directory lies inside it. */
  lemma {:induction false} BatchScratchInDir(before: set<string>, dir: string, jobs: seq<Job>, drive: nat -> Collaborators,
                                             draws: seq<seq<nat>>)
    requires |draws| <= |jobs|
    requires ValidDraws(drive, draws)
    ensures forall p :: p in ScratchAfterBatch(before, dir, jobs, drive, draws) && p !in before ==> InDir(dir, p)
  {
    if draws != [] {
      var n := |draws| - 1;
      BatchScratchInDir(before, dir, jobs, drive, draws[..n]);
      ScratchAfterInDir(ScratchAfterBatch(before, dir, jobs, drive, draws[..n]), dir, jobs[n], drive(n), draws[n]);
    }
  }

  /** A batch in which no job succeeds deletes no file from the scratch directory. */
  lemma {:induction false} BatchScratchKeepsFailures(before: set<string>, dir: string, jobs: seq<Job>, drive: nat -> Collaborators,
                                                     draws: seq<seq<nat>>)
    requires |draws| <= |jobs|
    requires ValidDraws(drive, draws)
    requires forall k :: 0 <= k < |draws| ==> !Outcome(dir, jobs[k], drive(k), draws[k]).success
    ensures before <= ScratchAfterBatch(before, dir, jobs, drive, draws)
  {
    if draws != [] {
      var n := |draws| - 1;
      BatchScratchKeepsFailures(before, dir, jobs, drive, draws[..n]);
      ScratchCleanup(ScratchAfterBatch(before, dir, jobs, drive, draws[..n]), dir, jobs[n], drive(n), draws[n]);
    }
  }

  /** The count in a success message reads back as the number of videos processed. */
  lemma SuccessMessageCount(job: Job, result: JobResult)
    requires result.success
    ensures var m := TerminalWrite(job, result).message;
      var head := "Successfully processed ";
      var tail := " videos";
      && |m| >= |head| + |tail|
      && m[..|head|] == head && m[|m| - |tail|..] == tail
      && ParseInt(m[|head|..|m| - |tail|]) == Some(result.videosProcessed)
  {
    var head := "Successfully processed ";
    var tail := " videos";
    var text := IntText(result.videosProcessed);
    var m := TerminalWrite(job, result).message;
    assert m == head + text + tail;
    assert m[|head|..|m| - |tail|] == text;
    IntTextRoundTrip(result.videosProcessed);
  }

  /**
   * One job of the batch: claim it, process it, and write its outcome (with
   * the output link only on success).
   */
  method RunJob(sheet: JobQueueSheet, processor: VideoProcessor, job: Job, env: Collaborators)
    returns (result: JobResult, draw: seq<nat>)
    requires sheet.reachable
    modifies sheet, processor
    ensures sheet.reachable
    ensures Settled(processor.tempDir, job, env, draw, result)
    ensures processor.scratch == ScratchAfter(old(processor.scratch), processor.tempDir, job, env, draw)
    ensures var claim := ClaimWrite(job);
      var settle := TerminalWrite(job, result);
      sheet.records == StatusUpdated(StatusUpdated(old(sheet.records), claim.jobId, claim.status, claim.message, claim.outputUrl),
                                     settle.jobId, settle.status, settle.message, settle.outputUrl)
  {
    var claimed := sheet.UpdateJobStatus(job.jobId, "processing", ProcessingMessage);
    result, draw := processor.ProcessJob(job, env);
    if result.success {
      var message := "Successfully processed " + IntText(result.videosProcessed) + " videos";
      var settled := sheet.UpdateJobStatus(job.jobId, "completed", message, result.outputUrl.GetOr(""));
    } else {
      var settled := sheet.UpdateJobStatus(job.jobId, "failed", result.errorMessage.GetOr(""));
    }
  }

  /**
   * The job loop: each job in turn is claimed, processed and settled; returns
   * the number of successes, the results, the draws and the writes issued.
   */
  method ProcessAll(sheet: JobQueueSheet, processor: VideoProcessor, jobs: seq<Job>, drive: nat -> Collaborators)
    returns (successful: nat, results: seq<JobResult>, draws: seq<seq<nat>>, writes: seq<StatusWrite>)
    requires sheet.reachable
    modifies sheet, processor
    ensures sheet.reachable
    ensures |results| == |jobs| && |draws| == |jobs|
    ensures successful == Successes(results)
    ensures writes == BatchWrites(jobs, results)
    ensures sheet.records == Applied(old(sheet.records), writes)
    ensures forall k :: 0 <= k < |jobs| ==> Settled(processor.tempDir, jobs[k], drive(k), draws[k], results[k])
    ensures ValidDraws(drive, draws)
    ensures processor.scratch == ScratchAfterBatch(old(processor.scratch), processor.tempDir, jobs, drive, draws)
  {
    results, draws, writes := [], [], [];
    successful := 0;
    for i := 0 to |jobs|
      invariant sheet.reachable
      invariant |results| == i && |draws| == i
      invariant successful == Successes(results)
      invariant writes == BatchWrites(jobs[..i], results)
      invariant sheet.records == Applied(old(sheet.records), writes)
      invariant forall k :: 0 <= k < i ==> Settled(processor.tempDir, jobs[k], drive(k), draws[k], results[k])
      invariant ValidDraws(drive, draws)
      invariant processor.scratch == ScratchAfterBatch(old(processor.scratch), processor.tempDir, jobs, drive, draws)
    {
      ghost var before := writes;
      var result, draw := RunJob(sheet, processor, jobs[i], drive(i));
      writes := writes + [ClaimWrite(jobs[i]), TerminalWrite(jobs[i], result)];
      AppliedTwo(old(sheet.records), before, ClaimWrite(jobs[i]), TerminalWrite(jobs[i], result));
      if result.success {
        successful := successful + 1;
      }
      BatchStep(jobs, results, result);
      SuccessStep(results, result);
      SettledExtended(processor.tempDir, jobs, drive, draws, results, draw, result);
      ScratchBatchStep(old(processor.scratch), processor.tempDir, jobs, drive, draws, draw);
      results := results + [result];
      draws := draws + [draw];
    }
    assert jobs[..|jobs|] == jobs;
  }

  /**
   * The batch run. `startupError` is the error that starting the two service
   * clients raises, if any; `drive` gives what the storage service and the
   * media library do for the job at each position of the batch. Returns how the
   * run ended, the jobs read, their results, the draws made for them, and the
   * status writes issued, in order.
   */
  method RunBatch(spreadsheetId: Option<string>, credentials: Option<string>, startupError: Option<string>,
                  sheet: JobQueueSheet, processor: VideoProcessor, drive: nat -> Collaborators)
    returns (outcome: RunOutcome, jobs: seq<Job>, results: seq<JobResult>, draws: seq<seq<nat>>, writes: seq<StatusWrite>)
    modifies sheet, processor
    ensures sheet.reachable == old(sheet.reachable)
    ensures !Present(spreadsheetId) ==> outcome == MissingSpreadsheetId && jobs == []
    ensures Present(spreadsheetId) && !Present(credentials) ==> outcome == Aborted(MissingCredentials) && jobs == []
    ensures Present(spreadsheetId) && Present(credentials) && startupError.Some? ==>
      outcome == Aborted(startupError.value) && jobs == []
    ensures Present(spreadsheetId) && Present(credentials) && startupError.None? ==>
      jobs == if old(sheet.reachable) then PendingJobs(old(sheet.records)).GetOr([]) else []
    ensures Present(spreadsheetId) && Present(credentials) && startupError.None? && jobs == [] ==> outcome == NoPendingJobs
    ensures jobs == [] ==>
      && results == [] && draws == [] && writes == []
      && sheet.records == old(sheet.records)
      && processor.scratch == old(processor.scratch)
    ensures jobs != [] ==>
      && |results| == |jobs| && |draws| == |jobs|
      && outcome == Finished(Successes(results), |jobs|)
      && writes == BatchWrites(jobs, results)
      && sheet.records == Applied(old(sheet.records), writes)
    ensures jobs != [] ==> forall k :: 0 <= k < |jobs| ==> Settled(processor.tempDir, jobs[k], drive(k), draws[k], results[k])
    ensures jobs != [] ==> ValidDraws(drive, draws)
    ensures jobs != [] ==> processor.scratch == ScratchAfterBatch(old(processor.scratch), processor.tempDir, jobs, drive, draws)
  {
    jobs, results, draws, writes := [], [], [], [];
    if !Present(spreadsheetId) {
      return MissingSpreadsheetId, jobs, results, draws, writes;
    }
    if !Present(credentials) {
      return Aborted(MissingCredentials), jobs, results, draws, writes;
    }
    if startupError.Some? {
      return Aborted(startupError.value), jobs, results, draws, writes;
    }
    jobs := sheet.GetPendingJobs();
    if jobs == [] {
      return NoPendingJobs, jobs, results, draws, writes;
    }
    assert sheet.reachable;

    var successful;
    successful, results, draws, writes := ProcessAll(sheet, processor, jobs, drive);
    outcome := Finished(successful, |jobs|);
  }
}
