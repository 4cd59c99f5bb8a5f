/**
 * Per-job video work: listing the source folder under a size ceiling, drawing a
 * random subset, downloading it, choosing the clips that fit the duration
 * budget, combining, uploading and cleaning up.
 *
 * The storage service and the media library are not modelled; what they do for
 * a job is given as a `Collaborators` value. The local scratch directory is the
 * set of file paths it holds.
 */
module VideoProcessing {
  import opened Wrappers
  import opened Cells
  import opened Sheets
  import Config

  /** Source videos of this size in bytes or more are dropped before selection: the configured ceiling in MiB. */
  const MaxVideoBytes: int := Config.MaxVideoSizeMb * 1024 * 1024

  /** A folder entry as the storage listing returns it; `size` may be missing. */
  datatype SourceVideo = SourceVideo(id: string, name: string, size: Option<int>)

  /** `int(video.get('size', 0))`. */
  function SizeOf(v: SourceVideo): int {
    v.size.GetOr(0)
  }

  /** The entries below the size ceiling, in listing order. */
  function WithinSizeLimit(videos: seq<SourceVideo>): (kept: seq<SourceVideo>)
    ensures |kept| <= |videos|
  {
    if videos == [] then []
    else WithinSizeLimit(videos[..|videos| - 1]) + Kept(videos[|videos| - 1])
  }

  function Kept(v: SourceVideo): seq<SourceVideo> {
    if SizeOf(v) < MaxVideoBytes then [v] else []
  }

  /** The filter keeps exactly the entries below the size ceiling. */
  lemma {:induction false} WithinSizeLimitMembers(videos: seq<SourceVideo>)
    ensures forall v :: v in WithinSizeLimit(videos) <==> v in videos && SizeOf(v) < MaxVideoBytes
  {
    if videos != [] {
      var n := |videos| - 1;
      WithinSizeLimitMembers(videos[..n]);
      assert videos == videos[..n] + [videos[n]];
    }
  }

  /** The size filter works entry by entry and keeps the listing order. */
  lemma {:induction false} WithinSizeLimitAppend(a: seq<SourceVideo>, b: seq<SourceVideo>)
    ensures WithinSizeLimit(a + b) == WithinSizeLimit(a) + WithinSizeLimit(b)
  {
    if b == [] {
      assert a + b == a;
    } else {
      var front := b[..|b| - 1];
      var last := b[|b| - 1];
      assert b == front + [last];
      WithinSizeLimitAppend(a, front);
      WithinSizeLimitAppendStep(a, front, last);
    }
  }

  /** One more entry at the end of the second part keeps the filter distributing. */
  lemma WithinSizeLimitAppendStep(a: seq<SourceVideo>, front: seq<SourceVideo>, last: SourceVideo)
    requires WithinSizeLimit(a + front) == WithinSizeLimit(a) + WithinSizeLimit(front)
    ensures WithinSizeLimit(a + (front + [last])) == WithinSizeLimit(a) + WithinSizeLimit(front + [last])
  {
    ConcatAssociative(a, front, [last]);
    WithinSizeLimitSnoc(a + front, last);
    WithinSizeLimitSnoc(front, last);
    ConcatAssociative(WithinSizeLimit(a), WithinSizeLimit(front), Kept(last));
  }

  lemma ConcatAssociative<T>(x: seq<T>, y: seq<T>, z: seq<T>)
    ensures (x + y) + z == x + (y + z)
  {
  }

  /** Filtering a listing with one more entry at the end. */
  lemma WithinSizeLimitSnoc(s: seq<SourceVideo>, v: SourceVideo)
    ensures WithinSizeLimit(s + [v]) == WithinSizeLimit(s) + Kept(v)
  {
    var all := s + [v];
    assert all[..|all| - 1] == s;
  }

  /** The videos of a folder: empty when listing fails, else the listing under the size ceiling. */
  function VideosFromFolder(listing: Option<seq<SourceVideo>>): (videos: seq<SourceVideo>)
    ensures listing.None? ==> videos == []
    ensures listing.Some? ==> forall v :: v in videos <==> v in listing.value && SizeOf(v) < MaxVideoBytes
  {
    match listing
    case None => []
    case Some(entries) => WithinSizeLimitMembers(entries); WithinSizeLimit(entries)
  }

  // ---------------------------------------------------------------------------
  // Choosing clips under the duration budget

  /** What opening a local file as a video gives: its duration, or a failure. */
  datatype Clip = Opened(duration: real) | Unreadable

  /** The state of the clip scan: the positions included so far, their total duration, and whether the budget is reached. */
  datatype Assembly = Assembly(plan: seq<nat>, total: real, stopped: bool)

  function ClipDuration(c: Clip): real {
    match c
    case Opened(d) => d
    case Unreadable => 0.0
  }

  /** One turn of the scan for the clip at position i. */
  function Consider(s: Assembly, i: nat, clip: Clip, maxDuration: real): Assembly {
    if s.stopped then s
    else
      match clip
      case Unreadable => s
      case Opened(d) =>
        if s.total + d > maxDuration then s
        else Assembly(s.plan + [i], s.total + d, s.total + d >= maxDuration)
  }

  /** The scan of all clips, in order. */
  function Scan(clips: seq<Clip>, maxDuration: real): Assembly {
    if clips == [] then Assembly([], 0.0, false)
    else Consider(Scan(clips[..|clips| - 1], maxDuration), |clips| - 1, clips[|clips| - 1], maxDuration)
  }

  predicate ValidPositions(plan: seq<nat>, n: nat) {
    forall k :: 0 <= k < |plan| ==> plan[k] < n
  }

  /** The summed duration of the clips at the given positions. */
  function PlanTotal(clips: seq<Clip>, plan: seq<nat>): real
    requires ValidPositions(plan, |clips|)
  {
    if plan == [] then 0.0
    else PlanTotal(clips, plan[..|plan| - 1]) + ClipDuration(clips[plan[|plan| - 1]])
  }

  lemma {:induction false} PlanTotalPrefix(clips: seq<Clip>, n: nat, plan: seq<nat>)
    requires n <= |clips| && ValidPositions(plan, n)
    ensures PlanTotal(clips[..n], plan) == PlanTotal(clips, plan)
  {
    if plan != [] {
      PlanTotalPrefix(clips, n, plan[..|plan| - 1]);
    }
  }

  /** The included positions are in input order and each names a clip that opened. */
  predicate OrderedPlan(clips: seq<Clip>, plan: seq<nat>) {
    && ValidPositions(plan, |clips|)
    && (forall i, j :: 0 <= i < j < |plan| ==> plan[i] < plan[j])
    && (forall k :: 0 <= k < |plan| ==> clips[plan[k]].Opened?)
  }

  lemma {:induction false} ScanOrdered(clips: seq<Clip>, maxDuration: real)
    ensures OrderedPlan(clips, Scan(clips, maxDuration).plan)
  {
    if clips != [] {
      var n := |clips| - 1;
      ScanOrdered(clips[..n], maxDuration);
      var s := Scan(clips[..n], maxDuration);
      assert forall k :: 0 <= k < |s.plan| ==> clips[..n][s.plan[k]] == clips[s.plan[k]];
    }
  }

  /**
   * The total is the summed duration of the included clips; the scan stops
   * exactly when a clip brings the total to the budget; and a non-empty
   * selection never exceeds the budget.
   */
  lemma {:induction false} ScanBudget(clips: seq<Clip>, maxDuration: real)
    ensures var s := Scan(clips, maxDuration);
      && ValidPositions(s.plan, |clips|)
      && s.total == PlanTotal(clips, s.plan)
      && (s.stopped <==> s.plan != [] && s.total >= maxDuration)
      && (s.plan != [] ==> s.total <= maxDuration)
  {
    ScanOrdered(clips, maxDuration);
    if clips != [] {
      var n := |clips| - 1;
      var prefix := clips[..n];
      ScanBudget(prefix, maxDuration);
      var s := Scan(prefix, maxDuration);
      PlanTotalPrefix(clips, n, s.plan);
      var t := Scan(clips, maxDuration);
      if t != s {
        assert t.plan[..|t.plan| - 1] == s.plan;
      }
    }
  }

  /** Once the budget is reached, the clips after that point change nothing: they are never opened. */
  lemma {:induction false} ScanStaysStopped(clips: seq<Clip>, n: nat, maxDuration: real)
    requires n <= |clips|
    requires Scan(clips[..n], maxDuration).stopped
    ensures Scan(clips, maxDuration) == Scan(clips[..n], maxDuration)
  {
    if n < |clips| {
      var m := |clips| - 1;
      assert clips[..m][..n] == clips[..n];
      ScanStaysStopped(clips[..m], n, maxDuration);
    } else {
      assert clips[..n] == clips;
    }
  }

  /** The selection made from a prefix is a prefix of the final one; the rest lies beyond that prefix. */
  lemma {:induction false} ScanExtends(clips: seq<Clip>, n: nat, maxDuration: real)
    requires n <= |clips|
    ensures var early := Scan(clips[..n], maxDuration).plan;
      var final := Scan(clips, maxDuration).plan;
      && |early| <= |final| && final[..|early|] == early
      && forall k :: |early| <= k < |final| ==> final[k] >= n
  {
    if n < |clips| {
      var m := |clips| - 1;
      assert clips[..m][..n] == clips[..n];
      ScanExtends(clips[..m], n, maxDuration);
    } else {
      assert clips[..n] == clips;
    }
  }

  /**
   * Clip i is included exactly when, at its turn, the budget is not yet
   * reached, it opens, and adding its duration keeps the total within the
   * budget.
   */
  lemma ScanIncludes(clips: seq<Clip>, i: nat, maxDuration: real)
    requires i < |clips|
    ensures var s := Scan(clips[..i], maxDuration);
      i in Scan(clips, maxDuration).plan <==>
        !s.stopped && clips[i].Opened? && s.total + clips[i].duration <= maxDuration
  {
    var s := Scan(clips[..i], maxDuration);
    var next := Scan(clips[..i + 1], maxDuration);
    assert clips[..i + 1][..i] == clips[..i];
    assert next == Consider(s, i, clips[i], maxDuration);
    ScanOrdered(clips[..i], maxDuration);
    ScanExtends(clips, i + 1, maxDuration);
    var final := Scan(clips, maxDuration).plan;
    ScanOrdered(clips, maxDuration);
    if i in final {
      var k :| 0 <= k < |final| && final[k] == i;
      assert k < |next.plan|;
      assert next.plan[k] == i;
    }
    if i in next.plan {
      assert i !in s.plan;
      assert next.plan == s.plan + [i];
      assert final[|next.plan| - 1] == i;
    }
  }

  /** The worked example: durations 120, 50, 200, 10 under a budget of 150 keep the first and the last, 130 in all. */
  lemma ScanExample()
    ensures Scan([Opened(120.0), Opened(50.0), Opened(200.0), Opened(10.0)], 150.0) == Assembly([0, 3], 130.0, false)
  {
    var c1 := [Opened(120.0)];
    var c2 := [Opened(120.0), Opened(50.0)];
    var c3 := [Opened(120.0), Opened(50.0), Opened(200.0)];
    var c4 := [Opened(120.0), Opened(50.0), Opened(200.0), Opened(10.0)];
    assert c1[..0] == [];
    assert Scan(c1, 150.0) == Assembly([0], 120.0, false);
    assert c2[..1] == c1;
    assert Scan(c2, 150.0) == Assembly([0], 120.0, false);
    assert c3[..2] == c2;
    assert Scan(c3, 150.0) == Assembly([0], 120.0, false);
    assert c4[..3] == c3;
  }

  // ---------------------------------------------------------------------------
  // One job

  /** The outcome of one job: success, the error text of a failure, the count reported, and the output link. */
  datatype JobResult = JobResult(success: bool, errorMessage: Option<string>, videosProcessed: int, outputUrl: Option<string>)

  const NoVideosFound: string := "No videos found in source folder"
  const NoVideosDownloaded: string := "Failed to download any videos"
  const CombineFailed: string := "Failed to combine videos"
  const UploadFailed: string := "Failed to upload result"
  /** The text of the error the random draw raises for a negative sample size. */
  const SampleSizeRejected: string := "Sample larger than population or is negative"

  function Failure(message: string, processed: int): JobResult {
    JobResult(false, Some(message), processed, None)
  }

  /** What the storage service and the media library do for one job. */
  datatype Collaborators = Collaborators(
    listing: Option<seq<SourceVideo>>,  // the source folder's entries; None when listing fails
    failedDownloads: set<string>,       // ids of entries whose download fails
    clips: map<string, Clip>,           // what each local file opens as; an absent path cannot be opened
    writeOk: bool,                      // whether joining and writing the output succeeds
    uploadLink: Option<string>,         // the link the upload returns; None when the upload fails
    undeletable: set<string>)           // local paths whose deletion fails

  function Min(a: int, b: int): int {
    if a <= b then a else b
  }

  /** A draw of k distinct positions among n entries. */
  predicate IsSample(selection: seq<nat>, n: nat, k: int) {
    && |selection| == k
    && ValidPositions(selection, n)
    && forall i, j :: 0 <= i < j < |selection| ==> selection[i] != selection[j]
  }

  function LocalPath(dir: string, name: string): string {
    dir + "/" + name
  }

  /** The local paths of the selected entries whose download succeeds, in selection order. */
  function Downloaded(dir: string, source: seq<SourceVideo>, selection: seq<nat>, failed: set<string>): (paths: seq<string>)
    requires ValidPositions(selection, |source|)
    ensures |paths| <= |selection|
  {
    if selection == [] then []
    else
      var video := source[selection[|selection| - 1]];
      Downloaded(dir, source, selection[..|selection| - 1], failed)
        + (if video.id in failed then [] else [LocalPath(dir, video.name)])
  }

  /**
   * Downloading works entry by entry in selection order: the downloaded paths
   * of a draw are those of its first part followed by those of the rest.
   */
  lemma {:induction false} DownloadedAppend(dir: string, source: seq<SourceVideo>, first: seq<nat>, rest: seq<nat>, failed: set<string>)
    requires ValidPositions(first, |source|) && ValidPositions(rest, |source|)
    ensures ValidPositions(first + rest, |source|)
    ensures Downloaded(dir, source, first + rest, failed) == Downloaded(dir, source, first, failed) + Downloaded(dir, source, rest, failed)
  {
    var all := first + rest;
    assert ValidPositions(all, |source|);
    if rest == [] {
      assert all == first;
    } else {
      var m := |rest| - 1;
      DownloadedAppend(dir, source, first, rest[..m], failed);
      assert all[..|all| - 1] == first + rest[..m];
      assert all[|all| - 1] == rest[m];
    }
  }

  /** A single drawn entry yields its local path exactly when its download succeeds. */
  lemma DownloadedSingle(dir: string, source: seq<SourceVideo>, k: nat, failed: set<string>)
    requires k < |source|
    ensures Downloaded(dir, source, [k], failed) ==
      if source[k].id in failed then [] else [LocalPath(dir, source[k].name)]
  {
    assert [k][..0] == [];
  }

  /** What each downloaded file opens as. */
  function ClipsOf(paths: seq<string>, clips: map<string, Clip>): (probes: seq<Clip>)
    ensures |probes| == |paths|
  {
    seq(|paths|, k requires 0 <= k < |paths| => if paths[k] in clips then clips[paths[k]] else Unreadable)
  }

  /** The local name of a job's combined video. */
  function OutputName(job: Job): string {
    "combined_" + ValueText(job.jobId) + ".mp4"
  }

  function UploadSucceeded(link: Option<string>): bool {
    link.Some? && link.value != ""
  }

  /** The outcome of a job, for a given draw from the filtered source list. */
  function Outcome(dir: string, job: Job, env: Collaborators, selection: seq<nat>): JobResult
    requires ValidPositions(selection, |VideosFromFolder(env.listing)|)
  {
    var source := VideosFromFolder(env.listing);
    if source == [] then Failure(NoVideosFound, 0)
    else if Min(job.maxVideos, |source|) < 0 then Failure(SampleSizeRejected, 0)
    else
      var paths := Downloaded(dir, source, selection, env.failedDownloads);
      if paths == [] then Failure(NoVideosDownloaded, 0)
      else if Scan(ClipsOf(paths, env.clips), job.maxDuration as real).plan == [] || !env.writeOk then Failure(CombineFailed, 0)
      else if !UploadSucceeded(env.uploadLink) then Failure(UploadFailed, |paths|)
      else JobResult(true, None, |paths|, env.uploadLink)
  }

  /**
   * Only a success carries an output link, and then no error text; every
   * failure before the upload reports zero videos, while a failed upload and a
   * success report the number of downloaded videos, at least one and at most
   * the number drawn.
   */
  lemma OutcomeReport(dir: string, job: Job, env: Collaborators, selection: seq<nat>)
    requires ValidPositions(selection, |VideosFromFolder(env.listing)|)
    ensures var r := Outcome(dir, job, env, selection);
      && (r.success <==> r.outputUrl.Some?)
      && (r.success ==> r.errorMessage.None? && r.outputUrl.value != "")
      && (!r.success ==> r.errorMessage.Some?)
      && ((r.errorMessage in {Some(NoVideosFound), Some(SampleSizeRejected), Some(NoVideosDownloaded), Some(CombineFailed)})
            ==> r.videosProcessed == 0)
      && (r.success || r.errorMessage == Some(UploadFailed) <==> r.videosProcessed != 0)
      && 0 <= r.videosProcessed <= |selection|
  {
  }

  /** A job that gets as far as combining never combines more than its duration budget. */
  lemma CombinedWithinBudget(dir: string, job: Job, env: Collaborators, selection: seq<nat>)
    requires ValidPositions(selection, |VideosFromFolder(env.listing)|)
    requires Outcome(dir, job, env, selection).success
    ensures var paths := Downloaded(dir, VideosFromFolder(env.listing), selection, env.failedDownloads);
      var s := Scan(ClipsOf(paths, env.clips), job.maxDuration as real);
      s.plan != [] && s.total <= job.maxDuration as real
  {
    var paths := Downloaded(dir, VideosFromFolder(env.listing), selection, env.failedDownloads);
    ScanBudget(ClipsOf(paths, env.clips), job.maxDuration as real);
  }

  /** Path `p` names a file inside directory `dir`. */
  predicate InDir(dir: string, p: string) {
    |dir| + 1 <= |p| && p[..|dir| + 1] == dir + "/"
  }

  /** Every downloaded file lies in the download directory. */
  lemma {:induction false} DownloadedInDir(dir: string, source: seq<SourceVideo>, selection: seq<nat>, failed: set<string>)
    requires ValidPositions(selection, |source|)
    ensures forall p :: p in Downloaded(dir, source, selection, failed) ==> InDir(dir, p)
  {
    if selection != [] {
      var n := |selection| - 1;
      DownloadedInDir(dir, source, selection[..n], failed);
      var name := source[selection[n]].name;
      assert LocalPath(dir, name)[..|dir| + 1] == dir + "/";
    }
  }

  /** The files a job leaves in the scratch directory, starting from `before`. */
  function ScratchAfter(before: set<string>, dir: string, job: Job, env: Collaborators, selection: seq<nat>): set<string>
    requires ValidPositions(selection, |VideosFromFolder(env.listing)|)
  {
    var source := VideosFromFolder(env.listing);
    if source == [] || Min(job.maxVideos, |source|) < 0 then before
    else
      var paths := Downloaded(dir, source, selection, env.failedDownloads);
      var downloaded := set p | p in paths;
      var output := LocalPath(dir, OutputName(job));
      var result := Outcome(dir, job, env, selection);
      if paths == [] then before
      else if result.errorMessage == Some(CombineFailed) then before + downloaded
      else if !result.success then before + downloaded + {output}
      else (before + downloaded + {output}) - (set p | p in paths + [output] && p !in env.undeletable)
  }

  /**
   * Local files are removed only when the job succeeds, and then every file the
   * job created is gone unless its deletion failed; a failed job removes
   * nothing.
   */
  lemma ScratchCleanup(before: set<string>, dir: string, job: Job, env: Collaborators, selection: seq<nat>)
    requires ValidPositions(selection, |VideosFromFolder(env.listing)|)
    ensures var after := ScratchAfter(before, dir, job, env, selection);
      var source := VideosFromFolder(env.listing);
      var paths := Downloaded(dir, source, selection, env.failedDownloads);
      && (!Outcome(dir, job, env, selection).success ==> before <= after)
      && (Outcome(dir, job, env, selection).success ==>
            forall p :: p in paths + [LocalPath(dir, OutputName(job))] && p in after ==> p in env.undeletable)
  {
  }

  /** Every file a job adds to the scratch directory lies inside it. */
  lemma ScratchAfterInDir(before: set<string>, dir: string, job: Job, env: Collaborators, selection: seq<nat>)
    requires ValidPositions(selection, |VideosFromFolder(env.listing)|)
    ensures forall p :: p in ScratchAfter(before, dir, job, env, selection) && p !in before ==> InDir(dir, p)
  {
    var source := VideosFromFolder(env.listing);
    DownloadedInDir(dir, source, selection, env.failedDownloads);
    assert LocalPath(dir, OutputName(job))[..|dir| + 1] == dir + "/";
  }

  /** The job processor and the scratch directory it owns. */
  class VideoProcessor {
    /** The processor's scratch directory. */
    const tempDir: string
    /** The files currently in the scratch directory. */
    var scratch: set<string>

    constructor (tempDir: string)
      ensures this.tempDir == tempDir && scratch == {}
    {
      this.tempDir := tempDir;
      scratch := {};
    }

    /**
     * Scans the clips in order and picks those that fit the duration budget,
     * then joins and writes them when any were picked. Returns whether an
     * output was written, the positions picked, how many clips were opened,
     * and whether every opened clip was released again.
     */
    method CombineVideos(clips: seq<Clip>, maxDuration: real, writeOk: bool)
      returns (ok: bool, plan: seq<nat>, examined: nat, released: bool)
      ensures plan == Scan(clips, maxDuration).plan
      ensures ok <==> plan != [] && writeOk
      ensures released <==> plan == [] || writeOk
      ensures examined <= |clips|
      ensures Scan(clips[..examined], maxDuration) == Scan(clips, maxDuration)
      ensures examined < |clips| ==> Scan(clips[..examined], maxDuration).stopped
      ensures forall n :: 0 <= n < examined ==> !Scan(clips[..n], maxDuration).stopped
    {
      if |clips| == 0 {
        return false, [], 0, true;
      }
      plan := [];
      var total := 0.0;
      var i := 0;
      while i < |clips|
        invariant 0 <= i <= |clips|
        invariant Scan(clips[..i], maxDuration) == Assembly(plan, total, false)
        invariant forall n :: 0 <= n <= i ==> !Scan(clips[..n], maxDuration).stopped
      {
        assert clips[..i + 1][..i] == clips[..i];
        match clips[i]
        case Unreadable =>
          i := i + 1;
          continue;
        case Opened(duration) =>
          if total + duration > maxDuration {
            i := i + 1;
            continue;
          }
          plan := plan + [i];
          total := total + duration;
          if total >= maxDuration {
            ScanStaysStopped(clips, i + 1, maxDuration);
            examined := i + 1;
            break;
          }
          i := i + 1;
      }
      if i == |clips| {
        assert clips[..i] == clips;
        examined := i;
      }
      ok := plan != [] && writeOk;
      released := plan == [] || writeOk;
    }

    /** Deletes each path that exists; a deletion that fails is passed over and the loop goes on. */
    method CleanupTempFiles(paths: seq<string>, undeletable: set<string>)
      modifies this
      ensures scratch == old(scratch) - (set p | p in paths && p !in undeletable)
    {
      for i := 0 to |paths|
        invariant scratch == old(scratch) - (set p | p in paths[..i] && p !in undeletable)
      {
        assert paths[..i + 1] == paths[..i] + [paths[i]];
        if paths[i] in scratch && paths[i] !in undeletable {
          scratch := scratch - {paths[i]};
        }
      }
      assert paths[..|paths|] == paths;
    }

    /**
     * Runs one job: list, draw, download, combine, upload, clean up. The draw
     * is returned so that the outcome can be stated.
     */
    method ProcessJob(job: Job, env: Collaborators) returns (result: JobResult, selection: seq<nat>)
      modifies this
      ensures var source := VideosFromFolder(env.listing);
        source != [] && job.maxVideos >= 0 ==> IsSample(selection, |source|, Min(job.maxVideos, |source|))
      ensures ValidPositions(selection, |VideosFromFolder(env.listing)|)
      ensures result == Outcome(tempDir, job, env, selection)
      ensures scratch == ScratchAfter(old(scratch), tempDir, job, env, selection)
    {
      var source := VideosFromFolder(env.listing);
      if source == [] {
        return Failure(NoVideosFound, 0), [];
      }
      var count := Min(job.maxVideos, |source|);
      if count < 0 {
        return Failure(SampleSizeRejected, 0), [];
      }
      ghost var firsts := seq(count, k requires 0 <= k < count => k);
      assert IsSample(firsts, |source|, count);
      selection :| IsSample(selection, |source|, count);
      assert IsSample(selection, |source|, count);
      assert ValidPositions(selection, |source|);

      var paths: seq<string> := [];
      for i := 0 to |selection|
        invariant ValidPositions(selection[..i], |source|)
        invariant paths == Downloaded(tempDir, source, selection[..i], env.failedDownloads)
        invariant scratch == old(scratch) + set p | p in paths
      {
        assert selection[..i + 1][..i] == selection[..i];
        var video := source[selection[i]];
        if video.id !in env.failedDownloads {
          var path := LocalPath(tempDir, video.name);
          scratch := scratch + {path};
          paths := paths + [path];
        }
      }
      assert selection[..|selection|] == selection;
      if paths == [] {
        return Failure(NoVideosDownloaded, 0), selection;
      }

      var output := LocalPath(tempDir, OutputName(job));
      var combined, plan, examined, released := CombineVideos(ClipsOf(paths, env.clips), job.maxDuration as real, env.writeOk);
      if !combined {
        return Failure(CombineFailed, 0), selection;
      }
      scratch := scratch + {output};

      if !UploadSucceeded(env.uploadLink) {
        return Failure(UploadFailed, |paths|), selection;
      }
      CleanupTempFiles(paths + [output], env.undeletable);
      result := JobResult(true, None, |paths|, env.uploadLink);
    }
  }
}
