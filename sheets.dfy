/**
 * The job queue kept in a spreadsheet worksheet: reading the pending jobs,
 * writing a job's status back to its row, and appending a new job.
 *
 * The worksheet is the sequence of its data rows, each as the dictionary from
 * column name to cell value that the store returns (the header row is row 1, so
 * the record at position k lives on sheet row k + 2).
 */
module Sheets {
  import opened Wrappers
  import opened Cells
  import Config

  /** One data row, keyed by column name. */
  type Record = map<string, Value>

  /** The limits a pending record falls back on when its column is absent. */
  const DefaultMaxVideos: int := 3
  const DefaultMaxDuration: int := 300

  /** A job as the runner receives it from the queue. */
  datatype Job = Job(
    jobId: Option<Value>,
    sourceFolderId: Option<Value>,
    outputFolderId: Option<Value>,
    maxVideos: int,
    maxDuration: int,
    rowIndex: int)

  /** `record.get(key)`. */
  function Field(r: Record, key: string): Option<Value> {
    if key in r then Some(r[key]) else None
  }

  function JobIdOf(r: Record): Option<Value> {
    Field(r, "JobID")
  }

  /** `record.get('Status', '').lower()`; None when the cell holds a number, on which `lower` raises. */
  function StatusText(r: Record): Option<string> {
    match Field(r, "Status")
    case None => Some("")
    case Some(Str(s)) => Some(Lower(s))
    case Some(Int(_)) => None
  }

  /** A record the runner should pick up: status `pending` or `new`, in any letter case. */
  predicate IsPending(r: Record) {
    StatusText(r) == Some("pending") || StatusText(r) == Some("new")
  }

  /** `int(record.get(key, default))`; None when the cell does not parse. */
  function IntFieldOr(r: Record, key: string, default: int): Option<int> {
    match Field(r, key)
    case None => Some(default)
    case Some(v) => IntOf(v)
  }

  /** `records.index(record)`: the position of the first record equal to `r`. */
  function FirstIndex(rs: seq<Record>, r: Record): (k: nat)
    requires r in rs
    ensures k < |rs| && rs[k] == r
    ensures forall j :: 0 <= j < k ==> rs[j] != r
  {
    if rs[0] == r then 0 else 1 + FirstIndex(rs[1..], r)
  }

  /** The job built from the record at position k; None when one of its limits does not parse. */
  function JobAt(rs: seq<Record>, k: nat): (job: Option<Job>)
    requires k < |rs|
    ensures job.Some? <==>
      IntFieldOr(rs[k], "MaxVideos", DefaultMaxVideos).Some? && IntFieldOr(rs[k], "MaxDuration", DefaultMaxDuration).Some?
    ensures job.Some? ==>
      && job.value.jobId == JobIdOf(rs[k])
      && job.value.sourceFolderId == Field(rs[k], "SourceFolderID")
      && job.value.outputFolderId == Field(rs[k], "OutputFolderID")
      && ("MaxVideos" !in rs[k] ==> job.value.maxVideos == DefaultMaxVideos)
      && ("MaxDuration" !in rs[k] ==> job.value.maxDuration == DefaultMaxDuration)
      && ("MaxVideos" in rs[k] ==> Some(job.value.maxVideos) == IntOf(rs[k]["MaxVideos"]))
      && ("MaxDuration" in rs[k] ==> Some(job.value.maxDuration) == IntOf(rs[k]["MaxDuration"]))
    // the row index names the first row holding an identical record
    ensures job.Some? ==>
      && 2 <= job.value.rowIndex <= k + 2
      && rs[job.value.rowIndex - 2] == rs[k]
      && forall j :: 0 <= j < job.value.rowIndex - 2 ==> rs[j] != rs[k]
  {
    var r := rs[k];
    match (IntFieldOr(r, "MaxVideos", DefaultMaxVideos), IntFieldOr(r, "MaxDuration", DefaultMaxDuration))
    case (Some(videos), Some(duration)) =>
      Some(Job(JobIdOf(r), Field(r, "SourceFolderID"), Field(r, "OutputFolderID"),
               videos, duration, FirstIndex(rs, r) + 2))
    case _ => None
  }

  /** Whether record k reads without raising: its status is text, and when it is pending both its limits parse. */
  predicate Readable(rs: seq<Record>, k: nat)
    requires k < |rs|
  {
    StatusText(rs[k]).Some? && (IsPending(rs[k]) ==> JobAt(rs, k).Some?)
  }

  /** The jobs read from the first n records, or None when reading one of them raises. */
  function PendingPrefix(rs: seq<Record>, n: nat): Option<seq<Job>>
    requires n <= |rs|
  {
    if n == 0 then Some([])
    else
      match PendingPrefix(rs, n - 1)
      case None => None
      case Some(jobs) =>
        if !Readable(rs, n - 1) then None
        else if IsPending(rs[n - 1]) then Some(jobs + [JobAt(rs, n - 1).value])
        else Some(jobs)
  }

  /** The pending jobs of the whole worksheet, or None when reading raises. */
  function PendingJobs(rs: seq<Record>): Option<seq<Job>> {
    PendingPrefix(rs, |rs|)
  }

  /** Positions below n of the pending records, in sheet order. */
  function PendingRows(rs: seq<Record>, n: nat): (rows: seq<nat>)
    requires n <= |rs|
    ensures forall i :: 0 <= i < |rows| ==> rows[i] < n
    ensures forall k: nat :: k in rows <==> k < n && IsPending(rs[k])
    ensures forall i, j :: 0 <= i < j < |rows| ==> rows[i] < rows[j]
  {
    if n == 0 then []
    else if IsPending(rs[n - 1]) then PendingRows(rs, n - 1) + [n - 1]
    else PendingRows(rs, n - 1)
  }

  /**
   * Reading the queue succeeds exactly when every record is readable, and then
   * yields one job per pending record, in sheet order.
   */
  lemma {:induction false} PendingPrefixIsFilter(rs: seq<Record>, n: nat)
    requires n <= |rs|
    ensures PendingPrefix(rs, n).Some? <==> forall k :: 0 <= k < n ==> Readable(rs, k)
    ensures PendingPrefix(rs, n).Some? ==>
      var jobs := PendingPrefix(rs, n).value;
      var rows := PendingRows(rs, n);
      |jobs| == |rows| && forall i :: 0 <= i < |jobs| ==> JobAt(rs, rows[i]) == Some(jobs[i])
  {
    if n > 0 {
      PendingPrefixIsFilter(rs, n - 1);
      var before := PendingPrefix(rs, n - 1);
      var rows := PendingRows(rs, n - 1);
      if before.Some? && Readable(rs, n - 1) {
        if IsPending(rs[n - 1]) {
          var jobs := before.value + [JobAt(rs, n - 1).value];
          var rows' := rows + [n - 1];
          assert PendingPrefix(rs, n) == Some(jobs);
          assert PendingRows(rs, n) == rows';
          forall i | 0 <= i < |jobs|
            ensures JobAt(rs, rows'[i]) == Some(jobs[i])
          {
            if i < |before.value| {
              assert rows'[i] == rows[i] && jobs[i] == before.value[i];
            }
          }
        } else {
          assert PendingPrefix(rs, n) == before && PendingRows(rs, n) == rows;
        }
      } else {
        assert PendingPrefix(rs, n) == None;
      }
    }
  }

  lemma PendingJobsIsFilter(rs: seq<Record>)
    ensures PendingJobs(rs).Some? <==> forall k :: 0 <= k < |rs| ==> Readable(rs, k)
    ensures PendingJobs(rs).Some? ==>
      var jobs := PendingJobs(rs).value;
      var rows := PendingRows(rs, |rs|);
      |jobs| == |rows| && forall i :: 0 <= i < |jobs| ==> JobAt(rs, rows[i]) == Some(jobs[i])
  {
    PendingPrefixIsFilter(rs, |rs|);
  }

  /**
   * The queue picks a record exactly when its Status cell is the text `pending`
   * or `new`, in any mix of letter cases.
   */
  lemma PendingInAnyCase(r: Record)
    ensures IsPending(r) <==>
      && Field(r, "Status").Some? && Field(r, "Status").value.Str?
      && (SameUpToCase(Field(r, "Status").value.s, "pending") || SameUpToCase(Field(r, "Status").value.s, "new"))
  {
    match Field(r, "Status")
    case None =>
    case Some(Int(_)) =>
    case Some(Str(s)) =>
      LowerMatches(s, "pending");
      LowerMatches(s, "new");
  }

  /** A Status cell holding a number makes the whole read raise, whichever record holds it. */
  lemma NumericStatusFailsRead(rs: seq<Record>, k: nat, i: int)
    requires k < |rs| && Field(rs[k], "Status") == Some(Int(i))
    ensures PendingJobs(rs) == None
  {
    PendingJobsIsFilter(rs);
    assert !Readable(rs, k);
  }

  /**
   * A blank limit cell on a pending record makes the whole read raise: only an
   * absent column takes the default.
   */
  lemma BlankLimitFailsRead(rs: seq<Record>, k: nat)
    requires k < |rs| && IsPending(rs[k])
    requires Field(rs[k], "MaxVideos") == Some(Str("")) || Field(rs[k], "MaxDuration") == Some(Str(""))
    ensures PendingJobs(rs) == None
  {
    PendingJobsIsFilter(rs);
    assert ParseInt("") == None;
    assert !Readable(rs, k);
  }

  /** Once reading a prefix raises, reading any longer prefix raises too. */
  lemma {:induction false} PendingFailureSticks(rs: seq<Record>, n: nat, m: nat)
    requires n <= m <= |rs|
    requires PendingPrefix(rs, n).None?
    ensures PendingPrefix(rs, m).None?
  {
    if n < m {
      PendingFailureSticks(rs, n, m - 1);
    }
  }

  /** Position of the first record with the given job id. */
  function FindRow(rs: seq<Record>, jobId: Option<Value>): (k: Option<nat>)
    ensures k.Some? ==> k.value < |rs| && JobIdOf(rs[k.value]) == jobId
    ensures k.Some? ==> forall j :: 0 <= j < k.value ==> JobIdOf(rs[j]) != jobId
    ensures k.None? ==> forall j :: 0 <= j < |rs| ==> JobIdOf(rs[j]) != jobId
  {
    if rs == [] then None
    else if JobIdOf(rs[0]) == jobId then Some(0)
    else
      match FindRow(rs[1..], jobId)
      case None => None
      case Some(k) => Some(k + 1)
  }

  /** The column name at a 1-based column number of the job-queue layout. */
  function ColumnName(column: nat): string
    requires 1 <= column <= |Config.JobQueueColumns|
  {
    Config.JobQueueColumns[column - 1]
  }

  /** A record after its status (column 3), message (column 4) and, when non-empty, output URL (column 5) are overwritten. */
  function Overwrite(r: Record, status: string, message: string, outputUrl: string): Record {
    var written := r[ColumnName(3) := Str(status)][ColumnName(4) := Str(message)];
    if outputUrl != "" then written[ColumnName(5) := Str(outputUrl)] else written
  }

  /** The worksheet after a status update for `jobId`: only the first row with that id changes. */
  function StatusUpdated(rs: seq<Record>, jobId: Option<Value>, status: string, message: string, outputUrl: string): seq<Record> {
    match FindRow(rs, jobId)
    case None => rs
    case Some(k) => rs[k := Overwrite(rs[k], status, message, outputUrl)]
  }

  /** Overwriting sets the three written cells and leaves every other cell, the JobID among them, as it was. */
  lemma OverwriteFields(r: Record, status: string, message: string, outputUrl: string)
    ensures var r' := Overwrite(r, status, message, outputUrl);
      && Field(r', "Status") == Some(Str(status))
      && Field(r', "Message") == Some(Str(message))
      && Field(r', "OutputURL") == (if outputUrl != "" then Some(Str(outputUrl)) else Field(r, "OutputURL"))
      && forall key :: key != "Status" && key != "Message" && key != "OutputURL" ==> Field(r', key) == Field(r, key)
  {
    assert ColumnName(3) == "Status" && ColumnName(4) == "Message" && ColumnName(5) == "OutputURL";
  }

  /** Row lookup depends only on the job ids of the rows. */
  lemma SameIdsSameRows(rs: seq<Record>, rs': seq<Record>, jobId: Option<Value>)
    requires |rs'| == |rs|
    requires forall j :: 0 <= j < |rs| ==> JobIdOf(rs'[j]) == JobIdOf(rs[j])
    ensures FindRow(rs', jobId) == FindRow(rs, jobId)
  {
    match FindRow(rs, jobId)
    case None =>
    case Some(k) =>
      assert JobIdOf(rs'[k]) == jobId;
  }

  /**
   * A status update keeps every row's job id, so every job is still found on
   * the row it was found on, and it changes no row found for another id.
   */
  lemma StatusUpdateKeepsIds(rs: seq<Record>, jobId: Option<Value>, status: string, message: string, outputUrl: string,
                             other: Option<Value>)
    ensures var rs' := StatusUpdated(rs, jobId, status, message, outputUrl);
      && |rs'| == |rs|
      && FindRow(rs', other) == FindRow(rs, other)
      && (other != jobId && FindRow(rs, other).Some? ==> rs'[FindRow(rs, other).value] == rs[FindRow(rs, other).value])
  {
    var rs' := StatusUpdated(rs, jobId, status, message, outputUrl);
    match FindRow(rs, jobId)
    case None =>
    case Some(k) =>
      OverwriteFields(rs[k], status, message, outputUrl);
      assert forall j :: 0 <= j < |rs| ==> JobIdOf(rs'[j]) == JobIdOf(rs[j]);
      SameIdsSameRows(rs, rs', other);
  }

  /**
   * A status update changes only the first row with the job's id, writes the
   * status and message there, writes the output URL only when it is non-empty,
   * and keeps the row findable by the same id.
   */
  lemma StatusUpdateEffect(rs: seq<Record>, jobId: Option<Value>, status: string, message: string, outputUrl: string)
    ensures var rs' := StatusUpdated(rs, jobId, status, message, outputUrl);
      && |rs'| == |rs|
      && FindRow(rs', jobId) == FindRow(rs, jobId)
      && (FindRow(rs, jobId).None? ==> rs' == rs)
      && (FindRow(rs, jobId).Some? ==>
            var k := FindRow(rs, jobId).value;
            && (forall j :: 0 <= j < |rs| && j != k ==> rs'[j] == rs[j])
            && Field(rs'[k], "Status") == Some(Str(status))
            && Field(rs'[k], "Message") == Some(Str(message))
            && Field(rs'[k], "OutputURL") == (if outputUrl != "" then Some(Str(outputUrl)) else Field(rs[k], "OutputURL"))
            && (forall key :: key != "Status" && key != "Message" && key != "OutputURL" ==> Field(rs'[k], key) == Field(rs[k], key)))
  {
    StatusUpdateKeepsIds(rs, jobId, status, message, outputUrl, jobId);
    match FindRow(rs, jobId)
    case None =>
    case Some(k) =>
      OverwriteFields(rs[k], status, message, outputUrl);
  }

  /**
   * When no other record carries a job's id, the row a status update writes to
   * is the job's own row, the one its row index names.
   */
  lemma JobRowFound(rs: seq<Record>, k: nat)
    requires k < |rs| && JobAt(rs, k).Some?
    requires forall j :: 0 <= j < |rs| && j != k ==> JobIdOf(rs[j]) != JobIdOf(rs[k])
    ensures JobAt(rs, k).value.rowIndex == k + 2
    ensures FindRow(rs, JobAt(rs, k).value.jobId) == Some(k)
  {
    var f := FirstIndex(rs, rs[k]);
    assert JobIdOf(rs[f]) == JobIdOf(rs[k]);
    var found := FindRow(rs, JobIdOf(rs[k]));
    if found.Some? {
      assert JobIdOf(rs[found.value]) == JobIdOf(rs[k]);
    }
  }

  /** The row `create_job` appends, in column order. */
  function NewJobRow(jobId: string, created: string, sourceFolderId: string, outputFolderId: string,
                     maxVideos: int, maxDuration: int): seq<Value>
  {
    [Str(jobId), Str(created), Str("pending"), Str("Waiting for processing"), Str(""),
     Str(sourceFolderId), Str(outputFolderId), Int(maxVideos), Int(maxDuration)]
  }

  /** The record a row reads back as under the given header; cells past the row's end read as empty. */
  function RecordOf(header: seq<string>, row: seq<Value>): Record {
    if header == [] then map[]
    else
      var last := |header| - 1;
      RecordOf(header[..last], row)[header[last] := if last < |row| then row[last] else Str("")]
  }

  /** Reading back a newly created row under the job-queue header. */
  lemma NewJobRecordFields(jobId: string, created: string, sourceFolderId: string, outputFolderId: string,
                           maxVideos: int, maxDuration: int)
    ensures var r := RecordOf(Config.JobQueueColumns,
                              NewJobRow(jobId, created, sourceFolderId, outputFolderId, maxVideos, maxDuration));
      && JobIdOf(r) == Some(Str(jobId))
      && Field(r, "CreatedDate") == Some(Str(created))
      && Field(r, "Status") == Some(Str("pending"))
      && Field(r, "Message") == Some(Str("Waiting for processing"))
      && Field(r, "OutputURL") == Some(Str(""))
      && Field(r, "SourceFolderID") == Some(Str(sourceFolderId))
      && Field(r, "OutputFolderID") == Some(Str(outputFolderId))
      && Field(r, "MaxVideos") == Some(Int(maxVideos))
      && Field(r, "MaxDuration") == Some(Int(maxDuration))
  {
    var row := NewJobRow(jobId, created, sourceFolderId, outputFolderId, maxVideos, maxDuration);
    var h := Config.JobQueueColumns;
    var r0 := RecordOf([], row);
    var r1 := RecordOf(h[..1], row);
    assert r1 == r0[h[0] := row[0]];
    var r2 := RecordOf(h[..2], row);
    assert r2 == r1[h[1] := row[1]] by { assert h[..2][..1] == h[..1]; }
    var r3 := RecordOf(h[..3], row);
    assert r3 == r2[h[2] := row[2]] by { assert h[..3][..2] == h[..2]; }
    var r4 := RecordOf(h[..4], row);
    assert r4 == r3[h[3] := row[3]] by { assert h[..4][..3] == h[..3]; }
    var r5 := RecordOf(h[..5], row);
    assert r5 == r4[h[4] := row[4]] by { assert h[..5][..4] == h[..4]; }
    var r6 := RecordOf(h[..6], row);
    assert r6 == r5[h[5] := row[5]] by { assert h[..6][..5] == h[..5]; }
    var r7 := RecordOf(h[..7], row);
    assert r7 == r6[h[6] := row[6]] by { assert h[..7][..6] == h[..6]; }
    var r8 := RecordOf(h[..8], row);
    assert r8 == r7[h[7] := row[7]] by { assert h[..8][..7] == h[..7]; }
    assert RecordOf(h, row) == r8[h[8] := row[8]] by { assert h[..8] == h[..|h| - 1]; }
  }

  /** The queue worksheet as the job runner sees it. */
  class JobQueueSheet {
    /** The data rows, in sheet order. */
    var records: seq<Record>
    /** Whether the worksheet can be opened; when it cannot, every operation takes its error path. */
    var reachable: bool

    constructor (records: seq<Record>, reachable: bool)
      ensures this.records == records && this.reachable == reachable
    {
      this.records := records;
      this.reachable := reachable;
    }

    /**
     * The pending jobs, in sheet order; an empty list when the worksheet
     * cannot be read or one of its records does not parse.
     */
    method GetPendingJobs() returns (jobs: seq<Job>)
      ensures jobs == if reachable then PendingJobs(records).GetOr([]) else []
    {
      if !reachable {
        return [];
      }
      jobs := [];
      for i := 0 to |records|
        invariant PendingPrefix(records, i) == Some(jobs)
      {
        var record := records[i];
        if StatusText(record).None? {
          PendingFailureSticks(records, i + 1, |records|);
          return [];
        }
        if IsPending(record) {
          var job := JobAt(records, i);
          if job.None? {
            PendingFailureSticks(records, i + 1, |records|);
            return [];
          }
          jobs := jobs + [job.value];
        }
      }
    }

    /** `update_cell(row, column, value)` on a data row of the job-queue layout. */
    method UpdateCell(row: int, column: nat, value: string)
      requires 2 <= row < |records| + 2
      requires 1 <= column <= |Config.JobQueueColumns|
      modifies this
      ensures reachable == old(reachable)
      ensures records == old(records)[row - 2 := old(records)[row - 2][ColumnName(column) := Str(value)]]
    {
      records := records[row - 2 := records[row - 2][ColumnName(column) := Str(value)]];
    }

    /**
     * Writes status, message and (when non-empty) output URL into the first row
     * whose JobID equals `jobId`; false, with nothing written, when there is no
     * such row or the worksheet cannot be opened.
     */
    method UpdateJobStatus(jobId: Option<Value>, status: string, message: string := "", outputUrl: string := "")
      returns (updated: bool)
      modifies this
      ensures reachable == old(reachable)
      ensures updated <==> old(reachable) && FindRow(old(records), jobId).Some?
      ensures records == if old(reachable) then StatusUpdated(old(records), jobId, status, message, outputUrl)
                         else old(records)
    {
      if !reachable {
        return false;
      }
      var row := 2;
      while row < |records| + 2
        invariant 2 <= row <= |records| + 2
        invariant forall j :: 0 <= j < row - 2 ==> JobIdOf(records[j]) != jobId
        invariant records == old(records)
      {
        if JobIdOf(records[row - 2]) == jobId {
          UpdateCell(row, 3, status);
          UpdateCell(row, 4, message);
          if outputUrl != "" {
            UpdateCell(row, 5, outputUrl);
          }
          return true;
        }
        row := row + 1;
      }
      return false;
    }

    /**
     * Appends a pending job whose id is `job_` followed by the clock reading
     * `stamp` (format `%Y%m%d_%H%M%S`); `created` is the creation time as text.
     * Returns the new id, or None (nothing appended) when the worksheet cannot
     * be opened.
     */
    method CreateJob(sourceFolderId: string, outputFolderId: string, stamp: string, created: string,
                     maxVideos: int := DefaultMaxVideos, maxDuration: int := DefaultMaxDuration)
      returns (jobId: Option<string>)
      modifies this
      ensures reachable == old(reachable)
      ensures old(reachable) ==> jobId == Some("job_" + stamp)
      ensures old(reachable) ==> records == old(records) + [RecordOf(Config.JobQueueColumns,
        NewJobRow("job_" + stamp, created, sourceFolderId, outputFolderId, maxVideos, maxDuration))]
      ensures !old(reachable) ==> jobId == None && records == old(records)
    {
      if !reachable {
        return None;
      }
      var id := "job_" + stamp;
      var row := NewJobRow(id, created, sourceFolderId, outputFolderId, maxVideos, maxDuration);
      records := records + [RecordOf(Config.JobQueueColumns, row)];
      return Some(id);
    }
  }

  /** Extending the worksheet does not move the first copy of a record already in it. */
  lemma {:induction false} FirstIndexExtended(rs: seq<Record>, extra: Record, r: Record)
    requires r in rs
    ensures FirstIndex(rs + [extra], r) == FirstIndex(rs, r)
  {
    if rs[0] != r {
      assert (rs + [extra])[1..] == rs[1..] + [extra];
      FirstIndexExtended(rs[1..], extra, r);
    }
  }

  /** Reading a prefix does not depend on rows appended after it. */
  lemma {:induction false} PendingPrefixExtended(rs: seq<Record>, extra: Record, n: nat)
    requires n <= |rs|
    ensures PendingPrefix(rs + [extra], n) == PendingPrefix(rs, n)
  {
    if n > 0 {
      PendingPrefixExtended(rs, extra, n - 1);
      assert (rs + [extra])[n - 1] == rs[n - 1];
      FirstIndexExtended(rs, extra, rs[n - 1]);
    }
  }

  /**
   * A job appended by CreateJob is picked up by the next read of the queue: it
   * comes last, with the limits it was created with and the row it was
   * appended on.
   */
  lemma CreatedJobIsPending(rs: seq<Record>, jobId: string, created: string, sourceFolderId: string,
                            outputFolderId: string, maxVideos: int, maxDuration: int)
    requires PendingJobs(rs).Some?
    requires RecordOf(Config.JobQueueColumns,
                      NewJobRow(jobId, created, sourceFolderId, outputFolderId, maxVideos, maxDuration)) !in rs
    ensures var r := RecordOf(Config.JobQueueColumns,
                              NewJobRow(jobId, created, sourceFolderId, outputFolderId, maxVideos, maxDuration));
      PendingJobs(rs + [r]) == Some(PendingJobs(rs).value + [
        Job(Some(Str(jobId)), Some(Str(sourceFolderId)), Some(Str(outputFolderId)), maxVideos, maxDuration, |rs| + 2)])
  {
    var r := RecordOf(Config.JobQueueColumns,
                      NewJobRow(jobId, created, sourceFolderId, outputFolderId, maxVideos, maxDuration));
    NewJobRecordFields(jobId, created, sourceFolderId, outputFolderId, maxVideos, maxDuration);
    PendingPrefixExtended(rs, r, |rs|);
    var rs' := rs + [r];
    assert rs'[|rs|] == r;
    assert Lower("pending") == "pending";
    assert FirstIndex(rs', r) == |rs|;
  }
}
