/**
 * Policy constants, job validation, output naming and run counters of the video
 * combiner's configuration module.
 */
module Config {
  import opened Wrappers

  /** Defaults a job falls back on when it names no limit. */
  const MaxVideosPerJob: int := 3
  const MaxDurationSeconds: int := 300
  /** Size ceiling for source videos, in megabytes. */
  const MaxVideoSizeMb: int := 100

  /** Policy caps checked by job validation. */
  const VideoCountCap: int := 5
  const DurationCapSeconds: int := 600

  const TooManyVideos: string := "Max videos cannot exceed 5"
  const TooLong: string := "Max duration cannot exceed 10 minutes"

  /** Column names of the job-queue worksheet, in column order. */
  const JobQueueColumns: seq<string> :=
    ["JobID", "CreatedDate", "Status", "Message", "OutputURL",
     "SourceFolderID", "OutputFolderID", "MaxVideos", "MaxDuration"]

  /** The status domain of a job record. */
  const StatusValues: seq<string> := ["pending", "processing", "completed", "failed", "cancelled"]

  /**
   * Checks a job's limits against the policy caps and lists the violations,
   * the video-count one first. A limit the job does not carry takes its default.
   */
  method ValidateJobConfig(maxVideos: Option<int>, maxDuration: Option<int>) returns (errors: seq<string>)
    ensures |errors| <= 2
    ensures TooManyVideos in errors <==> maxVideos.GetOr(MaxVideosPerJob) > VideoCountCap
    ensures TooLong in errors <==> maxDuration.GetOr(MaxDurationSeconds) > DurationCapSeconds
    ensures errors == [] <==>
      maxVideos.GetOr(MaxVideosPerJob) <= VideoCountCap && maxDuration.GetOr(MaxDurationSeconds) <= DurationCapSeconds
    ensures |errors| == 2 ==> errors == [TooManyVideos, TooLong]
  {
    errors := [];
    var videos := maxVideos.GetOr(MaxVideosPerJob);
    if videos > VideoCountCap {
      errors := errors + [TooManyVideos];
    }
    var duration := maxDuration.GetOr(MaxDurationSeconds);
    if duration > DurationCapSeconds {
      errors := errors + [TooLong];
    }
  }

  /**
   * The timestamped name of a combined video; the clock reading `timestamp`
   * (formatted `%Y%m%d_%H%M%S`) is a parameter.
   */
  function OutputFilename(jobId: string, timestamp: string, extension: string := ".mp4"): (name: string)
    ensures |name| == |"combined_"| + |jobId| + 1 + |timestamp| + |extension|
    ensures name[..|"combined_"|] == "combined_"
    ensures name[|name| - |extension|..] == extension
  {
    "combined_" + jobId + "_" + timestamp + extension
  }

  /** The job id a name made by OutputFilename carries, given the timestamp and extension. */
  function JobIdOfOutputFilename(name: string, timestamp: string, extension: string): Option<string> {
    var tail := |"_"| + |timestamp| + |extension|;
    if |name| >= |"combined_"| + tail
       && name[..|"combined_"|] == "combined_"
       && name[|name| - tail..] == "_" + timestamp + extension
    then Some(name[|"combined_"|..|name| - tail])
    else None
  }

  /** The job id can be read back from the output name: names of different jobs differ. */
  lemma OutputFilenameRoundTrip(jobId: string, timestamp: string, extension: string)
    ensures JobIdOfOutputFilename(OutputFilename(jobId, timestamp, extension), timestamp, extension) == Some(jobId)
  {
    var name := OutputFilename(jobId, timestamp, extension);
    assert name == "combined_" + jobId + ("_" + timestamp + extension);
  }

  /** Two jobs named with the same timestamp never share an output file name. */
  lemma OutputFilenameInjective(jobA: string, jobB: string, timestamp: string, extension: string)
    requires OutputFilename(jobA, timestamp, extension) == OutputFilename(jobB, timestamp, extension)
    ensures jobA == jobB
  {
    OutputFilenameRoundTrip(jobA, timestamp, extension);
    OutputFilenameRoundTrip(jobB, timestamp, extension);
  }

  /** Process-wide run counters. */
  class Metrics {
    var jobsProcessed: int
    var videosCombined: int
    var totalProcessingTime: real
    var errorsEncountered: int

    constructor ()
      ensures jobsProcessed == 0 && videosCombined == 0
      ensures totalProcessingTime == 0.0 && errorsEncountered == 0
    {
      jobsProcessed, videosCombined := 0, 0;
      totalProcessingTime, errorsEncountered := 0.0, 0;
    }

    /** Sets every counter back to zero. */
    method Reset()
      modifies this
      ensures jobsProcessed == 0 && videosCombined == 0
      ensures totalProcessingTime == 0.0 && errorsEncountered == 0
    {
      jobsProcessed := 0;
      videosCombined := 0;
      totalProcessingTime := 0.0;
      errorsEncountered := 0;
    }
  }
}
