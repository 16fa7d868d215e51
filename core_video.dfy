/** The core-video ingest module (volley-sense/apps/api/app/modules/core_video/router.py): the
    upload checks, the job table `JOBS`, the simulated transcode and the job lookup. The
    MIME guess of `mimetypes` and the fresh `uuid4().hex` are parameters; the background task
    runs as the separate method `SimulateTranscode`, and the job as it can be observed at each
    of its pauses is the ghost trace that method returns. */
module CoreVideo {
  import opened Base
  import opened Text
  import opened PyValues

  const SupportedExtensions: set<string> := {".mp4", ".mov", ".mkv", ".webm", ".avi"}

  /** One history entry `{"step": ..., "status": ...}`. */
  datatype HistoryEntry = HistoryEntry(step: string, status: string)

  datatype IngestJob = IngestJob(jobId: string, filename: string, status: string, mezzanineUrl: Option<string>,
                                 proxyUrl: Option<string>, thumbnails: seq<string>, history: seq<HistoryEntry>)

  datatype IngestResponse = IngestResponse(jobId: string, status: string, filename: string,
                                           mezzanineUrl: Option<string>, proxyUrl: Option<string>,
                                           thumbnails: seq<string>)

  /** The response for a stored job: its fields without the history. */
  function ResponseOf(job: IngestJob): IngestResponse
  {
    IngestResponse(job.jobId, job.status, job.filename, job.mezzanineUrl, job.proxyUrl, job.thumbnails)
  }

  /** The lower-cased suffix of the upload's name (`Path(file.filename or "").suffix.lower()`). */
  function UploadSuffix(filename: Option<string>): string
  {
    Lower(Suffix(PathName(if NonEmpty(filename) then filename.value else "")))
  }

  /** The two refusals of `ingest_video`: an unsupported suffix, then a MIME guess that is not
      a video type. */
  function CheckUpload(filename: Option<string>, guessedType: Option<string>): (r: Outcome)
    ensures r.Pass? <==> UploadSuffix(filename) in SupportedExtensions
                         && (!NonEmpty(guessedType) || StartsWith(guessedType.value, "video/"))
    ensures UploadSuffix(filename) !in SupportedExtensions ==>
              r == Fail(HttpError(400, "Unsupported format. Upload mp4, mov, mkv, webm, or avi."))
    ensures UploadSuffix(filename) in SupportedExtensions && NonEmpty(guessedType)
            && !StartsWith(guessedType.value, "video/") ==>
              r == Fail(HttpError(400, "Provided file is not recognised as a video stream."))
  {
    if UploadSuffix(filename) !in SupportedExtensions then
      Fail(HttpError(400, "Unsupported format. Upload mp4, mov, mkv, webm, or avi."))
    else if NonEmpty(guessedType) && !StartsWith(guessedType.value, "video/") then
      Fail(HttpError(400, "Provided file is not recognised as a video stream."))
    else Pass
  }

  /** An accepted upload always has a name, so the "upload" fallback of the job's file name
      is never taken. */
  lemma AcceptedUploadHasName(filename: Option<string>, guessedType: Option<string>)
    requires CheckUpload(filename, guessedType).Pass?
    ensures NonEmpty(filename)
  {
  }

  /** A job as `ingest_video` creates it. */
  function QueuedJob(jobId: string, filename: Option<string>): (job: IngestJob)
    ensures job.jobId == jobId && job.status == "queued"
    ensures job.mezzanineUrl == None && job.proxyUrl == None && job.thumbnails == [] && job.history == []
  {
    IngestJob(jobId, if NonEmpty(filename) then filename.value else "upload", "queued", None, None, [], [])
  }

  function MediaUrl(jobId: string, name: string): string
  {
    "/media/" + jobId + "/" + name
  }

  /** The job as it can be seen at each pause of `_simulate_transcode`: before it starts, then
      after each of its five steps. */
  function TranscodeTrace(job: IngestJob): (trace: seq<IngestJob>)
    ensures |trace| == 6 && trace[0] == job
  {
    var s1 := job.(status := "processing", history := job.history + [HistoryEntry("transcode", "running")]);
    var s2 := s1.(mezzanineUrl := Some(MediaUrl(job.jobId, "mezzanine-1080p.mp4")),
                  history := s1.history + [HistoryEntry("transcode", "completed")]);
    var s3 := s2.(history := s2.history + [HistoryEntry("proxy", "running")],
                  proxyUrl := Some(MediaUrl(job.jobId, "proxy-720p.mp4")));
    var s4 := s3.(history := s3.history + [HistoryEntry("proxy", "completed")] + [HistoryEntry("thumbnails", "running")]);
    var s5 := s4.(thumbnails := [MediaUrl(job.jobId, "thumb-1.jpg"), MediaUrl(job.jobId, "thumb-2.jpg"),
                                 MediaUrl(job.jobId, "thumb-3.jpg")],
                  history := s4.history + [HistoryEntry("thumbnails", "completed")], status := "complete");
    [job, s1, s2, s3, s4, s5]
  }

  /** The six history entries, in order. */
  const TranscodeHistory: seq<HistoryEntry> :=
    [HistoryEntry("transcode", "running"), HistoryEntry("transcode", "completed"),
     HistoryEntry("proxy", "running"), HistoryEntry("proxy", "completed"),
     HistoryEntry("thumbnails", "running"), HistoryEntry("thumbnails", "completed")]

  /** From a freshly queued job the transcode moves queued, processing, complete; ends with the
      two URLs derived from the job id, exactly three thumbnails and the six history entries;
      and only ever adds to the history. */
  lemma TranscodeLifecycle(job: IngestJob)
    requires job.status == "queued" && job.history == []
    ensures var t := TranscodeTrace(job);
            && t[0].status == "queued"
            && (forall k :: 1 <= k < 5 ==> t[k].status == "processing")
            && t[5].status == "complete"
            && t[5].mezzanineUrl == Some("/media/" + job.jobId + "/mezzanine-1080p.mp4")
            && t[5].proxyUrl == Some("/media/" + job.jobId + "/proxy-720p.mp4")
            && |t[5].thumbnails| == 3
            && (forall k :: 0 <= k < 3 ==> t[5].thumbnails[k] == "/media/" + job.jobId + "/thumb-" + [DigitChar(k + 1)] + ".jpg")
            && t[5].history == TranscodeHistory
            && (forall k :: 0 <= k < 5 ==> t[k].history <= t[k + 1].history)
            && (forall k :: 0 <= k < 6 ==> t[k].jobId == job.jobId && t[k].filename == job.filename)
  {
    TranscodeStatuses(job);
    TranscodeUrls(job);
    TranscodeThumbnails(job);
    TranscodeHistoryGrows(job);
  }

  lemma TranscodeStatuses(job: IngestJob)
    ensures var t := TranscodeTrace(job);
            && (forall k :: 1 <= k < 5 ==> t[k].status == "processing")
            && t[5].status == "complete"
            && (forall k :: 0 <= k < 6 ==> t[k].jobId == job.jobId && t[k].filename == job.filename)
  {
  }

  /** `MediaUrl` is the job's media prefix followed by "/" and the name. */
  lemma MediaUrlSplits(jobId: string, name: string)
    ensures MediaUrl(jobId, name) == "/media/" + jobId + ("/" + name)
  {
  }

  lemma TranscodeUrls(job: IngestJob)
    ensures var t := TranscodeTrace(job);
            && t[5].mezzanineUrl == Some("/media/" + job.jobId + "/mezzanine-1080p.mp4")
            && t[5].proxyUrl == Some("/media/" + job.jobId + "/proxy-720p.mp4")
  {
    MediaUrlSplits(job.jobId, "mezzanine-1080p.mp4");
    MediaUrlSplits(job.jobId, "proxy-720p.mp4");
    assert "/" + "mezzanine-1080p.mp4" == "/mezzanine-1080p.mp4";
    assert "/" + "proxy-720p.mp4" == "/proxy-720p.mp4";
  }

  lemma TranscodeThumbnails(job: IngestJob)
    ensures var t := TranscodeTrace(job);
            && |t[5].thumbnails| == 3
            && (forall k :: 0 <= k < 3 ==> t[5].thumbnails[k] == "/media/" + job.jobId + "/thumb-" + [DigitChar(k + 1)] + ".jpg")
  {
    var t := TranscodeTrace(job);
    assert t[5].thumbnails == [MediaUrl(job.jobId, "thumb-1.jpg"), MediaUrl(job.jobId, "thumb-2.jpg"),
                               MediaUrl(job.jobId, "thumb-3.jpg")];
    forall k | 0 <= k < 3
      ensures t[5].thumbnails[k] == "/media/" + job.jobId + "/thumb-" + [DigitChar(k + 1)] + ".jpg"
    {
      var d := DigitChar(k + 1);
      var name := "thumb-" + [d] + ".jpg";
      assert t[5].thumbnails[k] == MediaUrl(job.jobId, name);
      MediaUrlSplits(job.jobId, name);
      assert "/" + name == "/thumb-" + [d] + ".jpg";
    }
  }

  lemma TranscodeHistoryGrows(job: IngestJob)
    requires job.history == []
    ensures var t := TranscodeTrace(job);
            && t[5].history == TranscodeHistory
            && (forall k :: 0 <= k < 5 ==> t[k].history <= t[k + 1].history)
  {
    var t := TranscodeTrace(job);
    assert t[5].history == [] + [TranscodeHistory[0]] + [TranscodeHistory[1]] + [TranscodeHistory[2]]
                           + [TranscodeHistory[3], TranscodeHistory[4]] + [TranscodeHistory[5]];
  }

  class JobTable {
    /** `JOBS`. */
    var jobs: map<string, IngestJob>

    constructor ()
      ensures jobs == map[]
    {
      jobs := map[];
    }

    /** `ingest_video`: refused uploads change nothing; otherwise a queued job is stored under
        the new id and described. */
    method IngestVideo(filename: Option<string>, guessedType: Option<string>, newId: string)
        returns (r: Result<IngestResponse>)
      modifies this
      ensures CheckUpload(filename, guessedType).Fail? ==>
                r == Err(CheckUpload(filename, guessedType).error) && jobs == old(jobs)
      ensures CheckUpload(filename, guessedType).Pass? ==>
                jobs == old(jobs)[newId := QueuedJob(newId, filename)]
                && r == Ok(ResponseOf(QueuedJob(newId, filename)))
                && GetJob(newId) == r
    {
      var check := CheckUpload(filename, guessedType);
      if check.Fail? {
        return Err(check.error);
      }
      var job := QueuedJob(newId, filename);
      jobs := jobs[newId := job];
      return Ok(ResponseOf(job));
    }

    /** `_simulate_transcode`, step by step; the id of a job that is not stored raises
        `KeyError`. */
    method SimulateTranscode(jobId: string) returns (r: Outcome, ghost trace: seq<IngestJob>)
      modifies this
      ensures jobId !in old(jobs) ==> r == Fail(KeyError(jobId)) && jobs == old(jobs)
      ensures jobId in old(jobs) ==>
                && r == Pass
                && trace == TranscodeTrace(old(jobs)[jobId])
                && jobs == old(jobs)[jobId := trace[5]]
    {
      trace := [];
      if jobId !in jobs {
        return Fail(KeyError(jobId)), trace;
      }
      var job := jobs[jobId];
      ghost var expected := TranscodeTrace(job);
      trace := [job];
      job := job.(status := "processing");
      job := job.(history := job.history + [HistoryEntry("transcode", "running")]);
      assert job == expected[1];
      trace := trace + [job];
      job := job.(mezzanineUrl := Some(MediaUrl(job.jobId, "mezzanine-1080p.mp4")));
      job := job.(history := job.history + [HistoryEntry("transcode", "completed")]);
      assert job == expected[2];
      trace := trace + [job];
      job := job.(history := job.history + [HistoryEntry("proxy", "running")]);
      job := job.(proxyUrl := Some(MediaUrl(job.jobId, "proxy-720p.mp4")));
      assert job == expected[3];
      trace := trace + [job];
      job := job.(history := job.history + [HistoryEntry("proxy", "completed")]);
      job := job.(history := job.history + [HistoryEntry("thumbnails", "running")]);
      assert job == expected[4];
      trace := trace + [job];
      job := job.(thumbnails := [MediaUrl(job.jobId, "thumb-1.jpg"), MediaUrl(job.jobId, "thumb-2.jpg"),
                                 MediaUrl(job.jobId, "thumb-3.jpg")]);
      job := job.(history := job.history + [HistoryEntry("thumbnails", "completed")]);
      job := job.(status := "complete");
      assert job == expected[5];
      trace := trace + [job];
      jobs := jobs[jobId := job];
      assert trace == [expected[0], expected[1], expected[2], expected[3], expected[4], expected[5]];
      return Pass, trace;
    }

    /** `get_job`: 404 for an unknown id, otherwise the stored job's fields. */
    function GetJob(jobId: string): (r: Result<IngestResponse>)
      reads this
      ensures r.Err? <==> jobId !in jobs
      ensures r.Err? ==> r.error == HttpError(404, "Job not found")
      ensures r.Ok? ==> r.value.jobId == jobs[jobId].jobId && r.value.status == jobs[jobId].status
                        && r.value.filename == jobs[jobId].filename
                        && r.value.mezzanineUrl == jobs[jobId].mezzanineUrl
                        && r.value.proxyUrl == jobs[jobId].proxyUrl
                        && r.value.thumbnails == jobs[jobId].thumbnails
    {
      if jobId !in jobs then Err(HttpError(404, "Job not found")) else Ok(ResponseOf(jobs[jobId]))
    }
  }

  /** `analyze`: echoes the game id, started. */
  function Analyze(gameId: string): (r: (string, string))
    ensures r.0 == gameId && r.1 == "started"
  {
    (gameId, "started")
  }
}
