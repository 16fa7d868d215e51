/** The ingest worker (backend/app/services/ingest_worker.py): stage progress, asset URLs,
    the GPU switch, the stderr tail, and the sequence of job updates `run_ingest` makes.
    Each ffprobe/ffmpeg run is given as its outcome: the argument vector, the exit code and
    the drained stderr lines. */
module IngestWorker {
  import opened Base
  import opened Text
  import IS = IngestState

  // ---------------------------------------------------------------- constants

  /** The stages `STAGE_PROGRESS` names, in pipeline order. */
  const Stages: seq<string> := ["validate", "transcode_mezz", "make_proxy", "thumbs", "ready"]

  /** `STAGE_PROGRESS`. */
  const StageProgress: map<string, int> :=
    map["validate" := 5, "transcode_mezz" := 60, "make_proxy" := 80, "thumbs" := 95, "ready" := 100]

  /** Progress strictly increases along the pipeline and ends at 100. */
  lemma StageProgressIncreases()
    ensures StageProgress.Keys == set s | s in Stages
    ensures forall i, j :: 0 <= i < j < |Stages| ==> StageProgress[Stages[i]] < StageProgress[Stages[j]]
    ensures StageProgress[Stages[|Stages| - 1]] == 100
  {
  }

  /** `_gpu_enabled` for the value of `USE_GPU` (default "false"). */
  predicate GpuEnabled(useGpu: Option<string>)
  {
    var v := Lower(if useGpu.Some? then useGpu.value else "false");
    v == "1" || v == "true" || v == "yes" || v == "on"
  }

  /** The GPU is off unless asked for, and the switch ignores case. */
  lemma GpuEnabledCases(useGpu: string)
    ensures !GpuEnabled(None)
    ensures GpuEnabled(Some(useGpu)) == GpuEnabled(Some(Lower(useGpu)))
    ensures GpuEnabled(Some("TRUE")) && GpuEnabled(Some("On")) && !GpuEnabled(Some("0"))
  {
    LowerIdempotent(useGpu);
  }

  // ---------------------------------------------------------------- asset URLs

  const MezzPrefix := "/assets/mezz/"
  const ProxyPrefix := "/assets/proxy/"
  const ThumbsPrefix := "/assets/thumbs/"
  const MetaPrefix := "/assets/meta/"
  const ThumbsPattern := "/thumb_%04d.jpg"
  const KeyframesName := "/keyframes.csv"

  /** `_build_asset_urls`. */
  function BuildAssetUrls(uploadId: string): map<string, string>
  {
    map["mezzanine_url" := MezzPrefix + uploadId + ".mp4",
        "proxy_url" := ProxyPrefix + uploadId + ".mp4",
        "thumbs_glob" := ThumbsPrefix + uploadId + ThumbsPattern,
        "keyframes_csv" := MetaPrefix + uploadId + KeyframesName]
  }

  /** The four URLs name the upload: its id is recovered from each of them, so different
      uploads never share an asset. */
  lemma AssetUrlsNameTheUpload(uploadId: string)
    ensures var u := BuildAssetUrls(uploadId);
            && u.Keys == {"mezzanine_url", "proxy_url", "thumbs_glob", "keyframes_csv"}
            && u["mezzanine_url"][|MezzPrefix|..|u["mezzanine_url"]| - 4] == uploadId
            && u["proxy_url"][|ProxyPrefix|..|u["proxy_url"]| - 4] == uploadId
            && u["thumbs_glob"][|ThumbsPrefix|..|u["thumbs_glob"]| - |ThumbsPattern|] == uploadId
            && u["keyframes_csv"][|MetaPrefix|..|u["keyframes_csv"]| - |KeyframesName|] == uploadId
  {
    var u := BuildAssetUrls(uploadId);
    assert u["mezzanine_url"][|MezzPrefix|..|u["mezzanine_url"]| - 4] == uploadId;
    assert u["proxy_url"][|ProxyPrefix|..|u["proxy_url"]| - 4] == uploadId;
    assert u["thumbs_glob"][|ThumbsPrefix|..|u["thumbs_glob"]| - |ThumbsPattern|] == uploadId;
    assert u["keyframes_csv"][|MetaPrefix|..|u["keyframes_csv"]| - |KeyframesName|] == uploadId;
  }

  lemma AssetUrlsInjective(a: string, b: string)
    requires BuildAssetUrls(a) == BuildAssetUrls(b)
    ensures a == b
  {
    AssetUrlsNameTheUpload(a);
    AssetUrlsNameTheUpload(b);
  }

  // ---------------------------------------------------------------- _drain_stderr

  /** The lines the stderr tail keeps: right-stripped and non-empty, in order. */
  function KeptLines(lines: seq<string>): (r: seq<string>)
    ensures forall i :: 0 <= i < |r| ==> r[i] != "" && !IsSpace(r[i][|r[i]| - 1])
  {
    if lines == [] then []
    else
      var front := KeptLines(lines[..|lines| - 1]);
      var text := RStrip(lines[|lines| - 1]);
      if text != "" then front + [text] else front
  }

  const StderrTail := 40

  /** `_drain_stderr`: reads the lines one by one into a 40-line deque. */
  method DrainStderr(lines: seq<string>) returns (tail: seq<string>)
    ensures tail == LastN(KeptLines(lines), StderrTail)
    ensures |tail| <= StderrTail
  {
    tail := [];
    var i := 0;
    while i < |lines|
      invariant 0 <= i <= |lines|
      invariant tail == LastN(KeptLines(lines[..i]), StderrTail)
    {
      var text := RStrip(lines[i]);
      assert lines[..i + 1][..i] == lines[..i];
      if text != "" {
        LastNAppend(KeptLines(lines[..i]), text, StderrTail);
        tail := LastN(tail + [text], StderrTail);
      }
      i := i + 1;
    }
    assert lines[..|lines|] == lines;
  }

  // ---------------------------------------------------------------- commands

  /** One finished ffprobe/ffmpeg run. */
  datatype CommandRun = CommandRun(argv: seq<string>, returncode: int, stderr: seq<string>)

  /** `str(CommandError(...))`. */
  function CommandMessage(run: CommandRun): string
  {
    "Command " + Join(" ", run.argv) + " failed with exit code " + IntToString(run.returncode)
  }

  /** What the probe output says: whether it lists a video stream, or why it could not be read. */
  datatype Probe = ProbeStreams(hasVideo: bool) | ProbeUnreadable(message: string)

  /** The outcomes of the five runs of one ingest. */
  datatype Runs = Runs(probe: CommandRun, probeOutput: Probe, mezz: CommandRun, proxy: CommandRun,
                       thumbs: CommandRun, keyframes: CommandRun)

  /** Why an ingest stopped: an unknown job, a failed command, or another exception. */
  datatype IngestFailure = UnknownJob(uploadId: string) | CommandFailed(run: CommandRun) | Failed(message: string)

  /** The message stored with a failed job: the last ten stderr lines of a failed command,
      or the exception text. */
  function FailureMessage(f: IngestFailure): string
  {
    match f
    case CommandFailed(run) =>
      var tail := Join("\n", LastN(run.stderr, 10));
      if tail != "" then tail else CommandMessage(run)
    case Failed(m) => m
    case UnknownJob(id) => id
  }

  /** Where the pipeline stops: the number of updates made before the failure, the progress
      reached, and the failure; `None` when every run succeeds. */
  function FirstFailure(runs: Runs): Option<(nat, int, IngestFailure)>
  {
    if runs.probe.returncode != 0 then Some((1, 1, CommandFailed(runs.probe)))
    else if runs.probeOutput.ProbeUnreadable? then Some((1, 1, Failed(runs.probeOutput.message)))
    else if !runs.probeOutput.hasVideo then Some((1, 1, Failed("No video streams detected during validation")))
    else if runs.mezz.returncode != 0 then Some((2, 5, CommandFailed(runs.mezz)))
    else if runs.proxy.returncode != 0 then Some((3, 60, CommandFailed(runs.proxy)))
    else if runs.thumbs.returncode != 0 then Some((4, 80, CommandFailed(runs.thumbs)))
    else if runs.keyframes.returncode != 0 then Some((5, 95, CommandFailed(runs.keyframes)))
    else None
  }

  /** The `message` argument of one `update_job` call. */
  datatype MessageArg = NoMessage | ClearMessage | SetMessage(text: string)

  /** One `update_job` call of the pipeline: status, stage, progress, message and asset slots. */
  datatype JobUpdate = JobUpdate(status: string, stage: string, progress: int, message: MessageArg,
                                 assets: Option<map<string, Option<string>>>)

  /** The keyword arguments of the call. */
  function Fields(u: JobUpdate): map<string, IS.Field>
  {
    var base := map["status" := IS.Text(u.status), "stage" := IS.Text(u.stage), "progress" := IS.Number(u.progress)];
    var withMessage := match u.message
      case NoMessage => base
      case ClearMessage => base["message" := IS.Null]
      case SetMessage(t) => base["message" := IS.Text(t)];
    if u.assets.Some? then withMessage["assets" := IS.Assets(u.assets.value)] else withMessage
  }

  /** The stored job after the calls of `plan`, in order. */
  function Replay(job: IS.Job, plan: seq<JobUpdate>): IS.Job
  {
    if plan == [] then job else IS.UpdatedJob(Replay(job, plan[..|plan| - 1]), Fields(plan[|plan| - 1]))
  }

  function Slots(urls: map<string, string>, keys: set<string>): map<string, Option<string>>
  {
    map k | k in keys && k in urls :: Some(urls[k])
  }

  /** The six updates of a successful ingest, in order. */
  function SuccessUpdates(uploadId: string): (r: seq<JobUpdate>)
    ensures |r| == 6
  {
    var urls := BuildAssetUrls(uploadId);
    [ JobUpdate("running", "validate", 1, ClearMessage, None),
      JobUpdate("running", "transcode_mezz", StageProgress["validate"], NoMessage, None),
      JobUpdate("running", "make_proxy", StageProgress["transcode_mezz"], NoMessage, Some(Slots(urls, {"mezzanine_url"}))),
      JobUpdate("running", "thumbs", StageProgress["make_proxy"], NoMessage, Some(Slots(urls, {"proxy_url"}))),
      JobUpdate("running", "thumbs", StageProgress["thumbs"], NoMessage, None),
      JobUpdate("ready", "ready", StageProgress["ready"], NoMessage, Some(Slots(urls, urls.Keys))) ]
  }

  function ErrorUpdate(progress: int, message: string): JobUpdate
  {
    JobUpdate("error", "error", progress, SetMessage(message), None)
  }

  /** The `update_job` calls `run_ingest` makes for a known job. */
  function Plan(uploadId: string, runs: Runs): seq<JobUpdate>
  {
    PlanOf(SuccessUpdates(uploadId), runs)
  }

  /** The calls made, given the six updates of the successful path: all of them, or those
      before the failure followed by the error update. */
  function PlanOf(steps: seq<JobUpdate>, runs: Runs): seq<JobUpdate>
    requires |steps| == 6
  {
    var f := FirstFailure(runs);
    if f.None? then steps
    else steps[..f.value.0] + [ErrorUpdate(f.value.1, FailureMessage(f.value.2))]
  }

  /** The progress values an ingest reports never go down, and a failure reports the
      progress of the last update before it. */
  lemma PlanProgressNonDecreasing(uploadId: string, runs: Runs)
    ensures var p := Plan(uploadId, runs);
            forall i, j :: 0 <= i < j < |p| ==> p[i].progress <= p[j].progress
    ensures FirstFailure(runs).Some? ==>
              var f := FirstFailure(runs).value;
              1 <= f.0 <= 5 && f.1 == SuccessUpdates(uploadId)[f.0 - 1].progress
  {
    var s := SuccessUpdates(uploadId);
    SuccessProgress(uploadId);
    FailureProgress(runs);
    var p := Plan(uploadId, runs);
    var f := FirstFailure(runs);
    forall i, j | 0 <= i < j < |p|
      ensures p[i].progress <= p[j].progress
    {
      if f.None? {
        assert p[i] == s[i] && p[j] == s[j];
      } else if j == f.value.0 {
        assert p[i] == s[i] && p[j].progress == SuccessProgresses[j - 1];
      } else {
        assert p[i] == s[i] && p[j] == s[j];
      }
    }
  }

  /** The progress `run_ingest` reports after each successful step. */
  const SuccessProgresses: seq<int> := [1, 5, 60, 80, 95, 100]

  lemma SuccessProgress(uploadId: string)
    ensures forall i :: 0 <= i < 6 ==> SuccessUpdates(uploadId)[i].progress == SuccessProgresses[i]
  {
    var s := SuccessUpdates(uploadId);
    assert s[0].progress == 1 && s[1].progress == 5 && s[2].progress == 60;
    assert s[3].progress == 80 && s[4].progress == 95 && s[5].progress == 100;
  }

  /** A failure after `n` updates reports the progress of the `n`-th. */
  lemma FailureProgress(runs: Runs)
    ensures FirstFailure(runs).Some? ==>
              var f := FirstFailure(runs).value;
              1 <= f.0 <= 5 && f.1 == SuccessProgresses[f.0 - 1]
  {
  }

  lemma UpdatedStatus(job: IS.Job, u: JobUpdate)
    ensures var r := IS.UpdatedJob(job, Fields(u));
            && "status" in r && r["status"] == IS.Text(u.status)
            && "stage" in r && r["stage"] == IS.Text(u.stage)
            && "progress" in r && r["progress"] == IS.Number(u.progress)
  {
    IS.UpdateFields(job, Fields(u), "status");
    IS.UpdateFields(job, Fields(u), "stage");
    IS.UpdateFields(job, Fields(u), "progress");
  }

  /** A successful ingest ends ready at 100 with the four derived asset URLs stored. */
  lemma SuccessEnd(job: IS.Job, uploadId: string, runs: Runs)
    requires FirstFailure(runs).None?
    ensures var r := Replay(job, Plan(uploadId, runs));
            var urls := BuildAssetUrls(uploadId);
            && "status" in r && r["status"] == IS.Text("ready")
            && "stage" in r && r["stage"] == IS.Text("ready")
            && "progress" in r && r["progress"] == IS.Number(100)
            && "assets" in r && r["assets"].Assets?
            && (forall k :: k in urls ==> k in r["assets"].slots && r["assets"].slots[k] == Some(urls[k]))
  {
    var p := Plan(uploadId, runs);
    var last := p[|p| - 1];
    var before := Replay(job, p[..|p| - 1]);
    UpdatedStatus(before, last);
    IS.UpdateAssets(before, Fields(last));
    var urls := BuildAssetUrls(uploadId);
    assert Fields(last)["assets"].slots == Slots(urls, urls.Keys);
  }

  /** A failed ingest ends in "error" at the last progress reached, with the failure message. */
  lemma FailureEnd(job: IS.Job, uploadId: string, runs: Runs)
    requires FirstFailure(runs).Some?
    ensures var r := Replay(job, Plan(uploadId, runs));
            var f := FirstFailure(runs).value;
            && "status" in r && r["status"] == IS.Text("error")
            && "stage" in r && r["stage"] == IS.Text("error")
            && "progress" in r && r["progress"] == IS.Number(f.1)
            && "message" in r && r["message"] == IS.Text(FailureMessage(f.2))
  {
    var p := Plan(uploadId, runs);
    var last := p[|p| - 1];
    var before := Replay(job, p[..|p| - 1]);
    UpdatedStatus(before, last);
    IS.UpdateMessage(before, Fields(last));
  }

  /** The message rule: a failed command with stderr output reports its last ten lines;
      one without reports the command line and exit code. */
  lemma FailureMessageRule(run: CommandRun)
    ensures Join("\n", LastN(run.stderr, 10)) != "" ==>
              FailureMessage(CommandFailed(run)) == Join("\n", LastN(run.stderr, 10))
    ensures run.stderr == [] ==> FailureMessage(CommandFailed(run)) == CommandMessage(run)
  {
  }

  // ---------------------------------------------------------------- run_ingest

  /** One `update_job` call of the pipeline on a known job: the trace `done` grows by `u`. */
  method Update(state: IS.IngestState, uploadId: string, u: JobUpdate,
                ghost jobs0: map<string, IS.Job>, ghost job: IS.Job, ghost done: seq<JobUpdate>)
    requires state.Valid() && state.jobs == jobs0[uploadId := Replay(job, done)]
    modifies state
    ensures state.Valid()
    ensures state.jobs == jobs0[uploadId := Replay(job, done + [u])]
    ensures state.jobMeta == old(state.jobMeta)
  {
    var _ := state.UpdateJob(uploadId, Fields(u));
    ReplayStep(job, done, u);
  }

  lemma ReplayStep(job: IS.Job, done: seq<JobUpdate>, u: JobUpdate)
    ensures Replay(job, done + [u]) == IS.UpdatedJob(Replay(job, done), Fields(u))
  {
    assert (done + [u])[..|done|] == done;
  }

  /** The next update of `steps`, the `i`-th, made on a known job. */
  method Advance(state: IS.IngestState, uploadId: string, steps: seq<JobUpdate>, i: nat,
                 ghost jobs0: map<string, IS.Job>, ghost job: IS.Job)
    requires i < |steps|
    requires state.Valid() && state.jobs == jobs0[uploadId := Replay(job, steps[..i])]
    modifies state
    ensures state.Valid()
    ensures state.jobs == jobs0[uploadId := Replay(job, steps[..i + 1])]
    ensures state.jobMeta == old(state.jobMeta)
  {
    Update(state, uploadId, steps[i], jobs0, job, steps[..i]);
    assert steps[..i] + [steps[i]] == steps[..i + 1];
  }

  /** The two transcoding stages after validation (mezzanine, then proxy): the updates made,
      the progress reached and the failure, as `FirstFailure` says. */
  method Transcode(state: IS.IngestState, uploadId: string, runs: Runs, steps: seq<JobUpdate>,
                   ghost jobs0: map<string, IS.Job>, ghost job: IS.Job)
    returns (failure: Option<IngestFailure>, progress: int, ghost done: nat)
    requires |steps| == 6
    requires runs.probe.returncode == 0 && runs.probeOutput.ProbeStreams? && runs.probeOutput.hasVideo
    requires state.Valid() && state.jobs == jobs0[uploadId := Replay(job, steps[..1])]
    modifies state
    ensures state.Valid() && state.jobMeta == old(state.jobMeta)
    ensures done <= 3 && state.jobs == jobs0[uploadId := Replay(job, steps[..done])]
    ensures failure.None? <==> runs.mezz.returncode == 0 && runs.proxy.returncode == 0
    ensures failure.None? ==> done == 3 && progress == StageProgress["transcode_mezz"]
    ensures failure.Some? ==> FirstFailure(runs) == Some((done, progress, failure.value))
  {
    failure := None;
    progress := StageProgress["validate"];
    Advance(state, uploadId, steps, 1, jobs0, job);
    done := 2;
    if runs.mezz.returncode != 0 {
      failure := Some(CommandFailed(runs.mezz));
      return;
    }
    progress := StageProgress["transcode_mezz"];
    Advance(state, uploadId, steps, 2, jobs0, job);
    done := 3;
    if runs.proxy.returncode != 0 {
      failure := Some(CommandFailed(runs.proxy));
      return;
    }
  }

  /** The stages after the transcodes (thumbnails, keyframes, ready): the updates made, the
      progress reached and the failure, as `FirstFailure` says. */
  method Publish(state: IS.IngestState, uploadId: string, runs: Runs, steps: seq<JobUpdate>,
                 ghost jobs0: map<string, IS.Job>, ghost job: IS.Job)
    returns (failure: Option<IngestFailure>, progress: int, ghost done: nat)
    requires |steps| == 6
    requires runs.probe.returncode == 0 && runs.probeOutput.ProbeStreams? && runs.probeOutput.hasVideo
    requires runs.mezz.returncode == 0 && runs.proxy.returncode == 0
    requires state.Valid() && state.jobs == jobs0[uploadId := Replay(job, steps[..3])]
    modifies state
    ensures state.Valid() && state.jobMeta == old(state.jobMeta)
    ensures done <= |steps| && state.jobs == jobs0[uploadId := Replay(job, steps[..done])]
    ensures failure.None? <==> runs.thumbs.returncode == 0 && runs.keyframes.returncode == 0
    ensures failure.None? ==> done == |steps|
    ensures failure.Some? ==> FirstFailure(runs) == Some((done, progress, failure.value))
  {
    failure := None;
    progress := StageProgress["make_proxy"];
    Advance(state, uploadId, steps, 3, jobs0, job);
    done := 4;
    if runs.thumbs.returncode != 0 {
      failure := Some(CommandFailed(runs.thumbs));
      return;
    }
    progress := StageProgress["thumbs"];
    Advance(state, uploadId, steps, 4, jobs0, job);
    done := 5;
    if runs.keyframes.returncode != 0 {
      failure := Some(CommandFailed(runs.keyframes));
      return;
    }
    progress := StageProgress["ready"];
    Advance(state, uploadId, steps, 5, jobs0, job);
    done := 6;
  }

  /** `run_ingest`: the job receives exactly the updates of `Plan`, and the failure, if any,
      is raised again. An unknown job raises KeyError without any change. */
  method RunIngest(state: IS.IngestState, uploadId: string, runs: Runs) returns (failure: Option<IngestFailure>)
    requires state.Valid()
    modifies state
    ensures state.Valid()
    ensures uploadId !in old(state.jobs) ==> failure == Some(UnknownJob(uploadId)) && state.jobs == old(state.jobs)
    ensures uploadId in old(state.jobs) ==>
              && state.jobs == old(state.jobs)[uploadId := Replay(old(state.jobs)[uploadId], Plan(uploadId, runs))]
              && failure == (if FirstFailure(runs).None? then None else Some(FirstFailure(runs).value.2))
    ensures state.jobMeta == old(state.jobMeta)
  {
    if uploadId !in state.jobs {
      // the first update raises KeyError, and so does the update in the error handler
      return Some(UnknownJob(uploadId));
    }
    ghost var jobs0 := state.jobs;
    var steps := SuccessUpdates(uploadId);
    failure := Ingest(state, uploadId, runs, steps, jobs0, state.jobs[uploadId]);
  }

  /** The body of `run_ingest` for a known job, over the six updates of the successful path. */
  method Ingest(state: IS.IngestState, uploadId: string, runs: Runs, steps: seq<JobUpdate>,
                ghost jobs0: map<string, IS.Job>, ghost job: IS.Job) returns (failure: Option<IngestFailure>)
    requires |steps| == 6
    requires state.Valid() && state.jobs == jobs0[uploadId := job]
    modifies state
    ensures state.Valid() && state.jobMeta == old(state.jobMeta)
    ensures state.jobs == jobs0[uploadId := Replay(job, PlanOf(steps, runs))]
    ensures failure == (if FirstFailure(runs).None? then None else Some(FirstFailure(runs).value.2))
  {
    assert state.jobs == jobs0[uploadId := Replay(job, steps[..0])];
    Advance(state, uploadId, steps, 0, jobs0, job);
    ghost var done := 1;
    var progress := 1;
    failure := None;
    if runs.probe.returncode != 0 {
      failure := Some(CommandFailed(runs.probe));
    } else if runs.probeOutput.ProbeUnreadable? {
      failure := Some(Failed(runs.probeOutput.message));
    } else if !runs.probeOutput.hasVideo {
      failure := Some(Failed("No video streams detected during validation"));
    } else {
      failure, progress, done := Transcode(state, uploadId, runs, steps, jobs0, job);
      if failure.None? {
        failure, progress, done := Publish(state, uploadId, runs, steps, jobs0, job);
      }
    }
    if failure.Some? {
      assert FirstFailure(runs).value == (done, progress, failure.value);
      Update(state, uploadId, ErrorUpdate(progress, FailureMessage(failure.value)), jobs0, job, steps[..done]);
    } else {
      assert steps[..done] == steps;
    }
  }
}
