/** The legacy ingest routes (backend/app/api/ingest.py) over the job store. Progress values
    are kept in hundredths (0.05 is 5). */
module IngestApi {
  import opened Base
  import opened IngestJobs

  /** `PROGRESS_MAP`, in hundredths. */
  const ProgressMap: map<string, int> :=
    map["queued" := 5, "analyzing" := 35, "mezzanine" := 60, "trainer-ready" := 85, "completed" := 100]

  /** The progress table covers the sequence, rises strictly along it and ends at 1.0. */
  lemma ProgressMapAlongSequence()
    ensures forall i :: 0 <= i < |StateSequence| ==> StateSequence[i] in ProgressMap
    ensures forall i, j :: 0 <= i < j < |StateSequence| ==> ProgressMap[StateSequence[i]] < ProgressMap[StateSequence[j]]
    ensures ProgressMap["completed"] == 100
  {
  }

  datatype IngestStatus = IngestStatus(jobId: string, state: string, progress: int, states: seq<string>)

  /** The response for a job view. */
  function StatusOf(view: JobView, states: seq<string>): (r: IngestStatus)
    requires view.state in ProgressMap
    ensures r.jobId == view.jobId && r.state == view.state && r.states == states
    ensures 0 < r.progress <= 100
  {
    IngestStatus(view.jobId, view.state, ProgressMap[view.state], states)
  }

  /** `start_ingest`: a new queued job at progress 0.05. */
  method StartIngest(store: IngestJobStore, sourceUrl: string) returns (r: IngestStatus)
    requires store.Valid()
    modifies store
    ensures store.Valid()
    ensures store.jobs == old(store.jobs)[r.jobId := JobEntry(0, sourceUrl)]
    ensures r == IngestStatus(JobId(|old(store.order)| + 1), "queued", 5, StateSequence)
  {
    var view := store.CreateJob(sourceUrl);
    r := StatusOf(view, store.Sequence());
  }

  /** `get_ingest_status`: advances the job unless `advance` is false, and answers 404 for
      an unknown id. */
  method GetIngestStatus(store: IngestJobStore, jobId: string, advance: bool) returns (r: Result<IngestStatus>)
    requires store.Valid()
    modifies store
    ensures store.Valid() && store.order == old(store.order)
    ensures jobId !in old(store.jobs) ==> r == Err(HttpError(404, "job not found")) && store.jobs == old(store.jobs)
    ensures jobId in old(store.jobs) ==>
              var e := old(store.jobs)[jobId];
              var p := if advance then Next(e.position) else e.position;
              && store.jobs == old(store.jobs)[jobId := JobEntry(p, e.source)]
              && r == Ok(IngestStatus(jobId, StateSequence[p], ProgressMap[StateSequence[p]], StateSequence))
  {
    var job: Result<JobView>;
    if advance {
      job := store.AdvanceJob(jobId);
    } else {
      job := store.PeekJob(jobId);
    }
    if job.Err? {
      return Err(HttpError(404, "job not found"));
    }
    ProgressMapAlongSequence();
    r := Ok(StatusOf(job.value, store.Sequence()));
  }
}
