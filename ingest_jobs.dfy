/** The legacy ingest job store (backend/app/services/ingest.py): jobs named "job-<n>" in
    creation order, each cycling through five states. The `itertools.cycle` iterator of a
    job is its position in the state sequence. */
module IngestJobs {
  import opened Base
  import opened Text

  /** `_state_sequence`. */
  const StateSequence: seq<string> := ["queued", "analyzing", "mezzanine", "trainer-ready", "completed"]

  const Cycle := 5

  /** The position the cycle moves to from `p`. */
  function Next(p: nat): (q: nat)
    requires p < Cycle
    ensures q < Cycle
    ensures q == if p == Cycle - 1 then 0 else p + 1
  {
    (p + 1) % Cycle
  }

  /** The position after `n` advances from `p`. */
  function Advanced(p: nat, n: nat): (q: nat)
    requires p < Cycle
    ensures q < Cycle
  {
    if n == 0 then p else Next(Advanced(p, n - 1))
  }

  /** After `n` advances a job sits at position `(p + n) % 5`. */
  lemma {:induction false} AdvancedIsModular(p: nat, n: nat)
    requires p < Cycle
    ensures Advanced(p, n) == (p + n) % Cycle
  {
    if n > 0 {
      AdvancedIsModular(p, n - 1);
    }
  }

  /** Five advances bring a job back to the state it was in; the state after "completed" is
      "queued". */
  lemma FiveAdvancesReturn(p: nat)
    requires p < Cycle
    ensures Advanced(p, 5) == p
    ensures StateSequence[Next(Cycle - 1)] == "queued" && StateSequence[Cycle - 1] == "completed"
  {
    AdvancedIsModular(p, 5);
  }

  /** The id of the `n`-th job. */
  function JobId(n: nat): string
  {
    "job-" + NatToString(n)
  }

  lemma JobIdInjective(a: nat, b: nat)
    requires JobId(a) == JobId(b)
    ensures a == b
  {
    assert JobId(a)[4..] == NatToString(a);
    assert JobId(b)[4..] == NatToString(b);
    NatToStringInjective(a, b);
  }

  /** The id after job-1 .. job-n is none of them. */
  lemma NextIdIsFresh(order: seq<string>)
    requires forall i :: 0 <= i < |order| ==> order[i] == JobId(i + 1)
    ensures JobId(|order| + 1) !in order
  {
    if JobId(|order| + 1) in order {
      var i :| 0 <= i < |order| && order[i] == JobId(|order| + 1);
      JobIdInjective(i + 1, |order| + 1);
    }
  }

  /** A stored job: the position of its cycle and its source. */
  datatype JobEntry = JobEntry(position: nat, source: string)

  /** The `{"job_id", "state"}` dict returned to callers. */
  datatype JobView = JobView(jobId: string, state: string)

  /** The views of the jobs `ids`, in that order. */
  function Views(jobs: map<string, JobEntry>, ids: seq<string>): (r: seq<JobView>)
    requires forall k :: k in ids ==> k in jobs && jobs[k].position < Cycle
    ensures |r| == |ids|
    ensures forall i :: 0 <= i < |ids| ==> r[i] == JobView(ids[i], StateSequence[jobs[ids[i]].position])
  {
    if ids == [] then []
    else [JobView(ids[0], StateSequence[jobs[ids[0]].position])] + Views(jobs, ids[1..])
  }

  /** The ids are job-1 .. job-n in creation order, and every cycle position is in range. */
  ghost predicate WellFormed(jobs: map<string, JobEntry>, order: seq<string>)
  {
    && |order| == |jobs|
    && (forall i :: 0 <= i < |order| ==> order[i] == JobId(i + 1))
    && (forall k :: k in jobs <==> k in order)
    && (forall k :: k in jobs ==> jobs[k].position < Cycle)
  }

  /** Appending the next id keeps the ids numbered by position. */
  lemma NextIdExtends(order: seq<string>)
    requires forall i :: 0 <= i < |order| ==> order[i] == JobId(i + 1)
    ensures var order1 := order + [JobId(|order| + 1)];
            forall i :: 0 <= i < |order1| ==> order1[i] == JobId(i + 1)
  {
    var order1 := order + [JobId(|order| + 1)];
    forall i | 0 <= i < |order1|
      ensures order1[i] == JobId(i + 1)
    {
      if i < |order| {
        assert order1[i] == order[i];
      }
    }
  }

  /** Adding the next job keeps the table well formed. */
  lemma CreateKeepsWellFormed(jobs: map<string, JobEntry>, order: seq<string>, source: string)
    requires WellFormed(jobs, order)
    ensures JobId(|order| + 1) !in jobs
    ensures WellFormed(jobs[JobId(|order| + 1) := JobEntry(0, source)], order + [JobId(|order| + 1)])
  {
    var id := JobId(|order| + 1);
    NextIdIsFresh(order);
    NextIdExtends(order);
    assert |jobs[id := JobEntry(0, source)]| == |jobs| + 1;
  }

  class IngestJobStore {
    var jobs: map<string, JobEntry>
    /** The dict's insertion order. */
    var order: seq<string>

    /** The ids are job-1 .. job-n in creation order, and every cycle position is in range. */
    ghost predicate Valid()
      reads this
    {
      WellFormed(jobs, order)
    }

    constructor ()
      ensures Valid() && jobs == map[] && order == []
    {
      jobs := map[];
      order := [];
    }

    /** `sequence`. */
    function Sequence(): (r: seq<string>)
      ensures |r| == Cycle && r[0] == "queued" && r[Cycle - 1] == "completed"
      ensures forall i, j :: 0 <= i < j < |r| ==> r[i] != r[j]
    {
      StateSequence
    }

    /** `create_job`: the next id, starting in "queued". */
    method CreateJob(source: string) returns (view: JobView)
      requires Valid()
      modifies this
      ensures Valid()
      ensures view == JobView(JobId(|old(order)| + 1), "queued")
      ensures view.jobId !in old(jobs)
      ensures jobs == old(jobs)[view.jobId := JobEntry(0, source)]
      ensures order == old(order) + [view.jobId]
    {
      var jobId := JobId(|jobs| + 1);
      CreateKeepsWellFormed(jobs, order, source);
      jobs := jobs[jobId := JobEntry(0, source)];
      order := order + [jobId];
      view := JobView(jobId, StateSequence[0]);
    }

    /** `advance_job`: KeyError for an unknown id; otherwise the next state of the cycle. */
    method AdvanceJob(jobId: string) returns (r: Result<JobView>)
      requires Valid()
      modifies this
      ensures Valid() && order == old(order)
      ensures jobId !in old(jobs) ==> r == Err(KeyError(jobId)) && jobs == old(jobs)
      ensures jobId in old(jobs) ==>
                var e := old(jobs)[jobId];
                && jobs == old(jobs)[jobId := JobEntry(Next(e.position), e.source)]
                && r == Ok(JobView(jobId, StateSequence[Next(e.position)]))
    {
      if jobId !in jobs {
        return Err(KeyError(jobId));
      }
      var e := jobs[jobId];
      jobs := jobs[jobId := JobEntry(Next(e.position), e.source)];
      return Ok(JobView(jobId, StateSequence[Next(e.position)]));
    }

    /** `peek_job`: KeyError for an unknown id; otherwise the current state. */
    function PeekJob(jobId: string): (r: Result<JobView>)
      requires Valid()
      reads this
      ensures r.Err? <==> jobId !in jobs
      ensures r.Err? ==> r.error == KeyError(jobId)
      ensures r.Ok? ==> r.value == JobView(jobId, StateSequence[jobs[jobId].position])
    {
      if jobId !in jobs then Err(KeyError(jobId))
      else Ok(JobView(jobId, StateSequence[jobs[jobId].position]))
    }

    /** `list_jobs`: every job, in creation order, with its current state. */
    function ListJobs(): (r: seq<JobView>)
      requires Valid()
      reads this
      ensures |r| == |jobs|
      ensures forall i :: 0 <= i < |r| ==> r[i].jobId == JobId(i + 1) && PeekJob(r[i].jobId) == Ok(r[i])
    {
      Views(jobs, order)
    }
  }
}
