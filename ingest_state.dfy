/** The in-memory ingest job table (backend/app/services/ingest_state.py): job creation,
    merge-style updates, copies handed out without a null message, and reset. */
module IngestState {
  import opened Base

  /** A job field value: text, a number, `None`, or the asset-slot dict. */
  datatype Field =
    | Text(s: string)
    | Number(n: int)
    | Null
    | Assets(slots: map<string, Option<string>>)

  type Job = map<string, Field>

  /** The paths recorded beside a job. */
  datatype JobMeta = JobMeta(originalPath: string, originalUrl: string)

  /** `_default_assets`. */
  function DefaultAssets(originalUrl: string): map<string, Option<string>>
  {
    map["original_url" := Some(originalUrl), "mezzanine_url" := None, "proxy_url" := None,
        "thumbs_glob" := None, "keyframes_csv" := None]
  }

  /** The job `create_job` stores. */
  function NewJob(originalUrl: string): Job
  {
    map["status" := Text("queued"), "stage" := Text("queued"), "progress" := Number(0),
        "assets" := Assets(DefaultAssets(originalUrl))]
  }

  predicate NoNullMessage(job: Job)
  {
    "message" in job ==> job["message"] != Null
  }

  /** A stored job: its assets entry, when present, is a dict, and its message is never `None`. */
  predicate GoodJob(job: Job)
  {
    ("assets" in job ==> job["assets"].Assets?) && NoNullMessage(job)
  }

  /** `_clone`: a copy without a `None` message. */
  function Clone(job: Job): (r: Job)
    ensures NoNullMessage(r)
    ensures forall k :: k != "message" ==> (k in r <==> k in job) && (k in r ==> r[k] == job[k])
    ensures "message" in job && job["message"] != Null ==> "message" in r && r["message"] == job["message"]
    ensures NoNullMessage(job) ==> r == job
  {
    if "message" in job && job["message"] == Null then job - {"message"} else job
  }

  // ---------------------------------------------------------------- update_job, as a function

  /** The `message` step: `None` deletes it, anything else sets it. */
  function WithMessage(job: Job, fields: map<string, Field>): Job
  {
    if "message" !in fields then job
    else if fields["message"] == Null then job - {"message"}
    else job["message" := fields["message"]]
  }

  /** The keys written by the plain-field loop. */
  function PlainKeys(fields: map<string, Field>): set<string>
  {
    fields.Keys - {"assets", "message"}
  }

  function WithFields(job: Job, fields: map<string, Field>): Job
  {
    map k | k in job.Keys + PlainKeys(fields) :: if k in PlainKeys(fields) then fields[k] else job[k]
  }

  function MergeSlots(slots: map<string, Option<string>>, update: map<string, Option<string>>): map<string, Option<string>>
  {
    map k | k in slots.Keys + update.Keys :: if k in update then update[k] else slots[k]
  }

  function CurrentSlots(job: Job): map<string, Option<string>>
  {
    if "assets" in job && job["assets"].Assets? then job["assets"].slots else map[]
  }

  /** The stored job after `update_job(**fields)`; with a non-dict `assets` value the message
      and plain fields are already written when the merge fails. */
  function UpdatedJob(job: Job, fields: map<string, Field>): Job
  {
    var written := WithFields(WithMessage(job, fields), fields);
    if "assets" in fields && fields["assets"].Assets? then
      written["assets" := Assets(MergeSlots(CurrentSlots(written), fields["assets"].slots))]
    else written
  }

  function TypeName(f: Field): string
  {
    match f
    case Text(_) => "str"
    case Number(_) => "int"
    case Null => "NoneType"
    case Assets(_) => "dict"
  }

  /** The error `update_job` raises after writing, when `assets` is neither `None` nor a dict. */
  function UpdateFailure(fields: map<string, Field>): Option<Error>
  {
    if "assets" in fields && !fields["assets"].Assets? && fields["assets"] != Null
    then Some(AttributeError("'" + TypeName(fields["assets"]) + "' object has no attribute 'items'"))
    else None
  }

  /** `message=None` removes the message, any other message is stored, and without a message
      argument the message is untouched. */
  lemma UpdateMessage(job: Job, fields: map<string, Field>)
    ensures var r := UpdatedJob(job, fields);
            && ("message" in fields && fields["message"] == Null ==> "message" !in r)
            && ("message" in fields && fields["message"] != Null ==> "message" in r && r["message"] == fields["message"])
            && ("message" !in fields ==> ("message" in r <==> "message" in job)
                                          && ("message" in r ==> r["message"] == job["message"]))
  {
  }

  /** Passed fields overwrite, fields not passed keep their value. */
  lemma UpdateFields(job: Job, fields: map<string, Field>, k: string)
    requires k != "assets" && k != "message"
    ensures var r := UpdatedJob(job, fields);
            && (k in fields ==> k in r && r[k] == fields[k])
            && (k !in fields ==> (k in r <==> k in job) && (k in r ==> r[k] == job[k]))
  {
  }

  /** An assets update merges slot by slot; `assets=None` or no assets argument keeps them. */
  lemma UpdateAssets(job: Job, fields: map<string, Field>)
    ensures var r := UpdatedJob(job, fields);
            && ("assets" in fields && fields["assets"].Assets? ==>
                  var u := fields["assets"].slots;
                  "assets" in r && r["assets"].Assets?
                  && r["assets"].slots.Keys == CurrentSlots(job).Keys + u.Keys
                  && (forall k :: k in u ==> r["assets"].slots[k] == u[k])
                  && (forall k :: k in CurrentSlots(job) && k !in u ==> r["assets"].slots[k] == CurrentSlots(job)[k]))
            && ("assets" !in fields || !fields["assets"].Assets? ==>
                  ("assets" in r <==> "assets" in job) && ("assets" in r ==> r["assets"] == job["assets"]))
  {
    var written := WithFields(WithMessage(job, fields), fields);
    assert CurrentSlots(written) == CurrentSlots(job);
  }

  /** Updating keeps a stored job well formed. */
  lemma UpdateKeepsGoodJob(job: Job, fields: map<string, Field>)
    requires GoodJob(job)
    ensures GoodJob(UpdatedJob(job, fields))
  {
    var r := UpdatedJob(job, fields);
    if "message" in r {
      if "message" in fields {
        assert fields["message"] != Null;
      }
    }
  }

  /** The plain-field loop of `update_job`. */
  method WriteFields(job: Job, fields: map<string, Field>) returns (r: Job)
    ensures r == WithFields(job, fields)
  {
    r := job;
    var pending := PlainKeys(fields);
    while pending != {}
      invariant pending <= PlainKeys(fields)
      invariant r.Keys == job.Keys + (PlainKeys(fields) - pending)
      invariant forall k :: k in r ==>
                  r[k] == if k in PlainKeys(fields) - pending then fields[k] else job[k]
      decreases pending
    {
      var k :| k in pending;
      r := r[k := fields[k]];
      pending := pending - {k};
    }
  }

  /** The asset-merge loop of `update_job`. */
  method MergeInto(slots: map<string, Option<string>>, update: map<string, Option<string>>)
      returns (r: map<string, Option<string>>)
    ensures r == MergeSlots(slots, update)
  {
    r := slots;
    var keys := update.Keys;
    while keys != {}
      invariant keys <= update.Keys
      invariant r.Keys == slots.Keys + (update.Keys - keys)
      invariant forall k :: k in r ==> r[k] == if k in update.Keys - keys then update[k] else slots[k]
      decreases keys
    {
      var k :| k in keys;
      r := r[k := update[k]];
      keys := keys - {k};
    }
  }

  // ---------------------------------------------------------------- the tables

  class IngestState {
    var jobs: map<string, Job>
    var jobMeta: map<string, JobMeta>

    ghost predicate Valid()
      reads this
    {
      jobs.Keys == jobMeta.Keys && forall id :: id in jobs ==> GoodJob(jobs[id])
    }

    constructor ()
      ensures Valid() && jobs == map[] && jobMeta == map[]
    {
      jobs := map[];
      jobMeta := map[];
    }

    /** `create_job`: a queued job at progress 0 with only the original asset, replacing any
        job under that id. */
    method CreateJob(uploadId: string, originalPath: string, originalUrl: string) returns (snapshot: Job)
      requires Valid()
      modifies this
      ensures Valid()
      ensures jobs == old(jobs)[uploadId := NewJob(originalUrl)]
      ensures jobMeta == old(jobMeta)[uploadId := JobMeta(originalPath, originalUrl)]
      ensures snapshot == NewJob(originalUrl)
    {
      var job := NewJob(originalUrl);
      jobs := jobs[uploadId := job];
      jobMeta := jobMeta[uploadId := JobMeta(originalPath, originalUrl)];
      snapshot := Clone(job);
    }

    /** `update_job`: KeyError for an unknown id with nothing changed; otherwise the
        message, plain fields and asset slots are written into the stored job. */
    method UpdateJob(uploadId: string, fields: map<string, Field>) returns (r: Result<Job>)
      requires Valid()
      modifies this
      ensures Valid()
      ensures uploadId !in old(jobs) ==> r == Err(KeyError(uploadId)) && jobs == old(jobs)
      ensures uploadId in old(jobs) ==>
                && jobs == old(jobs)[uploadId := UpdatedJob(old(jobs)[uploadId], fields)]
                && (UpdateFailure(fields).Some? ==> r == Err(UpdateFailure(fields).value))
                && (UpdateFailure(fields).None? ==> r == Ok(jobs[uploadId]))
      ensures jobMeta == old(jobMeta)
    {
      if uploadId !in jobs {
        return Err(KeyError(uploadId));
      }
      var job := jobs[uploadId];
      ghost var original := job;

      if "message" in fields {
        if fields["message"] == Null {
          job := job - {"message"};
        } else {
          job := job["message" := fields["message"]];
        }
      }
      assert job == WithMessage(original, fields);

      job := WriteFields(job, fields);
      var failure := UpdateFailure(fields);
      if "assets" in fields && fields["assets"].Assets? {
        var slots := MergeInto(CurrentSlots(job), fields["assets"].slots);
        job := job["assets" := Assets(slots)];
      }
      assert job == UpdatedJob(original, fields);
      UpdateKeepsGoodJob(original, fields);
      jobs := jobs[uploadId := job];
      if failure.Some? {
        return Err(failure.value);
      }
      return Ok(Clone(job));
    }

    /** `get_job`: `None` for an unknown (or empty) job, otherwise a copy. */
    function GetJob(uploadId: string): (r: Option<Job>)
      reads this
      ensures r.None? <==> uploadId !in jobs || jobs[uploadId] == map[]
      ensures r.Some? ==> r.value == Clone(jobs[uploadId]) && NoNullMessage(r.value)
    {
      if uploadId !in jobs || jobs[uploadId] == map[] then None else Some(Clone(jobs[uploadId]))
    }

    /** `get_job_meta`: `None` for an unknown id, otherwise the recorded paths. */
    function GetJobMeta(uploadId: string): (r: Option<JobMeta>)
      reads this
      ensures r.Some? <==> uploadId in jobMeta
      ensures r.Some? ==> r.value == jobMeta[uploadId]
    {
      if uploadId in jobMeta then Some(jobMeta[uploadId]) else None
    }

    /** `reset_state`: both tables emptied. */
    method ResetState()
      requires Valid()
      modifies this
      ensures Valid() && jobs == map[] && jobMeta == map[]
    {
      jobs := map[];
      jobMeta := map[];
    }
  }

  /** A created job is found again, with the original asset and nothing else yet. */
  lemma CreatedJobShape(originalUrl: string)
    ensures var j := NewJob(originalUrl);
            && GoodJob(j) && j != map[] && Clone(j) == j
            && j["assets"].slots["original_url"] == Some(originalUrl)
            && forall k :: k in j["assets"].slots && k != "original_url" ==> j["assets"].slots[k] == None
  {
  }
}
