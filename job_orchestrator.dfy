/** The job-state machine of the scoring orchestrator (`WorkflowOrchestrator`
    over `ScoringState`): job records kept under their id, an allowed-
    transition table, and in-place updates of a job's state, completed
    steps, results and errors. The key-value store becomes a map field of
    the object; the uuid and the clock are parameters, and the `ValueError`
    the source raises becomes an error outcome. */
module JobOrchestrator {
  import opened Common

  datatype ScoringState = Pending | Processing | Scored | Enriched | Completed | Failed

  /** The `allowed` table of `transition_job`. */
  function Successors(s: ScoringState): (next: set<ScoringState>)
    ensures s == Completed || s == Failed <==> next == {}
    ensures |next| <= 2
  {
    match s
    case Pending => {Processing, Failed}
    case Processing => {Scored, Failed}
    case Scored => {Enriched, Completed}
    case Enriched => {Completed, Failed}
    case Completed => {}
    case Failed => {}
  }

  predicate Allowed(from: ScoringState, to: ScoringState) {
    to in Successors(from)
  }

  /** Position of a state along the pipeline. */
  function Rank(s: ScoringState): nat {
    match s
    case Pending => 0
    case Processing => 1
    case Scored => 2
    case Enriched => 3
    case Completed => 4
    case Failed => 4
  }

  /** Every allowed transition moves strictly forward, so no state repeats
      and no job returns to pending. */
  lemma AllowedMovesForward(from: ScoringState, to: ScoringState)
    requires Allowed(from, to)
    ensures Rank(from) < Rank(to)
    ensures to != Pending
  {
  }

  /** A chain of allowed transitions. */
  predicate IsPath(p: seq<ScoringState>) {
    forall i :: 0 <= i < |p| - 1 ==> Allowed(p[i], p[i + 1])
  }

  /** Along a chain the rank grows by at least one per step. */
  lemma {:induction false} PathRankGrows(p: seq<ScoringState>)
    requires |p| >= 1 && IsPath(p)
    ensures Rank(p[0]) + |p| - 1 <= Rank(p[|p| - 1])
  {
    if |p| > 1 {
      var init := p[..|p| - 1];
      assert IsPath(init) by {
        forall i | 0 <= i < |init| - 1 ensures Allowed(init[i], init[i + 1]) {
          assert init[i] == p[i] && init[i + 1] == p[i + 1];
        }
      }
      PathRankGrows(init);
      AllowedMovesForward(p[|p| - 2], p[|p| - 1]);
    }
  }

  /** A chain of `transition_job` moves, with no `update_job_state` call in
      between (which writes any state unchecked), has at most four steps. */
  lemma PathsAreShort(p: seq<ScoringState>)
    requires |p| >= 1 && IsPath(p)
    ensures |p| <= 5
  {
    PathRankGrows(p);
  }

  datatype ErrorEntry = ErrorEntry(timestamp: string, message: string)

  datatype Job = Job(
    jobId: string,
    submissionId: string,
    text: string,
    metadata: map<string, Json>,
    state: ScoringState,
    createdAt: string,
    updatedAt: string,
    stepsCompleted: seq<string>,
    results: map<string, map<string, Json>>,
    errors: seq<ErrorEntry>)

  datatype JobOutcome =
    | Ok(job: Job)
    | JobNotFound(jobId: string)
    | CannotTransition(from: ScoringState, to: ScoringState)

  /** The record `create_scoring_job` stores. */
  function NewJob(jobId: string, submissionId: string, text: string, metadata: Option<map<string, Json>>, now: string): (j: Job)
    ensures j.state == Pending
    ensures j.stepsCompleted == [] && j.results == map[] && j.errors == []
    ensures j.jobId == jobId && j.submissionId == submissionId && j.text == text
    ensures metadata.None? ==> j.metadata == map[]
  {
    Job(jobId, submissionId, text, if metadata.Some? then metadata.value else map[],
        Pending, now, now, [], map[], [])
  }

  /** The job after `update_job_state`: the step is recorded only when it is
      given (non-empty), and its result only when that is given too. */
  function WithState(job: Job, state: ScoringState, stepName: Option<string>, result: Option<map<string, Json>>, now: string): (j: Job)
    ensures j.state == state && j.updatedAt == now
    ensures j.(state := job.state, updatedAt := job.updatedAt, stepsCompleted := job.stepsCompleted, results := job.results) == job
    ensures |job.stepsCompleted| <= |j.stepsCompleted| <= |job.stepsCompleted| + 1
    ensures j.stepsCompleted[..|job.stepsCompleted|] == job.stepsCompleted
    ensures j.results.Keys <= job.results.Keys + (if stepName.Some? then {stepName.value} else {})
  {
    var step := if stepName.Some? && stepName.value != "" then stepName else None;
    var steps := if step.Some? then job.stepsCompleted + [step.value] else job.stepsCompleted;
    var results :=
      if step.Some? && result.Some? && result.value != map[] then job.results[step.value := result.value]
      else job.results;
    job.(state := state, updatedAt := now, stepsCompleted := steps, results := results)
  }

  /** Steps and results change exactly as the step and result arguments say. */
  lemma WithStateSteps(job: Job, state: ScoringState, stepName: Option<string>, result: Option<map<string, Json>>, now: string)
    ensures var j := WithState(job, state, stepName, result, now);
      && (stepName.Some? && stepName.value != "" ==> j.stepsCompleted == job.stepsCompleted + [stepName.value])
      && (stepName.None? || stepName.value == "" ==> j.stepsCompleted == job.stepsCompleted && j.results == job.results)
      && (stepName.Some? && stepName.value != "" && result.Some? && result.value != map[] ==>
            j.results == job.results[stepName.value := result.value])
      && (result.None? || result.value == map[] ==> j.results == job.results)
  {
  }

  /** The job after `enrich_job_results`. */
  function WithEnrichment(job: Job, enrichment: map<string, Json>): (j: Job)
    ensures j.results.Keys == job.results.Keys + {"enrichment"}
    ensures j.results["enrichment"].Keys
         == enrichment.Keys + (if "enrichment" in job.results then job.results["enrichment"].Keys else {})
    ensures forall k :: k in enrichment ==> j.results["enrichment"][k] == enrichment[k]
    ensures "enrichment" in job.results ==>
      forall k :: k in job.results["enrichment"] && k !in enrichment ==> j.results["enrichment"][k] == job.results["enrichment"][k]
    ensures j.(results := job.results) == job
  {
    var current := if "enrichment" in job.results then job.results["enrichment"] else map[];
    job.(results := job.results["enrichment" := current + enrichment])
  }

  /** The job after `record_error`. */
  function WithError(job: Job, message: string, now: string): (j: Job)
    ensures |j.errors| == |job.errors| + 1
    ensures j.errors[..|job.errors|] == job.errors && j.errors[|job.errors|].message == message
    ensures j.(errors := job.errors) == job
  {
    job.(errors := job.errors + [ErrorEntry(now, message)])
  }

  class WorkflowOrchestrator {
    var jobs: map<string, Job>

    constructor()
      ensures jobs == map[]
    {
      jobs := map[];
    }

    /** `create_scoring_job`; `jobId` stands for the fresh uuid. */
    method CreateScoringJob(jobId: string, submissionId: string, text: string, metadata: Option<map<string, Json>>, now: string)
      returns (job: Job)
      modifies this
      ensures job == NewJob(jobId, submissionId, text, metadata, now)
      ensures jobs == old(jobs)[jobId := job]
    {
      job := NewJob(jobId, submissionId, text, metadata, now);
      jobs := jobs[jobId := job];
    }

    /** `get_job_status` */
    method GetJobStatus(jobId: string) returns (r: Option<Job>)
      ensures jobId in jobs ==> r == Some(jobs[jobId])
      ensures jobId !in jobs ==> r.None?
    {
      r := if jobId in jobs then Some(jobs[jobId]) else None;
    }

    /** `update_job_state`; an unknown id is an error and changes nothing. */
    method UpdateJobState(jobId: string, state: ScoringState, stepName: Option<string>, result: Option<map<string, Json>>, now: string)
      returns (r: JobOutcome)
      modifies this
      ensures jobId !in old(jobs) ==> r == JobNotFound(jobId) && jobs == old(jobs)
      ensures jobId in old(jobs) ==>
        && r == Ok(WithState(old(jobs)[jobId], state, stepName, result, now))
        && jobs == old(jobs)[jobId := r.job]
    {
      var found := GetJobStatus(jobId);
      if found.None? {
        return JobNotFound(jobId);
      }
      var job := WithState(found.value, state, stepName, result, now);
      jobs := jobs[jobId := job];
      r := Ok(job);
    }

    /** `transition_job`: a move outside the table is refused and the job is
        left as it was; an allowed one is `update_job_state` without a step. */
    method TransitionJob(jobId: string, nextState: ScoringState, now: string) returns (r: JobOutcome)
      modifies this
      ensures jobId !in old(jobs) ==> r == JobNotFound(jobId) && jobs == old(jobs)
      ensures jobId in old(jobs) && !Allowed(old(jobs)[jobId].state, nextState) ==>
        r == CannotTransition(old(jobs)[jobId].state, nextState) && jobs == old(jobs)
      ensures jobId in old(jobs) && Allowed(old(jobs)[jobId].state, nextState) ==>
        && r == Ok(WithState(old(jobs)[jobId], nextState, None, None, now))
        && jobs == old(jobs)[jobId := r.job]
    {
      var found := GetJobStatus(jobId);
      if found.None? {
        return JobNotFound(jobId);
      }
      var current := found.value.state;
      if nextState !in Successors(current) {
        return CannotTransition(current, nextState);
      }
      r := UpdateJobState(jobId, nextState, None, None, now);
    }

    /** `enrich_job_results` */
    method EnrichJobResults(jobId: string, enrichment: map<string, Json>) returns (r: JobOutcome)
      modifies this
      ensures jobId !in old(jobs) ==> r == JobNotFound(jobId) && jobs == old(jobs)
      ensures jobId in old(jobs) ==>
        && r == Ok(WithEnrichment(old(jobs)[jobId], enrichment))
        && jobs == old(jobs)[jobId := r.job]
    {
      var found := GetJobStatus(jobId);
      if found.None? {
        return JobNotFound(jobId);
      }
      var job := WithEnrichment(found.value, enrichment);
      jobs := jobs[jobId := job];
      r := Ok(job);
    }

    /** `record_error` */
    method RecordError(jobId: string, message: string, now: string) returns (r: JobOutcome)
      modifies this
      ensures jobId !in old(jobs) ==> r == JobNotFound(jobId) && jobs == old(jobs)
      ensures jobId in old(jobs) ==>
        && r == Ok(WithError(old(jobs)[jobId], message, now))
        && jobs == old(jobs)[jobId := r.job]
    {
      var found := GetJobStatus(jobId);
      if found.None? {
        return JobNotFound(jobId);
      }
      var job := WithError(found.value, message, now);
      jobs := jobs[jobId := job];
      r := Ok(job);
    }
  }
}
