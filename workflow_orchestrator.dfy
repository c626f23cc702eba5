/** The multi-step scoring workflow (`ScoringWorkflow`): workflow records
    kept under their id, status updates that merge extra data, and the
    key-wise blend of NLP and AI scores. The key-value store becomes a map
    field of the object; the random workflow id and the clock are
    parameters. */
module WorkflowOrchestrator {
  import opened Common

  datatype WorkflowStatus = Pending | Processing | Completed | Failed

  function StatusValue(s: WorkflowStatus): (v: string)
    ensures v in {"pending", "processing", "completed", "failed"}
  {
    match s
    case Pending => "pending"
    case Processing => "processing"
    case Completed => "completed"
    case Failed => "failed"
  }

  lemma StatusValueInjective(a: WorkflowStatus, b: WorkflowStatus)
    requires StatusValue(a) == StatusValue(b)
    ensures a == b
  {
  }

  /** The record `create_workflow` stores. */
  function InitialWorkflow(workflowId: string, assessmentId: string, submission: map<string, Json>, now: string): (w: map<string, Json>)
    ensures w.Keys == {"workflow_id", "assessment_id", "status", "submission", "scores", "errors", "created_at", "updated_at"}
    ensures w["status"] == JStr("pending")
    ensures w["scores"] == JObj(map[]) && w["errors"] == JList([])
    ensures w["submission"] == JObj(submission)
    ensures w["workflow_id"] == JStr(workflowId) && w["assessment_id"] == JStr(assessmentId)
    ensures w["created_at"] == w["updated_at"] == JStr(now)
  {
    map[
      "workflow_id" := JStr(workflowId),
      "assessment_id" := JStr(assessmentId),
      "status" := JStr(StatusValue(Pending)),
      "submission" := JObj(submission),
      "scores" := JObj(map[]),
      "errors" := JList([]),
      "created_at" := JStr(now),
      "updated_at" := JStr(now)]
  }

  /** The record after `update_workflow_status`: status and timestamp are set
      first, then `data` (when non-empty) is merged over them. */
  function WithStatus(state: map<string, Json>, status: WorkflowStatus, data: Option<map<string, Json>>, now: string): (r: map<string, Json>)
    ensures r.Keys == state.Keys + {"status", "updated_at"} + (if data.Some? then data.value.Keys else {})
  {
    var stamped := state["status" := JStr(StatusValue(status))]["updated_at" := JStr(now)];
    if data.Some? && data.value != map[] then stamped + data.value else stamped
  }

  /** Keys in `data` win, even "status"; otherwise the status is the new one,
      and every other field apart from updated_at keeps its value. */
  lemma WithStatusFields(state: map<string, Json>, status: WorkflowStatus, data: Option<map<string, Json>>, now: string)
    ensures var r := WithStatus(state, status, data, now);
      && (forall k :: data.Some? && k in data.value ==> r[k] == data.value[k])
      && (data.None? || "status" !in data.value ==> r["status"] == JStr(StatusValue(status)))
      && (data.None? || "updated_at" !in data.value ==> r["updated_at"] == JStr(now))
      && (forall k :: k in state && k != "status" && k != "updated_at" && (data.None? || k !in data.value) ==> r[k] == state[k])
  {
  }

  /** `int(0.5 * a + 0.5 * b)` */
  function Blend(a: int, b: int): int {
    Trunc(0.5 * a as real + 0.5 * b as real)
  }

  /** For non-negative scores the blend lies between the two inputs. */
  lemma BlendBetween(a: int, b: int)
    requires a >= 0 && b >= 0
    ensures MinI(a, b) <= Blend(a, b) <= MaxI(a, b)
  {
    var mean := 0.5 * a as real + 0.5 * b as real;
    TruncMonotone(MinI(a, b) as real, mean);
    TruncMonotone(mean, MaxI(a, b) as real);
    TruncOfInt(MinI(a, b));
    TruncOfInt(MaxI(a, b));
  }

  lemma BlendSymmetric(a: int, b: int)
    ensures Blend(a, b) == Blend(b, a)
  {
    assert 0.5 * a as real + 0.5 * b as real == 0.5 * b as real + 0.5 * a as real;
  }

  lemma BlendSame(a: int)
    ensures Blend(a, a) == a
  {
    assert 0.5 * a as real + 0.5 * a as real == a as real;
    TruncOfInt(a);
  }

  /** The aggregate score for one NLP key. */
  function AggregateAt(nlp: map<string, int>, ai: map<string, int>, key: string): int
    requires key in nlp
  {
    if key in ai then Blend(nlp[key], ai[key]) else nlp[key]
  }

  class ScoringWorkflow {
    var workflows: map<string, map<string, Json>>

    constructor()
      ensures workflows == map[]
    {
      workflows := map[];
    }

    /** `create_workflow`; `workflowId` stands for the fresh uuid. */
    method CreateWorkflow(workflowId: string, assessmentId: string, submission: map<string, Json>, now: string)
      returns (id: string)
      modifies this
      ensures id == workflowId
      ensures workflows == old(workflows)[workflowId := InitialWorkflow(workflowId, assessmentId, submission, now)]
    {
      workflows := workflows[workflowId := InitialWorkflow(workflowId, assessmentId, submission, now)];
      id := workflowId;
    }

    /** `get_workflow` */
    method GetWorkflow(workflowId: string) returns (r: Option<map<string, Json>>)
      ensures workflowId in workflows ==> r == Some(workflows[workflowId])
      ensures workflowId !in workflows ==> r.None?
    {
      if workflowId in workflows {
        r := Some(workflows[workflowId]);
      } else {
        r := None;
      }
    }

    /** `update_workflow_status`: nothing happens for an unknown id (or an
        empty record); otherwise the record is replaced by `WithStatus`. */
    method UpdateWorkflowStatus(workflowId: string, status: WorkflowStatus, data: Option<map<string, Json>>, now: string)
      modifies this
      ensures workflowId !in old(workflows) || old(workflows)[workflowId] == map[] ==> workflows == old(workflows)
      ensures workflowId in old(workflows) && old(workflows)[workflowId] != map[] ==>
        workflows == old(workflows)[workflowId := WithStatus(old(workflows)[workflowId], status, data, now)]
    {
      var state := GetWorkflow(workflowId);
      if state.None? || state.value == map[] {
        return;
      }
      workflows := workflows[workflowId := WithStatus(state.value, status, data, now)];
    }

    /** `aggregate_scores`: without AI scores the NLP scores come back
        unchanged; otherwise every NLP key is blended with its AI score when
        there is one, and AI-only keys are dropped. */
    method AggregateScores(nlp: map<string, int>, ai: Option<map<string, int>>) returns (aggregated: map<string, int>)
      ensures ai.None? || ai.value == map[] ==> aggregated == nlp
      ensures aggregated.Keys == nlp.Keys
      ensures ai.Some? ==> forall k :: k in nlp ==> aggregated[k] == AggregateAt(nlp, ai.value, k)
    {
      if ai.None? || ai.value == map[] {
        return nlp;
      }
      var scores := ai.value;
      aggregated := map[];
      var todo := nlp.Keys;
      while todo != {}
        invariant todo <= nlp.Keys
        invariant aggregated.Keys == nlp.Keys - todo
        invariant forall k :: k in aggregated ==> aggregated[k] == AggregateAt(nlp, scores, k)
        decreases |todo|
      {
        var key :| key in todo;
        if key in scores {
          aggregated := aggregated[key := Blend(nlp[key], scores[key])];
        } else {
          aggregated := aggregated[key := nlp[key]];
        }
        todo := todo - {key};
      }
    }
  }

  /** For non-negative scores every aggregate lies between the two inputs. */
  lemma AggregateBetween(nlp: map<string, int>, ai: map<string, int>, key: string)
    requires key in nlp && key in ai && nlp[key] >= 0 && ai[key] >= 0
    ensures MinI(nlp[key], ai[key]) <= AggregateAt(nlp, ai, key) <= MaxI(nlp[key], ai[key])
  {
    BlendBetween(nlp[key], ai[key]);
  }

  /** An NLP-only key keeps its NLP value. */
  lemma AggregateNlpOnly(nlp: map<string, int>, ai: map<string, int>, key: string)
    requires key in nlp && key !in ai
    ensures AggregateAt(nlp, ai, key) == nlp[key]
  {
  }
}
