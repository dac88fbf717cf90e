/** One task: its ordered steps, their approvals, the status derived from them, and
    every way a step may move. A step and its approval are rows of their own in the
    store; they are nested here because (task, position) and (step) are their keys. */
module Tasks {
  import opened Basics
  import opened Authorization

  datatype Status = Queued | WaitingApproval | Running | Succeeded | Failed | Cancelled | Uncertain
  datatype ApprovalStatus = Pending | Approved | Rejected | Consumed

  datatype Approval = Approval(fp: Fingerprint, status: ApprovalStatus, actor: string, expires: Time)

  datatype Step = Step(
    call: Call, needed: bool, fp: Fingerprint, status: Status,
    claim: Id, worker: string, lease: Time, attempts: nat,
    result: string, error: string, approval: Option<Approval>)

  /** The idempotency key of a task. The source writes one string, with the prefixes
      `agent-run:<run>:<position>` and `operator-reply:` for two of these forms; `External` is
      any other string, so that equal keys here are equal strings there. Any caller may
      submit under a key of any form. */
  datatype Key = External(text: string) | RunStep(run: Id, position: nat) | OperatorReply(text: string)

  /** `plan` with `agent` is the task fingerprint that decides an idempotent replay. */
  datatype Task = Task(
    channel: string, key: Key, agent: string, plan: seq<Call>, actor: string,
    status: Status, created: Time, steps: seq<Step>)

  predicate Open(s: Status) { s.Queued? || s.WaitingApproval? || s.Running? }

  predicate Waiting(s: Status) { s.Queued? || s.WaitingApproval? }

  predicate Final(s: Status) { s.Succeeded? || s.Failed? || s.Cancelled? }

  predicate Has(steps: seq<Step>, status: Status) {
    exists i :: 0 <= i < |steps| && steps[i].status == status
  }

  /** `Engine._refresh`. */
  function Refresh(steps: seq<Step>): Status {
    if Has(steps, Uncertain) then Uncertain
    else if Has(steps, Failed) then Failed
    else if Has(steps, Cancelled) then Cancelled
    else if forall i :: 0 <= i < |steps| ==> steps[i].status == Succeeded then Succeeded
    else if Has(steps, Running) then Running
    else if Has(steps, WaitingApproval) then WaitingApproval
    else Queued
  }

  /** Main result: the status of a task by its steps. Doubt comes before failure, failure before
      cancellation; a task has succeeded when all of it has; otherwise it runs if a step runs,
      waits for approval if one does, and is queued. */
  lemma RefreshMeans(steps: seq<Step>)
    ensures Refresh(steps).Uncertain? <==> exists i :: 0 <= i < |steps| && steps[i].status.Uncertain?
    ensures Refresh(steps).Failed? <==>
              && (exists i :: 0 <= i < |steps| && steps[i].status.Failed?)
              && (forall i :: 0 <= i < |steps| ==> !steps[i].status.Uncertain?)
    ensures Refresh(steps).Cancelled? <==>
              && (exists i :: 0 <= i < |steps| && steps[i].status.Cancelled?)
              && (forall i :: 0 <= i < |steps| ==> steps[i].status !in {Uncertain, Failed})
    ensures Refresh(steps).Succeeded? <==> forall i :: 0 <= i < |steps| ==> steps[i].status.Succeeded?
    ensures Refresh(steps).Running? <==>
              && (exists i :: 0 <= i < |steps| && steps[i].status.Running?)
              && (forall i :: 0 <= i < |steps| ==> steps[i].status !in {Uncertain, Failed, Cancelled})
    ensures Refresh(steps).WaitingApproval? <==>
              && (exists i :: 0 <= i < |steps| && steps[i].status.WaitingApproval?)
              && (forall i :: 0 <= i < |steps| ==> steps[i].status in {Succeeded, Queued, WaitingApproval})
    ensures Refresh(steps).Queued? <==>
              && (exists i :: 0 <= i < |steps| && steps[i].status.Queued?)
              && (forall i :: 0 <= i < |steps| ==> steps[i].status in {Succeeded, Queued})
  {
    if exists i :: 0 <= i < |steps| && !steps[i].status.Succeeded? {
      var i :| 0 <= i < |steps| && !steps[i].status.Succeeded?;
      assert Has(steps, steps[i].status);
    }
  }

  function WithSteps(t: Task, steps: seq<Step>): Task {
    t.(steps := steps, status := Refresh(steps))
  }

  function WithStep(t: Task, i: nat, s: Step): Task
    requires i < |t.steps|
  {
    WithSteps(t, t.steps[i := s])
  }

  // ----------------------------------------------------------------- invariant

  ghost predicate StepOk(s: Step) {
    && s.attempts <= 1
    && (Waiting(s.status) || s.status.Cancelled? ==> s.attempts == 0)
    && (s.status.Running? || s.status.Succeeded? || s.status.Uncertain? ==> s.attempts == 1)
    && (s.claim != NO_ID <==> s.status.Running?)
    && s.fp.call == s.call && s.fp.approval == s.needed
    && (s.needed <==> s.approval.Some?)
    && (s.approval.Some? ==> s.approval.value.fp == s.fp)
    && (s.approval.Some? ==> (s.approval.value.status.Consumed? <==> s.attempts == 1))
  }

  /** A step some worker was handed, or that was refused at the moment of dispatch. */
  predicate Reached(s: Step) { s.attempts >= 1 || s.status.Failed? }

  ghost predicate Ordered(steps: seq<Step>) {
    forall i, j :: 0 <= j < i < |steps| && Reached(steps[i]) ==> steps[j].status == Succeeded
  }

  ghost predicate TaskOk(t: Task) {
    && 1 <= |t.plan| == |t.steps|
    && (forall i :: 0 <= i < |t.steps| ==> StepOk(t.steps[i]) && t.steps[i].call == t.plan[i])
    && Ordered(t.steps)
    && t.status == Refresh(t.steps)
  }

  // ------------------------------------------------------------------ evolution

  /** What no operation undoes, for one step. */
  ghost predicate StepEvolves(s: Step, s': Step) {
    && s'.call == s.call && s'.needed == s.needed && s'.fp == s.fp
    && s.attempts <= s'.attempts
    // A final step is final: its status, result and error are fixed.
    && (Final(s.status) ==> s'.status == s.status && s'.result == s.result && s'.error == s.error)
    // An uncertain step waits for evidence; it is never run again.
    && (s.status.Uncertain? ==> s'.status.Uncertain? || s'.status.Succeeded? || s'.status.Failed?)
    // Once dispatched and no longer running: never running again, result fixed, and
    // never back in the queue.
    && (s.attempts == 1 && !s.status.Running? ==>
          s'.attempts == 1 && !s'.status.Running? && s'.result == s.result)
    && (s.attempts == 1 ==> !Waiting(s'.status) && !s'.status.Cancelled?)
    && (s.status.Running? && s'.status.Running? ==> s'.claim == s.claim && s'.result == s.result)
    // An approval keeps what it approved; consumed and rejected are final.
    && (s.approval.None? <==> s'.approval.None?)
    && (s.approval.Some? ==>
          && s'.approval.value.fp == s.approval.value.fp
          && s'.approval.value.expires == s.approval.value.expires
          && (s.approval.value.status.Consumed? ==> s'.approval == s.approval)
          && (s.approval.value.status.Rejected? ==> s'.approval.value.status.Rejected?))
  }

  ghost predicate TaskEvolves(t: Task, t': Task) {
    && t'.channel == t.channel && t'.key == t.key && t'.agent == t.agent && t'.plan == t.plan
    && t'.actor == t.actor && t'.created == t.created
    && |t'.steps| == |t.steps|
    && (forall i :: 0 <= i < |t.steps| ==> StepEvolves(t.steps[i], t'.steps[i]))
    && (t.status.Succeeded? || t.status.Failed? ==> t'.status == t.status)
    // A cancelled step stops the whole task: nothing more of it is ever dispatched, nor
    // refused at dispatch.
    && (Has(t.steps, Cancelled) ==>
          forall i :: 0 <= i < |t.steps| ==>
            && t'.steps[i].attempts == t.steps[i].attempts
            && (t'.steps[i].status.Failed? ==> t.steps[i].status.Failed? || t.steps[i].attempts == 1))
  }

  lemma TaskEvolvesTransitive(a: Task, b: Task, c: Task)
    requires TaskOk(a) && TaskOk(b) && TaskOk(c)
    requires TaskEvolves(a, b) && TaskEvolves(b, c)
    ensures TaskEvolves(a, c)
  {
    forall i | 0 <= i < |a.steps| ensures StepEvolves(a.steps[i], c.steps[i]) {
      assert StepEvolves(a.steps[i], b.steps[i]) && StepEvolves(b.steps[i], c.steps[i]);
      assert StepOk(a.steps[i]) && StepOk(b.steps[i]);
    }
    if Has(a.steps, Cancelled) {
      var i :| 0 <= i < |a.steps| && a.steps[i].status == Cancelled;
      assert StepEvolves(a.steps[i], b.steps[i]);
    }
  }

  /** No step of a task is dispatched while an earlier one is unresolved, so at most one
      step of a task is running or uncertain at a time. */
  lemma AtMostOneInFlight(t: Task, i: nat, j: nat)
    requires TaskOk(t) && i < |t.steps| && j < |t.steps|
    requires t.steps[i].status.Running? || t.steps[i].status.Uncertain?
    requires t.steps[j].status.Running? || t.steps[j].status.Uncertain?
    ensures i == j
  {
    assert StepOk(t.steps[i]) && StepOk(t.steps[j]);
  }

  // ---------------------------------------------------------------------- moves

  /** A move that dispatches nothing and refuses nothing at dispatch. */
  ghost predicate QuietMove(s: Step, s': Step) {
    && StepOk(s') && StepEvolves(s, s')
    && s'.attempts == s.attempts
    && (s'.status.Failed? ==> s.status.Failed? || s.attempts == 1)
  }

  /** No step of the task was handed to a worker. */
  ghost predicate SameAttempts(t: Task, t': Task) {
    |t'.steps| == |t.steps| && forall i :: 0 <= i < |t.steps| ==> t'.steps[i].attempts == t.steps[i].attempts
  }

  lemma QuietMovesKeep(t: Task, steps: seq<Step>)
    requires TaskOk(t) && |steps| == |t.steps|
    requires forall i :: 0 <= i < |steps| ==> QuietMove(t.steps[i], steps[i])
    ensures TaskOk(WithSteps(t, steps)) && TaskEvolves(t, WithSteps(t, steps))
    ensures SameAttempts(t, WithSteps(t, steps))
  {
    var t' := WithSteps(t, steps);
    forall i, j | 0 <= j < i < |steps| && Reached(steps[i]) ensures steps[j].status == Succeeded {
      assert QuietMove(t.steps[i], steps[i]) && QuietMove(t.steps[j], steps[j]);
      assert StepOk(t.steps[i]);
    }
    forall i | 0 <= i < |steps| ensures StepOk(steps[i]) && steps[i].call == t.plan[i] {
      assert QuietMove(t.steps[i], steps[i]);
    }
    DoneStays(t, t');
  }

  /** Refusing or dispatching the first unfinished step of a task nothing has stopped. */
  lemma HeadMoveKeeps(t: Task, i: nat, s: Step)
    requires TaskOk(t) && Open(t.status) && i < |t.steps|
    requires Waiting(t.steps[i].status)
    requires forall j :: 0 <= j < i ==> t.steps[j].status == Succeeded
    requires StepOk(s) && StepEvolves(t.steps[i], s)
    ensures TaskOk(WithStep(t, i, s)) && TaskEvolves(t, WithStep(t, i, s))
  {
    var t' := WithStep(t, i, s);
    forall k | 0 <= k < |t.steps| ensures StepEvolves(t.steps[k], t'.steps[k]) {
      assert StepOk(t.steps[k]);
    }
  }

  /** Where one step has failed, a quiet move leaves no other uncertain: a step that was
      handed out before it has succeeded, and none after it was handed out. */
  lemma UncertainIsNew(t: Task, i: nat, s: Step)
    requires TaskOk(t) && t.status.Failed? && i < |t.steps| && QuietMove(t.steps[i], s)
    requires t.steps[i].status != Uncertain
    ensures s.status != Uncertain
  {
    hide Refresh;
    FailedHasStep(t);
    var f :| 0 <= f < |t.steps| && t.steps[f].status == Failed;
    assert StepOk(t.steps[i]) && StepOk(s);
    assert Reached(t.steps[f]);
    assert t.steps[i].status == Running ==> Reached(t.steps[i]);
  }

  lemma FailedHasStep(t: Task)
    requires TaskOk(t) && t.status.Failed?
    ensures exists f :: 0 <= f < |t.steps| && t.steps[f].status == Failed
  {
    hide StepOk, Ordered;
  }

  /** A succeeded or failed task has nothing left that could change its status. */
  lemma DoneStays(t: Task, t': Task)
    requires TaskOk(t) && |t'.steps| == |t.steps| && t'.status == Refresh(t'.steps)
    requires forall i :: 0 <= i < |t.steps| ==> QuietMove(t.steps[i], t'.steps[i])
    ensures t.status.Succeeded? || t.status.Failed? ==> t'.status == t.status
  {
    hide StepOk, Ordered;
    if t.status.Succeeded? {
      forall i | 0 <= i < |t.steps| ensures t'.steps[i].status == Succeeded {
        assert QuietMove(t.steps[i], t'.steps[i]);
      }
    } else if t.status.Failed? {
      var f :| 0 <= f < |t.steps| && t.steps[f].status == Failed;
      assert QuietMove(t.steps[f], t'.steps[f]);
      forall i | 0 <= i < |t.steps| ensures t'.steps[i].status != Uncertain {
        assert QuietMove(t.steps[i], t'.steps[i]);
        assert t.steps[i].status != Uncertain;
        UncertainIsNew(t, i, t'.steps[i]);
      }
    }
  }
}
