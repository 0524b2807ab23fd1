/** The remediation workflow: a durable control loop that gates one production mutation. */
module RemediationWorkflow {
  import opened Wrappers
  import opened ControlPlane
  import opened RemediationActivities
  import Strings = Text

  datatype Signal = Signal(workflowId: string, approver: string, planHash: string, issuedAt: int, signature: string)

  datatype Objection = NoPlanHash | OtherWorkflow | OtherPlan | NoApprover | NoSignature

  predicate HexDigit(c: char) {
    '0' <= c <= '9' || 'a' <= c <= 'f'
  }

  predicate Digest(h: string) {
    |h| == 71 && h[..7] == "sha256:" && forall i :: 7 <= i < 71 ==> HexDigit(h[i])
  }

  /** The admission check made inside the workflow, before any signature is looked at. */
  function Objections(workflowId: string, planHash: Option<string>, s: Signal): Option<Objection> {
    if planHash.None? || !Digest(planHash.value) then Some(NoPlanHash)
    else if s.workflowId != workflowId then Some(OtherWorkflow)
    else if s.planHash != planHash.value then Some(OtherPlan)
    else if Strings.Blank(s.approver) then Some(NoApprover)
    else if Strings.Blank(s.signature) then Some(NoSignature)
    else None
  }

  /** A signal is admitted exactly when there is a plan hash, the signal is for this workflow and that very plan, and
      names an approver with a signature. */
  lemma AdmittedExactlyWhen(workflowId: string, planHash: Option<string>, s: Signal)
    ensures Objections(workflowId, planHash, s).None? <==>
              && planHash.Some? && |planHash.value| == 71 && planHash.value[..7] == "sha256:"
              && (forall i :: 7 <= i < 71 ==> '0' <= planHash.value[i] <= '9' || 'a' <= planHash.value[i] <= 'f')
              && s.workflowId == workflowId && s.planHash == planHash.value
              && (exists i :: 0 <= i < |s.approver| && !Strings.WhiteSpace(s.approver[i]))
              && (exists i :: 0 <= i < |s.signature| && !Strings.WhiteSpace(s.signature[i]))
    ensures Objections(workflowId, planHash, s) == Some(OtherWorkflow) ==> s.workflowId != workflowId
    ensures Objections(workflowId, planHash, s) == Some(OtherPlan) ==> Some(s.planHash) != planHash
    ensures Objections(workflowId, planHash, s) == Some(NoApprover) ==> Strings.Blank(s.approver)
    ensures Objections(workflowId, planHash, s) == Some(NoSignature) ==> Strings.Blank(s.signature)
  {
    forall text: string ensures Strings.Blank(text) <==> forall i :: 0 <= i < |text| ==> Strings.WhiteSpace(text[i]) {
      assert forall i :: 0 <= i < |text| ==> text[i] in text;
    }
  }

  /** The first admissible signal, what is left behind it, and why the ones before it were rejected. */
  function Drained(workflowId: string, planHash: Option<string>, pending: seq<Signal>): (r: (Option<Signal>, seq<Signal>, seq<Objection>))
  {
    if pending == [] then (None, [], [])
    else
      match Objections(workflowId, planHash, pending[0])
      case None => (Some(pending[0]), pending[1..], [])
      case Some(objection) =>
        var (taken, rest, objections) := Drained(workflowId, planHash, pending[1..]);
        (taken, rest, [objection] + objections)
  }

  /** Draining takes the first admissible signal and no other, and answers for each one it removed before it. */
  lemma {:induction false} DrainedTakesTheFirst(workflowId: string, planHash: Option<string>, pending: seq<Signal>)
    ensures var (taken, rest, objections) := Drained(workflowId, planHash, pending);
            var n := |objections|;
            && n <= |pending|
            && (forall i :: 0 <= i < n ==> Objections(workflowId, planHash, pending[i]) == Some(objections[i]))
            && (if taken.None? then n == |pending| && rest == []
                else n < |pending| && taken.value == pending[n] && rest == pending[n + 1..]
                     && Objections(workflowId, planHash, pending[n]).None?)
  {
    if pending != [] && Objections(workflowId, planHash, pending[0]).Some? {
      DrainedTakesTheFirst(workflowId, planHash, pending[1..]);
    }
  }

  /** The signal inbox of a running workflow. */
  class ApprovalInbox {
    var pending: seq<Signal>
    var rejected: seq<Objection>

    constructor ()
      ensures pending == [] && rejected == []
    {
      pending, rejected := [], [];
    }

    method SubmitApproval(s: Signal)
      modifies this
      ensures pending == old(pending) + [s] && rejected == old(rejected)
    {
      pending := pending + [s];
    }

    method Drain(workflowId: string, planHash: Option<string>) returns (taken: Option<Signal>)
      modifies this
      ensures var (first, rest, objections) := Drained(workflowId, planHash, old(pending));
              taken == first && pending == rest && rejected == old(rejected) + objections
    {
      while pending != []
        invariant var (first, rest, objections) := Drained(workflowId, planHash, pending);
                  var (first', rest', objections') := Drained(workflowId, planHash, old(pending));
                  first == first' && rest == rest' && rejected + objections == old(rejected) + objections'
        decreases |pending|
      {
        var candidate := pending[0];
        pending := pending[1..];
        match Objections(workflowId, planHash, candidate)
        case None => return Some(candidate);
        case Some(objection) => rejected := rejected + [objection];
      }
      taken := None;
    }
  }

  /** Where the workflow is; each state carries what the steps before it returned. */
  datatype Phase =
    | Collecting(at: int)
    | Planning(version: nat, at: int)
    | Awaiting(plan: PlanResult, deadline: int)
    | VerifyingApproval(plan: PlanResult, signal: Signal)
    | Authorizing(plan: PlanResult, signal: Signal)
    | Rehearsing(plan: PlanResult, signal: Signal)
    | Acting(plan: PlanResult, signal: Signal, at: int)
    | Recording(plan: PlanResult, outcome: Outcome, approver: string, at: int)
    | Finished(status: Status, version: nat)
    | Broken

  /** What the gates let through, in the order it happened; ghost evidence for the safety statement. */
  datatype Fact =
    | Accepted(signal: Signal)
    | SignatureVerified(signal: Signal)
    | PolicyAllowed
    | RehearsedSafely
    | Mutated

  datatype Flow = Flow(
    plane: Plane, phase: Phase, tries: nat, pending: seq<Signal>, rejected: seq<Objection>,
    facts: seq<Fact>, refused: bool)

  /** What an activity answers: a verdict for the gates, a result for the action. */
  datatype Answer = Answer(granted: bool, reason: string, result: ActionResult)

  datatype Action =
    | Deliver(signal: Signal)
    | Drain
    | TimeOut(now: int)
    | Attempt(budget: nat, answer: Answer, reported: bool, now: int)

  const STEP_ATTEMPTS := 5
  const ACTION_ATTEMPTS := 1
  const NO_APPROVAL := "no valid human approval was received before the approval deadline"
  const NOT_VERIFIED := "human approval could not be verified"
  const NOT_ALLOWED := "policy denied the remediation"
  const NOT_REHEARSED := "digital-twin rehearsal did not verify; production promotion stays blocked"

  function Start(at: int): Flow {
    Flow(BLANK, Collecting(at), 0, [], [], [], false)
  }

  /** An attempt that is refused breaks the workflow; one that is lost is retried while attempts remain. */
  function Settle(w: Flow, e: Ending, reported: bool, attempts: nat, next: Phase): Flow {
    if e.Refused? then w.(plane := e.plane, phase := Broken, refused := true)
    else if e.Returned? && reported then w.(plane := e.plane, phase := next, tries := 0)
    else w.(plane := e.plane, tries := w.tries + 1, phase := if w.tries + 1 < attempts then w.phase else Broken)
  }

  function VersionOf(e: Ending): nat {
    if e.Returned? then e.version else 0
  }

  /** A reason given, or the standing one. */
  function ReasonOr(reason: string, standing: string): string {
    if reason == "" then standing else reason
  }

  /** A gate whose verdict is read-only: it is passed, it closes the workflow, or its attempt is lost. */
  function Gate(w: Flow, a: Action, passed: Fact, next: Phase, closing: string, reason: string, approver: string): Flow
    requires a.Attempt? && (w.phase.VerifyingApproval? || w.phase.Authorizing? || w.phase.Rehearsing?)
  {
    var reported := a.reported && a.budget > 0;
    if reported && a.answer.granted then
      Settle(w, Returned(w.plane, 0), true, STEP_ATTEMPTS, next).(facts := w.facts + [passed])
    else
      Settle(w, Returned(w.plane, 0), reported, STEP_ATTEMPTS,
             Recording(w.phase.plan, Outcome(closing, reason, WaitingApproval, w.phase.plan.version), approver, a.now))
  }

  function Next(s: Setting, w: Flow, a: Action): Flow {
    match a
    case Deliver(signal) => w.(pending := w.pending + [signal])
    case Drain =>
      if !w.phase.Awaiting? then w
      else
        var (taken, rest, objections) := Drained(s.workflowId, w.phase.plan.hash, w.pending);
        var drained := w.(pending := rest, rejected := w.rejected + objections);
        if taken.None? then drained
        else drained.(phase := VerifyingApproval(w.phase.plan, taken.value), facts := w.facts + [Accepted(taken.value)])
    case TimeOut(now) =>
      if !w.phase.Awaiting? || now < w.phase.deadline then w
      else w.(phase := Recording(w.phase.plan, Outcome("escalate", NO_APPROVAL, WaitingApproval, w.phase.plan.version), "", now))
    case Attempt(budget, answer, reported, now) =>
      match w.phase
      case Collecting(at) =>
        var e := Persist(w.plane, [Collected(s, at)], 0, budget);
        Settle(w, e, reported, STEP_ATTEMPTS, Planning(VersionOf(e), now))
      case Planning(version, at) =>
        var e := Plan(w.plane, s, version, at, budget);
        var plan := PlanOf(s, VersionOf(e));
        Settle(w, e, reported, STEP_ATTEMPTS,
               if plan.planned then Awaiting(plan, now + s.patience)
               else Recording(plan, Outcome("escalate", NO_RUNBOOK, Received, version), "", now))
      case VerifyingApproval(plan, signal) =>
        Gate(w, a, SignatureVerified(signal), Authorizing(plan, signal), "escalate",
             ReasonOr(answer.reason, NOT_VERIFIED), "")
      case Authorizing(plan, signal) =>
        Gate(w, a, PolicyAllowed, Rehearsing(plan, signal), "denied",
             ReasonOr(answer.reason, NOT_ALLOWED), signal.approver)
      case Rehearsing(plan, signal) =>
        Gate(w, a, RehearsedSafely, Acting(plan, signal, now), "escalate", NOT_REHEARSED, signal.approver)
      case Acting(plan, signal, at) =>
        var (e, ran) := Act(w.plane, plan, answer.result, at, budget);
        Settle(w, e, reported, ACTION_ATTEMPTS,
               Recording(plan, Outcome(answer.result.status, answer.result.reason, Verifying, VersionOf(e)), signal.approver, now)
              ).(facts := if ran then w.facts + [Mutated] else w.facts)
      case Recording(plan, outcome, approver, at) =>
        var e := Persist(w.plane, [Recorded(plan, outcome, approver, at)], outcome.version, budget);
        Settle(w, e, reported, STEP_ATTEMPTS, Finished(Closed(TerminalText(outcome.status)), VersionOf(e)))
      case _ => w
  }

  ghost predicate Run(s: Setting, at: int, ws: seq<Flow>, actions: seq<Action>) {
    && |ws| == |actions| + 1 && ws[0] == Start(at)
    && forall i :: 0 <= i < |actions| ==> ws[i + 1] == Next(s, ws[i], actions[i])
  }
}
