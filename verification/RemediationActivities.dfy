/** The remediation activities: which lifecycle events each one persists, and what a retry of it does. */
module RemediationActivities {
  import opened Wrappers
  import opened ControlPlane

  /** How one attempt ended: with a version, lost with its worker, or refused by the state or the audit. */
  datatype Ending =
    | Returned(plane: Plane, version: nat)
    | Died(plane: Plane)
    | Refused(plane: Plane)

  /** An event never reads live state: its expected version is the one threaded forward from the last step. */
  function Bind(e: Event, version: nat): Event {
    e.(expected := if e.from.None? then None else Some(version))
  }

  /** One lifecycle event: state first, then audit. `budget` counts the writes made before the worker is lost. */
  function Write(p: Plane, e: Event, budget: nat): Ending {
    if budget == 0 then Died(p)
    else
      match Commit(p, e)
      case Err(_) => Refused(p)
      case Ok((q, r)) =>
        if budget == 1 then Died(q)
        else
          match Export(q, e, r)
          case Err(_) => Refused(q)
          case Ok(q') => Returned(q', r.version)
  }

  /** Persist events in order, each with the version its predecessor returned. */
  function Persist(p: Plane, drafts: seq<Event>, version: nat, budget: nat): Ending
    decreases |drafts|
  {
    if drafts == [] then Returned(p, version)
    else
      match Write(p, Bind(drafts[0], version), budget)
      case Returned(q, next) => Persist(q, drafts[1..], next, if budget > 1 then budget - 2 else 0)
      case ended => ended
  }

  /** What the request and a deterministic evidence provider fix: the evidence and the plan made from it. */
  datatype Setting = Setting(workflowId: string, patience: int, evidence: seq<string>, plan: Option<Certified>)

  datatype Certified = Certified(runbook: string, hash: string)

  datatype PlanResult = PlanResult(planned: bool, runbook: string, hash: Option<string>, version: nat)

  datatype ActionResult = ActionResult(status: string, reason: string, verified: bool)

  datatype Outcome = Outcome(status: string, reason: string, from: Status, version: nat)

  const NO_RUNBOOK := "no certified runbook matched the incident evidence"

  function Collected(s: Setting, at: int): Event {
    Event(EvidenceStep, None, Received, None, None, EvidenceIds(s.evidence), at)
  }

  function Prepared(c: Certified, version: nat, at: int): seq<Event> {
    [Event(PlannedStep, Some(Received), Planned, Some(version), Some(c.hash), PlanText(c.runbook), at),
     Event(AwaitingStep, Some(Planned), WaitingApproval, Some(version + 1), Some(c.hash), Nothing, at)]
  }

  function Started(plan: PlanResult, at: int): Event {
    Event(ExecutingStep, Some(WaitingApproval), Executing, Some(plan.version), plan.hash, PlanText(plan.runbook), at)
  }

  function Checked(plan: PlanResult, result: ActionResult, version: nat, at: int): Event {
    Event(VerifyingStep, Some(Executing), Verifying, Some(version), plan.hash, Execution(result.status, result.verified), at)
  }

  /** The terminal status of an action's own word; what is not known is a failure. */
  function TerminalText(status: string): string {
    match status
    case "succeeded" => "succeeded"
    case "rolled_back" => "rolled_back"
    case "escalate" => "escalated"
    case "escalated" => "escalated"
    case "denied" => "denied"
    case _ => "failed"
  }

  /** The lifecycle status a terminal status is recorded under. */
  function Closed(terminal: string): Status {
    match terminal
    case "succeeded" => Succeeded
    case "rolled_back" => RolledBack
    case "escalated" => Escalated
    case _ => Failed
  }

  function Recorded(plan: PlanResult, o: Outcome, approver: string, at: int): Event {
    Event(OutcomeStep, Some(o.from), Closed(TerminalText(o.status)), Some(o.version), plan.hash,
          Closing(TerminalText(o.status), o.reason, approver), at)
  }

  /** The plan activity: nothing is persisted when no runbook matches. */
  function Plan(p: Plane, s: Setting, version: nat, at: int, budget: nat): Ending {
    if s.plan.None? then Returned(p, version) else Persist(p, Prepared(s.plan.value, version, at), version, budget)
  }

  function PlanOf(s: Setting, version: nat): PlanResult {
    match s.plan
    case None => PlanResult(false, "", None, version)
    case Some(c) => PlanResult(true, c.runbook, Some(c.hash), version)
  }

  /** The action: executing is committed and exported first, then the control loop runs, then its result is kept. */
  function Act(p: Plane, plan: PlanResult, result: ActionResult, at: int, budget: nat): (r: (Ending, bool))
  {
    var started := Persist(p, [Started(plan, at)], plan.version, budget);
    if !started.Returned? then (started, false)
    else if budget == 2 then (Died(started.plane), false)
    else if budget < 2 then (started, false)
    else (Persist(started.plane, [Checked(plan, result, started.version, at)], started.version, budget - 3), true)
  }

  class RemediationActivities {
    const bridge: ControlPlaneActivityBridge

    constructor (bridge: ControlPlaneActivityBridge)
      ensures this.bridge == bridge
    {
      this.bridge := bridge;
    }

    method Advance(draft: Event, version: nat, budget: nat) returns (next: Option<nat>)
      modifies bridge
      ensures var r := Persist(old(bridge.State()), [draft], version, budget);
              bridge.State() == r.plane && next == if r.Returned? then Some(r.version) else None
    {
      if budget == 0 { return None; }
      next := bridge.PersistWorkflowLifecycle(Bind(draft, version), budget == 1);
    }

    method CollectEvidence(s: Setting, at: int, budget: nat) returns (version: Option<nat>)
      modifies bridge
      ensures var r := Persist(old(bridge.State()), [Collected(s, at)], 0, budget);
              bridge.State() == r.plane && version == if r.Returned? then Some(r.version) else None
    {
      version := Advance(Collected(s, at), 0, budget);
    }

    method PlanRemediation(s: Setting, evidenceVersion: nat, at: int, budget: nat) returns (plan: Option<PlanResult>)
      modifies bridge
      ensures var r := Plan(old(bridge.State()), s, evidenceVersion, at, budget);
              bridge.State() == r.plane && plan == if r.Returned? then Some(PlanOf(s, r.version)) else None
    {
      if s.plan.None? { return Some(PlanOf(s, evidenceVersion)); }
      var drafts := Prepared(s.plan.value, evidenceVersion, at);
      var planned := Advance(drafts[0], evidenceVersion, budget);
      if planned.None? { return None; }
      assert drafts[1..] == [drafts[1]];
      var waiting := Advance(drafts[1], planned.value, budget - 2);
      plan := if waiting.None? then None else Some(PlanOf(s, waiting.value));
    }

    /** `ran` reports whether the control loop was entered, which a lost worker does not. */
    method ExecuteAction(plan: PlanResult, result: ActionResult, at: int, budget: nat)
      returns (outcome: Option<Outcome>, ghost ran: bool)
      modifies bridge
      ensures var (r, entered) := Act(old(bridge.State()), plan, result, at, budget);
              && bridge.State() == r.plane && ran == entered
              && outcome == if r.Returned? then Some(Outcome(result.status, result.reason, Verifying, r.version)) else None
    {
      ran := false;
      var executing := Advance(Started(plan, at), plan.version, budget);
      if executing.None? || budget <= 2 { return None, false; }
      ran := true;
      var verifying := Advance(Checked(plan, result, executing.value, at), executing.value, budget - 3);
      outcome := if verifying.None? then None else Some(Outcome(result.status, result.reason, Verifying, verifying.value));
    }

    method RecordOutcome(plan: PlanResult, o: Outcome, approver: string, at: int, budget: nat) returns (status: Option<Status>)
      modifies bridge
      ensures var r := Persist(old(bridge.State()), [Recorded(plan, o, approver, at)], o.version, budget);
              bridge.State() == r.plane && status == if r.Returned? then Some(Closed(TerminalText(o.status))) else None
      ensures status.Some? ==>
                && (status.value == Succeeded <==> o.status == "succeeded")
                && (status.value == RolledBack <==> o.status == "rolled_back")
                && (status.value == Escalated <==> o.status in {"escalate", "escalated"})
                && (status.value == Failed <==> o.status !in {"succeeded", "rolled_back", "escalate", "escalated"})
    {
      var version := Advance(Recorded(plan, o, approver, at), o.version, budget);
      status := if version.None? then None else Some(Closed(TerminalText(o.status)));
    }
  }

  /** What is stored and exported is what the committed events alone determine. */
  ghost predicate Sound(p: Plane) {
    OnPath(p, p.commits)
  }

  lemma ExportSucceeds(q: Plane, e: Event, r: Record)
    requires Sound(q) && e.step in q.store.receipts && q.store.receipts[e.step] == Receipt(e, r)
    ensures Export(q, e, r).Ok?
    ensures var q' := Export(q, e, r).value;
            Sound(q') && q'.commits == q.commits && q'.store == q.store && q'.exported.Keys == q.exported.Keys + {e.step}
  {
  }

  /** One event of the path, already committed or next in line, is written and exported. */
  lemma OneWrite(p: Plane, all: seq<Event>, k: nat)
    requires Sound(p) && IsPath(all) && p.commits <= all && k <= |p.commits| && k < |all|
    ensures Bind(all[k], k) == all[k] && Commit(p, all[k]).Ok?
    ensures var (q, r) := Commit(p, all[k]).value;
            && Sound(q) && p.commits <= q.commits <= all && k < |q.commits| && q.exported == p.exported
            && r.version == k + 1 && Export(q, all[k], r).Ok?
            && var q' := Export(q, all[k], r).value;
               Sound(q') && q'.commits == q.commits && q'.exported.Keys == q.exported.Keys + {all[k].step}
  {
    var e, done := all[k], p.commits;
    assert Valid(e);
    if k < |done| {
      assert done[k] == e;
      CommitReplayed(p, done, k);
      ReceiptAt(done, k);
    } else {
      assert all[..k] == done && all[..k + 1] == done + [e];
      PrefixIsPath(all, k + 1);
      CommitFresh(p, done, e);
    }
    var (q, r) := Commit(p, e).value;
    hide Commit, IsPath;
    ExportSucceeds(q, e, r);
  }

  /** The attempt at events k.. of a path was not refused, left a prefix of the path and exported only it. */
  ghost predicate Follows(r: Ending, p: Plane, all: seq<Event>, k: nat, budget: nat) {
    && k <= |all| && !r.Refused? && (budget >= 2 * (|all| - k) ==> r.Returned?)
    && Sound(r.plane) && p.commits <= r.plane.commits <= all
    && p.exported.Keys <= r.plane.exported.Keys <= p.exported.Keys + Steps(all[k..])
    && (r.Returned? ==> r.version == |all| && r.plane.commits == all
                        && r.plane.exported.Keys == p.exported.Keys + Steps(all[k..]))
  }

  ghost function Following(p: Plane, all: seq<Event>, k: nat, budget: nat): iset<Ending> {
    iset r: Ending | Follows(r, p, all, k, budget)
  }

  /** The planes on the way along a path, with at least its first `k` events committed. */
  ghost function Partway(all: seq<Event>, k: nat): iset<Plane> {
    iset p: Plane | Sound(p) && IsPath(all) && p.commits <= all && k <= |p.commits|
  }

  /** Writing the next event of a path loses the worker or leaves the rest of the path to persist. */
  lemma WriteFollowsThePath(p: Plane, all: seq<Event>, k: nat, budget: nat)
    requires p in Partway(all, k) && k < |all|
    ensures Bind(all[k], k) == all[k]
    ensures var w := Write(p, all[k], budget);
            if budget < 2 then w.Died? && w in Following(p, all, k, budget)
            else w.Returned? && w.version == k + 1 && w.plane in Partway(all, k + 1) && p.commits <= w.plane.commits
                 && w.plane.exported.Keys == p.exported.Keys + {all[k].step}
  {
    OneWrite(p, all, k);
  }

  lemma FollowsFromNext(r: Ending, p: Plane, q: Plane, all: seq<Event>, k: nat, budget: nat)
    requires k < |all| && budget >= 2 && p.commits <= q.commits && q.exported.Keys == p.exported.Keys + {all[k].step}
    requires r in Following(q, all, k + 1, budget - 2)
    ensures r in Following(p, all, k, budget)
  {
    StepsFrom(all, k);
  }

  lemma NothingLeft(p: Plane, all: seq<Event>, version: nat, budget: nat)
    requires p in Partway(all, |all|) && version == |all|
    ensures Returned(p, version) in Following(p, all, |all|, budget)
  {
  }

  /** Events k.. of a path are attempted after some prefix of them was already committed. */
  lemma {:induction false} PersistFollowsThePath(p: Plane, all: seq<Event>, k: nat, budget: nat)
    requires p in Partway(all, k) && k <= |all|
    ensures Persist(p, all[k..], k, budget) in Following(p, all, k, budget)
    decreases |all| - k
  {
    hide Write, Follows, OnPath, Sound, IsPath;
    if k == |all| {
      assert all[k..] == [];
      NothingLeft(p, all, k, budget);
    } else {
      WriteFollowsThePath(p, all, k, budget);
      assert all[k..][0] == all[k] && all[k..][1..] == all[k + 1..];
      var w := Write(p, all[k], budget);
      if budget >= 2 {
        PersistFollowsThePath(w.plane, all, k + 1, budget - 2);
        FollowsFromNext(Persist(w.plane, all[k + 1..], k + 1, budget - 2), p, w.plane, all, k, budget);
      }
    }
  }

  function Steps(es: seq<Event>): set<Step> {
    set i | 0 <= i < |es| :: es[i].step
  }

  lemma StepsFrom(all: seq<Event>, k: nat)
    requires k < |all|
    ensures Steps(all[k..]) == {all[k].step} + Steps(all[k + 1..])
  {
    forall s | s in Steps(all[k..]) ensures s in {all[k].step} + Steps(all[k + 1..]) {
      var i :| 0 <= i < |all[k..]| && all[k..][i].step == s;
      if i > 0 { assert all[k + 1..][i - 1].step == s; }
    }
    forall s | s in Steps(all[k + 1..]) ensures s in Steps(all[k..]) {
      var i :| 0 <= i < |all[k + 1..]| && all[k + 1..][i].step == s;
      assert all[k..][i + 1].step == s;
    }
    assert all[k..][0].step in Steps(all[k..]);
  }

  lemma SoundPlanesAgree(a: Plane, b: Plane)
    requires Sound(a) && Sound(b) && a.commits == b.commits && a.exported.Keys == b.exported.Keys
    ensures a == b
  {
    assert a.exported == b.exported;
  }

  /** A step retried after any number of its writes ends where it would have ended uninterrupted. */
  lemma RetryEqualsUninterrupted(p: Plane, all: seq<Event>, k: nat, cut: nat, enough: nat)
    requires Sound(p) && IsPath(all) && p.commits <= all && k <= |p.commits| && enough >= 2 * (|all| - k)
    ensures var interrupted := Persist(p, all[k..], k, cut);
            Persist(interrupted.plane, all[k..], k, enough) == Persist(p, all[k..], k, enough)
  {
    var half := Persist(p, all[k..], k, cut).plane;
    assert p in Partway(all, k);
    PersistFollowsThePath(p, all, k, cut);
    assert half in Partway(all, k);
    PersistFollowsThePath(half, all, k, enough);
    PersistFollowsThePath(p, all, k, enough);
    SoundPlanesAgree(Persist(half, all[k..], k, enough).plane, Persist(p, all[k..], k, enough).plane);
  }
}
