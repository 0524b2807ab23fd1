/** What every run of the remediation workflow keeps, for any signals, verdicts, crashes and retries. */
module RemediationSafety {
  import opened Wrappers
  import opened ControlPlane
  import opened RemediationActivities
  import opened RemediationWorkflow

  /** The gates a mutation stands behind, for the one signal that opened them. */
  function Gates(signal: Signal): seq<Fact> {
    [Accepted(signal), SignatureVerified(signal), PolicyAllowed, RehearsedSafely, Mutated]
  }

  function HashOf(s: Setting): Option<string> {
    match s.plan
    case None => None
    case Some(c) => Some(c.hash)
  }

  predicate Bound(s: Setting, signal: Signal) {
    Objections(s.workflowId, HashOf(s), signal).None?
  }

  predicate Gated(s: Setting, facts: seq<Fact>) {
    facts == [] || (facts[0].Accepted? && Bound(s, facts[0].signal) && facts <= Gates(facts[0].signal))
  }

  /** The regular course: which step comes i-th, and the status it leaves. */
  function RegularStep(i: nat): Step {
    match i
    case 0 => EvidenceStep
    case 1 => PlannedStep
    case 2 => AwaitingStep
    case 3 => ExecutingStep
    case _ => VerifyingStep
  }

  function RegularStatus(i: nat): Status {
    match i
    case 0 => Received
    case 1 => Status.Planned
    case 2 => WaitingApproval
    case 3 => Executing
    case _ => Verifying
  }

  /** The first `n` events are the first steps of the regular course. */
  ghost predicate OnCourse(es: seq<Event>, n: nat) {
    n <= |es| && n <= 5 && forall i :: 0 <= i < n ==> es[i].step == RegularStep(i) && es[i].to == RegularStatus(i)
  }

  /** `n` events are done and exported, and what was begun after them is a prefix of `intended`. */
  ghost predicate Underway(p: Plane, n: nat, intended: seq<Event>) {
    && Sound(p) && OnCourse(p.commits, n)
    && p.commits <= p.commits[..n] + intended
    && forall i :: 0 <= i < n ==> RegularStep(i) in p.exported
  }

  /** How many events the steps before this phase recorded. */
  function Done(ph: Phase): nat {
    match ph
    case Collecting(_) => 0
    case Planning(_, _) => 1
    case Recording(_, o, _, _) => if o.version <= 5 then o.version else 0
    case _ => 3
  }

  function Intended(s: Setting, ph: Phase): seq<Event> {
    match ph
    case Collecting(at) => [Collected(s, at)]
    case Planning(version, at) => if s.plan.None? then [] else Prepared(s.plan.value, version, at)
    case Recording(plan, o, approver, at) => [Recorded(plan, o, approver, at)]
    case _ => []
  }

  predicate PlanKept(s: Setting, plan: PlanResult) {
    s.plan.Some? && plan == PlanOf(s, 3)
  }

  /** What a phase carries agrees with what the steps before it recorded and with the gates passed. */
  ghost predicate Carried(s: Setting, ph: Phase, facts: seq<Fact>) {
    match ph
    case Collecting(_) => facts == []
    case Planning(version, _) => version == 1 && facts == []
    case Awaiting(plan, _) => PlanKept(s, plan) && facts == []
    case VerifyingApproval(plan, signal) => PlanKept(s, plan) && Bound(s, signal) && facts == Gates(signal)[..1]
    case Authorizing(plan, signal) => PlanKept(s, plan) && Bound(s, signal) && facts == Gates(signal)[..2]
    case Rehearsing(plan, signal) => PlanKept(s, plan) && Bound(s, signal) && facts == Gates(signal)[..3]
    case Acting(plan, signal, _) => PlanKept(s, plan) && Bound(s, signal) && facts == Gates(signal)[..4]
    case Recording(plan, o, _, _) =>
      || (o.from == Received && o.version == 1 && s.plan.None? && plan == PlanOf(s, 1) && o.status == "escalate")
      || (o.from == WaitingApproval && o.version == 3 && PlanKept(s, plan) && o.status in {"escalate", "denied"})
      || (o.from == Verifying && o.version == 5 && PlanKept(s, plan) && |facts| == 5)
    case _ => true
  }

  ghost predicate PhaseFits(s: Setting, w: Flow) {
    && Carried(s, w.phase, w.facts)
    && match w.phase
       case Broken => true
       case Finished(status, version) =>
         && 0 < version == |w.plane.commits| && w.plane.commits[version - 1].step == OutcomeStep
         && w.plane.commits[version - 1].to == status && TerminalStatus(status) && OutcomeStep in w.plane.exported
       case ph => Underway(w.plane, Done(ph), Intended(s, ph))
  }

  /** Every write after the first is bound to the hash of the plan. */
  ghost predicate HashBound(s: Setting, es: seq<Event>) {
    forall i :: 1 <= i < |es| ==> es[i].planHash == HashOf(s)
  }

  ghost predicate Claims(es: seq<Event>, to: Status) {
    exists i :: 0 <= i < |es| && es[i].to == to
  }

  /** The safety statement. */
  ghost predicate Safe(s: Setting, w: Flow) {
    && !w.refused && Sound(w.plane) && HashBound(s, w.plane.commits) && Gated(s, w.facts)
    && (Mutated in w.facts ==> OnCourse(w.plane.commits, 4) && ExecutingStep in w.plane.exported)
    && (Claims(w.plane.commits, Succeeded) || Claims(w.plane.commits, RolledBack) ==> Mutated in w.facts)
  }

  ghost predicate Invariant(s: Setting, w: Flow) {
    Safe(s, w) && PhaseFits(s, w)
  }

  /** The states every run stays in. */
  ghost function Fitting(s: Setting): iset<Flow> {
    iset w: Flow | Invariant(s, w)
  }

  lemma PathExtends(es: seq<Event>, e: Event)
    requires IsPath(es) && Valid(e) && (es != [] ==> Rank(es[|es| - 1].step) < Rank(e.step))
    requires if es == [] then e.from.None? else e.from == Some(es[|es| - 1].to) && e.expected == Some(|es|)
    ensures IsPath(es + [e])
  {
  }

  /** An attempt at what a phase intends is never refused, and returns only when all of it is recorded and exported. */
  lemma AttemptStaysUnderway(p: Plane, n: nat, intended: seq<Event>, budget: nat)
    requires Underway(p, n, intended) && IsPath(p.commits[..n] + intended)
    ensures var e := Persist(p, intended, n, budget);
            && !e.Refused? && Underway(e.plane, n, intended)
            && p.commits <= e.plane.commits <= p.commits[..n] + intended && p.exported.Keys <= e.plane.exported.Keys
            && (e.Returned? ==> e.version == n + |intended| && e.plane.commits == p.commits[..n] + intended
                                && forall i :: 0 <= i < |intended| ==> intended[i].step in e.plane.exported)
  {
    var all := p.commits[..n] + intended;
    assert all[n..] == intended;
    assert p in Partway(all, n);
    PersistFollowsThePath(p, all, n, budget);
    var e := Persist(p, intended, n, budget);
    assert e.plane.commits[..n] == p.commits[..n];
    if e.Returned? {
      forall i | 0 <= i < |intended| ensures intended[i].step in e.plane.exported {
        assert intended[i].step in Steps(intended);
      }
    }
  }

  /** The part of the safety statement that is about what was written. */
  ghost predicate Warranted(s: Setting, es: seq<Event>, facts: seq<Fact>) {
    && HashBound(s, es)
    && (Claims(es, Succeeded) || Claims(es, RolledBack) ==> Mutated in facts)
  }

  lemma PrefixIsWarranted(s: Setting, es: seq<Event>, all: seq<Event>, facts: seq<Fact>)
    requires es <= all && Warranted(s, all, facts)
    ensures Warranted(s, es, facts)
  {
  }

  lemma StartFits(s: Setting, at: int)
    ensures Start(at) in Fitting(s)
  {
  }

  /** The next event of the course, or an outcome, continues the first `n` events of a path on course. */
  lemma CourseExtends(es: seq<Event>, n: nat, e: Event)
    requires IsPath(es) && OnCourse(es, n) && Valid(e) && n <= Rank(e.step)
    requires if n == 0 then e.from.None? else e.from == Some(RegularStatus(n - 1)) && e.expected == Some(n)
    ensures IsPath(es[..n] + [e])
  {
    PrefixIsPath(es, n);
    if n > 0 { assert es[..n][n - 1].to == RegularStatus(n - 1) && es[..n][n - 1].step == RegularStep(n - 1); }
    PathExtends(es[..n], e);
  }

  lemma WarrantExtends(s: Setting, es: seq<Event>, n: nat, more: seq<Event>, facts: seq<Fact>)
    requires Warranted(s, es, facts) && n <= |es| && (n == 0 ==> |more| <= 1)
    requires n > 0 ==> forall i :: 0 <= i < |more| ==> more[i].planHash == HashOf(s)
    requires forall i :: 0 <= i < |more| ==> more[i].to in {Succeeded, RolledBack} ==> Mutated in facts
    ensures Warranted(s, es[..n] + more, facts)
  {
    var all := es[..n] + more;
    forall i | 0 <= i < |all| && all[i].to in {Succeeded, RolledBack} ensures Mutated in facts {
      if i < n { assert Claims(es, es[i].to); } else { assert all[i] == more[i - n]; }
    }
  }

  /** What a phase intends continues the course, and says nothing the facts do not warrant. */
  ghost predicate Ready(s: Setting, w: Flow)
    requires Done(w.phase) <= |w.plane.commits|
  {
    var all := w.plane.commits[..Done(w.phase)] + Intended(s, w.phase);
    IsPath(all) && Warranted(s, all, w.facts)
  }

  lemma CollectingIsReady(s: Setting, w: Flow)
    requires w in Fitting(s) && w.phase.Collecting?
    ensures Ready(s, w)
  {
    CourseExtends(w.plane.commits, 0, Collected(s, w.phase.at));
    WarrantExtends(s, w.plane.commits, 0, Intended(s, w.phase), w.facts);
  }

  lemma PlanningIsReady(s: Setting, w: Flow)
    requires w in Fitting(s) && w.phase.Planning?
    ensures Ready(s, w)
  {
    var es, more := w.plane.commits, Intended(s, w.phase);
    WarrantExtends(s, es, 1, more, w.facts);
    if s.plan.Some? {
      CourseExtends(es, 1, more[0]);
      var one := es[..1] + [more[0]];
      PathExtends(one, more[1]);
      assert es[..1] + more == one + [more[1]];
    } else {
      PrefixIsPath(es, 1);
      assert es[..1] + more == es[..1];
    }
  }

  /** A recording phase closes the course where it stands, and claims success only after the action. */
  lemma RecordingCarries(s: Setting, ph: Phase, facts: seq<Fact>)
    requires ph.Recording? && Carried(s, ph, facts)
    ensures 1 <= ph.outcome.version <= 5 && ph.outcome.from == RegularStatus(ph.outcome.version - 1)
    ensures ph.plan.hash == HashOf(s) && AllowedTransition(Some(ph.outcome.from), Closed(TerminalText(ph.outcome.status)))
    ensures Closed(TerminalText(ph.outcome.status)) in {Succeeded, RolledBack} ==> |facts| == 5
  {
  }

  lemma OutcomeCloses(s: Setting, es: seq<Event>, n: nat, e: Event, facts: seq<Fact>)
    requires IsPath(es) && OnCourse(es, n) && Valid(e) && e.step == OutcomeStep && 1 <= n
    requires e.from == Some(RegularStatus(n - 1)) && e.expected == Some(n)
    requires Warranted(s, es, facts) && e.planHash == HashOf(s) && (e.to in {Succeeded, RolledBack} ==> Mutated in facts)
    ensures IsPath(es[..n] + [e]) && Warranted(s, es[..n] + [e], facts)
  {
    hide IsPath, HashBound;
    CourseExtends(es, n, e);
    WarrantExtends(s, es, n, [e], facts);
  }

  lemma RecordingIsReady(s: Setting, w: Flow)
    requires w in Fitting(s) && w.phase.Recording?
    ensures Ready(s, w)
  {
    assert IsPath(w.plane.commits);
    hide Sound, IsPath, HashBound, Claims;
    RecordingCarries(s, w.phase, w.facts);
    assert |w.facts| == 5 ==> w.facts[4] == Mutated;
    OutcomeCloses(s, w.plane.commits, w.phase.outcome.version, Intended(s, w.phase)[0], w.facts);
  }

  /** The attempt recorded and exported all of what was intended, after the first `n` events. */
  ghost predicate Completes(p: Plane, e: Ending, n: nat, more: seq<Event>) {
    && e.Returned? && Sound(e.plane) && n <= |p.commits| && n <= 5
    && e.version == n + |more| && e.plane.commits == p.commits[..n] + more
    && (forall i :: 0 <= i < n ==> RegularStep(i) in e.plane.exported)
    && (forall i :: 0 <= i < |more| ==> more[i].step in e.plane.exported)
  }

  /** After any attempt to persist what a phase intends the flow still fits, whether or not it gets further. */
  lemma AttemptFits(s: Setting, w: Flow, budget: nat)
    requires w in Fitting(s) && (w.phase.Collecting? || w.phase.Planning? || w.phase.Recording?) && Ready(s, w)
    ensures var n, more := Done(w.phase), Intended(s, w.phase);
            var e := Persist(w.plane, more, n, budget);
            && !e.Refused? && w.(plane := e.plane) in Fitting(s) && w.plane.commits <= e.plane.commits
            && (e.Returned? ==> Completes(w.plane, e, n, more))
  {
    var n, more := Done(w.phase), Intended(s, w.phase);
    AttemptStaysUnderway(w.plane, n, more, budget);
    var e := Persist(w.plane, more, n, budget);
    PrefixIsWarranted(s, e.plane.commits, w.plane.commits[..n] + more, w.facts);
    assert Safe(s, w.(plane := e.plane));
  }

  lemma CollectingLeads(s: Setting, w: Flow, e: Ending, now: int)
    requires w.(plane := e.plane) in Fitting(s) && w.phase.Collecting? && Completes(w.plane, e, 0, Intended(s, w.phase))
    ensures w.(plane := e.plane, phase := Planning(VersionOf(e), now)) in Fitting(s)
  {
    assert Underway(e.plane, 1, Intended(s, Planning(1, now))) by {
      assert Intended(s, w.phase)[0].step in e.plane.exported;
    }
  }

  /** Tries, pending signals and rejections are not part of what the invariant says, and a broken flow claims no phase. */
  lemma FitsAlike(s: Setting, w: Flow, w': Flow)
    requires w in Fitting(s) && w'.plane == w.plane && w'.facts == w.facts && w'.refused == w.refused
    requires w'.phase == w.phase || w'.phase == Broken
    ensures w' in Fitting(s)
  {
  }

  lemma SettleKeeps(s: Setting, w: Flow, e: Ending, reported: bool, attempts: nat, next: Phase)
    requires !e.Refused? && w.(plane := e.plane) in Fitting(s)
    requires e.Returned? ==> w.(plane := e.plane, phase := next) in Fitting(s)
    ensures Settle(w, e, reported, attempts, next) in Fitting(s)
  {
    var w' := Settle(w, e, reported, attempts, next);
    if e.Returned? && reported { FitsAlike(s, w.(plane := e.plane, phase := next), w'); }
    else { FitsAlike(s, w.(plane := e.plane), w'); }
  }

  lemma CollectingKeeps(s: Setting, w: Flow, a: Action)
    requires w in Fitting(s) && a.Attempt? && w.phase.Collecting?
    ensures Next(s, w, a) in Fitting(s)
  {
    CollectingIsReady(s, w);
    AttemptFits(s, w, a.budget);
    var e := Persist(w.plane, Intended(s, w.phase), 0, a.budget);
    if e.Returned? { CollectingLeads(s, w, e, a.now); }
    SettleKeeps(s, w, e, a.reported, STEP_ATTEMPTS, Planning(VersionOf(e), a.now));
  }

  /** Where the plan step leads: to the approval, or straight to an escalation. */
  function AfterPlan(s: Setting, version: nat, e: Ending, now: int): Phase {
    var plan := PlanOf(s, VersionOf(e));
    if plan.planned then Awaiting(plan, now + s.patience)
    else Recording(plan, Outcome("escalate", NO_RUNBOOK, Received, version), "", now)
  }

  lemma PlanningLeads(s: Setting, w: Flow, e: Ending, now: int)
    requires w.(plane := e.plane) in Fitting(s) && w.phase.Planning? && Completes(w.plane, e, 1, Intended(s, w.phase))
    ensures w.(plane := e.plane, phase := AfterPlan(s, 1, e, now)) in Fitting(s)
  {
    hide Sound, HashBound, Claims;
    var q, more := e.plane, Intended(s, w.phase);
    assert OnCourse(q.commits, 1) && q.commits[1..] == more && RegularStep(0) in q.exported;
    if s.plan.Some? {
      assert more[0].step in q.exported && more[1].step in q.exported;
      assert q.commits[1] == more[0] && q.commits[2] == more[1];
      assert OnCourse(q.commits, 3) && Underway(q, 3, []);
    } else {
      assert Underway(q, 1, Intended(s, AfterPlan(s, 1, e, now)));
    }
  }

  lemma PlanningAttempt(s: Setting, w: Flow, budget: nat, now: int)
    requires w in Fitting(s) && w.phase.Planning?
    ensures var e := Plan(w.plane, s, 1, w.phase.at, budget);
            && !e.Refused? && w.(plane := e.plane) in Fitting(s)
            && (e.Returned? ==> w.(plane := e.plane, phase := AfterPlan(s, 1, e, now)) in Fitting(s))
  {
    PlanningIsReady(s, w);
    AttemptFits(s, w, budget);
    var e := Plan(w.plane, s, 1, w.phase.at, budget);
    assert e == Persist(w.plane, Intended(s, w.phase), 1, budget);
    if e.Returned? { PlanningLeads(s, w, e, now); }
  }

  lemma PlanningKeeps(s: Setting, w: Flow, a: Action)
    requires w in Fitting(s) && a.Attempt? && w.phase.Planning?
    ensures Next(s, w, a) in Fitting(s)
  {
    hide Sound, HashBound, Underway, Claims;
    PlanningAttempt(s, w, a.budget, a.now);
    var e := Plan(w.plane, s, 1, w.phase.at, a.budget);
    SettleKeeps(s, w, e, a.reported, STEP_ATTEMPTS, AfterPlan(s, 1, e, a.now));
  }

  lemma FinishedFits(s: Setting, w: Flow, status: Status)
    requires w in Fitting(s) && w.plane.commits != [] && TerminalStatus(status) && OutcomeStep in w.plane.exported
    requires var last := w.plane.commits[|w.plane.commits| - 1]; last.step == OutcomeStep && last.to == status
    ensures w.(phase := Finished(status, |w.plane.commits|)) in Fitting(s)
  {
    hide Sound, HashBound, Claims, OnCourse, Gated;
  }

  lemma RecordingLeads(s: Setting, w: Flow, e: Ending)
    requires w.(plane := e.plane) in Fitting(s) && w.phase.Recording?
    requires Completes(w.plane, e, Done(w.phase), Intended(s, w.phase))
    ensures w.(plane := e.plane, phase := Finished(Closed(TerminalText(w.phase.outcome.status)), VersionOf(e))) in Fitting(s)
  {
    var q, more := e.plane, Intended(s, w.phase);
    assert q.commits[|q.commits| - 1] == more[0] && more[0].step in q.exported;
    FinishedFits(s, w.(plane := q), Closed(TerminalText(w.phase.outcome.status)));
  }

  lemma RecordingKeeps(s: Setting, w: Flow, a: Action)
    requires w in Fitting(s) && a.Attempt? && w.phase.Recording?
    ensures Next(s, w, a) in Fitting(s)
  {
    RecordingIsReady(s, w);
    AttemptFits(s, w, a.budget);
    RecordingCarries(s, w.phase, w.facts);
    var o := w.phase.outcome;
    var e := Persist(w.plane, Intended(s, w.phase), o.version, a.budget);
    if e.Returned? { RecordingLeads(s, w, e); }
    SettleKeeps(s, w, e, a.reported, STEP_ATTEMPTS, Finished(Closed(TerminalText(o.status)), VersionOf(e)));
  }

  lemma UnderwayBegins(p: Plane, more: seq<Event>)
    requires Underway(p, 3, [])
    ensures Underway(p, 3, more)
  {
  }

  /** A gate that writes nothing: the flow goes through it, closes, or is retried. */
  lemma GateKeeps(s: Setting, w: Flow, a: Action, passed: Fact, next: Phase, closing: string, reason: string, approver: string)
    requires w in Fitting(s) && a.Attempt? && (w.phase.VerifyingApproval? || w.phase.Authorizing? || w.phase.Rehearsing?)
    requires closing in {"escalate", "denied"} && passed != Mutated
    requires Carried(s, next, w.facts + [passed]) && (next.Authorizing? || next.Rehearsing? || next.Acting?)
    ensures Gate(w, a, passed, next, closing, reason, approver) in Fitting(s)
  {
    hide Sound, HashBound, OnCourse, Underway, Claims;
    var through := w.(phase := next, facts := w.facts + [passed]);
    var closed := Recording(w.phase.plan, Outcome(closing, reason, WaitingApproval, w.phase.plan.version), approver, a.now);
    if a.reported && a.budget > 0 && a.answer.granted {
      assert through in Fitting(s);
      FitsAlike(s, through, Gate(w, a, passed, next, closing, reason, approver));
    } else {
      UnderwayBegins(w.plane, Intended(s, closed));
      assert w.(phase := closed) in Fitting(s);
      SettleKeeps(s, w, Returned(w.plane, 0), a.reported && a.budget > 0, STEP_ATTEMPTS, closed);
    }
  }

  lemma GatesKeep(s: Setting, w: Flow, a: Action)
    requires w in Fitting(s) && a.Attempt? && (w.phase.VerifyingApproval? || w.phase.Authorizing? || w.phase.Rehearsing?)
    ensures Next(s, w, a) in Fitting(s)
  {
    hide Sound, HashBound, OnCourse, Underway, Claims;
    var signal := w.phase.signal;
    match w.phase
    case VerifyingApproval(plan, _) =>
      assert w.facts + [SignatureVerified(signal)] == Gates(signal)[..2];
      GateKeeps(s, w, a, SignatureVerified(signal), Authorizing(plan, signal), "escalate",
                ReasonOr(a.answer.reason, NOT_VERIFIED), "");
    case Authorizing(plan, _) =>
      assert w.facts + [PolicyAllowed] == Gates(signal)[..3];
      GateKeeps(s, w, a, PolicyAllowed, Rehearsing(plan, signal), "denied",
                ReasonOr(a.answer.reason, NOT_ALLOWED), signal.approver);
    case Rehearsing(plan, _) =>
      assert w.facts + [RehearsedSafely] == Gates(signal)[..4];
      GateKeeps(s, w, a, RehearsedSafely, Acting(plan, signal, a.now), "escalate", NOT_REHEARSED, signal.approver);
  }

  lemma WaitingKeeps(s: Setting, w: Flow, a: Action)
    requires w in Fitting(s) && !a.Attempt?
    ensures Next(s, w, a) in Fitting(s)
  {
    hide Sound, HashBound, Claims;
    var w' := Next(s, w, a);
    if w'.phase == w.phase {
      FitsAlike(s, w, w');
    } else if a.Drain? {
      DrainedTakesTheFirst(s.workflowId, w.phase.plan.hash, w.pending);
    }
  }

  /** Everything recorded so far is a regular step, so no success is claimed. */
  ghost predicate Regular(s: Setting, p: Plane) {
    Sound(p) && |p.commits| <= 5 && OnCourse(p.commits, |p.commits|) && HashBound(s, p.commits)
  }

  /** Between the writes of the action: all of `n` regular steps are recorded and exported. */
  ghost predicate InAction(s: Setting, p: Plane, n: nat) {
    Regular(s, p) && |p.commits| == n && forall i :: 0 <= i < n ==> RegularStep(i) in p.exported
  }

  lemma StaysRegular(s: Setting, p: Plane, q: Plane, e: Event)
    requires Regular(s, p) && 3 <= |p.commits| < 5 && Sound(q) && p.commits <= q.commits <= p.commits + [e]
    requires e.step == RegularStep(|p.commits|) && e.to == RegularStatus(|p.commits|) && e.planHash == HashOf(s)
    ensures Regular(s, q)
  {
    hide Sound;
  }

  lemma RegularStepIsNext(s: Setting, p: Plane, n: nat, e: Event)
    requires 3 <= n < 5 && InAction(s, p, n) && Valid(e) && e.step == RegularStep(n)
    requires e.from == Some(RegularStatus(n - 1)) && e.expected == Some(n)
    ensures IsPath(p.commits[..n] + [e]) && Underway(p, n, [e])
  {
    assert IsPath(p.commits);
    hide Sound, IsPath;
    CourseExtends(p.commits, n, e);
  }

  /** The next regular step of the action is never refused, and returns only when it is recorded and exported. */
  lemma ActionWrite(s: Setting, p: Plane, n: nat, e: Event, budget: nat)
    requires 3 <= n < 5 && InAction(s, p, n) && Valid(e) && e.step == RegularStep(n) && e.to == RegularStatus(n)
    requires e.from == Some(RegularStatus(n - 1)) && e.expected == Some(n) && e.planHash == HashOf(s)
    ensures var r := Persist(p, [e], n, budget);
            && !r.Refused? && Regular(s, r.plane) && |r.plane.commits| >= n
            && p.exported.Keys <= r.plane.exported.Keys
            && (r.Returned? ==> r.version == n + 1 && InAction(s, r.plane, n + 1) && r.plane.commits == p.commits + [e])
  {
    RegularStepIsNext(s, p, n, e);
    hide Sound, IsPath, HashBound;
    assert p.commits[..n] == p.commits;
    AttemptStaysUnderway(p, n, [e], budget);
    var r := Persist(p, [e], n, budget);
    StaysRegular(s, p, r.plane, e);
    hide Regular, OnCourse, Persist;
    if r.Returned? { assert [e][0].step in r.plane.exported; }
  }

  lemma StartFitsAction(s: Setting, p: Plane, plan: PlanResult, at: int, budget: nat)
    requires InAction(s, p, 3) && PlanKept(s, plan)
    ensures var r := Persist(p, [Started(plan, at)], 3, budget);
            && !r.Refused? && Regular(s, r.plane)
            && (r.Returned? ==> r.version == 4 && InAction(s, r.plane, 4) && ExecutingStep in r.plane.exported)
  {
    ActionWrite(s, p, 3, Started(plan, at), budget);
    var r := Persist(p, [Started(plan, at)], 3, budget);
    if r.Returned? { assert RegularStep(3) in r.plane.exported; }
  }

  lemma CheckFitsAction(s: Setting, p: Plane, plan: PlanResult, result: ActionResult, at: int, budget: nat)
    requires InAction(s, p, 4) && PlanKept(s, plan) && ExecutingStep in p.exported
    ensures var r := Persist(p, [Checked(plan, result, 4, at)], 4, budget);
            && !r.Refused? && Regular(s, r.plane) && |r.plane.commits| >= 4 && ExecutingStep in r.plane.exported
            && (r.Returned? ==> r.version == 5 && InAction(s, r.plane, 5) && r.plane.commits[4] == Checked(plan, result, 4, at))
  {
    ActionWrite(s, p, 4, Checked(plan, result, 4, at), budget);
  }

  /** The control loop runs only after the executing step is recorded and exported; its result only after it ran. */
  lemma ActFits(s: Setting, p: Plane, plan: PlanResult, result: ActionResult, at: int, budget: nat)
    requires InAction(s, p, 3) && PlanKept(s, plan)
    ensures var (e, ran) := Act(p, plan, result, at, budget);
            && !e.Refused? && Regular(s, e.plane)
            && (ran ==> |e.plane.commits| >= 4 && ExecutingStep in e.plane.exported)
            && (e.Returned? ==> ran && e.version == 5 && InAction(s, e.plane, 5)
                                && e.plane.commits[4].payload == Execution(result.status, result.verified))
  {
    hide Sound, HashBound;
    var started := Persist(p, [Started(plan, at)], 3, budget);
    StartFitsAction(s, p, plan, at, budget);
    if started.Returned? && budget > 2 { CheckFitsAction(s, started.plane, plan, result, at, budget - 3); }
  }

  lemma RegularClaimsNothing(s: Setting, p: Plane)
    requires Regular(s, p)
    ensures !Claims(p.commits, Succeeded) && !Claims(p.commits, RolledBack)
  {
  }

  /** A flow with a regular record fits once its facts are those of the action. */
  lemma ActedFits(s: Setting, w: Flow, p: Plane, ran: bool, ph: Phase)
    requires w in Fitting(s) && w.phase.Acting? && Regular(s, p)
    requires ran ==> |p.commits| >= 4 && ExecutingStep in p.exported
    requires ph == Broken || (ran && ph.Recording? && InAction(s, p, 5) && PlanKept(s, ph.plan)
                              && ph.outcome.from == Verifying && ph.outcome.version == 5)
    ensures w.(plane := p, phase := ph, facts := if ran then w.facts + [Mutated] else w.facts) in Fitting(s)
  {
    hide Sound, HashBound;
    RegularClaimsNothing(s, p);
    var facts := if ran then w.facts + [Mutated] else w.facts;
    assert facts <= Gates(w.phase.signal);
    assert Mutated in facts <==> ran by { assert ran ==> facts[4] == Mutated; }
    if ran { assert OnCourse(p.commits, 4); }
    if ph.Recording? { assert Underway(p, 5, Intended(s, ph)); }
  }

  lemma ActingKeeps(s: Setting, w: Flow, a: Action)
    requires w in Fitting(s) && a.Attempt? && w.phase.Acting?
    ensures Next(s, w, a) in Fitting(s)
  {
    var plan, w' := w.phase.plan, Next(s, w, a);
    assert InAction(s, w.plane, 3);
    ActFits(s, w.plane, plan, a.answer.result, w.phase.at, a.budget);
    var (e, ran) := Act(w.plane, plan, a.answer.result, w.phase.at, a.budget);
    ActedFits(s, w, e.plane, ran, w'.phase);
    FitsAlike(s, w.(plane := e.plane, phase := w'.phase, facts := w'.facts), w');
  }

  lemma StepKeeps(s: Setting, w: Flow, a: Action)
    requires w in Fitting(s)
    ensures Next(s, w, a) in Fitting(s)
  {
    if !a.Attempt? { WaitingKeeps(s, w, a); }
    else if w.phase.Collecting? { CollectingKeeps(s, w, a); }
    else if w.phase.Planning? { PlanningKeeps(s, w, a); }
    else if w.phase.Acting? { ActingKeeps(s, w, a); }
    else if w.phase.Recording? { RecordingKeeps(s, w, a); }
    else if w.phase.VerifyingApproval? || w.phase.Authorizing? || w.phase.Rehearsing? { GatesKeep(s, w, a); }
  }

  /** Every state of every run is safe. */
  lemma {:induction false} EveryRunIsSafe(s: Setting, at: int, ws: seq<Flow>, actions: seq<Action>, i: nat)
    requires Run(s, at, ws, actions) && i < |ws|
    ensures Invariant(s, ws[i])
  {
    if i == 0 {
      StartFits(s, at);
    } else {
      EveryRunIsSafe(s, at, ws, actions, i - 1);
      StepKeeps(s, ws[i - 1], actions[i - 1]);
    }
  }

  /** Each write names the status and the version its predecessor left, and no write of the run is refused. */
  lemma EveryWriteNamesItsPredecessor(s: Setting, at: int, ws: seq<Flow>, actions: seq<Action>, i: nat, j: nat)
    requires Run(s, at, ws, actions) && i < |ws| && j < |ws[i].plane.commits|
    ensures !ws[i].refused && ws[i].plane.store.record == RecordAfter(ws[i].plane.commits)
    ensures NamesItsPredecessor(ws[i].plane.commits, j)
  {
    EveryRunIsSafe(s, at, ws, actions, i);
    assert IsPath(ws[i].plane.commits);
    PathNamesPredecessors(ws[i].plane.commits, j);
  }

  /** The mutation runs at most once, and only behind a bound signal, its signature, the policy and a rehearsal. */
  lemma MutatesOnceAndBehindEveryGate(s: Setting, at: int, ws: seq<Flow>, actions: seq<Action>, i: nat)
    requires Run(s, at, ws, actions) && i < |ws|
    ensures multiset(ws[i].facts)[Mutated] <= 1
    ensures Mutated in ws[i].facts ==>
              exists signal :: Bound(s, signal) && ws[i].facts == Gates(signal)
    ensures Mutated in ws[i].facts ==>
              |ws[i].plane.commits| > 3 && ws[i].plane.commits[1].planHash == ws[i].plane.commits[3].planHash == HashOf(s)
              && ExecutingStep in ws[i].plane.exported
  {
    hide Next, Sound, Claims, PhaseFits, Gated, Bound;
    EveryRunIsSafe(s, at, ws, actions, i);
    GatedOnce(s, ws[i].facts);
  }

  lemma GatedOnce(s: Setting, facts: seq<Fact>)
    requires Gated(s, facts)
    ensures multiset(facts)[Mutated] <= 1
    ensures Mutated in facts ==> exists signal :: Bound(s, signal) && facts == Gates(signal)
  {
    hide Bound;
    if facts != [] {
      var signal := facts[0].signal;
      assert facts <= Gates(signal);
      assert multiset(Gates(signal)) == multiset{Accepted(signal), SignatureVerified(signal), PolicyAllowed, RehearsedSafely, Mutated};
      assert Gates(signal) == facts + Gates(signal)[|facts|..];
      if Mutated in facts {
        assert |facts| == 5;
        assert facts == Gates(signal);
      }
    }
  }

  /** At most one terminal transition is recorded, and it is the last; success is recorded only after the mutation. */
  lemma AtMostOneTerminal(s: Setting, at: int, ws: seq<Flow>, actions: seq<Action>, i: nat, j: nat)
    requires Run(s, at, ws, actions) && i < |ws| && j < |ws[i].plane.commits|
    requires TerminalStatus(ws[i].plane.commits[j].to)
    ensures j == |ws[i].plane.commits| - 1
    ensures ws[i].plane.commits[j].to in {Succeeded, RolledBack} ==> Mutated in ws[i].facts
    ensures ws[i].phase.Finished? ==> ws[i].phase.status == ws[i].plane.commits[j].to
  {
    EveryRunIsSafe(s, at, ws, actions, i);
    var es := ws[i].plane.commits;
    if es[j].to in {Succeeded, RolledBack} { assert Claims(es, es[j].to); }
    if j + 1 < |es| { NothingFollowsATerminalEvent(es, j + 1); }
  }
}
