/** What the recorded events of a remediation say, and why a finished run ended as it did. */
module RemediationOutcomes {
  import opened Wrappers
  import opened ControlPlane
  import opened RemediationActivities
  import opened RemediationWorkflow
  import opened RemediationSafety

  /** The lifecycle status of an outcome event and the terminal word in its payload say the same. */
  predicate Named(to: Status, terminal: string) {
    || (to == Succeeded && terminal == "succeeded")
    || (to == RolledBack && terminal == "rolled_back")
    || (to == Escalated && terminal == "escalated")
    || (to == Failed && (terminal == "denied" || terminal == "failed"))
  }

  /** The terminal word for what an action, or a gate that stayed shut, answered. */
  predicate Reported(terminal: string, status: string) {
    if status == "escalate" then terminal == "escalated"
    else if status in {"succeeded", "rolled_back", "escalated", "denied"} then terminal == status
    else terminal == "failed"
  }

  lemma TerminalIsReported(status: string)
    ensures Reported(TerminalText(status), status) && Named(Closed(TerminalText(status)), TerminalText(status))
  {
  }

  /** The event carries what its step is about. */
  predicate Says(s: Setting, e: Event) {
    match e.step
    case EvidenceStep => e.payload == EvidenceIds(s.evidence)
    case PlannedStep => s.plan.Some? && e.payload == PlanText(s.plan.value.runbook)
    case AwaitingStep => e.payload == Nothing
    case ExecutingStep => s.plan.Some? && e.payload == PlanText(s.plan.value.runbook)
    case VerifyingStep => e.payload.Execution?
    case OutcomeStep => e.payload.Closing? && Named(e.to, e.payload.status)
  }

  predicate AllSay(s: Setting, es: seq<Event>) {
    forall e :: e in es ==> Says(s, e)
  }

  lemma WriteSays(s: Setting, p: Plane, e: Event, budget: nat)
    requires AllSay(s, p.commits) && Says(s, e)
    ensures AllSay(s, Write(p, e, budget).plane.commits)
  {
  }

  lemma {:induction false} PersistSays(s: Setting, p: Plane, drafts: seq<Event>, version: nat, budget: nat)
    requires AllSay(s, p.commits) && forall d :: d in drafts ==> Says(s, d)
    ensures AllSay(s, Persist(p, drafts, version, budget).plane.commits)
    decreases |drafts|
  {
    hide AllSay, Write, Says;
    if drafts != [] {
      BindSays(s, drafts[0], version);
      WriteSays(s, p, Bind(drafts[0], version), budget);
      var w := Write(p, Bind(drafts[0], version), budget);
      if w.Returned? { PersistSays(s, w.plane, drafts[1..], w.version, if budget > 1 then budget - 2 else 0); }
    }
  }

  lemma BindSays(s: Setting, d: Event, version: nat)
    requires Says(s, d)
    ensures Says(s, Bind(d, version))
  {
  }

  /** How the closing of a run agrees with the gates it passed: the signal of the last acceptance is the first fact. */
  predicate ClosesAs(facts: seq<Fact>, terminal: string, approver: string) {
    && (|facts| == 2 ==> terminal == "denied")
    && (|facts| in {0, 1, 3} ==> terminal == "escalated")
    && (|facts| in {2, 3} ==> facts[0].Accepted? && approver == facts[0].signal.approver)
  }

  predicate PhaseTells(ph: Phase, commits: seq<Event>, facts: seq<Fact>) {
    match ph
    case Recording(_, o, approver, _) => |facts| != 4 && ClosesAs(facts, TerminalText(o.status), approver)
    case Finished(status, version) =>
      && commits != [] && var last := commits[|commits| - 1];
      last.payload.Closing? && Named(status, last.payload.status) && |facts| != 4
      && ClosesAs(facts, last.payload.status, last.payload.approver)
    case _ => true
  }

  predicate Tells(s: Setting, w: Flow) {
    AllSay(s, w.plane.commits) && PhaseTells(w.phase, w.plane.commits, w.facts)
  }

  lemma SettleTells(s: Setting, w: Flow, e: Ending, reported: bool, attempts: nat, next: Phase)
    requires Tells(s, w) && AllSay(s, e.plane.commits) && (w.phase.Finished? ==> e.plane == w.plane)
    requires e.Returned? ==> PhaseTells(next, e.plane.commits, w.facts)
    ensures Tells(s, Settle(w, e, reported, attempts, next))
  {
    hide AllSay, ClosesAs, Named;
  }

  lemma CollectingTells(s: Setting, w: Flow, a: Action)
    requires Tells(s, w) && a.Attempt? && w.phase.Collecting?
    ensures Tells(s, Next(s, w, a))
  {
    hide AllSay, Persist;
    PersistSays(s, w.plane, [Collected(s, w.phase.at)], 0, a.budget);
    var e := Persist(w.plane, [Collected(s, w.phase.at)], 0, a.budget);
    SettleTells(s, w, e, a.reported, STEP_ATTEMPTS, Planning(VersionOf(e), a.now));
  }

  lemma PlanningTells(s: Setting, w: Flow, a: Action)
    requires w in Fitting(s) && Tells(s, w) && a.Attempt? && w.phase.Planning?
    ensures Tells(s, Next(s, w, a))
  {
    hide AllSay, Persist, Safe, Underway;
    var e := Plan(w.plane, s, w.phase.version, w.phase.at, a.budget);
    if s.plan.Some? {
      var drafts := Prepared(s.plan.value, w.phase.version, w.phase.at);
      forall d | d in drafts ensures Says(s, d) {}
      PersistSays(s, w.plane, drafts, w.phase.version, a.budget);
    }
    SettleTells(s, w, e, a.reported, STEP_ATTEMPTS, AfterPlan(s, w.phase.version, e, a.now));
  }

  lemma GatesTell(s: Setting, w: Flow, a: Action)
    requires w in Fitting(s) && Tells(s, w) && a.Attempt? && (w.phase.VerifyingApproval? || w.phase.Authorizing? || w.phase.Rehearsing?)
    ensures Tells(s, Next(s, w, a))
  {
    hide AllSay, Safe, Underway;
  }

  lemma WaitingTells(s: Setting, w: Flow, a: Action)
    requires w in Fitting(s) && Tells(s, w) && !a.Attempt?
    ensures Tells(s, Next(s, w, a))
  {
    hide AllSay, Safe, Underway, Drained, Named;
  }

  lemma ActingStands(s: Setting, w: Flow)
    requires w in Fitting(s) && w.phase.Acting?
    ensures InAction(s, w.plane, 3) && PlanKept(s, w.phase.plan) && w.phase.plan.version == 3
    ensures |w.facts| == 4 && w.facts[0] == Accepted(w.phase.signal)
  {
    hide Sound;
  }

  lemma ActSays(s: Setting, p: Plane, plan: PlanResult, result: ActionResult, at: int, budget: nat)
    requires AllSay(s, p.commits) && PlanKept(s, plan)
    ensures AllSay(s, Act(p, plan, result, at, budget).0.plane.commits)
  {
    hide AllSay, Persist;
    PersistSays(s, p, [Started(plan, at)], plan.version, budget);
    var started := Persist(p, [Started(plan, at)], plan.version, budget);
    if started.Returned? && budget > 2 {
      PersistSays(s, started.plane, [Checked(plan, result, started.version, at)], started.version, budget - 3);
    }
  }

  lemma ActingTells(s: Setting, w: Flow, a: Action)
    requires w in Fitting(s) && Tells(s, w) && a.Attempt? && w.phase.Acting?
    ensures Tells(s, Next(s, w, a))
  {
    hide AllSay, Fitting, InAction, PlanKept, Act, Regular, Persist;
    var plan, result := w.phase.plan, a.answer.result;
    ActingStands(s, w);
    ActSays(s, w.plane, plan, result, w.phase.at, a.budget);
    ActFits(s, w.plane, plan, result, w.phase.at, a.budget);
  }

  /** Once it returns, the outcome event is the last one recorded. */
  lemma RecordedIsLast(s: Setting, w: Flow, budget: nat)
    requires w in Fitting(s) && w.phase.Recording?
    ensures var e := Persist(w.plane, Intended(s, w.phase), w.phase.outcome.version, budget);
            && w.plane.commits <= e.plane.commits
            && (e.Returned? ==> e.plane.commits != [] && e.plane.commits[|e.plane.commits| - 1] == Intended(s, w.phase)[0])
  {
    RecordingIsReady(s, w);
    AttemptFits(s, w, budget);
    RecordingCarries(s, w.phase, w.facts);
    hide Fitting, Persist;
  }

  lemma RecordingTells(s: Setting, w: Flow, a: Action)
    requires w in Fitting(s) && Tells(s, w) && a.Attempt? && w.phase.Recording?
    ensures Tells(s, Next(s, w, a))
  {
    hide AllSay, Fitting, Persist;
    var o, more := w.phase.outcome, Intended(s, w.phase);
    TerminalIsReported(o.status);
    PersistSays(s, w.plane, more, o.version, a.budget);
    RecordedIsLast(s, w, a.budget);
    var e := Persist(w.plane, more, o.version, a.budget);
    SettleTells(s, w, e, a.reported, STEP_ATTEMPTS, Finished(Closed(TerminalText(o.status)), VersionOf(e)));
  }

  lemma StepTells(s: Setting, w: Flow, a: Action)
    requires w in Fitting(s) && Tells(s, w)
    ensures Tells(s, Next(s, w, a))
  {
    if !a.Attempt? { WaitingTells(s, w, a); }
    else if w.phase.Collecting? { CollectingTells(s, w, a); }
    else if w.phase.Planning? { PlanningTells(s, w, a); }
    else if w.phase.Acting? { ActingTells(s, w, a); }
    else if w.phase.Recording? { RecordingTells(s, w, a); }
    else if w.phase.VerifyingApproval? || w.phase.Authorizing? || w.phase.Rehearsing? { GatesTell(s, w, a); }
  }

  lemma {:induction false} EveryStateTells(s: Setting, at: int, ws: seq<Flow>, actions: seq<Action>, n: nat)
    requires Run(s, at, ws, actions) && n < |ws|
    ensures Tells(s, ws[n])
  {
    hide Tells, Next, Invariant;
    if n == 0 {
      StartTells(s, at);
    } else {
      EveryStateTells(s, at, ws, actions, n - 1);
      EveryRunIsSafe(s, at, ws, actions, n - 1);
      StepTells(s, ws[n - 1], actions[n - 1]);
    }
  }

  lemma StartTells(s: Setting, at: int)
    ensures Tells(s, Start(at))
  {
  }

  /** In every run each recorded event carries what its step is about, and an outcome event goes to the lifecycle
      status that its own terminal word names. */
  lemma EventsSayWhatHappened(s: Setting, at: int, ws: seq<Flow>, actions: seq<Action>, n: nat, j: nat)
    requires Run(s, at, ws, actions) && n < |ws| && j < |ws[n].plane.commits|
    ensures var e := ws[n].plane.commits[j];
            match e.step
            case EvidenceStep => e.payload == EvidenceIds(s.evidence)
            case PlannedStep => s.plan.Some? && e.payload == PlanText(s.plan.value.runbook)
            case AwaitingStep => e.payload == Nothing
            case ExecutingStep => s.plan.Some? && e.payload == PlanText(s.plan.value.runbook)
            case VerifyingStep => e.payload.Execution?
            case OutcomeStep =>
              && e.payload.Closing?
              && (e.to == Succeeded <==> e.payload.status == "succeeded")
              && (e.to == RolledBack <==> e.payload.status == "rolled_back")
              && (e.to == Escalated <==> e.payload.status == "escalated")
              && (e.to == Failed <==> e.payload.status in {"denied", "failed"})
  {
    EveryStateTells(s, at, ws, actions, n);
    assert ws[n].plane.commits[j] in ws[n].plane.commits;
    assert Says(s, ws[n].plane.commits[j]);
  }

  /** The action answered `r`, behind the given signal, and the later state carries exactly that answer. */
  predicate Answers(w: Flow, a: Action, later: Flow) {
    && w.phase.Acting? && a.Attempt?
    && var r, signal := a.answer.result, w.phase.signal;
       && |later.plane.commits| > 4 && later.plane.commits[4].payload == Execution(r.status, r.verified)
       && match later.phase
          case Recording(_, o, approver, _) => o.status == r.status && o.reason == r.reason && approver == signal.approver
          case Finished(_, _) =>
            var last := later.plane.commits[|later.plane.commits| - 1];
            last.payload.Closing? && Reported(last.payload.status, r.status) && last.payload.reason == r.reason
            && last.payload.approver == signal.approver
          case _ => true
  }

  ghost predicate Traced(ws: seq<Flow>, actions: seq<Action>, n: nat)
    requires n < |ws| && |ws| == |actions| + 1
  {
    Mutated in ws[n].facts && (ws[n].phase.Recording? || ws[n].phase.Finished?) ==>
      exists i: nat :: i < n && Answers(ws[i], actions[i], ws[n])
  }

  lemma ActingIsTraced(s: Setting, w: Flow, a: Action)
    requires w in Fitting(s) && w.phase.Acting? && a.Attempt? && Next(s, w, a).phase.Recording?
    ensures Answers(w, a, Next(s, w, a))
  {
    hide Fitting, PlanKept, Act, Regular;
    ActingStands(s, w);
    ActFits(s, w.plane, w.phase.plan, a.answer.result, w.phase.at, a.budget);
  }

  lemma RecordingIsTraced(s: Setting, old_: Flow, before: Action, w: Flow, a: Action)
    requires w in Fitting(s) && w.phase.Recording? && Answers(old_, before, w)
    ensures Answers(old_, before, Next(s, w, a)) || Next(s, w, a).phase.Broken?
  {
    hide Fitting, Persist, Drained;
    if a.Attempt? {
      RecordedIsLast(s, w, a.budget);
      TerminalIsReported(w.phase.outcome.status);
    }
  }

  /** Only the action leads to a mutation, and a phase that closes the run is kept, left for the end or broken off. */
  lemma OnlyTheActionMutates(s: Setting, w: Flow, a: Action)
    requires w in Fitting(s) && Mutated in Next(s, w, a).facts
    requires Next(s, w, a).phase.Recording? || Next(s, w, a).phase.Finished?
    ensures || (w.phase.Acting? && a.Attempt? && Next(s, w, a).phase.Recording?)
            || (Mutated in w.facts && (w.phase.Recording? || (w.phase.Finished? && Next(s, w, a).plane == w.plane && Next(s, w, a).phase == w.phase)))
  {
    hide Safe, Underway, Persist, Drained;
  }

  lemma {:induction false} EveryStateIsTraced(s: Setting, at: int, ws: seq<Flow>, actions: seq<Action>, n: nat)
    requires Run(s, at, ws, actions) && n < |ws|
    ensures Traced(ws, actions, n)
  {
    hide Next, Answers, Fitting;
    if n > 0 && Mutated in ws[n].facts && (ws[n].phase.Recording? || ws[n].phase.Finished?) {
      EveryStateIsTraced(s, at, ws, actions, n - 1);
      EveryRunFits(s, at, ws, actions, n - 1);
      OnlyTheActionMutates(s, ws[n - 1], actions[n - 1]);
      if ws[n - 1].phase.Acting? {
        ActingIsTraced(s, ws[n - 1], actions[n - 1]);
        assert Answers(ws[n - 1], actions[n - 1], ws[n]);
      } else {
        var i: nat :| i < n - 1 && Answers(ws[i], actions[i], ws[n - 1]);
        if ws[n - 1].phase.Recording? {
          RecordingIsTraced(s, ws[i], actions[i], ws[n - 1], actions[n - 1]);
        } else {
          AnswersAlike(ws[i], actions[i], ws[n - 1], ws[n]);
        }
        assert Answers(ws[i], actions[i], ws[n]);
      }
    }
  }

  lemma AnswersAlike(w: Flow, a: Action, later: Flow, last: Flow)
    requires Answers(w, a, later) && last.plane == later.plane && last.phase == later.phase
    ensures Answers(w, a, last)
  {
  }

  lemma EveryRunFits(s: Setting, at: int, ws: seq<Flow>, actions: seq<Action>, n: nat)
    requires Run(s, at, ws, actions) && n < |ws|
    ensures ws[n] in Fitting(s)
  {
    EveryRunIsSafe(s, at, ws, actions, n);
  }

  /** A gate that is answered either lets the run on or closes it from where it stands, under its own word, reason and
      approver; an answer that is lost changes neither the record nor what was passed. */
  lemma GatesCloseInTheirOwnWords(s: Setting, w: Flow, budget: nat, answer: Answer, reported: bool, now: int)
    requires w.phase.VerifyingApproval? || w.phase.Authorizing? || w.phase.Rehearsing?
    ensures var w', plan := Next(s, w, Attempt(budget, answer, reported, now)), w.phase.plan;
            && w'.plane == w.plane && w'.pending == w.pending
            && if !reported || budget == 0 then
                 w'.facts == w.facts && w'.phase == (if w.tries + 1 < 5 then w.phase else Broken)
               else if answer.granted then
                 match w.phase
                 case VerifyingApproval(_, signal) => w'.phase == Authorizing(plan, signal) && w'.facts == w.facts + [SignatureVerified(signal)]
                 case Authorizing(_, signal) => w'.phase == Rehearsing(plan, signal) && w'.facts == w.facts + [PolicyAllowed]
                 case Rehearsing(_, signal) => w'.phase == Acting(plan, signal, now) && w'.facts == w.facts + [RehearsedSafely]
               else
                 && w'.facts == w.facts && w'.phase.Recording? && w'.phase.plan == plan && w'.phase.at == now
                 && var o := w'.phase.outcome;
                    && o.from == WaitingApproval && o.version == plan.version
                    && match w.phase
                       case VerifyingApproval(_, signal) =>
                         o.status == "escalate" && w'.phase.approver == ""
                         && o.reason == (if answer.reason != "" then answer.reason else "human approval could not be verified")
                       case Authorizing(_, signal) =>
                         o.status == "denied" && w'.phase.approver == signal.approver
                         && o.reason == (if answer.reason != "" then answer.reason else "policy denied the remediation")
                       case Rehearsing(_, signal) =>
                         o.status == "escalate" && w'.phase.approver == signal.approver
                         && o.reason == "digital-twin rehearsal did not verify; production promotion stays blocked"
  {
  }

  /** An approval is waited for until its deadline, no shorter and no longer; then the run closes for want of one. */
  lemma WaitsUntilTheDeadline(s: Setting, w: Flow, now: int)
    requires w.phase.Awaiting?
    ensures var w' := Next(s, w, TimeOut(now));
            && w'.plane == w.plane && w'.facts == w.facts && w'.pending == w.pending
            && if now < w.phase.deadline then w'.phase == w.phase
               else && w'.phase.Recording? && w'.phase.plan == w.phase.plan && w'.phase.at == now && w'.phase.approver == ""
                    && w'.phase.outcome == Outcome("escalate", "no valid human approval was received before the approval deadline",
                                                   WaitingApproval, w.phase.plan.version)
  {
  }

  /** A step is attempted five times and the action once: an attempt that gets no further is counted, the last of them
      breaks the run off, and one that is answered starts the count anew. */
  lemma AttemptsAreCounted(s: Setting, w: Flow, budget: nat, answer: Answer, reported: bool, now: int)
    requires !w.phase.Finished? && !w.phase.Broken? && !w.phase.Awaiting?
    ensures var w' := Next(s, w, Attempt(budget, answer, reported, now));
            var last := if w.phase.Acting? then true else w.tries >= 4;
            || w'.refused
            || (w'.tries == 0 && w'.phase != w.phase && !w'.phase.Broken?)
            || (w'.tries == w.tries + 1 && w'.phase == if last then Broken else w.phase)
  {
    hide Persist, Prepared;
  }

  /** A finished run ended as its gates and its action said: escalated when no signal came, the signature did not
      hold or the rehearsal was not safe, failed as denied when the policy refused, and after the mutation under the
      status, the reason and the approver of that one action. */
  lemma FinishesAsToldBySteps(s: Setting, at: int, ws: seq<Flow>, actions: seq<Action>, n: nat)
    requires Run(s, at, ws, actions) && n < |ws| && ws[n].phase.Finished?
    ensures ws[n].plane.commits != []
    ensures var last, status, facts := ws[n].plane.commits[|ws[n].plane.commits| - 1], ws[n].phase.status, ws[n].facts;
            && last.payload.Closing? && last.to == status
            && (|facts| in {0, 1, 3} ==> status == Escalated && last.payload.status == "escalated")
            && (|facts| == 2 ==> status == Failed && last.payload.status == "denied")
            && (|facts| in {2, 3} ==> facts[0].Accepted? && last.payload.approver == facts[0].signal.approver)
            && (|facts| == 5 <==> Mutated in facts) && |facts| != 4 && |facts| <= 5
            && (Mutated in facts ==>
                  exists i: nat :: i < n && ws[i].phase.Acting? && actions[i].Attempt? &&
                    var r := actions[i].answer.result;
                    && (status == Succeeded <==> r.status == "succeeded")
                    && (status == RolledBack <==> r.status == "rolled_back")
                    && (status == Escalated <==> r.status in {"escalate", "escalated"})
                    && last.payload.reason == r.reason && last.payload.approver == ws[i].phase.signal.approver
                    && |ws[n].plane.commits| > 4 && ws[n].plane.commits[4].payload == Execution(r.status, r.verified))
  {
    hide Next, AllSay, Safe, Carried;
    EveryStateTells(s, at, ws, actions, n);
    FinishedStands(s, at, ws, actions, n);
    EveryStateIsTraced(s, at, ws, actions, n);
    FactsAreGated(s, ws[n].facts);
    if Mutated in ws[n].facts {
      var i: nat :| i < n && Answers(ws[i], actions[i], ws[n]);
      assert ws[i].phase.Acting? && actions[i].Attempt?;
    }
  }

  lemma FinishedStands(s: Setting, at: int, ws: seq<Flow>, actions: seq<Action>, n: nat)
    requires Run(s, at, ws, actions) && n < |ws|
    ensures Gated(s, ws[n].facts)
    ensures ws[n].phase.Finished? ==> ws[n].plane.commits != [] && ws[n].plane.commits[|ws[n].plane.commits| - 1].to == ws[n].phase.status
  {
    EveryRunIsSafe(s, at, ws, actions, n);
    hide Next;
  }

  lemma FactsAreGated(s: Setting, facts: seq<Fact>)
    requires Gated(s, facts)
    ensures |facts| <= 5 && (|facts| == 5 <==> Mutated in facts)
  {
    if facts != [] {
      assert facts <= Gates(facts[0].signal);
      if Mutated in facts {
        var i :| 0 <= i < |facts| && facts[i] == Mutated;
        assert Gates(facts[0].signal)[i] == Mutated;
      }
      if |facts| == 5 { assert facts[4] == Gates(facts[0].signal)[4]; }
    }
  }
}
