/** The authoritative state-and-audit boundary: lifecycle events, idempotency receipts, audit export. */
module ControlPlane {
  import opened Wrappers

  datatype Status =
    | Received | Diagnosing | Planned | WaitingApproval | Executing | Verifying
    | Succeeded | RolledBack | Escalated | Failed | Cancelled

  predicate AllowedTransition(from: Option<Status>, to: Status) {
    match from
    case None => to == Received
    case Some(Received) => to in {Diagnosing, Planned, Failed, Escalated, Cancelled}
    case Some(Diagnosing) => to in {Planned, Failed, Escalated, Cancelled}
    case Some(Planned) => to in {WaitingApproval, Executing, Succeeded, Failed, Escalated, Cancelled}
    case Some(WaitingApproval) => to in {Executing, Failed, Escalated, Cancelled}
    case Some(Executing) => to in {Verifying, RolledBack, Failed, Escalated, Cancelled}
    case Some(Verifying) => to in {Succeeded, RolledBack, Failed, Escalated}
    case _ => false
  }

  predicate TerminalStatus(s: Status) {
    s in {Succeeded, RolledBack, Escalated, Failed, Cancelled}
  }

  /** The step is both the event id and the idempotency key of a workflow's event. */
  datatype Step = EvidenceStep | PlannedStep | AwaitingStep | ExecutingStep | VerifyingStep | OutcomeStep

  /** The steps of a workflow are taken in this order. */
  function Rank(s: Step): nat {
    match s
    case EvidenceStep => 0
    case PlannedStep => 1
    case AwaitingStep => 2
    case ExecutingStep => 3
    case VerifyingStep => 4
    case OutcomeStep => 5
  }

  datatype Payload =
    | EvidenceIds(ids: seq<string>)
    | PlanText(runbook: string)
    | Nothing
    | Execution(result: string, verified: bool)
    | Closing(status: string, reason: string, approver: string)

  /** The fields that are the same for every event of one workflow are left out. */
  datatype Event = Event(
    step: Step, from: Option<Status>, to: Status, expected: Option<nat>, planHash: Option<string>,
    payload: Payload, occurredAt: int)

  datatype Record = Record(status: Status, version: nat, planHash: Option<string>)

  datatype Receipt = Receipt(event: Event, record: Record)

  datatype Conflict = VersionConflict | ContractError

  datatype Store = Store(record: Option<Record>, receipts: map<Step, Receipt>)

  predicate Valid(e: Event) {
    && (e.expected.Some? ==> e.expected.value >= 1)
    && (if e.from.None? then e.expected.None? && e.to == Received else e.expected.Some?)
    && AllowedTransition(e.from, e.to)
  }

  function Advanced(current: Option<Record>, e: Event): Record {
    match current
    case None => Record(e.to, 1, e.planHash)
    case Some(r) => Record(e.to, r.version + 1, if e.planHash.Some? then e.planHash else r.planHash)
  }

  /** Persist a transition with its receipt; a retry of the same event returns the receipt's record. */
  function Apply(s: Store, e: Event): Result<(Store, Record), Conflict> {
    if !Valid(e) then Err(ContractError)
    else if e.step in s.receipts then
      if s.receipts[e.step].event == e then Ok((s, s.receipts[e.step].record)) else Err(VersionConflict)
    else if e.expected.Some? && (s.record.None? || s.record.value.version != e.expected.value) then Err(VersionConflict)
    else if s.record.None? && e.from.Some? then Err(VersionConflict)
    else if s.record.Some? && e.from != Some(s.record.value.status) then Err(VersionConflict)
    else
      var r := Advanced(s.record, e);
      Ok((Store(Some(r), s.receipts[e.step := Receipt(e, r)]), r))
  }

  /** The state store and the audit sink behind one workflow; `commits` records what was not a replay. */
  datatype Plane = Plane(store: Store, exported: map<Step, Receipt>, commits: seq<Event>)

  const BLANK := Plane(Store(None, map[]), map[], [])

  function Commit(p: Plane, e: Event): Result<(Plane, Record), Conflict> {
    match Apply(p.store, e)
    case Err(c) => Err(c)
    case Ok((s, r)) => Ok((p.(store := s, commits := if e.step in p.store.receipts then p.commits else p.commits + [e]), r))
  }

  /** The audit sink is append-only and idempotent; a changed event under a used id is refused. */
  function Export(p: Plane, e: Event, r: Record): Result<Plane, Conflict> {
    if e.step !in p.exported then Ok(p.(exported := p.exported[e.step := Receipt(e, r)]))
    else if p.exported[e.step] == Receipt(e, r) then Ok(p)
    else Err(VersionConflict)
  }

  class ControlPlaneActivityBridge {
    var record: Option<Record>
    var receipts: map<Step, Receipt>
    var exported: map<Step, Receipt>
    ghost var commits: seq<Event>

    ghost function State(): Plane
      reads this
    {
      Plane(Store(record, receipts), exported, commits)
    }

    constructor ()
      ensures State() == BLANK
    {
      record, receipts, exported, commits := None, map[], map[], [];
    }

    /** State and receipt are committed first; the version is returned only once the audit is exported. */
    method PersistWorkflowLifecycle(e: Event, exportFails: bool) returns (version: Option<nat>)
      modifies this
      ensures match Commit(old(State()), e)
              case Err(_) => version.None? && State() == old(State())
              case Ok((p, r)) =>
                (match Export(p, e, r)
                 case Err(_) => version.None? && State() == p
                 case Ok(p') => if exportFails then version.None? && State() == p
                                else version == Some(r.version) && State() == p')
    {
      if !Valid(e) { return None; }
      var r: Record;
      if e.step in receipts {
        if receipts[e.step].event != e { return None; }
        r := receipts[e.step].record;
      } else {
        if e.expected.Some? && (record.None? || record.value.version != e.expected.value) { return None; }
        if record.None? && e.from.Some? { return None; }
        if record.Some? && e.from != Some(record.value.status) { return None; }
        r := Advanced(record, e);
        record := Some(r);
        receipts := receipts[e.step := Receipt(e, r)];
        commits := commits + [e];
      }
      if e.step in exported && exported[e.step] != Receipt(e, r) { return None; }
      if exportFails { return None; }
      exported := exported[e.step := Receipt(e, r)];
      version := Some(r.version);
      assert e.step in old(exported) ==> exported == old(exported);
    }
  }

  /** A possible life of one workflow: steps in order, each naming the status and version its predecessor left. */
  ghost predicate IsPath(es: seq<Event>) {
    && (forall i :: 0 <= i < |es| ==> Valid(es[i]))
    && (es != [] ==> es[0].from.None?)
    && (forall i, j :: 0 <= i < j < |es| ==>
          && Rank(es[i].step) < Rank(es[j].step)
          && (j == i + 1 ==> es[j].from == Some(es[i].to) && es[j].expected == Some(j)))
  }

  function RecordAfter(es: seq<Event>): Option<Record> {
    if es == [] then None else Some(Advanced(RecordAfter(es[..|es| - 1]), es[|es| - 1]))
  }

  function ReceiptsAfter(es: seq<Event>): map<Step, Receipt> {
    if es == [] then map[]
    else ReceiptsAfter(es[..|es| - 1])[es[|es| - 1].step := Receipt(es[|es| - 1], RecordAfter(es).value)]
  }

  lemma {:induction false} PathRecord(es: seq<Event>)
    requires IsPath(es) && es != []
    ensures RecordAfter(es).value.status == es[|es| - 1].to && RecordAfter(es).value.version == |es|
  {
    if |es| > 1 { PathRecord(es[..|es| - 1]); }
  }

  lemma NoStepTwice(es: seq<Event>, i: nat, j: nat)
    requires IsPath(es) && i < j < |es|
    ensures es[i].step != es[j].step
  {
    assert Rank(es[i].step) < Rank(es[j].step);
  }

  /** A receipt is kept for the event of each step. */
  lemma {:induction false} ReceiptAt(es: seq<Event>, i: nat)
    requires IsPath(es) && i < |es|
    ensures es[i].step in ReceiptsAfter(es)
    ensures ReceiptsAfter(es)[es[i].step] == Receipt(es[i], RecordAfter(es[..i + 1]).value)
  {
    var n := |es| - 1;
    if i == n {
      assert es[..n + 1] == es;
    } else {
      ReceiptAt(es[..n], i);
      assert es[..n][..i + 1] == es[..i + 1];
    }
  }

  /** No other step has a receipt. */
  lemma {:induction false} ReceiptHasEvent(es: seq<Event>, step: Step) returns (i: nat)
    requires step in ReceiptsAfter(es)
    ensures i < |es| && es[i].step == step
  {
    var n := |es| - 1;
    if es[n].step == step { i := n; } else { i := ReceiptHasEvent(es[..n], step); }
  }

  /** The store is the one the path of committed events leads to, and what is exported is its receipts. */
  ghost predicate OnPath(p: Plane, es: seq<Event>) {
    && IsPath(es) && p.commits == es
    && p.store == Store(RecordAfter(es), ReceiptsAfter(es))
    && forall s :: s in p.exported ==> s in p.store.receipts && p.exported[s] == p.store.receipts[s]
  }

  lemma NextStepIsFresh(es: seq<Event>, e: Event)
    requires IsPath(es + [e])
    ensures e.step !in ReceiptsAfter(es)
  {
    hide IsPath, ReceiptsAfter;
    if e.step in ReceiptsAfter(es) {
      var i := ReceiptHasEvent(es, e.step);
      NoStepTwice(es + [e], i, |es|);
      assert false;
    }
  }

  lemma NextNamesItsPredecessor(es: seq<Event>, e: Event)
    requires IsPath(es + [e])
    ensures IsPath(es) && Valid(e)
    ensures if es == [] then e.from.None? else e.from == Some(es[|es| - 1].to) && e.expected == Some(|es|)
  {
    hide AllowedTransition;
    var all := es + [e];
    assert all[|es|] == e && forall i :: 0 <= i < |es| ==> all[i] == es[i];
  }

  lemma CommitFresh(p: Plane, es: seq<Event>, e: Event)
    requires OnPath(p, es) && IsPath(es + [e])
    ensures Commit(p, e).Ok? && OnPath(Commit(p, e).value.0, es + [e])
    ensures Commit(p, e).value.1.version == |es| + 1
    ensures Commit(p, e).value.0.exported == p.exported
  {
    hide IsPath;
    var all := es + [e];
    assert all[..|es|] == es && all[|es|] == e;
    NextNamesItsPredecessor(es, e);
    NextStepIsFresh(es, e);
    if es != [] { PathRecord(es); }
  }

  lemma PrefixIsPath(es: seq<Event>, n: nat)
    requires IsPath(es) && n <= |es|
    ensures IsPath(es[..n])
  {
  }

  lemma CommitReplayed(p: Plane, es: seq<Event>, i: nat)
    requires OnPath(p, es) && i < |es|
    ensures Commit(p, es[i]) == Ok((p, RecordAfter(es[..i + 1]).value))
    ensures RecordAfter(es[..i + 1]).value.version == i + 1
  {
    ReceiptAt(es, i);
    PrefixIsPath(es, i + 1);
    PathRecord(es[..i + 1]);
    assert Valid(es[i]);
    hide IsPath;
  }

  /** The event names the status and version of the record the events before it left. */
  ghost predicate NamesItsPredecessor(es: seq<Event>, j: nat)
    requires j < |es|
  {
    var before := RecordAfter(es[..j]);
    if before.None? then es[j].from.None? && es[j].expected.None?
    else es[j].from == Some(before.value.status) && es[j].expected == Some(before.value.version)
  }

  lemma PathNamesPredecessors(es: seq<Event>, j: nat)
    requires IsPath(es) && j < |es|
    ensures NamesItsPredecessor(es, j)
  {
    assert Valid(es[j]);
    if j > 0 {
      PrefixIsPath(es, j);
      PathRecord(es[..j]);
      assert es[j].from == Some(es[j - 1].to) && es[j].expected == Some(j);
      hide IsPath;
      assert es[..j][j - 1] == es[j - 1];
    }
  }

  /** On a path nothing follows a terminal event. */
  lemma NothingFollowsATerminalEvent(es: seq<Event>, i: nat)
    requires IsPath(es) && 0 < i < |es|
    ensures !TerminalStatus(es[i - 1].to)
  {
    assert Valid(es[i]);
  }
}
