/** Histories of calls that finish, fail or are cut off anywhere, and which of them stay readable throughout. */
module MemoryRuns {
  import opened Wrappers
  import opened BrainTypes
  import opened BrainStore
  import opened MemoryCommands
  import opened BrainMemory
  import opened MemoryPlans
  import opened MemoryClosure
  import Brain = CompanyBrain

  /** An evidence pointer and its structural entity live and die together. */
  ghost predicate Paired(t: Tables) {
    forall e: EntityId :: e.kind == Evidence ==> (Active(t, EvidenceRecord(e)) <==> Active(t, EntityRecord(e)))
  }

  /** What no attempt can break, however it ends. */
  ghost predicate Sound(m: Memory) {
    JournalOk(m) && Anchored(m.tables) && Paired(m.tables)
  }

  /** One of the first `n` writes of the call retires evidence that an edge named by neither row rests on. */
  ghost predicate StrandsWithin(o: Collation, m: Memory, call: Call, n: nat)
    requires Sorts(o) && n <= |CommandsOf(PlanOf(o, m, call))|
  {
    var plan := PlanOf(o, m, call);
    plan.Work? && StrandsBy(m.tables, m.journal, SourceOf(call), NextOf(call, plan.row), plan.commands, n)
  }

  /** The evidence the two rows retire between them strands an edge. */
  ghost predicate StrandsAnEdge(o: Collation, m: Memory, call: Call)
    requires Sorts(o)
  {
    var plan := PlanOf(o, m, call);
    plan.Work? &&
    exists e, edge :: e in Retiring(m.journal, SourceOf(call), NextOf(call, plan.row)) &&
      Stranded(m.tables, m.journal, SourceOf(call), NextOf(call, plan.row), edge, e)
  }

  /** The snapshot can be rebuilt before the call and after each of its first `n` writes. */
  ghost predicate ReadableFor(o: Collation, m: Memory, call: Call, n: nat)
    requires Sorts(o)
  {
    forall k :: 0 <= k <= n && Reaches(o, m, call, k) ==> Closed(Interrupted(o, m, call, k).tables)
  }

  lemma ReachesEarlier(o: Collation, m: Memory, call: Call, n: nat, k: nat)
    requires Sorts(o) && Reaches(o, m, call, n) && k <= n
    ensures Reaches(o, m, call, k)
  {
    var cs := CommandsOf(PlanOf(o, m, call));
    assert cs[..n][..k] == cs[..k];
    RunSplit(m.tables, cs[..n], k);
  }

  lemma CarriedIsReadableIff(o: Collation, m: Memory, source: SourceKey, next: Option<Projection>,
                             em: Option<Brain.Emission>, p: Provenance, cs: seq<Command>, n: nat)
    requires Carries(o, m.journal, source, next, em, p, cs) && Anchored(m.tables)
    requires n <= |cs| && forall k :: 0 <= k <= n ==> RunAll(m.tables, cs[..k]).Ok?
    ensures (forall k :: 0 <= k <= n ==> Closed(RunAll(m.tables, cs[..k]).value))
            <==> Closed(m.tables) && !StrandsBy(m.tables, m.journal, source, next, cs, n)
  {
    hide Carries, Closed, Anchored;
    assert cs[..0] == [];
    assert RunAll(m.tables, cs[..0]) == Ok(m.tables);
    if i, edge :| 0 <= i < n && cs[i].RetireEvidence? && Stranded(m.tables, m.journal, source, next, edge, cs[i].id) {
      StrandedBreaksClosure(o, m.journal, source, next, em, p, cs, m.tables, i, edge);
    } else if Closed(m.tables) {
      forall k | 0 <= k <= n ensures Closed(RunAll(m.tables, cs[..k]).value) {
        ClosedThroughout(o, m.journal, source, next, em, p, cs, m.tables, k);
      }
    }
  }

  /** However far a call gets, finished, failed or cut off, it has passed only through readable states
      exactly when it started from one and none of its writes so far strands an edge. */
  lemma AttemptIsReadableIff(o: Collation, m: Memory, call: Call, n: nat)
    requires Sorts(o) && JournalOk(m) && Anchored(m.tables) && Reaches(o, m, call, n)
    ensures ReadableFor(o, m, call, n) <==> Closed(m.tables) && !StrandsWithin(o, m, call, n)
  {
    hide PlanOf, Closed, Anchored;
    var plan := PlanOf(o, m, call);
    var cs := CommandsOf(plan);
    forall k | 0 <= k <= n ensures Reaches(o, m, call, k) && RunAll(m.tables, cs[..k]).Ok? { ReachesEarlier(o, m, call, n, k); }
    if plan.Work? {
      PlanCarries(o, m, call);
      CarriedIsReadableIff(o, m, SourceOf(call), NextOf(call, plan.row), EmittedBy(m.tables, call), ProvenanceOf(call), cs, n);
      assert forall k :: 0 <= k <= n ==> Interrupted(o, m, call, k).tables == RunAll(m.tables, cs[..k]).value;
    } else {
      assert cs[..0] == [];
      assert Interrupted(o, m, call, 0).tables == m.tables;
    }
  }

  lemma RetiringIsCommanded(o: Collation, journal: map<SourceKey, Projection>, source: SourceKey, next: Option<Projection>,
                            em: Option<Brain.Emission>, p: Provenance, cs: seq<Command>)
    requires Carries(o, journal, source, next, em, p, cs)
    ensures forall e :: e in Retiring(journal, source, next) ==> exists i :: 0 <= i < |cs| && cs[i] == RetireEvidence(e)
    ensures forall i :: 0 <= i < |cs| && cs[i].RetireEvidence? ==> cs[i].id in Retiring(journal, source, next)
  {
    forall e | e in Retiring(journal, source, next) ensures exists i :: 0 <= i < |cs| && cs[i] == RetireEvidence(e) {
      assert RetireEvidence(e) in cs;
    }
    forall i | 0 <= i < |cs| && cs[i].RetireEvidence? ensures cs[i].id in Retiring(journal, source, next) {
      assert cs[i] in cs;
    }
  }

  lemma StrandsInTheEnd(o: Collation, m: Memory, call: Call)
    requires Sorts(o) && JournalOk(m)
    ensures StrandsAnEdge(o, m, call) <==> StrandsWithin(o, m, call, |CommandsOf(PlanOf(o, m, call))|)
  {
    hide PlanOf, Stranded, Carries, Retiring;
    var plan, source := PlanOf(o, m, call), SourceOf(call);
    if plan.Work? {
      PlanCarries(o, m, call);
      var next, cs := NextOf(call, plan.row), plan.commands;
      RetiringIsCommanded(o, m.journal, source, next, EmittedBy(m.tables, call), ProvenanceOf(call), cs);
      if e, edge :| e in Retiring(m.journal, source, next) && Stranded(m.tables, m.journal, source, next, edge, e) {
        var i :| 0 <= i < |cs| && cs[i] == RetireEvidence(e);
        assert Stranded(m.tables, m.journal, source, next, edge, cs[i].id);
      }
    }
  }

  /** A call that returns normally passes only through readable states exactly when it starts from one and
      strands no edge, which can be read off the snapshot and the two rows before the call. */
  lemma CallIsClosedThroughoutIff(o: Collation, m: Memory, call: Call)
    requires Sorts(o) && JournalOk(m) && Anchored(m.tables) && Complete(o, m, call).Ok?
    ensures (forall n :: Reaches(o, m, call, n) ==> Closed(Interrupted(o, m, call, n).tables))
            <==> Closed(m.tables) && !StrandsAnEdge(o, m, call)
  {
    var n := |CommandsOf(PlanOf(o, m, call))|;
    CompleteReachesAll(o, m, call);
    AttemptIsReadableIff(o, m, call, n);
    StrandsInTheEnd(o, m, call);
    hide PlanOf, Closed;
  }

  lemma CompleteReachesAll(o: Collation, m: Memory, call: Call)
    requires Sorts(o) && Complete(o, m, call).Ok?
    ensures var n := |CommandsOf(PlanOf(o, m, call))|;
            Reaches(o, m, call, n) && Interrupted(o, m, call, n).tables == Complete(o, m, call).value.tables
  {
    hide PlanOf;
    var cs := CommandsOf(PlanOf(o, m, call));
    assert cs[..|cs|] == cs;
  }

  lemma {:induction false} RunKeepsPaired(t: Tables, cs: seq<Command>)
    requires Paired(t) && RunAll(t, cs).Ok?
    requires forall c :: c in cs && c.EnsureEntity? ==> c.id.kind != Evidence
    requires forall c :: c in cs && c.EnsureEvidence? ==> c.id.kind == Evidence
    ensures Paired(RunAll(t, cs).value)
  {
    if cs != [] {
      var last := |cs| - 1;
      RunKeepsPaired(t, cs[..last]);
      PerformKeepsPaired(RunAll(t, cs[..last]).value, cs[last]);
    }
  }

  lemma PerformKeepsPaired(t: Tables, c: Command)
    requires Paired(t) && Perform(t, c).Ok?
    requires c.EnsureEntity? ==> c.id.kind != Evidence
    requires c.EnsureEvidence? ==> c.id.kind == Evidence
    ensures Paired(Perform(t, c).value)
  {
    var t' := Perform(t, c).value;
    forall e: EntityId | e.kind == Evidence
      ensures Active(t', EvidenceRecord(e)) <==> Active(t', EntityRecord(e))
    {
      assert Active(t, EvidenceRecord(e)) <==> Active(t, EntityRecord(e));
    }
  }

  /** One attempt at a call: to its normal return, or ended after some of its store writes, because it
      raised there or was cut off. */
  datatype Attempt = Finish(call: Call) | Stop(call: Call, writes: nat)

  ghost predicate Legal(o: Collation, m: Memory, a: Attempt)
    requires Sorts(o)
  {
    match a
    case Finish(call) => Complete(o, m, call).Ok?
    case Stop(call, n) => Reaches(o, m, call, n)
  }

  ghost function After(o: Collation, m: Memory, a: Attempt): Memory
    requires Sorts(o) && Legal(o, m, a)
  {
    match a
    case Finish(call) => Complete(o, m, call).value
    case Stop(call, n) => Interrupted(o, m, call, n)
  }

  /** How many store writes the attempt makes. */
  ghost function Writes(o: Collation, m: Memory, a: Attempt): nat
    requires Sorts(o)
  {
    match a
    case Finish(call) => |CommandsOf(PlanOf(o, m, call))|
    case Stop(_, n) => n
  }

  lemma AttemptEnds(o: Collation, m: Memory, a: Attempt)
    requires Sorts(o) && Legal(o, m, a)
    ensures Reaches(o, m, a.call, Writes(o, m, a))
    ensures After(o, m, a).tables == Interrupted(o, m, a.call, Writes(o, m, a)).tables
  {
    hide PlanOf;
    if a.Finish? { CompleteReachesAll(o, m, a.call); }
  }

  lemma StateIsSound(o: Collation, m: Memory, call: Call, n: nat)
    requires Sorts(o) && Sound(m) && Reaches(o, m, call, n)
    ensures Sound(Interrupted(o, m, call, n))
  {
    var plan := PlanOf(o, m, call);
    if plan.Work? {
      PlanCarries(o, m, call);
      CarriedIsSound(o, m, SourceOf(call), NextOf(call, plan.row), EmittedBy(m.tables, call), ProvenanceOf(call), plan.commands, n);
    }
  }

  lemma CarriedIsSound(o: Collation, m: Memory, source: SourceKey, next: Option<Projection>,
                       em: Option<Brain.Emission>, p: Provenance, cs: seq<Command>, n: nat)
    requires Sound(m) && Carries(o, m.journal, source, next, em, p, cs)
    requires n <= |cs| && RunAll(m.tables, cs[..n]).Ok?
    ensures var t := RunAll(m.tables, cs[..n]).value; Anchored(t) && Paired(t)
  {
    RunKeepsAnchored(m.tables, cs[..n]);
    forall c | c in cs[..n] ensures (c.EnsureEntity? ==> c.id.kind != Evidence) && (c.EnsureEvidence? ==> c.id.kind == Evidence) {
      assert c in cs;
    }
    RunKeepsPaired(m.tables, cs[..n]);
  }

  /** No attempt, finished, failed or cut off, breaks soundness. */
  lemma AttemptKeepsSound(o: Collation, m: Memory, a: Attempt)
    requires Sorts(o) && Sound(m) && Legal(o, m, a)
    ensures Sound(After(o, m, a))
  {
    var plan := PlanOf(o, m, a.call);
    AttemptEnds(o, m, a);
    StateIsSound(o, m, a.call, Writes(o, m, a));
    if a.Finish? && plan.Work? { PlannedRowIsOk(o, m, a.call); RowIsOfItsSource(o, m, a.call); }
  }

  lemma RowIsOfItsSource(o: Collation, m: Memory, call: Call)
    requires Sorts(o) && PlanOf(o, m, call).Work?
    ensures PlanOf(o, m, call).row.source == SourceOf(call)
  {
  }

  /** The memories an attempt may leave: one if it is possible, none if it is not. */
  ghost function Outcomes(o: Collation, m: Memory, a: Attempt): iset<Memory>
    requires Sorts(o)
  {
    if Legal(o, m, a) then iset{After(o, m, a)} else iset{}
  }

  lemma OutcomeIsAfter(o: Collation, m: Memory, a: Attempt, m': Memory)
    requires Sorts(o) && m' in Outcomes(o, m, a)
    ensures Legal(o, m, a) && m' == After(o, m, a)
  {
  }

  const BLANK := Memory(Tables(map[], []), map[])

  /** The memories a history of attempts passes through, from an empty tenant on. */
  ghost predicate History(o: Collation, states: seq<Memory>, attempts: seq<Attempt>)
    requires Sorts(o)
  {
    && |states| == |attempts| + 1
    && states[0] == BLANK
    && forall i {:trigger attempts[i]} :: 0 <= i < |attempts| ==> states[i + 1] in Outcomes(o, states[i], attempts[i])
  }

  lemma {:induction false} EveryStateIsSound(o: Collation, states: seq<Memory>, attempts: seq<Attempt>, i: nat)
    requires Sorts(o) && History(o, states, attempts) && i < |states|
    ensures Sound(states[i])
  {
    hide PlanOf, Legal, After, Outcomes;
    if i > 0 {
      EveryStateIsSound(o, states, attempts, i - 1);
      OutcomeIsAfter(o, states[i - 1], attempts[i - 1], states[i]);
      AttemptKeepsSound(o, states[i - 1], attempts[i - 1]);
    }
  }

  /** The snapshot can be rebuilt before the attempt and after each of its writes. */
  ghost predicate Readable(o: Collation, m: Memory, a: Attempt)
    requires Sorts(o)
  {
    ReadableFor(o, m, a.call, Writes(o, m, a))
  }

  /** One of the attempt's writes retires evidence that an edge named by neither row rests on. */
  ghost predicate Strands(o: Collation, m: Memory, a: Attempt)
    requires Sorts(o)
  {
    Writes(o, m, a) <= |CommandsOf(PlanOf(o, m, a.call))| && StrandsWithin(o, m, a.call, Writes(o, m, a))
  }

  lemma AttemptStep(o: Collation, m: Memory, a: Attempt, m': Memory)
    requires Sorts(o) && Sound(m) && m' in Outcomes(o, m, a)
    ensures Readable(o, m, a) <==> Closed(m.tables) && !Strands(o, m, a)
    ensures Readable(o, m, a) ==> Closed(m'.tables)
  {
    hide PlanOf, Closed, Anchored;
    OutcomeIsAfter(o, m, a, m');
    AttemptEnds(o, m, a);
    AttemptIsReadableIff(o, m, a.call, Writes(o, m, a));
  }

  lemma BlankIsClosed()
    ensures Closed(BLANK.tables)
  {
  }

  lemma {:induction false} ReadableUpTo(o: Collation, states: seq<Memory>, attempts: seq<Attempt>, i: nat)
    requires Sorts(o) && History(o, states, attempts) && i < |states|
    requires forall j :: 0 <= j < i ==> !Strands(o, states[j], attempts[j])
    ensures Closed(states[i].tables)
    ensures forall j :: 0 <= j < i ==> Readable(o, states[j], attempts[j])
  {
    hide PlanOf, Closed, Readable, Strands, Sound, Outcomes;
    BlankIsClosed();
    if i > 0 {
      ReadableUpTo(o, states, attempts, i - 1);
      EveryStateIsSound(o, states, attempts, i - 1);
      AttemptStep(o, states[i - 1], attempts[i - 1], states[i]);
    }
  }

  /** Whatever finishes, raises part way or is cut off, at every intermediate write of a history the
      snapshot can be rebuilt exactly when no write of any attempt strands an edge. */
  lemma RunIsReadableIff(o: Collation, states: seq<Memory>, attempts: seq<Attempt>)
    requires Sorts(o) && History(o, states, attempts)
    ensures (forall i :: 0 <= i < |attempts| ==> Readable(o, states[i], attempts[i]))
            <==> (forall i :: 0 <= i < |attempts| ==> !Strands(o, states[i], attempts[i]))
  {
    hide PlanOf, Readable, Strands, Sound, Legal, After, Closed;
    if forall i :: 0 <= i < |attempts| ==> !Strands(o, states[i], attempts[i]) {
      ReadableUpTo(o, states, attempts, |attempts|);
    }
    if forall i :: 0 <= i < |attempts| ==> Readable(o, states[i], attempts[i]) {
      forall i | 0 <= i < |attempts| ensures !Strands(o, states[i], attempts[i]) {
        EveryStateIsSound(o, states, attempts, i);
        AttemptStep(o, states[i], attempts[i], states[i + 1]);
      }
    }
  }
}
