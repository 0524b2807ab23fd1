/** Histories in which a cut-off change is retried before its source moves on stay readable throughout. */
module MemoryRetries {
  import opened Wrappers
  import opened BrainTypes
  import opened BrainStore
  import opened MemoryCommands
  import opened BrainMemory
  import opened MemoryPlans
  import opened MemoryClosure
  import opened MemoryRuns
  import Brain = CompanyBrain

  /** Every visible edge that cites evidence of the source's row is named by that row. */
  ghost predicate TiedTo(m: Memory, s: SourceKey) {
    s in m.journal ==>
      forall e, edge :: e in m.journal[s].evidence && Visible(m.tables, edge) && e in EvidenceOf(m.tables, edge) ==>
        edge in m.journal[s].edges
  }

  /** Nothing is left to mend if the evidence id is new to the journal, or the call adds no edge to its row. */
  ghost predicate Resumable(o: Collation, m: Memory, call: Call)
    requires Sorts(o)
  {
    var plan, previous := PlanOf(o, m, call), Previous(m, SourceOf(call));
    plan.Work? && !call.Remove? ==> EvidenceIn(previous) !! plan.row.evidence || plan.row.edges <= EdgesOf(previous)
  }

  ghost predicate RetiresEvidence(o: Collation, m: Memory, call: Call)
    requires Sorts(o)
  {
    var plan := PlanOf(o, m, call);
    plan.Work? && Retiring(m.journal, SourceOf(call), NextOf(call, plan.row)) != {}
  }

  /** The sources that a stop left with edges their row does not name, and that no call has mended since. */
  ghost function Open(o: Collation, states: seq<Memory>, attempts: seq<Attempt>, i: nat): set<SourceKey>
    requires Sorts(o) && i <= |attempts| && i < |states|
  {
    if i == 0 then {} else OpenAfter(o, states[i - 1], attempts[i - 1], Open(o, states, attempts, i - 1))
  }

  ghost function OpenAfter(o: Collation, m: Memory, a: Attempt, open: set<SourceKey>): set<SourceKey>
    requires Sorts(o)
  {
    if a.Finish? && PlanOf(o, m, a.call).Work? then open - {SourceOf(a.call)}
    else if a.Stop? && !Resumable(o, m, a.call) then open + {SourceOf(a.call)}
    else open
  }

  /** While a source is open, calls for it keep its evidence id, as retries of the stopped one do. */
  ghost predicate Retried(o: Collation, states: seq<Memory>, attempts: seq<Attempt>)
    requires Sorts(o) && |states| == |attempts| + 1
  {
    forall i: nat :: i < |attempts| && SourceOf(attempts[i].call) in Open(o, states, attempts, i) ==>
      !RetiresEvidence(o, states[i], attempts[i].call)
  }

  /** What an edge in view after some writes of a change cites, and by which row. */
  lemma CitedByARow(o: Collation, journal: map<SourceKey, Projection>, source: SourceKey, next: Option<Projection>,
                    em: Option<Brain.Emission>, p: Provenance, cs: seq<Command>, t: Tables, n: nat, edge: EdgeKey, e: EntityId)
    requires Carries(o, journal, source, next, em, p, cs) && Anchored(t)
    requires n <= |cs| && RunAll(t, cs[..n]).Ok?
    requires Visible(RunAll(t, cs[..n]).value, edge) && e in EvidenceOf(RunAll(t, cs[..n]).value, edge)
    ensures || (Visible(t, edge) && e in EvidenceOf(t, edge))
            || (edge in EdgesOf(PreviousIn(journal, source)) + EdgesOf(next) && e in Membership(Candidates(journal, source, next), edge))
  {
    var rows := Candidates(journal, source, next);
    if i :| 0 <= i < n && EdgeRecord(edge) in Targets(cs[i]) {
      assert cs[i] in cs && cs[..n][i] == cs[i];
      assert Independent(cs[..n]);
      RunSettles(t, cs[..n], i);
    } else {
      assert Untouched(cs[..n], EdgeRecord(edge));
      RunReveals(t, cs[..n], edge);
    }
  }

  /** A row that contributes evidence of source `s` is the row of `s`. */
  lemma ContributorOf(journal: map<SourceKey, Projection>, source: SourceKey, next: Option<Projection>, edge: EdgeKey,
                      e: EntityId, s: SourceKey)
    requires forall r :: r in journal ==> RowOk(r, journal[r])
    requires next.Some? ==> RowOk(source, next.value)
    requires e in Membership(Candidates(journal, source, next), edge)
    requires e.name.Revision? && e.name.source == s
    ensures if s == source then next.Some? && e in next.value.evidence && edge in next.value.edges
            else s in journal && e in journal[s].evidence && edge in journal[s].edges
  {
  }

  /** A stopped call leaves every other source as tied as it was, and its own too if it was resumable. */
  lemma StopKeepsTied(o: Collation, m: Memory, call: Call, n: nat, s: SourceKey)
    requires Sorts(o) && Sound(m) && PlanOf(o, m, call).Work? && Reaches(o, m, call, n)
    requires TiedTo(m, s) && (s == SourceOf(call) ==> Resumable(o, m, call))
    ensures TiedTo(Interrupted(o, m, call, n), s)
  {
    var plan, t' := PlanOf(o, m, call), Interrupted(o, m, call, n).tables;
    var source, next, em, p := SourceOf(call), NextOf(call, plan.row), EmittedBy(m.tables, call), ProvenanceOf(call);
    PlanCarries(o, m, call);
    if s in m.journal {
      forall e, edge | e in m.journal[s].evidence && Visible(t', edge) && e in EvidenceOf(t', edge)
        ensures edge in m.journal[s].edges
      {
        CitedByARow(o, m.journal, source, next, em, p, plan.commands, m.tables, n, edge, e);
        if !(Visible(m.tables, edge) && e in EvidenceOf(m.tables, edge)) {
          ContributorOf(m.journal, source, next, edge, e, s);
        }
      }
    }
  }

  /** No other row holds the evidence of a source, so removing the source retires it. */
  lemma RemovedEvidenceIsGone(o: Collation, m: Memory, call: Call, e: EntityId)
    requires Sorts(o) && Sound(m) && PlanOf(o, m, call).Work? && Complete(o, m, call).Ok?
    requires call.Remove? && e in PlanOf(o, m, call).row.evidence
    ensures !Active(Complete(o, m, call).value.tables, EvidenceRecord(e))
  {
    var plan, source := PlanOf(o, m, call), SourceOf(call);
    PlanCarries(o, m, call);
    forall q | q in Candidates(m.journal, source, None) ensures e !in q.evidence {
      assert RowOk(q.source, q) && RowOk(source, m.journal[source]);
    }
    CarriedEvidence(o, m.journal, source, None, None, ProvenanceOf(call), plan.commands, m.tables, e);
  }

  /** A call that returns normally ties its source, whatever it was before, and leaves the others as they were. */
  lemma FinishTies(o: Collation, m: Memory, call: Call, s: SourceKey)
    requires Sorts(o) && Sound(m) && PlanOf(o, m, call).Work? && Complete(o, m, call).Ok?
    requires Closed(Complete(o, m, call).value.tables)
    requires s == SourceOf(call) || TiedTo(m, s)
    ensures TiedTo(Complete(o, m, call).value, s)
  {
    var plan, m' := PlanOf(o, m, call), Complete(o, m, call).value;
    var source, next, em, p := SourceOf(call), NextOf(call, plan.row), EmittedBy(m.tables, call), ProvenanceOf(call);
    var cs := plan.commands;
    PlanCarries(o, m, call);
    assert cs[..|cs|] == cs;
    hide Closed, Paired;
    if s in m'.journal {
      forall e, edge | e in m'.journal[s].evidence && Visible(m'.tables, edge) && e in EvidenceOf(m'.tables, edge)
        ensures edge in m'.journal[s].edges
      {
        if s == source && call.Remove? {
          RemovedEvidenceIsGone(o, m, call, e);
        } else {
          CitedByARow(o, m.journal, source, next, em, p, cs, m.tables, |cs|, edge, e);
          if !(Visible(m.tables, edge) && e in EvidenceOf(m.tables, edge)) {
            ContributorOf(m.journal, source, next, edge, e, s);
          } else if s == source {
            assert e == em.value.evidenceId;
            assert edge in EdgesCiting(m.tables, e);
          }
        }
      }
    }
  }

  /** A call on a tied source, or one that retires no evidence, strands no edge. */
  lemma TiedIsNotStranded(o: Collation, m: Memory, call: Call, n: nat)
    requires Sorts(o) && Sound(m) && n <= |CommandsOf(PlanOf(o, m, call))|
    requires TiedTo(m, SourceOf(call)) || !RetiresEvidence(o, m, call)
    ensures !StrandsWithin(o, m, call, n)
  {
    hide PlanOf, Carries, Retiring;
    var plan, source := PlanOf(o, m, call), SourceOf(call);
    if plan.Work? {
      PlanCarries(o, m, call);
      var next, cs := NextOf(call, plan.row), plan.commands;
      RetiringIsCommanded(o, m.journal, source, next, EmittedBy(m.tables, call), ProvenanceOf(call), cs);
      if TiedTo(m, source) {
        forall e, edge | e in Retiring(m.journal, source, next) ensures !Stranded(m.tables, m.journal, source, next, edge, e) {
          TiedNamesItsEdges(m, source, next, edge, e);
        }
      }
    }
  }

  lemma TiedNamesItsEdges(m: Memory, source: SourceKey, next: Option<Projection>, edge: EdgeKey, e: EntityId)
    requires TiedTo(m, source) && e in Retiring(m.journal, source, next)
    ensures !Stranded(m.tables, m.journal, source, next, edge, e)
  {
  }

  lemma AttemptKeepsTied(o: Collation, m: Memory, a: Attempt, open: set<SourceKey>, s: SourceKey)
    requires Sorts(o) && Sound(m) && Legal(o, m, a) && Closed(After(o, m, a).tables)
    requires s !in open ==> TiedTo(m, s)
    requires s !in OpenAfter(o, m, a, open)
    ensures TiedTo(After(o, m, a), s)
  {
    hide PlanOf, Closed, Sound, TiedTo, Resumable;
    if PlanOf(o, m, a.call).Work? {
      match a
      case Finish(call) => FinishTies(o, m, call, s);
      case Stop(call, n) => StopKeepsTied(o, m, call, n, s);
    } else {
      UnplannedChangesNothing(o, m, a);
    }
  }

  lemma UnplannedChangesNothing(o: Collation, m: Memory, a: Attempt)
    requires Sorts(o) && Legal(o, m, a) && !PlanOf(o, m, a.call).Work?
    ensures After(o, m, a) == m
  {
  }

  /** What holds of every memory of a history in which stopped calls are retried. */
  ghost predicate Mended(m: Memory, open: set<SourceKey>) {
    Closed(m.tables) && forall s :: s !in open ==> TiedTo(m, s)
  }

  lemma AttemptMends(o: Collation, m: Memory, a: Attempt, m': Memory, open: set<SourceKey>)
    requires Sorts(o) && Sound(m) && m' in Outcomes(o, m, a) && Mended(m, open)
    requires SourceOf(a.call) in open ==> !RetiresEvidence(o, m, a.call)
    ensures Mended(m', OpenAfter(o, m, a, open)) && !Strands(o, m, a)
  {
    hide PlanOf, Closed, Sound, TiedTo, Resumable, RetiresEvidence, OpenAfter;
    OutcomeIsAfter(o, m, a, m');
    AttemptEnds(o, m, a);
    hide Complete, Interrupted;
    TiedIsNotStranded(o, m, a.call, Writes(o, m, a));
    AttemptStep(o, m, a, m');
    forall s | s !in OpenAfter(o, m, a, open) ensures TiedTo(m', s) {
      AttemptKeepsTied(o, m, a, open, s);
    }
  }

  lemma BlankIsMended()
    ensures Mended(BLANK, {})
  {
  }

  lemma {:induction false} EveryStateIsMended(o: Collation, states: seq<Memory>, attempts: seq<Attempt>, i: nat)
    requires Sorts(o) && History(o, states, attempts) && Retried(o, states, attempts) && i < |states|
    ensures Mended(states[i], Open(o, states, attempts, i))
    ensures forall j :: 0 <= j < i ==> !Strands(o, states[j], attempts[j])
  {
    hide PlanOf, Mended, Sound, Strands, RetiresEvidence, OpenAfter, Outcomes;
    BlankIsMended();
    if i > 0 {
      EveryStateIsMended(o, states, attempts, i - 1);
      EveryStateIsSound(o, states, attempts, i - 1);
      AttemptMends(o, states[i - 1], attempts[i - 1], states[i], Open(o, states, attempts, i - 1));
    }
  }

  /** If every change that was cut off short of its journal row is retried until it returns before its
      source moves on to other evidence, the snapshot can be rebuilt at every write of the history. */
  lemma RetriedRunsAreReadable(o: Collation, states: seq<Memory>, attempts: seq<Attempt>)
    requires Sorts(o) && History(o, states, attempts) && Retried(o, states, attempts)
    ensures forall i :: 0 <= i < |attempts| ==> Readable(o, states[i], attempts[i])
    ensures Closed(states[|attempts|].tables)
  {
    hide Mended, Strands, Readable, Outcomes;
    EveryStateIsMended(o, states, attempts, |attempts|);
    ReadableUpTo(o, states, attempts, |attempts|);
  }
}
