/** What a bounded packet keeps of its context: conservation, whole citations, the fixed eviction order, validity. */
module PacketLaws {
  import opened Wrappers
  import opened ContextPacket
  import Text

  /** The stage after `k` evictions: extras go first, then limitations, then conflicts, and relationships last. */
  function Evicted(st: Stage, k: nat): Stage
    requires k <= Weight(st)
  {
    var e := Least(k, |st.extras|);
    var l := Least(k - e, |st.limitations|);
    var c := Least(k - e - l, |st.conflicts|);
    var r := k - e - l - c;
    Stage(st.relationships[..|st.relationships| - r], st.extras[..|st.extras| - e],
          st.limitations[..|st.limitations| - l], st.conflicts[..|st.conflicts| - c],
          Counted(Counted(Counted(Counted(st.omissions, Omission(Evidence, ByteLimit), e),
                                  Omission(Limitations, ByteLimit), l),
                          Omission(Conflicts, ByteLimit), c),
                  Omission(Relationships, ByteLimit), r))
  }

  lemma EvictOne(st: Stage, k: nat)
    requires k < Weight(st)
    ensures Weight(Evicted(st, k)) == Weight(st) - k
    ensures Evicted(st, k + 1) == Pop(Evicted(st, k))
  {
    var e, l, c := |st.extras|, |st.limitations|, |st.conflicts|;
    if k < e {
      CountedAgain(st.omissions, Omission(Evidence, ByteLimit), k);
    } else {
      var m := Counted(st.omissions, Omission(Evidence, ByteLimit), e);
      if k < e + l {
        CountedAgain(m, Omission(Limitations, ByteLimit), k - e);
      } else {
        var m' := Counted(m, Omission(Limitations, ByteLimit), l);
        if k < e + l + c {
          CountedAgain(m', Omission(Conflicts, ByteLimit), k - e - l);
        } else {
          CountedAgain(Counted(m', Omission(Conflicts, ByteLimit), c), Omission(Relationships, ByteLimit), k - e - l - c);
        }
      }
    }
  }

  /** The first stage from the `k`th on that fits. */
  function FirstFit(c: Context, b: Budget, size: Rendering, st: Stage, k: nat): (r: Option<nat>)
    requires k <= Weight(st)
    ensures r.Some? ==> k <= r.value <= Weight(st) && Fits(c, b, size, Evicted(st, r.value))
    ensures forall j :: k <= j <= Weight(st) && (r.Some? ==> j < r.value) ==> !Fits(c, b, size, Evicted(st, j))
    decreases Weight(st) - k
  {
    if Fits(c, b, size, Evicted(st, k)) then Some(k)
    else if k == Weight(st) then None
    else FirstFit(c, b, size, st, k + 1)
  }

  lemma {:induction false} CitedOfPrefix(rs: seq<Relation>, n: nat)
    requires n <= |rs|
    ensures Cited(rs[..n]) <= Cited(rs)
    decreases |rs| - n
  {
    if n == |rs| {
      assert rs[..n] == rs;
    } else {
      CitedOfPrefix(rs, n + 1);
      assert rs[..n + 1][..n] == rs[..n];
    }
  }

  lemma EvictedNone(st: Stage)
    ensures Evicted(st, 0) == st
  {
  }

  lemma EvictedWeight(st: Stage, k: nat)
    requires k <= Weight(st)
    ensures Weight(Evicted(st, k)) == Weight(st) - k
  {
  }

  lemma EvictedCitesLess(st: Stage, k: nat)
    requires k <= Weight(st)
    ensures forall r :: r in References(Evicted(st, k)) ==> r in References(st)
    ensures Agree(References(st)) ==> Agree(References(Evicted(st, k)))
  {
    var now := Evicted(st, k);
    CitedOfPrefix(st.relationships, |now.relationships|);
    forall r | r in References(now) ensures r in References(st) {
      if r in Cited(now.relationships) { assert r in Cited(st.relationships); }
      else { assert r in now.extras && r in st.extras; }
    }
  }

  /** The eviction loop settles on the first stage of the closed form that fits; nothing else ends it. */
  lemma {:induction false} SettlesOnTheFirstFit(c: Context, b: Budget, size: Rendering, st: Stage, k: nat)
    requires k <= Weight(st) && Agree(References(st))
    ensures Settled(c, b, size, Evicted(st, k)) ==
              match FirstFit(c, b, size, st, k)
              case None => Err(CannotEncode)
              case Some(j) => Validated(PacketOf(c, b, Evicted(st, j)), size)
    decreases Weight(st) - k
  {
    hide Evicted, Pop, References, Agree, Validated, PacketOf;
    EvictedCitesLess(st, k);
    EvictedWeight(st, k);
    if k < Weight(st) {
      EvictOne(st, k);
      SettlesOnTheFirstFit(c, b, size, st, k + 1);
    }
  }

  /** A choice that accounts for the relationships `rs` and stays within both limits. */
  ghost predicate Accounts(c: Choice, rs: seq<Relation>, b: Budget) {
    && |c.kept| + c.overLimit + c.overEvidence == |rs|
    && |c.kept| <= b.relationships && |Ids(Cited(c.kept))| <= b.evidence
    && (forall r :: r in c.kept ==> r in rs)
    && (c.overLimit > 0 ==> |c.kept| == b.relationships)
    && (|c.kept| == |rs| ==> c.kept == rs)
  }

  lemma ChooseAccounts(c: Choice, rs: seq<Relation>, r: Relation, b: Budget)
    requires Accounts(c, rs, b)
    ensures Accounts(Choose(c, r, b), rs + [r], b)
  {
    CitedOneMore(c.kept, r);
    hide Cited, Ids;
  }

  lemma NothingChosen(b: Budget)
    ensures Accounts(Chosen([], b), [], b)
  {
  }

  /** The greedy choice accounts for every relationship and stays within both limits. */
  lemma {:induction false} ChosenAccounts(rs: seq<Relation>, b: Budget)
    ensures var c := Chosen(rs, b);
            && |c.kept| + c.overLimit + c.overEvidence == |rs|
            && |c.kept| <= b.relationships && |Ids(Cited(c.kept))| <= b.evidence
            && (forall r :: r in c.kept ==> r in rs)
            && (c.overLimit > 0 ==> |c.kept| == b.relationships)
            && (|c.kept| == |rs| ==> c.kept == rs)
  {
    hide Cited, Ids, Choose;
    NothingChosen(b);
    if rs != [] {
      var n := |rs| - 1;
      assert rs == rs[..n] + [rs[n]];
      ChosenAccounts(rs[..n], b);
      ChooseAccounts(Chosen(rs[..n], b), rs[..n], rs[n], b);
    }
  }

  lemma {:induction false} ChosenSorted(rs: seq<Relation>, b: Budget)
    requires SortedRelations(rs)
    ensures SortedRelations(Chosen(rs, b).kept)
  {
    if rs != [] {
      var n := |rs| - 1;
      ChosenSorted(rs[..n], b);
      ChosenAccounts(rs[..n], b);
      var kept := Chosen(rs[..n], b).kept;
      forall i | 0 <= i < |kept| ensures KeyLess(kept[i].key, rs[n].key) {
        assert kept[i] in rs[..n];
        var j :| 0 <= j < n && rs[..n][j] == kept[i];
        assert rs[j] == kept[i];
      }
    }
  }

  lemma {:induction false} CitedIn(rs: seq<Relation>, e: Reference)
    ensures e in Cited(rs) <==> exists i :: 0 <= i < |rs| && e in rs[i].evidence
  {
    if rs != [] { CitedIn(rs[..|rs| - 1], e); }
  }

  lemma {:induction false} UncitedAre(refs: seq<Reference>, ids: set<string>)
    ensures forall r :: r in Uncited(refs, ids) <==> r in refs && r.id !in ids
  {
    if refs != [] {
      assert refs == refs[..|refs| - 1] + [refs[|refs| - 1]];
      UncitedAre(refs[..|refs| - 1], ids);
    }
  }

  lemma IdsAtMost(refs: seq<Reference>)
    ensures |Ids(refs)| <= |refs|
  {
    if refs != [] {
      var n := |refs| - 1;
      IdsAtMost(refs[..n]);
      assert refs == refs[..n] + [refs[n]];
      assert Ids(refs) == Ids(refs[..n]) + {refs[n].id};
    } else {
      assert Ids(refs) == {};
    }
  }

  /** What the selection keeps comes from the context. */
  lemma SelectedComesFromContext(c: Context, b: Budget)
    ensures forall r :: r in References(Selected(c, b)) ==> r in Cited(c.relationships) + c.references
    ensures Consistent(c) ==> Agree(References(Selected(c, b)))
  {
    var st := Selected(c, b);
    ChosenAccounts(c.relationships, b);
    UncitedAre(c.references, Ids(Cited(st.relationships)));
    forall r | r in References(st) ensures r in Cited(c.relationships) + c.references {
      if r in Cited(st.relationships) {
        CitedIn(st.relationships, r);
        var i :| 0 <= i < |st.relationships| && r in st.relationships[i].evidence;
        assert st.relationships[i] in c.relationships;
        CitedIn(c.relationships, r);
      } else {
        assert r in st.extras;
      }
    }
  }

  function Omitted(m: map<Omission, nat>, s: Section): nat {
    Count(m, Omission(s, RelationshipLimit)) + Count(m, Omission(s, EvidenceLimit))
    + Count(m, Omission(s, ItemLimit)) + Count(m, Omission(s, ByteLimit))
  }

  lemma CountedAdds(m: map<Omission, nat>, o: Omission, n: nat)
    ensures forall s :: Omitted(Counted(m, o, n), s) == Omitted(m, s) + if o.section == s then n else 0
    ensures Count(Counted(m, o, n), o) == Count(m, o) + n
    ensures forall p :: p != o ==> Count(Counted(m, o, n), p) == Count(m, p)
  {
    match o.reason
    case RelationshipLimit =>
    case EvidenceLimit =>
    case ItemLimit =>
    case ByteLimit =>
  }

  /** The sections of a stage with its omissions, next to those of the context. */
  ghost predicate Accounted(c: Context, st: Stage) {
    && |st.relationships| + Omitted(st.omissions, Relationships) == |c.relationships|
    && |st.limitations| + Omitted(st.omissions, Limitations) == |c.limitations|
    && |st.conflicts| + Omitted(st.omissions, Conflicts) == |c.conflicts|
  }

  lemma SelectedIsAccounted(c: Context, b: Budget)
    ensures Accounted(c, Selected(c, b))
    ensures forall s :: Count(Selected(c, b).omissions, Omission(s, ByteLimit)) == 0
  {
    var choice, st := Chosen(c.relationships, b), Selected(c, b);
    assert |choice.kept| + choice.overLimit + choice.overEvidence == |c.relationships| by {
      ChosenAccounts(c.relationships, b);
    }
    var n := |Uncited(c.references, Ids(Cited(choice.kept)))| - |st.extras|;
    var l, k := |c.limitations| - |st.limitations|, |c.conflicts| - |st.conflicts|;
    assert st.omissions == Counted(Counted(Counted(ChoiceOmissions(choice), Omission(Evidence, EvidenceLimit), n),
                                           Omission(Limitations, ItemLimit), l), Omission(Conflicts, ItemLimit), k);
    SelectedCounts(choice, n, l, k);
  }

  lemma SelectedCounts(choice: Choice, e: nat, l: nat, k: nat)
    ensures var m := Counted(Counted(Counted(ChoiceOmissions(choice), Omission(Evidence, EvidenceLimit), e),
                                     Omission(Limitations, ItemLimit), l), Omission(Conflicts, ItemLimit), k);
            && Omitted(m, Relationships) == choice.overLimit + choice.overEvidence
            && Omitted(m, Limitations) == l && Omitted(m, Conflicts) == k
            && forall s :: Count(m, Omission(s, ByteLimit)) == 0
  {
    var m0 := Counted(map[], Omission(Relationships, RelationshipLimit), choice.overLimit);
    var m1 := ChoiceOmissions(choice);
    var m2 := Counted(m1, Omission(Evidence, EvidenceLimit), e);
    var m3 := Counted(m2, Omission(Limitations, ItemLimit), l);
    CountedAdds(map[], Omission(Relationships, RelationshipLimit), choice.overLimit);
    CountedAdds(m0, Omission(Relationships, EvidenceLimit), choice.overEvidence);
    CountedAdds(m1, Omission(Evidence, EvidenceLimit), e);
    CountedAdds(m2, Omission(Limitations, ItemLimit), l);
    CountedAdds(m3, Omission(Conflicts, ItemLimit), k);
  }

  lemma PopIsAccounted(c: Context, st: Stage)
    requires Weight(st) > 0 && Accounted(c, st)
    ensures Accounted(c, Pop(st))
  {
    CountedAdds(st.omissions, Omission(Evidence, ByteLimit), 1);
    CountedAdds(st.omissions, Omission(Limitations, ByteLimit), 1);
    CountedAdds(st.omissions, Omission(Conflicts, ByteLimit), 1);
    CountedAdds(st.omissions, Omission(Relationships, ByteLimit), 1);
  }

  lemma {:induction false} EvictedIsAccounted(c: Context, st: Stage, k: nat)
    requires k <= Weight(st) && Accounted(c, st)
    ensures Accounted(c, Evicted(st, k))
    decreases k
  {
    hide Omitted, Pop;
    if k == 0 {
      assert Evicted(st, 0) == st;
    } else {
      EvictedIsAccounted(c, st, k - 1);
      EvictOne(st, k - 1);
      PopIsAccounted(c, Evicted(st, k - 1));
    }
  }

  /** The stage a successful build stopped at. */
  lemma BuiltAtAStage(c: Context, b: Budget, size: Rendering) returns (k: nat)
    requires Bounded(c, b, size).Ok?
    ensures k <= Weight(Selected(c, b)) && Agree(References(Selected(c, b)))
    ensures Bounded(c, b, size).value == PacketOf(c, b, Evicted(Selected(c, b), k))
    ensures Fits(c, b, size, Evicted(Selected(c, b), k))
    ensures forall j :: 0 <= j < k ==> !Fits(c, b, size, Evicted(Selected(c, b), j))
  {
    var st := Selected(c, b);
    EvictedNone(st);
    hide Evicted, Pop, References, Agree, Valid, PacketOf, Selected;
    SettlesOnTheFirstFit(c, b, size, st, 0);
    k := FirstFit(c, b, size, st, 0).value;
  }

  /** Kept plus counted omissions is what the context had, in every section that is counted whole. */
  lemma NothingGoesUncounted(c: Context, b: Budget, size: Rendering)
    requires Bounded(c, b, size).Ok?
    ensures var p := Bounded(c, b, size).value;
            && |p.relationships| + Omitted(p.omissions, Relationships) == |c.relationships|
            && |p.limitations| + Omitted(p.omissions, Limitations) == |c.limitations|
            && |p.conflicts| + Omitted(p.omissions, Conflicts) == |c.conflicts|
  {
    var k := BuiltAtAStage(c, b, size);
    SelectedIsAccounted(c, b);
    EvictedIsAccounted(c, Selected(c, b), k);
  }

  /** A kept relationship is one of the context's, and keeps every reference it cites exactly as cited. */
  lemma CitationsAreWhole(c: Context, b: Budget, size: Rendering, i: nat, e: Reference)
    requires Bounded(c, b, size).Ok? && i < |Bounded(c, b, size).value.relationships|
    requires e in Bounded(c, b, size).value.relationships[i].evidence
    ensures Bounded(c, b, size).value.relationships[i] in c.relationships
    ensures e.id in Bounded(c, b, size).value.evidence && Bounded(c, b, size).value.evidence[e.id] == e
  {
    var k := BuiltAtAStage(c, b, size);
    var st := Evicted(Selected(c, b), k);
    EvictedCitesLess(Selected(c, b), k);
    EvidenceOfKeeps(References(st));
    CitedIn(st.relationships, e);
    ChosenAccounts(c.relationships, b);
    assert st.relationships[i] == Selected(c, b).relationships[i];
  }

  /** A relationship is evicted for its bytes only when nothing else is left to evict. */
  lemma RelationshipsGoLast(c: Context, b: Budget, size: Rendering)
    requires Bounded(c, b, size).Ok?
    ensures var p := Bounded(c, b, size).value;
            Count(p.omissions, Omission(Relationships, ByteLimit)) > 0 ==>
              p.limitations == [] && p.conflicts == [] && p.evidence.Keys == Ids(Cited(p.relationships))
    ensures var p := Bounded(c, b, size).value;
            Count(p.omissions, Omission(Conflicts, ByteLimit)) > 0 ==> p.limitations == []
  {
    var k := BuiltAtAStage(c, b, size);
    var st := Selected(c, b);
    SelectedIsAccounted(c, b);
    EvidenceOfKeeps(References(Evicted(st, k)));
    var now := Evicted(st, k);
    if Count(now.omissions, Omission(Relationships, ByteLimit)) > 0 {
      assert now.extras == [];
      assert References(now) == Cited(now.relationships);
    }
  }

  /** A stage that breaks no limit but perhaps the byte limit. */
  ghost predicate Proper(st: Stage, b: Budget) {
    && |Ids(Cited(st.relationships))| + |st.extras| <= b.evidence
    && SortedRelations(st.relationships) && SortedTexts(st.limitations) && SortedTexts(st.conflicts)
    && |st.relationships| <= b.relationships && |st.limitations| <= b.limitations && |st.conflicts| <= b.conflicts
  }

  lemma SelectedIsProper(c: Context, b: Budget)
    requires WellFormed(c)
    ensures Proper(Selected(c, b), b)
  {
    ChosenAccounts(c.relationships, b);
    ChosenSorted(c.relationships, b);
  }

  lemma StageCitesWithinBudget(st: Stage, b: Budget, k: nat)
    requires k <= Weight(st) && |Ids(Cited(st.relationships))| + |st.extras| <= b.evidence
    ensures |EvidenceOf(References(Evicted(st, k)))| <= b.evidence
  {
    var now := Evicted(st, k);
    var ids, extra := Ids(Cited(st.relationships)), Ids(now.extras);
    EvidenceOfKeeps(References(now));
    CitedOfPrefix(st.relationships, |now.relationships|);
    IdsAtMost(now.extras);
    assert Ids(References(now)) <= ids + extra;
    SetSizes(Ids(References(now)), ids, extra);
    assert |EvidenceOf(References(now))| == |Ids(References(now))|;
  }

  lemma StageIsValid(c: Context, b: Budget, size: Rendering, st: Stage, k: nat)
    requires WellFormed(c) && Proper(st, b) && k <= Weight(st) && Fits(c, b, size, Evicted(st, k))
    ensures Valid(PacketOf(c, b, Evicted(st, k)), size)
  {
    var now := Evicted(st, k);
    StageCitesWithinBudget(st, b, k);
    EvidenceOfKeeps(References(now));
    assert forall r :: r in Cited(now.relationships) ==> r in References(now);
  }

  lemma SetSizes(s: set<string>, a: set<string>, b: set<string>)
    requires s <= a + b
    ensures |s| <= |a| + |b|
  {
    assert s == s * a + (s - a) && s - a <= b;
    Smaller(s * a, a);
    Smaller(s - a, b);
  }

  lemma Smaller(s: set<string>, t: set<string>)
    requires s <= t
    ensures |s| <= |t|
  {
    assert t == s + (t - s);
  }

  /** What the loop makes of a proper stage: it settles on the first that fits, and validation lets it through. */
  lemma SettlesValid(c: Context, b: Budget, size: Rendering, st: Stage)
    requires WellFormed(c) && Proper(st, b) && Agree(References(st))
    ensures var r := FirstFit(c, b, size, st, 0);
            Settled(c, b, size, st) == if r.None? then Err(CannotEncode) else Ok(PacketOf(c, b, Evicted(st, r.value)))
  {
    EvictedNone(st);
    hide Evicted, Pop, References, Agree, Valid, PacketOf, Proper, WellFormed;
    SettlesOnTheFirstFit(c, b, size, st, 0);
    var r := FirstFit(c, b, size, st, 0);
    if r.Some? { StageIsValid(c, b, size, st, r.value); }
  }

  /** A consistent context is refused only when no stage fits; validation never turns one away. */
  lemma ConsistentContextsAreNotRejected(c: Context, b: Budget, size: Rendering)
    requires 0.0 <= c.confidence <= 1.0
    requires forall i, j :: 0 <= i < j < |c.relationships| ==> KeyLess(c.relationships[i].key, c.relationships[j].key)
    requires forall i, j :: 0 <= i < j < |c.limitations| ==> Text.Less(c.limitations[i], c.limitations[j])
    requires forall i, j :: 0 <= i < j < |c.conflicts| ==> Text.Less(c.conflicts[i], c.conflicts[j])
    requires forall e, d :: e in Cited(c.relationships) + c.references && d in Cited(c.relationships) + c.references && e.id == d.id ==> e == d
    ensures Bounded(c, b, size).Ok? || Bounded(c, b, size) == Err(CannotEncode)
    ensures Bounded(c, b, size).Ok? <==>
              exists k :: 0 <= k <= Weight(Selected(c, b)) && Fits(c, b, size, Evicted(Selected(c, b), k))
  {
    SelectedComesFromContext(c, b);
    SelectedIsProper(c, b);
    SettlesValid(c, b, size, Selected(c, b));
  }

  /** The packet that leaves nothing out. */
  function Whole(c: Context, b: Budget): Packet {
    PacketOf(c, b, Stage(c.relationships, Uncited(c.references, Ids(Cited(c.relationships))), c.limitations, c.conflicts, map[]))
  }

  /** A stage reached without any omission is the whole context. */
  lemma UnomittedStageIsWhole(c: Context, b: Budget, k: nat)
    requires k <= Weight(Selected(c, b)) && Evicted(Selected(c, b), k).omissions == map[]
    ensures var now := Evicted(Selected(c, b), k);
            && now.relationships == c.relationships && now.limitations == c.limitations && now.conflicts == c.conflicts
            && now.extras == Uncited(c.references, Ids(Cited(c.relationships)))
  {
    hide Uncited, Cited, Ids, Chosen;
    SelectedIsAccounted(c, b);
    EvictedIsAccounted(c, Selected(c, b), k);
    ChosenAccounts(c.relationships, b);
    NoExtraOmitted(c, b, k);
  }

  lemma WholeHoldsEverything(c: Context, b: Budget)
    ensures forall e :: e in Cited(c.relationships) + c.references ==> e.id in Whole(c, b).evidence
    ensures Consistent(c) ==> forall e :: e in Cited(c.relationships) + c.references ==> Whole(c, b).evidence[e.id] == e
  {
    var refs := Cited(c.relationships) + Uncited(c.references, Ids(Cited(c.relationships)));
    EvidenceOfKeeps(refs);
    UncitedAre(c.references, Ids(Cited(c.relationships)));
    forall e | e in Cited(c.relationships) + c.references ensures e.id in Ids(refs) {
      if e.id !in Ids(Cited(c.relationships)) { assert e in refs; }
    }
    if Consistent(c) {
      forall e | e in Cited(c.relationships) + c.references ensures EvidenceOf(refs)[e.id] == e {
        var found := EvidenceOf(refs)[e.id];
        assert found in Cited(c.relationships) + c.references && found.id == e.id;
      }
    }
  }

  /** A packet that reports no omission is the whole context: every claim, limitation, conflict and reference. */
  lemma CompletePacketIsLossless(c: Context, b: Budget, size: Rendering)
    requires Bounded(c, b, size).Ok? && Bounded(c, b, size).value.omissions == map[]
    ensures Bounded(c, b, size).value == Whole(c, b)
    ensures var p := Bounded(c, b, size).value;
            && p.relationships == c.relationships && p.limitations == c.limitations && p.conflicts == c.conflicts
            && (forall e :: e in Cited(c.relationships) + c.references ==> e.id in p.evidence)
            && (Consistent(c) ==> forall e :: e in Cited(c.relationships) + c.references ==> p.evidence[e.id] == e)
  {
    hide Bounded, Cited, EvidenceOf, Selected;
    var k := BuiltAtAStage(c, b, size);
    UnomittedStageIsWhole(c, b, k);
    WholeHoldsEverything(c, b);
    hide Evicted;
  }

  lemma NoExtraOmitted(c: Context, b: Budget, k: nat)
    requires k <= Weight(Selected(c, b)) && Evicted(Selected(c, b), k).omissions == map[]
    ensures Evicted(Selected(c, b), k).extras == Uncited(c.references, Ids(Cited(Selected(c, b).relationships)))
  {
    var st := Selected(c, b);
    var now := Evicted(st, k);
    assert Count(now.omissions, Omission(Evidence, ByteLimit)) == 0;
    assert Count(now.omissions, Omission(Evidence, EvidenceLimit)) == 0;
  }

  /** The relationships whose turn was answered with yes. */
  function Picked(rs: seq<Relation>, taken: seq<bool>): seq<Relation>
    requires |rs| == |taken|
  {
    if rs == [] then []
    else Picked(rs[..|rs| - 1], taken[..|rs| - 1]) + if taken[|rs| - 1] then [rs[|rs| - 1]] else []
  }

  /** At its turn the relationship still has room: for itself, and for what it cites beside what is cited so far. */
  predicate HasRoom(before: seq<Relation>, r: Relation, b: Budget) {
    |before| < b.relationships && |Ids(Cited(before) + r.evidence)| <= b.evidence
  }

  /** How many relationships had their turn when the limit on relationships was reached. */
  function TurnsWhenFull(rs: seq<Relation>, taken: seq<bool>, b: Budget): nat
    requires |rs| == |taken|
  {
    if rs == [] then 0
    else
      var n := |rs| - 1;
      TurnsWhenFull(rs[..n], taken[..n], b) + if |Picked(rs[..n], taken[..n])| >= b.relationships then 1 else 0
  }

  /** Every relationship is taken in turn exactly when it has room beside those taken before it, and is otherwise
      counted under the limit that refused it: the number of relationships first, then the references. */
  lemma {:induction false} ChosenInTurn(rs: seq<Relation>, b: Budget) returns (taken: seq<bool>)
    ensures |taken| == |rs| && Chosen(rs, b).kept == Picked(rs, taken)
    ensures forall i :: 0 <= i < |rs| ==> (taken[i] <==> HasRoom(Picked(rs[..i], taken[..i]), rs[i], b))
    ensures Chosen(rs, b).overLimit == TurnsWhenFull(rs, taken, b)
  {
    if rs == [] {
      taken := [];
    } else {
      var n := |rs| - 1;
      var before := ChosenInTurn(rs[..n], b);
      taken := before + [HasRoom(Chosen(rs[..n], b).kept, rs[n], b)];
      TurnsExtend(rs, before, taken, b);
      IdsOfBoth(Cited(Chosen(rs[..n], b).kept), rs[n].evidence);
    }
  }

  lemma IdsOfBoth(a: seq<Reference>, b: seq<Reference>)
    ensures Ids(a + b) == Ids(a) + Ids(b)
  {
  }

  lemma TurnsExtend(rs: seq<Relation>, before: seq<bool>, taken: seq<bool>, b: Budget)
    requires rs != [] && |before| == |rs| - 1 == |taken| - 1 && before == taken[..|rs| - 1]
    ensures forall i :: 0 <= i < |rs| - 1 ==> rs[..|rs| - 1][..i] == rs[..i] && before[..i] == taken[..i]
  {
    assert forall i :: 0 <= i < |rs| - 1 ==> rs[..|rs| - 1][..i] == rs[..i] && before[..i] == taken[..i];
  }

  /** What is selected beside the relationships fills the room that is left: the first references not yet cited, the
      first limitations and the first conflicts, as many as their limits allow. */
  lemma SelectionFillsTheRoom(c: Context, b: Budget)
    ensures var st := Selected(c, b);
            var ids, uncited := Ids(Cited(st.relationships)), Uncited(c.references, Ids(Cited(st.relationships)));
            && st.extras <= uncited && |ids| + |st.extras| <= b.evidence
            && (|st.extras| < |uncited| ==> |ids| + |st.extras| == b.evidence)
            && Count(st.omissions, Omission(Evidence, EvidenceLimit)) == |uncited| - |st.extras|
            && st.limitations <= c.limitations && |st.limitations| <= b.limitations
            && (|st.limitations| < |c.limitations| ==> |st.limitations| == b.limitations)
            && st.conflicts <= c.conflicts && |st.conflicts| <= b.conflicts
            && (|st.conflicts| < |c.conflicts| ==> |st.conflicts| == b.conflicts)
  {
    ChosenAccounts(c.relationships, b);
    hide Chosen, Cited, Ids, Uncited;
  }

  /** Whatever the context, a packet that is returned keeps every limit of its budget, is sorted, holds each reference
      it cites and carries the header of its context. */
  lemma BuiltIsWithinItsLimits(c: Context, b: Budget, size: Rendering)
    requires Bounded(c, b, size).Ok?
    ensures var p := Bounded(c, b, size).value;
            && p.version == c.version && p.qualified == c.qualified && p.confidence == c.confidence && p.budget == b
            && 0.0 <= p.confidence && p.confidence <= 1.0 && size(p) <= b.renderedBytes
            && |p.relationships| <= b.relationships && |p.evidence| <= b.evidence
            && |p.limitations| <= b.limitations && |p.conflicts| <= b.conflicts
            && (forall i, j :: 0 <= i < j < |p.relationships| ==> KeyLess(p.relationships[i].key, p.relationships[j].key))
            && (forall i, j :: 0 <= i < j < |p.limitations| ==> Text.Less(p.limitations[i], p.limitations[j]))
            && (forall i, j :: 0 <= i < j < |p.conflicts| ==> Text.Less(p.conflicts[i], p.conflicts[j]))
            && (forall r :: r in Cited(p.relationships) ==> r.id in p.evidence)
  {
    SettledIsValid(c, b, size, Selected(c, b));
  }

  lemma {:induction false} SettledIsValid(c: Context, b: Budget, size: Rendering, st: Stage)
    requires Settled(c, b, size, st).Ok?
    ensures var p := Settled(c, b, size, st).value;
            Valid(p, size) && p.version == c.version && p.qualified == c.qualified && p.confidence == c.confidence && p.budget == b
    decreases Weight(st)
  {
    hide Valid, Pop, References, Agree;
    if !Fits(c, b, size, st) {
      PopIsLighter(st);
      SettledIsValid(c, b, size, Pop(st));
    }
  }

  lemma PopIsLighter(st: Stage)
    requires Weight(st) > 0
    ensures Weight(Pop(st)) == Weight(st) - 1
  {
  }
}
