/** The bounded working subset of a decision context: greedy selection, then eviction until it renders small enough. */
module ContextPacket {
  import opened Wrappers
  import Text

  datatype Reference = Reference(id: string, sourceKind: string, locator: string, revision: string)

  datatype RelationKey = RelationKey(source: string, kind: string, target: string)

  datatype Relation = Relation(
    key: RelationKey, sourceLabel: string, targetLabel: string, confidence: real, evidence: seq<Reference>)

  datatype Context = Context(
    version: string, qualified: bool, confidence: real, relationships: seq<Relation>, references: seq<Reference>,
    limitations: seq<string>, conflicts: seq<string>)

  datatype Budget = Budget(relationships: nat, evidence: nat, limitations: nat, conflicts: nat, renderedBytes: nat)

  datatype Section = Relationships | Evidence | Limitations | Conflicts

  datatype Reason = RelationshipLimit | EvidenceLimit | ItemLimit | ByteLimit

  datatype Omission = Omission(section: Section, reason: Reason)

  /** Evidence and omissions are listed in the order of their keys, which a map leaves implicit. */
  datatype Packet = Packet(
    version: string, qualified: bool, confidence: real, relationships: seq<Relation>, evidence: map<string, Reference>,
    limitations: seq<string>, conflicts: seq<string>, omissions: map<Omission, nat>, budget: Budget)

  datatype PacketError = ConflictingReferences | CannotEncode | Invalid

  /** The size of a rendered packet is any function of what is rendered. */
  type Rendering = Packet -> nat

  predicate KeyLess(a: RelationKey, b: RelationKey) {
    || Text.Less(a.source, b.source)
    || (a.source == b.source && Text.Less(a.kind, b.kind))
    || (a.source == b.source && a.kind == b.kind && Text.Less(a.target, b.target))
  }

  /** The keys are compared like the tuples they are: exactly one of two different ones comes first. */
  lemma KeysAreOrdered(a: RelationKey, b: RelationKey)
    ensures !KeyLess(a, a)
    ensures a != b ==> (KeyLess(a, b) <==> !KeyLess(b, a))
    ensures a.source != b.source ==> (KeyLess(a, b) <==> Text.Less(a.source, b.source))
    ensures a.source == b.source && a.kind != b.kind ==> (KeyLess(a, b) <==> Text.Less(a.kind, b.kind))
    ensures a.source == b.source && a.kind == b.kind ==> (KeyLess(a, b) <==> Text.Less(a.target, b.target))
  {
    TextsAreOrdered(a.source, b.source);
    TextsAreOrdered(a.kind, b.kind);
    TextsAreOrdered(a.target, b.target);
  }

  lemma TextsAreOrdered(a: string, b: string)
    ensures a != b ==> (Text.Less(a, b) <==> !Text.Less(b, a))
    ensures !Text.Less(a, a)
  {
    Text.Total(a, b);
    if Text.AtMost(a, b) && Text.AtMost(b, a) { Text.Antisymmetric(a, b); }
  }

  predicate SortedRelations(rs: seq<Relation>) {
    forall i, j :: 0 <= i < j < |rs| ==> KeyLess(rs[i].key, rs[j].key)
  }

  predicate SortedTexts(ts: seq<string>) {
    forall i, j :: 0 <= i < j < |ts| ==> Text.Less(ts[i], ts[j])
  }

  predicate WellFormed(c: Context) {
    0.0 <= c.confidence <= 1.0 && SortedRelations(c.relationships) && SortedTexts(c.limitations) && SortedTexts(c.conflicts)
  }

  function Ids(refs: seq<Reference>): set<string> {
    set r | r in refs :: r.id
  }

  /** Every reference the relationships cite, in order. */
  function Cited(rs: seq<Relation>): seq<Reference> {
    if rs == [] then [] else Cited(rs[..|rs| - 1]) + rs[|rs| - 1].evidence
  }

  /** One id never stands for two different references. */
  predicate Agree(refs: seq<Reference>) {
    forall a, b :: a in refs && b in refs && a.id == b.id ==> a == b
  }

  predicate Consistent(c: Context) {
    Agree(Cited(c.relationships) + c.references)
  }

  function Count(m: map<Omission, nat>, o: Omission): nat {
    if o in m then m[o] else 0
  }

  function Counted(m: map<Omission, nat>, o: Omission, n: nat): map<Omission, nat> {
    if n == 0 then m else m[o := Count(m, o) + n]
  }

  /** The relationships kept within the limits, and how many were left out for which limit. */
  datatype Choice = Choice(kept: seq<Relation>, overLimit: nat, overEvidence: nat)

  function Choose(c: Choice, r: Relation, b: Budget): Choice {
    if |c.kept| >= b.relationships then c.(overLimit := c.overLimit + 1)
    else if |Ids(Cited(c.kept)) + Ids(r.evidence)| > b.evidence then c.(overEvidence := c.overEvidence + 1)
    else c.(kept := c.kept + [r])
  }

  function Chosen(rs: seq<Relation>, b: Budget): Choice {
    if rs == [] then Choice([], 0, 0) else Choose(Chosen(rs[..|rs| - 1], b), rs[|rs| - 1], b)
  }

  function ChoiceOmissions(c: Choice): map<Omission, nat> {
    Counted(Counted(map[], Omission(Relationships, RelationshipLimit), c.overLimit),
            Omission(Relationships, EvidenceLimit), c.overEvidence)
  }

  function Uncited(refs: seq<Reference>, ids: set<string>): seq<Reference> {
    if refs == [] then []
    else
      var last := refs[|refs| - 1];
      Uncited(refs[..|refs| - 1], ids) + if last.id in ids then [] else [last]
  }

  function Least(a: nat, b: nat): nat {
    if a < b then a else b
  }

  /** What is selected, before and during eviction. */
  datatype Stage = Stage(
    relationships: seq<Relation>, extras: seq<Reference>, limitations: seq<string>, conflicts: seq<string>,
    omissions: map<Omission, nat>)

  function References(st: Stage): seq<Reference> {
    Cited(st.relationships) + st.extras
  }

  function Room(b: Budget, used: nat): nat {
    if used < b.evidence then b.evidence - used else 0
  }

  function Selected(c: Context, b: Budget): Stage {
    var choice := Chosen(c.relationships, b);
    var ids := Ids(Cited(choice.kept));
    var candidates := Uncited(c.references, ids);
    var e, l, k := Least(|candidates|, Room(b, |ids|)), Least(|c.limitations|, b.limitations), Least(|c.conflicts|, b.conflicts);
    Stage(choice.kept, candidates[..e], c.limitations[..l], c.conflicts[..k],
          Counted(Counted(Counted(ChoiceOmissions(choice), Omission(Evidence, EvidenceLimit), |candidates| - e),
                          Omission(Limitations, ItemLimit), |c.limitations| - l),
                  Omission(Conflicts, ItemLimit), |c.conflicts| - k))
  }

  function Weight(st: Stage): nat {
    |st.relationships| + |st.extras| + |st.limitations| + |st.conflicts|
  }

  function EvidenceOf(refs: seq<Reference>): map<string, Reference> {
    if refs == [] then map[]
    else
      var m, last := EvidenceOf(refs[..|refs| - 1]), refs[|refs| - 1];
      if last.id in m then m else m[last.id := last]
  }

  function PacketOf(c: Context, b: Budget, st: Stage): Packet {
    Packet(c.version, c.qualified, c.confidence, st.relationships, EvidenceOf(References(st)), st.limitations, st.conflicts,
           st.omissions, b)
  }

  predicate Fits(c: Context, b: Budget, size: Rendering, st: Stage) {
    size(PacketOf(c, b, st)) <= b.renderedBytes
  }

  predicate Valid(p: Packet, size: Rendering) {
    && 0.0 <= p.confidence <= 1.0
    && |p.relationships| <= p.budget.relationships && |p.evidence| <= p.budget.evidence
    && |p.limitations| <= p.budget.limitations && |p.conflicts| <= p.budget.conflicts
    && SortedRelations(p.relationships) && SortedTexts(p.limitations) && SortedTexts(p.conflicts)
    && (forall r :: r in Cited(p.relationships) ==> r.id in p.evidence)
    && size(p) <= p.budget.renderedBytes
  }

  lemma CountedAgain(m: map<Omission, nat>, o: Omission, n: nat)
    ensures Counted(Counted(m, o, n), o, 1) == Counted(m, o, n + 1)
  {
  }

  lemma CountedCommutes(m: map<Omission, nat>, o: Omission, p: Omission, n: nat, k: nat)
    requires o != p
    ensures Counted(Counted(m, o, n), p, k) == Counted(Counted(m, p, k), o, n)
  {
    if n > 0 && k > 0 {
      assert m[o := Count(m, o) + n][p := Count(m, p) + k] == m[p := Count(m, p) + k][o := Count(m, o) + n];
    }
  }

  /** One eviction step: the last of the first section that is not empty. */
  function Pop(st: Stage): Stage
    requires Weight(st) > 0
  {
    if st.extras != [] then
      st.(extras := st.extras[..|st.extras| - 1], omissions := Counted(st.omissions, Omission(Evidence, ByteLimit), 1))
    else if st.limitations != [] then
      st.(limitations := st.limitations[..|st.limitations| - 1],
          omissions := Counted(st.omissions, Omission(Limitations, ByteLimit), 1))
    else if st.conflicts != [] then
      st.(conflicts := st.conflicts[..|st.conflicts| - 1],
          omissions := Counted(st.omissions, Omission(Conflicts, ByteLimit), 1))
    else
      st.(relationships := st.relationships[..|st.relationships| - 1],
          omissions := Counted(st.omissions, Omission(Relationships, ByteLimit), 1))
  }

  /** The packet, unless its own validation rejects it. */
  function Validated(p: Packet, size: Rendering): Result<Packet, PacketError> {
    if Valid(p, size) then Ok(p) else Err(Invalid)
  }

  /** Evict until the stage renders within the byte limit. */
  function Settled(c: Context, b: Budget, size: Rendering, st: Stage): Result<Packet, PacketError>
    decreases Weight(st)
  {
    if !Agree(References(st)) then Err(ConflictingReferences)
    else if Fits(c, b, size, st) then Validated(PacketOf(c, b, st), size)
    else if Weight(st) == 0 then Err(CannotEncode)
    else Settled(c, b, size, Pop(st))
  }

  /** The packet of a context: what the selection settles to. */
  function Bounded(c: Context, b: Budget, size: Rendering): Result<Packet, PacketError> {
    Settled(c, b, size, Selected(c, b))
  }

  /** Collect the references, refusing two representations of one id. */
  method PacketEvidence(refs: seq<Reference>) returns (m: Option<map<string, Reference>>)
    ensures m == if Agree(refs) then Some(EvidenceOf(refs)) else None
  {
    hide Agree, EvidenceOf;
    NothingToCollect();
    var found: map<string, Reference> := map[];
    assert refs[..0] == [];
    for i := 0 to |refs|
      invariant found == EvidenceOf(refs[..i]) && Agree(refs[..i])
    {
      EvidenceOneMore(refs, i);
      if refs[i].id in found {
        if found[refs[i].id] != refs[i] { return None; }
      } else {
        found := found[refs[i].id := refs[i]];
      }
    }
    assert refs[..|refs|] == refs;
    m := Some(found);
  }

  lemma NothingToCollect()
    ensures Agree([]) && EvidenceOf([]) == map[]
  {
  }

  /** One more reference either agrees with what was collected or shows that the references do not agree. */
  lemma EvidenceOneMore(refs: seq<Reference>, i: nat)
    requires i < |refs| && Agree(refs[..i])
    ensures var found, e := EvidenceOf(refs[..i]), refs[i];
            && EvidenceOf(refs[..i + 1]) == (if e.id in found then found else found[e.id := e])
            && (Agree(refs[..i + 1]) <==> (e.id in found ==> found[e.id] == e))
            && (Agree(refs) ==> Agree(refs[..i + 1]))
  {
    hide EvidenceOf, Agree;
    var before, e := refs[..i], refs[i];
    EvidenceOfKeeps(before);
    assert refs[..i + 1] == before + [e];
    var found := EvidenceOf(before);
    EvidenceLast(before, e);
    AgreeOneMore(before, e);
    AgreePrefix(refs, i + 1);
    if e.id in found { assert found[e.id] in before; }
  }

  lemma EvidenceLast(refs: seq<Reference>, e: Reference)
    ensures var found := EvidenceOf(refs);
            EvidenceOf(refs + [e]) == if e.id in found then found else found[e.id := e]
  {
    assert (refs + [e])[..|refs|] == refs;
  }

  lemma AgreeOneMore(refs: seq<Reference>, e: Reference)
    requires Agree(refs)
    ensures Agree(refs + [e]) <==> forall r :: r in refs && r.id == e.id ==> r == e
    ensures forall r, q :: r in refs && q in refs && r.id == q.id ==> r == q
  {
    forall r | r in refs ensures r in refs + [e] {}
    assert e in refs + [e];
  }

  lemma AgreePrefix(refs: seq<Reference>, n: nat)
    requires n <= |refs|
    ensures Agree(refs) ==> Agree(refs[..n])
  {
  }

  lemma {:induction false} EvidenceOfKeeps(refs: seq<Reference>)
    ensures EvidenceOf(refs).Keys == Ids(refs)
    ensures forall id :: id in EvidenceOf(refs) ==> EvidenceOf(refs)[id] in refs && EvidenceOf(refs)[id].id == id
    ensures Agree(refs) ==> forall r :: r in refs ==> EvidenceOf(refs)[r.id] == r
  {
    if refs != [] {
      var n := |refs| - 1;
      assert refs == refs[..n] + [refs[n]];
      EvidenceOfKeeps(refs[..n]);
    }
  }

  lemma OmitOneMore(c: Choice)
    ensures ChoiceOmissions(c.(overLimit := c.overLimit + 1))
         == Counted(ChoiceOmissions(c), Omission(Relationships, RelationshipLimit), 1)
    ensures ChoiceOmissions(c.(overEvidence := c.overEvidence + 1))
         == Counted(ChoiceOmissions(c), Omission(Relationships, EvidenceLimit), 1)
  {
    var o, p := Omission(Relationships, RelationshipLimit), Omission(Relationships, EvidenceLimit);
    CountedCommutes(Counted(map[], o, c.overLimit), p, o, c.overEvidence, 1);
    CountedAgain(map[], o, c.overLimit);
    CountedAgain(Counted(map[], o, c.overLimit), p, c.overEvidence);
  }

  method SelectRelationships(rs: seq<Relation>, b: Budget) returns (kept: seq<Relation>, ids: set<string>, omissions: map<Omission, nat>)
    ensures var c := Chosen(rs, b);
            kept == c.kept && ids == Ids(Cited(c.kept)) && omissions == ChoiceOmissions(c)
  {
    kept, ids, omissions := [], {}, map[];
    for i := 0 to |rs|
      invariant var c := Chosen(rs[..i], b);
                kept == c.kept && ids == Ids(Cited(c.kept)) && omissions == ChoiceOmissions(c)
    {
      ghost var c := Chosen(rs[..i], b);
      assert rs[..i + 1][..i] == rs[..i];
      assert Chosen(rs[..i + 1], b) == Choose(c, rs[i], b);
      OmitOneMore(c);
      var cited := Ids(rs[i].evidence);
      if |kept| >= b.relationships {
        omissions := Counted(omissions, Omission(Relationships, RelationshipLimit), 1);
      } else if |ids + cited| > b.evidence {
        omissions := Counted(omissions, Omission(Relationships, EvidenceLimit), 1);
      } else {
        CitedOneMore(kept, rs[i]);
        kept, ids := kept + [rs[i]], ids + cited;
      }
    }
    assert rs[..|rs|] == rs;
  }

  lemma CitedOneMore(rs: seq<Relation>, r: Relation)
    ensures Cited(rs + [r]) == Cited(rs) + r.evidence
    ensures Ids(Cited(rs + [r])) == Ids(Cited(rs)) + Ids(r.evidence)
  {
    assert (rs + [r])[..|rs|] == rs;
  }

  method SelectExtras(refs: seq<Reference>, ids: set<string>, b: Budget) returns (extras: seq<Reference>, omitted: nat)
    ensures var all := Uncited(refs, ids);
            var n := Least(|all|, Room(b, |ids|));
            extras == all[..n] && omitted == |all| - n
  {
    extras, omitted := [], 0;
    for i := 0 to |refs|
      invariant var all := Uncited(refs[..i], ids);
                var n := Least(|all|, Room(b, |ids|));
                extras == all[..n] && omitted == |all| - n
    {
      assert refs[..i + 1][..i] == refs[..i];
      if refs[i].id in ids { continue; }
      if |ids| + |extras| >= b.evidence {
        omitted := omitted + 1;
      } else {
        extras := extras + [refs[i]];
      }
    }
    assert refs[..|refs|] == refs;
  }

  method Select(c: Context, b: Budget)
    returns (relationships: seq<Relation>, extras: seq<Reference>, limitations: seq<string>, conflicts: seq<string>,
             omissions: map<Omission, nat>)
    ensures Stage(relationships, extras, limitations, conflicts, omissions) == Selected(c, b)
  {
    var ids, omitted;
    relationships, ids, omissions := SelectRelationships(c.relationships, b);
    hide Chosen, ChoiceOmissions, Cited, Ids, Uncited, Count;
    extras, omitted := SelectExtras(c.references, ids, b);
    omissions := Counted(omissions, Omission(Evidence, EvidenceLimit), omitted);
    limitations := c.limitations[..Least(|c.limitations|, b.limitations)];
    omissions := Counted(omissions, Omission(Limitations, ItemLimit), |c.limitations| - |limitations|);
    conflicts := c.conflicts[..Least(|c.conflicts|, b.conflicts)];
    omissions := Counted(omissions, Omission(Conflicts, ItemLimit), |c.conflicts| - |conflicts|);
  }

  /** Build a bounded packet: select within the item limits, then evict until it renders within the byte limit. */
  method BoundedPacket(c: Context, b: Budget, size: Rendering) returns (r: Result<Packet, PacketError>)
    ensures r == Bounded(c, b, size)
  {
    hide Cited, EvidenceOf, Selected, Agree, Valid;
    var relationships, extras, limitations, conflicts, omissions := Select(c, b);
    while true
      invariant Settled(c, b, size, Stage(relationships, extras, limitations, conflicts, omissions)) == Bounded(c, b, size)
      decreases |relationships| + |extras| + |limitations| + |conflicts|
    {
      var evidence := PacketEvidence(Cited(relationships) + extras);
      if evidence.None? { return Err(ConflictingReferences); }
      var p := Packet(c.version, c.qualified, c.confidence, relationships, evidence.value, limitations, conflicts, omissions, b);
      if size(p) <= b.renderedBytes {
        return if Valid(p, size) then Ok(p) else Err(Invalid);
      }
      if extras != [] {
        extras := extras[..|extras| - 1];
        omissions := Counted(omissions, Omission(Evidence, ByteLimit), 1);
      } else if limitations != [] {
        limitations := limitations[..|limitations| - 1];
        omissions := Counted(omissions, Omission(Limitations, ByteLimit), 1);
      } else if conflicts != [] {
        conflicts := conflicts[..|conflicts| - 1];
        omissions := Counted(omissions, Omission(Conflicts, ByteLimit), 1);
      } else if relationships != [] {
        relationships := relationships[..|relationships| - 1];
        omissions := Counted(omissions, Omission(Relationships, ByteLimit), 1);
      } else {
        return Err(CannotEncode);
      }
    }
  }
}
