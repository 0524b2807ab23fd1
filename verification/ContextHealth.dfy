/** Two gates over one packet: the health report of its context and the review flag of a decision brief. */
module ContextHealth {
  import opened Wrappers
  import opened ContextPacket
  import opened PacketLaws

  datatype State = Ready | Limited | Conflicted | Unqualified

  datatype IssueKind = ContextUnqualified | PacketOmission | Limitation | Conflict

  /** Issues are unique by kind and listed in its order. */
  datatype Report = Report(
    version: string, packet: Packet, state: State, issues: map<IssueKind, nat>, relationships: nat, evidence: nat)

  datatype HealthError = OtherContextVersion | OtherQualification

  function StateOf(c: Context, p: Packet): State {
    if !c.qualified then Unqualified
    else if c.conflicts != [] then Conflicted
    else if p.omissions != map[] || c.limitations != [] then Limited
    else Ready
  }

  predicate ProposalEligible(r: Report) {
    r.state.Ready?
  }

  /** The brief looks only at the packet it was built from. */
  predicate RequiresHumanReview(p: Packet) {
    !p.qualified || p.omissions != map[] || p.limitations != [] || p.conflicts != []
  }

  function AllOmitted(m: map<Omission, nat>): nat {
    Omitted(m, Relationships) + Omitted(m, Evidence) + Omitted(m, Limitations) + Omitted(m, Conflicts)
  }

  /** Explain everything that keeps a packet from being relied on. */
  method ContextHealthReport(c: Context, p: Packet) returns (r: Result<Report, HealthError>)
    ensures r.Err? <==> p.version != c.version || p.qualified != c.qualified
    ensures r.Ok? ==> r.value.packet == p && r.value.version == c.version
    ensures r.Ok? ==> (ProposalEligible(r.value) <==> r.value.issues == map[])
    ensures r.Ok? ==>
              && (ContextUnqualified in r.value.issues <==> r.value.state.Unqualified?)
              && (Conflict in r.value.issues <==> c.conflicts != [])
              && (Limitation in r.value.issues <==> c.limitations != [])
              && (PacketOmission in r.value.issues <==> p.omissions != map[])
              && (PacketOmission in r.value.issues ==> r.value.issues[PacketOmission] == AllOmitted(p.omissions))
              && (Conflict in r.value.issues ==> r.value.issues[Conflict] == |c.conflicts|)
              && (Limitation in r.value.issues ==> r.value.issues[Limitation] == |c.limitations|)
    ensures r.Ok? ==> r.value.state == StateOf(c, p)
  {
    if p.version != c.version { return Err(OtherContextVersion); }
    if p.qualified != c.qualified { return Err(OtherQualification); }
    var issues: map<IssueKind, nat> := map[];
    if !c.qualified { issues := issues[ContextUnqualified := 1]; }
    if p.omissions != map[] { issues := issues[PacketOmission := AllOmitted(p.omissions)]; }
    if c.limitations != [] { issues := issues[Limitation := |c.limitations|]; }
    if c.conflicts != [] { issues := issues[Conflict := |c.conflicts|]; }
    r := Ok(Report(c.version, p, StateOf(c, p), issues, |p.relationships|, |p.evidence|));
    if !StateOf(c, p).Ready? {
      assert ContextUnqualified in issues || PacketOmission in issues || Limitation in issues || Conflict in issues;
    }
  }

  /** For a packet built from the context, the report is ready exactly when the brief needs no review. */
  lemma GatesAgree(c: Context, b: Budget, size: Rendering)
    requires Bounded(c, b, size).Ok?
    ensures var p := Bounded(c, b, size).value;
            && p.version == c.version && p.qualified == c.qualified
            && (StateOf(c, p).Ready? <==> !RequiresHumanReview(p))
  {
    var k := BuiltAtAStage(c, b, size);
    if Bounded(c, b, size).value.omissions == map[] { CompletePacketIsLossless(c, b, size); }
  }

  /** The context has no limitation and no conflict of its own. */
  predicate Clean(c: Context) {
    c.limitations == [] && c.conflicts == []
  }

  /** The report compares only version and qualification. A packet that was built from another context with
      the same ones makes the two gates disagree exactly when it omits nothing, so that what it shows is the
      whole of its origin, and one of the two contexts is clean where the other is not. */
  lemma GatesAgreeIff(c: Context, origin: Context, b: Budget, size: Rendering)
    requires Bounded(origin, b, size).Ok?
    requires c.version == origin.version && c.qualified == origin.qualified
    ensures var p := Bounded(origin, b, size).value;
            && p.version == c.version && p.qualified == c.qualified
            && ((StateOf(c, p).Ready? <==> !RequiresHumanReview(p))
                <==> (c.qualified && p.omissions == map[] ==> (Clean(c) <==> Clean(origin))))
  {
    hide Bounded, Whole, Cited;
    GatesAgree(origin, b, size);
    if Bounded(origin, b, size).value.omissions == map[] { CompletePacketIsLossless(origin, b, size); }
  }

  function Emptied(c: Context): Context {
    c.(relationships := [], references := [], limitations := [], conflicts := [])
  }

  lemma EmptiedSelects(c: Context, b: Budget)
    ensures Selected(Emptied(c), b) == Stage([], [], [], [], map[])
  {
  }

  /** Such a packet: the one built from an empty context under the same version hides every limitation. */
  lemma ForeignPacketSplitsTheGates(c: Context, b: Budget, size: Rendering)
    requires c.qualified && c.limitations != [] && c.conflicts == [] && 0.0 <= c.confidence <= 1.0
    requires size(PacketOf(c, b, Stage([], [], [], [], map[]))) <= b.renderedBytes
    ensures Bounded(Emptied(c), b, size).Ok?
    ensures var p := Bounded(Emptied(c), b, size).value;
            p.version == c.version && p.qualified == c.qualified && StateOf(c, p).Limited? && !RequiresHumanReview(p)
  {
    EmptiedSelects(c, b);
  }
}
