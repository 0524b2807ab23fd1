/** Signed read-before-write receipts: what a proposal may rely on was issued for a whole, qualified packet. */
module EvidenceReceipts {
  import opened Wrappers
  import opened ContextPacket
  import opened PacketLaws

  datatype Principal = Principal(groups: set<string>, users: set<string>)

  datatype Snapshot = Snapshot(id: string, sourceKind: string, revision: string, locator: string)

  /** The signed content; a digest is the value it digests, so equal digests mean equal values. */
  datatype Body = Body(
    tenant: string, product: string, scope: string, correlation: string, principal: Principal, version: string,
    packet: Packet, qualified: bool, complete: bool, evidence: map<string, Snapshot>, issuedAt: int, expiresAt: int)

  datatype ReceiptId = IdOf(body: Body) | OtherId(text: string)

  datatype Signature = Signed(secret: string, id: ReceiptId, body: Body) | OtherText(text: string)

  datatype Receipt = Receipt(id: ReceiptId, body: Body, signature: Signature)

  datatype ReceiptError =
    | NotTheContext | NotTheProjection | InvalidTtl | NoRetainedEvidence | ConflictsWithHistory
    | NotFound | BoundElsewhere | InvalidSignature | NotCurrent | UnqualifiedContext | IncompletePacket | NoEvidence

  /** The scope a receipt is bound to. */
  datatype Binding = Binding(tenant: string, product: string, scope: string, correlation: string, principal: Principal)

  const MAXIMUM_TTL := 900

  function SnapshotOf(r: Reference): Snapshot {
    Snapshot(r.id, r.sourceKind, r.revision, r.locator)
  }

  function BodyOf(at: Binding, c: Context, p: Packet, now: int, ttl: int): Body {
    Body(at.tenant, at.product, at.scope, at.correlation, at.principal, c.version, p, c.qualified, p.omissions == map[],
         map id | id in p.evidence :: SnapshotOf(p.evidence[id]), now, now + ttl)
  }

  function ReceiptOf(secret: string, body: Body): Receipt {
    Receipt(IdOf(body), body, Signed(secret, IdOf(body), body))
  }

  /** Why a receipt cannot be issued for this packet of this context, if anything. */
  function IssueObjection(c: Context, p: Packet, size: Rendering, ttl: int, longest: int): Option<ReceiptError> {
    if p.version != c.version || p.qualified != c.qualified then Some(NotTheContext)
    else if Bounded(c, p.budget, size) != Ok(p) then Some(NotTheProjection)
    else if !(0 < ttl <= longest) then Some(InvalidTtl)
    else if c.qualified && p.evidence == map[] then Some(NoRetainedEvidence)
    else None
  }

  predicate BoundTo(body: Body, at: Binding, version: string, packet: Packet) {
    && body.tenant == at.tenant && body.product == at.product && body.scope == at.scope
    && body.correlation == at.correlation && body.principal == at.principal
    && body.version == version && body.packet == packet
  }

  /** Why a stored receipt does not support a proposal, if anything. */
  function Objection(secret: string, r: Receipt, at: Binding, version: string, packet: Packet, now: int): Option<ReceiptError> {
    if !BoundTo(r.body, at, version, packet) then Some(BoundElsewhere)
    else if r.signature != Signed(secret, r.id, r.body) then Some(InvalidSignature)
    else if now < r.body.issuedAt || now >= r.body.expiresAt then Some(NotCurrent)
    else if !r.body.qualified then Some(UnqualifiedContext)
    else if !r.body.complete then Some(IncompletePacket)
    else if r.body.evidence == map[] then Some(NoEvidence)
    else None
  }

  /** The receipt table: append-only, an exact replay is accepted, anything else under a used id is refused. */
  class SqliteEvidenceReadReceiptStore {
    var rows: map<ReceiptId, Receipt>

    constructor ()
      ensures rows == map[]
    {
      rows := map[];
    }

    method Record(r: Receipt) returns (stored: Result<bool, ReceiptError>)
      modifies this
      ensures stored.Err? <==> r.id in old(rows) && old(rows)[r.id] != r
      ensures stored.Ok? ==> (stored.value <==> r.id !in old(rows)) && rows == old(rows)[r.id := r]
      ensures stored.Err? ==> rows == old(rows)
      ensures forall id :: id in old(rows) ==> id in rows && rows[id] == old(rows)[id]
    {
      if r.id in rows { return if rows[r.id] != r then Err(ConflictsWithHistory) else Ok(false); }
      rows := rows[r.id := r];
      stored := Ok(true);
    }

    method Get(id: ReceiptId) returns (r: Option<Receipt>)
      ensures r == if id in rows then Some(rows[id]) else None
    {
      r := if id in rows then Some(rows[id]) else None;
    }
  }

  class EvidenceReadReceiptAuthority {
    const secret: string
    const longest: int
    const store: SqliteEvidenceReadReceiptStore

    constructor (secret: string, store: SqliteEvidenceReadReceiptStore, longest: int)
      requires |secret| >= 32 && 0 < longest <= MAXIMUM_TTL
      ensures this.secret == secret && this.store == store && this.longest == longest
    {
      this.secret, this.store, this.longest := secret, store, longest;
    }

    /** Persist one receipt for an exact read, whole or not; the packet is rebuilt and compared first. */
    method Issue(at: Binding, c: Context, p: Packet, size: Rendering, now: int, ttl: int) returns (r: Result<Receipt, ReceiptError>)
      modifies store
      ensures var receipt := ReceiptOf(secret, BodyOf(at, c, p, now, ttl));
              var clash := receipt.id in old(store.rows) && old(store.rows)[receipt.id] != receipt;
              && (r.Ok? <==> IssueObjection(c, p, size, ttl, longest).None? && !clash)
              && (r.Ok? ==> r.value == receipt)
              && store.rows == if r.Ok? then old(store.rows)[receipt.id := receipt] else old(store.rows)
      ensures r.Ok? ==> Reports(r.value, at, c, p, now, ttl)
      ensures forall issued :: store.rows == Apply(secret, size, longest, Ledger(old(store.rows), issued), Action.Issue(Read(at, c, p, now, ttl))).rows
    {
      if p.version != c.version || p.qualified != c.qualified { return Err(NotTheContext); }
      var expected := BoundedPacket(c, p.budget, size);
      if expected != Ok(p) { return Err(NotTheProjection); }
      if !(0 < ttl <= longest) { return Err(InvalidTtl); }
      if c.qualified && p.evidence == map[] { return Err(NoRetainedEvidence); }
      var receipt := ReceiptOf(secret, BodyOf(at, c, p, now, ttl));
      var stored := store.Record(receipt);
      ReceiptReports(secret, at, c, p, now, ttl);
      r := if stored.Err? then Err(stored.error) else Ok(receipt);
    }

    method RequireForProposal(id: ReceiptId, at: Binding, version: string, packet: Packet, now: int)
      returns (r: Result<Receipt, ReceiptError>)
      ensures r.Ok? <==> id in store.rows && Objection(secret, store.rows[id], at, version, packet, now).None?
      ensures r.Ok? <==> id in store.rows && Supports(secret, store.rows[id], at, version, packet, now)
      ensures r.Ok? ==> r.value == store.rows[id]
      ensures r.Err? ==> if id !in store.rows then r.error == NotFound
                         else Objection(secret, store.rows[id], at, version, packet, now) == Some(r.error)
    {
      var found := store.Get(id);
      if found.None? { return Err(NotFound); }
      SupportedIffNoObjection(secret, found.value, at, version, packet, now);
      var objection := Objection(secret, found.value, at, version, packet, now);
      r := if objection.Some? then Err(objection.value) else Ok(found.value);
    }
  }

  /** The receipt tells who read what, when, and every reference of the packet as it was shown. */
  ghost predicate Reports(r: Receipt, at: Binding, c: Context, p: Packet, now: int, ttl: int) {
    var b := r.body;
    && b.tenant == at.tenant && b.product == at.product && b.scope == at.scope && b.correlation == at.correlation
    && b.principal.groups == at.principal.groups && b.principal.users == at.principal.users
    && b.version == c.version && b.packet == p && b.issuedAt == now && b.expiresAt == now + ttl
    && (b.qualified <==> c.qualified) && (b.complete <==> p.omissions == map[])
    && (forall id :: id in b.evidence <==> id in p.evidence)
    && (forall id :: id in p.evidence ==>
          && b.evidence[id].id == p.evidence[id].id && b.evidence[id].sourceKind == p.evidence[id].sourceKind
          && b.evidence[id].revision == p.evidence[id].revision && b.evidence[id].locator == p.evidence[id].locator)
  }

  lemma ReceiptReports(secret: string, at: Binding, c: Context, p: Packet, now: int, ttl: int)
    ensures Reports(ReceiptOf(secret, BodyOf(at, c, p, now, ttl)), at, c, p, now, ttl)
  {
  }

  /** What a proposal needs of a receipt: its own scope, principal and packet, an intact signature, the time, and a
      complete qualified read that kept some evidence. */
  ghost predicate Supports(secret: string, r: Receipt, at: Binding, version: string, packet: Packet, now: int) {
    var b := r.body;
    && b.tenant == at.tenant && b.product == at.product && b.scope == at.scope && b.correlation == at.correlation
    && b.principal == at.principal && b.version == version && b.packet == packet
    && r.signature == Signed(secret, r.id, b)
    && b.issuedAt <= now && now < b.expiresAt
    && b.qualified && b.complete && exists id :: id in b.evidence
  }

  lemma SupportedIffNoObjection(secret: string, r: Receipt, at: Binding, version: string, packet: Packet, now: int)
    ensures Objection(secret, r, at, version, packet, now).None? <==> Supports(secret, r, at, version, packet, now)
    ensures var o := Objection(secret, r, at, version, packet, now);
            && (o == Some(NotCurrent) ==> now < r.body.issuedAt || r.body.expiresAt <= now)
            && (o == Some(UnqualifiedContext) ==> !r.body.qualified) && (o == Some(IncompletePacket) ==> !r.body.complete)
            && (o == Some(InvalidSignature) ==> r.signature != Signed(secret, r.id, r.body))
  {
    assert r.body.evidence != map[] <==> exists id :: id in r.body.evidence;
  }

  /** A receipt issued for a read supports a proposal by its own reader at exactly the instants of its lifetime, if
      the read was qualified, whole and kept evidence, and at none if it was not. */
  lemma IssuedSupportsWhileCurrent(secret: string, at: Binding, c: Context, p: Packet, size: Rendering, now: int, ttl: int,
                                   longest: int, t: int)
    requires IssueObjection(c, p, size, ttl, longest).None?
    ensures var r := ReceiptOf(secret, BodyOf(at, c, p, now, ttl));
            Supports(secret, r, at, c.version, p, t)
            <==> c.qualified && p.omissions == map[] && p.evidence != map[] && now <= t < now + ttl
  {
    ReceiptReports(secret, at, c, p, now, ttl);
    if p.evidence != map[] {
      var id :| id in p.evidence;
      assert id in ReceiptOf(secret, BodyOf(at, c, p, now, ttl)).body.evidence;
    }
  }

  /** A read is issued a receipt exactly when its packet is what the context projects to, and its lifetime is allowed. */
  lemma IssuedExactlyFor(c: Context, p: Packet, size: Rendering, ttl: int, longest: int)
    ensures IssueObjection(c, p, size, ttl, longest).None? <==>
              && Bounded(c, p.budget, size) == Ok(p) && 0 < ttl && ttl <= longest
              && (c.qualified ==> exists id :: id in p.evidence)
  {
    if Bounded(c, p.budget, size).Ok? { var k := BuiltAtAStage(c, p.budget, size); }
    hide Bounded;
    assert p.evidence != map[] <==> exists id :: id in p.evidence;
  }

  /** What was read when a receipt was issued. */
  datatype Read = Read(at: Binding, context: Context, packet: Packet, now: int, ttl: int)

  /** The table, with the reads receipts were issued for. */
  datatype Ledger = Ledger(rows: map<ReceiptId, Receipt>, issued: seq<Read>)

  datatype Action =
    | Issue(read: Read)
    | Rewrite(id: ReceiptId, row: Receipt)

  predicate SignedFor(secret: string, size: Rendering, s: Signature, read: Read) {
    s == Signed(secret, IdOf(BodyOf(read.at, read.context, read.packet, read.now, read.ttl)),
                BodyOf(read.at, read.context, read.packet, read.now, read.ttl))
  }

  /** Rows may be altered in storage, but a signature under the secret can only be copied from an issued receipt. */
  predicate Possible(secret: string, size: Rendering, l: Ledger, a: Action) {
    a.Rewrite? && a.row.signature.Signed? && a.row.signature.secret == secret ==>
      exists i :: 0 <= i < |l.issued| && SignedFor(secret, size, a.row.signature, l.issued[i])
  }

  function Apply(secret: string, size: Rendering, longest: int, l: Ledger, a: Action): Ledger {
    match a
    case Rewrite(id, row) => l.(rows := l.rows[id := row])
    case Issue(read) =>
      var r := ReceiptOf(secret, BodyOf(read.at, read.context, read.packet, read.now, read.ttl));
      if IssueObjection(read.context, read.packet, size, read.ttl, longest).Some? || (r.id in l.rows && l.rows[r.id] != r) then l
      else Ledger(l.rows[r.id := r], l.issued + [read])
  }

  ghost predicate Run(secret: string, size: Rendering, longest: int, ls: seq<Ledger>, actions: seq<Action>) {
    && |ls| == |actions| + 1 && ls[0] == Ledger(map[], [])
    && forall i :: 0 <= i < |actions| ==>
         Possible(secret, size, ls[i], actions[i]) && ls[i + 1] == Apply(secret, size, longest, ls[i], actions[i])
  }

  /** Every signature in the table under the secret was made for a read that could be issued. */
  ghost predicate Honest(secret: string, size: Rendering, longest: int, l: Ledger) {
    && (forall i :: 0 <= i < |l.issued| ==>
          IssueObjection(l.issued[i].context, l.issued[i].packet, size, l.issued[i].ttl, longest).None?)
    && (forall id :: id in l.rows && l.rows[id].signature.Signed? && l.rows[id].signature.secret == secret ==>
          exists i :: 0 <= i < |l.issued| && SignedFor(secret, size, l.rows[id].signature, l.issued[i]))
  }

  lemma ApplyKeepsHonest(secret: string, size: Rendering, longest: int, l: Ledger, a: Action)
    requires Honest(secret, size, longest, l) && Possible(secret, size, l, a)
    ensures Honest(secret, size, longest, Apply(secret, size, longest, l, a))
  {
    var l' := Apply(secret, size, longest, l, a);
    forall id | id in l'.rows && l'.rows[id].signature.Signed? && l'.rows[id].signature.secret == secret
      ensures exists i :: 0 <= i < |l'.issued| && SignedFor(secret, size, l'.rows[id].signature, l'.issued[i])
    {
      if id in l.rows && l.rows[id] == l'.rows[id] {
        var i :| 0 <= i < |l.issued| && SignedFor(secret, size, l.rows[id].signature, l.issued[i]);
        assert l'.issued[i] == l.issued[i];
      } else if a.Rewrite? {
        var i :| 0 <= i < |l.issued| && SignedFor(secret, size, a.row.signature, l.issued[i]);
        assert l'.issued[i] == l.issued[i];
      } else {
        assert l'.issued[|l.issued|] == a.read;
      }
    }
  }

  lemma NothingIsHonest(secret: string, size: Rendering, longest: int)
    ensures Honest(secret, size, longest, Ledger(map[], []))
  {
  }

  lemma {:induction false} RunsStayHonest(secret: string, size: Rendering, longest: int, ls: seq<Ledger>, actions: seq<Action>, i: nat)
    requires Run(secret, size, longest, ls, actions) && i < |ls|
    ensures Honest(secret, size, longest, ls[i])
  {
    hide Honest, Possible, Apply;
    if i == 0 {
      NothingIsHonest(secret, size, longest);
    } else {
      RunsStayHonest(secret, size, longest, ls, actions, i - 1);
      ApplyKeepsHonest(secret, size, longest, ls[i - 1], actions[i - 1]);
    }
  }

  /** A receipt a proposal may rely on was issued, to this scope and principal, for a whole and qualified packet. */
  lemma AcceptedWasIssuedForAWholePacket(
      secret: string, size: Rendering, longest: int, ls: seq<Ledger>, actions: seq<Action>, i: nat,
      id: ReceiptId, at: Binding, version: string, packet: Packet, now: int)
    returns (read: Read)
    requires Run(secret, size, longest, ls, actions) && i < |ls|
    requires id in ls[i].rows && Supports(secret, ls[i].rows[id], at, version, packet, now)
    ensures read in ls[i].issued && read.at == at && read.packet == packet && read.context.version == version
    ensures read.now <= now < read.now + read.ttl && read.ttl <= longest
    ensures read.context.qualified && Bounded(read.context, packet.budget, size) == Ok(packet)
    ensures packet == Whole(read.context, packet.budget) && packet.evidence != map[]
    ensures forall e :: e in Cited(read.context.relationships) + read.context.references ==> e.id in packet.evidence
  {
    SupportedIffNoObjection(secret, ls[i].rows[id], at, version, packet, now);
    hide Run, Bounded, Whole, Cited;
    RunsStayHonest(secret, size, longest, ls, actions, i);
    var l := ls[i];
    var k :| 0 <= k < |l.issued| && SignedFor(secret, size, l.rows[id].signature, l.issued[k]);
    read := l.issued[k];
    assert l.rows[id].body == BodyOf(read.at, read.context, read.packet, read.now, read.ttl);
    CompletePacketIsLossless(read.context, packet.budget, size);
  }
}
