/** The leased outbox: every recorded delivery is claimed, acknowledged or retried under its own lease. */
module ArtifactOutbox {
  import opened Wrappers
  import Text

  datatype Intent = Intent(key: string, channel: string, idempotencyKey: string, payload: string)

  datatype Artifact = Artifact(
    id: string, product: string, scope: string, correlation: string, contextVersion: string, deliveries: seq<Intent>)

  datatype Key = Key(artifact: string, delivery: string)

  datatype DeliveryState = Pending | Leased | Delivered

  datatype Delivery = Delivery(
    intent: Intent, state: DeliveryState, attempts: nat, availableAt: int, leaseToken: Option<nat>,
    leaseExpiresAt: Option<int>, lastError: Option<string>, deliveredAt: Option<int>)

  /** A lease as the dispatcher holds it. */
  datatype Handle = Handle(key: Key, intent: Intent, attempt: nat, token: nat, expiresAt: int)

  datatype Event =
    | Recorded(key: Key)
    | Claimed(key: Key, token: nat, at: int, expires: int)
    | Acknowledged(key: Key, token: nat)
    | Retried(key: Key, token: nat)

  /** The tables, with the log of what succeeded so far. */
  datatype Outbox = Outbox(artifacts: map<string, Artifact>, deliveries: map<Key, Delivery>, log: seq<Event>)

  const MAXIMUM_LEASE := 300

  predicate WellFormed(a: Artifact) {
    && a.deliveries != []
    && forall i, j :: 0 <= i < j < |a.deliveries| ==>
         a.deliveries[i].key != a.deliveries[j].key && a.deliveries[i].idempotencyKey != a.deliveries[j].idempotencyKey
  }

  function NewDelivery(intent: Intent, now: int): Delivery {
    Delivery(intent, Pending, 0, now, None, None, None, None)
  }

  /** The outbox with the first `n` deliveries of an artifact inserted. */
  function Inserted(o: Outbox, a: Artifact, n: nat, now: int): Outbox
    requires n <= |a.deliveries|
  {
    if n == 0 then o
    else
      var before, intent := Inserted(o, a, n - 1, now), a.deliveries[n - 1];
      var k := Key(a.id, intent.key);
      Outbox(before.artifacts, before.deliveries[k := NewDelivery(intent, now)], before.log + [Recorded(k)])
  }

  predicate KeyTaken(o: Outbox, intent: Intent) {
    exists k :: k in o.deliveries && o.deliveries[k].intent.idempotencyKey == intent.idempotencyKey
  }

  /** The artifact can be stored: its id is new and no idempotency key is in use. */
  predicate Recordable(o: Outbox, a: Artifact) {
    a.id !in o.artifacts && forall intent :: intent in a.deliveries ==> !KeyTaken(o, intent)
  }

  function Stored(o: Outbox, a: Artifact, now: int): Outbox {
    Inserted(o.(artifacts := o.artifacts[a.id := a]), a, |a.deliveries|, now)
  }

  predicate Due(d: Delivery, now: int) {
    || (d.state.Pending? && d.availableAt <= now)
    || (d.state.Leased? && d.leaseExpiresAt.Some? && d.leaseExpiresAt.value <= now)
  }

  predicate Matches(k: Key, only: Option<string>) {
    only.Some? ==> k.artifact == only.value
  }

  predicate Candidate(o: Outbox, k: Key, now: int, only: Option<string>) {
    k in o.deliveries && Due(o.deliveries[k], now) && Matches(k, only)
  }

  /** The order of the ready queue: availability, then artifact, then delivery. */
  predicate Before(o: Outbox, k: Key, l: Key)
    requires k in o.deliveries && l in o.deliveries
  {
    var a, b := o.deliveries[k].availableAt, o.deliveries[l].availableAt;
    a < b || (a == b && ((k.artifact != l.artifact && Text.AtMost(k.artifact, l.artifact))
                         || (k.artifact == l.artifact && Text.AtMost(k.delivery, l.delivery))))
  }

  ghost predicate IsNext(o: Outbox, k: Key, now: int, only: Option<string>) {
    Candidate(o, k, now, only) && forall l :: Candidate(o, l, now, only) ==> Before(o, k, l)
  }

  function Claim(o: Outbox, k: Key, now: int, duration: int, token: nat): Outbox
    requires k in o.deliveries
  {
    var d := o.deliveries[k];
    Outbox(o.artifacts,
           o.deliveries[k := d.(state := Leased, attempts := d.attempts + 1, leaseToken := Some(token),
                                leaseExpiresAt := Some(now + duration), lastError := None)],
           o.log + [Claimed(k, token, now, now + duration)])
  }

  /** The delivery is leased under exactly this token. */
  predicate HoldsLease(o: Outbox, k: Key, token: nat) {
    k in o.deliveries && o.deliveries[k].state.Leased? && o.deliveries[k].leaseToken == Some(token)
  }

  function Acknowledge(o: Outbox, k: Key, token: nat, at: int): Outbox
    requires k in o.deliveries
  {
    Outbox(o.artifacts,
           o.deliveries[k := o.deliveries[k].(state := Delivered, deliveredAt := Some(at), leaseToken := None,
                                              leaseExpiresAt := None, lastError := None)],
           o.log + [Acknowledged(k, token)])
  }

  function Retry(o: Outbox, k: Key, token: nat, error: string, at: int): Outbox
    requires k in o.deliveries
  {
    Outbox(o.artifacts,
           o.deliveries[k := o.deliveries[k].(state := Pending, availableAt := at, leaseToken := None,
                                              leaseExpiresAt := None, lastError := Some(error))],
           o.log + [Retried(k, token)])
  }

  /** A call of the outbox, with what it found: the delivery it chose, the token it drew. */
  datatype Call =
    | Record(artifact: Artifact, now: int)
    | ClaimNext(chosen: Option<Key>, now: int, duration: int, only: Option<string>, token: nat)
    | AcknowledgeLease(key: Key, token: nat, at: int)
    | RetryLease(key: Key, token: nat, error: string, at: int)

  /** What a call leaves; one that raises leaves everything as it was. */
  function Apply(o: Outbox, c: Call): Outbox {
    match c
    case Record(a, now) => if Recordable(o, a) then Stored(o, a, now) else o
    case ClaimNext(chosen, now, duration, only, token) =>
      if 0 < duration <= MAXIMUM_LEASE && chosen.Some? && chosen.value in o.deliveries
      then Claim(o, chosen.value, now, duration, token) else o
    case AcknowledgeLease(k, token, at) => if HoldsLease(o, k, token) then Acknowledge(o, k, token, at) else o
    case RetryLease(k, token, error, at) => if HoldsLease(o, k, token) then Retry(o, k, token, error, at) else o
  }

  /** The queue is ordered by availability, then by artifact, then by delivery, so that no two deliveries tie. */
  lemma BeforeDecides(o: Outbox, k: Key, l: Key)
    requires k in o.deliveries && l in o.deliveries
    ensures var a, b := o.deliveries[k].availableAt, o.deliveries[l].availableAt;
            && (a != b ==> (Before(o, k, l) <==> a < b))
            && (a == b && k.artifact != l.artifact ==> (Before(o, k, l) <==> Text.Less(k.artifact, l.artifact)))
            && (a == b && k.artifact == l.artifact && k != l ==> (Before(o, k, l) <==> Text.Less(k.delivery, l.delivery)))
    ensures Before(o, k, l) && Before(o, l, k) ==> k == l
  {
    if Text.AtMost(k.artifact, l.artifact) && Text.AtMost(l.artifact, k.artifact) { Text.Antisymmetric(k.artifact, l.artifact); }
    if Text.AtMost(k.delivery, l.delivery) && Text.AtMost(l.delivery, k.delivery) { Text.Antisymmetric(k.delivery, l.delivery); }
  }

  lemma BeforeIsTotal(o: Outbox, k: Key, l: Key)
    requires k in o.deliveries && l in o.deliveries
    ensures Before(o, k, l) || Before(o, l, k)
  {
    Text.Total(k.artifact, l.artifact);
    Text.Total(k.delivery, l.delivery);
  }

  lemma BeforeIsTransitive(o: Outbox, k: Key, l: Key, m: Key)
    requires k in o.deliveries && l in o.deliveries && m in o.deliveries && Before(o, k, l) && Before(o, l, m)
    ensures Before(o, k, m)
  {
    if k.artifact != l.artifact && l.artifact != m.artifact && Text.AtMost(k.artifact, l.artifact) && Text.AtMost(l.artifact, m.artifact) {
      Text.Transitive(k.artifact, l.artifact, m.artifact);
      if k.artifact == m.artifact { Text.Antisymmetric(k.artifact, l.artifact); }
    }
    if Text.AtMost(k.delivery, l.delivery) && Text.AtMost(l.delivery, m.delivery) {
      Text.Transitive(k.delivery, l.delivery, m.delivery);
    }
  }

  class SqliteArtifactOutbox {
    var artifacts: map<string, Artifact>
    var deliveries: map<Key, Delivery>
    ghost var log: seq<Event>

    ghost function State(): Outbox
      reads this
    {
      Outbox(artifacts, deliveries, log)
    }

    constructor ()
      ensures State() == Outbox(map[], map[], [])
    {
      artifacts, deliveries, log := map[], map[], [];
    }

    /** Persist every planned delivery with its artifact, or nothing. */
    method Record(a: Artifact, now: int) returns (stored: bool, raised: bool)
      requires WellFormed(a)
      modifies this
      ensures stored <==> Recordable(old(State()), a)
      ensures stored ==> !raised && State() == Stored(old(State()), a, now)
      ensures !stored ==> State() == old(State())
      ensures !stored && !raised <==> a.id in old(artifacts) && old(artifacts)[a.id] == a
      ensures State() == Apply(old(State()), Call.Record(a, now))
    {
      if a.id in artifacts { return false, artifacts[a.id] != a; }
      if exists k, i :: k in deliveries && 0 <= i < |a.deliveries|
                        && deliveries[k].intent.idempotencyKey == a.deliveries[i].idempotencyKey {
        ghost var k, i :| k in deliveries && 0 <= i < |a.deliveries|
                        && deliveries[k].intent.idempotencyKey == a.deliveries[i].idempotencyKey;
        assert a.deliveries[i] in a.deliveries && KeyTaken(State(), a.deliveries[i]);
        return false, true;
      }
      artifacts := artifacts[a.id := a];
      ghost var base := State();
      for i := 0 to |a.deliveries|
        invariant State() == Inserted(base, a, i, now)
      {
        var k := Key(a.id, a.deliveries[i].key);
        deliveries := deliveries[k := NewDelivery(a.deliveries[i], now)];
        log := log + [Recorded(k)];
      }
      return true, false;
    }

    /** Lease the next due delivery, recovering one whose lease has expired. */
    method ClaimNext(now: int, duration: int, only: Option<string>, token: nat) returns (h: Option<Handle>, raised: bool)
      modifies this
      ensures raised <==> !(0 < duration <= MAXIMUM_LEASE)
      ensures h.None? ==> State() == old(State())
      ensures !raised ==> (h.None? <==> forall k :: !Candidate(old(State()), k, now, only))
      ensures raised ==> h.None?
      ensures h.Some? ==>
                && IsNext(old(State()), h.value.key, now, only)
                && State() == Claim(old(State()), h.value.key, now, duration, token)
                && var d := old(deliveries)[h.value.key];
                   h.value == Handle(h.value.key, d.intent, d.attempts + 1, token, now + duration)
      ensures State() == Apply(old(State()), Call.ClaimNext(if h.Some? then Some(h.value.key) else None, now, duration, only, token))
    {
      if !(0 < duration <= MAXIMUM_LEASE) { return None, true; }
      raised := false;
      var best: Option<Key> := None;
      var todo := deliveries.Keys;
      while todo != {}
        invariant todo <= deliveries.Keys && State() == old(State())
        invariant best.None? ==> forall k :: k in deliveries.Keys - todo ==> !Candidate(State(), k, now, only)
        invariant best.Some? ==> Candidate(State(), best.value, now, only)
        invariant best.Some? ==> forall k :: k in deliveries.Keys - todo && Candidate(State(), k, now, only) ==>
                    Before(State(), best.value, k)
        decreases |todo|
      {
        var k :| k in todo;
        var d := deliveries[k];
        BeforeIsTotal(State(), k, k);
        if ((d.state.Pending? && d.availableAt <= now)
            || (d.state.Leased? && d.leaseExpiresAt.Some? && d.leaseExpiresAt.value <= now)) && (only.Some? ==> k.artifact == only.value) {
          assert Candidate(State(), k, now, only);
          if best.None? {
            best := Some(k);
          } else {
            BeforeIsTotal(State(), best.value, k);
            if !Before(Outbox(artifacts, deliveries, []), best.value, k) {
              forall l | l in deliveries.Keys - todo && Candidate(State(), l, now, only) ensures Before(State(), k, l) {
                BeforeIsTransitive(State(), k, best.value, l);
              }
              best := Some(k);
            }
          }
        }
        todo := todo - {k};
      }
      if best.None? { return None, false; }
      var k, d := best.value, deliveries[best.value];
      deliveries := deliveries[k := d.(state := Leased, attempts := d.attempts + 1, leaseToken := Some(token),
                                       leaseExpiresAt := Some(now + duration), lastError := None)];
      log := log + [Claimed(k, token, now, now + duration)];
      h := Some(Handle(k, d.intent, d.attempts + 1, token, now + duration));
    }

    /** Mark one exact lease complete. */
    method AcknowledgeLease(h: Handle, at: int) returns (raised: bool)
      modifies this
      ensures raised <==> !HoldsLease(old(State()), h.key, h.token)
      ensures State() == if raised then old(State()) else Acknowledge(old(State()), h.key, h.token, at)
      ensures State() == Apply(old(State()), Call.AcknowledgeLease(h.key, h.token, at))
    {
      if h.key !in deliveries || !deliveries[h.key].state.Leased? { return true; }
      if deliveries[h.key].leaseToken != Some(h.token) { return true; }
      deliveries := deliveries[h.key := deliveries[h.key].(state := Delivered, deliveredAt := Some(at), leaseToken := None,
                                                           leaseExpiresAt := None, lastError := None)];
      log := log + [Acknowledged(h.key, h.token)];
      raised := false;
    }

    /** Return one exact lease to the queue with its error. */
    method RetryLease(h: Handle, error: string, at: int) returns (raised: bool)
      modifies this
      ensures raised <==> !HoldsLease(old(State()), h.key, h.token)
      ensures State() == if raised then old(State()) else Retry(old(State()), h.key, h.token, error, at)
      ensures State() == Apply(old(State()), Call.RetryLease(h.key, h.token, error, at))
    {
      if h.key !in deliveries || !deliveries[h.key].state.Leased? { return true; }
      if deliveries[h.key].leaseToken != Some(h.token) { return true; }
      deliveries := deliveries[h.key := deliveries[h.key].(state := Pending, availableAt := at, leaseToken := None,
                                                           leaseExpiresAt := None, lastError := Some(error))];
      log := log + [Retried(h.key, h.token)];
      raised := false;
    }
  }
}
