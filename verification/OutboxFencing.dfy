/** What every run of the outbox keeps: no delivery is lost, leases fence each other, one acknowledgement wins. */
module OutboxFencing {
  import opened Wrappers
  import opened ArtifactOutbox

  predicate UsedToken(log: seq<Event>, token: nat) {
    exists i :: 0 <= i < |log| && log[i].Claimed? && log[i].token == token
  }

  /** The call is one the outbox can see: well-formed artifacts, fresh tokens, and the true next delivery. */
  ghost predicate Legal(o: Outbox, c: Call) {
    match c
    case Record(a, _) => WellFormed(a)
    case ClaimNext(chosen, now, duration, only, token) =>
      && !UsedToken(o.log, token)
      && (chosen.Some? ==> IsNext(o, chosen.value, now, only))
      && (chosen.None? ==> forall k :: !Candidate(o, k, now, only))
    case _ => true
  }

  const EMPTY := Outbox(map[], map[], [])

  ghost predicate Run(os: seq<Outbox>, calls: seq<Call>) {
    && |os| == |calls| + 1 && os[0] == EMPTY
    && forall i :: 0 <= i < |calls| ==> Legal(os[i], calls[i]) && os[i + 1] == Apply(os[i], calls[i])
  }

  function EventsOf(log: seq<Event>, k: Key): seq<Event> {
    if log == [] then []
    else
      var n := |log| - 1;
      EventsOf(log[..n], k) + if log[n].key == k then [log[n]] else []
  }

  /** The life of one delivery, as its own events tell it. */
  datatype Phase =
    | Absent
    | Waiting
    | Held(token: nat, expires: int)
    | Done

  function Next(p: Phase, e: Event): Option<Phase> {
    match (p, e)
    case (Absent, Recorded(_)) => Some(Waiting)
    case (Waiting, Claimed(_, token, at, expires)) => if at < expires then Some(Held(token, expires)) else None
    case (Held(_, until), Claimed(_, token, at, expires)) =>
      if until <= at < expires then Some(Held(token, expires)) else None
    case (Held(holder, _), Acknowledged(_, token)) => if token == holder then Some(Done) else None
    case (Held(holder, _), Retried(_, token)) => if token == holder then Some(Waiting) else None
    case _ => None
  }

  /** The phase a sequence of events leads to; None if it is not a possible life of a delivery. */
  function Replay(events: seq<Event>): Option<Phase> {
    if events == [] then Some(Absent)
    else
      match Replay(events[..|events| - 1])
      case None => None
      case Some(p) => Next(p, events[|events| - 1])
  }

  function Claims(events: seq<Event>): nat {
    if events == [] then 0 else Claims(events[..|events| - 1]) + if events[|events| - 1].Claimed? then 1 else 0
  }

  function PhaseOf(o: Outbox, k: Key): Option<Phase> {
    if k !in o.deliveries then Some(Absent)
    else
      var d := o.deliveries[k];
      match d.state
      case Pending => Some(Waiting)
      case Leased => if d.leaseToken.Some? && d.leaseExpiresAt.Some? then Some(Held(d.leaseToken.value, d.leaseExpiresAt.value)) else None
      case Delivered => Some(Done)
  }

  /** The row of a delivery is what its events replay to, and counts its claims. */
  ghost predicate Faithful(o: Outbox, k: Key) {
    var events := EventsOf(o.log, k);
    && Replay(events).Some? && Replay(events) == PhaseOf(o, k)
    && Claims(events) == if k in o.deliveries then o.deliveries[k].attempts else 0
  }

  ghost predicate Invariant(o: Outbox) {
    && (forall k :: Faithful(o, k))
    && (forall k :: k in o.deliveries ==> k.artifact in o.artifacts)
  }

  lemma EventsOfAppend(log: seq<Event>, e: Event, k: Key)
    ensures EventsOf(log + [e], k) == EventsOf(log, k) + if e.key == k then [e] else []
  {
    assert (log + [e])[..|log|] == log;
  }

  /** Logging one event and moving its delivery accordingly keeps every row faithful. */
  lemma LogKeepsFaithful(o: Outbox, o': Outbox, e: Event, j: Key)
    requires Faithful(o, j) && o'.log == o.log + [e]
    requires j != e.key ==> (j in o.deliveries <==> j in o'.deliveries) && (j in o.deliveries ==> o.deliveries[j] == o'.deliveries[j])
    requires j == e.key ==>
               && PhaseOf(o', j).Some? && Next(PhaseOf(o, j).value, e) == PhaseOf(o', j)
               && (if j in o'.deliveries then o'.deliveries[j].attempts else 0)
                  == (if j in o.deliveries then o.deliveries[j].attempts else 0) + if e.Claimed? then 1 else 0
    ensures Faithful(o', j)
  {
    EventsOfAppend(o.log, e, j);
    var events := EventsOf(o.log, j);
    if j == e.key {
      assert (events + [e])[..|events|] == events;
      assert EventsOf(o'.log, j) == events + [e];
    } else {
      assert EventsOf(o'.log, j) == events;
    }
  }

  lemma {:induction false} InsertedRows(o: Outbox, a: Artifact, n: nat, now: int)
    requires n <= |a.deliveries|
    requires forall k :: k in o.deliveries ==> k.artifact != a.id
    ensures var o' := Inserted(o, a, n, now);
            && o'.artifacts == o.artifacts
            && (forall k :: k in o.deliveries ==> k in o'.deliveries && o'.deliveries[k] == o.deliveries[k])
            && (forall k :: k in o'.deliveries && k !in o.deliveries ==> exists i :: 0 <= i < n && k == Key(a.id, a.deliveries[i].key))
  {
    if n > 0 {
      InsertedRows(o, a, n - 1, now);
      var before, k := Inserted(o, a, n - 1, now), Key(a.id, a.deliveries[n - 1].key);
      forall l | l in Inserted(o, a, n, now).deliveries && l !in o.deliveries
        ensures exists i :: 0 <= i < n && l == Key(a.id, a.deliveries[i].key)
      {
        if l in before.deliveries {
          var i :| 0 <= i < n - 1 && l == Key(a.id, a.deliveries[i].key);
        } else {
          assert l == Key(a.id, a.deliveries[n - 1].key);
        }
      }
    }
  }

  lemma {:induction false} InsertKeepsFaithful(o: Outbox, a: Artifact, n: nat, now: int, j: Key)
    requires n <= |a.deliveries| && WellFormed(a)
    requires forall k :: Faithful(o, k)
    requires forall k :: k in o.deliveries ==> k.artifact != a.id
    ensures Faithful(Inserted(o, a, n, now), j)
  {
    hide Faithful, EventsOf, Replay, Claims;
    if n > 0 {
      InsertKeepsFaithful(o, a, n - 1, now, j);
      InsertedRows(o, a, n - 1, now);
      var before, o', k := Inserted(o, a, n - 1, now), Inserted(o, a, n, now), Key(a.id, a.deliveries[n - 1].key);
      assert k !in before.deliveries;
      LogKeepsFaithful(before, o', Recorded(k), j);
    }
  }

  lemma CallKeepsInvariant(o: Outbox, c: Call)
    requires Invariant(o) && Legal(o, c)
    ensures Invariant(Apply(o, c))
  {
    var o' := Apply(o, c);
    if o' != o {
      forall j ensures Faithful(o', j) && (j in o'.deliveries ==> j.artifact in o'.artifacts) {
        assert Faithful(o, j);
        match c
        case Record(a, now) =>
          var base := o.(artifacts := o.artifacts[a.id := a]);
          forall k ensures Faithful(base, k) { assert Faithful(o, k); }
          InsertKeepsFaithful(base, a, |a.deliveries|, now, j);
          InsertedRows(base, a, |a.deliveries|, now);
        case ClaimNext(chosen, now, duration, only, token) =>
          assert Faithful(o, chosen.value);
          LogKeepsFaithful(o, o', Claimed(chosen.value, token, now, now + duration), j);
        case AcknowledgeLease(k, token, at) =>
          assert Faithful(o, k);
          LogKeepsFaithful(o, o', Acknowledged(k, token), j);
        case RetryLease(k, token, error, at) =>
          assert Faithful(o, k);
          LogKeepsFaithful(o, o', Retried(k, token), j);
      }
    }
  }

  /** Over every run each delivery is in the state its own events replay to, with one attempt a claim. */
  lemma {:induction false} EveryRunIsFaithful(os: seq<Outbox>, calls: seq<Call>, i: nat)
    requires Run(os, calls) && i < |os|
    ensures Invariant(os[i])
  {
    if i > 0 {
      EveryRunIsFaithful(os, calls, i - 1);
      CallKeepsInvariant(os[i - 1], calls[i - 1]);
    }
  }

  lemma CallLosesNothing(o: Outbox, c: Call, k: Key)
    requires Invariant(o) && Legal(o, c) && k in o.deliveries
    ensures k in Apply(o, c).deliveries && Apply(o, c).deliveries[k].intent == o.deliveries[k].intent
    ensures o.deliveries[k].state.Delivered? ==> Apply(o, c).deliveries[k] == o.deliveries[k]
    ensures o.log <= Apply(o, c).log
  {
    if c.Record? && Recordable(o, c.artifact) {
      var base := o.(artifacts := o.artifacts[c.artifact.id := c.artifact]);
      InsertedRows(base, c.artifact, |c.artifact.deliveries|, c.now);
      InsertClaimsNothing(base, c.artifact, |c.artifact.deliveries|, c.now);
    }
    if c.ClaimNext? && c.chosen == Some(k) { assert Candidate(o, k, c.now, c.only); }
  }

  /** No recorded delivery is ever lost or changed in content, and a delivered one stays as it is. */
  lemma {:induction false} NoDeliveryIsLost(os: seq<Outbox>, calls: seq<Call>, i: nat, j: nat, k: Key)
    requires Run(os, calls) && i <= j < |os| && k in os[i].deliveries
    ensures k in os[j].deliveries && os[j].deliveries[k].intent == os[i].deliveries[k].intent
    ensures os[i].deliveries[k].state.Delivered? ==> os[j].deliveries[k] == os[i].deliveries[k]
    decreases j - i
  {
    if i < j {
      NoDeliveryIsLost(os, calls, i, j - 1, k);
      EveryRunIsFaithful(os, calls, j - 1);
      CallLosesNothing(os[j - 1], calls[j - 1], k);
    }
  }

  /** A lease can acknowledge or retry exactly when it is the delivery's latest event. */
  lemma OnlyTheLatestUnspentLeaseHolds(os: seq<Outbox>, calls: seq<Call>, i: nat, k: Key, token: nat)
    requires Run(os, calls) && i < |os|
    ensures var events := EventsOf(os[i].log, k);
            HoldsLease(os[i], k, token) <==>
              events != [] && events[|events| - 1].Claimed? && events[|events| - 1].token == token
  {
    EveryRunIsFaithful(os, calls, i);
    assert Faithful(os[i], k);
  }

  /** No two claims were made under one token. */
  ghost predicate DistinctTokens(log: seq<Event>) {
    forall i, j :: 0 <= i < j < |log| && log[i].Claimed? && log[j].Claimed? ==> log[i].token != log[j].token
  }

  lemma {:induction false} InsertClaimsNothing(o: Outbox, a: Artifact, n: nat, now: int)
    requires n <= |a.deliveries|
    ensures o.log <= Inserted(o, a, n, now).log
    ensures forall i :: |o.log| <= i < |Inserted(o, a, n, now).log| ==> !Inserted(o, a, n, now).log[i].Claimed?
  {
    if n > 0 { InsertClaimsNothing(o, a, n - 1, now); }
  }

  /** The log only grows, and a claim is only ever logged under a token no claim before it used. */
  lemma CallKeepsTokensDistinct(o: Outbox, c: Call)
    requires DistinctTokens(o.log) && Legal(o, c)
    ensures o.log <= Apply(o, c).log && DistinctTokens(Apply(o, c).log)
  {
    if c.Record? && Recordable(o, c.artifact) {
      InsertClaimsNothing(o.(artifacts := o.artifacts[c.artifact.id := c.artifact]), c.artifact, |c.artifact.deliveries|, c.now);
    }
    if c.ClaimNext? {
      forall i | 0 <= i < |o.log| && o.log[i].Claimed? ensures o.log[i].token != c.token {
        assert !UsedToken(o.log, c.token);
      }
    }
  }

  lemma {:induction false} TokensAreDistinct(os: seq<Outbox>, calls: seq<Call>, i: nat, j: nat)
    requires Run(os, calls) && i <= j < |os|
    ensures DistinctTokens(os[j].log) && os[i].log <= os[j].log
    decreases j
  {
    if i < j {
      TokensAreDistinct(os, calls, i, j - 1);
      CallKeepsTokensDistinct(os[j - 1], calls[j - 1]);
    } else if j > 0 {
      TokensAreDistinct(os, calls, j - 1, j - 1);
      CallKeepsTokensDistinct(os[j - 1], calls[j - 1]);
    }
  }

  lemma {:induction false} EventsAreLogged(log: seq<Event>, k: Key)
    requires DistinctTokens(log)
    ensures DistinctTokens(EventsOf(log, k)) && forall e :: e in EventsOf(log, k) ==> e in log
  {
    if log != [] {
      var n := |log| - 1;
      EventsAreLogged(log[..n], k);
      var events := EventsOf(log[..n], k);
      forall i | 0 <= i < |events| && events[i].Claimed? && log[n].Claimed? ensures events[i].token != log[n].token {
        assert events[i] in log[..n];
      }
    }
  }

  lemma {:induction false} EventsOfPrefix(log: seq<Event>, more: seq<Event>, k: Key)
    requires log <= more
    ensures EventsOf(log, k) <= EventsOf(more, k)
    decreases |more|
  {
    if |log| < |more| {
      EventsOfPrefix(log, more[..|more| - 1], k);
    } else {
      assert log == more;
    }
  }

  /** Once anything else has happened to a delivery, a lease of it can neither acknowledge nor retry, then or ever after. */
  lemma SupersededLeaseIsFenced(os: seq<Outbox>, calls: seq<Call>, i: nat, j: nat, k: Key, n: nat)
    requires Run(os, calls) && i <= j < |os|
    requires n + 1 < |EventsOf(os[i].log, k)| && EventsOf(os[i].log, k)[n].Claimed?
    ensures !HoldsLease(os[j], k, EventsOf(os[i].log, k)[n].token)
  {
    var events, token := EventsOf(os[j].log, k), EventsOf(os[i].log, k)[n].token;
    TokensAreDistinct(os, calls, i, j);
    EventsOfPrefix(os[i].log, os[j].log, k);
    EventsAreLogged(os[j].log, k);
    OnlyTheLatestUnspentLeaseHolds(os, calls, j, k, token);
    assert events[n] == EventsOf(os[i].log, k)[n];
  }

  lemma {:induction false} ReplayPrefix(events: seq<Event>, n: nat)
    requires n <= |events| && Replay(events).Some?
    ensures Replay(events[..n]).Some?
    decreases |events|
  {
    if n < |events| {
      ReplayPrefix(events[..|events| - 1], n);
      assert events[..|events| - 1][..n] == events[..n];
    } else {
      assert events[..n] == events;
    }
  }

  lemma ReplayStep(events: seq<Event>, i: nat)
    requires i < |events| && Replay(events).Some?
    ensures Replay(events[..i]).Some? && Replay(events[..i + 1]) == Next(Replay(events[..i]).value, events[i])
    ensures Replay(events[..i + 1]).Some?
  {
    ReplayPrefix(events, i);
    ReplayPrefix(events, i + 1);
    assert events[..i + 1][..i] == events[..i];
  }

  /** At most one acknowledgement of a delivery ever succeeds, and nothing follows it. */
  lemma AcknowledgedLast(os: seq<Outbox>, calls: seq<Call>, i: nat, k: Key, n: nat)
    requires Run(os, calls) && i < |os|
    requires n < |EventsOf(os[i].log, k)| && EventsOf(os[i].log, k)[n].Acknowledged?
    ensures n == |EventsOf(os[i].log, k)| - 1
  {
    var events := EventsOf(os[i].log, k);
    EveryRunIsFaithful(os, calls, i);
    assert Faithful(os[i], k);
    ReplayStep(events, n);
    if n + 1 < |events| { ReplayStep(events, n + 1); }
  }

  /** Successive leases of a delivery that were not given back cover disjoint intervals of time. */
  lemma {:induction false} LeasesDoNotOverlap(events: seq<Event>, i: nat, j: nat)
    requires Replay(events).Some? && i < j < |events| && events[i].Claimed? && events[j].Claimed?
    requires forall n :: i < n < j ==> !events[n].Retried?
    ensures events[i].expires <= events[j].at < events[j].expires
    decreases j - i
  {
    ReplayStep(events, i);
    ReplayStep(events, j);
    if i + 1 < j {
      ReplayStep(events, i + 1);
      if events[i + 1].Claimed? {
        LeasesDoNotOverlap(events, i + 1, j);
      } else {
        ReplayStep(events, i + 2);
      }
    }
  }

  lemma UnrelinquishedLeasesAreDisjoint(os: seq<Outbox>, calls: seq<Call>, n: nat, k: Key, i: nat, j: nat)
    requires Run(os, calls) && n < |os|
    requires var events := EventsOf(os[n].log, k);
             && i < j < |events| && events[i].Claimed? && events[j].Claimed?
             && forall m :: i < m < j ==> !events[m].Retried?
    ensures var events := EventsOf(os[n].log, k);
            events[i].expires <= events[j].at < events[j].expires
  {
    EveryRunIsFaithful(os, calls, n);
    assert Faithful(os[n], k);
    LeasesDoNotOverlap(EventsOf(os[n].log, k), i, j);
  }

  /** No two deliveries go out under one idempotency key. */
  ghost predicate KeysAreUnique(o: Outbox) {
    forall k, l :: k in o.deliveries && l in o.deliveries && k != l ==>
      o.deliveries[k].intent.idempotencyKey != o.deliveries[l].intent.idempotencyKey
  }

  lemma {:induction false} InsertedIntents(o: Outbox, a: Artifact, n: nat, now: int, k: Key)
    requires n <= |a.deliveries| && forall l :: l in o.deliveries ==> l.artifact != a.id
    requires WellFormed(a) && k in Inserted(o, a, n, now).deliveries && k !in o.deliveries
    ensures exists i :: 0 <= i < n && k == Key(a.id, a.deliveries[i].key) && Inserted(o, a, n, now).deliveries[k] == NewDelivery(a.deliveries[i], now)
  {
    if n > 0 {
      var last := Key(a.id, a.deliveries[n - 1].key);
      if k == last {
        assert Inserted(o, a, n, now).deliveries[k] == NewDelivery(a.deliveries[n - 1], now);
      } else {
        InsertedIntents(o, a, n - 1, now, k);
        var i :| 0 <= i < n - 1 && k == Key(a.id, a.deliveries[i].key)
                 && Inserted(o, a, n - 1, now).deliveries[k] == NewDelivery(a.deliveries[i], now);
      }
    }
  }

  lemma RecordKeepsKeysUnique(o: Outbox, a: Artifact, now: int)
    requires KeysAreUnique(o) && Recordable(o, a) && WellFormed(a) && forall k :: k in o.deliveries ==> k.artifact in o.artifacts
    ensures KeysAreUnique(Stored(o, a, now))
  {
    var base, n := o.(artifacts := o.artifacts[a.id := a]), |a.deliveries|;
    var o' := Stored(o, a, now);
    InsertedRows(base, a, n, now);
    forall k, l | k in o'.deliveries && l in o'.deliveries && k != l && k !in o.deliveries
      ensures o'.deliveries[k].intent.idempotencyKey != o'.deliveries[l].intent.idempotencyKey
    {
      InsertedIntents(base, a, n, now, k);
      var i :| 0 <= i < n && k == Key(a.id, a.deliveries[i].key) && o'.deliveries[k] == NewDelivery(a.deliveries[i], now);
      if l in o.deliveries {
        assert a.deliveries[i] in a.deliveries && !KeyTaken(o, a.deliveries[i]);
      } else {
        InsertedIntents(base, a, n, now, l);
        var j :| 0 <= j < n && l == Key(a.id, a.deliveries[j].key) && o'.deliveries[l] == NewDelivery(a.deliveries[j], now);
        assert i != j;
      }
    }
  }

  lemma CallKeepsKeysUnique(o: Outbox, c: Call)
    requires KeysAreUnique(o) && Invariant(o) && Legal(o, c)
    ensures KeysAreUnique(Apply(o, c))
  {
    if c.Record? && Recordable(o, c.artifact) { RecordKeepsKeysUnique(o, c.artifact, c.now); }
  }

  /** In every run each delivery has an idempotency key of its own, whatever artifact it belongs to. */
  lemma {:induction false} IdempotencyKeysAreUnique(os: seq<Outbox>, calls: seq<Call>, i: nat)
    requires Run(os, calls) && i < |os|
    ensures forall k, l :: k in os[i].deliveries && l in os[i].deliveries && k != l ==>
              os[i].deliveries[k].intent.idempotencyKey != os[i].deliveries[l].intent.idempotencyKey
  {
    if i > 0 {
      hide Invariant, Apply, Legal;
      IdempotencyKeysAreUnique(os, calls, i - 1);
      EveryRunIsFaithful(os, calls, i - 1);
      assert Legal(os[i - 1], calls[i - 1]) && os[i] == Apply(os[i - 1], calls[i - 1]);
      CallKeepsKeysUnique(os[i - 1], calls[i - 1]);
    }
  }
}
