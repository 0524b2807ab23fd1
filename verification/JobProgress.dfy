/** What every run of a crash-free runner achieves: bounded work, and the time a dead letter took. */
module JobProgress {
  import opened Wrappers
  import opened JobQueue
  import Text

  /** The turns a job can still take; a job that is not finished always has one. */
  function Remaining(j: Job): nat {
    if Terminal(j) then 0 else if j.maxAttempts > j.attempts + 1 then j.maxAttempts - j.attempts else 1
  }

  ghost function Total(jobs: Jobs): nat {
    if jobs == map[] then 0
    else
      var id :| id in jobs;
      Remaining(jobs[id]) + Total(jobs - {id})
  }

  /** The total does not depend on the order in which jobs are counted. */
  lemma {:induction false} TotalWithout(jobs: Jobs, id: string)
    requires id in jobs
    ensures Total(jobs) == Remaining(jobs[id]) + Total(jobs - {id})
    decreases |jobs|
  {
    var first :| first in jobs && Total(jobs) == Remaining(jobs[first]) + Total(jobs - {first});
    if first != id {
      TotalWithout(jobs - {first}, id);
      TotalWithout(jobs - {id}, first);
      assert jobs - {first} - {id} == jobs - {id} - {first};
    }
  }

  /** Every non-idle turn uses up at least one remaining turn. */
  lemma TurnUsesUp(jobs: Jobs, jobs': Jobs, now: real, lease: real, base: real)
    requires Ran(jobs, jobs', now, lease, base)
    ensures Total(jobs') < Total(jobs) && jobs'.Keys == jobs.Keys
  {
    var id, outcome :| IsNext(jobs, id, now) && jobs' == jobs[id := AfterRun(jobs[id], now, lease, base, outcome)];
    TotalWithout(jobs, id);
    TotalWithout(jobs', id);
    assert jobs' - {id} == jobs - {id};
  }

  lemma {:induction false} NothingRemains(jobs: Jobs)
    ensures Total(jobs) == 0 <==> forall id :: id in jobs ==> Terminal(jobs[id])
    decreases |jobs|
  {
    if jobs != map[] {
      var id :| id in jobs;
      TotalWithout(jobs, id);
      NothingRemains(jobs - {id});
      assert forall k :: k in jobs ==> k == id || (k in jobs - {id} && (jobs - {id})[k] == jobs[k]);
    }
  }

  /** What happens to a queue between two looks at it: a non-idle turn of the runner, or a new job. */
  datatype Move = Turn(now: real) | Add(id: string, job: Job)

  ghost predicate Moved(jobs: Jobs, jobs': Jobs, move: Move, lease: real, base: real) {
    match move
    case Turn(now) => Ran(jobs, jobs', now, lease, base)
    case Add(id, j) => j == NewJob(j.kind, j.payload, j.maxAttempts, j.notBefore) && jobs' == Enqueued(jobs, id, j)
  }

  ghost predicate Moves(js: seq<Jobs>, moves: seq<Move>, lease: real, base: real) {
    |js| == |moves| + 1 && forall i :: 0 <= i < |moves| ==> Moved(js[i], js[i + 1], moves[i], lease, base)
  }

  function TurnsIn(moves: seq<Move>): nat {
    if moves == [] then 0 else TurnsIn(moves[..|moves| - 1]) + if moves[|moves| - 1].Turn? then 1 else 0
  }

  /** The turns that the jobs added along the way bring with them. */
  function Brought(js: seq<Jobs>, moves: seq<Move>): nat
    requires |js| >= |moves|
  {
    if moves == [] then 0
    else
      var n := |moves| - 1;
      Brought(js[..n], moves[..n]) + Brings(js[n], moves[n])
  }

  function Brings(jobs: Jobs, move: Move): nat {
    if move.Add? && move.id !in jobs then Remaining(move.job) else 0
  }

  lemma MoveUsesUp(jobs: Jobs, jobs': Jobs, move: Move, lease: real, base: real)
    requires Moved(jobs, jobs', move, lease, base)
    ensures Total(jobs') + (if move.Turn? then 1 else 0) <= Total(jobs) + Brings(jobs, move)
  {
    match move
    case Turn(now) => TurnUsesUp(jobs, jobs', now, lease, base);
    case Add(id, j) =>
      if id !in jobs {
        TotalWithout(jobs', id);
        assert jobs' - {id} == jobs;
      }
  }

  /** Whatever is added in between, a queue takes at most the turns its jobs allow, the ones it started with
      and the ones it was brought, and after that many every job is finished. */
  lemma {:induction false} TurnsAreBounded(js: seq<Jobs>, moves: seq<Move>, lease: real, base: real)
    requires Moves(js, moves, lease, base)
    ensures TurnsIn(moves) + Total(js[|moves|]) <= Total(js[0]) + Brought(js, moves)
    ensures TurnsIn(moves) == Total(js[0]) + Brought(js, moves) ==>
              forall id :: id in js[|moves|] ==> Terminal(js[|moves|][id])
  {
    if |moves| > 0 {
      var n := |moves| - 1;
      TurnsAreBounded(js[..n + 1], moves[..n], lease, base);
      BroughtPrefix(js, moves[..n], n);
      MoveUsesUp(js[n], js[n + 1], moves[n], lease, base);
    }
    NothingRemains(js[|moves|]);
  }

  lemma BroughtPrefix(js: seq<Jobs>, moves: seq<Move>, n: nat)
    requires n == |moves| < |js|
    ensures Brought(js[..n + 1], moves) == Brought(js[..n], moves)
  {
    if n > 0 {
      assert js[..n + 1][..n - 1] == js[..n][..n - 1];
    }
  }

  /** While a job is unfinished the runner is idle only because everything unfinished is not yet due. */
  lemma IdleOnlyWhileWaiting(jobs: Jobs, now: real)
    requires forall id :: id in jobs ==> !Claimable(jobs[id], now)
    requires forall id :: id in jobs ==> !jobs[id].status.Leased? && jobs[id].notBefore <= now
    ensures Total(jobs) == 0
  {
    NothingRemains(jobs);
  }

  /** When each job was first attempted; the runner finishes or fails what it claims. */
  type FirstAttempts = map<string, real>

  /** The sum of the backoffs after the first `n` failed attempts. */
  function Waits(base: real, n: nat): real {
    if n == 0 then 0.0 else Waits(base, n - 1) + Backoff(base, n)
  }

  /** The backoffs add up to base * (2^n - 1). */
  lemma {:induction false} WaitsAddUp(base: real, n: nat)
    ensures Waits(base, n) == base * ((Pow2(n) - 1) as real)
  {
    if n > 0 {
      WaitsAddUp(base, n - 1);
      var x := Pow2(n - 1) as real;
      assert (Pow2(n) - 1) as real == (x - 1.0) + x;
      assert base * ((x - 1.0) + x) == base * (x - 1.0) + base * x;
    }
  }

  /** A waiting job with `a` attempts behind it is not due before all its backoffs have passed, and a
      dead letter has waited through those before its last attempt. */
  predicate JobSpaced(j: Job, first: Option<real>, base: real) {
    && !j.status.Leased?
    && (j.attempts > 0 <==> first.Some?)
    && (first.Some? && j.status.Queued? ==> j.notBefore >= first.value + Waits(base, j.attempts))
    && (j.status.DeadLetter? ==> first.Some? && j.notBefore >= first.value + Waits(base, j.attempts - 1))
  }

  function FirstOf(first: FirstAttempts, id: string): Option<real> {
    if id in first then Some(first[id]) else None
  }

  ghost predicate Spaced(jobs: Jobs, first: FirstAttempts, base: real) {
    first.Keys <= jobs.Keys && forall id :: id in jobs ==> JobSpaced(jobs[id], FirstOf(first, id), base)
  }

  ghost function Noted(first: FirstAttempts, jobs: Jobs, move: Move): FirstAttempts {
    if id :| move.Turn? && IsNext(jobs, id, move.now) && id !in first then first[id := move.now] else first
  }

  lemma NextIsUnique(jobs: Jobs, a: string, b: string, now: real)
    requires IsNext(jobs, a, now) && IsNext(jobs, b, now)
    ensures a == b
  {
    Text.Antisymmetric(a, b);
  }

  lemma TurnKeepsJobSpaced(j: Job, first: Option<real>, now: real, lease: real, base: real, outcome: Outcome)
    requires JobSpaced(j, first, base) && Claimable(j, now)
    ensures JobSpaced(AfterRun(j, now, lease, base, outcome), if first.Some? then first else Some(now), base)
  {
  }

  lemma TurnKeepsSpaced(jobs: Jobs, first: FirstAttempts, jobs': Jobs, now: real, lease: real, base: real)
    requires Spaced(jobs, first, base) && Ran(jobs, jobs', now, lease, base)
    ensures Spaced(jobs', Noted(first, jobs, Turn(now)), base)
  {
    hide JobSpaced, AfterRun;
    var id, outcome :| IsNext(jobs, id, now) && jobs' == jobs[id := AfterRun(jobs[id], now, lease, base, outcome)];
    forall other | IsNext(jobs, other, now) ensures other == id { NextIsUnique(jobs, id, other, now); }
    assert Noted(first, jobs, Turn(now)) == if id in first then first else first[id := now];
    TurnKeepsJobSpaced(jobs[id], FirstOf(first, id), now, lease, base, outcome);
  }

  lemma MoveKeepsSpaced(jobs: Jobs, first: FirstAttempts, jobs': Jobs, move: Move, lease: real, base: real)
    requires Spaced(jobs, first, base) && Moved(jobs, jobs', move, lease, base)
    ensures Spaced(jobs', Noted(first, jobs, move), base)
  {
    hide Ran;
    match move
    case Turn(now) => TurnKeepsSpaced(jobs, first, jobs', now, lease, base);
    case Add(id, j) =>
  }

  /** The first-attempt times along a sequence of moves. */
  ghost function FirstTimes(js: seq<Jobs>, moves: seq<Move>, n: nat): FirstAttempts
    requires n <= |moves| < |js|
  {
    if n == 0 then map[] else Noted(FirstTimes(js, moves, n - 1), js[n - 1], moves[n - 1])
  }

  lemma {:induction false} EveryMoveIsSpaced(js: seq<Jobs>, moves: seq<Move>, lease: real, base: real, n: nat)
    requires Moves(js, moves, lease, base) && n <= |moves| && js[0] == map[]
    ensures Spaced(js[n], FirstTimes(js, moves, n), base)
  {
    hide Moved, Noted, JobSpaced;
    if n > 0 {
      EveryMoveIsSpaced(js, moves, lease, base, n - 1);
      MoveKeepsSpaced(js[n - 1], FirstTimes(js, moves, n - 1), js[n], moves[n - 1], lease, base);
    }
  }

  lemma DeadLetterSpaced(j: Job, first: Option<real>, base: real)
    requires JobSpaced(j, first, base) && j.status.DeadLetter?
    ensures first.Some? && j.attempts > 0 && j.notBefore - first.value >= base * ((Pow2(j.attempts - 1) - 1) as real)
  {
    WaitsAddUp(base, j.attempts - 1);
  }

  /** A job dead-lettered on attempt m spent at least base * (2^(m-1) - 1) since its first attempt, whatever
      else was enqueued and run meanwhile. */
  lemma DeadLettersWaited(js: seq<Jobs>, moves: seq<Move>, lease: real, base: real, n: nat, id: string)
    requires Moves(js, moves, lease, base) && n <= |moves| && js[0] == map[]
    requires id in js[n] && js[n][id].status.DeadLetter?
    ensures var j, first := js[n][id], FirstTimes(js, moves, n);
            j.attempts > 0 && id in first && j.notBefore - first[id] >= base * ((Pow2(j.attempts - 1) - 1) as real)
  {
    hide JobSpaced, Waits, Pow2, FirstTimes;
    EveryMoveIsSpaced(js, moves, lease, base, n);
    DeadLetterSpaced(js[n][id], FirstOf(FirstTimes(js, moves, n), id), base);
  }
}
