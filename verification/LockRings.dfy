/**
 Any number of checked threads, interleaved. They exclude each other, nobody waits for the
 queue or the semaphore with a lock held, and there is no circular wait but one: a session
 that waits for the pause it keeps itself.
 */
module LockRings {
  import opened CText
  import opened LockOrder
  import opened LockPrograms

  /** What a thread holds, and what it is still to do. */
  datatype Job = Job(held: Held, rest: seq<Op>)

  /** `keeper`: the thread whose pause left the semaphore taken. */
  datatype State = State(jobs: map<Thread, Job>, keeper: Option<Thread>)

  predicate Holds(s: State, t: Thread, r: Resource) {
    t in s.jobs && (Has(s.jobs[t].held, r) || (r.Semaphore? && s.keeper == Some(t)))
  }

  predicate Free(s: State, r: Resource) {
    forall t :: t in s.jobs ==> !Holds(s, t, r)
  }

  predicate Busy(s: State, t: Thread) { t in s.jobs && s.jobs[t].rest != [] }

  function NextOp(s: State, t: Thread): Op
    requires Busy(s, t)
  {
    s.jobs[t].rest[0]
  }

  /** What can happen now; a wait for the queue is up to the queue. A post finds a pause kept. */
  predicate CanMove(s: State, t: Thread) {
    Busy(s, t) &&
    match NextOp(s, t)
    case Take(r) => Free(s, r)
    case Post => s.keeper.Some?
    case _ => true
  }

  function Moved(s: State, t: Thread): State
    requires Busy(s, t)
  {
    var op := NextOp(s, t);
    State(
      s.jobs[t := Job(After(s.jobs[t].held, op), s.jobs[t].rest[1..])],
      match op case Keep => Some(t) case Post => None case _ => s.keeper)
  }

  ghost predicate Safe(s: State) {
    && (forall t :: t in s.jobs ==> Ordered(s.jobs[t].held, s.jobs[t].rest))
    && (forall t, u, r :: Holds(s, t, r) && Holds(s, u, r) ==> t == u)
    && (s.keeper.Some? ==> s.keeper.value in s.jobs)
    && (forall t :: t in s.jobs && s.jobs[t].held.sem ==> s.keeper.None?)
  }

  lemma MovedHolds(s: State, t: Thread, u: Thread, r: Resource)
    requires Safe(s) && CanMove(s, t) && Holds(Moved(s, t), u, r)
    ensures Holds(s, u, r) || (u == t && NextOp(s, t) == Take(r))
  {
    assert Ordered(s.jobs[t].held, s.jobs[t].rest);
  }

  lemma MovedExcludes(s: State, t: Thread, u: Thread, v: Thread, r: Resource)
    requires Safe(s) && CanMove(s, t) && Holds(Moved(s, t), u, r) && Holds(Moved(s, t), v, r)
    ensures u == v
  {
    MovedHolds(s, t, u, r);
    MovedHolds(s, t, v, r);
    assert NextOp(s, t) == Take(r) ==> Free(s, r);
  }

  lemma MovedKeeps(s: State, t: Thread, u: Thread)
    requires Safe(s) && CanMove(s, t) && u in s.jobs
    ensures Ordered(Moved(s, t).jobs[u].held, Moved(s, t).jobs[u].rest)
    ensures Moved(s, t).jobs[u].held.sem ==> Moved(s, t).keeper.None?
  {
    assert Ordered(s.jobs[t].held, s.jobs[t].rest) && Ordered(s.jobs[u].held, s.jobs[u].rest);
    if NextOp(s, t).Keep? && u != t {
      assert Holds(s, t, Semaphore);
      assert s.jobs[u].held.sem ==> Holds(s, u, Semaphore);
    }
    assert forall k :: s.keeper == Some(k) ==> Holds(s, k, Semaphore);
  }

  lemma MovesAreSafe(s: State, t: Thread)
    requires Safe(s) && CanMove(s, t)
    ensures Safe(Moved(s, t))
  {
    var s' := Moved(s, t);
    forall u | u in s'.jobs
      ensures Ordered(s'.jobs[u].held, s'.jobs[u].rest) && (s'.jobs[u].held.sem ==> s'.keeper.None?)
    {
      MovedKeeps(s, t, u);
    }
    forall u, v, r | Holds(s', u, r) && Holds(s', v, r)
      ensures u == v
    {
      MovedExcludes(s, t, u, v, r);
    }
  }

  // ---------------------------------------------------------------- every interleaving

  ghost predicate Next(s: State, s': State) { exists t :: CanMove(s, t) && s' == Moved(s, t) }

  /** A thread at its start: some trace of a program that passes the check. */
  ghost predicate Starting(j: Job) {
    j.held == NOTHING && exists p :: Accepted(p) && Runs(p, j.rest, Through)
  }

  ghost predicate Trace(states: seq<State>) {
    && states != []
    && states[0].keeper.None? && (forall t :: t in states[0].jobs ==> Starting(states[0].jobs[t]))
    && forall i :: 0 <= i < |states| - 1 ==> Next(states[i], states[i + 1])
  }

  /** Threads of the server are such threads. */
  lemma ServerThreadsStart(ops: seq<Op>)
    requires Runs(Agent(), ops, Through) || Runs(ClientThread(), ops, Through)
    ensures Starting(Job(NOTHING, ops))
  {
    AgentIsAccepted();
    ClientThreadIsAccepted();
  }

  lemma {:induction false} TracesAreSafe(states: seq<State>, i: nat)
    requires Trace(states) && i < |states|
    ensures Safe(states[i])
  {
    if i == 0 {
      forall t | t in states[0].jobs
        ensures Ordered(states[0].jobs[t].held, states[0].jobs[t].rest)
      {
        var j := states[0].jobs[t];
        assert Starting(j);
        var p :| Accepted(p) && Runs(p, j.rest, Through);
        AcceptedIsOrdered(p, j.rest);
      }
    } else {
      TracesAreSafe(states, i - 1);
      assert Next(states[i - 1], states[i - 1 + 1]);
      var t :| CanMove(states[i - 1], t) && states[i] == Moved(states[i - 1], t);
      MovesAreSafe(states[i - 1], t);
    }
  }

  /**
   Nobody waits for the queue or for the semaphore, or lifts a pause, with a lock or the semaphore in
   hand, and a pause is kept with the semaphore alone.
   */
  lemma WaitsHoldNothing(s: State, t: Thread)
    requires Safe(s) && Busy(s, t)
    requires NextOp(s, t).Wait? || NextOp(s, t) == Take(Semaphore) || NextOp(s, t).Post? || NextOp(s, t).Keep?
    ensures s.jobs[t].held == if NextOp(s, t).Keep? then NOTHING.(sem := true) else NOTHING
  {
    assert Ordered(s.jobs[t].held, s.jobs[t].rest);
  }

  /**
   No two threads touch at once what one resource guards: the list, the log buffer, or, as the agent
   sends and a pause sets the flag, the chat; and while a pause is kept nobody sends or pauses.
   */
  lemma TouchesExclude(s: State, t: Thread, u: Thread, r: Resource)
    requires Safe(s) && Busy(s, t) && NextOp(s, t) == Touch(r)
    ensures Holds(s, t, r)
    ensures Busy(s, u) && NextOp(s, u) == Touch(r) ==> u == t
    ensures r.Semaphore? ==> s.keeper.None?
  {
    assert Ordered(s.jobs[t].held, s.jobs[t].rest);
    if Busy(s, u) && NextOp(s, u) == Touch(r) {
      assert Ordered(s.jobs[u].held, s.jobs[u].rest);
      assert Holds(s, t, r) && Holds(s, u, r);
    }
  }

  // ---------------------------------------------------------------- circular waits

  predicate Wants(s: State, t: Thread, r: Resource) { Busy(s, t) && NextOp(s, t) == Take(r) }

  /** `t` wants something that `u` holds. */
  ghost predicate WaitsFor(s: State, t: Thread, u: Thread) {
    exists r :: Wants(s, t, r) && Holds(s, u, r)
  }

  /** The thread that keeps a pause pauses again. */
  predicate SelfBlocked(s: State) { s.keeper.Some? && Wants(s, s.keeper.value, Semaphore) }

  function Successor(i: nat, n: nat): nat
    requires i < n
  {
    if i + 1 < n then i + 1 else 0
  }

  /** Each thread of the ring waits for the next, and the last for the first. */
  ghost predicate Ring(s: State, ring: seq<Thread>) {
    ring != [] && forall i :: 0 <= i < |ring| ==> WaitsFor(s, ring[i], ring[Successor(i, |ring|)])
  }

  /** What a waiting thread wants. */
  function Wanted(s: State, t: Thread): Resource {
    if Busy(s, t) && NextOp(s, t).Take? then NextOp(s, t).r else Semaphore
  }

  /** Along a wait the rank of what is wanted rises. */
  lemma RankRises(s: State, t: Thread, u: Thread, v: Thread)
    requires Safe(s) && !SelfBlocked(s) && WaitsFor(s, t, u) && WaitsFor(s, u, v)
    ensures Rank(Wanted(s, t)) < Rank(Wanted(s, u))
  {
    assert Ordered(s.jobs[u].held, s.jobs[u].rest);
    BelowIsByRank(s.jobs[u].held, Wanted(s, u));
  }

  lemma {:induction false} RankRisesAlong(s: State, ring: seq<Thread>, i: nat)
    requires Safe(s) && !SelfBlocked(s) && Ring(s, ring) && i < |ring|
    ensures Rank(Wanted(s, ring[0])) + i <= Rank(Wanted(s, ring[i]))
  {
    if i > 0 {
      RankRisesAlong(s, ring, i - 1);
      assert WaitsFor(s, ring[i - 1], ring[Successor(i - 1, |ring|)]);
      assert WaitsFor(s, ring[i], ring[Successor(i, |ring|)]);
      RankRises(s, ring[i - 1], ring[i], ring[Successor(i, |ring|)]);
    }
  }

  /** A ring of waits, of whatever length, exists exactly when the thread that keeps a pause pauses again. */
  lemma OnlyRing(s: State)
    requires Safe(s)
    ensures (exists ring :: Ring(s, ring)) <==> SelfBlocked(s)
  {
    if SelfBlocked(s) {
      var k := s.keeper.value;
      assert Wants(s, k, Semaphore) && Holds(s, k, Semaphore);
      assert WaitsFor(s, k, k);
      assert Ring(s, [k]);
    } else {
      forall ring
        ensures !Ring(s, ring)
      {
        if Ring(s, ring) {
          var n := |ring|;
          RankRisesAlong(s, ring, n - 1);
          assert WaitsFor(s, ring[n - 1], ring[Successor(n - 1, n)]);
          assert WaitsFor(s, ring[0], ring[Successor(0, n)]);
          RankRises(s, ring[n - 1], ring[0], ring[Successor(0, n)]);
        }
      }
    }
  }

  /**
   If nobody can move, nobody holds a lock, and whoever is left waits for the queue, for the
   semaphore that a pause keeps, or posts one that nobody keeps.
   */
  lemma LocksNeverBlock(s: State, t: Thread)
    requires Safe(s) && Busy(s, t) && forall u :: CanMove(s, u) ==> NextOp(s, u).Wait?
    ensures s.jobs[t].held == NOTHING
    ensures NextOp(s, t).Wait? || (NextOp(s, t) == Take(Semaphore) && s.keeper.Some?)
         || (NextOp(s, t).Post? && s.keeper.None?)
  {
    forall u | u in s.jobs
      ensures !s.jobs[u].held.log
    {
      assert Ordered(s.jobs[u].held, s.jobs[u].rest);
      assert Busy(s, u) ==> CanMove(s, u) || NextOp(s, u).Take? || NextOp(s, u).Post?;
    }
    assert Free(s, LogLock);
    forall u | u in s.jobs
      ensures !s.jobs[u].held.user
    {
      assert Ordered(s.jobs[u].held, s.jobs[u].rest);
      assert Busy(s, u) ==> CanMove(s, u) || NextOp(s, u).Take? || NextOp(s, u).Post?;
    }
    assert Free(s, UserLock);
    forall u | u in s.jobs
      ensures !s.jobs[u].held.sem
    {
      assert Ordered(s.jobs[u].held, s.jobs[u].rest);
      assert Busy(s, u) ==> CanMove(s, u) || NextOp(s, u).Take? || NextOp(s, u).Post?;
    }
    assert Ordered(s.jobs[t].held, s.jobs[t].rest);
    assert CanMove(s, t) || NextOp(s, t).Take? || NextOp(s, t).Post?;
  }
}
