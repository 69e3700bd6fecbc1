/**
 Roster convergence: once the agent has drained the queue, every online client's roster
 is the set of online names. It holds after every calm run that has come to rest, and
 the conditions on the schedule are shown to be exact: a join converges if and only if it
 did not find the queue full or its name was known, a departure if and only if the parted
 name is pending exactly when it has a new owner. Second logins are left to `ChatRelogin`.
 */
module ChatConvergence {
  import opened CText
  import opened ChatModel
  import opened ChatFlow
  import opened ChatNames
  import opened ChatRoster
  import opened ChatDrain

  ghost predicate CalmOk(s: State) {
    Shape(s) && Flow(s) && LiveOk(s) && RosterOk(s)
  }

  lemma CalmStep(s: State, l: Label)
    requires CalmOk(s) && Enabled(s, l) && Calm(s, l)
    ensures CalmOk(Apply(s, l))
  {
    ShapeStep(s, l);
    FlowStep(s, l);
    LiveStep(s, l);
    RosterStep(s, l);
  }

  /** Who logs in once has no tail: on calm schedules frames show the stored names. */
  lemma CalmIsWhole(s: State, l: Label)
    requires Shape(s) && Whole(s) && LiveOk(s) && Enabled(s, l)
    ensures Whole(Apply(s, l))
  {
    WholeStep(s, l);
    if l.Session? && l.step.Login? {
      assert Checked(s, l.id);
      FirstStoresWhole(s, l.id);
    }
  }

  /** No session is in the middle of joining. */
  ghost predicate NobodyJoining(s: State) {
    forall u :: u in s.sess ==> !Joining(s.sess[u].phase)
  }

  ghost predicate NobodyLeaving(s: State) {
    forall u :: !Leaving(s, u)
  }

  /** No session is in the middle of joining or leaving. */
  ghost predicate AtRest(s: State) { NobodyJoining(s) && NobodyLeaving(s) }

  /** Whoever is online knows of, or will hear of, everyone online, and of nobody who is gone. */
  ghost predicate Informed(s: State) {
    forall u :: LoggedIn(s, u) ==> OnlineNames(s) <= Knowledge(s, u) <= LiveNames(s)
  }

  /** When the queue has drained, every online client has exactly the online names. */
  ghost predicate Converged(s: State)
    requires Open(s)
  {
    forall u :: LoggedIn(s, u) ==>
      u in Drained(s).sess && Roster(Drained(s).sess[u].log) == OnlineNames(s)
  }

  lemma PendingShrinks(accepted: seq<Packet>, from: nat, to: nat)
    requires from <= to
    ensures Pending(accepted, to) <= Pending(accepted, from)
  {
  }

  lemma LiveAtRest(s: State)
    requires NobodyLeaving(s)
    ensures LiveNames(s) == OnlineNames(s)
  {
    assert forall u :: u in s.sess ==> (Live(s, u) <==> LoggedIn(s, u));
  }

  lemma InformedSoundly(s: State, u: Id)
    requires RosterOk(s) && LoggedIn(s, u)
    ensures Knowledge(s, u) <= LiveNames(s)
  {
    PendingShrinks(s.accepted, |s.delivered|, Visited(s, u));
  }

  /** With nobody in the middle of joining, calm runs leave everyone informed. */
  lemma CalmIsInformed(s: State)
    requires CalmOk(s) && NobodyJoining(s)
    ensures Informed(s)
  {
    forall u | LoggedIn(s, u)
      ensures OnlineNames(s) <= Knowledge(s, u) <= LiveNames(s)
    {
      InformedSoundly(s, u);
      forall n | n in OnlineNames(s)
        ensures n in Knowledge(s, u)
      {
        var v :| v in s.sess && LoggedIn(s, v) && Shown(s, v) == n;
        assert Due(s, u, v);
        assert Knows(s, u, v);
      }
    }
  }

  lemma KnowledgeAtRest(s: State, u: Id)
    requires CalmOk(s) && AtRest(s) && LoggedIn(s, u)
    ensures Knowledge(s, u) == OnlineNames(s)
  {
    CalmIsInformed(s);
    LiveAtRest(s);
  }

  lemma Converges(s: State)
    requires CalmOk(s) && AtRest(s) && Open(s)
    ensures Converged(s)
  {
    forall u | LoggedIn(s, u)
      ensures u in Drained(s).sess && Roster(Drained(s).sess[u].log) == OnlineNames(s)
    {
      DrainedRoster(s, u);
      KnowledgeAtRest(s, u);
    }
  }

  lemma NotConverged(s: State, u: Id, n: Text)
    requires Open(s) && Shape(s) && Flow(s) && LoggedIn(s, u)
    requires (n in Knowledge(s, u)) != (n in OnlineNames(s))
    ensures !Converged(s)
  {
    DrainedRoster(s, u);
  }

  // ---------------------------------------------------------------- departures

  lemma StillOnline(s: State, x: Id, u: Id)
    requires Shape(s) && Enabled(s, Session(x, Notify)) && Leaving(s, x)
    ensures var t := Apply(s, Session(x, Notify)); LoggedIn(t, u) == LoggedIn(s, u) && Shown(t, u) == Shown(s, u)
  {
    if u in s.sess {
      assert SessionOk(s.sess[x]);
      assert Apply(s, Session(x, Notify)).sess[u] == SessionAfter(s, Session(x, Notify), u);
    }
  }

  lemma SameOnline(s: State, t: State)
    requires t.sess.Keys == s.sess.Keys && forall u :: LoggedIn(t, u) == LoggedIn(s, u) && Shown(t, u) == Shown(s, u)
    ensures OnlineNames(t) == OnlineNames(s)
  {
    assert forall u :: u in t.sess <==> u in s.sess;
  }

  lemma OnlineParted(s: State, x: Id)
    requires Shape(s) && Enabled(s, Session(x, Notify)) && Leaving(s, x)
    ensures OnlineNames(Apply(s, Session(x, Notify))) == OnlineNames(s)
  {
    var t := Apply(s, Session(x, Notify));
    assert t.sess.Keys == s.sess.Keys;
    forall u
      ensures LoggedIn(t, u) == LoggedIn(s, u) && Shown(t, u) == Shown(s, u)
    {
      StillOnline(s, x, u);
    }
    SameOnline(s, t);
  }

  lemma PartedUnion(roster: set<Text>, pending: set<Text>, n: Text)
    ensures roster - {n} + pending == roster + pending - {n} + pending * {n}
  {
  }

  lemma PartedFrame(s: State, x: Id, u: Id)
    requires Shape(s) && Enabled(s, Session(x, Notify)) && Leaving(s, x) && LoggedIn(s, u)
    ensures var t := Apply(s, Session(x, Notify));
      t.accepted == s.accepted && t.delivered == s.delivered && Visited(t, u) == Visited(s, u) == |s.delivered|
    ensures Added(s, Session(x, Notify), u) == {} && Dropped(s, Session(x, Notify), u) == {Shown(s, x)}
  {
    PartedIsDropped(s, Session(x, Notify), u);
  }

  /** A departure walk takes one name off what everyone knows, unless it is on its way to them. */
  lemma KnowledgeParted(s: State, x: Id, u: Id)
    requires Shape(s) && Flow(s) && Enabled(s, Session(x, Notify)) && Leaving(s, x) && LoggedIn(s, u)
    ensures LoggedIn(Apply(s, Session(x, Notify)), u)
    ensures Knowledge(Apply(s, Session(x, Notify)), u) ==
      Knowledge(s, u) - {Shown(s, x)} + Pending(s.accepted, |s.delivered|) * {Shown(s, x)}
  {
    StillOnline(s, x, u);
    RosterFact(s, Session(x, Notify), u);
    PartedFrame(s, x, u);
    PartedUnion(Roster(s.sess[u].log), Pending(s.accepted, |s.delivered|), Shown(s, x));
  }

  /** Where the agent takes a client's roster after a departure walk. */
  lemma PartedRoster(s: State, x: Id, u: Id)
    requires Shape(s) && Flow(s) && Open(s)
    requires Enabled(s, Session(x, Notify)) && Leaving(s, x) && LoggedIn(s, u)
    ensures var t := Apply(s, Session(x, Notify));
      && Open(t) && u in Drained(t).sess
      && Roster(Drained(t).sess[u].log)
         == Knowledge(s, u) - {Shown(s, x)} + Pending(s.accepted, |s.delivered|) * {Shown(s, x)}
  {
    var l := Session(x, Notify);
    ShapeStep(s, l);
    FlowStep(s, l);
    KnowledgeParted(s, x, u);
    DrainedRoster(Apply(s, l), u);
  }

  lemma LiveParted(s: State, x: Id)
    requires Shape(s) && LiveOk(s) && Enabled(s, Session(x, Notify)) && Leaving(s, x)
    requires NobodyLeaving(Apply(s, Session(x, Notify)))
    ensures LiveNames(s) <= OnlineNames(s) + {Shown(s, x)}
  {
    LiveNamesStep(s, Session(x, Notify));
    LiveAtRest(Apply(s, Session(x, Notify)));
    OnlineParted(s, x);
  }

  lemma PartedSets(known: set<Text>, online: set<Text>, n: Text, pending: set<Text>)
    requires online <= known <= online + {n}
    ensures known - {n} + pending * {n} == online <==> (n in pending <==> n in online)
  {
  }

  /**
   A departure leaves everyone's roster converging to the online names exactly when the
   parted name is still to be announced if and only if somebody online goes by it.
   */
  lemma DepartureConverges(s: State, x: Id, other: Id)
    requires Shape(s) && Flow(s) && LiveOk(s) && Informed(s) && Open(s)
    requires Enabled(s, Session(x, Notify)) && Leaving(s, x) && LoggedIn(s, other)
    requires AtRest(Apply(s, Session(x, Notify)))
    ensures Open(Apply(s, Session(x, Notify)))
    ensures Converged(Apply(s, Session(x, Notify)))
            <==> (Shown(s, x) in Pending(s.accepted, |s.delivered|) <==> Shown(s, x) in OnlineNames(s))
  {
    var t := Apply(s, Session(x, Notify));
    OnlineParted(s, x);
    LiveParted(s, x);
    forall u
      ensures LoggedIn(t, u) == LoggedIn(s, u)
      ensures LoggedIn(t, u) ==> u in Drained(t).sess
      ensures LoggedIn(t, u) ==> (Roster(Drained(t).sess[u].log) == OnlineNames(s)
                <==> (Shown(s, x) in Pending(s.accepted, |s.delivered|) <==> Shown(s, x) in OnlineNames(s)))
    {
      StillOnline(s, x, u);
      if LoggedIn(s, u) {
        PartedRoster(s, x, u);
        PartedSets(Knowledge(s, u), OnlineNames(s), Shown(s, x), Pending(s.accepted, |s.delivered|));
      }
    }
  }

  /**
   So a name taken over while its previous owner is leaving is kept exactly when the new owner's
   join is still to come.
   */
  lemma ReusedName(s: State, x: Id, w: Id)
    requires Shape(s) && Flow(s) && LiveOk(s) && Informed(s) && Open(s)
    requires Enabled(s, Session(x, Notify)) && Leaving(s, x) && AtRest(Apply(s, Session(x, Notify)))
    requires LoggedIn(s, w) && Shown(s, w) == Shown(s, x)
    ensures Open(Apply(s, Session(x, Notify)))
    ensures Converged(Apply(s, Session(x, Notify))) <==> Shown(s, x) in Pending(s.accepted, |s.delivered|)
  {
    DepartureConverges(s, x, w);
  }

  // ---------------------------------------------------------------- a join and the full queue

  /** Nobody but `id` is in the middle of joining. */
  ghost predicate OnlyJoiner(s: State, id: Id) {
    forall u :: u in s.sess && u != id ==> !Joining(s.sess[u].phase)
  }

  /** Only the session `id` is touched. */
  ghost predicate OthersSame(s: State, t: State, id: Id) {
    && t.admin == s.admin && t.sess.Keys == s.sess.Keys
    && forall u :: u in s.sess && u != id ==> t.sess[u] == s.sess[u]
  }

  /** A step on the way in, or of a chat message, leaves the others where they are. */
  lemma EntryStep(s: State, id: Id, step: Step)
    requires Enabled(s, Session(id, step)) && OnlyJoiner(s, id)
    requires step.CheckName? || step.Login? || step.AnnounceCheck? || step.ChatCheck? || step.Post? || step.Introduce?
    ensures OthersSame(s, Apply(s, Session(id, step)), id) && OnlyJoiner(Apply(s, Session(id, step)), id)
  {
    var l := Session(id, step);
    var t := Apply(s, l);
    forall u | u in s.sess && u != id
      ensures t.sess[u] == s.sess[u]
    {
      assert t.sess[u] == SessionAfter(s, l, u);
      assert s.sess[u].log + [] == s.sess[u].log;
    }
  }

  lemma NobodyElseLeaves(s: State, t: State, id: Id)
    requires OthersSame(s, t, id) && NobodyLeaving(s) && id in t.sess && !t.sess[id].phase.LoggedOut?
    ensures NobodyLeaving(t)
  {
    forall u
      ensures !Leaving(t, u)
    {
      if u in t.sess && u != id {
        assert u in s.sess.Keys;
        assert t.sess[u] == s.sess[u];
        assert !Leaving(s, u);
      }
    }
  }

  /** The steps of a joining session leave semaphore, agent and the other sessions alone. */
  lemma JoinFrame(s: State, id: Id, step: Step)
    requires Enabled(s, Session(id, step)) && (step.AnnounceCheck? || step.Post? || step.Introduce?)
    ensures var t := Apply(s, Session(id, step));
      && t.sem == s.sem && t.agent == s.agent
      && t.sess[id].phase == PhaseAfter(s, id, step)
      && t.queue == s.queue + Enqueued(s, Session(id, step))
      && t.accepted == s.accepted + Enqueued(s, Session(id, step)) && t.delivered == s.delivered
      && t.sess.Keys == s.sess.Keys
      && (forall u :: u in s.sess && u != id ==> t.sess[u] == s.sess[u])
      && LoggedIn(t, id) == LoggedIn(s, id) && Shown(t, id) == Shown(s, id)
  {
    var t := Apply(s, Session(id, step));
    forall u | u in s.sess && u != id
      ensures t.sess[u] == s.sess[u]
    {
      assert t.sess[u] == SessionAfter(s, Session(id, step), u);
      assert s.sess[u].log + [] == s.sess[u].log;
    }
  }

  lemma JoinKeepsUser(s: State, id: Id, step: Step, u: Id)
    requires Enabled(s, Session(id, step)) && (step.AnnounceCheck? || step.Post? || step.Introduce?)
    requires SessionOk(s.sess[id])
    ensures var t := Apply(s, Session(id, step));
      LoggedIn(t, u) == LoggedIn(s, u) && Shown(t, u) == Shown(s, u) && Leaving(t, u) == Leaving(s, u)
  {
    JoinFrame(s, id, step);
    if u in s.sess && u != id { assert Apply(s, Session(id, step)).sess[u] == s.sess[u]; }
  }

  lemma JoinKeepsRest(s: State, id: Id, step: Step)
    requires Enabled(s, Session(id, step)) && (step.AnnounceCheck? || step.Post? || step.Introduce?)
    requires SessionOk(s.sess[id])
    ensures var t := Apply(s, Session(id, step)); t.sess.Keys == s.sess.Keys && (OnlyJoiner(s, id) ==> OnlyJoiner(t, id))
  {
    JoinFrame(s, id, step);
  }

  /** So who is online, under which names, and who is leaving stays as it is. */
  lemma JoinKeeps(s: State, id: Id, step: Step)
    requires Enabled(s, Session(id, step)) && (step.AnnounceCheck? || step.Post? || step.Introduce?)
    requires SessionOk(s.sess[id])
    ensures var t := Apply(s, Session(id, step));
      && OnlineNames(t) == OnlineNames(s)
      && (forall u :: LoggedIn(t, u) == LoggedIn(s, u))
      && (NobodyLeaving(s) ==> NobodyLeaving(t))
      && (OnlyJoiner(s, id) ==> OnlyJoiner(t, id))
  {
    var t := Apply(s, Session(id, step));
    JoinKeepsRest(s, id, step);
    forall u
      ensures LoggedIn(t, u) == LoggedIn(s, u) && Shown(t, u) == Shown(s, u) && Leaving(t, u) == Leaving(s, u)
    {
      JoinKeepsUser(s, id, step, u);
    }
    SameOnline(s, t);
  }

  /** The rest of a join once the name is stored: announce, post if there was room, introduce. */
  function JoinLabels(s: State, id: Id): seq<Label> {
    if |s.queue| < QUEUE_CAPACITY
    then [Session(id, AnnounceCheck), Session(id, Post), Session(id, Introduce)]
    else [Session(id, AnnounceCheck), Session(id, Introduce)]
  }

  lemma JoinGoesOn(s: State, id: Id, step: Step)
    requires Open(s) && LockFree(s) && OnlyJoiner(s, id) && |s.queue| < QUEUE_CAPACITY
    requires Enabled(s, Session(id, step)) && (step.AnnounceCheck? || step.Post?) && LoggedIn(s, id)
    requires SessionOk(s.sess[id])
    ensures var t := Apply(s, Session(id, step));
      && Open(t) && LockFree(t) && OnlyJoiner(t, id) && LoggedIn(t, id)
      && (step.AnnounceCheck? ==> t.sess[id].phase.Posting? && t.sess[id].phase.join && t.queue == s.queue)
      && (step.Post? && s.sess[id].phase.join ==> t.sess[id].phase.Introducing?)
  {
    JoinFrame(s, id, step);
    JoinKeeps(s, id, step);
  }

  lemma CalmJoin(s: State, id: Id, step: Step)
    requires CalmOk(s) && Open(s) && LockFree(s) && OnlyJoiner(s, id) && |s.queue| < QUEUE_CAPACITY
    requires Enabled(s, Session(id, step)) && (step.AnnounceCheck? || step.Post?) && LoggedIn(s, id)
    ensures var t := Apply(s, Session(id, step));
      && CalmOk(t) && Open(t) && LockFree(t) && OnlyJoiner(t, id) && LoggedIn(t, id)
      && (step.AnnounceCheck? ==> t.sess[id].phase.Posting? && t.sess[id].phase.join && t.queue == s.queue)
      && (step.Post? && s.sess[id].phase.join ==> t.sess[id].phase.Introducing?)
  {
    CalmStep(s, Session(id, step));
    JoinGoesOn(s, id, step);
  }

  lemma IntroductionEnds(s: State, id: Id)
    requires Open(s) && OnlyJoiner(s, id) && Enabled(s, Session(id, Introduce)) && SessionOk(s.sess[id])
    ensures var t := Apply(s, Session(id, Introduce)); Open(t) && NobodyJoining(t)
  {
    JoinFrame(s, id, Introduce);
    JoinKeeps(s, id, Introduce);
  }

  lemma CalmIntroduction(s: State, id: Id)
    requires CalmOk(s) && Open(s) && OnlyJoiner(s, id) && Enabled(s, Session(id, Introduce))
    ensures var t := Apply(s, Session(id, Introduce)); CalmOk(t) && Open(t) && NobodyJoining(t)
  {
    CalmStep(s, Session(id, Introduce));
    IntroductionEnds(s, id);
  }

  lemma AnnouncedJoin(s: State, id: Id) returns (t: State)
    requires CalmOk(s) && Open(s) && LockFree(s) && OnlyJoiner(s, id) && NobodyLeaving(s)
    requires LoggedIn(s, id) && s.sess[id].phase.Announcing? && |s.queue| < QUEUE_CAPACITY
    ensures IsRun(s, JoinLabels(s, id)) && t == Exec(s, JoinLabels(s, id))
    ensures CalmOk(t) && Open(t) && AtRest(t)
  {
    var l1, l2, l3 := Session(id, AnnounceCheck), Session(id, Post), Session(id, Introduce);
    CalmJoin(s, id, AnnounceCheck);
    JoinKeeps(s, id, AnnounceCheck);
    var s1 := Apply(s, l1);
    CalmJoin(s1, id, Post);
    JoinKeeps(s1, id, Post);
    var s2 := Apply(s1, l2);
    CalmIntroduction(s2, id);
    JoinKeeps(s2, id, Introduce);
    t := Apply(s2, l3);
    RunOfThree(s, l1, l2, l3);
  }

  lemma QuietFrame(s: State, id: Id, step: Step, u: Id)
    requires Enabled(s, Session(id, step)) && (step.AnnounceCheck? || step.Introduce?)
    ensures var t := Apply(s, Session(id, step));
      t.accepted == s.accepted && Visited(t, u) == Visited(s, u) && t.list == s.list
    ensures Dropped(s, Session(id, step), u) == {}
    ensures Added(s, Session(id, step), u) == if step.Introduce? && u == id then NamesOf(s, s.list, id) else {}
  {
  }

  /** A refused announcement or an introduction adds to nobody's knowledge but the joiner's. */
  lemma QuietKnowledge(s: State, id: Id, step: Step, u: Id)
    requires Shape(s) && Flow(s) && Enabled(s, Session(id, step)) && LoggedIn(s, u)
    requires step.AnnounceCheck? || step.Introduce?
    ensures var t := Apply(s, Session(id, step));
      && LoggedIn(t, u)
      && Knowledge(t, u) == Knowledge(s, u) + if step.Introduce? && u == id then NamesOf(s, s.list, id) else {}
  {
    assert SessionOk(s.sess[id]);
    JoinKeepsUser(s, id, step, u);
    RosterFact(s, Session(id, step), u);
    QuietFrame(s, id, step, u);
  }

  lemma JoinNamesOf(s: State, id: Id, step: Step)
    requires Enabled(s, Session(id, step)) && (step.AnnounceCheck? || step.Post?) && SessionOk(s.sess[id])
    ensures var t := Apply(s, Session(id, step)); NamesOf(t, t.list, id) == NamesOf(s, s.list, id)
  {
    var t := Apply(s, Session(id, step));
    assert t.list == s.list;
    forall u
      ensures LoggedIn(t, u) == LoggedIn(s, u) && Shown(t, u) == Shown(s, u)
    {
      JoinKeepsUser(s, id, step, u);
    }
  }

  /** What `u` knows, and what the introduction of `id` tells it. */
  function Introduced(s: State, id: Id, u: Id): set<Text>
    requires u in s.sess
  {
    Knowledge(s, u) + if u == id then NamesOf(s, s.list, id) else {}
  }

  /** The look at the queue changes nothing that anybody knows. */
  lemma AnnouncedFacts(s: State, id: Id, u: Id, s1: State)
    requires Shape(s) && Flow(s) && Enabled(s, Session(id, AnnounceCheck)) && LoggedIn(s, u)
    requires s1 == Apply(s, Session(id, AnnounceCheck))
    ensures LoggedIn(s1, u) && Knowledge(s1, u) == Knowledge(s, u)
    ensures Shown(s1, id) == Shown(s, id) && NamesOf(s1, s1.list, id) == NamesOf(s, s.list, id)
  {
    assert SessionOk(s.sess[id]);
    QuietKnowledge(s, id, AnnounceCheck, u);
    JoinNamesOf(s, id, AnnounceCheck);
    JoinKeepsUser(s, id, AnnounceCheck, id);
  }

  lemma IntroducedFacts(s: State, id: Id, u: Id, s1: State)
    requires Shape(s) && Flow(s) && Enabled(s, Session(id, Introduce)) && LoggedIn(s, u)
    requires s1 == Apply(s, Session(id, Introduce))
    ensures LoggedIn(s1, u) && Knowledge(s1, u) == Introduced(s, id, u)
  {
    QuietKnowledge(s, id, Introduce, u);
  }

  /** What a refused announcement and the introduction after it leave everyone knowing. */
  lemma RefusedKnowledge(s: State, id: Id, u: Id, s1: State, t: State)
    requires Shape(s) && Flow(s) && Enabled(s, Session(id, AnnounceCheck)) && LoggedIn(s, u)
    requires s1 == Apply(s, Session(id, AnnounceCheck)) && Enabled(s1, Session(id, Introduce))
    requires Shape(s1) && Flow(s1) && t == Apply(s1, Session(id, Introduce))
    ensures LoggedIn(t, u) && Knowledge(t, u) == Introduced(s, id, u)
  {
    AnnouncedFacts(s, id, u, s1);
    IntroducedFacts(s1, id, u, t);
  }

  lemma OthersAreIntroduced(s: State, id: Id)
    requires Shape(s) && LoggedIn(s, id)
    ensures NamesOf(s, s.list, id) <= OnlineNames(s) <= NamesOf(s, s.list, id) + {Shown(s, id)}
  {
    forall n | n in OnlineNames(s)
      ensures n in NamesOf(s, s.list, id) + {Shown(s, id)}
    {
      var v :| v in s.sess && LoggedIn(s, v) && Shown(s, v) == n;
      assert SessionOk(s.sess[v]) && v in s.list;
    }
  }

  /** With one session joining, everyone else knows all others. */
  lemma KnowsOthers(s: State, id: Id, u: Id)
    requires CalmOk(s) && OnlyJoiner(s, id) && NobodyLeaving(s) && LoggedIn(s, id) && LoggedIn(s, u)
    ensures Knowledge(s, u) <= OnlineNames(s)
    ensures u != id ==> OnlineNames(s) <= Knowledge(s, u) + {Shown(s, id)}
  {
    InformedSoundly(s, u);
    LiveAtRest(s);
    if u != id {
      forall n | n in OnlineNames(s)
        ensures n in Knowledge(s, u) + {Shown(s, id)}
      {
        var v :| v in s.sess && LoggedIn(s, v) && Shown(s, v) == n;
        if v != id { assert Due(s, u, v); assert Knows(s, u, v); }
      }
    }
  }

  /** Everyone online knows of nobody who is not, and everyone but the joining session of all others. */
  ghost predicate OthersKnown(s: State, id: Id) {
    forall u :: LoggedIn(s, u) ==>
      Knowledge(s, u) <= OnlineNames(s) && (u != id ==> OnlineNames(s) <= Knowledge(s, u) + {Shown(s, id)})
  }

  lemma CalmKnowsOthers(s: State, id: Id)
    requires CalmOk(s) && OnlyJoiner(s, id) && NobodyLeaving(s) && LoggedIn(s, id)
    ensures OthersKnown(s, id)
  {
    forall u | LoggedIn(s, u)
      ensures Knowledge(s, u) <= OnlineNames(s) && (u != id ==> OnlineNames(s) <= Knowledge(s, u) + {Shown(s, id)})
    {
      KnowsOthers(s, id, u);
    }
  }

  /**
   Everyone online knows the session's name without its announcement, the session itself from a
   namesake if need be.
   */
  ghost predicate KnownToAll(s: State, id: Id) {
    forall u :: LoggedIn(s, u) ==> Shown(s, id) in Introduced(s, id, u)
  }

  lemma RefusedSets(known: set<Text>, online: set<Text>, others: set<Text>, n: Text)
    requires others <= online <= others + {n} && n in online && known <= online
    ensures online <= known + {n} ==> (known == online <==> n in known)
    ensures known + others == online <==> n in known + others
  {
  }

  lemma IntroducedIsRight(s: State, id: Id, u: Id)
    requires Shape(s) && LoggedIn(s, id) && LoggedIn(s, u) && Knowledge(s, u) <= OnlineNames(s)
    requires u != id ==> OnlineNames(s) <= Knowledge(s, u) + {Shown(s, id)}
    ensures Introduced(s, id, u) == OnlineNames(s) <==> Shown(s, id) in Introduced(s, id, u)
  {
    OthersAreIntroduced(s, id);
    assert Shown(s, id) in OnlineNames(s);
    RefusedSets(Knowledge(s, u), OnlineNames(s), NamesOf(s, s.list, id), Shown(s, id));
  }

  /** Left to the agent, `u` ends up with the online names exactly when it knew the joining session's. */
  ghost predicate RightIffKnown(s: State, id: Id, t: State, u: Id)
    requires Open(t) && u in s.sess
  {
    && u in Drained(t).sess
    && (Roster(Drained(t).sess[u].log) == OnlineNames(s) <==> Shown(s, id) in Introduced(s, id, u))
  }

  lemma RightIffAllKnow(s: State, id: Id, t: State)
    requires Open(t) && OnlineNames(t) == OnlineNames(s) && forall u :: LoggedIn(t, u) == LoggedIn(s, u)
    requires forall u :: LoggedIn(s, u) ==> RightIffKnown(s, id, t, u)
    ensures Converged(t) <==> KnownToAll(s, id)
  {
    assert forall u :: LoggedIn(s, u) ==> RightIffKnown(s, id, t, u);
  }

  lemma RefusedUser(s: State, id: Id, u: Id, s1: State, t: State)
    requires Shape(s) && Flow(s) && OthersKnown(s, id) && LoggedIn(s, id) && LoggedIn(s, u)
    requires Enabled(s, Session(id, AnnounceCheck)) && s1 == Apply(s, Session(id, AnnounceCheck))
    requires Enabled(s1, Session(id, Introduce)) && Shape(s1) && Flow(s1)
    requires t == Apply(s1, Session(id, Introduce)) && Shape(t) && Flow(t) && Open(t)
    ensures RightIffKnown(s, id, t, u)
  {
    RefusedKnowledge(s, id, u, s1, t);
    IntroducedIsRight(s, id, u);
    DrainedRoster(t, u);
  }

  lemma RefusedConverges(s: State, id: Id, s1: State, t: State)
    requires Shape(s) && Flow(s) && OthersKnown(s, id) && LoggedIn(s, id)
    requires Enabled(s, Session(id, AnnounceCheck)) && s1 == Apply(s, Session(id, AnnounceCheck))
    requires Enabled(s1, Session(id, Introduce)) && Shape(s1) && Flow(s1)
    requires t == Apply(s1, Session(id, Introduce)) && Shape(t) && Flow(t) && Open(t)
    requires OnlineNames(t) == OnlineNames(s) && forall u :: LoggedIn(t, u) == LoggedIn(s, u)
    ensures Converged(t) <==> KnownToAll(s, id)
  {
    forall u | LoggedIn(s, u)
      ensures RightIffKnown(s, id, t, u)
    {
      RefusedUser(s, id, u, s1, t);
    }
    RightIffAllKnow(s, id, t);
  }

  lemma RefusedFirst(s: State, id: Id) returns (t: State)
    requires Shape(s) && Flow(s) && Open(s) && LockFree(s) && OnlyJoiner(s, id) && NobodyLeaving(s)
    requires LoggedIn(s, id) && s.sess[id].phase.Announcing? && |s.queue| >= QUEUE_CAPACITY
    ensures Enabled(s, Session(id, AnnounceCheck)) && t == Apply(s, Session(id, AnnounceCheck))
    ensures Shape(t) && Flow(t) && Open(t) && LockFree(t) && id in t.sess && t.sess[id].phase.Introducing?
    ensures OnlyJoiner(t, id) && NobodyLeaving(t)
    ensures OnlineNames(t) == OnlineNames(s) && forall u :: LoggedIn(t, u) == LoggedIn(s, u)
  {
    t := Apply(s, Session(id, AnnounceCheck));
    assert SessionOk(s.sess[id]);
    JoinFrame(s, id, AnnounceCheck);
    JoinKeeps(s, id, AnnounceCheck);
    ShapeStep(s, Session(id, AnnounceCheck));
    FlowStep(s, Session(id, AnnounceCheck));
  }

  lemma RefusedSecond(s: State, id: Id) returns (t: State)
    requires Shape(s) && Flow(s) && Open(s) && LockFree(s) && id in s.sess && s.sess[id].phase.Introducing?
    requires OnlyJoiner(s, id) && NobodyLeaving(s)
    ensures Enabled(s, Session(id, Introduce)) && t == Apply(s, Session(id, Introduce))
    ensures Shape(t) && Flow(t) && Open(t) && AtRest(t)
    ensures OnlineNames(t) == OnlineNames(s) && forall u :: LoggedIn(t, u) == LoggedIn(s, u)
  {
    t := Apply(s, Session(id, Introduce));
    assert SessionOk(s.sess[id]);
    JoinFrame(s, id, Introduce);
    JoinKeeps(s, id, Introduce);
    ShapeStep(s, Session(id, Introduce));
    FlowStep(s, Session(id, Introduce));
  }

  lemma RefusedRun(s: State, id: Id) returns (s1: State, t: State)
    requires Shape(s) && Flow(s) && Open(s) && LockFree(s) && OnlyJoiner(s, id) && NobodyLeaving(s)
    requires LoggedIn(s, id) && s.sess[id].phase.Announcing? && |s.queue| >= QUEUE_CAPACITY
    ensures Enabled(s, Session(id, AnnounceCheck)) && s1 == Apply(s, Session(id, AnnounceCheck))
    ensures Enabled(s1, Session(id, Introduce)) && Shape(s1) && Flow(s1)
    ensures t == Apply(s1, Session(id, Introduce)) && Shape(t) && Flow(t) && Open(t) && AtRest(t)
    ensures OnlineNames(t) == OnlineNames(s) && forall u :: LoggedIn(t, u) == LoggedIn(s, u)
    ensures IsRun(s, JoinLabels(s, id)) && t == Exec(s, JoinLabels(s, id))
  {
    s1 := RefusedFirst(s, id);
    t := RefusedSecond(s1, id);
    RunOfTwo(s, Session(id, AnnounceCheck), Session(id, Introduce));
  }

  lemma RefusedJoin(s: State, id: Id)
    requires CalmOk(s) && Open(s) && LockFree(s) && OnlyJoiner(s, id) && NobodyLeaving(s)
    requires LoggedIn(s, id) && s.sess[id].phase.Announcing? && |s.queue| >= QUEUE_CAPACITY
    ensures IsRun(s, JoinLabels(s, id)) && Open(Exec(s, JoinLabels(s, id))) && AtRest(Exec(s, JoinLabels(s, id)))
    ensures Converged(Exec(s, JoinLabels(s, id))) <==> KnownToAll(s, id)
  {
    CalmKnowsOthers(s, id);
    var s1, t := RefusedRun(s, id);
    RefusedConverges(s, id, s1, t);
  }

  /** A join converges exactly when it did not find the queue full, or everybody online knows the name without it. */
  lemma AnnouncementConverges(s: State, id: Id)
    requires CalmOk(s) && Open(s) && LockFree(s) && OnlyJoiner(s, id) && NobodyLeaving(s)
    requires LoggedIn(s, id) && s.sess[id].phase.Announcing?
    ensures IsRun(s, JoinLabels(s, id)) && Open(Exec(s, JoinLabels(s, id))) && AtRest(Exec(s, JoinLabels(s, id)))
    ensures Converged(Exec(s, JoinLabels(s, id))) <==> |s.queue| < QUEUE_CAPACITY || KnownToAll(s, id)
  {
    if |s.queue| < QUEUE_CAPACITY {
      var t := AnnouncedJoin(s, id);
      Converges(t);
    } else {
      RefusedJoin(s, id);
    }
  }

  lemma LoginFacts(s: State, id: Id)
    requires Enabled(s, Session(id, Login))
    ensures var t := Apply(s, Session(id, Login));
      && LoggedIn(t, id) && Shown(t, id) == CStr(s.sess[id].phase.raw)
      && t.accepted == s.accepted && Visited(t, id) == |s.delivered|
  {
    LoginFields(s, id);
    ShownStep(s, Session(id, Login), id);
    assert Apply(s, Session(id, Login)).sess[id] == SessionAfter(s, Session(id, Login), id);
  }

  /** The others are online as they were, and know no less. */
  lemma LoginOthers(s: State, id: Id, u: Id)
    requires Shape(s) && Flow(s) && Enabled(s, Session(id, Login)) && u != id
    ensures var t := Apply(s, Session(id, Login));
      && LoggedIn(t, u) == LoggedIn(s, u) && Shown(t, u) == Shown(s, u)
      && (LoggedIn(s, u) ==> Knowledge(s, u) <= Knowledge(t, u))
  {
    if u in s.sess {
      assert Apply(s, Session(id, Login)).sess[u] == SessionAfter(s, Session(id, Login), u);
      if LoggedIn(s, u) { KnowledgeKept(s, Session(id, Login), u); }
    }
  }

  /** A name that nobody goes by is news to the session that takes it. */
  lemma UnheardOfAtLogin(s: State, id: Id, n: Text)
    requires CalmOk(s) && NobodyLeaving(s) && Enabled(s, Session(id, Login))
    requires n == CStr(s.sess[id].phase.raw) && n !in OnlineNames(s)
    ensures var t := Apply(s, Session(id, Login)); LoggedIn(t, id) && Shown(t, id) == n && n !in Introduced(t, id, id)
  {
    var t := Apply(s, Session(id, Login));
    LoginFacts(s, id);
    SoundLogin(s, id);
    LiveAtRest(s);
    forall v | v in t.list && v != id && LoggedIn(t, v)
      ensures Shown(t, v) != n
    {
      LoginOthers(s, id, v);
    }
  }

  /** A name that somebody goes by is known already, and the introduction brings it. */
  lemma HeardOfAtLogin(s: State, id: Id, n: Text, v: Id)
    requires CalmOk(s) && OnlyJoiner(s, id) && Enabled(s, Session(id, Login))
    requires n == CStr(s.sess[id].phase.raw) && LoggedIn(s, v) && Shown(s, v) == n
    ensures KnownToAll(Apply(s, Session(id, Login)), id)
  {
    var t := Apply(s, Session(id, Login));
    LoginFacts(s, id);
    assert Checked(s, id) && SessionOk(s.sess[v]) && v in s.list;
    LoginOthers(s, id, v);
    forall u | LoggedIn(t, u)
      ensures n in Introduced(t, id, u)
    {
      if u == id {
        assert v in t.list && n in NamesOf(t, t.list, id);
      } else {
        LoginOthers(s, id, u);
        assert Due(s, u, v) && Knows(s, u, v);
      }
    }
  }

  /** A login steps in among sessions at rest. */
  lemma LoginJoins(s: State, id: Id)
    requires CalmOk(s) && Open(s) && OnlyJoiner(s, id) && NobodyLeaving(s) && Enabled(s, Session(id, Login))
    ensures var t := Apply(s, Session(id, Login));
      && CalmOk(t) && Open(t) && LockFree(t) && OnlyJoiner(t, id) && NobodyLeaving(t)
      && LoggedIn(t, id) && t.sess[id].phase.Announcing? && t.queue == s.queue
  {
    var l := Session(id, Login);
    var t := Apply(s, l);
    CalmStep(s, l);
    forall u
      ensures !Leaving(t, u)
      ensures u in t.sess && u != id ==> !Joining(t.sess[u].phase)
    {
      LiveFacts(s, l, u);
      if u in s.sess { assert t.sess[u] == SessionAfter(s, l, u); }
    }
  }

  lemma KnownAtLogin(s: State, id: Id, n: Text)
    requires CalmOk(s) && OnlyJoiner(s, id) && NobodyLeaving(s) && Enabled(s, Session(id, Login))
    requires n == CStr(s.sess[id].phase.raw)
    ensures KnownToAll(Apply(s, Session(id, Login)), id) <==> n in OnlineNames(s)
  {
    if n in OnlineNames(s) {
      var v :| v in s.sess && LoggedIn(s, v) && Shown(s, v) == n;
      HeardOfAtLogin(s, id, n, v);
    } else {
      UnheardOfAtLogin(s, id, n);
    }
  }

  /**
   So a login among sessions at rest leaves the server converging exactly when its announcement
   does not find the queue full, or somebody else went by the name already.
   */
  lemma JoinConverges(s: State, id: Id)
    requires CalmOk(s) && Open(s) && OnlyJoiner(s, id) && NobodyLeaving(s) && Enabled(s, Session(id, Login))
    ensures var t := Apply(s, Session(id, Login));
      && IsRun(t, JoinLabels(t, id)) && AtRest(Exec(t, JoinLabels(t, id))) && Open(Exec(t, JoinLabels(t, id)))
      && (Converged(Exec(t, JoinLabels(t, id)))
          <==> |s.queue| < QUEUE_CAPACITY || CStr(s.sess[id].phase.raw) in OnlineNames(s))
  {
    LoginJoins(s, id);
    KnownAtLogin(s, id, CStr(s.sess[id].phase.raw));
    AnnouncementConverges(Apply(s, Session(id, Login)), id);
  }
}
