/**
 A second login of a session. The others keep the old name and are told of the new one if
 the queue has room, so once it is complete the server converges exactly if somebody else
 goes by the old name and the new one got through; with nobody else under the old name it
 stays on the rosters of everybody online for as long as nobody takes it.
 */
module ChatRelogin {
  import opened CText
  import opened ChatModel
  import opened ChatFlow
  import opened ChatNames
  import opened ChatDeparture
  import opened ChatRoster
  import opened ChatDrain
  import opened ChatConvergence

  // ---------------------------------------------------------------- a name nobody goes by

  /** A client holds, or is about to be told, a name nobody goes by. */
  ghost predicate Stale(s: State, c: Id, n: Text) {
    LoggedIn(s, c) && n in Knowledge(s, c) && forall u :: Live(s, u) ==> Shown(s, u) != n
  }

  /** The step is a login under this name. */
  predicate Takes(s: State, l: Label, n: Text) {
    l.Session? && l.step.Login? && Checked(s, l.id) && CStr(s.sess[l.id].phase.raw) == n
  }

  lemma StaleStep(s: State, l: Label, c: Id, n: Text)
    requires Shape(s) && Flow(s) && Enabled(s, l) && Stale(s, c, n) && LoggedIn(Apply(s, l), c)
    requires !Takes(s, l, n)
    ensures Stale(Apply(s, l), c, n)
  {
    var t := Apply(s, l);
    KnowledgeKept(s, l, c);
    forall u | Live(t, u)
      ensures Shown(t, u) != n
    {
      LiveFacts(s, l, u);
    }
    if l.Session? && Departs(s, l, c, l.id) {
      assert Leaving(s, l.id);
    }
  }

  /** No login of the run is under this name. */
  predicate NobodyTakes(s: State, labels: seq<Label>, n: Text)
    requires IsRun(s, labels)
    decreases |labels|
  {
    labels == [] || (!Takes(s, labels[0], n) && NobodyTakes(Apply(s, labels[0]), labels[1..], n))
  }

  lemma OutForGood(s: State, l: Label, c: Id)
    requires Shape(s) && Enabled(s, l) && c in s.sess
    ensures Ended(s.sess[c].phase) ==> Ended(Apply(s, l).sess[c].phase)
    ensures LoggedIn(s, c) && !LoggedIn(Apply(s, l), c) ==> Ended(Apply(s, l).sess[c].phase)
  {
    assert SessionOk(s.sess[c]);
    assert Apply(s, l).sess[c] == SessionAfter(s, l, c);
  }

  lemma {:induction false} EndedStaysOut(s: State, labels: seq<Label>, c: Id)
    requires Shape(s) && IsRun(s, labels) && c in s.sess && Ended(s.sess[c].phase)
    ensures !LoggedIn(Exec(s, labels), c)
    decreases |labels|
  {
    if labels == [] {
      assert SessionOk(s.sess[c]);
    } else {
      OutForGood(s, labels[0], c);
      ShapeStep(s, labels[0]);
      EndedStaysOut(Apply(s, labels[0]), labels[1..], c);
    }
  }

  /** As long as nobody takes the name, whoever stays online never gets rid of it. */
  lemma {:induction false} StaleForever(s: State, labels: seq<Label>, c: Id, n: Text)
    requires Shape(s) && Flow(s) && Stale(s, c, n) && IsRun(s, labels) && NobodyTakes(s, labels, n)
    ensures LoggedIn(Exec(s, labels), c) ==> Stale(Exec(s, labels), c, n)
    ensures LoggedIn(Exec(s, labels), c) && Open(Exec(s, labels)) ==> !Converged(Exec(s, labels))
    decreases |labels|
  {
    if labels == [] {
      if Open(s) { NotConverged(s, c, n); }
    } else {
      var t := Apply(s, labels[0]);
      ShapeStep(s, labels[0]);
      FlowStep(s, labels[0]);
      if LoggedIn(t, c) {
        StaleStep(s, labels[0], c, n);
        StaleForever(t, labels[1..], c, n);
      } else {
        OutForGood(s, labels[0], c);
        EndedStaysOut(t, labels[1..], c);
      }
    }
  }

  // ---------------------------------------------------------------- checked and logged in again

  /** Checked again while online, and then logged in. */
  function SecondLogin(x: Id, raw: RawName): seq<Label> { [Session(x, CheckName(raw)), Session(x, Login)] }

  lemma CheckedSelf(s: State, x: Id, raw: RawName)
    requires Enabled(s, Session(x, CheckName(raw)))
    ensures var t := Apply(s, Session(x, CheckName(raw)));
      Enabled(t, Session(x, Login)) && t.sess[x].phase == NameChecked(raw) && t.sess[x].buf == s.sess[x].buf
  {
    assert Apply(s, Session(x, CheckName(raw))).sess[x] == SessionAfter(s, Session(x, CheckName(raw)), x);
  }

  predicate SameServer(s: State, t: State) {
    && t.accepted == s.accepted && t.delivered == s.delivered && t.agent == s.agent && t.list == s.list
    && t.queue == s.queue && t.sess.Keys == s.sess.Keys
  }

  predicate SameClient(s: State, t: State, u: Id, x: Id) {
    && u in s.sess && u in t.sess
    && LoggedIn(t, u) == LoggedIn(s, u) && Leaving(t, u) == Leaving(s, u)
    && Roster(t.sess[u].log) == Roster(s.sess[u].log)
    && (u != x ==> Shown(t, u) == Shown(s, u))
  }

  /** Everybody is where it was and has seen what it had, and all but `x` are who they were. */
  ghost predicate SameSight(s: State, t: State, x: Id) {
    SameServer(s, t) && forall u :: u in s.sess ==> SameClient(s, t, u, x)
  }

  lemma SightFrame(s: State, x: Id, step: Step)
    requires Enabled(s, Session(x, step)) && (step.CheckName? || step.Login?)
    ensures SameServer(s, Apply(s, Session(x, step)))
  {
  }

  lemma SightUser(s: State, x: Id, step: Step, u: Id)
    requires Shape(s) && Flow(s) && Enabled(s, Session(x, step)) && (step.CheckName? || step.Login?)
    requires LoggedIn(s, x) && u in s.sess
    ensures SameClient(s, Apply(s, Session(x, step)), u, x)
  {
    var l := Session(x, step);
    assert SessionOk(s.sess[u]);
    NameFields(s, l, u);
    ShownStep(s, l, u);
    RosterFact(s, l, u);
    assert Apply(s, l).sess[u] == SessionAfter(s, l, u);
  }

  lemma SightStep(s: State, x: Id, step: Step)
    requires Shape(s) && Flow(s) && LoggedIn(s, x)
    requires Enabled(s, Session(x, step)) && (step.CheckName? || step.Login?)
    ensures SameSight(s, Apply(s, Session(x, step)), x)
  {
    SightFrame(s, x, step);
    forall u | u in s.sess
      ensures SameClient(s, Apply(s, Session(x, step)), u, x)
    {
      SightUser(s, x, step, u);
    }
  }

  lemma SightFollows(s: State, s1: State, t: State, x: Id)
    requires SameSight(s, s1, x) && SameSight(s1, t, x)
    ensures SameSight(s, t, x)
  {
    forall u | u in s.sess
      ensures SameClient(s, t, u, x)
    {
      assert u in s1.sess.Keys;
      assert SameClient(s, s1, u, x) && SameClient(s1, t, u, x);
    }
  }

  /** A second login changes nobody's view, and nobody else. */
  lemma SightKept(s: State, x: Id, raw: RawName)
    requires Shape(s) && Flow(s) && LoggedIn(s, x) && Enabled(s, Session(x, CheckName(raw)))
    ensures var s1 := Apply(s, Session(x, CheckName(raw)));
      Enabled(s1, Session(x, Login)) && SameSight(s, Apply(s1, Session(x, Login)), x)
  {
    var s1 := Apply(s, Session(x, CheckName(raw)));
    ShapeStep(s, Session(x, CheckName(raw)));
    FlowStep(s, Session(x, CheckName(raw)));
    CheckedSelf(s, x, raw);
    SightStep(s, x, CheckName(raw));
    assert SameClient(s, s1, x, x);
    SightStep(s1, x, Login);
    SightFollows(s, s1, Apply(s1, Session(x, Login)), x);
  }

  lemma SightUsers(s: State, t: State, x: Id)
    requires SameSight(s, t, x)
    ensures forall u :: LoggedIn(t, u) == LoggedIn(s, u)
    ensures forall u :: LoggedIn(s, u) ==> u in t.sess && Knowledge(t, u) == Knowledge(s, u)
    ensures NamesOf(t, t.list, x) == NamesOf(s, s.list, x)
  {
    assert forall u :: u in s.sess ==> SameClient(s, t, u, x);
    assert forall u :: u in t.sess.Keys <==> u in s.sess.Keys;
    assert forall u :: LoggedIn(s, u) ==> Visited(t, u) == Visited(s, u);
  }

  lemma OnlineIs(s: State, x: Id)
    requires Shape(s) && LoggedIn(s, x)
    ensures OnlineNames(s) == NamesOf(s, s.list, x) + {Shown(s, x)}
  {
    OthersAreIntroduced(s, x);
    assert Shown(s, x) in OnlineNames(s);
  }

  /** The session is joining an open server in which nobody else joins and nobody leaves. */
  ghost predicate JoinsAlone(s: State, id: Id) {
    Shape(s) && Flow(s) && Open(s) && LockFree(s) && OnlyJoiner(s, id) && NobodyLeaving(s) && LoggedIn(s, id)
  }

  /** After a second login the session is announcing itself again. */
  lemma RejoinBegins(s: State, x: Id, raw: RawName) returns (t: State)
    requires Shape(s) && Flow(s) && AtRest(s) && Open(s) && Enabled(s, Session(x, CheckName(raw)))
    ensures IsRun(s, SecondLogin(x, raw)) && t == Exec(s, SecondLogin(x, raw))
    ensures JoinsAlone(t, x) && t.sess[x].phase.Announcing? && Shown(t, x) == CStr(raw)
  {
    var check, login := Session(x, CheckName(raw)), Session(x, Login);
    EntryStep(s, x, CheckName(raw));
    CheckedSelf(s, x, raw);
    ShapeStep(s, check);
    FlowStep(s, check);
    var s1 := Apply(s, check);
    EntryStep(s1, x, Login);
    ShownStep(s1, login, x);
    ShapeStep(s1, login);
    FlowStep(s1, login);
    t := Apply(s1, login);
    assert t.sess[x] == SessionAfter(s1, login, x);
    NobodyElseLeaves(s, s1, x);
    NobodyElseLeaves(s1, t, x);
    RunOfTwo(s, check, login);
  }

  // ---------------------------------------------------------------- the join after it

  /** The same sessions are online, under the same names. */
  ghost predicate OnlineAlike(s: State, t: State) {
    OnlineNames(t) == OnlineNames(s) && forall u :: LoggedIn(t, u) == LoggedIn(s, u)
  }

  lemma PostFrame(s: State, id: Id, u: Id)
    requires Shape(s) && Enabled(s, Session(id, Post)) && s.sess[id].phase.join
    ensures var t := Apply(s, Session(id, Post)); t.list == s.list && Visited(t, u) == Visited(s, u)
    ensures Dropped(s, Session(id, Post), u) == Added(s, Session(id, Post), u) == {}
    ensures Joined(s, Session(id, Post)) == {Shown(s, id)}
  {
  }

  /** A posted join is news to everybody. */
  lemma PostKnowledge(s: State, id: Id, u: Id)
    requires Shape(s) && Flow(s) && Enabled(s, Session(id, Post)) && s.sess[id].phase.join && LoggedIn(s, u)
    ensures var t := Apply(s, Session(id, Post));
      LoggedIn(t, u) && Knowledge(t, u) == Knowledge(s, u) + {Shown(s, id)}
  {
    var l := Session(id, Post);
    assert SessionOk(s.sess[id]);
    JoinKeepsUser(s, id, Post, u);
    PostFrame(s, id, u);
    VisitedStep(s, l, u);
    PendingGrows(s, l, Visited(s, u), Visited(s, u));
    RosterFact(s, l, u);
  }

  lemma PostedFacts(s: State, id: Id, u: Id, s1: State)
    requires Shape(s) && Flow(s) && Enabled(s, Session(id, Post)) && s.sess[id].phase.join && LoggedIn(s, u)
    requires s1 == Apply(s, Session(id, Post))
    ensures LoggedIn(s1, u) && Knowledge(s1, u) == Knowledge(s, u) + {Shown(s, id)}
    ensures NamesOf(s1, s1.list, id) == NamesOf(s, s.list, id)
  {
    assert SessionOk(s.sess[id]);
    PostKnowledge(s, id, u);
    JoinNamesOf(s, id, Post);
  }

  /** Announced with room, posted, introduced. */
  ghost predicate Posted(s: State, id: Id, s1: State, s2: State, t: State) {
    && |s.queue| < QUEUE_CAPACITY && Shape(s) && Flow(s)
    && Enabled(s, Session(id, AnnounceCheck)) && s1 == Apply(s, Session(id, AnnounceCheck)) && Shape(s1) && Flow(s1)
    && Enabled(s1, Session(id, Post)) && s1.sess[id].phase.join && s2 == Apply(s1, Session(id, Post))
    && Shape(s2) && Flow(s2) && Enabled(s2, Session(id, Introduce)) && t == Apply(s2, Session(id, Introduce))
  }

  lemma PostedKnowledge(s: State, id: Id, u: Id, s1: State, s2: State, t: State)
    requires Posted(s, id, s1, s2, t) && LoggedIn(s, u)
    ensures LoggedIn(t, u) && Knowledge(t, u) == Introduced(s, id, u) + {Shown(s, id)}
  {
    AnnouncedFacts(s, id, u, s1);
    PostedFacts(s1, id, u, s2);
    IntroducedFacts(s2, id, u, t);
  }

  /** What `u` knows when the join of `id` is complete. */
  function AfterJoin(s: State, id: Id, u: Id): set<Text>
    requires u in s.sess
  {
    Introduced(s, id, u) + if |s.queue| < QUEUE_CAPACITY then {Shown(s, id)} else {}
  }

  /** The join of `id` is complete, for everybody. */
  ghost predicate AllTold(s: State, id: Id, t: State) {
    forall u :: LoggedIn(s, u) ==> u in t.sess && Knowledge(t, u) == AfterJoin(s, id, u)
  }

  lemma PostedFirst(s: State, id: Id) returns (t: State)
    requires JoinsAlone(s, id) && |s.queue| < QUEUE_CAPACITY && s.sess[id].phase.Announcing?
    ensures Enabled(s, Session(id, AnnounceCheck)) && t == Apply(s, Session(id, AnnounceCheck))
    ensures JoinsAlone(t, id) && OnlineAlike(s, t)
    ensures |t.queue| < QUEUE_CAPACITY && t.sess[id].phase.Posting? && t.sess[id].phase.join
  {
    t := Apply(s, Session(id, AnnounceCheck));
    assert SessionOk(s.sess[id]);
    JoinGoesOn(s, id, AnnounceCheck);
    JoinKeeps(s, id, AnnounceCheck);
    ShapeStep(s, Session(id, AnnounceCheck));
    FlowStep(s, Session(id, AnnounceCheck));
  }

  lemma PostedSecond(s: State, id: Id) returns (t: State)
    requires JoinsAlone(s, id) && |s.queue| < QUEUE_CAPACITY && s.sess[id].phase.Posting? && s.sess[id].phase.join
    ensures Enabled(s, Session(id, Post)) && t == Apply(s, Session(id, Post))
    ensures JoinsAlone(t, id) && OnlineAlike(s, t) && t.sess[id].phase.Introducing?
  {
    t := Apply(s, Session(id, Post));
    assert SessionOk(s.sess[id]);
    JoinGoesOn(s, id, Post);
    JoinKeeps(s, id, Post);
    ShapeStep(s, Session(id, Post));
    FlowStep(s, Session(id, Post));
  }

  lemma PostedToAll(s: State, id: Id, s1: State, s2: State, t: State)
    requires Posted(s, id, s1, s2, t)
    ensures AllTold(s, id, t)
  {
    forall u | LoggedIn(s, u)
      ensures u in t.sess && Knowledge(t, u) == AfterJoin(s, id, u)
    {
      PostedKnowledge(s, id, u, s1, s2, t);
    }
  }

  lemma PostedEnds(s: State, id: Id) returns (t: State)
    requires JoinsAlone(s, id) && |s.queue| < QUEUE_CAPACITY && s.sess[id].phase.Announcing?
    ensures IsRun(s, JoinLabels(s, id)) && t == Exec(s, JoinLabels(s, id))
    ensures Shape(t) && Flow(t) && Open(t) && AtRest(t) && OnlineAlike(s, t) && AllTold(s, id, t)
  {
    var s1 := PostedFirst(s, id);
    var s2 := PostedSecond(s1, id);
    t := RefusedSecond(s2, id);
    RunOfThree(s, Session(id, AnnounceCheck), Session(id, Post), Session(id, Introduce));
    PostedToAll(s, id, s1, s2, t);
  }

  lemma RefusedAfter(s: State, id: Id, u: Id, s1: State, t: State)
    requires Shape(s) && Flow(s) && Enabled(s, Session(id, AnnounceCheck)) && LoggedIn(s, u)
    requires |s.queue| >= QUEUE_CAPACITY && s1 == Apply(s, Session(id, AnnounceCheck))
    requires Enabled(s1, Session(id, Introduce)) && Shape(s1) && Flow(s1) && t == Apply(s1, Session(id, Introduce))
    ensures u in t.sess && Knowledge(t, u) == AfterJoin(s, id, u)
  {
    RefusedKnowledge(s, id, u, s1, t);
  }

  lemma RefusedEnds(s: State, id: Id) returns (t: State)
    requires JoinsAlone(s, id) && |s.queue| >= QUEUE_CAPACITY && s.sess[id].phase.Announcing?
    ensures IsRun(s, JoinLabels(s, id)) && t == Exec(s, JoinLabels(s, id))
    ensures Shape(t) && Flow(t) && Open(t) && AtRest(t) && OnlineAlike(s, t) && AllTold(s, id, t)
  {
    var s1;
    s1, t := RefusedRun(s, id);
    forall u | LoggedIn(s, u)
      ensures u in t.sess && Knowledge(t, u) == AfterJoin(s, id, u)
    {
      RefusedAfter(s, id, u, s1, t);
    }
  }

  /** A join comes to its end whether or not the server is calm. */
  lemma JoinEnds(s: State, id: Id) returns (t: State)
    requires JoinsAlone(s, id) && s.sess[id].phase.Announcing?
    ensures IsRun(s, JoinLabels(s, id)) && t == Exec(s, JoinLabels(s, id))
    ensures Shape(t) && Flow(t) && Open(t) && AtRest(t) && OnlineAlike(s, t) && AllTold(s, id, t)
  {
    if |s.queue| < QUEUE_CAPACITY { t := PostedEnds(s, id); } else { t := RefusedEnds(s, id); }
  }

  // ---------------------------------------------------------------- where it ends

  /** What everybody online has in the end: the old names, and the new one if it got through. */
  function InTheEnd(s: State, raw: RawName): set<Text> {
    OnlineNames(s) + if |s.queue| < QUEUE_CAPACITY then {CStr(raw)} else {}
  }

  lemma SecondKnowledge(s: State, x: Id, raw: RawName, t: State, u: Id)
    requires CalmOk(s) && AtRest(s) && LoggedIn(s, x) && LoggedIn(s, u) && SameSight(s, t, x)
    requires Shown(t, x) == CStr(raw)
    ensures u in t.sess && AfterJoin(t, x, u) == InTheEnd(s, raw)
  {
    SightUsers(s, t, x);
    KnowledgeAtRest(s, u);
    OnlineIs(s, x);
  }

  /** Once the agent has drained the queue, everybody online has these names. */
  ghost predicate AllHave(s: State, names: set<Text>)
    requires Open(s)
  {
    forall u :: LoggedIn(s, u) ==> u in Drained(s).sess && Roster(Drained(s).sess[u].log) == names
  }

  /** A second login, and the join after it. */
  ghost predicate Rejoined(s: State, x: Id, raw: RawName, end: State) {
    && IsRun(s, SecondLogin(x, raw))
    && var t := Exec(s, SecondLogin(x, raw));
      IsRun(t, JoinLabels(t, x)) && end == Exec(t, JoinLabels(t, x))
  }

  /** Run to the end, they leave everybody with these names. */
  lemma SecondLoginRosters(s: State, x: Id, raw: RawName) returns (end: State)
    requires CalmOk(s) && AtRest(s) && Open(s) && LoggedIn(s, x) && Enabled(s, Session(x, CheckName(raw)))
    ensures Rejoined(s, x, raw, end) && AtRest(end) && Open(end) && AllHave(end, InTheEnd(s, raw))
    ensures LoggedIn(end, x) && OnlineNames(end) == NamesOf(s, s.list, x) + {CStr(raw)}
  {
    var t := RejoinBegins(s, x, raw);
    RunOfTwo(s, Session(x, CheckName(raw)), Session(x, Login));
    SightKept(s, x, raw);
    SightUsers(s, t, x);
    OnlineIs(t, x);
    end := JoinEnds(t, x);
    forall u | LoggedIn(end, u)
      ensures u in Drained(end).sess && Roster(Drained(end).sess[u].log) == InTheEnd(s, raw)
    {
      SecondKnowledge(s, x, raw, t, u);
      DrainedRoster(end, u);
    }
  }

  lemma AllAlike(s: State, x: Id, names: set<Text>)
    requires Open(s) && LoggedIn(s, x) && AllHave(s, names)
    ensures Converged(s) <==> names == OnlineNames(s)
  {
  }

  lemma SecondSets(others: set<Text>, left: Text, taken: Text, room: bool)
    ensures others + {left} + (if room then {taken} else {}) == others + {taken}
            <==> left in others + {taken} && (room || taken in others + {left})
  {
  }

  lemma EndIsRight(s: State, x: Id, raw: RawName)
    requires Shape(s) && LoggedIn(s, x)
    ensures InTheEnd(s, raw) == NamesOf(s, s.list, x) + {CStr(raw)}
            <==> Shown(s, x) in NamesOf(s, s.list, x) + {CStr(raw)}
                 && (|s.queue| < QUEUE_CAPACITY || CStr(raw) in OnlineNames(s))
  {
    OnlineIs(s, x);
    SecondSets(NamesOf(s, s.list, x), Shown(s, x), CStr(raw), |s.queue| < QUEUE_CAPACITY);
  }

  /**
   A second login, its join completed, leaves a server at rest converging exactly when the old name
   is still somebody's and the new one got through, or was somebody's before.
   */
  lemma SecondLoginConverges(s: State, x: Id, raw: RawName) returns (end: State)
    requires CalmOk(s) && AtRest(s) && Open(s) && LoggedIn(s, x) && Enabled(s, Session(x, CheckName(raw)))
    ensures Rejoined(s, x, raw, end) && AtRest(end) && Open(end)
    ensures Converged(end)
            <==> Shown(s, x) in NamesOf(s, s.list, x) + {CStr(raw)}
                 && (|s.queue| < QUEUE_CAPACITY || CStr(raw) in OnlineNames(s))
  {
    end := SecondLoginRosters(s, x, raw);
    AllAlike(end, x, InTheEnd(s, raw));
    EndIsRight(s, x, raw);
  }

  /** The check refuses every name in use, so among users without tails the new name is nobody's. */
  lemma CheckedIsNew(s: State, x: Id, raw: RawName)
    requires Shape(s) && Whole(s) && Enabled(s, Session(x, CheckName(raw)))
    ensures CStr(raw) !in OnlineNames(s)
  {
    forall u | LoggedIn(s, u)
      ensures Shown(s, u) != CStr(raw)
    {
      assert SessionOk(s.sess[u]) && u in s.list;
    }
  }

  /** With unique names and no tails, as after every calm run that respects names, it never does. */
  lemma SecondLoginDiverges(s: State, x: Id, raw: RawName) returns (end: State)
    requires CalmOk(s) && AtRest(s) && Open(s) && LoggedIn(s, x) && Enabled(s, Session(x, CheckName(raw)))
    requires Whole(s) && OneOnline(s, Name(s, x))
    ensures Rejoined(s, x, raw, end) && AtRest(end) && Open(end) && !Converged(end)
  {
    end := SecondLoginConverges(s, x, raw);
    CheckedIsNew(s, x, raw);
    assert Shown(s, x) in OnlineNames(s);
    forall u | u in s.list && u != x && LoggedIn(s, u)
      ensures Shown(s, u) != Shown(s, x)
    {
      assert Name(s, u) == Shown(s, u) && Name(s, x) == Shown(s, x);
    }
  }

  lemma SecondIsStale(s: State, x: Id, raw: RawName, t: State, c: Id)
    requires CalmOk(s) && AtRest(s) && LoggedIn(s, x) && LoggedIn(s, c) && SameSight(s, t, x)
    requires Shown(t, x) == CStr(raw) != Shown(s, x) && Shown(s, x) !in NamesOf(s, s.list, x) && NobodyLeaving(t)
    ensures Stale(t, c, Shown(s, x))
  {
    SightUsers(s, t, x);
    KnowledgeAtRest(s, c);
    assert Shown(s, x) in OnlineNames(s);
    forall u | Live(t, u)
      ensures Shown(t, u) != Shown(s, x)
    {
      assert LoggedIn(t, u) && LoggedIn(s, u) && SessionOk(s.sess[u]) && u in s.list;
      assert SameClient(s, t, u, x);
    }
  }

  /**
   Once a session at rest among calm others has logged in a second time under another name, and
   nobody else goes by the old one, no run on which nobody takes it ever brings the server to
   converge again for whoever stays online.
   */
  lemma SecondLoginNeverConverges(s: State, x: Id, raw: RawName, c: Id, labels: seq<Label>)
    requires CalmOk(s) && AtRest(s) && Open(s) && LoggedIn(s, x) && LoggedIn(s, c)
    requires Enabled(s, Session(x, CheckName(raw)))
    requires CStr(raw) != Shown(s, x) && Shown(s, x) !in NamesOf(s, s.list, x)
    ensures IsRun(s, SecondLogin(x, raw))
    ensures var t := Exec(s, SecondLogin(x, raw));
      IsRun(t, labels) && NobodyTakes(t, labels, Shown(s, x)) && LoggedIn(Exec(t, labels), c) && Open(Exec(t, labels))
      ==> !Converged(Exec(t, labels))
  {
    var t := RejoinBegins(s, x, raw);
    RunOfTwo(s, Session(x, CheckName(raw)), Session(x, Login));
    SightKept(s, x, raw);
    SecondIsStale(s, x, raw, t, c);
    if IsRun(t, labels) && NobodyTakes(t, labels, Shown(s, x)) { StaleForever(t, labels, c, Shown(s, x)); }
  }

  /**
   What is stored and what is shown can part: whoever logs in again under the first byte of its name
   is stored under the whole name still and shown under that byte.
   */
  lemma FirstByteKeepsName(buf: NameBuffer)
    requires CStr(buf) != []
    ensures var first := [CStr(buf)[0]];
      && CStr(StrNCpy(buf, first, 1)) == CStr(buf)
      && Seen(StrNCpy(buf, first, 1), 1) == first
  {
    var first := [CStr(buf)[0]];
    assert first[0] == buf[0] && first[0] in CStr(buf);
    CStrIdentity(first);
    SeenAfterCopy(buf, first);
    assert StrNCpy(buf, first, 1) == buf;
  }
}
