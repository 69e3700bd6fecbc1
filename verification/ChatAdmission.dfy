/**
 Calm schedules exist: whatever a calm server has been through, with nobody joining it can
 let one more newcomer in and be calm again. So the results about calm runs speak of servers
 with any number of users. And a calm run can lead to where the next step is not calm: to a
 name taken over while its previous owner is leaving, a join that finds the queue full, and
 a second login. All runs built here respect the conditions on names as well.
 */
module ChatAdmission {
  import opened CText
  import opened ChatModel
  import opened ChatFlow
  import opened ChatNames
  import opened ChatRoster
  import opened ChatDrain
  import opened ChatConvergence
  import opened ChatRelogin
  import opened ChatRuns
  import opened ChatRace

  lemma AllIsCalm(s: State)
    requires ReachableWith(AllCare, s)
    ensures CalmOk(s) && Whole(s)
  {
    ReachesWithMore(AllCare, RosterCare, s);
    ReachableIsCalm(s);
  }

  lemma UnclaimedIsFree(s: State, id: Id, n: Text)
    requires Newcomer(s, id) && !ClaimedByOther(s, id, n)
    ensures NameFree(s, n)
  {
    assert forall u :: LoggedIn(s, u) && Name(s, u) == n ==> Claims(s, u, n);
  }

  lemma NewcomerIsCareful(s: State, id: Id, raw: RawName)
    requires Newcomer(s, id) && !ClaimedByOther(s, id, CStr(raw))
    ensures Careful(s, Session(id, CheckName(raw)))
  {
    StoredWhole(s.sess[id], raw);
  }

  lemma CalmCheck(s: State, id: Id, raw: RawName)
    requires ReachableWith(AllCare, s) && OnlyJoiner(s, id) && Open(s) && LockFree(s)
    requires Newcomer(s, id) && !ClaimedByOther(s, id, CStr(raw)) && !Forbidden(CStr(raw))
    ensures var l := Session(id, CheckName(raw));
      && Enabled(s, l) && ReachableWith(AllCare, Apply(s, l))
      && OthersSame(s, Apply(s, l), id) && OnlyJoiner(Apply(s, l), id)
      && Cleared(Apply(s, l), id, raw) && LockFree(Apply(s, l)) && Open(Apply(s, l)) && Apply(s, l).queue == s.queue
  {
    var l := Session(id, CheckName(raw));
    UnclaimedIsFree(s, id, CStr(raw));
    CheckClears(s, id, raw);
    NewcomerIsCareful(s, id, raw);
    EntryStep(s, id, CheckName(raw));
    ReachesNext(AllCare, s, l);
  }

  lemma CalmLogin(s: State, id: Id, raw: RawName)
    requires ReachableWith(AllCare, s) && OnlyJoiner(s, id) && Cleared(s, id, raw) && LockFree(s) && Open(s)
    ensures var l := Session(id, Login);
      && Enabled(s, l) && ReachableWith(AllCare, Apply(s, l))
      && OthersSame(s, Apply(s, l), id) && OnlyJoiner(Apply(s, l), id)
      && LoggedIn(Apply(s, l), id) && Name(Apply(s, l), id) == CStr(raw) && Apply(s, l).sess[id].phase.Announcing?
      && LockFree(Apply(s, l)) && Open(Apply(s, l)) && Apply(s, l).queue == s.queue
  {
    LoginTakes(s, id, raw);
    StoredWhole(s.sess[id], raw);
    EntryStep(s, id, Login);
    ReachesNext(AllCare, s, Session(id, Login));
  }

  lemma CalmPost(s: State, id: Id, step: Step) returns (t: State)
    requires ReachableWith(AllCare, s) && OnlyJoiner(s, id) && LockFree(s) && Open(s) && |s.queue| < QUEUE_CAPACITY
    requires LoggedIn(s, id) && Enabled(s, Session(id, step))
    requires step.AnnounceCheck? || (step.Post? && s.sess[id].phase.join)
    ensures t == Apply(s, Session(id, step))
    ensures ReachableWith(AllCare, t) && OthersSame(s, t, id) && OnlyJoiner(t, id) && LockFree(t) && Open(t)
    ensures LoggedIn(t, id) && Name(t, id) == Name(s, id)
    ensures step.AnnounceCheck? ==> t.queue == s.queue && t.sess[id].phase.Posting? && t.sess[id].phase.join
    ensures step.Post? ==> t.sess[id].phase.Introducing?
  {
    t := Apply(s, Session(id, step));
    ReachesNext(AllCare, s, Session(id, step));
    EntryStep(s, id, step);
    AllIsCalm(s);
    assert SessionOk(s.sess[id]);
    JoinGoesOn(s, id, step);
    JoinFrame(s, id, step);
  }

  lemma CalmIntroduce(s: State, id: Id) returns (t: State)
    requires ReachableWith(AllCare, s) && OnlyJoiner(s, id) && LockFree(s) && Open(s)
    requires LoggedIn(s, id) && s.sess[id].phase.Introducing?
    ensures ReachableWith(AllCare, t) && NobodyJoining(t) && Open(t) && LockFree(t) && OthersSame(s, t, id)
    ensures LoggedIn(t, id) && Name(t, id) == Name(s, id) && t.sess[id].phase.Reading?
  {
    t := Apply(s, Session(id, Introduce));
    ReachesNext(AllCare, s, Session(id, Introduce));
    EntryStep(s, id, Introduce);
    JoinFrame(s, id, Introduce);
  }

  lemma CalmFinish(s: State, id: Id) returns (t: State)
    requires ReachableWith(AllCare, s) && OnlyJoiner(s, id) && LockFree(s) && Open(s) && |s.queue| < QUEUE_CAPACITY
    requires LoggedIn(s, id) && s.sess[id].phase.Announcing?
    ensures ReachableWith(AllCare, t) && NobodyJoining(t) && Open(t) && LockFree(t) && OthersSame(s, t, id)
    ensures LoggedIn(t, id) && Name(t, id) == Name(s, id) && t.sess[id].phase.Reading?
  {
    var s1 := CalmPost(s, id, AnnounceCheck);
    var s2 := CalmPost(s1, id, Post);
    t := CalmIntroduce(s2, id);
  }

  /**
   A calm server in which nobody is joining, not paused and with room in the queue, can admit
   any newcomer under any free valid name, and then converges if nobody is leaving.
   */
  lemma Admission(s: State, id: Id, raw: RawName) returns (t: State)
    requires ReachableWith(AllCare, s) && NobodyJoining(s) && Open(s) && LockFree(s) && |s.queue| < QUEUE_CAPACITY
    requires Newcomer(s, id) && !ClaimedByOther(s, id, CStr(raw)) && !Forbidden(CStr(raw))
    ensures ReachableWith(AllCare, t) && NobodyJoining(t) && LockFree(t) && OthersSame(s, t, id)
    ensures LoggedIn(t, id) && Name(t, id) == CStr(raw) && t.sess[id].phase.Reading?
    ensures Open(t) && (NobodyLeaving(s) ==> AtRest(t) && Converged(t))
  {
    CalmCheck(s, id, raw);
    var s1 := Apply(s, Session(id, CheckName(raw)));
    CalmLogin(s1, id, raw);
    var s2 := Apply(s1, Session(id, Login));
    t := CalmFinish(s2, id);
    if NobodyLeaving(s) {
      NobodyElseLeaves(s, t, id);
      AllIsCalm(t);
      Converges(t);
    }
  }

  // ---------------------------------------------------------------- a reused name

  lemma {:induction false} CalmDrained(s: State)
    requires ReachableWith(AllCare, s) && Open(s)
    ensures ReachableWith(AllCare, Drained(s)) && Open(Drained(s))
    decreases |s.queue|, Rank(s), UsersLeft(s)
  {
    if !Settled(s) {
      AgentProgress(s);
      ReachesNext(AllCare, s, Agent(AgentNext(s)));
      CalmDrained(Apply(s, Agent(AgentNext(s))));
    }
  }

  ghost predicate SameUsers(s: State, t: State) {
    && t.admin == s.admin && t.sess.Keys == s.sess.Keys
    && forall u :: u in s.sess ==> SameUser(s.sess[u], t.sess[u])
  }

  ghost predicate NobodyChecked(s: State) { forall u :: !Checked(s, u) }

  /** Nothing on its way, nobody between two steps of joining, no pause held. */
  ghost predicate Still(s: State) { NobodyJoining(s) && NobodyChecked(s) && Open(s) && Settled(s) }

  lemma SameUsersStill(s: State, t: State)
    requires SameUsers(s, t) && NobodyJoining(s) && NobodyChecked(s)
    ensures NobodyJoining(t) && NobodyChecked(t)
  {
    forall u | u in t.sess
      ensures !Joining(t.sess[u].phase) && !Checked(t, u)
    {
      assert u in s.sess.Keys;
      assert SameUser(s.sess[u], t.sess[u]) && !Checked(s, u);
    }
  }

  lemma Quieted(s: State) returns (t: State)
    requires ReachableWith(AllCare, s) && NobodyJoining(s) && Open(s) && NobodyChecked(s)
    ensures ReachableWith(AllCare, t) && Still(t) && SameUsers(s, t)
  {
    t := Drained(s);
    assert ReachableWith(AllCare, t) && Open(t) by { CalmDrained(s); }
    assert Settled(t) by {
      AllIsCalm(s);
      DrainedEmpties(s);
    }
    DrainedFrame(s);
    SameUsersStill(s, t);
  }

  lemma ConnectStill(s: State, id: Id)
    requires Still(s) && id !in s.sess
    ensures Enabled(s, Connect(id)) && Still(Apply(s, Connect(id))) && Newcomer(Apply(s, Connect(id)), id)
    ensures Apply(s, Connect(id)).sess == s.sess[id := NewSession] && Apply(s, Connect(id)).admin == s.admin
  {
    var l := Connect(id);
    var t := Apply(s, l);
    ConnectFrame(s, id);
    forall u
      ensures !Checked(t, u)
    {
      assert !Checked(s, u);
    }
  }

  lemma LogoutStill(s: State, id: Id)
    requires Still(s) && LoggedIn(s, id) && s.sess[id].phase.Reading? && s.sess[id].nameLength > 0
    ensures Enabled(s, Session(id, Logout)) && Still(Apply(s, Session(id, Logout)))
    ensures var t := Apply(s, Session(id, Logout));
      Leaving(t, id) && Name(t, id) == Name(s, id) && t.sess.Keys == s.sess.Keys && !LoggedIn(t, id)
  {
    var l := Session(id, Logout);
    var t := Apply(s, l);
    forall u | u in s.sess
      ensures !Joining(t.sess[u].phase) && !Checked(t, u)
    {
      assert t.sess[u] == SessionAfter(s, l, u);
      assert !Checked(s, u);
    }
    assert t.sess[id] == SessionAfter(s, l, id);
  }

  lemma AdmissionStill(s: State, t: State, id: Id)
    requires NobodyChecked(s) && OthersSame(s, t, id) && LoggedIn(t, id) && t.sess[id].phase.Reading?
    ensures NobodyChecked(t)
  {
    forall u
      ensures !Checked(t, u)
    {
      if u in t.sess && u != id {
        assert u in s.sess.Keys;
        assert t.sess[u] == s.sess[u] && !Checked(s, u);
      }
    }
  }

  lemma FreeIsUnclaimed(s: State, id: Id, n: Text)
    requires ReachableWith(AllCare, s) && NobodyChecked(s) && NameFree(s, n)
    ensures !ClaimedByOther(s, id, n)
  {
    AllIsCalm(s);
    forall v
      ensures !Claims(s, v, n)
    {
      assert !Checked(s, v);
      if LoggedIn(s, v) { assert SessionOk(s.sess[v]); }
    }
  }

  /** Admit a newcomer and let the agent tell everybody. */
  lemma QuietAdmission(s: State, id: Id, raw: RawName) returns (t: State)
    requires ReachableWith(AllCare, s) && Still(s) && Newcomer(s, id) && NameFree(s, CStr(raw)) && !Forbidden(CStr(raw))
    ensures ReachableWith(AllCare, t) && Still(t) && t.sess.Keys == s.sess.Keys && t.admin == s.admin
    ensures LoggedIn(t, id) && Name(t, id) == CStr(raw) && t.sess[id].phase.Reading?
    ensures forall u :: u in s.sess && u != id ==> SameUser(s.sess[u], t.sess[u])
  {
    FreeIsUnclaimed(s, id, CStr(raw));
    var s1 := Admission(s, id, raw);
    AdmissionStill(s, s1, id);
    t := Quieted(s1);
    assert SameUser(s1.sess[id], t.sess[id]);
    forall u | u in s.sess && u != id
      ensures SameUser(s.sess[u], t.sess[u])
    {
      assert s1.sess[u] == s.sess[u] && SameUser(s1.sess[u], t.sess[u]);
    }
  }

  lemma FirstConnects(admin: Text) returns (s: State)
    requires admin != []
    ensures ReachableWith(AllCare, s) && Still(s) && s.sess.Keys == {1} && s.admin == admin && Newcomer(s, 1)
    ensures forall n :: NameFree(s, n)
  {
    var s0 := Init(admin);
    assert RunWith(AllCare, s0, []) && IsRun(s0, []) && Exec(s0, []) == s0;
    ConnectStill(s0, 1);
    ReachesNext(AllCare, s0, Connect(1));
    s := Apply(s0, Connect(1));
  }

  /** One user, alone and at rest. */
  lemma FirstUser(admin: Text, raw: RawName) returns (s: State)
    requires admin != [] && !Forbidden(CStr(raw))
    ensures ReachableWith(AllCare, s) && Still(s) && s.sess.Keys == {1} && s.admin == admin
    ensures LoggedIn(s, 1) && Name(s, 1) == CStr(raw) && s.sess[1].phase.Reading?
  {
    var s1 := FirstConnects(admin);
    s := QuietAdmission(s1, 1, raw);
  }

  /** It leaves, */
  lemma FirstLeaves(s: State) returns (t: State)
    requires ReachableWith(AllCare, s) && Still(s) && s.sess.Keys == {1} && LoggedIn(s, 1) && s.sess[1].phase.Reading?
    ensures ReachableWith(AllCare, t) && Still(t) && t.sess.Keys == {1}
    ensures Leaving(t, 1) && Name(t, 1) == Name(s, 1) && !LoggedIn(t, 1)
  {
    assert SessionOk(s.sess[1]) by { AllIsCalm(s); }
    LogoutStill(s, 1);
    ReachesNext(AllCare, s, Session(1, Logout));
    t := Apply(s, Session(1, Logout));
  }

  /** a newcomer connects, */
  lemma SecondConnects(s: State, name: Text) returns (t: State)
    requires ReachableWith(AllCare, s) && Still(s) && s.sess.Keys == {1} && Leaving(s, 1) && !LoggedIn(s, 1)
    ensures ReachableWith(AllCare, t) && Still(t) && t.sess.Keys == {1, 2} && Newcomer(t, 2)
    ensures Leaving(t, 1) && Name(t, 1) == Name(s, 1) && NameFree(t, name)
  {
    ConnectStill(s, 2);
    ReachesNext(AllCare, s, Connect(2));
    t := Apply(s, Connect(2));
  }

  /** and before the departure walk of the first runs, the second takes its name. */
  lemma NameTakenOver(admin: Text, raw: RawName) returns (s: State)
    requires admin != [] && !Forbidden(CStr(raw))
    ensures ReachableWith(AllCare, s) && Still(s) && s.sess.Keys == {1, 2}
    ensures Leaving(s, 1) && LoggedIn(s, 2) && Name(s, 1) == CStr(raw) == Name(s, 2)
  {
    var s1 := FirstUser(admin, raw);
    var s2 := FirstLeaves(s1);
    var s3 := SecondConnects(s2, CStr(raw));
    s := QuietAdmission(s3, 2, raw);
    assert SameUser(s3.sess[1], s.sess[1]);
  }

  /** Once the only session that was leaving has told the others, the server is at rest. */
  lemma LastToLeave(s: State, x: Id)
    requires Shape(s) && NobodyJoining(s) && LockFree(s) && Leaving(s, x) && forall u :: Leaving(s, u) ==> u == x
    ensures Enabled(s, Session(x, Notify)) && AtRest(Apply(s, Session(x, Notify)))
  {
    var l := Session(x, Notify);
    forall u
      ensures !Leaving(Apply(s, l), u) && (u in s.sess ==> !Joining(Apply(s, l).sess[u].phase))
    {
      LiveFacts(s, l, u);
      if u in s.sess { assert Apply(s, l).sess[u] == SessionAfter(s, l, u); }
    }
  }

  lemma TakenOverDiverges(s: State)
    requires CalmOk(s) && Still(s) && s.sess.Keys == {1, 2}
    requires Leaving(s, 1) && LoggedIn(s, 2) && Shown(s, 2) == Shown(s, 1)
    ensures Enabled(s, Session(1, Notify))
    ensures var t := Apply(s, Session(1, Notify)); AtRest(t) && Open(t) && !Converged(t)
  {
    CalmIsInformed(s);
    LastToLeave(s, 1);
    ReusedName(s, 1, 2);
    assert Pending(s.accepted, |s.delivered|) == {};
  }

  /** So for every valid name a calm run leads to a departure walk after which the server does not converge. */
  lemma ReusedNameIsLost(admin: Text, raw: RawName) returns (s: State)
    requires admin != [] && !Forbidden(CStr(raw))
    ensures ReachableWith(AllCare, s) && Enabled(s, Session(1, Notify)) && Leaving(s, 1)
    ensures LoggedIn(s, 2) && Name(s, 2) == CStr(raw) == Name(s, 1)
    ensures var t := Apply(s, Session(1, Notify)); AtRest(t) && Open(t) && !Converged(t)
  {
    s := NameTakenOver(admin, raw);
    AllIsCalm(s);
    assert Shown(s, 1) == Name(s, 1) && Shown(s, 2) == Name(s, 2);
    TakenOverDiverges(s);
  }

  // ---------------------------------------------------------------- a join that finds the queue full

  lemma CalmRoom(s: State, id: Id, text: Text) returns (t: State)
    requires ReachableWith(AllCare, s) && OnlyJoiner(s, id) && Open(s) && s.agent.Idle? && |s.queue| < QUEUE_CAPACITY
    requires id in s.sess && s.sess[id].phase.Reading?
    ensures ReachableWith(AllCare, t) && OnlyJoiner(t, id) && Open(t) && t.agent.Idle? && t.queue == s.queue
    ensures OthersSame(s, t, id) && t.sess[id].phase.Posting? && !t.sess[id].phase.join
    ensures t.sess[id].buf == s.sess[id].buf
  {
    var l := Session(id, ChatCheck(text));
    t := Apply(s, l);
    EntryStep(s, id, ChatCheck(text));
    ReachesNext(AllCare, s, l);
    assert t.sess[id] == SessionAfter(s, l, id);
  }

  lemma CalmPostChat(s: State, id: Id) returns (t: State)
    requires ReachableWith(AllCare, s) && OnlyJoiner(s, id) && Open(s) && s.agent.Idle? && |s.queue| < QUEUE_CAPACITY
    requires id in s.sess && s.sess[id].phase.Posting? && !s.sess[id].phase.join
    ensures ReachableWith(AllCare, t) && NobodyJoining(t) && Open(t) && t.agent.Idle? && |t.queue| == |s.queue| + 1
    ensures OthersSame(s, t, id) && t.sess[id].phase.Reading? && t.sess[id].buf == s.sess[id].buf
  {
    var l := Session(id, Post);
    t := Apply(s, l);
    EntryStep(s, id, Post);
    ReachesNext(AllCare, s, l);
    assert t.sess[id] == SessionAfter(s, l, id);
  }

  /** A user at rest checks for room and posts; the others and the agent do nothing. */
  lemma CalmChat(s: State, id: Id, text: Text) returns (t: State)
    requires ReachableWith(AllCare, s) && NobodyJoining(s) && Open(s) && s.agent.Idle? && |s.queue| < QUEUE_CAPACITY
    requires id in s.sess && s.sess[id].phase.Reading?
    ensures ReachableWith(AllCare, t) && NobodyJoining(t) && Open(t) && t.agent.Idle? && |t.queue| == |s.queue| + 1
    ensures OthersSame(s, t, id) && t.sess[id].phase.Reading? && t.sess[id].buf == s.sess[id].buf
  {
    var s1 := CalmRoom(s, id, text);
    t := CalmPostChat(s1, id);
  }

  lemma {:induction false} CalmFillUp(s: State, id: Id, text: Text) returns (t: State)
    requires ReachableWith(AllCare, s) && NobodyJoining(s) && Open(s) && s.agent.Idle? && |s.queue| <= QUEUE_CAPACITY
    requires id in s.sess && s.sess[id].phase.Reading?
    ensures ReachableWith(AllCare, t) && NobodyJoining(t) && Open(t) && t.agent.Idle? && |t.queue| == QUEUE_CAPACITY
    ensures OthersSame(s, t, id) && t.sess[id].phase.Reading? && t.sess[id].buf == s.sess[id].buf
    decreases QUEUE_CAPACITY - |s.queue|
  {
    if |s.queue| == QUEUE_CAPACITY {
      t := s;
    } else {
      var s1 := CalmChat(s, id, text);
      t := CalmFillUp(s1, id, text);
      assert OthersSame(s, s1, id) && OthersSame(s1, t, id);
    }
  }

  lemma UserAndNewcomer(admin: Text, raw: RawName) returns (s: State)
    requires admin != [] && !Forbidden(CStr(raw))
    ensures ReachableWith(AllCare, s) && Still(s) && s.sess.Keys == {1, 2} && Newcomer(s, 2)
    ensures s.admin == admin && LoggedIn(s, 1) && s.sess[1].phase.Reading? && Name(s, 1) == CStr(raw)
  {
    var s1 := FirstUser(admin, raw);
    ConnectStill(s1, 2);
    ReachesNext(AllCare, s1, Connect(2));
    s := Apply(s1, Connect(2));
    assert s.sess[1] == s1.sess[1];
  }

  /** One user at rest, a newcomer, and the queue full. */
  lemma FullQueue(admin: Text, raw: RawName, text: Text) returns (s: State)
    requires admin != [] && !Forbidden(CStr(raw))
    ensures ReachableWith(AllCare, s) && AtRest(s) && Open(s) && LockFree(s) && |s.queue| == QUEUE_CAPACITY
    ensures s.sess.Keys == {1, 2} && Newcomer(s, 2)
    ensures s.sess[1].phase.Reading? && Name(s, 1) == CStr(raw)
  {
    var s1 := UserAndNewcomer(admin, raw);
    s := CalmFillUp(s1, 1, text);
    assert s.sess[2] == s1.sess[2];
    assert forall u :: u in s.sess ==> u == 1 || u == 2;
  }

  lemma UnclaimedBesideOne(s: State, n: Text)
    requires s.sess.Keys == {1, 2} && s.sess[1].phase.Reading? && Name(s, 1) != n
    ensures !ClaimedByOther(s, 2, n)
  {
    assert forall v :: v in s.sess ==> v == 1 || v == 2;
  }

  /** Only the first user is online, under another name. */
  lemma NewsToAll(s: State, second: RawName)
    requires CalmOk(s) && Whole(s) && s.sess.Keys == {1, 2} && Cleared(s, 2, second) && Name(s, 1) != CStr(second)
    ensures CStr(second) !in OnlineNames(s)
  {
    assert Checked(s, 2) && Shown(s, 1) == Name(s, 1);
    assert forall v :: v in s.sess ==> v == 1 || v == 2;
  }

  lemma JoinLost(s: State)
    requires CalmOk(s) && Open(s) && OnlyJoiner(s, 2) && NobodyLeaving(s) && Enabled(s, Session(2, Login))
    requires CStr(s.sess[2].phase.raw) !in OnlineNames(s) && |s.queue| >= QUEUE_CAPACITY
    ensures var t := Apply(s, Session(2, Login));
      && IsRun(t, JoinLabels(t, 2)) && AtRest(Exec(t, JoinLabels(t, 2))) && Open(Exec(t, JoinLabels(t, 2)))
      && !Converged(Exec(t, JoinLabels(t, 2)))
  {
    JoinConverges(s, 2);
  }

  /**
   So a calm run leads to a login whose join finds the queue full, after which the server at rest
   does not converge.
   */
  lemma JoinIsLost(admin: Text, first: RawName, second: RawName, text: Text) returns (s: State)
    requires admin != [] && !Forbidden(CStr(first)) && !Forbidden(CStr(second)) && CStr(first) != CStr(second)
    ensures ReachableWith(AllCare, s) && Enabled(s, Session(2, Login)) && Cleared(s, 2, second)
    ensures var t := Apply(s, Session(2, Login));
      && IsRun(t, JoinLabels(t, 2)) && AtRest(Exec(t, JoinLabels(t, 2))) && Open(Exec(t, JoinLabels(t, 2)))
      && !Converged(Exec(t, JoinLabels(t, 2)))
  {
    var s1 := FullQueue(admin, first, text);
    UnclaimedBesideOne(s1, CStr(second));
    CalmCheck(s1, 2, second);
    s := Apply(s1, Session(2, CheckName(second)));
    NobodyElseLeaves(s1, s, 2);
    AllIsCalm(s);
    assert Name(s, 1) == Name(s1, 1);
    NewsToAll(s, second);
    JoinLost(s);
  }

  // ---------------------------------------------------------------- a second login

  lemma OneUserAtRest(s: State)
    requires CalmOk(s) && Still(s) && s.sess.Keys == {1} && LoggedIn(s, 1) && s.sess[1].phase.Reading?
    ensures AtRest(s) && LockFree(s) && OneOnline(s, Name(s, 1))
    ensures forall n :: n != Name(s, 1) ==> NameFree(s, n)
  {
    assert forall u :: u in s.sess ==> u == 1;
  }

  /** And a calm run leads to a second login under another name, after which the server at rest does not converge. */
  lemma RenameIsLost(admin: Text, first: RawName, second: RawName) returns (s: State, end: State)
    requires admin != [] && !Forbidden(CStr(first)) && !Forbidden(CStr(second)) && CStr(first) != CStr(second)
    ensures ReachableWith(AllCare, s) && AtRest(s) && LoggedIn(s, 1)
    ensures Rejoined(s, 1, second, end) && AtRest(end) && Open(end) && !Converged(end)
  {
    s := FirstUser(admin, first);
    AllIsCalm(s);
    OneUserAtRest(s);
    end := SecondLoginDiverges(s, 1, second);
  }
}
