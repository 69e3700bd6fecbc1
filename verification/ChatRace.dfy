/**
 The name check and the login are separate critical sections, and two sessions that
 both check before either logs in end up with the same name, whatever that name is. It
 takes no more than that, and no less: `CheckIsExact`.
 */
module ChatRace {
  import opened CText
  import opened ChatModel
  import opened ChatNames
  import opened ChatRuns

  /** A connected session that has not tried to log in. */
  predicate Newcomer(s: State, u: Id) {
    u in s.sess && s.sess[u].phase.Reading? && !s.sess[u].loggedIn && s.sess[u].buf == Zeros(NAME_ARRAY)
  }

  /** A session that has passed the name check under `raw`. */
  predicate Cleared(s: State, u: Id, raw: RawName) {
    u in s.sess && s.sess[u].phase == NameChecked(raw) && s.sess[u].buf == Zeros(NAME_ARRAY)
  }

  lemma CheckClears(s: State, u: Id, raw: RawName)
    requires Newcomer(s, u) && LockFree(s) && NameFree(s, CStr(raw)) && !Forbidden(CStr(raw))
    ensures var l := Session(u, CheckName(raw));
      && Enabled(s, l) && Cleared(Apply(s, l), u, raw)
      && LockFree(Apply(s, l)) && NameFree(Apply(s, l), CStr(raw))
      && (forall v :: v != u && Newcomer(s, v) ==> Newcomer(Apply(s, l), v))
      && (forall v :: v != u && Cleared(s, v, raw) ==> Cleared(Apply(s, l), v, raw))
  {
    var l := Session(u, CheckName(raw));
    var t := Apply(s, l);
    forall v | v in s.sess
      ensures t.sess[v].buf == s.sess[v].buf && t.sess[v].loggedIn == s.sess[v].loggedIn
      ensures v != u ==> t.sess[v].phase == s.sess[v].phase
    {
      assert t.sess[v] == SessionAfter(s, l, v);
    }
  }

  lemma LoginTakes(s: State, u: Id, raw: RawName)
    requires Cleared(s, u, raw) && LockFree(s)
    ensures var l := Session(u, Login);
      && Enabled(s, l) && LockFree(Apply(s, l))
      && LoggedIn(Apply(s, l), u) && Name(Apply(s, l), u) == CStr(raw)
      && (forall v :: v != u && Cleared(s, v, raw) ==> Cleared(Apply(s, l), v, raw))
      && (forall v :: v != u && LoggedIn(s, v) ==> LoggedIn(Apply(s, l), v) && Name(Apply(s, l), v) == Name(s, v))
  {
    var l := Session(u, Login);
    var t := Apply(s, l);
    StoredWhole(s.sess[u], raw);
    NameFields(s, l, u);
    forall v | v in s.sess && v != u
      ensures t.sess[v] == s.sess[v]
    {
      assert t.sess[v] == SessionAfter(s, l, v);
      assert t.sess[v].log == s.sess[v].log;
    }
  }

  /** A login leaves other sessions' records, and so what they will store, alone. */
  lemma LoginFrame(s: State, u: Id, v: Id)
    requires Enabled(s, Session(u, Login)) && v in s.sess && v != u
    ensures var t := Apply(s, Session(u, Login)); LockFree(t) && v in t.sess && t.sess[v] == s.sess[v]
  {
    assert Apply(s, Session(u, Login)).sess[v] == SessionAfter(s, Session(u, Login), v);
    assert s.sess[v].log + [] == s.sess[v].log;
  }

  lemma LoginStores(s: State, u: Id)
    requires Enabled(s, Session(u, Login))
    ensures var t := Apply(s, Session(u, Login));
      LoggedIn(t, u) && Name(t, u) == StoredName(s.sess[u], s.sess[u].phase.raw)
  {
    LoginFields(s, u);
    assert Apply(s, Session(u, Login)).sess[u] == SessionAfter(s, Session(u, Login), u);
  }

  /** Whoever stands between check and login with names that store alike, the two logins make duplicates. */
  lemma LoginsCollide(s: State, a: Id, b: Id)
    requires a != b && Checked(s, a) && Checked(s, b) && LockFree(s)
    requires StoredName(s.sess[a], s.sess[a].phase.raw) == StoredName(s.sess[b], s.sess[b].phase.raw)
    ensures IsRun(s, [Session(a, Login), Session(b, Login)])
    ensures var t := Exec(s, [Session(a, Login), Session(b, Login)]);
      && LoggedIn(t, a) && LoggedIn(t, b) && !UniqueNames(t)
      && Name(t, a) == Name(t, b) == StoredName(s.sess[a], s.sess[a].phase.raw)
  {
    LoginStores(s, a);
    LoginFrame(s, a, b);
    var t := Apply(s, Session(a, Login));
    LoginStores(t, b);
    LoginFrame(t, b, a);
    var t' := Apply(t, Session(b, Login));
    assert LoggedIn(t', a) && LoggedIn(t', b) && Name(t', a) == Name(t', b);
    RunOfTwo(s, Session(a, Login), Session(b, Login));
  }

  /** What a session's check changes: its own phase. */
  lemma CheckFrame(s: State, id: Id, raw: RawName, v: Id)
    requires Enabled(s, Session(id, CheckName(raw))) && v in s.sess
    ensures var t := Apply(s, Session(id, CheckName(raw)));
      && LockFree(t) && v in t.sess && t.sess[v].buf == s.sess[v].buf && t.sess[v].loggedIn == s.sess[v].loggedIn
      && t.sess[v].phase == if v == id then NameChecked(raw) else s.sess[v].phase
  {
    assert Apply(s, Session(id, CheckName(raw))).sess[v] == SessionAfter(s, Session(id, CheckName(raw)), v);
  }

  /** The check, and then the login it clears the session for. */
  function CheckAndLogin(id: Id, raw: RawName): seq<Label> { [Session(id, CheckName(raw)), Session(id, Login)] }

  /** A check, and then the logins of another checked session and of its own. */
  function CheckAndLogins(id: Id, raw: RawName, v: Id): seq<Label> {
    [Session(id, CheckName(raw)), Session(v, Login), Session(id, Login)]
  }

  lemma CheckedAlone(s: State, id: Id, raw: RawName)
    requires Enabled(s, Session(id, CheckName(raw)))
    ensures var s1 := Apply(s, Session(id, CheckName(raw)));
      && Enabled(s1, Session(id, Login))
      && StoredName(s1.sess[id], s1.sess[id].phase.raw) == StoredName(s.sess[id], raw)
      && IsRun(s, CheckAndLogin(id, raw)) && Exec(s, CheckAndLogin(id, raw)) == Apply(s1, Session(id, Login))
  {
    CheckFrame(s, id, raw, id);
    RunOfTwo(s, Session(id, CheckName(raw)), Session(id, Login));
  }

  lemma CheckedPair(s: State, id: Id, raw: RawName, v: Id)
    requires Enabled(s, Session(id, CheckName(raw))) && v != id && Checked(s, v)
    ensures var s1 := Apply(s, Session(id, CheckName(raw)));
      && Checked(s1, v) && Checked(s1, id) && LockFree(s1)
      && s1.sess[v].phase == s.sess[v].phase && s1.sess[id].phase.raw == raw
      && s1.sess[v].buf == s.sess[v].buf && s1.sess[id].buf == s.sess[id].buf
      && IsRun(s1, [Session(v, Login), Session(id, Login)])
      && IsRun(s, CheckAndLogins(id, raw, v))
      && Exec(s, CheckAndLogins(id, raw, v)) == Exec(s1, [Session(v, Login), Session(id, Login)])
  {
    var check, l1, l2 := Session(id, CheckName(raw)), Session(v, Login), Session(id, Login);
    CheckFrame(s, id, raw, v);
    CheckFrame(s, id, raw, id);
    var s1 := Apply(s, check);
    LoginFrame(s1, v, id);
    RunOfTwo(s1, l1, l2);
    RunThen(s, check, [l1, l2]);
    assert [check] + [l1, l2] == CheckAndLogins(id, raw, v);
  }

  lemma LoginDuplicates(s: State, id: Id, v: Id)
    requires Enabled(s, Session(id, Login)) && v != id && LoggedIn(s, v)
    requires Name(s, v) == StoredName(s.sess[id], s.sess[id].phase.raw)
    ensures !OneOnline(Apply(s, Session(id, Login)), Name(s, v))
  {
    LoginFrame(s, id, v);
    LoginStores(s, id);
    var t := Apply(s, Session(id, Login));
    assert LoggedIn(t, id) && LoggedIn(t, v) && Name(t, id) == Name(t, v);
  }

  /** Somebody online already goes by the name the login will store. */
  lemma TakenCollides(s: State, id: Id, raw: RawName, v: Id)
    requires Enabled(s, Session(id, CheckName(raw))) && v != id
    requires LoggedIn(s, v) && Name(s, v) == StoredName(s.sess[id], raw)
    ensures IsRun(s, CheckAndLogin(id, raw)) && !OneOnline(Exec(s, CheckAndLogin(id, raw)), Name(s, v))
  {
    CheckedAlone(s, id, raw);
    CheckFrame(s, id, raw, v);
    LoginDuplicates(Apply(s, Session(id, CheckName(raw))), id, v);
  }

  /** Somebody else is cleared for a login that will store the same name. */
  lemma SameCheckCollides(s: State, id: Id, raw: RawName, v: Id)
    requires Enabled(s, Session(id, CheckName(raw))) && v != id
    requires Checked(s, v) && StoredName(s.sess[v], s.sess[v].phase.raw) == StoredName(s.sess[id], raw)
    ensures IsRun(s, CheckAndLogins(id, raw, v))
    ensures !OneOnline(Exec(s, CheckAndLogins(id, raw, v)), StoredName(s.sess[id], raw))
  {
    CheckedPair(s, id, raw, v);
    LoginsCollide(Apply(s, Session(id, CheckName(raw))), v, id);
  }

  lemma LoginStaysUnique(s: State, id: Id, n: Text)
    requires OneClaim(s, n) && Enabled(s, Session(id, Login))
    ensures OneClaim(Apply(s, Session(id, Login)), n) && OneOnline(Apply(s, Session(id, Login)), n)
  {
    OneClaimStep(s, Session(id, Login), n);
    OneClaimOneOnline(Apply(s, Session(id, Login)), n);
  }

  lemma LoginsStayUnique(s: State, v: Id, id: Id, n: Text)
    requires OneClaim(s, n) && v != id && Checked(s, v) && Checked(s, id) && LockFree(s)
    ensures IsRun(s, [Session(v, Login), Session(id, Login)])
    ensures OneOnline(Exec(s, [Session(v, Login), Session(id, Login)]), n)
  {
    LoginFrame(s, v, id);
    LoginStaysUnique(s, v, n);
    LoginStaysUnique(Apply(s, Session(v, Login)), id, n);
    RunOfTwo(s, Session(v, Login), Session(id, Login));
  }

  lemma CarefulCheckIsSafe(s: State, id: Id, raw: RawName, n: Text)
    requires Enabled(s, Session(id, CheckName(raw))) && n == StoredName(s.sess[id], raw)
    requires OneClaim(s, n) && !ClaimedByOther(s, id, n)
    ensures IsRun(s, CheckAndLogin(id, raw)) && OneOnline(Exec(s, CheckAndLogin(id, raw)), n)
    ensures forall v :: v != id && Checked(s, v) ==>
      IsRun(s, CheckAndLogins(id, raw, v)) && OneOnline(Exec(s, CheckAndLogins(id, raw, v)), n)
  {
    var s1 := Apply(s, Session(id, CheckName(raw)));
    OneClaimStep(s, Session(id, CheckName(raw)), n);
    CheckedAlone(s, id, raw);
    LoginStaysUnique(s1, id, n);
    forall v | v != id && Checked(s, v)
      ensures IsRun(s, CheckAndLogins(id, raw, v)) && OneOnline(Exec(s, CheckAndLogins(id, raw, v)), n)
    {
      CheckedPair(s, id, raw, v);
      LoginsStayUnique(s1, v, id, n);
    }
  }

  /**
   A check is careful exactly when neither its own login, nor that after the login of another
   session that is between check and login, makes duplicates of the name it will store.
   */
  lemma CheckIsExact(s: State, id: Id, raw: RawName)
    requires Enabled(s, Session(id, CheckName(raw))) && OneClaim(s, StoredName(s.sess[id], raw))
    ensures IsRun(s, CheckAndLogin(id, raw))
    ensures forall v :: v != id && Checked(s, v) ==> IsRun(s, CheckAndLogins(id, raw, v))
    ensures var n := StoredName(s.sess[id], raw);
      Careful(s, Session(id, CheckName(raw)))
      <==> OneOnline(Exec(s, CheckAndLogin(id, raw)), n)
           && forall v :: v != id && Checked(s, v) ==> OneOnline(Exec(s, CheckAndLogins(id, raw, v)), n)
  {
    var n := StoredName(s.sess[id], raw);
    assert ClearsFor(s, Session(id, CheckName(raw)), n);
    CheckedAlone(s, id, raw);
    forall v | v != id && Checked(s, v)
      ensures IsRun(s, CheckAndLogins(id, raw, v))
    {
      CheckedPair(s, id, raw, v);
    }
    if v :| v != id && Claims(s, v, n) {
      if LoggedIn(s, v) && Name(s, v) == n { TakenCollides(s, id, raw, v); } else { SameCheckCollides(s, id, raw, v); }
    } else {
      CarefulCheckIsSafe(s, id, raw, n);
    }
  }

  /** From any state, any two newcomers can both take any free and valid name. */
  lemma RaceDuplicates(s: State, a: Id, b: Id, raw: RawName) returns (labels: seq<Label>, t: State)
    requires a != b && Newcomer(s, a) && Newcomer(s, b)
    requires LockFree(s) && NameFree(s, CStr(raw)) && !Forbidden(CStr(raw))
    ensures labels == [Session(a, CheckName(raw)), Session(b, CheckName(raw)), Session(a, Login), Session(b, Login)]
    ensures IsRun(s, labels) && t == Exec(s, labels)
    ensures LoggedIn(t, a) && LoggedIn(t, b) && Name(t, a) == CStr(raw) == Name(t, b)
    ensures !UniqueNames(t)
  {
    var l1, l2 := Session(a, CheckName(raw)), Session(b, CheckName(raw));
    var l3, l4 := Session(a, Login), Session(b, Login);
    CheckClears(s, a, raw);
    var s1 := Apply(s, l1);
    CheckClears(s1, b, raw);
    var s2 := Apply(s1, l2);
    LoginTakes(s2, a, raw);
    var s3 := Apply(s2, l3);
    LoginTakes(s3, b, raw);
    t := Apply(s3, l4);
    RunOfThree(s1, l2, l3, l4);
    labels := [l1, l2, l3, l4];
    assert labels[1..] == [l2, l3, l4];
  }

  lemma ReachesOn(s: State, labels: seq<Label>)
    requires Reachable(s) && IsRun(s, labels)
    ensures Reachable(Exec(s, labels))
  {
    var admin, before :| admin != [] && IsRun(Init(admin), before) && s == Exec(Init(admin), before);
    RunConcat(Init(admin), before, labels);
  }

  lemma ConnectFrame(s: State, id: Id)
    requires Enabled(s, Connect(id))
    ensures var t := Apply(s, Connect(id));
      && t.sess == s.sess[id := NewSession] && t.list == s.list + [id] && t.admin == s.admin
      && t.agent == s.agent && t.sem == s.sem && t.paused == s.paused && t.queue == s.queue && t.marks == s.marks
  {
    var t := Apply(s, Connect(id));
    forall u | u in s.sess
      ensures t.sess[u] == s.sess[u]
    {
      assert t.sess[u] == SessionAfter(s, Connect(id), u);
      assert s.sess[u].log + [] == s.sess[u].log;
    }
    assert t.sess == s.sess[id := NewSession];
  }

  lemma Connects(s: State, id: Id) returns (t: State)
    requires ReachableWith(AllCare, s) && id !in s.sess && LockFree(s)
    ensures ReachableWith(AllCare, t) && t.sess == s.sess[id := NewSession] && t.list == s.list + [id]
    ensures t.agent == s.agent && t.sem == s.sem && t.paused == s.paused && t.queue == s.queue
    ensures t.marks == s.marks && t.admin == s.admin
  {
    t := Apply(s, Connect(id));
    ReachesNext(AllCare, s, Connect(id));
    ConnectFrame(s, id);
  }

  lemma WithIsReachable(care: Care, s: State)
    requires ReachableWith(care, s)
    ensures Reachable(s)
  {
  }

  lemma TwoConnected(admin: Text) returns (s: State)
    requires admin != []
    ensures Reachable(s) && ReachableWith(AllCare, s) && Newcomer(s, 1) && Newcomer(s, 2)
    ensures s.admin == admin && s.sess.Keys == {1, 2} && s.list == [1, 2]
    ensures s.agent.Idle? && s.sem == 1 && !s.paused && s.queue == [] && s.marks == []
    ensures forall name :: NameFree(s, name)
  {
    var s0 := Init(admin);
    assert RunWith(AllCare, s0, []) && IsRun(s0, []) && Exec(s0, []) == s0;
    var s1 := Connects(s0, 1);
    s := Connects(s1, 2);
    WithIsReachable(AllCare, s);
  }

  /** So, for every valid name, a state in which two users have it is reachable. */
  lemma DuplicatesReachable(admin: Text, raw: RawName) returns (s: State)
    requires admin != [] && !Forbidden(CStr(raw))
    ensures Reachable(s) && !UniqueNames(s)
  {
    var start := TwoConnected(admin);
    var labels, end := RaceDuplicates(start, 1, 2, raw);
    ReachesOn(start, labels);
    s := end;
  }
}
