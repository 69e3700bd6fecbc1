/**
 When a held pause can be lifted: always, unless the admin's own session waits to post into
 the full queue that the pause keeps full. And that state is reached from the start.
 */
module ChatPause {
  import opened CText
  import opened ChatModel
  import opened ChatFlow
  import opened ChatNames
  import opened ChatGate
  import opened ChatRuns
  import opened ChatProgress
  import opened ChatAdmission
  import opened ChatRace

  /** Some run lifts the pause. */
  ghost predicate CanLift(s: State) {
    exists labels :: RunWith(AdminCare, s, labels) && IsRun(s, labels) && !Held(Exec(s, labels))
  }

  lemma LiftedAlready(s: State)
    requires !Held(s)
    ensures CanLift(s)
  {
    assert RunWith(AdminCare, s, []) && IsRun(s, []) && Exec(s, []) == s;
  }

  lemma LiftAfter(s: State, l: Label)
    requires Enabled(s, l) && GuardsAdmin(s, l) && CanLift(Apply(s, l))
    ensures CanLift(s)
  {
    var rest :| RunWith(AdminCare, Apply(s, l), rest) && IsRun(Apply(s, l), rest) && !Held(Exec(Apply(s, l), rest));
    var labels := [l] + rest;
    assert labels[0] == l && labels[1..] == rest;
    assert RunWith(AdminCare, s, labels) && IsRun(s, labels);
  }

  /** A pause is held, and this session is the admin's. */
  ghost predicate AdminHeld(s: State, a: Id) {
    Orderly(s) && Held(s) && LoggedIn(s, a) && IsAdmin(s, a)
  }

  /** With the semaphore kept by a pause the agent is between messages, so nobody keeps the user lock. */
  lemma HeldFacts(s: State)
    requires Orderly(s) && Held(s)
    ensures LockFree(s) && s.sem == 0 && (s.agent.Idle? || s.agent.Holding?)
  {
  }

  /** A step that neither renames nor ends the session, nor lifts the pause. */
  predicate Plain(step: Step) {
    !step.CheckName? && !step.Login? && !step.Logout? && !step.ResumePost? && !(step.Run? && step.command.KickUser?)
  }

  lemma PlainFields(s: State, a: Id, step: Step)
    requires Enabled(s, Session(a, step)) && Plain(step)
    ensures var t := Apply(s, Session(a, step));
      && LoggedIn(t, a) == LoggedIn(s, a) && Name(t, a) == Name(s, a) && t.admin == s.admin
      && t.sess[a].phase == PhaseAfter(s, a, step)
      && t.queue == s.queue + Enqueued(s, Session(a, step)) && t.agent == s.agent
  {
    assert Apply(s, Session(a, step)).sess[a] == SessionAfter(s, Session(a, step), a);
  }

  /** The admin's session moves on under its pause. */
  lemma AdminMoves(s: State, a: Id, step: Step) returns (t: State)
    requires AdminHeld(s, a) && Enabled(s, Session(a, step)) && Plain(step)
    ensures t == Apply(s, Session(a, step)) && AdminHeld(t, a) && t.sess[a].phase == PhaseAfter(s, a, step)
    ensures t.queue == s.queue + Enqueued(s, Session(a, step)) && t.agent == s.agent
    ensures CanLift(t) ==> CanLift(s)
  {
    var l := Session(a, step);
    t := Apply(s, l);
    PlainFields(s, a, step);
    HeldStep(s, l);
    OrderlyStep(s, l);
    if CanLift(t) { LiftAfter(s, l); }
  }

  // ---------------------------------------------------------------- from wherever the admin stands

  lemma FromResumePosting(s: State, a: Id)
    requires AdminHeld(s, a) && s.sess[a].phase.ResumePosting?
    ensures CanLift(s)
  {
    var l := Session(a, ResumePost);
    MarksStep(s, l);
    LiftedAlready(Apply(s, l));
    LiftAfter(s, l);
  }

  lemma FromResumeTelling(s: State, a: Id)
    requires AdminHeld(s, a) && s.sess[a].phase.ResumeTelling?
    ensures CanLift(s)
  {
    HeldFacts(s);
    var t := AdminMoves(s, a, ResumeTell);
    FromResumePosting(t, a);
  }

  lemma ResumeIsNext(s: State, a: Id)
    requires a in s.sess && s.sess[a].phase.Reading? && IsAdmin(s, a) && s.paused
    ensures Enabled(s, Session(a, Run(Resume))) && PhaseAfter(s, a, Run(Resume)) == ResumeTelling
  {
  }

  lemma FromReading(s: State, a: Id)
    requires AdminHeld(s, a) && s.sess[a].phase.Reading?
    ensures CanLift(s)
  {
    OneClaimOneOnline(s, s.admin);
    OpenGate(s, a);
    ResumeIsNext(s, a);
    var t := AdminMoves(s, a, Run(Resume));
    FromResumeTelling(t, a);
  }

  lemma FromPauseTelling(s: State, a: Id)
    requires AdminHeld(s, a) && s.sess[a].phase.PauseTelling?
    ensures CanLift(s)
  {
    HeldFacts(s);
    var t := AdminMoves(s, a, PauseTell);
    FromReading(t, a);
  }

  lemma FromPauseSetting(s: State, a: Id)
    requires AdminHeld(s, a) && s.sess[a].phase.PauseSetting?
    ensures CanLift(s)
  {
    var t := AdminMoves(s, a, PauseSet);
    FromPauseTelling(t, a);
  }

  lemma FromIntroducing(s: State, a: Id)
    requires AdminHeld(s, a) && s.sess[a].phase.Introducing?
    ensures CanLift(s)
  {
    HeldFacts(s);
    var t := AdminMoves(s, a, Introduce);
    FromReading(t, a);
  }

  lemma FromPostingWithRoom(s: State, a: Id)
    requires AdminHeld(s, a) && s.sess[a].phase.Posting? && |s.queue| < QUEUE_CAPACITY
    ensures CanLift(s)
  {
    var t := AdminMoves(s, a, Post);
    if t.sess[a].phase.Introducing? { FromIntroducing(t, a); } else { FromReading(t, a); }
  }

  lemma ReceiveFields(s: State, a: Id)
    requires Enabled(s, Agent(Receive)) && LoggedIn(s, a)
    ensures var t := Apply(s, Agent(Receive));
      LoggedIn(t, a) && Name(t, a) == Name(s, a) && t.sess[a].phase == s.sess[a].phase && |t.queue| == |s.queue| - 1
  {
    assert Apply(s, Agent(Receive)).sess[a] == SessionAfter(s, Agent(Receive), a);
  }

  /** An agent that has nothing in hand makes room. */
  lemma FromPosting(s: State, a: Id)
    requires AdminHeld(s, a) && s.sess[a].phase.Posting? && !AdminStuck(s, a)
    ensures CanLift(s)
  {
    HeldFacts(s);
    if |s.queue| < QUEUE_CAPACITY {
      FromPostingWithRoom(s, a);
    } else {
      var l := Agent(Receive);
      ReceiveFields(s, a);
      HeldStep(s, l);
      OrderlyStep(s, l);
      FromPostingWithRoom(Apply(s, l), a);
      LiftAfter(s, l);
    }
  }

  lemma FromAnnouncing(s: State, a: Id)
    requires AdminHeld(s, a) && s.sess[a].phase.Announcing?
    ensures CanLift(s)
  {
    var t := AdminMoves(s, a, AnnounceCheck);
    if t.sess[a].phase.Introducing? { FromIntroducing(t, a); } else { FromPostingWithRoom(t, a); }
  }

  // ---------------------------------------------------------------- with nobody online as the admin

  lemma LoginUnderHold(s: State, u: Id) returns (t: State)
    requires Orderly(s) && Held(s) && Checked(s, u)
    ensures Enabled(s, Session(u, Login)) && t == Apply(s, Session(u, Login))
    ensures Orderly(t) && Held(t) && LoggedIn(t, u)
    ensures Name(t, u) == StoredName(s.sess[u], s.sess[u].phase.raw)
    ensures t.sess[u].phase.Announcing? && t.admin == s.admin
    ensures forall v :: v != u && LoggedIn(t, v) ==> LoggedIn(s, v) && Name(t, v) == Name(s, v)
    ensures CanLift(t) ==> CanLift(s)
  {
    var l := Session(u, Login);
    HeldFacts(s);
    t := Apply(s, l);
    HeldStep(s, l);
    OrderlyStep(s, l);
    LoginFields(s, u);
    assert t.sess[u] == SessionAfter(s, l, u);
    forall v | v != u && LoggedIn(t, v)
      ensures LoggedIn(s, v) && Name(t, v) == Name(s, v)
    {
      NameFacts(s, l, v);
    }
    if CanLift(t) { LiftAfter(s, l); }
  }

  /** Whoever has been cleared for the admin's name lifts the pause. */
  lemma FromCleared(s: State, u: Id)
    requires Orderly(s) && Held(s) && Checked(s, u) && StoredName(s.sess[u], s.sess[u].phase.raw) == s.admin
    ensures CanLift(s)
  {
    var t := LoginUnderHold(s, u);
    FromAnnouncing(t, u);
  }

  lemma {:induction false} Unused(ids: set<Id>) returns (id: Id)
    ensures forall u :: u in ids ==> u < id
    decreases |ids|
  {
    if ids == {} {
      id := 0;
    } else {
      var u :| u in ids;
      var rest := Unused(ids - {u});
      id := if u < rest then rest else u + 1;
      assert forall v :: v in ids ==> v == u || v in ids - {u};
    }
  }

  lemma ConnectUnderHold(s: State, id: Id) returns (t: State)
    requires Orderly(s) && Held(s) && id !in s.sess
    ensures Enabled(s, Connect(id)) && t == Apply(s, Connect(id)) && Orderly(t) && Held(t) && t.admin == s.admin
    ensures Newcomer(t, id)
    ensures forall v :: Claims(t, v, s.admin) ==> Claims(s, v, s.admin)
    ensures CanLift(t) ==> CanLift(s)
  {
    var l := Connect(id);
    HeldFacts(s);
    t := Apply(s, l);
    HeldStep(s, l);
    OrderlyStep(s, l);
    forall v | Claims(t, v, s.admin)
      ensures Claims(s, v, s.admin)
    {
      ClaimsStep(s, l, v, s.admin);
    }
    if CanLift(t) { LiftAfter(s, l); }
  }

  lemma ClearedStores(s: State, u: Id, raw: RawName)
    requires Cleared(s, u, raw)
    ensures Checked(s, u) && StoredName(s.sess[u], s.sess[u].phase.raw) == CStr(raw)
  {
    StoredWhole(s.sess[u], raw);
  }

  /** Nobody has the admin's name or has been cleared for it, and it is one that passes the check. */
  lemma AdminNameIsFree(s: State, id: Id) returns (raw: RawName)
    requires Orderly(s) && Held(s) && Newcomer(s, id) && forall v :: !Claims(s, v, s.admin)
    ensures CStr(raw) == s.admin && !Forbidden(CStr(raw)) && NameFree(s, CStr(raw))
    ensures GuardsAdmin(s, Session(id, CheckName(raw)))
  {
    raw := s.admin;
    CStrIdentity(s.admin);
    UnclaimedIsFree(s, id, s.admin);
  }

  /** So a newcomer can take it. */
  lemma NewcomerTakesOver(s: State, id: Id)
    requires Orderly(s) && Held(s) && Newcomer(s, id) && forall v :: !Claims(s, v, s.admin)
    ensures CanLift(s)
  {
    HeldFacts(s);
    var raw := AdminNameIsFree(s, id);
    var l := Session(id, CheckName(raw));
    CheckClears(s, id, raw);
    HeldStep(s, l);
    OrderlyStep(s, l);
    ClearedStores(Apply(s, l), id, raw);
    FromCleared(Apply(s, l), id);
    LiftAfter(s, l);
  }

  lemma FromNobody(s: State)
    requires Orderly(s) && Held(s) && forall v :: LoggedIn(s, v) ==> !IsAdmin(s, v)
    ensures CanLift(s)
  {
    if v :| Claims(s, v, s.admin) {
      FromCleared(s, v);
    } else {
      var id := Unused(s.sess.Keys);
      var t := ConnectUnderHold(s, id);
      NewcomerTakesOver(t, id);
    }
  }

  lemma NobodyElse(s: State, t: State, a: Id)
    requires OneAdmin(s) && LoggedIn(s, a) && IsAdmin(s, a) && t.admin == s.admin && Name(t, a) != s.admin
    requires forall v :: v != a && LoggedIn(t, v) ==> LoggedIn(s, v) && Name(t, v) == Name(s, v)
    ensures forall v :: LoggedIn(t, v) ==> !IsAdmin(t, v)
  {
  }

  /** An admin about to log in again stays the admin or leaves the name to others. */
  lemma FromNameChecked(s: State, a: Id)
    requires AdminHeld(s, a) && s.sess[a].phase.NameChecked?
    ensures CanLift(s)
  {
    if StoredName(s.sess[a], s.sess[a].phase.raw) == s.admin {
      FromCleared(s, a);
    } else {
      var t := LoginUnderHold(s, a);
      OneClaimOneOnline(s, s.admin);
      NobodyElse(s, t, a);
      FromNobody(t);
    }
  }

  lemma FromAnywhere(s: State, a: Id)
    requires AdminHeld(s, a) && !AdminStuck(s, a)
    ensures CanLift(s)
  {
    assert SessionOk(s.sess[a]);
    assert AtGate(s, a) ==> GateSays(s.sess[a].phase, s.paused, Held(s));
    match s.sess[a].phase
    case Reading => FromReading(s, a);
    case NameChecked(_) => FromNameChecked(s, a);
    case Announcing => FromAnnouncing(s, a);
    case Posting(_, _) => FromPosting(s, a);
    case Introducing => FromIntroducing(s, a);
    case PauseSetting => FromPauseSetting(s, a);
    case PauseTelling => FromPauseTelling(s, a);
    case ResumeTelling => FromResumeTelling(s, a);
    case ResumePosting => FromResumePosting(s, a);
    case _ =>
  }

  /** A held pause can be lifted if and only if the admin is not stuck. */
  lemma LiftableIffNotStuck(s: State)
    requires Orderly(s) && Held(s)
    ensures CanLift(s) <==> !exists a :: AdminStuck(s, a)
  {
    if a :| AdminStuck(s, a) {
      forall labels | RunWith(AdminCare, s, labels) && IsRun(s, labels)
        ensures Held(Exec(s, labels))
      {
        StuckForever(s, a, labels);
      }
    } else if a :| LoggedIn(s, a) && IsAdmin(s, a) {
      FromAnywhere(s, a);
    } else {
      FromNobody(s);
    }
  }

  // ---------------------------------------------------------------- how to get stuck

  /** Two sessions, the first of them the admin's. */
  predicate Pair(s: State, a: Id, b: Id) {
    a != b && LoggedIn(s, a) && IsAdmin(s, a) && b in s.sess
  }

  lemma PairMoves(s: State, a: Id, b: Id, u: Id, step: Step) returns (t: State)
    requires Pair(s, a, b) && (u == a || u == b) && Enabled(s, Session(u, step)) && Plain(step)
    requires !step.AnnounceCheck? && !step.Notify?
    ensures t == Apply(s, Session(u, step)) && Pair(t, a, b) && t.admin == s.admin
    ensures t.sess[a].phase == if u == a then PhaseAfter(s, a, step) else s.sess[a].phase
    ensures t.sess[b].phase == if u == b then PhaseAfter(s, b, step) else s.sess[b].phase
    ensures t.queue == s.queue + Enqueued(s, Session(u, step)) && t.agent == s.agent
    ensures ReachableWith(AllCare, s) ==> ReachableWith(AllCare, t)
  {
    var l := Session(u, step);
    t := Apply(s, l);
    PlainFields(s, u, step);
    assert t.sess[a] == SessionAfter(s, l, a) && t.sess[b] == SessionAfter(s, l, b);
    if ReachableWith(AllCare, s) { ReachesNext(AllCare, s, l); }
  }

  /** Both sessions wait for their clients, a pause is held and the agent has a message in hand. */
  ghost predicate Stalled(s: State, a: Id, b: Id) {
    && ReachableWith(AllCare, s) && Pair(s, a, b) && Held(s) && s.agent.Holding?
    && s.sess[a].phase.Reading? && s.sess[b].phase.Reading?
  }

  lemma KeepsHold(s: State, u: Id, step: Step)
    requires Enabled(s, Session(u, step)) && !step.PauseAcquire? && !step.ResumePost?
    ensures Apply(s, Session(u, step)).marks == s.marks
  {
  }

  /** The other session adds a message to the queue. */
  lemma OneMore(s: State, a: Id, b: Id, text: Text) returns (t: State)
    requires ReachableWith(AllCare, s) && Pair(s, a, b) && Held(s) && |s.queue| < QUEUE_CAPACITY
    requires s.sess[a].phase.Reading? && s.sess[b].phase.Reading?
    ensures ReachableWith(AllCare, t) && Pair(t, a, b) && Held(t) && |t.queue| == |s.queue| + 1 && t.agent == s.agent
    ensures t.sess[a].phase.Reading? && t.sess[b].phase.Reading?
  {
    var s1 := PairMoves(s, a, b, b, ChatCheck(text));
    KeepsHold(s, b, ChatCheck(text));
    t := PairMoves(s1, a, b, b, Post);
    KeepsHold(s1, b, Post);
  }

  lemma {:induction false} FillUp(s: State, a: Id, b: Id, text: Text) returns (t: State)
    requires Stalled(s, a, b) && |s.queue| < QUEUE_CAPACITY
    ensures Stalled(t, a, b) && |t.queue| == QUEUE_CAPACITY - 1
    decreases QUEUE_CAPACITY - |s.queue|
  {
    if |s.queue| == QUEUE_CAPACITY - 1 {
      t := s;
    } else {
      var s1 := OneMore(s, a, b, text);
      t := FillUp(s1, a, b, text);
    }
  }

  lemma PauseIsNext(s: State, a: Id)
    requires a in s.sess && s.sess[a].phase.Reading? && IsAdmin(s, a) && !s.paused
    ensures Enabled(s, Session(a, Run(Pause))) && PhaseAfter(s, a, Run(Pause)) == PauseWaiting
  {
  }

  lemma PauseTaken(s: State, a: Id)
    requires Orderly(s) && Enabled(s, Session(a, PauseAcquire))
    ensures Held(Apply(s, Session(a, PauseAcquire)))
  {
    MarksStep(s, Session(a, PauseAcquire));
  }

  lemma BeginPause(s: State, a: Id, b: Id) returns (t: State)
    requires ReachableWith(AllCare, s) && Pair(s, a, b) && s.agent.Idle? && s.sem > 0 && !s.paused
    requires s.sess[a].phase.Reading? && s.sess[b].phase.Reading?
    ensures ReachableWith(AllCare, t) && Pair(t, a, b) && t.agent.Idle? && t.sem > 0 && t.queue == s.queue
    ensures t.sess[a].phase.PauseWaiting? && t.sess[b].phase.Reading?
  {
    PauseIsNext(s, a);
    t := PairMoves(s, a, b, a, Run(Pause));
    assert t.sem == s.sem;
  }

  lemma TakePause(s: State, a: Id, b: Id) returns (t: State)
    requires ReachableWith(AllCare, s) && Pair(s, a, b) && s.agent.Idle? && s.sem > 0
    requires s.sess[a].phase.PauseWaiting? && s.sess[b].phase.Reading?
    ensures ReachableWith(AllCare, t) && Pair(t, a, b) && Held(t) && t.agent.Idle? && t.queue == s.queue
    ensures t.sess[a].phase.PauseSetting? && t.sess[b].phase.Reading?
  {
    t := PairMoves(s, a, b, a, PauseAcquire);
    ReachesWithMore(AllCare, AdminCare, s);
    ReachableIsOrderly(s);
    PauseTaken(s, a);
  }

  lemma EndPause(s: State, a: Id, b: Id) returns (t: State)
    requires ReachableWith(AllCare, s) && Pair(s, a, b) && Held(s) && s.agent.Idle?
    requires s.sess[a].phase.PauseSetting? && s.sess[b].phase.Reading?
    ensures ReachableWith(AllCare, t) && Pair(t, a, b) && Held(t) && t.agent.Idle? && t.queue == s.queue
    ensures t.sess[a].phase.Reading? && t.sess[b].phase.Reading?
  {
    var s1 := PairMoves(s, a, b, a, PauseSet);
    KeepsHold(s, a, PauseSet);
    t := PairMoves(s1, a, b, a, PauseTell);
    KeepsHold(s1, a, PauseTell);
  }

  /** The admin pauses an idle server. */
  lemma PauseIt(s: State, a: Id, b: Id) returns (t: State)
    requires ReachableWith(AllCare, s) && Pair(s, a, b) && s.agent.Idle? && s.sem > 0 && !s.paused
    requires s.sess[a].phase.Reading? && s.sess[b].phase.Reading?
    ensures ReachableWith(AllCare, t) && Pair(t, a, b) && Held(t) && t.agent.Idle? && t.queue == s.queue
    ensures t.sess[a].phase.Reading? && t.sess[b].phase.Reading?
  {
    var s1 := BeginPause(s, a, b);
    var s2 := TakePause(s1, a, b);
    t := EndPause(s2, a, b);
  }

  /** The agent takes a message in hand and waits for the semaphore. */
  lemma TakeInHand(s: State, a: Id, b: Id) returns (t: State)
    requires ReachableWith(AllCare, s) && Pair(s, a, b) && Held(s) && s.agent.Idle? && |s.queue| > 0
    requires s.sess[a].phase.Reading? && s.sess[b].phase.Reading?
    ensures Stalled(t, a, b) && |t.queue| == |s.queue| - 1
  {
    t := Apply(s, Agent(Receive));
    ReachesNext(AllCare, s, Agent(Receive));
    ReceiveFields(s, a);
    assert t.sess[b] == SessionAfter(s, Agent(Receive), b);
  }

  /** For every name an admin can have there is a run to such a state. */
  lemma StalledReachable(admin: RawName, text: Text) returns (s: State)
    requires Acceptable(admin)
    ensures Stalled(s, 1, 2) && |s.queue| == QUEUE_CAPACITY - 1
  {
    CStrIdentity(admin);
    var s1 := UserAndNewcomer(admin, admin);
    AllIsCalm(s1);
    ReachesWithMore(AllCare, AdminCare, s1);
    ReachableIsOrderly(s1);
    OpenGate(s1, 1);
    var s2 := PauseIt(s1, 1, 2);
    var s3 := OneMore(s2, 1, 2, text);
    var s4 := TakeInHand(s3, 1, 2);
    s := FillUp(s4, 1, 2, text);
  }

  /** Checking for room and posting are two steps, so with one slot left two sessions that both see it are enough. */
  lemma RaceToStuck(s: State, a: Id, b: Id, text: Text, text': Text) returns (t: State)
    requires Pair(s, a, b) && Held(s) && s.agent.Holding? && |s.queue| == QUEUE_CAPACITY - 1
    requires s.sess[a].phase.Reading? && s.sess[b].phase.Reading?
    ensures IsRun(s, [Session(a, ChatCheck(text)), Session(b, ChatCheck(text')), Session(b, Post)])
    ensures t == Exec(s, [Session(a, ChatCheck(text)), Session(b, ChatCheck(text')), Session(b, Post)])
    ensures AdminStuck(t, a) && (ReachableWith(AllCare, s) ==> ReachableWith(AllCare, t))
  {
    var s1 := PairMoves(s, a, b, a, ChatCheck(text));
    KeepsHold(s, a, ChatCheck(text));
    var s2 := PairMoves(s1, a, b, b, ChatCheck(text'));
    KeepsHold(s1, b, ChatCheck(text'));
    t := PairMoves(s2, a, b, b, Post);
    KeepsHold(s2, b, Post);
    RunOfThree(s, Session(a, ChatCheck(text)), Session(b, ChatCheck(text')), Session(b, Post));
  }

  /**
   So for every such name a calm and careful run ends with a pause that no run careful with that
   name will ever lift.
   */
  lemma StuckReachable(admin: RawName, text: Text) returns (s: State)
    requires Acceptable(admin)
    ensures ReachableWith(AllCare, s) && Held(s) && AdminStuck(s, 1) && !CanLift(s)
  {
    var start := StalledReachable(admin, text);
    s := RaceToStuck(start, 1, 2, text, text);
    ReachesWithMore(AllCare, AdminCare, s);
    ReachableIsOrderly(s);
    LiftableIffNotStuck(s);
  }
}
