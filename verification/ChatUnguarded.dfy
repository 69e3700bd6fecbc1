/**
 What happens on schedules that are not careful with the admin's name. The tail of an
 earlier name can make an admin of a session that was never accepted as one, for exactly
 the names of at least two bytes; and two sessions that race for the name can lift one
 pause twice, which leaves the semaphore at two. A race is also what it takes for a second
 login to converge, but a tail is enough for two users to be shown alike.
 */
module ChatUnguarded {
  import opened CText
  import opened ChatModel
  import opened ChatNames
  import opened ChatGate
  import opened ChatFlow
  import opened ChatAdmins
  import opened ChatRuns
  import opened ChatRace
  import opened ChatRoster
  import opened ChatDrain
  import opened ChatConvergence
  import opened ChatRelogin

  // ---------------------------------------------------------------- one session at a time

  /** Where a session is and what it is called, but for what it was sent. */
  predicate SamePlace(x: Record, y: Record) {
    y.phase == x.phase && y.buf == x.buf && y.nameLength == x.nameLength && y.loggedIn == x.loggedIn
  }

  lemma MoveFields(s: State, u: Id, step: Step, v: Id)
    requires Enabled(s, Session(u, step)) && v in s.sess
    ensures var t := Apply(s, Session(u, step));
      if v != u then SamePlace(s.sess[v], t.sess[v])
      else
        && t.sess[u].phase == PhaseAfter(s, u, step)
        && (!step.Login? ==> t.sess[u].buf == s.sess[u].buf && t.sess[u].nameLength == s.sess[u].nameLength)
        && (!step.Login? && !step.Logout? ==> t.sess[u].loggedIn == s.sess[u].loggedIn)
        && (step.Login? ==>
              t.sess[u].loggedIn && t.sess[u].buf == StrNCpy(s.sess[u].buf, s.sess[u].phase.raw, |s.sess[u].phase.raw|)
              && t.sess[u].nameLength == |s.sess[u].phase.raw|)
  {
    assert Apply(s, Session(u, step)).sess[v] == SessionAfter(s, Session(u, step), v);
  }

  /** Everybody but `u` is where it was, and so are list and agent. */
  ghost predicate Stays(s: State, t: State, u: Id) {
    && t.sess.Keys == s.sess.Keys && t.list == s.list && t.agent == s.agent && t.admin == s.admin
    && forall v :: v in s.sess && v != u ==> SamePlace(s.sess[v], t.sess[v])
  }

  lemma ReachesOne(s: State, l: Label)
    requires Reachable(s) && Enabled(s, l)
    ensures Reachable(Apply(s, l))
    ensures ReachableWith(RosterCare, s) && Calm(s, l) ==> ReachableWith(RosterCare, Apply(s, l))
  {
    RunOfOne(s, l);
    ReachesOn(s, [l]);
    if ReachableWith(RosterCare, s) && Calm(s, l) { ReachesNext(RosterCare, s, l); }
  }

  /** What a step makes of the session's own name: a login stores and counts what was checked, and logs in. */
  predicate NameMoves(s: State, t: State, u: Id, step: Step)
    requires u in s.sess && u in t.sess && (step.Login? ==> Checked(s, u))
  {
    var x, y := s.sess[u], t.sess[u];
    && (!step.Login? ==> y.buf == x.buf && y.nameLength == x.nameLength && t.logins == s.logins)
    && (!step.Login? && !step.Logout? ==> y.loggedIn == x.loggedIn)
    && (step.Login? ==>
          && y.loggedIn && y.buf == StrNCpy(x.buf, x.phase.raw, |x.phase.raw|)
          && y.nameLength == |x.phase.raw| && t.logins == s.logins + {(u, CStr(x.phase.raw))})
  }

  /** A session's step leads from a reachable state to another, in which the others are where they were. */
  lemma Moves(s: State, u: Id, step: Step) returns (t: State)
    requires Reachable(s) && Enabled(s, Session(u, step)) && !step.Remove?
    ensures Reachable(t) && Stays(s, t, u)
    ensures t.queue == s.queue + Enqueued(s, Session(u, step)) && t.sem == SemAfter(s, Session(u, step))
    ensures t.paused == PausedAfter(s, Session(u, step)) && t.marks == MarksAfter(s, Session(u, step))
    ensures t.sess[u].phase == PhaseAfter(s, u, step)
    ensures NameMoves(s, t, u, step)
    ensures ReachableWith(RosterCare, s) && Calm(s, Session(u, step)) ==> ReachableWith(RosterCare, t)
  {
    var l := Session(u, step);
    t := Apply(s, l);
    ReachesOne(s, l);
    MoveFields(s, u, step, u);
    forall v | v in s.sess && v != u
      ensures SamePlace(s.sess[v], t.sess[v])
    {
      MoveFields(s, u, step, v);
    }
  }

  /** The semaphore and the flag stay too. */
  ghost predicate Aside(s: State, t: State, u: Id) {
    Stays(s, t, u) && t.sem == s.sem && t.paused == s.paused && t.marks == s.marks
  }

  lemma AsideFollows(s: State, s1: State, t: State, u: Id)
    requires Aside(s, s1, u) && Aside(s1, t, u)
    ensures Aside(s, t, u)
  {
    forall v | v in s.sess && v != u
      ensures SamePlace(s.sess[v], t.sess[v])
    {
      assert v in s1.sess.Keys;
    }
  }

  /** Called, stored and counted as before. */
  predicate SameName(x: Record, y: Record) {
    y.buf == x.buf && y.nameLength == x.nameLength && y.loggedIn == x.loggedIn
  }

  lemma Announces(s: State, u: Id) returns (t: State)
    requires Reachable(s) && |s.queue| < QUEUE_CAPACITY && u in s.sess && s.sess[u].phase.Announcing?
    ensures Reachable(t) && Aside(s, t, u) && t.queue == s.queue && t.logins == s.logins
    ensures t.sess[u].phase.Posting? && t.sess[u].phase.join
    ensures SameName(s.sess[u], t.sess[u])
    ensures ReachableWith(RosterCare, s) ==> ReachableWith(RosterCare, t)
  {
    t := Moves(s, u, AnnounceCheck);
  }

  lemma PostsJoin(s: State, u: Id) returns (t: State)
    requires Reachable(s) && |s.queue| < QUEUE_CAPACITY && u in s.sess && s.sess[u].phase.Posting?
    requires s.sess[u].phase.join
    ensures Reachable(t) && Aside(s, t, u) && |t.queue| == |s.queue| + 1 && t.logins == s.logins
    ensures t.sess[u].phase.Introducing?
    ensures SameName(s.sess[u], t.sess[u])
    ensures ReachableWith(RosterCare, s) ==> ReachableWith(RosterCare, t)
  {
    t := Moves(s, u, Post);
  }

  lemma IsIntroduced(s: State, u: Id) returns (t: State)
    requires Reachable(s) && LockFree(s) && u in s.sess && s.sess[u].phase.Introducing?
    ensures Reachable(t) && Aside(s, t, u) && t.queue == s.queue && t.logins == s.logins
    ensures t.sess[u].phase.Reading?
    ensures SameName(s.sess[u], t.sess[u])
    ensures ReachableWith(RosterCare, s) ==> ReachableWith(RosterCare, t)
  {
    t := Moves(s, u, Introduce);
  }

  /** Announce, post, be introduced. */
  lemma Joins(s: State, u: Id) returns (t: State)
    requires Reachable(s) && LockFree(s) && |s.queue| < QUEUE_CAPACITY && u in s.sess && s.sess[u].phase.Announcing?
    ensures Reachable(t) && Aside(s, t, u) && |t.queue| == |s.queue| + 1 && t.logins == s.logins
    ensures t.sess[u].phase.Reading? && SameName(s.sess[u], t.sess[u])
    ensures ReachableWith(RosterCare, s) ==> ReachableWith(RosterCare, t)
  {
    var s1 := Announces(s, u);
    var s2 := PostsJoin(s1, u);
    AsideFollows(s, s1, s2, u);
    t := IsIntroduced(s2, u);
    AsideFollows(s, s2, t, u);
  }

  // ---------------------------------------------------------------- an admin by a tail

  lemma PassesCheck(s: State, u: Id, raw: RawName) returns (t: State)
    requires Reachable(s) && LockFree(s) && u in s.sess && s.sess[u].phase.Reading?
    requires NameFree(s, CStr(raw)) && !Forbidden(CStr(raw))
    ensures Reachable(t) && Aside(s, t, u) && t.queue == s.queue && t.logins == s.logins
    ensures t.sess[u].phase == NameChecked(raw) && t.sess[u].buf == s.sess[u].buf
    ensures t.sess[u].loggedIn == s.sess[u].loggedIn
    ensures ReachableWith(RosterCare, s) && !LoggedIn(s, u) ==> ReachableWith(RosterCare, t)
  {
    t := Moves(s, u, CheckName(raw));
  }

  lemma LogsIn(s: State, u: Id, raw: RawName) returns (t: State)
    requires Reachable(s) && LockFree(s) && u in s.sess && s.sess[u].phase == NameChecked(raw)
    ensures Reachable(t) && Aside(s, t, u) && t.queue == s.queue && t.sess[u].phase.Announcing?
    ensures t.sess[u].loggedIn && t.sess[u].buf == StrNCpy(s.sess[u].buf, raw, |raw|)
    ensures t.logins == s.logins + {(u, CStr(raw))}
    ensures t.sess[u].nameLength == |raw|
    ensures ReachableWith(RosterCare, s) ==> ReachableWith(RosterCare, t)
  {
    t := Moves(s, u, Login);
  }

  /** A login of a session waiting for its client, from the check to the introduction. */
  lemma Enters(s: State, u: Id, raw: RawName) returns (t: State)
    requires Reachable(s) && LockFree(s) && |s.queue| < QUEUE_CAPACITY && u in s.sess && s.sess[u].phase.Reading?
    requires NameFree(s, CStr(raw)) && !Forbidden(CStr(raw))
    ensures Reachable(t) && Aside(s, t, u) && |t.queue| == |s.queue| + 1 && t.sess[u].phase.Reading?
    ensures LoggedIn(t, u) && t.sess[u].buf == StrNCpy(s.sess[u].buf, raw, |raw|)
    ensures t.logins == s.logins + {(u, CStr(raw))}
    ensures t.sess[u].nameLength == |raw|
  {
    var s1 := PassesCheck(s, u, raw);
    var s2 := LogsIn(s1, u, raw);
    AsideFollows(s, s1, s2, u);
    t := Joins(s2, u);
    AsideFollows(s, s2, t, u);
  }

  lemma OneConnected(admin: Text) returns (s: State)
    requires admin != []
    ensures Reachable(s) && s.admin == admin && LockFree(s) && s.sem == 1 && !s.paused && s.queue == []
    ensures s.sess == map[1 := NewSession] && s.logins == {} && s.marks == []
  {
    s := Apply(Init(admin), Connect(1));
    RunOfOne(Init(admin), Connect(1));
    assert s.sess == map[1 := NewSession];
  }

  /** Another name that ends like this one. */
  function OtherName(name: RawName): (r: RawName)
    requires Acceptable(name)
    ensures |r| == |name| && r[1..] == name[1..] && r[0] != name[0]
    ensures NUL !in r && !Forbidden(r)
  {
    var first: Byte := if name[0] == 97 then 98 else 97;
    [first] + name[1..]
  }

  /** The bytes that two logins leave in a clear array, the second of one byte. */
  lemma TailShows(buf: NameBuffer, first: RawName, name: RawName)
    requires buf == Zeros(NAME_ARRAY) && |first| == |name| && first[1..] == name[1..]
    requires NUL !in first && NUL !in name
    ensures CStr(StrNCpy(buf, first, |first|)) == first
    ensures CStr(StrNCpy(StrNCpy(buf, first, |first|), [name[0]], 1)) == name
  {
    CStrIdentity(first);
    var once := StrNCpy(buf, first, |first|);
    assert once == first + Zeros(NAME_ARRAY - |first|);
    CStrUnique(once, first);
    assert name[0] in name;
    CStrIdentity([name[0]]);
    var twice := StrNCpy(once, [name[0]], 1);
    assert twice == [name[0]] + once[1..];
    assert twice == name + Zeros(NAME_ARRAY - |first|);
    CStrUnique(twice, name);
  }

  /** The session has become the admin without a login under that name. */
  ghost predicate Impostor(s: State, u: Id) {
    Reachable(s) && LoggedIn(s, u) && IsAdmin(s, u) && !EntitledAdmin(s, u)
  }

  lemma FirstByte(name: RawName)
    requires Acceptable(name)
    ensures CStr([name[0]]) == [name[0]] && !Forbidden([name[0]])
  {
    assert name[0] in name;
    CStrIdentity([name[0]]);
  }

  /** With one session there are no other names. */
  lemma OnlyName(s: State, u: Id, n: Text)
    requires s.sess.Keys == {u} && Name(s, u) != n
    ensures NameFree(s, n)
  {
    assert forall v :: LoggedIn(s, v) ==> v == u;
  }

  lemma FirstName(admin: RawName) returns (s: State)
    requires Acceptable(admin)
    ensures Reachable(s) && s.admin == admin && s.sess.Keys == {1} && s.sess[1].phase.Reading?
    ensures LoggedIn(s, 1) && s.sess[1].buf == StrNCpy(Zeros(NAME_ARRAY), OtherName(admin), |admin|)
    ensures LockFree(s) && s.sem == 1 && !s.paused && s.marks == [] && |s.queue| == 1
    ensures s.logins == {(1, OtherName(admin))}
  {
    var s1 := OneConnected(admin);
    CStrIdentity(OtherName(admin));
    s := Enters(s1, 1, OtherName(admin));
  }

  /** Stored as the admin, and shown to the others under one byte. */
  lemma LogsInTwice(admin: RawName) returns (s: State)
    requires Acceptable(admin) && |admin| >= 2
    ensures Impostor(s, 1) && s.admin == admin && s.sess[1].phase.Reading?
    ensures LockFree(s) && s.sem == 1 && !s.paused && s.marks == []
    ensures Shown(s, 1) == [admin[0]]
  {
    var s1 := FirstName(admin);
    TailShows(Zeros(NAME_ARRAY), OtherName(admin), admin);
    FirstByte(admin);
    OnlyName(s1, 1, [admin[0]]);
    s := Enters(s1, 1, [admin[0]]);
    SeenAfterCopy(s1.sess[1].buf, [admin[0]]);
  }

  lemma ImpostorPauses(s: State, u: Id) returns (t: State)
    requires Impostor(s, u) && s.sess[u].phase.Reading? && s.sem == 1 && !s.paused
    ensures Reachable(t) && t.admin == s.admin && Mark(PauseMark, u) in t.marks && !EntitledAdmin(t, u)
  {
    var s1 := Moves(s, u, Run(Pause));
    t := Moves(s1, u, PauseAcquire);
  }

  lemma ShortIsWhole(buf: NameBuffer, raw: RawName)
    requires |CStr(StrNCpy(buf, raw, |raw|))| == 1
    ensures CStr(StrNCpy(buf, raw, |raw|)) == CStr(raw)
  {
    var stored := StrNCpy(buf, raw, |raw|);
    assert stored[0] != NUL by { assert stored[0] == CStr(stored)[0]; }
    StoredByte(buf, raw, 0);
    StoredByte(buf, raw, 1);
    assert stored[1] == NUL;
  }

  /** A name of one byte has no tail, and a name that the checks refuse is never stored. */
  lemma NoTailPossible(s: State, l: Label)
    requires s.admin != [] && AcceptedOk(s) && Enabled(s, l) && (|s.admin| < 2 || !Acceptable(s.admin))
    ensures NoTailAdmin(s, l)
  {
    if l.Session? && l.step.Login? {
      var x, raw := s.sess[l.id], s.sess[l.id].phase.raw;
      assert Checked(s, l.id);
      StoredIsClean(x.buf, raw);
      CleanIsAcceptable(StrNCpy(x.buf, raw, |raw|));
      if StoredName(x, raw) == s.admin { ShortIsWhole(x.buf, raw); }
    }
  }

  lemma {:induction false} NoTailRun(s: State, labels: seq<Label>)
    requires s.admin != [] && AcceptedOk(s) && AdminOk(s) && IsRun(s, labels)
    requires |s.admin| < 2 || !Acceptable(s.admin)
    ensures AdminOk(Exec(s, labels)) && Exec(s, labels).admin == s.admin
    decreases |labels|
  {
    if labels != [] {
      NoTailPossible(s, labels[0]);
      AdminStep(s, labels[0]);
      AcceptedStep(s, labels[0]);
      NoTailRun(Apply(s, labels[0]), labels[1..]);
    }
  }

  lemma {:induction false} SameAdmin(s: State, labels: seq<Label>)
    requires IsRun(s, labels)
    ensures Exec(s, labels).admin == s.admin
    decreases |labels|
  {
    if labels != [] { SameAdmin(Apply(s, labels[0]), labels[1..]); }
  }

  lemma NoTailReachable(s: State)
    requires Reachable(s) && (|s.admin| < 2 || !Acceptable(s.admin))
    ensures CommandsOk(s)
  {
    var admin, labels :| admin != [] && IsRun(Init(admin), labels) && s == Exec(Init(admin), labels);
    SameAdmin(Init(admin), labels);
    NoTailRun(Init(admin), labels);
  }

  /**
   The code lets somebody command as the admin whose login under that name was never
   accepted, exactly if the admin's name passes the checks and has at least two bytes.
   */
  lemma ImpostorsByLength(admin: Text)
    requires admin != []
    ensures (exists s :: Reachable(s) && s.admin == admin && !CommandsOk(s)) <==> Acceptable(admin) && |admin| >= 2
  {
    if Acceptable(admin) && |admin| >= 2 {
      var s1 := LogsInTwice(admin);
      var s := ImpostorPauses(s1, 1);
      assert !CommandsOk(s);
    } else {
      forall s | Reachable(s) && s.admin == admin
        ensures CommandsOk(s)
      {
        NoTailReachable(s);
      }
    }
  }

  // ---------------------------------------------------------------- one pause lifted twice

  /** Two sessions that wait for their clients, both online as the admin. */
  predicate TwoAdmins(s: State, a: Id, b: Id) {
    && a != b && LoggedIn(s, a) && IsAdmin(s, a) && LoggedIn(s, b) && IsAdmin(s, b)
    && s.sess[a].phase.Reading? && s.sess[b].phase.Reading?
  }

  /** What the session's asking for a pause, or for the end of one, leaves to be done. */
  lemma AskFields(s: State, a: Id, c: Command)
    requires LoggedIn(s, a) && IsAdmin(s, a) && s.sess[a].phase.Reading?
    requires if s.paused then c.Resume? else c.Pause?
    ensures var l := Session(a, Run(c));
      && Enabled(s, l) && Enqueued(s, l) == [] && SemAfter(s, l) == s.sem
      && PausedAfter(s, l) == s.paused && MarksAfter(s, l) == s.marks
    ensures PhaseAfter(s, a, Run(c)) == if c.Pause? then PauseWaiting else ResumeTelling
  {
  }

  lemma AsksResume(s: State, a: Id) returns (t: State)
    requires Reachable(s) && LoggedIn(s, a) && IsAdmin(s, a) && s.sess[a].phase.Reading? && s.paused
    ensures Reachable(t) && Aside(s, t, a) && t.sess[a].phase.ResumeTelling?
  {
    AskFields(s, a, Resume);
    t := Moves(s, a, Run(Resume));
  }

  lemma TellsResume(s: State, a: Id) returns (t: State)
    requires Reachable(s) && LockFree(s) && a in s.sess && s.sess[a].phase.ResumeTelling?
    ensures Reachable(t) && Aside(s, t, a) && t.sess[a].phase.ResumePosting?
  {
    t := Moves(s, a, ResumeTell);
  }

  lemma PostsResume(s: State, a: Id) returns (t: State)
    requires Reachable(s) && a in s.sess && s.sess[a].phase.ResumePosting?
    ensures Reachable(t) && Stays(s, t, a) && t.sem == s.sem + 1 && t.marks == s.marks + [Mark(ResumeMark, a)]
  {
    t := Moves(s, a, ResumePost);
  }

  lemma BothAsk(s: State, a: Id, b: Id) returns (t: State)
    requires Reachable(s) && TwoAdmins(s, a, b) && s.paused
    ensures Reachable(t) && a in t.sess && b in t.sess && t.sess[a].phase.ResumeTelling?
    ensures t.sess[b].phase.ResumeTelling?
    ensures t.sem == s.sem && t.marks == s.marks && t.agent == s.agent && t.admin == s.admin
  {
    var s1 := AsksResume(s, a);
    t := AsksResume(s1, b);
  }

  lemma BothTell(s: State, a: Id, b: Id) returns (t: State)
    requires Reachable(s) && a != b && a in s.sess && b in s.sess && LockFree(s)
    requires s.sess[a].phase.ResumeTelling? && s.sess[b].phase.ResumeTelling?
    ensures Reachable(t) && a in t.sess && b in t.sess && t.sess[a].phase.ResumePosting?
    ensures t.sess[b].phase.ResumePosting?
    ensures t.sem == s.sem && t.marks == s.marks && t.agent == s.agent && t.admin == s.admin
  {
    var s1 := TellsResume(s, a);
    t := TellsResume(s1, b);
  }

  lemma BothPost(s: State, a: Id, b: Id) returns (t: State)
    requires Reachable(s) && a != b && a in s.sess && b in s.sess
    requires s.sess[a].phase.ResumePosting? && s.sess[b].phase.ResumePosting?
    ensures Reachable(t) && t.sem == s.sem + 2 && t.agent == s.agent && t.admin == s.admin
    ensures t.marks == s.marks + [Mark(ResumeMark, a), Mark(ResumeMark, b)]
  {
    var s1 := PostsResume(s, a);
    t := PostsResume(s1, b);
  }

  /**
   Wherever two admins wait under a pause, both can lift it: two resumes in a row, and the semaphore
   is one too high.
   */
  lemma ResumedTwice(s: State, a: Id, b: Id) returns (t: State)
    requires Reachable(s) && TwoAdmins(s, a, b) && s.paused && LockFree(s) && Held(s)
    requires s.sem + One(AgentHolds(s)) + One(Held(s)) == 1
    ensures Reachable(t) && t.admin == s.admin && !Alternates(t.marks)
    ensures t.sem + One(AgentHolds(t)) + One(Held(t)) == 2
  {
    var s1 := BothAsk(s, a, b);
    var s2 := BothTell(s1, a, b);
    t := BothPost(s2, a, b);
    assert t.marks[|s.marks|].kind.ResumeMark? && t.marks[|s.marks| + 1].kind.ResumeMark?;
    assert !Held(t);
  }

  lemma IsCleared(s: State, u: Id, raw: RawName) returns (t: State)
    requires Reachable(s) && LockFree(s) && Newcomer(s, u) && NameFree(s, CStr(raw)) && !Forbidden(CStr(raw))
    ensures Reachable(t) && Aside(s, t, u) && t.queue == s.queue && Cleared(t, u, raw) && NameFree(t, CStr(raw))
    ensures ReachableWith(RosterCare, s) ==> ReachableWith(RosterCare, t)
  {
    t := PassesCheck(s, u, raw);
    forall v | v in t.list && LoggedIn(t, v)
      ensures Name(t, v) != CStr(raw)
    {
      assert v in s.sess.Keys;
      assert v != u ==> SamePlace(s.sess[v], t.sess[v]);
    }
  }

  lemma TakesName(s: State, u: Id, raw: RawName) returns (t: State)
    requires Reachable(s) && LockFree(s) && Cleared(s, u, raw)
    ensures Reachable(t) && Aside(s, t, u) && t.queue == s.queue
    ensures LoggedIn(t, u) && Name(t, u) == CStr(raw) && t.sess[u].phase.Announcing?
    ensures ReachableWith(RosterCare, s) ==> ReachableWith(RosterCare, t)
  {
    t := LogsIn(s, u, raw);
    StoredWhole(s.sess[u], raw);
  }

  /** Both pass the check before either logs in. */
  lemma BothTakeName(s: State, a: Id, b: Id, raw: RawName) returns (t: State)
    requires Reachable(s) && s.agent.Idle? && a != b && Newcomer(s, a) && Newcomer(s, b)
    requires NameFree(s, CStr(raw)) && !Forbidden(CStr(raw))
    ensures Reachable(t) && t.agent == s.agent && t.queue == s.queue && t.admin == s.admin
    ensures t.sem == s.sem && t.paused == s.paused && t.marks == s.marks
    ensures LoggedIn(t, a) && Name(t, a) == CStr(raw) && t.sess[a].phase.Announcing?
    ensures LoggedIn(t, b) && Name(t, b) == CStr(raw) && t.sess[b].phase.Announcing?
    ensures ReachableWith(RosterCare, s) ==> ReachableWith(RosterCare, t)
    ensures t.sess.Keys == s.sess.Keys && t.list == s.list
  {
    var s1 := IsCleared(s, a, raw);
    var s2 := IsCleared(s1, b, raw);
    var s3 := TakesName(s2, a, raw);
    t := TakesName(s3, b, raw);
  }

  /** For every valid name, two users of that name wait for their clients; apart from the race the run was calm. */
  lemma TwoOfAName(admin: Text, raw: RawName) returns (s: State)
    requires admin != [] && !Forbidden(CStr(raw))
    ensures Reachable(s) && ReachableWith(RosterCare, s) && s.admin == admin && s.sess.Keys == {1, 2}
    ensures s.list == [1, 2]
    ensures LoggedIn(s, 1) && Name(s, 1) == CStr(raw) && s.sess[1].phase.Reading?
    ensures LoggedIn(s, 2) && Name(s, 2) == CStr(raw) && s.sess[2].phase.Reading?
    ensures s.agent.Idle? && s.sem == 1 && !s.paused && s.marks == [] && |s.queue| == 2
  {
    var s1 := TwoConnected(admin);
    ReachesWithMore(AllCare, RosterCare, s1);
    var s2 := BothTakeName(s1, 1, 2, raw);
    var s3 := Joins(s2, 1);
    s := Joins(s3, 2);
  }

  lemma TwoAdminsReachable(admin: RawName) returns (s: State)
    requires Acceptable(admin)
    ensures Reachable(s) && s.admin == admin && TwoAdmins(s, 1, 2)
    ensures s.agent.Idle? && s.sem == 1 && !s.paused && s.marks == []
  {
    CStrIdentity(admin);
    s := TwoOfAName(admin, admin);
  }

  lemma AsksPause(s: State, a: Id) returns (t: State)
    requires Reachable(s) && LoggedIn(s, a) && IsAdmin(s, a) && s.sess[a].phase.Reading? && !s.paused
    ensures Reachable(t) && Aside(s, t, a)
    ensures t.sess[a].phase.PauseWaiting? && t.sess[a].buf == s.sess[a].buf && t.sess[a].loggedIn
  {
    AskFields(s, a, Pause);
    t := Moves(s, a, Run(Pause));
  }

  lemma TakesPause(s: State, a: Id) returns (t: State)
    requires Reachable(s) && a in s.sess && s.sess[a].phase.PauseWaiting? && s.sem == 1
    ensures Reachable(t) && Stays(s, t, a) && t.sem == 0 && t.marks == s.marks + [Mark(PauseMark, a)]
    ensures t.sess[a].phase.PauseSetting? && t.sess[a].buf == s.sess[a].buf && t.sess[a].loggedIn == s.sess[a].loggedIn
  {
    t := Moves(s, a, PauseAcquire);
  }

  lemma SetsPause(s: State, a: Id) returns (t: State)
    requires Reachable(s) && a in s.sess && s.sess[a].phase.PauseSetting?
    ensures Reachable(t) && Stays(s, t, a) && t.sem == s.sem && t.marks == s.marks && t.paused
    ensures t.sess[a].phase.PauseTelling? && t.sess[a].buf == s.sess[a].buf && t.sess[a].loggedIn == s.sess[a].loggedIn
  {
    t := Moves(s, a, PauseSet);
  }

  lemma TellsPause(s: State, a: Id) returns (t: State)
    requires Reachable(s) && LockFree(s) && a in s.sess && s.sess[a].phase.PauseTelling?
    ensures Reachable(t) && Aside(s, t, a)
    ensures t.sess[a].phase.Reading? && t.sess[a].buf == s.sess[a].buf && t.sess[a].loggedIn == s.sess[a].loggedIn
  {
    t := Moves(s, a, PauseTell);
  }

  lemma Pauses(s: State, a: Id, b: Id) returns (t: State)
    requires Reachable(s) && TwoAdmins(s, a, b) && s.agent.Idle? && s.sem == 1 && !s.paused
    ensures Reachable(t) && t.admin == s.admin && TwoAdmins(t, a, b)
    ensures t.agent.Idle? && t.sem == 0 && t.paused && t.marks == s.marks + [Mark(PauseMark, a)]
  {
    var s1 := AsksPause(s, a);
    var s2 := TakesPause(s1, a);
    var s3 := SetsPause(s2, a);
    t := TellsPause(s3, a);
  }

  /** So for every name an admin can have, such a state is reached from the start. */
  lemma DoubleResumeReachable(admin: RawName) returns (s: State)
    requires Acceptable(admin)
    ensures Reachable(s) && s.admin == admin && !Alternates(s.marks)
    ensures s.sem + One(AgentHolds(s)) + One(Held(s)) == 2
  {
    var s1 := TwoAdminsReachable(admin);
    var s2 := Pauses(s1, 1, 2);
    s := ResumedTwice(s2, 1, 2);
  }

  // ---------------------------------------------------------------- a second login that converges

  lemma TwoAtRest(s: State, other: RawName)
    requires CalmOk(s) && Whole(s) && s.sess.Keys == {1, 2} && LoggedIn(s, 1) && LoggedIn(s, 2)
    requires s.sess[1].phase.Reading? && s.sess[2].phase.Reading? && LockFree(s)
    requires Name(s, 1) == Name(s, 2) != CStr(other) && !Forbidden(CStr(other))
    ensures AtRest(s) && Enabled(s, Session(1, CheckName(other))) && Shown(s, 1) in NamesOf(s, s.list, 1)
  {
    assert forall u :: u in s.sess ==> u == 1 || u == 2;
    assert Shown(s, 1) == Name(s, 1) && Shown(s, 2) == Name(s, 2);
    assert SessionOk(s.sess[2]) && 2 in s.list;
  }

  /**
   Only because a namesake keeps the old name can a second login converge; and after a race for a
   name it does.
   */
  lemma NamesakeConverges(admin: Text, raw: RawName, other: RawName) returns (s: State, end: State)
    requires admin != [] && !Forbidden(CStr(raw)) && !Forbidden(CStr(other)) && CStr(raw) != CStr(other)
    ensures ReachableWith(RosterCare, s) && AtRest(s) && LoggedIn(s, 1)
    ensures Rejoined(s, 1, other, end) && AtRest(end) && Open(end) && Converged(end)
  {
    s := TwoOfAName(admin, raw);
    ReachableIsCalm(s);
    TwoAtRest(s, other);
    end := SecondLoginConverges(s, 1, other);
  }

  // ---------------------------------------------------------------- shown alike without a race

  lemma FreeAside(s: State, t: State, u: Id, n: Text)
    requires Aside(s, t, u) && NameFree(s, n) && Name(t, u) != n
    ensures NameFree(t, n)
  {
    forall v | v in t.list && LoggedIn(t, v)
      ensures Name(t, v) != n
    {
      assert v in s.sess.Keys;
      if v != u { assert SamePlace(s.sess[v], t.sess[v]); }
    }
  }

  lemma FirstOfTwo(s: State, u: Id, name: RawName) returns (t: State)
    requires Reachable(s) && LockFree(s) && |s.queue| < QUEUE_CAPACITY && Newcomer(s, u)
    requires Acceptable(name) && NameFree(s, name)
    ensures Reachable(t) && Aside(s, t, u) && |t.queue| == |s.queue| + 1
    ensures t.sess[u].phase.Reading? && LoggedIn(t, u) && Name(t, u) == name
  {
    CStrIdentity(name);
    t := Enters(s, u, name);
    StrNCpyReadsBack(s.sess[u].buf, name, |name|);
  }

  lemma SecondOfTwo(s: State, u: Id, name: RawName) returns (t: State)
    requires Reachable(s) && LockFree(s) && |s.queue| < QUEUE_CAPACITY && u in s.sess
    requires s.sess[u].phase.Reading? && Name(s, u) == name && Acceptable(name) && NameFree(s, [name[0]])
    ensures Reachable(t) && Aside(s, t, u) && |t.queue| == |s.queue| + 1
    ensures LoggedIn(t, u) && Name(t, u) == name && Shown(t, u) == [name[0]]
  {
    FirstByte(name);
    t := Enters(s, u, [name[0]]);
    FirstByteKeepsName(s.sess[u].buf);
  }

  lemma OtherAside(s: State, t: State, u: Id, v: Id)
    requires Aside(s, t, u) && v in s.sess && v != u
    ensures v in t.sess && LoggedIn(t, v) == LoggedIn(s, v) && Name(t, v) == Name(s, v) && Shown(t, v) == Shown(s, v)
    ensures Newcomer(s, v) ==> Newcomer(t, v)
  {
    assert v in t.sess.Keys;
    assert SamePlace(s.sess[v], t.sess[v]);
  }

  /** The first of two users has logged in twice. */
  lemma FirstHasTail(admin: Text, name: RawName) returns (s: State)
    requires admin != [] && Acceptable(name) && |name| >= 2
    ensures Reachable(s) && LockFree(s) && |s.queue| == 2 && s.sess.Keys == {1, 2} && Newcomer(s, 2)
    ensures LoggedIn(s, 1) && Name(s, 1) == name && Shown(s, 1) == [name[0]] && NameFree(s, [name[0]])
  {
    var s0 := TwoConnected(admin);
    var s1 := FirstOfTwo(s0, 1, name);
    OtherAside(s0, s1, 1, 2);
    FreeAside(s0, s1, 1, [name[0]]);
    s := SecondOfTwo(s1, 1, name);
    OtherAside(s1, s, 1, 2);
    FreeAside(s1, s, 1, [name[0]]);
  }

  lemma TakesFirstByte(s: State, u: Id, first: RawName) returns (t: State)
    requires Reachable(s) && LockFree(s) && |s.queue| < QUEUE_CAPACITY && Newcomer(s, u)
    requires |first| == 1 && CStr(first) == first && !Forbidden(first) && NameFree(s, first)
    ensures Reachable(t) && Aside(s, t, u) && LoggedIn(t, u) && Name(t, u) == Shown(t, u) == first
  {
    t := Enters(s, u, first);
    StrNCpyReadsBack(s.sess[u].buf, first, 1);
    SeenAfterCopy(s.sess[u].buf, first);
  }

  lemma OnlyTwo(s: State, name: RawName)
    requires s.sess.Keys == {1, 2} && Name(s, 1) == name && Name(s, 2) == [name[0]] && |name| >= 2
    ensures UniqueNames(s)
  {
    assert forall v :: v in s.sess ==> v == 1 || v == 2;
  }

  /**
   The name check compares stored names, so even with unique names and no race at all two users can
   be shown alike: the first stored under a whole name and shown under its first byte, the second
   under that byte.
   */
  lemma ShownAlike(admin: Text, name: RawName) returns (s: State)
    requires admin != [] && Acceptable(name) && |name| >= 2
    ensures Reachable(s) && UniqueNames(s) && LoggedIn(s, 1) && LoggedIn(s, 2)
    ensures Name(s, 1) == name && Name(s, 2) == [name[0]] == Shown(s, 1) == Shown(s, 2)
  {
    FirstByte(name);
    var s1 := FirstHasTail(admin, name);
    s := TakesFirstByte(s1, 2, [name[0]]);
    OtherAside(s1, s, 2, 1);
    OnlyTwo(s, name);
  }
}
