/**
 The main results, over every run from the initial state: what holds whatever the
 schedule, what holds when no tail makes an admin, when nobody is cleared for a name that
 another session claims (the admin's name, or any), and what holds on calm schedules.
 */
module ChatRuns {
  import opened CText
  import opened ChatModel
  import opened ChatFlow
  import opened ChatAnswers
  import opened ChatHistory
  import opened ChatDeparture
  import opened ChatNames
  import opened ChatGate
  import opened ChatAdmins
  import opened ChatRoster
  import opened ChatDrain
  import opened ChatConvergence

  // ---------------------------------------------------------------- every schedule

  ghost predicate Basic(s: State) {
    Shape(s) && Flow(s) && Streams(s) && Departures(s)
  }

  lemma BasicStep(s: State, l: Label)
    requires Basic(s) && Enabled(s, l)
    ensures Basic(Apply(s, l))
  {
    ShapeStep(s, l);
    FlowStep(s, l);
    StreamsStep(s, l);
    DeparturesStep(s, l);
  }

  lemma {:induction false} BasicRun(s: State, labels: seq<Label>)
    requires Basic(s) && IsRun(s, labels)
    ensures Basic(Exec(s, labels))
    decreases |labels|
  {
    if labels != [] {
      BasicStep(s, labels[0]);
      BasicRun(Apply(s, labels[0]), labels[1..]);
    }
  }

  ghost predicate Orderly(s: State) {
    Shape(s) && Flow(s) && OneClaim(s, s.admin) && AcceptedOk(s) && GateOk(s) && PausedByName(s)
  }

  lemma InitIsGood(admin: Text)
    requires admin != []
    ensures Basic(Init(admin)) && Orderly(Init(admin)) && CalmOk(Init(admin))
  {
    assert Pending([], 0) == {};
  }

  /** Some run of the server leads here. */
  ghost predicate Reachable(s: State) {
    exists admin, labels :: admin != [] && IsRun(Init(admin), labels) && s == Exec(Init(admin), labels)
  }

  lemma ReachableIsBasic(s: State)
    requires Reachable(s)
    ensures Basic(s)
  {
    var admin, labels :| admin != [] && IsRun(Init(admin), labels) && s == Exec(Init(admin), labels);
    InitIsGood(admin);
    BasicRun(Init(admin), labels);
  }

  /** Accepted messages are delivered, in hand or queued, in that order; at most eleven are on their way. */
  lemma Conservation(s: State)
    requires Reachable(s)
    ensures s.accepted == s.delivered + InHand(s.agent) + s.queue
    ensures |s.accepted| - |s.delivered| <= 11
  {
    ReachableIsBasic(s);
  }

  /** Each user is sent one unbroken stretch of the accepted messages, in order and once each. */
  lemma TotalOrder(s: State, u: Id)
    requires Reachable(s) && u in s.sess
    ensures s.sess[u].joinedAt <= Reach(s, u) <= |s.accepted|
    ensures Stream(s.sess[u].log) == Stretch(s.accepted, s.sess[u].joinedAt, Reach(s, u))
    ensures LoggedIn(s, u) ==> |s.delivered| <= Reach(s, u)
  {
    ReachableIsBasic(s);
    assert Heard(s, u);
  }

  /** On every run, frames show a user under the name its last login was accepted under, tails or not. */
  lemma {:induction false} ShownIsLast(admin: Text, labels: seq<Label>, u: Id)
    requires IsRun(Init(admin), labels)
    ensures Shown(Exec(Init(admin), labels), u) == LastAccepted(labels, u)
  {
    if labels != [] {
      var before := labels[..|labels| - 1];
      RunFront(Init(admin), labels);
      ShownIsLast(admin, before, u);
      StoresWhatWasChecked(admin, before, u);
      ShownStep(Exec(Init(admin), before), labels[|labels| - 1], u);
    }
  }

  lemma {:induction false} PostingWaits(s: State, labels: seq<Label>, u: Id)
    requires u in s.sess && s.sess[u].phase.Posting? && IsRun(s, labels) && Session(u, Post) !in labels
    ensures u in Exec(s, labels).sess && Exec(s, labels).sess[u].phase == s.sess[u].phase
    decreases |labels|
  {
    if labels != [] {
      assert labels[0] in labels && Apply(s, labels[0]).sess[u] == SessionAfter(s, labels[0], u);
      PostingWaits(Apply(s, labels[0]), labels[1..], u);
    }
  }

  /**
   A message for which its session saw room waits through whatever the others do, a full queue
   included, and when the session posts it is the next message accepted, as it was built: under
   the name that was shown of the session then.
   */
  lemma ChatIsAccepted(s: State, u: Id, text: Text, labels: seq<Label>)
    requires Enabled(s, Session(u, ChatCheck(text))) && |s.queue| < QUEUE_CAPACITY
    requires var t := Apply(s, Session(u, ChatCheck(text)));
      IsRun(t, labels) && Session(u, Post) !in labels && Enabled(Exec(t, labels), Session(u, Post))
    ensures var t := Exec(Apply(s, Session(u, ChatCheck(text))), labels);
      Apply(t, Session(u, Post)).accepted == t.accepted + [Packet(ChatText(Shown(s, u), CStr(text)), None)]
  {
    var t := Apply(s, Session(u, ChatCheck(text)));
    assert t.sess[u] == SessionAfter(s, Session(u, ChatCheck(text)), u);
    PostingWaits(t, labels, u);
  }

  lemma {:induction false} AdminStays(s: State, labels: seq<Label>)
    requires IsRun(s, labels)
    ensures Exec(s, labels).admin == s.admin
    decreases |labels|
  {
    if labels != [] { AdminStays(Apply(s, labels[0]), labels[1..]); }
  }

  /**
   In every run a pause or resume command is answered at once exactly if it does not enter the gate:
   whoever is not stored under the admin's name is told so, and the admin is told that the chat is
   paused already, or is not paused, by the last store of a pause or resume to the flag.
   */
  lemma GateOrAnswer(admin: Text, labels: seq<Label>, u: Id, command: Command)
    requires admin != [] && IsRun(Init(admin), labels) && (command.Pause? || command.Resume?)
    requires Enabled(Exec(Init(admin), labels), Session(u, Run(command)))
    ensures var s := Exec(Init(admin), labels);
      var t := Apply(s, Session(u, Run(command)));
      var refused := GateRefusal(command.Pause?, Name(s, u) == admin, PausedBy(labels));
      && Answered(t, u, Commands) == Answered(s, u, Commands) + refused
      && u in t.sess && AfterGateCommand(t.sess[u].phase, command.Pause?, refused)
  {
    var s := Exec(Init(admin), labels);
    InitIsGood(admin);
    BasicRun(Init(admin), labels);
    AdminStays(Init(admin), labels);
    PausedIsLast(admin, labels);
    GateOrRefusal(s, u, command, GateRefusal(command.Pause?, Name(s, u) == admin, PausedBy(labels)));
  }

  /** Two stretches of one sequence that show the same position go on alike. */
  lemma StretchesAgree(accepted: seq<Packet>, from: nat, to: nat, i: nat, from': nat, to': nat, j: nat)
    requires from <= to <= |accepted| && from' <= to' <= |accepted|
    requires i < to - from && j < to' - from'
    requires Stretch(accepted, from, to)[i].0 == Stretch(accepted, from', to')[j].0
    ensures Stretch(accepted, from, to)[i..] <= Stretch(accepted, from', to')[j..]
         || Stretch(accepted, from', to')[j..] <= Stretch(accepted, from, to)[i..]
  {
    var a, b := Stretch(accepted, from, to)[i..], Stretch(accepted, from', to')[j..];
    assert forall d :: 0 <= d < |a| && d < |b| ==> a[d] == b[d];
  }

  /** Where two users' streams meet in one message, they go on with the same messages. */
  lemma SharedOrder(s: State, u: Id, v: Id, i: nat, j: nat)
    requires Reachable(s) && u in s.sess && v in s.sess
    requires i < |Stream(s.sess[u].log)| && j < |Stream(s.sess[v].log)|
    requires Stream(s.sess[u].log)[i].0 == Stream(s.sess[v].log)[j].0
    ensures Stream(s.sess[u].log)[i..] <= Stream(s.sess[v].log)[j..]
         || Stream(s.sess[v].log)[j..] <= Stream(s.sess[u].log)[i..]
  {
    TotalOrder(s, u);
    TotalOrder(s, v);
    StretchesAgree(s.accepted, s.sess[u].joinedAt, Reach(s, u), i, s.sess[v].joinedAt, Reach(s, v), j);
  }

  /**
   A session's departure notice is sent once to each of those its walk told and to nobody
   else, never to itself, and only if a login of the session was accepted.
   */
  lemma DeparturesExact(s: State, u: Id, w: Id)
    requires Reachable(s) && u in s.sess && w in s.sess
    ensures Notices(s.sess[u].log, w) == if u in s.sess[w].told then 1 else 0
    ensures w !in s.sess[w].told
    ensures u in s.sess[w].told ==> s.sess[w].phase.Notified? || s.sess[w].phase.Gone?
    ensures u in s.sess[w].told ==> s.sess[w].nameLength > 0
    ensures s.sess[w].nameLength > 0 <==> exists n :: (w, n) in s.logins
    ensures s.sess[w].nameLength > 0 ==> (w, Shown(s, w)) in s.logins
  {
    ReachableIsBasic(s);
    assert NoticesOk(s, u, w) && ToldOk(s, w) && LoginsOk(s, w);
  }

  /** With the semaphore free or its own the agent never gets stuck, and left alone it delivers everything accepted. */
  lemma Drains(s: State)
    requires Reachable(s) && Open(s)
    ensures !Settled(s) ==> Enabled(s, Agent(AgentNext(s)))
    ensures Settled(Drained(s)) && Drained(s).delivered == s.accepted
  {
    ReachableIsBasic(s);
    if !Settled(s) { AgentProgress(s); }
    DrainedEmpties(s);
  }

  /** A session that has told the others tells nobody else afterwards. */
  lemma {:induction false} ToldForGood(s: State, labels: seq<Label>, w: Id)
    requires IsRun(s, labels) && w in s.sess && (s.sess[w].phase.Notified? || s.sess[w].phase.Gone?)
    ensures w in Exec(s, labels).sess && Exec(s, labels).sess[w].told == s.sess[w].told
    decreases |labels|
  {
    if labels != [] {
      ToldFields(s, labels[0], w);
      assert Apply(s, labels[0]).sess[w] == SessionAfter(s, labels[0], w);
      ToldForGood(Apply(s, labels[0]), labels[1..], w);
    }
  }

  /** Every departure notice of `w` that `u` was sent is this frame. */
  predicate NoticesSay(s: State, u: Id, w: Id, frame: Frame) {
    u in s.sess ==> forall e :: e in s.sess[u].log && IsNotice(e, w) ==> e.frame == frame
  }

  lemma {:induction false} NoNotice(log: seq<Sent>, w: Id)
    requires Notices(log, w) == 0
    ensures forall e :: e in log ==> !IsNotice(e, w)
  {
    if log != [] {
      NoNotice(log[..|log| - 1], w);
      assert log == log[..|log| - 1] + [log[|log| - 1]];
    }
  }

  lemma NoticesSayStep(s: State, l: Label, u: Id, w: Id, frame: Frame)
    requires Flow(s) && Enabled(s, l) && NoticesSay(s, u, w, frame) && !Departs(s, l, u, w)
    ensures NoticesSay(Apply(s, l), u, w, frame)
  {
    if u in s.sess {
      assert forall p :: p in InHand(s.agent) ==> p in s.accepted;
      OutgoingNotices(s, l, u, w);
      NoNotice(Outgoing(s, l, u), w);
    }
  }

  lemma {:induction false} NoticesSayRun(s: State, labels: seq<Label>, u: Id, w: Id, frame: Frame)
    requires Basic(s) && IsRun(s, labels) && NoticesSay(s, u, w, frame)
    requires w in s.sess && (s.sess[w].phase.Notified? || s.sess[w].phase.Gone?)
    ensures NoticesSay(Exec(s, labels), u, w, frame)
    decreases |labels|
  {
    if labels != [] {
      ToldFields(s, labels[0], w);
      assert Apply(s, labels[0]).sess[w] == SessionAfter(s, labels[0], w);
      NoticesSayStep(s, labels[0], u, w, frame);
      BasicStep(s, labels[0]);
      NoticesSayRun(Apply(s, labels[0]), labels[1..], u, w, frame);
    }
  }

  /** What a session that leaves after this run is announced with. */
  function Farewell(admin: Text, labels: seq<Label>, w: Id): Frame
    requires IsRun(Init(admin), labels)
  {
    var kicked := Session(w, Malformed) in labels || KickedIn(Init(admin), labels, w);
    UserRemoved(LastAccepted(labels, w), if kicked then Kicked else CommunicationError)
  }

  lemma LogGrows(s: State, l: Label, u: Id)
    requires Enabled(s, l) && u in s.sess
    ensures u in Apply(s, l).sess && Apply(s, l).sess[u].log == s.sess[u].log + Outgoing(s, l, u)
  {
  }

  /** Before its walk nobody has been sent a departure notice of `w`. */
  lemma NotTold(s: State, w: Id, u: Id)
    requires Basic(s) && Enabled(s, Session(w, Notify)) && u in s.sess
    ensures forall e :: e in s.sess[u].log ==> !IsNotice(e, w)
  {
    assert ToldOk(s, w) && NoticesOk(s, u, w);
    NoNotice(s.sess[u].log, w);
  }

  lemma LastNotices(s: State, t: State, u: Id, w: Id, out: seq<Sent>, frame: Frame)
    requires u in s.sess && u in t.sess && t.sess[u].log == s.sess[u].log + out
    requires (forall e :: e in s.sess[u].log ==> !IsNotice(e, w)) && forall e :: e in out ==> e.frame == frame
    ensures NoticesSay(t, u, w, frame)
  {
  }

  lemma WalkSends(s: State, w: Id, u: Id)
    requires Enabled(s, Session(w, Notify))
    ensures forall e :: e in Outgoing(s, Session(w, Notify), u) ==>
      e.frame == UserRemoved(Shown(s, w), if Marked(s, w) then Kicked else CommunicationError)
  {
  }

  lemma WalkSays(s: State, w: Id, u: Id, frame: Frame)
    requires Basic(s) && Enabled(s, Session(w, Notify))
    requires frame == UserRemoved(Shown(s, w), if Marked(s, w) then Kicked else CommunicationError)
    ensures NoticesSay(Apply(s, Session(w, Notify)), u, w, frame)
  {
    if u in s.sess {
      NotTold(s, w, u);
      WalkSends(s, w, u);
      LogGrows(s, Session(w, Notify), u);
      LastNotices(s, Apply(s, Session(w, Notify)), u, w, Outgoing(s, Session(w, Notify), u), frame);
    }
  }

  lemma WalkTells(s: State, w: Id)
    requires Basic(s) && Enabled(s, Session(w, Notify))
    ensures var t := Apply(s, Session(w, Notify));
      && w in t.sess && t.sess[w].phase.Notified?
      && t.sess[w].told == if s.sess[w].nameLength > 0 then Online(s) - {w} else {}
  {
    ToldFields(s, Session(w, Notify), w);
    assert ToldOk(s, w);
  }

  lemma WalkHeard(s: State, w: Id, u: Id, t: State)
    requires Basic(s) && Departures(t) && w in s.sess && w in t.sess && u in t.sess
    requires t.sess[w].told == if s.sess[w].nameLength > 0 then Online(s) - {w} else {}
    ensures Notices(t.sess[u].log, w) == if LoggedIn(s, u) && u != w && exists n :: (w, n) in s.logins then 1 else 0
  {
    assert NoticesOk(t, u, w) && LoginsOk(s, w);
    assert LoggedIn(s, u) ==> SessionOk(s.sess[u]) && u in s.list;
  }

  /** Who has logged in by the run is whom the state says. */
  lemma EverAccepted(admin: Text, labels: seq<Label>, w: Id)
    requires IsRun(Init(admin), labels)
    ensures (exists n :: AcceptedAs(labels, w, n)) <==> exists n :: (w, n) in Exec(Init(admin), labels).logins
  {
    var s := Exec(Init(admin), labels);
    if n :| AcceptedAs(labels, w, n) { LoginsAreAccepted(admin, labels, w, n); }
    if n :| (w, n) in s.logins { LoginsAreAccepted(admin, labels, w, n); }
  }

  /** What the run says of a walk that comes next: whom it tells, and what. */
  lemma FarewellIs(admin: Text, labels: seq<Label>, w: Id, u: Id)
    requires admin != [] && IsRun(Init(admin), labels)
    ensures var s := Exec(Init(admin), labels);
      && Farewell(admin, labels, w) == UserRemoved(Shown(s, w), if Marked(s, w) then Kicked else CommunicationError)
      && LoggedIn(s, u) == OnlineBy(labels, u)
      && ((exists n :: (w, n) in s.logins) <==> exists n :: AcceptedAs(labels, w, n))
  {
    ShownIsLast(admin, labels, w);
    MarkedIsKicked(admin, labels, w);
    OnlineIsLast(admin, labels, u);
    EverAccepted(admin, labels, w);
  }

  /**
   Over a whole run: a leaving session's notice is sent to exactly those who are online when
   its walk runs, the session excepted and only if a login of it was accepted; once to each,
   before and after never; under the name its last login was accepted under, whatever name is
   stored; and with the kicked reason exactly if the session had sent a malformed message or been
   kicked.
   */
  lemma DepartureWalk(admin: Text, before: seq<Label>, w: Id, after: seq<Label>, u: Id)
    requires admin != [] && IsRun(Init(admin), before) && Enabled(Exec(Init(admin), before), Session(w, Notify))
    requires IsRun(Apply(Exec(Init(admin), before), Session(w, Notify)), after)
    requires u in Exec(Apply(Exec(Init(admin), before), Session(w, Notify)), after).sess
    ensures var t := Exec(Apply(Exec(Init(admin), before), Session(w, Notify)), after);
      && Notices(t.sess[u].log, w)
         == (if OnlineBy(before, u) && u != w && exists n :: AcceptedAs(before, w, n) then 1 else 0)
      && NoticesSay(t, u, w, Farewell(admin, before, w))
  {
    InitIsGood(admin);
    BasicRun(Init(admin), before);
    FarewellIs(admin, before, w, u);
    var s := Exec(Init(admin), before);
    WalkTells(s, w);
    WalkSays(s, w, u, Farewell(admin, before, w));
    var s1 := Apply(s, Session(w, Notify));
    BasicStep(s, Session(w, Notify));
    BasicRun(s1, after);
    ToldForGood(s1, after, w);
    NoticesSayRun(s1, after, u, w, Farewell(admin, before, w));
    WalkHeard(s, w, u, Exec(s1, after));
  }

  // ---------------------------------------------------------------- the semaphore over runs

  /** The semaphore is accounted for in every state of the run. */
  predicate AlwaysBalanced(s: State, labels: seq<Label>)
    requires IsRun(s, labels)
    decreases |labels|
  {
    Balance(s) && (labels == [] || AlwaysBalanced(Apply(s, labels[0]), labels[1..]))
  }

  /** No resume of the run posts with no pause to lift. */
  predicate EveryPostLifts(s: State, labels: seq<Label>)
    requires IsRun(s, labels)
    decreases |labels|
  {
    labels == [] || (!LiftsNothing(s, labels[0]) && EveryPostLifts(Apply(s, labels[0]), labels[1..]))
  }

  /** The semaphore stays accounted for along a run exactly as long as every resume finds a pause to lift. */
  lemma {:induction false} BalanceOverRuns(s: State, labels: seq<Label>)
    requires Balance(s) && IsRun(s, labels)
    ensures AlwaysBalanced(s, labels) <==> EveryPostLifts(s, labels)
    decreases |labels|
  {
    if labels != [] {
      BalanceIsExact(s, labels[0]);
      if Balance(Apply(s, labels[0])) { BalanceOverRuns(Apply(s, labels[0]), labels[1..]); }
    }
  }

  /** With the semaphore held by a pause the agent cannot be in its walk. */
  lemma HeldStep(s: State, l: Label)
    requires Balance(s) && Held(s) && Enabled(s, l) && !(l.Session? && l.step.ResumePost?)
    ensures Balance(Apply(s, l)) && Held(Apply(s, l)) && l != Agent(Visit) && l != Agent(Unlock)
    ensures Apply(s, l).delivered == s.delivered
  {
    MarksNext(s, l);
    BalanceIsExact(s, l);
  }

  lemma SilentStep(s: State, l: Label, u: Id)
    requires Flow(s) && Enabled(s, l) && l != Agent(Visit) && u in s.sess
    ensures u in Apply(s, l).sess && Stream(Apply(s, l).sess[u].log) == Stream(s.sess[u].log)
  {
    NothingIgnored(s);
    OutgoingStream(s, l, u);
    LogGrows(s, l, u);
    StreamConcat(s.sess[u].log, Outgoing(s, l, u));
  }

  predicate NoResume(labels: seq<Label>) {
    forall l :: l in labels ==> !(l.Session? && l.step.ResumePost?)
  }

  lemma NoResumeRest(labels: seq<Label>)
    requires NoResume(labels) && labels != []
    ensures !(labels[0].Session? && labels[0].step.ResumePost?) && NoResume(labels[1..])
    ensures forall l :: l in labels ==> l == labels[0] || l in labels[1..]
  {
    assert labels[0] in labels;
  }

  /** From a completed pause to the next resume's post, the agent visits nobody and the pause stays held. */
  lemma {:induction false} PauseHolds(s: State, labels: seq<Label>)
    requires Balance(s) && Held(s) && IsRun(s, labels) && NoResume(labels)
    ensures Agent(Visit) !in labels
    ensures Balance(Exec(s, labels)) && Held(Exec(s, labels))
    decreases |labels|
  {
    if labels != [] {
      NoResumeRest(labels);
      HeldStep(s, labels[0]);
      PauseHolds(Apply(s, labels[0]), labels[1..]);
    }
  }

  lemma {:induction false} SilentRun(s: State, labels: seq<Label>, u: Id)
    requires Shape(s) && Flow(s) && IsRun(s, labels) && Agent(Visit) !in labels && u in s.sess
    ensures u in Exec(s, labels).sess
    ensures Stream(Exec(s, labels).sess[u].log) == Stream(s.sess[u].log)
    decreases |labels|
  {
    if labels != [] {
      var l := labels[0];
      assert l in labels;
      SilentStep(s, l, u);
      ShapeStep(s, l);
      FlowStep(s, l);
      SilentRun(Apply(s, l), labels[1..], u);
    }
  }

  /** So, whoever races for whatever name meanwhile, no user is sent a broadcast frame in between. */
  lemma PauseSafety(s: State, labels: seq<Label>, u: Id)
    requires Shape(s) && Flow(s) && Balance(s) && Held(s) && IsRun(s, labels) && NoResume(labels) && u in s.sess
    ensures u in Exec(s, labels).sess
    ensures Stream(Exec(s, labels).sess[u].log) == Stream(s.sess[u].log)
    ensures Held(Exec(s, labels))
  {
    PauseHolds(s, labels);
    SilentRun(s, labels, u);
  }

  // ---------------------------------------------------------------- schedules under a condition

  /**
   What the steps of a run respect: no admin by a tail, the admin's name, all names, what rosters
   need, or all of it.
   */
  datatype Care = TailCare | AdminCare | NameCare | RosterCare | AllCare

  ghost predicate Heeds(care: Care, s: State, l: Label) {
    match care
    case TailCare => NoTailAdmin(s, l)
    case AdminCare => GuardsAdmin(s, l)
    case NameCare => Careful(s, l)
    case RosterCare => Calm(s, l)
    case AllCare => NoTailAdmin(s, l) && Careful(s, l) && Calm(s, l)
  }

  ghost predicate RunWith(care: Care, s: State, labels: seq<Label>)
    decreases |labels|
  {
    labels == [] ||
    (Enabled(s, labels[0]) && Heeds(care, s, labels[0]) && RunWith(care, Apply(s, labels[0]), labels[1..]))
  }

  ghost predicate ReachableWith(care: Care, s: State) {
    exists admin, labels :: admin != [] && RunWith(care, Init(admin), labels)
      && IsRun(Init(admin), labels) && s == Exec(Init(admin), labels)
  }

  lemma {:induction false} WithIsRun(care: Care, s: State, labels: seq<Label>)
    requires RunWith(care, s, labels)
    ensures IsRun(s, labels)
    decreases |labels|
  {
    if labels != [] { WithIsRun(care, Apply(s, labels[0]), labels[1..]); }
  }

  lemma {:induction false} WithSnoc(care: Care, s: State, labels: seq<Label>, l: Label)
    requires RunWith(care, s, labels) && IsRun(s, labels)
    requires Enabled(Exec(s, labels), l) && Heeds(care, Exec(s, labels), l)
    ensures RunWith(care, s, labels + [l])
    decreases |labels|
  {
    if labels == [] {
      assert labels + [l] == [l] && [l][1..] == [];
    } else {
      WithSnoc(care, Apply(s, labels[0]), labels[1..], l);
      assert (labels + [l])[1..] == labels[1..] + [l];
    }
  }

  lemma ReachesNext(care: Care, s: State, l: Label)
    requires ReachableWith(care, s) && Enabled(s, l) && Heeds(care, s, l)
    ensures ReachableWith(care, Apply(s, l))
  {
    var admin, labels :| admin != [] && RunWith(care, Init(admin), labels)
      && IsRun(Init(admin), labels) && s == Exec(Init(admin), labels);
    WithSnoc(care, Init(admin), labels, l);
    RunSnoc(Init(admin), labels, l);
  }

  predicate Implies(care: Care, weaker: Care) {
    care == weaker || care.AllCare? || (care.NameCare? && weaker.AdminCare?)
  }

  lemma HeedsMore(care: Care, weaker: Care, s: State, l: Label)
    requires Implies(care, weaker) && Heeds(care, s, l)
    ensures Heeds(weaker, s, l)
  {
  }

  lemma {:induction false} RunsWithMore(care: Care, weaker: Care, s: State, labels: seq<Label>)
    requires Implies(care, weaker) && RunWith(care, s, labels)
    ensures RunWith(weaker, s, labels)
    decreases |labels|
  {
    if labels != [] {
      HeedsMore(care, weaker, s, labels[0]);
      RunsWithMore(care, weaker, Apply(s, labels[0]), labels[1..]);
    }
  }

  lemma ReachesWithMore(care: Care, weaker: Care, s: State)
    requires Implies(care, weaker) && ReachableWith(care, s)
    ensures ReachableWith(weaker, s)
  {
    var admin, labels :| admin != [] && RunWith(care, Init(admin), labels)
      && IsRun(Init(admin), labels) && s == Exec(Init(admin), labels);
    RunsWithMore(care, weaker, Init(admin), labels);
  }

  // ---------------------------------------------------------------- with no admin by a tail

  lemma {:induction false} AdminRun(s: State, labels: seq<Label>)
    requires s.admin != [] && AdminOk(s) && RunWith(TailCare, s, labels) && IsRun(s, labels)
    ensures AdminOk(Exec(s, labels)) && Exec(s, labels).admin == s.admin
    decreases |labels|
  {
    if labels != [] {
      AdminStep(s, labels[0]);
      AdminRun(Apply(s, labels[0]), labels[1..]);
    }
  }

  /**
   Every pause, resume and kick is the work of a session whose login under the admin's name was
   accepted, however checks race.
   */
  lemma CommandActors(s: State)
    requires ReachableWith(TailCare, s)
    ensures forall m :: m in s.marks ==> (m.actor, s.admin) in s.logins
    ensures forall k :: k in s.kicks ==> (k.actor, s.admin) in s.logins
    ensures forall u: Id :: LoggedIn(s, u) && IsAdmin(s, u) ==> (u, s.admin) in s.logins
  {
    var admin, labels :| admin != [] && RunWith(TailCare, Init(admin), labels)
      && IsRun(Init(admin), labels) && s == Exec(Init(admin), labels);
    AdminRun(Init(admin), labels);
    assert forall u :: IsAdmin(s, u) ==> EntitledAdmin(s, u);
    assert forall m :: m in s.marks ==> EntitledAdmin(s, m.actor);
    assert forall k :: k in s.kicks ==> EntitledAdmin(s, k.actor);
  }

  // ---------------------------------------------------------------- with care for all names

  lemma {:induction false} NamesRun(s: State, labels: seq<Label>)
    requires NamesOk(s) && RunWith(NameCare, s, labels) && IsRun(s, labels)
    ensures NamesOk(Exec(s, labels))
    decreases |labels|
  {
    if labels != [] {
      NamesStep(s, labels[0]);
      NamesRun(Apply(s, labels[0]), labels[1..]);
    }
  }

  /** Logged-in names are pairwise distinct, and each name is claimed by one session only. */
  lemma NamesAreUnique(s: State)
    requires ReachableWith(NameCare, s)
    ensures UniqueNames(s) && NamesOk(s) && OneAdmin(s)
  {
    var admin, labels :| admin != [] && RunWith(NameCare, Init(admin), labels)
      && IsRun(Init(admin), labels) && s == Exec(Init(admin), labels);
    NamesRun(Init(admin), labels);
    ClaimsAreUnique(s);
  }

  // ---------------------------------------------------------------- with care for the admin's name

  lemma OrderlyStep(s: State, l: Label)
    requires Orderly(s) && Enabled(s, l) && GuardsAdmin(s, l)
    ensures Orderly(Apply(s, l))
  {
    OneClaimOneOnline(s, s.admin);
    ShapeStep(s, l);
    FlowStep(s, l);
    OneClaimStep(s, l, s.admin);
    AcceptedStep(s, l);
    GateStep(s, l);
    PausedByNameStep(s, l);
  }

  lemma {:induction false} OrderlyRun(s: State, labels: seq<Label>)
    requires Orderly(s) && RunWith(AdminCare, s, labels)
    ensures IsRun(s, labels) && Orderly(Exec(s, labels))
    decreases |labels|
  {
    WithIsRun(AdminCare, s, labels);
    if labels != [] {
      OrderlyStep(s, labels[0]);
      OrderlyRun(Apply(s, labels[0]), labels[1..]);
    }
  }

  lemma ReachableIsOrderly(s: State)
    requires ReachableWith(AdminCare, s)
    ensures Orderly(s) && OneAdmin(s)
  {
    var admin, labels :| admin != [] && RunWith(AdminCare, Init(admin), labels)
      && IsRun(Init(admin), labels) && s == Exec(Init(admin), labels);
    InitIsGood(admin);
    OrderlyRun(Init(admin), labels);
    OneClaimOneOnline(s, s.admin);
  }

  /** The semaphore is free, with the agent, or held by a pause: exactly one of the three. */
  lemma SemaphoreBalance(s: State)
    requires ReachableWith(AdminCare, s)
    ensures Balance(s)
    ensures Open(s) <==> !Held(s)
  {
    ReachableIsOrderly(s);
  }

  /** Pauses and resumes take effect in turn, starting with a pause, and only one session is online as the admin. */
  lemma PausesAlternate(s: State)
    requires ReachableWith(AdminCare, s)
    ensures Alternates(s.marks) && OneAdmin(s)
  {
    ReachableIsOrderly(s);
  }

  /** A pause never waits for a pause, its own or another's, and a resume always finds one to lift. */
  lemma PauseFindsNone(s: State, u: Id)
    requires ReachableWith(AdminCare, s) && u in s.sess
    ensures s.sess[u].phase.PauseWaiting? ==> !Held(s) && (s.sem > 0 || AgentHolds(s))
    ensures s.sess[u].phase.ResumePosting? ==> Held(s) && s.sem == 0
  {
    ReachableIsOrderly(s);
    assert AtGate(s, u) ==> GateSays(s.sess[u].phase, s.paused, Held(s));
  }

  // ---------------------------------------------------------------- calm schedules

  lemma {:induction false} CalmRunKeeps(s: State, labels: seq<Label>)
    requires CalmOk(s) && Whole(s) && RunWith(RosterCare, s, labels)
    ensures IsRun(s, labels) && CalmOk(Exec(s, labels)) && Whole(Exec(s, labels))
    decreases |labels|
  {
    WithIsRun(RosterCare, s, labels);
    if labels != [] {
      CalmStep(s, labels[0]);
      CalmIsWhole(s, labels[0]);
      CalmRunKeeps(Apply(s, labels[0]), labels[1..]);
    }
  }

  lemma ReachableIsCalm(s: State)
    requires ReachableWith(RosterCare, s)
    ensures CalmOk(s) && Whole(s)
  {
    var admin, labels :| admin != [] && RunWith(RosterCare, Init(admin), labels)
      && IsRun(Init(admin), labels) && s == Exec(Init(admin), labels);
    InitIsGood(admin);
    CalmRunKeeps(Init(admin), labels);
  }

  /**
   After any calm run at rest with nothing left to deliver, every online client's roster is the set
   of online names.
   */
  lemma RosterConvergence(s: State, u: Id)
    requires ReachableWith(RosterCare, s) && AtRest(s) && Settled(s) && LoggedIn(s, u)
    ensures Roster(s.sess[u].log) == OnlineNames(s)
    ensures forall v :: v in s.sess ==> Shown(s, v) == Name(s, v)
  {
    ReachableIsCalm(s);
    KnowledgeAtRest(s, u);
    assert Pending(s.accepted, Visited(s, u)) == {};
  }

  /** And with something left to deliver, the agent alone brings that about if the semaphore is free or its own. */
  lemma EventualConvergence(s: State)
    requires ReachableWith(RosterCare, s) && AtRest(s) && Open(s)
    ensures Converged(s)
  {
    ReachableIsCalm(s);
    Converges(s);
  }
}
