/**
 What clients are answered, over whole runs: the frames of each kind in a user's log are, in
 order, those that the steps of the run call for. And what comes of what they ask: a chat
 message is posted or refused, never both, and a session is marked as kicked by exactly its
 own malformed messages and the kicks that found it.
 */
module ChatAnswers {
  import opened CText
  import opened ChatModel
  import opened ChatFlow

  // ---------------------------------------------------------------- frames of one kind

  /** Replies to login requests, to chat messages, to commands; pauses and resumes; introductions. */
  datatype Topic = Logins | Room | Commands | Pauses | Arrivals

  predicate About(e: Sent, topic: Topic) {
    match topic
    case Logins => e.frame.LoginReply?
    case Room => e.frame == Notice(QueueFull)
    case Commands =>
      e.frame.Notice? && e.frame.kind in {NotAdmin, NoSuchUser, AlreadyPaused, NotPaused, CommandHelp, BadCommand}
    case Pauses => e.frame == Notice(ServerPaused) || e.frame == Notice(ServerResumed)
    case Arrivals => e.frame.UserAdded? && e.via.Direct?
  }

  /** The frames of a log about one topic, in order. */
  function Excerpt(log: seq<Sent>, topic: Topic): seq<Frame> {
    if log == [] then []
    else
      var last := log[|log| - 1];
      Excerpt(log[..|log| - 1], topic) + if About(last, topic) then [last.frame] else []
  }

  lemma {:induction false} ExcerptConcat(a: seq<Sent>, b: seq<Sent>, topic: Topic)
    ensures Excerpt(a + b, topic) == Excerpt(a, topic) + Excerpt(b, topic)
  {
    if b == [] {
      assert a + b == a;
    } else {
      var n := |b| - 1;
      assert (a + b)[..|a + b| - 1] == a + b[..n];
      ExcerptConcat(a, b[..n], topic);
    }
  }

  lemma {:induction false} ExcerptNone(log: seq<Sent>, topic: Topic)
    requires forall e :: e in log ==> !About(e, topic)
    ensures Excerpt(log, topic) == []
  {
    if log != [] { ExcerptNone(log[..|log| - 1], topic); }
  }

  lemma {:induction false} ExcerptAll(log: seq<Sent>, topic: Topic)
    requires forall e :: e in log ==> About(e, topic)
    ensures Excerpt(log, topic) == seq(|log|, i requires 0 <= i < |log| => log[i].frame)
  {
    if log != [] { ExcerptAll(log[..|log| - 1], topic); }
  }

  lemma ExcerptOne(e: Sent, topic: Topic)
    ensures Excerpt([e], topic) == if About(e, topic) then [e.frame] else []
  {
    assert [e][..0] == [];
  }

  // ---------------------------------------------------------------- what a step calls for

  /** What a login request under this name deserves: bad bytes first, then a name somebody online has. */
  function Verdict(s: State, name: Text): LoginCode {
    if exists b :: b in name && !NameByte(b) then NameInvalid
    else if exists v :: v in s.list && LoggedIn(s, v) && Name(s, v) == name then NameTaken
    else Success
  }

  /** Somebody online is stored under this name. */
  predicate Present(s: State, name: Text) { exists v :: v in s.list && LoggedIn(s, v) && Name(s, v) == name }

  /** What a command that does nothing else is answered. */
  function Complaints(s: State, u: Id, command: Command): seq<Frame> {
    if Name(s, u) != s.admin then [Notice(NotAdmin)]
    else if command.Help? then seq(5, _ => Notice(CommandHelp))
    else if command.Unknown? then [Notice(BadCommand)]
    else if command.KickUser? && !Present(s, command.name) then [Notice(NoSuchUser)]
    else if command.Pause? && s.paused then [Notice(AlreadyPaused)]
    else if command.Resume? && !s.paused then [Notice(NotPaused)]
    else []
  }

  /** A new user is told of everybody else who is online, under the name it is shown by. */
  function Arrival(s: State, v: Id, self: Id): seq<Frame> {
    if v != self && LoggedIn(s, v) then [UserAdded(Shown(s, v))] else []
  }

  /** The others online, in the order of the list, under the names they are shown by. */
  function OthersOnline(s: State, n: nat, self: Id): seq<Frame>
    requires n <= |s.list|
  {
    if n == 0 then [] else OthersOnline(s, n - 1, self) + Arrival(s, s.list[n - 1], self)
  }

  /** What a step calls for that `u` be sent. */
  function Due(s: State, l: Label, u: Id, topic: Topic): seq<Frame> {
    if !l.Session? then []
    else if topic.Pauses? then
      if !LoggedIn(s, u) then []
      else if l.step.PauseTell? then [Notice(ServerPaused)]
      else if l.step.ResumeTell? then [Notice(ServerResumed)]
      else []
    else if l.id != u then []
    else
      match topic
      case Logins => if l.step.CheckName? || l.step.RefuseLogin? then [LoginReply(Verdict(s, CStr(l.step.raw)))] else []
      case Room => if l.step.ChatCheck? && |s.queue| == 10 then [Notice(QueueFull)] else []
      case Commands => if l.step.Run? then Complaints(s, u, l.step.command) else []
      case Arrivals => if l.step.Introduce? then OthersOnline(s, |s.list|, u) else []
  }

  // ---------------------------------------------------------------- what is sent is what is called for

  lemma VerdictIs(s: State, id: Id, step: Step)
    requires id in s.sess && StepEnabled(s, id, step) && (step.CheckName? || step.RefuseLogin?)
    ensures Verdict(s, CStr(step.raw)) == if step.CheckName? then Success else RefusalCode(CStr(step.raw))
  {
    NameBytes(CStr(step.raw));
  }

  lemma KickNobody(s: State, name: Text)
    ensures KickTarget(s, s.list, name).None? <==> !Present(s, name)
  {
    KickTargetIs(s, s.list, name);
  }

  lemma ComplaintsAre(s: State, id: Id, command: Command)
    requires id in s.sess
    ensures Excerpt(Replies(s, id, Run(command)), Commands) == Complaints(s, id, command)
  {
    var replies := Replies(s, id, Run(command));
    if command.KickUser? { KickNobody(s, command.name); }
    ExcerptAll(replies, Commands);
  }

  lemma OneArrival(name: Text, self: Id)
    ensures Excerpt([Sent(UserAdded(name), Direct(self))], Arrivals) == [UserAdded(name)]
  {
    ExcerptOne(Sent(UserAdded(name), Direct(self)), Arrivals);
  }

  lemma OneIntroduced(s: State, v: Id, self: Id)
    ensures Excerpt(Introduction(s, v, self), Arrivals) == Arrival(s, v, self)
  {
    OneArrival(Shown(s, v), self);
  }

  lemma NextIntroduced(s: State, n: nat, self: Id, before: seq<Sent>, now: seq<Sent>)
    requires n < |s.list| && now == before + Introduction(s, s.list[n], self)
    requires Excerpt(before, Arrivals) == OthersOnline(s, n, self)
    ensures Excerpt(now, Arrivals) == OthersOnline(s, n + 1, self)
  {
    OneIntroduced(s, s.list[n], self);
    ExcerptConcat(before, Introduction(s, s.list[n], self), Arrivals);
  }

  lemma {:induction false} OthersAreIntroducedInOrder(s: State, n: nat, self: Id)
    requires n <= |s.list|
    ensures Excerpt(IntroFrames(s, s.list[..n], self), Arrivals) == OthersOnline(s, n, self)
  {
    if n > 0 {
      OthersAreIntroducedInOrder(s, n - 1, self);
      assert s.list[..n] == s.list[..n - 1] + [s.list[n - 1]];
      IntroSnoc(s, s.list[..n - 1], s.list[n - 1], self);
      NextIntroduced(s, n - 1, self, IntroFrames(s, s.list[..n - 1], self), IntroFrames(s, s.list[..n], self));
    }
  }

  lemma RepliesDue(s: State, id: Id, step: Step, topic: Topic)
    requires Flow(s) && id in s.sess && StepEnabled(s, id, step) && !topic.Pauses?
    ensures Excerpt(Replies(s, id, step), topic) == Due(s, Session(id, step), id, topic)
  {
    match step
    case RefuseLogin(_) => VerdictIs(s, id, step); ExcerptOne(Replies(s, id, step)[0], topic);
    case CheckName(_) => VerdictIs(s, id, step); ExcerptOne(Replies(s, id, step)[0], topic);
    case ChatCheck(_) => if |s.queue| == 10 { ExcerptOne(Replies(s, id, step)[0], topic); }
    case Run(command) =>
      if topic.Commands? { ComplaintsAre(s, id, command); } else { ExcerptNone(Replies(s, id, step), topic); }
    case Introduce =>
      assert s.list[..|s.list|] == s.list;
      if topic.Arrivals? {
        OthersAreIntroducedInOrder(s, |s.list|, id);
      } else {
        IntroFramesAre(s, s.list, id);
        ExcerptNone(Replies(s, id, step), topic);
      }
    case _ =>
  }

  lemma RepliesQuiet(s: State, id: Id, step: Step)
    requires id in s.sess && StepEnabled(s, id, step)
    ensures Excerpt(Replies(s, id, step), Pauses) == []
  {
    if step.Introduce? { IntroFramesAre(s, s.list, id); }
    ExcerptNone(Replies(s, id, step), Pauses);
  }

  lemma AnnouncedDue(s: State, id: Id, step: Step, u: Id, topic: Topic)
    requires Shape(s) && id in s.sess && StepEnabled(s, id, step) && Announcement(s, id, step).Some?
    ensures Excerpt(Outgoing(s, Session(id, step), u), topic) == Due(s, Session(id, step), u, topic)
  {
    ExcerptOne(Sent(Announcement(s, id, step).value, Direct(id)), topic);
  }

  lemma AnsweredDue(s: State, id: Id, step: Step, u: Id, topic: Topic)
    requires Flow(s) && id in s.sess && StepEnabled(s, id, step) && Announcement(s, id, step).None?
    ensures Excerpt(Outgoing(s, Session(id, step), u), topic) == Due(s, Session(id, step), u, topic)
  {
    if u == id {
      if topic.Pauses? { RepliesQuiet(s, id, step); } else { RepliesDue(s, id, step, topic); }
    }
  }

  lemma BroadcastDue(s: State, step: AgentStep, u: Id, topic: Topic)
    requires Flow(s) && AgentEnabled(s, step)
    ensures Excerpt(Outgoing(s, Agent(step), u), topic) == []
  {
    InHandIs(s);
    ExcerptNone(Outgoing(s, Agent(step), u), topic);
  }

  lemma SentDue(s: State, l: Label, u: Id, topic: Topic)
    requires Shape(s) && Flow(s) && Enabled(s, l)
    ensures Excerpt(Outgoing(s, l, u), topic) == Due(s, l, u, topic)
  {
    match l
    case Connect(_) =>
    case Session(id, step) =>
      if Announcement(s, id, step).Some? {
        AnnouncedDue(s, id, step, u, topic);
      } else {
        AnsweredDue(s, id, step, u, topic);
      }
    case Agent(step) => BroadcastDue(s, step, u, topic);
  }

  // ---------------------------------------------------------------- over runs

  /** What the steps of a run call for, in order. */
  function DueOver(s: State, labels: seq<Label>, u: Id, topic: Topic): seq<Frame>
    requires IsRun(s, labels)
    decreases |labels|
  {
    if labels == [] then []
    else Due(s, labels[0], u, topic) + DueOver(Apply(s, labels[0]), labels[1..], u, topic)
  }

  /** What a user has been sent about a topic. */
  function Answered(s: State, u: Id, topic: Topic): seq<Frame> {
    if u in s.sess then Excerpt(s.sess[u].log, topic) else []
  }

  lemma LogAfterStep(s: State, l: Label, u: Id)
    requires Enabled(s, l)
    ensures u in s.sess ==> u in Apply(s, l).sess && Apply(s, l).sess[u].log == s.sess[u].log + Outgoing(s, l, u)
    ensures u !in s.sess && u in Apply(s, l).sess ==> Apply(s, l).sess[u].log == []
    ensures u !in s.sess ==> Outgoing(s, l, u) == []
  {
    if u in s.sess { assert Apply(s, l).sess[u] == SessionAfter(s, l, u); }
  }

  lemma AnsweredStep(s: State, l: Label, u: Id, topic: Topic)
    requires Shape(s) && Flow(s) && Enabled(s, l)
    ensures Answered(Apply(s, l), u, topic) == Answered(s, u, topic) + Due(s, l, u, topic)
  {
    SentDue(s, l, u, topic);
    LogAfterStep(s, l, u);
    if u in s.sess { ExcerptConcat(s.sess[u].log, Outgoing(s, l, u), topic); }
  }

  lemma ShapeFlowStep(s: State, l: Label)
    requires Shape(s) && Flow(s) && Enabled(s, l)
    ensures Shape(Apply(s, l)) && Flow(Apply(s, l))
  {
    ShapeStep(s, l);
    FlowStep(s, l);
  }

  lemma Regrouped<T>(a: seq<T>, b: seq<T>, c: seq<T>, now: seq<T>, end: seq<T>)
    requires now == a + b && end == now + c
    ensures end == a + (b + c)
  {
  }

  lemma {:induction false} AnsweredOver(s: State, labels: seq<Label>, u: Id, topic: Topic)
    requires Shape(s) && Flow(s) && IsRun(s, labels)
    ensures Answered(Exec(s, labels), u, topic) == Answered(s, u, topic) + DueOver(s, labels, u, topic)
    decreases |labels|
  {
    if labels != [] {
      var t := Apply(s, labels[0]);
      AnsweredStep(s, labels[0], u, topic);
      ShapeFlowStep(s, labels[0]);
      AnsweredOver(t, labels[1..], u, topic);
      Regrouped(Answered(s, u, topic), Due(s, labels[0], u, topic), DueOver(t, labels[1..], u, topic),
                Answered(t, u, topic), Answered(Exec(s, labels), u, topic));
    }
  }

  lemma AnsweredFromNothing(s: State, labels: seq<Label>, u: Id, topic: Topic)
    requires Shape(s) && Flow(s) && IsRun(s, labels) && u !in s.sess
    ensures Answered(Exec(s, labels), u, topic) == DueOver(s, labels, u, topic)
  {
    AnsweredOver(s, labels, u, topic);
  }

  /** Over every run each user is sent, topic by topic and in order, exactly what the steps call for. */
  lemma AnswersAreExact(admin: Text, labels: seq<Label>, u: Id, topic: Topic)
    requires admin != [] && IsRun(Init(admin), labels)
    ensures Answered(Exec(Init(admin), labels), u, topic) == DueOver(Init(admin), labels, u, topic)
  {
    AnsweredFromNothing(Init(admin), labels, u, topic);
  }

  // ---------------------------------------------------------------- posted or refused

  /** What a session is waiting to post. */
  function InPost(s: State, u: Id): seq<Packet> {
    if u in s.sess && s.sess[u].phase.Posting? then [s.sess[u].phase.packet] else []
  }

  /** What a step finds room for: the announcement of a login, or a chat message. */
  function Cleared(s: State, l: Label, u: Id): seq<Packet> {
    if l.Session? && l.id == u && |s.queue| < 10 then
      match l.step
      case AnnounceCheck => [Packet(UserAdded(Shown(s, u)), None)]
      case ChatCheck(text) => [Packet(ChatText(Shown(s, u), CStr(text)), None)]
      case _ => []
    else []
  }

  /** What a session adds to the accepted messages. */
  function Posts(s: State, l: Label, u: Id): seq<Packet>
    requires Enabled(s, l)
  {
    if l == Session(u, Post) then Apply(s, l).accepted[|s.accepted|..] else []
  }

  lemma OwnPost(s: State, u: Id, step: Step)
    requires u in s.sess && SessionOk(s.sess[u]) && StepEnabled(s, u, step)
    ensures var p := PhaseAfter(s, u, step);
      InPost(s, u) + Cleared(s, Session(u, step), u)
      == Enqueued(s, Session(u, step)) + if p.Posting? then [p.packet] else []
  {
  }

  lemma PostsAre(s: State, l: Label, u: Id)
    requires Enabled(s, l)
    ensures Posts(s, l, u) == if l.Session? && l.id == u then Enqueued(s, l) else []
  {
  }

  lemma PostStep(s: State, l: Label, u: Id)
    requires Shape(s) && Enabled(s, l)
    ensures InPost(s, u) + Cleared(s, l, u) == Posts(s, l, u) + InPost(Apply(s, l), u)
  {
    PostsAre(s, l, u);
    if u in s.sess {
      PhaseFields(s, l, u);
      if l.Session? && l.id == u { OwnPost(s, u, l.step); }
    }
  }

  function ClearedOver(s: State, labels: seq<Label>, u: Id): seq<Packet>
    requires IsRun(s, labels)
    decreases |labels|
  {
    if labels == [] then [] else Cleared(s, labels[0], u) + ClearedOver(Apply(s, labels[0]), labels[1..], u)
  }

  function PostsOver(s: State, labels: seq<Label>, u: Id): seq<Packet>
    requires IsRun(s, labels)
    decreases |labels|
  {
    if labels == [] then [] else Posts(s, labels[0], u) + PostsOver(Apply(s, labels[0]), labels[1..], u)
  }

  lemma Rearranged<T>(a: seq<T>, b: seq<T>, c: seq<T>, d: seq<T>, e: seq<T>, f: seq<T>, g: seq<T>)
    requires a + b == c + d && d + e == f + g
    ensures a + (b + e) == (c + f) + g
  {
    assert a + (b + e) == (a + b) + e == c + (d + e);
  }

  /** What a session posts is, in order, what its checks found room for; the last of it may still wait. */
  lemma {:induction false} PostedIsCleared(s: State, labels: seq<Label>, u: Id)
    requires Shape(s) && IsRun(s, labels)
    ensures InPost(s, u) + ClearedOver(s, labels, u) == PostsOver(s, labels, u) + InPost(Exec(s, labels), u)
    decreases |labels|
  {
    if labels != [] {
      var t := Apply(s, labels[0]);
      PostStep(s, labels[0], u);
      ShapeStep(s, labels[0]);
      PostedIsCleared(t, labels[1..], u);
      Rearranged(InPost(s, u), Cleared(s, labels[0], u), Posts(s, labels[0], u), InPost(t, u),
                 ClearedOver(t, labels[1..], u), PostsOver(t, labels[1..], u), InPost(Exec(s, labels), u));
    }
  }

  /** How often a session asked to send a chat message. */
  function ChatChecks(labels: seq<Label>, u: Id): nat {
    if labels == [] then 0
    else
      var l := labels[0];
      ChatChecks(labels[1..], u) + if l.Session? && l.id == u && l.step.ChatCheck? then 1 else 0
  }

  function ChatsIn(packets: seq<Packet>): nat {
    if packets == [] then 0 else ChatsIn(packets[1..]) + if packets[0].frame.ChatText? then 1 else 0
  }

  lemma {:induction false} ChatsConcat(a: seq<Packet>, b: seq<Packet>)
    ensures ChatsIn(a + b) == ChatsIn(a) + ChatsIn(b)
  {
    if a == [] {
      assert a + b == b;
    } else {
      assert (a + b)[1..] == a[1..] + b;
      ChatsConcat(a[1..], b);
    }
  }

  lemma CheckCounts(s: State, l: Label, u: Id)
    requires Flow(s) && Enabled(s, l)
    ensures |Due(s, l, u, Room)| + ChatsIn(Cleared(s, l, u))
         == if l.Session? && l.id == u && l.step.ChatCheck? then 1 else 0
  {
  }

  lemma {:induction false} ChecksSplit(s: State, labels: seq<Label>, u: Id)
    requires Shape(s) && Flow(s) && IsRun(s, labels)
    ensures ChatChecks(labels, u) == |DueOver(s, labels, u, Room)| + ChatsIn(ClearedOver(s, labels, u))
    decreases |labels|
  {
    if labels != [] {
      var t := Apply(s, labels[0]);
      CheckCounts(s, labels[0], u);
      ShapeFlowStep(s, labels[0]);
      ChecksSplit(t, labels[1..], u);
      ChatsConcat(Cleared(s, labels[0], u), ClearedOver(t, labels[1..], u));
    }
  }

  lemma PostedOrRefusedFrom(s: State, labels: seq<Label>, u: Id)
    requires Shape(s) && Flow(s) && IsRun(s, labels) && Answered(s, u, Room) == [] && InPost(s, u) == []
    ensures ChatChecks(labels, u)
         == |Answered(Exec(s, labels), u, Room)| + ChatsIn(PostsOver(s, labels, u)) + ChatsIn(InPost(Exec(s, labels), u))
  {
    AnsweredOver(s, labels, u, Room);
    ChecksSplit(s, labels, u);
    PostedIsCleared(s, labels, u);
    ChatsConcat(PostsOver(s, labels, u), InPost(Exec(s, labels), u));
    assert [] + ClearedOver(s, labels, u) == ClearedOver(s, labels, u);
  }

  /**
   Over every run: each chat message a session asked to send was answered that the queue is full, or
   was posted, or is waiting to be posted; one of the three, once.
   */
  lemma PostedOrRefused(admin: Text, labels: seq<Label>, u: Id)
    requires admin != [] && IsRun(Init(admin), labels)
    ensures var s := Exec(Init(admin), labels);
      ChatChecks(labels, u)
      == |Answered(s, u, Room)| + ChatsIn(PostsOver(Init(admin), labels, u)) + ChatsIn(InPost(s, u))
  {
    PostedOrRefusedFrom(Init(admin), labels, u);
  }

  /** Refused exactly if ten messages are queued at that moment; otherwise it waits, as it was asked. */
  lemma RefusedWhenFull(s: State, u: Id, text: Text)
    requires Shape(s) && Flow(s) && Enabled(s, Session(u, ChatCheck(text)))
    ensures var t := Apply(s, Session(u, ChatCheck(text)));
      if |s.queue| == 10 then Answered(t, u, Room) == Answered(s, u, Room) + [Notice(QueueFull)] && InPost(t, u) == []
      else Answered(t, u, Room) == Answered(s, u, Room)
           && InPost(t, u) == [Packet(ChatText(Shown(s, u), CStr(text)), None)]
  {
    AnsweredStep(s, Session(u, ChatCheck(text)), u, Room);
    PostStep(s, Session(u, ChatCheck(text)), u);
  }

  // ---------------------------------------------------------------- the gate

  /** With what a pause or resume command is refused: by the name of the user, and by whether the chat is paused. */
  function GateRefusal(pause: bool, isAdmin: bool, paused: bool): seq<Frame> {
    if !isAdmin then [Notice(NotAdmin)]
    else if pause && paused then [Notice(AlreadyPaused)]
    else if !pause && !paused then [Notice(NotPaused)]
    else []
  }

  lemma GateDue(s: State, u: Id, command: Command)
    requires command.Pause? || command.Resume?
    ensures Due(s, Session(u, Run(command)), u, Commands)
         == GateRefusal(command.Pause?, Name(s, u) == s.admin, s.paused)
  {
  }

  /** Where a session stands after such a command: in the gate if it was not refused. */
  predicate AfterGateCommand(phase: Phase, pause: bool, refused: seq<Frame>) {
    if refused != [] then phase.Reading? else if pause then phase.PauseWaiting? else phase.ResumeTelling?
  }

  lemma GatePhase(s: State, u: Id, command: Command)
    requires (command.Pause? || command.Resume?) && u in s.sess && StepEnabled(s, u, Run(command))
    ensures AfterGateCommand(PhaseAfter(s, u, Run(command)), command.Pause?,
                             GateRefusal(command.Pause?, Name(s, u) == s.admin, s.paused))
  {
  }

  lemma GateEntered(s: State, u: Id, command: Command)
    requires (command.Pause? || command.Resume?) && Enabled(s, Session(u, Run(command)))
    ensures var t := Apply(s, Session(u, Run(command)));
      u in t.sess && AfterGateCommand(t.sess[u].phase, command.Pause?,
                                      GateRefusal(command.Pause?, Name(s, u) == s.admin, s.paused))
  {
    PhaseFields(s, Session(u, Run(command)), u);
    GatePhase(s, u, command);
  }

  /** A pause or resume command is refused, or its session enters the gate; one of the two. */
  lemma GateOrRefusal(s: State, u: Id, command: Command, refused: seq<Frame>)
    requires Shape(s) && Flow(s) && (command.Pause? || command.Resume?) && Enabled(s, Session(u, Run(command)))
    requires refused == GateRefusal(command.Pause?, Name(s, u) == s.admin, s.paused)
    ensures var t := Apply(s, Session(u, Run(command)));
      && Answered(t, u, Commands) == Answered(s, u, Commands) + refused
      && u in t.sess && AfterGateCommand(t.sess[u].phase, command.Pause?, refused)
  {
    GateDue(s, u, command);
    AnsweredStep(s, Session(u, Run(command)), u, Commands);
    GateEntered(s, u, command);
  }
}
