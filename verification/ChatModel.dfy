/**
 The chat server as a labelled transition system: any number of client sessions
 (src/clientthread.c), the broadcast agent (src/network/broadcastagent.c), the bounded
 queue between them and the semaphore that pause and resume share with the agent.

 One step is one critical section or one operation on shared state, so a login, a
 command or a session end is several steps that other threads may interleave with.
 Walks over the user list made by sessions are one step each: they hold the user lock,
 and the logouts that take no lock can be moved before or after them (`ChatWalk`). The
 agent's walk is one step per user.

 The state also carries history that the server itself does not keep: everything
 accepted and delivered, everything sent to each user, and who took which command.
 */
module ChatModel {
  import opened CText

  /** A session, its thread and its user record; records are never reused. */
  type Id = nat

  const QUEUE_CAPACITY: nat := 10
  const MAX_NAME: nat := 30
  const COMMAND_COUNT: nat := 5

  /** The `name` array of a user record. */
  type NameBuffer = b: Text | |b| == NAME_ARRAY witness Zeros(NAME_ARRAY)

  /** The name bytes of a login request; they may hold a NUL. */
  type RawName = r: Text | 1 <= |r| <= MAX_NAME witness [65]

  datatype LoginCode = Success | NameTaken | NameInvalid
  datatype Reason = Kicked | CommunicationError
  datatype NoticeKind =
    | QueueFull | NotAdmin | NoSuchUser | AlreadyPaused | NotPaused
    | ServerPaused | ServerResumed | CommandHelp | BadCommand

  datatype Frame =
    | LoginReply(code: LoginCode)
    | ChatText(sender: Text, text: Text)
    | Notice(kind: NoticeKind)
    | UserAdded(name: Text)
    | UserRemoved(name: Text, reason: Reason)

  /** How a frame came to be sent: as the accepted message of that index, or by a session itself. */
  datatype Via = Broadcast(index: nat) | Direct(actor: Id)

  datatype Sent = Sent(frame: Frame, via: Via)

  /** A queue entry; the agent does not send it to the `ignore` user. */
  datatype Packet = Packet(frame: Frame, ignore: Option<Id>)

  /** Where a session's thread stands between two of its steps. */
  datatype Phase =
    | Reading
    | NameChecked(raw: RawName)
    | Announcing
    | Posting(packet: Packet, join: bool)
    | Introducing
    | PauseWaiting | PauseSetting | PauseTelling
    | ResumeTelling | ResumePosting | ResumeClearing
    | LoggedOut
    | Notified
    | Gone

  datatype Record = Record(
    phase: Phase,
    buf: NameBuffer,
    nameLength: nat,
    loggedIn: bool,
    shutdown: bool,
    log: seq<Sent>,    // history: every frame sent to this user
    joinedAt: nat,     // history: messages fully delivered before the first login
    leftAt: nat,       // history: messages the agent had passed this user with at logout
    told: set<Id>)     // history: who was sent this session's departure notice

  const NewSession: Record :=
    Record(Reading, Zeros(NAME_ARRAY), 0, false, false, [], 0, 0, {})

  datatype Agent =
    | Idle
    | Holding(packet: Packet)
    | Acquired(packet: Packet)
    | Walking(packet: Packet, next: nat)
    | Walked

  datatype MarkKind = PauseMark | ResumeMark
  datatype Mark = Mark(kind: MarkKind, actor: Id)
  datatype Kick = Kick(target: Id, actor: Id)

  datatype State = State(
    admin: Text,
    list: seq<Id>,
    sess: map<Id, Record>,
    queue: seq<Packet>,
    agent: Agent,
    sem: nat,
    paused: bool,
    accepted: seq<Packet>,        // history
    delivered: seq<Packet>,       // history
    marks: seq<Mark>,             // history: semaphore effects of pause and resume
    kicks: seq<Kick>,             // history
    logins: set<(Id, Text)>)      // history: accepted logins

  datatype Command = KickUser(name: Text) | Pause | Resume | Help | Unknown

  /** The steps of one session's thread. */
  datatype Step =
    | RefuseLogin(raw: RawName)
    | CheckName(raw: RawName)
    | Login
    | AnnounceCheck
    | ChatCheck(text: Text)
    | Post
    | Introduce
    | Malformed
    | Run(command: Command)
    | PauseAcquire | PauseSet | PauseTell
    | ResumeTell | ResumePost | ResumeClear
    | Logout
    | Notify
    | Remove

  datatype AgentStep = Receive | Acquire | Lock | Visit | Unlock | Release

  datatype Label =
    | Connect(id: Id)
    | Session(id: Id, step: Step)
    | Agent(agent: AgentStep)

  // ---------------------------------------------------------------- reading the state

  predicate LoggedIn(s: State, u: Id) {
    u in s.sess && s.sess[u].loggedIn
  }

  /** The name a session is stored under: what the name check, the admin check and the kick walk compare. */
  function Name(s: State, u: Id): Text {
    if u in s.sess then CStr(s.sess[u].buf) else []
  }

  /** What frames say of it: the builders copy as many bytes of the array as the last login was long. */
  function ShownOf(x: Record): Text { Seen(x.buf, x.nameLength) }

  function Shown(s: State, u: Id): Text {
    if u in s.sess then ShownOf(s.sess[u]) else []
  }

  /** Only the agent keeps the user lock from one step to the next. */
  predicate LockFree(s: State) { !s.agent.Walking? }

  function Online(s: State): set<Id> {
    set u | u in s.list && LoggedIn(s, u)
  }

  /** `is_name_free`: no logged-in user of the list has this name. */
  predicate NameFree(s: State, name: Text) {
    forall u :: u in s.list && LoggedIn(s, u) ==> Name(s, u) != name
  }

  /** `f_Name_has_forbidden_char`: control characters, blanks, quotes, DEL and above. */
  predicate BadByte(b: Byte) {
    b < 33 || b == 34 || b == 39 || b == 96 || b >= 127
  }

  predicate Forbidden(name: Text) {
    exists i :: 0 <= i < |name| && BadByte(name[i])
  }

  /** The bytes a name may hold: the printable ones but for the blank and the three kinds of quotes. */
  predicate NameByte(b: Byte) {
    b == 33 || 35 <= b <= 38 || 40 <= b <= 95 || 97 <= b <= 126
  }

  lemma NameBytes(name: Text)
    ensures Forbidden(name) <==> exists b :: b in name && !NameByte(b)
  {
    if Forbidden(name) {
      var i :| 0 <= i < |name| && BadByte(name[i]);
      assert name[i] in name && !NameByte(name[i]);
    }
    if b :| b in name && !NameByte(b) {
      var i :| 0 <= i < |name| && name[i] == b;
      assert BadByte(name[i]);
    }
  }

  predicate IsAdmin(s: State, id: Id) { Name(s, id) == s.admin }

  /** The first logged-in user of that name, as the kick walk finds it. */
  function KickTarget(s: State, ids: seq<Id>, name: Text): Option<Id> {
    if ids == [] then None
    else if LoggedIn(s, ids[0]) && Name(s, ids[0]) == name then Some(ids[0])
    else KickTarget(s, ids[1..], name)
  }

  function InHand(agent: Agent): seq<Packet> {
    match agent
    case Holding(p) => [p]
    case Acquired(p) => [p]
    case Walking(p, _) => [p]
    case _ => []
  }

  /** The agent's walk has passed this user. */
  predicate Passed(s: State, u: Id) {
    s.agent.Walking? && u in s.list[..Min(s.agent.next, |s.list|)]
  }

  /** How many accepted messages the agent has passed this user with. */
  function Visited(s: State, u: Id): nat {
    |s.delivered| + if Passed(s, u) then 1 else 0
  }

  // ---------------------------------------------------------------- when a step can happen

  predicate StepEnabled(s: State, id: Id, step: Step)
    requires id in s.sess
  {
    var phase := s.sess[id].phase;
    match step
    case RefuseLogin(raw) => phase.Reading? && LockFree(s) && (!NameFree(s, CStr(raw)) || Forbidden(CStr(raw)))
    case CheckName(raw) => phase.Reading? && LockFree(s) && NameFree(s, CStr(raw)) && !Forbidden(CStr(raw))
    case Login => phase.NameChecked? && LockFree(s)
    case AnnounceCheck => phase.Announcing?
    case ChatCheck(_) => phase.Reading?
    case Post => phase.Posting? && |s.queue| < QUEUE_CAPACITY
    case Introduce => phase.Introducing? && LockFree(s)
    case Malformed => phase.Reading?
    case Run(command) => phase.Reading? && (command.KickUser? ==> LockFree(s))
    case PauseAcquire => phase.PauseWaiting? && s.sem > 0
    case PauseSet => phase.PauseSetting?
    case PauseTell => phase.PauseTelling? && LockFree(s)
    case ResumeTell => phase.ResumeTelling? && LockFree(s)
    case ResumePost => phase.ResumePosting?
    case ResumeClear => phase.ResumeClearing?
    case Logout => phase.Reading?
    case Notify => phase.LoggedOut? && LockFree(s)
    case Remove => phase.Notified? && LockFree(s)
  }

  /** `mq_receive` and `sem_wait` block; the walk goes on to the end of the list. */
  predicate AgentEnabled(s: State, step: AgentStep) {
    match step
    case Receive => s.agent.Idle? && s.queue != []
    case Acquire => s.agent.Holding? && s.sem > 0
    case Lock => s.agent.Acquired?
    case Visit => s.agent.Walking? && s.agent.next < |s.list|
    case Unlock => s.agent.Walking? && s.agent.next >= |s.list|
    case Release => s.agent.Walked?
  }

  predicate Enabled(s: State, l: Label) {
    match l
    case Connect(id) => id !in s.sess && LockFree(s)
    case Session(id, step) => id in s.sess && StepEnabled(s, id, step)
    case Agent(step) => AgentEnabled(s, step)
  }

  // ---------------------------------------------------------------- what a step sends

  /** The frames that introduce the logged-in users of `ids` to a new user. */
  function IntroFrames(s: State, ids: seq<Id>, self: Id): seq<Sent> {
    if ids == [] then []
    else
      (if ids[0] != self && LoggedIn(s, ids[0]) then [Sent(UserAdded(Shown(s, ids[0])), Direct(self))] else [])
      + IntroFrames(s, ids[1..], self)
  }

  /** A bad character overrides a taken name. */
  function RefusalCode(name: Text): LoginCode {
    if Forbidden(name) then NameInvalid else NameTaken
  }

  /** The notices with which a command is answered at once. */
  function Answers(s: State, id: Id, command: Command): seq<NoticeKind> {
    if !IsAdmin(s, id) then [NotAdmin]
    else
      match command
      case KickUser(name) => if KickTarget(s, s.list, name).None? then [NoSuchUser] else []
      case Pause => if s.paused then [AlreadyPaused] else []
      case Resume => if s.paused then [] else [NotPaused]
      case Help => seq(COMMAND_COUNT, _ => CommandHelp)
      case Unknown => [BadCommand]
  }

  /** The frames a session's step sends to its own client. */
  function Replies(s: State, id: Id, step: Step): seq<Sent>
    requires id in s.sess
  {
    match step
    case RefuseLogin(raw) => [Sent(LoginReply(RefusalCode(CStr(raw))), Direct(id))]
    case CheckName(_) => [Sent(LoginReply(Success), Direct(id))]
    case ChatCheck(_) => if |s.queue| < QUEUE_CAPACITY then [] else [Sent(Notice(QueueFull), Direct(id))]
    case Introduce => IntroFrames(s, s.list, id)
    case Run(command) =>
      var kinds := Answers(s, id, command);
      seq(|kinds|, i requires 0 <= i < |kinds| => Sent(Notice(kinds[i]), Direct(id)))
    case _ => []
  }

  /** The frame a session's step sends to everyone online: pause, resume and departure notices. */
  function Announcement(s: State, id: Id, step: Step): Option<Frame>
    requires id in s.sess
  {
    match step
    case PauseTell => Some(Notice(ServerPaused))
    case ResumeTell => Some(Notice(ServerResumed))
    case Notify =>
      if s.sess[id].nameLength == 0 then None
      else Some(UserRemoved(Shown(s, id), if s.sess[id].shutdown then Kicked else CommunicationError))
    case _ => None
  }

  /** Everything a step sends to user `u`. */
  function Outgoing(s: State, l: Label, u: Id): seq<Sent> {
    match l
    case Connect(_) => []
    case Session(id, step) =>
      if id !in s.sess then []
      else
        var frame := Announcement(s, id, step);
        if frame.Some? then
          (if u in Online(s) && (step.Notify? ==> u != id) then [Sent(frame.value, Direct(id))] else [])
        else if u == id then Replies(s, id, step) else []
    case Agent(step) =>
      if step.Visit? && AgentEnabled(s, step) && u == s.list[s.agent.next]
         && s.agent.packet.ignore != Some(u) && LoggedIn(s, u)
      then [Sent(s.agent.packet.frame, Broadcast(|s.delivered|))]
      else []
  }

  // ---------------------------------------------------------------- what a step changes

  /** Where a session stands after its step. */
  function PhaseAfter(s: State, id: Id, step: Step): Phase
    requires id in s.sess && StepEnabled(s, id, step)
  {
    var phase := s.sess[id].phase;
    match step
    case CheckName(raw) => NameChecked(raw)
    case Login => Announcing
    case AnnounceCheck =>
      if |s.queue| < QUEUE_CAPACITY then Posting(Packet(UserAdded(Shown(s, id)), None), true) else Introducing
    case ChatCheck(text) =>
      if |s.queue| < QUEUE_CAPACITY then Posting(Packet(ChatText(Shown(s, id), CStr(text)), None), false) else Reading
    case Post => if phase.join then Introducing else Reading
    case Run(command) =>
      if IsAdmin(s, id) && command.Pause? && !s.paused then PauseWaiting
      else if IsAdmin(s, id) && command.Resume? && s.paused then ResumeTelling
      else Reading
    case PauseAcquire => PauseSetting
    case PauseSet => PauseTelling
    case ResumeTell => ResumePosting
    case ResumePost => ResumeClearing
    case Logout => LoggedOut
    case Notify => Notified
    case Remove => Gone
    case _ => Reading
  }

  /** The acting session's record after its step, but for what it was sent. */
  function RecordAfter(s: State, id: Id, step: Step): Record
    requires id in s.sess && StepEnabled(s, id, step)
  {
    var x := s.sess[id].(phase := PhaseAfter(s, id, step));
    match step
    case Login =>
      var raw := s.sess[id].phase.raw;
      x.(buf := StrNCpy(x.buf, raw, |raw|), nameLength := |raw|, loggedIn := true,
         joinedAt := if x.loggedIn then x.joinedAt else |s.delivered|)
    case Malformed => x.(shutdown := true)
    case Logout => x.(loggedIn := false, leftAt := if x.loggedIn then Visited(s, id) else x.leftAt)
    case Notify => x.(told := if x.nameLength == 0 then x.told else Online(s) - {id})
    case _ => x
  }

  /** The user a step kicks, if any. */
  function Kicks(s: State, l: Label): Option<Id> {
    if l.Session? && l.step.Run? && l.step.command.KickUser? && IsAdmin(s, l.id)
    then KickTarget(s, s.list, l.step.command.name) else None
  }

  function SessionAfter(s: State, l: Label, u: Id): Record
    requires Enabled(s, l) && u in s.sess
  {
    var x := if l.Session? && l.id == u then RecordAfter(s, u, l.step) else s.sess[u];
    x.(log := x.log + Outgoing(s, l, u), shutdown := x.shutdown || Kicks(s, l) == Some(u))
  }

  function Without(ids: seq<Id>, id: Id): seq<Id> {
    if ids == [] then [] else (if ids[0] == id then [] else [ids[0]]) + Without(ids[1..], id)
  }

  function ListAfter(s: State, l: Label): seq<Id> {
    match l
    case Connect(id) => s.list + [id]
    case Session(id, Remove) => Without(s.list, id)
    case _ => s.list
  }

  function SessionsAfter(s: State, l: Label): map<Id, Record>
    requires Enabled(s, l)
  {
    var sess := map u | u in s.sess :: SessionAfter(s, l, u);
    if l.Connect? then sess[l.id := NewSession] else sess
  }

  /** The message a step puts on the queue. */
  function Enqueued(s: State, l: Label): seq<Packet>
    requires Enabled(s, l)
  {
    if l.Session? && l.step.Post? then [s.sess[l.id].phase.packet] else []
  }

  function AgentAfter(s: State, l: Label): Agent
    requires Enabled(s, l)
  {
    match l
    case Agent(Receive) => Holding(s.queue[0])
    case Agent(Acquire) => Acquired(s.agent.packet)
    case Agent(Lock) => Walking(s.agent.packet, 0)
    case Agent(Visit) => Walking(s.agent.packet, s.agent.next + 1)
    case Agent(Unlock) => Walked
    case Agent(Release) => Idle
    case _ => s.agent
  }

  function SemAfter(s: State, l: Label): nat
    requires Enabled(s, l)
  {
    match l
    case Session(_, PauseAcquire) => s.sem - 1
    case Session(_, ResumePost) => s.sem + 1
    case Agent(Acquire) => s.sem - 1
    case Agent(Release) => s.sem + 1
    case _ => s.sem
  }

  /** The flag is set after pause took the semaphore and cleared after resume posted it. */
  function PausedAfter(s: State, l: Label): bool {
    match l
    case Session(_, PauseSet) => true
    case Session(_, ResumeClear) => false
    case _ => s.paused
  }

  function MarksAfter(s: State, l: Label): seq<Mark> {
    match l
    case Session(id, PauseAcquire) => s.marks + [Mark(PauseMark, id)]
    case Session(id, ResumePost) => s.marks + [Mark(ResumeMark, id)]
    case _ => s.marks
  }

  function Apply(s: State, l: Label): State
    requires Enabled(s, l)
  {
    State(
      s.admin,
      ListAfter(s, l),
      SessionsAfter(s, l),
      (if l == Agent(Receive) then s.queue[1..] else s.queue) + Enqueued(s, l),
      AgentAfter(s, l),
      SemAfter(s, l),
      PausedAfter(s, l),
      s.accepted + Enqueued(s, l),
      if l == Agent(Unlock) then s.delivered + [s.agent.packet] else s.delivered,
      MarksAfter(s, l),
      if Kicks(s, l).Some? then s.kicks + [Kick(Kicks(s, l).value, l.id)] else s.kicks,
      if l.Session? && l.step.Login? then s.logins + {(l.id, CStr(s.sess[l.id].phase.raw))} else s.logins)
  }

  // ---------------------------------------------------------------- runs

  /** After `sem_init` and `mq_open`: nobody connected, nothing queued. */
  function Init(admin: Text): State {
    State(admin, [], map[], [], Idle, 1, false, [], [], [], [], {})
  }

  predicate IsRun(s: State, labels: seq<Label>)
    decreases |labels|
  {
    labels == [] || (Enabled(s, labels[0]) && IsRun(Apply(s, labels[0]), labels[1..]))
  }

  function Exec(s: State, labels: seq<Label>): State
    requires IsRun(s, labels)
    decreases |labels|
  {
    if labels == [] then s else Exec(Apply(s, labels[0]), labels[1..])
  }

  /** Runs compose. */
  lemma {:induction false} RunConcat(s: State, first: seq<Label>, second: seq<Label>)
    requires IsRun(s, first) && IsRun(Exec(s, first), second)
    ensures IsRun(s, first + second)
    ensures Exec(s, first + second) == Exec(Exec(s, first), second)
    decreases |first|
  {
    if first == [] {
      assert first + second == second;
    } else {
      var all := first + second;
      assert all[0] == first[0] && all[1..] == first[1..] + second;
      RunConcat(Apply(s, first[0]), first[1..], second);
    }
  }

  lemma RunOfOne(s: State, l: Label)
    requires Enabled(s, l)
    ensures IsRun(s, [l]) && Exec(s, [l]) == Apply(s, l)
  {
    var labels := [l];
    assert labels[0] == l && labels[1..] == [];
    assert IsRun(Apply(s, l), []) && Exec(Apply(s, l), []) == Apply(s, l);
  }

  lemma RunThen(s: State, l: Label, labels: seq<Label>)
    requires Enabled(s, l) && IsRun(Apply(s, l), labels)
    ensures IsRun(s, [l] + labels) && Exec(s, [l] + labels) == Exec(Apply(s, l), labels)
  {
    var all := [l] + labels;
    assert all[0] == l && all[1..] == labels;
  }

  lemma RunOfTwo(s: State, l1: Label, l2: Label)
    requires Enabled(s, l1) && Enabled(Apply(s, l1), l2)
    ensures IsRun(s, [l1, l2]) && Exec(s, [l1, l2]) == Apply(Apply(s, l1), l2)
  {
    RunOfOne(Apply(s, l1), l2);
    RunThen(s, l1, [l2]);
    assert [l1] + [l2] == [l1, l2];
  }

  lemma RunOfThree(s: State, l1: Label, l2: Label, l3: Label)
    requires Enabled(s, l1) && Enabled(Apply(s, l1), l2) && Enabled(Apply(Apply(s, l1), l2), l3)
    ensures IsRun(s, [l1, l2, l3]) && Exec(s, [l1, l2, l3]) == Apply(Apply(Apply(s, l1), l2), l3)
  {
    RunOfTwo(Apply(s, l1), l2, l3);
    RunThen(s, l1, [l2, l3]);
    assert [l1] + [l2, l3] == [l1, l2, l3];
  }

  /** A run can be followed by one more step. */
  lemma RunSnoc(s: State, labels: seq<Label>, l: Label)
    requires IsRun(s, labels) && Enabled(Exec(s, labels), l)
    ensures IsRun(s, labels + [l]) && Exec(s, labels + [l]) == Apply(Exec(s, labels), l)
  {
    RunOfOne(Exec(s, labels), l);
    RunConcat(s, labels, [l]);
  }

  /** A run is a shorter run and one more step. */
  lemma {:induction false} RunFront(s: State, labels: seq<Label>)
    requires IsRun(s, labels) && labels != []
    ensures IsRun(s, labels[..|labels| - 1])
    ensures Enabled(Exec(s, labels[..|labels| - 1]), labels[|labels| - 1])
    ensures Exec(s, labels) == Apply(Exec(s, labels[..|labels| - 1]), labels[|labels| - 1])
    decreases |labels|
  {
    if |labels| > 1 {
      RunFront(Apply(s, labels[0]), labels[1..]);
      assert labels[1..][..|labels| - 2] == labels[..|labels| - 1][1..];
    }
  }
}
