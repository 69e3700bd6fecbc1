/**
 The server's data as the code keeps it: user records in the doubly linked list on the heap,
 the queue, the semaphore, the flag, and what has gone out on each socket. Its functions are
 methods that follow `next` pointers and write into name arrays, and each is proved to be
 its step, or its run, of the transition system: `state` is the abstract state, and `Valid`
 says that the data shows it.
 */
module ChatServer {
  import opened CText
  import opened ChatModel
  import opened ChatFlow
  import opened ChatDrain
  import opened Lists
  import Users = UserRegistry
  import Wire

  // ---------------------------------------------------------------- steps of the abstract state

  /** The fields of a record that live in the `User` structure. */
  predicate SameCore(x: Record, y: Record) {
    y.buf == x.buf && y.nameLength == x.nameLength && y.loggedIn == x.loggedIn && y.shutdown == x.shutdown
  }

  /** A step that is no login, logout or kick of `u`, and no malformed message of its own. */
  predicate Spares(s: State, l: Label, u: Id) {
    Kicks(s, l) != Some(u)
    && !(l.Session? && l.id == u && (l.step.Login? || l.step.Logout? || l.step.Malformed?))
  }

  lemma SparedCore(s: State, l: Label, u: Id)
    requires Enabled(s, l) && u in s.sess && Spares(s, l, u)
    ensures SameCore(s.sess[u], SessionAfter(s, l, u))
  {
  }

  /** Steps that touch neither the queue nor the semaphore nor the flag. */
  predicate Talk(step: Step) {
    !step.Post? && !step.PauseAcquire? && !step.ResumePost? && !step.PauseSet? && !step.ResumeClear?
  }

  lemma TalkRest(s: State, id: Id, step: Step)
    requires Enabled(s, Session(id, step)) && Talk(step)
    ensures var t := Apply(s, Session(id, step)); t.queue == s.queue && t.sem == s.sem && t.paused == s.paused
  {
    assert s.queue + [] == s.queue;
  }

  lemma LogAfter(s: State, l: Label, u: Id)
    requires Enabled(s, l) && u in s.sess
    ensures u in Apply(s, l).sess && Apply(s, l).sess[u].log == s.sess[u].log + Outgoing(s, l, u)
  {
  }

  lemma ReplyOnly(s: State, id: Id, step: Step, u: Id)
    requires Enabled(s, Session(id, step)) && Announcement(s, id, step).None?
    ensures Outgoing(s, Session(id, step), u) == if u == id then Replies(s, id, step) else []
  {
  }

  lemma AllKept(ids: seq<Id>, id: Id)
    requires id !in ids
    ensures Without(ids, id) == ids
  {
  }

  lemma {:induction false} WithoutAt(ids: seq<Id>, k: nat)
    requires Distinct(ids) && k < |ids|
    ensures Without(ids, ids[k]) == RemoveAt(ids, k)
  {
    var rest := ids[1..];
    if k == 0 {
      AllKept(rest, ids[0]);
      assert RemoveAt(ids, 0) == [] + rest == rest;
    } else {
      WithoutAt(rest, k - 1);
      assert rest[k - 1] == ids[k] != ids[0];
      assert RemoveAt(ids, k) == [ids[0]] + RemoveAt(rest, k - 1);
    }
  }

  // ---------------------------------------------------------------- what walks do

  /** The list as a walk reads it. */
  function RollOf(s: State): seq<Users.Entry> {
    seq(|s.list|, i requires 0 <= i < |s.list| =>
      Users.Entry(s.list[i], Name(s, s.list[i]), Shown(s, s.list[i]), LoggedIn(s, s.list[i])))
  }

  lemma FreeOnRoll(s: State, name: Text)
    ensures NameFree(s, name) <==> forall e :: e in RollOf(s) ==> !Users.Goes(e, name)
  {
    var roll := RollOf(s);
    forall u | u in s.list && LoggedIn(s, u) && Name(s, u) == name
      ensures exists e :: e in roll && Users.Goes(e, name)
    {
      var i :| 0 <= i < |s.list| && s.list[i] == u;
      assert roll[i] in roll && Users.Goes(roll[i], name);
    }
  }

  lemma {:induction false} TargetOnRoll(s: State, ids: seq<Id>, name: Text, k: nat)
    requires k <= |ids| && forall i :: 0 <= i < k ==> !(LoggedIn(s, ids[i]) && Name(s, ids[i]) == name)
    requires k < |ids| ==> LoggedIn(s, ids[k]) && Name(s, ids[k]) == name
    ensures KickTarget(s, ids, name) == if k < |ids| then Some(ids[k]) else None
    decreases |ids|
  {
    if ids != [] && k > 0 { TargetOnRoll(s, ids[1..], name, k - 1); }
  }

  /** What is out on the sockets after a walk that sends a frame to everyone online but one. */
  function SentAlong(wire: map<Id, seq<Sent>>, roll: seq<Users.Entry>, except: Option<Id>, frame: Sent)
    : map<Id, seq<Sent>>
  {
    if roll == [] then wire
    else
      var out := SentAlong(wire, roll[..|roll| - 1], except, frame);
      var e := roll[|roll| - 1];
      if e.online && except != Some(e.sock) && e.sock in out then out[e.sock := out[e.sock] + [frame]] else out
  }

  lemma {:induction false} SentAlongKeys(wire: map<Id, seq<Sent>>, roll: seq<Users.Entry>, except: Option<Id>,
        frame: Sent)
    ensures SentAlong(wire, roll, except, frame).Keys == wire.Keys
  {
    if roll != [] { SentAlongKeys(wire, roll[..|roll| - 1], except, frame); }
  }

  lemma SentAlongNext(wire: map<Id, seq<Sent>>, roll: seq<Users.Entry>, k: nat, except: Option<Id>, frame: Sent)
    requires k < |roll| && roll[k].sock in wire
    ensures var out := SentAlong(wire, roll[..k], except, frame);
      && roll[k].sock in out
      && SentAlong(wire, roll[..k + 1], except, frame)
         == if roll[k].online && except != Some(roll[k].sock)
            then out[roll[k].sock := out[roll[k].sock] + [frame]] else out
  {
    SentAlongKeys(wire, roll[..k], except, frame);
    assert roll[..k + 1][..k] == roll[..k];
  }

  lemma {:induction false} SentAlongOne(wire: map<Id, seq<Sent>>, s: State, n: nat, except: Option<Id>,
        frame: Sent, u: Id)
    requires n <= |s.list| && Distinct(s.list) && u in wire
    ensures SentAlong(wire, RollOf(s)[..n], except, frame).Keys == wire.Keys
    ensures SentAlong(wire, RollOf(s)[..n], except, frame)[u]
         == if u in s.list[..n] && LoggedIn(s, u) && except != Some(u) then wire[u] + [frame] else wire[u]
  {
    if n > 0 {
      SentAlongOne(wire, s, n - 1, except, frame, u);
      assert RollOf(s)[..n][..n - 1] == RollOf(s)[..n - 1];
      assert s.list[..n] == s.list[..n - 1] + [s.list[n - 1]] && s.list[n - 1] !in s.list[..n - 1];
    }
  }

  /** The frames a walk sends to introduce the others to a new user. */
  function Introductions(roll: seq<Users.Entry>, self: Id): seq<Sent> {
    if roll == [] then []
    else
      var e := roll[|roll| - 1];
      Introductions(roll[..|roll| - 1], self)
      + if e.sock != self && e.online then [Sent(UserAdded(e.shown), Direct(self))] else []
  }

  lemma IntroductionsNext(roll: seq<Users.Entry>, k: nat, self: Id)
    requires k < |roll|
    ensures Introductions(roll[..k + 1], self) == Introductions(roll[..k], self)
      + if roll[k].sock != self && roll[k].online then [Sent(UserAdded(roll[k].shown), Direct(self))] else []
  {
    assert roll[..k + 1][..k] == roll[..k];
  }

  lemma {:induction false} IntroductionsAre(s: State, n: nat, self: Id)
    requires n <= |s.list|
    ensures Introductions(RollOf(s)[..n], self) == IntroFrames(s, s.list[..n], self)
  {
    if n > 0 {
      IntroductionsAre(s, n - 1, self);
      assert RollOf(s)[..n][..n - 1] == RollOf(s)[..n - 1];
      assert s.list[..n] == s.list[..n - 1] + [s.list[n - 1]];
      IntroSnoc(s, s.list[..n - 1], s.list[n - 1], self);
    }
  }

  // ---------------------------------------------------------------- names

  /** `f_Name_has_forbidden_char`, on bytes read as signed characters. */
  method HasForbiddenChar(name: Text) returns (found: bool)
    ensures found == Forbidden(name)
    ensures found <==> exists b :: b in name && !NameByte(b)
  {
    NameBytes(name);
    found := false;
    for x := 0 to |name|
      invariant !found && forall j :: 0 <= j < x ==> !BadByte(name[j])
    {
      var b := name[x];
      var negative := b >= 128;
      if negative || b < 33 || b == 34 || b == 39 || b == 96 || b >= 127 {
        found := true;
        return;
      }
    }
  }

  /** `nameBytesValidate`: the length of the valid prefix. */
  method NameBytesValidate(input: Text) returns (i: nat)
    ensures i <= |input| && forall j :: 0 <= j < i ==> NameByte(input[j])
    ensures i < |input| ==> !NameByte(input[i])
    ensures i == |input| <==> !Forbidden(input)
  {
    i := 0;
    while i < |input|
      invariant i <= |input| && forall j :: 0 <= j < i ==> NameByte(input[j])
    {
      if input[i] < 33 { return; }
      if input[i] == 34 || input[i] == 39 || input[i] == 96 { return; }
      if input[i] >= 127 { return; }
      i := i + 1;
    }
  }

  // ---------------------------------------------------------------- the server

  /** A heap record holds what the session's record says. */
  predicate Shows(n: Users.Node, x: Record)
    reads n`nameLength, n`loggedIn, n`shouldShutdown, n.name
  {
    && n.name.Length == NAME_ARRAY && n.name[..] == x.buf
    && n.nameLength == x.nameLength && n.loggedIn == x.loggedIn && n.shouldShutdown == x.shutdown
  }

  /** These heap records are those of `ids`, and their name arrays are not shared. */
  ghost predicate RecordsShow(nodes: seq<Users.Node>, ids: seq<Id>, s: State)
    reads nodes`nameLength, nodes`loggedIn, nodes`shouldShutdown, set n | n in nodes :: n.name
  {
    && |nodes| == |ids|
    && (forall i :: 0 <= i < |ids| ==> ids[i] in s.sess && nodes[i].sock == ids[i] && Shows(nodes[i], s.sess[ids[i]]))
    && (forall i, j :: 0 <= i < j < |nodes| ==> nodes[i].name != nodes[j].name)
  }

  lemma RecordsWithout(nodes: seq<Users.Node>, ids: seq<Id>, s: State, k: nat)
    requires RecordsShow(nodes, ids, s) && k < |ids|
    ensures RecordsShow(RemoveAt(nodes, k), RemoveAt(ids, k), s)
  {
    var left, rest := RemoveAt(nodes, k), RemoveAt(ids, k);
    forall i | 0 <= i < |rest|
      ensures rest[i] in s.sess && left[i].sock == rest[i] && Shows(left[i], s.sess[rest[i]])
    {
      var j := if i < k then i else i + 1;
      assert left[i] == nodes[j] && rest[i] == ids[j];
    }
  }

  lemma FirstIs(ids: seq<Id>, k: nat)
    requires Distinct(ids) && k < |ids|
    ensures Users.FirstAt(ids, ids[k]) == k
  {
    var f := Users.FirstAt(ids, ids[k]);
    assert ids[k] in ids;
  }

  /** What is out on the sockets is what the users were sent. */
  ghost predicate LogsAre(wire: map<Id, seq<Sent>>, s: State) {
    wire.Keys == s.sess.Keys && forall u :: u in s.sess ==> wire[u] == s.sess[u].log
  }

  /** What is out on the sockets once a step has sent everything it sends. */
  ghost predicate LogsBecome(wire: map<Id, seq<Sent>>, s: State, l: Label) {
    wire.Keys == s.sess.Keys && forall u :: u in s.sess ==> wire[u] == s.sess[u].log + Outgoing(s, l, u)
  }

  lemma LogsStep(wire: map<Id, seq<Sent>>, s: State, l: Label)
    requires Enabled(s, l) && !l.Connect? && LogsBecome(wire, s, l)
    ensures LogsAre(wire, Apply(s, l))
  {
    forall u | u in s.sess
      ensures u in Apply(s, l).sess && wire[u] == Apply(s, l).sess[u].log
    {
      LogAfter(s, l, u);
    }
  }

  /** A step with which a session only answers its own client. */
  lemma AnswerLogs(before: map<Id, seq<Sent>>, s: State, id: Id, step: Step, wire: map<Id, seq<Sent>>)
    requires Enabled(s, Session(id, step)) && Announcement(s, id, step).None? && LogsAre(before, s)
    requires wire == before[id := before[id] + Replies(s, id, step)]
    ensures LogsBecome(wire, s, Session(id, step))
  {
    forall u | u in s.sess
      ensures wire[u] == s.sess[u].log + Outgoing(s, Session(id, step), u)
    {
      ReplyOnly(s, id, step, u);
      assert s.sess[u].log + [] == s.sess[u].log;
    }
  }

  // ---------------------------------------------------------------- a turn of the agent as a run

  /** Nothing but the queue, the agent and what was sent has changed. */
  ghost predicate OnlySent(s: State, t: State) {
    && t.admin == s.admin && t.list == s.list && t.paused == s.paused && t.sess.Keys == s.sess.Keys
    && forall u :: u in s.sess ==> SameUser(s.sess[u], t.sess[u])
  }

  /** A step of the agent other than a visit sends nothing. */
  lemma AgentQuiet(s: State, step: AgentStep, wire: map<Id, seq<Sent>>)
    requires AgentEnabled(s, step) && !step.Visit? && LogsAre(wire, s)
    ensures var t := Apply(s, Agent(step)); OnlySent(s, t) && LogsAre(wire, t)
  {
    AgentStepFrame(s, step);
    forall u | u in s.sess
      ensures Apply(s, Agent(step)).sess[u].log == s.sess[u].log
    {
      LogAfter(s, Agent(step), u);
      assert s.sess[u].log + [] == s.sess[u].log;
    }
  }

  lemma AgentScalars(s: State, step: AgentStep)
    requires AgentEnabled(s, step)
    ensures var t := Apply(s, Agent(step));
      && t.queue == (if step.Receive? then s.queue[1..] else s.queue) && t.sem == SemAfter(s, Agent(step))
      && t.agent == AgentAfter(s, Agent(step))
      && t.delivered == if step.Unlock? then s.delivered + [s.agent.packet] else s.delivered
  {
    assert s.queue + [] == s.queue;
    if step.Receive? { assert s.queue[1..] + [] == s.queue[1..]; }
  }

  lemma SentTwice(s: State, t: State, v: State)
    requires OnlySent(s, t) && OnlySent(t, v)
    ensures OnlySent(s, v)
  {
    forall u | u in s.sess
      ensures SameUser(s.sess[u], v.sess[u])
    {
      assert u in t.sess.Keys && SameUser(s.sess[u], t.sess[u]) && SameUser(t.sess[u], v.sess[u]);
    }
  }

  /** One step of the agent that is no visit, at the end of a run. */
  lemma AgentMoves(s: State, labels: seq<Label>, t: State, step: AgentStep, wire: map<Id, seq<Sent>>)
    returns (labels': seq<Label>, t': State)
    requires IsRun(s, labels) && t == Exec(s, labels) && (forall l :: l in labels ==> l.Agent?)
    requires OnlySent(s, t) && LogsAre(wire, t) && AgentEnabled(t, step) && !step.Visit?
    ensures IsRun(s, labels') && t' == Exec(s, labels') && forall l :: l in labels' ==> l.Agent?
    ensures OnlySent(s, t') && LogsAre(wire, t')
    ensures t'.queue == (if step.Receive? then t.queue[1..] else t.queue) && t'.sem == SemAfter(t, Agent(step))
    ensures t'.agent == AgentAfter(t, Agent(step))
    ensures t'.delivered == if step.Unlock? then t.delivered + [t.agent.packet] else t.delivered
  {
    labels', t' := labels + [Agent(step)], Apply(t, Agent(step));
    RunSnoc(s, labels, Agent(step));
    AgentQuiet(t, step, wire);
    AgentScalars(t, step);
    SentTwice(s, t, t');
  }

  lemma BeginRound(s: State, wire: map<Id, seq<Sent>>) returns (labels: seq<Label>, t: State)
    requires s.agent.Idle? && s.queue != [] && s.sem > 0 && LogsAre(wire, s)
    ensures IsRun(s, labels) && t == Exec(s, labels) && forall l :: l in labels ==> l.Agent?
    ensures OnlySent(s, t) && LogsAre(wire, t)
    ensures t.agent == Walking(s.queue[0], 0) && t.queue == s.queue[1..] && t.sem == s.sem - 1
    ensures t.delivered == s.delivered
  {
    labels, t := AgentMoves(s, [], s, Receive, wire);
    labels, t := AgentMoves(s, labels, t, Acquire, wire);
    labels, t := AgentMoves(s, labels, t, Lock, wire);
  }

  /** The frame the agent sends on its walk, with its place in the delivered messages. */
  function InWalkFrame(s: State): Sent
    requires s.agent.Walking?
  {
    Sent(s.agent.packet.frame, Broadcast(|s.delivered|))
  }

  /** Between the lock and the unlock, all else stays too. */
  ghost predicate InWalk(s: State, t: State, k: nat) {
    && s.agent.Walking? && t.agent == Walking(s.agent.packet, k) && OnlySent(s, t)
    && t.queue == s.queue && t.sem == s.sem && t.delivered == s.delivered
  }

  lemma VisitSends(t: State, u: Id)
    requires AgentEnabled(t, Visit)
    ensures Outgoing(t, Agent(Visit), u) ==
      var target := t.list[t.agent.next];
      if u == target && t.agent.packet.ignore != Some(u) && LoggedIn(t, u) then [InWalkFrame(t)] else []
  {
  }

  lemma VisitLog(s: State, t: State, k: nat, wire: map<Id, seq<Sent>>, u: Id)
    requires InWalk(s, t, k) && k < |s.list| && s.list[k] in s.sess && u in s.sess && wire.Keys == s.sess.Keys
    requires AgentEnabled(t, Visit)
    requires LogsAre(SentAlong(wire, RollOf(s)[..k], s.agent.packet.ignore, InWalkFrame(s)), t)
    ensures u in SentAlong(wire, RollOf(s)[..k + 1], s.agent.packet.ignore, InWalkFrame(s))
    ensures SentAlong(wire, RollOf(s)[..k + 1], s.agent.packet.ignore, InWalkFrame(s))[u]
         == t.sess[u].log + Outgoing(t, Agent(Visit), u)
  {
    var frame := InWalkFrame(s);
    var out := SentAlong(wire, RollOf(s)[..k], s.agent.packet.ignore, frame);
    SentAlongKeys(wire, RollOf(s)[..k + 1], s.agent.packet.ignore, frame);
    SentAlongNext(wire, RollOf(s), k, s.agent.packet.ignore, frame);
    VisitSends(t, u);
    assert InWalkFrame(t) == frame && t.list[t.agent.next] == s.list[k];
    assert LoggedIn(t, s.list[k]) == LoggedIn(s, s.list[k]) by { assert SameUser(s.sess[s.list[k]], t.sess[s.list[k]]); }
    assert out[u] == t.sess[u].log && t.sess[u].log + [] == t.sess[u].log;
  }

  lemma QuietVisit(t: State)
    requires Enabled(t, Agent(Visit))
    ensures var v := Apply(t, Agent(Visit));
      && v.queue == t.queue && v.sem == t.sem && v.delivered == t.delivered && v.list == t.list
      && v.paused == t.paused && v.agent == Walking(t.agent.packet, t.agent.next + 1)
  {
    assert t.queue + [] == t.queue;
  }

  lemma VisitStays(s: State, t: State, k: nat)
    requires InWalk(s, t, k) && k < |s.list|
    ensures Enabled(t, Agent(Visit)) && InWalk(s, Apply(t, Agent(Visit)), k + 1)
  {
    AgentStepFrame(t, Visit);
    QuietVisit(t);
    SentTwice(s, t, Apply(t, Agent(Visit)));
  }

  lemma VisitStep(s: State, t: State, k: nat, wire: map<Id, seq<Sent>>)
    requires InWalk(s, t, k) && k < |s.list| && s.list[k] in s.sess && wire.Keys == s.sess.Keys
    requires LogsAre(SentAlong(wire, RollOf(s)[..k], s.agent.packet.ignore, InWalkFrame(s)), t)
    ensures Enabled(t, Agent(Visit)) && InWalk(s, Apply(t, Agent(Visit)), k + 1)
    ensures LogsAre(SentAlong(wire, RollOf(s)[..k + 1], s.agent.packet.ignore, InWalkFrame(s)), Apply(t, Agent(Visit)))
  {
    var l := Agent(Visit);
    ghost var out := SentAlong(wire, RollOf(s)[..k + 1], s.agent.packet.ignore, InWalkFrame(s));
    SentAlongKeys(wire, RollOf(s)[..k + 1], s.agent.packet.ignore, InWalkFrame(s));
    forall u | u in t.sess
      ensures out[u] == t.sess[u].log + Outgoing(t, l, u)
    {
      VisitLog(s, t, k, wire, u);
    }
    LogsStep(out, t, l);
    VisitStays(s, t, k);
  }

  lemma {:induction false} VisitRun(s: State, n: nat, wire: map<Id, seq<Sent>>) returns (labels: seq<Label>, t: State)
    requires s.agent.Walking? && s.agent.next == 0 && n <= |s.list| && forall u :: u in s.list ==> u in s.sess
    requires LogsAre(wire, s)
    ensures IsRun(s, labels) && t == Exec(s, labels) && forall l :: l in labels ==> l.Agent?
    ensures InWalk(s, t, n)
    ensures LogsAre(SentAlong(wire, RollOf(s)[..n], s.agent.packet.ignore, InWalkFrame(s)), t)
  {
    if n == 0 {
      labels, t := [], s;
    } else {
      labels, t := VisitRun(s, n - 1, wire);
      assert s.list[n - 1] in s.list;
      VisitStep(s, t, n - 1, wire);
      RunSnoc(s, labels, Agent(Visit));
      labels, t := labels + [Agent(Visit)], Apply(t, Agent(Visit));
    }
  }

  /** The list reads the same when only something was sent. */
  lemma SameRoll(s: State, t: State)
    requires OnlySent(s, t) && forall u :: u in s.list ==> u in s.sess
    ensures RollOf(t) == RollOf(s)
  {
    forall i | 0 <= i < |s.list|
      ensures RollOf(t)[i] == RollOf(s)[i]
    {
      assert s.list[i] in s.list && SameUser(s.sess[s.list[i]], t.sess[s.list[i]]);
    }
  }

  lemma WalkRound(s: State, labels: seq<Label>, t: State, wire: map<Id, seq<Sent>>)
    returns (labels': seq<Label>, t': State)
    requires IsRun(s, labels) && t == Exec(s, labels) && (forall l :: l in labels ==> l.Agent?) && OnlySent(s, t)
    requires t.agent.Walking? && t.agent.next == 0 && (forall u :: u in s.list ==> u in s.sess) && LogsAre(wire, t)
    ensures IsRun(s, labels') && t' == Exec(s, labels') && forall l :: l in labels' ==> l.Agent?
    ensures OnlySent(s, t') && t'.agent == Walking(t.agent.packet, |s.list|)
    ensures t'.queue == t.queue && t'.sem == t.sem && t'.delivered == t.delivered
    ensures LogsAre(SentAlong(wire, RollOf(s), t.agent.packet.ignore, InWalkFrame(t)), t')
  {
    SameRoll(s, t);
    assert RollOf(t)[..|t.list|] == RollOf(s);
    var visits, end := VisitRun(t, |t.list|, wire);
    RunConcat(s, labels, visits);
    SentTwice(s, t, end);
    labels', t' := labels + visits, end;
  }

  /** The whole turn as a run. */
  lemma RoundRun(s: State, wire: map<Id, seq<Sent>>) returns (labels: seq<Label>, t: State)
    requires Shape(s) && s.agent.Idle? && s.queue != [] && s.sem > 0 && LogsAre(wire, s)
    ensures IsRun(s, labels) && t == Exec(s, labels) && forall l :: l in labels ==> l.Agent?
    ensures t.agent.Idle? && t.sem == s.sem && t.queue == s.queue[1..] && t.delivered == s.delivered + [s.queue[0]]
    ensures OnlySent(s, t)
    ensures LogsAre(SentAlong(wire, RollOf(s), s.queue[0].ignore, Sent(s.queue[0].frame, Broadcast(|s.delivered|))), t)
  {
    labels, t := BeginRound(s, wire);
    labels, t := WalkRound(s, labels, t, wire);
    var out := SentAlong(wire, RollOf(s), s.queue[0].ignore, Sent(s.queue[0].frame, Broadcast(|s.delivered|)));
    labels, t := AgentMoves(s, labels, t, Unlock, out);
    labels, t := AgentMoves(s, labels, t, Release, out);
  }

  // ---------------------------------------------------------------- what single steps show

  lemma ConnectedLogs(wired: map<Id, seq<Sent>>, s: State, id: Id)
    requires Enabled(s, Connect(id)) && LogsAre(wired, s)
    ensures LogsAre(wired[id := []], Apply(s, Connect(id)))
  {
    forall u | u in s.sess
      ensures wired[u] == Apply(s, Connect(id)).sess[u].log
    {
      LogAfter(s, Connect(id), u);
      assert s.sess[u].log + [] == s.sess[u].log;
    }
  }

  lemma AllIntroductions(s: State, self: Id)
    ensures Introductions(RollOf(s), self) == IntroFrames(s, s.list, self)
  {
    IntroductionsAre(s, |s.list|, self);
    assert RollOf(s)[..|s.list|] == RollOf(s) && s.list[..|s.list|] == s.list;
  }

  /** Whom a walk leaves out: a departure is not told to the leaver. */
  function Excepted(id: Id, step: Step): Option<Id> { if step.Notify? then Some(id) else None }

  lemma AnnouncedTo(s: State, id: Id, step: Step, u: Id)
    requires Enabled(s, Session(id, step)) && Announcement(s, id, step).Some?
    ensures Outgoing(s, Session(id, step), u) ==
      if u in s.list && LoggedIn(s, u) && Excepted(id, step) != Some(u)
      then [Sent(Announcement(s, id, step).value, Direct(id))] else []
  {
  }

  /** A step with an announcement, once its walk has sent it along the list. */
  lemma AnnouncedLogs(before: map<Id, seq<Sent>>, s: State, id: Id, step: Step, wire: map<Id, seq<Sent>>)
    requires Enabled(s, Session(id, step)) && Announcement(s, id, step).Some? && Distinct(s.list) && LogsAre(before, s)
    requires wire == SentAlong(before, RollOf(s), Excepted(id, step), Sent(Announcement(s, id, step).value, Direct(id)))
    ensures LogsBecome(wire, s, Session(id, step))
  {
    var frame := Sent(Announcement(s, id, step).value, Direct(id));
    assert RollOf(s)[..|s.list|] == RollOf(s) && s.list[..|s.list|] == s.list;
    SentAlongKeys(before, RollOf(s), Excepted(id, step), frame);
    forall u | u in s.sess
      ensures wire[u] == s.sess[u].log + Outgoing(s, Session(id, step), u)
    {
      SentAlongOne(before, s, |s.list|, Excepted(id, step), frame, u);
      AnnouncedTo(s, id, step, u);
      assert s.sess[u].log + [] == s.sess[u].log;
    }
  }

  lemma LogoutRecord(s: State, id: Id)
    requires Enabled(s, Session(id, Logout))
    ensures SameCore(s.sess[id].(loggedIn := false), SessionAfter(s, Session(id, Logout), id))
  {
  }

  lemma KickedRecord(s: State, id: Id, name: Text)
    requires Enabled(s, Session(id, Run(KickUser(name)))) && IsAdmin(s, id)
    requires KickTarget(s, s.list, name).Some? && KickTarget(s, s.list, name).value in s.sess
    ensures var u := KickTarget(s, s.list, name).value;
      SameCore(s.sess[u].(shutdown := true), SessionAfter(s, Session(id, Run(KickUser(name))), u))
  {
  }

  lemma NoSuchUserReply(s: State, id: Id, name: Text)
    requires Enabled(s, Session(id, Run(KickUser(name)))) && IsAdmin(s, id) && KickTarget(s, s.list, name).None?
    ensures Replies(s, id, Run(KickUser(name))) == [Sent(Notice(NoSuchUser), Direct(id))]
  {
  }

  // ---------------------------------------------------------------- the object

  class Server {
    const admin: Text
    const users: Users.Registry
    var queue: seq<Packet>
    var sem: nat
    var paused: bool
    var wire: map<Id, seq<Sent>>

    /** The heap list shows the list and the records of `s`; name arrays are not shared. */
    ghost predicate ListShows(s: State)
      reads users`nodes, users.nodes`nameLength, users.nodes`loggedIn, users.nodes`shouldShutdown
      reads set n | n in users.nodes :: n.name
    {
      RecordsShow(users.nodes, s.list, s)
    }

    /** The same, but for the record at `k`. */
    ghost predicate ListShowsBut(s: State, k: nat)
      reads users`nodes, users.nodes`nameLength, users.nodes`loggedIn, users.nodes`shouldShutdown
      reads set n | n in users.nodes :: n.name
    {
      && |users.nodes| == |s.list| && k < |s.list|
      && (forall i :: 0 <= i < |s.list| ==> s.list[i] in s.sess && users.nodes[i].sock == s.list[i])
      && (forall i :: 0 <= i < |s.list| && i != k ==> Shows(users.nodes[i], s.sess[s.list[i]]))
      && (forall i, j :: 0 <= i < j < |users.nodes| ==> users.nodes[i].name != users.nodes[j].name)
    }

    ghost predicate RestShows(s: State)
      reads this`queue, this`sem, this`paused, this`wire
    {
      queue == s.queue && sem == s.sem && paused == s.paused && admin == s.admin && LogsAre(wire, s)
    }

    /** The data shows the abstract state `s`. */
    ghost predicate Valid(s: State)
      reads this`queue, this`sem, this`paused, this`wire, users, users.nodes, set n | n in users.nodes :: n.name
    {
      users.Valid() && ListShows(s) && RestShows(s)
    }

    constructor (admin: Text)
      ensures Valid(Init(admin))
    {
      this.admin := admin;
      users := new Users.Registry();
      queue, sem, paused, wire := [], 1, false, map[];
    }

    /** The list still shows the state after a step that spares everyone in it. */
    lemma StillShows(s: State, l: Label)
      requires Enabled(s, l) && ListShows(s) && ListAfter(s, l) == s.list
      requires forall u :: u in s.list ==> Spares(s, l, u)
      ensures ListShows(Apply(s, l))
    {
      var t := Apply(s, l);
      forall i | 0 <= i < |s.list|
        ensures t.list[i] in t.sess && users.nodes[i].sock == t.list[i] && Shows(users.nodes[i], t.sess[t.list[i]])
      {
        SparedCore(s, l, s.list[i]);
        assert s.list[i] in s.list;
        assert t.sess[s.list[i]] == SessionAfter(s, l, s.list[i]);
      }
    }

    /** What a walk reads of the list. */
    lemma RollShows(s: State)
      requires ListShows(s)
      ensures users.Lists(RollOf(s))
    {
      forall i | 0 <= i < |s.list|
        ensures CStr(users.nodes[i].name[..]) == RollOf(s)[i].name && users.nodes[i].loggedIn == RollOf(s)[i].online
        ensures Seen(users.nodes[i].name[..], users.nodes[i].nameLength) == RollOf(s)[i].shown
      {
        assert Shows(users.nodes[i], s.sess[s.list[i]]);
      }
    }

    /** `network_Send`. */
    method Send(id: Id, frame: Sent)
      requires id in wire
      modifies this`wire
      ensures wire == old(wire)[id := old(wire)[id] + [frame]]
    {
      wire := wire[id := wire[id] + [frame]];
    }

    /** The data shows a step that only talks, once everything it sends is out. */
    lemma TalkShows(s: State, id: Id, step: Step)
      requires Enabled(s, Session(id, step)) && Talk(step)
      requires queue == s.queue && sem == s.sem && paused == s.paused && admin == s.admin
      requires LogsBecome(wire, s, Session(id, step))
      ensures RestShows(Apply(s, Session(id, step)))
    {
      TalkRest(s, id, step);
      LogsStep(wire, s, Session(id, step));
    }

    lemma AnswerShows(s: State, id: Id, step: Step, before: map<Id, seq<Sent>>)
      requires Enabled(s, Session(id, step)) && Talk(step) && Announcement(s, id, step).None? && !step.Remove?
      requires users.Valid() && ListShows(s) && forall u :: u in s.list ==> Spares(s, Session(id, step), u)
      requires queue == s.queue && sem == s.sem && paused == s.paused && admin == s.admin
      requires LogsAre(before, s) && wire == before[id := before[id] + Replies(s, id, step)]
      ensures Valid(Apply(s, Session(id, step)))
    {
      AnswerLogs(before, s, id, step, wire);
      TalkShows(s, id, step);
      StillShows(s, Session(id, step));
    }

    /** What the checks of a login request find: a bad character overrides a taken name. */
    method Judge(raw: RawName, ghost s: State) returns (code: LoginCode)
      requires Valid(s)
      ensures code == NameInvalid <==> Forbidden(CStr(raw))
      ensures code == NameTaken <==> !Forbidden(CStr(raw)) && !NameFree(s, CStr(raw))
      ensures code == Success <==> NameFree(s, CStr(raw)) && !Forbidden(CStr(raw))
    {
      code := Success;
      RollShows(s);
      FreeOnRoll(s, CStr(raw));
      var start := users.front;
      var free := users.IsNameFree(start, CStr(raw), RollOf(s));
      if !free { code := NameTaken; }
      var forbidden := HasForbiddenChar(CStr(raw));
      if forbidden { code := NameInvalid; }
    }

    lemma LoginAnswerShows(s: State, id: Id, step: Step, before: map<Id, seq<Sent>>)
      requires Enabled(s, Session(id, step)) && (step.CheckName? || step.RefuseLogin?) && users.Valid() && ListShows(s)
      requires queue == s.queue && sem == s.sem && paused == s.paused && admin == s.admin
      requires LogsAre(before, s) && wire == before[id := before[id] + Replies(s, id, step)]
      ensures Valid(Apply(s, Session(id, step)))
    {
      AnswerShows(s, id, step, before);
    }

    method AnswerLogin(id: Id, code: LoginCode, ghost step: Step, ghost s: State)
      requires Valid(s) && (step.CheckName? || step.RefuseLogin?) && Enabled(s, Session(id, step))
      requires Replies(s, id, step) == [Sent(LoginReply(code), Direct(id))]
      modifies this`wire
      ensures Valid(Apply(s, Session(id, step)))
      ensures wire == old(wire)[id := old(wire)[id] + [Sent(LoginReply(code), Direct(id))]]
    {
      Send(id, Sent(LoginReply(code), Direct(id)));
      LoginAnswerShows(s, id, step, old(wire));
    }

    /** The checks of a login request and the answer to it. */
    method CheckLogin(id: Id, raw: RawName, ghost s: State) returns (ok: bool)
      requires Valid(s) && id in s.sess && s.sess[id].phase.Reading? && LockFree(s)
      modifies this`wire
      ensures var l := Session(id, if ok then CheckName(raw) else RefuseLogin(raw)); Enabled(s, l) && Valid(Apply(s, l))
      ensures var code := if Forbidden(CStr(raw)) then NameInvalid
                          else if !NameFree(s, CStr(raw)) then NameTaken else Success;
        wire == old(wire)[id := old(wire)[id] + [Sent(LoginReply(code), Direct(id))]]
    {
      var code := Judge(raw, s);
      ok := code == Success;
      AnswerLogin(id, code, if ok then CheckName(raw) else RefuseLogin(raw), s);
    }

    /** After a step that touches nobody in the list but `id`, the list shows it once the record of `id` does. */
    lemma OneShows(s: State, l: Label, k: nat)
      requires Enabled(s, l) && ListAfter(s, l) == s.list && Distinct(s.list) && ListShowsBut(s, k)
      requires forall u :: u in s.list && u != s.list[k] ==> Spares(s, l, u)
      requires Shows(users.nodes[k], SessionAfter(s, l, s.list[k]))
      ensures ListShows(Apply(s, l))
    {
      var t := Apply(s, l);
      forall i | 0 <= i < |s.list|
        ensures t.list[i] in t.sess && users.nodes[i].sock == t.list[i] && Shows(users.nodes[i], t.sess[t.list[i]])
      {
        assert s.list[i] in s.list;
        assert t.sess[s.list[i]] == SessionAfter(s, l, s.list[i]);
        if i != k { SparedCore(s, l, s.list[i]); }
      }
    }

    /** `login_User`: copy the name over the old one without clearing it, then set the flag and the length. */
    method FillRecord(target: Users.Node, raw: RawName, ghost k: nat, ghost s: State, ghost y: Record)
      requires users.Valid() && ListShows(s) && k < |s.list| && users.nodes[k] == target
      requires var x := s.sess[s.list[k]];
        y.buf == StrNCpy(x.buf, raw, |raw|) && y.nameLength == |raw| && y.loggedIn && y.shutdown == x.shutdown
      modifies target`loggedIn, target`nameLength, target.name
      ensures users.Valid() && ListShowsBut(s, k) && Shows(target, y)
    {
      ghost var x := s.sess[s.list[k]];
      assert Shows(target, x);
      Wire.StrNCpyTo(target.name, 0, raw, |raw|);
      target.loggedIn := true;
      target.nameLength := |raw|;
      assert target.name[..] == StrNCpy(x.buf, raw, |raw|);
    }

    lemma LoginRecord(s: State, id: Id)
      requires Enabled(s, Session(id, Login))
      ensures var x, y := s.sess[id], SessionAfter(s, Session(id, Login), id);
        && y.buf == StrNCpy(x.buf, x.phase.raw, |x.phase.raw|) && y.nameLength == |x.phase.raw|
        && y.loggedIn && y.shutdown == x.shutdown
    {
    }

    /** The rest shows a step that sends nothing. */
    lemma SilentShows(s: State, id: Id, step: Step)
      requires Enabled(s, Session(id, step)) && Talk(step) && RestShows(s)
      requires Announcement(s, id, step).None? && Replies(s, id, step) == []
      ensures RestShows(Apply(s, Session(id, step)))
    {
      assert wire[id] + [] == wire[id] && wire == wire[id := wire[id]];
      AnswerLogs(wire, s, id, step, wire);
      TalkShows(s, id, step);
    }

    method LoginUser(target: Users.Node, raw: RawName, ghost k: nat, ghost s: State)
      requires Valid(s) && k < |s.list| && users.nodes[k] == target && Distinct(s.list)
      requires Enabled(s, Session(s.list[k], Login)) && s.sess[s.list[k]].phase.raw == raw
      modifies target`loggedIn, target`nameLength, target.name
      ensures Valid(Apply(s, Session(s.list[k], Login)))
    {
      ghost var l := Session(s.list[k], Login);
      LoginRecord(s, s.list[k]);
      FillRecord(target, raw, k, s, SessionAfter(s, l, s.list[k]));
      OneShows(s, l, k);
      SilentShows(s, s.list[k], Login);
    }

    method ClearFlag(target: Users.Node, ghost k: nat, ghost s: State, ghost y: Record)
      requires users.Valid() && ListShows(s) && k < |s.list| && users.nodes[k] == target
      requires SameCore(s.sess[s.list[k]].(loggedIn := false), y)
      modifies target`loggedIn
      ensures users.Valid() && ListShowsBut(s, k) && Shows(target, y)
    {
      assert Shows(target, s.sess[s.list[k]]);
      target.loggedIn := false;
    }

    /** `logout_user`: the flag alone, without the lock. */
    method LogoutUser(target: Users.Node, ghost k: nat, ghost s: State)
      requires Valid(s) && k < |s.list| && users.nodes[k] == target && Distinct(s.list)
      requires Enabled(s, Session(s.list[k], Logout))
      modifies target`loggedIn
      ensures Valid(Apply(s, Session(s.list[k], Logout)))
    {
      ghost var l := Session(s.list[k], Logout);
      LogoutRecord(s, s.list[k]);
      ClearFlag(target, k, s, SessionAfter(s, l, s.list[k]));
      OneShows(s, l, k);
      SilentShows(s, s.list[k], Logout);
    }

    /** `user_should_shutdown`. */
    method SetShutdown(target: Users.Node, ghost k: nat, ghost s: State, ghost y: Record)
      requires users.Valid() && ListShows(s) && k < |s.list| && users.nodes[k] == target
      requires SameCore(s.sess[s.list[k]].(shutdown := true), y)
      modifies target`shouldShutdown
      ensures users.Valid() && ListShowsBut(s, k) && Shows(target, y)
    {
      assert Shows(target, s.sess[s.list[k]]);
      target.shouldShutdown := true;
    }

    /** The kick walk finds the user the transition system says. */
    method FindKickTarget(name: Text, ghost s: State) returns (target: Users.Node?, ghost k: nat)
      requires Valid(s)
      ensures target == null ==> KickTarget(s, s.list, name).None?
      ensures target != null ==> k < |s.list| && users.nodes[k] == target && KickTarget(s, s.list, name) == Some(s.list[k])
    {
      RollShows(s);
      ghost var roll := RollOf(s);
      target, k := users.FindOnline(name, roll);
      forall i | 0 <= i < k
        ensures !(LoggedIn(s, s.list[i]) && Name(s, s.list[i]) == name)
      {
        assert roll[i] in roll[..k];
      }
      TargetOnRoll(s, s.list, name, k);
    }

    method KickHim(id: Id, name: Text, target: Users.Node, ghost k: nat, ghost s: State)
      requires Valid(s) && Distinct(s.list) && Enabled(s, Session(id, Run(KickUser(name)))) && IsAdmin(s, id)
      requires k < |s.list| && users.nodes[k] == target && KickTarget(s, s.list, name) == Some(s.list[k])
      modifies users.nodes`shouldShutdown
      ensures Valid(Apply(s, Session(id, Run(KickUser(name)))))
    {
      ghost var l := Session(id, Run(KickUser(name)));
      KickedRecord(s, id, name);
      SetShutdown(target, k, s, SessionAfter(s, l, s.list[k]));
      OneShows(s, l, k);
      SilentShows(s, id, Run(KickUser(name)));
    }

    method KickNobody(id: Id, name: Text, ghost s: State)
      requires Valid(s) && Enabled(s, Session(id, Run(KickUser(name)))) && IsAdmin(s, id)
      requires KickTarget(s, s.list, name).None?
      modifies this`wire
      ensures Valid(Apply(s, Session(id, Run(KickUser(name)))))
    {
      Send(id, Sent(Notice(NoSuchUser), Direct(id)));
      NoSuchUserReply(s, id, name);
      AnswerShows(s, id, Run(KickUser(name)), old(wire));
    }

    /** `/kick` from the admin: mark the first logged-in user of that name, or answer that there is none. */
    method Kick(id: Id, name: Text, ghost s: State)
      requires Valid(s) && Distinct(s.list) && Enabled(s, Session(id, Run(KickUser(name)))) && IsAdmin(s, id)
      modifies this`wire, users.nodes`shouldShutdown
      ensures Valid(Apply(s, Session(id, Run(KickUser(name)))))
    {
      var target, k := FindKickTarget(name, s);
      if target != null { KickHim(id, name, target, k, s); } else { KickNobody(id, name, s); }
    }

    /** The walk that tells a new user of the others. */
    method SendIntroductions(self: Users.Node, ghost me: nat, ghost roll: seq<Users.Entry>) returns (out: seq<Sent>)
      requires users.Valid() && users.Lists(roll) && Distinct(Users.Sockets(users.nodes))
      requires me < |users.nodes| && users.nodes[me] == self
      ensures out == Introductions(roll, self.sock)
    {
      out := [];
      var pointer := users.front;
      ghost var k := 0;
      ghost var sockets := Users.Sockets(users.nodes);
      while pointer != null
        invariant k <= |users.nodes| && pointer == if k < |users.nodes| then users.nodes[k] else null
        invariant out == Introductions(roll[..k], self.sock)
        decreases |users.nodes| - k
      {
        IntroductionsNext(roll, k, self.sock);
        assert sockets[me] == self.sock && sockets[k] == pointer.sock;
        if pointer != self && pointer.loggedIn {
          out := out + [Sent(UserAdded(Seen(pointer.name[..], pointer.nameLength)), Direct(self.sock))];
        }
        pointer := pointer.next;
        k := k + 1;
      }
      assert roll[..k] == roll;
    }

    /** A walk that sends one frame to everyone online, or to everyone but one. */
    method WalkSending(wire: map<Id, seq<Sent>>, frame: Sent, except: Option<Id>, ghost roll: seq<Users.Entry>)
      returns (out: map<Id, seq<Sent>>)
      requires users.Valid() && users.Lists(roll) && forall k :: 0 <= k < |roll| ==> roll[k].sock in wire
      ensures out == SentAlong(wire, roll, except, frame)
    {
      out := wire;
      var pointer := users.front;
      ghost var k := 0;
      while pointer != null
        invariant k <= |users.nodes| && pointer == if k < |users.nodes| then users.nodes[k] else null
        invariant out == SentAlong(wire, roll[..k], except, frame)
        decreases |users.nodes| - k
      {
        SentAlongNext(wire, roll, k, except, frame);
        if pointer.loggedIn && except != Some(pointer.sock) {
          out := out[pointer.sock := out[pointer.sock] + [frame]];
        }
        pointer := pointer.next;
        k := k + 1;
      }
      assert roll[..k] == roll;
    }

    lemma SocketsAreIds(s: State)
      requires ListShows(s)
      ensures Users.Sockets(users.nodes) == s.list
    {
    }

    method SendAllIntroductions(self: Users.Node, ghost me: nat, ghost s: State)
      requires users.Valid() && ListShows(s) && Distinct(s.list) && me < |s.list| && users.nodes[me] == self
      requires s.list[me] in wire
      modifies this`wire
      ensures wire == old(wire)[s.list[me] := old(wire)[s.list[me]] + IntroFrames(s, s.list, s.list[me])]
    {
      RollShows(s);
      SocketsAreIds(s);
      var out := SendIntroductions(self, me, RollOf(s));
      AllIntroductions(s, s.list[me]);
      assert self.sock == s.list[me];
      wire := wire[self.sock := wire[self.sock] + out];
    }

    lemma IntroductionShows(s: State, id: Id, before: map<Id, seq<Sent>>)
      requires Enabled(s, Session(id, Introduce)) && users.Valid() && ListShows(s)
      requires queue == s.queue && sem == s.sem && paused == s.paused && admin == s.admin
      requires LogsAre(before, s) && wire == before[id := before[id] + IntroFrames(s, s.list, id)]
      ensures Valid(Apply(s, Session(id, Introduce)))
    {
      AnswerShows(s, id, Introduce, before);
    }

    method IntroduceOthers(self: Users.Node, ghost me: nat, ghost s: State)
      requires Valid(s) && Distinct(s.list) && me < |s.list| && users.nodes[me] == self
      requires Enabled(s, Session(s.list[me], Introduce))
      modifies this`wire
      ensures Valid(Apply(s, Session(s.list[me], Introduce)))
    {
      ghost var before := wire;
      assert LogsAre(before, s);
      SendAllIntroductions(self, me, s);
      IntroductionShows(s, s.list[me], before);
    }

    lemma AnnouncedShows(s: State, id: Id, step: Step, before: map<Id, seq<Sent>>)
      requires Enabled(s, Session(id, step)) && Talk(step) && Announcement(s, id, step).Some? && Distinct(s.list)
      requires users.Valid() && ListShows(s)
      requires queue == s.queue && sem == s.sem && paused == s.paused && admin == s.admin
      requires LogsAre(before, s)
      requires wire == SentAlong(before, RollOf(s), Excepted(id, step), Sent(Announcement(s, id, step).value, Direct(id)))
      ensures Valid(Apply(s, Session(id, step)))
    {
      AnnouncedLogs(before, s, id, step, wire);
      TalkShows(s, id, step);
      StillShows(s, Session(id, step));
    }

    lemma ListIsWired(s: State)
      requires ListShows(s) && LogsAre(wire, s)
      ensures forall k :: 0 <= k < |s.list| ==> RollOf(s)[k].sock in wire
    {
    }

    /** A frame to everyone online, or to everyone but one, of the list that shows `s`. */
    method TellAll(frame: Sent, except: Option<Id>, ghost s: State)
      requires users.Valid() && ListShows(s) && LogsAre(wire, s)
      modifies this`wire
      ensures wire == SentAlong(old(wire), RollOf(s), except, frame)
    {
      RollShows(s);
      ListIsWired(s);
      wire := WalkSending(wire, frame, except, RollOf(s));
    }

    /** The notice that ends a pause command, or precedes a resume's post, to everyone online. */
    lemma GateShows(s: State, id: Id, step: Step, before: map<Id, seq<Sent>>, frame: Frame)
      requires Enabled(s, Session(id, step)) && (step.PauseTell? || step.ResumeTell?) && Distinct(s.list)
      requires frame == Notice(if step.PauseTell? then ServerPaused else ServerResumed)
      requires users.Valid() && ListShows(s)
      requires queue == s.queue && sem == s.sem && paused == s.paused && admin == s.admin
      requires LogsAre(before, s) && wire == SentAlong(before, RollOf(s), None, Sent(frame, Direct(id)))
      ensures Valid(Apply(s, Session(id, step)))
    {
      AnnouncedShows(s, id, step, before);
    }

    method TellGate(id: Id, pausing: bool, ghost s: State)
      requires Valid(s) && Distinct(s.list) && Enabled(s, Session(id, if pausing then PauseTell else ResumeTell))
      modifies this`wire
      ensures Valid(Apply(s, Session(id, if pausing then PauseTell else ResumeTell)))
    {
      ghost var before := wire;
      var frame := Notice(if pausing then ServerPaused else ServerResumed);
      TellAll(Sent(frame, Direct(id)), None, s);
      GateShows(s, id, if pausing then PauseTell else ResumeTell, before, frame);
    }

    /** The departure notice, from the record of the leaver, to everyone else online. */
    method SendFarewell(self: Users.Node, ghost me: nat, ghost s: State)
      requires users.Valid() && ListShows(s) && LogsAre(wire, s) && me < |s.list| && users.nodes[me] == self
      requires s.sess[s.list[me]].nameLength != 0
      modifies this`wire
      ensures Announcement(s, s.list[me], Notify).Some?
      ensures wire == SentAlong(old(wire), RollOf(s), Some(s.list[me]),
                                Sent(Announcement(s, s.list[me], Notify).value, Direct(s.list[me])))
    {
      assert Shows(self, s.sess[s.list[me]]);
      var name := Seen(self.name[..], self.nameLength);
      var frame := UserRemoved(name, if self.shouldShutdown then Kicked else CommunicationError);
      TellAll(Sent(frame, Direct(self.sock)), Some(self.sock), s);
    }

    method TellDeparture(self: Users.Node, ghost me: nat, ghost s: State)
      requires Valid(s) && Distinct(s.list) && me < |s.list| && users.nodes[me] == self
      requires Enabled(s, Session(s.list[me], Notify)) && s.sess[s.list[me]].nameLength != 0
      modifies this`wire
      ensures Valid(Apply(s, Session(s.list[me], Notify)))
    {
      ghost var before := wire;
      SendFarewell(self, me, s);
      AnnouncedShows(s, s.list[me], Notify, before);
    }

    /** The end of a session after its logout: tell the others, if it ever logged in. */
    method NotifyDeparture(self: Users.Node, ghost me: nat, ghost s: State)
      requires Valid(s) && Distinct(s.list) && me < |s.list| && users.nodes[me] == self
      requires Enabled(s, Session(s.list[me], Notify))
      modifies this`wire
      ensures Valid(Apply(s, Session(s.list[me], Notify)))
    {
      assert Shows(self, s.sess[s.list[me]]);
      if self.nameLength != 0 {
        TellDeparture(self, me, s);
      } else {
        StillShows(s, Session(s.list[me], Notify));
        SilentShows(s, s.list[me], Notify);
      }
    }

    // -------------------------------------------------------------- records come and go

    lemma ConnectShows(s: State, id: Id, before: seq<Users.Node>, added: Users.Node)
      requires Enabled(s, Connect(id)) && RecordsShow(before, s.list, s)
      requires users.nodes == before + [added] && added.sock == id && Shows(added, NewSession)
      requires forall n :: n in before ==> n.name != added.name
      ensures ListShows(Apply(s, Connect(id)))
    {
      var l := Connect(id);
      var t := Apply(s, l);
      forall i | 0 <= i < |t.list|
        ensures t.list[i] in t.sess && users.nodes[i].sock == t.list[i] && Shows(users.nodes[i], t.sess[t.list[i]])
      {
        if i < |s.list| {
          assert t.sess[s.list[i]] == SessionAfter(s, l, s.list[i]);
          SparedCore(s, l, s.list[i]);
        }
      }
    }

    lemma ConnectIsShown(s: State, id: Id, before: seq<Users.Node>, added: Users.Node, wired: map<Id, seq<Sent>>)
      requires Enabled(s, Connect(id)) && users.Valid() && RecordsShow(before, s.list, s)
      requires users.nodes == before + [added] && added.sock == id && Shows(added, NewSession)
      requires forall n :: n in before ==> n.name != added.name
      requires queue == s.queue && sem == s.sem && paused == s.paused && admin == s.admin
      requires LogsAre(wired, s) && wire == wired[id := []]
      ensures Valid(Apply(s, Connect(id)))
    {
      ConnectShows(s, id, before, added);
      ConnectedLogs(wired, s, id);
      assert s.queue + [] == s.queue;
    }

    method AddRecord(thread: nat, id: Id, ghost s: State) returns (added: Users.Node)
      requires users.Valid() && ListShows(s) && id !in Users.Sockets(users.nodes)
      modifies users, users.nodes`prev, users.nodes`next
      ensures users.Valid() && users.nodes == old(users.nodes) + [added] && RecordsShow(old(users.nodes), s.list, s)
      ensures added.sock == id && Shows(added, NewSession) && forall n :: n in old(users.nodes) ==> n.name != added.name
    {
      added := users.Create(thread, id);
    }

    method OpenWire(id: Id, added: Users.Node, ghost before: seq<Users.Node>, ghost s: State)
      requires Enabled(s, Connect(id)) && users.Valid() && RecordsShow(before, s.list, s) && RestShows(s)
      requires users.nodes == before + [added] && added.sock == id && Shows(added, NewSession)
      requires forall n :: n in before ==> n.name != added.name
      modifies this`wire
      ensures Valid(Apply(s, Connect(id)))
    {
      ghost var wired := wire;
      wire := wire[id := []];
      ConnectIsShown(s, id, before, added, wired);
    }

    /** A new connection: its record is created at the end of the list. */
    method CreateUser(thread: nat, id: Id, ghost s: State) returns (added: Users.Node)
      requires Valid(s) && Enabled(s, Connect(id)) && id !in s.list
      modifies this`wire, users, users.nodes`prev, users.nodes`next
      ensures Valid(Apply(s, Connect(id)))
    {
      ghost var before := users.nodes;
      SocketsAreIds(s);
      added := AddRecord(thread, id, s);
      OpenWire(id, added, before, s);
    }

    lemma RemoveShows(s: State, k: nat)
      requires Distinct(s.list) && k < |s.list| && Enabled(s, Session(s.list[k], Remove))
      requires RecordsShow(users.nodes, RemoveAt(s.list, k), s)
      ensures ListShows(Apply(s, Session(s.list[k], Remove)))
    {
      var l := Session(s.list[k], Remove);
      var t := Apply(s, l);
      WithoutAt(s.list, k);
      forall i | 0 <= i < |t.list|
        ensures t.list[i] in t.sess && users.nodes[i].sock == t.list[i] && Shows(users.nodes[i], t.sess[t.list[i]])
      {
        assert t.sess[t.list[i]] == SessionAfter(s, l, t.list[i]);
        SparedCore(s, l, t.list[i]);
      }
    }

    lemma RemoveIsShown(s: State, k: nat)
      requires Distinct(s.list) && k < |s.list| && Enabled(s, Session(s.list[k], Remove))
      requires users.Valid() && RecordsShow(users.nodes, RemoveAt(s.list, k), s) && RestShows(s)
      ensures Valid(Apply(s, Session(s.list[k], Remove)))
    {
      RemoveShows(s, k);
      SilentShows(s, s.list[k], Remove);
    }

    /** The heap half of a removal: the record is found by its socket and unlinked. */
    method DropRecord(id: Id, ghost left: seq<Users.Node>, ghost ids: seq<Id>, ghost s: State)
      requires users.Valid() && id in Users.Sockets(users.nodes)
      requires left == RemoveAt(users.nodes, Users.FirstAt(Users.Sockets(users.nodes), id)) && RecordsShow(left, ids, s)
      modifies users, users.nodes`prev, users.nodes`next
      ensures users.Valid() && RecordsShow(users.nodes, ids, s)
    {
      var removed := users.Remove(id);
    }

    lemma OneLess(s: State, k: nat)
      requires ListShows(s) && Distinct(s.list) && k < |s.list|
      ensures Users.Sockets(users.nodes) == s.list && Users.FirstAt(s.list, s.list[k]) == k
      ensures RecordsShow(RemoveAt(users.nodes, k), RemoveAt(s.list, k), s)
    {
      SocketsAreIds(s);
      FirstIs(s.list, k);
      RecordsWithout(users.nodes, s.list, s, k);
    }

    /** `remove_User` at the end of a session. */
    method RemoveUser(ghost k: nat, id: Id, ghost s: State)
      requires Valid(s) && Distinct(s.list) && k < |s.list| && s.list[k] == id && Enabled(s, Session(id, Remove))
      modifies users, users.nodes`prev, users.nodes`next
      ensures Valid(Apply(s, Session(id, Remove)))
    {
      OneLess(s, k);
      DropRecord(id, RemoveAt(users.nodes, k), RemoveAt(s.list, k), s);
      RemoveIsShown(s, k);
    }

    // -------------------------------------------------------------- the agent

    /** The list shows every state that differs only in what was sent. */
    lemma CarriesOver(s: State, t: State)
      requires ListShows(s) && OnlySent(s, t)
      ensures ListShows(t)
    {
      forall i | 0 <= i < |t.list|
        ensures t.list[i] in t.sess && users.nodes[i].sock == t.list[i] && Shows(users.nodes[i], t.sess[t.list[i]])
      {
        assert t.list[i] in s.sess.Keys && SameUser(s.sess[t.list[i]], t.sess[t.list[i]]);
      }
    }

    lemma RoundShows(s: State, t: State)
      requires users.Valid() && ListShows(s) && OnlySent(s, t)
      requires queue == t.queue && sem == t.sem && paused == s.paused && admin == s.admin && LogsAre(wire, t)
      ensures Valid(t)
    {
      CarriesOver(s, t);
    }

    /** Receive, take the semaphore, walk, post. */
    method Deliver(index: nat, ghost s: State)
      requires users.Valid() && ListShows(s) && LogsAre(wire, s) && queue != [] && sem > 0
      modifies this`queue, this`sem, this`wire
      ensures queue == old(queue)[1..] && sem == old(sem)
      ensures wire == SentAlong(old(wire), RollOf(s), old(queue)[0].ignore, Sent(old(queue)[0].frame, Broadcast(index)))
    {
      var packet := queue[0];
      queue := queue[1..];
      sem := sem - 1;
      TellAll(Sent(packet.frame, Broadcast(index)), packet.ignore, s);
      sem := sem + 1;
    }

    /** After a turn the data shows every state that has the right logs, and the head of the queue gone. */
    method Turn(index: nat, ghost s: State, ghost t: State)
      requires Valid(s) && queue != [] && sem > 0 && OnlySent(s, t) && t.sem == s.sem && t.queue == s.queue[1..]
      requires LogsAre(SentAlong(wire, RollOf(s), queue[0].ignore, Sent(queue[0].frame, Broadcast(index))), t)
      modifies this`queue, this`sem, this`wire
      ensures Valid(t)
    {
      Deliver(index, s);
      RoundShows(s, t);
    }

    /** One turn of the loop of `broadcast_agent`: a run of agent steps that delivers the head of the queue. */
    method AgentRound(index: nat, ghost s: State) returns (ghost labels: seq<Label>, ghost t: State)
      requires Valid(s) && Shape(s) && s.agent.Idle? && queue != [] && sem > 0 && index == |s.delivered|
      modifies this`queue, this`sem, this`wire
      ensures IsRun(s, labels) && t == Exec(s, labels) && Valid(t) && forall l :: l in labels ==> l.Agent?
      ensures t.agent.Idle? && t.sem == s.sem && t.queue == s.queue[1..] && t.delivered == s.delivered + [s.queue[0]]
      ensures OnlySent(s, t)
    {
      labels, t := RoundRun(s, wire);
      Turn(index, s, t);
    }
  }
}
