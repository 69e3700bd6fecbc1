/**
 What every run of the server keeps, whatever the schedule: the list and the sessions
 agree, accepted messages are conserved in order, and each user is sent exactly one
 unbroken stretch of them.
 */
module ChatFlow {
  import opened CText
  import opened ChatModel
  import opened Lists

  // ---------------------------------------------------------------- sessions and list

  predicate Ended(phase: Phase) { phase.LoggedOut? || phase.Notified? || phase.Gone? }

  predicate InGate(phase: Phase) {
    phase.PauseWaiting? || phase.PauseSetting? || phase.PauseTelling?
    || phase.ResumeTelling? || phase.ResumePosting? || phase.ResumeClearing?
  }

  predicate Joining(phase: Phase) {
    phase.Announcing? || phase.Introducing? || (phase.Posting? && phase.join)
  }

  /** A queue entry as the sessions build it: nobody is ignored, and departures are never queued. */
  predicate Queueable(p: Packet) {
    p.ignore == None && (p.frame.UserAdded? || p.frame.ChatText?)
  }

  predicate SessionOk(x: Record) {
    && (x.loggedIn ==> !Ended(x.phase) && x.nameLength > 0)
    && (x.nameLength > 0 && !Ended(x.phase) ==> x.loggedIn)
    && (Joining(x.phase) || InGate(x.phase) ==> x.loggedIn)
    && (x.nameLength == 0 ==> x.buf == Zeros(NAME_ARRAY))
    && (x.phase.Posting? ==> Queueable(x.phase.packet))
    && (x.phase.Posting? ==>
          if x.phase.join then x.phase.packet.frame == UserAdded(ShownOf(x)) else x.phase.packet.frame.ChatText?)
  }

  predicate Shape(s: State) {
    && s.admin != []
    && Distinct(s.list)
    && (forall u :: u in s.list ==> u in s.sess)
    && (forall u :: u in s.sess ==> SessionOk(s.sess[u]) && (u in s.list <==> !s.sess[u].phase.Gone?))
    && (s.agent.Walking? ==> s.agent.next <= |s.list|)
  }

  lemma WithoutIs(ids: seq<Id>, id: Id)
    requires Distinct(ids)
    ensures Distinct(Without(ids, id))
    ensures forall u :: u in Without(ids, id) <==> u in ids && u != id
  {
    if ids != [] {
      WithoutIs(ids[1..], id);
      assert ids[0] !in ids[1..];
    }
  }

  lemma KickTargetIs(s: State, ids: seq<Id>, name: Text)
    ensures var t := KickTarget(s, ids, name);
      if t.Some? then t.value in ids && LoggedIn(s, t.value) && Name(s, t.value) == name
      else forall u :: u in ids && LoggedIn(s, u) ==> Name(s, u) != name
  {
  }

  lemma CStrOfZeros(n: nat)
    ensures CStr(Zeros(n)) == []
  {
  }

  lemma RecordStep(s: State, id: Id, step: Step)
    requires s.admin != [] && id in s.sess && SessionOk(s.sess[id]) && StepEnabled(s, id, step)
    ensures SessionOk(RecordAfter(s, id, step))
    ensures RecordAfter(s, id, step).phase.Gone? <==> step.Remove?
  {
  }

  lemma ListStep(s: State, l: Label)
    requires Shape(s) && Enabled(s, l)
    ensures Distinct(ListAfter(s, l))
    ensures forall u :: u in ListAfter(s, l) <==> (u in s.list && l != Session(u, Remove)) || l == Connect(u)
  {
    if l.Session? { WithoutIs(s.list, l.id); }
  }

  lemma UserStep(s: State, l: Label, u: Id)
    requires Shape(s) && Enabled(s, l) && u in s.sess
    ensures SessionOk(SessionAfter(s, l, u))
    ensures SessionAfter(s, l, u).phase.Gone? <==> s.sess[u].phase.Gone? || l == Session(u, Remove)
  {
    assert SessionOk(s.sess[u]);
    if l.Session? && l.id == u { RecordStep(s, u, l.step); }
  }

  lemma PhaseFields(s: State, l: Label, u: Id)
    requires Enabled(s, l) && u in s.sess
    ensures u in Apply(s, l).sess
    ensures Apply(s, l).sess[u].phase == if l.Session? && l.id == u then PhaseAfter(s, u, l.step) else s.sess[u].phase
  {
    assert Apply(s, l).sess[u] == SessionAfter(s, l, u);
  }

  lemma ShapeStep(s: State, l: Label)
    requires Shape(s) && Enabled(s, l)
    ensures Shape(Apply(s, l))
  {
    ListStep(s, l);
    forall u | u in s.sess
      ensures SessionOk(SessionAfter(s, l, u)) && (u in ListAfter(s, l) <==> !SessionAfter(s, l, u).phase.Gone?)
    {
      UserStep(s, l, u);
    }
  }

  // ---------------------------------------------------------------- conservation

  predicate Flow(s: State) {
    && s.accepted == s.delivered + InHand(s.agent) + s.queue
    && |s.queue| <= QUEUE_CAPACITY
    && forall p :: p in s.accepted ==> Queueable(p)
  }

  lemma FlowStep(s: State, l: Label)
    requires Shape(s) && Flow(s) && Enabled(s, l)
    ensures Flow(Apply(s, l))
  {
  }

  // ---------------------------------------------------------------- who heard what

  /** The broadcast messages in a send log, each with its place in the accepted order. */
  function Stream(log: seq<Sent>): seq<(int, Frame)> {
    if log == [] then []
    else
      var last := log[|log| - 1];
      Stream(log[..|log| - 1]) + if last.via.Broadcast? then [(last.via.index, last.frame)] else []
  }

  /** Accepted messages `from` up to `to`, each with its place. */
  function Stretch(accepted: seq<Packet>, from: nat, to: nat): seq<(int, Frame)>
    requires from <= to <= |accepted|
  {
    seq(to - from, i requires 0 <= i < to - from => (from + i, accepted[from + i].frame))
  }

  lemma {:induction false} StreamConcat(a: seq<Sent>, b: seq<Sent>)
    ensures Stream(a + b) == Stream(a) + Stream(b)
  {
    if b == [] {
      assert a + b == a;
    } else {
      var n := |b| - 1;
      assert (a + b)[..|a + b| - 1] == a + b[..n];
      StreamConcat(a, b[..n]);
    }
  }

  lemma {:induction false} DirectIsSilent(log: seq<Sent>)
    requires forall e :: e in log ==> e.via.Direct?
    ensures Stream(log) == []
  {
    if log != [] { DirectIsSilent(log[..|log| - 1]); }
  }

  lemma IntroFramesAre(s: State, ids: seq<Id>, self: Id)
    ensures forall e :: e in IntroFrames(s, ids, self) ==> e.via == Direct(self) && e.frame.UserAdded?
  {
  }

  /** What an introduction walk sends as it comes to `v`. */
  function Introduction(s: State, v: Id, self: Id): seq<Sent> {
    if v != self && LoggedIn(s, v) then [Sent(UserAdded(Shown(s, v)), Direct(self))] else []
  }

  lemma {:induction false} IntroSnoc(s: State, ids: seq<Id>, u: Id, self: Id)
    ensures IntroFrames(s, ids + [u], self) == IntroFrames(s, ids, self) + Introduction(s, u, self)
    decreases |ids|
  {
    if ids == [] {
      assert [] + [u] == [u] && [u][1..] == [];
    } else {
      assert (ids + [u])[1..] == ids[1..] + [u];
      IntroSnoc(s, ids[1..], u, self);
    }
  }

  /** The agent's visit puts the message in hand on one user's stream; nothing else touches a stream. */
  predicate Visits(s: State, l: Label, u: Id) {
    l == Agent(Visit) && AgentEnabled(s, Visit) && u == s.list[s.agent.next] && LoggedIn(s, u)
  }

  lemma OutgoingStream(s: State, l: Label, u: Id)
    requires s.agent.Walking? ==> s.agent.packet.ignore == None
    ensures Stream(Outgoing(s, l, u)) == if Visits(s, l, u) then [(|s.delivered|, s.agent.packet.frame)] else []
  {
    if Visits(s, l, u) {
      var e := Sent(s.agent.packet.frame, Broadcast(|s.delivered|));
      assert Outgoing(s, l, u) == [e];
      assert [e][..0] == [];
    } else {
      IntroFramesAre(s, s.list, u);
      DirectIsSilent(Outgoing(s, l, u));
    }
  }

  /** How far into the accepted order a user's stream reaches. */
  function Reach(s: State, u: Id): nat
    requires u in s.sess
  {
    if s.sess[u].loggedIn then Visited(s, u) else s.sess[u].leftAt
  }

  predicate Heard(s: State, u: Id)
    requires u in s.sess
  {
    var x := s.sess[u];
    && x.joinedAt <= Reach(s, u) <= |s.accepted|
    && Stream(x.log) == Stretch(s.accepted, x.joinedAt, Reach(s, u))
    && (x.nameLength == 0 ==> x.joinedAt == x.leftAt)
  }

  predicate Streams(s: State) {
    forall u :: u in s.sess ==> Heard(s, u)
  }

  /** How a user's reach moves: a visit extends it by one, a first login starts it afresh. */
  lemma ReachStep(s: State, l: Label, u: Id)
    requires Shape(s) && Flow(s) && Enabled(s, l) && u in s.sess
    ensures var t := Apply(s, l);
      if Visits(s, l, u) then Reach(t, u) == Reach(s, u) + 1 == |s.delivered| + 1
      else if l == Session(u, Login) && !s.sess[u].loggedIn then Reach(t, u) == |s.delivered|
      else Reach(t, u) == Reach(s, u)
  {
    var t := Apply(s, l);
    assert t.sess[u] == SessionAfter(s, l, u);
    if l == Agent(Visit) {
      var k := s.agent.next;
      assert s.list[..k + 1] == s.list[..k] + [s.list[k]];
      assert s.list[k] !in s.list[..k];
    } else if l == Agent(Unlock) {
      assert s.list[..s.agent.next] == s.list;
    }
  }

  lemma RecordFields(s: State, l: Label, u: Id)
    requires Enabled(s, l) && u in s.sess && SessionOk(s.sess[u])
    ensures var x, y := s.sess[u], SessionAfter(s, l, u);
      && y.log == x.log + Outgoing(s, l, u)
      && y.joinedAt == (if l == Session(u, Login) && !x.loggedIn then |s.delivered| else x.joinedAt)
      && (y.nameLength == 0 ==> x.nameLength == 0 && y.joinedAt == x.joinedAt && y.leftAt == x.leftAt)
      && (l == Session(u, Login) && !x.loggedIn ==> x.nameLength == 0)
  {
  }

  /** A stream stays a stretch when it is kept, extended by the next message, or empty and restarted. */
  lemma HeardKept(s: State, t: State, u: Id, out: seq<Sent>)
    requires u in s.sess && u in t.sess && Heard(s, u)
    requires s.accepted <= t.accepted && Reach(t, u) <= |t.accepted|
    requires t.sess[u].log == s.sess[u].log + out
    requires t.sess[u].nameLength == 0 ==> t.sess[u].joinedAt == t.sess[u].leftAt
    requires
      var from, to, from', to' := s.sess[u].joinedAt, Reach(s, u), t.sess[u].joinedAt, Reach(t, u);
      || (from' == from && to' == to && Stream(out) == [])
      || (from' == from && to' == to + 1 && Stream(out) == [(to, t.accepted[to].frame)])
      || (from == to && from' == to' && Stream(out) == [])
    ensures Heard(t, u)
  {
    StreamConcat(s.sess[u].log, out);
  }

  lemma InHandIs(s: State)
    requires Flow(s)
    ensures forall p :: InHand(s.agent) == [p] ==>
      |s.delivered| < |s.accepted| && s.accepted[|s.delivered|] == p && Queueable(p)
    ensures s.agent.Walking? ==> InHand(s.agent) == [s.agent.packet]
  {
    forall p | InHand(s.agent) == [p]
      ensures |s.delivered| < |s.accepted| && s.accepted[|s.delivered|] == p && Queueable(p)
    {
      assert s.accepted[|s.delivered|] == p;
      assert p in s.accepted;
    }
  }

  lemma NothingIgnored(s: State)
    requires Flow(s)
    ensures s.agent.Walking? ==> s.agent.packet.ignore == None
  {
    InHandIs(s);
  }

  /** A visit brings the next message of the accepted order. */
  lemma VisitIsNext(s: State, l: Label, u: Id)
    requires Flow(s) && Enabled(s, l) && u in s.sess
    ensures s.accepted <= Apply(s, l).accepted
    ensures Visits(s, l, u) ==>
      |s.delivered| < |Apply(s, l).accepted| && s.agent.packet.frame == Apply(s, l).accepted[|s.delivered|].frame
    ensures |s.delivered| <= |Apply(s, l).accepted|
  {
    InHandIs(s);
  }

  lemma HeardStep(s: State, l: Label, u: Id)
    requires Shape(s) && Flow(s) && Enabled(s, l) && u in s.sess && Heard(s, u)
    ensures Heard(Apply(s, l), u)
  {
    NothingIgnored(s);
    VisitIsNext(s, l, u);
    assert SessionOk(s.sess[u]);
    RecordFields(s, l, u);
    ReachStep(s, l, u);
    OutgoingStream(s, l, u);
    assert Apply(s, l).sess[u] == SessionAfter(s, l, u);
    HeardKept(s, Apply(s, l), u, Outgoing(s, l, u));
  }

  lemma StreamsStep(s: State, l: Label)
    requires Shape(s) && Flow(s) && Streams(s) && Enabled(s, l)
    ensures Streams(Apply(s, l))
  {
    forall u | u in s.sess
      ensures Heard(Apply(s, l), u)
    {
      HeardStep(s, l, u);
    }
  }
}
