/**
 The rosters clients build from join and departure frames. Joins travel through the
 queue, departures do not, and newcomers are told of the others directly; this module
 proves that the three together converge, and on which schedules.
 */
module ChatRoster {
  import opened CText
  import opened ChatModel
  import opened ChatFlow
  import opened ChatNames
  import opened ChatDeparture

  // ---------------------------------------------------------------- folding frames into a roster

  function Absorb(roster: set<Text>, frame: Frame): set<Text> {
    match frame
    case UserAdded(name) => roster + {name}
    case UserRemoved(name, _) => roster - {name}
    case _ => roster
  }

  function Fold(roster: set<Text>, log: seq<Sent>): set<Text> {
    if log == [] then roster else Absorb(Fold(roster, log[..|log| - 1]), log[|log| - 1].frame)
  }

  /** What a client that follows the frames it is sent believes. */
  function Roster(log: seq<Sent>): set<Text> { Fold({}, log) }

  lemma {:induction false} FoldConcat(roster: set<Text>, a: seq<Sent>, b: seq<Sent>)
    ensures Fold(roster, a + b) == Fold(Fold(roster, a), b)
  {
    if b == [] {
      assert a + b == a;
    } else {
      var n := |b| - 1;
      assert (a + b)[..|a + b| - 1] == a + b[..n];
      FoldConcat(roster, a, b[..n]);
    }
  }

  lemma {:induction false} FoldOther(roster: set<Text>, log: seq<Sent>)
    requires forall e :: e in log ==> !e.frame.UserAdded? && !e.frame.UserRemoved?
    ensures Fold(roster, log) == roster
  {
    if log != [] { FoldOther(roster, log[..|log| - 1]); }
  }

  lemma FoldOne(roster: set<Text>, e: Sent)
    ensures Fold(roster, [e]) == Absorb(roster, e.frame)
  {
    assert [e][..0] == [];
  }

  /** The names of the logged-in users of `ids` other than `self`. */
  function NamesOf(s: State, ids: seq<Id>, self: Id): set<Text> {
    set u | u in ids && u != self && LoggedIn(s, u) :: Shown(s, u)
  }

  lemma NamesOfCons(s: State, ids: seq<Id>, self: Id)
    requires ids != []
    ensures NamesOf(s, ids, self) ==
      NamesOf(s, ids[1..], self) + if ids[0] != self && LoggedIn(s, ids[0]) then {Shown(s, ids[0])} else {}
  {
    assert forall u :: u in ids <==> u == ids[0] || u in ids[1..];
  }

  lemma {:induction false} FoldIntro(s: State, ids: seq<Id>, self: Id, roster: set<Text>)
    ensures Fold(roster, IntroFrames(s, ids, self)) == roster + NamesOf(s, ids, self)
    decreases |ids|
  {
    if ids == [] {
    } else {
      var rest := IntroFrames(s, ids[1..], self);
      NamesOfCons(s, ids, self);
      if ids[0] != self && LoggedIn(s, ids[0]) {
        var e := Sent(UserAdded(Shown(s, ids[0])), Direct(self));
        FoldConcat(roster, [e], rest);
        FoldOne(roster, e);
        FoldIntro(s, ids[1..], self, roster + {Shown(s, ids[0])});
      } else {
        assert [] + rest == rest;
        FoldIntro(s, ids[1..], self, roster);
      }
    }
  }

  // ---------------------------------------------------------------- what one step does to a roster

  /** The names a step adds to the roster of `u`. */
  function Added(s: State, l: Label, u: Id): set<Text> {
    if Visits(s, l, u) && s.agent.packet.frame.UserAdded? then {s.agent.packet.frame.name}
    else if l == Session(u, Introduce) && u in s.sess then NamesOf(s, s.list, u)
    else {}
  }

  function Dropped(s: State, l: Label, u: Id): set<Text> {
    if l.Session? && Departs(s, l, u, l.id) then {Shown(s, l.id)} else {}
  }

  lemma OutgoingRoster(s: State, l: Label, u: Id, roster: set<Text>)
    requires Enabled(s, l)
    requires forall p :: p in InHand(s.agent) ==> Queueable(p)
    ensures Fold(roster, Outgoing(s, l, u)) == roster + Added(s, l, u) - Dropped(s, l, u)
  {
    var out := Outgoing(s, l, u);
    if Visits(s, l, u) {
      assert s.agent.packet in InHand(s.agent);
      assert out == [Sent(s.agent.packet.frame, Broadcast(|s.delivered|))];
      FoldOne(roster, out[0]);
    } else if l.Session? && Departs(s, l, u, l.id) {
      assert |out| == 1 && out == [out[0]];
      FoldOne(roster, out[0]);
    } else if l == Session(u, Introduce) {
      FoldIntro(s, s.list, u, roster);
    } else {
      FoldOther(roster, out);
    }
  }

  // ---------------------------------------------------------------- calm schedules

  /** The names announced in accepted messages from a place on. */
  function Pending(accepted: seq<Packet>, from: nat): set<Text> {
    set j | from <= j < |accepted| && accepted[j].frame.UserAdded? :: accepted[j].frame.name
  }

  /** Logged out, but the departure walk has not run yet. */
  predicate Leaving(s: State, u: Id) {
    u in s.sess && s.sess[u].phase.LoggedOut? && s.sess[u].nameLength > 0
  }

  predicate Live(s: State, u: Id) { LoggedIn(s, u) || Leaving(s, u) }

  function LiveNames(s: State): set<Text> { set u | u in s.sess && Live(s, u) :: Shown(s, u) }

  function OnlineNames(s: State): set<Text> { set u | u in s.sess && LoggedIn(s, u) :: Shown(s, u) }

  predicate Unannounced(phase: Phase) { phase.Announcing? || (phase.Posting? && phase.join) }

  /** Somebody else, online or leaving, goes by the name of `x`. */
  ghost predicate HasNamesake(s: State, x: Id) {
    exists v :: v != x && Live(s, v) && Shown(s, v) == Shown(s, x)
  }

  /** Everybody online whose join is out and who goes by this name. */
  ghost predicate Announced(s: State, n: Text) {
    exists v :: LoggedIn(s, v) && Shown(s, v) == n && !Unannounced(s.sess[v].phase)
  }

  /** A departure walk takes a name off the rosters that is to stay off, or that is about to come back. */
  ghost predicate CalmDeparture(s: State, x: Id) {
    && (Shown(s, x) in Pending(s.accepted, |s.delivered|) ==> HasNamesake(s, x))
    && (Announced(s, Shown(s, x)) ==> Shown(s, x) in Pending(s.accepted, |s.delivered|))
  }

  /**
   The schedules on which rosters converge: a session logs in once; no join finds the queue
   full; a name that is still to be announced when its owner's departure walk runs has a new
   owner, and if the new owner's join is out it is still on its way. Names need not be unique.
   */
  ghost predicate Calm(s: State, l: Label) {
    l.Session? && l.id in s.sess ==>
      match l.step
      case CheckName(raw) => !LoggedIn(s, l.id)
      case AnnounceCheck => |s.queue| < QUEUE_CAPACITY
      case Notify => s.sess[l.id].nameLength > 0 ==> CalmDeparture(s, l.id)
      case _ => true
  }

  /** Nobody who is online stands between another check and login. */
  ghost predicate LiveOk(s: State) {
    forall u :: Checked(s, u) ==> !LoggedIn(s, u)
  }

  /** What `u` knows, or is sure to be told. */
  function Knowledge(s: State, u: Id): set<Text>
    requires u in s.sess
  {
    Roster(s.sess[u].log) + Pending(s.accepted, Visited(s, u))
  }

  /** `u` has been, or will be by what is queued, told of `v`. */
  predicate Knows(s: State, u: Id, v: Id)
    requires u in s.sess
  {
    Shown(s, v) in Knowledge(s, u)
  }

  /** `v` has been announced, and `u` has had its introduction. */
  predicate Due(s: State, u: Id, v: Id)
    requires u in s.sess && v in s.sess
  {
    !Unannounced(s.sess[v].phase) && (u == v || !Joining(s.sess[u].phase))
  }

  ghost predicate RosterOk(s: State) {
    && Pending(s.accepted, |s.delivered|) <= LiveNames(s)
    && (forall u :: LoggedIn(s, u) ==> Roster(s.sess[u].log) <= LiveNames(s))
    && (forall u, v :: LoggedIn(s, u) && LoggedIn(s, v) && Due(s, u, v) ==> Knows(s, u, v))
    && (forall u :: u in s.sess && s.sess[u].nameLength == 0 ==> Roster(s.sess[u].log) == {})
  }

  // ---------------------------------------------------------------- who is live

  lemma LiveRecord(s: State, id: Id, step: Step)
    requires id in s.sess && StepEnabled(s, id, step) && SessionOk(s.sess[id])
    ensures var x, y := s.sess[id], RecordAfter(s, id, step);
      && (y.phase.LoggedOut? <==> step.Logout?)
      && (x.phase.LoggedOut? ==> step.Notify?)
      && (step.Notify? ==> !x.loggedIn && !y.loggedIn && x.phase.LoggedOut?)
      && (x.loggedIn && !y.loggedIn ==> step.Logout?)
      && (!step.Login? ==> y.buf == x.buf && y.nameLength == x.nameLength)
  {
  }

  lemma LiveFields(s: State, l: Label, u: Id)
    requires Enabled(s, l) && u in s.sess && SessionOk(s.sess[u])
    ensures var x, y := s.sess[u], SessionAfter(s, l, u);
      && (y.phase.LoggedOut? && y.nameLength > 0 ==>
            x.nameLength > 0 && (x.phase.LoggedOut? || (l == Session(u, Logout) && x.loggedIn)))
      && (x.loggedIn && !y.loggedIn ==> y.phase.LoggedOut? && y.nameLength > 0)
      && (x.phase.LoggedOut? ==> y.phase.LoggedOut? || l == Session(u, Notify))
      && (l == Session(u, Notify) ==> !x.loggedIn && !y.loggedIn && !y.phase.LoggedOut?)
      && (l != Session(u, Login) ==> y.buf == x.buf && y.nameLength == x.nameLength)
  {
    if l.Session? && l.id == u { LiveRecord(s, u, l.step); }
  }

  lemma LiveFacts(s: State, l: Label, u: Id)
    requires Shape(s) && Enabled(s, l)
    ensures var t := Apply(s, l);
      && (Leaving(t, u) ==>
            (Leaving(s, u) || (l == Session(u, Logout) && LoggedIn(s, u))) && Shown(t, u) == Shown(s, u))
      && (Live(t, u) && l != Session(u, Login) ==>
            Live(s, u) && Shown(t, u) == Shown(s, u) && l != Session(u, Notify))
      && (Live(s, u) && l != Session(u, Login) && l != Session(u, Notify) ==> Live(t, u))
      && (l == Session(u, Login) ==>
            && Checked(s, u) && LoggedIn(t, u)
            && Shown(t, u) == CStr(s.sess[u].phase.raw))
  {
    if u in s.sess {
      assert SessionOk(s.sess[u]);
      LiveFields(s, l, u);
      NameFields(s, l, u);
      ShownStep(s, l, u);
      assert Apply(s, l).sess[u] == SessionAfter(s, l, u);
    }
  }

  lemma LiveStep(s: State, l: Label)
    requires LiveOk(s) && Enabled(s, l) && Calm(s, l)
    ensures LiveOk(Apply(s, l))
  {
    var t := Apply(s, l);
    forall u | Checked(t, u)
      ensures !LoggedIn(t, u)
    {
      NameFacts(s, l, u);
    }
  }

  // ---------------------------------------------------------------- rosters stay right

  /** The name a departure walk takes off the rosters. */
  function Parted(s: State, l: Label): set<Text> {
    if l.Session? && l.step.Notify? && Leaving(s, l.id) then {Shown(s, l.id)} else {}
  }

  lemma LiveNamesStep(s: State, l: Label)
    requires Shape(s) && LiveOk(s) && Enabled(s, l)
    ensures LiveNames(s) - Parted(s, l) <= LiveNames(Apply(s, l))
  {
    var t := Apply(s, l);
    forall n | n in LiveNames(s) - Parted(s, l)
      ensures n in LiveNames(t)
    {
      var u :| u in s.sess && Live(s, u) && Shown(s, u) == n;
      LiveFacts(s, l, u);
      assert Live(t, u);
    }
  }

  /** A parted name that is still to be announced belongs to somebody else too. */
  lemma PartedPending(s: State, l: Label)
    requires Shape(s) && Enabled(s, l) && Calm(s, l)
    ensures Parted(s, l) * Pending(s.accepted, |s.delivered|) <= LiveNames(Apply(s, l))
  {
    if Parted(s, l) * Pending(s.accepted, |s.delivered|) != {} {
      assert HasNamesake(s, l.id);
      var v :| v != l.id && Live(s, v) && Shown(s, v) == Shown(s, l.id);
      LiveFacts(s, l, v);
      assert Live(Apply(s, l), v);
    }
  }

  lemma RosterFact(s: State, l: Label, u: Id)
    requires Flow(s) && Enabled(s, l) && u in s.sess
    ensures Roster(Apply(s, l).sess[u].log) == Roster(s.sess[u].log) + Added(s, l, u) - Dropped(s, l, u)
  {
    assert forall p :: p in InHand(s.agent) ==> p in s.accepted;
    OutgoingRoster(s, l, u, Roster(s.sess[u].log));
    FoldConcat({}, s.sess[u].log, Outgoing(s, l, u));
  }

  /** The name whose join a step puts on the queue. */
  function Joined(s: State, l: Label): set<Text> {
    if l.Session? && l.step.Post? && l.id in s.sess && s.sess[l.id].phase.Posting? && s.sess[l.id].phase.join
    then {Shown(s, l.id)} else {}
  }

  lemma PendingGrows(s: State, l: Label, from: nat, to: nat)
    requires Shape(s) && Enabled(s, l) && from <= to
    ensures Pending(Apply(s, l).accepted, to) <= Pending(s.accepted, from) + Joined(s, l)
    ensures from == to <= |s.accepted| ==>
      Pending(Apply(s, l).accepted, to) == Pending(s.accepted, from) + Joined(s, l)
  {
    if l.Session? && l.step.Post? {
      assert SessionOk(s.sess[l.id]);
      var packet := s.sess[l.id].phase.packet;
      var accepted := s.accepted + [packet];
      assert Apply(s, l).accepted == accepted;
      assert accepted[|s.accepted|] == packet;
      assert forall j :: 0 <= j < |s.accepted| ==> accepted[j] == s.accepted[j];
    } else {
      assert Apply(s, l).accepted == s.accepted;
    }
  }

  lemma JoinedIsLive(s: State, l: Label)
    requires Shape(s) && Enabled(s, l)
    ensures Joined(s, l) <= LiveNames(Apply(s, l))
  {
    if Joined(s, l) != {} {
      assert SessionOk(s.sess[l.id]);
      LiveFacts(s, l, l.id);
      assert Live(Apply(s, l), l.id);
    }
  }

  lemma PendingStep(s: State, l: Label)
    requires Shape(s) && LiveOk(s) && RosterOk(s) && Enabled(s, l) && Calm(s, l)
    ensures var t := Apply(s, l); Pending(t.accepted, |t.delivered|) <= LiveNames(t)
  {
    var t := Apply(s, l);
    PendingGrows(s, l, |s.delivered|, |t.delivered|);
    LiveNamesStep(s, l);
    JoinedIsLive(s, l);
    PartedPending(s, l);
  }

  lemma AddedAreLive(s: State, l: Label, u: Id)
    requires Shape(s) && Flow(s) && RosterOk(s) && Enabled(s, l)
    ensures Added(s, l, u) <= LiveNames(s)
  {
    if Visits(s, l, u) {
      InHandIs(s);
      assert s.accepted[|s.delivered|] == s.agent.packet;
    }
  }

  /** Everyone online hears of every departure. */
  lemma PartedIsDropped(s: State, l: Label, u: Id)
    requires Shape(s) && Enabled(s, l) && LoggedIn(s, u)
    ensures Parted(s, l) == Dropped(s, l, u)
  {
    assert SessionOk(s.sess[u]) && u in Online(s);
  }

  lemma SoundStep(s: State, l: Label, u: Id)
    requires Shape(s) && Flow(s) && LiveOk(s) && RosterOk(s) && Enabled(s, l)
    requires LoggedIn(s, u) && l != Session(u, Login)
    ensures var t := Apply(s, l); Roster(t.sess[u].log) <= LiveNames(t)
  {
    LiveNamesStep(s, l);
    RosterFact(s, l, u);
    AddedAreLive(s, l, u);
    PartedIsDropped(s, l, u);
  }

  lemma SoundLogin(s: State, u: Id)
    requires Shape(s) && Flow(s) && LiveOk(s) && RosterOk(s) && Enabled(s, Session(u, Login))
    ensures Roster(Apply(s, Session(u, Login)).sess[u].log) == {}
  {
    assert SessionOk(s.sess[u]) && Checked(s, u);
    RosterFact(s, Session(u, Login), u);
  }

  lemma EmptyStep(s: State, l: Label, u: Id)
    requires Shape(s) && Flow(s) && RosterOk(s) && Enabled(s, l) && u in s.sess
    requires Apply(s, l).sess[u].nameLength == 0
    ensures Roster(Apply(s, l).sess[u].log) == {}
  {
    assert SessionOk(s.sess[u]);
    NameFields(s, l, u);
    RosterFact(s, l, u);
  }

  lemma VisitedStep(s: State, l: Label, u: Id)
    requires Shape(s) && Flow(s) && Enabled(s, l) && LoggedIn(s, u) && LoggedIn(Apply(s, l), u)
    ensures Visited(s, u) <= |s.accepted|
    ensures Visited(Apply(s, l), u) == Visited(s, u) + if Visits(s, l, u) then 1 else 0
    ensures Visits(s, l, u) ==> Visited(s, u) == |s.delivered|
  {
    ReachStep(s, l, u);
    InHandIs(s);
  }

  lemma PendingNext(accepted: seq<Packet>, d: nat)
    requires d < |accepted|
    ensures Pending(accepted, d) ==
      Pending(accepted, d + 1) + if accepted[d].frame.UserAdded? then {accepted[d].frame.name} else {}
  {
  }

  lemma PendingVisited(s: State, l: Label, u: Id)
    requires Flow(s) && Enabled(s, l) && Visits(s, l, u)
    ensures Pending(s.accepted, |s.delivered|) <= Pending(s.accepted, |s.delivered| + 1) + Added(s, l, u)
    ensures Joined(s, l) == {} && Apply(s, l).accepted == s.accepted
  {
    InHandIs(s);
    PendingNext(s.accepted, |s.delivered|);
  }

  lemma PendingVisit(s: State, l: Label, u: Id)
    requires Shape(s) && Flow(s) && Enabled(s, l) && LoggedIn(s, u) && LoggedIn(Apply(s, l), u)
    ensures var t := Apply(s, l);
      Pending(s.accepted, Visited(s, u)) + Joined(s, l) <= Pending(t.accepted, Visited(t, u)) + Added(s, l, u)
  {
    VisitedStep(s, l, u);
    if Visits(s, l, u) {
      PendingVisited(s, l, u);
    } else {
      PendingGrows(s, l, Visited(s, u), Visited(s, u));
    }
  }

  /** Knowledge is only reduced by departures. */
  lemma KnowledgeKept(s: State, l: Label, u: Id)
    requires Shape(s) && Flow(s) && Enabled(s, l) && LoggedIn(s, u) && LoggedIn(Apply(s, l), u)
    ensures Knowledge(s, u) + Joined(s, l) + Added(s, l, u) - Dropped(s, l, u) <= Knowledge(Apply(s, l), u)
  {
    PendingVisit(s, l, u);
    RosterFact(s, l, u);
  }

  lemma DueFields(s: State, l: Label, u: Id)
    requires Enabled(s, l) && u in s.sess && s.sess[u].loggedIn
    ensures var x, y := s.sess[u].phase, SessionAfter(s, l, u).phase;
      && (Unannounced(x) && !Unannounced(y) ==>
            Joined(s, l) == {Shown(s, u)} || (l == Session(u, AnnounceCheck) && |s.queue| >= QUEUE_CAPACITY))
      && (Joining(x) && !Joining(y) ==> l == Session(u, Introduce))
  {
  }

  /** Who is known by a name that a departure takes off the rosters has a join on its way. */
  lemma DroppedComesBack(s: State, l: Label, u: Id, v: Id)
    requires Shape(s) && Enabled(s, l) && Calm(s, l) && LoggedIn(s, u) && LoggedIn(s, v)
    requires LoggedIn(Apply(s, l), v) && !Unannounced(Apply(s, l).sess[v].phase)
    requires Shown(s, v) in Dropped(s, l, u)
    ensures Shown(s, v) in Pending(Apply(s, l).accepted, Visited(Apply(s, l), u))
  {
    var t := Apply(s, l);
    assert SessionOk(s.sess[l.id]) && Leaving(s, l.id) && l.step.Notify?;
    assert t.sess[v].phase == s.sess[v].phase && t.accepted == s.accepted && t.delivered == s.delivered;
    assert Announced(s, Shown(s, v));
    assert Visited(t, u) == |s.delivered|;
  }

  lemma KnowsBefore(s: State, l: Label, u: Id, v: Id)
    requires Shape(s) && RosterOk(s) && Enabled(s, l) && Calm(s, l)
    requires LoggedIn(s, u) && LoggedIn(s, v) && Due(Apply(s, l), u, v)
    ensures Shown(s, v) in Knowledge(s, u) + Joined(s, l) + Added(s, l, u)
  {
    assert SessionOk(s.sess[v]) && v in s.list;
    DueFields(s, l, u);
    DueFields(s, l, v);
    if Due(s, u, v) { assert Knows(s, u, v); }
  }

  lemma KnowsStep(s: State, l: Label, u: Id, v: Id)
    requires Shape(s) && Flow(s) && LiveOk(s) && RosterOk(s) && Enabled(s, l) && Calm(s, l)
    requires var t := Apply(s, l); LoggedIn(t, u) && LoggedIn(t, v) && Due(t, u, v)
    requires l != Session(u, Login) && l != Session(v, Login)
    ensures Knows(Apply(s, l), u, v)
  {
    NameFacts(s, l, u);
    NameFacts(s, l, v);
    ShownStep(s, l, v);
    KnowledgeKept(s, l, u);
    KnowsBefore(s, l, u, v);
    if Shown(s, v) in Dropped(s, l, u) { DroppedComesBack(s, l, u, v); }
  }

  lemma AddedIsPending(s: State, l: Label, v: Id)
    requires Flow(s) && Enabled(s, l) && l != Session(v, Introduce)
    ensures Added(s, l, v) <= Pending(s.accepted, |s.delivered|)
  {
    if Visits(s, l, v) {
      InHandIs(s);
      assert s.accepted[|s.delivered|] == s.agent.packet;
    }
  }

  lemma RosterStep(s: State, l: Label)
    requires Shape(s) && Flow(s) && LiveOk(s) && RosterOk(s) && Enabled(s, l) && Calm(s, l)
    ensures RosterOk(Apply(s, l))
  {
    var t := Apply(s, l);
    PendingStep(s, l);
    forall u | LoggedIn(t, u)
      ensures Roster(t.sess[u].log) <= LiveNames(t)
    {
      NameFacts(s, l, u);
      if l == Session(u, Login) { SoundLogin(s, u); } else { SoundStep(s, l, u); }
    }
    forall u, v | LoggedIn(t, u) && LoggedIn(t, v) && Due(t, u, v)
      ensures Knows(t, u, v)
    {
      KnowsStep(s, l, u, v);
    }
    forall u | u in t.sess && t.sess[u].nameLength == 0
      ensures Roster(t.sess[u].log) == {}
    {
      if u in s.sess { EmptyStep(s, l, u); }
    }
  }
}
