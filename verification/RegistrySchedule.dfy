/**
 `create_User` and `remove_User` find under the lock, release it, and lock again to act.
 This module interleaves those halves over any number of threads: the list stays well
 formed if no two pending creates share a socket and threads remove only their own
 record, and the heap list follows the schedule step by step. The same schedules say when
 the walk of `is_name_free`, from a front read before the lock was taken, is safe.
 */
module RegistrySchedule {
  import opened CText
  import opened Lists
  import opened UserRegistry

  type Thread = nat

  datatype Phase =
    | Fresh
    | Creating(sock: nat)
    | Refused
    | Owning(sock: nat)
    | Removing(rec: Rec)
    | Done

  datatype Label =
    | FindFree(t: Thread, sock: nat)
    | AppendHalf(t: Thread)
    | FindOwn(t: Thread, sock: nat)
    | UnlinkHalf(t: Thread)

  /** `dangling`: some unlink was given a record that was no longer in the list. */
  datatype State = State(list: seq<Rec>, phases: map<Thread, Phase>, dangling: bool)

  const Start: State := State([], map[], false)

  function PhaseOf(s: State, t: Thread): Phase {
    if t in s.phases then s.phases[t] else Fresh
  }

  predicate Enabled(s: State, l: Label) {
    match l
    case FindFree(t, _) => PhaseOf(s, t).Fresh?
    case AppendHalf(t) => PhaseOf(s, t).Creating?
    case FindOwn(t, _) => PhaseOf(s, t).Owning?
    case UnlinkHalf(t) => PhaseOf(s, t).Removing?
  }

  function IndexOf(list: seq<Rec>, rec: Rec): (k: nat)
    ensures k <= |list| && (k < |list| ==> list[k] == rec)
    ensures k == |list| <==> rec !in list
  {
    if list == [] then 0
    else if list[0] == rec then 0
    else assert list == [list[0]] + list[1..]; 1 + IndexOf(list[1..], rec)
  }

  function Apply(s: State, l: Label): State
    requires Enabled(s, l)
  {
    match l
    case FindFree(t, sock) =>
      s.(phases := s.phases[t := if sock in Socks(s.list) then Refused else Creating(sock)])
    case AppendHalf(t) =>
      var sock := PhaseOf(s, t).sock;
      s.(list := s.list + [Rec(t, sock)], phases := s.phases[t := Owning(sock)])
    case FindOwn(t, sock) =>
      var k := FirstAt(Socks(s.list), sock);
      s.(phases := s.phases[t := if k == |s.list| then Done else Removing(s.list[k])])
    case UnlinkHalf(t) =>
      var k := IndexOf(s.list, PhaseOf(s, t).rec);
      if k == |s.list| then s.(phases := s.phases[t := Done], dangling := true)
      else s.(list := RemoveAt(s.list, k), phases := s.phases[t := Done])
  }

  /** No two pending creates share a socket, and a thread removes the socket it owns. */
  ghost predicate Disciplined(s: State, l: Label) {
    match l
    case FindFree(t, sock) => forall v :: v != t ==> PhaseOf(s, v) != Creating(sock)
    case FindOwn(t, sock) => PhaseOf(s, t) == Owning(sock)
    case _ => true
  }

  ghost predicate PhaseOk(s: State, t: Thread) {
    match PhaseOf(s, t)
    case Creating(sock) => sock !in Socks(s.list) && forall v :: v != t ==> PhaseOf(s, v) != Creating(sock)
    case Owning(sock) => Rec(t, sock) in s.list
    case Removing(rec) => rec.owner == t && rec in s.list
    case _ => true
  }

  /** A listed record belongs to a thread that has not unlinked it yet. */
  predicate Owned(s: State, r: Rec) {
    PhaseOf(s, r.owner) == Owning(r.sock) || PhaseOf(s, r.owner) == Removing(r)
  }

  ghost predicate WellFormed(s: State) {
    && !s.dangling && Distinct(Socks(s.list))
    && (forall t :: PhaseOk(s, t))
    && (forall r :: r in s.list ==> Owned(s, r))
  }

  lemma SockIn(list: seq<Rec>, sock: nat)
    ensures sock in Socks(list) <==> exists r :: r in list && r.sock == sock
  {
    if sock in Socks(list) {
      var i :| 0 <= i < |list| && Socks(list)[i] == sock;
      assert list[i] in list;
    }
    if r :| r in list && r.sock == sock {
      var i :| 0 <= i < |list| && list[i] == r;
      assert Socks(list)[i] == sock;
    }
  }

  /** A create's second half keeps the sockets distinct exactly when its socket is still absent. */
  lemma AppendKeepsDistinct(s: State, t: Thread)
    requires Distinct(Socks(s.list)) && Enabled(s, AppendHalf(t))
    ensures Distinct(Socks(Apply(s, AppendHalf(t)).list)) <==> PhaseOf(s, t).sock !in Socks(s.list)
  {
    var sock := PhaseOf(s, t).sock;
    SocksAppend(s.list, Rec(t, sock));
    var after := Socks(s.list) + [sock];
    if sock in Socks(s.list) {
      var i :| 0 <= i < |s.list| && Socks(s.list)[i] == sock;
      assert after[i] == after[|s.list|];
    }
  }

  /** With distinct sockets, a thread that looks for its own socket finds its own record. */
  lemma FindsOwn(s: State, t: Thread, sock: nat)
    requires WellFormed(s) && PhaseOf(s, t) == Owning(sock)
    ensures var k := FirstAt(Socks(s.list), sock); k < |s.list| && s.list[k] == Rec(t, sock)
  {
    assert PhaseOk(s, t);
    SockIn(s.list, sock);
    var i :| 0 <= i < |s.list| && s.list[i] == Rec(t, sock);
    var k := FirstAt(Socks(s.list), sock);
    assert Socks(s.list)[i] == Socks(s.list)[k];
  }

  lemma PhaseStep(s: State, l: Label, t: Thread)
    requires WellFormed(s) && Enabled(s, l) && Disciplined(s, l)
    ensures PhaseOk(Apply(s, l), t)
  {
    assert PhaseOk(s, t);
    var after := Apply(s, l);
    forall v | v != t && PhaseOf(after, t).Creating?
      ensures PhaseOf(after, v) != PhaseOf(after, t)
    {
      assert v != l.t ==> PhaseOf(after, v) == PhaseOf(s, v);
      assert t != l.t ==> PhaseOf(after, t) == PhaseOf(s, t);
    }
    match l
    case FindFree(u, sock) =>
    case AppendHalf(u) =>
      assert PhaseOk(s, u);
      SocksAppend(s.list, Rec(u, PhaseOf(s, u).sock));
    case FindOwn(u, sock) => FindsOwn(s, u, sock);
    case UnlinkHalf(u) =>
      assert PhaseOk(s, u);
      var k := IndexOf(s.list, PhaseOf(s, u).rec);
      SocksRemove(s.list, k);
      if PhaseOf(s, t).Creating? {
        SockIn(s.list, PhaseOf(s, t).sock);
        SockIn(RemoveAt(s.list, k), PhaseOf(s, t).sock);
      }
  }

  lemma OwnedStep(s: State, l: Label, r: Rec)
    requires WellFormed(s) && Enabled(s, l) && Disciplined(s, l) && r in Apply(s, l).list
    ensures Owned(Apply(s, l), r)
  {
    assert PhaseOk(s, l.t);
    assert r in s.list ==> Owned(s, r);
    match l
    case FindFree(u, sock) =>
    case AppendHalf(u) =>
    case FindOwn(u, sock) => FindsOwn(s, u, sock);
    case UnlinkHalf(u) => SocksRemove(s.list, IndexOf(s.list, PhaseOf(s, u).rec));
  }

  lemma WellFormedStep(s: State, l: Label)
    requires WellFormed(s) && Enabled(s, l) && Disciplined(s, l)
    ensures WellFormed(Apply(s, l))
  {
    forall r | r in Apply(s, l).list
      ensures Owned(Apply(s, l), r)
    {
      OwnedStep(s, l, r);
    }
    forall t
      ensures PhaseOk(Apply(s, l), t)
    {
      PhaseStep(s, l, t);
    }
    assert PhaseOk(s, l.t);
    if l.AppendHalf? { AppendKeepsDistinct(s, l.t); }
    if l.UnlinkHalf? { SocksRemove(s.list, IndexOf(s.list, PhaseOf(s, l.t).rec)); }
  }

  ghost predicate Schedule(s: State, labels: seq<Label>)
    decreases |labels|
  {
    labels == [] ||
    (Enabled(s, labels[0]) && Disciplined(s, labels[0]) && Schedule(Apply(s, labels[0]), labels[1..]))
  }

  ghost function Exec(s: State, labels: seq<Label>): State
    requires Schedule(s, labels)
    decreases |labels|
  {
    if labels == [] then s else Exec(Apply(s, labels[0]), labels[1..])
  }

  /** Every disciplined schedule keeps the sockets distinct and never unlinks a record that is gone. */
  lemma {:induction false} SchedulesAreSafe(s: State, labels: seq<Label>)
    requires WellFormed(s) && Schedule(s, labels)
    ensures WellFormed(Exec(s, labels))
    decreases |labels|
  {
    if labels != [] {
      WellFormedStep(s, labels[0]);
      SchedulesAreSafe(Apply(s, labels[0]), labels[1..]);
    }
  }

  /** Two creates that both look before either appends put their common socket in the list twice. */
  lemma SharedSocketDuplicates(s: State, a: Thread, b: Thread, sock: nat) returns (t: State)
    requires a != b && PhaseOf(s, a).Fresh? && PhaseOf(s, b).Fresh? && sock !in Socks(s.list)
    ensures var s1 := Apply(s, FindFree(a, sock));
      var s2 := Apply(s1, FindFree(b, sock));
      var s3 := Apply(s2, AppendHalf(a));
      t == Apply(s3, AppendHalf(b)) && !Distinct(Socks(t.list))
  {
    var s1 := Apply(s, FindFree(a, sock));
    var s2 := Apply(s1, FindFree(b, sock));
    var s3 := Apply(s2, AppendHalf(a));
    t := Apply(s3, AppendHalf(b));
    var n := |s.list|;
    assert t.list == s.list + [Rec(a, sock), Rec(b, sock)];
    assert Socks(t.list)[n] == Socks(t.list)[n + 1];
  }

  // ---------------------------------------------------------------- a front read before the lock

  /** What `is_name_free` reads of the list before it takes the lock. */
  function FrontOf(s: State): Option<Rec> {
    if s.list == [] then None else Some(s.list[0])
  }

  /** Its walk, made later, starts at a record that is still there; with no front there is no walk. */
  predicate WalkIsSafe(front: Option<Rec>, s: State) {
    front.Some? ==> front.value in s.list
  }

  lemma FrontStep(s: State, l: Label)
    requires WellFormed(s) && Enabled(s, l) && Disciplined(s, l) && s.list != [] && l != UnlinkHalf(s.list[0].owner)
    ensures Apply(s, l).list != [] && Apply(s, l).list[0] == s.list[0]
  {
    assert PhaseOk(s, l.t);
  }

  lemma GoneStep(s: State, l: Label, t: Thread)
    requires WellFormed(s) && Enabled(s, l) && PhaseOf(s, t).Done?
    ensures PhaseOf(Apply(s, l), t).Done?
  {
  }

  /** A thread that has unlinked its record never has one again. */
  lemma {:induction false} GoneForGood(s: State, labels: seq<Label>, r: Rec)
    requires WellFormed(s) && Schedule(s, labels) && PhaseOf(s, r.owner).Done?
    ensures r !in Exec(s, labels).list
    decreases |labels|
  {
    if labels == [] {
      assert r in s.list ==> Owned(s, r);
    } else {
      WellFormedStep(s, labels[0]);
      GoneStep(s, labels[0], r.owner);
      GoneForGood(Apply(s, labels[0]), labels[1..], r);
    }
  }

  /**
   Whatever other threads do between the read and the walk, the walk is safe exactly when
   none of them unlinked the front that was read; and then it reads the whole list.
   */
  lemma {:induction false} FrontWalk(s: State, labels: seq<Label>)
    requires WellFormed(s) && Schedule(s, labels)
    ensures WalkIsSafe(FrontOf(s), Exec(s, labels)) <==> s.list == [] || UnlinkHalf(s.list[0].owner) !in labels
    ensures s.list != [] && WalkIsSafe(FrontOf(s), Exec(s, labels)) ==> FrontOf(Exec(s, labels)) == FrontOf(s)
    decreases |labels|
  {
    if s.list != [] && labels != [] {
      var l, rest := labels[0], labels[1..];
      assert labels == [l] + rest;
      WellFormedStep(s, l);
      if l == UnlinkHalf(s.list[0].owner) {
        GoneForGood(Apply(s, l), rest, s.list[0]);
      } else {
        FrontStep(s, l);
        FrontWalk(Apply(s, l), rest);
      }
    }
  }

  /** Any front but the reader's own can be gone by then. */
  lemma FrontCanGo(s: State, reader: Thread) returns (labels: seq<Label>)
    requires WellFormed(s) && s.list != [] && s.list[0].owner != reader
    ensures Schedule(s, labels) && (forall l :: l in labels ==> l.t != reader)
    ensures !WalkIsSafe(FrontOf(s), Exec(s, labels))
  {
    var r := s.list[0];
    var t := r.owner;
    assert Owned(s, r);
    if PhaseOf(s, t).Removing? {
      labels := [UnlinkHalf(t)];
      assert labels[1..] == [];
    } else {
      FindsOwn(s, t, r.sock);
      labels := [FindOwn(t, r.sock), UnlinkHalf(t)];
      assert labels[1..] == [UnlinkHalf(t)] && labels[1..][1..] == [];
    }
    FrontWalk(s, labels);
  }

  // ---------------------------------------------------------------- the heap follows the schedule

  /** The heap list shows the state, and removing threads carry pointers to their records. */
  ghost predicate Shows(registry: Registry, phases: map<Thread, Phase>, pointers: map<Thread, Node>, s: State)
    reads registry, registry.nodes
  {
    && registry.Valid() && Recs(registry.nodes) == s.list && phases == s.phases
    && forall t :: PhaseOf(s, t).Removing? ==>
         t in pointers && pointers[t] in registry.nodes
         && Rec(pointers[t].thread, pointers[t].sock) == PhaseOf(s, t).rec
  }

  /** With distinct sockets a record has one place only. */
  lemma PlaceOf(nodes: seq<Node>, n: Node)
    requires Distinct(Sockets(nodes)) && n in nodes
    ensures var k := IndexOf(Recs(nodes), Rec(n.thread, n.sock)); k < |nodes| && nodes[k] == n
  {
    var i :| 0 <= i < |nodes| && nodes[i] == n;
    assert Recs(nodes)[i] == Rec(n.thread, n.sock);
    var k := IndexOf(Recs(nodes), Rec(n.thread, n.sock));
    assert Sockets(nodes)[i] == Sockets(nodes)[k];
  }

  /** After an unlink, everyone else's pointer is still in the list. */
  lemma StillThere(nodes: seq<Node>, k: nat, n: Node)
    requires k < |nodes| && n in nodes && n != nodes[k]
    ensures n in RemoveAt(nodes, k)
  {
    var i :| 0 <= i < |nodes| && nodes[i] == n;
    assert RemoveAt(nodes, k)[if i < k then i else i - 1] == n;
  }

  method RunUnlink(registry: Registry, phases: map<Thread, Phase>, pointers: map<Thread, Node>, t: Thread,
        ghost s: State)
    returns (after: map<Thread, Phase>)
    requires WellFormed(s) && Shows(registry, phases, pointers, s) && Enabled(s, UnlinkHalf(t))
    modifies registry, registry.nodes
    ensures Shows(registry, after, pointers, Apply(s, UnlinkHalf(t)))
    ensures forall n :: n in registry.nodes ==> n in old(registry.nodes)
  {
    ghost var nodes := registry.nodes;
    ghost var k := IndexOf(s.list, phases[t].rec);
    SocksOfRecs(nodes);
    assert PhaseOk(s, t);
    PlaceOf(nodes, pointers[t]);
    registry.Unlink(pointers[t], k);
    RecsRemove(nodes, k);
    after := phases[t := Done];
    forall u | u != t && PhaseOf(s, u).Removing?
      ensures pointers[u] in registry.nodes
    {
      assert PhaseOk(s, u);
      StillThere(nodes, k, pointers[u]);
    }
  }

  /** One half, run on the heap list as the code runs it. */
  method RunHalf(registry: Registry, phases: map<Thread, Phase>, pointers: map<Thread, Node>, l: Label, ghost s: State)
    returns (phases': map<Thread, Phase>, pointers': map<Thread, Node>)
    requires WellFormed(s) && Shows(registry, phases, pointers, s) && Enabled(s, l) && Disciplined(s, l)
    modifies registry, registry.nodes
    ensures WellFormed(Apply(s, l)) && Shows(registry, phases', pointers', Apply(s, l))
    ensures fresh(set n | n in registry.nodes && n !in old(registry.nodes))
  {
    phases', pointers' := phases, pointers;
    WellFormedStep(s, l);
    SocksOfRecs(registry.nodes);
    match l {
      case FindFree(t, sock) =>
        var found := registry.Find(sock);
        phases' := phases[t := if found == null then Creating(sock) else Refused];
      case AppendHalf(t) =>
        var sock := phases[t].sock;
        var added := registry.Append(t, sock);
        phases' := phases[t := Owning(sock)];
      case FindOwn(t, sock) =>
        FindsOwn(s, t, sock);
        var found := registry.Find(sock);
        pointers' := pointers[t := found];
        phases' := phases[t := Removing(Rec(found.thread, found.sock))];
      case UnlinkHalf(t) =>
        phases' := RunUnlink(registry, phases, pointers, t, s);
    }
  }

  lemma ScheduleNext(s: State, labels: seq<Label>, n: nat)
    requires n < |labels| && Schedule(s, labels[n..])
    ensures Enabled(s, labels[n]) && Disciplined(s, labels[n])
    ensures Schedule(Apply(s, labels[n]), labels[n + 1..])
    ensures Exec(Apply(s, labels[n]), labels[n + 1..]) == Exec(s, labels[n..])
  {
    assert labels[n..][0] == labels[n] && labels[n..][1..] == labels[n + 1..];
  }

  /**
   Threads run their halves on the heap list in the order of a disciplined schedule; the
   list then holds exactly the records of the schedule's state, in order.
   */
  method RunSchedule(labels: seq<Label>) returns (registry: Registry)
    requires Schedule(Start, labels)
    ensures registry.Valid() && Recs(registry.nodes) == Exec(Start, labels).list
    ensures Distinct(Sockets(registry.nodes))
  {
    registry := new Registry();
    var phases: map<Thread, Phase> := map[];
    var pointers: map<Thread, Node> := map[];
    ghost var s := Start;
    assert labels[0..] == labels;
    for n := 0 to |labels|
      invariant fresh(registry) && fresh(registry.nodes)
      invariant WellFormed(s) && Shows(registry, phases, pointers, s)
      invariant Schedule(s, labels[n..]) && Exec(s, labels[n..]) == Exec(Start, labels)
    {
      ScheduleNext(s, labels, n);
      phases, pointers := RunHalf(registry, phases, pointers, labels[n], s);
      s := Apply(s, labels[n]);
    }
    SocksOfRecs(registry.nodes);
  }
}
