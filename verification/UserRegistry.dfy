/**
 The user list (src/user.c): a doubly linked list on the heap with front and back
 pointers. Each method below is one critical section or one call made of two.
 */
module UserRegistry {
  import opened CText
  import opened Lists

  /** A `User` record. */
  class Node {
    var prev: Node?
    var next: Node?
    const thread: nat
    const sock: nat
    const name: array<Byte>
    var nameLength: nat
    var loggedIn: bool
    var shouldShutdown: bool

    /** As `memset` leaves it. */
    constructor (thread: nat, sock: nat)
      ensures this.thread == thread && this.sock == sock && prev == null && next == null
      ensures fresh(name) && name[..] == Zeros(NAME_ARRAY)
      ensures nameLength == 0 && !loggedIn && !shouldShutdown
    {
      this.thread := thread;
      this.sock := sock;
      prev, next := null, null;
      name := new Byte[NAME_ARRAY](_ => NUL);
      nameLength, loggedIn, shouldShutdown := 0, false, false;
    }
  }

  /** A record of the list, identified by the thread that created it. */
  datatype Rec = Rec(owner: nat, sock: nat)

  /** What a walk over the list reads of a record: the name stored, and as far as frames show it. */
  datatype Entry = Entry(sock: nat, name: Text, shown: Text, online: bool)

  /** The entry's user is online under this name. */
  predicate Goes(e: Entry, name: Text) { e.online && e.name == name }

  function Sockets(nodes: seq<Node>): seq<nat> {
    seq(|nodes|, i requires 0 <= i < |nodes| => nodes[i].sock)
  }

  function Recs(nodes: seq<Node>): seq<Rec> {
    seq(|nodes|, i requires 0 <= i < |nodes| => Rec(nodes[i].thread, nodes[i].sock))
  }

  function Socks(list: seq<Rec>): seq<nat> {
    seq(|list|, i requires 0 <= i < |list| => list[i].sock)
  }

  lemma SocksOfRecs(nodes: seq<Node>)
    ensures Socks(Recs(nodes)) == Sockets(nodes)
  {
  }

  lemma RecsRemove(nodes: seq<Node>, k: nat)
    requires k < |nodes|
    ensures Recs(RemoveAt(nodes, k)) == RemoveAt(Recs(nodes), k)
  {
  }

  /** Where the walk from the front meets a socket first, or the length. */
  function FirstAt(sockets: seq<nat>, sock: nat): (k: nat)
    ensures k <= |sockets|
    ensures k < |sockets| ==> sockets[k] == sock
    ensures sock !in sockets[..k]
    ensures k == |sockets| <==> sock !in sockets
  {
    if sockets == [] then 0
    else if sockets[0] == sock then 0
    else
      assert sockets == [sockets[0]] + sockets[1..];
      1 + FirstAt(sockets[1..], sock)
  }

  class Registry {
    var front: Node?
    var back: Node?
    ghost var nodes: seq<Node>

    ghost predicate Valid()
      reads this, nodes`prev, nodes`next
    {
      && Distinct(nodes)
      && (nodes == [] ==> front == null && back == null)
      && (nodes != [] ==> front == nodes[0] && back == nodes[|nodes| - 1])
      && (forall i {:trigger nodes[i].prev} :: 0 <= i < |nodes| ==> nodes[i].prev == if i == 0 then null else nodes[i - 1])
      && (forall i {:trigger nodes[i].next} :: 0 <= i < |nodes| ==> nodes[i].next == if i == |nodes| - 1 then null else nodes[i + 1])
    }

    constructor ()
      ensures Valid() && nodes == []
    {
      front := null;
      back := null;
      nodes := [];
    }

    /** `f_find_User`: the first node with that socket, or NULL. */
    method Find(sock: nat) returns (found: Node?)
      requires Valid()
      ensures found == null <==> sock !in Sockets(nodes)
      ensures var k := FirstAt(Sockets(nodes), sock); found != null ==> k < |nodes| && found == nodes[k]
    {
      var pointer := front;
      ghost var k := 0;
      while pointer != null && pointer.sock != sock
        invariant k <= |nodes|
        invariant pointer == if k < |nodes| then nodes[k] else null
        invariant forall i :: 0 <= i < k ==> nodes[i].sock != sock
        decreases |nodes| - k
      {
        pointer := pointer.next;
        k := k + 1;
      }
      found := pointer;
      ghost var sockets := Sockets(nodes);
      if pointer != null {
        assert sockets[k] == sock;
      }
    }

    /** The list, as a walk reads it. */
    ghost predicate Lists(roll: seq<Entry>)
      reads `nodes, nodes`loggedIn, nodes`nameLength, set n | n in nodes :: n.name
    {
      && |nodes| == |roll|
      && forall i :: 0 <= i < |roll| ==>
           && nodes[i].sock == roll[i].sock && CStr(nodes[i].name[..]) == roll[i].name
           && Seen(nodes[i].name[..], nodes[i].nameLength) == roll[i].shown && nodes[i].loggedIn == roll[i].online
    }

    /**
     `is_name_free`: walk from `start`, the front as it was read before the lock was taken, until
     a logged-in user has the name. If there was no front the code does not even take the lock.
     */
    method IsNameFree(start: Node?, name: Text, ghost roll: seq<Entry>) returns (free: bool)
      requires Valid() && Lists(roll) && (start != null ==> start == front)
      ensures start == null ==> free
      ensures start != null ==> (free <==> forall e :: e in roll ==> !(e.online && e.name == name))
    {
      if start == null { return true; }
      var pointer := start;
      ghost var k := 0;
      while pointer != null
        invariant k <= |nodes| && pointer == if k < |nodes| then nodes[k] else null
        invariant forall e :: e in roll[..k] ==> !Goes(e, name)
        decreases |nodes| - k
      {
        if CStr(pointer.name[..]) == name && pointer.loggedIn {
          assert roll[k] in roll && Goes(roll[k], name);
          return false;
        }
        pointer := pointer.next;
        k := k + 1;
      }
      assert roll[..k] == roll && forall e :: e in roll ==> !Goes(e, name);
      return true;
    }

    /** The kick walk: stop at the first logged-in user of that name. */
    method FindOnline(name: Text, ghost roll: seq<Entry>) returns (target: Node?, ghost k: nat)
      requires Valid() && Lists(roll)
      ensures target == null <==> forall e :: e in roll ==> !(e.online && e.name == name)
      ensures target != null ==> target.loggedIn && CStr(target.name[..]) == name
      ensures k <= |roll| && forall e :: e in roll[..k] ==> !Goes(e, name)
      ensures if target == null then k == |roll| else k < |nodes| && target == nodes[k] && Goes(roll[k], name)
    {
      target := front;
      k := 0;
      while target != null
        invariant k <= |nodes| && target == if k < |nodes| then nodes[k] else null
        invariant forall e :: e in roll[..k] ==> !Goes(e, name)
        decreases |nodes| - k
      {
        if CStr(target.name[..]) == name && target.loggedIn {
          assert roll[k] in roll && Goes(roll[k], name);
          break;
        }
        target := target.next;
        k := k + 1;
      }
      if target == null { assert roll[..k] == roll && forall e :: e in roll ==> !Goes(e, name); }
    }

    /** The locked half of `create_User`. */
    method Append(thread: nat, sock: nat) returns (added: Node)
      requires Valid()
      modifies this, nodes`prev, nodes`next
      ensures Valid() && fresh(added) && fresh(added.name)
      ensures added.thread == thread && added.sock == sock
      ensures added.name[..] == Zeros(NAME_ARRAY) && added.nameLength == 0 && !added.loggedIn && !added.shouldShutdown
      ensures nodes == old(nodes) + [added]
    {
      added := new Node(thread, sock);
      if front == null {
        front := added;
        back := added;
      } else {
        back.next := added;
        added.prev := back;
        back := added;
      }
      nodes := nodes + [added];
    }

    /** The locked half of `remove_User`: the only element, the first, the last, or one in the middle. */
    method Unlink(target: Node, ghost k: nat)
      requires Valid() && k < |nodes| && nodes[k] == target
      modifies this, nodes`prev, nodes`next
      ensures Valid() && nodes == RemoveAt(old(nodes), k)
    {
      if front == back {
        front := null;
        back := null;
      } else if target == front {
        front := front.next;
        front.prev := null;
      } else if target == back {
        back := back.prev;
        back.next := null;
      } else {
        target.prev.next := target.next;
        target.next.prev := target.prev;
      }
      nodes := RemoveAt(nodes, k);
    }

    /** `create_User` as one atomic call: append unless the socket is in use. */
    method Create(thread: nat, sock: nat) returns (added: Node?)
      requires Valid()
      modifies this, nodes`prev, nodes`next
      ensures Valid()
      ensures added == null <==> sock in old(Sockets(nodes))
      ensures added == null ==> nodes == old(nodes)
      ensures added != null ==> fresh(added) && added.thread == thread && added.sock == sock
      ensures added != null ==> nodes == old(nodes) + [added]
      ensures added != null ==> fresh(added.name) && added.name[..] == Zeros(NAME_ARRAY)
      ensures added != null ==> added.nameLength == 0 && !added.loggedIn && !added.shouldShutdown
    {
      var found := Find(sock);
      if found != null { return null; }
      added := Append(thread, sock);
    }

    /** `remove_User` as one atomic call: unlink the first node with that socket, if there is one. */
    method Remove(sock: nat) returns (removed: bool)
      requires Valid()
      modifies this, nodes`prev, nodes`next
      ensures Valid()
      ensures removed <==> sock in old(Sockets(nodes))
      ensures !removed ==> nodes == old(nodes)
      ensures removed ==> nodes == RemoveAt(old(nodes), FirstAt(old(Sockets(nodes)), sock))
    {
      var found := Find(sock);
      if found == null { return false; }
      Unlink(found, FirstAt(Sockets(nodes), sock));
      removed := true;
    }

    /** Follow `next` from a node, up to `fuel` nodes. */
    ghost function Forward(n: Node?, fuel: nat): seq<Node>
      requires Valid() && (n != null ==> n in nodes)
      reads this, nodes
    {
      if n == null || fuel == 0 then [] else [n] + Forward(n.next, fuel - 1)
    }

    ghost function Backward(n: Node?, fuel: nat): seq<Node>
      requires Valid() && (n != null ==> n in nodes)
      reads this, nodes
    {
      if n == null || fuel == 0 then [] else [n] + Backward(n.prev, fuel - 1)
    }

    lemma {:induction false} ForwardFrom(i: nat, fuel: nat)
      requires Valid() && i <= |nodes| && fuel >= |nodes| - i
      ensures Forward(if i < |nodes| then nodes[i] else null, fuel) == nodes[i..]
      decreases |nodes| - i
    {
      if i < |nodes| { ForwardFrom(i + 1, fuel - 1); }
    }

    lemma {:induction false} BackwardFrom(i: nat, fuel: nat)
      requires Valid() && i <= |nodes| && fuel >= i
      ensures Backward(if i > 0 then nodes[i - 1] else null, fuel) == Reversed(nodes[..i])
    {
      if i > 0 {
        BackwardFrom(i - 1, fuel - 1);
        ReversedSnoc(nodes[..i - 1], nodes[i - 1]);
        assert nodes[..i] == nodes[..i - 1] + [nodes[i - 1]];
      }
    }

    /** Both chains end, and they are mirror images of the list. */
    lemma MirrorImages(fuel: nat)
      requires Valid() && fuel >= |nodes|
      ensures Forward(front, fuel) == nodes
      ensures Backward(back, fuel) == Reversed(nodes)
    {
      ForwardFrom(0, fuel);
      BackwardFrom(|nodes|, fuel);
      assert nodes[..|nodes|] == nodes;
    }
  }

  lemma SocksAppend(list: seq<Rec>, r: Rec)
    ensures Socks(list + [r]) == Socks(list) + [r.sock]
  {
  }

  lemma SocksRemove(list: seq<Rec>, k: nat)
    requires k < |list| && Distinct(Socks(list))
    ensures Socks(RemoveAt(list, k)) == RemoveAt(Socks(list), k) && Distinct(Socks(RemoveAt(list, k)))
    ensures forall r :: r in RemoveAt(list, k) <==> r in list && r != list[k]
  {
    var socks := Socks(list);
    assert Socks(RemoveAt(list, k)) == RemoveAt(socks, k);
    forall r | r in list && r != list[k]
      ensures r in RemoveAt(list, k)
    {
      var i :| 0 <= i < |list| && list[i] == r;
      assert RemoveAt(list, k)[if i < k then i else i - 1] == r;
    }
    forall r | r in RemoveAt(list, k)
      ensures r in list && r != list[k]
    {
      var i :| 0 <= i < |list| - 1 && RemoveAt(list, k)[i] == r;
      var j := if i < k then i else i + 1;
      assert list[j] == r && socks[j] != socks[k];
    }
  }

  // ---------------------------------------------------------------- sequences of atomic calls

  datatype Call = CreateUser(thread: nat, sock: nat) | RemoveUser(sock: nat) | FindUser(sock: nat)

  /** What an atomic call does to the list of records. */
  function Served(list: seq<Rec>, call: Call): seq<Rec> {
    match call
    case CreateUser(thread, sock) => if sock in Socks(list) then list else list + [Rec(thread, sock)]
    case RemoveUser(sock) =>
      var k := FirstAt(Socks(list), sock);
      if k == |list| then list else RemoveAt(list, k)
    case FindUser(_) => list
  }

  function ServedAll(calls: seq<Call>): seq<Rec> {
    if calls == [] then [] else Served(ServedAll(calls[..|calls| - 1]), calls[|calls| - 1])
  }

  lemma ServedKeepsDistinct(list: seq<Rec>, call: Call)
    requires Distinct(Socks(list))
    ensures Distinct(Socks(Served(list, call)))
    ensures call.RemoveUser? ==> call.sock !in Socks(Served(list, call))
    ensures call.CreateUser? ==> call.sock in Socks(Served(list, call))
  {
    match call
    case CreateUser(thread, sock) => SocksAppend(list, Rec(thread, sock));
    case RemoveUser(sock) =>
      var k := FirstAt(Socks(list), sock);
      if k < |list| { SocksRemove(list, k); }
    case FindUser(_) =>
  }

  /** Removing a user undoes creating it. */
  lemma RemoveUndoesCreate(list: seq<Rec>, thread: nat, sock: nat)
    requires sock !in Socks(list)
    ensures Served(Served(list, CreateUser(thread, sock)), RemoveUser(sock)) == list
  {
    var longer := list + [Rec(thread, sock)];
    SocksAppend(list, Rec(thread, sock));
    var k := FirstAt(Socks(longer), sock);
    assert Socks(longer)[|list|] == sock;
    assert RemoveAt(longer, |list|) == list;
  }

  method ServeOne(registry: Registry, call: Call)
    requires registry.Valid()
    modifies registry, registry.nodes
    ensures registry.Valid() && Recs(registry.nodes) == Served(old(Recs(registry.nodes)), call)
    ensures fresh(set n | n in registry.nodes && n !in old(registry.nodes))
  {
    ghost var nodes := registry.nodes;
    SocksOfRecs(nodes);
    match call {
      case CreateUser(thread, sock) =>
        var added := registry.Create(thread, sock);
      case RemoveUser(sock) =>
        if sock in Sockets(nodes) { RecsRemove(nodes, FirstAt(Sockets(nodes), sock)); }
        var removed := registry.Remove(sock);
      case FindUser(sock) =>
        var found := registry.Find(sock);
    }
  }

  /** Every sequence of atomic calls leaves the heap list well formed, with the records the calls say. */
  method Serve(calls: seq<Call>) returns (registry: Registry)
    ensures registry.Valid() && Recs(registry.nodes) == ServedAll(calls)
    ensures Distinct(Sockets(registry.nodes))
  {
    registry := new Registry();
    for n := 0 to |calls|
      invariant fresh(registry) && fresh(registry.nodes)
      invariant registry.Valid() && Recs(registry.nodes) == ServedAll(calls[..n])
      invariant Distinct(Socks(Recs(registry.nodes)))
    {
      assert calls[..n + 1][..n] == calls[..n];
      ServedKeepsDistinct(Recs(registry.nodes), calls[n]);
      ServeOne(registry, calls[n]);
    }
    assert calls[..|calls|] == calls;
    SocksOfRecs(registry.nodes);
  }
}
