/**
 Why a session's walk over the list can be one step although others may log out during it:
 a logout takes no lock and clears only its own flag, so the walk sends to the same users,
 in the same order, as one that runs at once after those have logged out that it did not
 find online any more.
 */
module ChatWalk {
  import opened ChatModel
  import opened Lists

  /** The walk looks at its next user, or a session logs out. */
  datatype Event = See | Out(u: Id)

  /** Whom the walk finds online, user by user, with logouts in between. */
  function Found(ids: seq<Id>, online: set<Id>, events: seq<Event>): seq<Id>
    decreases |events|
  {
    if events == [] then []
    else
      match events[0]
      case Out(u) => Found(ids, online - {u}, events[1..])
      case See =>
        if ids == [] then []
        else (if ids[0] in online then [ids[0]] else []) + Found(ids[1..], online, events[1..])
  }

  /** Those who log out before the walk has looked at them. */
  function Early(ids: seq<Id>, events: seq<Event>): (early: set<Id>)
    ensures forall u :: u in early ==> u in ids
    decreases |events|
  {
    if events == [] then {}
    else
      match events[0]
      case Out(u) => Early(ids, events[1..]) + if u in ids then {u} else {}
      case See => if ids == [] then {} else Early(ids[1..], events[1..])
  }

  /** The walk gets to the end of the list. */
  predicate Complete(ids: seq<Id>, events: seq<Event>)
    decreases |events|
  {
    if events == [] then ids == []
    else
      match events[0]
      case Out(_) => Complete(ids, events[1..])
      case See => ids != [] && Complete(ids[1..], events[1..])
  }

  /** Whom a walk without interruption finds online. */
  function Those(ids: seq<Id>, online: set<Id>): seq<Id> {
    if ids == [] then [] else (if ids[0] in online then [ids[0]] else []) + Those(ids[1..], online)
  }

  lemma {:induction false} ThoseDepend(ids: seq<Id>, a: set<Id>, b: set<Id>)
    requires forall u :: u in ids ==> (u in a <==> u in b)
    ensures Those(ids, a) == Those(ids, b)
  {
    if ids != [] {
      assert ids[0] in ids && forall u :: u in ids[1..] ==> u in ids;
      ThoseDepend(ids[1..], a, b);
    }
  }

  lemma {:induction false} FoundIs(ids: seq<Id>, online: set<Id>, events: seq<Event>)
    requires Distinct(ids) && Complete(ids, events)
    ensures Found(ids, online, events) == Those(ids, online - Early(ids, events))
    decreases |events|
  {
    if events != [] {
      match events[0]
      case Out(u) =>
        FoundIs(ids, online - {u}, events[1..]);
        ThoseDepend(ids, online - {u} - Early(ids, events[1..]), online - Early(ids, events));
      case See =>
        FoundIs(ids[1..], online, events[1..]);
        assert ids[0] !in ids[1..];
    }
  }

  /** Logouts of these sessions, one after the other. */
  function Logouts(order: seq<Id>): seq<Label> {
    seq(|order|, i requires 0 <= i < |order| => Session(order[i], Logout))
  }

  lemma LogoutOne(s: State, u: Id, v: Id)
    requires Enabled(s, Session(u, Logout))
    ensures var t := Apply(s, Session(u, Logout));
      && t.list == s.list && LoggedIn(t, v) == (LoggedIn(s, v) && v != u) && Name(t, v) == Name(s, v)
      && (v != u && v in s.sess ==> v in t.sess && t.sess[v].phase == s.sess[v].phase)
  {
    if v in s.sess {
      assert Apply(s, Session(u, Logout)).sess[v] == SessionAfter(s, Session(u, Logout), v);
    }
  }

  lemma {:induction false} LogoutAll(s: State, order: seq<Id>, v: Id)
    requires Distinct(order) && forall u :: u in order ==> u in s.sess && s.sess[u].phase.Reading?
    ensures IsRun(s, Logouts(order))
    ensures var t := Exec(s, Logouts(order));
      t.list == s.list && LoggedIn(t, v) == (LoggedIn(s, v) && v !in order) && Name(t, v) == Name(s, v)
    decreases |order|
  {
    if order != [] {
      var labels, t := Logouts(order), Apply(s, Session(order[0], Logout));
      assert labels[0] == Session(order[0], Logout) && labels[1..] == Logouts(order[1..]);
      forall u | u in order[1..]
        ensures u in t.sess && t.sess[u].phase.Reading?
      {
        LogoutOne(s, order[0], u);
      }
      LogoutOne(s, order[0], v);
      LogoutAll(t, order[1..], v);
    }
  }

  /** The interrupted walk finds whom an uninterrupted one finds once the early leavers have logged out. */
  lemma WalkWithLeavers(s: State, events: seq<Event>, order: seq<Id>)
    requires Distinct(s.list) && Complete(s.list, events)
    requires Distinct(order) && forall u :: u in order <==> u in Early(s.list, events)
    requires forall u :: u in order ==> u in s.sess && s.sess[u].phase.Reading?
    ensures IsRun(s, Logouts(order))
    ensures Found(s.list, Online(s), events) == Those(s.list, Online(Exec(s, Logouts(order))))
  {
    LogoutAll(s, order, 0);
    var t := Exec(s, Logouts(order));
    FoundIs(s.list, Online(s), events);
    forall u | u in s.list
      ensures u in Online(s) - Early(s.list, events) <==> u in Online(t)
    {
      LogoutAll(s, order, u);
    }
    ThoseDepend(s.list, Online(s) - Early(s.list, events), Online(t));
  }
}
