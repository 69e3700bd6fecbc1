/**
 Departure notices over whole runs: one per leaving session, only if it ever logged in,
 once to everyone else who is online when the walk runs, and never to the leaver.
 */
module ChatDeparture {
  import opened CText
  import opened ChatModel
  import opened ChatFlow
  import opened ChatNames

  predicate IsNotice(e: Sent, w: Id) { e.frame.UserRemoved? && e.via == Direct(w) }

  /** How often a log holds the departure notice of session `w`. */
  function Notices(log: seq<Sent>, w: Id): nat {
    if log == [] then 0
    else Notices(log[..|log| - 1], w) + if IsNotice(log[|log| - 1], w) then 1 else 0
  }

  lemma {:induction false} NoticesConcat(a: seq<Sent>, b: seq<Sent>, w: Id)
    ensures Notices(a + b, w) == Notices(a, w) + Notices(b, w)
  {
    if b == [] {
      assert a + b == a;
    } else {
      var n := |b| - 1;
      assert (a + b)[..|a + b| - 1] == a + b[..n];
      NoticesConcat(a, b[..n], w);
    }
  }

  lemma {:induction false} NoticesNone(log: seq<Sent>, w: Id)
    requires forall e :: e in log ==> !IsNotice(e, w)
    ensures Notices(log, w) == 0
  {
    if log != [] { NoticesNone(log[..|log| - 1], w); }
  }

  /** The step in which session `w` tells `u` that it leaves. */
  predicate Departs(s: State, l: Label, u: Id, w: Id) {
    l == Session(w, Notify) && w in s.sess && s.sess[w].nameLength > 0 && u in Online(s) && u != w
  }

  lemma OutgoingNotices(s: State, l: Label, u: Id, w: Id)
    requires Enabled(s, l)
    requires forall p :: p in InHand(s.agent) ==> Queueable(p)
    ensures Notices(Outgoing(s, l, u), w) == if Departs(s, l, u, w) then 1 else 0
  {
    if Departs(s, l, u, w) {
      var e := Outgoing(s, l, u)[0];
      assert Outgoing(s, l, u) == [e];
      assert [e][..0] == [];
    } else {
      IntroFramesAre(s, s.list, u);
      NoticesNone(Outgoing(s, l, u), w);
    }
  }

  predicate ToldOk(s: State, w: Id)
    requires w in s.sess
  {
    var x := s.sess[w];
    && x.told <= s.sess.Keys - {w}
    && (x.told != {} ==> (x.phase.Notified? || x.phase.Gone?) && x.nameLength > 0)
  }

  /** Whose login was accepted has a name length, and is shown under an accepted name. */
  ghost predicate LoginsOk(s: State, w: Id) {
    && ((w in s.sess && s.sess[w].nameLength > 0) <==> exists n :: (w, n) in s.logins)
    && (w in s.sess && s.sess[w].nameLength > 0 ==> (w, Shown(s, w)) in s.logins)
  }

  predicate NoticesOk(s: State, u: Id, w: Id)
    requires u in s.sess
  {
    Notices(s.sess[u].log, w) == if w in s.sess && u in s.sess[w].told then 1 else 0
  }

  ghost predicate Departures(s: State) {
    && (forall w :: w in s.sess ==> ToldOk(s, w))
    && (forall w :: LoginsOk(s, w))
    && (forall u, w :: u in s.sess ==> NoticesOk(s, u, w))
  }

  lemma ToldFields(s: State, l: Label, w: Id)
    requires Enabled(s, l) && w in s.sess
    ensures var x, y := s.sess[w], SessionAfter(s, l, w);
      && y.told == (if l == Session(w, Notify) && x.nameLength > 0 then Online(s) - {w} else x.told)
      && (y.nameLength > 0 <==> x.nameLength > 0 || l == Session(w, Login))
      && (l == Session(w, Notify) ==> y.phase.Notified?)
      && (x.phase.Notified? || x.phase.Gone? ==> y.phase.Notified? || y.phase.Gone?)
  {
  }

  lemma ToldStep(s: State, l: Label, w: Id)
    requires Shape(s) && Enabled(s, l) && w in s.sess && ToldOk(s, w)
    ensures ToldOk(Apply(s, l), w)
  {
    ToldFields(s, l, w);
    assert Online(s) <= s.sess.Keys;
  }

  lemma LoginsStep(s: State, l: Label, w: Id)
    requires Enabled(s, l) && LoginsOk(s, w)
    ensures LoginsOk(Apply(s, l), w)
  {
    var t := Apply(s, l);
    assert s.logins <= t.logins;
    if w in s.sess { ToldFields(s, l, w); }
    ShownStep(s, l, w);
    if l == Session(w, Login) { assert (w, CStr(s.sess[w].phase.raw)) in t.logins; }
  }

  predicate IsTold(s: State, u: Id, w: Id) { w in s.sess && u in s.sess[w].told }

  lemma NoticesGrow(s: State, t: State, u: Id, w: Id, out: seq<Sent>)
    requires u in s.sess && u in t.sess && NoticesOk(s, u, w) && t.sess[u].log == s.sess[u].log + out
    requires if Notices(out, w) == 1 then IsTold(t, u, w) && !IsTold(s, u, w)
             else Notices(out, w) == 0 && IsTold(t, u, w) == IsTold(s, u, w)
    ensures NoticesOk(t, u, w)
  {
    NoticesConcat(s.sess[u].log, out, w);
  }

  lemma ToldAfter(s: State, l: Label, u: Id, w: Id)
    requires Enabled(s, l) && (w in s.sess ==> ToldOk(s, w))
    ensures if Departs(s, l, u, w) then IsTold(Apply(s, l), u, w) && !IsTold(s, u, w)
            else u in s.sess ==> IsTold(Apply(s, l), u, w) == IsTold(s, u, w)
  {
    if w in s.sess { ToldFields(s, l, w); }
  }

  lemma NoticesStep(s: State, l: Label, u: Id, w: Id)
    requires Flow(s) && Enabled(s, l) && u in s.sess && NoticesOk(s, u, w)
    requires w in s.sess ==> ToldOk(s, w)
    ensures NoticesOk(Apply(s, l), u, w)
  {
    assert forall p :: p in InHand(s.agent) ==> p in s.accepted;
    OutgoingNotices(s, l, u, w);
    ToldAfter(s, l, u, w);
    NoticesGrow(s, Apply(s, l), u, w, Outgoing(s, l, u));
  }

  lemma DeparturesStep(s: State, l: Label)
    requires Shape(s) && Flow(s) && Departures(s) && Enabled(s, l)
    ensures Departures(Apply(s, l))
  {
    var t := Apply(s, l);
    forall w | w in t.sess
      ensures ToldOk(t, w)
    {
      if w in s.sess { ToldStep(s, l, w); }
    }
    forall w
      ensures LoginsOk(t, w)
    {
      LoginsStep(s, l, w);
    }
    forall u, w | u in t.sess
      ensures NoticesOk(t, u, w)
    {
      if u in s.sess {
        NoticesStep(s, l, u, w);
      } else if w in s.sess {
        ToldFields(s, l, w);
        assert ToldOk(s, w);
      }
    }
  }
}
