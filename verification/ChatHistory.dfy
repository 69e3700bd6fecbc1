/**
 What the state says is what the run did: who is marked as kicked, whether the chat is paused,
 who is connected and online, under which name a session was cleared, and when the agent walks
 the list can all be read off the steps of a run from the start.
 */
module ChatHistory {
  import opened CText
  import opened ChatModel
  import opened ChatFlow

  // ---------------------------------------------------------------- marked as kicked

  /** The kick walk stops at this user. */
  predicate Stops(s: State, u: Id, name: Text) { LoggedIn(s, u) && Name(s, u) == name }

  /** The kick walk for this name comes to `w` first. */
  predicate FoundFirst(s: State, ids: seq<Id>, name: Text, w: Id) {
    exists i ::
      0 <= i < |ids| && ids[i] == w && Stops(s, ids[i], name) && forall j :: 0 <= j < i ==> !Stops(s, ids[j], name)
  }

  lemma FoundInRest(s: State, ids: seq<Id>, name: Text, w: Id)
    requires ids != [] && !Stops(s, ids[0], name)
    ensures FoundFirst(s, ids, name, w) <==> FoundFirst(s, ids[1..], name, w)
  {
    var rest := ids[1..];
    if FoundFirst(s, ids, name, w) {
      var i :| 0 <= i < |ids| && ids[i] == w && Stops(s, ids[i], name)
        && forall j :: 0 <= j < i ==> !Stops(s, ids[j], name);
      assert rest[i - 1] == w;
      assert forall j :: 0 <= j < i - 1 ==> rest[j] == ids[j + 1];
    }
    if FoundFirst(s, rest, name, w) {
      var i :| 0 <= i < |rest| && rest[i] == w && Stops(s, rest[i], name)
        && forall j :: 0 <= j < i ==> !Stops(s, rest[j], name);
      assert ids[i + 1] == w;
      forall j | 0 <= j < i + 1
        ensures !Stops(s, ids[j], name)
      {
        if j > 0 { assert rest[j - 1] == ids[j]; }
      }
    }
  }

  lemma {:induction false} FirstIsTarget(s: State, ids: seq<Id>, name: Text, w: Id)
    ensures FoundFirst(s, ids, name, w) <==> KickTarget(s, ids, name) == Some(w)
  {
    if ids != [] {
      FirstIsTarget(s, ids[1..], name, w);
      if Stops(s, ids[0], name) {
        if FoundFirst(s, ids, name, w) {
          var i :| 0 <= i < |ids| && ids[i] == w && Stops(s, ids[i], name)
            && forall j :: 0 <= j < i ==> !Stops(s, ids[j], name);
          assert i == 0;
        }
      } else {
        FoundInRest(s, ids, name, w);
      }
    }
  }

  /** A session stored under the admin's name names somebody, and the walk comes to `w` first. */
  predicate KickedBy(s: State, l: Label, w: Id) {
    && l.Session? && l.step.Run? && l.step.command.KickUser?
    && Name(s, l.id) == s.admin && FoundFirst(s, s.list, l.step.command.name, w)
  }

  /** Some step of the run kicks `w`. */
  predicate KickedIn(s: State, labels: seq<Label>, w: Id)
    requires IsRun(s, labels)
    decreases |labels|
  {
    labels != [] && (KickedBy(s, labels[0], w) || KickedIn(Apply(s, labels[0]), labels[1..], w))
  }

  predicate Marked(s: State, w: Id) { w in s.sess && s.sess[w].shutdown }

  lemma KickedIsTarget(s: State, l: Label, w: Id)
    requires Enabled(s, l)
    ensures KickedBy(s, l, w) <==> Kicks(s, l) == Some(w)
  {
    if l.Session? && l.step.Run? && l.step.command.KickUser? { FirstIsTarget(s, s.list, l.step.command.name, w); }
  }

  lemma KickedIsKnown(s: State, l: Label, w: Id)
    requires KickedBy(s, l, w)
    ensures w in s.sess
  {
    var i :| 0 <= i < |s.list| && s.list[i] == w && Stops(s, s.list[i], l.step.command.name);
  }

  lemma MarkedStep(s: State, l: Label, w: Id)
    requires Shape(s) && Enabled(s, l)
    ensures Marked(Apply(s, l), w) <==> Marked(s, w) || l == Session(w, Malformed) || KickedBy(s, l, w)
  {
    KickedIsTarget(s, l, w);
    if KickedBy(s, l, w) { KickedIsKnown(s, l, w); }
    if w in s.sess { assert Apply(s, l).sess[w] == SessionAfter(s, l, w); }
  }

  lemma {:induction false} MarkedOver(s: State, labels: seq<Label>, w: Id)
    requires Shape(s) && IsRun(s, labels)
    ensures Marked(Exec(s, labels), w)
      <==> Marked(s, w) || Session(w, Malformed) in labels || KickedIn(s, labels, w)
    decreases |labels|
  {
    if labels != [] {
      MarkedStep(s, labels[0], w);
      ShapeStep(s, labels[0]);
      MarkedOver(Apply(s, labels[0]), labels[1..], w);
      assert labels == [labels[0]] + labels[1..];
    }
  }

  /** Who was kicked, by whom, in order. */
  lemma KicksStep(s: State, l: Label, w: Id, a: Id)
    requires Enabled(s, l)
    ensures Kick(w, a) in Apply(s, l).kicks
      <==> Kick(w, a) in s.kicks || (KickedBy(s, l, w) && l.id == a)
  {
    KickedIsTarget(s, l, w);
  }

  lemma {:induction false} KicksOver(s: State, labels: seq<Label>, w: Id)
    requires IsRun(s, labels)
    ensures (exists a :: Kick(w, a) in Exec(s, labels).kicks)
      <==> (exists a :: Kick(w, a) in s.kicks) || KickedIn(s, labels, w)
    decreases |labels|
  {
    if labels != [] {
      var l := labels[0];
      forall a
        ensures Kick(w, a) in Apply(s, l).kicks <==> Kick(w, a) in s.kicks || (KickedBy(s, l, w) && l.id == a)
      {
        KicksStep(s, l, w, a);
      }
      if KickedBy(s, l, w) { assert Kick(w, l.id) in Apply(s, l).kicks; }
      KicksOver(Apply(s, l), labels[1..], w);
    }
  }

  /**
   Over every run: a session is marked as kicked exactly if it sent a malformed message or a kick of
   the admin's came to it first.
   */
  lemma MarkedIsKicked(admin: Text, labels: seq<Label>, w: Id)
    requires admin != [] && IsRun(Init(admin), labels)
    ensures Marked(Exec(Init(admin), labels), w)
      <==> Session(w, Malformed) in labels || KickedIn(Init(admin), labels, w)
    ensures Marked(Exec(Init(admin), labels), w)
      <==> Session(w, Malformed) in labels || exists a :: Kick(w, a) in Exec(Init(admin), labels).kicks
  {
    MarkedOver(Init(admin), labels, w);
    KicksOver(Init(admin), labels, w);
  }

  // ---------------------------------------------------------------- paused, online, walking

  /** The last of a pause's and a resume's store to the flag was a pause's. */
  predicate PausedBy(labels: seq<Label>) {
    if labels == [] then false
    else
      var l := labels[|labels| - 1];
      if l.Session? && l.step.PauseSet? then true
      else if l.Session? && l.step.ResumeClear? then false
      else PausedBy(labels[..|labels| - 1])
  }

  lemma {:induction false} PausedIsLast(admin: Text, labels: seq<Label>)
    requires IsRun(Init(admin), labels)
    ensures Exec(Init(admin), labels).paused == PausedBy(labels)
  {
    if labels != [] {
      RunFront(Init(admin), labels);
      PausedIsLast(admin, labels[..|labels| - 1]);
    }
  }

  /** The session has logged in, and has not logged out since. */
  predicate OnlineBy(labels: seq<Label>, u: Id) {
    if labels == [] then false
    else
      var l := labels[|labels| - 1];
      if l == Session(u, Login) then true
      else if l == Session(u, Logout) then false
      else OnlineBy(labels[..|labels| - 1], u)
  }

  lemma OnlineStep(s: State, l: Label, u: Id)
    requires Enabled(s, l)
    ensures LoggedIn(Apply(s, l), u)
      == if l == Session(u, Login) then true else if l == Session(u, Logout) then false else LoggedIn(s, u)
  {
    if u in s.sess { assert Apply(s, l).sess[u] == SessionAfter(s, l, u); }
  }

  lemma {:induction false} OnlineIsLast(admin: Text, labels: seq<Label>, u: Id)
    requires IsRun(Init(admin), labels)
    ensures LoggedIn(Exec(Init(admin), labels), u) == OnlineBy(labels, u)
  {
    if labels != [] {
      RunFront(Init(admin), labels);
      OnlineStep(Exec(Init(admin), labels[..|labels| - 1]), labels[|labels| - 1], u);
      OnlineIsLast(admin, labels[..|labels| - 1], u);
    }
  }

  /** The agent has taken the user lock, and has not given it back since. */
  predicate WalkingBy(labels: seq<Label>) {
    if labels == [] then false
    else
      var l := labels[|labels| - 1];
      if l == Agent(Lock) then true else if l == Agent(Unlock) then false else WalkingBy(labels[..|labels| - 1])
  }

  lemma WalkingStep(s: State, l: Label)
    requires Enabled(s, l)
    ensures Apply(s, l).agent.Walking?
      == if l == Agent(Lock) then true else if l == Agent(Unlock) then false else s.agent.Walking?
  {
  }

  lemma {:induction false} WalkingIsLast(admin: Text, labels: seq<Label>)
    requires IsRun(Init(admin), labels)
    ensures Exec(Init(admin), labels).agent.Walking? == WalkingBy(labels)
  {
    if labels != [] {
      RunFront(Init(admin), labels);
      WalkingStep(Exec(Init(admin), labels[..|labels| - 1]), labels[|labels| - 1]);
      WalkingIsLast(admin, labels[..|labels| - 1]);
    }
  }

  /** The code does this under the user lock. */
  predicate TakesUserLock(l: Label) {
    match l
    case Connect(_) => true
    case Session(_, step) =>
      || step.RefuseLogin? || step.CheckName? || step.Login? || step.Introduce? || step.PauseTell? || step.ResumeTell?
      || step.Notify? || step.Remove? || (step.Run? && step.command.KickUser?)
    case Agent(_) => false
  }

  /** A walk delays exactly these. */
  lemma WalkDelays(s: State, l: Label)
    requires !l.Agent?
    ensures Enabled(s, l) <==> Enabled(s.(agent := Idle), l) && (TakesUserLock(l) ==> !s.agent.Walking?)
  {
  }

  /** In no run does anybody take the user lock while the agent walks the list. */
  lemma AgentWalksAlone(admin: Text, labels: seq<Label>, l: Label)
    requires IsRun(Init(admin), labels) && Enabled(Exec(Init(admin), labels), l) && TakesUserLock(l)
    ensures !WalkingBy(labels)
  {
    WalkingIsLast(admin, labels);
    WalkDelays(Exec(Init(admin), labels), l);
  }

  // ---------------------------------------------------------------- who is in the list

  function ConnectedIn(labels: seq<Label>): seq<Id> {
    if labels == [] then []
    else
      var l := labels[|labels| - 1];
      ConnectedIn(labels[..|labels| - 1]) + if l.Connect? then [l.id] else []
  }

  /** Without those that were removed. */
  function Remaining(ids: seq<Id>, labels: seq<Label>): seq<Id> {
    if ids == [] then []
    else
      var last := ids[|ids| - 1];
      Remaining(ids[..|ids| - 1], labels) + if Session(last, Remove) in labels then [] else [last]
  }

  lemma {:induction false} WithoutConcat(a: seq<Id>, b: seq<Id>, id: Id)
    ensures Without(a + b, id) == Without(a, id) + Without(b, id)
  {
    if a == [] {
      assert a + b == b;
    } else {
      assert (a + b)[1..] == a[1..] + b;
      WithoutConcat(a[1..], b, id);
    }
  }

  lemma {:induction false} RemainingAfter(ids: seq<Id>, labels: seq<Label>, l: Label)
    ensures Remaining(ids, labels + [l])
         == if l.Session? && l.step.Remove? then Without(Remaining(ids, labels), l.id) else Remaining(ids, labels)
  {
    if ids != [] {
      var n := |ids| - 1;
      RemainingAfter(ids[..n], labels, l);
      if l.Session? && l.step.Remove? {
        var last := if Session(ids[n], Remove) in labels then [] else [ids[n]];
        WithoutConcat(Remaining(ids[..n], labels), last, l.id);
        if last != [] { assert last[1..] == []; }
      }
    }
  }

  lemma KnownForGood(s: State, l: Label, u: Id)
    requires Enabled(s, l) && (u in s.sess || (l.Session? && l.id == u))
    ensures u in Apply(s, l).sess
  {
  }

  lemma RemovedIsKnown(s: State, labels: seq<Label>, id: Id)
    requires IsRun(s, labels) && (id in s.sess || Session(id, Remove) in labels)
    ensures id in Exec(s, labels).sess
    decreases |labels|
  {
    if labels != [] {
      assert labels == [labels[0]] + labels[1..];
      if id in s.sess || labels[0] == Session(id, Remove) { KnownForGood(s, labels[0], id); }
      RemovedIsKnown(Apply(s, labels[0]), labels[1..], id);
    }
  }

  lemma ListMoves(s: State, l: Label)
    requires Enabled(s, l)
    ensures Apply(s, l).list == if l.Connect? then s.list + [l.id]
                                else if l.Session? && l.step.Remove? then Without(s.list, l.id) else s.list
  {
  }

  lemma ConnectedSnoc(labels: seq<Label>, l: Label)
    ensures ConnectedIn(labels + [l]) == ConnectedIn(labels) + if l.Connect? then [l.id] else []
  {
    assert (labels + [l])[..|labels|] == labels;
  }

  lemma RemainingSnoc(ids: seq<Id>, id: Id, labels: seq<Label>)
    requires Session(id, Remove) !in labels
    ensures Remaining(ids + [id], labels) == Remaining(ids, labels) + [id]
  {
    assert (ids + [id])[..|ids|] == ids;
  }

  /** Who was connected and not removed. */
  function Listed(labels: seq<Label>): seq<Id> { Remaining(ConnectedIn(labels), labels) }

  lemma ListedNext(labels: seq<Label>, l: Label)
    requires l.Connect? ==> Session(l.id, Remove) !in labels
    ensures Listed(labels + [l]) == if l.Connect? then Listed(labels) + [l.id]
                                    else if l.Session? && l.step.Remove? then Without(Listed(labels), l.id)
                                    else Listed(labels)
  {
    ConnectedSnoc(labels, l);
    RemainingAfter(ConnectedIn(labels), labels, l);
    if l.Connect? {
      RemainingAfter(ConnectedIn(labels) + [l.id], labels, l);
      RemainingSnoc(ConnectedIn(labels), l.id, labels);
    } else {
      assert ConnectedIn(labels) + [] == ConnectedIn(labels);
    }
  }

  lemma ListedStep(s: State, before: seq<Label>, l: Label, labels: seq<Label>, t: State)
    requires Enabled(s, l) && t == Apply(s, l) && labels == before + [l]
    requires s.list == Listed(before) && (l.Connect? ==> Session(l.id, Remove) !in before)
    ensures t.list == Listed(labels)
  {
    ListMoves(s, l);
    ListedNext(before, l);
  }

  lemma NotRemovedYet(s: State, labels: seq<Label>, l: Label)
    requires IsRun(s, labels) && l.Connect? && Enabled(Exec(s, labels), l)
    ensures Session(l.id, Remove) !in labels
  {
    if Session(l.id, Remove) in labels { RemovedIsKnown(s, labels, l.id); }
  }

  lemma {:induction false} ListedOver(s: State, labels: seq<Label>)
    requires IsRun(s, labels) && s.list == []
    ensures Exec(s, labels).list == Listed(labels)
  {
    if labels != [] {
      var l, before := labels[|labels| - 1], labels[..|labels| - 1];
      RunFront(s, labels);
      ListedOver(s, before);
      if l.Connect? { NotRemovedYet(s, before, l); }
      ListedStep(Exec(s, before), before, l, labels, Exec(s, labels));
    }
  }

  /** The list is in the order of connection, and holds those that are not removed yet. */
  lemma ListIsOrdered(admin: Text, labels: seq<Label>)
    requires IsRun(Init(admin), labels)
    ensures Exec(Init(admin), labels).list == Listed(labels)
  {
    ListedOver(Init(admin), labels);
  }

  // ---------------------------------------------------------------- under which name

  /** The bytes for which the last check of the session was passed. */
  function LastChecked(labels: seq<Label>, u: Id): Text {
    if labels == [] then []
    else
      var l := labels[|labels| - 1];
      if l.Session? && l.id == u && l.step.CheckName? then l.step.raw else LastChecked(labels[..|labels| - 1], u)
  }

  /** The name under which the last login of the session was accepted, or none. */
  function LastAccepted(labels: seq<Label>, u: Id): Text {
    if labels == [] then []
    else if labels[|labels| - 1] == Session(u, Login) then CStr(LastChecked(labels[..|labels| - 1], u))
    else LastAccepted(labels[..|labels| - 1], u)
  }

  lemma CheckedStep(s: State, l: Label, u: Id)
    requires Enabled(s, l) && u in Apply(s, l).sess
    ensures var t := Apply(s, l);
      t.sess[u].phase.NameChecked? ==>
        if l.Session? && l.id == u && l.step.CheckName? then t.sess[u].phase.raw == l.step.raw
        else u in s.sess && s.sess[u].phase == t.sess[u].phase
  {
    if u in s.sess { assert Apply(s, l).sess[u] == SessionAfter(s, l, u); }
  }

  /** A login stores the bytes that were checked last. */
  lemma {:induction false} StoresWhatWasChecked(admin: Text, labels: seq<Label>, u: Id)
    requires IsRun(Init(admin), labels)
    ensures var s := Exec(Init(admin), labels);
      u in s.sess && s.sess[u].phase.NameChecked? ==> s.sess[u].phase.raw == LastChecked(labels, u)
  {
    if labels != [] {
      RunFront(Init(admin), labels);
      StoresWhatWasChecked(admin, labels[..|labels| - 1], u);
      if u in Exec(Init(admin), labels).sess {
        CheckedStep(Exec(Init(admin), labels[..|labels| - 1]), labels[|labels| - 1], u);
      }
    }
  }

  /** Some login of the session was accepted under this name. */
  predicate AcceptedAs(labels: seq<Label>, u: Id, name: Text) {
    labels != [] &&
    var before := labels[..|labels| - 1];
    (labels[|labels| - 1] == Session(u, Login) && name == CStr(LastChecked(before, u))) || AcceptedAs(before, u, name)
  }

  lemma AcceptedMoves(s: State, l: Label, u: Id, name: Text)
    requires Enabled(s, l)
    ensures (u, name) in Apply(s, l).logins
      <==> (u, name) in s.logins || (l == Session(u, Login) && name == CStr(s.sess[u].phase.raw))
  {
  }

  /** The accepted logins are those of the run. */
  lemma {:induction false} LoginsAreAccepted(admin: Text, labels: seq<Label>, u: Id, name: Text)
    requires IsRun(Init(admin), labels)
    ensures (u, name) in Exec(Init(admin), labels).logins <==> AcceptedAs(labels, u, name)
  {
    if labels != [] {
      var before := labels[..|labels| - 1];
      RunFront(Init(admin), labels);
      LoginsAreAccepted(admin, before, u, name);
      StoresWhatWasChecked(admin, before, u);
      AcceptedMoves(Exec(Init(admin), before), labels[|labels| - 1], u, name);
    }
  }

  // ---------------------------------------------------------------- the threads' control flow

  /** The last step of a session, if it has made one. */
  function LastStep(labels: seq<Label>, u: Id): Option<Step> {
    if labels == [] then None
    else
      var l := labels[|labels| - 1];
      if l.Session? && l.id == u then Some(l.step) else LastStep(labels[..|labels| - 1], u)
  }

  /** What a message of the client can be, or the end of the connection. */
  predicate TopOfLoop(step: Step) {
    step.RefuseLogin? || step.CheckName? || step.ChatCheck? || step.Malformed? || step.Run? || step.Logout?
  }

  /** The steps that a client's thread may make after its last one, in the control flow of `client_Thread`. */
  predicate Follows(last: Option<Step>, step: Step) {
    match last
    case None => TopOfLoop(step)
    case Some(CheckName(_)) => step.Login?
    case Some(Login) => step.AnnounceCheck?
    case Some(AnnounceCheck) => step.Post? || step.Introduce?
    case Some(ChatCheck(_)) => step.Post? || TopOfLoop(step)
    case Some(Post) => step.Introduce? || TopOfLoop(step)
    case Some(Run(command)) =>
      (command.Pause? && step.PauseAcquire?) || (command.Resume? && step.ResumeTell?) || TopOfLoop(step)
    case Some(PauseAcquire) => step.PauseSet?
    case Some(PauseSet) => step.PauseTell?
    case Some(ResumeTell) => step.ResumePost?
    case Some(ResumePost) => step.ResumeClear?
    case Some(Logout) => step.Notify?
    case Some(Notify) => step.Remove?
    case Some(Remove) => false
    case Some(_) => TopOfLoop(step)
  }

  /** Where a session can stand after its last step. */
  predicate Stands(phase: Phase, last: Option<Step>) {
    match last
    case None => phase.Reading?
    case Some(CheckName(_)) => phase.NameChecked?
    case Some(Login) => phase.Announcing?
    case Some(AnnounceCheck) => (phase.Posting? && phase.join) || phase.Introducing?
    case Some(ChatCheck(_)) => (phase.Posting? && !phase.join) || phase.Reading?
    case Some(Post) => phase.Introducing? || phase.Reading?
    case Some(Run(command)) =>
      (command.Pause? && phase.PauseWaiting?) || (command.Resume? && phase.ResumeTelling?) || phase.Reading?
    case Some(PauseAcquire) => phase.PauseSetting?
    case Some(PauseSet) => phase.PauseTelling?
    case Some(ResumeTell) => phase.ResumePosting?
    case Some(ResumePost) => phase.ResumeClearing?
    case Some(Logout) => phase.LoggedOut?
    case Some(Notify) => phase.Notified?
    case Some(Remove) => phase.Gone?
    case Some(_) => phase.Reading?
  }

  lemma StandsAfter(s: State, u: Id, step: Step)
    requires u in s.sess && StepEnabled(s, u, step)
    ensures Stands(PhaseAfter(s, u, step), Some(step))
  {
  }

  lemma StandsStep(s: State, l: Label, u: Id, last: Option<Step>)
    requires Enabled(s, l) && (if u in s.sess then Stands(s.sess[u].phase, last) else last == None)
    ensures var now := if l.Session? && l.id == u then Some(l.step) else last;
      if u in Apply(s, l).sess then Stands(Apply(s, l).sess[u].phase, now) else now == None
  {
    if u in s.sess {
      PhaseFields(s, l, u);
      if l.Session? && l.id == u { StandsAfter(s, u, l.step); }
    }
  }

  lemma {:induction false} StandsOver(admin: Text, labels: seq<Label>, u: Id)
    requires IsRun(Init(admin), labels)
    ensures var s := Exec(Init(admin), labels);
      if u in s.sess then Stands(s.sess[u].phase, LastStep(labels, u)) else LastStep(labels, u) == None
  {
    if labels != [] {
      var before := labels[..|labels| - 1];
      RunFront(Init(admin), labels);
      StandsOver(admin, before, u);
      StandsStep(Exec(Init(admin), before), labels[|labels| - 1], u, LastStep(before, u));
    }
  }

  lemma StandsFollows(s: State, u: Id, step: Step, last: Option<Step>)
    requires u in s.sess && StepEnabled(s, u, step) && Stands(s.sess[u].phase, last)
    ensures Follows(last, step)
  {
  }

  /** In every run each session's steps follow the control flow of its thread. */
  lemma ThreadsFollowTheCode(admin: Text, labels: seq<Label>, u: Id, step: Step)
    requires IsRun(Init(admin), labels) && Enabled(Exec(Init(admin), labels), Session(u, step))
    ensures Follows(LastStep(labels, u), step)
  {
    StandsOver(admin, labels, u);
    StandsFollows(Exec(Init(admin), labels), u, step, LastStep(labels, u));
  }
}
