/**
 The semaphore that the agent shares with pause and resume: as long as one session only
 is online as the admin it is accounted for in every state, so that nothing is broadcast
 while a pause is held. Who that session is, is the subject of `ChatAdmins`.
 */
module ChatGate {
  import opened ChatModel
  import opened ChatFlow
  import opened ChatNames

  predicate AgentHolds(s: State) { s.agent.Acquired? || s.agent.Walking? || s.agent.Walked? }

  predicate EndsPaused(marks: seq<Mark>) { |marks| > 0 && marks[|marks| - 1].kind.PauseMark? }

  /** A pause has taken the semaphore and no resume has posted it since. */
  predicate Held(s: State) { EndsPaused(s.marks) }

  /** Pause, resume, pause, resume and so on, starting with a pause. */
  predicate Alternates(marks: seq<Mark>) {
    && (marks != [] ==> marks[0].kind.PauseMark?)
    && forall i :: 0 < i < |marks| ==> marks[i].kind != marks[i - 1].kind
  }

  function One(b: bool): nat { if b then 1 else 0 }

  /** What the flag and the semaphore say while a session is inside a pause or resume. */
  predicate GateSays(phase: Phase, paused: bool, held: bool) {
    match phase
    case PauseWaiting => !paused && !held
    case PauseSetting => !paused && held
    case PauseTelling => paused && held
    case ResumeTelling => paused && held
    case ResumePosting => paused && held
    case ResumeClearing => paused && !held
    case _ => true
  }

  predicate AtGate(s: State, u: Id) { u in s.sess && InGate(s.sess[u].phase) }

  /** The semaphore is accounted for: it is free, with the agent, or held by the last pause. */
  predicate Balance(s: State) {
    Alternates(s.marks) && s.sem + One(AgentHolds(s)) + One(Held(s)) == 1
  }

  ghost predicate GateOk(s: State) {
    && Balance(s)
    && (forall u :: AtGate(s, u) ==> IsAdmin(s, u) && GateSays(s.sess[u].phase, s.paused, Held(s)))
    && ((forall u :: !AtGate(s, u)) ==> s.paused == Held(s))
  }

  /** At most one session is inside a pause or resume, because only one can carry the admin's name. */
  lemma OneAtGate(s: State, u: Id, v: Id)
    requires Shape(s) && OneAdmin(s) && GateOk(s) && AtGate(s, u) && AtGate(s, v)
    ensures u == v
  {
    assert SessionOk(s.sess[u]) && SessionOk(s.sess[v]);
  }

  /** With the admin at rest, the flag tells the truth. */
  lemma OpenGate(s: State, u: Id)
    requires Shape(s) && OneAdmin(s) && GateOk(s)
    requires u in s.sess && s.sess[u].phase.Reading? && IsAdmin(s, u)
    ensures s.paused == Held(s)
  {
    if v :| AtGate(s, v) { assert false; }
  }

  lemma AppendMark(marks: seq<Mark>, m: Mark)
    requires Alternates(marks) && (m.kind.PauseMark? <==> !EndsPaused(marks))
    ensures Alternates(marks + [m]) && (EndsPaused(marks + [m]) <==> m.kind.PauseMark?)
  {
  }

  /** The post of a resume that finds no pause to lift. */
  predicate LiftsNothing(s: State, l: Label) { l.Session? && l.step.ResumePost? && !Held(s) }

  lemma ResumeAgain(marks: seq<Mark>, m: Mark)
    requires !EndsPaused(marks) && m.kind.ResumeMark?
    ensures !Alternates(marks + [m])
  {
    var after := marks + [m];
    if marks == [] {
      assert after[0] == m;
    } else {
      assert after[|marks|].kind == after[|marks| - 1].kind;
    }
  }

  lemma MarksNext(s: State, l: Label)
    requires Balance(s) && Enabled(s, l)
    ensures Alternates(MarksAfter(s, l)) <==> !LiftsNothing(s, l)
    ensures EndsPaused(MarksAfter(s, l)) ==
      if l.Session? && l.step.PauseAcquire? then true
      else if l.Session? && l.step.ResumePost? then false
      else Held(s)
    ensures l.Session? && l.step.PauseAcquire? ==> !Held(s)
  {
    if l.Session? && l.step.PauseAcquire? { AppendMark(s.marks, Mark(PauseMark, l.id)); }
    if l.Session? && l.step.ResumePost? {
      var m := Mark(ResumeMark, l.id);
      if Held(s) { AppendMark(s.marks, m); } else { ResumeAgain(s.marks, m); }
    }
  }

  /** Every step keeps the semaphore accounted for, but a post that finds no pause to lift. */
  lemma BalanceIsExact(s: State, l: Label)
    requires Balance(s) && Enabled(s, l)
    ensures Balance(Apply(s, l)) <==> !LiftsNothing(s, l)
  {
    MarksNext(s, l);
  }

  /** A pause step can only find the gate open and a resume step only find it held. */
  lemma MarksStep(s: State, l: Label)
    requires GateOk(s) && Enabled(s, l)
    ensures Alternates(MarksAfter(s, l))
    ensures EndsPaused(MarksAfter(s, l)) ==
      if l.Session? && l.step.PauseAcquire? then true
      else if l.Session? && l.step.ResumePost? then false
      else Held(s)
    ensures l.Session? && l.step.PauseAcquire? ==> !Held(s)
    ensures l.Session? && l.step.ResumePost? ==> Held(s)
  {
    MarksNext(s, l);
    if l.Session? {
      assert AtGate(s, l.id) ==> GateSays(s.sess[l.id].phase, s.paused, Held(s));
    }
  }

  lemma EntersGate(s: State, id: Id, step: Step)
    requires id in s.sess && StepEnabled(s, id, step) && !AtGate(s, id) && InGate(PhaseAfter(s, id, step))
    ensures s.sess[id].phase.Reading? && IsAdmin(s, id)
    ensures var phase := PhaseAfter(s, id, step);
      if phase.PauseWaiting? then !s.paused else phase.ResumeTelling? && s.paused
    ensures var l := Session(id, step); PausedAfter(s, l) == s.paused && MarksAfter(s, l) == s.marks
  {
  }

  lemma StaysAtGate(s: State, id: Id, step: Step)
    requires GateOk(s) && AtGate(s, id) && StepEnabled(s, id, step) && InGate(PhaseAfter(s, id, step))
    ensures IsAdmin(s, id)
    ensures var l := Session(id, step);
      GateSays(PhaseAfter(s, id, step), PausedAfter(s, l), EndsPaused(MarksAfter(s, l)))
  {
    MarksStep(s, Session(id, step));
    assert GateSays(s.sess[id].phase, s.paused, Held(s));
  }

  /** The acting session stays in step with the flag and the semaphore. */
  lemma ActorAtGate(s: State, id: Id, step: Step)
    requires Shape(s) && OneAdmin(s) && GateOk(s) && id in s.sess && StepEnabled(s, id, step)
    requires InGate(PhaseAfter(s, id, step))
    ensures IsAdmin(s, id)
    ensures var l := Session(id, step);
      GateSays(PhaseAfter(s, id, step), PausedAfter(s, l), EndsPaused(MarksAfter(s, l)))
  {
    if AtGate(s, id) {
      StaysAtGate(s, id, step);
    } else {
      EntersGate(s, id, step);
      OpenGate(s, id);
    }
  }

  /** Only the session at the gate moves the flag or the semaphore's mark. */
  lemma OthersAtGate(s: State, l: Label, u: Id)
    requires Shape(s) && OneAdmin(s) && GateOk(s) && Enabled(s, l)
    requires AtGate(s, u) && !(l.Session? && l.id == u)
    ensures PausedAfter(s, l) == s.paused && MarksAfter(s, l) == s.marks
  {
    if l.Session? && AtGate(s, l.id) {
      OneAtGate(s, l.id, u);
      assert false;
    }
  }

  lemma GateFields(s: State, l: Label, u: Id)
    requires Enabled(s, l)
    ensures AtGate(Apply(s, l), u) ==> u in s.sess && Name(Apply(s, l), u) == Name(s, u)
    ensures u in s.sess ==>
      Apply(s, l).sess[u].phase == if l.Session? && l.id == u then PhaseAfter(s, u, l.step) else s.sess[u].phase
  {
  }

  lemma AtGateStep(s: State, l: Label, u: Id)
    requires Shape(s) && OneAdmin(s) && GateOk(s) && Enabled(s, l) && AtGate(Apply(s, l), u)
    ensures var t := Apply(s, l); IsAdmin(t, u) && GateSays(t.sess[u].phase, t.paused, Held(t))
  {
    GateFields(s, l, u);
    if l.Session? && l.id == u {
      ActorAtGate(s, u, l.step);
    } else {
      OthersAtGate(s, l, u);
    }
  }

  /** Leaving the gate, the flag and the semaphore agree again. */
  lemma FlagStep(s: State, l: Label, u: Id)
    requires Shape(s) && OneAdmin(s) && GateOk(s) && Enabled(s, l)
    requires AtGate(s, u) && !AtGate(Apply(s, l), u)
    ensures PausedAfter(s, l) == EndsPaused(MarksAfter(s, l))
  {
    MarksStep(s, l);
    GateFields(s, l, u);
    assert GateSays(s.sess[u].phase, s.paused, Held(s));
  }

  lemma FlagKept(s: State, l: Label)
    requires GateOk(s) && Enabled(s, l) && forall u :: !AtGate(s, u)
    ensures PausedAfter(s, l) == EndsPaused(MarksAfter(s, l))
  {
    if l.Session? { assert !AtGate(s, l.id); }
  }

  lemma GateStep(s: State, l: Label)
    requires Shape(s) && OneAdmin(s) && GateOk(s) && Enabled(s, l)
    ensures GateOk(Apply(s, l))
  {
    var t := Apply(s, l);
    assert Balance(t) by {
      MarksStep(s, l);
      BalanceIsExact(s, l);
    }
    forall u | AtGate(t, u)
      ensures IsAdmin(t, u) && GateSays(t.sess[u].phase, t.paused, Held(t))
    {
      AtGateStep(s, l, u);
    }
    if forall u :: !AtGate(t, u) {
      if u :| AtGate(s, u) { FlagStep(s, l, u); } else { FlagKept(s, l); }
    }
  }

  /** Whoever has paused was the admin, so the admin's name is one that can be stored. */
  ghost predicate PausedByName(s: State) { s.marks != [] ==> Acceptable(s.admin) }

  lemma PausedByNameStep(s: State, l: Label)
    requires GateOk(s) && AcceptedOk(s) && PausedByName(s) && Enabled(s, l)
    ensures PausedByName(Apply(s, l))
  {
    if l.Session? && (l.step.PauseAcquire? || l.step.ResumePost?) {
      assert AtGate(s, l.id);
      CleanIsAcceptable(s.sess[l.id].buf);
    }
  }
}
