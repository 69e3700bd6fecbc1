/**
 When the server as a whole can come to a halt: never because of the user lock or the
 agent, only because a pause is held while posts wait for room in the queue; and if the
 admin's own session is among those posts, nothing is ever delivered again.
 */
module ChatProgress {
  import opened CText
  import opened ChatModel
  import opened ChatFlow
  import opened ChatNames
  import opened ChatGate
  import opened ChatDrain
  import opened ChatRuns
  import opened ChatAnswers
  import opened ChatHistory

  /** The next step of a session that is in the middle of something. */
  function NextOf(phase: Phase): Option<Step> {
    match phase
    case NameChecked(_) => Some(Login)
    case Announcing => Some(AnnounceCheck)
    case Posting(_, _) => Some(Post)
    case Introducing => Some(Introduce)
    case PauseWaiting => Some(PauseAcquire)
    case PauseSetting => Some(PauseSet)
    case PauseTelling => Some(PauseTell)
    case ResumeTelling => Some(ResumeTell)
    case ResumePosting => Some(ResumePost)
    case ResumeClearing => Some(ResumeClear)
    case LoggedOut => Some(Notify)
    case Notified => Some(Remove)
    case _ => None
  }

  predicate Busy(s: State, u: Id) { u in s.sess && NextOf(s.sess[u].phase).Some? }

  /** The agent and every busy session are blocked. */
  ghost predicate Halted(s: State) {
    && (forall step :: !AgentEnabled(s, step))
    && (forall u :: Busy(s, u) ==> !StepEnabled(s, u, NextOf(s.sess[u].phase).value))
  }

  lemma AgentHalted(s: State)
    requires forall step :: !AgentEnabled(s, step)
    ensures (s.agent.Idle? && s.queue == []) || (s.agent.Holding? && s.sem == 0)
  {
    assert !AgentEnabled(s, AgentNext(s));
    assert !AgentEnabled(s, Visit) && !AgentEnabled(s, Unlock);
  }

  /**
   A session in the middle of something is blocked exactly if it waits to post into a full queue, or
   to pause for the semaphore, or for the user lock while the agent walks.
   */
  lemma WhatBlocks(s: State, u: Id)
    requires Flow(s) && Busy(s, u)
    ensures var next := NextOf(s.sess[u].phase).value;
      !StepEnabled(s, u, next)
      <==> (next.Post? && |s.queue| == 10) || (next.PauseAcquire? && s.sem == 0)
           || (TakesUserLock(Session(u, next)) && s.agent.Walking?)
  {
  }

  /**
   A session that reads takes whatever its client sends, kicks and logins when the agent does not
   walk; a login is checked or refused by what the name deserves.
   */
  lemma ReaderTakesAnything(s: State, u: Id, raw: RawName, text: Text, command: Command)
    requires u in s.sess && s.sess[u].phase.Reading?
    ensures StepEnabled(s, u, ChatCheck(text)) && StepEnabled(s, u, Malformed) && StepEnabled(s, u, Logout)
    ensures StepEnabled(s, u, Run(command)) <==> !(command.KickUser? && s.agent.Walking?)
    ensures StepEnabled(s, u, CheckName(raw)) <==> !s.agent.Walking? && Verdict(s, CStr(raw)) == Success
    ensures StepEnabled(s, u, RefuseLogin(raw)) <==> !s.agent.Walking? && Verdict(s, CStr(raw)) != Success
  {
    NameBytes(CStr(raw));
  }

  lemma HaltedBusy(s: State, u: Id)
    requires Flow(s) && GateOk(s) && Halted(s) && Busy(s, u)
    ensures s.sess[u].phase.Posting? && |s.queue| == QUEUE_CAPACITY
    ensures Held(s) && s.agent.Holding?
  {
    AgentHalted(s);
    WhatBlocks(s, u);
    assert AtGate(s, u) ==> GateSays(s.sess[u].phase, s.paused, Held(s));
  }

  /** Whoever is busy in a halted server waits to post into a full queue, under a pause. */
  lemma HaltedOnlyByPause(s: State, u: Id)
    requires ReachableWith(AdminCare, s) && Halted(s) && Busy(s, u)
    ensures s.sess[u].phase.Posting? && |s.queue| == QUEUE_CAPACITY
    ensures Held(s) && s.agent.Holding?
  {
    ReachableIsOrderly(s);
    HaltedBusy(s, u);
  }

  /** A pause is held, the queue is full, and the admin's session waits to post into it. */
  predicate AdminStuck(s: State, a: Id) {
    && Held(s) && s.agent.Holding? && |s.queue| == QUEUE_CAPACITY
    && LoggedIn(s, a) && IsAdmin(s, a) && s.sess[a].phase.Posting?
  }

  /** While the admin is stuck nobody else is inside a pause or resume. */
  lemma GateDeserted(s: State, a: Id, u: Id)
    requires Shape(s) && OneAdmin(s) && GateOk(s) && AdminStuck(s, a)
    ensures !AtGate(s, u)
  {
    if u in s.sess { assert SessionOk(s.sess[u]); }
  }

  /** Nothing moves the agent, the queue or the pause any more. */
  lemma StuckServer(s: State, a: Id, l: Label)
    requires Orderly(s) && AdminStuck(s, a) && Enabled(s, l)
    ensures var t := Apply(s, l);
      Held(t) && t.agent == s.agent && |t.queue| == |s.queue| && t.delivered == s.delivered
  {
    OneClaimOneOnline(s, s.admin);
    if l.Session? { GateDeserted(s, a, l.id); }
    MarksStep(s, l);
  }

  lemma StuckSession(s: State, a: Id, l: Label)
    requires AdminStuck(s, a) && Enabled(s, l)
    ensures var t := Apply(s, l); LoggedIn(t, a) && IsAdmin(t, a) && t.sess[a].phase.Posting?
  {
    NameFields(s, l, a);
    assert Apply(s, l).sess[a] == SessionAfter(s, l, a);
  }

  lemma StuckStep(s: State, a: Id, l: Label)
    requires Orderly(s) && AdminStuck(s, a) && Enabled(s, l)
    ensures AdminStuck(Apply(s, l), a) && Apply(s, l).delivered == s.delivered
  {
    StuckServer(s, a, l);
    StuckSession(s, a, l);
  }

  /** From then on no run ever delivers another message. */
  lemma {:induction false} StuckForever(s: State, a: Id, labels: seq<Label>)
    requires Orderly(s) && AdminStuck(s, a) && RunWith(AdminCare, s, labels)
    ensures IsRun(s, labels) && AdminStuck(Exec(s, labels), a)
    ensures Exec(s, labels).delivered == s.delivered
    decreases |labels|
  {
    if labels != [] {
      StuckStep(s, a, labels[0]);
      OrderlyStep(s, labels[0]);
      StuckForever(Apply(s, labels[0]), a, labels[1..]);
    }
  }
}
