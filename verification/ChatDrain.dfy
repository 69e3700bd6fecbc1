/**
 What the agent does when it is left alone: it always has a step to take while there
 is work and no pause is held, it empties the queue, and by then every client has been
 told of everything that was pending for it.
 */
module ChatDrain {
  import opened ChatModel
  import opened ChatFlow
  import opened ChatGate
  import opened ChatRoster

  /** The semaphore is free or with the agent; as long as it is accounted for that means that no pause is held. */
  predicate Open(s: State) { s.sem > 0 || AgentHolds(s) }

  predicate Settled(s: State) { s.agent.Idle? && s.queue == [] }

  /** The agent's only possible step. */
  function AgentNext(s: State): AgentStep {
    match s.agent
    case Idle => Receive
    case Holding(_) => Acquire
    case Acquired(_) => Lock
    case Walking(_, next) => if next < |s.list| then Visit else Unlock
    case Walked => Release
  }

  function Rank(s: State): nat {
    match s.agent
    case Idle => 0
    case Holding(_) => 4
    case Acquired(_) => 3
    case Walking(_, _) => 2
    case Walked => 1
  }

  function UsersLeft(s: State): nat {
    if s.agent.Walking? && s.agent.next <= |s.list| then |s.list| - s.agent.next else 0
  }

  /** With work to do and no pause held, the agent can step, in one way only, and gets closer to the end. */
  lemma AgentProgress(s: State)
    requires Open(s) && !Settled(s)
    ensures forall step :: AgentEnabled(s, step) <==> step == AgentNext(s)
    ensures var t := Apply(s, Agent(AgentNext(s)));
      && Open(t) && t.list == s.list && t.accepted == s.accepted
      && (|t.queue| < |s.queue|
          || (t.queue == s.queue && Rank(t) < Rank(s))
          || (t.queue == s.queue && Rank(t) == Rank(s) && UsersLeft(t) < UsersLeft(s)))
  {
  }

  /** Where the agent alone takes the server. */
  function Drained(s: State): State
    requires Open(s)
    decreases |s.queue|, Rank(s), UsersLeft(s)
  {
    if Settled(s) then s
    else
      AgentProgress(s);
      Drained(Apply(s, Agent(AgentNext(s))))
  }

  /** It is a run, of agent steps only. */
  lemma {:induction false} DrainedIsRun(s: State) returns (labels: seq<Label>)
    requires Open(s)
    ensures IsRun(s, labels) && Exec(s, labels) == Drained(s)
    ensures forall l :: l in labels ==> l.Agent?
    decreases |s.queue|, Rank(s), UsersLeft(s)
  {
    if Settled(s) {
      labels := [];
    } else {
      AgentProgress(s);
      var l := Agent(AgentNext(s));
      var rest := DrainedIsRun(Apply(s, l));
      labels := [l] + rest;
      assert labels[0] == l && labels[1..] == rest;
    }
  }

  predicate SameUser(x: Record, y: Record) { y == x.(log := y.log) }

  lemma AgentStepFrame(s: State, step: AgentStep)
    requires AgentEnabled(s, step)
    ensures var t := Apply(s, Agent(step));
      t.admin == s.admin && t.sess.Keys == s.sess.Keys && forall u :: u in s.sess ==> SameUser(s.sess[u], t.sess[u])
  {
  }

  lemma {:induction false} DrainedEmpties(s: State)
    requires Open(s) && Shape(s) && Flow(s)
    ensures var t := Drained(s); Settled(t) && t.delivered == t.accepted == s.accepted
    decreases |s.queue|, Rank(s), UsersLeft(s)
  {
    if !Settled(s) {
      AgentProgress(s);
      var l := Agent(AgentNext(s));
      ShapeStep(s, l);
      FlowStep(s, l);
      DrainedEmpties(Apply(s, l));
    }
  }

  lemma {:induction false} DrainedFrame(s: State)
    requires Open(s)
    ensures var t := Drained(s);
      t.admin == s.admin && t.sess.Keys == s.sess.Keys && forall u :: u in s.sess ==> SameUser(s.sess[u], t.sess[u])
    decreases |s.queue|, Rank(s), UsersLeft(s)
  {
    if !Settled(s) {
      AgentProgress(s);
      AgentStepFrame(s, AgentNext(s));
      DrainedFrame(Apply(s, Agent(AgentNext(s))));
    }
  }

  lemma AgentKeepsOnline(s: State, step: AgentStep, u: Id)
    requires AgentEnabled(s, step) && LoggedIn(s, u)
    ensures LoggedIn(Apply(s, Agent(step)), u)
  {
    AgentStepFrame(s, step);
    assert SameUser(s.sess[u], Apply(s, Agent(step)).sess[u]);
  }

  /** What the agent adds to a roster was pending for it. */
  lemma AgentTellsPending(s: State, step: AgentStep, u: Id)
    requires Shape(s) && Flow(s) && AgentEnabled(s, step) && LoggedIn(s, u) && LoggedIn(Apply(s, Agent(step)), u)
    ensures Knowledge(Apply(s, Agent(step)), u) <= Knowledge(s, u)
  {
    var l := Agent(step);
    RosterFact(s, l, u);
    VisitedStep(s, l, u);
    PendingGrows(s, l, Visited(s, u), Visited(Apply(s, l), u));
    AddedIsPending(s, l, u);
  }

  lemma AgentKeepsKnowledge(s: State, step: AgentStep, u: Id)
    requires Shape(s) && Flow(s) && AgentEnabled(s, step) && LoggedIn(s, u)
    ensures LoggedIn(Apply(s, Agent(step)), u) && Knowledge(Apply(s, Agent(step)), u) == Knowledge(s, u)
  {
    AgentKeepsOnline(s, step, u);
    AgentTellsPending(s, step, u);
    KnowledgeKept(s, Agent(step), u);
  }

  /** The drained roster is what was known plus what was pending. */
  lemma {:induction false} DrainedRoster(s: State, u: Id)
    requires Open(s) && Shape(s) && Flow(s) && LoggedIn(s, u)
    ensures u in Drained(s).sess && Roster(Drained(s).sess[u].log) == Knowledge(s, u)
    decreases |s.queue|, Rank(s), UsersLeft(s)
  {
    if !Settled(s) {
      AgentProgress(s);
      var l := Agent(AgentNext(s));
      AgentKeepsKnowledge(s, l.agent, u);
      ShapeStep(s, l);
      FlowStep(s, l);
      DrainedRoster(Apply(s, l), u);
    }
  }
}
