/**
 What the server's threads take, give back and wait for, function by function. Where the
 code logs, any number of lines may be logged; a log line takes and gives back the log lock.
 */
module LockPrograms {
  import opened CText
  import opened LockOrder

  /** One statement after the other. */
  function Block(parts: seq<Stmt>): Stmt {
    if parts == [] then Skip else Seq(parts[0], Block(parts[1..]))
  }

  /** `output_Message`, any number of times. */
  function LogLine(): Stmt { Seq(Do(Take(LogLock)), Seq(Do(Touch(LogLock)), Do(Give(LogLock)))) }

  function Logs(): Stmt { While(LogLine()) }

  /** Under the user lock, and then without it. */
  function Locked(inside: Stmt, after: Stmt): Stmt {
    Seq(Do(Take(UserLock)), Seq(inside, Seq(Do(Give(UserLock)), after)))
  }

  /** `ITERATE_OVER_USERS`: a `break` in the loop command leaves the loop, and then the lock is given back. */
  function IterateOverUsers(command: Stmt): Stmt {
    Locked(Seq(Logs(), While(Seq(Do(Touch(UserLock)), command))), Logs())
  }

  /** A loop command that sends, or not, and logs about it. */
  function Tell(): Stmt { If(Logs(), Skip) }

  function LogAndReturn(): Stmt { Seq(Logs(), Return) }

  /** A check that leaves the function when it fails. */
  function OrReturn(): Stmt { If(Logs(), LogAndReturn()) }

  /** A check that leaves the `switch` when it fails. */
  function OrBreak(): Stmt { If(Logs(), Seq(Logs(), Break)) }

  /** `f_find_User` logs once more before it unlocks. */
  function FindUser(): Stmt { Call(Block([Logs(), Locked(Seq(While(Do(Touch(UserLock))), Logs()), Return)])) }

  /** The locked half of `create_User`, and of `remove_User`. */
  function Relink(): Stmt { Locked(Seq(Do(Touch(UserLock)), Logs()), LogAndReturn()) }

  function CreateUser(): Stmt { Call(Block([Logs(), FindUser(), OrReturn(), Relink()])) }

  function RemoveUser(): Stmt { Call(Block([Logs(), FindUser(), OrReturn(), Relink()])) }

  /**
   The loop of `is_name_free` returns out of its middle, having given the lock back first. Its read
   of the front before the lock is no `Touch`; `RegistrySchedule` says when that is safe.
   */
  function Search(): Stmt {
    While(Seq(Do(Touch(UserLock)), Seq(Logs(), If(Seq(Do(Give(UserLock)), Return), Skip))))
  }

  function IsNameFree(): Stmt { Call(Block([Logs(), OrReturn(), Locked(Search(), LogAndReturn())])) }

  function LoginUser(): Stmt { Call(Block([Logs(), Locked(Do(Touch(UserLock)), LogAndReturn())])) }

  /** `broadcast_message` looks for room and then waits for it. */
  function BroadcastMessage(): Stmt { Call(Block([OrReturn(), Do(Wait), LogAndReturn()])) }

  /** The flag is stored with the semaphore taken. */
  function TakeAndKeep(): Stmt { Seq(Do(Take(Semaphore)), Seq(Do(Touch(Semaphore)), Do(Keep))) }

  function PauseBroadcast(): Stmt { Call(Block([Logs(), TakeAndKeep(), Logs()])) }

  function ResumeBroadcast(): Stmt { Call(Block([Logs(), Do(Post), Logs()])) }

  /** To each user the agent comes to it may send, as long as no pause has the semaphore. */
  function AgentVisit(): Stmt { Seq(Do(Touch(Semaphore)), Seq(Logs(), Tell())) }

  /** One turn of the loop of `broadcast_agent`. */
  function AgentTurn(): Stmt {
    Seq(Do(Wait),
    Seq(Do(Take(Semaphore)),
    Seq(Logs(),
    Seq(IterateOverUsers(AgentVisit()),
        Do(Give(Semaphore))))))
  }

  function Agent(): Stmt { Block([Logs(), While(AgentTurn()), Logs()]) }

  /** The join is announced, and the others are introduced. */
  function Announcing(): Stmt {
    Block([BroadcastMessage(), Logs(), IterateOverUsers(Tell()), Break])
  }

  function LoginCase(): Stmt {
    Block([IsNameFree(), Logs(), If(Skip, Break), LoginUser(), Announcing()])
  }

  function ChatCase(): Stmt { Block([Logs(), BroadcastMessage(), Logs(), Break]) }

  /** The kick walk stops at its target. */
  function KickCase(): Stmt { Block([Logs(), IterateOverUsers(If(Break, Skip)), Logs(), Break]) }

  function PauseCase(): Stmt { Block([OrBreak(), PauseBroadcast(), Logs(), IterateOverUsers(Tell()), Break]) }

  function ResumeCase(): Stmt { Block([OrBreak(), Logs(), IterateOverUsers(Tell()), ResumeBroadcast(), Break]) }

  function HelpCase(): Stmt { Block([While(Logs()), Break]) }

  function InvalidCase(): Stmt { Block([Logs(), Break]) }

  function Commands(): Stmt { If(KickCase(), If(PauseCase(), If(ResumeCase(), If(HelpCase(), InvalidCase())))) }

  function CommandCase(): Stmt { Block([OrBreak(), Switch(Commands()), Break]) }

  /** A login, a chat message, a command, a malformed message, or one to be ignored. */
  function Messages(): Stmt { If(LoginCase(), If(ChatCase(), If(CommandCase(), If(Break, Break)))) }

  /** One message of a client: receive, leave if there is none, dispatch. */
  function Handling(): Stmt { Block([Logs(), If(Skip, Break), Logs(), Switch(Messages()), Logs()]) }

  /** The others are told, if the session ever logged in, and the record is removed. */
  function SessionEnd(): Stmt { Block([Logs(), If(IterateOverUsers(Tell()), Skip), RemoveUser(), Logs(), Return]) }

  function ThreadBody(): Stmt { Block([Logs(), CreateUser(), While(Handling()), SessionEnd()]) }

  /** `client_Thread`: handle messages, and at the end tell the others and remove the record. */
  function ClientThread(): Stmt { Call(ThreadBody()) }

  // ---------------------------------------------------------------- they pass the check

  /** A part that ends as it began, with nothing held, or is left with nothing held. */
  predicate Balanced(s: Stmt, n: Held, brk: Option<Held>, ret: Option<Held>) {
    Check(s, n, brk, ret) == At(n) || Check(s, n, brk, ret).Never?
  }

  lemma {:induction false} BalancedBlock(parts: seq<Stmt>, n: Held, brk: Option<Held>, ret: Option<Held>)
    requires forall i :: 0 <= i < |parts| ==> Balanced(parts[i], n, brk, ret)
    ensures Balanced(Block(parts), n, brk, ret)
  {
    if parts != [] {
      assert Balanced(parts[0], n, brk, ret);
      BalancedBlock(parts[1..], n, brk, ret);
    }
  }

  /** Either way through is balanced, or both together. */
  lemma ChoiceBalances(a: Stmt, b: Stmt, n: Held, brk: Option<Held>, ret: Option<Held>)
    requires Balanced(a, n, brk, ret) && Balanced(b, n, brk, ret)
    ensures Balanced(If(a, b), n, brk, ret)
  {
  }

  lemma LoopBalances(body: Stmt, n: Held, brk: Option<Held>, ret: Option<Held>)
    requires Balanced(body, n, Some(n), ret)
    ensures Balanced(While(body), n, brk, ret) && Balanced(Switch(body), n, brk, ret)
  {
  }

  lemma FiveChoices(a: Stmt, b: Stmt, c: Stmt, d: Stmt, e: Stmt, n: Held, brk: Option<Held>, ret: Option<Held>)
    requires Balanced(a, n, brk, ret) && Balanced(b, n, brk, ret) && Balanced(c, n, brk, ret)
    requires Balanced(d, n, brk, ret) && Balanced(e, n, brk, ret)
    ensures Balanced(If(a, If(b, If(c, If(d, e)))), n, brk, ret)
  {
    ChoiceBalances(d, e, n, brk, ret);
    ChoiceBalances(c, If(d, e), n, brk, ret);
    ChoiceBalances(b, If(c, If(d, e)), n, brk, ret);
    ChoiceBalances(a, If(b, If(c, If(d, e))), n, brk, ret);
  }

  /** Two, three, four or five parts in a row. */
  lemma Balanced2(a: Stmt, b: Stmt, n: Held, brk: Option<Held>, ret: Option<Held>)
    requires Balanced(a, n, brk, ret) && Balanced(b, n, brk, ret)
    ensures Balanced(Block([a, b]), n, brk, ret)
  {
    BalancedBlock([a, b], n, brk, ret);
  }

  lemma Balanced3(a: Stmt, b: Stmt, c: Stmt, n: Held, brk: Option<Held>, ret: Option<Held>)
    requires Balanced(a, n, brk, ret) && Balanced(b, n, brk, ret) && Balanced(c, n, brk, ret)
    ensures Balanced(Block([a, b, c]), n, brk, ret)
  {
    BalancedBlock([a, b, c], n, brk, ret);
  }

  lemma Balanced4(a: Stmt, b: Stmt, c: Stmt, d: Stmt, n: Held, brk: Option<Held>, ret: Option<Held>)
    requires Balanced(a, n, brk, ret) && Balanced(b, n, brk, ret) && Balanced(c, n, brk, ret)
    requires Balanced(d, n, brk, ret)
    ensures Balanced(Block([a, b, c, d]), n, brk, ret)
  {
    BalancedBlock([a, b, c, d], n, brk, ret);
  }

  lemma Balanced5(a: Stmt, b: Stmt, c: Stmt, d: Stmt, e: Stmt, n: Held, brk: Option<Held>, ret: Option<Held>)
    requires Balanced(a, n, brk, ret) && Balanced(b, n, brk, ret) && Balanced(c, n, brk, ret)
    requires Balanced(d, n, brk, ret) && Balanced(e, n, brk, ret)
    ensures Balanced(Block([a, b, c, d, e]), n, brk, ret)
  {
    BalancedBlock([a, b, c, d, e], n, brk, ret);
  }

  lemma LogsGiveBack(n: Held, brk: Option<Held>, ret: Option<Held>)
    requires !n.log
    ensures Check(Logs(), n, brk, ret) == At(n)
  {
    var h := n.(log := true);
    assert Check(Seq(Do(Touch(LogLock)), Do(Give(LogLock))), h, Some(n), ret) == At(n);
    assert Check(LogLine(), n, Some(n), ret) == At(n);
  }

  lemma LogsBalance(n: Held, brk: Option<Held>, ret: Option<Held>)
    requires n == NOTHING
    ensures Balanced(Logs(), n, brk, ret) && Balanced(While(Logs()), n, brk, ret)
  {
    LogsGiveBack(n, brk, ret);
    LogsGiveBack(n, Some(n), ret);
  }

  /** Parts that may leave the `switch`. */
  lemma BreaksBalance(n: Held, ret: Option<Held>)
    requires n == NOTHING
    ensures Balanced(Break, n, Some(n), ret) && Balanced(If(Skip, Break), n, Some(n), ret)
    ensures Balanced(OrBreak(), n, Some(n), ret)
  {
    LogsGiveBack(n, Some(n), ret);
  }

  /** Parts that may leave the function. */
  lemma ReturnsBalance(n: Held, brk: Option<Held>)
    requires n == NOTHING
    ensures Balanced(Return, n, brk, Some(n)) && Balanced(LogAndReturn(), n, brk, Some(n))
    ensures Balanced(OrReturn(), n, brk, Some(n))
  {
    LogsGiveBack(n, brk, Some(n));
  }

  /** What is balanced under the user lock, and then without it, is balanced. */
  lemma LockedBalances(inside: Stmt, after: Stmt, n: Held, brk: Option<Held>, ret: Option<Held>)
    requires !n.user && !n.log && Balanced(after, n, brk, ret)
    requires Check(inside, n.(user := true), brk, ret) == At(n.(user := true))
    ensures Check(Locked(inside, after), n, brk, ret) == Check(after, n, brk, ret)
  {
    var u, unlock := n.(user := true), Seq(Do(Give(UserLock)), after);
    assert Check(unlock, u, brk, ret) == Check(after, n, brk, ret);
    assert Check(Seq(inside, unlock), u, brk, ret) == Check(after, n, brk, ret);
  }

  /** A function is not left by the `break` or `return` of its caller. */
  lemma CallBalances(body: Stmt, n: Held, brk: Option<Held>, ret: Option<Held>)
    requires Balanced(body, n, None, Some(n))
    ensures Balanced(Call(body), n, brk, ret)
  {
  }

  lemma FindUserBalances(n: Held, brk: Option<Held>, ret: Option<Held>)
    requires n == NOTHING
    ensures Balanced(FindUser(), n, brk, ret)
  {
    var u := n.(user := true);
    LogsBalance(n, None, Some(n));
    LogsGiveBack(u, None, Some(n));
    ReturnsBalance(n, None);
    LockedBalances(Seq(While(Do(Touch(UserLock))), Logs()), Return, n, None, Some(n));
    Balanced2(Logs(), Locked(Seq(While(Do(Touch(UserLock))), Logs()), Return), n, None, Some(n));
    CallBalances(Block([Logs(), Locked(Seq(While(Do(Touch(UserLock))), Logs()), Return)]), n, brk, ret);
  }

  lemma RelinkBalances(n: Held)
    requires n == NOTHING
    ensures Balanced(Relink(), n, None, Some(n))
  {
    LogsGiveBack(n.(user := true), None, Some(n));
    ReturnsBalance(n, None);
    LockedBalances(Seq(Do(Touch(UserLock)), Logs()), LogAndReturn(), n, None, Some(n));
  }

  lemma RegistryCallsBalance(n: Held, brk: Option<Held>, ret: Option<Held>)
    requires n == NOTHING
    ensures Balanced(CreateUser(), n, brk, ret) && Balanced(RemoveUser(), n, brk, ret)
  {
    LogsBalance(n, None, Some(n));
    FindUserBalances(n, None, Some(n));
    ReturnsBalance(n, None);
    RelinkBalances(n);
    Balanced4(Logs(), FindUser(), OrReturn(), Relink(), n, None, Some(n));
    CallBalances(Block([Logs(), FindUser(), OrReturn(), Relink()]), n, brk, ret);
  }

  /** With the lock given back before the `return`, the search is balanced under the lock. */
  lemma SearchBalances(n: Held)
    requires n == NOTHING
    ensures Check(Search(), n.(user := true), None, Some(n)) == At(n.(user := true))
  {
    var u := n.(user := true);
    LogsGiveBack(u, Some(u), Some(n));
    assert Check(Seq(Do(Give(UserLock)), Return), u, Some(u), Some(n)).Never?;
    assert Check(If(Seq(Do(Give(UserLock)), Return), Skip), u, Some(u), Some(n)) == At(u);
    assert Check(Seq(Logs(), If(Seq(Do(Give(UserLock)), Return), Skip)), u, Some(u), Some(n)) == At(u);
  }

  lemma IsNameFreeBalances(n: Held, brk: Option<Held>, ret: Option<Held>)
    requires n == NOTHING
    ensures Balanced(IsNameFree(), n, brk, ret)
  {
    LogsBalance(n, None, Some(n));
    ReturnsBalance(n, None);
    SearchBalances(n);
    LockedBalances(Search(), LogAndReturn(), n, None, Some(n));
    Balanced3(Logs(), OrReturn(), Locked(Search(), LogAndReturn()), n, None, Some(n));
    CallBalances(Block([Logs(), OrReturn(), Locked(Search(), LogAndReturn())]), n, brk, ret);
  }

  lemma LoginUserBalances(n: Held, brk: Option<Held>, ret: Option<Held>)
    requires n == NOTHING
    ensures Balanced(LoginUser(), n, brk, ret)
  {
    LogsBalance(n, None, Some(n));
    ReturnsBalance(n, None);
    LockedBalances(Do(Touch(UserLock)), LogAndReturn(), n, None, Some(n));
    Balanced2(Logs(), Locked(Do(Touch(UserLock)), LogAndReturn()), n, None, Some(n));
    CallBalances(Block([Logs(), Locked(Do(Touch(UserLock)), LogAndReturn())]), n, brk, ret);
  }

  lemma BroadcastMessageBalances(n: Held, brk: Option<Held>, ret: Option<Held>)
    requires n == NOTHING
    ensures Balanced(BroadcastMessage(), n, brk, ret)
  {
    ReturnsBalance(n, None);
    Balanced3(OrReturn(), Do(Wait), LogAndReturn(), n, None, Some(n));
    CallBalances(Block([OrReturn(), Do(Wait), LogAndReturn()]), n, brk, ret);
  }

  /** A pause ends with the semaphore kept, a resume posts it. */
  lemma GateCallsBalance(n: Held, brk: Option<Held>, ret: Option<Held>)
    requires n == NOTHING
    ensures Balanced(PauseBroadcast(), n, brk, ret) && Balanced(ResumeBroadcast(), n, brk, ret)
  {
    LogsBalance(n, None, Some(n));
    assert Check(TakeAndKeep(), n, None, Some(n)) == At(n);
    Balanced3(Logs(), TakeAndKeep(), Logs(), n, None, Some(n));
    CallBalances(Block([Logs(), TakeAndKeep(), Logs()]), n, brk, ret);
    Balanced3(Logs(), Do(Post), Logs(), n, None, Some(n));
    CallBalances(Block([Logs(), Do(Post), Logs()]), n, brk, ret);
  }

  /** A walk is balanced if its command is, under the user lock. */
  lemma WalkBalances(command: Stmt, n: Held, brk: Option<Held>, ret: Option<Held>)
    requires !n.user && !n.log && Balanced(command, n.(user := true), Some(n.(user := true)), ret)
    ensures Check(IterateOverUsers(command), n, brk, ret) == At(n)
  {
    var u := n.(user := true);
    LogsGiveBack(u, brk, ret);
    LogsGiveBack(n, brk, ret);
    var round := Seq(Do(Touch(UserLock)), command);
    assert Check(round, u, Some(u), ret) == Check(command, u, Some(u), ret);
    assert Check(Seq(Logs(), While(round)), u, brk, ret) == At(u);
    LockedBalances(Seq(Logs(), While(round)), Logs(), n, brk, ret);
  }

  lemma AgentTurnBalances(n: Held, ret: Option<Held>)
    requires n == NOTHING
    ensures Balanced(AgentTurn(), n, Some(n), ret)
  {
    var brk, s := Some(n), n.(sem := true);
    var u := s.(user := true);
    LogsGiveBack(u, Some(u), ret);
    assert Check(Tell(), u, Some(u), ret) == At(u);
    assert Check(Seq(Logs(), Tell()), u, Some(u), ret) == At(u);
    assert Balanced(AgentVisit(), u, Some(u), ret);
    WalkBalances(AgentVisit(), s, brk, ret);
    LogsGiveBack(s, brk, ret);
    var walk := Seq(IterateOverUsers(AgentVisit()), Do(Give(Semaphore)));
    assert Check(walk, s, brk, ret) == At(n);
    assert Check(Seq(Logs(), walk), s, brk, ret) == At(n);
    assert Check(Seq(Do(Take(Semaphore)), Seq(Logs(), walk)), n, brk, ret) == At(n);
  }

  lemma AgentIsAccepted()
    ensures Accepted(Agent())
  {
    var n := NOTHING;
    LogsBalance(n, None, None);
    AgentTurnBalances(n, None);
    LoopBalances(AgentTurn(), n, None, None);
    Balanced3(Logs(), While(AgentTurn()), Logs(), n, None, None);
  }

  /** The kick walk is left in the middle of the list and still gives the lock back. */
  lemma WalksBalance(n: Held, brk: Option<Held>, ret: Option<Held>)
    requires n == NOTHING
    ensures Balanced(IterateOverUsers(Tell()), n, brk, ret)
    ensures Balanced(IterateOverUsers(If(Break, Skip)), n, brk, ret)
  {
    var u := n.(user := true);
    LogsGiveBack(u, Some(u), ret);
    WalkBalances(Tell(), n, brk, ret);
    WalkBalances(If(Break, Skip), n, brk, ret);
  }

  lemma MessageCasesBalance(n: Held, ret: Option<Held>)
    requires n == NOTHING
    ensures Balanced(LoginCase(), n, Some(n), ret) && Balanced(ChatCase(), n, Some(n), ret)
  {
    LogsBalance(n, Some(n), ret);
    BreaksBalance(n, ret);
    WalksBalance(n, Some(n), ret);
    IsNameFreeBalances(n, Some(n), ret);
    LoginUserBalances(n, Some(n), ret);
    BroadcastMessageBalances(n, Some(n), ret);
    Balanced4(BroadcastMessage(), Logs(), IterateOverUsers(Tell()), Break, n, Some(n), ret);
    Balanced5(IsNameFree(), Logs(), If(Skip, Break), LoginUser(), Announcing(), n, Some(n), ret);
    Balanced4(Logs(), BroadcastMessage(), Logs(), Break, n, Some(n), ret);
  }

  lemma CommandCasesBalance(n: Held, ret: Option<Held>)
    requires n == NOTHING
    ensures Balanced(KickCase(), n, Some(n), ret) && Balanced(PauseCase(), n, Some(n), ret)
    ensures Balanced(ResumeCase(), n, Some(n), ret)
    ensures Balanced(HelpCase(), n, Some(n), ret) && Balanced(InvalidCase(), n, Some(n), ret)
  {
    LogsBalance(n, Some(n), ret);
    BreaksBalance(n, ret);
    WalksBalance(n, Some(n), ret);
    GateCallsBalance(n, Some(n), ret);
    Balanced4(Logs(), IterateOverUsers(If(Break, Skip)), Logs(), Break, n, Some(n), ret);
    Balanced5(OrBreak(), PauseBroadcast(), Logs(), IterateOverUsers(Tell()), Break, n, Some(n), ret);
    Balanced5(OrBreak(), Logs(), IterateOverUsers(Tell()), ResumeBroadcast(), Break, n, Some(n), ret);
    Balanced2(While(Logs()), Break, n, Some(n), ret);
    Balanced2(Logs(), Break, n, Some(n), ret);
  }

  lemma CommandCaseBalances(n: Held, ret: Option<Held>)
    requires n == NOTHING
    ensures Balanced(CommandCase(), n, Some(n), ret)
  {
    BreaksBalance(n, ret);
    CommandCasesBalance(n, ret);
    FiveChoices(KickCase(), PauseCase(), ResumeCase(), HelpCase(), InvalidCase(), n, Some(n), ret);
    LoopBalances(Commands(), n, Some(n), ret);
    Balanced3(OrBreak(), Switch(Commands()), Break, n, Some(n), ret);
  }

  lemma HandlingBalances(n: Held)
    requires n == NOTHING
    ensures Balanced(While(Handling()), n, None, Some(n))
  {
    var ret := Some(n);
    LogsBalance(n, Some(n), ret);
    BreaksBalance(n, ret);
    MessageCasesBalance(n, ret);
    CommandCaseBalances(n, ret);
    FiveChoices(LoginCase(), ChatCase(), CommandCase(), Break, Break, n, Some(n), ret);
    LoopBalances(Messages(), n, Some(n), ret);
    Balanced5(Logs(), If(Skip, Break), Logs(), Switch(Messages()), Logs(), n, Some(n), ret);
    LoopBalances(Handling(), n, None, ret);
  }

  lemma SessionEndBalances(n: Held)
    requires n == NOTHING
    ensures Balanced(SessionEnd(), n, None, Some(n))
  {
    LogsBalance(n, None, Some(n));
    RegistryCallsBalance(n, None, Some(n));
    WalksBalance(n, None, Some(n));
    ChoiceBalances(IterateOverUsers(Tell()), Skip, n, None, Some(n));
    Balanced5(Logs(), If(IterateOverUsers(Tell()), Skip), RemoveUser(), Logs(), Return, n, None, Some(n));
  }

  lemma ThreadBodyBalances(n: Held)
    requires n == NOTHING
    ensures Balanced(ThreadBody(), n, None, Some(n))
  {
    LogsBalance(n, None, Some(n));
    RegistryCallsBalance(n, None, Some(n));
    HandlingBalances(n);
    SessionEndBalances(n);
    Balanced4(Logs(), CreateUser(), While(Handling()), SessionEnd(), n, None, Some(n));
  }

  lemma BodyAccepted(body: Stmt, n: Held)
    requires n == NOTHING && Balanced(body, n, None, Some(n))
    ensures Accepted(Call(body))
  {
  }

  lemma ClientThreadIsAccepted()
    ensures Accepted(ClientThread())
  {
    ThreadBodyBalances(NOTHING);
    BodyAccepted(ThreadBody(), NOTHING);
  }

  // ---------------------------------------------------------------- what does not

  /**
   Left by `return` instead of `break`, the kick walk would fail the check, and so would a search
   that returns locked.
   */
  lemma LockedReturnsFail(n: Held)
    requires n == NOTHING
    ensures Check(IterateOverUsers(If(Return, Skip)), n, None, Some(n)).Bad?
    ensures Check(Locked(While(If(Return, Skip)), LogAndReturn()), n, None, Some(n)).Bad?
  {
    var u := n.(user := true);
    LogsGiveBack(u, None, Some(n));
    var round := Seq(Do(Touch(UserLock)), If(Return, Skip));
    assert Check(While(If(Return, Skip)), u, None, Some(n)).Bad?;
    assert Check(While(round), u, None, Some(n)).Bad?;
    assert Check(Seq(Logs(), While(round)), u, None, Some(n)).Bad?;
  }

  // ---------------------------------------------------------------- what traces are made of

  /** The operation stands somewhere in the program. */
  predicate Uses(s: Stmt, op: Op) {
    match s
    case Do(o) => o == op
    case Seq(a, b) => Uses(a, op) || Uses(b, op)
    case If(a, b) => Uses(a, op) || Uses(b, op)
    case While(body) => Uses(body, op)
    case Switch(body) => Uses(body, op)
    case Call(body) => Uses(body, op)
    case _ => false
  }

  lemma {:induction false} TracesUse(s: Stmt, ops: seq<Op>, exit: Exit, op: Op)
    requires Runs(s, ops, exit) && op in ops
    ensures Uses(s, op)
    decreases s, 0
  {
    match s
    case Do(_) =>
    case Seq(a, b) =>
      if !exit.Through? && Runs(a, ops, exit) {
        TracesUse(a, ops, exit, op);
      } else {
        var i :| 0 <= i <= |ops| && Runs(a, ops[..i], Through) && Runs(b, ops[i..], exit);
        assert ops == ops[..i] + ops[i..];
        if op in ops[..i] { TracesUse(a, ops[..i], Through, op); } else { TracesUse(b, ops[i..], exit, op); }
      }
    case If(a, b) => if Runs(a, ops, exit) { TracesUse(a, ops, exit, op); } else { TracesUse(b, ops, exit, op); }
    case While(body) =>
      var n :| Loops(body, n, ops, exit);
      LoopsUse(body, n, ops, exit, op);
    case Switch(body) => TracesUse(body, ops, if exit.Through? && !Runs(body, ops, Through) then Broken else exit, op);
    case Call(body) => TracesUse(body, ops, if Runs(body, ops, Through) then Through else Returned, op);
  }

  lemma {:induction false} LoopsUse(body: Stmt, n: nat, ops: seq<Op>, exit: Exit, op: Op)
    requires Loops(body, n, ops, exit) && op in ops
    ensures Uses(body, op)
    decreases body, n + 1
  {
    if exit.Through? && Runs(body, ops, Broken) {
      TracesUse(body, ops, Broken, op);
    } else if exit.Returned? && Runs(body, ops, Returned) {
      TracesUse(body, ops, Returned, op);
    } else {
      var i :| 0 <= i <= |ops| && Runs(body, ops[..i], Through) && Loops(body, n - 1, ops[i..], exit);
      assert ops == ops[..i] + ops[i..];
      if op in ops[..i] { TracesUse(body, ops[..i], Through, op); } else { LoopsUse(body, n - 1, ops[i..], exit, op); }
    }
  }

  lemma SeqSplits(a: Stmt, b: Stmt, ops: seq<Op>, exit: Exit) returns (early: bool, i: nat)
    requires Runs(Seq(a, b), ops, exit)
    ensures early ==> !exit.Through? && Runs(a, ops, exit)
    ensures !early ==> i <= |ops| && Runs(a, ops[..i], Through) && Runs(b, ops[i..], exit)
  {
    early, i := !exit.Through? && Runs(a, ops, exit), 0;
    if !early { i :| 0 <= i <= |ops| && Runs(a, ops[..i], Through) && Runs(b, ops[i..], exit); }
  }

  /** A statement that is only left through its end. */
  predicate EndsThrough(s: Stmt) {
    match s
    case Break => false
    case Return => false
    case Seq(a, b) => EndsThrough(a) && EndsThrough(b)
    case If(a, b) => EndsThrough(a) && EndsThrough(b)
    case While(body) => EndsThrough(body)
    case Switch(body) => EndsThrough(body)
    case _ => true
  }

  lemma {:induction false} OnlyThrough(s: Stmt, ops: seq<Op>, exit: Exit)
    requires EndsThrough(s) && Runs(s, ops, exit)
    ensures exit.Through?
    decreases s, 0
  {
    match s
    case Seq(a, b) =>
      if !exit.Through? && Runs(a, ops, exit) {
        OnlyThrough(a, ops, exit);
      } else {
        var i :| 0 <= i <= |ops| && Runs(a, ops[..i], Through) && Runs(b, ops[i..], exit);
        OnlyThrough(b, ops[i..], exit);
      }
    case If(a, b) => OnlyThrough(if Runs(a, ops, exit) then a else b, ops, exit);
    case While(body) =>
      var n :| Loops(body, n, ops, exit);
      LoopsThrough(body, n, ops, exit);
    case Switch(body) => if exit.Returned? { OnlyThrough(body, ops, exit); }
    case _ =>
  }

  lemma {:induction false} LoopsThrough(body: Stmt, n: nat, ops: seq<Op>, exit: Exit)
    requires EndsThrough(body) && Loops(body, n, ops, exit)
    ensures exit.Through?
    decreases body, n + 1
  {
    if exit.Returned? && Runs(body, ops, Returned) {
      OnlyThrough(body, ops, Returned);
    } else if !exit.Through? {
      var i :| 0 <= i <= |ops| && Runs(body, ops[..i], Through) && Loops(body, n - 1, ops[i..], exit);
      LoopsThrough(body, n - 1, ops[i..], exit);
    }
  }

  /** No way through the statement, or out of it, avoids the operation. */
  predicate Must(s: Stmt, op: Op) {
    match s
    case Do(o) => o == op
    case Seq(a, b) => Must(a, op) || (EndsThrough(a) && Must(b, op))
    case If(a, b) => Must(a, op) && Must(b, op)
    case Switch(body) => Must(body, op)
    case Call(body) => Must(body, op)
    case _ => false
  }

  lemma {:induction false} TracesMust(s: Stmt, ops: seq<Op>, exit: Exit, op: Op)
    requires Must(s, op) && Runs(s, ops, exit)
    ensures op in ops
    decreases s
  {
    match s
    case Do(_) =>
    case Seq(a, b) =>
      if !exit.Through? && Runs(a, ops, exit) {
        if Must(a, op) { TracesMust(a, ops, exit, op); } else { OnlyThrough(a, ops, exit); }
      } else {
        var i :| 0 <= i <= |ops| && Runs(a, ops[..i], Through) && Runs(b, ops[i..], exit);
        assert ops == ops[..i] + ops[i..];
        if Must(a, op) { TracesMust(a, ops[..i], Through, op); } else { TracesMust(b, ops[i..], exit, op); }
      }
    case If(a, b) => TracesMust(if Runs(a, ops, exit) then a else b, ops, exit, op);
    case Switch(body) => TracesMust(body, ops, if exit.Through? && !Runs(body, ops, Through) then Broken else exit, op);
    case Call(body) => TracesMust(body, ops, if Runs(body, ops, Through) then Through else Returned, op);
  }

  lemma LookupsTakeTheLock()
    ensures Must(FindUser(), Take(UserLock)) && Must(LoginUser(), Take(UserLock))
  {
  }

  lemma ChangesTakeTheLock()
    ensures Must(CreateUser(), Take(UserLock)) && Must(RemoveUser(), Take(UserLock))
  {
    assert Must(FindUser(), Take(UserLock));
  }

  /** Whatever comes of them, a login, the creation and the removal of a record take the user lock. */
  lemma RegistryTakesTheLock(s: Stmt, ops: seq<Op>, exit: Exit)
    requires s == FindUser() || s == LoginUser() || s == CreateUser() || s == RemoveUser()
    requires Runs(s, ops, exit)
    ensures Take(UserLock) in ops
  {
    LookupsTakeTheLock();
    ChangesTakeTheLock();
    TracesMust(s, ops, exit, Take(UserLock));
  }

  /** So does every walk, and every resume posts. */
  lemma WalksTakeTheLock(command: Stmt, ops: seq<Op>, exit: Exit)
    requires Runs(IterateOverUsers(command), ops, exit)
    ensures Take(UserLock) in ops
  {
    TracesMust(IterateOverUsers(command), ops, exit, Take(UserLock));
  }

  lemma ResumePosts(ops: seq<Op>, exit: Exit)
    requires Runs(ResumeBroadcast(), ops, exit)
    ensures Post in ops
  {
    assert Must(ResumeBroadcast(), Post);
    TracesMust(ResumeBroadcast(), ops, exit, Post);
  }

  // ---------------------------------------------------------------- the agent walks under the semaphore

  /** Whether the semaphore is held after an operation. */
  predicate SemaphoreAfter(held: bool, op: Op) {
    if op == Take(Semaphore) then true else if op == Give(Semaphore) || op == Keep then false else held
  }

  predicate SemaphoreAtEnd(held: bool, ops: seq<Op>)
    decreases |ops|
  {
    if ops == [] then held else SemaphoreAtEnd(SemaphoreAfter(held, ops[0]), ops[1..])
  }

  /** The user lock is taken with the semaphore held only. */
  predicate UnderSemaphore(held: bool, ops: seq<Op>)
    decreases |ops|
  {
    ops == [] ||
    ((ops[0] == Take(UserLock) ==> held) && UnderSemaphore(SemaphoreAfter(held, ops[0]), ops[1..]))
  }

  lemma {:induction false} UnderConcat(held: bool, a: seq<Op>, b: seq<Op>)
    requires UnderSemaphore(held, a) && UnderSemaphore(SemaphoreAtEnd(held, a), b)
    ensures UnderSemaphore(held, a + b)
    ensures SemaphoreAtEnd(held, a + b) == SemaphoreAtEnd(SemaphoreAtEnd(held, a), b)
    decreases |a|
  {
    if a == [] {
      assert a + b == b;
    } else {
      assert (a + b)[0] == a[0] && (a + b)[1..] == a[1..] + b;
      UnderConcat(SemaphoreAfter(held, a[0]), a[1..], b);
    }
  }

  /** A second check, for programs without `break` and `return`: whether they end with the semaphore held. */
  function Coverage(s: Stmt, held: bool): Option<bool> {
    match s
    case Skip => Some(held)
    case Do(op) => if op == Take(UserLock) && !held then None else Some(SemaphoreAfter(held, op))
    case Seq(a, b) => var mid := Coverage(a, held); if mid.None? then None else Coverage(b, mid.value)
    case If(a, b) => if Coverage(a, held) == Coverage(b, held) then Coverage(a, held) else None
    case While(body) => if Coverage(body, held) == Some(held) then Some(held) else None
    case _ => None
  }

  /** It is sound for their traces. */
  lemma {:induction false} CoverageIsSound(s: Stmt, held: bool, ops: seq<Op>, exit: Exit)
    requires Coverage(s, held).Some? && Runs(s, ops, exit)
    ensures exit.Through? && UnderSemaphore(held, ops) && SemaphoreAtEnd(held, ops) == Coverage(s, held).value
    decreases s, 0
  {
    match s
    case Skip =>
    case Do(op) => assert ops[1..] == [];
    case Seq(a, b) =>
      var mid := Coverage(a, held).value;
      if !exit.Through? && Runs(a, ops, exit) {
        CoverageIsSound(a, held, ops, exit);
      } else {
        var i :| 0 <= i <= |ops| && Runs(a, ops[..i], Through) && Runs(b, ops[i..], exit);
        CoverageIsSound(a, held, ops[..i], Through);
        CoverageIsSound(b, mid, ops[i..], exit);
        UnderConcat(held, ops[..i], ops[i..]);
        assert ops == ops[..i] + ops[i..];
      }
    case If(a, b) => CoverageIsSound(if Runs(a, ops, exit) then a else b, held, ops, exit);
    case While(body) =>
      var n :| Loops(body, n, ops, exit);
      LoopIsCovered(body, n, held, ops, exit);
  }

  lemma {:induction false} LoopIsCovered(body: Stmt, n: nat, held: bool, ops: seq<Op>, exit: Exit)
    requires Coverage(body, held) == Some(held) && Loops(body, n, ops, exit)
    ensures exit.Through? && UnderSemaphore(held, ops) && SemaphoreAtEnd(held, ops) == held
    decreases body, n + 1
  {
    if exit.Through? && ops == [] {
    } else if exit.Through? && Runs(body, ops, Broken) {
      CoverageIsSound(body, held, ops, Broken);
    } else if exit.Returned? && Runs(body, ops, Returned) {
      CoverageIsSound(body, held, ops, Returned);
    } else {
      var i :| 0 <= i <= |ops| && Runs(body, ops[..i], Through) && Loops(body, n - 1, ops[i..], exit);
      CoverageIsSound(body, held, ops[..i], Through);
      LoopIsCovered(body, n - 1, held, ops[i..], exit);
      UnderConcat(held, ops[..i], ops[i..]);
      assert ops == ops[..i] + ops[i..];
    }
  }

  lemma SeqCovered(a: Stmt, b: Stmt, held: bool, mid: bool, end: bool)
    requires Coverage(a, held) == Some(mid) && Coverage(b, mid) == Some(end)
    ensures Coverage(Seq(a, b), held) == Some(end)
  {
  }

  lemma WhileCovered(body: Stmt, held: bool)
    requires Coverage(body, held) == Some(held)
    ensures Coverage(While(body), held) == Some(held)
  {
  }

  lemma LogsCovered(held: bool)
    ensures Coverage(Logs(), held) == Some(held)
  {
    SeqCovered(Do(Touch(LogLock)), Do(Give(LogLock)), held, held, held);
    SeqCovered(Do(Take(LogLock)), Seq(Do(Touch(LogLock)), Do(Give(LogLock))), held, held, held);
    WhileCovered(LogLine(), held);
  }

  lemma VisitCovered()
    ensures Coverage(AgentVisit(), true) == Some(true)
  {
    LogsCovered(true);
    SeqCovered(Logs(), Tell(), true, true, true);
    SeqCovered(Do(Touch(Semaphore)), Seq(Logs(), Tell()), true, true, true);
  }

  lemma WalkCovered()
    ensures Coverage(IterateOverUsers(AgentVisit()), true) == Some(true)
  {
    var round, unlock := Seq(Do(Touch(UserLock)), AgentVisit()), Seq(Do(Give(UserLock)), Logs());
    LogsCovered(true);
    VisitCovered();
    SeqCovered(Do(Touch(UserLock)), AgentVisit(), true, true, true);
    WhileCovered(round, true);
    SeqCovered(Logs(), While(round), true, true, true);
    SeqCovered(Do(Give(UserLock)), Logs(), true, true, true);
    SeqCovered(Seq(Logs(), While(round)), unlock, true, true, true);
    SeqCovered(Do(Take(UserLock)), Seq(Seq(Logs(), While(round)), unlock), true, true, true);
  }

  lemma TurnCovered()
    ensures Coverage(AgentTurn(), false) == Some(false)
  {
    var walk := Seq(IterateOverUsers(AgentVisit()), Do(Give(Semaphore)));
    LogsCovered(true);
    WalkCovered();
    SeqCovered(IterateOverUsers(AgentVisit()), Do(Give(Semaphore)), true, true, false);
    SeqCovered(Logs(), walk, true, true, false);
    SeqCovered(Do(Take(Semaphore)), Seq(Logs(), walk), false, true, false);
    SeqCovered(Do(Wait), Seq(Do(Take(Semaphore)), Seq(Logs(), walk)), false, false, false);
  }

  lemma BlockOfThree(a: Stmt, b: Stmt, c: Stmt)
    ensures Block([a, b, c]) == Seq(a, Seq(b, Seq(c, Skip)))
  {
    assert [a, b, c][1..] == [b, c] && [b, c][1..] == [c] && [c][1..] == [];
    assert Block([c]) == Seq(c, Skip);
    assert Block([b, c]) == Seq(b, Block([c]));
  }

  lemma AgentCovered()
    ensures Coverage(Agent(), false) == Some(false)
  {
    var turns, last := While(AgentTurn()), Seq(Logs(), Skip);
    LogsCovered(false);
    TurnCovered();
    WhileCovered(AgentTurn(), false);
    SeqCovered(Logs(), Skip, false, false, false);
    SeqCovered(turns, last, false, false, false);
    SeqCovered(Logs(), Seq(turns, last), false, false, false);
    BlockOfThree(Logs(), turns, Logs());
  }

  /** In every trace of the agent the user lock is taken with the semaphore held only, so never during a pause. */
  lemma AgentWalksUnderSemaphore(ops: seq<Op>, exit: Exit)
    requires Runs(Agent(), ops, exit)
    ensures UnderSemaphore(false, ops) && exit.Through?
  {
    AgentCovered();
    CoverageIsSound(Agent(), false, ops, exit);
  }

  /** The trace of the middle one of three parts in a row. */
  lemma MiddlePart(a: Stmt, b: Stmt, c: Stmt, ops: seq<Op>) returns (i: nat, j: nat)
    requires Runs(Seq(a, Seq(b, c)), ops, Through)
    ensures i <= j <= |ops| && Runs(b, ops[i..j], Through)
  {
    var early, k := SeqSplits(a, Seq(b, c), ops, Through);
    var early', m := SeqSplits(b, c, ops[k..], Through);
    i, j := k, k + m;
    assert ops[k..][..m] == ops[i..j];
  }

  lemma TakeAndKeepIs(ops: seq<Op>)
    requires Runs(TakeAndKeep(), ops, Through)
    ensures ops == [Take(Semaphore), Touch(Semaphore), Keep]
  {
    var early, i := SeqSplits(Do(Take(Semaphore)), Seq(Do(Touch(Semaphore)), Do(Keep)), ops, Through);
    var early', j := SeqSplits(Do(Touch(Semaphore)), Do(Keep), ops[i..], Through);
    assert ops == ops[..i] + (ops[i..][..j] + ops[i..][j..]);
  }

  lemma PauseCovered()
    ensures Coverage(Block([Logs(), TakeAndKeep(), Logs()]), false) == Some(false)
  {
    LogsCovered(false);
    SeqCovered(Do(Touch(Semaphore)), Do(Keep), true, true, false);
    SeqCovered(Do(Take(Semaphore)), Seq(Do(Touch(Semaphore)), Do(Keep)), false, true, false);
    SeqCovered(Logs(), Skip, false, false, false);
    SeqCovered(TakeAndKeep(), Seq(Logs(), Skip), false, false, false);
    SeqCovered(Logs(), Seq(TakeAndKeep(), Seq(Logs(), Skip)), false, false, false);
    BlockOfThree(Logs(), TakeAndKeep(), Logs());
  }

  /** Every completed pause has taken the semaphore, and keeps it. */
  lemma PauseTakesAndKeeps(ops: seq<Op>) returns (i: nat)
    requires Runs(PauseBroadcast(), ops, Through)
    ensures i + 3 <= |ops| && ops[i..i + 3] == [Take(Semaphore), Touch(Semaphore), Keep]
  {
    var body := Block([Logs(), TakeAndKeep(), Logs()]);
    PauseCovered();
    if Runs(body, ops, Returned) { CoverageIsSound(body, false, ops, Returned); }
    BlockOfThree(Logs(), TakeAndKeep(), Logs());
    var j;
    i, j := MiddlePart(Logs(), TakeAndKeep(), Seq(Logs(), Skip), ops);
    TakeAndKeepIs(ops[i..j]);
    assert |ops[i..j]| == 3;
  }

  // ---------------------------------------------------------------- a failing allocation

  /**
   The locked half of `create_User` as it is written: when `malloc` fails it logs and returns out of
   the locked part.
   */
  function AppendAsWritten(): Stmt { Call(Locked(Seq(OrReturn(), Logs()), LogAndReturn())) }

  /** Without that branch. */
  function AppendIfAllocated(): Stmt { Call(Locked(Seq(Logs(), Logs()), LogAndReturn())) }

  lemma AllocatedIsAccepted()
    ensures Accepted(AppendIfAllocated())
  {
    var n, u := NOTHING, NOTHING.(user := true);
    LogsGiveBack(u, None, Some(n));
    ReturnsBalance(n, None);
    LockedBalances(Seq(Logs(), Logs()), LogAndReturn(), n, None, Some(n));
    BodyAccepted(Locked(Seq(Logs(), Logs()), LogAndReturn()), n);
  }

  /** The part under the lock, run to its end, has not taken the failing branch. */
  lemma AllocatedThrough(ops: seq<Op>)
    requires Runs(Seq(OrReturn(), Logs()), ops, Through)
    ensures Runs(Seq(Logs(), Logs()), ops, Through)
  {
    var k :| 0 <= k <= |ops| && Runs(OrReturn(), ops[..k], Through) && Runs(Logs(), ops[k..], Through);
    if Runs(LogAndReturn(), ops[..k], Through) { assert false; }
    assert Runs(Logs(), ops[..k], Through);
  }

  /** A locked part takes the lock first, and is left early or gives the lock back. */
  lemma LockedSplits(inside: Stmt, after: Stmt, ops: seq<Op>, exit: Exit) returns (early: bool, j: nat)
    requires Runs(Locked(inside, after), ops, exit)
    ensures 1 <= |ops| && ops[0] == Take(UserLock)
    ensures early ==> Runs(inside, ops[1..], exit)
    ensures !early ==> j <= |ops| - 1 && Runs(inside, ops[1..][..j], Through)
    ensures !early ==> Runs(Seq(Do(Give(UserLock)), after), ops[1..][j..], exit)
  {
    var rest := Seq(inside, Seq(Do(Give(UserLock)), after));
    assert Locked(inside, after) == Seq(Do(Take(UserLock)), rest);
    var left, i := SeqSplits(Do(Take(UserLock)), rest, ops, exit);
    assert ops[..i] == [Take(UserLock)];
    assert i == |ops[..i]| == 1 && ops[..i][0] == ops[0];
    early, j := SeqSplits(inside, Seq(Do(Give(UserLock)), after), ops[1..], exit);
  }

  lemma LockedJoins(inside: Stmt, after: Stmt, ops: seq<Op>, j: nat, exit: Exit)
    requires 1 <= |ops| && ops[0] == Take(UserLock) && j <= |ops| - 1
    requires Runs(inside, ops[1..][..j], Through) && Runs(Seq(Do(Give(UserLock)), after), ops[1..][j..], exit)
    ensures Runs(Locked(inside, after), ops, exit)
  {
    var rest := Seq(inside, Seq(Do(Give(UserLock)), after));
    assert Runs(rest, ops[1..], exit);
    assert ops[..1] == [Take(UserLock)];
    assert Runs(Do(Take(UserLock)), ops[..1], Through);
  }

  /** Left early, the locked part has not given the lock back. */
  lemma EarlyKeepsTheLock(ops: seq<Op>, exit: Exit)
    requires Runs(Seq(OrReturn(), Logs()), ops, exit)
    ensures Give(UserLock) !in ops
  {
    if Give(UserLock) in ops { TracesUse(Seq(OrReturn(), Logs()), ops, exit, Give(UserLock)); }
  }

  /** A trace that gives the lock back has not taken the failing branch. */
  lemma GivenBackIsAllocated(ops: seq<Op>)
    requires Runs(AppendAsWritten(), ops, Through) && Give(UserLock) in ops
    ensures Runs(AppendIfAllocated(), ops, Through)
  {
    var inside, meant := Seq(OrReturn(), Logs()), Seq(Logs(), Logs());
    var exit := if Runs(Locked(inside, LogAndReturn()), ops, Through) then Through else Returned;
    var early, j := LockedSplits(inside, LogAndReturn(), ops, exit);
    assert ops == [ops[0]] + ops[1..];
    if early { EarlyKeepsTheLock(ops[1..], exit); }
    AllocatedThrough(ops[1..][..j]);
    LockedJoins(meant, LogAndReturn(), ops, j, exit);
  }

  /** What has taken the user lock and never gives it back does not end in order. */
  lemma {:induction false} LockNotGivenBack(held: Held, ops: seq<Op>)
    requires held.user && Give(UserLock) !in ops
    ensures !Ordered(held, ops)
    decreases |ops|
  {
    if ops != [] {
      assert ops[0] in ops;
      LockNotGivenBack(After(held, ops[0]), ops[1..]);
    }
  }

  /** So `create_User` keeps the order exactly on those traces that give the user lock back, */
  lemma FailedAllocationKeepsTheLock(ops: seq<Op>)
    requires Runs(AppendAsWritten(), ops, Through)
    ensures Ordered(NOTHING, ops) <==> Give(UserLock) in ops
  {
    if Give(UserLock) in ops {
      GivenBackIsAllocated(ops);
      AllocatedIsAccepted();
      AcceptedIsOrdered(AppendIfAllocated(), ops);
    } else {
      var inside := Seq(OrReturn(), Logs());
      var exit := if Runs(Locked(inside, LogAndReturn()), ops, Through) then Through else Returned;
      var early, j := LockedSplits(inside, LogAndReturn(), ops, exit);
      LockNotGivenBack(NOTHING.(user := true), ops[1..]);
    }
  }

  /** and with `malloc` failing it has one that does not. */
  lemma LeakingTrace()
    ensures Runs(AppendAsWritten(), [Take(UserLock)], Through) && !Ordered(NOTHING, [Take(UserLock)])
  {
    var ops, inside := [Take(UserLock)], Seq(OrReturn(), Logs());
    assert ops[..1] == ops && ops[1..] == [];
    var none := ops[1..];
    assert none[..0] == [] && none[0..] == [];
    assert Loops(LogLine(), 0, none[..0], Through);
    assert Runs(Logs(), none[..0], Through) && Runs(Return, none[0..], Returned);
    assert Runs(LogAndReturn(), none, Returned);
    assert Runs(OrReturn(), none, Returned);
    assert Runs(inside, none, Returned);
    assert Runs(Seq(inside, Seq(Do(Give(UserLock)), LogAndReturn())), ops[1..], Returned);
    assert Runs(Do(Take(UserLock)), ops[..1], Through);
    assert Runs(Locked(inside, LogAndReturn()), ops, Returned);
    FailedAllocationKeepsTheLock(ops);
  }
}
