/**
 The server's three locks, below the level of the chat model: the broadcast semaphore, the
 user lock and the log lock. The threads are given as programs in the control flow of the
 code, with loops left by `break`, functions left by `return` and unlocks in between. A
 static check of the programs is proved sound for all their traces.
 */
module LockOrder {
  import opened CText

  type Thread = nat

  datatype Resource = Semaphore | UserLock | LogLock

  /** The order of acquisition. */
  function Rank(r: Resource): nat {
    match r
    case Semaphore => 0
    case UserLock => 1
    case LogLock => 2
  }

  datatype Op =
    | Take(r: Resource)
    | Give(r: Resource)
    | Keep    // a pause goes on: the semaphore stays taken when its function returns
    | Post    // a resume posts it, whoever took it
    | Wait    // `mq_receive`, `mq_send`
    | Touch(r: Resource)  // the list, the log buffer, or the pause that this one guards

  datatype Held = Held(sem: bool, user: bool, log: bool)

  const NOTHING: Held := Held(false, false, false)

  predicate Has(held: Held, r: Resource) {
    match r
    case Semaphore => held.sem
    case UserLock => held.user
    case LogLock => held.log
  }

  function With(held: Held, r: Resource, b: bool): Held {
    match r
    case Semaphore => held.(sem := b)
    case UserLock => held.(user := b)
    case LogLock => held.(log := b)
  }

  /** Everything held ranks below `r`. */
  predicate Below(held: Held, r: Resource) {
    match r
    case Semaphore => !held.sem && !held.user && !held.log
    case UserLock => !held.user && !held.log
    case LogLock => !held.log
  }

  lemma BelowIsByRank(held: Held, r: Resource)
    ensures Below(held, r) <==> forall h :: Has(held, h) ==> Rank(h) < Rank(r)
  {
    if !Below(held, r) {
      var h := if held.log then LogLock else if held.user then UserLock else Semaphore;
      assert Has(held, h) && Rank(h) >= Rank(r);
    }
  }

  /**
   What a thread that holds these may do: take what ranks above all of them, give back what
   it has, touch what that guards, and wait for the queue, keep a pause or lift one with
   nothing else held.
   */
  predicate Allowed(held: Held, op: Op) {
    match op
    case Take(r) => Below(held, r)
    case Give(r) => Has(held, r)
    case Keep => held == NOTHING.(sem := true)
    case Post => held == NOTHING
    case Wait => held == NOTHING
    case Touch(r) => Has(held, r)
  }

  function After(held: Held, op: Op): Held {
    match op
    case Take(r) => With(held, r, true)
    case Give(r) => With(held, r, false)
    case Keep => held.(sem := false)
    case _ => held
  }

  /** A trace that respects the order from here to its end, and gives everything back. */
  predicate Ordered(held: Held, ops: seq<Op>)
    decreases |ops|
  {
    if ops == [] then held == NOTHING else Allowed(held, ops[0]) && Ordered(After(held, ops[0]), ops[1..])
  }

  // ---------------------------------------------------------------- programs and their traces

  /** Conditions and loop guards are left open: either way may be taken, any number of rounds made. */
  datatype Stmt =
    | Skip
    | Do(op: Op)
    | Break
    | Return
    | Seq(first: Stmt, second: Stmt)
    | If(yes: Stmt, no: Stmt)
    | While(body: Stmt)
    | Switch(body: Stmt)
    | Call(body: Stmt)

  datatype Exit = Through | Broken | Returned

  /** `ops` is what a run of the statement does, and `exit` how it is left. */
  ghost predicate Runs(s: Stmt, ops: seq<Op>, exit: Exit)
    decreases s, 0
  {
    match s
    case Skip => ops == [] && exit.Through?
    case Do(op) => ops == [op] && exit.Through?
    case Break => ops == [] && exit.Broken?
    case Return => ops == [] && exit.Returned?
    case Seq(a, b) =>
      || (!exit.Through? && Runs(a, ops, exit))
      || exists i :: 0 <= i <= |ops| && Runs(a, ops[..i], Through) && Runs(b, ops[i..], exit)
    case If(a, b) => Runs(a, ops, exit) || Runs(b, ops, exit)
    case While(body) => exists n :: Loops(body, n, ops, exit)
    case Switch(body) =>
      if exit.Through? then Runs(body, ops, Through) || Runs(body, ops, Broken)
      else exit.Returned? && Runs(body, ops, exit)
    case Call(body) => exit.Through? && (Runs(body, ops, Through) || Runs(body, ops, Returned))
  }

  /** At most `n` whole rounds of the loop, and then the guard fails or a round is left early. */
  ghost predicate Loops(body: Stmt, n: nat, ops: seq<Op>, exit: Exit)
    decreases body, n + 1
  {
    || (exit.Through? && (ops == [] || Runs(body, ops, Broken)))
    || (exit.Returned? && Runs(body, ops, Returned))
    || (n > 0 && exists i :: 0 <= i <= |ops| && Runs(body, ops[..i], Through) && Loops(body, n - 1, ops[i..], exit))
  }

  // ---------------------------------------------------------------- the check

  /** Where the check finds a statement to end: with these held, never, or against the order. */
  datatype Flow = At(held: Held) | Never | Bad

  function Join(f: Flow, g: Flow): Flow {
    if f.Never? then g else if g.Never? || f == g then f else Bad
  }

  function Back(f: Flow, held: Held): Flow { if f == At(held) || f.Never? then At(held) else Bad }

  /** With `held` at the start, and what has to be held at a `break` and at a `return`. */
  function Check(s: Stmt, held: Held, brk: Option<Held>, ret: Option<Held>): Flow {
    match s
    case Skip => At(held)
    case Do(op) => if Allowed(held, op) then At(After(held, op)) else Bad
    case Break => if brk == Some(held) then Never else Bad
    case Return => if ret == Some(held) then Never else Bad
    case Seq(a, b) => (match Check(a, held, brk, ret) case At(h) => Check(b, h, brk, ret) case f => f)
    case If(a, b) => Join(Check(a, held, brk, ret), Check(b, held, brk, ret))
    case While(body) => Back(Check(body, held, Some(held), ret), held)
    case Switch(body) => Back(Check(body, held, Some(held), ret), held)
    case Call(body) => Back(Check(body, held, None, Some(held)), held)
  }

  /** What is held where a statement is left. */
  function Left(f: Flow, brk: Option<Held>, ret: Option<Held>, exit: Exit): Option<Held> {
    match exit
    case Through => if f.At? then Some(f.held) else None
    case Broken => brk
    case Returned => ret
  }

  /** Whatever is in order after the statement is in order with the statement's trace before it. */
  ghost predicate Extends(held: Held, ops: seq<Op>, left: Option<Held>) {
    left.Some? && forall rest :: Ordered(left.value, rest) ==> Ordered(held, ops + rest)
  }

  lemma ExtendsNothing(held: Held)
    ensures Extends(held, [], Some(held))
  {
    forall rest: seq<Op>
      ensures [] + rest == rest
    {
    }
  }

  lemma ExtendsOne(held: Held, op: Op)
    requires Allowed(held, op)
    ensures Extends(held, [op], Some(After(held, op)))
  {
    forall rest | Ordered(After(held, op), rest)
      ensures Ordered(held, [op] + rest)
    {
      assert ([op] + rest)[1..] == rest;
    }
  }

  lemma ExtendsAt(held: Held, ops: seq<Op>, left: Option<Held>, rest: seq<Op>)
    requires Extends(held, ops, left) && Ordered(left.value, rest)
    ensures Ordered(held, ops + rest)
  {
  }

  lemma Regroup(ops: seq<Op>, i: nat, rest: seq<Op>)
    requires i <= |ops|
    ensures ops[..i] + (ops[i..] + rest) == ops + rest
  {
  }

  lemma ExtendsBoth(held: Held, ops: seq<Op>, i: nat, mid: Held, left: Option<Held>)
    requires i <= |ops| && Extends(held, ops[..i], Some(mid)) && Extends(mid, ops[i..], left)
    ensures Extends(held, ops, left)
  {
    var first, second := ops[..i], ops[i..];
    forall rest | Ordered(left.value, rest)
      ensures Ordered(held, ops + rest)
    {
      ExtendsAt(mid, second, left, rest);
      ExtendsAt(held, first, Some(mid), second + rest);
      Regroup(ops, i, rest);
    }
  }

  /** The check is sound: every trace of a checked statement keeps the order, however it is left. */
  lemma {:induction false} CheckIsSound(s: Stmt, held: Held, brk: Option<Held>, ret: Option<Held>, ops: seq<Op>,
        exit: Exit)
    requires !Check(s, held, brk, ret).Bad? && Runs(s, ops, exit)
    ensures Extends(held, ops, Left(Check(s, held, brk, ret), brk, ret, exit))
    decreases s, 0
  {
    match s
    case Skip => ExtendsNothing(held);
    case Do(op) => ExtendsOne(held, op);
    case Break => ExtendsNothing(held);
    case Return => ExtendsNothing(held);
    case Seq(a, b) => SeqIsSound(a, b, held, brk, ret, ops, exit);
    case If(a, b) =>
      CheckIsSound(if Runs(a, ops, exit) then a else b, held, brk, ret, ops, exit);
    case While(body) =>
      var n :| Loops(body, n, ops, exit);
      LoopIsSound(body, n, held, ret, ops, exit);
    case Switch(body) =>
      var inner := if exit.Through? && !Runs(body, ops, Through) then Broken else exit;
      CheckIsSound(body, held, Some(held), ret, ops, inner);
    case Call(body) =>
      var inner := if Runs(body, ops, Through) then Through else Returned;
      CheckIsSound(body, held, None, Some(held), ops, inner);
  }

  lemma {:induction false} SeqIsSound(a: Stmt, b: Stmt, held: Held, brk: Option<Held>, ret: Option<Held>,
        ops: seq<Op>, exit: Exit)
    requires !Check(Seq(a, b), held, brk, ret).Bad? && Runs(Seq(a, b), ops, exit)
    ensures Extends(held, ops, Left(Check(Seq(a, b), held, brk, ret), brk, ret, exit))
    decreases Seq(a, b), 0, 0
  {
    if !exit.Through? && Runs(a, ops, exit) {
      CheckIsSound(a, held, brk, ret, ops, exit);
    } else {
      var i :| 0 <= i <= |ops| && Runs(a, ops[..i], Through) && Runs(b, ops[i..], exit);
      CheckIsSound(a, held, brk, ret, ops[..i], Through);
      var mid := Check(a, held, brk, ret).held;
      CheckIsSound(b, mid, brk, ret, ops[i..], exit);
      ExtendsBoth(held, ops, i, mid, Left(Check(b, mid, brk, ret), brk, ret, exit));
    }
  }

  lemma {:induction false} LoopIsSound(body: Stmt, n: nat, held: Held, ret: Option<Held>, ops: seq<Op>, exit: Exit)
    requires !Back(Check(body, held, Some(held), ret), held).Bad? && Loops(body, n, ops, exit)
    ensures Extends(held, ops, Left(At(held), None, ret, exit))
    decreases body, n + 1
  {
    if exit.Through? && ops == [] {
      ExtendsNothing(held);
    } else if exit.Through? && Runs(body, ops, Broken) {
      CheckIsSound(body, held, Some(held), ret, ops, Broken);
    } else if exit.Returned? && Runs(body, ops, Returned) {
      CheckIsSound(body, held, Some(held), ret, ops, Returned);
    } else {
      var i :| 0 <= i <= |ops| && Runs(body, ops[..i], Through) && Loops(body, n - 1, ops[i..], exit);
      CheckIsSound(body, held, Some(held), ret, ops[..i], Through);
      LoopIsSound(body, n - 1, held, ret, ops[i..], exit);
      ExtendsBoth(held, ops, i, held, Left(At(held), None, ret, exit));
    }
  }

  /** A program that starts and ends with nothing held, and passes the check. */
  predicate Accepted(p: Stmt) { Back(Check(p, NOTHING, None, None), NOTHING) == At(NOTHING) }

  lemma AcceptedIsOrdered(p: Stmt, ops: seq<Op>)
    requires Accepted(p) && Runs(p, ops, Through)
    ensures Ordered(NOTHING, ops)
  {
    CheckIsSound(p, NOTHING, None, None, ops, Through);
    assert Ordered(NOTHING, []) && ops + [] == ops;
  }
}
