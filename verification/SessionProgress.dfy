/** A thread never waits for another one: whatever it has begun, it finishes when it runs alone. */
module SessionProgress {

  import opened Session

  /** A thread's accesses in order: access number `k` in state `s` leads to `f(s, k)`. */
  type Course = (State, nat) -> State

  /** The state after `n` accesses, from number `k` on. */
  function After(f: Course, s: State, k: nat, n: nat): State
    decreases n
  {
    if n == 0 then s else After(f, f(s, k), k + 1, n - 1)
  }

  lemma {:induction false} AfterBoth(f: Course, s: State, k: nat, m: nat, n: nat)
    ensures After(f, After(f, s, k, m), k + m, n) == After(f, s, k, m + n)
    decreases m
  {
    if m > 0 { AfterBoth(f, f(s, k), k + 1, m - 1, n); }
  }

  /** Thread `t` alone, with the choices that `c` makes for it. */
  function Alone(t: Tid, c: nat -> Choice): Course { (s: State, k: nat) => Step(s, Event(t, c(k))) }

  // ---------------------------------------------------------------- every access leaves simpler tasks

  function UseLevel(u: UseTask): nat {
    match u
    case Find(_, _) => 17
    case Look(_, _, _) => 16
    case Acquire(_, _, _) => 15
    case CheckId(_, _, _) => 14
    case CheckState(_, _) => 13
    case AddRef(_, _) => 12
    case Put(_, _) => 11
  }

  function SendLevel(s: SendOp): nat {
    match s
    case Finish => 10
    case Flag => 9
    case Drain => 8
    case Claim => 7
    case Transmit => 6
    case Refuse => 5
    case Unflag => 4
  }

  function RelLevel(l: RelOp): nat {
    match l
    case Cleanup => 30
    case Request => 3
    case Drop => 2
    case Post => 1
  }

  function CleanLevel(c: CleanOp): nat {
    match c
    case Leave => 29
    case CountDown => 28
    case DrainRing => 27
    case ClearRings => 26
    case ClearId => 25
    case ClearState => 24
    case ClearFlag => 23
    case Push => 22
  }

  function AcceptLevel(a: AcceptOp): nat {
    match a
    case ResetId => 18
    case ResetControl => 17
    case ResetSend => 16
    case ResetState => 15
    case TakeId => 14
    case SetId(_) => 13
    case SetState => 12
    case CountUp => 11
    case Register => 10
    case Join => 9
    case First => 8
    case FirstIssue => 7
    case Abandon => 6
  }

  function Level(task: Task): nat {
    match task
    case UseT(u) => UseLevel(u)
    case SendT(_, s) => SendLevel(s)
    case RecvT(_, r) => if r.Next? then 5 else 4
    case RelT(_, l) => RelLevel(l)
    case CleanT(_, _, c) => CleanLevel(c)
    case AcceptT(_, a) => AcceptLevel(a)
    case SubRef(_) => 0
  }

  predicate Below(todo: seq<Task>, level: nat) { forall k: nat :: k < |todo| ==> Level(todo[k]) < level }

  lemma UseBelow(sh: Shared, u: UseTask, c: Choice)
    requires !c.retry
    ensures Below(ExecUse(sh, u, c).1, UseLevel(u))
  {
  }

  lemma SendBelow(slot: Slot, i: nat, s: SendOp, c: Choice)
    requires !c.retry
    ensures Below(ExecSend(slot, i, s, c).1, SendLevel(s))
  {
  }

  lemma RecvBelow(slot: Slot, i: nat, r: RecvOp, c: Choice)
    requires !c.retry
    ensures Below(ExecRecv(slot, i, r, c).1, Level(RecvT(i, r)))
  {
  }

  lemma RelBelow(slot: Slot, i: nat, l: RelOp, c: Choice)
    requires !c.retry
    ensures Below(ExecRel(slot, i, l, c).1, RelLevel(l))
  {
  }

  lemma CleanBelow(sh: Shared, i: nat, sid: nat, op: CleanOp)
    requires i < |sh.slots|
    ensures Below(ExecClean(sh, i, sid, op).1, CleanLevel(op))
  {
  }

  lemma AcceptBelow(sh: Shared, i: nat, a: AcceptOp, c: Choice)
    requires i < |sh.slots| && !c.retry
    ensures Below(ExecAccept(sh, i, a, c).1, AcceptLevel(a))
  {
  }

  lemma ExecBelow(sh: Shared, task: Task, c: Choice)
    requires !c.retry
    ensures Below(Exec(sh, task, c).1, Level(task))
  {
    match task
    case UseT(u) => UseBelow(sh, u, c);
    case SendT(i, s) => if i < |sh.slots| { SendBelow(sh.slots[i], i, s, c); }
    case RecvT(i, r) => if i < |sh.slots| { RecvBelow(sh.slots[i], i, r, c); }
    case RelT(i, l) => if i < |sh.slots| { RelBelow(sh.slots[i], i, l, c); }
    case CleanT(i, sid, op) => if i < |sh.slots| { CleanBelow(sh, i, sid, op); }
    case AcceptT(i, a) => if i < |sh.slots| { AcceptBelow(sh, i, a, c); }
    case SubRef(_) =>
  }

  // ---------------------------------------------------------------- all that is begun is finished

  predicate Has(s: State, t: Tid, todo: seq<Task>) { t < |s.threads| && s.threads[t] == todo }

  /** After some number of accesses, thread `t` has exactly the tasks `rest` left. */
  ghost predicate ComesTo(f: Course, s: State, t: Tid, k: nat, rest: seq<Task>) {
    exists n: nat :: Has(After(f, s, k, n), t, rest)
  }

  /** Thread `t` has made access `task`, and has `more` simpler tasks instead. */
  predicate Replaced(s: State, t: Tid, task: Task, more: seq<Task>, rest: seq<Task>) {
    Below(more, Level(task)) && Has(s, t, more + rest)
  }

  ghost predicate Simpler(s: State, t: Tid, task: Task, rest: seq<Task>) {
    exists more :: Replaced(s, t, task, more, rest)
  }

  ghost predicate Simplifies(f: Course, t: Tid) {
    forall s: State, k: nat, task: Task, rest: seq<Task> ::
      Has(s, t, [task] + rest) ==> Simpler(f(s, k), t, task, rest)
  }

  lemma StepSimplifies(s: State, t: Tid, c: Choice, task: Task, rest: seq<Task>)
    requires !c.retry && Has(s, t, [task] + rest)
    ensures Simpler(Step(s, Event(t, c)), t, task, rest)
  {
    ExecBelow(s.sh, task, c);
    assert ([task] + rest)[1..] == rest;
    assert Replaced(Step(s, Event(t, c)), t, task, Exec(s.sh, task, c).1, rest);
  }

  lemma AloneSimplifies(t: Tid, c: nat -> Choice)
    requires forall j :: !c(j).retry
    ensures Simplifies(Alone(t, c), t)
  {
    forall s: State, k: nat, task: Task, rest: seq<Task> | Has(s, t, [task] + rest)
      ensures Simpler(Alone(t, c)(s, k), t, task, rest)
    {
      StepSimplifies(s, t, c(k), task, rest);
    }
  }

  lemma {:induction false} Finishes(f: Course, s: State, t: Tid, k: nat, list: seq<Task>, rest: seq<Task>, level: nat)
    requires Simplifies(f, t) && Has(s, t, list + rest) && Below(list, level)
    ensures ComesTo(f, s, t, k, rest)
    decreases level, |list|
  {
    if list == [] {
      assert list + rest == rest;
      assert Has(After(f, s, k, 0), t, rest);
    } else {
      var later, s1 := list[1..] + rest, f(s, k);
      assert list + rest == [list[0]] + later;
      var more :| Replaced(s1, t, list[0], more, later);
      Finishes(f, s1, t, k + 1, more, later, Level(list[0]));
      var m: nat :| Has(After(f, s1, k + 1, m), t, later);
      Finishes(f, After(f, s1, k + 1, m), t, k + 1 + m, list[1..], rest, level);
      var n: nat :| Has(After(f, After(f, s1, k + 1, m), k + 1 + m, n), t, rest);
      AfterBoth(f, s1, k + 1, m, n);
      assert Has(After(f, s, k, 1 + m + n), t, rest);
    }
  }

  lemma LevelsBelow(todo: seq<Task>)
    ensures Below(todo, 31)
  {
  }

  /** From any state, whatever the other threads are in the middle of, a thread that runs alone and whose weak CAS
    * does not fail without a reason finishes all it has begun, whichever system calls succeed or fail; and so
    * does any first part of its tasks, such as one call of SendPacket.
    */
  lemma FinishesAlone(s: State, t: Tid, c: nat -> Choice, list: seq<Task>, rest: seq<Task>)
    requires (forall j :: !c(j).retry) && Has(s, t, list + rest)
    ensures ComesTo(Alone(t, c), s, t, 0, rest)
  {
    LevelsBelow(list);
    AloneSimplifies(t, c);
    Finishes(Alone(t, c), s, t, 0, list, rest, 31);
  }
}
