/** What every reachable state of the session machine satisfies, proved step by step. */
module SessionInvariant {

  import opened Common
  import opened Session

  // ---------------------------------------------------------------- what pending tasks hold

  /** What pending tasks may hold of one slot: counted references, a decided but unfinished release,
    * the send flag (or the flag after a refused WSASend), a filled batch (and one claimed for WSASend),
    * the right to receive, and the creation or the cleaning of the slot.
    */
  datatype Hold = Refs | Rel | Busy | Refused | Loaded | Armed | Recv | Creation | Cleanse

  predicate CreateOp(a: AcceptOp) {
    !a.Register? && !a.Join? && !a.First? && !a.FirstIssue? && !a.Abandon?
  }

  /** The task has looked the session up but counts no reference yet. */
  predicate Early(u: UseTask) { u.Find? || u.Look? || u.Acquire? }

  function RefsOf(task: Task): nat {
    match task
    case UseT(u) => One(!Early(u))
    case SendT(_, s) => if s.Transmit? || s.Refuse? then 2 else 1
    case RecvT(_, r) => if r.Issue? then 2 else 1
    case RelT(_, l) => One(l.Request? || l.Drop?)
    case AcceptT(_, a) => One(a.FirstIssue?)
    case _ => 0
  }

  predicate SendsWith(h: Hold, s: SendOp) {
    match h
    case Busy => s.Drain? || s.Unflag? || s.Finish?
    case Refused => s.Refuse?
    case Loaded => s.Claim?
    case Armed => s.Transmit?
    case _ => false
  }

  function Weight(h: Hold, task: Task): nat {
    if h.Refs? then RefsOf(task)
    else match task
         case SendT(_, s) => One(SendsWith(h, s))
         case RecvT(_, _) => One(h.Recv?)
         case RelT(_, l) => One(h.Rel? && (l.Post? || l.Cleanup?))
         case CleanT(_, _, _) => One(h.Cleanse?)
         case AcceptT(_, a) => One((h.Recv? && !a.Abandon?) || (h.Creation? && CreateOp(a)))
         case _ => 0
  }

  predicate On(task: Task, i: nat) {
    match task
    case UseT(u) => !u.Find? && u.i == i
    case SendT(k, _) => k == i
    case RecvT(k, _) => k == i
    case RelT(k, _) => k == i
    case CleanT(k, _, _) => k == i
    case AcceptT(k, _) => k == i
    case SubRef(_) => false
  }

  function Of(h: Hold, i: nat): Task -> nat { task => if On(task, i) then Weight(h, task) else 0 }

  function Sum(f: Task -> nat, todo: seq<Task>): nat {
    if todo == [] then 0 else f(todo[0]) + Sum(f, todo[1..])
  }

  function SumAll(f: Task -> nat, threads: seq<seq<Task>>): nat {
    if threads == [] then 0 else Sum(f, threads[0]) + SumAll(f, threads[1..])
  }

  type Tally = Hold -> nat

  function Total(threads: seq<seq<Task>>, i: nat): Tally { h => SumAll(Of(h, i), threads) }

  lemma {:induction false} SumAppend(f: Task -> nat, a: seq<Task>, b: seq<Task>)
    ensures Sum(f, a + b) == Sum(f, a) + Sum(f, b)
  {
    if a == [] {
      assert a + b == b;
    } else {
      SumAppend(f, a[1..], b);
      assert (a + b)[1..] == a[1..] + b;
    }
  }

  lemma {:induction false} SumAllSplit(f: Task -> nat, threads: seq<seq<Task>>, t: Tid)
    requires t < |threads|
    ensures SumAll(f, threads) == Sum(f, threads[t]) + SumAll(f, threads[t := []])
  {
    if t == 0 {
      assert threads[0 := []][1..] == threads[1..];
    } else {
      SumAllSplit(f, threads[1..], t - 1);
      assert threads[t := []][1..] == threads[1..][t - 1 := []];
    }
  }

  lemma {:induction false} SumZero(f: Task -> nat, todo: seq<Task>)
    requires forall k: nat :: k < |todo| ==> f(todo[k]) == 0
    ensures Sum(f, todo) == 0
  {
    if todo != [] { SumZero(f, todo[1..]); }
  }

  lemma {:induction false} SumAllZero(f: Task -> nat, threads: seq<seq<Task>>)
    requires forall t: Tid, k: nat :: t < |threads| && k < |threads[t]| ==> f(threads[t][k]) == 0
    ensures SumAll(f, threads) == 0
  {
    if threads != [] {
      SumZero(f, threads[0]);
      SumAllZero(f, threads[1..]);
    }
  }

  lemma {:induction false} TaskWithin(f: Task -> nat, todo: seq<Task>, k: nat)
    requires k < |todo|
    ensures f(todo[k]) <= Sum(f, todo)
  {
    if k > 0 { TaskWithin(f, todo[1..], k - 1); }
  }

  // ---------------------------------------------------------------- the shape of a to-do list

  predicate PreRef(task: Task) { task.UseT? && Early(task.u) }

  function Peak(task: Task): nat {
    match task
    case UseT(u) => if Early(u) then 0 else 2
    case SendT(_, s) => if s.Unflag? then 1 else 2
    case RecvT(_, _) => 2
    case RelT(_, l) => if l.Request? || l.Drop? then 1 else 0
    case AcceptT(_, _) => 1
    case CleanT(_, _, _) => 0
    case SubRef(_) => 0
  }

  function Peaks(todo: seq<Task>): nat {
    if todo == [] then 0 else Peak(todo[0]) + Peaks(todo[1..])
  }

  /** The task uses packet `p` under the reference of the caller that started it. */
  predicate Borrows(task: Task, p: Pkt) {
    task.UseT? && match task.u
                  case Find(_, use) => use == Send(p)
                  case Look(_, _, use) => use == Send(p)
                  case Acquire(_, _, use) => use == Send(p)
                  case CheckId(_, _, use) => use == Send(p)
                  case CheckState(_, q) => q == p
                  case AddRef(_, q) => q == p
                  case Put(_, _) => false
  }

  predicate Owed(todo: seq<Task>, p: Pkt) { SubRef(p) in todo }

  /** A thread never holds more than two counts of a session, and gives a packet back last. */
  ghost predicate Shaped(todo: seq<Task>) {
    todo == [] ||
    (Shaped(todo[1..]) && Peaks(todo) <= 2 && (PreRef(todo[0]) ==> Peaks(todo[1..]) == 0) &&
     forall p: Pkt :: Borrows(todo[0], p) ==> Owed(todo[1..], p))
  }

  predicate Plain(task: Task) { !task.UseT? }

  lemma {:induction false} PeaksAppend(a: seq<Task>, b: seq<Task>)
    ensures Peaks(a + b) == Peaks(a) + Peaks(b)
  {
    if a == [] {
      assert a + b == b;
    } else {
      PeaksAppend(a[1..], b);
      assert (a + b)[1..] == a[1..] + b;
    }
  }

  lemma {:induction false} ShapedAppend(more: seq<Task>, rest: seq<Task>)
    requires Shaped(rest) && Peaks(more) + Peaks(rest) <= 2
    requires forall k: nat :: k < |more| ==> Plain(more[k])
    ensures Shaped(more + rest)
  {
    PeaksAppend(more, rest);
    if more == [] {
      assert more + rest == rest;
    } else {
      assert Plain(more[0]);
      ShapedAppend(more[1..], rest);
      assert (more + rest)[1..] == more[1..] + rest;
    }
  }

  lemma {:induction false} SubRefsPeak(ps: seq<Pkt>)
    ensures Peaks(SubRefs(ps)) == 0
  {
    if ps != [] {
      SubRefsPeak(ps[1..]);
      assert SubRefs(ps)[1..] == SubRefs(ps[1..]);
    }
  }

  // ---------------------------------------------------------------- one slot

  ghost predicate CountsOk(slot: Slot, refs: nat, rel: nat, recv: nat, cleanse: nat, creation: nat) {
    && (Flags(slot.control) == 0 || Flags(slot.control) == 1 || Flags(slot.control) == 3)
    && IoCount(slot.control) == refs + slot.recvPosted + slot.sendPosted
    && slot.releasePosted + rel == (if Flags(slot.control) == 1 && IoCount(slot.control) == 0 then 1 else 0)
    && slot.recvPosted + recv <= 1
    && (slot.recvPosted + slot.sendPosted > 0 ==> slot.phase == Alive(true))
    && cleanse == (if slot.phase.Cleaning? then 1 else 0)
    && creation == (if slot.phase.Creating? then 1 else 0)
  }

  function Waiting(slot: Slot): seq<Pkt> { (if slot.sent then [] else slot.batch) + slot.ring }

  ghost predicate SendOk(slot: Slot, busy: nat, refused: nat, loaded: nat, armed: nat) {
    && slot.sendFlag == busy + refused + loaded + armed + slot.sendPosted + One(slot.stuck)
    && slot.sendFlag <= 1
    && (slot.sent ==> slot.sendPosted == 1)
    && (slot.batch != [] && !slot.sent ==> loaded + armed == 1)
    && slot.put == slot.accepted + slot.dropped + Waiting(slot)
    && (slot.dropped != [] ==> Flags(slot.control) >= 1 || refused == 1)
    && (armed == 1 ==> slot.dropped == [])
  }

  predicate Unused(slot: Slot) {
    && IoCount(slot.control) == 0 && slot.id == 0 && !slot.connected && !slot.counted
    && slot.sendFlag == 0 && slot.ring == []
    && (if slot.life == 0 then slot.control == 0 && slot.posts == 0 && slot.leaves == 0
        else Flags(slot.control) == 3 && slot.posts == 1 && slot.leaves == 1)
  }

  predicate Named(slot: Slot, i: nat) { slot.id != 0 && slot.id / UNIQUE_RANGE == i }

  predicate CreatingOk(slot: Slot, i: nat, a: AcceptOp) {
    if a.ResetId? || a.ResetControl? then Unused(slot)
    else
      && CreateOp(a) && slot.life >= 1 && Flags(slot.control) == 0 && slot.posts == 0 && slot.leaves == 0
      && slot.put == [] && slot.ring == [] && slot.batch == [] && slot.sendFlag == 0 && !slot.counted
      && slot.connected == a.CountUp?
      && (if a.SetState? || a.CountUp? then Named(slot, i) else slot.id == 0)
      && (a.SetId? ==> a.id != 0 && a.id / UNIQUE_RANGE == i)
  }

  predicate CleaningOk(slot: Slot, i: nat, op: CleanOp) {
    && slot.life >= 1 && Flags(slot.control) == 3 && IoCount(slot.control) == 0
    && slot.posts == 1 && slot.leaves == (if op.Leave? then 0 else 1)
    && slot.counted == (op.Leave? || op.CountDown?)
    && (if op.ClearState? || op.ClearFlag? || op.Push? then slot.id == 0 else Named(slot, i))
    && slot.connected == !(op.ClearFlag? || op.Push?)
    && (!op.Leave? && !op.CountDown? && !op.DrainRing? ==> slot.ring == [])
    && (op.Push? ==> slot.sendFlag == 0)
  }

  ghost predicate PhaseOk(slot: Slot, i: nat) {
    match slot.phase
    case Free => Unused(slot)
    case Creating(a) => CreatingOk(slot, i, a)
    case Alive(_) =>
      && slot.life >= 1 && Flags(slot.control) <= 1 && slot.connected && slot.counted && Named(slot, i)
      && slot.leaves == 0
      && slot.posts == (if Flags(slot.control) == 1 && IoCount(slot.control) == 0 then 1 else 0)
    case Cleaning(op) => CleaningOk(slot, i, op)
  }

  ghost predicate SlotOk(slot: Slot, i: nat, n: Tally) {
    && CountsOk(slot, n(Refs), n(Rel), n(Recv), n(Cleanse), n(Creation))
    && SendOk(slot, n(Busy), n(Refused), n(Loaded), n(Armed))
    && PhaseOk(slot, i)
  }

  // ---------------------------------------------------------------- arithmetic of the control word

  lemma ControlWord(control: nat)
    requires Flags(control) == 0 || Flags(control) == 1 || Flags(control) == 3
    ensures control == Flags(control) * IO_RANGE + IoCount(control)
    ensures IoCount(control) + 1 < IO_RANGE ==>
              Flags(IncIo(control)) == Flags(control) && IoCount(IncIo(control)) == IoCount(control) + 1
    ensures IoCount(control) >= 1 ==>
              Flags(Sub1(control)) == Flags(control) && IoCount(Sub1(control)) == IoCount(control) - 1
    ensures Releasing(control) <==> Flags(control) != 0
    ensures CleaningUp(control) <==> Flags(control) == 3
    ensures IoCount(SetRelease(control)) == IoCount(control)
    ensures Flags(SetRelease(control)) == (if Flags(control) == 0 then 1 else Flags(control))
    ensures IoCount(SetCleanup(control)) == IoCount(control)
    ensures Flags(SetCleanup(control)) == (if Flags(control) == 3 then 3 else Flags(control) + 2)
  {
  }

  const FEW: nat := 0x8000_0000

  // ---------------------------------------------------------------- what each pending task relies on

  predicate Live(sh: Shared, i: nat) { i < |sh.slots| && sh.slots[i].phase == Alive(true) }

  predicate UseOk(sh: Shared, u: UseTask) {
    match u
    case Find(sid, _) => sid in sh.published
    case Look(i, sid, _) => sid in sh.published && i == sid / UNIQUE_RANGE
    case Acquire(i, sid, _) => sid in sh.published && i == sid / UNIQUE_RANGE
    case CheckId(i, sid, _) => sid in sh.published && i == sid / UNIQUE_RANGE
    case CheckState(i, _) => Live(sh, i)
    case AddRef(i, _) => Live(sh, i)
    case Put(i, _) => Live(sh, i)
  }

  predicate CleanOk(slot: Slot, i: nat, sid: nat, op: CleanOp) {
    slot.phase == Cleaning(op) && sid / UNIQUE_RANGE == i && (slot.id != 0 ==> slot.id == sid)
  }

  predicate Over(slot: Slot) { Flags(slot.control) == 3 && !slot.phase.Creating? }

  predicate AcceptOk(slot: Slot, a: AcceptOp) {
    if CreateOp(a) then slot.phase == Creating(a)
    else if a.FirstIssue? then slot.phase == Alive(true)
    else if a.First? then slot.phase == Alive(true) || Over(slot)
    else slot.phase == Alive(false) && Flags(slot.control) == 0
  }

  predicate TaskOk(sh: Shared, task: Task) {
    match task
    case UseT(u) => UseOk(sh, u)
    case SendT(i, _) => Live(sh, i)
    case RecvT(i, _) => Live(sh, i)
    case RelT(i, l) => i < |sh.slots| && (l.Request? ==> Live(sh, i))
    case CleanT(i, sid, op) => i < |sh.slots| && CleanOk(sh.slots[i], i, sid, op)
    case AcceptT(i, a) => i < |sh.slots| && AcceptOk(sh.slots[i], a)
    case SubRef(_) => true
  }
}
