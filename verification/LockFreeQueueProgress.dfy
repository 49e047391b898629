/** No thread is ever in the way of another: from every reachable state, a thread that runs alone for long
  * enough returns from its call, within a number of accesses that is stated here.
  */
module LockFreeQueueProgress {
  import opened Common
  import opened LockFreeQueue
  import opened LockFreeQueueInvariant
  import opened LockFreeQueueTheorems
  import opened LockFreeQueueReclaim

  // ---------------------------------------------------------------- how many accesses are left

  /** The tail trails the last node. */
  function Lag<T>(sh: Shared<T>): nat { One(sh.tailIdx + 1 < |sh.links|) }

  function EnqueueLeft<T>(sh: Shared<T>, e: EnqueuePc<T>): nat {
    var again := 11 + 7 * Lag(sh);
    match e
    case EAlloc(_) => again + 2
    case ERegister(_, _) => again + 1
    case ELoad(_, _) => again
    case EStore(_, _, read) => if read == sh.tail then again - 1 else again + 2
    case ECheck(_, _, read) => if read == sh.tail then again - 2 else again + 1
    case ENext(_, _, tail) => if tail == sh.tail then again - 3 else again + 2
    case EVerify(_, _, tail, next) =>
      if tail != sh.tail then again + 1 else if next == NULL && Lag(sh) == 1 then again + 2 else again - 4
    case ELink(_, _, tail) => if tail in sh.heap && sh.heap[tail].next == NULL then 5 else again + 1
    case EHelp(_, _, tail, _) => if tail == sh.tail then again - 5 else again + 1
    case ESwing(_, _) => 4
    case ECount => 3
    case EClear2 => 2
    case EClear1 => 1
  }

  /** What is left of a dequeue that has taken its node, from the retire on. */
  function ToRetire<T>(sh: Shared<T>): nat { 2 * |sh.retired| + 2 * |sh.records| + 10 }

  function DequeueLeft<T>(sh: Shared<T>, d: DequeuePc<T>): nat {
    var again := ToRetire(sh) + 14 + 12 * Lag(sh);
    match d
    case DRegister => again + 3
    case DLoad => again
    case DStore(read) => if read == sh.head then again - 1 else again + 2
    case DCheck(read) => if read == sh.head then again - 2 else again + 1
    case DNext(head) => if head == sh.head then again - 3 else again + 3
    case DStore2(head, _) => if head == sh.head then again - 4 else again + 2
    case DVerify(head, _) => if head == sh.head then again - 5 else again + 1
    case DTail(head, _) => if head == sh.tail || head == sh.head then again - 6 else again + 3
    case DHelp(head, _) => if head == sh.tail then again - 7 else again + 1
    case DRead(head, _) => if head == sh.head then again - 7 else again + 2
    case DCas(head, _, _) => if head == sh.head then again - 8 else again + 1
    case DCount(_) => ToRetire(sh) + 3
    case DClear2(taken) => if taken.Some? then ToRetire(sh) + 2 else 2
    case DClear1(taken) => if taken.Some? then ToRetire(sh) + 1 else 1
  }

  function RetireLeft<T>(sh: Shared<T>, r: RetirePc): nat {
    match r
    case RPush(_) => ToRetire(sh)
    case RCount => 2 * |sh.retired| + 2 * |sh.records| + 7
    case SExchange => 2 * |sh.retired| + 2 * |sh.records| + 6
    case SRecords(list) => 2 * |list| + 2 * |sh.records| + 5
    case SFirst(list, pending, _) => 2 * |list| + 2 * |pending| + 4
    case SSecond(list, pending, _) => 2 * |list| + (if pending == [] then 4 else 2 * |pending| + 3)
    case SSplit(list, _, keep) => 2 * |list| + |keep| + 3
    case SBack(keep) => |keep| + 1
  }

  function Left<T>(sh: Shared<T>, pc: Pc<T>): nat {
    match pc
    case Idle => 0
    case Enq(e) => EnqueueLeft(sh, e)
    case Deq(d) => DequeueLeft(sh, d)
    case Ret(r) => RetireLeft(sh, r)
  }

  // ---------------------------------------------------------------- every access brings the return nearer

  /** The allocator gives a fresh address, and the weak CAS does not fail without a reason. */
  predicate Works<T>(sh: Shared<T>, c: Choice<T>) { !c.spurious && c.address != NULL && c.address !in sh.heap }

  lemma LagIsNext<T>(sh: Shared<T>)
    requires SharedOk(sh)
    ensures sh.tail in sh.heap && (sh.heap[sh.tail].next == NULL <==> Lag(sh) == 0)
    ensures |sh.links| <= sh.tailIdx + 2
  {
    ChainNonNull(sh);
    assert OnChain(sh, sh.tailIdx);
    if sh.tailIdx + 1 < |sh.links| { assert OnChain(sh, sh.tailIdx + 1); }
  }

  lemma LinkNearer<T>(sh: Shared<T>, t: Tid, th: Thread<T>, e: EnqueuePc<T>, c: Choice<T>)
    requires SharedOk(sh) && EnqueueOk(sh, t, th, e) && th.pc == Enq(e) && Works(sh, c) && e.ELink?
    ensures var (sh', th') := StepEnqueue(sh, t, th, e, c); Left(sh', th'.pc) < EnqueueLeft(sh, e)
  {
  }

  lemma HelpNearer<T>(sh: Shared<T>, t: Tid, th: Thread<T>, e: EnqueuePc<T>, c: Choice<T>)
    requires SharedOk(sh) && EnqueueOk(sh, t, th, e) && th.pc == Enq(e) && Works(sh, c) && e.EHelp?
    ensures var (sh', th') := StepEnqueue(sh, t, th, e, c); Left(sh', th'.pc) < EnqueueLeft(sh, e)
  {
    LagIsNext(sh);
  }

  /** In these places an enqueuer reads, and in the last of them decides what to do. */
  predicate Looking<T>(e: EnqueuePc<T>) { e.ELoad? || e.EStore? || e.ECheck? || e.ENext? || e.EVerify? }

  lemma LookNearer<T>(sh: Shared<T>, t: Tid, th: Thread<T>, e: EnqueuePc<T>, c: Choice<T>)
    requires SharedOk(sh) && EnqueueOk(sh, t, th, e) && th.pc == Enq(e) && Looking(e)
    ensures var (sh', th') := StepEnqueue(sh, t, th, e, c); Left(sh', th'.pc) < EnqueueLeft(sh, e)
  {
    LagIsNext(sh);
  }

  lemma EnqueueNearer<T>(sh: Shared<T>, t: Tid, th: Thread<T>, e: EnqueuePc<T>, c: Choice<T>)
    requires th.pc == Enq(e) && Works(sh, c) && !Looking(e) && !e.ELink? && !e.EHelp?
    ensures var (sh', th') := StepEnqueue(sh, t, th, e, c); Left(sh', th'.pc) < EnqueueLeft(sh, e)
  {
  }

  lemma SearchNearer<T>(sh: Shared<T>, t: Tid, th: Thread<T>, d: DequeuePc<T>, c: Choice<T>)
    requires !sh.fault && th.pc == Deq(d) && Searching(d) && (d.DNext? ==> d.head in sh.heap)
    ensures var (sh', th') := StepDequeue(sh, t, th, d, c); Left(sh', th'.pc) < DequeueLeft(sh, d)
  {
  }

  lemma DequeueHelpNearer<T>(sh: Shared<T>, t: Tid, th: Thread<T>, head: Addr, next: Addr, c: Choice<T>)
    requires SharedOk(sh) && Both(sh, t, th, head, next) && th.pc == Deq(DHelp(head, next)) && Works(sh, c)
    ensures var (sh', th') := StepDequeue(sh, t, th, DHelp(head, next), c);
            Left(sh', th'.pc) < DequeueLeft(sh, DHelp(head, next))
  {
    LagIsNext(sh);
  }

  lemma TailNearer<T>(sh: Shared<T>, t: Tid, th: Thread<T>, head: Addr, next: Addr, c: Choice<T>)
    requires SharedOk(sh) && Both(sh, t, th, head, next) && th.pc == Deq(DTail(head, next))
    ensures var (sh', th') := StepDequeue(sh, t, th, DTail(head, next), c);
            Left(sh', th'.pc) < DequeueLeft(sh, DTail(head, next))
  {
  }

  lemma TakeNearer<T>(sh: Shared<T>, t: Tid, th: Thread<T>, d: DequeuePc<T>, c: Choice<T>)
    requires DequeueOk(sh, t, th, d) && th.pc == Deq(d) && !c.spurious
    requires !Searching(d) && !d.DHelp? && !d.DTail?
    ensures var (sh', th') := StepDequeue(sh, t, th, d, c); Left(sh', th'.pc) < DequeueLeft(sh, d)
  {
  }

  lemma ReadNearer<T>(s: State<T>, th: Thread<T>, r: RetirePc)
    requires Reads(r)
    ensures Left(s.sh, StepRead(s, th, r).pc) < RetireLeft(s.sh, r)
  {
  }

  lemma ReclaimNearer<T>(sh: Shared<T>, t: Tid, th: Thread<T>, r: RetirePc)
    requires !Reads(r) && th.pc == Ret(r)
    ensures var (sh', th') := StepReclaim(sh, t, th, r); sh'.fault || Left(sh', th'.pc) < RetireLeft(sh, r)
  {
  }

  lemma AnyNearer<T>(s: State<T>, t: Tid, th: Thread<T>, c: Choice<T>)
    requires SharedOk(s.sh) && ThreadOk(s.sh, t, th) && th.pc != Idle && Works(s.sh, c)
    requires !StepShared(s, t, th, c).0.fault
    ensures var (sh', th') := StepShared(s, t, th, c); Left(sh', th'.pc) < Left(s.sh, th.pc)
  {
    match th.pc
    case Idle =>
    case Enq(e) =>
      if e.ELink? { LinkNearer(s.sh, t, th, e, c); }
      else if e.EHelp? { HelpNearer(s.sh, t, th, e, c); }
      else if Looking(e) { LookNearer(s.sh, t, th, e, c); }
      else { EnqueueNearer(s.sh, t, th, e, c); }
    case Deq(d) =>
      if Searching(d) { SearchNearer(s.sh, t, th, d, c); }
      else if d.DHelp? { DequeueHelpNearer(s.sh, t, th, d.head, d.next, c); }
      else if d.DTail? { TailNearer(s.sh, t, th, d.head, d.next, c); }
      else { TakeNearer(s.sh, t, th, d, c); }
    case Ret(r) =>
      if Reads(r) { ReadNearer(s, th, r); } else { ReclaimNearer(s.sh, t, th, r); }
  }

  // ---------------------------------------------------------------- calls return

  /** From state `a` to state `z` thread `t` runs alone, in working conditions. */
  ghost predicate Alone<T>(tr: seq<State<T>>, events: seq<Event<T>>, t: Tid, a: nat, z: nat) {
    && a <= z < |tr| == |events| + 1
    && forall j: nat :: a <= j < z ==> events[j].t == t && Works(tr[j].sh, events[j].c)
  }

  predicate Returned<T>(s: State<T>, t: Tid) { t < |s.threads| && s.threads[t].pc == Idle }

  lemma StepNearer<T>(s: State<T>, e: Event<T>)
    requires Inv(s) && !Step(s, e).sh.fault && e.t < |s.threads| && s.threads[e.t].pc != Idle && Works(s.sh, e.c)
    ensures var s' := Step(s, e);
            e.t < |s'.threads| && Left(s'.sh, s'.threads[e.t].pc) < Left(s.sh, s.threads[e.t].pc)
  {
    assert ThreadOk(s.sh, e.t, s.threads[e.t]);
    AnyNearer(s, e.t, s.threads[e.t], e.c);
  }

  /** From any state of a run, also in the middle of calls of all threads, a thread that runs alone returns after
    * at most `Left` accesses: no thread has to wait for another one.
    */
  lemma {:induction false} ReturnsAlone<T>(tr: seq<State<T>>, events: seq<Event<T>>, t: Tid, a: nat, z: nat)
    requires Trace(tr, events) && Alone(tr, events, t, a, z) && t < |tr[a].threads|
    requires z - a >= Left(tr[a].sh, tr[a].threads[t].pc)
    ensures exists j: nat :: a <= j <= z && Returned(tr[j], t)
    decreases z - a
  {
    if Returned(tr[a], t) {
    } else {
      LeftPositive(tr[a].sh, tr[a].threads[t].pc);
      assert StepAt(tr, events, a);
      TraceInv(tr, events, a);
      TraceInv(tr, events, a + 1);
      StepNearer(tr[a], events[a]);
      ReturnsAlone(tr, events, t, a + 1, z);
    }
  }

  lemma LeftPositive<T>(sh: Shared<T>, pc: Pc<T>)
    requires pc != Idle
    ensures Left(sh, pc) > 0
  {
  }

  lemma BeginLeft<T>(s: State<T>, e: Event<T>)
    requires e.t < |s.threads| && s.threads[e.t].pc == Idle
    ensures var s' := Step(s, e);
            && e.t < |s'.threads| && Left(s'.sh, s'.threads[e.t].pc) <= 2 * |s.sh.retired| + 2 * |s.sh.records| + 39
            && (e.c.op.BeginEnqueue? ==> Left(s'.sh, s'.threads[e.t].pc) <= 20)
  {
  }

  /** A call that runs alone from its start returns: Enqueue within 21 accesses, and TryDequeue, the scan that it
    * may have to do included, within 40 and two for each node that waits in the retired list and each record.
    */
  lemma CallReturnsAlone<T>(tr: seq<State<T>>, events: seq<Event<T>>, t: Tid, a: nat, z: nat)
    requires Trace(tr, events) && Alone(tr, events, t, a, z) && Returned(tr[a], t) && a < z
    requires events[a].c.op.BeginDequeue? ==> z - a >= 2 * |tr[a].sh.retired| + 2 * |tr[a].sh.records| + 40
    requires events[a].c.op.BeginEnqueue? ==> z - a >= 21
    ensures exists j: nat :: a < j <= z && Returned(tr[j], t)
  {
    assert StepAt(tr, events, a);
    BeginLeft(tr[a], events[a]);
    ReturnsAlone(tr, events, t, a + 1, z);
  }

  // ---------------------------------------------------------------- the tail catches up

  /** The thread has linked its node at the validated tail, and the tail has not moved since. */
  predicate Swinging<T>(sh: Shared<T>, th: Thread<T>) { th.pc.Enq? && th.pc.e.ESwing? && th.stamp == sh.tailIdx }

  predicate BetweenCas<T>(pc: Pc<T>) { pc.Enq? && pc.e.ESwing? }

  ghost predicate LagHeld<T>(s: State<T>) {
    Lag(s.sh) == 0 || exists t: nat :: t < |s.threads| && Swinging(s.sh, s.threads[t])
  }

  /** Each step of a thread leaves the tail alone, moves it up to the last node, or links a node at it. */
  lemma TailStep<T>(s: State<T>, t: Tid, th: Thread<T>, c: Choice<T>)
    requires SharedOk(s.sh) && ThreadOk(s.sh, t, th)
    ensures var (sh', th') := StepShared(s, t, th, c);
            || Lag(sh') == 0
            || (sh'.tailIdx == s.sh.tailIdx && Lag(s.sh) == 1 && !Swinging(s.sh, th))
            || Swinging(sh', th')
  {
    match th.pc
    case Idle =>
    case Enq(e) => TailEnqueue(s.sh, t, th, e, c);
    case Deq(d) => TailDequeue(s.sh, t, th, d, c);
    case Ret(r) => TailRetire(s, t, th, r);
  }

  lemma TailEnqueue<T>(sh: Shared<T>, t: Tid, th: Thread<T>, e: EnqueuePc<T>, c: Choice<T>)
    requires SharedOk(sh) && EnqueueOk(sh, t, th, e) && th.pc == Enq(e)
    ensures var (sh', th') := StepEnqueue(sh, t, th, e, c);
            || Lag(sh') == 0
            || (sh'.tailIdx == sh.tailIdx && Lag(sh) == 1 && !Swinging(sh, th))
            || Swinging(sh', th')
  {
    LagIsNext(sh);
    if e.ELink? {
      LinkTail(sh, t, th, e, c);
    } else if e.ESwing? && th.stamp == sh.tailIdx {
      GuardedTail(sh, e.tail, th.stamp);
    }
  }

  lemma GuardedTail<T>(sh: Shared<T>, a: Addr, ord: nat)
    requires SharedOk(sh) && Guarded(sh, a, ord) && ord == sh.tailIdx
    ensures a == sh.tail
  {
    assert NodeOk(sh, a);
  }

  lemma LinkTail<T>(sh: Shared<T>, t: Tid, th: Thread<T>, e: EnqueuePc<T>, c: Choice<T>)
    requires SharedOk(sh) && EnqueueOk(sh, t, th, e) && th.pc == Enq(e) && e.ELink?
    ensures var (sh', th') := StepEnqueue(sh, t, th, e, c);
            || (sh' == sh && !Swinging(sh, th))
            || Swinging(sh', th')
  {
    if !c.spurious && sh.heap[e.tail].next == NULL { LinkSound(sh, t, e.item, e.node, e.tail, th.stamp); }
  }

  lemma TailDequeue<T>(sh: Shared<T>, t: Tid, th: Thread<T>, d: DequeuePc<T>, c: Choice<T>)
    requires SharedOk(sh) && th.pc == Deq(d)
    ensures var (sh', th') := StepDequeue(sh, t, th, d, c);
            Lag(sh') == 0 || (sh'.tailIdx == sh.tailIdx && Lag(sh) == 1 && !Swinging(sh, th))
  {
    LagIsNext(sh);
  }

  lemma TailRetire<T>(s: State<T>, t: Tid, th: Thread<T>, r: RetirePc)
    requires th.pc == Ret(r)
    ensures var (sh', th') := StepRetire(s, t, th, r);
            sh'.tailIdx == s.sh.tailIdx && Lag(sh') == Lag(s.sh) && !Swinging(s.sh, th)
  {
  }

  lemma LagHeldStep<T>(s: State<T>, e: Event<T>)
    requires Inv(s) && LagHeld(s)
    ensures LagHeld(Step(s, e))
  {
    if e.t < |s.threads| {
      var s', th' := Step(s, e), StepShared(s, e.t, s.threads[e.t], e.c).1;
      assert ThreadOk(s.sh, e.t, s.threads[e.t]);
      TailStep(s, e.t, s.threads[e.t], e.c);
      if Lag(s'.sh) == 1 && !Swinging(s'.sh, th') {
        var u: nat :| u < |s.threads| && Swinging(s.sh, s.threads[u]);
        assert Swinging(s'.sh, s'.threads[u]);
      } else if Lag(s'.sh) == 1 {
        assert Swinging(s'.sh, s'.threads[e.t]);
      }
    }
  }

  lemma {:induction false} RunLagHeld<T>(sentinel: Addr, n: nat, events: seq<Event<T>>)
    requires sentinel != NULL
    ensures LagHeld(Run(Init<T>(sentinel, n), events))
    decreases |events|
  {
    if events != [] {
      var before := events[..|events| - 1];
      RunLagHeld<T>(sentinel, n, before);
      InitInv<T>(sentinel, n);
      RunInv(Init<T>(sentinel, n), before);
      LagHeldStep(Run(Init<T>(sentinel, n), before), events[|events| - 1]);
    }
  }

  /** The tail trails the last node only while the thread that linked that node is about to swing it: once no
    * Enqueue stands between its two CASes, `mTail` is the last node of the chain.
    */
  lemma TailCatchesUp<T>(sentinel: Addr, n: nat, events: seq<Event<T>>)
    requires sentinel != NULL
    ensures var s := Run(Init<T>(sentinel, n), events);
            && s.sh.tail in s.sh.heap
            && ((forall t: nat :: t < |s.threads| ==> !BetweenCas(s.threads[t].pc)) ==>
                  s.sh.tailIdx + 1 == |s.sh.links| && s.sh.heap[s.sh.tail].next == NULL)
  {
    InitInv<T>(sentinel, n);
    RunInv(Init<T>(sentinel, n), events);
    RunLagHeld<T>(sentinel, n, events);
    LagIsNext(Run(Init<T>(sentinel, n), events).sh);
  }
}
