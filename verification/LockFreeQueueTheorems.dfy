/** What the queue promises, for every number of threads and every interleaving. */
module LockFreeQueueTheorems {
  import opened Common
  import opened LockFreeQueue
  import opened LockFreeQueueInvariant

  // ---------------------------------------------------------------- linearizability

  datatype Effect<T> = Appends(v: T) | Removes(v: T)

  /** The linearization points: the CAS that links a node and the CAS that moves the head. */
  function EffectOf<T>(before: Pc<T>, after: Pc<T>): seq<Effect<T>> {
    if AtLink(before) && after.Enq? && after.e.ESwing? then [Appends(before.e.item)]
    else if AtTake(before) && after.Deq? && after.d.DCount? then [Removes(before.d.candidate)]
    else []
  }

  predicate AtLink<T>(pc: Pc<T>) { pc.Enq? && pc.e.ELink? }

  predicate AtTake<T>(pc: Pc<T>) { pc.Deq? && pc.d.DCas? }

  function StepEffect<T>(s: State<T>, e: Event<T>): seq<Effect<T>> {
    if e.t < |s.threads| then EffectOf(s.threads[e.t].pc, Step(s, e).threads[e.t].pc) else []
  }

  /** The effects of a run in the order in which they happen. */
  function Log<T>(s: State<T>, events: seq<Event<T>>): seq<Effect<T>>
    decreases |events|
  {
    if events == [] then []
    else
      var prefix := events[..|events| - 1];
      Log(s, prefix) + StepEffect(Run(s, prefix), events[|events| - 1])
  }

  /** A sequential queue: appends at the back, removes only the value at the front. */
  function Replay<T(==)>(q: seq<T>, log: seq<Effect<T>>): Option<seq<T>>
    decreases |log|
  {
    if log == [] then Some(q)
    else
      match Replay(q, log[..|log| - 1])
      case None => None
      case Some(p) =>
        match log[|log| - 1]
        case Appends(v) => Some(p + [v])
        case Removes(v) => if p != [] && p[0] == v then Some(p[1..]) else None
  }

  lemma ReplayTake<T>(q: seq<T>, v: T)
    ensures Replay([v] + q, [Removes(v)]) == Some(q) && Replay(q, []) == Some(q)
  {
    assert ([v] + q)[1..] == q;
  }

  lemma EnqueueEffect<T>(s: State<T>, t: Tid, c: Choice<T>)
    requires SharedOk(s.sh) && t < |s.threads| && AtLink(s.threads[t].pc) && ThreadOk(s.sh, t, s.threads[t])
    ensures Replay(Contents(s.sh), StepEffect(s, Event(t, c))) == Some(Contents(Step(s, Event(t, c)).sh))
  {
    var ELink(item, node, tail) := s.threads[t].pc.e;
    if !c.spurious && s.sh.heap[tail].next == NULL { LinkAppends(s.sh, item, node, tail); }
  }

  lemma DequeueEffect<T>(s: State<T>, t: Tid, c: Choice<T>)
    requires SharedOk(s.sh) && t < |s.threads| && AtTake(s.threads[t].pc) && ThreadOk(s.sh, t, s.threads[t])
    ensures Replay(Contents(s.sh), StepEffect(s, Event(t, c))) == Some(Contents(Step(s, Event(t, c)).sh))
  {
    var th := s.threads[t];
    var DCas(head, next, v) := th.pc.d;
    ReplayTake(Contents(Step(s, Event(t, c)).sh), v);
    if !c.spurious && s.sh.head == head { TakeSound(s.sh, t, head, next, v, th.stamp); }
  }

  lemma NoEffect<T>(s: State<T>, t: Tid, c: Choice<T>)
    requires t < |s.threads| && !AtLink(s.threads[t].pc) && !AtTake(s.threads[t].pc)
    ensures StepEffect(s, Event(t, c)) == []
    ensures Contents(Step(s, Event(t, c)).sh) == Contents(s.sh)
  {
  }

  /** Each step acts on the caller's queue exactly as its effect acts on a sequential queue. */
  lemma StepRefines<T>(s: State<T>, e: Event<T>)
    requires Inv(s)
    ensures Replay(Contents(s.sh), StepEffect(s, e)) == Some(Contents(Step(s, e).sh))
  {
    if e.t < |s.threads| {
      assert ThreadOk(s.sh, e.t, s.threads[e.t]);
      if AtLink(s.threads[e.t].pc) { EnqueueEffect(s, e.t, e.c); }
      else if AtTake(s.threads[e.t].pc) { DequeueEffect(s, e.t, e.c); }
      else { NoEffect(s, e.t, e.c); }
    }
  }

  lemma {:induction false} ReplayAppend<T>(q: seq<T>, a: seq<Effect<T>>, b: seq<Effect<T>>)
    ensures Replay(q, a + b) == match Replay(q, a) case None => None case Some(p) => Replay(p, b)
    decreases |b|
  {
    if b == [] {
      assert a + b == a;
    } else {
      assert (a + b)[..|a + b| - 1] == a + b[..|b| - 1];
      ReplayAppend(q, a, b[..|b| - 1]);
    }
  }

  /** Linearizability: the effects of any run, replayed in order on a sequential queue, never take
    * a value that is not at the front, and leave what the concurrent queue holds.
    */
  lemma {:induction false} Linearizable<T>(s: State<T>, events: seq<Event<T>>)
    requires Inv(s)
    ensures Replay(Contents(s.sh), Log(s, events)) == Some(Contents(Run(s, events).sh))
    decreases |events|
  {
    if events != [] {
      var prefix := events[..|events| - 1];
      Linearizable(s, prefix);
      RunInv(s, prefix);
      StepRefines(Run(s, prefix), events[|events| - 1]);
      ReplayAppend(Contents(s.sh), Log(s, prefix), StepEffect(Run(s, prefix), events[|events| - 1]));
    }
  }

  function Appended<T>(log: seq<Effect<T>>): seq<T>
    decreases |log|
  {
    if log == [] then []
    else Appended(log[..|log| - 1]) + (if log[|log| - 1].Appends? then [log[|log| - 1].v] else [])
  }

  function Removed<T>(log: seq<Effect<T>>): seq<T>
    decreases |log|
  {
    if log == [] then []
    else Removed(log[..|log| - 1]) + (if log[|log| - 1].Removes? then [log[|log| - 1].v] else [])
  }

  lemma {:induction false} ReplayConserves<T>(log: seq<Effect<T>>)
    requires Replay([], log).Some?
    ensures Appended(log) == Removed(log) + Replay([], log).value
    decreases |log|
  {
    if log != [] { ReplayConserves(log[..|log| - 1]); }
  }

  /** Nothing is lost, duplicated or reordered: what was linked, in order, is what was taken, in
    * order, followed by what is still queued.
    */
  lemma Fifo<T>(sentinel: Addr, n: nat, events: seq<Event<T>>)
    requires sentinel != NULL
    ensures var s := Init<T>(sentinel, n);
            Appended(Log(s, events)) == Removed(Log(s, events)) + Contents(Run(s, events).sh)
  {
    InitInv<T>(sentinel, n);
    Linearizable(Init<T>(sentinel, n), events);
    ReplayConserves(Log(Init<T>(sentinel, n), events));
  }

  // ---------------------------------------------------------------- one call, one effect

  /** The effects of thread `t` alone. */
  function EffectsBy<T>(s: State<T>, t: Tid, events: seq<Event<T>>): seq<Effect<T>>
    decreases |events|
  {
    if events == [] then []
    else
      var prefix := events[..|events| - 1];
      EffectsBy(s, t, prefix)
      + (if events[|events| - 1].t == t then StepEffect(Run(s, prefix), events[|events| - 1]) else [])
  }

  /** `events` starts with the call of `op` by thread `t` and the call does not return before their end. */
  ghost predicate IsCall<T>(s: State<T>, t: Tid, op: Op<T>, events: seq<Event<T>>) {
    && t < |s.threads| && s.threads[t].pc == Idle
    && events != [] && events[0].t == t && events[0].c.op == op
    && forall j | 0 < j < |events| :: t < |Run(s, events[..j]).threads| && Run(s, events[..j]).threads[t].pc != Idle
  }

  ghost predicate WasEmpty<T>(s: State<T>, events: seq<Event<T>>) {
    exists j | 0 <= j <= |events| :: Contents(Run(s, events[..j]).sh) == []
  }

  /** Where an enqueuer stands, from the effects its call has had so far. */
  ghost predicate Enqueuing<T>(item: T, pc: Pc<T>, effects: seq<Effect<T>>) {
    if pc == Idle then effects == [Appends(item)]
    else
      && pc.Enq?
      && match pc.e
         case EAlloc(i) => i == item && effects == []
         case ERegister(i, _) => i == item && effects == []
         case ELoad(i, _) => i == item && effects == []
         case EStore(i, _, _) => i == item && effects == []
         case ECheck(i, _, _) => i == item && effects == []
         case ENext(i, _, _) => i == item && effects == []
         case EVerify(i, _, _, _) => i == item && effects == []
         case ELink(i, _, _) => i == item && effects == []
         case EHelp(i, _, _, _) => i == item && effects == []
         case _ => effects == [Appends(item)]
  }

  ghost predicate Outcome<T>(th: Thread<T>, effects: seq<Effect<T>>, empty: bool) {
    if th.found then th.out.Some? && effects == [Removes(th.out.value)] else effects == [] && empty
  }

  /** Where a dequeuer stands; `empty` says that the queue has been empty during its call. */
  ghost predicate Dequeuing<T>(th: Thread<T>, effects: seq<Effect<T>>, empty: bool) {
    match th.pc
    case Idle => Outcome(th, effects, empty)
    case Ret(_) => Outcome(th, effects, empty) && th.found
    case Enq(_) => false
    case Deq(d) =>
      match d
      case DStore2(_, next) => effects == [] && (next == NULL ==> empty)
      case DVerify(_, next) => effects == [] && (next == NULL ==> empty)
      case DCount(_) => Outcome(th, effects, empty) && th.found
      case DClear2(taken) => Outcome(th, effects, empty) && (taken.Some? <==> th.found)
      case DClear1(taken) => Outcome(th, effects, empty) && (taken.Some? <==> th.found)
      case _ => effects == []
  }

  ghost predicate Progress<T>(op: Op<T>, th: Thread<T>, effects: seq<Effect<T>>, empty: bool) {
    match op
    case BeginEnqueue(item) => Enqueuing(item, th.pc, effects)
    case BeginDequeue => Dequeuing(th, effects, empty)
  }

  lemma EnqueueProgress<T>(s: State<T>, t: Tid, c: Choice<T>, item: T, effects: seq<Effect<T>>)
    requires t < |s.threads| && ThreadOk(s.sh, t, s.threads[t]) && s.threads[t].pc != Idle
    requires Enqueuing(item, s.threads[t].pc, effects)
    ensures Enqueuing(item, Step(s, Event(t, c)).threads[t].pc, effects + StepEffect(s, Event(t, c)))
  {
  }

  predicate Searching<T>(d: DequeuePc<T>) {
    d.DRegister? || d.DLoad? || d.DStore? || d.DCheck? || d.DNext? || d.DStore2? || d.DVerify?
  }

  lemma SearchStep<T>(s: State<T>, t: Tid, d: DequeuePc<T>, c: Choice<T>, effects: seq<Effect<T>>, empty: bool)
    requires t < |s.threads| && s.threads[t].pc == Deq(d) && Searching(d) && ThreadOk(s.sh, t, s.threads[t])
    requires d.DNext? && s.sh.heap[d.head].next == NULL ==> empty
    requires Dequeuing(s.threads[t], effects, empty)
    ensures var (sh', th') := StepDequeue(s.sh, t, s.threads[t], d, c);
            Dequeuing(th', effects + EffectOf(s.threads[t].pc, th'.pc), empty)
  {
  }

  lemma TakeStep<T>(s: State<T>, t: Tid, d: DequeuePc<T>, c: Choice<T>, effects: seq<Effect<T>>, empty: bool)
    requires t < |s.threads| && s.threads[t].pc == Deq(d) && !Searching(d) && ThreadOk(s.sh, t, s.threads[t])
    requires Dequeuing(s.threads[t], effects, empty)
    ensures var (sh', th') := StepDequeue(s.sh, t, s.threads[t], d, c);
            Dequeuing(th', effects + EffectOf(s.threads[t].pc, th'.pc), empty)
  {
  }

  lemma RetireProgress<T>(s: State<T>, t: Tid, c: Choice<T>, effects: seq<Effect<T>>, empty: bool)
    requires t < |s.threads| && s.threads[t].pc.Ret? && Dequeuing(s.threads[t], effects, empty)
    ensures Dequeuing(Step(s, Event(t, c)).threads[t], effects + StepEffect(s, Event(t, c)), empty)
  {
  }

  lemma OthersProgress<T>(op: Op<T>, s: State<T>, e: Event<T>, t: Tid)
    requires t < |s.threads| && e.t != t
    ensures Step(s, e).threads[t] == s.threads[t]
  {
  }

  lemma RunThreads<T>(s: State<T>, events: seq<Event<T>>)
    ensures |Run(s, events).threads| == |s.threads|
    decreases |events|
  {
    if events != [] { RunThreads(s, events[..|events| - 1]); }
  }

  lemma EmptyStays<T>(s: State<T>, events: seq<Event<T>>)
    requires events != [] && WasEmpty(s, events[..|events| - 1])
    ensures WasEmpty(s, events)
  {
    var prefix := events[..|events| - 1];
    var j :| 0 <= j <= |prefix| && Contents(Run(s, prefix[..j]).sh) == [];
    assert prefix[..j] == events[..j];
  }

  lemma EmptyNow<T>(s: State<T>, events: seq<Event<T>>)
    requires events != [] && Contents(Run(s, events[..|events| - 1]).sh) == []
    ensures WasEmpty(s, events)
  {
  }

  lemma FirstStep<T>(s: State<T>, t: Tid, e: Event<T>, empty: bool)
    requires t < |s.threads| && s.threads[t].pc == Idle && e.t == t
    ensures StepEffect(s, e) == [] && Progress(e.c.op, Step(s, e).threads[t], [], empty)
  {
  }

  lemma CallExtends<T>(s: State<T>, t: Tid, op: Op<T>, events: seq<Event<T>>, mid: State<T>, effects: seq<Effect<T>>)
    requires events != [] && mid == Run(s, events[..|events| - 1]) && Inv(mid)
    requires t < |mid.threads| && mid.threads[t].pc != Idle
    requires Progress(op, mid.threads[t], effects, WasEmpty(s, events[..|events| - 1]))
    ensures var e := events[|events| - 1];
            Progress(op, Step(mid, e).threads[t], effects + (if e.t == t then StepEffect(mid, e) else []),
                     WasEmpty(s, events))
  {
    var prefix, e := events[..|events| - 1], events[|events| - 1];
    if WasEmpty(s, prefix) { EmptyStays(s, events); }
    if Contents(mid.sh) == [] { EmptyNow(s, events); }
    ProgressMonotone(op, mid.threads[t], effects, WasEmpty(s, prefix), WasEmpty(s, events));
    if e.t == t {
      CallStep(mid, t, e.c, op, effects, WasEmpty(s, events));
    } else {
      OthersProgress(op, mid, e, t);
      assert effects + [] == effects;
    }
  }

  lemma {:induction false} CallProgress<T>(s: State<T>, t: Tid, op: Op<T>, events: seq<Event<T>>)
    requires Inv(s) && IsCall(s, t, op, events)
    ensures t < |Run(s, events).threads|
    ensures Progress(op, Run(s, events).threads[t], EffectsBy(s, t, events), WasEmpty(s, events))
    decreases |events|
  {
    var prefix, e := events[..|events| - 1], events[|events| - 1];
    RunThreads(s, events);
    if prefix == [] {
      assert events == [e];
      FirstStep(s, t, e, WasEmpty(s, events));
    } else {
      assert forall j | 0 < j < |prefix| :: prefix[..j] == events[..j];
      CallProgress(s, t, op, prefix);
      RunInv(s, prefix);
      CallExtends(s, t, op, events, Run(s, prefix), EffectsBy(s, t, prefix));
    }
  }

  lemma ProgressMonotone<T>(op: Op<T>, th: Thread<T>, effects: seq<Effect<T>>, empty: bool, empty': bool)
    requires Progress(op, th, effects, empty) && (empty ==> empty')
    ensures Progress(op, th, effects, empty')
  {
  }

  lemma CallStep<T>(s: State<T>, t: Tid, c: Choice<T>, op: Op<T>, effects: seq<Effect<T>>, empty: bool)
    requires Inv(s) && t < |s.threads| && s.threads[t].pc != Idle
    requires Contents(s.sh) == [] ==> empty
    requires Progress(op, s.threads[t], effects, empty)
    ensures Progress(op, Step(s, Event(t, c)).threads[t], effects + StepEffect(s, Event(t, c)), empty)
  {
    assert ThreadOk(s.sh, t, s.threads[t]);
    if op.BeginEnqueue? { EnqueueProgress(s, t, c, op.item, effects); }
    else if s.threads[t].pc.Ret? { RetireProgress(s, t, c, effects, empty); }
    else {
      var d := s.threads[t].pc.d;
      if d.DNext? && s.sh.heap[d.head].next == NULL { NoNextMeansEmpty(s.sh, d.head, s.threads[t].stamp); }
      if Searching(d) { SearchStep(s, t, d, c, effects, empty); } else { TakeStep(s, t, d, c, effects, empty); }
    }
  }

  /** A returned Enqueue has appended its item exactly once, between its call and its return. */
  lemma EnqueueTakesEffectOnce<T>(s: State<T>, t: Tid, item: T, events: seq<Event<T>>)
    requires Inv(s) && IsCall(s, t, BeginEnqueue(item), events)
    requires t < |Run(s, events).threads| && Run(s, events).threads[t].pc == Idle
    ensures EffectsBy(s, t, events) == [Appends(item)]
  {
    CallProgress(s, t, BeginEnqueue(item), events);
  }

  /** A returned TryDequeue has either removed, exactly once, the value it hands out, or it has
    * removed nothing and the queue was empty at some moment of the call.
    */
  lemma TryDequeueIsJustified<T>(s: State<T>, t: Tid, events: seq<Event<T>>)
    requires Inv(s) && IsCall(s, t, BeginDequeue, events)
    requires t < |Run(s, events).threads| && Run(s, events).threads[t].pc == Idle
    ensures var th := Run(s, events).threads[t];
            if th.found then th.out.Some? && EffectsBy(s, t, events) == [Removes(th.out.value)]
            else EffectsBy(s, t, events) == [] && WasEmpty(s, events)
  {
    CallProgress(s, t, BeginDequeue, events);
  }

  // ---------------------------------------------------------------- reclamation

  /** No step of any run dereferences or deletes a deleted node, although the allocator may hand
    * out deleted addresses again at once.
    */
  lemma NoUseAfterFree<T>(sentinel: Addr, n: nat, events: seq<Event<T>>)
    requires sentinel != NULL
    ensures !Run(Init<T>(sentinel, n), events).sh.fault
  {
    InitInv<T>(sentinel, n);
    RunInv(Init<T>(sentinel, n), events);
  }

  /** A link CAS succeeds only at the end of the chain, where the tail was and still is. */
  lemma LinkIsCurrent<T>(s: State<T>, t: Tid, c: Choice<T>)
    requires Inv(s) && t < |s.threads| && AtLink(s.threads[t].pc)
    ensures StepEffect(s, Event(t, c)) != [] ==> s.sh.tailIdx == s.threads[t].stamp == |s.sh.links| - 1
  {
    var th := s.threads[t];
    var ELink(item, node, tail) := th.pc.e;
    assert ThreadOk(s.sh, t, th);
    if !c.spurious && s.sh.heap[tail].next == NULL { LinkSound(s.sh, t, item, node, tail, th.stamp); }
  }

  /** A head CAS succeeds only if nobody has moved the head since this thread's hazard on it was
    * validated: the comparison of addresses is not fooled by a reused node.
    */
  lemma TakeIsCurrent<T>(s: State<T>, t: Tid, c: Choice<T>)
    requires Inv(s) && t < |s.threads| && AtTake(s.threads[t].pc)
    ensures StepEffect(s, Event(t, c)) != [] ==> |s.sh.dequeued| == s.threads[t].stamp
  {
    assert ThreadOk(s.sh, t, s.threads[t]);
    EndsGuarded(s.sh);
  }

  /** The same for the tail CAS, by whichever of the three places it is tried. */
  lemma SwingIsCurrent<T>(s: State<T>, t: Tid)
    requires Inv(s) && t < |s.threads| && s.threads[t].pc != Idle && Guard1(s.threads[t].pc) == Some(s.sh.tail)
    ensures s.sh.tailIdx == s.threads[t].stamp
  {
    assert ThreadOk(s.sh, t, s.threads[t]);
    GuardIsCurrent(s.sh, t, s.threads[t]);
    EndsGuarded(s.sh);
  }

  lemma GuardIsCurrent<T>(sh: Shared<T>, t: Tid, th: Thread<T>)
    requires ThreadOk(sh, t, th) && Guard1(th.pc).Some?
    ensures Guarded(sh, Guard1(th.pc).value, th.stamp)
  {
  }

  /** Who owns a node, told from what the threads are doing. */
  lemma OwnersMatch<T>(s: State<T>, t: Tid, a: Addr)
    requires Inv(s) && t < |s.threads|
    ensures Unlinked(s.threads[t].pc) == Some(a) <==> PrivateTo(s.sh, t, a)
    ensures a in Holding(s.threads[t].pc) <==> HeldBy(s.sh, t, a)
    ensures Holding(s.threads[t].pc)[a] <= 1
  {
    assert ThreadOk(s.sh, t, s.threads[t]);
    if Unlinked(s.threads[t].pc) == Some(a) { UnlinkedIsMine(s.sh, t, s.threads[t], s.threads[t].pc.e, a); }
  }

  lemma UnlinkedIsMine<T>(sh: Shared<T>, t: Tid, th: Thread<T>, e: EnqueuePc<T>, a: Addr)
    requires th.pc == Enq(e) && EnqueueOk(sh, t, th, e) && Unlinked(th.pc) == Some(a)
    ensures PrivateTo(sh, t, a)
  {
  }

  /** Where a node that is allocated can be. Exactly one case holds, and lists hold it once. */
  lemma EachNodeInOnePlace<T>(s: State<T>, a: Addr)
    requires Inv(s) && a in s.sh.heap
    ensures match s.sh.heap[a].place
            case Private(t) => t < |s.threads| && Unlinked(s.threads[t].pc) == Some(a)
            case Linked => exists i :: |s.sh.dequeued| <= i < |s.sh.links| && s.sh.links[i] == a
            case Retired => multiset(s.sh.retired)[a] == 1
            case Held(t) => t < |s.threads| && Holding(s.threads[t].pc)[a] == 1
    ensures a in s.sh.retired <==> s.sh.heap[a].place == Retired
    ensures forall t | 0 <= t < |s.threads| ::
              Unlinked(s.threads[t].pc) == Some(a) <==> s.sh.heap[a].place == Private(t)
    ensures forall t | 0 <= t < |s.threads| :: a in Holding(s.threads[t].pc) <==> s.sh.heap[a].place == Held(t)
    ensures forall i | |s.sh.dequeued| <= i < |s.sh.links| && s.sh.links[i] == a ::
              s.sh.heap[a].place == Linked && i == s.sh.heap[a].ord
  {
    assert NodeOk(s.sh, a);
    match s.sh.heap[a].place {
      case Private(t) => assert PrivateTo(s.sh, t, a);
      case Held(t) => assert HeldBy(s.sh, t, a); OwnersMatch(s, t, a);
      case _ =>
    }
    forall t | 0 <= t < |s.threads|
      ensures Unlinked(s.threads[t].pc) == Some(a) <==> s.sh.heap[a].place == Private(t)
      ensures a in Holding(s.threads[t].pc) <==> s.sh.heap[a].place == Held(t)
    {
      OwnersMatch(s, t, a);
    }
    forall i | |s.sh.dequeued| <= i < |s.sh.links| && s.sh.links[i] == a
      ensures s.sh.heap[a].place == Linked && i == s.sh.heap[a].ord
    {
      assert OnChain(s.sh, i);
    }
  }

  // ---------------------------------------------------------------- the chain and the counter

  /** What a walk along the next pointers from `a` finds behind `a`. */
  ghost predicate Walk<T>(heap: map<Addr, Node<T>>, a: Addr, values: seq<T>)
    decreases |values|
  {
    && a in heap
    && if values == [] then heap[a].next == NULL
       else
         var n := heap[a].next;
         n != NULL && n in heap && heap[n].value == Some(values[0]) && Walk(heap, n, values[1..])
  }

  lemma {:induction false} WalkFrom<T>(sh: Shared<T>, i: nat)
    requires SharedOk(sh) && |sh.dequeued| <= i < |sh.links|
    ensures Walk(sh.heap, sh.links[i], sh.linked[i..])
    decreases |sh.links| - i
  {
    ChainNonNull(sh);
    assert OnChain(sh, i);
    if i + 1 < |sh.links| {
      assert OnChain(sh, i + 1);
      assert sh.linked[i..][1..] == sh.linked[i + 1..];
      WalkFrom(sh, i + 1);
    }
  }

  /** Walking from `mHead` meets exactly the queued values; the tail is on that walk and trails its
    * end by at most one node.
    */
  lemma ChainHoldsContents<T>(s: State<T>)
    requires Inv(s)
    ensures Walk(s.sh.heap, s.sh.head, Contents(s.sh))
    ensures |s.sh.dequeued| <= s.sh.tailIdx <= |s.sh.links| - 1 <= s.sh.tailIdx + 1
    ensures Walk(s.sh.heap, s.sh.tail, s.sh.linked[s.sh.tailIdx..]) && |s.sh.linked[s.sh.tailIdx..]| <= 1
  {
    WalkFrom(s.sh, |s.sh.dequeued|);
    WalkFrom(s.sh, s.sh.tailIdx);
  }

  function CountPc<T>(threads: seq<Thread<T>>, p: Pc<T> -> bool): nat {
    if threads == [] then 0 else (if p(threads[0].pc) then 1 else 0) + CountPc(threads[1..], p)
  }

  predicate UncountedEnqueue<T>(pc: Pc<T>) { pc.Enq? && (pc.e.ESwing? || pc.e.ECount?) }

  predicate UncountedDequeue<T>(pc: Pc<T>) { pc.Deq? && pc.d.DCount? }

  lemma {:induction false} LagCounts<T>(threads: seq<Thread<T>>)
    ensures LagSum(threads) == CountPc(threads, UncountedDequeue) - CountPc(threads, UncountedEnqueue)
  {
    if threads != [] { LagCounts(threads[1..]); }
  }

  /** The counter, modulo its width, is the queue length less the linked and uncounted enqueues
    * plus the taken and uncounted dequeues.
    */
  lemma CounterExact<T>(s: State<T>)
    requires Inv(s)
    ensures s.sh.size == (|Contents(s.sh)| - CountPc(s.threads, UncountedEnqueue)
                          + CountPc(s.threads, UncountedDequeue)) % WORD
  {
    LagCounts(s.threads);
  }

  lemma {:induction false} CountZero<T>(threads: seq<Thread<T>>, p: Pc<T> -> bool)
    requires forall t | 0 <= t < |threads| :: !p(threads[t].pc)
    ensures CountPc(threads, p) == 0
  {
    if threads != [] { CountZero(threads[1..], p); }
  }

  lemma {:induction false} CountAtMost<T>(threads: seq<Thread<T>>, p: Pc<T> -> bool)
    ensures CountPc(threads, p) <= |threads|
  {
    if threads != [] { CountAtMost(threads[1..], p); }
  }

  /** The consumers' exit test: once no enqueue is under way, a zero counter means that the queue is
    * empty, as long as the queue and the threads together stay below the counter's range.
    */
  lemma ExitTestIsSound<T>(s: State<T>)
    requires Inv(s) && |Contents(s.sh)| + |s.threads| < WORD
    requires forall t | 0 <= t < |s.threads| :: !s.threads[t].pc.Enq?
    requires s.sh.size == 0
    ensures Contents(s.sh) == []
  {
    CounterExact(s);
    CountZero(s.threads, UncountedEnqueue);
    CountAtMost(s.threads, UncountedDequeue);
  }

  // ---------------------------------------------------------------- what a scan keeps

  /** A scan has collected at most two addresses per record it has read. */
  ghost predicate ScanBounded(records: nat, r: RetirePc) {
    match r
    case SFirst(_, pending, guarded) => |guarded| + 2 * |pending| <= 2 * records
    case SSecond(_, pending, guarded) => pending != [] && |guarded| + 2 * |pending| <= 2 * records + 1
    case SSplit(_, guarded, keep) => |guarded| <= 2 * records && forall a | a in keep :: a in guarded
    case _ => true
  }

  ghost predicate ScansBounded<T>(s: State<T>) {
    forall t | 0 <= t < |s.threads| && s.threads[t].pc.Ret? :: ScanBounded(|s.sh.records|, s.threads[t].pc.r)
  }

  lemma SetAdds(x: set<Addr>, y: set<Addr>)
    requires |y| <= 1
    ensures |x + y| <= |x| + 1
  {
    if y <= x { assert x + y == x; } else {
      var a :| a in y && a !in x;
      assert |y - {a}| == 0;
      assert x + y == x + {a};
    }
  }

  lemma RecordsGrow<T>(s: State<T>, t: Tid, c: Choice<T>)
    requires t < |s.threads|
    ensures |s.sh.records| <= |StepShared(s, t, s.threads[t], c).0.records|
  {
  }

  lemma ScanBoundedStep<T>(s: State<T>, t: Tid, th: Thread<T>, r: RetirePc)
    requires th.pc == Ret(r) && ScanBounded(|s.sh.records|, r)
    ensures var pc' := StepRetire(s, t, th, r).1.pc; pc'.Ret? ==> ScanBounded(|s.sh.records|, pc'.r)
  {
    if r.SFirst? && r.pending != [] { SetAdds(r.guarded, Hazard(s, r.pending[0], true)); }
    if r.SSecond? { SetAdds(r.guarded, Hazard(s, r.pending[0], false)); }
  }

  lemma OtherStepBounded<T>(s: State<T>, t: Tid, c: Choice<T>)
    requires t < |s.threads| && !s.threads[t].pc.Ret?
    ensures var pc' := StepShared(s, t, s.threads[t], c).1.pc; pc'.Ret? ==> ScanBounded(|s.sh.records|, pc'.r)
  {
  }

  lemma {:induction false} RunScansBounded<T>(sentinel: Addr, n: nat, events: seq<Event<T>>)
    ensures ScansBounded(Run(Init<T>(sentinel, n), events))
    decreases |events|
  {
    if events != [] {
      var prefix, e := events[..|events| - 1], events[|events| - 1];
      RunScansBounded<T>(sentinel, n, prefix);
      var s := Run(Init<T>(sentinel, n), prefix);
      if e.t < |s.threads| {
        RecordsGrow(s, e.t, e.c);
        if s.threads[e.t].pc.Ret? { ScanBoundedStep(s, e.t, s.threads[e.t], s.threads[e.t].pc.r); }
        else { OtherStepBounded(s, e.t, e.c); }
      }
    }
  }

  lemma DistinctFits(keep: seq<Addr>, guarded: set<Addr>)
    requires forall a | a in keep :: a in guarded
    requires forall a :: multiset(keep)[a] <= 1
    ensures |keep| <= |guarded|
  {
    if keep != [] {
      assert keep == [keep[0]] + keep[1..];
      assert multiset(keep)[keep[0]] == 1 + multiset(keep[1..])[keep[0]];
      assert forall a :: multiset(keep[1..])[a] <= multiset(keep)[a];
      DistinctFits(keep[1..], guarded - {keep[0]});
    }
  }

  /** A scan pushes back at most two nodes per hazard record; every other node of its list is gone. */
  lemma ScanKeepsFew<T>(sentinel: Addr, n: nat, events: seq<Event<T>>, t: Tid)
    requires sentinel != NULL && t < |Run(Init<T>(sentinel, n), events).threads|
    requires var pc := Run(Init<T>(sentinel, n), events).threads[t].pc; pc.Ret? && pc.r.SSplit?
    ensures var s := Run(Init<T>(sentinel, n), events);
            |s.threads[t].pc.r.keep| <= 2 * |s.sh.records|
  {
    InitInv<T>(sentinel, n);
    RunInv(Init<T>(sentinel, n), events);
    RunScansBounded<T>(sentinel, n, events);
    var s := Run(Init<T>(sentinel, n), events);
    var r := s.threads[t].pc.r;
    assert ThreadOk(s.sh, t, s.threads[t]);
    assert ScanBounded(|s.sh.records|, r);
    forall a ensures multiset(r.keep)[a] <= 1 {
      assert RetireHolding(r)[a] == multiset(r.list)[a] + multiset(r.keep)[a];
    }
    DistinctFits(r.keep, r.guarded);
  }
}
