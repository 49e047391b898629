/** What a timely run of the pool guarantees: exact batches, one place for every node, exact counters. */
module MemoryPoolTheorems {

  import opened Common
  import opened MemoryPool
  import opened MemoryPoolInvariant

  /** A pop that succeeds removes exactly the first `actual` nodes of the stack as it stands at the CAS, as
    * many as were wanted or all there are, and leaves them to this thread in stack order.
    */
  lemma PopIsExact(threads: nat, initCount: nat, events: seq<Event>, t: nat, op: Op)
    requires threads > 0 && TimelyRun(Init(threads, initCount), events)
    requires var s := Run(Init(threads, initCount), events); t < |s.threads| && Pops(s, t, true) && Timely(s, t)
    ensures var s := Run(Init(threads, initCount), events);
            var s', actual := Step(s, Event(t, op, true)), s.threads[t].pc.actual;
            && 1 <= actual <= |s.stack| && (actual == s.threads[t].pc.want || actual == |s.stack|)
            && s'.stack == s.stack[actual..] && s'.top == First(s.stack[actual..])
            && s'.threads[t].held == s.stack[..actual]
            && Linked(s.next, s.stack[..actual], s'.top)
  {
    var s := Run(Init(threads, initCount), events);
    RunInv(threads, initCount, events);
    TagTells(s, t);
    assert ThreadOk(s, t, s.threads[t]);
    LinkedSplit(s.next, s.stack, s.threads[t].pc.actual);
  }

  /** The batch that a thread takes over has exactly the popped nodes and ends in a null pointer. */
  lemma BatchIsClosed(threads: nat, initCount: nat, events: seq<Event>, t: nat)
    requires threads > 0 && TimelyRun(Init(threads, initCount), events)
    requires var s := Run(Init(threads, initCount), events); t < |s.threads| && s.threads[t].pc.Take?
    ensures var s := Run(Init(threads, initCount), events);
            && Linked(s.next, s.threads[t].held, None) && |s.threads[t].held| == s.threads[t].pc.actual >= 1
            && s.threads[t].held[0] == s.threads[t].pc.head
  {
    RunInv(threads, initCount, events);
    var s := Run(Init(threads, initCount), events);
    assert ThreadOk(s, t, s.threads[t]);
  }

  /** How often the local list and the private nodes of thread `u` contain node `x`. */
  function Has(s: State, u: nat, x: Node): nat
    requires u < |s.threads|
  {
    multiset(s.threads[u].list + s.threads[u].held)[x]
  }

  /** Every node is in exactly one place, and there once: in use, in one local list or private to that
    * thread, or on the global stack.
    */
  lemma EveryNodeInOnePlace(threads: nat, initCount: nat, events: seq<Event>, x: Node, u: nat)
    requires threads > 0 && TimelyRun(Init(threads, initCount), events)
    requires var s := Run(Init(threads, initCount), events); x < |s.next| && u < |s.threads|
    ensures var s := Run(Init(threads, initCount), events);
            && x < |s.owner|
            && multiset(s.stack)[x] == (if s.owner[x] == Global then 1 else 0)
            && Has(s, u, x) == (if s.owner[x] == Mine(u) then 1 else 0)
            && (s.owner[x].Mine? ==> s.owner[x].t < |s.threads|)
  {
    RunInv(threads, initCount, events);
    var s := Run(Init(threads, initCount), events);
    assert ThreadOk(s, u, s.threads[u]);
    CountOnce(s.stack, x);
    CountOnce(s.threads[u].list + s.threads[u].held, x);
  }

  /** Between `s` and `s'` node `x` passes to a caller. */
  predicate HandsOut(s: State, s': State, x: Node) {
    x < |s'.owner| && s'.owner[x] == Used && (x < |s.owner| ==> s.owner[x] != Used)
  }

  /** Thread `t` has handed out a node of its own or a new one, and keeps no trace of it. */
  predicate GaveAway(s: State, s': State, t: nat, x: Node) {
    && t < |s.threads| && t < |s'.threads|
    && (if x < |s.owner| then s.owner[x] == Mine(t) else s.threads[t].pc.Reserve?)
    && s'.threads[t].pc.Idle? && x !in s'.threads[t].list && x !in s'.threads[t].held
  }

  /** Whatever step hands a node out, be it from the local list, at the end of a batch pop or of
    * ReserveNodes: the node was the caller's own or is new, so it was not in use, and it has left the list.
    */
  lemma HandedOutOnce(threads: nat, initCount: nat, events: seq<Event>, e: Event, x: Node)
    requires threads > 0 && TimelyRun(Init(threads, initCount), events)
    requires var s := Run(Init(threads, initCount), events); HandsOut(s, Step(s, e), x)
    ensures var s := Run(Init(threads, initCount), events); GaveAway(s, Step(s, e), e.t, x)
  {
    RunInv(threads, initCount, events);
    StepGivesAway(Run(Init(threads, initCount), events), e, x);
  }

  /** The end of Alloc hands out the front of the local list and nothing else. */
  lemma HandGives(s: State, t: nat, x: Node)
    requires t < |s.threads| && HandsOut(s, Hand(s, t), x)
    ensures s.threads[t].list != [] && x == s.threads[t].list[0]
    ensures var th := Hand(s, t).threads[t];
            th.pc.Idle? && th.list == s.threads[t].list[1..] && th.held == s.threads[t].held
  {
  }

  lemma FrontLeaves(list: seq<Node>, held: seq<Node>)
    requires list != [] && NoRepeats(list + held)
    ensures list[0] !in list[1..] && list[0] !in held
  {
    var all := list + held;
    forall a: nat | a < |list[1..]| ensures list[1..][a] != list[0] { assert all[0] != all[a + 1]; }
    forall a: nat | a < |held| ensures held[a] != list[0] { assert all[0] != all[|list| + a]; }
  }

  lemma AllocGives(s: State, t: nat, x: Node)
    requires Inv(s) && t < |s.threads| && s.threads[t].pc.Idle? && HandsOut(s, Hand(s, t), x)
    ensures GaveAway(s, Hand(s, t), t, x)
  {
    HandGives(s, t, x);
    assert ThreadOk(s, t, s.threads[t]);
    assert x in s.threads[t].list + s.threads[t].held;
    FrontLeaves(s.threads[t].list, s.threads[t].held);
  }

  lemma TakeGives(s: State, t: nat, x: Node)
    requires Inv(s) && t < |s.threads| && s.threads[t].pc.Take? && HandsOut(s, Work(s, t, true), x)
    ensures GaveAway(s, Work(s, t, true), t, x)
  {
    var pc, held := s.threads[t].pc, s.threads[t].held;
    var s1 := With(s, t, Thread(Some(pc.head), pc.actual, Idle, held, []));
    TakeOver(s, t);
    AllocGives(s1, t, x);
  }

  lemma ReserveGives(s: State, t: nat, x: Node)
    requires Inv(s) && t < |s.threads| && s.threads[t].pc.Reserve? && HandsOut(s, Work(s, t, true), x)
    ensures GaveAway(s, Work(s, t, true), t, x)
  {
    var s1 := NewNodes(Goto(s, t, Idle), t, MOVENODESIZE);
    assert ThreadOk(s, t, s.threads[t]);
    GotoGood(s, t, Idle);
    NewNodesInv(Goto(s, t, Idle), t, MOVENODESIZE);
    HandGives(s1, t, x);
    AllocGives(s1, t, x);
  }

  lemma OthersGiveNothing(s: State, t: nat, ok: bool, x: Node)
    requires t < |s.threads| && !s.threads[t].pc.Take? && !s.threads[t].pc.Reserve?
    ensures !HandsOut(s, Work(s, t, ok), x)
  {
  }

  lemma StepGivesAway(s: State, e: Event, x: Node)
    requires Inv(s) && HandsOut(s, Step(s, e), x)
    ensures GaveAway(s, Step(s, e), e.t, x)
  {
    if e.t < |s.threads| {
      if s.threads[e.t].pc.Idle? {
        if e.op.Alloc? && s.threads[e.t].top.Some? { AllocGives(s, e.t, x); }
      } else if s.threads[e.t].pc.Take? {
        TakeGives(s, e.t, x);
      } else if s.threads[e.t].pc.Reserve? {
        ReserveGives(s, e.t, x);
      } else {
        OthersGiveNothing(s, e.t, e.ok, x);
      }
    }
  }

  /** A local list is what `local.top` leads to, and `local.count` its length. */
  lemma LocalListIsExact(threads: nat, initCount: nat, events: seq<Event>, u: nat)
    requires threads > 0 && TimelyRun(Init(threads, initCount), events)
    requires u < |Run(Init(threads, initCount), events).threads|
    ensures var s := Run(Init(threads, initCount), events);
            var thread := s.threads[u];
            thread.top == First(thread.list) && Linked(s.next, thread.list, None) && thread.count == |thread.list|
  {
    RunInv(threads, initCount, events);
    var s := Run(Init(threads, initCount), events);
    assert ThreadOk(s, u, s.threads[u]);
  }

  /** The counters lag behind by exactly what the threads between two accesses have not counted yet. */
  lemma CountersAreExact(threads: nat, initCount: nat, events: seq<Event>)
    requires threads > 0 && TimelyRun(Init(threads, initCount), events)
    ensures var s := Run(Init(threads, initCount), events);
            && s.available == |s.stack| - Sum(Uncounted(), s.threads)
            && s.use == Sum(InUse(), s.owner) + Sum(Freeing(), s.threads)
            && s.alloc == |s.next| == |s.owner|
  {
    RunInv(threads, initCount, events);
  }
}
