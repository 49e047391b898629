/** The thread-local memory pool with a tagged global stack, as a step machine.
  *
  * Each step is one access to shared memory; the local list of a thread and a node that only it can
  * reach belong to one thread, so work on them is part of a step. Nodes are never deleted. The
  * per-thread batches stay empty because nothing pushes to them.
  */
module MemoryPool {

  import opened Common

  type Node = nat

  const MOVENODESIZE: nat := 200
  const TAGS: nat := 0x1_0000       // the tag is the upper 16 bits of the top word

  // History: who may reach a node.
  datatype Owner = Used | Global | Mine(t: nat)

  datatype Pc =
    | Idle
    | Load(want: nat)
    | Walk(want: nat, top: Node, tag: nat, tail: Node, actual: nat, stamp: nat)
    | Cas(want: nat, top: Node, tag: nat, tail: Node, actual: nat, remaining: Option<Node>, stamp: nat)
    | Popped(head: Node, tail: Node, actual: nat)
    | Cut(head: Node, tail: Node, actual: nat)
    | Take(head: Node, actual: nat)
    | Reserve
    | PushLoad(x: Node)
    | PushLink(x: Node, oldTop: Option<Node>, tag: nat)
    | PushCas(x: Node, oldTop: Option<Node>, tag: nat)
    | PushCount
    | Release

  datatype Thread = Thread(
    top: Option<Node>,      // local.top
    count: int,             // local.count
    pc: Pc,
    list: seq<Node>,        // history: the local list
    held: seq<Node>)        // history: nodes taken from or on the way to the global stack

  datatype State = State(
    next: seq<Option<Node>>,   // nextNode of every node there is
    top: Option<Node>,         // the pointer half of _top
    tag: nat,                  // the tag half
    available: int,            // _availableCount
    use: int,                  // mUseCount
    alloc: int,                // mAllocCount
    threads: seq<Thread>,
    updates: nat,              // history: successful changes of _top
    stack: seq<Node>,          // history: the global stack, top first
    owner: seq<Owner>)         // history

  // What an idle thread begins: Alloc, or Free of a node. `ok` is false for a spurious CAS failure.
  datatype Op = Alloc | Free(x: Node)

  datatype Event = Event(t: nat, op: Op, ok: bool)

  function First(list: seq<Node>): Option<Node> { if list == [] then None else Some(list[0]) }

  function Next(s: State, x: Node): Option<Node> { if x < |s.next| then s.next[x] else None }

  /** The owners after the nodes of `list` have passed to `to`. */
  function Given(owner: seq<Owner>, list: seq<Node>, to: Owner): seq<Owner> {
    seq(|owner|, x requires 0 <= x < |owner| => if x in list then to else owner[x])
  }

  function With(s: State, t: nat, thread: Thread): State
    requires t < |s.threads|
  {
    s.(threads := s.threads[t := thread])
  }

  function Goto(s: State, t: nat, pc: Pc): State
    requires t < |s.threads|
  {
    With(s, t, s.threads[t].(pc := pc))
  }

  /** The node at the front of a local list is handed to the caller. */
  function Hand(s: State, t: nat): State
    requires t < |s.threads|
  {
    var thread := s.threads[t];
    if thread.top.None? || thread.list == [] then Goto(s, t, Idle)
    else
      With(s, t,
           thread.(top := Next(s, thread.top.value), count := thread.count - 1, pc := Idle, list := thread.list[1..]))
      .(use := s.use + 1, owner := Given(s.owner, [thread.list[0]], Used))
  }

  function BeginAlloc(s: State, t: nat): State
    requires t < |s.threads|
  {
    if s.threads[t].top.Some? then Hand(s, t)
    else if s.available <= 0 then Goto(s, t, Reserve)
    else Goto(s, t, Load(Min(s.available, MOVENODESIZE)))
  }

  /** Free of a node that a caller has; nothing else is freed. */
  function BeginFree(s: State, t: nat, x: Node): State
    requires t < |s.threads|
  {
    var thread := s.threads[t];
    if x >= |s.next| || x >= |s.owner| || s.owner[x] != Used then s
    else if thread.count > MOVENODESIZE then
      With(s, t, thread.(pc := PushLoad(x), held := [x])).(owner := s.owner[x := Mine(t)])
    else
      With(s, t, thread.(top := Some(x), count := thread.count + 1, list := [x] + thread.list))
      .(next := s.next[x := thread.top], use := s.use - 1, owner := s.owner[x := Mine(t)])
  }

  /** A (re)load of the top before a walk. */
  function StartWalk(s: State, t: nat, want: nat): State
    requires t < |s.threads|
  {
    if s.top.None? then Goto(s, t, Reserve)
    else Goto(s, t, Walk(want, s.top.value, s.tag, s.top.value, 1, s.updates))
  }

  function WalkStep(s: State, t: nat, pc: Pc): State
    requires t < |s.threads| && pc.Walk?
  {
    var next := Next(s, pc.tail);
    if pc.actual < pc.want && next.Some? then
      Goto(s, t, Walk(pc.want, pc.top, pc.tag, next.value, pc.actual + 1, pc.stamp))
    else Goto(s, t, Cas(pc.want, pc.top, pc.tag, pc.tail, pc.actual, next, pc.stamp))
  }

  function PopCas(s: State, t: nat, pc: Pc, ok: bool): State
    requires t < |s.threads| && pc.Cas?
  {
    if ok && s.top == Some(pc.top) && s.tag == pc.tag then
      var k := Min(pc.actual, |s.stack|);
      With(s, t, s.threads[t].(pc := Popped(pc.top, pc.tail, pc.actual), held := s.stack[..k]))
      .(top := pc.remaining, tag := (s.tag + 1) % TAGS, updates := s.updates + 1, stack := s.stack[k..],
        owner := Given(s.owner, s.stack[..k], Mine(t)))
    else StartWalk(s, t, pc.want)
  }

  function PushCasStep(s: State, t: nat, pc: Pc, ok: bool): State
    requires t < |s.threads| && pc.PushCas?
  {
    if ok && s.top == pc.oldTop && s.tag == pc.tag then
      With(s, t, s.threads[t].(pc := PushCount, held := []))
      .(top := Some(pc.x), tag := (s.tag + 1) % TAGS, updates := s.updates + 1, stack := [pc.x] + s.stack,
        owner := Given(s.owner, [pc.x], Global))
    else Goto(s, t, PushLink(pc.x, s.top, s.tag))
  }

  /** ReserveNodes: the first of `n` new nodes becomes the last of the list. */
  function NewNodes(s: State, t: nat, n: nat): State
    requires t < |s.threads|
  {
    var thread, first := s.threads[t], |s.next|;
    var fresh' := seq(n, k requires 0 <= k < n => first + n - 1 - k);
    With(s, t, thread.(top := if n == 0 then thread.top else Some(first + n - 1), count := thread.count + n,
                       list := fresh' + thread.list))
    .(next := s.next + seq(n, k requires 0 <= k < n => if k == 0 then thread.top else Some(first + k - 1)),
      alloc := s.alloc + n, owner := s.owner + seq(n, _ => Mine(t)))
  }

  /** The pool after its constructor, which thread 0 runs. */
  function Init(threads: nat, initCount: nat): State
    requires threads > 0
  {
    NewNodes(State([], None, 0, 0, 0, 0, seq(threads, _ => Thread(None, 0, Idle, [], [])), 0, [], []), 0, initCount)
  }

  function Work(s: State, t: nat, ok: bool): State
    requires t < |s.threads|
  {
    var thread := s.threads[t];
    match thread.pc
    case Idle => s
    case Load(want) => StartWalk(s, t, want)
    case Walk(_, _, _, _, _, _) => WalkStep(s, t, thread.pc)
    case Cas(_, _, _, _, _, _, _) => PopCas(s, t, thread.pc, ok)
    case Popped(head, tail, actual) => Goto(s, t, Cut(head, tail, actual)).(available := s.available - actual)
    case Cut(head, tail, actual) =>
      var s' := Goto(s, t, Take(head, actual));
      if tail < |s.next| then s'.(next := s.next[tail := None]) else s'
    case Take(head, actual) =>
      Hand(With(s, t, Thread(Some(head), actual, Idle, thread.held, [])), t)
    case Reserve => Hand(NewNodes(Goto(s, t, Idle), t, MOVENODESIZE), t)
    case PushLoad(x) => Goto(s, t, PushLink(x, s.top, s.tag))
    case PushLink(x, oldTop, tag) =>
      var s' := Goto(s, t, PushCas(x, oldTop, tag));
      if x < |s.next| then s'.(next := s.next[x := oldTop]) else s'
    case PushCas(_, _, _) => PushCasStep(s, t, thread.pc, ok)
    case PushCount => Goto(s, t, Release).(available := s.available + 1)
    case Release => Goto(s, t, Idle).(use := s.use - 1)
  }

  function Step(s: State, e: Event): State {
    if e.t >= |s.threads| then s
    else if !s.threads[e.t].pc.Idle? then Work(s, e.t, e.ok)
    else match e.op
         case Alloc => BeginAlloc(s, e.t)
         case Free(x) => BeginFree(s, e.t, x)
  }

  function Run(s: State, events: seq<Event>): State
    decreases |events|
  {
    if events == [] then s else Step(Run(s, events[..|events| - 1]), events[|events| - 1])
  }
}
