/** The structure of the pool in every run, and what a successful batch pop takes. */
module MemoryPoolInvariant {

  import opened Common
  import opened MemoryPool

  // ---------------------------------------------------------------- linked lists

  predicate LinkAt(next: seq<Option<Node>>, list: seq<Node>, end: Option<Node>, a: nat)
    requires a < |list|
  {
    list[a] < |next| && next[list[a]] == if a + 1 < |list| then Some(list[a + 1]) else end
  }

  /** Following `next` from the front of the list goes through the list and ends in `end`. */
  predicate Linked(next: seq<Option<Node>>, list: seq<Node>, end: Option<Node>) {
    forall a: nat :: a < |list| ==> LinkAt(next, list, end, a)
  }

  /** The list has no repeats, and consists of the nodes with owner `who` (and of those of `other`). */
  predicate Owns(owner: seq<Owner>, list: seq<Node>, who: Owner) {
    && NoRepeats(list)
    && (forall x: Node :: x in list ==> x < |owner| && owner[x] == who)
    && (forall x: nat :: x < |owner| && owner[x] == who ==> x in list)
  }

  // ---------------------------------------------------------------- threads

  predicate Known(s: State, x: Option<Node>) { x.Some? ==> x.value < |s.next| }

  /** If the top word has not changed since the walk began, the walk has followed the stack. */
  predicate WalkOk(s: State, top: Node, tag: nat, tail: Node, actual: nat, stamp: nat) {
    && tail < |s.next| && 1 <= actual && stamp <= s.updates && tag == stamp % TAGS
    && (stamp == s.updates ==>
          s.top == Some(top) && actual <= |s.stack| && s.stack[0] == top && s.stack[actual - 1] == tail)
  }

  ghost predicate PcOk(s: State, t: nat, thread: Thread) {
    match thread.pc
    case Idle => thread.held == []
    case Load(want) => thread.held == [] && thread.list == [] && want >= 1
    case Walk(want, top, tag, tail, actual, stamp) =>
      thread.held == [] && thread.list == [] && actual <= want && WalkOk(s, top, tag, tail, actual, stamp)
    case Cas(want, top, tag, tail, actual, remaining, stamp) =>
      && thread.held == [] && thread.list == [] && actual <= want && WalkOk(s, top, tag, tail, actual, stamp)
      && Known(s, remaining)
      && (stamp == s.updates ==> remaining == First(s.stack[actual..]) && (actual == want || remaining.None?))
    case Popped(head, tail, actual) => thread.list == [] && BatchOk(s, thread.held, head, tail, actual)
    case Cut(head, tail, actual) => thread.list == [] && BatchOk(s, thread.held, head, tail, actual)
    case Take(head, actual) =>
      thread.list == [] && |thread.held| == actual >= 1 && thread.held[0] == head && Linked(s.next, thread.held, None)
    case Reserve => thread.held == [] && thread.list == []
    case PushLoad(x) => thread.held == [x]
    case PushLink(x, oldTop, _) => thread.held == [x] && Known(s, oldTop)
    case PushCas(x, oldTop, _) => thread.held == [x] && x < |s.next| && s.next[x] == oldTop && Known(s, oldTop)
    case PushCount => thread.held == []
    case Release => thread.held == []
  }

  predicate BatchOk(s: State, held: seq<Node>, head: Node, tail: Node, actual: nat) {
    && |held| == actual >= 1 && held[0] == head && held[actual - 1] == tail
    && forall a: nat :: a < actual ==>
         held[a] < |s.next| && (a + 1 < actual ==> s.next[held[a]] == Some(held[a + 1]))
  }

  ghost predicate ThreadOk(s: State, t: nat, thread: Thread) {
    && thread.top == First(thread.list) && thread.count == |thread.list| && Linked(s.next, thread.list, None)
    && Owns(s.owner, thread.list + thread.held, Mine(t))
    && PcOk(s, t, thread)
  }

  // ---------------------------------------------------------------- counters

  function Sum<T>(f: T -> int, xs: seq<T>): int {
    if xs == [] then 0 else f(xs[0]) + Sum(f, xs[1..])
  }

  /** What a thread has done to the stack but not yet to `available`. */
  function Uncounted(): Thread -> int {
    (thread: Thread) => if thread.pc.PushCount? then 1 else if thread.pc.Popped? then -(thread.pc.actual as int) else 0
  }

  function Freeing(): Thread -> int {
    (thread: Thread) =>
      if thread.pc.PushLoad? || thread.pc.PushLink? || thread.pc.PushCas? || thread.pc.PushCount? || thread.pc.Release?
      then 1 else 0
  }

  function InUse(): Owner -> int { (o: Owner) => if o.Used? then 1 else 0 }

  ghost predicate SharedOk(s: State) {
    && |s.owner| == |s.next| == s.alloc && s.tag == s.updates % TAGS
    && (forall x: nat :: x < |s.next| ==> Known(s, s.next[x]))
    && s.top == First(s.stack) && Linked(s.next, s.stack, None) && Owns(s.owner, s.stack, Global)
    && (forall x: nat :: x < |s.owner| && s.owner[x].Mine? ==> s.owner[x].t < |s.threads|)
  }

  ghost predicate ThreadsOk(s: State) {
    forall t: nat :: t < |s.threads| ==> ThreadOk(s, t, s.threads[t])
  }

  ghost predicate CountsOk(s: State) {
    && s.available == |s.stack| - Sum(Uncounted(), s.threads)
    && s.use == Sum(InUse(), s.owner) + Sum(Freeing(), s.threads)
  }

  ghost predicate Inv(s: State) { SharedOk(s) && ThreadsOk(s) && CountsOk(s) }

  // ---------------------------------------------------------------- what a step of one thread leaves alone

  /** Thread `t` touches its own nodes, nodes nobody else can reach, and the stack only with the top word. */
  ghost predicate Evolves(s: State, s': State, t: nat) {
    && |s'.next| >= |s.next| && |s'.owner| >= |s.owner| && |s'.threads| == |s.threads|
    && (forall x: nat :: x < |s.next| && s'.next[x] != s.next[x] ==>
          x < |s.owner| && (s.owner[x] == Mine(t) || s.owner[x] == Used))
    && (forall x: nat, u: nat :: u != t && x < |s'.owner| ==>
          (s'.owner[x] == Mine(u) <==> x < |s.owner| && s.owner[x] == Mine(u)))
    && s'.updates >= s.updates && (s'.updates == s.updates ==> s'.stack == s.stack && s'.top == s.top)
    && forall u: nat :: u != t && u < |s.threads| ==> s'.threads[u] == s.threads[u]
  }

  lemma LinkedStays(s: State, s': State, t: nat, list: seq<Node>, end: Option<Node>)
    requires Linked(s.next, list, end) && |s'.next| >= |s.next|
    requires forall x: Node :: x in list && x < |s.next| ==> s'.next[x] == s.next[x]
    ensures Linked(s'.next, list, end)
  {
    forall a: nat | a < |list| ensures LinkAt(s'.next, list, end, a) {
      assert LinkAt(s.next, list, end, a);
      assert list[a] in list;
    }
  }

  lemma OtherOwns(s: State, s': State, t: nat, u: nat, list: seq<Node>)
    requires Evolves(s, s', t) && u != t && Owns(s.owner, list, Mine(u))
    ensures Owns(s'.owner, list, Mine(u))
  {
    forall x: nat | x < |s'.owner| && s'.owner[x] == Mine(u) ensures x in list { }
  }

  /** The nodes of another thread keep their next pointers. */
  lemma OtherNodes(s: State, s': State, t: nat, u: nat)
    requires Evolves(s, s', t) && SharedOk(s) && u != t && u < |s.threads| && ThreadOk(s, u, s.threads[u])
    ensures forall x: Node :: x in s.threads[u].list || x in s.threads[u].held ==>
              x < |s.next| && s'.next[x] == s.next[x]
  {
    var all := s.threads[u].list + s.threads[u].held;
    forall x: Node | x in s.threads[u].list || x in s.threads[u].held ensures x < |s.next| && s'.next[x] == s.next[x] {
      assert x in all;
    }
  }

  lemma OtherPc(s: State, s': State, t: nat, u: nat)
    requires Evolves(s, s', t) && SharedOk(s) && u != t && u < |s.threads| && PcOk(s, u, s.threads[u])
    requires forall x: Node :: x in s.threads[u].held ==> x < |s.next| && s'.next[x] == s.next[x]
    ensures PcOk(s', u, s.threads[u])
  {
    var thread := s.threads[u];
    forall a: nat | a < |thread.held| ensures thread.held[a] in thread.held { }
    if thread.pc.Take? { LinkedStays(s, s', t, thread.held, None); }
  }

  lemma OtherThreadOk(s: State, s': State, t: nat, u: nat)
    requires Evolves(s, s', t) && SharedOk(s) && u != t && u < |s.threads| && ThreadOk(s, u, s.threads[u])
    ensures ThreadOk(s', u, s.threads[u])
  {
    OtherOwns(s, s', t, u, s.threads[u].list + s.threads[u].held);
    OtherNodes(s, s', t, u);
    LinkedStays(s, s', t, s.threads[u].list, None);
    OtherPc(s, s', t, u);
  }

  // ---------------------------------------------------------------- putting a step together

  lemma {:induction false} SumUpdate<T>(f: T -> int, xs: seq<T>, i: nat, x: T)
    requires i < |xs|
    ensures Sum(f, xs[i := x]) == Sum(f, xs) - f(xs[i]) + f(x)
  {
    if i == 0 {
      assert xs[0 := x][1..] == xs[1..];
    } else {
      SumUpdate(f, xs[1..], i - 1, x);
      assert xs[i := x][1..] == xs[1..][i - 1 := x];
    }
  }

  lemma {:induction false} SumSame<T>(f: T -> int, xs: seq<T>, ys: seq<T>)
    requires |xs| == |ys| && forall i: nat :: i < |xs| ==> f(xs[i]) == f(ys[i])
    ensures Sum(f, xs) == Sum(f, ys)
  {
    if xs != [] { SumSame(f, xs[1..], ys[1..]); }
  }

  lemma {:induction false} SumAppendZero<T>(f: T -> int, xs: seq<T>, ys: seq<T>)
    requires forall i: nat :: i < |ys| ==> f(ys[i]) == 0
    ensures Sum(f, xs + ys) == Sum(f, xs)
  {
    if xs == [] {
      assert xs + ys == ys;
      SumZero(f, ys);
    } else {
      SumAppendZero(f, xs[1..], ys);
      assert (xs + ys)[1..] == xs[1..] + ys;
    }
  }

  lemma {:induction false} SumZero<T>(f: T -> int, ys: seq<T>)
    requires forall i: nat :: i < |ys| ==> f(ys[i]) == 0
    ensures Sum(f, ys) == 0
  {
    if ys != [] { SumZero(f, ys[1..]); }
  }

  /** The counters move as the thread's debts and the number of nodes in use do. */
  predicate Counted(s: State, s': State, t: nat)
    requires t < |s.threads| == |s'.threads|
  {
    && s'.available - s.available
       == |s'.stack| - |s.stack| - (Uncounted()(s'.threads[t]) - Uncounted()(s.threads[t]))
    && s'.use - s.use
       == Sum(InUse(), s'.owner) - Sum(InUse(), s.owner) + Freeing()(s'.threads[t]) - Freeing()(s.threads[t])
  }

  lemma CountsKept(s: State, s': State, t: nat)
    requires CountsOk(s) && t < |s.threads| == |s'.threads| && Counted(s, s', t)
    requires forall u: nat :: u != t && u < |s.threads| ==> s'.threads[u] == s.threads[u]
    ensures CountsOk(s')
  {
    assert s'.threads == s.threads[t := s'.threads[t]];
    SumUpdate(Uncounted(), s.threads, t, s'.threads[t]);
    SumUpdate(Freeing(), s.threads, t, s'.threads[t]);
  }

  ghost predicate GoodStep(s: State, s': State, t: nat)
    requires t < |s.threads|
  {
    && Evolves(s, s', t) && SharedOk(s') && ThreadOk(s', t, s'.threads[t]) && Counted(s, s', t)
  }

  lemma GoodStepInv(s: State, s': State, t: nat)
    requires Inv(s) && t < |s.threads| && GoodStep(s, s', t)
    ensures Inv(s')
  {
    CountsKept(s, s', t);
    forall u: nat | u < |s'.threads| ensures ThreadOk(s', u, s'.threads[u]) {
      if u != t {
        assert ThreadOk(s, u, s.threads[u]);
        OtherThreadOk(s, s', t, u);
      }
    }
  }

  // ---------------------------------------------------------------- steps that only move the thread on

  lemma GotoGood(s: State, t: nat, pc: Pc)
    requires Inv(s) && t < |s.threads| && PcOk(s, t, s.threads[t].(pc := pc))
    requires Uncounted()(s.threads[t].(pc := pc)) == Uncounted()(s.threads[t])
    requires Freeing()(s.threads[t].(pc := pc)) == Freeing()(s.threads[t])
    ensures Inv(Goto(s, t, pc))
  {
    var s' := Goto(s, t, pc);
    assert ThreadOk(s, t, s.threads[t]);
    PcSame(s, s', t, s'.threads[t]);
    GoodStepInv(s, s', t);
  }

  lemma PcSame(s: State, s': State, t: nat, thread: Thread)
    requires PcOk(s, t, thread) && s' == s.(threads := s'.threads)
    ensures PcOk(s', t, thread)
  {
  }

  lemma StartWalkInv(s: State, t: nat, want: nat)
    requires Inv(s) && t < |s.threads| && want >= 1
    requires s.threads[t].pc.Load? || s.threads[t].pc.Cas?
    ensures Inv(StartWalk(s, t, want))
  {
    assert ThreadOk(s, t, s.threads[t]);
    if s.top.None? {
      GotoGood(s, t, Reserve);
    } else {
      assert s.stack[0] in s.stack;
      GotoGood(s, t, Walk(want, s.top.value, s.tag, s.top.value, 1, s.updates));
    }
  }

  /** While the top word has not changed, the next pointer of the tail is the next node of the stack. */
  lemma WalkFollows(s: State, t: nat)
    requires Inv(s) && t < |s.threads| && s.threads[t].pc.Walk?
    ensures var pc := s.threads[t].pc;
            pc.stamp == s.updates ==>
              pc.actual <= |s.stack| && pc.tail == s.stack[pc.actual - 1]
              && Next(s, pc.tail) == First(s.stack[pc.actual..])
    ensures Known(s, Next(s, s.threads[t].pc.tail))
  {
    var pc := s.threads[t].pc;
    assert ThreadOk(s, t, s.threads[t]);
    if pc.stamp == s.updates { assert LinkAt(s.next, s.stack, None, pc.actual - 1); }
  }

  /** Where a walker goes next. */
  function Walking(s: State, pc: Pc): Pc
    requires pc.Walk?
  {
    var next := Next(s, pc.tail);
    if pc.actual < pc.want && next.Some? then Walk(pc.want, pc.top, pc.tag, next.value, pc.actual + 1, pc.stamp)
    else Cas(pc.want, pc.top, pc.tag, pc.tail, pc.actual, next, pc.stamp)
  }

  lemma WalkOn(s: State, t: nat)
    requires Inv(s) && t < |s.threads| && s.threads[t].pc.Walk?
    ensures PcOk(s, t, s.threads[t].(pc := Walking(s, s.threads[t].pc)))
  {
    assert ThreadOk(s, t, s.threads[t]);
    WalkFollows(s, t);
  }

  lemma WalkInv(s: State, t: nat)
    requires Inv(s) && t < |s.threads| && s.threads[t].pc.Walk?
    ensures Inv(WalkStep(s, t, s.threads[t].pc))
  {
    WalkOn(s, t);
    GotoGood(s, t, Walking(s, s.threads[t].pc));
  }

  lemma PushLoadInv(s: State, t: nat)
    requires Inv(s) && t < |s.threads|
    requires s.threads[t].pc.PushLoad? || s.threads[t].pc.PushCas?
    ensures Inv(Goto(s, t, PushLink(s.threads[t].pc.x, s.top, s.tag)))
  {
    assert ThreadOk(s, t, s.threads[t]);
    if s.stack != [] { assert s.stack[0] in s.stack; }
    GotoGood(s, t, PushLink(s.threads[t].pc.x, s.top, s.tag));
  }

  lemma BeginAllocInv(s: State, t: nat)
    requires Inv(s) && t < |s.threads| && s.threads[t].pc.Idle? && s.threads[t].top.None?
    ensures Inv(BeginAlloc(s, t))
  {
    assert ThreadOk(s, t, s.threads[t]);
    if s.available <= 0 {
      GotoGood(s, t, Reserve);
    } else {
      GotoGood(s, t, Load(Min(s.available, MOVENODESIZE)));
    }
  }

  // ---------------------------------------------------------------- steps on the thread's own nodes

  lemma PoppedInv(s: State, t: nat)
    requires Inv(s) && t < |s.threads| && s.threads[t].pc.Popped?
    ensures Inv(Work(s, t, true))
  {
    var s' := Work(s, t, true);
    assert ThreadOk(s, t, s.threads[t]);
    GoodStepInv(s, s', t);
  }

  lemma PushCountInv(s: State, t: nat)
    requires Inv(s) && t < |s.threads| && (s.threads[t].pc.PushCount? || s.threads[t].pc.Release?)
    ensures Inv(Work(s, t, true))
  {
    var s' := Work(s, t, true);
    assert ThreadOk(s, t, s.threads[t]);
    GoodStepInv(s, s', t);
  }

  /** Writing `nextNode` of a node that only this thread holds. */
  lemma WriteGood(s: State, t: nat, x: Node, value: Option<Node>, pc: Pc)
    requires Inv(s) && t < |s.threads| && x in s.threads[t].held && x < |s.next| && Known(s, value)
    requires PcOk(s.(next := s.next[x := value]), t, s.threads[t].(pc := pc))
    requires Uncounted()(s.threads[t].(pc := pc)) == Uncounted()(s.threads[t])
    requires Freeing()(s.threads[t].(pc := pc)) == Freeing()(s.threads[t])
    ensures Inv(Goto(s, t, pc).(next := s.next[x := value]))
  {
    var thread := s.threads[t];
    var s' := Goto(s, t, pc).(next := s.next[x := value]);
    assert ThreadOk(s, t, thread);
    assert x in thread.list + thread.held;
    LinkedStays(s, s', t, s.stack, None);
    forall y: Node | y in thread.list ensures y != x {
      var a :| 0 <= a < |thread.list| && thread.list[a] == y;
      NotInBoth(thread.list, thread.held, a, x);
    }
    LinkedStays(s, s', t, thread.list, None);
    PcSame(s.(next := s.next[x := value]), s', t, s'.threads[t]);
    GoodStepInv(s, s', t);
  }

  lemma NotInBoth(list: seq<Node>, held: seq<Node>, a: nat, x: Node)
    requires NoRepeats(list + held) && a < |list| && x in held
    ensures list[a] != x
  {
    var b :| 0 <= b < |held| && held[b] == x;
    assert (list + held)[|list| + b] == x && (list + held)[a] == list[a];
  }

  lemma CutInv(s: State, t: nat)
    requires Inv(s) && t < |s.threads| && s.threads[t].pc.Cut?
    ensures Inv(Work(s, t, true))
  {
    var thread, pc := s.threads[t], s.threads[t].pc;
    assert ThreadOk(s, t, thread);
    var next' := s.next[pc.tail := None];
    forall a: nat | a < |thread.held|
      ensures LinkAt(next', thread.held, None, a)
    {
      if a + 1 < |thread.held| {
        assert (thread.list + thread.held)[a] == thread.held[a];
        assert (thread.list + thread.held)[|thread.held| - 1] == pc.tail;
      }
    }
    WriteGood(s, t, pc.tail, None, Take(pc.head, pc.actual));
  }

  lemma PushLinkInv(s: State, t: nat)
    requires Inv(s) && t < |s.threads| && s.threads[t].pc.PushLink?
    ensures Inv(Work(s, t, true))
  {
    var thread, pc := s.threads[t], s.threads[t].pc;
    assert ThreadOk(s, t, thread);
    assert pc.x in thread.list + thread.held;
    WriteGood(s, t, pc.x, pc.oldTop, PushCas(pc.x, pc.oldTop, pc.tag));
  }

  // ---------------------------------------------------------------- steps that change owners

  lemma {:induction false} SumGiven(f: Owner -> int, owner: seq<Owner>, x: Node, to: Owner)
    requires x < |owner|
    ensures Sum(f, Given(owner, [x], to)) == Sum(f, owner) - f(owner[x]) + f(to)
  {
    assert Given(owner, [x], to) == owner[x := to];
    SumUpdate(f, owner, x, to);
  }

  /** The first node of a list changes hands. */
  lemma OwnsRest(owner: seq<Owner>, list: seq<Node>, who: Owner, to: Owner)
    requires Owns(owner, list, who) && list != [] && to != who
    ensures Owns(Given(owner, [list[0]], to), list[1..], who)
  {
    var owner' := Given(owner, [list[0]], to);
    forall x: Node | x in list[1..] ensures x < |owner'| && owner'[x] == who {
      var a :| 0 <= a < |list[1..]| && list[1..][a] == x;
      assert list[0] != list[a + 1] && x in list;
    }
    forall x: nat | x < |owner'| && owner'[x] == who ensures x in list[1..] {
      assert x in list;
    }
  }

  lemma OwnsStays(owner: seq<Owner>, list: seq<Node>, who: Owner, x: Node, to: Owner)
    requires Owns(owner, list, who) && x < |owner| && owner[x] != who && to != who
    ensures Owns(Given(owner, [x], to), list, who)
  {
  }

  lemma OwnsMore(owner: seq<Owner>, list: seq<Node>, who: Owner, x: Node)
    requires Owns(owner, list, who) && x < |owner| && owner[x] != who
    ensures Owns(Given(owner, [x], who), [x] + list, who)
  {
    assert x !in list;
    var list' := [x] + list;
    forall a: nat, b: nat | a < b < |list'| ensures list'[a] != list'[b] {
      if a == 0 { assert list'[b] in list; }
    }
  }

  lemma LinkedSplit(next: seq<Option<Node>>, list: seq<Node>, k: nat)
    requires Linked(next, list, None) && k <= |list|
    ensures Linked(next, list[k..], None) && Linked(next, list[..k], First(list[k..]))
  {
    var back, front := list[k..], list[..k];
    forall a: nat | a < |back| ensures LinkAt(next, back, None, a) { assert LinkAt(next, list, None, k + a); }
    forall a: nat | a < |front| ensures LinkAt(next, front, First(back), a) { assert LinkAt(next, list, None, a); }
  }

  lemma LinkedRest(next: seq<Option<Node>>, list: seq<Node>)
    requires Linked(next, list, None) && list != []
    ensures Linked(next, list[1..], None) && list[0] < |next| && next[list[0]] == First(list[1..])
  {
    LinkedSplit(next, list, 1);
    assert LinkAt(next, list, None, 0);
  }

  lemma HandThread(s: State, t: nat)
    requires t < |s.threads| && ThreadOk(s, t, s.threads[t]) && s.threads[t].pc.Idle? && s.threads[t].list != []
    ensures ThreadOk(Hand(s, t), t, Hand(s, t).threads[t])
  {
    var thread := s.threads[t];
    assert thread.list + thread.held == thread.list && thread.list[1..] + [] == thread.list[1..];
    LinkedRest(s.next, thread.list);
    OwnsRest(s.owner, thread.list, Mine(t), Used);
  }

  lemma HandInv(s: State, t: nat)
    requires Inv(s) && t < |s.threads| && s.threads[t].pc.Idle? && s.threads[t].list != []
    ensures Inv(Hand(s, t))
  {
    var thread := s.threads[t];
    assert ThreadOk(s, t, thread);
    HandThread(s, t);
    assert thread.list[0] in thread.list + thread.held;
    OwnsStays(s.owner, s.stack, Global, thread.list[0], Used);
    SumGiven(InUse(), s.owner, thread.list[0], Used);
    GoodStepInv(s, Hand(s, t), t);
  }

  lemma LinkedMore(next: seq<Option<Node>>, list: seq<Node>, x: Node)
    requires Linked(next, list, None) && x < |next| && x !in list
    ensures Linked(next[x := First(list)], [x] + list, None)
  {
    var next', list' := next[x := First(list)], [x] + list;
    forall a: nat | a < |list'| ensures LinkAt(next', list', None, a) {
      if a > 0 {
        assert LinkAt(next, list, None, a - 1);
        assert list[a - 1] in list;
      }
    }
  }

  lemma FreeLocalThread(s: State, t: nat, x: Node)
    requires t < |s.threads| && ThreadOk(s, t, s.threads[t]) && s.threads[t].pc.Idle?
    requires x < |s.next| == |s.owner| && s.owner[x] == Used && s.threads[t].count <= MOVENODESIZE
    ensures ThreadOk(BeginFree(s, t, x), t, BeginFree(s, t, x).threads[t])
  {
    var thread := s.threads[t];
    assert thread.list + thread.held == thread.list && [x] + thread.list + [] == [x] + thread.list;
    OwnsMore(s.owner, thread.list, Mine(t), x);
    assert s.owner[x := Mine(t)] == Given(s.owner, [x], Mine(t));
    LinkedMore(s.next, thread.list, x);
  }

  lemma FreeLocalInv(s: State, t: nat, x: Node)
    requires Inv(s) && t < |s.threads| && s.threads[t].pc.Idle?
    requires x < |s.next| && s.owner[x] == Used && s.threads[t].count <= MOVENODESIZE
    ensures Inv(BeginFree(s, t, x))
  {
    var thread, s' := s.threads[t], BeginFree(s, t, x);
    assert ThreadOk(s, t, thread);
    FreeLocalThread(s, t, x);
    OwnsStays(s.owner, s.stack, Global, x, Mine(t));
    SumGiven(InUse(), s.owner, x, Mine(t));
    assert s'.owner == Given(s.owner, [x], Mine(t));
    LinkedStays(s, s', t, s.stack, None);
    if thread.list != [] { assert thread.list[0] in thread.list + thread.held; }
    GoodStepInv(s, s', t);
  }

  lemma FreeGlobalInv(s: State, t: nat, x: Node)
    requires Inv(s) && t < |s.threads| && s.threads[t].pc.Idle?
    requires x < |s.next| && s.owner[x] == Used && s.threads[t].count > MOVENODESIZE
    ensures Inv(BeginFree(s, t, x))
  {
    var thread, s' := s.threads[t], BeginFree(s, t, x);
    assert ThreadOk(s, t, thread);
    assert thread.list + thread.held == thread.list;
    OwnsLast(s.owner, thread.list, Mine(t), x);
    OwnsStays(s.owner, s.stack, Global, x, Mine(t));
    SumGiven(InUse(), s.owner, x, Mine(t));
    assert s'.owner == Given(s.owner, [x], Mine(t));
    GoodStepInv(s, s', t);
  }

  lemma OwnsLast(owner: seq<Owner>, list: seq<Node>, who: Owner, x: Node)
    requires Owns(owner, list, who) && x < |owner| && owner[x] != who
    ensures Owns(Given(owner, [x], who), list + [x], who)
  {
    assert x !in list;
    var list' := list + [x];
    forall a: nat, b: nat | a < b < |list'| ensures list'[a] != list'[b] {
      if b == |list| { assert list'[a] in list; }
    }
  }

  // ---------------------------------------------------------------- the top word

  /** Fewer than 2^16 changes of the top word have happened since the walk began. */
  predicate Timely(s: State, t: nat) {
    t < |s.threads| && s.threads[t].pc.Cas? ==> s.updates < s.threads[t].pc.stamp + TAGS
  }

  /** The tag then tells whether the top word has changed at all. */
  lemma TagTells(s: State, t: nat)
    requires Inv(s) && t < |s.threads| && s.threads[t].pc.Cas? && Timely(s, t) && s.tag == s.threads[t].pc.tag
    ensures s.updates == s.threads[t].pc.stamp
  {
    assert ThreadOk(s, t, s.threads[t]);
    SameTag(s.updates, s.threads[t].pc.stamp);
  }

  lemma SameTag(a: nat, b: nat)
    requires b <= a < b + TAGS && a % TAGS == b % TAGS
    ensures a == b
  {
  }

  predicate Pops(s: State, t: nat, ok: bool)
    requires t < |s.threads|
  {
    var pc := s.threads[t].pc;
    pc.Cas? && ok && s.top == Some(pc.top) && s.tag == pc.tag
  }

  /** A list cut in two: the front passes to another owner. */
  lemma OwnsSplit(owner: seq<Owner>, list: seq<Node>, k: nat, who: Owner, to: Owner)
    requires Owns(owner, list, who) && k <= |list| && to != who
    requires forall x: nat :: x < |owner| ==> owner[x] != to
    ensures Owns(Given(owner, list[..k], to), list[k..], who) && Owns(Given(owner, list[..k], to), list[..k], to)
  {
    var owner' := Given(owner, list[..k], to);
    forall x: Node | x in list[k..] ensures x < |owner'| && owner'[x] == who {
      var a :| 0 <= a < |list[k..]| && list[k..][a] == x;
      assert list[k + a] == x && x in list;
      forall b: nat | b < k ensures list[..k][b] != x { assert list[b] != list[k + a]; }
    }
    forall x: nat | x < |owner'| && owner'[x] == who ensures x in list[k..] {
      assert x in list;
      assert list == list[..k] + list[k..];
    }
    forall x: Node | x in list[..k] ensures x < |owner'| && owner'[x] == to { assert x in list; }
  }

  /** A successful CAS takes exactly the first `actual` nodes of the stack as it is then. */
  lemma NothingOwned(s: State, t: nat)
    requires t < |s.threads| && ThreadOk(s, t, s.threads[t]) && s.threads[t].list == [] && s.threads[t].held == []
    ensures forall x: nat :: x < |s.owner| ==> s.owner[x] != Mine(t)
  {
    assert s.threads[t].list + s.threads[t].held == [];
  }

  lemma PopShared(s: State, t: nat, ok: bool)
    requires Inv(s) && t < |s.threads| && Pops(s, t, ok) && s.updates == s.threads[t].pc.stamp
    ensures SharedOk(PopCas(s, t, s.threads[t].pc, ok))
  {
    assert ThreadOk(s, t, s.threads[t]);
    NothingOwned(s, t);
    OwnsSplit(s.owner, s.stack, s.threads[t].pc.actual, Global, Mine(t));
    LinkedSplit(s.next, s.stack, s.threads[t].pc.actual);
  }

  lemma PopBatch(s: State, t: nat)
    requires Inv(s) && t < |s.threads| && s.threads[t].pc.Cas? && s.updates == s.threads[t].pc.stamp
    ensures var pc := s.threads[t].pc; BatchOk(s, s.stack[..pc.actual], pc.top, pc.tail, pc.actual)
  {
    var pc := s.threads[t].pc;
    assert ThreadOk(s, t, s.threads[t]);
    forall a: nat | a < pc.actual
      ensures s.stack[a] < |s.next| && (a + 1 < pc.actual ==> s.next[s.stack[a]] == Some(s.stack[a + 1]))
    {
      assert LinkAt(s.next, s.stack, None, a);
    }
  }

  lemma PopOwns(s: State, t: nat)
    requires Inv(s) && t < |s.threads| && s.threads[t].pc.Cas? && s.updates == s.threads[t].pc.stamp
    ensures var front := s.stack[..s.threads[t].pc.actual]; Owns(Given(s.owner, front, Mine(t)), [] + front, Mine(t))
  {
    assert ThreadOk(s, t, s.threads[t]);
    NothingOwned(s, t);
    OwnsSplit(s.owner, s.stack, s.threads[t].pc.actual, Global, Mine(t));
    assert [] + s.stack[..s.threads[t].pc.actual] == s.stack[..s.threads[t].pc.actual];
  }

  lemma PopThread(s: State, t: nat, ok: bool)
    requires Inv(s) && t < |s.threads| && Pops(s, t, ok) && s.updates == s.threads[t].pc.stamp
    ensures ThreadOk(PopCas(s, t, s.threads[t].pc, ok), t, PopCas(s, t, s.threads[t].pc, ok).threads[t])
  {
    assert ThreadOk(s, t, s.threads[t]);
    PopOwns(s, t);
    PopBatch(s, t);
  }

  lemma PopInv(s: State, t: nat, ok: bool)
    requires Inv(s) && t < |s.threads| && Pops(s, t, ok) && Timely(s, t)
    ensures Inv(PopCas(s, t, s.threads[t].pc, ok))
  {
    var s' := PopCas(s, t, s.threads[t].pc, ok);
    assert ThreadOk(s, t, s.threads[t]);
    TagTells(s, t);
    PopShared(s, t, ok);
    PopThread(s, t, ok);
    SumSame(InUse(), s.owner, s'.owner);
    GoodStepInv(s, s', t);
  }

  predicate Pushes(s: State, t: nat, ok: bool)
    requires t < |s.threads|
  {
    var pc := s.threads[t].pc;
    pc.PushCas? && ok && s.top == pc.oldTop && s.tag == pc.tag
  }

  lemma OwnsAllButLast(owner: seq<Owner>, list: seq<Node>, x: Node, who: Owner, to: Owner)
    requires Owns(owner, list + [x], who) && to != who
    ensures Owns(Given(owner, [x], to), list, who)
  {
    var all, owner' := list + [x], Given(owner, [x], to);
    forall y: Node | y in list ensures y < |owner'| && owner'[y] == who {
      var a :| 0 <= a < |list| && list[a] == y;
      assert all[a] != all[|list|] && y in all;
    }
    forall y: nat | y < |owner'| && owner'[y] == who ensures y in list {
      assert y in all;
    }
    forall a: nat, b: nat | a < b < |list| ensures list[a] != list[b] { assert all[a] != all[b]; }
  }

  lemma PushThread(s: State, t: nat, ok: bool)
    requires Inv(s) && t < |s.threads| && Pushes(s, t, ok)
    ensures ThreadOk(PushCasStep(s, t, s.threads[t].pc, ok), t, PushCasStep(s, t, s.threads[t].pc, ok).threads[t])
  {
    assert ThreadOk(s, t, s.threads[t]);
    OwnsAllButLast(s.owner, s.threads[t].list, s.threads[t].pc.x, Mine(t), Global);
    assert s.threads[t].list + [] == s.threads[t].list;
  }

  lemma PushShared(s: State, t: nat, ok: bool)
    requires Inv(s) && t < |s.threads| && Pushes(s, t, ok)
    ensures SharedOk(PushCasStep(s, t, s.threads[t].pc, ok))
  {
    var x := s.threads[t].pc.x;
    assert ThreadOk(s, t, s.threads[t]);
    assert x in s.threads[t].list + s.threads[t].held;
    OwnsMore(s.owner, s.stack, Global, x);
    LinkedMore(s.next, s.stack, x);
    assert s.next[x := First(s.stack)] == s.next;
  }

  lemma PushInv(s: State, t: nat, ok: bool)
    requires Inv(s) && t < |s.threads| && Pushes(s, t, ok)
    ensures Inv(PushCasStep(s, t, s.threads[t].pc, ok))
  {
    var s', x := PushCasStep(s, t, s.threads[t].pc, ok), s.threads[t].pc.x;
    assert ThreadOk(s, t, s.threads[t]);
    assert x in s.threads[t].list + s.threads[t].held;
    PushThread(s, t, ok);
    PushShared(s, t, ok);
    SumGiven(InUse(), s.owner, x, Global);
    GoodStepInv(s, s', t);
  }

  // ---------------------------------------------------------------- taking a batch over, and new nodes

  lemma TakeOverThread(s: State, t: nat)
    requires t < |s.threads| && ThreadOk(s, t, s.threads[t]) && s.threads[t].pc.Take?
    ensures s.threads[t].held != []
    ensures ThreadOk(s, t, Thread(Some(s.threads[t].pc.head), s.threads[t].pc.actual, Idle, s.threads[t].held, []))
  {
    var thread := s.threads[t];
    assert thread.list + thread.held == thread.held == thread.held + [];
  }

  lemma TakeOver(s: State, t: nat)
    requires Inv(s) && t < |s.threads| && s.threads[t].pc.Take?
    ensures s.threads[t].held != []
    ensures Inv(With(s, t, Thread(Some(s.threads[t].pc.head), s.threads[t].pc.actual, Idle, s.threads[t].held, [])))
  {
    var thread' := Thread(Some(s.threads[t].pc.head), s.threads[t].pc.actual, Idle, s.threads[t].held, []);
    assert ThreadOk(s, t, s.threads[t]);
    TakeOverThread(s, t);
    PcSame(s, With(s, t, thread'), t, thread');
    GoodStepInv(s, With(s, t, thread'), t);
  }

  lemma TakeInv(s: State, t: nat)
    requires Inv(s) && t < |s.threads| && s.threads[t].pc.Take?
    ensures Inv(Work(s, t, true))
  {
    TakeOver(s, t);
    HandInv(With(s, t, Thread(Some(s.threads[t].pc.head), s.threads[t].pc.actual, Idle, s.threads[t].held, [])), t);
  }

  function NewList(first: nat, n: nat): seq<Node> { seq(n, k requires 0 <= k < n => first + n - 1 - k) }

  function NewNext(first: nat, n: nat, last: Option<Node>): seq<Option<Node>> {
    seq(n, k requires 0 <= k < n => if k == 0 then last else Some(first + k - 1))
  }

  lemma NewLinked(next: seq<Option<Node>>, list: seq<Node>, n: nat)
    requires Linked(next, list, None)
    ensures Linked(next + NewNext(|next|, n, First(list)), NewList(|next|, n) + list, None)
  {
    var next', list' := next + NewNext(|next|, n, First(list)), NewList(|next|, n) + list;
    forall a: nat | a < |list'| ensures LinkAt(next', list', None, a) {
      if a >= n { assert LinkAt(next, list, None, a - n); }
    }
  }

  lemma NewOwns(owner: seq<Owner>, list: seq<Node>, n: nat, who: Owner)
    requires Owns(owner, list, who)
    ensures Owns(owner + seq(n, _ => who), NewList(|owner|, n) + list, who)
  {
    var owner', list' := owner + seq(n, _ => who), NewList(|owner|, n) + list;
    forall a: nat, b: nat | a < b < |list'| ensures list'[a] != list'[b] {
      if a < n && n <= b { assert list'[b] == list[b - n] && list[b - n] in list; }
      if n <= a { assert list'[a] == list[a - n] && list'[b] == list[b - n]; }
    }
    forall x: nat | x < |owner'| && owner'[x] == who ensures x in list' {
      if x >= |owner| {
        assert list'[|owner| + n - 1 - x] == x;
      } else {
        assert owner[x] == who && x in list;
      }
    }
  }

  lemma OldOwns(owner: seq<Owner>, list: seq<Node>, n: nat, who: Owner, other: Owner)
    requires Owns(owner, list, who) && other != who
    ensures Owns(owner + seq(n, _ => other), list, who)
  {
  }

  lemma NewNodesThread(s: State, t: nat, n: nat)
    requires t < |s.threads| && |s.owner| == |s.next| && ThreadOk(s, t, s.threads[t]) && s.threads[t].pc.Idle?
    ensures ThreadOk(NewNodes(s, t, n), t, NewNodes(s, t, n).threads[t])
  {
    var thread, s' := s.threads[t], NewNodes(s, t, n);
    assert thread.list + thread.held == thread.list;
    NewLinked(s.next, thread.list, n);
    NewOwns(s.owner, thread.list, n, Mine(t));
    var list' := NewList(|s.next|, n) + thread.list;
    assert s'.threads[t].list == list';
    assert s'.next == s.next + NewNext(|s.next|, n, First(thread.list));
    assert list' + [] == list';
  }

  lemma NewNodesShared(s: State, t: nat, n: nat)
    requires t < |s.threads| && SharedOk(s) && Known(s, s.threads[t].top)
    ensures SharedOk(NewNodes(s, t, n))
  {
    var s' := NewNodes(s, t, n);
    OldOwns(s.owner, s.stack, n, Global, Mine(t));
    LinkedStays(s, s', t, s.stack, None);
  }

  lemma NewNodesInv(s: State, t: nat, n: nat)
    requires Inv(s) && t < |s.threads| && s.threads[t].pc.Idle?
    ensures Inv(NewNodes(s, t, n))
  {
    var s' := NewNodes(s, t, n);
    assert ThreadOk(s, t, s.threads[t]);
    if s.threads[t].list != [] { assert LinkAt(s.next, s.threads[t].list, None, 0); }
    NewNodesThread(s, t, n);
    NewNodesShared(s, t, n);
    SumAppendZero(InUse(), s.owner, seq(n, _ => Mine(t)));
    GoodStepInv(s, s', t);
  }

  lemma ReserveInv(s: State, t: nat)
    requires Inv(s) && t < |s.threads| && s.threads[t].pc.Reserve?
    ensures Inv(Work(s, t, true))
  {
    assert ThreadOk(s, t, s.threads[t]);
    GotoGood(s, t, Idle);
    NewNodesInv(Goto(s, t, Idle), t, MOVENODESIZE);
    HandInv(NewNodes(Goto(s, t, Idle), t, MOVENODESIZE), t);
  }

  // ---------------------------------------------------------------- runs

  lemma WorkInv(s: State, t: nat, ok: bool)
    requires Inv(s) && t < |s.threads| && Timely(s, t)
    ensures Inv(Work(s, t, ok))
  {
    assert ThreadOk(s, t, s.threads[t]);
    match s.threads[t].pc
    case Idle =>
    case Load(want) => StartWalkInv(s, t, want);
    case Walk(_, _, _, _, _, _) => WalkInv(s, t);
    case Cas(want, _, _, _, _, _, _) => if Pops(s, t, ok) { PopInv(s, t, ok); } else { StartWalkInv(s, t, want); }
    case Popped(_, _, _) => PoppedInv(s, t);
    case Cut(_, _, _) => CutInv(s, t);
    case Take(_, _) => TakeInv(s, t);
    case Reserve => ReserveInv(s, t);
    case PushLoad(_) => PushLoadInv(s, t);
    case PushLink(_, _, _) => PushLinkInv(s, t);
    case PushCas(_, _, _) => if Pushes(s, t, ok) { PushInv(s, t, ok); } else { PushLoadInv(s, t); }
    case PushCount => PushCountInv(s, t);
    case Release => PushCountInv(s, t);
  }

  lemma StepInv(s: State, e: Event)
    requires Inv(s) && Timely(s, e.t)
    ensures Inv(Step(s, e))
  {
    if e.t < |s.threads| {
      var thread := s.threads[e.t];
      assert ThreadOk(s, e.t, thread);
      if !thread.pc.Idle? {
        WorkInv(s, e.t, e.ok);
      } else if e.op.Alloc? {
        if thread.top.Some? { HandInv(s, e.t); } else { BeginAllocInv(s, e.t); }
      } else if e.op.x < |s.next| && s.owner[e.op.x] == Used {
        if thread.count > MOVENODESIZE { FreeGlobalInv(s, e.t, e.op.x); } else { FreeLocalInv(s, e.t, e.op.x); }
      }
    }
  }

  /** In each attempt of the run, fewer than 2^16 changes of the top word come between load and CAS. */
  ghost predicate TimelyRun(s: State, events: seq<Event>) {
    forall k: nat :: k < |events| ==> Timely(Run(s, events[..k]), events[k].t)
  }

  lemma EmptyInv(s: State)
    requires s == State([], None, 0, 0, 0, 0, seq(|s.threads|, _ => Thread(None, 0, Idle, [], [])), 0, [], [])
    ensures Inv(s)
  {
    SumZero(Uncounted(), s.threads);
    SumZero(Freeing(), s.threads);
    forall t: nat | t < |s.threads| ensures ThreadOk(s, t, s.threads[t]) {
      assert s.threads[t] == Thread(None, 0, Idle, [], []);
    }
  }

  lemma InitInv(threads: nat, initCount: nat)
    requires threads > 0
    ensures Inv(Init(threads, initCount))
  {
    var s := State([], None, 0, 0, 0, 0, seq(threads, _ => Thread(None, 0, Idle, [], [])), 0, [], []);
    EmptyInv(s);
    NewNodesInv(s, 0, initCount);
  }

  lemma {:induction false} RunInv(threads: nat, initCount: nat, events: seq<Event>)
    requires threads > 0 && TimelyRun(Init(threads, initCount), events)
    ensures Inv(Run(Init(threads, initCount), events))
    decreases |events|
  {
    if events == [] {
      InitInv(threads, initCount);
    } else {
      var s, n := Init(threads, initCount), |events| - 1;
      forall k: nat | k < n ensures Timely(Run(s, events[..n][..k]), events[..n][k].t) {
        assert events[..n][..k] == events[..k];
        assert Timely(Run(s, events[..k]), events[k].t);
      }
      RunInv(threads, initCount, events[..n]);
      assert Timely(Run(s, events[..n]), events[n].t);
      StepInv(Run(s, events[..n]), events[n]);
    }
  }
}
