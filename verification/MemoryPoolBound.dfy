/** How late a batch pop may be: the exact number of changes of the top word that its tag can tell. */
module MemoryPoolBound {

  import opened Common
  import opened MemoryPool
  import opened MemoryPoolInvariant
  import opened MemoryPoolTheorems

  /** Thread `t` is not at a pop CAS, or at most `n` changes of the top word came after the walk began. */
  predicate Lags(s: State, t: nat, n: nat) {
    t < |s.threads| && s.threads[t].pc.Cas? ==> s.updates <= s.threads[t].pc.stamp + n
  }

  ghost predicate Within(s: State, events: seq<Event>, n: nat) {
    forall k: nat :: k < |events| ==> Lags(Run(s, events[..k]), events[k].t, n)
  }

  /** The nodes that a pop has walked are the front of the stack as it stands now. */
  predicate TakesFront(s: State, pc: Pc) {
    pc.Cas? ==>
      && 1 <= pc.actual <= |s.stack| && s.stack[0] == pc.top && s.stack[pc.actual - 1] == pc.tail
      && pc.remaining == First(s.stack[pc.actual..])
      && Linked(s.next, s.stack[..pc.actual], pc.remaining)
  }

  predicate ExactAt(s: State, e: Event) {
    e.t < |s.threads| && Pops(s, e.t, e.ok) ==> TakesFront(s, s.threads[e.t].pc)
  }

  /** Every pop CAS of the run that succeeds takes exactly the front of the stack. */
  ghost predicate PopsExactly(s: State, events: seq<Event>) {
    forall k: nat :: k < |events| ==> ExactAt(Run(s, events[..k]), events[k])
  }

  // ---------------------------------------------------------------- fewer than 2^16 changes are told apart

  lemma WithinPrefix(s: State, events: seq<Event>, k: nat, n: nat)
    requires Within(s, events, n) && k <= |events|
    ensures Within(s, events[..k], n)
  {
    forall j: nat | j < k ensures Lags(Run(s, events[..k][..j]), events[..k][j].t, n) {
      assert events[..k][..j] == events[..j];
      assert Lags(Run(s, events[..j]), events[j].t, n);
    }
  }

  lemma WithinIsTimely(s: State, events: seq<Event>, n: nat)
    requires Within(s, events, n) && n < TAGS
    ensures TimelyRun(s, events)
  {
    forall k: nat | k < |events| ensures Timely(Run(s, events[..k]), events[k].t) {
      assert Lags(Run(s, events[..k]), events[k].t, n);
    }
  }

  lemma FewAreExact(threads: nat, initCount: nat, events: seq<Event>, n: nat)
    requires threads > 0 && n < TAGS && Within(Init(threads, initCount), events, n)
    ensures PopsExactly(Init(threads, initCount), events)
  {
    var init := Init(threads, initCount);
    forall k: nat | k < |events| ensures ExactAt(Run(init, events[..k]), events[k]) {
      var s, e := Run(init, events[..k]), events[k];
      WithinPrefix(init, events, k, n);
      WithinIsTimely(init, events[..k], n);
      assert Lags(s, e.t, n);
      if e.t < |s.threads| && Pops(s, e.t, e.ok) { TimelyPop(threads, initCount, events[..k], e.t); }
    }
  }

  lemma TimelyPop(threads: nat, initCount: nat, events: seq<Event>, t: nat)
    requires threads > 0 && TimelyRun(Init(threads, initCount), events)
    requires var s := Run(Init(threads, initCount), events); t < |s.threads| && Pops(s, t, true) && Timely(s, t)
    ensures var s := Run(Init(threads, initCount), events); TakesFront(s, s.threads[t].pc)
  {
    RunInv(threads, initCount, events);
    FreshPop(Run(Init(threads, initCount), events), t);
  }

  lemma FreshPop(s: State, t: nat)
    requires Inv(s) && t < |s.threads| && Pops(s, t, true) && Timely(s, t)
    ensures TakesFront(s, s.threads[t].pc)
  {
    TagTells(s, t);
    assert ThreadOk(s, t, s.threads[t]);
    LinkedSplit(s.next, s.stack, s.threads[t].pc.actual);
  }

  // ---------------------------------------------------------------- single accesses

  /** A set of states that is closed under steps whose pop CASes are at most 2^16 changes late. */
  ghost predicate Closed(r: iset<State>) {
    forall s: State, e: Event :: s in r && Lags(s, e.t, TAGS) ==> Step(s, e) in r
  }

  lemma Goes(r: iset<State>, s: State, e: Event, s': State)
    requires Closed(r) && s in r && Lags(s, e.t, TAGS) && s' == Step(s, e)
    ensures s' in r
  {
  }

  /** Thread `t`, in the middle of a call, makes one access. */
  lemma Works(r: iset<State>, s: State, t: nat, s': State)
    requires Closed(r) && s in r && t < |s.threads| && !s.threads[t].pc.Idle? && Lags(s, t, TAGS)
    requires s' == Work(s, t, true)
    ensures s' in r
  {
    Goes(r, s, Event(t, Alloc, true), s');
  }

  lemma Twice(s: State, t: nat, a: Thread, b: Thread)
    requires t < |s.threads|
    ensures With(With(s, t, a), t, b) == With(s, t, b)
  {
  }

  lemma GivenOne(owner: seq<Owner>, x: Node, o: Owner)
    requires x < |owner|
    ensures Given(owner, [x], o) == owner[x := o]
  {
  }

  // ---------------------------------------------------------------- one push

  /** Thread `t` has so long a list that what it frees goes to the stack. */
  predicate Pusher(s: State, t: nat) {
    && t < |s.threads| && s.threads[t].pc.Idle? && s.threads[t].held == [] && s.threads[t].count > MOVENODESIZE
    && |s.owner| == |s.next|
  }

  lemma BeginsPush(s: State, t: nat, x: Node)
    requires Pusher(s, t) && x < |s.next| && s.owner[x] == Used
    ensures Step(s, Event(t, Free(x), true)) ==
            With(s.(owner := s.owner[x := Mine(t)]), t, s.threads[t].(pc := PushLoad(x), held := [x]))
  {
  }

  lemma LoadsTop(s: State, t: nat, a: Thread, x: Node)
    requires t < |s.threads| && a.pc == PushLoad(x)
    ensures Work(With(s, t, a), t, true) == With(s, t, a.(pc := PushLink(x, s.top, s.tag)))
  {
    Twice(s, t, a, a.(pc := PushLink(x, s.top, s.tag)));
  }

  lemma LinksNode(s: State, t: nat, a: Thread, x: Node, top: Option<Node>, tag: nat)
    requires t < |s.threads| && a.pc == PushLink(x, top, tag) && x < |s.next|
    ensures Work(With(s, t, a), t, true) == With(s.(next := s.next[x := top]), t, a.(pc := PushCas(x, top, tag)))
  {
    Twice(s, t, a, a.(pc := PushCas(x, top, tag)));
  }

  /** The shared state after a push. */
  function Topped(s: State, x: Node): State
    requires x < |s.owner|
  {
    s.(top := Some(x), tag := (s.tag + 1) % TAGS, updates := s.updates + 1, stack := [x] + s.stack,
       owner := s.owner[x := Global])
  }

  lemma SwingsTop(s: State, t: nat, a: Thread, x: Node)
    requires t < |s.threads| && a.pc == PushCas(x, s.top, s.tag) && x < |s.owner|
    ensures Work(With(s, t, a), t, true) == With(Topped(s, x), t, a.(pc := PushCount, held := []))
  {
    Twice(s, t, a, a.(pc := PushCount, held := []));
    GivenOne(s.owner, x, Global);
  }

  /** The pusher has swung the top to `x`, but has not counted it. */
  function OnTop(s: State, t: nat, x: Node): State
    requires t < |s.threads| && x < |s.next| == |s.owner|
  {
    With(Topped(s.(next := s.next[x := s.top]), x), t, s.threads[t].(pc := PushCount))
  }

  lemma PushesTop(r: iset<State>, s: State, t: nat, x: Node)
    requires Closed(r) && s in r && Pusher(s, t) && x < |s.next| && s.owner[x] == Used
    ensures OnTop(s, t, x) in r
  {
    var a := s.threads[t].(pc := PushLoad(x), held := [x]);
    var s1 := s.(owner := s.owner[x := Mine(t)]);
    BeginsPush(s, t, x);
    Goes(r, s, Event(t, Free(x), true), With(s1, t, a));
    LoadsTop(s1, t, a, x);
    var b := a.(pc := PushLink(x, s.top, s.tag));
    Works(r, With(s1, t, a), t, With(s1, t, b));
    LinksNode(s1, t, b, x, s.top, s.tag);
    var s2, c := s1.(next := s.next[x := s.top]), a.(pc := PushCas(x, s.top, s.tag));
    Works(r, With(s1, t, b), t, With(s2, t, c));
    SwingsTop(s2, t, c, x);
    Works(r, With(s2, t, c), t, With(Topped(s2, x), t, c.(pc := PushCount, held := [])));
    assert s.owner[x := Mine(t)][x := Global] == s.owner[x := Global];
  }

  lemma CountsPush(r: iset<State>, s: State, t: nat, a: Thread)
    requires Closed(r) && t < |s.threads| && a.pc == PushCount && With(s, t, a) in r
    ensures With(s.(available := s.available + 1, use := s.use - 1), t, a.(pc := Idle)) in r
  {
    var s1, b := s.(available := s.available + 1), a.(pc := Release);
    Twice(s, t, a, b);
    Works(r, With(s, t, a), t, With(s1, t, b));
    Twice(s1, t, b, a.(pc := Idle));
    Works(r, With(s1, t, b), t, With(s1.(use := s.use - 1), t, a.(pc := Idle)));
  }

  function Pushed(s: State, x: Node): State
    requires x < |s.next| == |s.owner|
  {
    Topped(s.(next := s.next[x := s.top], available := s.available + 1, use := s.use - 1), x)
  }

  lemma Pushes(r: iset<State>, s: State, t: nat, x: Node)
    requires Closed(r) && s in r && Pusher(s, t) && x < |s.next| && s.owner[x] == Used
    ensures Pushed(s, x) in r
  {
    PushesTop(r, s, t, x);
    CountsPush(r, Topped(s.(next := s.next[x := s.top]), x), t, s.threads[t].(pc := PushCount));
    assert s.threads[t].(pc := PushCount).(pc := Idle) == s.threads[t];
    assert s.threads[t := s.threads[t]] == s.threads;
  }

  // ---------------------------------------------------------------- one pop

  function Bare(pc: Pc, held: seq<Node>): Thread { Thread(None, 0, pc, [], held) }

  /** Thread `t` has no nodes and is between calls. */
  predicate Empty(s: State, t: nat) { t < |s.threads| && s.threads[t] == Bare(Idle, []) }

  lemma Walks(r: iset<State>, s: State, t: nat, pc: Pc)
    requires Closed(r) && t < |s.threads| && pc.Walk? && With(s, t, Bare(pc, [])) in r
    ensures With(s, t, WalkStep(With(s, t, Bare(pc, [])), t, pc).threads[t]) in r
  {
    var a := Bare(pc, []);
    var b := WalkStep(With(s, t, a), t, pc).threads[t];
    Twice(s, t, a, b);
    Works(r, With(s, t, a), t, With(s, t, b));
  }

  /** The loads before the walk. */
  lemma Starts(r: iset<State>, s: State, t: nat, x: Node)
    requires Closed(r) && s in r && Empty(s, t) && s.top == Some(x) && 1 <= s.available <= MOVENODESIZE
    ensures With(s, t, Bare(Walk(s.available, x, s.tag, x, 1, s.updates), [])) in r
  {
    var a, b := Bare(Load(s.available), []), Bare(Walk(s.available, x, s.tag, x, 1, s.updates), []);
    Goes(r, s, Event(t, Alloc, true), With(s, t, a));
    Twice(s, t, a, b);
    Works(r, With(s, t, a), t, With(s, t, b));
  }

  /** Thread `t` has walked over `list`, from the top of the stack on, and is about to try its CAS. */
  function Walked(s: State, t: nat, list: seq<Node>): Thread
    requires list != []
  {
    var tail := list[|list| - 1];
    Bare(Cas(|list|, list[0], s.tag, tail, |list|, Next(s, tail), s.updates), [])
  }

  lemma WalksOne(r: iset<State>, s: State, t: nat, x: Node)
    requires Closed(r) && s in r && Empty(s, t) && s.top == Some(x) && s.available == 1
    ensures With(s, t, Walked(s, t, [x])) in r
  {
    Starts(r, s, t, x);
    Walks(r, s, t, Walk(1, x, s.tag, x, 1, s.updates));
  }

  lemma WalksTwo(r: iset<State>, s: State, t: nat, x: Node, y: Node)
    requires Closed(r) && s in r && Empty(s, t) && s.top == Some(x) && s.available == 2 && Next(s, x) == Some(y)
    ensures With(s, t, Walked(s, t, [x, y])) in r
  {
    Starts(r, s, t, x);
    Walks(r, s, t, Walk(2, x, s.tag, x, 1, s.updates));
    Walks(r, s, t, Walk(2, x, s.tag, y, 2, s.updates));
  }

  /** The shared state after thread `t` has taken the whole stack over. */
  function Cleared(s: State, t: nat): State {
    s.(top := None, tag := (s.tag + 1) % TAGS, available := 0, updates := s.updates + 1, stack := [],
       owner := Given(s.owner, s.stack, Mine(t)))
  }

  /** A CAS that takes the whole stack over, up to the point where the batch becomes the local list. */
  lemma Takes(r: iset<State>, s: State, t: nat)
    requires Closed(r) && t < |s.threads| && s.stack != [] && s.top == Some(s.stack[0]) && s.available == |s.stack|
    requires With(s, t, Walked(s, t, s.stack)) in r
    requires var tail := s.stack[|s.stack| - 1]; tail < |s.next| && s.next[tail] == None
    ensures With(Cleared(s, t), t, Bare(Take(s.stack[0], |s.stack|), s.stack)) in r
  {
    var list, n := s.stack, |s.stack|;
    var tail, a := list[n - 1], Walked(s, t, list);
    var s1, b := Cleared(s, t).(available := s.available), Bare(Popped(list[0], tail, n), list);
    TakesOver(s, t);
    Works(r, With(s, t, a), t, With(s1, t, b));
    var c, d := Bare(Cut(list[0], tail, n), list), Bare(Take(list[0], n), list);
    Twice(s1, t, b, c);
    Works(r, With(s1, t, b), t, With(Cleared(s, t), t, c));
    Twice(Cleared(s, t), t, c, d);
    assert s.next[tail := None] == s.next;
    Works(r, With(Cleared(s, t), t, c), t, With(Cleared(s, t), t, d));
  }

  lemma TakesOver(s: State, t: nat)
    requires t < |s.threads| && s.stack != [] && s.top == Some(s.stack[0])
    requires Next(s, s.stack[|s.stack| - 1]) == None
    ensures var n := |s.stack|;
            Work(With(s, t, Walked(s, t, s.stack)), t, true) ==
            With(Cleared(s, t).(available := s.available), t, Bare(Popped(s.stack[0], s.stack[n - 1], n), s.stack))
  {
    var n := |s.stack|;
    Twice(s, t, Walked(s, t, s.stack), Bare(Popped(s.stack[0], s.stack[n - 1], n), s.stack));
    assert s.stack[..n] == s.stack && s.stack[n..] == [];
  }

  /** One node popped and handed out. */
  function HandedOut(s: State, x: Node): State
    requires x < |s.owner|
  {
    s.(top := None, tag := (s.tag + 1) % TAGS, available := 0, use := s.use + 1, updates := s.updates + 1, stack := [],
       owner := s.owner[x := Used])
  }

  lemma PopsOne(r: iset<State>, s: State, t: nat, x: Node)
    requires Closed(r) && s in r && Empty(s, t) && s.available == 1 && s.top == Some(x) && s.stack == [x]
    requires x < |s.next| == |s.owner| && s.next[x] == None
    ensures HandedOut(s, x) in r
  {
    WalksOne(r, s, t, x);
    Takes(r, s, t);
    HandsLast(Cleared(s, t), t, x);
    GivenOne(s.owner, x, Mine(t));
    assert s.owner[x := Mine(t)][x := Used] == s.owner[x := Used];
    assert s.threads[t := Bare(Idle, [])] == s.threads;
    Works(r, With(Cleared(s, t), t, Bare(Take(x, 1), [x])), t, HandedOut(s, x));
  }

  lemma HandsLast(s: State, t: nat, x: Node)
    requires t < |s.threads| && x < |s.owner| && Next(s, x) == None
    ensures Work(With(s, t, Bare(Take(x, 1), [x])), t, true) ==
            With(s.(use := s.use + 1, owner := s.owner[x := Used]), t, Bare(Idle, []))
  {
    var a, b := Bare(Take(x, 1), [x]), Thread(Some(x), 1, Idle, [x], []);
    Twice(s, t, a, b);
    Twice(s, t, b, Bare(Idle, []));
    GivenOne(s.owner, x, Used);
    assert [x][1..] == [];
  }

  /** Two nodes popped at once and handed out one after the other. */
  lemma PopsTwo(r: iset<State>, s: State, t: nat, x: Node, y: Node)
    requires Closed(r) && s in r && Empty(s, t) && s.available == 2 && s.top == Some(x) && s.stack == [x, y] && x != y
    requires x < |s.next| == |s.owner| && y < |s.next| && s.next[x] == Some(y) && s.next[y] == None
    ensures HandedOut(s, x).(use := s.use + 2, owner := s.owner[x := Used][y := Used]) in r
  {
    WalksTwo(r, s, t, x, y);
    Takes(r, s, t);
    var s1 := Cleared(s, t);
    HandsFirst(s1, t, x, y);
    var s2, a := s1.(use := s.use + 1, owner := s1.owner[x := Used]), Thread(Some(y), 1, Idle, [y], []);
    Works(r, With(s1, t, Bare(Take(x, 2), [x, y])), t, With(s2, t, a));
    HandsNext(s2, t, y);
    var s3 := s2.(use := s.use + 2, owner := s2.owner[y := Used]);
    Goes(r, With(s2, t, a), Event(t, Alloc, true), With(s3, t, Bare(Idle, [])));
    assert s1.owner[x := Used][y := Used] == s.owner[x := Used][y := Used];
    assert s.threads[t := Bare(Idle, [])] == s.threads;
  }

  lemma HandsFirst(s: State, t: nat, x: Node, y: Node)
    requires t < |s.threads| && x < |s.owner| && Next(s, x) == Some(y)
    ensures Work(With(s, t, Bare(Take(x, 2), [x, y])), t, true) ==
            With(s.(use := s.use + 1, owner := s.owner[x := Used]), t, Thread(Some(y), 1, Idle, [y], []))
  {
    var a, b := Bare(Take(x, 2), [x, y]), Thread(Some(x), 2, Idle, [x, y], []);
    Twice(s, t, a, b);
    Twice(s, t, b, Thread(Some(y), 1, Idle, [y], []));
    GivenOne(s.owner, x, Used);
    assert [x, y][1..] == [y];
  }

  lemma HandsNext(s: State, t: nat, y: Node)
    requires t < |s.threads| && y < |s.owner| && Next(s, y) == None
    ensures Step(With(s, t, Thread(Some(y), 1, Idle, [y], [])), Event(t, Alloc, true)) ==
            With(s.(use := s.use + 1, owner := s.owner[y := Used]), t, Bare(Idle, []))
  {
    Twice(s, t, Thread(Some(y), 1, Idle, [y], []), Bare(Idle, []));
    GivenOne(s.owner, y, Used);
    assert [y][1..] == [];
  }

  // ---------------------------------------------------------------- round and round

  /** Only node `x` is on the stack; thread 0 frees to the stack, and thread 2 has nothing. */
  predicate OneOnStack(s: State, x: Node) {
    && Pusher(s, 0) && Empty(s, 2) && s.available == 1 && s.tag < TAGS && x < |s.next|
    && s.top == Some(x) && s.stack == [x] && s.next[x] == None && s.owner[x] == Global
  }

  /** The same state after `k` more changes of the top word. */
  function Later(s: State, k: nat): State { s.(updates := s.updates + k, tag := (s.tag + k) % TAGS) }

  /** Thread 2 pops the node and its caller frees it through thread 0: two changes, and all else as before. */
  lemma Cycle(r: iset<State>, s: State, x: Node)
    requires Closed(r) && s in r && OneOnStack(s, x)
    ensures Later(s, 2) in r
  {
    PopsOne(r, s, 2, x);
    Pushes(r, HandedOut(s, x), 0, x);
    assert s.owner[x := Used][x := Global] == s.owner && s.next[x := None] == s.next;
    assert [x] + [] == [x];
    assert Pushed(HandedOut(s, x), x) == Later(s, 2);
  }

  lemma {:induction false} Cycles(r: iset<State>, s: State, x: Node, k: nat)
    requires Closed(r) && s in r && OneOnStack(s, x)
    ensures Later(s, 2 * k) in r
    decreases k
  {
    if k == 0 {
      assert Later(s, 0) == s;
    } else {
      Cycle(r, s, x);
      Cycles(r, Later(s, 2), x, k - 1);
      assert Later(Later(s, 2), 2 * (k - 1)) == Later(s, 2 * k);
    }
  }

  // ---------------------------------------------------------------- the run

  /** Two nodes are with callers, thread 0 has a long list, and the stack is empty. */
  predicate TwoInUse(s: State, x: Node, y: Node) {
    && Pusher(s, 0) && Empty(s, 1) && Empty(s, 2) && s.available == 0 && s.tag == s.updates == 0
    && x != y && x < |s.next| && y < |s.next| && s.owner[x] == s.owner[y] == Used && s.top == None && s.stack == []
  }

  lemma NewPool()
    ensures var s := Init(3, 203);
            && Empty(s, 1) && Empty(s, 2) && |s.threads| == 3 && |s.next| == |s.owner| == 203
            && s.next[202] == Some(201) && s.next[201] == Some(200)
            && s.available == s.tag == s.updates == 0 && s.top == None && s.stack == []
            && s.threads[0] == Thread(Some(202), 203, Idle, NewList(0, 203), [])
  {
    assert NewList(0, 203) + [] == NewList(0, 203);
  }

  lemma Hands(s: State, t: nat, x: Node)
    requires t < |s.threads| && s.threads[t].top == Some(x) && s.threads[t].list != [] && s.threads[t].list[0] == x
    requires x < |s.owner| == |s.next| && s.threads[t].pc.Idle?
    ensures Step(s, Event(t, Alloc, true)) ==
            With(s, t, s.threads[t].(top := s.next[x], count := s.threads[t].count - 1, list := s.threads[t].list[1..]))
            .(use := s.use + 1, owner := s.owner[x := Used])
  {
    GivenOne(s.owner, x, Used);
  }

  lemma Begins(r: iset<State>) returns (s: State)
    requires Closed(r) && Init(3, 203) in r
    ensures s in r && TwoInUse(s, 202, 201)
  {
    NewPool();
    var s0, alloc := Init(3, 203), Event(0, Alloc, true);
    Hands(s0, 0, 202);
    var s1 := Step(s0, alloc);
    Goes(r, s0, alloc, s1);
    Hands(s1, 0, 201);
    s := Step(s1, alloc);
    Goes(r, s1, alloc, s);
  }

  /** Thread 1 has walked from `x` to `y` and stands before its CAS, with both of them on the stack. */
  predicate Stalled(s: State, x: Node, y: Node, u: nat) {
    && Pusher(s, 0) && 1 < |s.threads| && Empty(s, 2) && s.tag == u % TAGS && s.updates == u
    && x != y && x < |s.next| && y < |s.next|
    && s.threads[1] == Bare(Cas(1, x, 2, x, 1, Some(y), 2), [])
  }

  /** Thread 0 pushes `y` and `x`; before it counts the second, thread 1 begins to pop. */
  lemma Stalls(r: iset<State>, s: State, x: Node, y: Node) returns (s': State)
    requires Closed(r) && s in r && TwoInUse(s, x, y)
    ensures s' in r && Stalled(s', x, y, 2) && s'.available == 2
    ensures s'.top == Some(x) && s'.stack == [x, y] && s'.next[x] == Some(y) && s'.next[y] == None
  {
    Pushes(r, s, 0, y);
    var s1 := Pushed(s, y);
    PushesTop(r, s1, 0, x);
    var s2, t := OnTop(s1, 0, x), s1.threads[0];
    WalksOne(r, s2, 1, x);
    var s3 := With(s2, 1, Walked(s2, 1, [x]));
    CountsPushIn(r, s3, 0);
    s' := With(s3.(available := s3.available + 1, use := s3.use - 1), 0, s3.threads[0].(pc := Idle));
    assert [x] + ([y] + []) == [x, y];
  }

  lemma CountsPushIn(r: iset<State>, s: State, t: nat)
    requires Closed(r) && s in r && t < |s.threads| && s.threads[t].pc == PushCount
    ensures With(s.(available := s.available + 1, use := s.use - 1), t, s.threads[t].(pc := Idle)) in r
  {
    assert s.threads[t := s.threads[t]] == s.threads;
    CountsPush(r, s, t, s.threads[t]);
  }

  /** Both nodes are popped, only `x` comes back, and the top word goes once round its range. */
  lemma GoesRound(r: iset<State>, s: State, x: Node, y: Node) returns (s': State)
    requires Closed(r) && s in r && Stalled(s, x, y, 2) && s.available == 2
    requires s.top == Some(x) && s.stack == [x, y] && s.next[x] == Some(y) && s.next[y] == None
    ensures s' in r && Stalled(s', x, y, 2 + TAGS) && s'.top == Some(x) && s'.stack == [x] && s'.owner[y] == Used
  {
    PopsTwo(r, s, 2, x, y);
    var s1 := HandedOut(s, x).(use := s.use + 2, owner := s.owner[x := Used][y := Used]);
    Pushes(r, s1, 0, x);
    var s2 := Pushed(s1, x);
    assert [x] + [] == [x];
    Cycles(r, s2, x, 32767);
    s' := Later(s2, 65534);
  }

  /** The state of thread 1 and of the pool in which the CAS goes wrong. */
  predicate Wrong(s: State, x: Node, y: Node) {
    Stalled(s, x, y, 2 + TAGS) && s.top == Some(x) && s.stack == [x] && y < |s.owner| && s.owner[y] == Used
  }

  /** The tag cannot tell 2^16 changes from none: thread 1 pops `x` and leaves a node on the stack that a
    * caller uses.
    */
  lemma WrongPop(s: State, x: Node, y: Node)
    requires Wrong(s, x, y)
    ensures Pops(s, 1, true) && Lags(s, 1, TAGS) && !ExactAt(s, Event(1, Alloc, true))
    ensures Step(s, Event(1, Alloc, true)).top == Some(y) && Step(s, Event(1, Alloc, true)).stack == []
  {
    assert s.stack[1..] == [];
  }

  // ---------------------------------------------------------------- the exact bound

  /** The states that runs of three threads reach with pop CASes at most 2^16 changes late. */
  ghost predicate Reached(s: State) {
    exists events: seq<Event> :: Within(Init(3, 203), events, TAGS) && Run(Init(3, 203), events) == s
  }

  lemma WithinMore(s: State, events: seq<Event>, e: Event, n: nat)
    requires Within(s, events, n) && Lags(Run(s, events), e.t, n)
    ensures Within(s, events + [e], n) && Run(s, events + [e]) == Step(Run(s, events), e)
  {
    var all := events + [e];
    assert all[..|events|] == events;
    forall k: nat | k < |all| ensures Lags(Run(s, all[..k]), all[k].t, n) {
      if k < |events| {
        assert all[..k] == events[..k];
        assert Lags(Run(s, events[..k]), events[k].t, n);
      }
    }
  }

  lemma ReachedGoes(s: State, e: Event)
    requires Reached(s) && Lags(s, e.t, TAGS)
    ensures Reached(Step(s, e))
  {
    var init := Init(3, 203);
    var events: seq<Event> :| Within(init, events, TAGS) && Run(init, events) == s;
    WithinMore(init, events, e, TAGS);
    assert Within(init, events + [e], TAGS);
  }

  lemma ReachedIsClosed(r: iset<State>)
    requires r == iset s: State | Reached(s)
    ensures Closed(r)
  {
    forall s: State, e: Event | s in r && Lags(s, e.t, TAGS) ensures Step(s, e) in r {
      ReachedGoes(s, e);
    }
  }

  lemma ReachesStart()
    ensures Reached(Init(3, 203))
  {
    assert Within(Init(3, 203), [], TAGS) && Run(Init(3, 203), []) == Init(3, 203);
  }

  lemma GoesWrong() returns (s: State)
    ensures Reached(s) && Wrong(s, 202, 201)
  {
    var r := iset s: State | Reached(s);
    ReachedIsClosed(r);
    ReachesStart();
    var s1 := Begins(r);
    var s2 := Stalls(r, s1, 202, 201);
    s := GoesRound(r, s2, 202, 201);
  }

  /** In a run of the pool from its start, a pop CAS that comes 2^16 changes after its walk began puts a node
    * on the stack that a caller uses.
    */
  lemma TagWrapBreaksThePool()
    ensures exists events: seq<Event>, e: Event ::
              Within(Init(3, 203), events + [e], TAGS) && BreaksPool(Run(Init(3, 203), events), e)
  {
    var s := GoesWrong();
    var e := Event(1, Alloc, true);
    WrongPop(s, 202, 201);
    var init := Init(3, 203);
    var events: seq<Event> :| Within(init, events, TAGS) && Run(init, events) == s;
    WithinMore(init, events, e, TAGS);
    assert BreaksPool(Run(init, events), e);
  }

  /** The step is a pop that does not take the front of the stack and makes a node that is in use the top. */
  predicate BreaksPool(s: State, e: Event) {
    && !ExactAt(s, e)
    && Step(s, e).top.Some? && Step(s, e).top.value < |s.owner| && s.owner[Step(s, e).top.value] == Used
  }

  ghost predicate ExactWithin(n: nat) {
    forall threads: nat, initCount: nat, events: seq<Event> ::
      threads > 0 && Within(Init(threads, initCount), events, n) ==> PopsExactly(Init(threads, initCount), events)
  }

  /** All pops are exact in all runs whose pop CASes are at most `n` changes late, exactly when `n` is below
    * the range of the tag.
    */
  lemma BoundIsExact(n: nat)
    ensures ExactWithin(n) <==> n < TAGS
  {
    if n < TAGS {
      forall threads: nat, initCount: nat, events: seq<Event> |
        threads > 0 && Within(Init(threads, initCount), events, n)
        ensures PopsExactly(Init(threads, initCount), events)
      {
        FewAreExact(threads, initCount, events, n);
      }
    } else {
      TagWrapBreaksThePool();
      var events: seq<Event>, e: Event :|
        Within(Init(3, 203), events + [e], TAGS) && BreaksPool(Run(Init(3, 203), events), e);
      NotExact(events, e, n);
    }
  }

  lemma NotExact(events: seq<Event>, e: Event, n: nat)
    requires n >= TAGS && Within(Init(3, 203), events + [e], TAGS) && BreaksPool(Run(Init(3, 203), events), e)
    ensures !ExactWithin(n)
  {
    var init, all := Init(3, 203), events + [e];
    forall k: nat | k < |all| ensures Lags(Run(init, all[..k]), all[k].t, n) {
      assert Lags(Run(init, all[..k]), all[k].t, TAGS);
    }
    assert Within(init, all, n);
    assert all[..|events|] == events && all[|events|] == e;
    assert !ExactAt(Run(init, all[..|events|]), all[|events|]);
  }
}
