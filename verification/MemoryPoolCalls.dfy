/** What a call of Alloc or Free has done when it returns, and that it returns when its thread runs alone. */
module MemoryPoolCalls {

  import opened Common
  import opened MemoryPool
  import opened MemoryPoolInvariant
  import opened MemoryPoolTheorems

  // ---------------------------------------------------------------- traces

  ghost predicate StepAt(tr: seq<State>, events: seq<Event>, j: nat) {
    j < |events| && j + 1 < |tr| && tr[j + 1] == Step(tr[j], events[j]) && Timely(tr[j], events[j].t)
  }

  /** The states of a run whose pops are timely, from a state that the invariant allows. */
  ghost predicate Trace(tr: seq<State>, events: seq<Event>) {
    |tr| == |events| + 1 && Inv(tr[0]) && forall j: nat :: j < |events| ==> StepAt(tr, events, j)
  }

  lemma {:induction false} TraceInv(tr: seq<State>, events: seq<Event>, j: nat)
    requires Trace(tr, events) && j < |tr|
    ensures Inv(tr[j])
  {
    if j > 0 {
      TraceInv(tr, events, j - 1);
      assert StepAt(tr, events, j - 1);
      StepInv(tr[j - 1], events[j - 1]);
    }
  }

  predicate Returned(s: State, t: nat) { t < |s.threads| && s.threads[t].pc.Idle? }

  /** From state `a` to state `z` thread `t` is in one call, which begins with event `a`. */
  ghost predicate Call(tr: seq<State>, events: seq<Event>, t: nat, a: nat, z: nat) {
    && a < z < |tr| == |events| + 1 && Returned(tr[a], t) && events[a].t == t && Returned(tr[z], t)
    && forall j: nat :: a < j < z ==> t < |tr[j].threads| && !tr[j].threads[t].pc.Idle?
  }

  /** Only thread `t` differs. */
  predicate Aside(s: State, s': State, t: nat) {
    |s'.threads| == |s.threads| && forall u: nat :: u < |s.threads| && u != t ==> s'.threads[u] == s.threads[u]
  }

  lemma HandAside(s: State, s1: State, t: nat)
    requires t < |s.threads| && Aside(s, s1, t)
    ensures Aside(s, Hand(s1, t), t)
  {
  }

  lemma NewNodesAside(s: State, t: nat, n: nat)
    requires t < |s.threads|
    ensures Aside(s, NewNodes(Goto(s, t, Idle), t, n), t)
  {
  }

  lemma CasAside(s: State, t: nat, ok: bool)
    requires t < |s.threads| && (s.threads[t].pc.Cas? || s.threads[t].pc.PushCas?)
    ensures Aside(s, Work(s, t, ok), t)
  {
  }

  lemma PlainAside(s: State, t: nat, ok: bool)
    requires t < |s.threads| && !s.threads[t].pc.Take? && !s.threads[t].pc.Reserve?
    requires !s.threads[t].pc.Cas? && !s.threads[t].pc.PushCas?
    ensures Aside(s, Work(s, t, ok), t)
  {
  }

  lemma WorkAside(s: State, t: nat, ok: bool)
    requires t < |s.threads|
    ensures Aside(s, Work(s, t, ok), t)
  {
    var thread := s.threads[t];
    match thread.pc
    case Take(head, actual) => HandAside(s, With(s, t, Thread(Some(head), actual, Idle, thread.held, [])), t);
    case Reserve =>
      NewNodesAside(s, t, MOVENODESIZE);
      HandAside(s, NewNodes(Goto(s, t, Idle), t, MOVENODESIZE), t);
    case Cas(_, _, _, _, _, _, _) => CasAside(s, t, ok);
    case PushCas(_, _, _) => CasAside(s, t, ok);
    case _ => PlainAside(s, t, ok);
  }

  lemma BeginAside(s: State, t: nat, x: Node)
    requires t < |s.threads|
    ensures Aside(s, BeginAlloc(s, t), t) && Aside(s, BeginFree(s, t, x), t)
  {
    HandAside(s, s, t);
  }

  lemma OthersStay(s: State, e: Event, t: nat)
    requires t < |s.threads| && e.t != t
    ensures t < |Step(s, e).threads| && Step(s, e).threads[t] == s.threads[t]
  {
    if e.t < |s.threads| {
      if !s.threads[e.t].pc.Idle? {
        WorkAside(s, e.t, e.ok);
      } else {
        BeginAside(s, e.t, if e.op.Free? then e.op.x else 0);
      }
    }
  }

  // ---------------------------------------------------------------- what a step hands out

  ghost predicate GivesNothing(s: State, s': State) { forall x: Node :: !HandsOut(s, s', x) }

  ghost predicate GivesOnly(s: State, s': State, x: Node) {
    HandsOut(s, s', x) && forall y: Node :: HandsOut(s, s', y) ==> y == x
  }

  ghost predicate GivesOne(s: State, s': State) { exists x :: GivesOnly(s, s', x) }

  /** Handing out after the owners of old nodes are as they were, and no new node is in use. */
  lemma HandGivesOnly(s: State, s1: State, t: nat)
    requires t < |s1.threads| && s1.threads[t].top.Some? && s1.threads[t].list != []
    requires s1.threads[t].list[0] < |s1.owner| && s1.owner[s1.threads[t].list[0]] != Used
    requires |s.owner| <= |s1.owner| && forall x: nat :: x < |s.owner| ==> s1.owner[x] == s.owner[x]
    requires forall x: nat :: |s.owner| <= x < |s1.owner| ==> s1.owner[x] != Used
    ensures GivesOnly(s, Hand(s1, t), s1.threads[t].list[0]) && Returned(Hand(s1, t), t)
  {
  }

  lemma FrontIsMine(s: State, t: nat)
    requires Inv(s) && t < |s.threads| && s.threads[t].top.Some?
    ensures s.threads[t].list != [] && s.threads[t].list[0] < |s.owner|
    ensures s.owner[s.threads[t].list[0]] == Mine(t)
  {
    assert ThreadOk(s, t, s.threads[t]);
    assert s.threads[t].list[0] in s.threads[t].list + s.threads[t].held;
  }

  lemma TakeGivesOnly(s: State, t: nat, ok: bool)
    requires Inv(s) && t < |s.threads| && s.threads[t].pc.Take?
    ensures GivesOne(s, Work(s, t, ok)) && Returned(Work(s, t, ok), t)
  {
    var pc, held := s.threads[t].pc, s.threads[t].held;
    var s1 := With(s, t, Thread(Some(pc.head), pc.actual, Idle, held, []));
    assert ThreadOk(s, t, s.threads[t]);
    assert held[0] in s.threads[t].list + held;
    HandGivesOnly(s, s1, t);
    assert Work(s, t, ok) == Hand(s1, t);
  }

  lemma ReserveGivesOnly(s: State, t: nat, ok: bool)
    requires Inv(s) && t < |s.threads| && s.threads[t].pc.Reserve?
    ensures GivesOne(s, Work(s, t, ok)) && Returned(Work(s, t, ok), t)
  {
    var s1 := NewNodes(Goto(s, t, Idle), t, MOVENODESIZE);
    assert s1.threads[t].list[0] == |s.next| + MOVENODESIZE - 1;
    HandGivesOnly(s, s1, t);
    assert Work(s, t, ok) == Hand(s1, t);
  }

  lemma FrontGivesOnly(s: State, t: nat)
    requires Inv(s) && t < |s.threads| && s.threads[t].top.Some?
    ensures GivesOne(s, Hand(s, t)) && Returned(Hand(s, t), t)
  {
    FrontIsMine(s, t);
    HandGivesOnly(s, s, t);
  }

  // ---------------------------------------------------------------- Alloc

  /** In these places a thread is in Alloc. */
  predicate Allocating(pc: Pc) {
    pc.Load? || pc.Walk? || pc.Cas? || pc.Popped? || pc.Cut? || pc.Take? || pc.Reserve?
  }

  predicate InAlloc(s: State, t: nat) { t < |s.threads| && Allocating(s.threads[t].pc) }

  /** One step of Alloc gives nothing and goes on, or gives one node and returns. */
  ghost predicate AllocGoesOn(s: State, s': State, t: nat) {
    (InAlloc(s', t) && GivesNothing(s, s')) || (Returned(s', t) && GivesOne(s, s'))
  }

  lemma BeginAllocGoesOn(s: State, t: nat)
    requires Inv(s) && Returned(s, t)
    ensures AllocGoesOn(s, BeginAlloc(s, t), t)
  {
    if s.threads[t].top.Some? { FrontGivesOnly(s, t); }
  }

  lemma WorkGoesOn(s: State, t: nat, ok: bool)
    requires Inv(s) && InAlloc(s, t)
    ensures AllocGoesOn(s, Work(s, t, ok), t)
  {
    if s.threads[t].pc.Take? {
      TakeGivesOnly(s, t, ok);
    } else if s.threads[t].pc.Reserve? {
      ReserveGivesOnly(s, t, ok);
    } else {
      forall x: Node ensures !HandsOut(s, Work(s, t, ok), x) { OthersGiveNothing(s, t, ok, x); }
      StaysInAlloc(s, t, ok);
    }
  }

  lemma StaysInAlloc(s: State, t: nat, ok: bool)
    requires InAlloc(s, t) && !s.threads[t].pc.Take? && !s.threads[t].pc.Reserve?
    ensures InAlloc(Work(s, t, ok), t)
  {
  }

  /** Thread `t` hands out nothing from event `a` on until before event `b`. */
  ghost predicate KeepsAll(tr: seq<State>, events: seq<Event>, t: nat, a: nat, b: nat) {
    && |tr| == |events| + 1 && b <= |events|
    && forall j: nat :: a <= j < b && events[j].t == t ==> GivesNothing(tr[j], tr[j + 1])
  }

  lemma OwnAlloc(tr: seq<State>, events: seq<Event>, t: nat, j: nat)
    requires Trace(tr, events) && j < |events| && events[j].t == t
    requires InAlloc(tr[j], t) || (Returned(tr[j], t) && events[j].op.Alloc?)
    ensures AllocGoesOn(tr[j], tr[j + 1], t)
  {
    assert StepAt(tr, events, j);
    TraceInv(tr, events, j);
    if Returned(tr[j], t) { BeginAllocGoesOn(tr[j], t); } else { WorkGoesOn(tr[j], t, events[j].ok); }
  }

  lemma AllocStep(tr: seq<State>, events: seq<Event>, t: nat, j: nat)
    requires Trace(tr, events) && j < |events| && (events[j].t != t ==> InAlloc(tr[j], t))
    requires events[j].t == t ==> InAlloc(tr[j], t) || (Returned(tr[j], t) && events[j].op.Alloc?)
    requires t < |tr[j + 1].threads| && !tr[j + 1].threads[t].pc.Idle?
    ensures InAlloc(tr[j + 1], t) && (events[j].t == t ==> GivesNothing(tr[j], tr[j + 1]))
  {
    assert StepAt(tr, events, j);
    if events[j].t == t { OwnAlloc(tr, events, t, j); } else { OthersStay(tr[j], events[j], t); }
  }

  lemma {:induction false} AllocCourse(tr: seq<State>, events: seq<Event>, t: nat, a: nat, z: nat, j: nat)
    requires Trace(tr, events) && Call(tr, events, t, a, z) && events[a].op.Alloc? && a < j < z
    ensures InAlloc(tr[j], t) && KeepsAll(tr, events, t, a, j)
    decreases j
  {
    if j > a + 1 { AllocCourse(tr, events, t, a, z, j - 1); }
    AllocStep(tr, events, t, j - 1);
  }

  lemma AllocEnds(tr: seq<State>, events: seq<Event>, t: nat, j: nat)
    requires Trace(tr, events) && j < |events| && InAlloc(tr[j], t) && Returned(tr[j + 1], t)
    ensures events[j].t == t
  {
    assert StepAt(tr, events, j);
    if events[j].t != t { OthersStay(tr[j], events[j], t); }
  }

  /** Alloc gives its caller exactly one node: whatever other threads do during the call, its last access hands out
    * one node, which was not in use, and no other access of it hands out any.
    */
  lemma AllocGivesOne(tr: seq<State>, events: seq<Event>, t: nat, a: nat, z: nat)
    requires Trace(tr, events) && Call(tr, events, t, a, z) && events[a].op.Alloc?
    ensures events[z - 1].t == t && KeepsAll(tr, events, t, a, z - 1)
    ensures GivesOne(tr[z - 1], tr[z])
  {
    if z - 1 > a {
      AllocCourse(tr, events, t, a, z, z - 1);
      AllocEnds(tr, events, t, z - 1);
    }
    OwnAlloc(tr, events, t, z - 1);
  }

  // ---------------------------------------------------------------- Free

  /** Thread `t` is on the way to push node `x`, or has pushed it. */
  predicate Pushing(s: State, t: nat, x: Node) {
    t < |s.threads| &&
    match s.threads[t].pc
    case PushLoad(y) => y == x
    case PushLink(y, _, _) => y == x
    case PushCas(y, _, _) => y == x
    case _ => false
  }

  predicate Counting(s: State, t: nat) { t < |s.threads| && (s.threads[t].pc.PushCount? || s.threads[t].pc.Release?) }

  /** With event `k` thread `t` puts node `x` on top of the global stack. */
  ghost predicate PushedAt(tr: seq<State>, events: seq<Event>, t: nat, x: Node, a: nat, b: nat, k: nat) {
    && a <= k < b <= |events| == |tr| - 1 && events[k].t == t
    && tr[k + 1].stack == [x] + tr[k].stack && x < |tr[k + 1].owner| && tr[k + 1].owner[x] == Global
  }

  ghost predicate WasPushed(tr: seq<State>, events: seq<Event>, t: nat, x: Node, a: nat, b: nat) {
    exists k: nat :: PushedAt(tr, events, t, x, a, b, k)
  }

  /** Thread `t` has put node `x` in front of its own list. */
  predicate TakenBack(s: State, s': State, t: nat, x: Node) {
    && t < |s.threads| && t < |s'.threads| && s'.threads[t].list == [x] + s.threads[t].list
    && x < |s'.owner| && s'.owner[x] == Mine(t)
  }

  lemma PushGoesOn(s: State, t: nat, x: Node, ok: bool)
    requires Inv(s) && Pushing(s, t, x)
    ensures GivesNothing(s, Work(s, t, ok))
    ensures var s' := Work(s, t, ok);
            Pushing(s', t, x) ||
            (Counting(s', t) && s'.stack == [x] + s.stack && x < |s'.owner| && s'.owner[x] == Global)
  {
    assert ThreadOk(s, t, s.threads[t]);
    assert x in s.threads[t].list + s.threads[t].held;
    forall y: Node ensures !HandsOut(s, Work(s, t, ok), y) { OthersGiveNothing(s, t, ok, y); }
  }

  lemma CountGoesOn(s: State, t: nat, ok: bool)
    requires Counting(s, t)
    ensures GivesNothing(s, Work(s, t, ok))
    ensures Counting(Work(s, t, ok), t) || Returned(Work(s, t, ok), t)
  {
  }

  lemma BeginFreeGoesOn(s: State, t: nat, x: Node)
    requires Inv(s) && Returned(s, t) && x < |s.owner| && s.owner[x] == Used
    ensures GivesNothing(s, BeginFree(s, t, x))
    ensures var s' := BeginFree(s, t, x);
            if |s.threads[t].list| > 200 then Pushing(s', t, x) else Returned(s', t) && TakenBack(s, s', t, x)
  {
    assert ThreadOk(s, t, s.threads[t]);
  }

  lemma OwnPush(tr: seq<State>, events: seq<Event>, t: nat, x: Node, j: nat)
    requires Trace(tr, events) && j < |events| && events[j].t == t && Pushing(tr[j], t, x)
    ensures GivesNothing(tr[j], tr[j + 1])
    ensures || Pushing(tr[j + 1], t, x)
            || (Counting(tr[j + 1], t) && PushedAt(tr, events, t, x, j, j + 1, j))
  {
    assert StepAt(tr, events, j);
    TraceInv(tr, events, j);
    PushGoesOn(tr[j], t, x, events[j].ok);
  }

  lemma OwnFree(tr: seq<State>, events: seq<Event>, t: nat, j: nat)
    requires Trace(tr, events) && j < |events| && events[j].t == t && events[j].op.Free? && Returned(tr[j], t)
    requires events[j].op.x < |tr[j].owner| && tr[j].owner[events[j].op.x] == Used
    ensures GivesNothing(tr[j], tr[j + 1])
    ensures if |tr[j].threads[t].list| > 200 then Pushing(tr[j + 1], t, events[j].op.x)
            else Returned(tr[j + 1], t) && TakenBack(tr[j], tr[j + 1], t, events[j].op.x)
  {
    assert StepAt(tr, events, j);
    TraceInv(tr, events, j);
    BeginFreeGoesOn(tr[j], t, events[j].op.x);
  }

  /** Where Free of a node that is not taken back at once stands. */
  ghost predicate GivingBack(tr: seq<State>, events: seq<Event>, t: nat, x: Node, a: nat, j: nat) {
    && j < |tr| && KeepsAll(tr, events, t, a, j)
    && (Pushing(tr[j], t, x) ||
        ((Counting(tr[j], t) || Returned(tr[j], t)) && WasPushed(tr, events, t, x, a, j)))
  }

  lemma PushedMore(tr: seq<State>, events: seq<Event>, t: nat, x: Node, a: nat, j: nat)
    requires j < |events| == |tr| - 1 && WasPushed(tr, events, t, x, a, j)
    ensures WasPushed(tr, events, t, x, a, j + 1)
  {
    var k: nat :| PushedAt(tr, events, t, x, a, j, k);
    assert PushedAt(tr, events, t, x, a, j + 1, k);
  }

  lemma FreeStep(tr: seq<State>, events: seq<Event>, t: nat, x: Node, a: nat, j: nat)
    requires Trace(tr, events) && a <= j < |events| && GivingBack(tr, events, t, x, a, j)
    requires t < |tr[j].threads| && !tr[j].threads[t].pc.Idle?
    ensures GivingBack(tr, events, t, x, a, j + 1)
  {
    assert StepAt(tr, events, j);
    if WasPushed(tr, events, t, x, a, j) { PushedMore(tr, events, t, x, a, j); }
    if events[j].t != t {
      OthersStay(tr[j], events[j], t);
    } else if Pushing(tr[j], t, x) {
      OwnPush(tr, events, t, x, j);
      if !Pushing(tr[j + 1], t, x) { assert PushedAt(tr, events, t, x, a, j + 1, j); }
    } else {
      CountGoesOn(tr[j], t, events[j].ok);
    }
  }

  lemma {:induction false} FreeCourse(tr: seq<State>, events: seq<Event>, t: nat, x: Node, a: nat, z: nat, j: nat)
    requires Trace(tr, events) && Call(tr, events, t, a, z) && events[a].op == Free(x) && a < j <= z
    requires x < |tr[a].owner| && tr[a].owner[x] == Used && |tr[a].threads[t].list| > 200
    ensures GivingBack(tr, events, t, x, a, j)
    decreases j
  {
    if j == a + 1 {
      OwnFree(tr, events, t, a);
    } else {
      FreeCourse(tr, events, t, x, a, z, j - 1);
      FreeStep(tr, events, t, x, a, j - 1);
    }
  }

  /** Free takes the node back, once, and hands out nothing. A thread whose list has at most 200 nodes puts it in
    * front of that list with the first access of the call and returns; any other pushes it on the global stack with
    * one access of the call.
    */
  lemma FreeTakesBack(tr: seq<State>, events: seq<Event>, t: nat, x: Node, a: nat, z: nat)
    requires Trace(tr, events) && Call(tr, events, t, a, z) && events[a].op == Free(x)
    requires x < |tr[a].owner| && tr[a].owner[x] == Used
    ensures KeepsAll(tr, events, t, a, z)
    ensures if |tr[a].threads[t].list| <= 200 then z == a + 1 && TakenBack(tr[a], tr[z], t, x)
            else WasPushed(tr, events, t, x, a, z)
  {
    OwnFree(tr, events, t, a);
    if |tr[a].threads[t].list| > 200 { FreeCourse(tr, events, t, x, a, z, z); }
  }

  // ---------------------------------------------------------------- calls return

  predicate AtTop(s: State, top: Option<Node>, tag: nat) { s.top == top && s.tag == tag }

  /** How many accesses a thread in a call has left at most, when it runs alone. */
  function Left(s: State, pc: Pc): nat {
    match pc
    case Idle => 0
    case Load(want) => want + 6
    case Walk(want, top, tag, _, actual, _) =>
      5 + (if actual < want then want - actual else 0) + (if AtTop(s, Some(top), tag) then 0 else want + 6)
    case Cas(want, top, tag, _, _, _, _) => 4 + (if AtTop(s, Some(top), tag) then 0 else want + 6)
    case Popped(_, _, _) => 3
    case Cut(_, _, _) => 2
    case Take(_, _) => 1
    case Reserve => 1
    case PushLoad(_) => 5
    case PushLink(_, top, tag) => if AtTop(s, top, tag) then 4 else 7
    case PushCas(_, top, tag) => if AtTop(s, top, tag) then 3 else 6
    case PushCount => 2
    case Release => 1
  }

  lemma PopNearer(s: State, t: nat)
    requires t < |s.threads| && s.threads[t].pc.Cas?
    requires s.threads[t].pc.want >= 1
    ensures var s' := Work(s, t, true); t < |s'.threads| && Left(s', s'.threads[t].pc) < Left(s, s.threads[t].pc)
  {
  }

  lemma WalkNearer(s: State, t: nat)
    requires t < |s.threads| && (s.threads[t].pc.Walk? || s.threads[t].pc.Load?)
    requires s.threads[t].pc.want >= 1
    ensures var s' := Work(s, t, true); t < |s'.threads| && Left(s', s'.threads[t].pc) < Left(s, s.threads[t].pc)
  {
  }

  lemma RestNearer(s: State, t: nat)
    requires t < |s.threads| && !s.threads[t].pc.Idle? && !s.threads[t].pc.Walk? && !s.threads[t].pc.Load?
    requires !s.threads[t].pc.Cas? && !s.threads[t].pc.Take? && !s.threads[t].pc.Reserve?
    ensures var s' := Work(s, t, true); t < |s'.threads| && Left(s', s'.threads[t].pc) < Left(s, s.threads[t].pc)
  {
  }

  lemma WorkNearer(s: State, t: nat)
    requires Inv(s) && t < |s.threads| && !s.threads[t].pc.Idle?
    ensures var s' := Work(s, t, true); t < |s'.threads| && Left(s', s'.threads[t].pc) < Left(s, s.threads[t].pc)
  {
    assert ThreadOk(s, t, s.threads[t]);
    match s.threads[t].pc
    case Load(_) => WalkNearer(s, t);
    case Walk(_, _, _, _, _, _) => WalkNearer(s, t);
    case Cas(_, _, _, _, _, _, _) => PopNearer(s, t);
    case Take(_, _) => TakeGivesOnly(s, t, true);
    case Reserve => ReserveGivesOnly(s, t, true);
    case _ => RestNearer(s, t);
  }

  /** From state `a` to state `z` thread `t` runs alone, and its CAS does not fail without a reason. */
  ghost predicate Alone(events: seq<Event>, t: nat, a: nat, z: nat) {
    a <= z <= |events| && forall j: nat :: a <= j < z ==> events[j].t == t && events[j].ok
  }

  /** From any state of a run, a thread that runs alone returns after at most `Left` accesses. */
  lemma {:induction false} ReturnsAlone(tr: seq<State>, events: seq<Event>, t: nat, a: nat, z: nat)
    requires Trace(tr, events) && Alone(events, t, a, z) && t < |tr[a].threads|
    requires z - a >= Left(tr[a], tr[a].threads[t].pc)
    ensures exists j: nat :: a <= j <= z && Returned(tr[j], t)
    decreases z - a
  {
    if !Returned(tr[a], t) {
      LeftPositive(tr[a], tr[a].threads[t].pc);
      NearerAt(tr, events, t, a);
      ReturnsAlone(tr, events, t, a + 1, z);
    }
  }

  lemma NearerAt(tr: seq<State>, events: seq<Event>, t: nat, j: nat)
    requires Trace(tr, events) && j < |events| && events[j].t == t && events[j].ok
    requires t < |tr[j].threads| && !tr[j].threads[t].pc.Idle?
    ensures t < |tr[j + 1].threads| && Left(tr[j + 1], tr[j + 1].threads[t].pc) < Left(tr[j], tr[j].threads[t].pc)
  {
    assert StepAt(tr, events, j);
    TraceInv(tr, events, j);
    WorkNearer(tr[j], t);
  }

  lemma LeftPositive(s: State, pc: Pc)
    requires !pc.Idle?
    ensures Left(s, pc) > 0
  {
  }

  lemma BeginLeft(s: State, e: Event)
    requires Returned(s, e.t)
    ensures var s' := Step(s, e); e.t < |s'.threads| && Left(s', s'.threads[e.t].pc) <= MOVENODESIZE + 6
  {
  }

  /** A call that runs alone from its start returns within 207 accesses, most of them the walk over a batch. */
  lemma CallReturnsAlone(tr: seq<State>, events: seq<Event>, t: nat, a: nat, z: nat)
    requires Trace(tr, events) && Alone(events, t, a, z) && Returned(tr[a], t) && z - a >= 207
    ensures exists j: nat :: a < j <= z && Returned(tr[j], t)
  {
    assert StepAt(tr, events, a);
    BeginLeft(tr[a], events[a]);
    ReturnsAlone(tr, events, t, a + 1, z);
  }
}
