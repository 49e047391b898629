/** Why a pool of one slot is excluded. Its first session id is 0, which is also what `Init` and
  * `releaseSession` leave in the slot, so a handle to the first session passes the id re-check while the
  * slot is being made ready for the second, and the run ends in the `__debugbreak` of `releaseSession`.
  */
module SessionOneSlot {

  import opened Common
  import opened Session
  import opened SessionInvariant
  import opened SessionRuns
  import opened SessionTheorems

  // Thread 0 accepts; thread 1 calls DisConnect with handle 0; thread 2 serves completions.
  const GOOD: Choice := Choice(Accept, true, false)

  ghost predicate Reached(s: State) { exists events: seq<Event> :: Run(Init(1, 3), events) == s }

  lemma Next(s: State, e: Event)
    requires Reached(s)
    ensures Reached(Step(s, e))
  {
    var events :| Run(Init(1, 3), events) == s;
    assert (events + [e])[..|events + [e]| - 1] == events;
    assert Run(Init(1, 3), events + [e]) == Step(s, e);
  }

  function Three(t: Tid, work: seq<Task>, a: seq<Task>, b: seq<Task>): seq<seq<Task>> {
    if t == 0 then [work, a, b] else if t == 1 then [a, work, b] else [a, b, work]
  }

  lemma Start(sh: Shared, t: Tid, c: Choice, a: seq<Task>, b: seq<Task>)
    requires t < 3 && Reached(State(sh, Three(t, [], a, b)))
    ensures Reached(State(Begin(sh, t, c).0, Three(t, Begin(sh, t, c).1, a, b)))
  {
    var s := State(sh, Three(t, [], a, b));
    Next(s, Event(t, c));
    assert s.threads[t := Begin(sh, t, c).1] == Three(t, Begin(sh, t, c).1, a, b);
  }

  /** A thread with one pending access at a time makes `k` of them. */
  function Go(sh: Shared, todo: seq<Task>, k: nat): (Shared, seq<Task>)
    decreases k
  {
    if k == 0 || |todo| != 1 then (sh, todo)
    else Go(Exec(sh, todo[0], GOOD).0, Exec(sh, todo[0], GOOD).1, k - 1)
  }

  lemma {:induction false} Turns(sh: Shared, t: Tid, todo: seq<Task>, a: seq<Task>, b: seq<Task>, k: nat)
    requires t < 3 && Reached(State(sh, Three(t, todo, a, b)))
    ensures Reached(State(Go(sh, todo, k).0, Three(t, Go(sh, todo, k).1, a, b)))
    decreases k
  {
    if k > 0 && |todo| == 1 {
      assert todo == [todo[0]];
      var sh', todo' := Turn(sh, t, todo[0], a, b, k - 1);
      Turns(sh', t, todo', a, b, k - 1);
    }
  }

  lemma Turn(sh: Shared, t: Tid, x: Task, a: seq<Task>, b: seq<Task>, k: nat) returns (sh': Shared, todo': seq<Task>)
    requires t < 3 && Reached(State(sh, Three(t, [x], a, b)))
    ensures Reached(State(sh', Three(t, todo', a, b))) && Go(sh, [x], k + 1) == Go(sh', todo', k)
  {
    var s := State(sh, Three(t, [x], a, b));
    sh', todo' := Exec(sh, x, GOOD).0, Exec(sh, x, GOOD).1;
    Next(s, Event(t, GOOD));
    assert s.threads[t] == [x];
    assert todo' + [x][1..] == todo';
    assert s.threads[t := todo'] == Three(t, todo', a, b);
  }

  function Pool(slot: Slot, free: seq<nat>, count: int): Shared {
    Shared([slot], free, 1, count, multiset{}, false, {0}, {0}, multiset{})
  }

  function Popped(): Shared { Shared([TAKEN], [], 0, 0, multiset{}, false, {}, {}, multiset{}) }

  // The slot at the corners of the run.
  const TAKEN: Slot := EmptySlot().(phase := Creating(ResetId))
  const RESET: Slot := EmptySlot().(phase := Creating(TakeId), life := 1)
  const MADE: Slot := EmptySlot().(phase := Alive(false), life := 1, connected := true, counted := true)
  const OPEN: Slot := MADE.(phase := Alive(true), control := 1, recvPosted := 1)
  const CLOSED: Slot := OPEN.(control := IO_RANGE, recvPosted := 0, posts := 1, releasePosted := 1)
  const LEFT: Slot := CLOSED.(control := 3 * IO_RANGE, releasePosted := 0, leaves := 1, counted := false,
                              phase := Cleaning(DrainRing))
  const RETURNED: Slot := EmptySlot().(life := 1, control := 3 * IO_RANGE, posts := 1, leaves := 1)
  const REMADE: Slot := EmptySlot().(phase := Creating(ResetSend), life := 2)
  const HIT: Slot := REMADE.(control := IO_RANGE, posts := 1, releasePosted := 1)

  lemma Resets()
    ensures Go(Popped(), [AcceptT(0, ResetId)], 4) ==
            (Popped().(slots := [RESET]), [AcceptT(0, TakeId)])
  {
    var sh0, w0 := Popped(), [AcceptT(0, ResetId)];
    var sh1, w1 := Exec(sh0, w0[0], GOOD).0, Exec(sh0, w0[0], GOOD).1;
    assert Go(sh0, w0, 4) == Go(sh1, w1, 3);
    var sh2, w2 := Exec(sh1, w1[0], GOOD).0, Exec(sh1, w1[0], GOOD).1;
    assert Go(sh1, w1, 3) == Go(sh2, w2, 2);
    var sh3, w3 := Exec(sh2, w2[0], GOOD).0, Exec(sh2, w2[0], GOOD).1;
    assert Go(sh2, w2, 2) == Go(sh3, w3, 1);
    var sh4, w4 := Exec(sh3, w3[0], GOOD).0, Exec(sh3, w3[0], GOOD).1;
    assert Go(sh3, w3, 1) == Go(sh4, w4, 0);
    assert sh4.slots == (Popped().(slots := [RESET])).slots;
  }

  lemma Makes()
    ensures Go(Popped().(slots := [RESET]), [AcceptT(0, TakeId)], 4) ==
            (Pool(MADE, [], 1).(published := {}), [AcceptT(0, Register)])
  {
    var sh0, w0 := Popped().(slots := [RESET]), [AcceptT(0, TakeId)];
    var sh1, w1 := Exec(sh0, w0[0], GOOD).0, Exec(sh0, w0[0], GOOD).1;
    assert sh1.issued == {0};
    assert Go(sh0, w0, 4) == Go(sh1, w1, 3);
    var sh2, w2 := Exec(sh1, w1[0], GOOD).0, Exec(sh1, w1[0], GOOD).1;
    assert Go(sh1, w1, 3) == Go(sh2, w2, 2);
    var sh3, w3 := Exec(sh2, w2[0], GOOD).0, Exec(sh2, w2[0], GOOD).1;
    assert Go(sh2, w2, 2) == Go(sh3, w3, 1);
    var sh4, w4 := Exec(sh3, w3[0], GOOD).0, Exec(sh3, w3[0], GOOD).1;
    assert Go(sh3, w3, 1) == Go(sh4, w4, 0);
    assert sh4.slots == (Pool(MADE, [], 1).(published := {})).slots;
  }

  /** The first session is given handle 0 and waits for its first receive. */
  lemma Opens()
    ensures Go(Pool(MADE, [], 1).(published := {}), [AcceptT(0, Register)], 4) ==
            (Pool(OPEN, [], 1), [])
  {
    var sh0, w0 := Pool(MADE, [], 1).(published := {}), [AcceptT(0, Register)];
    var sh1, w1 := Exec(sh0, w0[0], GOOD).0, Exec(sh0, w0[0], GOOD).1;
    assert Go(sh0, w0, 4) == Go(sh1, w1, 3);
    var sh2, w2 := Exec(sh1, w1[0], GOOD).0, Exec(sh1, w1[0], GOOD).1;
    assert sh2.published == {0};
    assert Go(sh1, w1, 3) == Go(sh2, w2, 2);
    var sh3, w3 := Exec(sh2, w2[0], GOOD).0, Exec(sh2, w2[0], GOOD).1;
    assert Go(sh2, w2, 2) == Go(sh3, w3, 1);
    var sh4, w4 := Exec(sh3, w3[0], GOOD).0, Exec(sh3, w3[0], GOOD).1;
    assert Go(sh3, w3, 1) == Go(sh4, w4, 0);
    assert sh4.slots == (Pool(OPEN, [], 1)).slots;
  }

  lemma Looks()
    ensures Go(Pool(OPEN, [], 1), [UseT(Find(0, Kick))], 2) ==
            (Pool(OPEN, [], 1), [UseT(Acquire(0, 0, Kick))])
  {
    var sh0, w0 := Pool(OPEN, [], 1), [UseT(Find(0, Kick))];
    var sh1, w1 := Exec(sh0, w0[0], GOOD).0, Exec(sh0, w0[0], GOOD).1;
    assert Go(sh0, w0, 2) == Go(sh1, w1, 1);
    var sh2, w2 := Exec(sh1, w1[0], GOOD).0, Exec(sh1, w1[0], GOOD).1;
    assert Go(sh1, w1, 1) == Go(sh2, w2, 0);
    assert sh2.slots == (Pool(OPEN, [], 1)).slots;
  }

  lemma Closes()
    ensures Go(Pool(OPEN.(recvPosted := 0), [], 1), [RelT(0, Request)], 3) ==
            (Pool(CLOSED, [], 1), [])
  {
    var sh0, w0 := Pool(OPEN.(recvPosted := 0), [], 1), [RelT(0, Request)];
    var sh1, w1 := Exec(sh0, w0[0], GOOD).0, Exec(sh0, w0[0], GOOD).1;
    assert Go(sh0, w0, 3) == Go(sh1, w1, 2);
    var sh2, w2 := Exec(sh1, w1[0], GOOD).0, Exec(sh1, w1[0], GOOD).1;
    assert Go(sh1, w1, 2) == Go(sh2, w2, 1);
    var sh3, w3 := Exec(sh2, w2[0], GOOD).0, Exec(sh2, w2[0], GOOD).1;
    assert Go(sh2, w2, 1) == Go(sh3, w3, 0);
    assert sh3.slots == (Pool(CLOSED, [], 1)).slots;
  }

  lemma Leaves()
    ensures Go(Pool(CLOSED.(releasePosted := 0), [], 1), [RelT(0, Cleanup)], 3) ==
            (Pool(LEFT, [], 0), [CleanT(0, 0, DrainRing)])
  {
    var sh0, w0 := Pool(CLOSED.(releasePosted := 0), [], 1), [RelT(0, Cleanup)];
    var sh1, w1 := Exec(sh0, w0[0], GOOD).0, Exec(sh0, w0[0], GOOD).1;
    assert Go(sh0, w0, 3) == Go(sh1, w1, 2);
    var sh2, w2 := Exec(sh1, w1[0], GOOD).0, Exec(sh1, w1[0], GOOD).1;
    assert Go(sh1, w1, 2) == Go(sh2, w2, 1);
    var sh3, w3 := Exec(sh2, w2[0], GOOD).0, Exec(sh2, w2[0], GOOD).1;
    assert Go(sh2, w2, 1) == Go(sh3, w3, 0);
    assert sh3.slots == (Pool(LEFT, [], 0)).slots;
  }

  lemma Drains()
    ensures Go(Pool(LEFT, [], 0), [CleanT(0, 0, DrainRing)], 3) ==
            (Pool(LEFT.(id := 0, phase := Cleaning(ClearState)), [], 0), [CleanT(0, 0, ClearState)])
  {
    var sh0, w0 := Pool(LEFT, [], 0), [CleanT(0, 0, DrainRing)];
    var sh1, w1 := Exec(sh0, w0[0], GOOD).0, Exec(sh0, w0[0], GOOD).1;
    assert sh1.slots[0].dropped == [] && w1 == [CleanT(0, 0, ClearRings)];
    assert Go(sh0, w0, 3) == Go(sh1, w1, 2);
    var sh2, w2 := Exec(sh1, w1[0], GOOD).0, Exec(sh1, w1[0], GOOD).1;
    assert Go(sh1, w1, 2) == Go(sh2, w2, 1);
    var sh3, w3 := Exec(sh2, w2[0], GOOD).0, Exec(sh2, w2[0], GOOD).1;
    assert Go(sh2, w2, 1) == Go(sh3, w3, 0);
    assert sh3.slots == (Pool(LEFT.(id := 0, phase := Cleaning(ClearState)), [], 0)).slots;
  }

  lemma Returns()
    ensures Go(Pool(LEFT.(id := 0, phase := Cleaning(ClearState)), [], 0), [CleanT(0, 0, ClearState)], 3) ==
            (Pool(RETURNED, [0], 0), [])
  {
    var sh0, w0 := Pool(LEFT.(id := 0, phase := Cleaning(ClearState)), [], 0), [CleanT(0, 0, ClearState)];
    var sh1, w1 := Exec(sh0, w0[0], GOOD).0, Exec(sh0, w0[0], GOOD).1;
    assert Go(sh0, w0, 3) == Go(sh1, w1, 2);
    var sh2, w2 := Exec(sh1, w1[0], GOOD).0, Exec(sh1, w1[0], GOOD).1;
    assert Go(sh1, w1, 2) == Go(sh2, w2, 1);
    var sh3, w3 := Exec(sh2, w2[0], GOOD).0, Exec(sh2, w2[0], GOOD).1;
    assert sh3.freeStack == [0];
    assert Go(sh2, w2, 1) == Go(sh3, w3, 0);
    assert sh3.slots == (Pool(RETURNED, [0], 0)).slots;
  }

  lemma Remakes()
    ensures Go(Pool(RETURNED.(phase := Creating(ResetId)), [], 0), [AcceptT(0, ResetId)], 2) ==
            (Pool(REMADE, [], 0), [AcceptT(0, ResetSend)])
  {
    var sh0, w0 := Pool(RETURNED.(phase := Creating(ResetId)), [], 0), [AcceptT(0, ResetId)];
    var sh1, w1 := Exec(sh0, w0[0], GOOD).0, Exec(sh0, w0[0], GOOD).1;
    assert Go(sh0, w0, 2) == Go(sh1, w1, 1);
    var sh2, w2 := Exec(sh1, w1[0], GOOD).0, Exec(sh1, w1[0], GOOD).1;
    assert Go(sh1, w1, 1) == Go(sh2, w2, 0);
    assert sh2.slots == (Pool(REMADE, [], 0)).slots;
  }

  /** The handle of the first session passes the re-check and releases the second before it exists. */
  lemma Hits()
    ensures Go(Pool(REMADE, [], 0), [UseT(Acquire(0, 0, Kick))], 5) ==
            (Pool(HIT, [], 0), [])
  {
    var sh0, w0 := Pool(REMADE, [], 0), [UseT(Acquire(0, 0, Kick))];
    var sh1, w1 := Exec(sh0, w0[0], GOOD).0, Exec(sh0, w0[0], GOOD).1;
    assert Go(sh0, w0, 5) == Go(sh1, w1, 4);
    var sh2, w2 := Exec(sh1, w1[0], GOOD).0, Exec(sh1, w1[0], GOOD).1;
    assert Go(sh1, w1, 4) == Go(sh2, w2, 3);
    var sh3, w3 := Exec(sh2, w2[0], GOOD).0, Exec(sh2, w2[0], GOOD).1;
    assert Go(sh2, w2, 3) == Go(sh3, w3, 2);
    var sh4, w4 := Exec(sh3, w3[0], GOOD).0, Exec(sh3, w3[0], GOOD).1;
    assert Go(sh3, w3, 2) == Go(sh4, w4, 1);
    var sh5, w5 := Exec(sh4, w4[0], GOOD).0, Exec(sh4, w4[0], GOOD).1;
    assert Go(sh4, w4, 1) == Go(sh5, w5, 0);
    assert sh5.slots == (Pool(HIT, [], 0)).slots;
  }

  lemma Pops()
    ensures Begin(Init(1, 3).sh, 0, GOOD) == (Popped(), [AcceptT(0, ResetId)])
  {
    var sh := Init(1, 3).sh;
    assert sh.freeStack == [0] && sh.slots == [EmptySlot()];
    assert sh.freeStack[1..] == [] && sh.slots[0 := TAKEN] == [TAKEN];
    assert BeginAccept(sh).0.slots == Popped().slots && BeginAccept(sh).0.freeStack == Popped().freeStack;
  }

  lemma Accepted()
    ensures Reached(State(Pool(OPEN, [], 1), [[], [], []]))
  {
    var s := Init(1, 3);
    assert Run(s, []) == s;
    assert s.threads == Three(0, [], [], []);
    Start(s.sh, 0, GOOD, [], []);
    Pops();
    Turns(Popped(), 0, [AcceptT(0, ResetId)], [], [], 4);
    Resets();
    Turns(Popped().(slots := [RESET]), 0, [AcceptT(0, TakeId)], [], [], 4);
    Makes();
    Turns(Pool(MADE, [], 1).(published := {}), 0, [AcceptT(0, Register)], [], [], 4);
    Opens();
  }

  lemma Gone()
    ensures Reached(State(Pool(RETURNED, [0], 0), [[], [UseT(Acquire(0, 0, Kick))], []]))
  {
    var call := [UseT(Acquire(0, 0, Kick))];
    Accepted();
    Start(Pool(OPEN, [], 1), 1, Choice(StartKick(0), true, false), [], []);
    Turns(Pool(OPEN, [], 1), 1, [UseT(Find(0, Kick))], [], [], 2);
    Looks();
    Start(Pool(OPEN, [], 1), 2, Choice(TakeRecv(0), false, false), [], call);
    assert With(Pool(OPEN, [], 1), 0, OPEN.(recvPosted := 0)).slots == [OPEN.(recvPosted := 0)];
    Turns(Pool(OPEN.(recvPosted := 0), [], 1), 2, [RelT(0, Request)], [], call, 3);
    Closes();
    Start(Pool(CLOSED, [], 1), 2, Choice(TakeRelease(0), true, false), [], call);
    assert With(Pool(CLOSED, [], 1), 0, CLOSED.(releasePosted := 0)).slots == [CLOSED.(releasePosted := 0)];
    Turns(Pool(CLOSED.(releasePosted := 0), [], 1), 2, [RelT(0, Cleanup)], [], call, 3);
    Leaves();
    Turns(Pool(LEFT, [], 0), 2, [CleanT(0, 0, DrainRing)], [], call, 3);
    Drains();
    Turns(Pool(LEFT.(id := 0, phase := Cleaning(ClearState)), [], 0), 2, [CleanT(0, 0, ClearState)], [], call, 3);
    Returns();
  }

  /** Releasing a session that was never counted takes the session count below zero. */
  lemma Traps()
    ensures Go(Pool(HIT.(releasePosted := 0), [], 0), [RelT(0, Cleanup)], 3).0.fault
  {
    var sh0, w0 := Pool(HIT.(releasePosted := 0), [], 0), [RelT(0, Cleanup)];
    var sh1, w1 := Exec(sh0, w0[0], GOOD).0, Exec(sh0, w0[0], GOOD).1;
    assert Go(sh0, w0, 3) == Go(sh1, w1, 2);
    var sh2, w2 := Exec(sh1, w1[0], GOOD).0, Exec(sh1, w1[0], GOOD).1;
    assert Go(sh1, w1, 2) == Go(sh2, w2, 1);
    var sh3, w3 := Exec(sh2, w2[0], GOOD).0, Exec(sh2, w2[0], GOOD).1;
    assert Go(sh2, w2, 1) == Go(sh3, w3, 0);
  }

  lemma Remade()
    ensures Reached(State(Pool(REMADE, [], 0), [[AcceptT(0, ResetSend)], [UseT(Acquire(0, 0, Kick))], []]))
  {
    var call := [UseT(Acquire(0, 0, Kick))];
    Gone();
    Start(Pool(RETURNED, [0], 0), 0, GOOD, call, []);
    assert [RETURNED][0 := RETURNED.(phase := Creating(ResetId))] == [RETURNED.(phase := Creating(ResetId))];
    Turns(Pool(RETURNED.(phase := Creating(ResetId)), [], 0), 0, [AcceptT(0, ResetId)], call, [], 2);
    Remakes();
  }

  /** While the slot is being made ready for the second session, the handle of the first releases it. */
  lemma StaleHandleHits()
    ensures Reached(State(Pool(HIT, [], 0), [[AcceptT(0, ResetSend)], [], []]))
  {
    Remade();
    Turns(Pool(REMADE, [], 0), 1, [UseT(Acquire(0, 0, Kick))], [AcceptT(0, ResetSend)], [], 5);
    Hits();
  }

  lemma OneSlotFails()
    ensures exists events: seq<Event> ::
              Run(Init(1, 3), events).sh.next == 1 && Run(Init(1, 3), events).sh.fault
  {
    StaleHandleHits();
    Start(Pool(HIT, [], 0), 2, Choice(TakeRelease(0), true, false), [AcceptT(0, ResetSend)], []);
    assert [HIT][0 := HIT.(releasePosted := 0)] == [HIT.(releasePosted := 0)];
    Turns(Pool(HIT.(releasePosted := 0), [], 0), 2, [RelT(0, Cleanup)], [AcceptT(0, ResetSend)], [], 3);
    Traps();
  }

  /** The re-check of the old handle is about to pass on the slot that is being reset. */
  lemma StaleCheckPasses()
    ensures exists events: seq<Event> ::
              Run(Init(1, 3), events).sh.next == 1 && !RechecksHold(Run(Init(1, 3), events))
  {
    Remade();
    var call, slot := [UseT(Acquire(0, 0, Kick))], REMADE.(control := IncIo(REMADE.control));
    Turns(Pool(REMADE, [], 0), 1, call, [AcceptT(0, ResetSend)], [], 1);
    var s := State(Pool(slot, [], 0), [[AcceptT(0, ResetSend)], [UseT(CheckId(0, 0, Kick))], []]);
    Acquires();
    assert Reached(s);
    assert !RecheckHolds(s, 1);
    var events: seq<Event> :| Run(Init(1, 3), events) == s;
  }

  lemma Acquires()
    ensures Go(Pool(REMADE, [], 0), [UseT(Acquire(0, 0, Kick))], 1) ==
            (Pool(REMADE.(control := IncIo(REMADE.control)), [], 0), [UseT(CheckId(0, 0, Kick))])
  {
    var sh0, w0 := Pool(REMADE, [], 0), [UseT(Acquire(0, 0, Kick))];
    var sh1, w1 := Exec(sh0, w0[0], GOOD).0, Exec(sh0, w0[0], GOOD).1;
    assert Go(sh0, w0, 1) == Go(sh1, w1, 0);
    assert sh1.slots == [REMADE.(control := IncIo(REMADE.control))];
  }

  /** If thread `t` is about to pass the id re-check, the slot is in use. */
  predicate RecheckHolds(s: State, t: Tid) {
    t < |s.threads| && s.threads[t] != [] && s.threads[t][0].UseT? && s.threads[t][0].u.CheckId? ==>
      var u := s.threads[t][0].u;
      u.i < |s.sh.slots| && (s.sh.slots[u.i].id == u.sid ==> s.sh.slots[u.i].phase == Alive(true))
  }

  ghost predicate RechecksHold(s: State) { forall t: Tid :: RecheckHolds(s, t) }

  predicate Allowed(slots: nat, threads: nat, events: seq<Event>) {
    slots <= 0x1_0000 && threads <= 0x2000_0000 && Run(Init(slots, threads), events).sh.next <= UNIQUE_RANGE
  }

  ghost predicate AlwaysRechecks(slots: nat) {
    forall threads: nat, events: seq<Event> ::
      Allowed(slots, threads, events) ==> RechecksHold(Run(Init(slots, threads), events))
  }

  /** The id re-check lets only live sessions through exactly when the pool does not consist of slot 0 alone. */
  lemma RecheckIff(slots: nat)
    requires slots <= 0x1_0000
    ensures slots != 1 <==> AlwaysRechecks(slots)
  {
    if slots == 1 {
      StaleCheckPasses();
      var events: seq<Event> :| Run(Init(1, 3), events).sh.next == 1 && !RechecksHold(Run(Init(1, 3), events));
      assert Allowed(1, 3, events);
    } else {
      forall threads: nat, events: seq<Event> | Allowed(slots, threads, events)
        ensures RechecksHold(Run(Init(slots, threads), events))
      {
        var s := Run(Init(slots, threads), events);
        forall t: Tid ensures RecheckHolds(s, t) {
          if t < |s.threads| && s.threads[t] != [] && s.threads[t][0].UseT? && s.threads[t][0].u.CheckId? {
            CheckIdIsSound(slots, threads, events, t, s.threads[t][0].u);
          }
        }
      }
    }
  }

  /** The trap is out of reach exactly when the pool does not consist of slot 0 alone. */
  lemma FaultFreeIff(slots: nat)
    requires slots <= 0x1_0000
    ensures slots != 1 <==> (forall threads: nat, events: seq<Event> ::
                               Allowed(slots, threads, events) ==> !Run(Init(slots, threads), events).sh.fault)
  {
    if slots == 1 {
      OneSlotFails();
      var events :| Run(Init(1, 3), events).sh.next == 1 && Run(Init(1, 3), events).sh.fault;
      assert Allowed(1, 3, events);
    } else {
      forall threads: nat, events: seq<Event> | Allowed(slots, threads, events)
        ensures !Run(Init(slots, threads), events).sh.fault
      {
        RunInv(slots, threads, events);
      }
    }
  }
}
