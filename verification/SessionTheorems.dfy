/** What the invariant of the session machine means: release once, exact references, handles that go
  * stale for good, sends that form a prefix, and packets whose references cover their holders.
  */
module SessionTheorems {

  import opened Common
  import opened Session
  import opened SessionInvariant
  import opened SessionSlots
  import opened SessionRuns

  /** No run reaches the `__debugbreak` of an underflowing session count, nor touches a pooled packet. */
  lemma NoFault(slots: nat, threads: nat, events: seq<Event>)
    requires Proper(slots, threads, events)
    ensures !Run(Init(slots, threads), events).sh.fault
  {
    RunInv(slots, threads, events);
  }

  /** `ioCount` is the number of references that callers, workers and pending I/O hold. */
  lemma RefsAreExact(slots: nat, threads: nat, events: seq<Event>, i: nat)
    requires Proper(slots, threads, events) && i < |Run(Init(slots, threads), events).sh.slots|
    ensures var s := Run(Init(slots, threads), events);
            IoCount(s.sh.slots[i].control) == SumAll(Of(Refs, i), s.threads) + s.sh.slots[i].recvPosted
                                              + s.sh.slots[i].sendPosted
  {
    RunInv(slots, threads, events);
    var s := Run(Init(slots, threads), events);
    assert SlotOk(s.sh.slots[i], i, Total(s.threads, i));
  }

  /** The thread about to drop a reference takes one from `ioCount` and leaves the flags alone. */
  lemma DropNeverBorrows(slots: nat, threads: nat, events: seq<Event>, e: Event, i: nat)
    requires Proper(slots, threads, events)
    requires var s := Run(Init(slots, threads), events);
             e.t < |s.threads| && s.threads[e.t] != [] && s.threads[e.t][0] == RelT(i, Drop)
    ensures var s := Run(Init(slots, threads), events);
            i < |s.sh.slots| && IoCount(s.sh.slots[i].control) >= 1 &&
            IoCount(Step(s, e).sh.slots[i].control) == IoCount(s.sh.slots[i].control) - 1 &&
            Flags(Step(s, e).sh.slots[i].control) == Flags(s.sh.slots[i].control)
  {
    RunInv(slots, threads, events);
    var s := Run(Init(slots, threads), events);
    assert ThreadOk(s.sh, e.t, s.threads[e.t]) && TaskOk(s.sh, s.threads[e.t][0]);
    TaskCounted(s, e.t, 0, i, Refs);
    assert SlotOk(s.sh.slots[i], i, Total(s.threads, i));
    ControlWord(s.sh.slots[i].control);
  }

  /** Of each life exactly one RELEASE completion is decided on, exactly when release has been requested
    * and no reference is left, and it is pending or queued until one cleanup starts, with no reference,
    * I/O or sender left and with one OnClientLeave.
    */
  lemma ReleasedOnce(slots: nat, threads: nat, events: seq<Event>, i: nat)
    requires Proper(slots, threads, events) && i < |Run(Init(slots, threads), events).sh.slots|
    ensures var s := Run(Init(slots, threads), events);
            var slot, n := s.sh.slots[i], Total(s.threads, i);
            && (slot.phase.Alive? ==>
                  && slot.leaves == 0
                  && slot.posts == One(Flags(slot.control) == RELEASE && IoCount(slot.control) == 0)
                  && slot.releasePosted + n(Rel) == slot.posts)
            && (slot.phase.Cleaning? ==>
                  && slot.posts == 1 && slot.releasePosted + n(Rel) == 0 && n(Cleanse) == 1
                  && n(Refs) == 0 && slot.recvPosted == 0 && slot.sendPosted == 0
                  && slot.leaves == One(!slot.phase.step.Leave?))
            && (slot.phase == Free && slot.life > 0 ==>
                  slot.posts == 1 && slot.leaves == 1 && n(Refs) == 0 && n(Cleanse) == 0 &&
                  slot.releasePosted + n(Rel) == 0)
  {
    RunInv(slots, threads, events);
    var s := Run(Init(slots, threads), events);
    assert SlotOk(s.sh.slots[i], i, Total(s.threads, i));
  }

  /** A live slot counts as a session, and one under cleaning until its count-down. */
  predicate ToBeCounted(phase: Phase) {
    phase.Alive? || (phase.Cleaning? && (phase.step.Leave? || phase.step.CountDown?))
  }

  /** Free-stack entries, live slots and slots that one thread is creating or cleaning partition the pool. */
  lemma SlotsArePartitioned(slots: nat, threads: nat, events: seq<Event>, i: nat)
    requires Proper(slots, threads, events) && i < slots
    ensures var s := Run(Init(slots, threads), events);
            |s.sh.slots| == slots &&
            multiset(s.sh.freeStack)[i] + One(s.sh.slots[i].phase.Alive?) + SumAll(Of(Creation, i), s.threads)
            + SumAll(Of(Cleanse, i), s.threads) == 1
    ensures var s := Run(Init(slots, threads), events);
            s.sh.sessionCount == SumSlots(CountedOne(), s.sh.slots) &&
            (s.sh.slots[i].counted <==> ToBeCounted(s.sh.slots[i].phase))
  {
    RunInv(slots, threads, events);
    RunSize(slots, threads, events);
    var s := Run(Init(slots, threads), events);
    assert SlotOk(s.sh.slots[i], i, Total(s.threads, i));
    CountOnce(s.sh.freeStack, i);
  }

  lemma {:induction false} RunSize(slots: nat, threads: nat, events: seq<Event>)
    ensures |Run(Init(slots, threads), events).sh.slots| == slots
    ensures |Run(Init(slots, threads), events).threads| == threads
    decreases |events|
  {
    if events != [] {
      RunSize(slots, threads, events[..|events| - 1]);
      StepNext(Run(Init(slots, threads), events[..|events| - 1]), events[|events| - 1]);
    }
  }

  // ---------------------------------------------------------------- handles

  /** A task that works on a session has checked its id: the slot is in use under a published id, and no
    * step of any thread changes that id, that life or that use before the reference is dropped.
    */
  lemma HandleIsPinned(slots: nat, threads: nat, events: seq<Event>, u: Tid, k: nat, e: Event)
    requires Proper(slots, threads, events + [e])
    requires var s := Run(Init(slots, threads), events); u < |s.threads| && k < |s.threads[u]| && Deep(s.threads[u][k])
    ensures var s := Run(Init(slots, threads), events); Pinned(s.sh, Step(s, e).sh, SlotOf(s.threads[u][k]))
  {
    var s := Run(Init(slots, threads), events);
    RunBoth(slots, threads, events, e);
    var i := SlotOf(s.threads[u][k]);
    DeepCounts(s, u, k);
    assert ThreadOk(s.sh, u, s.threads[u]) && TaskOk(s.sh, s.threads[u][k]);
    assert IdOk(s.sh, s.sh.slots[i]);
    StepSteady(s, e, i);
  }

  predicate Pinned(sh: Shared, sh': Shared, i: nat) {
    && i < |sh.slots| && i < |sh'.slots| && sh.slots[i].phase == Alive(true) && sh.slots[i].id in sh.published
    && sh'.slots[i].id == sh.slots[i].id && sh'.slots[i].life == sh.slots[i].life
    && sh'.slots[i].phase == Alive(true)
  }

  lemma RunBoth(slots: nat, threads: nat, events: seq<Event>, e: Event)
    requires Proper(slots, threads, events + [e])
    ensures Run(Init(slots, threads), events + [e]) == Step(Run(Init(slots, threads), events), e)
    ensures Inv(Run(Init(slots, threads), events)) && Inv(Step(Run(Init(slots, threads), events), e))
  {
    assert (events + [e])[..|events + [e]| - 1] == events;
    StepNext(Run(Init(slots, threads), events), e);
    RunInv(slots, threads, events);
    RunInv(slots, threads, events + [e]);
  }

  lemma StepSteady(s: State, e: Event, i: nat)
    requires Inv(s) && Step(s, e).sh.next <= UNIQUE_RANGE && i < |s.sh.slots|
    ensures |Step(s, e).sh.slots| == |s.sh.slots|
    ensures exists accepts, cleans :: Steady(s.sh.slots[i], Step(s, e).sh.slots[i], accepts, cleans)
  {
    StepNext(s, e);
    if e.t >= |s.threads| {
      assert Steady(s.sh.slots[i], s.sh.slots[i], false, false);
    } else if s.threads[e.t] == [] {
      BeginBooks(s, e.t, e.c);
      assert Steady(s.sh.slots[i], Step(s, e).sh.slots[i], Accepting(s.sh, e.t, e.c), false);
    } else {
      var task := s.threads[e.t][0];
      AllSlotsSteady(s, e.t, e.c);
      assert Steady(s.sh.slots[i], Step(s, e).sh.slots[i], task.AcceptT?, task.CleanT? && i == SlotOf(task));
    }
  }

  lemma CheckedIsLive(s: State, t: Tid, u: UseTask)
    requires Inv(s) && u.CheckId? && t < |s.threads| && s.threads[t] != [] && s.threads[t][0] == UseT(u)
    ensures u.i < |s.sh.slots|
    ensures s.sh.slots[u.i].id == u.sid ==> s.sh.slots[u.i].phase == Alive(true)
    ensures s.sh.slots[u.i].phase.Creating? ==> s.sh.slots[u.i].id != u.sid
  {
    assert ThreadOk(s.sh, t, s.threads[t]) && TaskOk(s.sh, s.threads[t][0]);
    assert HandleOk(s.sh, u.sid) && IdOk(s.sh, s.sh.slots[u.i]);
    assert SlotOk(s.sh.slots[u.i], u.i, Total(s.threads, u.i));
    TaskCounted(s, t, 0, u.i, Refs);
  }

  /** The id re-check after the reference is taken passes only for the session the handle names. */
  lemma CheckIdIsSound(slots: nat, threads: nat, events: seq<Event>, t: Tid, u: UseTask)
    requires Proper(slots, threads, events) && u.CheckId?
    requires var s := Run(Init(slots, threads), events);
             t < |s.threads| && s.threads[t] != [] && s.threads[t][0] == UseT(u)
    ensures var s := Run(Init(slots, threads), events);
            && u.i < |s.sh.slots|
            && (s.sh.slots[u.i].id == u.sid ==> s.sh.slots[u.i].phase == Alive(true))
            && (s.sh.slots[u.i].phase.Creating? ==> s.sh.slots[u.i].id != u.sid)
  {
    RunInv(slots, threads, events);
    CheckedIsLive(Run(Init(slots, threads), events), t, u);
  }

  /** Thread `t` holds a counted reference to slot `i`. */
  ghost predicate Uses(s: State, t: Tid, i: nat) { t < |s.threads| && Sum(Of(Refs, i), s.threads[t]) >= 1 }

  /** As long as a thread holds a reference to a live session, no step changes the session's id, life or use. */
  lemma UsePins(s: State, e: Event, t: Tid, i: nat)
    requires Inv(s) && Step(s, e).sh.next <= UNIQUE_RANGE && Live(s.sh, i) && Uses(s, t, i)
    ensures |Step(s, e).sh.slots| == |s.sh.slots| && Live(Step(s, e).sh, i)
    ensures Step(s, e).sh.slots[i].id == s.sh.slots[i].id && Step(s, e).sh.slots[i].life == s.sh.slots[i].life
  {
    SumAllSplit(Of(Refs, i), s.threads, t);
    assert SlotOk(s.sh.slots[i], i, Total(s.threads, i));
    StepSteady(s, e, i);
  }

  /** Thread `t` is about to re-check the id of handle `sid`, and the slot has that id. */
  predicate Passes(s: State, t: Tid, i: nat, sid: nat) {
    && t < |s.threads| && s.threads[t] != [] && s.threads[t][0].UseT? && s.threads[t][0].u.CheckId?
    && s.threads[t][0].u.i == i && s.threads[t][0].u.sid == sid
    && i < |s.sh.slots| && s.sh.slots[i].id == sid
  }

  /** Slot `i` is in use under id `sid`, in the life it had in the earlier state `s`. */
  predicate SameSession(s: State, s': State, i: nat, sid: nat) {
    i < |s.sh.slots| && Live(s'.sh, i) && s'.sh.slots[i].id == sid && s'.sh.slots[i].life == s.sh.slots[i].life
  }

  lemma PassedIsLive(slots: nat, threads: nat, events: seq<Event>, t: Tid, i: nat, sid: nat)
    requires Proper(slots, threads, events) && Passes(Run(Init(slots, threads), events), t, i, sid)
    ensures var s := Run(Init(slots, threads), events); SameSession(s, s, i, sid)
  {
    CheckIdIsSound(slots, threads, events, t, Run(Init(slots, threads), events).threads[t][0].u);
  }

  lemma ProperBefore(slots: nat, threads: nat, events: seq<Event>, e: Event)
    requires Proper(slots, threads, events + [e])
    ensures Proper(slots, threads, events)
  {
    RunBoth(slots, threads, events, e);
    StepNext(Run(Init(slots, threads), events), e);
  }

  lemma SessionNext(slots: nat, threads: nat, events: seq<Event>, e: Event, t: Tid, i: nat)
    requires Proper(slots, threads, events + [e])
    requires Live(Run(Init(slots, threads), events).sh, i) && Uses(Run(Init(slots, threads), events), t, i)
    ensures var s := Run(Init(slots, threads), events);
            SameSession(s, Run(Init(slots, threads), events + [e]), i, s.sh.slots[i].id)
  {
    RunBoth(slots, threads, events, e);
    UsePins(Run(Init(slots, threads), events), e, t, i);
  }

  /** Thread `t` holds a reference to slot `i` before each of the events `more`. */
  ghost predicate UsesDuring(slots: nat, threads: nat, events: seq<Event>, more: seq<Event>, t: Tid, i: nat) {
    forall k: nat :: k < |more| ==> Uses(Run(Init(slots, threads), events + more[..k]), t, i)
  }

  lemma UsesBefore(slots: nat, threads: nat, events: seq<Event>, more: seq<Event>, t: Tid, i: nat)
    requires UsesDuring(slots, threads, events, more, t, i) && more != []
    ensures var shorter := more[..|more| - 1];
            UsesDuring(slots, threads, events, shorter, t, i) && Uses(Run(Init(slots, threads), events + shorter), t, i)
  {
    var shorter := more[..|more| - 1];
    forall k: nat | k < |shorter| ensures Uses(Run(Init(slots, threads), events + shorter[..k]), t, i) {
      assert shorter[..k] == more[..k];
    }
  }

  lemma SameOn(s0: State, s: State, s': State, i: nat, sid: nat)
    requires SameSession(s0, s, i, sid) && SameSession(s, s', i, sid)
    ensures SameSession(s0, s', i, sid)
  {
  }

  lemma {:induction false} SessionLasts(slots: nat, threads: nat, events: seq<Event>, more: seq<Event>, s0: State,
                                       t: Tid, i: nat, sid: nat)
    requires Proper(slots, threads, events + more) && UsesDuring(slots, threads, events, more, t, i)
    requires SameSession(s0, Run(Init(slots, threads), events), i, sid)
    ensures SameSession(s0, Run(Init(slots, threads), events + more), i, sid)
    decreases |more|
  {
    if more == [] {
      assert events + more == events;
    } else {
      var e, shorter := more[|more| - 1], more[..|more| - 1];
      assert events + more == events + shorter + [e];
      UsesBefore(slots, threads, events, more, t, i);
      ProperBefore(slots, threads, events + shorter, e);
      SessionLasts(slots, threads, events, shorter, s0, t, i, sid);
      SessionNext(slots, threads, events + shorter, e, t, i);
      SameOn(s0, Run(Init(slots, threads), events + shorter), Run(Init(slots, threads), events + more), i, sid);
    }
  }

  lemma {:induction false} ProperPrefix(slots: nat, threads: nat, events: seq<Event>, more: seq<Event>)
    requires Proper(slots, threads, events + more)
    ensures Proper(slots, threads, events)
    decreases |more|
  {
    if more == [] {
      assert events + more == events;
    } else {
      var e, shorter := more[|more| - 1], more[..|more| - 1];
      assert events + more == events + shorter + [e];
      ProperBefore(slots, threads, events + shorter, e);
      ProperPrefix(slots, threads, events, shorter);
    }
  }

  /** From a passed re-check on, for as long as the thread keeps a reference to the slot, the slot is in use
    * under the very handle of the call, in the same life.
    */
  lemma HandleNamesSession(slots: nat, threads: nat, events: seq<Event>, more: seq<Event>, t: Tid, i: nat, sid: nat)
    requires Proper(slots, threads, events + more) && Passes(Run(Init(slots, threads), events), t, i, sid)
    requires UsesDuring(slots, threads, events, more, t, i)
    ensures SameSession(Run(Init(slots, threads), events), Run(Init(slots, threads), events + more), i, sid)
  {
    ProperPrefix(slots, threads, events, more);
    PassedIsLive(slots, threads, events, t, i, sid);
    SessionLasts(slots, threads, events, more, Run(Init(slots, threads), events), t, i, sid);
  }

  predicate Retired(sh: Shared, sid: nat) {
    sid in sh.published && sid / UNIQUE_RANGE < |sh.slots| && sh.slots[sid / UNIQUE_RANGE].id != sid
  }

  /** A handle whose slot has gone on to another id never becomes valid again. */
  lemma {:induction false} RetiredForGood(slots: nat, threads: nat, events: seq<Event>, more: seq<Event>, sid: nat)
    requires Proper(slots, threads, events + more)
    requires Retired(Run(Init(slots, threads), events).sh, sid)
    ensures Retired(Run(Init(slots, threads), events + more).sh, sid)
    decreases |more|
  {
    if more == [] {
      assert events + more == events;
    } else {
      var e := more[|more| - 1];
      var shorter := more[..|more| - 1];
      assert events + more == events + shorter + [e];
      RunBoth(slots, threads, events + shorter, e);
      StepNext(Run(Init(slots, threads), events + shorter), e);
      RetiredForGood(slots, threads, events, shorter, sid);
      StaysRetired(Run(Init(slots, threads), events + shorter), e, sid);
    }
  }

  lemma StaysRetired(s: State, e: Event, sid: nat)
    requires Inv(s) && Retired(s.sh, sid) && Step(s, e).sh.next <= UNIQUE_RANGE
    ensures Retired(Step(s, e).sh, sid)
  {
    var i := sid / UNIQUE_RANGE;
    StepNext(s, e);
    assert HandleOk(s.sh, sid) && IdOk(s.sh, s.sh.slots[i]);
    if e.t < |s.threads| {
      if s.threads[e.t] == [] {
        BeginAlike(s, e.t, e.c, i);
      } else {
        HeadOk(s, e.t, e.c);
        PublishedGrows(s.sh, s.threads[e.t][0], e.c);
        assert SlotOk(s.sh.slots[i], i, Total(s.threads, i));
        ExecId(s.sh, s.threads[e.t][0], e.c, i, Total(s.threads, i));
      }
    }
  }

  lemma BeginAlike(s: State, t: Tid, c: Choice, i: nat)
    requires Idle(s, t) && i < |s.sh.slots|
    ensures |Begin(s.sh, t, c).0.slots| == |s.sh.slots| && Begin(s.sh, t, c).0.slots[i].id == s.sh.slots[i].id
    ensures Begin(s.sh, t, c).0.published == s.sh.published
  {
    if Accepting(s.sh, t, c) {
      BeginOpened(s, t, c);
    } else {
      BeginCalm(s.sh, t, c);
      assert Alike(s.sh.slots[i], Begin(s.sh, t, c).0.slots[i]);
    }
  }

  lemma LoudId(sh: Shared, i: nat, a: AcceptOp, c: Choice)
    requires i < |sh.slots| && AcceptOk(sh.slots[i], a) && Loud(AcceptT(i, a))
    ensures ExecAccept(sh, i, a, c).0.slots[i].id == (if a.SetId? then a.id else sh.slots[i].id)
  {
  }

  lemma ExecId(sh: Shared, task: Task, c: Choice, i: nat, n: Tally)
    requires i < |sh.slots| == |Exec(sh, task, c).0.slots| && TaskOk(sh, task) && SlotOk(sh.slots[i], i, n)
    ensures var id := Exec(sh, task, c).0.slots[i].id;
            id == sh.slots[i].id || id == 0 || sh.slots[i].phase == Creating(SetId(id))
  {
    if !On(task, i) {
      SlotsOffTarget(sh, task, c, i);
    } else if !Loud(task) {
      ExecQuiet(sh, task, c, i, n);
    } else if task.AcceptT? {
      LoudId(sh, i, task.a, c);
    }
  }

  // ---------------------------------------------------------------- sends

  /** What the socket has accepted is a prefix of what callers put in the ring; what was given up comes
    * next and the rest still waits, in order; and at most one batch is on its way.
    */
  lemma SendsArePrefix(slots: nat, threads: nat, events: seq<Event>, i: nat)
    requires Proper(slots, threads, events) && i < |Run(Init(slots, threads), events).sh.slots|
    ensures var s := Run(Init(slots, threads), events);
            var slot, n := s.sh.slots[i], Total(s.threads, i);
            && slot.accepted <= slot.put
            && slot.put == slot.accepted + slot.dropped + (if slot.sent then [] else slot.batch) + slot.ring
            && n(Loaded) + n(Armed) + slot.sendPosted <= 1
            && (slot.sent ==> slot.sendPosted == 1)
  {
    RunInv(slots, threads, events);
    var s := Run(Init(slots, threads), events);
    var slot := s.sh.slots[i];
    assert SlotOk(slot, i, Total(s.threads, i));
    PrefixOf(slot, i, Total(s.threads, i));
  }

  lemma PrefixOf(slot: Slot, i: nat, n: Tally)
    requires SlotOk(slot, i, n)
    ensures slot.accepted <= slot.put
    ensures slot.put == slot.accepted + slot.dropped + (if slot.sent then [] else slot.batch) + slot.ring
    ensures n(Loaded) + n(Armed) + slot.sendPosted <= 1
  {
    PrefixLaw(slot.put, slot.accepted, slot.dropped, if slot.sent then [] else slot.batch, slot.ring);
  }

  lemma PrefixLaw(all: seq<Pkt>, a: seq<Pkt>, b: seq<Pkt>, c: seq<Pkt>, d: seq<Pkt>)
    requires all == a + b + (c + d)
    ensures a <= all && all == a + b + c + d
  {
  }

  /** A batch was refused or given up, or a send completion failed, or the session is over. */
  predicate Ended(slot: Slot) { slot.dropped != [] || slot.stuck || Flags(slot.control) == 3 }

  /** Within one life `put` and `accepted` only grow at the end, and `accepted` no more once sending ended. */
  predicate Grows(slot: Slot, slot': Slot) {
    && slot.put <= slot'.put && slot.accepted <= slot'.accepted
    && (Ended(slot) ==> Ended(slot') && slot'.accepted == slot.accepted)
  }

  lemma SendGrows(slot: Slot, i: nat, s: SendOp, c: Choice, n: Tally)
    requires SlotOk(slot, i, n) && Counting(n, i, SendT(i, s)) && slot.phase == Alive(true)
    ensures Grows(slot, ExecSend(slot, i, s, c).0)
  {
    CountingMeans(n, i, SendT(i, s));
    ControlWord(slot.control);
  }

  lemma RelGrows(slot: Slot, i: nat, l: RelOp, c: Choice, n: Tally)
    requires SlotOk(slot, i, n) && Counting(n, i, RelT(i, l))
    ensures Grows(slot, ExecRel(slot, i, l, c).0)
  {
    CountingMeans(n, i, RelT(i, l));
    ControlWord(slot.control);
  }

  lemma UseGrows(sh: Shared, u: UseTask, i: nat, c: Choice, n: Tally)
    requires i < |sh.slots| && SlotOk(sh.slots[i], i, n) && n(Refs) <= FEW
    ensures Grows(sh.slots[i], ExecUse(sh, u, c).0.slots[i])
  {
    ControlWord(sh.slots[i].control);
  }

  lemma RecvGrows(slot: Slot, i: nat, r: RecvOp, c: Choice, n: Tally)
    requires SlotOk(slot, i, n) && n(Refs) <= FEW
    ensures Grows(slot, ExecRecv(slot, i, r, c).0)
  {
    ControlWord(slot.control);
  }

  lemma CleanGrows(sh: Shared, i: nat, sid: nat, op: CleanOp, n: Tally)
    requires i < |sh.slots| && SlotOk(sh.slots[i], i, n) && CleanOk(sh.slots[i], i, sid, op)
    ensures Grows(sh.slots[i], ExecClean(sh, i, sid, op).0.slots[i])
  {
  }

  lemma AcceptGrows(sh: Shared, i: nat, a: AcceptOp, c: Choice, n: Tally)
    requires i < |sh.slots| && SlotOk(sh.slots[i], i, n) && n(Refs) <= FEW && AcceptOk(sh.slots[i], a)
    requires ExecAccept(sh, i, a, c).0.slots[i].life == sh.slots[i].life
    ensures Grows(sh.slots[i], ExecAccept(sh, i, a, c).0.slots[i])
  {
    ControlWord(sh.slots[i].control);
  }

  lemma ExecGrows(sh: Shared, task: Task, c: Choice, i: nat, n: Tally)
    requires i < |sh.slots| == |Exec(sh, task, c).0.slots|
    requires SlotOk(sh.slots[i], i, n) && (On(task, i) ==> Counting(n, i, task)) && TaskOk(sh, task)
    requires Exec(sh, task, c).0.slots[i].life == sh.slots[i].life
    ensures Grows(sh.slots[i], Exec(sh, task, c).0.slots[i])
  {
    if On(task, i) {
      match task
      case UseT(u) => UseGrows(sh, u, i, c, n);
      case SendT(_, o) => SendGrows(sh.slots[i], i, o, c, n);
      case RecvT(_, r) => RecvGrows(sh.slots[i], i, r, c, n);
      case RelT(_, l) => RelGrows(sh.slots[i], i, l, c, n);
      case CleanT(_, sid, op) => CleanGrows(sh, i, sid, op, n);
      case AcceptT(_, a) => AcceptGrows(sh, i, a, c, n);
      case SubRef(_) => assert false;
    } else {
      SlotsOffTarget(sh, task, c, i);
    }
  }

  /** A failed or refused send ends sending: the socket accepts nothing more of that life. */
  lemma SendingEnds(slots: nat, threads: nat, events: seq<Event>, e: Event, i: nat)
    requires Proper(slots, threads, events + [e]) && i < slots
    ensures var s := Run(Init(slots, threads), events);
            i < |s.sh.slots| == |Step(s, e).sh.slots| &&
            (Step(s, e).sh.slots[i].life == s.sh.slots[i].life ==> Grows(s.sh.slots[i], Step(s, e).sh.slots[i]))
  {
    var s := Run(Init(slots, threads), events);
    RunBoth(slots, threads, events, e);
    RunSize(slots, threads, events);
    StepNext(s, e);
    if e.t < |s.threads| && Step(s, e).sh.slots[i].life == s.sh.slots[i].life {
      if s.threads[e.t] == [] {
        BeginGrows(s.sh, e.t, e.c, i);
      } else {
        HeadOk(s, e.t, e.c);
        assert SlotOk(s.sh.slots[i], i, Total(s.threads, i));
        if On(s.threads[e.t][0], i) { HeadCounting(s, e.t, i); }
        ExecGrows(s.sh, s.threads[e.t][0], e.c, i, Total(s.threads, i));
      }
    }
  }

  lemma BeginGrows(sh: Shared, t: Tid, c: Choice, i: nat)
    requires i < |sh.slots| == |Begin(sh, t, c).0.slots|
    ensures Grows(sh.slots[i], Begin(sh, t, c).0.slots[i])
  {
    if Takes(sh, t, c, i) {
      TakeGrows(sh.slots[i], i, c.ok);
    } else {
      BeginElsewhere(sh, t, c, i);
    }
  }

  lemma TakeGrows(slot: Slot, i: nat, ok: bool)
    ensures Grows(slot, TakeRecvFrom(slot, i, ok).0) && Grows(slot, TakeSendFrom(slot, i, ok).0)
    ensures Grows(slot, TakeReleaseFrom(slot, i).0)
  {
  }

  // ---------------------------------------------------------------- packets

  /** A packet's count is its places in send rings and batches, plus the callers and tasks that will give
    * a reference back, plus exactly the references that failed send completions lost.
    */
  lemma PacketsAreCovered(slots: nat, threads: nat, events: seq<Event>, p: Pkt)
    requires Proper(slots, threads, events)
    ensures var s := Run(Init(slots, threads), events);
            s.sh.refCnt[p] == SumSlots(Stores(p), s.sh.slots) + SumAll(Keeps(p), s.threads) + s.sh.leaked[p]
  {
    RunInv(slots, threads, events);
    assert PacketOk(Run(Init(slots, threads), events), p);
  }

  lemma LeakedGrows(s: State, e: Event, p: Pkt)
    ensures Step(s, e).sh.leaked[p] >= s.sh.leaked[p]
  {
    if e.t < |s.threads| && s.threads[e.t] != [] { ExecLeaks(s.sh, s.threads[e.t][0], e.c); }
  }

  lemma ExecLeaks(sh: Shared, task: Task, c: Choice)
    ensures Exec(sh, task, c).0.leaked == sh.leaked
  {
  }

  lemma LeakedNext(slots: nat, threads: nat, events: seq<Event>, e: Event, p: Pkt)
    ensures Run(Init(slots, threads), events + [e]).sh.leaked[p] >= Run(Init(slots, threads), events).sh.leaked[p]
  {
    assert (events + [e])[..|events + [e]| - 1] == events;
    LeakedGrows(Run(Init(slots, threads), events), e, p);
  }

  lemma {:induction false} LeakedStays(slots: nat, threads: nat, events: seq<Event>, more: seq<Event>, p: Pkt)
    ensures Run(Init(slots, threads), events + more).sh.leaked[p] >= Run(Init(slots, threads), events).sh.leaked[p]
    decreases |more|
  {
    if more == [] {
      assert events + more == events;
    } else {
      var e, shorter := more[|more| - 1], more[..|more| - 1];
      assert events + more == events + shorter + [e];
      LeakedStays(slots, threads, events, shorter, p);
      LeakedNext(slots, threads, events + shorter, e, p);
    }
  }

  /** The step handles the send completion of slot `i` as a failed one. */
  predicate FailsSend(s: State, e: Event, i: nat) {
    && 0 < e.t < |s.threads| && s.threads[e.t] == [] && e.c.op == TakeSend(i) && !e.c.ok
    && i < |s.sh.slots| && s.sh.slots[i].sendPosted > 0
  }

  lemma FailLeaks(slots: nat, threads: nat, events: seq<Event>, e: Event, i: nat, p: Pkt)
    requires var s := Run(Init(slots, threads), events); FailsSend(s, e, i) && p in s.sh.slots[i].batch
    ensures Run(Init(slots, threads), events + [e]).sh.leaked[p] >= 1
  {
    var s := Run(Init(slots, threads), events);
    assert (events + [e])[..|events + [e]| - 1] == events;
    assert multiset(s.sh.slots[i].batch)[p] >= 1;
  }

  /** A packet in a batch whose completion fails never goes back to the pool, whatever happens afterwards. */
  lemma LostForGood(slots: nat, threads: nat, events: seq<Event>, e: Event, i: nat, more: seq<Event>, p: Pkt)
    requires Proper(slots, threads, events + [e] + more)
    requires var s := Run(Init(slots, threads), events); FailsSend(s, e, i) && p in s.sh.slots[i].batch
    ensures p in Run(Init(slots, threads), events + [e] + more).sh.refCnt
  {
    FailLeaks(slots, threads, events, e, i, p);
    LeakedStays(slots, threads, events + [e], more, p);
    PacketsAreCovered(slots, threads, events + [e] + more, p);
  }

  /** A packet back in the pool is in no send ring and no batch. */
  lemma PooledPacketIsUnsent(slots: nat, threads: nat, events: seq<Event>, p: Pkt, i: nat)
    requires Proper(slots, threads, events) && p !in Run(Init(slots, threads), events).sh.refCnt
    requires i < |Run(Init(slots, threads), events).sh.slots|
    ensures var slot := Run(Init(slots, threads), events).sh.slots[i]; p !in slot.ring && p !in slot.batch
  {
    PacketsAreCovered(slots, threads, events, p);
    SumSlotsHas(Stores(p), Run(Init(slots, threads), events).sh.slots, i);
  }

  /** Nobody is about to use a packet that is back in the pool, or to give it back once more. */
  lemma PooledPacketIsUnused(slots: nat, threads: nat, events: seq<Event>, p: Pkt, t: Tid, k: nat)
    requires Proper(slots, threads, events) && p !in Run(Init(slots, threads), events).sh.refCnt
    requires var s := Run(Init(slots, threads), events); t < |s.threads| && k < |s.threads[t]|
    ensures var task := Run(Init(slots, threads), events).threads[t][k]; task != SubRef(p) && !Borrows(task, p)
  {
    var s := Run(Init(slots, threads), events);
    RunInv(slots, threads, events);
    assert PacketOk(s, p) && ThreadOk(s.sh, t, s.threads[t]);
    forall j: nat | j < |s.threads[t]| ensures s.threads[t][j] != SubRef(p) {
      if s.threads[t][j] == SubRef(p) { OwedIsOut(s, t, j, p); }
    }
    if Borrows(s.threads[t][k], p) { BorrowerOwes(s.threads[t], k, p); }
  }

  lemma {:induction false} BorrowerOwes(todo: seq<Task>, k: nat, p: Pkt)
    requires Shaped(todo) && k < |todo| && Borrows(todo[k], p)
    ensures Owed(todo, p)
  {
    if k > 0 {
      BorrowerOwes(todo[1..], k - 1, p);
      assert SubRef(p) in todo[1..];
    } else {
      assert Owed(todo[1..], p);
    }
  }
}
