/** The invariant of the session machine and its preservation by every step of every thread. */
module SessionRuns {

  import opened Common
  import opened Session
  import opened SessionInvariant
  import opened SessionSlots

  // ---------------------------------------------------------------- the invariant

  ghost predicate IdOk(sh: Shared, slot: Slot) {
    && (slot.id != 0 ==> slot.id in sh.issued)
    && (slot.id != 0 && slot.phase != Alive(true) && !slot.phase.Cleaning? ==> slot.id !in sh.published)
    && (slot.phase == Alive(true) ==> slot.id in sh.published)
    && (slot.phase.Alive? || slot.phase.Cleaning? ==> sh.next > 0)
    && (slot.phase.Creating? && slot.phase.op.SetId? ==>
          slot.phase.op.id in sh.issued && slot.phase.op.id !in sh.published)
  }

  predicate HandleOk(sh: Shared, sid: nat) {
    sid in sh.issued && sid != 0 && sid / UNIQUE_RANGE < |sh.slots| && sh.slots[sid / UNIQUE_RANGE].life >= 1
  }

  ghost predicate IdsOk(sh: Shared) {
    && sh.next <= UNIQUE_RANGE && |sh.issued| == sh.next
    && (forall sid :: sid in sh.issued ==> sid % UNIQUE_RANGE < sh.next)
    && (forall sid :: sid in sh.published ==> HandleOk(sh, sid))
    && (forall i: nat :: i < |sh.slots| ==> IdOk(sh, sh.slots[i]))
  }

  ghost predicate StackOk(sh: Shared) {
    && (forall a: nat, b: nat :: a < b < |sh.freeStack| ==> sh.freeStack[a] != sh.freeStack[b])
    && (forall a: nat :: a < |sh.freeStack| ==> sh.freeStack[a] < |sh.slots|)
    && (forall i: nat :: i < |sh.slots| ==> (i in sh.freeStack <==> sh.slots[i].phase == Free))
  }

  function SumSlots(g: Slot -> nat, slots: seq<Slot>): nat {
    if slots == [] then 0 else g(slots[0]) + SumSlots(g, slots[1..])
  }

  function CountedOne(): Slot -> nat { (slot: Slot) => One(slot.counted) }

  /** How often a slot's send ring and batch hold packet `p`. */
  function Stores(p: Pkt): Slot -> nat { (slot: Slot) => multiset(slot.ring)[p] + multiset(slot.batch)[p] }

  /** The references to packet `p` that a pending task will give back. */
  function Keeps(p: Pkt): Task -> nat {
    (task: Task) => One(task == SubRef(p) || (task.UseT? && task.u.Put? && task.u.p == p))
  }

  ghost predicate PacketOk(s: State, p: Pkt) {
    s.sh.refCnt[p] == SumSlots(Stores(p), s.sh.slots) + SumAll(Keeps(p), s.threads) + s.sh.leaked[p]
  }

  ghost predicate ThreadOk(sh: Shared, t: Tid, todo: seq<Task>) {
    && Shaped(todo)
    && (forall k: nat :: k < |todo| ==> TaskOk(sh, todo[k]))
    && (forall k: nat :: k < |todo| && todo[k].AcceptT? ==> t == 0 && |todo| == 1)
  }

  /** The very first session does not take slot 0, whose first id would be 0. */
  predicate FirstOk(s: State) {
    s.sh.next == 0 && |s.threads| > 0 ==>
      if s.threads[0] == [] then s.sh.freeStack == [] || s.sh.freeStack[0] > 0
      else s.threads[0][0].AcceptT? && s.threads[0][0].i > 0 && CreateOp(s.threads[0][0].a)
  }

  ghost predicate SlotsOk(s: State) {
    forall i: nat :: i < |s.sh.slots| ==> SlotOk(s.sh.slots[i], i, Total(s.threads, i))
  }

  ghost predicate ThreadsOk(s: State) {
    forall t: Tid :: t < |s.threads| ==> ThreadOk(s.sh, t, s.threads[t])
  }

  ghost predicate PacketsOk(s: State) { forall p: Pkt :: PacketOk(s, p) }

  predicate SizesOk(s: State) {
    |s.sh.slots| != 1 && |s.sh.slots| <= 0x1_0000 && |s.threads| <= 0x2000_0000
  }

  ghost predicate Inv(s: State) {
    && SizesOk(s) && !s.sh.fault
    && IdsOk(s.sh) && StackOk(s.sh) && s.sh.sessionCount == SumSlots(CountedOne(), s.sh.slots)
    && SlotsOk(s) && ThreadsOk(s) && PacketsOk(s) && FirstOk(s)
  }

  // ---------------------------------------------------------------- sums

  lemma {:induction false} SumSlotsUpdate(g: Slot -> nat, slots: seq<Slot>, i: nat, x: Slot)
    requires i < |slots|
    ensures SumSlots(g, slots[i := x]) + g(slots[i]) == SumSlots(g, slots) + g(x)
  {
    if i == 0 {
      assert slots[0 := x][1..] == slots[1..];
    } else {
      SumSlotsUpdate(g, slots[1..], i - 1, x);
      assert slots[i := x][1..] == slots[1..][i - 1 := x];
    }
  }

  lemma {:induction false} SumSlotsHas(g: Slot -> nat, slots: seq<Slot>, i: nat)
    requires i < |slots|
    ensures g(slots[i]) <= SumSlots(g, slots)
  {
    if i > 0 { SumSlotsHas(g, slots[1..], i - 1); }
  }

  lemma SumAllUpdate(f: Task -> nat, threads: seq<seq<Task>>, t: Tid, todo: seq<Task>)
    requires t < |threads|
    ensures SumAll(f, threads[t := todo]) + Sum(f, threads[t]) == SumAll(f, threads) + Sum(f, todo)
  {
    SumAllSplit(f, threads, t);
    SumAllSplit(f, threads[t := todo], t);
    assert threads[t := todo][t := []] == threads[t := []];
  }

  lemma HeadTrade(threads: seq<seq<Task>>, t: Tid, more: seq<Task>, i: nat)
    requires t < |threads| && threads[t] != []
    ensures Traded(Total(threads, i), Total(threads[t := more + threads[t][1..]], i), i, threads[t][0], more)
  {
    forall h: Hold
      ensures Total(threads[t := more + threads[t][1..]], i)(h) + Of(h, i)(threads[t][0])
           == Total(threads, i)(h) + Sum(Of(h, i), more)
    {
      SumAllUpdate(Of(h, i), threads, t, more + threads[t][1..]);
      SumAppend(Of(h, i), more, threads[t][1..]);
    }
  }

  /** An idle thread's work appears from nothing: the same trade, for a task that holds nothing. */
  lemma IdleTrade(threads: seq<seq<Task>>, t: Tid, more: seq<Task>, i: nat)
    requires t < |threads| && threads[t] == []
    ensures Traded(Total(threads, i), Total(threads[t := more], i), i, SubRef(0), more)
  {
    forall h: Hold
      ensures Total(threads[t := more], i)(h) + Of(h, i)(SubRef(0)) == Total(threads, i)(h) + Sum(Of(h, i), more)
    {
      SumAllUpdate(Of(h, i), threads, t, more);
    }
  }

  predicate Weightless(more: seq<Task>, i: nat) {
    forall k: nat, h: Hold :: k < |more| ==> Of(h, i)(more[k]) == 0
  }

  lemma WeightlessTrade(n: Tally, n': Tally, i: nat, task: Task, more: seq<Task>)
    requires Traded(n, n', i, task, more) && (forall h: Hold :: Of(h, i)(task) == 0) && Weightless(more, i)
    ensures Unchanged(n, n')
  {
    forall h: Hold ensures n'(h) == n(h) {
      SumZero(Of(h, i), more);
    }
  }

  // ---------------------------------------------------------------- bounds from the threads

  lemma {:induction false} RefsWithinPeaks(todo: seq<Task>, i: nat)
    ensures Sum(Of(Refs, i), todo) <= Peaks(todo)
  {
    if todo != [] { RefsWithinPeaks(todo[1..], i); }
  }

  lemma {:induction false} RefsBounded(threads: seq<seq<Task>>, i: nat)
    requires forall t: Tid :: t < |threads| ==> Shaped(threads[t])
    ensures SumAll(Of(Refs, i), threads) <= 2 * |threads|
  {
    if threads != [] {
      assert Shaped(threads[0]);
      RefsWithinPeaks(threads[0], i);
      RefsBounded(threads[1..], i);
    }
  }

  lemma {:induction false} SendersCount(todo: seq<Task>, i: nat)
    ensures Sum(Of(Busy, i), todo) + Sum(Of(Refused, i), todo) + Sum(Of(Loaded, i), todo) + Sum(Of(Armed, i), todo)
         <= Sum(Of(Refs, i), todo)
  {
    if todo != [] { SendersCount(todo[1..], i); }
  }

  lemma {:induction false} AllSendersCount(threads: seq<seq<Task>>, i: nat)
    ensures SumAll(Of(Busy, i), threads) + SumAll(Of(Refused, i), threads)
          + SumAll(Of(Loaded, i), threads) + SumAll(Of(Armed, i), threads) <= SumAll(Of(Refs, i), threads)
  {
    if threads != [] {
      SendersCount(threads[0], i);
      AllSendersCount(threads[1..], i);
    }
  }

  lemma TaskCounted(s: State, t: Tid, k: nat, i: nat, h: Hold)
    requires t < |s.threads| && k < |s.threads[t]|
    ensures Of(h, i)(s.threads[t][k]) <= Total(s.threads, i)(h)
  {
    TaskWithin(Of(h, i), s.threads[t], k);
    SumAllSplit(Of(h, i), s.threads, t);
  }

  lemma HeadCounting(s: State, t: Tid, i: nat)
    requires Inv(s) && t < |s.threads| && s.threads[t] != [] && On(s.threads[t][0], i)
    ensures Counting(Total(s.threads, i), i, s.threads[t][0])
  {
    forall h: Hold ensures Of(h, i)(s.threads[t][0]) <= Total(s.threads, i)(h) { TaskCounted(s, t, 0, i, h); }
    forall t: Tid | t < |s.threads| ensures Shaped(s.threads[t]) { assert ThreadOk(s.sh, t, s.threads[t]); }
    RefsBounded(s.threads, i);
    AllSendersCount(s.threads, i);
  }

  // ---------------------------------------------------------------- slots after a step

  lemma PlainWeightless(more: seq<Task>, i: nat)
    requires forall k: nat :: k < |more| ==> !On(more[k], i) || PreRef(more[k])
    ensures Weightless(more, i)
  {
  }

  /** A task leaves every slot but its own alone. */
  lemma OffTarget(sh: Shared, task: Task, c: Choice, i: nat)
    requires i < |sh.slots| && !On(task, i)
    ensures |Exec(sh, task, c).0.slots| == |sh.slots| && Exec(sh, task, c).0.slots[i] == sh.slots[i]
    ensures Weightless(Exec(sh, task, c).1, i)
  {
    var more := Exec(sh, task, c).1;
    forall k: nat | k < |more| ensures !On(more[k], i) || PreRef(more[k]) {
      MoreOnTarget(sh, task, c, i, k);
    }
    PlainWeightless(more, i);
    SlotsOffTarget(sh, task, c, i);
  }

  lemma UseFrame(sh: Shared, u: UseTask, c: Choice)
    ensures |ExecUse(sh, u, c).0.slots| == |sh.slots|
    ensures forall i: nat :: i < |sh.slots| && !On(UseT(u), i) ==> ExecUse(sh, u, c).0.slots[i] == sh.slots[i]
  {
  }

  lemma CleanFrame(sh: Shared, k: nat, sid: nat, op: CleanOp)
    requires k < |sh.slots|
    ensures |ExecClean(sh, k, sid, op).0.slots| == |sh.slots|
    ensures forall i: nat :: i < |sh.slots| && i != k ==> ExecClean(sh, k, sid, op).0.slots[i] == sh.slots[i]
  {
  }

  lemma AcceptFrame(sh: Shared, k: nat, a: AcceptOp, c: Choice)
    requires k < |sh.slots|
    ensures |ExecAccept(sh, k, a, c).0.slots| == |sh.slots|
    ensures forall i: nat :: i < |sh.slots| && i != k ==> ExecAccept(sh, k, a, c).0.slots[i] == sh.slots[i]
  {
    if CreateOp(a) { CreateFrame(sh, k, a); }
  }

  lemma CreateFrame(sh: Shared, k: nat, a: AcceptOp)
    requires k < |sh.slots|
    ensures |ExecCreate(sh, k, a).0.slots| == |sh.slots|
    ensures forall i: nat :: i < |sh.slots| && i != k ==> ExecCreate(sh, k, a).0.slots[i] == sh.slots[i]
  {
  }

  lemma SlotsOffTarget(sh: Shared, task: Task, c: Choice, i: nat)
    requires i < |sh.slots| && !On(task, i)
    ensures |Exec(sh, task, c).0.slots| == |sh.slots| && Exec(sh, task, c).0.slots[i] == sh.slots[i]
  {
    match task
    case UseT(u) => UseFrame(sh, u, c);
    case CleanT(k, sid, op) => if k < |sh.slots| { CleanFrame(sh, k, sid, op); }
    case AcceptT(k, a) => if k < |sh.slots| { AcceptFrame(sh, k, a, c); }
    case _ =>
  }

  lemma MoreOnTarget(sh: Shared, task: Task, c: Choice, i: nat, k: nat)
    requires !On(task, i) && k < |Exec(sh, task, c).1|
    ensures !On(Exec(sh, task, c).1[k], i) || PreRef(Exec(sh, task, c).1[k])
  {
    match task
    case UseT(u) => UseMoreOn(sh, u, c, i, k);
    case AcceptT(j, a) => AcceptMoreOn(sh, j, a, c, i, k);
    case _ =>
  }

  lemma UseMoreOn(sh: Shared, u: UseTask, c: Choice, i: nat, k: nat)
    requires !On(UseT(u), i) && k < |ExecUse(sh, u, c).1|
    ensures !On(ExecUse(sh, u, c).1[k], i) || PreRef(ExecUse(sh, u, c).1[k])
  {
  }

  lemma AcceptMoreOn(sh: Shared, j: nat, a: AcceptOp, c: Choice, i: nat, k: nat)
    requires j < |sh.slots| && i != j && k < |ExecAccept(sh, j, a, c).1|
    ensures !On(ExecAccept(sh, j, a, c).1[k], i)
  {
  }

  lemma SlotCount(sh: Shared, task: Task, c: Choice)
    ensures |Exec(sh, task, c).0.slots| == |sh.slots|
  {
    match task
    case UseT(u) => UseFrame(sh, u, c);
    case CleanT(k, sid, op) => if k < |sh.slots| { CleanFrame(sh, k, sid, op); }
    case AcceptT(k, a) => if k < |sh.slots| { AcceptFrame(sh, k, a, c); }
    case _ =>
  }

  lemma ExecSlotOk(sh: Shared, task: Task, c: Choice, i: nat, n: Tally, n': Tally)
    requires i < |sh.slots| == |Exec(sh, task, c).0.slots|
    requires On(task, i) && SlotOk(sh.slots[i], i, n) && Counting(n, i, task) && TaskOk(sh, task)
    requires task.UseT? && task.u.Acquire? ==> sh.slots[i].life >= 1
    requires task.AcceptT? && task.a.TakeId? ==>
               i < 0x1_0000 && sh.next < UNIQUE_RANGE && (i > 0 || sh.next > 0)
    requires Traded(n, n', i, task, Exec(sh, task, c).1)
    ensures SlotOk(Exec(sh, task, c).0.slots[i], i, n')
  {
    match task
    case UseT(u) => UseStep(sh, u, i, c, n, n');
    case SendT(_, o) => SendStep(sh.slots[i], i, o, c, n, n');
    case RecvT(_, r) => RecvStep(sh.slots[i], i, r, c, n, n');
    case RelT(_, l) => RelStep(sh.slots[i], i, l, c, n, n');
    case CleanT(_, sid, op) => CleanStep(sh, i, sid, op, n, n');
    case AcceptT(_, a) => if CreateOp(a) { CreateStep(sh, i, a, n, n'); } else { OpenStep(sh, i, a, c, n, n'); }
    case SubRef(_) => assert false;
  }

  function After(s: State, t: Tid, c: Choice): State
    requires t < |s.threads| && s.threads[t] != []
  {
    var (sh, more) := Exec(s.sh, s.threads[t][0], c);
    State(sh, s.threads[t := more + s.threads[t][1..]])
  }

  ghost predicate Stepping(s: State, t: Tid, c: Choice) {
    && Inv(s) && t < |s.threads| && s.threads[t] != [] && After(s, t, c).sh.next <= UNIQUE_RANGE
  }

  lemma HeadOk(s: State, t: Tid, c: Choice)
    requires Stepping(s, t, c)
    ensures ThreadOk(s.sh, t, s.threads[t]) && TaskOk(s.sh, s.threads[t][0])
    ensures s.threads[t][0].AcceptT? && s.threads[t][0].a.TakeId? ==>
              s.sh.next < UNIQUE_RANGE && (s.threads[t][0].i > 0 || s.sh.next > 0)
  {
    assert ThreadOk(s.sh, t, s.threads[t]);
  }

  lemma AcquireOk(s: State, t: Tid)
    requires Inv(s) && t < |s.threads| && s.threads[t] != []
    requires s.threads[t][0].UseT? && s.threads[t][0].u.Acquire?
    ensures s.threads[t][0].u.i < |s.sh.slots| && s.sh.slots[s.threads[t][0].u.i].life >= 1
  {
    assert ThreadOk(s.sh, t, s.threads[t]) && TaskOk(s.sh, s.threads[t][0]);
    assert HandleOk(s.sh, s.threads[t][0].u.sid);
  }

  lemma ExecSlots(s: State, t: Tid, c: Choice)
    requires Stepping(s, t, c)
    ensures SlotsOk(After(s, t, c))
  {
    var task, more := s.threads[t][0], Exec(s.sh, s.threads[t][0], c).1;
    var s' := After(s, t, c);
    HeadOk(s, t, c);
    if task.UseT? && task.u.Acquire? { AcquireOk(s, t); }
    SlotCount(s.sh, task, c);
    forall i: nat | i < |s'.sh.slots| ensures SlotOk(s'.sh.slots[i], i, Total(s'.threads, i)) {
      HeadTrade(s.threads, t, more, i);
      assert SlotOk(s.sh.slots[i], i, Total(s.threads, i));
      if On(task, i) {
        HeadCounting(s, t, i);
        ExecSlotOk(s.sh, task, c, i, Total(s.threads, i), Total(s'.threads, i));
      } else {
        OffTarget(s.sh, task, c, i);
        WeightlessTrade(Total(s.threads, i), Total(s'.threads, i), i, task, more);
        SameKept(s.sh.slots[i], i, Total(s.threads, i), Total(s'.threads, i));
      }
    }
  }

  // ---------------------------------------------------------------- what the other tasks rely on

  /** What a step that neither creates (`accepts`) nor cleans the slot lets the others rely on. */
  ghost predicate Steady(slot: Slot, slot': Slot, accepts: bool, cleans: bool) {
    && (slot.phase == Alive(true) && IoCount(slot.control) >= 1 ==>
          slot'.phase == Alive(true) && slot'.id == slot.id && slot'.life == slot.life)
    && (slot.phase.Cleaning? && !cleans ==> slot'.phase == slot.phase && slot'.id == slot.id)
    && (slot.phase.Creating? && !accepts ==> slot'.phase == slot.phase)
    && (slot.phase == Alive(false) && Flags(slot.control) == 0 && !accepts ==>
          slot'.phase == slot.phase && Flags(slot'.control) == 0)
    && ((slot.phase == Alive(true) || Over(slot)) && !accepts ==> slot'.phase == Alive(true) || Over(slot'))
    && slot'.life >= slot.life
  }

  lemma RelSteady(slot: Slot, i: nat, l: RelOp, c: Choice, n: Tally)
    requires SlotOk(slot, i, n) && Counting(n, i, RelT(i, l)) && (l.Request? ==> slot.phase == Alive(true))
    ensures Steady(slot, ExecRel(slot, i, l, c).0, false, false)
  {
    CountingMeans(n, i, RelT(i, l));
    ControlWord(slot.control);
  }

  lemma SendSteady(slot: Slot, i: nat, s: SendOp, c: Choice, n: Tally)
    requires SlotOk(slot, i, n) && Counting(n, i, SendT(i, s)) && slot.phase == Alive(true)
    ensures Steady(slot, ExecSend(slot, i, s, c).0, false, false)
  {
    CountingMeans(n, i, SendT(i, s));
    ControlWord(slot.control);
  }

  lemma RecvSteady(slot: Slot, i: nat, r: RecvOp, c: Choice, n: Tally)
    requires SlotOk(slot, i, n) && Counting(n, i, RecvT(i, r)) && slot.phase == Alive(true)
    ensures Steady(slot, ExecRecv(slot, i, r, c).0, false, false)
  {
    CountingMeans(n, i, RecvT(i, r));
    ControlWord(slot.control);
  }

  lemma UseSteady(sh: Shared, u: UseTask, i: nat, c: Choice, n: Tally)
    requires i < |sh.slots| && SlotOk(sh.slots[i], i, n) && UseOk(sh, u) && n(Refs) <= FEW
    ensures Steady(sh.slots[i], ExecUse(sh, u, c).0.slots[i], false, false)
  {
    ControlWord(sh.slots[i].control);
  }

  lemma CleanSteady(sh: Shared, i: nat, sid: nat, op: CleanOp, n: Tally)
    requires i < |sh.slots| && SlotOk(sh.slots[i], i, n) && CleanOk(sh.slots[i], i, sid, op)
    ensures Steady(sh.slots[i], ExecClean(sh, i, sid, op).0.slots[i], false, true)
  {
  }

  lemma AcceptSteady(sh: Shared, i: nat, a: AcceptOp, c: Choice, n: Tally)
    requires i < |sh.slots| && SlotOk(sh.slots[i], i, n) && AcceptOk(sh.slots[i], a) && n(Refs) <= FEW
    ensures Steady(sh.slots[i], ExecAccept(sh, i, a, c).0.slots[i], true, false)
  {
    ControlWord(sh.slots[i].control);
  }

  lemma ExecSteady(sh: Shared, task: Task, c: Choice, i: nat, n: Tally)
    requires i < |sh.slots| == |Exec(sh, task, c).0.slots|
    requires SlotOk(sh.slots[i], i, n) && (On(task, i) ==> Counting(n, i, task)) && TaskOk(sh, task)
    ensures Steady(sh.slots[i], Exec(sh, task, c).0.slots[i], task.AcceptT?, task.CleanT? && On(task, i))
  {
    if On(task, i) {
      match task
      case UseT(u) => UseSteady(sh, u, i, c, n);
      case SendT(_, o) => SendSteady(sh.slots[i], i, o, c, n);
      case RecvT(_, r) => RecvSteady(sh.slots[i], i, r, c, n);
      case RelT(_, l) => RelSteady(sh.slots[i], i, l, c, n);
      case CleanT(_, sid, op) => CleanSteady(sh, i, sid, op, n);
      case AcceptT(_, a) => AcceptSteady(sh, i, a, c, n);
      case SubRef(_) => assert false;
    } else {
      SlotsOffTarget(sh, task, c, i);
    }
  }

  /** The task works on a session whose id it has checked, under a counted reference. */
  predicate Deep(task: Task) {
    match task
    case UseT(u) => u.CheckState? || u.AddRef? || u.Put?
    case SendT(_, _) => true
    case RecvT(_, _) => true
    case RelT(_, l) => l.Request?
    case AcceptT(_, a) => a.FirstIssue?
    case _ => false
  }

  function SlotOf(task: Task): nat {
    match task
    case UseT(u) => if u.Find? then 0 else u.i
    case SendT(i, _) => i
    case RecvT(i, _) => i
    case RelT(i, _) => i
    case CleanT(i, _, _) => i
    case AcceptT(i, _) => i
    case SubRef(_) => 0
  }

  ghost predicate AllSteady(sh: Shared, sh': Shared, accepts: bool, cleans: bool, at: nat) {
    && |sh'.slots| == |sh.slots| && sh.published <= sh'.published
    && forall i: nat :: i < |sh.slots| ==> Steady(sh.slots[i], sh'.slots[i], accepts, cleans && i == at)
  }

  lemma OtherOk(sh: Shared, sh': Shared, accepts: bool, cleans: bool, at: nat, other: Task)
    requires TaskOk(sh, other) && AllSteady(sh, sh', accepts, cleans, at)
    requires Deep(other) ==> IoCount(sh.slots[SlotOf(other)].control) >= 1
    requires other.CleanT? ==> !(cleans && at == other.i)
    requires other.AcceptT? ==> !accepts
    ensures TaskOk(sh', other)
  {
    if SlotOf(other) < |sh.slots| {
      assert Steady(sh.slots[SlotOf(other)], sh'.slots[SlotOf(other)], accepts, cleans && SlotOf(other) == at);
    }
  }

  /** A pending task that works on a session counts in its ioCount. */
  lemma DeepCounts(s: State, t: Tid, k: nat)
    requires Inv(s) && t < |s.threads| && k < |s.threads[t]| && Deep(s.threads[t][k])
    ensures SlotOf(s.threads[t][k]) < |s.sh.slots|
    ensures IoCount(s.sh.slots[SlotOf(s.threads[t][k])].control) >= 1
  {
    var task := s.threads[t][k];
    var i := SlotOf(task);
    assert ThreadOk(s.sh, t, s.threads[t]);
    assert TaskOk(s.sh, task);
    TaskCounted(s, t, k, i, Refs);
    assert SlotOk(s.sh.slots[i], i, Total(s.threads, i));
  }

  // ---------------------------------------------------------------- what the new tasks rely on

  lemma UseMoreOk(sh: Shared, u: UseTask, c: Choice, k: nat, n: Tally)
    requires TaskOk(sh, UseT(u)) && IdsOk(sh) && k < |ExecUse(sh, u, c).1|
    requires !u.Find? && u.i < |sh.slots| ==> SlotOk(sh.slots[u.i], u.i, n)
    requires !Early(u) && u.i < |sh.slots| ==> n(Refs) >= 1
    ensures TaskOk(ExecUse(sh, u, c).0, ExecUse(sh, u, c).1[k])
  {
    if u.CheckId? && u.i < |sh.slots| && sh.slots[u.i].id == u.sid {
      assert HandleOk(sh, u.sid) && IdOk(sh, sh.slots[u.i]);
      assert sh.slots[u.i].phase == Alive(true);
    } else if u.CheckId? {
      assert HandleOk(sh, u.sid);
    }
  }

  lemma RelMoreOk(sh: Shared, i: nat, l: RelOp, c: Choice, k: nat, n: Tally)
    requires TaskOk(sh, RelT(i, l)) && SlotOk(sh.slots[i], i, n) && Counting(n, i, RelT(i, l))
    requires k < |ExecRel(sh.slots[i], i, l, c).1|
    requires Steady(sh.slots[i], ExecRel(sh.slots[i], i, l, c).0, false, false)
    ensures TaskOk(With(sh, i, ExecRel(sh.slots[i], i, l, c).0), ExecRel(sh.slots[i], i, l, c).1[k])
  {
    CountingMeans(n, i, RelT(i, l));
    ControlWord(sh.slots[i].control);
  }

  lemma SendMoreOk(sh: Shared, i: nat, s: SendOp, c: Choice, k: nat, n: Tally)
    requires TaskOk(sh, SendT(i, s)) && SlotOk(sh.slots[i], i, n) && Counting(n, i, SendT(i, s))
    requires k < |ExecSend(sh.slots[i], i, s, c).1|
    requires Steady(sh.slots[i], ExecSend(sh.slots[i], i, s, c).0, false, false)
    ensures TaskOk(With(sh, i, ExecSend(sh.slots[i], i, s, c).0), ExecSend(sh.slots[i], i, s, c).1[k])
  {
    CountingMeans(n, i, SendT(i, s));
  }

  lemma RecvMoreOk(sh: Shared, i: nat, r: RecvOp, c: Choice, k: nat, n: Tally)
    requires TaskOk(sh, RecvT(i, r)) && SlotOk(sh.slots[i], i, n) && Counting(n, i, RecvT(i, r))
    requires k < |ExecRecv(sh.slots[i], i, r, c).1|
    requires Steady(sh.slots[i], ExecRecv(sh.slots[i], i, r, c).0, false, false)
    ensures TaskOk(With(sh, i, ExecRecv(sh.slots[i], i, r, c).0), ExecRecv(sh.slots[i], i, r, c).1[k])
  {
    CountingMeans(n, i, RecvT(i, r));
  }

  lemma CleanMoreOk(sh: Shared, i: nat, sid: nat, op: CleanOp, k: nat)
    requires TaskOk(sh, CleanT(i, sid, op)) && k < |ExecClean(sh, i, sid, op).1|
    ensures TaskOk(ExecClean(sh, i, sid, op).0, ExecClean(sh, i, sid, op).1[k])
  {
  }

  lemma CreateMoreOk(sh: Shared, i: nat, a: AcceptOp, k: nat)
    requires CreateOp(a) && TaskOk(sh, AcceptT(i, a)) && k < |ExecCreate(sh, i, a).1|
    requires a.CountUp? ==> Flags(sh.slots[i].control) == 0
    ensures TaskOk(ExecCreate(sh, i, a).0, ExecCreate(sh, i, a).1[k])
  {
  }

  lemma OpenMoreOk(sh: Shared, i: nat, a: AcceptOp, c: Choice, k: nat)
    requires !CreateOp(a) && TaskOk(sh, AcceptT(i, a)) && k < |ExecAccept(sh, i, a, c).1|
    requires a.First? && Over(sh.slots[i]) ==> Releasing(sh.slots[i].control)
    ensures TaskOk(ExecAccept(sh, i, a, c).0, ExecAccept(sh, i, a, c).1[k])
  {
  }

  lemma AcceptMoreOk(sh: Shared, i: nat, a: AcceptOp, c: Choice, k: nat, n: Tally)
    requires TaskOk(sh, AcceptT(i, a)) && SlotOk(sh.slots[i], i, n) && k < |ExecAccept(sh, i, a, c).1|
    ensures TaskOk(ExecAccept(sh, i, a, c).0, ExecAccept(sh, i, a, c).1[k])
  {
    if CreateOp(a) {
      CreateMoreOk(sh, i, a, k);
    } else {
      ControlWord(sh.slots[i].control);
      OpenMoreOk(sh, i, a, c, k);
    }
  }

  lemma ExecMoreOk(sh: Shared, task: Task, c: Choice, k: nat, n: Tally)
    requires TaskOk(sh, task) && IdsOk(sh) && k < |Exec(sh, task, c).1|
    requires SlotOf(task) < |sh.slots| ==> SlotOk(sh.slots[SlotOf(task)], SlotOf(task), n)
    requires On(task, SlotOf(task)) && SlotOf(task) < |sh.slots| ==> Counting(n, SlotOf(task), task)
    ensures TaskOk(Exec(sh, task, c).0, Exec(sh, task, c).1[k])
  {
    match task
    case UseT(u) => if !u.Find? && u.i < |sh.slots| { CountingMeans(n, u.i, task); } UseMoreOk(sh, u, c, k, n);
    case SendT(i, o) => SendSteady(sh.slots[i], i, o, c, n); SendMoreOk(sh, i, o, c, k, n);
    case RecvT(i, r) => RecvSteady(sh.slots[i], i, r, c, n); RecvMoreOk(sh, i, r, c, k, n);
    case RelT(i, l) => RelSteady(sh.slots[i], i, l, c, n); RelMoreOk(sh, i, l, c, k, n);
    case CleanT(i, sid, op) => CleanMoreOk(sh, i, sid, op, k);
    case AcceptT(i, a) => AcceptMoreOk(sh, i, a, c, k, n);
    case SubRef(_) =>
  }

  // ---------------------------------------------------------------- the shape of the to-do lists

  lemma {:induction false} ManySubRefsPlain(ps: seq<Pkt>, more: seq<Task>)
    requires forall k: nat :: k < |more| ==> Plain(more[k])
    ensures Peaks(SubRefs(ps) + more) == Peaks(more)
    ensures forall k: nat :: k < |SubRefs(ps) + more| ==> Plain((SubRefs(ps) + more)[k])
  {
    SubRefsPeak(ps);
    PeaksAppend(SubRefs(ps), more);
  }

  lemma PeaksShort(todo: seq<Task>)
    requires |todo| <= 3
    ensures |todo| == 0 ==> Peaks(todo) == 0
    ensures |todo| == 1 ==> Peaks(todo) == Peak(todo[0])
    ensures |todo| == 2 ==> Peaks(todo) == Peak(todo[0]) + Peak(todo[1])
    ensures |todo| == 3 ==> Peaks(todo) == Peak(todo[0]) + Peak(todo[1]) + Peak(todo[2])
  {
    if |todo| > 1 {
      assert todo[1..][1..] == todo[2..];
      if |todo| > 2 { assert todo[2..][1..] == []; }
    }
  }

  predicate Tame(more: seq<Task>, peak: nat) {
    Peaks(more) <= peak && forall k: nat :: k < |more| ==> Plain(more[k])
  }

  lemma SendTame(slot: Slot, i: nat, s: SendOp, c: Choice)
    ensures Tame(ExecSend(slot, i, s, c).1, Peak(SendT(i, s)))
  {
    if s.Claim? && !c.retry && Releasing(slot.control) {
      ManySubRefsPlain(slot.batch, [SendT(i, Unflag)]);
      PeaksShort([SendT(i, Unflag)]);
    } else if s.Transmit? && !c.ok {
      ManySubRefsPlain(slot.batch, [SendT(i, Refuse)]);
      PeaksShort([SendT(i, Refuse)]);
    } else {
      PeaksShort(ExecSend(slot, i, s, c).1);
    }
  }

  lemma CleanTame(sh: Shared, i: nat, sid: nat, op: CleanOp)
    requires i < |sh.slots|
    ensures Tame(ExecClean(sh, i, sid, op).1, 0)
  {
    if op.DrainRing? {
      ManySubRefsPlain(sh.slots[i].ring, [CleanT(i, sid, ClearRings)]);
      PeaksShort([CleanT(i, sid, ClearRings)]);
    } else {
      PeaksShort(ExecClean(sh, i, sid, op).1);
    }
  }

  lemma ExecTame(sh: Shared, task: Task, c: Choice)
    requires !task.UseT?
    ensures Tame(Exec(sh, task, c).1, Peak(task))
  {
    match task
    case UseT(_) => assert false;
    case SendT(i, s) => if i < |sh.slots| { SendTame(sh.slots[i], i, s, c); }
    case CleanT(i, sid, op) => if i < |sh.slots| { CleanTame(sh, i, sid, op); }
    case _ => PeaksShort(Exec(sh, task, c).1);
  }

  lemma ExecShaped(sh: Shared, task: Task, c: Choice, rest: seq<Task>)
    requires Shaped([task] + rest)
    ensures Shaped(Exec(sh, task, c).1 + rest)
  {
    var more := Exec(sh, task, c).1;
    assert ([task] + rest)[1..] == rest;
    if !task.UseT? {
      ExecTame(sh, task, c);
      ShapedAppend(more, rest);
    } else if more != [] && more[0].UseT? {
      assert (more + rest)[1..] == rest;
    } else {
      PeaksShort(more);
      ShapedAppend(more, rest);
    }
  }

  // ---------------------------------------------------------------- threads after a step

  /** A task other than the one at the head of thread `t` is counted beside it. */
  lemma BesideHead(s: State, t: Tid, u: Tid, k: nat, i: nat, h: Hold)
    requires t < |s.threads| && s.threads[t] != [] && u < |s.threads|
    requires k < |s.threads[u]| && (u == t ==> k > 0)
    ensures Of(h, i)(s.threads[t][0]) + Of(h, i)(s.threads[u][k]) <= Total(s.threads, i)(h)
  {
    var rest := s.threads[t := s.threads[t][1..]];
    SumAllUpdate(Of(h, i), s.threads, t, s.threads[t][1..]);
    var k' := if u == t then k - 1 else k;
    assert rest[u][k'] == s.threads[u][k];
    TaskCounted(State(s.sh, rest), u, k', i, h);
  }

  lemma OnlyCleaner(s: State, t: Tid, u: Tid, k: nat)
    requires Inv(s) && t < |s.threads| && s.threads[t] != [] && u < |s.threads|
    requires k < |s.threads[u]| && (u == t ==> k > 0) && s.threads[t][0].CleanT? && s.threads[u][k].CleanT?
    ensures s.threads[t][0].i != s.threads[u][k].i
  {
    var i := s.threads[t][0].i;
    assert ThreadOk(s.sh, t, s.threads[t]);
    assert TaskOk(s.sh, s.threads[t][0]);
    assert SlotOk(s.sh.slots[i], i, Total(s.threads, i));
    BesideHead(s, t, u, k, i, Cleanse);
  }

  lemma OnlyAccepter(s: State, t: Tid, u: Tid, k: nat)
    requires Inv(s) && t < |s.threads| && s.threads[t] != [] && u < |s.threads|
    requires k < |s.threads[u]| && (u == t ==> k > 0) && s.threads[u][k].AcceptT?
    ensures !s.threads[t][0].AcceptT?
  {
    assert ThreadOk(s.sh, t, s.threads[t]) && ThreadOk(s.sh, u, s.threads[u]);
  }

  lemma AllSlotsSteady(s: State, t: Tid, c: Choice)
    requires Stepping(s, t, c)
    ensures var task := s.threads[t][0];
            AllSteady(s.sh, After(s, t, c).sh, task.AcceptT?, task.CleanT?, SlotOf(task))
  {
    var task := s.threads[t][0];
    var sh' := After(s, t, c).sh;
    HeadOk(s, t, c);
    SlotCount(s.sh, task, c);
    PublishedGrows(s.sh, task, c);
    forall i: nat | i < |s.sh.slots|
      ensures Steady(s.sh.slots[i], sh'.slots[i], task.AcceptT?, task.CleanT? && i == SlotOf(task))
    {
      assert SlotOk(s.sh.slots[i], i, Total(s.threads, i));
      if On(task, i) { HeadCounting(s, t, i); }
      ExecSteady(s.sh, task, c, i, Total(s.threads, i));
    }
  }

  lemma PublishedGrows(sh: Shared, task: Task, c: Choice)
    ensures sh.published <= Exec(sh, task, c).0.published
  {
  }

  lemma OtherTaskOk(s: State, t: Tid, c: Choice, u: Tid, k: nat)
    requires Stepping(s, t, c) && u < |s.threads| && k < |s.threads[u]| && (u == t ==> k > 0)
    ensures TaskOk(After(s, t, c).sh, s.threads[u][k])
  {
    var task, other := s.threads[t][0], s.threads[u][k];
    AllSlotsSteady(s, t, c);
    assert ThreadOk(s.sh, u, s.threads[u]);
    if Deep(other) { DeepCounts(s, u, k); }
    if other.CleanT? && task.CleanT? { OnlyCleaner(s, t, u, k); }
    if other.AcceptT? { OnlyAccepter(s, t, u, k); }
    OtherOk(s.sh, After(s, t, c).sh, task.AcceptT?, task.CleanT?, SlotOf(task), other);
  }

  lemma NewTaskOk(s: State, t: Tid, c: Choice, k: nat)
    requires Stepping(s, t, c) && k < |Exec(s.sh, s.threads[t][0], c).1|
    ensures TaskOk(After(s, t, c).sh, Exec(s.sh, s.threads[t][0], c).1[k])
  {
    var task := s.threads[t][0];
    var i := SlotOf(task);
    HeadOk(s, t, c);
    if i < |s.sh.slots| { assert SlotOk(s.sh.slots[i], i, Total(s.threads, i)); }
    if On(task, i) { HeadCounting(s, t, i); }
    ExecMoreOk(s.sh, task, c, k, Total(s.threads, i));
  }

  lemma NewAccept(sh: Shared, task: Task, c: Choice, k: nat)
    requires k < |Exec(sh, task, c).1| && Exec(sh, task, c).1[k].AcceptT?
    ensures task.AcceptT? && |Exec(sh, task, c).1| == 1
  {
  }

  lemma OtherThreadOk(s: State, t: Tid, c: Choice, u: Tid)
    requires Stepping(s, t, c) && u < |s.threads| && u != t
    ensures ThreadOk(After(s, t, c).sh, u, s.threads[u])
  {
    assert ThreadOk(s.sh, u, s.threads[u]);
    forall k: nat | k < |s.threads[u]| ensures TaskOk(After(s, t, c).sh, s.threads[u][k]) {
      OtherTaskOk(s, t, c, u, k);
    }
  }

  lemma OwnOldTaskOk(s: State, t: Tid, c: Choice, k: nat)
    requires Stepping(s, t, c) && 0 < k < |s.threads[t]|
    ensures TaskOk(After(s, t, c).sh, s.threads[t][k]) && !s.threads[t][k].AcceptT?
  {
    assert ThreadOk(s.sh, t, s.threads[t]);
    OtherTaskOk(s, t, c, t, k);
  }

  lemma OwnNewTaskOk(s: State, t: Tid, c: Choice, k: nat)
    requires Stepping(s, t, c) && k < |Exec(s.sh, s.threads[t][0], c).1|
    ensures TaskOk(After(s, t, c).sh, Exec(s.sh, s.threads[t][0], c).1[k])
    ensures Exec(s.sh, s.threads[t][0], c).1[k].AcceptT? ==>
              t == 0 && |Exec(s.sh, s.threads[t][0], c).1| == 1 && |s.threads[t]| == 1
  {
    NewTaskOk(s, t, c, k);
    if Exec(s.sh, s.threads[t][0], c).1[k].AcceptT? {
      NewAccept(s.sh, s.threads[t][0], c, k);
      assert ThreadOk(s.sh, t, s.threads[t]);
    }
  }

  lemma JoinTasks(sh: Shared, t: Tid, more: seq<Task>, rest: seq<Task>)
    requires Shaped(more + rest)
    requires forall k: nat :: k < |more| ==>
               TaskOk(sh, more[k]) && (more[k].AcceptT? ==> t == 0 && |more| == 1 && rest == [])
    requires forall k: nat :: k < |rest| ==> TaskOk(sh, rest[k]) && !rest[k].AcceptT?
    ensures ThreadOk(sh, t, more + rest)
  {
  }

  lemma OwnShaped(s: State, t: Tid, c: Choice)
    requires Stepping(s, t, c)
    ensures Shaped(Exec(s.sh, s.threads[t][0], c).1 + s.threads[t][1..])
  {
    assert ThreadOk(s.sh, t, s.threads[t]);
    assert [s.threads[t][0]] + s.threads[t][1..] == s.threads[t];
    ExecShaped(s.sh, s.threads[t][0], c, s.threads[t][1..]);
  }

  lemma OwnThreadOk(s: State, t: Tid, c: Choice)
    requires Stepping(s, t, c)
    ensures ThreadOk(After(s, t, c).sh, t, After(s, t, c).threads[t])
  {
    var more, rest := Exec(s.sh, s.threads[t][0], c).1, s.threads[t][1..];
    OwnShaped(s, t, c);
    forall k: nat | k < |more|
      ensures TaskOk(After(s, t, c).sh, more[k]) && (more[k].AcceptT? ==> t == 0 && |more| == 1 && rest == [])
    {
      OwnNewTaskOk(s, t, c, k);
    }
    forall k: nat | k < |rest| ensures TaskOk(After(s, t, c).sh, rest[k]) && !rest[k].AcceptT? {
      OwnOldTaskOk(s, t, c, k + 1);
    }
    JoinTasks(After(s, t, c).sh, t, more, rest);
  }

  lemma ExecThreads(s: State, t: Tid, c: Choice)
    requires Stepping(s, t, c)
    ensures ThreadsOk(After(s, t, c))
  {
    forall u: Tid | u < |s.threads| ensures ThreadOk(After(s, t, c).sh, u, After(s, t, c).threads[u]) {
      if u == t { OwnThreadOk(s, t, c); } else { OtherThreadOk(s, t, c, u); }
    }
  }

  // ---------------------------------------------------------------- ids, the free stack, the session count

  /** The slot keeps its id or gives it up, and moves within its life without ending or starting it. */
  predicate Quiet(slot: Slot, slot': Slot) {
    && (slot'.id == slot.id || (slot'.id == 0 && slot'.phase.Cleaning?)) && slot'.life >= slot.life
    && (slot'.phase == slot.phase
        || (slot'.phase.Cleaning? && (slot.phase.Cleaning? || slot.phase.Alive?))
        || (slot.phase.Creating? && slot'.phase.Creating? && !slot'.phase.op.SetId?))
  }

  predicate Loud(task: Task) {
    (task.CleanT? && task.c.Push?) ||
    (task.AcceptT? && (task.a.TakeId? || task.a.SetId? || task.a.CountUp? || task.a.Join?))
  }

  lemma QuietIds(sh: Shared, sh': Shared)
    requires IdsOk(sh) && sh'.next == sh.next && sh'.issued == sh.issued && sh'.published == sh.published
    requires |sh'.slots| == |sh.slots| && forall i: nat :: i < |sh.slots| ==> Quiet(sh.slots[i], sh'.slots[i])
    ensures IdsOk(sh')
  {
    forall sid | sid in sh'.published ensures HandleOk(sh', sid) {
      assert HandleOk(sh, sid);
      assert Quiet(sh.slots[sid / UNIQUE_RANGE], sh'.slots[sid / UNIQUE_RANGE]);
    }
    forall i: nat | i < |sh'.slots| ensures IdOk(sh', sh'.slots[i]) {
      assert IdOk(sh, sh.slots[i]) && Quiet(sh.slots[i], sh'.slots[i]);
    }
  }

  predicate SameBooks(sh: Shared, sh': Shared) {
    sh'.next == sh.next && sh'.issued == sh.issued && sh'.published == sh.published && sh'.freeStack == sh.freeStack
  }

  lemma AcceptBooks(sh: Shared, i: nat, a: AcceptOp, c: Choice)
    requires i < |sh.slots| && !Loud(AcceptT(i, a))
    ensures SameBooks(sh, ExecAccept(sh, i, a, c).0)
  {
  }

  lemma SameIds(sh: Shared, task: Task, c: Choice)
    requires !Loud(task)
    ensures SameBooks(sh, Exec(sh, task, c).0)
  {
    if task.AcceptT? && task.i < |sh.slots| {
      AcceptBooks(sh, task.i, task.a, c);
    } else if task.UseT? {
    } else {
    }
  }

  lemma AcceptQuiet(sh: Shared, i: nat, a: AcceptOp, c: Choice, n: Tally)
    requires i < |sh.slots| && !Loud(AcceptT(i, a)) && AcceptOk(sh.slots[i], a) && SlotOk(sh.slots[i], i, n)
    ensures Quiet(sh.slots[i], ExecAccept(sh, i, a, c).0.slots[i])
  {
  }

  lemma CleanQuiet(sh: Shared, i: nat, sid: nat, op: CleanOp)
    requires i < |sh.slots| && !op.Push? && CleanOk(sh.slots[i], i, sid, op)
    ensures Quiet(sh.slots[i], ExecClean(sh, i, sid, op).0.slots[i])
  {
  }

  lemma RelQuiet(slot: Slot, i: nat, l: RelOp, c: Choice, n: Tally)
    requires SlotOk(slot, i, n)
    ensures Quiet(slot, ExecRel(slot, i, l, c).0)
  {
    ControlWord(slot.control);
  }

  lemma UseQuiet(sh: Shared, u: UseTask, c: Choice, i: nat)
    requires i < |sh.slots|
    ensures Quiet(sh.slots[i], ExecUse(sh, u, c).0.slots[i])
  {
  }

  lemma SendQuiet(slot: Slot, i: nat, s: SendOp, c: Choice)
    ensures Quiet(slot, ExecSend(slot, i, s, c).0)
  {
  }

  lemma ExecQuiet(sh: Shared, task: Task, c: Choice, i: nat, n: Tally)
    requires !Loud(task) && i < |sh.slots| == |Exec(sh, task, c).0.slots| && On(task, i)
    requires TaskOk(sh, task) && SlotOk(sh.slots[i], i, n)
    ensures Quiet(sh.slots[i], Exec(sh, task, c).0.slots[i])
  {
    match task
    case RelT(_, l) => RelQuiet(sh.slots[i], i, l, c, n);
    case CleanT(_, sid, op) => CleanQuiet(sh, i, sid, op);
    case AcceptT(_, a) => AcceptQuiet(sh, i, a, c, n);
    case UseT(u) => UseQuiet(sh, u, c, i);
    case SendT(_, o) => SendQuiet(sh.slots[i], i, o, c);
    case RecvT(_, _) =>
    case SubRef(_) => assert false;
  }

  lemma ExecAllQuiet(s: State, t: Tid, c: Choice)
    requires Stepping(s, t, c) && !Loud(s.threads[t][0])
    ensures var sh' := After(s, t, c).sh;
            |sh'.slots| == |s.sh.slots| &&
            forall i: nat :: i < |s.sh.slots| ==> Quiet(s.sh.slots[i], sh'.slots[i])
  {
    var task, sh' := s.threads[t][0], After(s, t, c).sh;
    HeadOk(s, t, c);
    SlotCount(s.sh, task, c);
    forall i: nat | i < |s.sh.slots| ensures Quiet(s.sh.slots[i], sh'.slots[i]) {
      assert SlotOk(s.sh.slots[i], i, Total(s.threads, i));
      if On(task, i) {
        ExecQuiet(s.sh, task, c, i, Total(s.threads, i));
      } else {
        SlotsOffTarget(s.sh, task, c, i);
      }
    }
  }

  /** Changing one slot, and the ids handed out with it, keeps the id bookkeeping of the others. */
  lemma OneSlotIds(sh: Shared, sh': Shared, i: nat)
    requires IdsOk(sh) && i < |sh.slots| && |sh'.slots| == |sh.slots|
    requires forall j: nat :: j < |sh.slots| && j != i ==> sh'.slots[j] == sh.slots[j]
    requires sh'.slots[i].life >= sh.slots[i].life && IdOk(sh', sh'.slots[i])
    requires sh.issued <= sh'.issued && sh.published <= sh'.published
    requires sh'.published <= sh.published + {sh.slots[i].id}
    requires sh.slots[i].id in sh'.published ==> HandleOk(sh', sh.slots[i].id)
    requires sh.next <= sh'.next <= UNIQUE_RANGE && |sh'.issued| == sh'.next
    requires forall sid :: sid in sh'.issued ==> sid % UNIQUE_RANGE < sh'.next
    requires forall j: nat :: j < |sh.slots| && j != i && sh.slots[i].id in sh'.published - sh.published ==>
               sh.slots[j].id != sh.slots[i].id &&
               (sh.slots[j].phase.Creating? && sh.slots[j].phase.op.SetId? ==>
                  sh.slots[j].phase.op.id != sh.slots[i].id)
    ensures IdsOk(sh')
  {
    forall sid | sid in sh'.published ensures HandleOk(sh', sid) {
      if sid in sh.published { assert HandleOk(sh, sid); }
    }
    forall j: nat | j < |sh'.slots| ensures IdOk(sh', sh'.slots[j]) {
      if j != i { assert IdOk(sh, sh.slots[j]); }
    }
  }

  lemma TakeIdIds(sh: Shared, i: nat)
    requires IdsOk(sh) && i < |sh.slots| <= 0x1_0000 && sh.slots[i].phase == Creating(TakeId) && sh.slots[i].id == 0
    requires sh.next < UNIQUE_RANGE
    ensures IdsOk(ExecCreate(sh, i, TakeId).0)
  {
    var sh' := ExecCreate(sh, i, TakeId).0;
    NewIdNamed(i, sh.next);
    assert NewId(i, sh.next) !in sh.issued;
    assert 0 in sh.published ==> HandleOk(sh, 0);
    assert NewId(i, sh.next) in sh.published ==> HandleOk(sh, NewId(i, sh.next));
    OneSlotIds(sh, sh', i);
  }

  lemma SetIdIds(sh: Shared, i: nat, id: nat)
    requires IdsOk(sh) && i < |sh.slots| && sh.slots[i].phase == Creating(SetId(id))
    ensures IdsOk(ExecCreate(sh, i, SetId(id)).0)
  {
    assert IdOk(sh, sh.slots[i]);
    var sh' := ExecCreate(sh, i, SetId(id)).0;
    assert sh.slots[i].id in sh.published ==> HandleOk(sh, sh.slots[i].id);
    OneSlotIds(sh, sh', i);
  }

  lemma CountUpIds(sh: Shared, i: nat)
    requires IdsOk(sh) && i < |sh.slots| && sh.slots[i].phase == Creating(CountUp) && sh.slots[i].id != 0
    ensures IdsOk(ExecCreate(sh, i, CountUp).0)
  {
    assert IdOk(sh, sh.slots[i]);
    OneSlotIds(sh, ExecCreate(sh, i, CountUp).0, i);
  }

  lemma JoinIds(sh: Shared, i: nat, c: Choice)
    requires IdsOk(sh) && i < |sh.slots| && sh.slots[i].phase == Alive(false)
    requires Named(sh.slots[i], i) && sh.slots[i].life >= 1
    requires forall j: nat :: j < |sh.slots| ==> PhaseOk(sh.slots[j], j)
    ensures IdsOk(ExecAccept(sh, i, Join, c).0)
  {
    assert IdOk(sh, sh.slots[i]);
    forall j: nat | j < |sh.slots| && j != i
      ensures sh.slots[j].id != sh.slots[i].id
      ensures sh.slots[j].phase.Creating? && sh.slots[j].phase.op.SetId? ==> sh.slots[j].phase.op.id != sh.slots[i].id
    {
      assert PhaseOk(sh.slots[j], j);
    }
    OneSlotIds(sh, ExecAccept(sh, i, Join, c).0, i);
  }

  lemma PushIds(sh: Shared, i: nat, sid: nat)
    requires IdsOk(sh) && i < |sh.slots| && sh.slots[i].id == 0
    ensures IdsOk(ExecClean(sh, i, sid, Push).0)
  {
    assert IdOk(sh, sh.slots[i]);
    assert 0 in sh.published ==> HandleOk(sh, 0);
    OneSlotIds(sh, ExecClean(sh, i, sid, Push).0, i);
  }

  lemma ExecIds(s: State, t: Tid, c: Choice)
    requires Stepping(s, t, c)
    ensures IdsOk(After(s, t, c).sh)
  {
    var task := s.threads[t][0];
    HeadOk(s, t, c);
    if !Loud(task) {
      ExecAllQuiet(s, t, c);
      SameIds(s.sh, task, c);
      QuietIds(s.sh, After(s, t, c).sh);
    } else {
      assert SlotOk(s.sh.slots[task.i], task.i, Total(s.threads, task.i));
      if task.CleanT? {
        PushIds(s.sh, task.i, task.sid);
      } else if task.a.TakeId? {
        TakeIdIds(s.sh, task.i);
      } else if task.a.SetId? {
        SetIdIds(s.sh, task.i, task.a.id);
      } else if task.a.CountUp? {
        CountUpIds(s.sh, task.i);
      } else {
        forall j: nat | j < |s.sh.slots| ensures PhaseOk(s.sh.slots[j], j) {
          assert SlotOk(s.sh.slots[j], j, Total(s.threads, j));
        }
        JoinIds(s.sh, task.i, c);
      }
    }
  }

  // ---------------------------------------------------------------- the free stack

  lemma QuietStack(sh: Shared, sh': Shared)
    requires StackOk(sh) && sh'.freeStack == sh.freeStack && |sh'.slots| == |sh.slots|
    requires forall i: nat :: i < |sh.slots| ==> (sh.slots[i].phase == Free <==> sh'.slots[i].phase == Free)
    ensures StackOk(sh')
  {
  }

  lemma PushStack(sh: Shared, i: nat, sid: nat)
    requires StackOk(sh) && i < |sh.slots| && sh.slots[i].phase != Free && sid / UNIQUE_RANGE == i
    ensures StackOk(ExecClean(sh, i, sid, Push).0)
  {
    var sh' := ExecClean(sh, i, sid, Push).0;
    assert i !in sh.freeStack;
    assert sh'.freeStack == [i] + sh.freeStack;
    forall a: nat, b: nat | a < b < |sh'.freeStack| ensures sh'.freeStack[a] != sh'.freeStack[b] {
      if a == 0 { assert sh'.freeStack[b] in sh.freeStack; }
    }
    forall j: nat | j < |sh'.slots| ensures j in sh'.freeStack <==> sh'.slots[j].phase == Free {
      assert j in sh'.freeStack <==> j == i || j in sh.freeStack;
    }
  }

  lemma LoudStack(sh: Shared, i: nat, a: AcceptOp, c: Choice)
    requires StackOk(sh) && Loud(AcceptT(i, a)) && i < |sh.slots| && AcceptOk(sh.slots[i], a)
    ensures StackOk(ExecAccept(sh, i, a, c).0)
  {
    QuietStack(sh, ExecAccept(sh, i, a, c).0);
  }

  lemma ExecStack(s: State, t: Tid, c: Choice)
    requires Stepping(s, t, c)
    ensures StackOk(After(s, t, c).sh)
  {
    var task := s.threads[t][0];
    HeadOk(s, t, c);
    if !Loud(task) {
      ExecAllQuiet(s, t, c);
      SameIds(s.sh, task, c);
      forall i: nat | i < |s.sh.slots|
        ensures s.sh.slots[i].phase == Free <==> After(s, t, c).sh.slots[i].phase == Free
      {
        assert Quiet(s.sh.slots[i], After(s, t, c).sh.slots[i]);
      }
      QuietStack(s.sh, After(s, t, c).sh);
    } else if task.CleanT? {
      PushStack(s.sh, task.i, task.sid);
    } else {
      LoudStack(s.sh, task.i, task.a, c);
    }
  }

  // ---------------------------------------------------------------- the session count and the packets

  function Value(g: Slot -> nat, slots: seq<Slot>, i: nat): nat { if i < |slots| then g(slots[i]) else 0 }

  /** What one task does to a sum over the slots is what it does to its own slot. */
  lemma ExecSum(sh: Shared, task: Task, c: Choice, g: Slot -> nat)
    requires |Exec(sh, task, c).0.slots| == |sh.slots|
    ensures SumSlots(g, Exec(sh, task, c).0.slots) + Value(g, sh.slots, SlotOf(task))
         == SumSlots(g, sh.slots) + Value(g, Exec(sh, task, c).0.slots, SlotOf(task))
  {
    var i, sh' := SlotOf(task), Exec(sh, task, c).0;
    forall j: nat | j < |sh.slots| && j != i ensures sh'.slots[j] == sh.slots[j] {
      SlotsOffTarget(sh, task, c, j);
    }
    if i < |sh.slots| {
      assert sh'.slots == sh.slots[i := sh'.slots[i]];
      SumSlotsUpdate(g, sh.slots, i, sh'.slots[i]);
    } else {
      assert sh'.slots == sh.slots;
    }
  }

  predicate CountsDown(task: Task) { task.CleanT? && task.c.CountDown? }

  lemma UseCount(sh: Shared, u: UseTask, c: Choice, i: nat)
    requires i < |sh.slots| == |ExecUse(sh, u, c).0.slots|
    ensures ExecUse(sh, u, c).0.slots[i].counted == sh.slots[i].counted
  {
  }

  lemma SendCount(slot: Slot, i: nat, s: SendOp, c: Choice)
    ensures ExecSend(slot, i, s, c).0.counted == slot.counted
  {
  }

  lemma QuietCount(sh: Shared, task: Task, c: Choice, i: nat)
    requires !task.AcceptT? && !task.CleanT?
    requires |Exec(sh, task, c).0.slots| == |sh.slots|
    ensures Exec(sh, task, c).0.sessionCount == sh.sessionCount
    ensures i < |sh.slots| ==> Exec(sh, task, c).0.slots[i].counted == sh.slots[i].counted
  {
    if i < |sh.slots| {
      if !On(task, i) {
        SlotsOffTarget(sh, task, c, i);
      } else if task.UseT? {
        UseCount(sh, task.u, c, i);
      } else if task.SendT? {
        SendCount(sh.slots[i], i, task.s, c);
      }
    }
  }

  lemma CleanCount(sh: Shared, i: nat, sid: nat, op: CleanOp)
    requires i < |sh.slots| && sh.slots[i].phase == Cleaning(op) && PhaseOk(sh.slots[i], i)
    ensures ExecClean(sh, i, sid, op).0.sessionCount == sh.sessionCount - One(op.CountDown?)
    ensures One(ExecClean(sh, i, sid, op).0.slots[i].counted) == One(sh.slots[i].counted) - One(op.CountDown?)
  {
  }

  lemma AcceptCount(sh: Shared, i: nat, a: AcceptOp, c: Choice)
    requires i < |sh.slots| && AcceptOk(sh.slots[i], a) && PhaseOk(sh.slots[i], i)
    ensures ExecAccept(sh, i, a, c).0.sessionCount == sh.sessionCount + One(a.CountUp?)
    ensures One(ExecAccept(sh, i, a, c).0.slots[i].counted) == One(sh.slots[i].counted) + One(a.CountUp?)
  {
  }

  lemma TaskCount(sh: Shared, task: Task, c: Choice)
    requires |Exec(sh, task, c).0.slots| == |sh.slots| && TaskOk(sh, task)
    requires SlotOf(task) < |sh.slots| ==> PhaseOk(sh.slots[SlotOf(task)], SlotOf(task))
    requires sh.sessionCount == SumSlots(CountedOne(), sh.slots)
    ensures var sh' := Exec(sh, task, c).0; sh'.sessionCount == SumSlots(CountedOne(), sh'.slots)
  {
    var i := SlotOf(task);
    ExecSum(sh, task, c, CountedOne());
    if task.CleanT? {
      CleanCount(sh, i, task.sid, task.c);
    } else if task.AcceptT? {
      AcceptCount(sh, i, task.a, c);
    } else {
      QuietCount(sh, task, c, i);
    }
  }

  lemma ExecCount(s: State, t: Tid, c: Choice)
    requires Stepping(s, t, c)
    ensures After(s, t, c).sh.sessionCount == SumSlots(CountedOne(), After(s, t, c).sh.slots)
  {
    var task := s.threads[t][0];
    var i := SlotOf(task);
    HeadOk(s, t, c);
    SlotCount(s.sh, task, c);
    if i < |s.sh.slots| { assert SlotOk(s.sh.slots[i], i, Total(s.threads, i)); }
    TaskCount(s.sh, task, c);
  }

  // ---------------------------------------------------------------- packet references

  lemma {:induction false} KeptBySubRefs(p: Pkt, ps: seq<Pkt>)
    ensures Sum(Keeps(p), SubRefs(ps)) == multiset(ps)[p]
  {
    if ps != [] {
      KeptBySubRefs(p, ps[1..]);
      assert SubRefs(ps)[1..] == SubRefs(ps[1..]);
      assert ps == [ps[0]] + ps[1..];
    }
  }

  lemma KeptWithSubRefs(p: Pkt, ps: seq<Pkt>, task: Task)
    ensures Sum(Keeps(p), SubRefs(ps) + [task]) == multiset(ps)[p] + Keeps(p)(task)
  {
    SumAppend(Keeps(p), SubRefs(ps), [task]);
    KeptBySubRefs(p, ps);
    SumShort(Keeps(p), [task]);
  }

  lemma DrainKeeps(slot: Slot, i: nat, c: Choice, p: Pkt)
    requires slot.batch == []
    ensures Stores(p)(slot) == Stores(p)(ExecSend(slot, i, Drain, c).0)
    ensures Sum(Keeps(p), ExecSend(slot, i, Drain, c).1) == 0
  {
    SumShort(Keeps(p), ExecSend(slot, i, Drain, c).1);
    var k := if |slot.ring| < MAX_BATCH then |slot.ring| else MAX_BATCH;
    assert slot.ring == slot.ring[..k] + slot.ring[k..];
  }

  lemma QuietSendKeeps(slot: Slot, i: nat, s: SendOp, c: Choice, p: Pkt)
    requires !s.Drain? && !(s.Claim? && !c.retry && Releasing(slot.control)) && !(s.Transmit? && !c.ok)
    ensures Stores(p)(slot) == Stores(p)(ExecSend(slot, i, s, c).0) && Sum(Keeps(p), ExecSend(slot, i, s, c).1) == 0
  {
    SumShort(Keeps(p), ExecSend(slot, i, s, c).1);
  }

  lemma SendKeeps(slot: Slot, i: nat, s: SendOp, c: Choice, p: Pkt)
    requires s.Drain? ==> slot.batch == []
    ensures Stores(p)(slot) == Stores(p)(ExecSend(slot, i, s, c).0) + Sum(Keeps(p), ExecSend(slot, i, s, c).1)
  {
    if s.Drain? {
      DrainKeeps(slot, i, c, p);
    } else if s.Claim? && !c.retry && Releasing(slot.control) {
      KeptWithSubRefs(p, slot.batch, SendT(i, Unflag));
    } else if s.Transmit? && !c.ok {
      KeptWithSubRefs(p, slot.batch, SendT(i, Refuse));
    } else {
      QuietSendKeeps(slot, i, s, c, p);
    }
  }

  lemma CleanKeeps(sh: Shared, i: nat, sid: nat, op: CleanOp, p: Pkt)
    requires i < |sh.slots| && sh.slots[i].phase == Cleaning(op) && PhaseOk(sh.slots[i], i)
    ensures Stores(p)(sh.slots[i])
         == Stores(p)(ExecClean(sh, i, sid, op).0.slots[i]) + Sum(Keeps(p), ExecClean(sh, i, sid, op).1)
    ensures ExecClean(sh, i, sid, op).0.refCnt == sh.refCnt && ExecClean(sh, i, sid, op).0.leaked == sh.leaked
  {
    if op.DrainRing? {
      KeptWithSubRefs(p, sh.slots[i].ring, CleanT(i, sid, ClearRings));
    } else {
      SumShort(Keeps(p), ExecClean(sh, i, sid, op).1);
    }
  }

  lemma AcceptKeeps(sh: Shared, i: nat, a: AcceptOp, c: Choice, p: Pkt)
    requires i < |sh.slots| && AcceptOk(sh.slots[i], a) && PhaseOk(sh.slots[i], i)
    ensures Stores(p)(sh.slots[i])
         == Stores(p)(ExecAccept(sh, i, a, c).0.slots[i]) + Sum(Keeps(p), ExecAccept(sh, i, a, c).1)
    ensures ExecAccept(sh, i, a, c).0.refCnt == sh.refCnt && ExecAccept(sh, i, a, c).0.leaked == sh.leaked
  {
    SumShort(Keeps(p), ExecAccept(sh, i, a, c).1);
  }

  lemma PutKeeps(sh: Shared, i: nat, q: Pkt, c: Choice, p: Pkt)
    requires i < |sh.slots|
    ensures ExecUse(sh, Put(i, q), c).0.refCnt == sh.refCnt
    ensures Stores(p)(sh.slots[i]) + One(p == q)
         == Stores(p)(ExecUse(sh, Put(i, q), c).0.slots[i]) + Sum(Keeps(p), ExecUse(sh, Put(i, q), c).1)
  {
    SumShort(Keeps(p), ExecUse(sh, Put(i, q), c).1);
  }

  lemma AddRefKeeps(sh: Shared, i: nat, q: Pkt, c: Choice, p: Pkt)
    ensures ExecUse(sh, AddRef(i, q), c).0.refCnt[p] == sh.refCnt[p] + Sum(Keeps(p), ExecUse(sh, AddRef(i, q), c).1)
    ensures ExecUse(sh, AddRef(i, q), c).0.slots == sh.slots
  {
    SumShort(Keeps(p), ExecUse(sh, AddRef(i, q), c).1);
  }

  lemma LookKeeps(sh: Shared, u: UseTask, i: nat, c: Choice, p: Pkt)
    requires !u.Put? && !u.AddRef? && i < |sh.slots|
    ensures ExecUse(sh, u, c).0.refCnt == sh.refCnt && Sum(Keeps(p), ExecUse(sh, u, c).1) == 0
    ensures Stores(p)(ExecUse(sh, u, c).0.slots[i]) == Stores(p)(sh.slots[i])
  {
    LookMore(sh, u, c, p);
    LookStores(sh, u, i, c);
  }

  lemma LookMore(sh: Shared, u: UseTask, c: Choice, p: Pkt)
    requires !u.Put? && !u.AddRef?
    ensures Sum(Keeps(p), ExecUse(sh, u, c).1) == 0
  {
    SumShort(Keeps(p), ExecUse(sh, u, c).1);
  }

  lemma LookStores(sh: Shared, u: UseTask, i: nat, c: Choice)
    requires !u.Put? && !u.AddRef? && i < |sh.slots|
    ensures |ExecUse(sh, u, c).0.slots| == |sh.slots| && ExecUse(sh, u, c).0.refCnt == sh.refCnt
    ensures ExecUse(sh, u, c).0.slots[i].ring == sh.slots[i].ring
    ensures ExecUse(sh, u, c).0.slots[i].batch == sh.slots[i].batch
  {
  }

  /** One task moves references between the count and their holders, and loses none. */
  ghost predicate Balanced(sh: Shared, sh': Shared, task: Task, more: seq<Task>, p: Pkt) {
    sh'.refCnt[p] + Value(Stores(p), sh.slots, SlotOf(task)) + Keeps(p)(task)
    == sh.refCnt[p] + Value(Stores(p), sh'.slots, SlotOf(task)) + Sum(Keeps(p), more)
  }

  lemma UseBalanced(sh: Shared, u: UseTask, c: Choice, p: Pkt)
    requires u.Put? ==> u.i < |sh.slots|
    requires |ExecUse(sh, u, c).0.slots| == |sh.slots|
    ensures Balanced(sh, ExecUse(sh, u, c).0, UseT(u), ExecUse(sh, u, c).1, p)
  {
    var i := SlotOf(UseT(u));
    match u
    case Put(_, q) => PutKeeps(sh, i, q, c, p);
    case AddRef(_, q) => AddRefKeeps(sh, i, q, c, p);
    case _ => if i < |sh.slots| { LookKeeps(sh, u, i, c, p); } else { SumShort(Keeps(p), ExecUse(sh, u, c).1); }
  }

  lemma RecvKeeps(slot: Slot, i: nat, r: RecvOp, c: Choice, p: Pkt)
    ensures Stores(p)(slot) == Stores(p)(ExecRecv(slot, i, r, c).0) && Sum(Keeps(p), ExecRecv(slot, i, r, c).1) == 0
  {
    SumShort(Keeps(p), ExecRecv(slot, i, r, c).1);
  }

  lemma RelKeeps(slot: Slot, i: nat, l: RelOp, c: Choice, p: Pkt)
    ensures Stores(p)(slot) == Stores(p)(ExecRel(slot, i, l, c).0) && Sum(Keeps(p), ExecRel(slot, i, l, c).1) == 0
  {
    SumShort(Keeps(p), ExecRel(slot, i, l, c).1);
  }

  lemma SubRefBalanced(sh: Shared, q: Pkt, p: Pkt)
    requires q in sh.refCnt
    ensures Balanced(sh, ExecSubRef(sh, q).0, SubRef(q), [], p)
  {
  }

  lemma ExecBalanced(sh: Shared, task: Task, c: Choice, p: Pkt)
    requires TaskOk(sh, task) && |Exec(sh, task, c).0.slots| == |sh.slots|
    requires SlotOf(task) < |sh.slots| ==> PhaseOk(sh.slots[SlotOf(task)], SlotOf(task))
    requires task.SendT? && task.s.Drain? ==> sh.slots[task.i].batch == []
    requires task.SubRef? ==> task.p in sh.refCnt
    ensures Balanced(sh, Exec(sh, task, c).0, task, Exec(sh, task, c).1, p)
  {
    match task
    case UseT(u) => UseBalanced(sh, u, c, p);
    case SendT(i, o) => SendKeeps(sh.slots[i], i, o, c, p);
    case RecvT(i, r) => RecvKeeps(sh.slots[i], i, r, c, p);
    case RelT(i, l) => RelKeeps(sh.slots[i], i, l, c, p);
    case CleanT(i, sid, op) => CleanKeeps(sh, i, sid, op, p);
    case AcceptT(i, a) => AcceptKeeps(sh, i, a, c, p);
    case SubRef(q) => SubRefBalanced(sh, q, p);
  }

  lemma LeakSame(sh: Shared, task: Task, c: Choice)
    ensures Exec(sh, task, c).0.leaked == sh.leaked
  {
  }

  /** A packet that some pending task or some thread's caller will give back is not in the pool. */
  lemma OwedIsOut(s: State, t: Tid, k: nat, p: Pkt)
    requires PacketOk(s, p) && t < |s.threads| && k < |s.threads[t]| && s.threads[t][k] == SubRef(p)
    ensures p in s.sh.refCnt
  {
    TaskWithin(Keeps(p), s.threads[t], k);
    SumAllSplit(Keeps(p), s.threads, t);
  }

  lemma ExecPackets(s: State, t: Tid, c: Choice)
    requires Stepping(s, t, c)
    ensures PacketsOk(After(s, t, c))
  {
    var task, more, s' := s.threads[t][0], Exec(s.sh, s.threads[t][0], c).1, After(s, t, c);
    HeadOk(s, t, c);
    SlotCount(s.sh, task, c);
    LeakSame(s.sh, task, c);
    DrainsEmpty(s, t, c);
    forall p: Pkt ensures PacketOk(s', p) {
      assert PacketOk(s, p);
      if task.SubRef? {
        assert PacketOk(s, task.p);
        OwedIsOut(s, t, 0, task.p);
      }
      ExecBalanced(s.sh, task, c, p);
      ExecSum(s.sh, task, c, Stores(p));
      SumAllUpdate(Keeps(p), s.threads, t, more + s.threads[t][1..]);
      SumAppend(Keeps(p), more, s.threads[t][1..]);
    }
  }

  lemma DrainsEmpty(s: State, t: Tid, c: Choice)
    requires Stepping(s, t, c)
    ensures var task := s.threads[t][0];
            (SlotOf(task) < |s.sh.slots| ==> PhaseOk(s.sh.slots[SlotOf(task)], SlotOf(task))) &&
            (task.SendT? && task.s.Drain? ==> task.i < |s.sh.slots| && s.sh.slots[task.i].batch == [])
  {
    var task := s.threads[t][0];
    HeadOk(s, t, c);
    if SlotOf(task) < |s.sh.slots| {
      assert SlotOk(s.sh.slots[SlotOf(task)], SlotOf(task), Total(s.threads, SlotOf(task)));
    }
    if task.SendT? { TaskCounted(s, t, 0, task.i, Busy); }
  }

  // ---------------------------------------------------------------- no fault

  lemma FaultOnly(sh: Shared, task: Task, c: Choice)
    requires !sh.fault && Exec(sh, task, c).0.fault
    ensures (task.UseT? && task.u.AddRef? && task.u.p !in sh.refCnt) || (task.SubRef? && task.p !in sh.refCnt)
         || (CountsDown(task) && sh.sessionCount <= 0)
  {
  }

  lemma ExecFault(s: State, t: Tid, c: Choice)
    requires Stepping(s, t, c)
    ensures !After(s, t, c).sh.fault
  {
    var task := s.threads[t][0];
    HeadOk(s, t, c);
    if After(s, t, c).sh.fault {
      FaultOnly(s.sh, task, c);
      if CountsDown(task) {
        assert SlotOk(s.sh.slots[task.i], task.i, Total(s.threads, task.i));
        SumSlotsHas(CountedOne(), s.sh.slots, task.i);
        assert false;
      } else if task.SubRef? {
        assert PacketOk(s, task.p);
        OwedIsOut(s, t, 0, task.p);
        assert false;
      } else {
        BorrowedIsOut(s, t, task.u.p);
        assert false;
      }
    }
  }

  lemma BorrowedIsOut(s: State, t: Tid, p: Pkt)
    requires Inv(s) && t < |s.threads| && s.threads[t] != [] && Borrows(s.threads[t][0], p)
    ensures p in s.sh.refCnt
  {
    assert ThreadOk(s.sh, t, s.threads[t]) && PacketOk(s, p);
    assert Owed(s.threads[t][1..], p);
    var k :| 0 <= k < |s.threads[t][1..]| && s.threads[t][1..][k] == SubRef(p);
    OwedIsOut(s, t, k + 1, p);
  }

  // ---------------------------------------------------------------- the first id

  lemma NextGrows(sh: Shared, task: Task, c: Choice)
    ensures Exec(sh, task, c).0.next == sh.next + One(task.AcceptT? && task.a.TakeId? && task.i < |sh.slots|)
  {
  }

  /** Before the first id is issued no slot is in use. */
  lemma NobodyYet(s: State, i: nat)
    requires Inv(s) && i < |s.sh.slots| && s.sh.next == 0
    ensures s.sh.slots[i].phase == Free || s.sh.slots[i].phase.Creating?
    ensures s.sh.slots[i].phase.Creating? ==> !s.sh.slots[i].phase.op.SetId? && !s.sh.slots[i].phase.op.CountUp?
  {
    assert IdOk(s.sh, s.sh.slots[i]) && SlotOk(s.sh.slots[i], i, Total(s.threads, i));
    assert s.sh.issued == {};
  }

  lemma CreateNext(sh: Shared, i: nat, a: AcceptOp)
    requires i < |sh.slots| && CreateOp(a) && !a.CountUp?
    ensures |ExecCreate(sh, i, a).1| == 1 && ExecCreate(sh, i, a).1[0].AcceptT?
    ensures ExecCreate(sh, i, a).1[0].i == i && CreateOp(ExecCreate(sh, i, a).1[0].a)
  {
  }

  lemma ExecFirst(s: State, t: Tid, c: Choice)
    requires Stepping(s, t, c)
    ensures FirstOk(After(s, t, c))
  {
    var task := s.threads[t][0];
    HeadOk(s, t, c);
    NextGrows(s.sh, task, c);
    if After(s, t, c).sh.next == 0 {
      if t == 0 {
        NobodyYet(s, task.i);
        CreateNext(s.sh, task.i, task.a);
      } else {
        if task.CleanT? { NobodyYet(s, task.i); }
        SameIds(s.sh, task, c);
      }
    }
  }

  lemma ExecInv(s: State, t: Tid, c: Choice)
    requires Stepping(s, t, c)
    ensures Inv(After(s, t, c))
  {
    SlotCount(s.sh, s.threads[t][0], c);
    ExecFault(s, t, c);
    ExecIds(s, t, c);
    ExecStack(s, t, c);
    ExecCount(s, t, c);
    ExecSlots(s, t, c);
    ExecThreads(s, t, c);
    ExecPackets(s, t, c);
    ExecFirst(s, t, c);
  }

  // ---------------------------------------------------------------- an idle thread begins

  function Begun(s: State, t: Tid, c: Choice): State
    requires t < |s.threads|
  {
    State(Begin(s.sh, t, c).0, s.threads[t := Begin(s.sh, t, c).1])
  }

  ghost predicate Idle(s: State, t: Tid) { Inv(s) && t < |s.threads| && s.threads[t] == [] }

  /** Nothing that the other threads, the ids, the stack or the count rely on differs. */
  predicate Alike(slot: Slot, slot': Slot) {
    slot'.id == slot.id && slot'.phase == slot.phase && slot'.life == slot.life && slot'.counted == slot.counted &&
    slot'.control == slot.control
  }

  ghost predicate Calm(sh: Shared, sh': Shared) {
    && SameBooks(sh, sh') && sh'.sessionCount == sh.sessionCount && sh'.fault == sh.fault
    && |sh'.slots| == |sh.slots| && forall i: nat :: i < |sh.slots| ==> Alike(sh.slots[i], sh'.slots[i])
  }

  predicate Accepting(sh: Shared, t: Tid, c: Choice) { c.op.Accept? && t == 0 && sh.freeStack != [] }

  lemma AlikeCalm(sh: Shared, i: nat, slot: Slot)
    requires i < |sh.slots| && Alike(sh.slots[i], slot)
    ensures Calm(sh, With(sh, i, slot))
  {
  }

  lemma TakeAlike(slot: Slot, i: nat, ok: bool)
    ensures Alike(slot, TakeRecvFrom(slot, i, ok).0) && Alike(slot, TakeSendFrom(slot, i, ok).0)
    ensures Alike(slot, TakeReleaseFrom(slot, i).0)
  {
  }

  lemma BeginCalm(sh: Shared, t: Tid, c: Choice)
    requires !Accepting(sh, t, c)
    ensures Calm(sh, Begin(sh, t, c).0)
  {
    match c.op
    case TakeRecv(i) =>
      if i < |sh.slots| {
        TakeAlike(sh.slots[i], i, c.ok);
        AlikeCalm(sh, i, TakeRecvFrom(sh.slots[i], i, c.ok).0);
      }
    case TakeSend(i) =>
      if i < |sh.slots| {
        TakeAlike(sh.slots[i], i, c.ok);
        AlikeCalm(sh.(leaked := sh.leaked + LeakOf(sh.slots[i], c.ok)), i, TakeSendFrom(sh.slots[i], i, c.ok).0);
      }
    case TakeRelease(i) =>
      if i < |sh.slots| {
        TakeAlike(sh.slots[i], i, c.ok);
        AlikeCalm(sh, i, TakeReleaseFrom(sh.slots[i], i).0);
      }
    case _ =>
  }

  /** Taking work that only concerns slot `i`: its holdings, its packets and its tasks. */
  ghost predicate TookWell(slot: Slot, i: nat, r: (Slot, seq<Task>), n: Tally, n': Tally) {
    SlotOk(slot, i, n) && Traded(n, n', i, SubRef(0), r.1) ==> SlotOk(r.0, i, n')
  }

  lemma TakeTrade(n: Tally, n': Tally, i: nat, x: Task)
    requires Traded(n, n', i, SubRef(0), [x])
    ensures x == RecvT(i, Next) ==> Moved(n, n', 1, 0, 0, 0, 0, 0, 1, 0, 0)
    ensures x == RelT(i, Request) ==> Moved(n, n', 1, 0, 0, 0, 0, 0, 0, 0, 0)
    ensures x == SendT(i, Finish) ==> Moved(n, n', 1, 0, 1, 0, 0, 0, 0, 0, 0)
    ensures x == RelT(i, Cleanup) ==> Moved(n, n', 0, 1, 0, 0, 0, 0, 0, 0, 0)
    ensures x == AcceptT(i, ResetId) ==> Moved(n, n', 0, 0, 0, 0, 0, 0, 1, 1, 0)
  {
    Trades(n, n', i, SubRef(0), [x]);
  }

  lemma NoTrade(slot: Slot, i: nat, n: Tally, n': Tally)
    requires SlotOk(slot, i, n) && Traded(n, n', i, SubRef(0), [])
    ensures SlotOk(slot, i, n')
  {
    WeightlessTrade(n, n', i, SubRef(0), []);
    SameKept(slot, i, n, n');
  }

  lemma TakeRecvWell(slot: Slot, i: nat, ok: bool, n: Tally, n': Tally)
    ensures TookWell(slot, i, TakeRecvFrom(slot, i, ok), n, n')
  {
    if SlotOk(slot, i, n) && Traded(n, n', i, SubRef(0), TakeRecvFrom(slot, i, ok).1) {
      if slot.recvPosted == 0 {
        NoTrade(slot, i, n, n');
      } else {
        TakeTrade(n, n', i, if ok then RecvT(i, Next) else RelT(i, Request));
        TakeRecvKept(slot, i, ok, n, n');
      }
    }
  }

  lemma TakeSendWell(slot: Slot, i: nat, ok: bool, n: Tally, n': Tally)
    ensures TookWell(slot, i, TakeSendFrom(slot, i, ok), n, n')
  {
    if SlotOk(slot, i, n) && Traded(n, n', i, SubRef(0), TakeSendFrom(slot, i, ok).1) {
      if slot.sendPosted == 0 {
        NoTrade(slot, i, n, n');
      } else {
        if ok {
          SubRefsAside(n, n', i, SubRef(0), slot.batch, [SendT(i, Finish)]);
          TakeTrade(n, n', i, SendT(i, Finish));
        } else {
          TakeTrade(n, n', i, RelT(i, Request));
        }
        TakeSendKept(slot, i, ok, n, n');
      }
    }
  }

  lemma TakeReleaseWell(slot: Slot, i: nat, n: Tally, n': Tally)
    ensures TookWell(slot, i, TakeReleaseFrom(slot, i), n, n')
  {
    if SlotOk(slot, i, n) && Traded(n, n', i, SubRef(0), TakeReleaseFrom(slot, i).1) {
      if slot.releasePosted == 0 {
        NoTrade(slot, i, n, n');
      } else {
        TakeTrade(n, n', i, RelT(i, Cleanup));
        TakeReleaseKept(slot, i, n, n');
      }
    }
  }

  /** The slot that the operation takes something from. */
  predicate Takes(sh: Shared, t: Tid, c: Choice, i: nat) {
    match c.op
    case Accept => t == 0 && sh.freeStack != [] && sh.freeStack[0] == i
    case StartSend(_, _) => false
    case StartKick(_) => false
    case TakeRecv(k) => t != 0 && k == i
    case TakeSend(k) => t != 0 && k == i
    case TakeRelease(k) => t != 0 && k == i
  }

  lemma BeginElsewhere(sh: Shared, t: Tid, c: Choice, i: nat)
    requires i < |sh.slots| && !Takes(sh, t, c, i)
    ensures |Begin(sh, t, c).0.slots| == |sh.slots| && Begin(sh, t, c).0.slots[i] == sh.slots[i]
  {
  }

  lemma BeginOnTarget(sh: Shared, t: Tid, c: Choice, i: nat, k: nat)
    requires i < |sh.slots| && !Takes(sh, t, c, i) && k < |Begin(sh, t, c).1|
    ensures !On(Begin(sh, t, c).1[k], i) || PreRef(Begin(sh, t, c).1[k])
  {
  }

  lemma BeginSlotOk(sh: Shared, t: Tid, c: Choice, i: nat, n: Tally, n': Tally)
    requires i < |sh.slots| == |Begin(sh, t, c).0.slots|
    requires Takes(sh, t, c, i) && SlotOk(sh.slots[i], i, n) && Traded(n, n', i, SubRef(0), Begin(sh, t, c).1)
    requires c.op.Accept? ==> sh.slots[i].phase == Free && n(Recv) == 0
    ensures SlotOk(Begin(sh, t, c).0.slots[i], i, n')
  {
    match c.op
    case Accept =>
      TakeTrade(n, n', i, AcceptT(i, ResetId));
      AcceptKept(sh.slots[i], i, n, n');
    case TakeRecv(_) => TakeRecvWell(sh.slots[i], i, c.ok, n, n');
    case TakeSend(_) => TakeSendWell(sh.slots[i], i, c.ok, n, n');
    case TakeRelease(_) => TakeReleaseWell(sh.slots[i], i, n, n');
    case _ => assert false;
  }

  /** With the accept thread idle, only a pending receive holds the right to receive. */
  lemma NobodyAccepts(s: State, i: nat)
    requires Inv(s) && i < |s.sh.slots| && |s.threads| > 0 && s.threads[0] == [] && s.sh.slots[i].phase == Free
    ensures Total(s.threads, i)(Recv) == 0
  {
    forall t: Tid, k: nat | t < |s.threads| && k < |s.threads[t]| ensures Of(Recv, i)(s.threads[t][k]) == 0 {
      assert ThreadOk(s.sh, t, s.threads[t]);
      assert TaskOk(s.sh, s.threads[t][k]);
    }
    SumAllZero(Of(Recv, i), s.threads);
  }

  lemma FreeTop(s: State)
    requires Inv(s) && s.sh.freeStack != []
    ensures s.sh.freeStack[0] < |s.sh.slots| && s.sh.slots[s.sh.freeStack[0]].phase == Free
  {
    assert s.sh.freeStack[0] in s.sh.freeStack;
  }

  lemma BeginSize(sh: Shared, t: Tid, c: Choice)
    ensures |Begin(sh, t, c).0.slots| == |sh.slots|
  {
  }

  lemma BeginTaken(s: State, t: Tid, c: Choice, i: nat)
    requires Idle(s, t) && i < |s.sh.slots| == |Begin(s.sh, t, c).0.slots| && Takes(s.sh, t, c, i)
    ensures SlotOk(Begin(s.sh, t, c).0.slots[i], i, Total(s.threads[t := Begin(s.sh, t, c).1], i))
  {
    var more := Begin(s.sh, t, c).1;
    IdleTrade(s.threads, t, more, i);
    assert SlotOk(s.sh.slots[i], i, Total(s.threads, i));
    if c.op.Accept? {
      FreeTop(s);
      NobodyAccepts(s, i);
    }
    BeginSlotOk(s.sh, t, c, i, Total(s.threads, i), Total(s.threads[t := more], i));
  }

  lemma BeginAside(s: State, t: Tid, c: Choice, i: nat)
    requires Idle(s, t) && i < |s.sh.slots| == |Begin(s.sh, t, c).0.slots| && !Takes(s.sh, t, c, i)
    ensures SlotOk(Begin(s.sh, t, c).0.slots[i], i, Total(s.threads[t := Begin(s.sh, t, c).1], i))
  {
    var more := Begin(s.sh, t, c).1;
    var n, n' := Total(s.threads, i), Total(s.threads[t := more], i);
    IdleTrade(s.threads, t, more, i);
    assert SlotOk(s.sh.slots[i], i, n);
    BeginElsewhere(s.sh, t, c, i);
    forall k: nat | k < |more| ensures !On(more[k], i) || PreRef(more[k]) { BeginOnTarget(s.sh, t, c, i, k); }
    PlainWeightless(more, i);
    WeightlessTrade(n, n', i, SubRef(0), more);
    SameKept(s.sh.slots[i], i, n, n');
  }

  lemma BeginSlot(s: State, t: Tid, c: Choice, i: nat)
    requires Idle(s, t) && i < |s.sh.slots| == |Begin(s.sh, t, c).0.slots|
    ensures SlotOk(Begin(s.sh, t, c).0.slots[i], i, Total(s.threads[t := Begin(s.sh, t, c).1], i))
  {
    if Takes(s.sh, t, c, i) { BeginTaken(s, t, c, i); } else { BeginAside(s, t, c, i); }
  }

  lemma BeginSlots(s: State, t: Tid, c: Choice)
    requires Idle(s, t)
    ensures SlotsOk(Begun(s, t, c))
  {
    var s' := Begun(s, t, c);
    BeginSize(s.sh, t, c);
    forall i: nat | i < |s'.sh.slots| ensures SlotOk(s'.sh.slots[i], i, Total(s'.threads, i)) {
      BeginSlot(s, t, c, i);
    }
  }

  // ---------------------------------------------------------------- calm steps and accepting

  lemma CalmSteady(sh: Shared, sh': Shared)
    requires Calm(sh, sh')
    ensures AllSteady(sh, sh', false, false, 0)
  {
    forall i: nat | i < |sh.slots| ensures Steady(sh.slots[i], sh'.slots[i], false, false) {
      assert Alike(sh.slots[i], sh'.slots[i]);
    }
  }

  lemma CalmIds(sh: Shared, sh': Shared)
    requires Calm(sh, sh') && IdsOk(sh)
    ensures IdsOk(sh')
  {
    forall i: nat | i < |sh.slots| ensures Quiet(sh.slots[i], sh'.slots[i]) {
      assert Alike(sh.slots[i], sh'.slots[i]);
    }
    QuietIds(sh, sh');
  }

  lemma CalmStack(sh: Shared, sh': Shared)
    requires Calm(sh, sh') && StackOk(sh)
    ensures StackOk(sh')
  {
    forall i: nat | i < |sh.slots| ensures sh.slots[i].phase == Free <==> sh'.slots[i].phase == Free {
      assert Alike(sh.slots[i], sh'.slots[i]);
    }
    QuietStack(sh, sh');
  }

  lemma {:induction false} SumSlotsSame(g: Slot -> nat, a: seq<Slot>, b: seq<Slot>)
    requires |a| == |b| && forall i: nat :: i < |a| ==> g(a[i]) == g(b[i])
    ensures SumSlots(g, a) == SumSlots(g, b)
  {
    if a != [] { SumSlotsSame(g, a[1..], b[1..]); }
  }

  lemma CalmCount(sh: Shared, sh': Shared)
    requires Calm(sh, sh')
    ensures SumSlots(CountedOne(), sh'.slots) == SumSlots(CountedOne(), sh.slots)
  {
    forall i: nat | i < |sh.slots| ensures CountedOne()(sh.slots[i]) == CountedOne()(sh'.slots[i]) {
      assert Alike(sh.slots[i], sh'.slots[i]);
    }
    SumSlotsSame(CountedOne(), sh.slots, sh'.slots);
  }

  /** The slot on top of the stack is given to the accept thread. */
  ghost predicate Opened(sh: Shared, sh': Shared) {
    && sh.freeStack != [] && sh.freeStack[0] < |sh.slots| && sh.slots[sh.freeStack[0]].phase == Free
    && sh' == With(sh, sh.freeStack[0], sh.slots[sh.freeStack[0]].(phase := Creating(ResetId))).
              (freeStack := sh.freeStack[1..])
  }

  lemma BeginOpened(s: State, t: Tid, c: Choice)
    requires Idle(s, t) && Accepting(s.sh, t, c)
    ensures Opened(s.sh, Begin(s.sh, t, c).0) && Begin(s.sh, t, c).1 == [AcceptT(s.sh.freeStack[0], ResetId)]
  {
    FreeTop(s);
  }

  lemma OpenedSteady(sh: Shared, sh': Shared)
    requires Opened(sh, sh')
    ensures AllSteady(sh, sh', true, false, 0)
  {
  }

  lemma OpenedIds(sh: Shared, sh': Shared)
    requires Opened(sh, sh') && IdsOk(sh) && sh.slots[sh.freeStack[0]].id == 0
    ensures IdsOk(sh')
  {
    assert 0 in sh.published ==> HandleOk(sh, 0);
    assert IdOk(sh, sh.slots[sh.freeStack[0]]);
    OneSlotIds(sh, sh', sh.freeStack[0]);
  }

  lemma OpenedStack(sh: Shared, sh': Shared)
    requires Opened(sh, sh') && StackOk(sh)
    ensures StackOk(sh')
  {
    var i := sh.freeStack[0];
    assert sh.freeStack == [i] + sh'.freeStack;
    forall j: nat | j < |sh'.slots| ensures j in sh'.freeStack <==> sh'.slots[j].phase == Free {
      assert j in sh.freeStack <==> j == i || j in sh'.freeStack;
    }
  }

  lemma OpenedCount(sh: Shared, sh': Shared)
    requires Opened(sh, sh')
    ensures SumSlots(CountedOne(), sh'.slots) == SumSlots(CountedOne(), sh.slots)
  {
    SumSlotsSame(CountedOne(), sh.slots, sh'.slots);
  }

  /** The ids, the stack, the count and the steadiness after an idle thread begins. */
  lemma BeginBooks(s: State, t: Tid, c: Choice)
    requires Idle(s, t)
    ensures IdsOk(Begin(s.sh, t, c).0) && StackOk(Begin(s.sh, t, c).0)
    ensures Begin(s.sh, t, c).0.sessionCount == SumSlots(CountedOne(), Begin(s.sh, t, c).0.slots)
    ensures !Begin(s.sh, t, c).0.fault && |Begin(s.sh, t, c).0.slots| == |s.sh.slots|
    ensures AllSteady(s.sh, Begin(s.sh, t, c).0, Accepting(s.sh, t, c), false, 0)
  {
    if Accepting(s.sh, t, c) {
      OpenedBooks(s, t, c);
    } else {
      BeginCalm(s.sh, t, c);
      CalmBooks(s.sh, Begin(s.sh, t, c).0);
    }
  }

  lemma CalmBooks(sh: Shared, sh': Shared)
    requires Calm(sh, sh') && IdsOk(sh) && StackOk(sh) && sh.sessionCount == SumSlots(CountedOne(), sh.slots)
    ensures IdsOk(sh') && StackOk(sh') && sh'.sessionCount == SumSlots(CountedOne(), sh'.slots)
    ensures AllSteady(sh, sh', false, false, 0)
  {
    CalmIds(sh, sh');
    CalmStack(sh, sh');
    CalmCount(sh, sh');
    CalmSteady(sh, sh');
  }

  lemma OpenedBooks(s: State, t: Tid, c: Choice)
    requires Idle(s, t) && Accepting(s.sh, t, c)
    ensures IdsOk(Begin(s.sh, t, c).0) && StackOk(Begin(s.sh, t, c).0)
    ensures Begin(s.sh, t, c).0.sessionCount == SumSlots(CountedOne(), Begin(s.sh, t, c).0.slots)
    ensures !Begin(s.sh, t, c).0.fault && |Begin(s.sh, t, c).0.slots| == |s.sh.slots|
    ensures AllSteady(s.sh, Begin(s.sh, t, c).0, true, false, 0)
  {
    BeginOpened(s, t, c);
    var sh', i := Begin(s.sh, t, c).0, s.sh.freeStack[0];
    assert SlotOk(s.sh.slots[i], i, Total(s.threads, i));
    OpenedIds(s.sh, sh');
    OpenedStack(s.sh, sh');
    OpenedCount(s.sh, sh');
    OpenedSteady(s.sh, sh');
  }

  // ---------------------------------------------------------------- the tasks begun

  lemma BeginOthers(s: State, t: Tid, c: Choice, u: Tid)
    requires Idle(s, t) && u < |s.threads| && u != t
    ensures ThreadOk(Begin(s.sh, t, c).0, u, s.threads[u])
  {
    BeginBooks(s, t, c);
    assert ThreadOk(s.sh, u, s.threads[u]);
    forall k: nat | k < |s.threads[u]| ensures TaskOk(Begin(s.sh, t, c).0, s.threads[u][k]) {
      if Deep(s.threads[u][k]) { DeepCounts(s, u, k); }
      OtherOk(s.sh, Begin(s.sh, t, c).0, Accepting(s.sh, t, c), false, 0, s.threads[u][k]);
    }
  }

  lemma {:induction false} SendToShaped(sids: seq<nat>, p: Pkt)
    ensures Shaped(SendTo(sids, p)) && Peaks(SendTo(sids, p)) == 0 && Owed(SendTo(sids, p), p)
  {
    var todo := SendTo(sids, p);
    if sids == [] {
      assert todo == [SubRef(p)];
      assert Shaped(todo[1..]);
    } else {
      SendToShaped(sids[1..], p);
      assert todo[1..] == SendTo(sids[1..], p);
      assert Owed(todo[1..], p);
      assert SubRef(p) in todo[1..];
    }
  }

  lemma ShapedPlain(more: seq<Task>)
    requires Peaks(more) <= 2 && forall k: nat :: k < |more| ==> Plain(more[k])
    ensures Shaped(more)
  {
    ShapedAppend(more, []);
    assert more + [] == more;
  }

  lemma TakeShaped(slot: Slot, i: nat, ok: bool)
    ensures Shaped(TakeRecvFrom(slot, i, ok).1) && Shaped(TakeSendFrom(slot, i, ok).1)
    ensures Shaped(TakeReleaseFrom(slot, i).1)
  {
    PeaksShort(TakeRecvFrom(slot, i, ok).1);
    ShapedPlain(TakeRecvFrom(slot, i, ok).1);
    PeaksShort(TakeReleaseFrom(slot, i).1);
    ShapedPlain(TakeReleaseFrom(slot, i).1);
    PeaksShort([SendT(i, Finish)]);
    PeaksShort([RelT(i, Request)]);
    ManySubRefsPlain(slot.batch, [SendT(i, Finish)]);
    ShapedPlain(TakeSendFrom(slot, i, ok).1);
  }

  lemma BeginShaped(sh: Shared, t: Tid, c: Choice)
    ensures Shaped(Begin(sh, t, c).1)
  {
    match c.op
    case Accept =>
      PeaksShort(Begin(sh, t, c).1);
      ShapedPlain(Begin(sh, t, c).1);
    case StartSend(sids, p) => SendToShaped(sids, p);
    case StartKick(sid) =>
      var more := Begin(sh, t, c).1;
      PeaksShort(more);
      if more != [] { assert more[1..] == [] && Shaped(more[1..]); }
    case TakeRecv(i) => if i < |sh.slots| { TakeShaped(sh.slots[i], i, c.ok); }
    case TakeSend(i) => if i < |sh.slots| { TakeShaped(sh.slots[i], i, c.ok); }
    case TakeRelease(i) => if i < |sh.slots| { TakeShaped(sh.slots[i], i, c.ok); }
  }

  /** Every task of the list relies on a live session, if on anything. */
  predicate Relies(task: Task, i: nat) {
    task.SubRef? || task in {SendT(i, Finish), RecvT(i, Next), RelT(i, Request), RelT(i, Cleanup)}
  }

  lemma TakeRelies(slot: Slot, i: nat, ok: bool)
    ensures forall k: nat :: k < |TakeRecvFrom(slot, i, ok).1| ==> Relies(TakeRecvFrom(slot, i, ok).1[k], i)
    ensures forall k: nat :: k < |TakeSendFrom(slot, i, ok).1| ==> Relies(TakeSendFrom(slot, i, ok).1[k], i)
    ensures forall k: nat :: k < |TakeReleaseFrom(slot, i).1| ==> Relies(TakeReleaseFrom(slot, i).1[k], i)
  {
  }

  lemma SlotTaskOk(sh: Shared, i: nat, r: (Slot, seq<Task>), k: nat)
    requires i < |sh.slots| && k < |r.1| && Relies(r.1[k], i) && Alike(sh.slots[i], r.0)
    requires r.1[k].SubRef? || r.1[k] == RelT(i, Cleanup) || Live(sh, i)
    ensures TaskOk(With(sh, i, r.0), r.1[k]) && !r.1[k].AcceptT?
  {
  }

  lemma BeginTask(sh: Shared, t: Tid, c: Choice, k: nat)
    requires k < |Begin(sh, t, c).1|
    requires forall i: nat :: i < |sh.slots| && sh.slots[i].recvPosted + sh.slots[i].sendPosted > 0 ==> Live(sh, i)
    ensures TaskOk(Begin(sh, t, c).0, Begin(sh, t, c).1[k])
    ensures Begin(sh, t, c).1[k].AcceptT? ==> t == 0 && |Begin(sh, t, c).1| == 1
  {
    match c.op
    case TakeRecv(i) =>
      TakeRelies(sh.slots[i], i, c.ok);
      TakeAlike(sh.slots[i], i, c.ok);
      SlotTaskOk(sh, i, TakeRecvFrom(sh.slots[i], i, c.ok), k);
    case TakeSend(i) =>
      TakeRelies(sh.slots[i], i, c.ok);
      TakeAlike(sh.slots[i], i, c.ok);
      SlotTaskOk(sh.(leaked := sh.leaked + LeakOf(sh.slots[i], c.ok)), i, TakeSendFrom(sh.slots[i], i, c.ok), k);
    case TakeRelease(i) =>
      TakeRelies(sh.slots[i], i, c.ok);
      TakeAlike(sh.slots[i], i, c.ok);
      SlotTaskOk(sh, i, TakeReleaseFrom(sh.slots[i], i), k);
    case _ =>
  }

  lemma BeginThreads(s: State, t: Tid, c: Choice)
    requires Idle(s, t)
    ensures ThreadsOk(Begun(s, t, c))
  {
    var sh', more := Begin(s.sh, t, c).0, Begin(s.sh, t, c).1;
    forall i: nat | i < |s.sh.slots| && s.sh.slots[i].recvPosted + s.sh.slots[i].sendPosted > 0
      ensures Live(s.sh, i)
    {
      assert SlotOk(s.sh.slots[i], i, Total(s.threads, i));
    }
    forall u: Tid | u < |s.threads| ensures ThreadOk(sh', u, Begun(s, t, c).threads[u]) {
      if u != t {
        BeginOthers(s, t, c, u);
      } else {
        BeginShaped(s.sh, t, c);
        forall k: nat | k < |more| ensures TaskOk(sh', more[k]) && (more[k].AcceptT? ==> t == 0 && |more| == 1) {
          BeginTask(s.sh, t, c, k);
        }
      }
    }
  }

  // ---------------------------------------------------------------- the packets of the tasks begun

  lemma {:induction false} SendToKeeps(sids: seq<nat>, q: Pkt, p: Pkt)
    ensures Sum(Keeps(p), SendTo(sids, q)) == One(p == q)
  {
    var todo := SendTo(sids, q);
    if sids == [] {
      assert todo == [SubRef(q)];
      SumShort(Keeps(p), todo);
    } else {
      SendToKeeps(sids[1..], q, p);
      assert todo[1..] == SendTo(sids[1..], q);
    }
  }

  lemma TakeRecvBalanced(slot: Slot, i: nat, ok: bool, p: Pkt)
    ensures Stores(p)(TakeRecvFrom(slot, i, ok).0) == Stores(p)(slot)
    ensures Sum(Keeps(p), TakeRecvFrom(slot, i, ok).1) == 0
  {
    SumShort(Keeps(p), TakeRecvFrom(slot, i, ok).1);
  }

  lemma TakeReleaseBalanced(slot: Slot, i: nat, p: Pkt)
    ensures Stores(p)(TakeReleaseFrom(slot, i).0) == Stores(p)(slot)
    ensures Sum(Keeps(p), TakeReleaseFrom(slot, i).1) == 0
  {
    SumShort(Keeps(p), TakeReleaseFrom(slot, i).1);
  }

  lemma TakeSendBalanced(slot: Slot, i: nat, ok: bool, p: Pkt)
    ensures Stores(p)(slot)
         == Stores(p)(TakeSendFrom(slot, i, ok).0) + Sum(Keeps(p), TakeSendFrom(slot, i, ok).1) + LeakOf(slot, ok)[p]
  {
    if slot.sendPosted > 0 && ok {
      KeptWithSubRefs(p, slot.batch, SendT(i, Finish));
    } else {
      SumShort(Keeps(p), TakeSendFrom(slot, i, ok).1);
    }
  }

  /** What an idle thread begins to hold of packet `p` it takes from the slot, or it is the first to hold. */
  ghost predicate BegunBalanced(sh: Shared, sh': Shared, more: seq<Task>, p: Pkt) {
    sh'.refCnt[p] + SumSlots(Stores(p), sh.slots) + sh.leaked[p]
    == sh.refCnt[p] + SumSlots(Stores(p), sh'.slots) + Sum(Keeps(p), more) + sh'.leaked[p]
  }

  lemma AcceptBegunBalanced(sh: Shared, p: Pkt)
    ensures BegunBalanced(sh, BeginAccept(sh).0, BeginAccept(sh).1, p)
  {
    SumShort(Keeps(p), BeginAccept(sh).1);
    SumSlotsSame(Stores(p), sh.slots, BeginAccept(sh).0.slots);
  }

  lemma SendBegunBalanced(sh: Shared, sids: seq<nat>, q: Pkt, p: Pkt)
    ensures BegunBalanced(sh, BeginSend(sh, sids, q).0, BeginSend(sh, sids, q).1, p)
  {
    SendToKeeps(sids, q, p);
  }

  lemma SlotBegunBalanced(sh: Shared, sh': Shared, i: nat, r: (Slot, seq<Task>), p: Pkt)
    requires i < |sh.slots| && sh'.slots == sh.slots[i := r.0] && sh'.refCnt == sh.refCnt
    requires Stores(p)(sh.slots[i]) + sh.leaked[p] == Stores(p)(r.0) + Sum(Keeps(p), r.1) + sh'.leaked[p]
    ensures BegunBalanced(sh, sh', r.1, p)
  {
    SumSlotsUpdate(Stores(p), sh.slots, i, r.0);
  }

  lemma TakeRecvBegun(sh: Shared, i: nat, ok: bool, p: Pkt)
    requires i < |sh.slots|
    ensures BegunBalanced(sh, With(sh, i, TakeRecvFrom(sh.slots[i], i, ok).0), TakeRecvFrom(sh.slots[i], i, ok).1, p)
  {
    var r := TakeRecvFrom(sh.slots[i], i, ok);
    TakeRecvBalanced(sh.slots[i], i, ok, p);
    SlotBegunBalanced(sh, With(sh, i, r.0), i, r, p);
  }

  lemma TakeReleaseBegun(sh: Shared, i: nat, p: Pkt)
    requires i < |sh.slots|
    ensures BegunBalanced(sh, With(sh, i, TakeReleaseFrom(sh.slots[i], i).0), TakeReleaseFrom(sh.slots[i], i).1, p)
  {
    var r := TakeReleaseFrom(sh.slots[i], i);
    TakeReleaseBalanced(sh.slots[i], i, p);
    SlotBegunBalanced(sh, With(sh, i, r.0), i, r, p);
  }

  lemma TakeSendBegun(sh: Shared, i: nat, ok: bool, p: Pkt)
    requires i < |sh.slots|
    ensures BegunBalanced(sh, With(sh.(leaked := sh.leaked + LeakOf(sh.slots[i], ok)), i,
                                   TakeSendFrom(sh.slots[i], i, ok).0),
                          TakeSendFrom(sh.slots[i], i, ok).1, p)
  {
    var r := TakeSendFrom(sh.slots[i], i, ok);
    TakeSendBalanced(sh.slots[i], i, ok, p);
    SlotBegunBalanced(sh, With(sh.(leaked := sh.leaked + LeakOf(sh.slots[i], ok)), i, r.0), i, r, p);
  }

  lemma NothingBegun(sh: Shared, p: Pkt)
    ensures BegunBalanced(sh, sh, [], p)
  {
  }

  lemma KickBegun(sh: Shared, sid: nat, p: Pkt)
    ensures BegunBalanced(sh, sh, [UseT(Find(sid, Kick))], p)
  {
    SumShort(Keeps(p), [UseT(Find(sid, Kick))]);
  }

  lemma BeginCallBalanced(sh: Shared, t: Tid, c: Choice, p: Pkt)
    requires c.op.Accept? || c.op.StartSend? || c.op.StartKick?
    ensures BegunBalanced(sh, Begin(sh, t, c).0, Begin(sh, t, c).1, p)
  {
    NothingBegun(sh, p);
    match c.op
    case Accept => AcceptBegunBalanced(sh, p);
    case StartSend(sids, q) => SendBegunBalanced(sh, sids, q, p);
    case StartKick(sid) => KickBegun(sh, sid, p);
  }

  lemma BeginTakeBalanced(sh: Shared, t: Tid, c: Choice, r: (Shared, seq<Task>), p: Pkt)
    requires c.op.TakeRecv? || c.op.TakeSend? || c.op.TakeRelease?
    requires r == Begin(sh, t, c)
    ensures BegunBalanced(sh, r.0, r.1, p)
  {
    var i := c.op.i;
    if t == 0 || i >= |sh.slots| {
      NothingBegun(sh, p);
    } else if c.op.TakeRecv? {
      TakeRecvBegun(sh, i, c.ok, p);
    } else if c.op.TakeSend? {
      BeginTakeSendBalanced(sh, t, c, r, p);
    } else {
      TakeReleaseBegun(sh, i, p);
    }
  }

  lemma BeginTakeSendBalanced(sh: Shared, t: Tid, c: Choice, r: (Shared, seq<Task>), p: Pkt)
    requires c.op.TakeSend? && t != 0 && c.op.i < |sh.slots| && r == Begin(sh, t, c)
    ensures BegunBalanced(sh, r.0, r.1, p)
  {
    TakeSendBegun(sh, c.op.i, c.ok, p);
  }

  lemma BeginPackets(s: State, t: Tid, c: Choice)
    requires Idle(s, t)
    ensures PacketsOk(Begun(s, t, c))
  {
    forall p: Pkt ensures PacketOk(Begun(s, t, c), p) {
      assert PacketOk(s, p);
      if c.op.Accept? || c.op.StartSend? || c.op.StartKick? {
        BeginCallBalanced(s.sh, t, c, p);
      } else {
        BeginTakeBalanced(s.sh, t, c, Begin(s.sh, t, c), p);
      }
      SumAllUpdate(Keeps(p), s.threads, t, Begin(s.sh, t, c).1);
    }
  }

  lemma BeginFirst(s: State, t: Tid, c: Choice)
    requires Idle(s, t)
    ensures FirstOk(Begun(s, t, c))
  {
    if Accepting(s.sh, t, c) {
      BeginOpened(s, t, c);
    } else {
      BeginCalm(s.sh, t, c);
      if t == 0 { BeginIdle(s.sh, t, c); }
    }
  }

  lemma BeginIdle(sh: Shared, t: Tid, c: Choice)
    requires !Accepting(sh, t, c) && t == 0
    ensures Begin(sh, t, c).1 == []
  {
  }

  lemma BeginInv(s: State, t: Tid, c: Choice)
    requires Idle(s, t)
    ensures Inv(Begun(s, t, c))
  {
    BeginBooks(s, t, c);
    BeginSlots(s, t, c);
    BeginThreads(s, t, c);
    BeginPackets(s, t, c);
    BeginFirst(s, t, c);
  }

  // ---------------------------------------------------------------- runs

  lemma EmptySlotOk(i: nat, n: Tally)
    requires forall h: Hold :: n(h) == 0
    ensures SlotOk(EmptySlot(), i, n)
  {
    ControlWord(0);
  }

  lemma NoTasks(slots: nat, threads: nat, i: nat)
    ensures forall h: Hold :: Total(Init(slots, threads).threads, i)(h) == 0
  {
    var idle: seq<seq<Task>> := Init(slots, threads).threads;
    forall h: Hold ensures SumAll(Of(h, i), idle) == 0 { SumAllZero(Of(h, i), idle); }
  }

  lemma InitSlot(slots: nat, threads: nat, i: nat)
    requires i < slots
    ensures SlotOk(Init(slots, threads).sh.slots[i], i, Total(Init(slots, threads).threads, i))
  {
    NoTasks(slots, threads, i);
    assert Init(slots, threads).sh.slots[i] == EmptySlot();
    EmptySlotOk(i, Total(Init(slots, threads).threads, i));
  }

  lemma InitSlots(slots: nat, threads: nat)
    ensures SlotsOk(Init(slots, threads))
  {
    forall i: nat | i < slots
      ensures SlotOk(Init(slots, threads).sh.slots[i], i, Total(Init(slots, threads).threads, i))
    {
      InitSlot(slots, threads, i);
    }
  }

  lemma InitThreads(slots: nat, threads: nat)
    ensures ThreadsOk(Init(slots, threads))
  {
    assert Shaped([]);
  }

  lemma InitPackets(slots: nat, threads: nat)
    ensures PacketsOk(Init(slots, threads))
  {
    var s := Init(slots, threads);
    forall p: Pkt ensures PacketOk(s, p) {
      EmptySum(Stores(p), slots);
      SumAllZero(Keeps(p), s.threads);
    }
  }

  lemma InitBooks(slots: nat, threads: nat)
    requires SizesOk(Init(slots, threads))
    ensures IdsOk(Init(slots, threads).sh) && FirstOk(Init(slots, threads))
  {
  }

  lemma InitInv(slots: nat, threads: nat)
    requires SizesOk(Init(slots, threads))
    ensures Inv(Init(slots, threads))
  {
    InitSlots(slots, threads);
    InitThreads(slots, threads);
    InitPackets(slots, threads);
    InitBooks(slots, threads);
    EmptySum(CountedOne(), slots);
    InitStack(slots, threads);
  }

  lemma InitStack(slots: nat, threads: nat)
    ensures StackOk(Init(slots, threads).sh)
  {
    var sh := Init(slots, threads).sh;
    forall i: nat | i < slots ensures i in sh.freeStack { assert sh.freeStack[slots - 1 - i] == i; }
  }

  lemma {:induction false} EmptySum(g: Slot -> nat, slots: nat)
    requires g(EmptySlot()) == 0
    ensures SumSlots(g, seq(slots, _ => EmptySlot())) == 0
  {
    if slots > 0 {
      EmptySum(g, slots - 1);
      assert seq(slots, _ => EmptySlot())[1..] == seq(slots - 1, _ => EmptySlot());
    }
  }

  lemma StepInv(s: State, e: Event)
    requires Inv(s) && Step(s, e).sh.next <= UNIQUE_RANGE
    ensures Inv(Step(s, e))
  {
    if e.t < |s.threads| {
      if s.threads[e.t] == [] { BeginInv(s, e.t, e.c); } else { ExecInv(s, e.t, e.c); }
    }
  }

  lemma StepNext(s: State, e: Event)
    ensures Step(s, e).sh.next >= s.sh.next && |Step(s, e).threads| == |s.threads|
    ensures |Step(s, e).sh.slots| == |s.sh.slots|
  {
    if e.t < |s.threads| {
      if s.threads[e.t] == [] {
        BeginNext(s.sh, e.t, e.c);
        BeginSize(s.sh, e.t, e.c);
      } else {
        NextGrows(s.sh, s.threads[e.t][0], e.c);
        SlotCount(s.sh, s.threads[e.t][0], e.c);
      }
    }
  }

  lemma BeginNext(sh: Shared, t: Tid, c: Choice)
    ensures Begin(sh, t, c).0.next == sh.next
  {
  }

  /** The configurations and runs the server is meant for: more than one slot but an index that fits
    * 16 bits, and fewer than 2^48 sessions.
    */
  predicate Proper(slots: nat, threads: nat, events: seq<Event>) {
    SizesOk(Init(slots, threads)) && Run(Init(slots, threads), events).sh.next <= UNIQUE_RANGE
  }

  lemma {:induction false} RunInv(slots: nat, threads: nat, events: seq<Event>)
    requires Proper(slots, threads, events)
    ensures Inv(Run(Init(slots, threads), events))
    decreases |events|
  {
    if events == [] {
      InitInv(slots, threads);
    } else {
      var before, e := Run(Init(slots, threads), events[..|events| - 1]), events[|events| - 1];
      StepNext(before, e);
      RunInv(slots, threads, events[..|events| - 1]);
      StepInv(before, e);
    }
  }
}
