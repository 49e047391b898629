/** Retired nodes do get reclaimed: a scan begins at every 64th retire of a run, and a scan deletes exactly
  * the nodes of its list that no hazard slot it read has named.
  */
module LockFreeQueueReclaim {
  import opened Common
  import opened LockFreeQueue
  import opened LockFreeQueueInvariant
  import opened LockFreeQueueTheorems

  // ---------------------------------------------------------------- when scans begin

  /** This event counts a retired node. */
  predicate Counts<T>(s: State<T>, e: Event<T>) { Step(s, e).sh.retireCount != s.sh.retireCount }

  /** With this event a thread enters ScanRetired, where its next access takes the retired list. */
  predicate BeginsScan<T(==)>(s: State<T>, e: Event<T>) {
    e.t < |s.threads| && s.threads[e.t].pc != Ret(SExchange) && Step(s, e).threads[e.t].pc == Ret(SExchange)
  }

  /** How many nodes have been retired and counted during a run. */
  function Retires<T>(s: State<T>, events: seq<Event<T>>): nat
    decreases |events|
  {
    if events == [] then 0
    else
      var before := events[..|events| - 1];
      Retires(s, before) + One(Counts(Run(s, before), events[|events| - 1]))
  }

  /** How many scans have begun during a run, those still under way included. */
  function Scans<T(==)>(s: State<T>, events: seq<Event<T>>): nat
    decreases |events|
  {
    if events == [] then 0
    else
      var before := events[..|events| - 1];
      Scans(s, before) + One(BeginsScan(Run(s, before), events[|events| - 1]))
  }

  predicate AtCount<T>(pc: Pc<T>) { pc.Ret? && pc.r.RCount? }

  predicate CountedNow<T>(s: State<T>, e: Event<T>) { e.t < |s.threads| && AtCount(s.threads[e.t].pc) }

  lemma CountStep<T>(s: State<T>, e: Event<T>)
    requires CountedNow(s, e)
    ensures Step(s, e).sh.retireCount == (s.sh.retireCount + 1) % WORD
    ensures BeginsScan(s, e) <==> s.sh.retireCount % 64 == 63
  {
  }

  lemma OtherStep<T>(s: State<T>, e: Event<T>)
    requires !CountedNow(s, e)
    ensures Step(s, e).sh.retireCount == s.sh.retireCount && !BeginsScan(s, e)
  {
    if e.t < |s.threads| { NoScanYet(s, e.t, s.threads[e.t], e.c); }
  }

  lemma NoScanYet<T>(s: State<T>, t: Tid, th: Thread<T>, c: Choice<T>)
    requires !AtCount(th.pc)
    ensures var (sh, th') := StepShared(s, t, th, c);
            sh.retireCount == s.sh.retireCount && (th'.pc == Ret(SExchange) ==> th.pc == Ret(SExchange))
  {
    if th.pc.Ret? && !Reads(th.pc.r) { NoScanInReclaim(s.sh, t, th, th.pc.r); }
  }

  lemma NoScanInReclaim<T>(sh: Shared<T>, t: Tid, th: Thread<T>, r: RetirePc)
    requires !Reads(r) && !r.RCount? && th.pc == Ret(r)
    ensures var (sh', th') := StepReclaim(sh, t, th, r);
            sh'.retireCount == sh.retireCount && (th'.pc == Ret(SExchange) ==> th.pc == Ret(SExchange))
  {
  }

  lemma WrapAgrees(r: nat)
    ensures (r % WORD + 1) % WORD == (r + 1) % WORD && (r % WORD + 1) % WORD != r % WORD
  {
  }

  lemma LowBitsSurviveWrap(r: nat)
    ensures r % WORD % 64 == r % 64
  {
    var q := r / WORD;
    assert r == q * WORD + r % WORD;
    assert r == 64 * (q * 0x400_0000_0000_0000) + r % WORD;
  }

  lemma Every64th(r: nat)
    ensures (r + 1) / 64 == r / 64 + One(r % 64 == 63)
  {
  }

  lemma Tick(r: nat, count: nat, count': nat, begins: bool)
    requires count == r % WORD && count' == (count + 1) % WORD && (begins <==> count % 64 == 63)
    ensures count' != count && count' == (r + 1) % WORD && (r + 1) / 64 == r / 64 + One(begins)
  {
    WrapAgrees(r);
    LowBitsSurviveWrap(r);
    Every64th(r);
  }

  predicate Ticks(retires: nat, scans: nat, count: nat) { scans == retires / 64 && count == retires % WORD }

  lemma ScanTick<T>(s: State<T>, e: Event<T>, retires: nat, scans: nat)
    requires Ticks(retires, scans, s.sh.retireCount)
    ensures Ticks(retires + One(Counts(s, e)), scans + One(BeginsScan(s, e)), Step(s, e).sh.retireCount)
  {
    if CountedNow(s, e) {
      CountStep(s, e);
      Tick(retires, s.sh.retireCount, Step(s, e).sh.retireCount, BeginsScan(s, e));
    } else {
      OtherStep(s, e);
    }
  }

  lemma {:induction false} RunTicks<T>(s: State<T>, events: seq<Event<T>>)
    requires s.sh.retireCount == 0
    ensures Ticks(Retires(s, events), Scans(s, events), Run(s, events).sh.retireCount)
    decreases |events|
  {
    if events != [] {
      var before, e := events[..|events| - 1], events[|events| - 1];
      RunTicks(s, before);
      ScanTick(Run(s, before), e, Retires(s, before), Scans(s, before));
    }
  }

  /** Every 64th counted retire begins a scan, and nothing else does. */
  lemma ScanEvery64Retires<T>(sentinel: Addr, n: nat, events: seq<Event<T>>)
    ensures var s := Init<T>(sentinel, n);
            && Scans(s, events) == Retires(s, events) / 64
            && Run(s, events).sh.retireCount == Retires(s, events) % WORD
  {
    RunTicks(Init<T>(sentinel, n), events);
  }

  /** The thread has taken a node off the queue and not yet counted its retire. */
  predicate ToCount<T>(pc: Pc<T>) {
    match pc
    case Deq(DCount(_)) => true
    case Deq(DClear2(taken)) => taken.Some?
    case Deq(DClear1(taken)) => taken.Some?
    case Ret(RPush(_)) => true
    case Ret(RCount) => true
    case _ => false
  }

  lemma {:induction false} CountUpdate<T>(threads: seq<Thread<T>>, p: Pc<T> -> bool, t: Tid, th: Thread<T>)
    requires t < |threads|
    ensures CountPc(threads[t := th], p) + One(p(threads[t].pc)) == CountPc(threads, p) + One(p(th.pc))
  {
    if t == 0 {
      assert threads[0 := th][1..] == threads[1..];
    } else {
      CountUpdate(threads[1..], p, t - 1, th);
      assert threads[t := th][1..] == threads[1..][t - 1 := th];
    }
  }

  /** Only a head CAS takes a node off the queue, and only the count ends its retire. */
  lemma TakenOrCounted<T>(s: State<T>, t: Tid, th: Thread<T>, c: Choice<T>)
    ensures var (sh', th') := StepShared(s, t, th, c);
            |sh'.dequeued| + One(ToCount(th.pc)) == |s.sh.dequeued| + One(ToCount(th'.pc)) + One(AtCount(th.pc))
  {
    match th.pc
    case Idle =>
    case Enq(e) => TakenEnqueue(s.sh, t, th, e, c);
    case Deq(d) => TakenDequeue(s.sh, t, th, d, c);
    case Ret(r) => TakenRetire(s, t, th, r);
  }

  lemma TakenEnqueue<T>(sh: Shared<T>, t: Tid, th: Thread<T>, e: EnqueuePc<T>, c: Choice<T>)
    requires th.pc == Enq(e)
    ensures var (sh', th') := StepEnqueue(sh, t, th, e, c); sh'.dequeued == sh.dequeued && !ToCount(th'.pc)
  {
  }

  lemma TakenDequeue<T>(sh: Shared<T>, t: Tid, th: Thread<T>, d: DequeuePc<T>, c: Choice<T>)
    requires th.pc == Deq(d)
    ensures var (sh', th') := StepDequeue(sh, t, th, d, c);
            |sh'.dequeued| + One(ToCount(th.pc)) == |sh.dequeued| + One(ToCount(th'.pc))
  {
  }

  lemma TakenRetire<T>(s: State<T>, t: Tid, th: Thread<T>, r: RetirePc)
    requires th.pc == Ret(r)
    ensures var (sh', th') := StepRetire(s, t, th, r);
            sh'.dequeued == s.sh.dequeued && One(ToCount(th.pc)) == One(ToCount(th'.pc)) + One(r.RCount?)
  {
  }

  /** Every node taken off the queue is retired and counted once, but for those on their way to it. */
  lemma {:induction false} RetiresFollowTakes<T>(sentinel: Addr, n: nat, events: seq<Event<T>>)
    ensures var s := Init<T>(sentinel, n);
            |Run(s, events).sh.dequeued| == Retires(s, events) + CountPc(Run(s, events).threads, ToCount)
    decreases |events|
  {
    if events == [] {
      CountZero(Init<T>(sentinel, n).threads, ToCount);
    } else {
      var before, e := events[..|events| - 1], events[|events| - 1];
      RetiresFollowTakes<T>(sentinel, n, before);
      ScanEvery64Retires<T>(sentinel, n, before);
      WrapAgrees(Retires(Init<T>(sentinel, n), before));
      TakenStep(Run(Init<T>(sentinel, n), before), e);
    }
  }

  lemma TakenStep<T>(s: State<T>, e: Event<T>)
    requires (s.sh.retireCount + 1) % WORD != s.sh.retireCount
    ensures |Step(s, e).sh.dequeued| + CountPc(s.threads, ToCount) ==
            |s.sh.dequeued| + CountPc(Step(s, e).threads, ToCount) + One(Counts(s, e))
  {
    if CountedNow(s, e) { CountStep(s, e); } else { OtherStep(s, e); }
    if e.t < |s.threads| {
      var th' := StepShared(s, e.t, s.threads[e.t], e.c).1;
      TakenOrCounted(s, e.t, s.threads[e.t], e.c);
      CountUpdate(s.threads, ToCount, e.t, th');
    }
  }

  /** So scans keep up with the queue: in every run, the number of scans begun is the number of values taken,
    * less the takes that have not yet counted their node, divided by 64.
    */
  lemma ScansKeepUp<T>(sentinel: Addr, n: nat, events: seq<Event<T>>)
    ensures var s := Run(Init<T>(sentinel, n), events);
            && CountPc(s.threads, ToCount) <= |s.sh.dequeued|
            && Scans(Init<T>(sentinel, n), events) == (|s.sh.dequeued| - CountPc(s.threads, ToCount)) / 64
  {
    RetiresFollowTakes<T>(sentinel, n, events);
    ScanEvery64Retires<T>(sentinel, n, events);
  }

  // ---------------------------------------------------------------- what a scan does

  ghost predicate StepAt<T>(tr: seq<State<T>>, events: seq<Event<T>>, j: nat) {
    j < |events| && j + 1 < |tr| && tr[j + 1] == Step(tr[j], events[j])
  }

  /** The states that these events lead through, from a state that the invariant allows. */
  ghost predicate Trace<T>(tr: seq<State<T>>, events: seq<Event<T>>) {
    |tr| == |events| + 1 && Inv(tr[0]) && forall j: nat :: j < |events| ==> StepAt(tr, events, j)
  }

  lemma {:induction false} TraceInv<T>(tr: seq<State<T>>, events: seq<Event<T>>, j: nat)
    requires Trace(tr, events) && j < |tr|
    ensures Inv(tr[j])
  {
    if j > 0 {
      TraceInv(tr, events, j - 1);
      assert StepAt(tr, events, j - 1);
      StepInv(tr[j - 1], events[j - 1]);
    }
  }

  /** The nodes that leave the heap. */
  function Freed<T>(sh: Shared<T>, sh': Shared<T>): multiset<Addr> { multiset(sh.heap.Keys - sh'.heap.Keys) }

  /** The node that is put on top of the retired list, if any. */
  function Returned<T>(sh: Shared<T>, sh': Shared<T>): multiset<Addr> {
    if |sh'.retired| == |sh.retired| + 1 && sh'.retired[1..] == sh.retired then multiset{sh'.retired[0]}
    else multiset{}
  }

  /** What thread `t` reads from a hazard slot with its next access. */
  function SlotRead<T>(s: State<T>, t: Tid): set<Addr> {
    if t >= |s.threads| || !s.threads[t].pc.Ret? then {}
    else
      match s.threads[t].pc.r
      case SFirst(_, pending, _) =>
        if pending != [] && pending[0] < |s.threads| then {s.threads[pending[0]].first} else {}
      case SSecond(_, pending, _) =>
        if pending != [] && pending[0] < |s.threads| then {s.threads[pending[0]].second} else {}
      case _ => {}
  }

  /** What thread `t` does to heap and retired list from event `a` on until before event `b`. */
  datatype Deeds = Deeds(freed: multiset<Addr>, returned: multiset<Addr>, read: set<Addr>)

  ghost function DeedsOf<T>(tr: seq<State<T>>, events: seq<Event<T>>, t: Tid, a: nat, b: nat): Deeds
    requires |tr| == |events| + 1 && b <= |events|
  {
    if b <= a then Deeds(multiset{}, multiset{}, {})
    else
      var d := DeedsOf(tr, events, t, a, b - 1);
      if events[b - 1].t != t then d
      else Deeds(d.freed + Freed(tr[b - 1].sh, tr[b].sh), d.returned + Returned(tr[b - 1].sh, tr[b].sh),
                 d.read + SlotRead(tr[b - 1], t))
  }

  /** How far a scan that took the nodes `all` has come. */
  ghost predicate Scanning(all: seq<Addr>, r: RetirePc, d: Deeds) {
    match r
    case SRecords(list) => list == all && d.freed == d.returned == multiset{} && d.read == {}
    case SFirst(list, _, guarded) =>
      list == all && d.freed == d.returned == multiset{} && guarded == d.read - {NULL}
    case SSecond(list, _, guarded) =>
      list == all && d.freed == d.returned == multiset{} && guarded == d.read - {NULL}
    case SSplit(list, guarded, keep) =>
      && multiset(all) == d.freed + multiset(list) + multiset(keep)
      && d.returned == multiset{} && guarded == d.read - {NULL}
      && (forall x :: x in keep ==> x in guarded) && forall x :: x in d.freed ==> x !in guarded
    case SBack(keep) =>
      && multiset(all) == d.freed + d.returned + multiset(keep)
      && (forall x :: x in keep || x in d.returned ==> x in d.read - {NULL})
      && forall x :: x in d.freed ==> x !in d.read - {NULL}
    case _ => false
  }

  ghost predicate Split(all: seq<Addr>, d: Deeds) {
    && multiset(all) == d.freed + d.returned
    && (forall x :: x in d.returned ==> x in d.read - {NULL}) && forall x :: x in d.freed ==> x !in d.read - {NULL}
  }

  ghost predicate ScanAt<T>(all: seq<Addr>, pc: Pc<T>, d: Deeds) {
    if pc == Idle then Split(all, d) else pc.Ret? && Scanning(all, pc.r, d)
  }

  function Then(d: Deeds, freed: multiset<Addr>, returned: multiset<Addr>, read: set<Addr>): Deeds {
    Deeds(d.freed + freed, d.returned + returned, d.read + read)
  }

  lemma ExchangeStep<T>(s: State<T>, t: Tid, c: Choice<T>)
    requires t < |s.threads| && s.threads[t].pc == Ret(SExchange)
    ensures var s' := Step(s, Event(t, c));
            && t < |s'.threads| && s'.sh.retired == []
            && Freed(s.sh, s'.sh) == multiset{} && Returned(s.sh, s'.sh) == multiset{} && SlotRead(s, t) == {}
            && s'.threads[t].pc == (if s.sh.retired == [] then Idle else Ret(SRecords(s.sh.retired)))
  {
    assert Hold(s.sh.heap, s.sh.retired, t).Keys == s.sh.heap.Keys;
  }

  lemma ReadStep<T>(s: State<T>, t: Tid, c: Choice<T>, all: seq<Addr>, d: Deeds)
    requires t < |s.threads| && s.threads[t].pc.Ret? && Reads(s.threads[t].pc.r)
    requires Scanning(all, s.threads[t].pc.r, d)
    ensures var s' := Step(s, Event(t, c));
            && t < |s'.threads| && s'.sh == s.sh
            && ScanAt(all, s'.threads[t].pc, Then(d, multiset{}, multiset{}, SlotRead(s, t)))
  {
    var th, r := s.threads[t], s.threads[t].pc.r;
    ReadKeeps(s, t, th, r, all, d);
  }

  lemma ReadKeeps<T>(s: State<T>, t: Tid, th: Thread<T>, r: RetirePc, all: seq<Addr>, d: Deeds)
    requires t < |s.threads| && s.threads[t] == th && th.pc == Ret(r) && Reads(r) && Scanning(all, r, d)
    ensures ScanAt(all, StepRead(s, th, r).pc, Then(d, multiset{}, multiset{}, SlotRead(s, t)))
  {
  }

  lemma DeleteFrees<T>(sh: Shared<T>, a: Addr)
    requires a in sh.heap
    ensures Freed(sh, sh.(heap := sh.heap - {a})) == multiset{a}
  {
    assert sh.heap.Keys - (sh.heap - {a}).Keys == {a};
  }

  lemma PushReturns<T>(sh: Shared<T>, a: Addr)
    requires a in sh.heap
    ensures Freed(sh, PushRetired(sh, a)) == multiset{} && Returned(sh, PushRetired(sh, a)) == multiset{a}
  {
    assert PushRetired(sh, a).heap.Keys == sh.heap.Keys;
    assert ([a] + sh.retired)[1..] == sh.retired;
  }

  lemma SplitKeeps(all: seq<Addr>, list: seq<Addr>, guarded: set<Addr>, keep: seq<Addr>, d: Deeds)
    requires Scanning(all, SSplit(list, guarded, keep), d) && list != [] && list[0] in guarded
    ensures Scanning(all, SSplit(list[1..], guarded, [list[0]] + keep), Then(d, multiset{}, multiset{}, {}))
  {
    assert list == [list[0]] + list[1..];
  }

  lemma SplitFrees(all: seq<Addr>, list: seq<Addr>, guarded: set<Addr>, keep: seq<Addr>, d: Deeds)
    requires Scanning(all, SSplit(list, guarded, keep), d) && list != [] && list[0] !in guarded
    ensures Scanning(all, SSplit(list[1..], guarded, keep), Then(d, multiset{list[0]}, multiset{}, {}))
  {
    assert list == [list[0]] + list[1..];
  }

  lemma SplitEnds(all: seq<Addr>, guarded: set<Addr>, keep: seq<Addr>, d: Deeds)
    requires Scanning(all, SSplit([], guarded, keep), d)
    ensures Scanning(all, SBack(keep), Then(d, multiset{}, multiset{}, {}))
  {
  }

  lemma BackReturns(all: seq<Addr>, keep: seq<Addr>, d: Deeds)
    requires Scanning(all, SBack(keep), d) && keep != []
    ensures Scanning(all, SBack(keep[1..]), Then(d, multiset{}, multiset{keep[0]}, {}))
  {
    assert keep == [keep[0]] + keep[1..];
  }

  lemma BackEnds(all: seq<Addr>, d: Deeds)
    requires Scanning(all, SBack([]), d)
    ensures Split(all, Then(d, multiset{}, multiset{}, {}))
  {
  }

  lemma QuietDeeds<T>(sh: Shared<T>)
    ensures Freed(sh, sh) == multiset{} && Returned(sh, sh) == multiset{}
  {
    assert sh.heap.Keys - sh.heap.Keys == {};
  }

  /** What an access of a scan that reads no slot does to heap, retired list and thread. */
  lemma ReclaimStep<T>(s: State<T>, t: Tid, c: Choice<T>, r: RetirePc)
    requires t < |s.threads| && s.threads[t].pc == Ret(r) && !Reads(r)
    ensures var s', (sh', th') := Step(s, Event(t, c)), StepReclaim(s.sh, t, s.threads[t], r);
            s'.sh == sh' && t < |s'.threads| && s'.threads[t] == th' && SlotRead(s, t) == {}
  {
  }

  /** One access of the loop over the list: it comes to the end, sets a guarded node aside, or deletes one. */
  lemma SplitShape<T>(sh: Shared<T>, t: Tid, th: Thread<T>, list: seq<Addr>, guarded: set<Addr>, keep: seq<Addr>)
    ensures var (sh', th') := StepReclaim(sh, t, th, SSplit(list, guarded, keep));
            sh'.fault ||
            (Returned(sh, sh') == multiset{} &&
             if list == [] then th'.pc == Ret(SBack(keep)) && Freed(sh, sh') == multiset{}
             else if list[0] in guarded
             then th'.pc == Ret(SSplit(list[1..], guarded, [list[0]] + keep)) && Freed(sh, sh') == multiset{}
             else th'.pc == Ret(SSplit(list[1..], guarded, keep)) && Freed(sh, sh') == multiset{list[0]})
  {
    QuietDeeds(sh);
    if list != [] && list[0] !in guarded && list[0] in sh.heap { DeleteFrees(sh, list[0]); }
  }

  ghost predicate SplitsTo(all: seq<Addr>, list: seq<Addr>, guarded: set<Addr>, keep: seq<Addr>, d: Deeds) {
    if list == [] then Scanning(all, SBack(keep), Then(d, multiset{}, multiset{}, {}))
    else if list[0] in guarded
    then Scanning(all, SSplit(list[1..], guarded, [list[0]] + keep), Then(d, multiset{}, multiset{}, {}))
    else Scanning(all, SSplit(list[1..], guarded, keep), Then(d, multiset{list[0]}, multiset{}, {}))
  }

  lemma SplitGoesOn(all: seq<Addr>, list: seq<Addr>, guarded: set<Addr>, keep: seq<Addr>, d: Deeds)
    requires Scanning(all, SSplit(list, guarded, keep), d)
    ensures SplitsTo(all, list, guarded, keep, d)
  {
    if list == [] { SplitEnds(all, guarded, keep, d); }
    else if list[0] in guarded { SplitKeeps(all, list, guarded, keep, d); }
    else { SplitFrees(all, list, guarded, keep, d); }
  }

  lemma SplitStep<T>(sh: Shared<T>, t: Tid, th: Thread<T>, list: seq<Addr>, guarded: set<Addr>, keep: seq<Addr>,
                     all: seq<Addr>, d: Deeds)
    requires SplitsTo(all, list, guarded, keep, d)
    ensures var (sh', th') := StepReclaim(sh, t, th, SSplit(list, guarded, keep));
            sh'.fault || ScanAt(all, th'.pc, Then(d, Freed(sh, sh'), Returned(sh, sh'), {}))
  {
    SplitShape(sh, t, th, list, guarded, keep);
  }

  lemma BackStep<T>(sh: Shared<T>, t: Tid, th: Thread<T>, r: RetirePc, all: seq<Addr>, d: Deeds)
    requires r.SBack? && th.pc == Ret(r) && Scanning(all, r, d)
    ensures var (sh', th') := StepReclaim(sh, t, th, r);
            sh'.fault || ScanAt(all, th'.pc, Then(d, Freed(sh, sh'), Returned(sh, sh'), {}))
  {
    QuietDeeds(sh);
    if r.keep == [] {
      BackEnds(all, d);
    } else if r.keep[0] in sh.heap {
      BackReturns(all, r.keep, d);
      PushReturns(sh, r.keep[0]);
    }
  }

  lemma OwnScanStep<T>(s: State<T>, t: Tid, c: Choice<T>, all: seq<Addr>, d: Deeds)
    requires !Step(s, Event(t, c)).sh.fault && t < |s.threads| && s.threads[t].pc != Idle
    requires ScanAt(all, s.threads[t].pc, d)
    ensures var s' := Step(s, Event(t, c));
            && t < |s'.threads|
            && ScanAt(all, s'.threads[t].pc, Then(d, Freed(s.sh, s'.sh), Returned(s.sh, s'.sh), SlotRead(s, t)))
  {
    var r := s.threads[t].pc.r;
    if Reads(r) {
      ReadStep(s, t, c, all, d);
      QuietDeeds(s.sh);
    } else {
      ReclaimStep(s, t, c, r);
      if r.SSplit? {
        SplitGoesOn(all, r.list, r.guarded, r.keep, d);
        SplitStep(s.sh, t, s.threads[t], r.list, r.guarded, r.keep, all, d);
      } else {
        BackStep(s.sh, t, s.threads[t], r, all, d);
      }
    }
  }

  /** Thread `t` enters a scan at state `a`, takes the retired list with event `a`, and is done at state `z`. */
  ghost predicate ScansFrom<T>(tr: seq<State<T>>, events: seq<Event<T>>, t: Tid, a: nat, z: nat) {
    && a < z < |tr| == |events| + 1 && events[a].t == t
    && t < |tr[a].threads| && tr[a].threads[t].pc == Ret(SExchange)
    && (forall j: nat :: a <= j < z ==> t < |tr[j].threads| && tr[j].threads[t].pc != Idle)
    && t < |tr[z].threads| && tr[z].threads[t].pc == Idle
  }

  /** At state `j` thread `t` is in its scan of the nodes `all`, or is done with it. */
  ghost predicate ScanStands<T>(tr: seq<State<T>>, events: seq<Event<T>>, t: Tid, a: nat, j: nat, all: seq<Addr>) {
    && j < |tr| == |events| + 1 && t < |tr[j].threads|
    && ScanAt(all, tr[j].threads[t].pc, DeedsOf(tr, events, t, a, j))
  }

  lemma ScanTakes<T>(tr: seq<State<T>>, events: seq<Event<T>>, t: Tid, a: nat, z: nat)
    requires Trace(tr, events) && ScansFrom(tr, events, t, a, z)
    ensures tr[a + 1].sh.retired == [] && ScanStands(tr, events, t, a, a + 1, tr[a].sh.retired)
  {
    assert StepAt(tr, events, a);
    assert events[a] == Event(t, events[a].c);
    ExchangeStep(tr[a], t, events[a].c);
    assert DeedsOf(tr, events, t, a, a) == Deeds(multiset{}, multiset{}, {});
  }

  lemma ScanNext<T>(s: State<T>, e: Event<T>, t: Tid, all: seq<Addr>, d: Deeds)
    requires !Step(s, e).sh.fault && t < |s.threads| && s.threads[t].pc != Idle && ScanAt(all, s.threads[t].pc, d)
    ensures var s' := Step(s, e);
            t < |s'.threads| &&
            ScanAt(all, s'.threads[t].pc,
                   if e.t != t then d else Then(d, Freed(s.sh, s'.sh), Returned(s.sh, s'.sh), SlotRead(s, t)))
  {
    if e.t == t {
      assert e == Event(t, e.c);
      OwnScanStep(s, t, e.c, all, d);
    } else {
      OthersProgress(BeginDequeue, s, e, t);
    }
  }

  lemma NoFaultAt<T>(tr: seq<State<T>>, events: seq<Event<T>>, j: nat)
    requires Trace(tr, events) && j < |tr|
    ensures !tr[j].sh.fault
  {
    TraceInv(tr, events, j);
  }

  lemma ScanGoesOn<T>(tr: seq<State<T>>, events: seq<Event<T>>, t: Tid, a: nat, j: nat, all: seq<Addr>)
    requires Trace(tr, events) && a <= j < |events| && t < |tr[j].threads| && tr[j].threads[t].pc != Idle
    requires ScanStands(tr, events, t, a, j, all)
    ensures ScanStands(tr, events, t, a, j + 1, all)
  {
    assert StepAt(tr, events, j);
    NoFaultAt(tr, events, j + 1);
    ScanNext(tr[j], events[j], t, all, DeedsOf(tr, events, t, a, j));
  }

  lemma {:induction false} ScanCourse<T>(tr: seq<State<T>>, events: seq<Event<T>>, t: Tid, a: nat, z: nat, j: nat)
    requires Trace(tr, events) && ScansFrom(tr, events, t, a, z) && a < j <= z
    ensures ScanStands(tr, events, t, a, j, tr[a].sh.retired)
    decreases j
  {
    if j == a + 1 {
      ScanTakes(tr, events, t, a, z);
    } else {
      ScanCourse(tr, events, t, a, z, j - 1);
      ScanGoesOn(tr, events, t, a, j - 1, tr[a].sh.retired);
    }
  }

  lemma RetiredNonNull<T>(sh: Shared<T>, x: Addr)
    requires SharedOk(sh) && x in sh.retired
    ensures x != NULL && multiset(sh.retired)[x] == 1
  {
    assert NodeOk(sh, x);
  }

  /** A scan, whatever other threads do during it, deals with each node of the list it took exactly once: it is
    * either deleted or pushed back, and it is pushed back exactly if one of the scan's reads of a hazard slot
    * gave that node. It deletes and pushes back nothing else.
    */
  lemma ScanSplitsItsList<T>(tr: seq<State<T>>, events: seq<Event<T>>, t: Tid, a: nat, z: nat)
    requires Trace(tr, events) && ScansFrom(tr, events, t, a, z)
    ensures var all, d := tr[a].sh.retired, DeedsOf(tr, events, t, a, z);
            && tr[a + 1].sh.retired == []
            && multiset(all) == d.freed + d.returned
            && (forall x :: x in all ==> d.freed[x] + d.returned[x] == 1)
            && forall x :: x in all ==> (x in d.returned <==> x in d.read)
  {
    var all, d := tr[a].sh.retired, DeedsOf(tr, events, t, a, z);
    ScanTakes(tr, events, t, a, z);
    ScanCourse(tr, events, t, a, z, z);
    TraceInv(tr, events, a);
    forall x | x in all ensures d.freed[x] + d.returned[x] == 1 && (x in d.returned <==> x in d.read) {
      RetiredNonNull(tr[a].sh, x);
      assert multiset(all)[x] == d.freed[x] + d.returned[x];
    }
  }

  // ---------------------------------------------------------------- hazards are given back

  /** The thread has cleared both of its hazard slots, or has not yet used them. */
  predicate Cleared<T>(pc: Pc<T>) {
    match pc
    case Idle => true
    case Ret(_) => true
    case Enq(e) => e.EAlloc? || e.ERegister?
    case Deq(d) => d.DRegister?
  }

  predicate GuardsNothing<T>(th: Thread<T>) {
    && (Cleared(th.pc) ==> th.first == NULL && th.second == NULL)
    && (th.pc.Enq? || (th.pc.Deq? && th.pc.d.DClear1?) ==> th.second == NULL)
  }

  lemma ClearStep<T>(s: State<T>, t: Tid, th: Thread<T>, c: Choice<T>)
    requires GuardsNothing(th)
    ensures GuardsNothing(StepShared(s, t, th, c).1)
  {
    match th.pc
    case Idle =>
    case Enq(e) => ClearEnqueue(s.sh, t, th, e, c);
    case Deq(d) => ClearDequeue(s.sh, t, th, d, c);
    case Ret(r) => if !Reads(r) { ClearRetire(s.sh, t, th, r); }
  }

  lemma ClearEnqueue<T>(sh: Shared<T>, t: Tid, th: Thread<T>, e: EnqueuePc<T>, c: Choice<T>)
    requires GuardsNothing(th) && th.pc == Enq(e)
    ensures GuardsNothing(StepEnqueue(sh, t, th, e, c).1)
  {
  }

  lemma ClearDequeue<T>(sh: Shared<T>, t: Tid, th: Thread<T>, d: DequeuePc<T>, c: Choice<T>)
    requires GuardsNothing(th) && th.pc == Deq(d)
    ensures GuardsNothing(StepDequeue(sh, t, th, d, c).1)
  {
  }

  lemma ClearRetire<T>(sh: Shared<T>, t: Tid, th: Thread<T>, r: RetirePc)
    requires GuardsNothing(th) && th.pc == Ret(r) && !Reads(r)
    ensures GuardsNothing(StepReclaim(sh, t, th, r).1)
  {
  }

  lemma {:induction false} RunGuardsNothing<T>(sentinel: Addr, n: nat, events: seq<Event<T>>, t: Tid)
    requires t < |Run(Init<T>(sentinel, n), events).threads|
    ensures GuardsNothing(Run(Init<T>(sentinel, n), events).threads[t])
    decreases |events|
  {
    if events != [] {
      var before, e := events[..|events| - 1], events[|events| - 1];
      var s := Run(Init<T>(sentinel, n), before);
      RunGuardsNothing<T>(sentinel, n, before, t);
      if e.t == t { ClearStep(s, t, s.threads[t], e.c); } else { OthersProgress(BeginDequeue, s, e, t); }
    }
  }

  /** Hazards do not outlive the call that set them: a thread outside the queue, or retiring, guards no node, so
    * that a scan pushes back only what calls under way are guarding.
    */
  lemma OutsideGuardsNothing<T>(sentinel: Addr, n: nat, events: seq<Event<T>>, t: Tid)
    requires t < |Run(Init<T>(sentinel, n), events).threads|
    requires var pc := Run(Init<T>(sentinel, n), events).threads[t].pc; pc == Idle || pc.Ret?
    ensures var s := Run(Init<T>(sentinel, n), events);
            s.threads[t].first == NULL && s.threads[t].second == NULL
  {
    RunGuardsNothing<T>(sentinel, n, events, t);
  }
}
