/** What every step of the queue keeps, by rely and guarantee: each thread's facts about its own
  * locals survive any step of another thread (`Evolves`), and a scan has read or will still read
  * every hazard slot that guards a node it may delete (`ScanCovers`).
  */
module LockFreeQueueInvariant {
  import opened Common
  import opened LockFreeQueue

  // ---------------------------------------------------------------- shared state

  ghost predicate OnChain<T>(sh: Shared<T>, i: nat)
    requires i < |sh.links| == |sh.linked| + 1
  {
    var a := sh.links[i];
    && a in sh.heap
    && sh.heap[a].place == Linked
    && sh.heap[a].ord == i
    && sh.heap[a].next == (if i + 1 < |sh.links| then sh.links[i + 1] else NULL)
    && (i > 0 ==> sh.heap[a].value == Some(sh.linked[i - 1]))
  }

  ghost predicate ChainOk<T>(sh: Shared<T>) {
    && |sh.links| == |sh.linked| + 1
    && |sh.dequeued| <= sh.tailIdx < |sh.links| <= sh.tailIdx + 2
    && sh.dequeued == sh.linked[..|sh.dequeued|]
    && sh.head == sh.links[|sh.dequeued|]
    && sh.tail == sh.links[sh.tailIdx]
    && forall i | |sh.dequeued| <= i < |sh.links| :: OnChain(sh, i)
  }

  ghost predicate NodeOk<T>(sh: Shared<T>, a: Addr)
    requires a in sh.heap
  {
    var n := sh.heap[a];
    && a != NULL
    && match n.place
       case Private(_) => n.next == NULL
       case Linked => |sh.dequeued| <= n.ord < |sh.links| && sh.links[n.ord] == a
       case Held(_) => n.ord < |sh.dequeued| && n.next != NULL
       case Retired => n.ord < |sh.dequeued| && n.next != NULL
  }

  ghost predicate SharedOk<T>(sh: Shared<T>) {
    && !sh.fault
    && ChainOk(sh)
    && (forall a | a in sh.heap :: NodeOk(sh, a))
    && (forall a :: multiset(sh.retired)[a] <= 1)
    && (forall a :: a in sh.retired <==> a in sh.heap && sh.heap[a].place == Retired)
  }

  // ---------------------------------------------------------------- one thread

  /** The node a validated first hazard keeps alive. */
  ghost function EnqueueGuard<T>(e: EnqueuePc<T>): Option<Addr> {
    match e
    case ENext(_, _, tail) => Some(tail)
    case EVerify(_, _, tail, _) => Some(tail)
    case ELink(_, _, tail) => Some(tail)
    case EHelp(_, _, tail, _) => Some(tail)
    case ESwing(_, tail) => Some(tail)
    case _ => None
  }

  ghost function DequeueGuard<T>(d: DequeuePc<T>): Option<Addr> {
    match d
    case DNext(head) => Some(head)
    case DStore2(head, _) => Some(head)
    case DVerify(head, _) => Some(head)
    case DTail(head, _) => Some(head)
    case DHelp(head, _) => Some(head)
    case DRead(head, _) => Some(head)
    case DCas(head, _, _) => Some(head)
    case _ => None
  }

  ghost function Guard1<T>(pc: Pc<T>): Option<Addr> {
    match pc
    case Enq(e) => EnqueueGuard(e)
    case Deq(d) => DequeueGuard(d)
    case _ => None
  }

  ghost function NextGuard<T>(d: DequeuePc<T>): Option<Addr> {
    match d
    case DTail(_, next) => Some(next)
    case DHelp(_, next) => Some(next)
    case DRead(_, next) => Some(next)
    case DCas(_, next, _) => Some(next)
    case _ => None
  }

  /** The node a validated second hazard keeps alive. */
  ghost function Guard2<T>(pc: Pc<T>): Option<Addr> {
    if pc.Deq? then NextGuard(pc.d) else None
  }

  ghost function DequeueHolding<T>(d: DequeuePc<T>): multiset<Addr> {
    match d
    case DCount(node) => multiset{node}
    case DClear2(taken) => if taken.Some? then multiset{taken.value} else multiset{}
    case DClear1(taken) => if taken.Some? then multiset{taken.value} else multiset{}
    case _ => multiset{}
  }

  ghost function RetireHolding(r: RetirePc): multiset<Addr> {
    if r.RPush? then multiset{r.node}
    else if r.SRecords? || r.SFirst? || r.SSecond? then multiset(r.list)
    else if r.SSplit? then multiset(r.list) + multiset(r.keep)
    else if r.SBack? then multiset(r.keep)
    else multiset{}
  }

  /** The unlinked nodes only this thread may still free or retire. */
  ghost function Holding<T>(pc: Pc<T>): multiset<Addr> {
    match pc
    case Deq(d) => DequeueHolding(d)
    case Ret(r) => RetireHolding(r)
    case _ => multiset{}
  }

  ghost predicate Guarded<T>(sh: Shared<T>, a: Addr, ord: nat) {
    a in sh.heap && !sh.heap[a].place.Private? && sh.heap[a].ord == ord
  }

  /** The node an enqueuer has allocated and not linked yet. */
  ghost predicate Mine<T>(sh: Shared<T>, t: Tid, node: Addr, item: T) {
    node in sh.heap && sh.heap[node] == Node(NULL, Some(item), 0, Private(t))
  }

  ghost predicate NextIs<T>(sh: Shared<T>, a: Addr, next: Addr) {
    next != NULL && a in sh.heap && sh.heap[a].next == next
  }

  ghost predicate ValueReady<T>(sh: Shared<T>, a: Addr) {
    a in sh.heap && sh.heap[a].value.Some?
  }

  /** Thread `t` has a hazard record, and its first slot guards `a`. */
  ghost predicate First<T>(sh: Shared<T>, t: Tid, th: Thread<T>, a: Addr) {
    t in sh.records && th.first == a && Guarded(sh, a, th.stamp)
  }

  ghost predicate EnqueueOk<T>(sh: Shared<T>, t: Tid, th: Thread<T>, e: EnqueuePc<T>) {
    match e
    case EAlloc(_) => true
    case ERegister(item, node) => Mine(sh, t, node, item)
    case ELoad(item, node) => t in sh.records && Mine(sh, t, node, item)
    case EStore(item, node, _) => t in sh.records && Mine(sh, t, node, item)
    case ECheck(item, node, read) => t in sh.records && Mine(sh, t, node, item) && th.first == read
    case ENext(item, node, tail) => First(sh, t, th, tail) && Mine(sh, t, node, item) && th.stamp <= sh.tailIdx
    case EVerify(item, node, tail, next) =>
      && First(sh, t, th, tail) && Mine(sh, t, node, item) && th.stamp <= sh.tailIdx
      && (next != NULL ==> NextIs(sh, tail, next))
    case ELink(item, node, tail) => First(sh, t, th, tail) && Mine(sh, t, node, item) && th.stamp <= sh.tailIdx
    case EHelp(item, node, tail, next) =>
      First(sh, t, th, tail) && Mine(sh, t, node, item) && NextIs(sh, tail, next)
    case ESwing(node, tail) => First(sh, t, th, tail) && NextIs(sh, tail, node)
    case ECount => true
    case EClear2 => true
    case EClear1 => true
  }

  /** Both slots guard: the old head and its successor. */
  ghost predicate Both<T>(sh: Shared<T>, t: Tid, th: Thread<T>, head: Addr, next: Addr) {
    && First(sh, t, th, head) && th.stamp <= |sh.dequeued|
    && NextIs(sh, head, next)
    && th.second == next && Guarded(sh, next, th.stamp + 1) && ValueReady(sh, next)
  }

  ghost predicate DequeueOk<T>(sh: Shared<T>, t: Tid, th: Thread<T>, d: DequeuePc<T>) {
    match d
    case DRegister => true
    case DLoad => t in sh.records
    case DStore(_) => t in sh.records
    case DCheck(read) => t in sh.records && th.first == read
    case DNext(head) => First(sh, t, th, head) && th.stamp <= |sh.dequeued|
    case DStore2(head, next) =>
      First(sh, t, th, head) && th.stamp <= |sh.dequeued| && (next != NULL ==> NextIs(sh, head, next))
    case DVerify(head, next) =>
      && First(sh, t, th, head) && th.stamp <= |sh.dequeued| && (next != NULL ==> NextIs(sh, head, next))
      && th.second == next
    case DTail(head, next) => Both(sh, t, th, head, next)
    case DHelp(head, next) => Both(sh, t, th, head, next)
    case DRead(head, next) => Both(sh, t, th, head, next) && th.stamp < sh.tailIdx
    case DCas(head, next, v) =>
      Both(sh, t, th, head, next) && th.stamp < sh.tailIdx && sh.heap[next].value == Some(v)
    case DCount(_) => true
    case DClear2(_) => true
    case DClear1(_) => true
  }

  ghost predicate HeldBy<T>(sh: Shared<T>, t: Tid, a: Addr) {
    a in sh.heap && sh.heap[a].place == Held(t)
  }

  /** The nodes of `held`, each once, are exactly the unlinked nodes that belong to thread `t`. */
  ghost predicate Holds<T>(sh: Shared<T>, t: Tid, held: multiset<Addr>) {
    && (forall a :: held[a] <= 1)
    && (forall a :: a in held <==> HeldBy(sh, t, a))
  }

  ghost predicate ThreadOk<T>(sh: Shared<T>, t: Tid, th: Thread<T>) {
    && (th.pc.Enq? ==> EnqueueOk(sh, t, th, th.pc.e))
    && (th.pc.Deq? ==> DequeueOk(sh, t, th, th.pc.d))
    && Holds(sh, t, Holding(th.pc))
  }

  // ---------------------------------------------------------------- interference

  /** What a step of thread `t` may do to a node that exists before and after. */
  ghost predicate NodeEvolves<T>(n: Node<T>, m: Node<T>, t: Tid) {
    && m.value == n.value
    && (n.next != NULL ==> m.next == n.next)
    && (!n.place.Private? ==> !m.place.Private? && m.ord == n.ord)
    && (n.place.Private? && n.place.owner != t ==> m == n)
    && (m.place.Private? ==> m.place == n.place)
    && (forall u: Tid | u != t :: n.place == Held(u) <==> m.place == Held(u))
  }

  ghost predicate Evolves<T>(sh: Shared<T>, sh': Shared<T>, t: Tid) {
    && |sh.dequeued| <= |sh'.dequeued|
    && sh.tailIdx <= sh'.tailIdx
    && (forall u | u in sh.records :: u in sh'.records)
    && (forall a | a in sh.heap && a in sh'.heap :: NodeEvolves(sh.heap[a], sh'.heap[a], t))
    && (forall a | a in sh.heap && a !in sh'.heap :: sh.heap[a].place == Held(t))
    && (forall a | a in sh'.heap && a !in sh.heap :: sh'.heap[a].place == Private(t))
  }

  ghost predicate GuardsAlive<T>(sh: Shared<T>, pc: Pc<T>) {
    && (Guard1(pc).Some? ==> Guard1(pc).value in sh.heap)
    && (Guard2(pc).Some? ==> Guard2(pc).value in sh.heap)
  }

  lemma HoldsStable<T>(sh: Shared<T>, sh': Shared<T>, t: Tid, u: Tid, held: multiset<Addr>)
    requires u != t && Holds(sh, u, held) && Evolves(sh, sh', t)
    ensures Holds(sh', u, held)
  {
    forall a ensures HeldBy(sh, u, a) <==> HeldBy(sh', u, a) {
      if a in sh.heap && a in sh'.heap {
        assert NodeEvolves(sh.heap[a], sh'.heap[a], t);
      }
    }
  }

  lemma EnqueueStable<T>(sh: Shared<T>, sh': Shared<T>, t: Tid, u: Tid, th: Thread<T>, e: EnqueuePc<T>)
    requires u != t && EnqueueOk(sh, u, th, e) && Evolves(sh, sh', t)
    requires EnqueueGuard(e).Some? ==> EnqueueGuard(e).value in sh'.heap
    ensures EnqueueOk(sh', u, th, e)
  {
  }

  lemma DequeueStable<T>(sh: Shared<T>, sh': Shared<T>, t: Tid, u: Tid, th: Thread<T>, d: DequeuePc<T>)
    requires u != t && DequeueOk(sh, u, th, d) && Evolves(sh, sh', t)
    requires DequeueGuard(d).Some? ==> DequeueGuard(d).value in sh'.heap
    requires NextGuard(d).Some? ==> NextGuard(d).value in sh'.heap
    ensures DequeueOk(sh', u, th, d)
  {
  }

  /** A step of thread `t` keeps what any other thread knows. */
  lemma OtherThreadOk<T>(sh: Shared<T>, sh': Shared<T>, t: Tid, u: Tid, th: Thread<T>)
    requires u != t && ThreadOk(sh, u, th) && Evolves(sh, sh', t) && GuardsAlive(sh', th.pc)
    ensures ThreadOk(sh', u, th)
  {
    HoldsStable(sh, sh', t, u, Holding(th.pc));
    if th.pc.Enq? { EnqueueStable(sh, sh', t, u, th, th.pc.e); }
    if th.pc.Deq? { DequeueStable(sh, sh', t, u, th, th.pc.d); }
  }

  // ---------------------------------------------------------------- scans against hazards

  /** The nodes of a scan that are still to be split. */
  ghost function ToSplit(r: RetirePc): seq<Addr> {
    match r
    case SRecords(list) => list
    case SFirst(list, _, _) => list
    case SSecond(list, _, _) => list
    case SSplit(list, _, _) => list
    case _ => []
  }

  /** A guard in the first slot of thread `t` has been collected or is still to be read. */
  ghost predicate Covered1(r: RetirePc, t: Tid, a: Addr) {
    match r
    case SFirst(_, pending, guarded) => t in pending || a in guarded
    case SSecond(_, pending, guarded) => (pending != [] && t in pending[1..]) || a in guarded
    case SSplit(_, guarded, _) => a in guarded
    case _ => true
  }

  /** The same for the second slot, which is read after the first. */
  ghost predicate Covered2(r: RetirePc, t: Tid, a: Addr) {
    match r
    case SFirst(_, pending, guarded) => t in pending || a in guarded
    case SSecond(_, pending, guarded) => t in pending || a in guarded
    case SSplit(_, guarded, _) => a in guarded
    case _ => true
  }

  /** A scan covers every guard of thread `t` on the nodes it has still to split. */
  ghost predicate ScanCovers<T>(scan: Pc<T>, t: Tid, pc: Pc<T>) {
    scan.Ret? ==>
      && (Guard1(pc).Some? && Guard1(pc).value in ToSplit(scan.r) ==> Covered1(scan.r, t, Guard1(pc).value))
      && (Guard2(pc).Some? && Guard2(pc).value in ToSplit(scan.r) ==> Covered2(scan.r, t, Guard2(pc).value))
  }

  // ---------------------------------------------------------------- the counter

  /** How far the counter lags the queue because of one thread. */
  function Lag<T>(pc: Pc<T>): int {
    if pc.Enq? && (pc.e.ESwing? || pc.e.ECount?) then -1 else if pc.Deq? && pc.d.DCount? then 1 else 0
  }

  /** What a step from this program point adds to the counter. */
  function Counted<T>(pc: Pc<T>): int {
    if pc.Enq? && pc.e.ECount? then 1 else if pc.Deq? && pc.d.DCount? then -1 else 0
  }

  function LagSum<T>(threads: seq<Thread<T>>): int {
    if threads == [] then 0 else Lag(threads[0].pc) + LagSum(threads[1..])
  }

  lemma {:induction false} LagSumUpdate<T>(threads: seq<Thread<T>>, i: nat, th: Thread<T>)
    requires i < |threads|
    ensures LagSum(threads[i := th]) == LagSum(threads) - Lag(threads[i].pc) + Lag(th.pc)
  {
    if i == 0 {
      assert threads[i := th][1..] == threads[1..];
    } else {
      assert threads[i := th][1..] == threads[1..][i - 1 := th];
      LagSumUpdate(threads[1..], i - 1, th);
    }
  }

  ghost predicate SizeOk<T>(s: State<T>) {
    s.sh.size == (|Contents(s.sh)| + LagSum(s.threads)) % WORD
  }

  // ---------------------------------------------------------------- the whole invariant

  ghost predicate ThreadsOk<T>(s: State<T>) {
    forall t | 0 <= t < |s.threads| :: ThreadOk(s.sh, t, s.threads[t])
  }

  ghost predicate ScansOk<T>(s: State<T>) {
    forall u, t | 0 <= u < |s.threads| && 0 <= t < |s.threads| :: ScanCovers(s.threads[u].pc, t, s.threads[t].pc)
  }

  ghost predicate HoldersExist<T>(s: State<T>) {
    forall t: Tid, a: Addr | HeldBy(s.sh, t, a) :: t < |s.threads|
  }

  /** The node an enqueuer has not linked yet. */
  ghost function Unlinked<T>(pc: Pc<T>): Option<Addr> {
    if !pc.Enq? then None
    else match pc.e
         case ERegister(_, node) => Some(node)
         case ELoad(_, node) => Some(node)
         case EStore(_, node, _) => Some(node)
         case ECheck(_, node, _) => Some(node)
         case ENext(_, node, _) => Some(node)
         case EVerify(_, node, _, _) => Some(node)
         case ELink(_, node, _) => Some(node)
         case EHelp(_, node, _, _) => Some(node)
         case _ => None
  }

  ghost predicate PrivateTo<T>(sh: Shared<T>, t: Tid, a: Addr) {
    a in sh.heap && sh.heap[a].place == Private(t)
  }

  /** A private node is the one that its owner is about to link. */
  ghost predicate PrivateOk<T>(s: State<T>) {
    forall t: Tid, a: Addr | PrivateTo(s.sh, t, a) :: t < |s.threads| && Unlinked(s.threads[t].pc) == Some(a)
  }

  ghost predicate Inv<T>(s: State<T>) {
    && SharedOk(s.sh)
    && HoldersExist(s)
    && PrivateOk(s)
    && ThreadsOk(s)
    && ScansOk(s)
    && SizeOk(s)
  }

  lemma InitShared<T>(sentinel: Addr)
    requires sentinel != NULL
    ensures SharedOk(Init<T>(sentinel, 0).sh)
  {
    assert OnChain(Init<T>(sentinel, 0).sh, 0);
  }

  lemma InitThreads<T>(sentinel: Addr, n: nat)
    requires sentinel != NULL
    ensures ThreadsOk(Init<T>(sentinel, n)) && HoldersExist(Init<T>(sentinel, n)) && PrivateOk(Init<T>(sentinel, n))
  {
    var s := Init<T>(sentinel, n);
    assert forall t, a :: !HeldBy(s.sh, t, a);
    forall t | 0 <= t < n ensures ThreadOk(s.sh, t, s.threads[t]) {
      assert s.threads[t].pc == Idle;
    }
  }

  lemma {:induction false} LagSumZero<T>(threads: seq<Thread<T>>)
    requires forall t | 0 <= t < |threads| :: Lag(threads[t].pc) == 0
    ensures LagSum(threads) == 0
  {
    if threads != [] { LagSumZero(threads[1..]); }
  }

  lemma InitInv<T>(sentinel: Addr, n: nat)
    requires sentinel != NULL
    ensures Inv(Init<T>(sentinel, n))
  {
    var s := Init<T>(sentinel, n);
    InitShared<T>(sentinel);
    InitThreads<T>(sentinel, n);
    assert forall t | 0 <= t < n :: s.threads[t].pc == Idle;
    LagSumZero(s.threads);
  }

  // ---------------------------------------------------------------- shared effects of a step

  ghost predicate IsLinked<T>(sh: Shared<T>, a: Addr) {
    a in sh.heap && sh.heap[a].place == Linked
  }

  /** The shared half of a step: the shared facts hold again and nobody else is disturbed. */
  ghost predicate Sound<T>(sh: Shared<T>, sh': Shared<T>, t: Tid) {
    SharedOk(sh') && Evolves(sh, sh', t)
  }

  lemma StillSound<T>(sh: Shared<T>, t: Tid)
    requires SharedOk(sh)
    ensures Sound(sh, sh, t)
  {
  }

  /** Counters and the record list do not enter the shared facts. */
  lemma FrameSound<T>(sh: Shared<T>, sh': Shared<T>, t: Tid)
    requires SharedOk(sh)
    requires sh' == sh.(size := sh'.size, retireCount := sh'.retireCount, records := sh'.records)
    requires forall u | u in sh.records :: u in sh'.records
    ensures Sound(sh, sh', t)
  {
    forall i | |sh.dequeued| <= i < |sh.links| ensures OnChain(sh', i) { assert OnChain(sh, i); }
    forall a | a in sh.heap ensures NodeOk(sh', a) { assert NodeOk(sh, a); }
  }

  lemma AllocSound<T>(sh: Shared<T>, t: Tid, item: T, node: Addr)
    requires SharedOk(sh) && node != NULL && node !in sh.heap
    ensures var sh' := sh.(heap := sh.heap[node := Node(NULL, Some(item), 0, Private(t))]);
            && Sound(sh, sh', t)
            && forall a :: HeldBy(sh', t, a) <==> HeldBy(sh, t, a)
  {
    var sh' := sh.(heap := sh.heap[node := Node(NULL, Some(item), 0, Private(t))]);
    forall i | |sh.dequeued| <= i < |sh.links| ensures OnChain(sh', i) { assert OnChain(sh, i); }
    forall a | a in sh'.heap ensures NodeOk(sh', a) { if a != node { assert NodeOk(sh, a); } }
  }

  /** A tail CAS that succeeds moves the tail to its successor on the chain. */
  lemma SwingSound<T>(sh: Shared<T>, t: Tid, expected: Addr, desired: Addr)
    requires SharedOk(sh) && NextIs(sh, expected, desired)
    ensures Sound(sh, SwingTail(sh, expected, desired), t)
  {
    var sh' := SwingTail(sh, expected, desired);
    if sh.tail == expected {
      assert OnChain(sh, sh.tailIdx);
      forall i | |sh.dequeued| <= i < |sh.links| ensures OnChain(sh', i) { assert OnChain(sh, i); }
      forall a | a in sh.heap ensures NodeOk(sh', a) { assert NodeOk(sh, a); }
    }
  }

  lemma ChainNonNull<T>(sh: Shared<T>)
    requires SharedOk(sh)
    ensures forall i | |sh.dequeued| <= i < |sh.links| :: sh.links[i] != NULL
  {
    forall i | |sh.dequeued| <= i < |sh.links| ensures sh.links[i] != NULL {
      assert OnChain(sh, i);
      assert NodeOk(sh, sh.links[i]);
    }
  }

  /** Linking happens at the end of the chain, and then the tail trails by exactly one. */
  lemma LinkPlace<T>(sh: Shared<T>, t: Tid, item: T, node: Addr, tail: Addr, stamp: nat)
    requires SharedOk(sh) && Mine(sh, t, node, item) && Guarded(sh, tail, stamp)
    requires stamp <= sh.tailIdx && sh.heap[tail].next == NULL
    ensures stamp == sh.tailIdx == |sh.links| - 1 && sh.links[stamp] == tail && IsLinked(sh, tail)
    ensures node != tail && node != NULL
    ensures forall i | |sh.dequeued| <= i < |sh.links| :: sh.links[i] != node
  {
    assert NodeOk(sh, tail) && NodeOk(sh, node);
    assert OnChain(sh, stamp);
    ChainNonNull(sh);
    forall i | |sh.dequeued| <= i < |sh.links| ensures sh.links[i] != node { assert OnChain(sh, i); }
  }

  lemma LinkChain<T>(sh: Shared<T>, item: T, node: Addr, tail: Addr)
    requires ChainOk(sh)
    requires node in sh.heap && tail in sh.heap && sh.heap[node].value == Some(item) && sh.heap[node].next == NULL
    requires node != tail && node != NULL && sh.tailIdx == |sh.links| - 1 && sh.links[sh.tailIdx] == tail
    requires forall i | |sh.dequeued| <= i < |sh.links| :: sh.links[i] != node
    ensures ChainOk(LinkNode(sh, item, node, tail))
  {
    var sh' := LinkNode(sh, item, node, tail);
    assert sh'.linked[..|sh.dequeued|] == sh.linked[..|sh.dequeued|];
    assert OnChain(sh, sh.tailIdx);
    forall i | |sh'.dequeued| <= i < |sh'.links| ensures OnChain(sh', i) {
      if i < |sh.links| { assert OnChain(sh, i); }
    }
  }

  lemma LinkNodeOk<T>(sh: Shared<T>, item: T, node: Addr, tail: Addr, a: Addr)
    requires a in sh.heap && NodeOk(sh, a) && ChainOk(sh)
    requires node in sh.heap && tail in sh.heap && sh.heap[node].value == Some(item) && sh.heap[node].next == NULL
    requires node != tail && node != NULL && sh.tailIdx == |sh.links| - 1 && sh.links[sh.tailIdx] == tail
    requires sh.heap[tail].place.Linked?
    ensures NodeOk(LinkNode(sh, item, node, tail), a)
  {
  }

  lemma LinkShared<T>(sh: Shared<T>, item: T, node: Addr, tail: Addr)
    requires SharedOk(sh) && node in sh.heap && sh.heap[node].value == Some(item) && sh.heap[node].next == NULL
    requires sh.heap[node].place.Private? && node != tail && node != NULL
    requires sh.tailIdx == |sh.links| - 1 && sh.links[sh.tailIdx] == tail && IsLinked(sh, tail)
    requires forall i | |sh.dequeued| <= i < |sh.links| :: sh.links[i] != node
    ensures SharedOk(LinkNode(sh, item, node, tail))
  {
    LinkChain(sh, item, node, tail);
    forall a | a in sh.heap ensures NodeOk(LinkNode(sh, item, node, tail), a) { LinkNodeOk(sh, item, node, tail, a); }
  }

  lemma LinkEvolves<T>(sh: Shared<T>, t: Tid, item: T, node: Addr, tail: Addr)
    requires Mine(sh, t, node, item) && tail in sh.heap && !sh.heap[tail].place.Private? && sh.heap[tail].next == NULL
    ensures var sh' := LinkNode(sh, item, node, tail);
            Evolves(sh, sh', t) && forall a :: HeldBy(sh', t, a) <==> HeldBy(sh, t, a)
  {
  }

  lemma LinkSound<T>(sh: Shared<T>, t: Tid, item: T, node: Addr, tail: Addr, stamp: nat)
    requires SharedOk(sh) && Mine(sh, t, node, item) && Guarded(sh, tail, stamp)
    requires stamp <= sh.tailIdx && sh.heap[tail].next == NULL
    ensures stamp == sh.tailIdx == |sh.links| - 1
    ensures var sh' := LinkNode(sh, item, node, tail);
            && Sound(sh, sh', t) && NextIs(sh', tail, node) && Guarded(sh', tail, stamp)
            && forall a :: HeldBy(sh', t, a) <==> HeldBy(sh, t, a)
  {
    LinkPlace(sh, t, item, node, tail, stamp);
    LinkShared(sh, item, node, tail);
    LinkEvolves(sh, t, item, node, tail);
  }

  lemma LinkAppends<T>(sh: Shared<T>, item: T, node: Addr, tail: Addr)
    requires SharedOk(sh) && node in sh.heap && tail in sh.heap
    ensures Contents(LinkNode(sh, item, node, tail)) == Contents(sh) + [item]
  {
  }

  lemma TakeShared<T>(sh: Shared<T>, t: Tid, head: Addr, next: Addr, v: T)
    requires SharedOk(sh) && sh.head == head && |sh.dequeued| < sh.tailIdx && head in sh.heap
    requires sh.links[|sh.dequeued| + 1] == next && sh.linked[|sh.dequeued|] == v && sh.heap[head].next == next != NULL
    ensures SharedOk(TakeHead(sh, t, head, next, v))
  {
    var k := |sh.dequeued|;
    assert OnChain(sh, k);
    var sh' := TakeHead(sh, t, head, next, v);
    assert sh.linked[..k + 1] == sh.linked[..k] + [v];
    forall i | k < i < |sh.links| ensures OnChain(sh', i) { assert OnChain(sh, i); }
    forall a | a in sh'.heap ensures NodeOk(sh', a) { assert NodeOk(sh, a); }
  }

  lemma TakeEvolves<T>(sh: Shared<T>, t: Tid, head: Addr, next: Addr, v: T)
    requires IsLinked(sh, head)
    ensures var sh' := TakeHead(sh, t, head, next, v);
            && Evolves(sh, sh', t)
            && !HeldBy(sh, t, head)
            && forall a :: HeldBy(sh', t, a) <==> HeldBy(sh, t, a) || a == head
  {
  }

  /** What a guarded head with a successor tells about the front of the queue. */
  lemma TakePlace<T>(sh: Shared<T>, head: Addr, next: Addr, v: T, stamp: nat)
    requires SharedOk(sh) && sh.head == head && Guarded(sh, head, stamp) && NextIs(sh, head, next)
    requires stamp < sh.tailIdx && next in sh.heap && sh.heap[next].value == Some(v)
    ensures stamp == |sh.dequeued| < |sh.linked| && IsLinked(sh, head)
    ensures sh.links[stamp + 1] == next && sh.linked[stamp] == v
  {
    assert OnChain(sh, |sh.dequeued|);
    assert OnChain(sh, |sh.dequeued| + 1);
  }

  /** Taking the head removes exactly the front value and keeps the tail from falling behind. */
  lemma TakeSound<T>(sh: Shared<T>, t: Tid, head: Addr, next: Addr, v: T, stamp: nat)
    requires SharedOk(sh) && sh.head == head && Guarded(sh, head, stamp) && NextIs(sh, head, next)
    requires stamp < sh.tailIdx && next in sh.heap && sh.heap[next].value == Some(v)
    ensures stamp == |sh.dequeued|
    ensures var sh' := TakeHead(sh, t, head, next, v);
            && Sound(sh, sh', t)
            && Contents(sh) == [v] + Contents(sh')
            && !HeldBy(sh, t, head)
            && forall a :: HeldBy(sh', t, a) <==> HeldBy(sh, t, a) || a == head
  {
    TakePlace(sh, head, next, v, stamp);
    TakeShared(sh, t, head, next, v);
    TakeEvolves(sh, t, head, next, v);
  }

  lemma PushSound<T>(sh: Shared<T>, t: Tid, node: Addr)
    requires SharedOk(sh) && HeldBy(sh, t, node)
    ensures var sh' := PushRetired(sh, node);
            && Sound(sh, sh', t)
            && forall a :: HeldBy(sh', t, a) <==> HeldBy(sh, t, a) && a != node
  {
    var sh' := PushRetired(sh, node);
    assert NodeOk(sh, node);
    forall i | |sh.dequeued| <= i < |sh.links| ensures OnChain(sh', i) { assert OnChain(sh, i); }
    forall a | a in sh'.heap ensures NodeOk(sh', a) { assert NodeOk(sh, a); }
    assert node !in sh.retired;
  }

  lemma ExchangeSound<T>(sh: Shared<T>, t: Tid)
    requires SharedOk(sh)
    ensures var sh' := sh.(retired := [], heap := Hold(sh.heap, sh.retired, t));
            && Sound(sh, sh', t)
            && (forall a :: multiset(sh.retired)[a] <= 1)
            && forall a :: HeldBy(sh', t, a) <==> HeldBy(sh, t, a) || a in sh.retired
  {
    var sh' := sh.(retired := [], heap := Hold(sh.heap, sh.retired, t));
    forall i | |sh.dequeued| <= i < |sh.links| ensures OnChain(sh', i) { assert OnChain(sh, i); }
    forall a | a in sh'.heap ensures NodeOk(sh', a) { assert NodeOk(sh, a); }
  }

  lemma DeleteSound<T>(sh: Shared<T>, t: Tid, node: Addr)
    requires SharedOk(sh) && HeldBy(sh, t, node)
    ensures var sh' := sh.(heap := sh.heap - {node});
            && Sound(sh, sh', t)
            && forall a :: HeldBy(sh', t, a) <==> HeldBy(sh, t, a) && a != node
  {
    var sh' := sh.(heap := sh.heap - {node});
    forall i | |sh.dequeued| <= i < |sh.links| ensures OnChain(sh', i) { assert OnChain(sh, i); }
    forall a | a in sh'.heap ensures NodeOk(sh', a) { assert NodeOk(sh, a); }
  }

  // ---------------------------------------------------------------- what a step tells its thread

  lemma EndsGuarded<T>(sh: Shared<T>)
    requires SharedOk(sh)
    ensures Guarded(sh, sh.tail, sh.tailIdx) && IsLinked(sh, sh.tail)
    ensures Guarded(sh, sh.head, |sh.dequeued|) && IsLinked(sh, sh.head)
  {
    assert OnChain(sh, sh.tailIdx) && OnChain(sh, |sh.dequeued|);
  }

  /** Re-reading the head shows that its successor was on the chain when the hazard was set. */
  lemma NextGuarded<T>(sh: Shared<T>, head: Addr, next: Addr, stamp: nat)
    requires SharedOk(sh) && Guarded(sh, head, stamp) && NextIs(sh, head, next) && sh.head == head
    ensures Guarded(sh, next, stamp + 1) && IsLinked(sh, next) && ValueReady(sh, next)
  {
    assert OnChain(sh, |sh.dequeued|);
    if |sh.dequeued| + 1 < |sh.links| { assert OnChain(sh, |sh.dequeued| + 1); }
  }

  lemma TailAhead<T>(sh: Shared<T>, head: Addr, stamp: nat)
    requires SharedOk(sh) && Guarded(sh, head, stamp) && stamp <= |sh.dequeued| && head != sh.tail
    ensures stamp < sh.tailIdx
  {
    assert NodeOk(sh, head);
  }

  /** The last node of the chain is the only one a guard can see without a successor. */
  lemma NoNextMeansEmpty<T>(sh: Shared<T>, head: Addr, stamp: nat)
    requires SharedOk(sh) && Guarded(sh, head, stamp) && stamp <= |sh.dequeued|
    requires sh.heap[head].next == NULL
    ensures Contents(sh) == []
  {
    assert NodeOk(sh, head);
    assert OnChain(sh, |sh.dequeued|);
    ChainNonNull(sh);
  }

  // ---------------------------------------------------------------- steps of one thread

  ghost predicate NewGuard<T>(sh: Shared<T>, before: Option<Addr>, after: Option<Addr>) {
    after == None || after == before || IsLinked(sh, after.value)
  }

  /** The local half of a step: the thread's facts hold again, and it guards only linked nodes anew. */
  ghost predicate Moves<T>(sh: Shared<T>, t: Tid, th: Thread<T>, sh': Shared<T>, th': Thread<T>) {
    && ThreadOk(sh', t, th')
    && NewGuard(sh, Guard1(th.pc), Guard1(th'.pc))
    && NewGuard(sh, Guard2(th.pc), Guard2(th'.pc))
    && |Contents(sh')| + Lag(th'.pc) == |Contents(sh)| + Lag(th.pc) + Counted(th.pc)
  }

  /** Both halves of a step whose result is `r`. */
  ghost predicate Good<T>(sh: Shared<T>, t: Tid, th: Thread<T>, r: (Shared<T>, Thread<T>)) {
    Sound(sh, r.0, t) && Moves(sh, t, th, r.0, r.1)
  }

  lemma MoveEnqueueProtect<T>(sh: Shared<T>, t: Tid, th: Thread<T>, e: EnqueuePc<T>, c: Choice<T>)
    requires ThreadOk(sh, t, th) && th.pc == Enq(e) && (e.ELoad? || e.EStore? || e.ECheck?)
    requires Guarded(sh, sh.tail, sh.tailIdx) && IsLinked(sh, sh.tail)
    ensures Moves(sh, t, th, sh, StepEnqueue(sh, t, th, e, c).1)
  {
  }

  lemma MoveEnqueueLook<T>(sh: Shared<T>, t: Tid, th: Thread<T>, e: EnqueuePc<T>, c: Choice<T>)
    requires ThreadOk(sh, t, th) && th.pc == Enq(e) && (e.ENext? || e.EVerify?)
    ensures Moves(sh, t, th, sh, StepEnqueue(sh, t, th, e, c).1)
  {
  }

  lemma MoveEnqueueRetry<T>(sh: Shared<T>, t: Tid, th: Thread<T>, e: EnqueuePc<T>, sh': Shared<T>)
    requires ThreadOk(sh, t, th) && th.pc == Enq(e) && (e.ELink? || e.EHelp?)
    requires sh' == sh || sh' == sh.(tail := sh'.tail, tailIdx := sh'.tailIdx)
    ensures Moves(sh, t, th, sh', th.(pc := Enq(ELoad(e.item, e.node))))
  {
    assert forall a :: HeldBy(sh', t, a) <==> HeldBy(sh, t, a);
  }

  lemma MoveLinked<T>(sh: Shared<T>, t: Tid, th: Thread<T>, e: EnqueuePc<T>, sh': Shared<T>)
    requires ThreadOk(sh, t, th) && th.pc == Enq(e) && e.ELink? && t in sh'.records
    requires NextIs(sh', e.tail, e.node) && Guarded(sh', e.tail, th.stamp)
    requires |Contents(sh')| == |Contents(sh)| + 1
    requires forall a :: HeldBy(sh', t, a) <==> HeldBy(sh, t, a)
    ensures Moves(sh, t, th, sh', th.(pc := Enq(ESwing(e.node, e.tail))))
  {
  }

  lemma MoveEnqueueEnd<T>(sh: Shared<T>, t: Tid, th: Thread<T>, e: EnqueuePc<T>, c: Choice<T>)
    requires ThreadOk(sh, t, th) && th.pc == Enq(e) && (e.ESwing? || e.ECount? || e.EClear2? || e.EClear1?)
    ensures var (sh', th') := StepEnqueue(sh, t, th, e, c); Moves(sh, t, th, sh', th')
  {
    var sh' := StepEnqueue(sh, t, th, e, c).0;
    assert forall a :: HeldBy(sh', t, a) <==> HeldBy(sh, t, a);
  }

  lemma EnqueueAllocInv<T>(sh: Shared<T>, t: Tid, th: Thread<T>, e: EnqueuePc<T>, c: Choice<T>)
    requires SharedOk(sh) && ThreadOk(sh, t, th) && th.pc == Enq(e) && (e.EAlloc?)
    ensures Good(sh, t, th, StepEnqueue(sh, t, th, e, c))
  {
    StillSound(sh, t);
    if c.address != NULL && c.address !in sh.heap { AllocSound(sh, t, e.item, c.address); }
  }

  lemma EnqueueRegisterInv<T>(sh: Shared<T>, t: Tid, th: Thread<T>, e: EnqueuePc<T>, c: Choice<T>)
    requires SharedOk(sh) && ThreadOk(sh, t, th) && th.pc == Enq(e) && (e.ERegister?)
    ensures Good(sh, t, th, StepEnqueue(sh, t, th, e, c))
  {
    var sh' := StepEnqueue(sh, t, th, e, c).0;
    FrameSound(sh, sh', t);
    assert forall a :: HeldBy(sh', t, a) <==> HeldBy(sh, t, a);
  }

  lemma EnqueueLinkInv<T>(sh: Shared<T>, t: Tid, th: Thread<T>, e: EnqueuePc<T>, c: Choice<T>)
    requires SharedOk(sh) && ThreadOk(sh, t, th) && th.pc == Enq(e) && (e.ELink?)
    ensures Good(sh, t, th, StepEnqueue(sh, t, th, e, c))
  {
    var ELink(item, node, tail) := e;
    if !c.spurious && sh.heap[tail].next == NULL {
      LinkSound(sh, t, item, node, tail, th.stamp);
      LinkAppends(sh, item, node, tail);
      MoveLinked(sh, t, th, e, LinkNode(sh, item, node, tail));
    } else {
      StillSound(sh, t);
      MoveEnqueueRetry(sh, t, th, e, sh);
    }
  }

  lemma EnqueueLocalInv<T>(sh: Shared<T>, t: Tid, th: Thread<T>, e: EnqueuePc<T>, c: Choice<T>)
    requires SharedOk(sh) && ThreadOk(sh, t, th) && th.pc == Enq(e)
    requires e.ELoad? || e.EStore? || e.ECheck? || e.ENext? || e.EVerify?
    ensures Good(sh, t, th, StepEnqueue(sh, t, th, e, c))
  {
    StillSound(sh, t);
    EndsGuarded(sh);
    if e.ENext? || e.EVerify? { MoveEnqueueLook(sh, t, th, e, c); } else { MoveEnqueueProtect(sh, t, th, e, c); }
  }

  lemma EnqueueHelpInv<T>(sh: Shared<T>, t: Tid, th: Thread<T>, e: EnqueuePc<T>, c: Choice<T>)
    requires SharedOk(sh) && ThreadOk(sh, t, th) && th.pc == Enq(e) && (e.EHelp?)
    ensures Good(sh, t, th, StepEnqueue(sh, t, th, e, c))
  {
    StillSound(sh, t);
    SwingSound(sh, t, e.tail, e.next);
    MoveEnqueueRetry(sh, t, th, e, StepEnqueue(sh, t, th, e, c).0);
  }

  lemma EnqueueEndInv<T>(sh: Shared<T>, t: Tid, th: Thread<T>, e: EnqueuePc<T>, c: Choice<T>)
    requires SharedOk(sh) && ThreadOk(sh, t, th) && th.pc == Enq(e)
    requires e.ESwing? || e.ECount? || e.EClear2? || e.EClear1?
    ensures Good(sh, t, th, StepEnqueue(sh, t, th, e, c))
  {
    MoveEnqueueEnd(sh, t, th, e, c);
    if e.ESwing? { SwingSound(sh, t, e.tail, e.node); } else { FrameSound(sh, StepEnqueue(sh, t, th, e, c).0, t); }
  }

  lemma EnqueueInv<T>(sh: Shared<T>, t: Tid, th: Thread<T>, e: EnqueuePc<T>, c: Choice<T>)
    requires SharedOk(sh) && ThreadOk(sh, t, th) && th.pc == Enq(e)
    ensures Good(sh, t, th, StepEnqueue(sh, t, th, e, c))
  {
    if e.EAlloc? { EnqueueAllocInv(sh, t, th, e, c); }
    else if e.ERegister? { EnqueueRegisterInv(sh, t, th, e, c); }
    else if e.ELink? { EnqueueLinkInv(sh, t, th, e, c); }
    else if e.EHelp? { EnqueueHelpInv(sh, t, th, e, c); }
    else if e.ESwing? || e.ECount? || e.EClear2? || e.EClear1? { EnqueueEndInv(sh, t, th, e, c); }
    else { EnqueueLocalInv(sh, t, th, e, c); }
  }

  lemma MoveDequeueProtect<T>(sh: Shared<T>, t: Tid, th: Thread<T>, d: DequeuePc<T>, c: Choice<T>)
    requires ThreadOk(sh, t, th) && th.pc == Deq(d) && (d.DLoad? || d.DStore? || d.DCheck?)
    requires Guarded(sh, sh.head, |sh.dequeued|) && IsLinked(sh, sh.head)
    ensures Moves(sh, t, th, sh, StepDequeue(sh, t, th, d, c).1)
  {
  }

  lemma MoveDequeueNext<T>(sh: Shared<T>, t: Tid, th: Thread<T>, d: DequeuePc<T>, c: Choice<T>)
    requires ThreadOk(sh, t, th) && th.pc == Deq(d) && (d.DNext? || d.DStore2?)
    ensures Moves(sh, t, th, sh, StepDequeue(sh, t, th, d, c).1)
  {
  }

  lemma MoveDequeueVerify<T>(sh: Shared<T>, t: Tid, th: Thread<T>, d: DequeuePc<T>, c: Choice<T>)
    requires ThreadOk(sh, t, th) && th.pc == Deq(d) && d.DVerify?
    requires sh.head == d.head && d.next != NULL ==>
               Guarded(sh, d.next, th.stamp + 1) && IsLinked(sh, d.next) && ValueReady(sh, d.next)
    ensures Moves(sh, t, th, sh, StepDequeue(sh, t, th, d, c).1)
  {
  }

  lemma MoveDequeueTail<T>(sh: Shared<T>, t: Tid, th: Thread<T>, d: DequeuePc<T>, c: Choice<T>)
    requires ThreadOk(sh, t, th) && th.pc == Deq(d) && (d.DTail? || d.DRead?)
    requires d.DTail? && d.head != sh.tail ==> th.stamp < sh.tailIdx
    ensures Moves(sh, t, th, sh, StepDequeue(sh, t, th, d, c).1)
  {
  }

  lemma MoveDequeueRetry<T>(sh: Shared<T>, t: Tid, th: Thread<T>, d: DequeuePc<T>, sh': Shared<T>)
    requires ThreadOk(sh, t, th) && th.pc == Deq(d) && (d.DHelp? || d.DCas?)
    requires sh' == sh || sh' == sh.(tail := sh'.tail, tailIdx := sh'.tailIdx)
    ensures Moves(sh, t, th, sh', th.(pc := Deq(DLoad)))
  {
    assert forall a :: HeldBy(sh', t, a) <==> HeldBy(sh, t, a);
  }

  lemma MoveTaken<T>(sh: Shared<T>, t: Tid, th: Thread<T>, d: DequeuePc<T>, sh': Shared<T>, head: Addr, v: T)
    requires ThreadOk(sh, t, th) && th.pc == Deq(d) && d.DCas? && !HeldBy(sh, t, head)
    requires forall a :: HeldBy(sh', t, a) <==> HeldBy(sh, t, a) || a == head
    requires |Contents(sh)| == |Contents(sh')| + 1
    ensures Moves(sh, t, th, sh', th.(pc := Deq(DCount(head)), found := true, out := Some(v)))
  {
  }

  lemma MoveDequeueCount<T>(sh: Shared<T>, t: Tid, th: Thread<T>, d: DequeuePc<T>, c: Choice<T>)
    requires ThreadOk(sh, t, th) && th.pc == Deq(d) && (d.DRegister? || d.DCount?)
    ensures var (sh', th') := StepDequeue(sh, t, th, d, c); Moves(sh, t, th, sh', th')
  {
    var sh' := StepDequeue(sh, t, th, d, c).0;
    assert forall a :: HeldBy(sh', t, a) <==> HeldBy(sh, t, a);
  }

  lemma MoveDequeueClear<T>(sh: Shared<T>, t: Tid, th: Thread<T>, d: DequeuePc<T>, c: Choice<T>)
    requires ThreadOk(sh, t, th) && th.pc == Deq(d) && (d.DClear2? || d.DClear1?)
    ensures Moves(sh, t, th, sh, StepDequeue(sh, t, th, d, c).1)
  {
  }

  lemma DequeueCasInv<T>(sh: Shared<T>, t: Tid, th: Thread<T>, d: DequeuePc<T>, c: Choice<T>)
    requires SharedOk(sh) && ThreadOk(sh, t, th) && th.pc == Deq(d) && (d.DCas?)
    ensures Good(sh, t, th, StepDequeue(sh, t, th, d, c))
  {
    var DCas(head, next, v) := d;
    if !c.spurious && sh.head == head {
      TakeSound(sh, t, head, next, v, th.stamp);
      MoveTaken(sh, t, th, d, TakeHead(sh, t, head, next, v), head, v);
    } else {
      StillSound(sh, t);
      MoveDequeueRetry(sh, t, th, d, sh);
    }
  }

  lemma DequeueProtectInv<T>(sh: Shared<T>, t: Tid, th: Thread<T>, d: DequeuePc<T>, c: Choice<T>)
    requires SharedOk(sh) && ThreadOk(sh, t, th) && th.pc == Deq(d) && (d.DLoad? || d.DStore? || d.DCheck?)
    ensures Good(sh, t, th, StepDequeue(sh, t, th, d, c))
  {
    StillSound(sh, t);
    EndsGuarded(sh);
    MoveDequeueProtect(sh, t, th, d, c);
  }

  lemma DequeueLookInv<T>(sh: Shared<T>, t: Tid, th: Thread<T>, d: DequeuePc<T>, c: Choice<T>)
    requires SharedOk(sh) && ThreadOk(sh, t, th) && th.pc == Deq(d) && (d.DNext? || d.DStore2? || d.DVerify?)
    ensures Good(sh, t, th, StepDequeue(sh, t, th, d, c))
  {
    StillSound(sh, t);
    if d.DVerify? {
      if d.head == sh.head && d.next != NULL { NextGuarded(sh, d.head, d.next, th.stamp); }
      MoveDequeueVerify(sh, t, th, d, c);
    } else {
      MoveDequeueNext(sh, t, th, d, c);
    }
  }

  lemma DequeueTailInv<T>(sh: Shared<T>, t: Tid, th: Thread<T>, d: DequeuePc<T>, c: Choice<T>)
    requires SharedOk(sh) && ThreadOk(sh, t, th) && th.pc == Deq(d) && (d.DTail? || d.DRead?)
    ensures Good(sh, t, th, StepDequeue(sh, t, th, d, c))
  {
    StillSound(sh, t);
    if d.DTail? && d.head != sh.tail { TailAhead(sh, d.head, th.stamp); }
    MoveDequeueTail(sh, t, th, d, c);
  }

  lemma DequeueHelpInv<T>(sh: Shared<T>, t: Tid, th: Thread<T>, d: DequeuePc<T>, c: Choice<T>)
    requires SharedOk(sh) && ThreadOk(sh, t, th) && th.pc == Deq(d) && (d.DHelp?)
    ensures Good(sh, t, th, StepDequeue(sh, t, th, d, c))
  {
    StillSound(sh, t);
    SwingSound(sh, t, d.head, d.next);
    MoveDequeueRetry(sh, t, th, d, StepDequeue(sh, t, th, d, c).0);
  }

  lemma DequeueCountInv<T>(sh: Shared<T>, t: Tid, th: Thread<T>, d: DequeuePc<T>, c: Choice<T>)
    requires SharedOk(sh) && ThreadOk(sh, t, th) && th.pc == Deq(d) && (d.DRegister? || d.DCount?)
    ensures Good(sh, t, th, StepDequeue(sh, t, th, d, c))
  {
    FrameSound(sh, StepDequeue(sh, t, th, d, c).0, t);
    MoveDequeueCount(sh, t, th, d, c);
  }

  lemma DequeueClearInv<T>(sh: Shared<T>, t: Tid, th: Thread<T>, d: DequeuePc<T>, c: Choice<T>)
    requires SharedOk(sh) && ThreadOk(sh, t, th) && th.pc == Deq(d) && (d.DClear2? || d.DClear1?)
    ensures Good(sh, t, th, StepDequeue(sh, t, th, d, c))
  {
    StillSound(sh, t);
    MoveDequeueClear(sh, t, th, d, c);
  }

  lemma DequeueInv<T>(sh: Shared<T>, t: Tid, th: Thread<T>, d: DequeuePc<T>, c: Choice<T>)
    requires SharedOk(sh) && ThreadOk(sh, t, th) && th.pc == Deq(d)
    ensures Good(sh, t, th, StepDequeue(sh, t, th, d, c))
  {
    if d.DCas? { DequeueCasInv(sh, t, th, d, c); }
    else if d.DHelp? { DequeueHelpInv(sh, t, th, d, c); }
    else if d.DTail? || d.DRead? { DequeueTailInv(sh, t, th, d, c); }
    else if d.DNext? || d.DStore2? || d.DVerify? { DequeueLookInv(sh, t, th, d, c); }
    else if d.DRegister? || d.DCount? { DequeueCountInv(sh, t, th, d, c); }
    else if d.DClear2? || d.DClear1? { DequeueClearInv(sh, t, th, d, c); }
    else { DequeueProtectInv(sh, t, th, d, c); }
  }

  // ---------------------------------------------------------------- steps that retire and scan

  lemma UncountHead(list: seq<Addr>, more: multiset<Addr>, a: Addr)
    requires list != []
    ensures (multiset(list) + more)[a] == (multiset(list[1..]) + more)[a] + (if a == list[0] then 1 else 0)
  {
    assert list == [list[0]] + list[1..];
  }

  /** Giving up the first node of a list leaves the thread with the others. */
  lemma HoldsTail<T>(sh: Shared<T>, sh': Shared<T>, t: Tid, list: seq<Addr>, more: multiset<Addr>)
    requires list != [] && Holds(sh, t, multiset(list) + more)
    requires forall a :: HeldBy(sh', t, a) <==> HeldBy(sh, t, a) && a != list[0]
    ensures Holds(sh', t, multiset(list[1..]) + more)
  {
    forall a { UncountHead(list, more, a); }
  }

  lemma HoldsRest<T>(sh: Shared<T>, sh': Shared<T>, t: Tid, list: seq<Addr>)
    requires list != [] && Holds(sh, t, multiset(list))
    requires forall a :: HeldBy(sh', t, a) <==> HeldBy(sh, t, a) && a != list[0]
    ensures Holds(sh', t, multiset(list[1..]))
  {
    assert multiset(list) + multiset{} == multiset(list) && multiset(list[1..]) + multiset{} == multiset(list[1..]);
    HoldsTail(sh, sh', t, list, multiset{});
  }

  /** A step inside `Retire` or `ScanRetired` leaves the thread with the nodes `Holding` names. */
  lemma MoveRetire<T>(sh: Shared<T>, t: Tid, th: Thread<T>, sh': Shared<T>, th': Thread<T>)
    requires th.pc.Ret? && (th'.pc.Ret? || th'.pc == Idle)
    requires sh'.linked == sh.linked && sh'.dequeued == sh.dequeued
    requires Holds(sh', t, Holding(th'.pc))
    ensures Moves(sh, t, th, sh', th')
  {
  }

  lemma RetireGood<T>(sh: Shared<T>, t: Tid, th: Thread<T>, sh': Shared<T>, th': Thread<T>)
    requires th.pc.Ret? && (th'.pc.Ret? || th'.pc == Idle) && Sound(sh, sh', t)
    requires sh'.linked == sh.linked && sh'.dequeued == sh.dequeued
    requires Holds(sh', t, Holding(th'.pc))
    ensures Good(sh, t, th, (sh', th'))
  {
    MoveRetire(sh, t, th, sh', th');
  }

  lemma HoldsRetired<T>(sh: Shared<T>, sh': Shared<T>, t: Tid, list: seq<Addr>)
    requires Holds(sh, t, multiset{}) && forall a :: multiset(list)[a] <= 1
    requires forall a :: HeldBy(sh', t, a) <==> HeldBy(sh, t, a) || a in list
    ensures Holds(sh', t, multiset(list))
  {
  }

  lemma RetirePushInv<T>(sh: Shared<T>, t: Tid, th: Thread<T>, r: RetirePc)
    requires SharedOk(sh) && th.pc == Ret(r) && r.RPush?
    requires Holds(sh, t, RetireHolding(r))
    ensures Good(sh, t, th, StepReclaim(sh, t, th, r))
  {
    assert r.node in RetireHolding(r);
    PushSound(sh, t, r.node);
    RetireGood(sh, t, th, PushRetired(sh, r.node), th.(pc := Ret(RCount)));
  }

  lemma RetireCountInv<T>(sh: Shared<T>, t: Tid, th: Thread<T>, r: RetirePc)
    requires SharedOk(sh) && th.pc == Ret(r) && r.RCount?
    requires Holds(sh, t, RetireHolding(r))
    ensures Good(sh, t, th, StepReclaim(sh, t, th, r))
  {
    var (sh', th') := StepReclaim(sh, t, th, r);
    FrameSound(sh, sh', t);
    assert forall a :: HeldBy(sh', t, a) <==> HeldBy(sh, t, a);
    RetireGood(sh, t, th, sh', th');
  }

  lemma ExchangeInv<T>(sh: Shared<T>, t: Tid, th: Thread<T>, r: RetirePc)
    requires SharedOk(sh) && th.pc == Ret(r) && r.SExchange?
    requires Holds(sh, t, RetireHolding(r))
    ensures Good(sh, t, th, StepReclaim(sh, t, th, r))
  {
    var sh' := sh.(retired := [], heap := Hold(sh.heap, sh.retired, t));
    var th' := th.(pc := if sh.retired == [] then Idle else Ret(SRecords(sh.retired)));
    ExchangeSound(sh, t);
    HoldsRetired(sh, sh', t, sh.retired);
    assert Holding(th'.pc) == multiset(sh.retired);
    RetireGood(sh, t, th, sh', th');
  }

  lemma KeepInv<T>(sh: Shared<T>, t: Tid, th: Thread<T>, r: RetirePc)
    requires SharedOk(sh) && th.pc == Ret(r) && r.SSplit? && r.list != [] && r.list[0] in r.guarded
    requires Holds(sh, t, RetireHolding(r))
    ensures Good(sh, t, th, StepReclaim(sh, t, th, r))
  {
    var th' := th.(pc := Ret(SSplit(r.list[1..], r.guarded, [r.list[0]] + r.keep)));
    StillSound(sh, t);
    assert r.list == [r.list[0]] + r.list[1..];
    assert Holding(th'.pc) == RetireHolding(r);
    RetireGood(sh, t, th, sh, th');
  }

  lemma DoneInv<T>(sh: Shared<T>, t: Tid, th: Thread<T>, r: RetirePc)
    requires SharedOk(sh) && th.pc == Ret(r) && ((r.SSplit? && r.list == []) || (r.SBack? && r.keep == []))
    requires Holds(sh, t, RetireHolding(r))
    ensures Good(sh, t, th, StepReclaim(sh, t, th, r))
  {
    var th' := th.(pc := if r.SSplit? then Ret(SBack(r.keep)) else Idle);
    StillSound(sh, t);
    assert Holding(th'.pc) == RetireHolding(r);
    RetireGood(sh, t, th, sh, th');
  }

  lemma DeleteInv<T>(sh: Shared<T>, t: Tid, th: Thread<T>, r: RetirePc)
    requires SharedOk(sh) && th.pc == Ret(r) && r.SSplit? && r.list != [] && r.list[0] !in r.guarded
    requires Holds(sh, t, RetireHolding(r))
    ensures Good(sh, t, th, StepReclaim(sh, t, th, r))
  {
    var node, sh' := r.list[0], sh.(heap := sh.heap - {r.list[0]});
    FirstIsHeld(sh, t, r.list, multiset(r.keep));
    DeleteSound(sh, t, node);
    HoldsTail(sh, sh', t, r.list, multiset(r.keep));
    RetireGood(sh, t, th, sh', th.(pc := Ret(SSplit(r.list[1..], r.guarded, r.keep))));
  }

  lemma FirstIsHeld<T>(sh: Shared<T>, t: Tid, list: seq<Addr>, more: multiset<Addr>)
    requires list != [] && Holds(sh, t, multiset(list) + more)
    ensures HeldBy(sh, t, list[0])
  {
    assert list[0] in multiset(list) + more;
  }

  lemma PushBack<T>(sh: Shared<T>, t: Tid, list: seq<Addr>)
    requires SharedOk(sh) && list != [] && Holds(sh, t, multiset(list))
    ensures HeldBy(sh, t, list[0])
    ensures var sh' := PushRetired(sh, list[0]); Sound(sh, sh', t) && Holds(sh', t, multiset(list[1..]))
  {
    assert list[0] in multiset(list);
    PushSound(sh, t, list[0]);
    HoldsRest(sh, PushRetired(sh, list[0]), t, list);
  }

  lemma BackInv<T>(sh: Shared<T>, t: Tid, th: Thread<T>, r: RetirePc)
    requires SharedOk(sh) && th.pc == Ret(r) && r.SBack? && r.keep != []
    requires Holds(sh, t, RetireHolding(r))
    ensures Good(sh, t, th, StepReclaim(sh, t, th, r))
  {
    PushBack(sh, t, r.keep);
    RetireGood(sh, t, th, PushRetired(sh, r.keep[0]), th.(pc := Ret(SBack(r.keep[1..]))));
  }

  /** Reading hazards changes nothing but what the thread has collected. */
  lemma ReadShape<T>(s: State<T>, th: Thread<T>, r: RetirePc)
    requires Reads(r)
    ensures StepRead(s, th, r).pc.Ret? && RetireHolding(StepRead(s, th, r).pc.r) == multiset(r.list)
  {
  }

  lemma ReadInv<T>(s: State<T>, t: Tid, th: Thread<T>, r: RetirePc)
    requires SharedOk(s.sh) && th.pc == Ret(r) && Reads(r) && Holds(s.sh, t, RetireHolding(r))
    ensures Good(s.sh, t, th, (s.sh, StepRead(s, th, r)))
  {
    StillSound(s.sh, t);
    ReadShape(s, th, r);
    RetireGood(s.sh, t, th, s.sh, StepRead(s, th, r));
  }

  lemma ReclaimInv<T>(sh: Shared<T>, t: Tid, th: Thread<T>, r: RetirePc)
    requires SharedOk(sh) && th.pc == Ret(r) && !Reads(r) && Holds(sh, t, RetireHolding(r))
    ensures Good(sh, t, th, StepReclaim(sh, t, th, r))
  {
    if r.RPush? { RetirePushInv(sh, t, th, r); }
    else if r.RCount? { RetireCountInv(sh, t, th, r); }
    else if r.SExchange? { ExchangeInv(sh, t, th, r); }
    else if r.SSplit? && r.list != [] && r.list[0] !in r.guarded { DeleteInv(sh, t, th, r); }
    else if r.SBack? && r.keep != [] { BackInv(sh, t, th, r); }
    else if r.SSplit? && r.list != [] { KeepInv(sh, t, th, r); }
    else { DoneInv(sh, t, th, r); }
  }

  lemma RetireInv<T>(s: State<T>, t: Tid, th: Thread<T>, r: RetirePc)
    requires SharedOk(s.sh) && ThreadOk(s.sh, t, th) && th.pc == Ret(r)
    ensures Good(s.sh, t, th, StepRetire(s, t, th, r))
  {
    if Reads(r) { ReadInv(s, t, th, r); } else { ReclaimInv(s.sh, t, th, r); }
  }

  // ---------------------------------------------------------------- one step of the machine

  /** Every step of a thread keeps the shared facts, disturbs nobody, and re-establishes its own. */
  lemma ThreadStepInv<T>(s: State<T>, t: Tid, th: Thread<T>, c: Choice<T>)
    requires SharedOk(s.sh) && ThreadOk(s.sh, t, th)
    ensures Good(s.sh, t, th, StepShared(s, t, th, c))
  {
    match th.pc
    case Idle => StillSound(s.sh, t);
    case Enq(e) => EnqueueInv(s.sh, t, th, e, c);
    case Deq(d) => DequeueInv(s.sh, t, th, d, c);
    case Ret(r) => RetireInv(s, t, th, r);
  }

  // ---------------------------------------------------------------- no scan misses a guard

  /** What a scan may delete belongs to the scanning thread, so nobody can guard it anew. */
  lemma SplitIsHeld<T>(sh: Shared<T>, u: Tid, th: Thread<T>, a: Addr)
    requires ThreadOk(sh, u, th) && th.pc.Ret? && a in ToSplit(th.pc.r)
    ensures HeldBy(sh, u, a)
  {
    assert a in Holding(th.pc);
  }

  /** A guarding thread's step leaves every scan covering it. */
  lemma GuardStepCovered<T>(sh: Shared<T>, u: Tid, scan: Thread<T>, t: Tid, th: Thread<T>, th': Thread<T>)
    requires ThreadOk(sh, u, scan) && ScanCovers(scan.pc, t, th.pc)
    requires NewGuard(sh, Guard1(th.pc), Guard1(th'.pc)) && NewGuard(sh, Guard2(th.pc), Guard2(th'.pc))
    ensures ScanCovers(scan.pc, t, th'.pc)
  {
    if scan.pc.Ret? {
      if Guard1(th'.pc).Some? && Guard1(th'.pc).value in ToSplit(scan.pc.r) {
        SplitIsHeld(sh, u, scan, Guard1(th'.pc).value);
      }
      if Guard2(th'.pc).Some? && Guard2(th'.pc).value in ToSplit(scan.pc.r) {
        SplitIsHeld(sh, u, scan, Guard2(th'.pc).value);
      }
    }
  }

  /** A validated guard sits in its thread's hazard record, where a scan that reads it finds it. */
  lemma GuardIsVisible<T>(sh: Shared<T>, t: Tid, th: Thread<T>)
    requires ThreadOk(sh, t, th)
    ensures Guard1(th.pc).Some? ==> t in sh.records && Guard1(th.pc).value == th.first
    ensures Guard2(th.pc).Some? ==> t in sh.records && Guard2(th.pc).value == th.second
  {
  }

  /** A scanning thread's step reads the slots that the cover counts on. */
  lemma ScanStepCovers<T>(s: State<T>, u: Tid, r: RetirePc, t: Tid)
    requires u < |s.threads| && t < |s.threads| && s.threads[u].pc == Ret(r) && !r.SExchange?
    requires ScanCovers(s.threads[u].pc, t, s.threads[t].pc)
    requires ThreadOk(s.sh, t, s.threads[t])
    requires forall a | a in ToSplit(r) :: a != NULL
    ensures ScanCovers(StepRetire(s, u, s.threads[u], r).1.pc, t, s.threads[t].pc)
  {
    GuardIsVisible(s.sh, t, s.threads[t]);
  }

  lemma ToSplitNonNull<T>(sh: Shared<T>, u: Tid, th: Thread<T>)
    requires SharedOk(sh) && ThreadOk(sh, u, th) && th.pc.Ret?
    ensures forall a | a in ToSplit(th.pc.r) :: a != NULL
  {
    forall a | a in ToSplit(th.pc.r) ensures a != NULL {
      SplitIsHeld(sh, u, th, a);
      assert NodeOk(sh, a);
    }
  }

  /** A thread that is not scanning yet has nothing to split before its exchange. */
  lemma OtherStepCovers<T>(s: State<T>, u: Tid, t: Tid, c: Choice<T>)
    requires u < |s.threads| && t < |s.threads|
    requires !s.threads[u].pc.Ret? || s.threads[u].pc.r.SExchange?
    ensures ScanCovers(StepShared(s, u, s.threads[u], c).1.pc, t, s.threads[t].pc)
  {
  }

  lemma OwnStepCovers<T>(s: State<T>, u: Tid, t: Tid, c: Choice<T>)
    requires u < |s.threads| && t < |s.threads| && ScanCovers(s.threads[u].pc, t, s.threads[t].pc)
    requires SharedOk(s.sh) && ThreadOk(s.sh, t, s.threads[t]) && ThreadOk(s.sh, u, s.threads[u])
    ensures ScanCovers(StepShared(s, u, s.threads[u], c).1.pc, t, s.threads[t].pc)
  {
    var pc := s.threads[u].pc;
    if pc.Ret? && !pc.r.SExchange? {
      ToSplitNonNull(s.sh, u, s.threads[u]);
      ScanStepCovers(s, u, pc.r, t);
    } else {
      OtherStepCovers(s, u, t, c);
    }
  }

  /** Only a scan deletes, and only a node it holds and found no hazard for. */
  lemma OnlyReclaimDeletes<T>(s: State<T>, t: Tid, c: Choice<T>)
    requires t < |s.threads|
    ensures var (pc, sh') := (s.threads[t].pc, StepShared(s, t, s.threads[t], c).0);
            forall a | a in s.sh.heap && a !in sh'.heap ::
              pc.Ret? && pc.r.SSplit? && pc.r.list != [] && a == pc.r.list[0] && a !in pc.r.guarded
  {
  }

  lemma GuardsExist<T>(sh: Shared<T>, t: Tid, th: Thread<T>)
    requires ThreadOk(sh, t, th)
    ensures GuardsAlive(sh, th.pc)
  {
  }

  /** Nobody's guarded node disappears in a step. */
  lemma GuardsStayAlive<T>(s: State<T>, t: Tid, c: Choice<T>, u: Tid)
    requires t < |s.threads| && u < |s.threads|
    requires ThreadOk(s.sh, u, s.threads[u]) && ScanCovers(s.threads[t].pc, u, s.threads[u].pc)
    ensures GuardsAlive(StepShared(s, t, s.threads[t], c).0, s.threads[u].pc)
  {
    GuardsExist(s.sh, u, s.threads[u]);
    OnlyReclaimDeletes(s, t, c);
  }

  /** What a step of thread `t` means for the scan of thread `u` and the guards of thread `g`. */
  lemma ScanPairOk<T>(s: State<T>, t: Tid, c: Choice<T>, u: Tid, g: Tid)
    requires SharedOk(s.sh) && t < |s.threads| && u < |s.threads| && g < |s.threads| && u != g
    requires ThreadOk(s.sh, u, s.threads[u]) && ThreadOk(s.sh, g, s.threads[g])
    requires ScanCovers(s.threads[u].pc, g, s.threads[g].pc)
    requires var th, th' := s.threads[t], StepShared(s, t, s.threads[t], c).1;
             NewGuard(s.sh, Guard1(th.pc), Guard1(th'.pc)) && NewGuard(s.sh, Guard2(th.pc), Guard2(th'.pc))
    ensures var threads' := s.threads[t := StepShared(s, t, s.threads[t], c).1];
            ScanCovers(threads'[u].pc, g, threads'[g].pc)
  {
    if u == t {
      OwnStepCovers(s, t, g, c);
    } else if g == t {
      GuardStepCovered(s.sh, u, s.threads[u], t, s.threads[t], StepShared(s, t, s.threads[t], c).1);
    }
  }

  /** A thread that scans guards nothing. */
  lemma OwnGuards<T>(th: Thread<T>, t: Tid)
    ensures ScanCovers(th.pc, t, th.pc)
  {
  }

  lemma ScansStepOk<T>(s: State<T>, t: Tid, c: Choice<T>)
    requires SharedOk(s.sh) && ThreadsOk(s) && ScansOk(s) && t < |s.threads|
    requires Good(s.sh, t, s.threads[t], StepShared(s, t, s.threads[t], c))
    ensures ScansOk(Step(s, Event(t, c)))
  {
    var threads' := s.threads[t := StepShared(s, t, s.threads[t], c).1];
    forall u, g | 0 <= u < |threads'| && 0 <= g < |threads'| ensures ScanCovers(threads'[u].pc, g, threads'[g].pc) {
      if u == g {
        OwnGuards(threads'[u], u);
      } else {
        assert ScanCovers(s.threads[u].pc, g, s.threads[g].pc);
        assert ThreadOk(s.sh, u, s.threads[u]) && ThreadOk(s.sh, g, s.threads[g]);
        ScanPairOk(s, t, c, u, g);
      }
    }
  }

  lemma HoldersStepExist<T>(s: State<T>, t: Tid, c: Choice<T>)
    requires HoldersExist(s) && t < |s.threads|
    requires Good(s.sh, t, s.threads[t], StepShared(s, t, s.threads[t], c))
    ensures HoldersExist(Step(s, Event(t, c)))
  {
    var sh' := StepShared(s, t, s.threads[t], c).0;
    forall u: Tid, a: Addr | HeldBy(sh', u, a) ensures u < |s.threads| {
      if u != t {
        assert a in s.sh.heap;
        assert NodeEvolves(s.sh.heap[a], sh'.heap[a], t);
        assert HeldBy(s.sh, u, a);
      }
    }
  }

  lemma EnqueuePrivate<T>(sh: Shared<T>, t: Tid, th: Thread<T>, e: EnqueuePc<T>, c: Choice<T>, a: Addr)
    requires th.pc == Enq(e) && EnqueueOk(sh, t, th, e)
    requires PrivateTo(sh, t, a) ==> Unlinked(th.pc) == Some(a)
    requires PrivateTo(StepEnqueue(sh, t, th, e, c).0, t, a)
    ensures Unlinked(StepEnqueue(sh, t, th, e, c).1.pc) == Some(a)
  {
  }

  /** A thread outside Enqueue has no private node and makes none. */
  lemma NobodyElsePrivate<T>(s: State<T>, t: Tid, c: Choice<T>, a: Addr)
    requires t < |s.threads| && !s.threads[t].pc.Enq? && !PrivateTo(s.sh, t, a)
    ensures !PrivateTo(StepShared(s, t, s.threads[t], c).0, t, a)
  {
  }

  lemma PrivateStepOk<T>(s: State<T>, t: Tid, c: Choice<T>)
    requires PrivateOk(s) && t < |s.threads| && ThreadOk(s.sh, t, s.threads[t])
    requires Good(s.sh, t, s.threads[t], StepShared(s, t, s.threads[t], c))
    ensures PrivateOk(Step(s, Event(t, c)))
  {
    var (sh', th') := StepShared(s, t, s.threads[t], c);
    forall u: Tid, a: Addr | PrivateTo(sh', u, a)
      ensures u < |s.threads| && Unlinked(s.threads[t := th'][u].pc) == Some(a)
    {
      if u != t {
        if a in s.sh.heap { assert NodeEvolves(s.sh.heap[a], sh'.heap[a], t); }
        assert PrivateTo(s.sh, u, a);
      } else if s.threads[t].pc.Enq? {
        EnqueuePrivate(s.sh, t, s.threads[t], s.threads[t].pc.e, c, a);
      } else {
        NobodyElsePrivate(s, t, c, a);
      }
    }
  }

  lemma ThreadsStepOk<T>(s: State<T>, t: Tid, c: Choice<T>)
    requires SharedOk(s.sh) && ThreadsOk(s) && ScansOk(s) && t < |s.threads|
    requires Good(s.sh, t, s.threads[t], StepShared(s, t, s.threads[t], c))
    ensures ThreadsOk(Step(s, Event(t, c)))
  {
    var (sh', th') := StepShared(s, t, s.threads[t], c);
    forall u | 0 <= u < |s.threads| && u != t ensures ThreadOk(sh', u, s.threads[u]) {
      assert ThreadOk(s.sh, u, s.threads[u]);
      assert ScanCovers(s.threads[t].pc, u, s.threads[u].pc);
      GuardsStayAlive(s, t, c, u);
      OtherThreadOk(s.sh, sh', t, u, s.threads[u]);
    }
  }

  lemma WrapShift(a: int, k: int)
    ensures (a % WORD + k) % WORD == (a + k) % WORD
  {
  }

  lemma CounterStep<T>(s: State<T>, t: Tid, c: Choice<T>)
    requires t < |s.threads| && s.sh.size < WORD
    ensures StepShared(s, t, s.threads[t], c).0.size == (s.sh.size + Counted(s.threads[t].pc)) % WORD
  {
  }

  lemma SizeStepOk<T>(s: State<T>, t: Tid, sh': Shared<T>, th': Thread<T>)
    requires SizeOk(s) && t < |s.threads|
    requires sh'.size == (s.sh.size + Counted(s.threads[t].pc)) % WORD
    requires |Contents(sh')| + Lag(th'.pc) == |Contents(s.sh)| + Lag(s.threads[t].pc) + Counted(s.threads[t].pc)
    ensures SizeOk(State(sh', s.threads[t := th']))
  {
    LagSumUpdate(s.threads, t, th');
    WrapShift(|Contents(s.sh)| + LagSum(s.threads), Counted(s.threads[t].pc));
  }

  lemma CountStepOk<T>(s: State<T>, t: Tid, c: Choice<T>)
    requires SizeOk(s) && t < |s.threads|
    requires Good(s.sh, t, s.threads[t], StepShared(s, t, s.threads[t], c))
    ensures SizeOk(Step(s, Event(t, c)))
  {
    var (sh', th') := StepShared(s, t, s.threads[t], c);
    CounterStep(s, t, c);
    SizeStepOk(s, t, sh', th');
  }

  lemma SharedStepOk<T>(s: State<T>, t: Tid, c: Choice<T>)
    requires t < |s.threads|
    requires Good(s.sh, t, s.threads[t], StepShared(s, t, s.threads[t], c))
    ensures SharedOk(Step(s, Event(t, c)).sh)
  {
  }

  /** Every step of every thread keeps the whole invariant. */
  lemma StepInv<T>(s: State<T>, e: Event<T>)
    requires Inv(s)
    ensures Inv(Step(s, e))
  {
    if e.t < |s.threads| {
      assert ThreadOk(s.sh, e.t, s.threads[e.t]);
      ThreadStepInv(s, e.t, s.threads[e.t], e.c);
      SharedStepOk(s, e.t, e.c);
      HoldersStepExist(s, e.t, e.c);
      PrivateStepOk(s, e.t, e.c);
      ThreadsStepOk(s, e.t, e.c);
      ScansStepOk(s, e.t, e.c);
      CountStepOk(s, e.t, e.c);
    }
  }

  lemma {:induction false} RunInv<T>(s: State<T>, events: seq<Event<T>>)
    requires Inv(s)
    ensures Inv(Run(s, events))
    decreases |events|
  {
    if events != [] {
      RunInv(s, events[..|events| - 1]);
      StepInv(Run(s, events[..|events| - 1]), events[|events| - 1]);
    }
  }
}
