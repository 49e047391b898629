/** The Michael-Scott queue with hazard pointers as a step machine.
  *
  * One step is one atomic access (or one allocation or deletion) of one thread. Addresses are
  * plain numbers; a deleted address may be handed out again by the next allocation. A node also
  * records two things the program does not store, its position in link order and who may touch
  * it, and the machine records what was linked and what was taken out. No branch reads them.
  */
module LockFreeQueue {

  import opened Common

  type Addr = nat
  type Tid = nat

  const NULL: Addr := 0
  /** `std::size_t` has 64 bits; the counter wraps. */
  const WORD: nat := 0x1_0000_0000_0000_0000

  // Who may touch a node: its enqueuer before linking, everyone while it is on the chain,
  // one thread after unlinking or while scanning, nobody while it waits in the retired list.
  datatype Place = Private(owner: Tid) | Linked | Held(holder: Tid) | Retired

  datatype Node<+T> = Node(next: Addr, value: Option<T>, ord: nat, place: Place)

  datatype Shared<T> = Shared(
    heap: map<Addr, Node<T>>,
    head: Addr,
    tail: Addr,
    size: nat,
    retired: seq<Addr>,
    retireCount: nat,
    records: seq<Tid>,      // the hazard record list, newest first; a record belongs to one thread
    fault: bool,            // a deleted node was dereferenced or deleted again
    links: seq<Addr>,       // history: every address in link order, the sentinel first
    linked: seq<T>,         // history: every value in link order
    dequeued: seq<T>,       // history: every value taken by a head CAS, in order
    tailIdx: nat            // history: position of the tail in link order
  )

  datatype EnqueuePc<T> =
    | EAlloc(item: T)
    | ERegister(item: T, node: Addr)
    | ELoad(item: T, node: Addr)
    | EStore(item: T, node: Addr, read: Addr)
    | ECheck(item: T, node: Addr, read: Addr)
    | ENext(item: T, node: Addr, tail: Addr)
    | EVerify(item: T, node: Addr, tail: Addr, next: Addr)
    | ELink(item: T, node: Addr, tail: Addr)
    | EHelp(item: T, node: Addr, tail: Addr, next: Addr)
    | ESwing(node: Addr, tail: Addr)
    | ECount
    | EClear2
    | EClear1

  datatype DequeuePc<T> =
    | DRegister
    | DLoad
    | DStore(read: Addr)
    | DCheck(read: Addr)
    | DNext(head: Addr)
    | DStore2(head: Addr, next: Addr)
    | DVerify(head: Addr, next: Addr)
    | DTail(head: Addr, next: Addr)
    | DHelp(head: Addr, next: Addr)
    | DRead(head: Addr, next: Addr)
    | DCas(head: Addr, next: Addr, candidate: T)
    | DCount(node: Addr)
    | DClear2(taken: Option<Addr>)
    | DClear1(taken: Option<Addr>)

  datatype RetirePc =
    | RPush(node: Addr)
    | RCount
    | SExchange
    | SRecords(list: seq<Addr>)
    | SFirst(list: seq<Addr>, pending: seq<Tid>, guarded: set<Addr>)
    | SSecond(list: seq<Addr>, pending: seq<Tid>, guarded: set<Addr>)
    | SSplit(list: seq<Addr>, guarded: set<Addr>, keep: seq<Addr>)
    | SBack(keep: seq<Addr>)

  // Where a thread is: outside the queue, in Enqueue, in TryDequeue up to the clearing of its
  // hazards, or in Retire and ScanRetired.
  datatype Pc<T> = Idle | Enq(e: EnqueuePc<T>) | Deq(d: DequeuePc<T>) | Ret(r: RetirePc)

  // A thread with its hazard record. `stamp` is history: the position of the node in `first`
  // when it was last validated. `found` and `out` are what TryDequeue returns and stores.
  datatype Thread<T> = Thread(pc: Pc<T>, first: Addr, second: Addr, stamp: nat, found: bool, out: Option<T>)

  datatype State<T> = State(sh: Shared<T>, threads: seq<Thread<T>>)

  datatype Op<T> = BeginEnqueue(item: T) | BeginDequeue

  // What the environment decides in a step: the operation an idle thread starts, the address the
  // allocator returns, and whether a weak CAS fails spuriously.
  datatype Choice<T> = Choice(op: Op<T>, address: Addr, spurious: bool)

  datatype Event<T> = Event(t: Tid, c: Choice<T>)

  function Init<T>(sentinel: Addr, n: nat): State<T> {
    State(
      Shared(map[sentinel := Node(NULL, None, 0, Linked)], sentinel, sentinel, 0, [], 0, [], false,
             [sentinel], [], [], 0),
      seq(n, _ => Thread(Idle, NULL, NULL, 0, false, None)))
  }

  /** The queue a caller sees: what was linked and not yet taken. */
  function Contents<T>(sh: Shared<T>): seq<T> {
    if |sh.dequeued| <= |sh.linked| then sh.linked[|sh.dequeued|..] else []
  }

  // ---------------------------------------------------------------- steps

  function Register<T>(sh: Shared<T>, t: Tid): Shared<T> {
    if t in sh.records then sh else sh.(records := [t] + sh.records)
  }

  function Fault<T>(sh: Shared<T>, th: Thread<T>): (Shared<T>, Thread<T>) {
    (sh.(fault := true), th)
  }

  /** `tail->next.compare_exchange_weak(null, node)` has succeeded. */
  function LinkNode<T>(sh: Shared<T>, item: T, node: Addr, tail: Addr): Shared<T>
    requires node in sh.heap && tail in sh.heap
  {
    sh.(heap := sh.heap[tail := sh.heap[tail].(next := node)]
                       [node := sh.heap[node].(ord := |sh.links|, place := Linked)],
        links := sh.links + [node],
        linked := sh.linked + [item])
  }

  function SwingTail<T>(sh: Shared<T>, expected: Addr, desired: Addr): Shared<T> {
    if sh.tail == expected then sh.(tail := desired, tailIdx := sh.tailIdx + 1) else sh
  }

  function StepEnqueue<T>(sh: Shared<T>, t: Tid, th: Thread<T>, e: EnqueuePc<T>, c: Choice<T>): (Shared<T>, Thread<T>) {
    match e
    case EAlloc(item) =>
      if c.address == NULL || c.address in sh.heap then (sh, th)
      else (sh.(heap := sh.heap[c.address := Node(NULL, Some(item), 0, Private(t))]),
            th.(pc := Enq(ERegister(item, c.address))))
    case ERegister(item, node) => (Register(sh, t), th.(pc := Enq(ELoad(item, node))))
    case ELoad(item, node) => (sh, th.(pc := Enq(EStore(item, node, sh.tail))))
    case EStore(item, node, read) => (sh, th.(first := read, pc := Enq(ECheck(item, node, read))))
    case ECheck(item, node, read) =>
      if read == sh.tail then (sh, th.(pc := Enq(ENext(item, node, read)), stamp := sh.tailIdx))
      else (sh, th.(pc := Enq(ELoad(item, node))))
    case ENext(item, node, tail) =>
      if tail in sh.heap then (sh, th.(pc := Enq(EVerify(item, node, tail, sh.heap[tail].next))))
      else Fault(sh, th)
    case EVerify(item, node, tail, next) =>
      if tail != sh.tail then (sh, th.(pc := Enq(ELoad(item, node))))
      else if next == NULL then (sh, th.(pc := Enq(ELink(item, node, tail))))
      else (sh, th.(pc := Enq(EHelp(item, node, tail, next))))
    case ELink(item, node, tail) =>
      if tail in sh.heap && node in sh.heap then
        if !c.spurious && sh.heap[tail].next == NULL
        then (LinkNode(sh, item, node, tail), th.(pc := Enq(ESwing(node, tail))))
        else (sh, th.(pc := Enq(ELoad(item, node))))
      else Fault(sh, th)
    case EHelp(item, node, tail, next) =>
      (if c.spurious then sh else SwingTail(sh, tail, next), th.(pc := Enq(ELoad(item, node))))
    case ESwing(node, tail) => (SwingTail(sh, tail, node), th.(pc := Enq(ECount)))
    case ECount => (sh.(size := (sh.size + 1) % WORD), th.(pc := Enq(EClear2)))
    case EClear2 => (sh, th.(second := NULL, pc := Enq(EClear1)))
    case EClear1 => (sh, th.(first := NULL, pc := Idle))
  }

  /** `mHead.compare_exchange_weak(head, next)` has succeeded. */
  function TakeHead<T>(sh: Shared<T>, t: Tid, head: Addr, next: Addr, v: T): Shared<T>
    requires head in sh.heap
  {
    sh.(heap := sh.heap[head := sh.heap[head].(place := Held(t))],
        head := next,
        dequeued := sh.dequeued + [v])
  }

  function StepDequeue<T>(sh: Shared<T>, t: Tid, th: Thread<T>, d: DequeuePc<T>, c: Choice<T>): (Shared<T>, Thread<T>) {
    match d
    case DRegister => (Register(sh, t), th.(pc := Deq(DLoad)))
    case DLoad => (sh, th.(pc := Deq(DStore(sh.head))))
    case DStore(read) => (sh, th.(first := read, pc := Deq(DCheck(read))))
    case DCheck(read) =>
      if read == sh.head then (sh, th.(pc := Deq(DNext(read)), stamp := |sh.dequeued|))
      else (sh, th.(pc := Deq(DLoad)))
    case DNext(head) =>
      if head in sh.heap then (sh, th.(pc := Deq(DStore2(head, sh.heap[head].next)))) else Fault(sh, th)
    case DStore2(head, next) => (sh, th.(second := next, pc := Deq(DVerify(head, next))))
    case DVerify(head, next) =>
      if head != sh.head then (sh, th.(pc := Deq(DLoad)))
      else if next == NULL then (sh, th.(pc := Deq(DClear2(None)), found := false))
      else (sh, th.(pc := Deq(DTail(head, next))))
    case DTail(head, next) =>
      if head == sh.tail then (sh, th.(pc := Deq(DHelp(head, next)))) else (sh, th.(pc := Deq(DRead(head, next))))
    case DHelp(head, next) =>
      (if c.spurious then sh else SwingTail(sh, head, next), th.(pc := Deq(DLoad)))
    case DRead(head, next) =>
      if next in sh.heap && sh.heap[next].value.Some?
      then (sh, th.(pc := Deq(DCas(head, next, sh.heap[next].value.value))))
      else Fault(sh, th)
    case DCas(head, next, v) =>
      if !c.spurious && sh.head == head then
        if head in sh.heap
        then (TakeHead(sh, t, head, next, v), th.(pc := Deq(DCount(head)), found := true, out := Some(v)))
        else Fault(sh, th)
      else (sh, th.(pc := Deq(DLoad)))
    case DCount(node) => (sh.(size := (sh.size + WORD - 1) % WORD), th.(pc := Deq(DClear2(Some(node)))))
    case DClear2(taken) => (sh, th.(second := NULL, pc := Deq(DClear1(taken))))
    case DClear1(taken) =>
      (sh, th.(first := NULL, pc := if taken.Some? then Ret(RPush(taken.value)) else Idle))
  }

  /** In these places a scan reads the record list or a hazard slot. */
  predicate Reads(r: RetirePc) { r.SRecords? || r.SFirst? || r.SSecond? }

  function StepRead<T>(s: State<T>, th: Thread<T>, r: RetirePc): Thread<T>
    requires Reads(r)
  {
    match r
    case SRecords(list) => th.(pc := Ret(SFirst(list, s.sh.records, {})))
    case SFirst(list, pending, guarded) =>
      if pending == [] then th.(pc := Ret(SSplit(list, guarded, [])))
      else th.(pc := Ret(SSecond(list, pending, guarded + Hazard(s, pending[0], true))))
    case SSecond(list, pending, guarded) =>
      if pending == [] then th.(pc := Ret(SSplit(list, guarded, [])))
      else th.(pc := Ret(SFirst(list, pending[1..], guarded + Hazard(s, pending[0], false))))
  }

  function StepReclaim<T>(sh: Shared<T>, t: Tid, th: Thread<T>, r: RetirePc): (Shared<T>, Thread<T>)
    requires !Reads(r)
  {
    match r
    case RPush(node) => if node in sh.heap then (PushRetired(sh, node), th.(pc := Ret(RCount))) else Fault(sh, th)
    case RCount =>
      (sh.(retireCount := (sh.retireCount + 1) % WORD),
       th.(pc := if sh.retireCount % 64 == 63 then Ret(SExchange) else Idle))
    case SExchange =>
      (sh.(retired := [], heap := Hold(sh.heap, sh.retired, t)),
       th.(pc := if sh.retired == [] then Idle else Ret(SRecords(sh.retired))))
    case SSplit(list, guarded, keep) =>
      if list == [] then (sh, th.(pc := Ret(SBack(keep))))
      else if list[0] in guarded then (sh, th.(pc := Ret(SSplit(list[1..], guarded, [list[0]] + keep))))
      else if list[0] in sh.heap
      then (sh.(heap := sh.heap - {list[0]}), th.(pc := Ret(SSplit(list[1..], guarded, keep))))
      else Fault(sh, th)
    case SBack(keep) =>
      if keep == [] then (sh, th.(pc := Idle))
      else if keep[0] in sh.heap then (PushRetired(sh, keep[0]), th.(pc := Ret(SBack(keep[1..]))))
      else Fault(sh, th)
  }

  function StepRetire<T>(s: State<T>, t: Tid, th: Thread<T>, r: RetirePc): (Shared<T>, Thread<T>) {
    if Reads(r) then (s.sh, StepRead(s, th, r)) else StepReclaim(s.sh, t, th, r)
  }

  function PushRetired<T>(sh: Shared<T>, node: Addr): Shared<T>
    requires node in sh.heap
  {
    sh.(retired := [node] + sh.retired, heap := sh.heap[node := sh.heap[node].(place := Retired)])
  }

  function Hold<T>(heap: map<Addr, Node<T>>, list: seq<Addr>, t: Tid): map<Addr, Node<T>> {
    map a | a in heap :: if a in list then heap[a].(place := Held(t)) else heap[a]
  }

  /** The non-null content of one hazard slot. */
  function Hazard<T>(s: State<T>, u: Tid, first: bool): set<Addr> {
    if u >= |s.threads| then {}
    else
      var a := if first then s.threads[u].first else s.threads[u].second;
      if a == NULL then {} else {a}
  }

  function StepShared<T>(s: State<T>, t: Tid, th: Thread<T>, c: Choice<T>): (Shared<T>, Thread<T>) {
    match th.pc
    case Idle =>
      (s.sh, th.(pc := match c.op case BeginEnqueue(item) => Enq(EAlloc(item)) case BeginDequeue => Deq(DRegister)))
    case Enq(e) => StepEnqueue(s.sh, t, th, e, c)
    case Deq(d) => StepDequeue(s.sh, t, th, d, c)
    case Ret(r) => StepRetire(s, t, th, r)
  }

  function Step<T>(s: State<T>, e: Event<T>): State<T> {
    if e.t >= |s.threads| then s
    else
      var (sh, th) := StepShared(s, e.t, s.threads[e.t], e.c);
      State(sh, s.threads[e.t := th])
  }

  function Run<T>(s: State<T>, events: seq<Event<T>>): State<T>
    decreases |events|
  {
    if events == [] then s else Step(Run(s, events[..|events| - 1]), events[|events| - 1])
  }
}
