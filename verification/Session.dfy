/** The life of a session slot as a step machine: the packed `control` word, the release protocol,
  * the send path, packet references and the recycling of slots.
  *
  * A thread is the list of the atomic accesses it still has to make; one step makes the first of
  * them. A CAS loop is one step, taken at its deciding access, and a failed weak CAS leaves it in
  * place. Pending I/O and posted completions are counters of the slot. Fields under "history" are
  * never read by a branch.
  */
module Session {

  type Pkt = nat
  type Tid = nat

  const IO_RANGE: nat := 0x1_0000_0000            // ioCount is the low 32 bits of `control`
  const WORD: nat := 0x1_0000_0000_0000_0000
  const UNIQUE_RANGE: nat := 0x1_0000_0000_0000   // the low 48 bits of a session id
  const RELEASE: nat := 1                         // FLAG_RELEASE
  const CLEANUP: nat := 2                         // FLAG_CLEANUP
  const SEND_RING: nat := 256
  const MAX_BATCH: nat := 32

  datatype CleanOp = Leave | CountDown | DrainRing | ClearRings | ClearId | ClearState | ClearFlag | Push
  datatype AcceptOp =
    | ResetId | ResetControl | ResetSend | ResetState | TakeId | SetId(id: nat) | SetState | CountUp
    | Register | Join | First | FirstIssue | Abandon

  // Where a slot is in its life: on the free stack, about to make access `op` of createSession,
  // usable (and handed to the application or not), or about to make access `op` of releaseSession.
  datatype Phase = Free | Creating(op: AcceptOp) | Alive(joined: bool) | Cleaning(step: CleanOp)

  datatype Slot = Slot(
    control: nat,
    id: nat,
    connected: bool,          // state == Connected
    sendFlag: nat,
    ring: seq<Pkt>,           // sendRingBuffer
    batch: seq<Pkt>,          // sendOverlapped.sentPackets[0..packetCount]
    recvPosted: nat,          // WSARecv outstanding or its completion queued
    sendPosted: nat,          // WSASend outstanding or its completion queued
    releasePosted: nat,       // RELEASE completions queued
    // history
    phase: Phase,
    life: nat,                // how often the slot has been reset for a new session
    counted: bool,            // included in mSessionCount
    sent: bool,               // the socket has accepted `batch`
    stuck: bool,              // a send completion failed in this life
    posts: nat,               // RELEASE completions decided on in this life
    leaves: nat,              // OnClientLeave calls in this life
    put: seq<Pkt>,            // packets put in the ring in this life
    accepted: seq<Pkt>,       // packets the socket has accepted in this life
    dropped: seq<Pkt>)        // packets taken from the ring and given up in this life

  datatype Use = Send(p: Pkt) | Kick

  datatype UseTask =
    | Find(sid: nat, u: Use)
    | Look(i: nat, sid: nat, u: Use)
    | Acquire(i: nat, sid: nat, u: Use)
    | CheckId(i: nat, sid: nat, u: Use)
    | CheckState(i: nat, p: Pkt)
    | AddRef(i: nat, p: Pkt)
    | Put(i: nat, p: Pkt)

  datatype SendOp = Flag | Drain | Claim | Transmit | Refuse | Unflag | Finish
  datatype RecvOp = Next | Issue
  datatype RelOp = Request | Drop | Post | Cleanup

  // `RelT(i, Request)` is requestRelease followed by the caller's decreaseSessionIoCount, and every
  // send and receive task likewise includes the decrease that ends it.
  datatype Task =
    | UseT(u: UseTask)
    | SendT(i: nat, s: SendOp)
    | RecvT(i: nat, r: RecvOp)
    | RelT(i: nat, l: RelOp)
    | CleanT(i: nat, sid: nat, c: CleanOp)
    | AcceptT(i: nat, a: AcceptOp)
    | SubRef(p: Pkt)

  datatype Shared = Shared(
    slots: seq<Slot>,
    freeStack: seq<nat>,      // mSessionEmptyIndexStack, top first
    next: nat,                // mSessionID
    sessionCount: int,
    refCnt: multiset<Pkt>,    // mRefCnt of every packet that is out of the pool
    fault: bool,              // a count below zero, a packet used after it went back, or __debugbreak
    // history
    issued: set<nat>,         // every id handed to a slot
    published: set<nat>,      // the ids the application has been given by OnClientJoin
    leaked: multiset<Pkt>)    // references lost with failed send completions

  datatype State = State(sh: Shared, threads: seq<seq<Task>>)

  // What an idle thread begins. Thread 0 is the accept thread; the others are workers and callers.
  datatype Op =
    | Accept
    | StartSend(sids: seq<nat>, p: Pkt)
    | StartKick(sid: nat)
    | TakeRecv(i: nat)
    | TakeSend(i: nat)
    | TakeRelease(i: nat)

  // `ok` is the outcome of the system call of the step, `retry` a spurious failure of a weak CAS.
  datatype Choice = Choice(op: Op, ok: bool, retry: bool)

  datatype Event = Event(t: Tid, c: Choice)

  function EmptySlot(): Slot {
    Slot(0, 0, false, 0, [], [], 0, 0, 0, Free, 0, false, false, false, 0, 0, [], [], [])
  }

  function Init(slots: nat, threads: nat): State {
    State(Shared(seq(slots, _ => EmptySlot()), seq(slots, k requires 0 <= k < slots => slots - 1 - k),
                 0, 0, multiset{}, false, {}, {}, multiset{}),
          seq(threads, _ => []))
  }

  // ---------------------------------------------------------------- the control word

  function IoCount(control: nat): nat { control % IO_RANGE }

  function Flags(control: nat): nat { control / IO_RANGE }

  function IncIo(control: nat): nat {
    Flags(control) * IO_RANGE + (IoCount(control) + 1) % IO_RANGE
  }

  /** `control.fetch_sub(1)` on the whole word. */
  function Sub1(control: nat): nat { (control + WORD - 1) % WORD }

  predicate Releasing(control: nat) { Flags(control) % 2 == 1 }

  function SetRelease(control: nat): nat {
    if Releasing(control) then control else control + RELEASE * IO_RANGE
  }

  predicate CleaningUp(control: nat) { Flags(control) / 2 % 2 == 1 }

  function SetCleanup(control: nat): nat {
    if CleaningUp(control) then control else control + CLEANUP * IO_RANGE
  }

  // ---------------------------------------------------------------- steps

  function With(sh: Shared, i: nat, slot: Slot): Shared
    requires i < |sh.slots|
  {
    sh.(slots := sh.slots[i := slot])
  }

  function SubRefs(ps: seq<Pkt>): seq<Task> { seq(|ps|, k requires 0 <= k < |ps| => SubRef(ps[k])) }

  function ExecUse(sh: Shared, u: UseTask, c: Choice): (Shared, seq<Task>) {
    match u
    case Find(sid, use) =>
      var i := sid / UNIQUE_RANGE;
      if i >= |sh.slots| || sh.slots[i].id != sid then (sh, []) else (sh, [UseT(Look(i, sid, use))])
    case Look(i, sid, use) =>
      if i < |sh.slots| && sh.slots[i].connected then (sh, [UseT(Acquire(i, sid, use))]) else (sh, [])
    case Acquire(i, sid, use) =>
      if i >= |sh.slots| then (sh, [])
      else if c.retry then (sh, [UseT(u)])
      else if Releasing(sh.slots[i].control) then (sh, [])
      else (With(sh, i, sh.slots[i].(control := IncIo(sh.slots[i].control))), [UseT(CheckId(i, sid, use))])
    case CheckId(i, sid, use) =>
      if i >= |sh.slots| then (sh, [])
      else if sh.slots[i].id != sid then (sh, [RelT(i, Drop)])
      else if use.Kick? then (sh, [RelT(i, Request)])
      else (sh, [UseT(CheckState(i, use.p))])
    case CheckState(i, p) =>
      if i < |sh.slots| && sh.slots[i].connected then (sh, [UseT(AddRef(i, p))]) else (sh, [RelT(i, Drop)])
    case AddRef(i, p) =>
      (sh.(refCnt := sh.refCnt + multiset{p}, fault := sh.fault || p !in sh.refCnt), [UseT(Put(i, p))])
    case Put(i, p) =>
      if i >= |sh.slots| then (sh, [])
      else if |sh.slots[i].ring| < SEND_RING
      then (With(sh, i, sh.slots[i].(ring := sh.slots[i].ring + [p], put := sh.slots[i].put + [p])), [SendT(i, Flag)])
      else (sh, [SubRef(p), RelT(i, Request)])
  }

  function ExecSend(slot: Slot, i: nat, s: SendOp, c: Choice): (Slot, seq<Task>) {
    match s
    case Flag => (slot.(sendFlag := 1), if slot.sendFlag != 0 then [RelT(i, Drop)] else [SendT(i, Drain)])
    case Drain =>
      var k := if |slot.ring| < MAX_BATCH then |slot.ring| else MAX_BATCH;
      (slot.(batch := slot.ring[..k], ring := slot.ring[k..], sent := false),
       if k == 0 then [SendT(i, Unflag)] else [SendT(i, Claim)])
    case Claim =>
      if c.retry then (slot, [SendT(i, Claim)])
      else if Releasing(slot.control) then
        (slot.(batch := [], dropped := slot.dropped + slot.batch), SubRefs(slot.batch) + [SendT(i, Unflag)])
      else (slot.(control := IncIo(slot.control)), [SendT(i, Transmit)])
    case Transmit =>
      if c.ok then
        (slot.(sendPosted := slot.sendPosted + 1, sent := true, accepted := slot.accepted + slot.batch),
         [RelT(i, Drop)])
      else
        (slot.(batch := [], dropped := slot.dropped + slot.batch), SubRefs(slot.batch) + [SendT(i, Refuse)])
    case Refuse =>
      if c.retry then (slot, [SendT(i, Refuse)])
      else (Requested(slot), (if Posts(slot) then [RelT(i, Post)] else []) + [RelT(i, Drop), SendT(i, Unflag)])
    case Unflag => (slot.(sendFlag := 0), [RelT(i, Drop)])
    case Finish => (slot.(sendFlag := 0), [SendT(i, Flag)])
  }

  /** `TrySetReleaseFlag`; the caller posts a RELEASE itself when it was first and no I/O was counted. */
  function Requested(slot: Slot): Slot {
    slot.(control := SetRelease(slot.control), posts := slot.posts + (if Posts(slot) then 1 else 0))
  }

  predicate Posts(slot: Slot) { !Releasing(slot.control) && IoCount(slot.control) == 0 }

  function ExecRecv(slot: Slot, i: nat, r: RecvOp, c: Choice): (Slot, seq<Task>) {
    match r
    case Next =>
      if c.retry then (slot, [RecvT(i, Next)])
      else if Releasing(slot.control) then (slot, [RelT(i, Request)])
      else (slot.(control := IncIo(slot.control)), [RecvT(i, Issue)])
    case Issue =>
      if c.ok then (slot.(recvPosted := slot.recvPosted + 1), [RelT(i, Drop)])
      else (slot, [RelT(i, Request), RelT(i, Request)])
  }

  /** `decreaseSessionIoCount` is the one to post when it drops the last count of a released session. */
  predicate DropPosts(slot: Slot) { IoCount(slot.control) == 1 && Flags(slot.control) == 1 }

  function ExecRel(slot: Slot, i: nat, l: RelOp, c: Choice): (Slot, seq<Task>) {
    match l
    case Request =>
      if c.retry then (slot, [RelT(i, Request)])
      else (Requested(slot), (if Posts(slot) then [RelT(i, Post)] else []) + [RelT(i, Drop)])
    case Drop =>
      (slot.(control := Sub1(slot.control), posts := slot.posts + (if DropPosts(slot) then 1 else 0)),
       if DropPosts(slot) then [RelT(i, Post)] else [])
    case Post => (slot.(releasePosted := slot.releasePosted + 1), [])
    case Cleanup =>
      if c.retry then (slot, [RelT(i, Cleanup)])
      else if IoCount(slot.control) != 0 || !Releasing(slot.control) || CleaningUp(slot.control) then (slot, [])
      else (slot.(control := SetCleanup(slot.control), phase := Cleaning(Leave)), [CleanT(i, slot.id, Leave)])
  }

  function ExecClean(sh: Shared, i: nat, sid: nat, op: CleanOp): (Shared, seq<Task>)
    requires i < |sh.slots|
  {
    var slot := sh.slots[i];
    match op
    case Leave => NextClean(sh, i, sid, slot.(leaves := slot.leaves + 1), CountDown)
    case CountDown =>
      (With(sh, i, slot.(counted := false, phase := Cleaning(DrainRing)))
       .(sessionCount := sh.sessionCount - 1, fault := sh.fault || sh.sessionCount <= 0),
       [CleanT(i, sid, DrainRing)])
    case DrainRing =>
      (With(sh, i, slot.(ring := [], dropped := slot.dropped + slot.ring, phase := Cleaning(ClearRings))),
       SubRefs(slot.ring) + [CleanT(i, sid, ClearRings)])
    case ClearRings => NextClean(sh, i, sid, slot.(ring := []), ClearId)
    case ClearId => NextClean(sh, i, sid, slot.(id := 0), ClearState)
    case ClearState => NextClean(sh, i, sid, slot.(connected := false), ClearFlag)
    case ClearFlag => NextClean(sh, i, sid, slot.(sendFlag := 0, stuck := false), Push)
    case Push => (With(sh, i, slot.(phase := Free)).(freeStack := [sid / UNIQUE_RANGE] + sh.freeStack), [])
  }

  function NextClean(sh: Shared, i: nat, sid: nat, slot: Slot, op: CleanOp): (Shared, seq<Task>)
    requires i < |sh.slots|
  {
    (With(sh, i, slot.(phase := Cleaning(op))), [CleanT(i, sid, op)])
  }

  /** `(index << 48) | (unique & 0xFFFFFFFFFFFF)` in 64 bits. */
  function NewId(i: nat, next: nat): nat { i % 0x1_0000 * UNIQUE_RANGE + next % UNIQUE_RANGE }

  function ExecCreate(sh: Shared, i: nat, a: AcceptOp): (Shared, seq<Task>)
    requires i < |sh.slots|
  {
    var slot := sh.slots[i];
    match a
    case ResetId => NextCreate(sh, i, slot.(id := 0), ResetControl)
    case ResetControl =>
      NextCreate(sh, i, slot.(control := 0, life := slot.life + 1, posts := 0, leaves := 0,
                              put := [], accepted := [], dropped := []), ResetSend)
    case ResetSend => NextCreate(sh, i, slot.(sendFlag := 0, ring := [], batch := [], sent := false), ResetState)
    case ResetState => NextCreate(sh, i, slot.(connected := false), TakeId)
    case TakeId =>
      NextCreate(sh.(next := sh.next + 1, issued := sh.issued + {NewId(i, sh.next)}), i, slot, SetId(NewId(i, sh.next)))
    case SetId(id) => NextCreate(sh, i, slot.(id := id), SetState)
    case SetState => NextCreate(sh, i, slot.(connected := true), CountUp)
    case _ =>
      (With(sh, i, slot.(counted := true, phase := Alive(false))).(sessionCount := sh.sessionCount + 1),
       [AcceptT(i, Register)])
  }

  function NextCreate(sh: Shared, i: nat, slot: Slot, a: AcceptOp): (Shared, seq<Task>)
    requires i < |sh.slots|
  {
    (With(sh, i, slot.(phase := Creating(a))), [AcceptT(i, a)])
  }

  function ExecAccept(sh: Shared, i: nat, a: AcceptOp, c: Choice): (Shared, seq<Task>)
    requires i < |sh.slots|
  {
    var slot := sh.slots[i];
    match a
    case Register => (sh, [AcceptT(i, if c.ok then Join else Abandon)])
    case Join =>
      (With(sh, i, slot.(phase := Alive(true))).(published := sh.published + {slot.id}), [AcceptT(i, First)])
    case First =>
      if c.retry then (sh, [AcceptT(i, First)])
      else if Releasing(slot.control) then (sh, [])
      else (With(sh, i, slot.(control := IncIo(slot.control))), [AcceptT(i, FirstIssue)])
    case FirstIssue =>
      if c.ok then (With(sh, i, slot.(recvPosted := slot.recvPosted + 1)), []) else (sh, [RelT(i, Request)])
    case Abandon =>
      if c.retry then (sh, [AcceptT(i, Abandon)])
      else (With(sh, i, Requested(slot)), if Posts(slot) then [RelT(i, Post)] else [])
    case _ => ExecCreate(sh, i, a)
  }

  function ExecSubRef(sh: Shared, p: Pkt): (Shared, seq<Task>) {
    (sh.(refCnt := sh.refCnt - multiset{p}, fault := sh.fault || p !in sh.refCnt), [])
  }

  function OnSlot(sh: Shared, i: nat, r: (Slot, seq<Task>)): (Shared, seq<Task>)
    requires i < |sh.slots|
  {
    (With(sh, i, r.0), r.1)
  }

  function Exec(sh: Shared, task: Task, c: Choice): (Shared, seq<Task>) {
    match task
    case UseT(u) => ExecUse(sh, u, c)
    case SubRef(p) => ExecSubRef(sh, p)
    case SendT(i, s) => if i < |sh.slots| then OnSlot(sh, i, ExecSend(sh.slots[i], i, s, c)) else (sh, [])
    case RecvT(i, r) => if i < |sh.slots| then OnSlot(sh, i, ExecRecv(sh.slots[i], i, r, c)) else (sh, [])
    case RelT(i, l) => if i < |sh.slots| then OnSlot(sh, i, ExecRel(sh.slots[i], i, l, c)) else (sh, [])
    case CleanT(i, sid, op) => if i < |sh.slots| then ExecClean(sh, i, sid, op) else (sh, [])
    case AcceptT(i, a) => if i < |sh.slots| then ExecAccept(sh, i, a, c) else (sh, [])
  }

  function SendTo(sids: seq<nat>, p: Pkt): seq<Task> {
    seq(|sids|, k requires 0 <= k < |sids| => UseT(Find(sids[k], Send(p)))) + [SubRef(p)]
  }

  function BeginAccept(sh: Shared): (Shared, seq<Task>) {
    if sh.freeStack == [] || sh.freeStack[0] >= |sh.slots| then (sh, [])
    else
      var i := sh.freeStack[0];
      (With(sh, i, sh.slots[i].(phase := Creating(ResetId))).(freeStack := sh.freeStack[1..]), [AcceptT(i, ResetId)])
  }

  function BeginSend(sh: Shared, sids: seq<nat>, p: Pkt): (Shared, seq<Task>) {
    if p in sh.refCnt || !(forall sid | sid in sids :: sid in sh.published) then (sh, [])
    else (sh.(refCnt := sh.refCnt + multiset{p}), SendTo(sids, p))
  }

  function TakeRecvFrom(slot: Slot, i: nat, ok: bool): (Slot, seq<Task>) {
    if slot.recvPosted == 0 then (slot, [])
    else (slot.(recvPosted := slot.recvPosted - 1), [if ok then RecvT(i, Next) else RelT(i, Request)])
  }

  function TakeSendFrom(slot: Slot, i: nat, ok: bool): (Slot, seq<Task>) {
    if slot.sendPosted == 0 then (slot, [])
    else
      (slot.(sendPosted := slot.sendPosted - 1, batch := [], sent := false, stuck := if ok then slot.stuck else true),
       if ok then SubRefs(slot.batch) + [SendT(i, Finish)] else [RelT(i, Request)])
  }

  /** The references that a failed send completion does not give back. */
  function LeakOf(slot: Slot, ok: bool): multiset<Pkt> {
    if slot.sendPosted == 0 || ok then multiset{} else multiset(slot.batch)
  }

  function TakeReleaseFrom(slot: Slot, i: nat): (Slot, seq<Task>) {
    if slot.releasePosted == 0 then (slot, [])
    else (slot.(releasePosted := slot.releasePosted - 1), [RelT(i, Cleanup)])
  }

  /** What an idle thread may begin: an accept, a call with handles the application has been given
    * and a packet fresh from the pool, or the handling of a queued completion.
    */
  function Begin(sh: Shared, t: Tid, c: Choice): (Shared, seq<Task>) {
    match c.op
    case Accept => if t == 0 then BeginAccept(sh) else (sh, [])
    case StartSend(sids, p) => if t == 0 then (sh, []) else BeginSend(sh, sids, p)
    case StartKick(sid) =>
      if t == 0 || sid !in sh.published then (sh, []) else (sh, [UseT(Find(sid, Kick))])
    case TakeRecv(i) =>
      if t == 0 || i >= |sh.slots| then (sh, []) else OnSlot(sh, i, TakeRecvFrom(sh.slots[i], i, c.ok))
    case TakeSend(i) =>
      if t == 0 || i >= |sh.slots| then (sh, [])
      else OnSlot(sh.(leaked := sh.leaked + LeakOf(sh.slots[i], c.ok)), i, TakeSendFrom(sh.slots[i], i, c.ok))
    case TakeRelease(i) =>
      if t == 0 || i >= |sh.slots| then (sh, []) else OnSlot(sh, i, TakeReleaseFrom(sh.slots[i], i))
  }

  function Step(s: State, e: Event): State {
    if e.t >= |s.threads| then s
    else if s.threads[e.t] == [] then
      var (sh, todo) := Begin(s.sh, e.t, e.c);
      State(sh, s.threads[e.t := todo])
    else
      var (sh, more) := Exec(s.sh, s.threads[e.t][0], e.c);
      State(sh, s.threads[e.t := more + s.threads[e.t][1..]])
  }

  function Run(s: State, events: seq<Event>): State
    decreases |events|
  {
    if events == [] then s else Step(Run(s, events[..|events| - 1]), events[|events| - 1])
  }
}
