/** One task on one slot: the slot stays as SlotOk says, for the holdings that the task leaves. */
module SessionSlots {

  import opened Common
  import opened Session
  import opened SessionInvariant

  // ---------------------------------------------------------------- how holdings change

  predicate Traded(n: Tally, n': Tally, i: nat, task: Task, more: seq<Task>) {
    forall h: Hold :: n'(h) + Of(h, i)(task) == n(h) + Sum(Of(h, i), more)
  }

  function At(h: Hold, i: nat, todo: seq<Task>, k: nat): nat { if k < |todo| then Of(h, i)(todo[k]) else 0 }

  lemma SumShort(f: Task -> nat, todo: seq<Task>)
    requires |todo| <= 3
    ensures |todo| == 0 ==> Sum(f, todo) == 0
    ensures |todo| == 1 ==> Sum(f, todo) == f(todo[0])
    ensures |todo| == 2 ==> Sum(f, todo) == f(todo[0]) + f(todo[1])
    ensures |todo| == 3 ==> Sum(f, todo) == f(todo[0]) + f(todo[1]) + f(todo[2])
  {
    if |todo| > 1 {
      assert todo[1..][1..] == todo[2..];
      if |todo| > 2 { assert todo[2..][1..] == []; }
    }
  }

  lemma Trades(n: Tally, n': Tally, i: nat, task: Task, more: seq<Task>)
    requires Traded(n, n', i, task, more) && |more| <= 3
    ensures forall h: Hold ::
      n'(h) + Of(h, i)(task) == n(h) + At(h, i, more, 0) + At(h, i, more, 1) + At(h, i, more, 2)
  {
    forall h: Hold
      ensures n'(h) + Of(h, i)(task) == n(h) + At(h, i, more, 0) + At(h, i, more, 1) + At(h, i, more, 2)
    {
      SumShort(Of(h, i), more);
    }
  }

  lemma SubRefsAside(n: Tally, n': Tally, i: nat, task: Task, ps: seq<Pkt>, more: seq<Task>)
    requires Traded(n, n', i, task, SubRefs(ps) + more)
    ensures Traded(n, n', i, task, more)
  {
    forall h: Hold ensures Sum(Of(h, i), SubRefs(ps) + more) == Sum(Of(h, i), more) {
      SumAppend(Of(h, i), SubRefs(ps), more);
      SumZero(Of(h, i), SubRefs(ps));
    }
  }

  /** The change of every holding, in the order in which `Hold` lists them. */
  predicate Moved(n: Tally, n': Tally, refs: int, rel: int, busy: int, refused: int, loaded: int, armed: int,
                  recv: int, creation: int, cleanse: int)
  {
    && n'(Refs) == n(Refs) + refs && n'(Rel) == n(Rel) + rel && n'(Busy) == n(Busy) + busy
    && n'(Refused) == n(Refused) + refused && n'(Loaded) == n(Loaded) + loaded && n'(Armed) == n(Armed) + armed
    && n'(Recv) == n(Recv) + recv && n'(Creation) == n(Creation) + creation && n'(Cleanse) == n(Cleanse) + cleanse
  }

  // How the holdings change when a task of the kind in the name gives way to the tasks `more`.
  // The lemmas after these compare the slot before and after, knowing only that change.

  lemma RelTrade(n: Tally, n': Tally, i: nat, l: RelOp, more: seq<Task>)
    requires Traded(n, n', i, RelT(i, l), more)
    requires more == [] || (|more| == 1 && ((more[0].RelT? && more[0].i == i) || (more[0].CleanT? && more[0].i == i)))
    ensures RelMoved(n, n', l, more)
  {
    Trades(n, n', i, RelT(i, l), more);
  }

  predicate RelMoved(n: Tally, n': Tally, l: RelOp, more: seq<Task>) {
    var counted: int, deciding: int := One(l.Request? || l.Drop?), One(l.Post? || l.Cleanup?);
    if more == [] then Moved(n, n', -counted, -deciding, 0, 0, 0, 0, 0, 0, 0)
    else if more[0].RelT? then
      Moved(n, n', One(more[0].l.Request? || more[0].l.Drop?) - counted,
            One(more[0].l.Post? || more[0].l.Cleanup?) - deciding, 0, 0, 0, 0, 0, 0, 0)
    else Moved(n, n', -counted, -deciding, 0, 0, 0, 0, 0, 0, 1)
  }

  lemma SendTrade(n: Tally, n': Tally, i: nat, s: SendOp, x: Task)
    requires Traded(n, n', i, SendT(i, s), [x])
    requires x == RelT(i, Drop) || (x.SendT? && x.i == i)
    ensures SendMoved(n, n', s, x)
  {
    Trades(n, n', i, SendT(i, s), [x]);
  }

  predicate SendMoved(n: Tally, n': Tally, s: SendOp, x: Task) {
    && n'(Refs) == n(Refs) - RefsOf(SendT(0, s)) + RefsOf(x)
    && n'(Busy) == n(Busy) - One(SendsWith(Busy, s)) + One(x.SendT? && SendsWith(Busy, x.s))
    && n'(Refused) == n(Refused) - One(s.Refuse?) + One(x.SendT? && x.s.Refuse?)
    && n'(Loaded) == n(Loaded) - One(s.Claim?) + One(x.SendT? && x.s.Claim?)
    && n'(Armed) == n(Armed) - One(s.Transmit?) + One(x.SendT? && x.s.Transmit?)
    && n'(Rel) == n(Rel) && n'(Recv) == n(Recv) && n'(Creation) == n(Creation) && n'(Cleanse) == n(Cleanse)
  }

  lemma RefuseTrade(n: Tally, n': Tally, i: nat)
    requires Traded(n, n', i, SendT(i, Refuse), [RelT(i, Drop), SendT(i, Unflag)])
    ensures Moved(n, n', 0, 0, 1, -1, 0, 0, 0, 0, 0)
  {
    Trades(n, n', i, SendT(i, Refuse), [RelT(i, Drop), SendT(i, Unflag)]);
  }

  // ---------------------------------------------------------------- the slot after one task

  lemma DropKept(slot: Slot, i: nat, c: Choice, n: Tally, n': Tally)
    requires SlotOk(slot, i, n) && n(Refs) >= 1 && RelMoved(n, n', Drop, ExecRel(slot, i, Drop, c).1)
    ensures SlotOk(ExecRel(slot, i, Drop, c).0, i, n')
  {
    ControlWord(slot.control);
  }

  lemma RequestKept(slot: Slot, i: nat, c: Choice, n: Tally, n': Tally)
    requires SlotOk(slot, i, n) && n(Refs) >= 1 && slot.phase == Alive(true)
    requires RelMoved(n, n', Request, [RelT(i, if c.retry then Request else Drop)])
    ensures SlotOk(ExecRel(slot, i, Request, c).0, i, n')
    ensures ExecRel(slot, i, Request, c).1 == [RelT(i, if c.retry then Request else Drop)]
  {
    ControlWord(slot.control);
  }

  lemma PostKept(slot: Slot, i: nat, c: Choice, n: Tally, n': Tally)
    requires SlotOk(slot, i, n) && n(Rel) >= 1 && RelMoved(n, n', Post, [])
    ensures SlotOk(ExecRel(slot, i, Post, c).0, i, n')
  {
  }

  lemma CleanupKept(slot: Slot, i: nat, c: Choice, n: Tally, n': Tally)
    requires SlotOk(slot, i, n) && n(Rel) >= 1 && RelMoved(n, n', Cleanup, ExecRel(slot, i, Cleanup, c).1)
    ensures SlotOk(ExecRel(slot, i, Cleanup, c).0, i, n')
  {
    ControlWord(slot.control);
  }

  ghost predicate Sending(slot: Slot, i: nat, s: SendOp, n: Tally) {
    && SlotOk(slot, i, n) && slot.phase == Alive(true)
    && n(Refs) >= RefsOf(SendT(i, s)) && n(Refs) <= FEW
    && n(Busy) >= One(SendsWith(Busy, s)) && n(Refused) >= One(s.Refuse?)
    && n(Loaded) >= One(s.Claim?) && n(Armed) >= One(s.Transmit?)
  }

  lemma FlagKept(slot: Slot, i: nat, s: SendOp, c: Choice, n: Tally, n': Tally)
    requires s.Flag? || s.Unflag? || s.Finish?
    requires Sending(slot, i, s, n) && SendMoved(n, n', s, ExecSend(slot, i, s, c).1[0])
    ensures SlotOk(ExecSend(slot, i, s, c).0, i, n')
  {
  }

  lemma DrainKept(slot: Slot, i: nat, c: Choice, n: Tally, n': Tally)
    requires Sending(slot, i, Drain, n) && SendMoved(n, n', Drain, ExecSend(slot, i, Drain, c).1[0])
    ensures SlotOk(ExecSend(slot, i, Drain, c).0, i, n')
  {
    assert Waiting(ExecSend(slot, i, Drain, c).0) == Waiting(slot);
  }

  lemma ClaimKept(slot: Slot, i: nat, c: Choice, n: Tally, n': Tally)
    requires Sending(slot, i, Claim, n) && (c.retry || !Releasing(slot.control))
    requires SendMoved(n, n', Claim, ExecSend(slot, i, Claim, c).1[0])
    ensures SlotOk(ExecSend(slot, i, Claim, c).0, i, n')
  {
    ControlWord(slot.control);
  }

  lemma ClaimFailKept(slot: Slot, i: nat, c: Choice, n: Tally, n': Tally)
    requires Sending(slot, i, Claim, n) && !c.retry && Releasing(slot.control)
    requires SendMoved(n, n', Claim, SendT(i, Unflag))
    ensures SlotOk(ExecSend(slot, i, Claim, c).0, i, n')
  {
    var slot' := ExecSend(slot, i, Claim, c).0;
    assert slot'.dropped + Waiting(slot') == slot.dropped + Waiting(slot);
    ControlWord(slot.control);
  }

  lemma TransmitKept(slot: Slot, i: nat, c: Choice, n: Tally, n': Tally)
    requires Sending(slot, i, Transmit, n) && c.ok && SendMoved(n, n', Transmit, RelT(i, Drop))
    ensures SlotOk(ExecSend(slot, i, Transmit, c).0, i, n')
  {
    var slot' := ExecSend(slot, i, Transmit, c).0;
    assert slot'.accepted + Waiting(slot') == slot.accepted + Waiting(slot);
  }

  lemma TransmitFailKept(slot: Slot, i: nat, c: Choice, n: Tally, n': Tally)
    requires Sending(slot, i, Transmit, n) && !c.ok && SendMoved(n, n', Transmit, SendT(i, Refuse))
    ensures SlotOk(ExecSend(slot, i, Transmit, c).0, i, n')
  {
    var slot' := ExecSend(slot, i, Transmit, c).0;
    assert slot'.dropped + Waiting(slot') == slot.dropped + Waiting(slot);
  }

  /** A counted reference keeps the refusing thread from having to post the release itself. */
  lemma RefuseMore(slot: Slot, i: nat, c: Choice, n: Tally)
    requires Sending(slot, i, Refuse, n) && !c.retry
    ensures ExecSend(slot, i, Refuse, c).1 == [RelT(i, Drop), SendT(i, Unflag)]
  {
    ControlWord(slot.control);
  }

  lemma RefuseKept(slot: Slot, i: nat, c: Choice, n: Tally, n': Tally)
    requires Sending(slot, i, Refuse, n) && !c.retry && Moved(n, n', 0, 0, 1, -1, 0, 0, 0, 0, 0)
    ensures SlotOk(ExecSend(slot, i, Refuse, c).0, i, n')
  {
    ControlWord(slot.control);
  }

  lemma RecvKept(slot: Slot, i: nat, r: RecvOp, c: Choice, n: Tally, n': Tally)
    requires SlotOk(slot, i, n) && slot.phase == Alive(true) && n(Refs) >= RefsOf(RecvT(i, r)) && n(Refs) <= FEW
    requires n(Recv) >= 1
    requires var stay := c.retry && r.Next?;
             var out := (r.Next? && Releasing(slot.control)) || (r.Issue? && !c.ok);
             Moved(n, n', if stay || out then 0 else if r.Next? then 1 else -1, 0, 0, 0, 0, 0,
                   if stay || (r.Next? && !out) then 0 else -1, 0, 0)
    ensures SlotOk(ExecRecv(slot, i, r, c).0, i, n')
  {
    ControlWord(slot.control);
  }

  lemma AcquireKept(slot: Slot, i: nat, n: Tally, n': Tally)
    requires SlotOk(slot, i, n) && slot.life >= 1 && n(Refs) <= FEW && !Releasing(slot.control)
    requires Moved(n, n', 1, 0, 0, 0, 0, 0, 0, 0, 0)
    ensures SlotOk(slot.(control := IncIo(slot.control)), i, n')
  {
    ControlWord(slot.control);
  }

  lemma PutKept(slot: Slot, i: nat, p: Pkt, n: Tally)
    requires SlotOk(slot, i, n) && slot.phase == Alive(true)
    ensures SlotOk(slot.(ring := slot.ring + [p], put := slot.put + [p]), i, n)
  {
    var slot' := slot.(ring := slot.ring + [p], put := slot.put + [p]);
    assert Waiting(slot') == Waiting(slot) + [p];
  }

  predicate Unchanged(n: Tally, n': Tally) { Moved(n, n', 0, 0, 0, 0, 0, 0, 0, 0, 0) }

  lemma CleanKept(sh: Shared, i: nat, sid: nat, op: CleanOp, n: Tally, n': Tally)
    requires i < |sh.slots| && SlotOk(sh.slots[i], i, n) && sh.slots[i].phase == Cleaning(op)
    requires n(Busy) + n(Refused) + n(Loaded) + n(Armed) <= n(Refs)
    requires if op.Push? then Moved(n, n', 0, 0, 0, 0, 0, 0, 0, 0, -1) else Unchanged(n, n')
    ensures SlotOk(ExecClean(sh, i, sid, op).0.slots[i], i, n')
  {
    if op.DrainRing? { DrainRingKept(sh, i, sid, n, n'); }
  }

  lemma DrainRingKept(sh: Shared, i: nat, sid: nat, n: Tally, n': Tally)
    requires i < |sh.slots| && SlotOk(sh.slots[i], i, n) && sh.slots[i].phase == Cleaning(DrainRing)
    requires n(Busy) + n(Refused) + n(Loaded) + n(Armed) <= n(Refs) && Unchanged(n, n')
    ensures SlotOk(ExecClean(sh, i, sid, DrainRing).0.slots[i], i, n')
  {
    var slot, slot' := sh.slots[i], ExecClean(sh, i, sid, DrainRing).0.slots[i];
    assert slot'.dropped + Waiting(slot') == slot.dropped + Waiting(slot);
  }

  lemma NewIdNamed(i: nat, next: nat)
    requires i < 0x1_0000 && next < UNIQUE_RANGE
    ensures NewId(i, next) / UNIQUE_RANGE == i && NewId(i, next) % UNIQUE_RANGE == next
    ensures NewId(i, next) == 0 <==> i == 0 && next == 0
  {
  }

  lemma ResetKept(sh: Shared, i: nat, n: Tally, n': Tally)
    requires i < |sh.slots| && SlotOk(sh.slots[i], i, n) && sh.slots[i].phase == Creating(ResetControl)
    requires Unchanged(n, n')
    ensures SlotOk(ExecCreate(sh, i, ResetControl).0.slots[i], i, n')
  {
    ControlWord(0);
  }

  lemma CreateKept(sh: Shared, i: nat, a: AcceptOp, n: Tally, n': Tally)
    requires i < |sh.slots| && SlotOk(sh.slots[i], i, n) && sh.slots[i].phase == Creating(a)
    requires a.TakeId? ==> i < 0x1_0000 && sh.next < UNIQUE_RANGE && (i > 0 || sh.next > 0)
    requires if a.CountUp? then Moved(n, n', 0, 0, 0, 0, 0, 0, 0, -1, 0) else Unchanged(n, n')
    ensures SlotOk(ExecCreate(sh, i, a).0.slots[i], i, n')
  {
    if a.ResetControl? {
      ResetKept(sh, i, n, n');
    } else if a.TakeId? {
      NewIdNamed(i, sh.next);
    }
  }

  lemma JoinKept(slot: Slot, i: nat, n: Tally, n': Tally)
    requires SlotOk(slot, i, n) && slot.phase == Alive(false) && Unchanged(n, n')
    ensures SlotOk(slot.(phase := Alive(true)), i, n')
  {
  }

  lemma FirstKept(slot: Slot, i: nat, n: Tally, n': Tally)
    requires SlotOk(slot, i, n) && slot.phase == Alive(true) && !Releasing(slot.control) && n(Refs) <= FEW
    requires Moved(n, n', 1, 0, 0, 0, 0, 0, 0, 0, 0)
    ensures SlotOk(slot.(control := IncIo(slot.control)), i, n')
  {
    ControlWord(slot.control);
  }

  lemma FirstIssueKept(slot: Slot, i: nat, n: Tally, n': Tally)
    requires SlotOk(slot, i, n) && slot.phase == Alive(true) && n(Refs) >= 1 && n(Recv) >= 1
    requires Moved(n, n', -1, 0, 0, 0, 0, 0, -1, 0, 0)
    ensures SlotOk(slot.(recvPosted := slot.recvPosted + 1), i, n')
  {
  }

  lemma LessRecvKept(slot: Slot, i: nat, n: Tally, n': Tally)
    requires SlotOk(slot, i, n) && Moved(n, n', 0, 0, 0, 0, 0, 0, -1, 0, 0)
    ensures SlotOk(slot, i, n')
  {
  }

  lemma AbandonKept(slot: Slot, i: nat, n: Tally, n': Tally)
    requires SlotOk(slot, i, n) && slot.phase == Alive(false) && Flags(slot.control) == 0
    requires Moved(n, n', 0, One(Posts(slot)), 0, 0, 0, 0, 0, 0, 0)
    ensures SlotOk(Requested(slot), i, n')
  {
    ControlWord(slot.control);
  }

  lemma AcceptKept(slot: Slot, i: nat, n: Tally, n': Tally)
    requires SlotOk(slot, i, n) && slot.phase == Free && n(Recv) == 0
    requires Moved(n, n', 0, 0, 0, 0, 0, 0, 1, 1, 0)
    ensures SlotOk(slot.(phase := Creating(ResetId)), i, n')
  {
  }

  lemma TakeRecvKept(slot: Slot, i: nat, ok: bool, n: Tally, n': Tally)
    requires SlotOk(slot, i, n) && slot.recvPosted > 0
    requires Moved(n, n', 1, 0, 0, 0, 0, 0, One(ok), 0, 0)
    ensures SlotOk(slot.(recvPosted := slot.recvPosted - 1), i, n')
  {
  }

  lemma TakeSendKept(slot: Slot, i: nat, ok: bool, n: Tally, n': Tally)
    requires SlotOk(slot, i, n) && slot.sendPosted > 0
    requires Moved(n, n', 1, 0, One(ok), 0, 0, 0, 0, 0, 0)
    ensures SlotOk(slot.(sendPosted := slot.sendPosted - 1, batch := [], sent := false,
                         stuck := if ok then slot.stuck else true), i, n')
  {
    var slot' := slot.(sendPosted := slot.sendPosted - 1, batch := [], sent := false,
                       stuck := if ok then slot.stuck else true);
    assert Waiting(slot') == Waiting(slot);
  }

  lemma TakeReleaseKept(slot: Slot, i: nat, n: Tally, n': Tally)
    requires SlotOk(slot, i, n) && slot.releasePosted > 0 && Moved(n, n', 0, 1, 0, 0, 0, 0, 0, 0, 0)
    ensures SlotOk(slot.(releasePosted := slot.releasePosted - 1), i, n')
  {
  }

  // ---------------------------------------------------------------- one task, whichever it is

  /** Tally `n` counts the pending `task` on slot `i`, and no more than the threads can hold. */
  ghost predicate Counting(n: Tally, i: nat, task: Task) {
    && On(task, i) && (forall h: Hold :: Of(h, i)(task) <= n(h))
    && n(Refs) <= FEW && n(Busy) + n(Refused) + n(Loaded) + n(Armed) <= n(Refs)
  }

  lemma CountingMeans(n: Tally, i: nat, task: Task)
    requires Counting(n, i, task)
    ensures n(Refs) >= RefsOf(task) && n(Rel) >= Weight(Rel, task) && n(Recv) >= Weight(Recv, task)
    ensures n(Busy) >= Weight(Busy, task) && n(Refused) >= Weight(Refused, task)
    ensures n(Loaded) >= Weight(Loaded, task) && n(Armed) >= Weight(Armed, task)
  {
    assert Of(Refs, i)(task) <= n(Refs) && Of(Rel, i)(task) <= n(Rel) && Of(Recv, i)(task) <= n(Recv);
    assert Of(Busy, i)(task) <= n(Busy) && Of(Refused, i)(task) <= n(Refused);
    assert Of(Loaded, i)(task) <= n(Loaded) && Of(Armed, i)(task) <= n(Armed);
  }

  lemma RequestStep(slot: Slot, i: nat, c: Choice, n: Tally, n': Tally)
    requires SlotOk(slot, i, n) && Counting(n, i, RelT(i, Request)) && slot.phase == Alive(true)
    requires Traded(n, n', i, RelT(i, Request), ExecRel(slot, i, Request, c).1)
    ensures SlotOk(ExecRel(slot, i, Request, c).0, i, n')
  {
    CountingMeans(n, i, RelT(i, Request));
    ControlWord(slot.control);
    RelTrade(n, n', i, Request, ExecRel(slot, i, Request, c).1);
    RequestKept(slot, i, c, n, n');
  }

  lemma OtherRelStep(slot: Slot, i: nat, l: RelOp, c: Choice, n: Tally, n': Tally)
    requires SlotOk(slot, i, n) && Counting(n, i, RelT(i, l)) && !l.Request?
    requires Traded(n, n', i, RelT(i, l), ExecRel(slot, i, l, c).1)
    ensures SlotOk(ExecRel(slot, i, l, c).0, i, n')
  {
    CountingMeans(n, i, RelT(i, l));
    RelTrade(n, n', i, l, ExecRel(slot, i, l, c).1);
    match l
    case Drop => DropKept(slot, i, c, n, n');
    case Post => PostKept(slot, i, c, n, n');
    case Cleanup => CleanupKept(slot, i, c, n, n');
  }

  lemma RelStep(slot: Slot, i: nat, l: RelOp, c: Choice, n: Tally, n': Tally)
    requires SlotOk(slot, i, n) && Counting(n, i, RelT(i, l)) && (l.Request? ==> slot.phase == Alive(true))
    requires Traded(n, n', i, RelT(i, l), ExecRel(slot, i, l, c).1)
    ensures SlotOk(ExecRel(slot, i, l, c).0, i, n')
  {
    if l.Request? { RequestStep(slot, i, c, n, n'); } else { OtherRelStep(slot, i, l, c, n, n'); }
  }

  lemma SendingNow(slot: Slot, i: nat, s: SendOp, n: Tally)
    requires SlotOk(slot, i, n) && Counting(n, i, SendT(i, s)) && slot.phase == Alive(true)
    ensures Sending(slot, i, s, n)
  {
    CountingMeans(n, i, SendT(i, s));
  }

  lemma SendStep(slot: Slot, i: nat, s: SendOp, c: Choice, n: Tally, n': Tally)
    requires SlotOk(slot, i, n) && Counting(n, i, SendT(i, s)) && slot.phase == Alive(true)
    requires Traded(n, n', i, SendT(i, s), ExecSend(slot, i, s, c).1)
    ensures SlotOk(ExecSend(slot, i, s, c).0, i, n')
  {
    SendingNow(slot, i, s, n);
    if s.Claim? && !c.retry && Releasing(slot.control) {
      SubRefsAside(n, n', i, SendT(i, s), slot.batch, [SendT(i, Unflag)]);
      SendTrade(n, n', i, s, SendT(i, Unflag));
      ClaimFailKept(slot, i, c, n, n');
    } else if s.Transmit? && !c.ok {
      SubRefsAside(n, n', i, SendT(i, s), slot.batch, [SendT(i, Refuse)]);
      SendTrade(n, n', i, s, SendT(i, Refuse));
      TransmitFailKept(slot, i, c, n, n');
    } else if s.Refuse? && !c.retry {
      RefuseSendStep(slot, i, c, n, n');
    } else {
      PlainSendStep(slot, i, s, c, n, n');
    }
  }

  lemma RefuseSendStep(slot: Slot, i: nat, c: Choice, n: Tally, n': Tally)
    requires Sending(slot, i, Refuse, n) && !c.retry
    requires Traded(n, n', i, SendT(i, Refuse), ExecSend(slot, i, Refuse, c).1)
    ensures SlotOk(ExecSend(slot, i, Refuse, c).0, i, n')
  {
    RefuseMore(slot, i, c, n);
    RefuseTrade(n, n', i);
    RefuseKept(slot, i, c, n, n');
  }

  lemma PlainSendStep(slot: Slot, i: nat, s: SendOp, c: Choice, n: Tally, n': Tally)
    requires Sending(slot, i, s, n)
    requires !(s.Claim? && !c.retry && Releasing(slot.control)) && !(s.Transmit? && !c.ok) && !(s.Refuse? && !c.retry)
    requires Traded(n, n', i, SendT(i, s), ExecSend(slot, i, s, c).1)
    ensures SlotOk(ExecSend(slot, i, s, c).0, i, n')
  {
    SendTrade(n, n', i, s, ExecSend(slot, i, s, c).1[0]);
    match s
    case Drain => DrainKept(slot, i, c, n, n');
    case Claim => ClaimKept(slot, i, c, n, n');
    case Transmit => TransmitKept(slot, i, c, n, n');
    case Refuse => SameKept(slot, i, n, n');
    case _ => FlagKept(slot, i, s, c, n, n');
  }

  lemma SameKept(slot: Slot, i: nat, n: Tally, n': Tally)
    requires SlotOk(slot, i, n) && Unchanged(n, n')
    ensures SlotOk(slot, i, n')
  {
  }

  lemma RecvStep(slot: Slot, i: nat, r: RecvOp, c: Choice, n: Tally, n': Tally)
    requires SlotOk(slot, i, n) && Counting(n, i, RecvT(i, r)) && slot.phase == Alive(true)
    requires Traded(n, n', i, RecvT(i, r), ExecRecv(slot, i, r, c).1)
    ensures SlotOk(ExecRecv(slot, i, r, c).0, i, n')
  {
    CountingMeans(n, i, RecvT(i, r));
    RecvTrade(slot, i, r, c, n, n');
    RecvKept(slot, i, r, c, n, n');
  }

  lemma RecvTrade(slot: Slot, i: nat, r: RecvOp, c: Choice, n: Tally, n': Tally)
    requires Traded(n, n', i, RecvT(i, r), ExecRecv(slot, i, r, c).1)
    ensures var stay := c.retry && r.Next?;
            var out := (r.Next? && Releasing(slot.control)) || (r.Issue? && !c.ok);
            Moved(n, n', if stay || out then 0 else if r.Next? then 1 else -1, 0, 0, 0, 0, 0,
                  if stay || (r.Next? && !out) then 0 else -1, 0, 0)
  {
    Trades(n, n', i, RecvT(i, r), ExecRecv(slot, i, r, c).1);
  }

  lemma UseTrade(n: Tally, n': Tally, i: nat, u: UseTask, more: seq<Task>)
    requires On(UseT(u), i) && Traded(n, n', i, UseT(u), more)
    requires more == [] || |more| == 1 || (|more| == 2 && more[0].SubRef?)
    requires more != [] ==>
               On(more[|more| - 1], i) && !more[|more| - 1].CleanT? && !more[|more| - 1].AcceptT?
    requires more != [] && more[|more| - 1].RelT? ==> more[|more| - 1].l.Drop? || more[|more| - 1].l.Request?
    requires more != [] && more[|more| - 1].SendT? ==> more[|more| - 1].s.Flag?
    requires more != [] ==> !more[|more| - 1].RecvT?
    ensures Moved(n, n', (if more == [] then 0 else RefsOf(more[|more| - 1])) - RefsOf(UseT(u)),
                  0, 0, 0, 0, 0, 0, 0, 0)
  {
    Trades(n, n', i, UseT(u), more);
  }

  lemma UseStep(sh: Shared, u: UseTask, i: nat, c: Choice, n: Tally, n': Tally)
    requires On(UseT(u), i) && i < |sh.slots| && SlotOk(sh.slots[i], i, n) && UseOk(sh, u) && n(Refs) <= FEW
    requires u.Acquire? ==> sh.slots[i].life >= 1
    requires Traded(n, n', i, UseT(u), ExecUse(sh, u, c).1)
    ensures SlotOk(ExecUse(sh, u, c).0.slots[i], i, n')
  {
    var slot := sh.slots[i];
    UseTrade(n, n', i, u, ExecUse(sh, u, c).1);
    if u.Acquire? && !c.retry && !Releasing(slot.control) {
      AcquireKept(slot, i, n, n');
    } else if u.Put? && |slot.ring| < SEND_RING {
      PutKept(slot, i, u.p, n);
      SameKept(slot.(ring := slot.ring + [u.p], put := slot.put + [u.p]), i, n, n');
    } else {
      assert ExecUse(sh, u, c).0.slots[i] == slot;
      SameKept(slot, i, n, n');
    }
  }

  lemma CleanTrade(n: Tally, n': Tally, i: nat, sid: nat, op: CleanOp, x: Task)
    requires Traded(n, n', i, CleanT(i, sid, op), [x]) && x.CleanT? && x.i == i
    ensures Unchanged(n, n')
  {
    Trades(n, n', i, CleanT(i, sid, op), [x]);
  }

  lemma PushTrade(n: Tally, n': Tally, i: nat, sid: nat, op: CleanOp)
    requires Traded(n, n', i, CleanT(i, sid, op), [])
    ensures Moved(n, n', 0, 0, 0, 0, 0, 0, 0, 0, -1)
  {
    forall h: Hold ensures n'(h) + Of(h, i)(CleanT(i, sid, op)) == n(h) { SumShort(Of(h, i), []); }
  }

  lemma CleanStep(sh: Shared, i: nat, sid: nat, op: CleanOp, n: Tally, n': Tally)
    requires i < |sh.slots| && SlotOk(sh.slots[i], i, n) && CleanOk(sh.slots[i], i, sid, op)
    requires n(Busy) + n(Refused) + n(Loaded) + n(Armed) <= n(Refs)
    requires Traded(n, n', i, CleanT(i, sid, op), ExecClean(sh, i, sid, op).1)
    ensures SlotOk(ExecClean(sh, i, sid, op).0.slots[i], i, n')
  {
    if op.Push? {
      PushTrade(n, n', i, sid, op);
    } else if op.DrainRing? {
      SubRefsAside(n, n', i, CleanT(i, sid, op), sh.slots[i].ring, [CleanT(i, sid, ClearRings)]);
      CleanTrade(n, n', i, sid, op, CleanT(i, sid, ClearRings));
    } else {
      CleanTrade(n, n', i, sid, op, ExecClean(sh, i, sid, op).1[0]);
    }
    CleanKept(sh, i, sid, op, n, n');
  }

  lemma CreateTrade(n: Tally, n': Tally, i: nat, a: AcceptOp, a': AcceptOp)
    requires CreateOp(a) && Traded(n, n', i, AcceptT(i, a), [AcceptT(i, a')]) && (CreateOp(a') || a'.Register?)
    ensures if CreateOp(a') then Unchanged(n, n') else Moved(n, n', 0, 0, 0, 0, 0, 0, 0, -1, 0)
  {
    Trades(n, n', i, AcceptT(i, a), [AcceptT(i, a')]);
  }

  lemma AcceptTrade(n: Tally, n': Tally, i: nat, a: AcceptOp, more: seq<Task>)
    requires !CreateOp(a) && Traded(n, n', i, AcceptT(i, a), more) && |more| <= 1
    requires more != [] ==> (more[0].AcceptT? && !CreateOp(more[0].a) && more[0].i == i) ||
                            more[0] == RelT(i, Request) || more[0] == RelT(i, Post)
    ensures Moved(n, n', (if more == [] then 0 else RefsOf(more[0])) - RefsOf(AcceptT(i, a)),
                  One(more == [RelT(i, Post)]), 0, 0, 0, 0,
                  One(more != [] && more[0].AcceptT? && !more[0].a.Abandon?) - One(!a.Abandon?), 0, 0)
  {
    Trades(n, n', i, AcceptT(i, a), more);
  }

  lemma CreateMore(sh: Shared, i: nat, a: AcceptOp)
    requires i < |sh.slots| && CreateOp(a)
    ensures |ExecCreate(sh, i, a).1| == 1
    ensures var x := ExecCreate(sh, i, a).1[0];
            x.AcceptT? && x.i == i && if a.CountUp? then x.a == Register else CreateOp(x.a)
  {
  }

  lemma CreateStep(sh: Shared, i: nat, a: AcceptOp, n: Tally, n': Tally)
    requires i < |sh.slots| && SlotOk(sh.slots[i], i, n) && sh.slots[i].phase == Creating(a) && CreateOp(a)
    requires a.TakeId? ==> i < 0x1_0000 && sh.next < UNIQUE_RANGE && (i > 0 || sh.next > 0)
    requires Traded(n, n', i, AcceptT(i, a), ExecCreate(sh, i, a).1)
    ensures SlotOk(ExecCreate(sh, i, a).0.slots[i], i, n')
  {
    var x := ExecCreate(sh, i, a).1[0];
    CreateMore(sh, i, a);
    assert ExecCreate(sh, i, a).1 == [x];
    CreateTrade(n, n', i, a, x.a);
    CreateKept(sh, i, a, n, n');
  }

  lemma FirstStepKept(sh: Shared, i: nat, c: Choice, n: Tally, n': Tally, more: seq<Task>)
    requires i < |sh.slots| && SlotOk(sh.slots[i], i, n) && AcceptOk(sh.slots[i], First)
    requires n(Recv) >= 1 && n(Refs) <= FEW && more == ExecAccept(sh, i, First, c).1
    requires Moved(n, n', One(more == [AcceptT(i, FirstIssue)]), 0, 0, 0, 0, 0, if more == [] then -1 else 0, 0, 0)
    ensures SlotOk(ExecAccept(sh, i, First, c).0.slots[i], i, n')
  {
    var slot := sh.slots[i];
    ControlWord(slot.control);
    if c.retry { SameKept(slot, i, n, n'); }
    else if Releasing(slot.control) { LessRecvKept(slot, i, n, n'); }
    else { FirstKept(slot, i, n, n'); }
  }

  lemma OpenKept(sh: Shared, i: nat, a: AcceptOp, c: Choice, n: Tally, n': Tally, more: seq<Task>)
    requires i < |sh.slots| && SlotOk(sh.slots[i], i, n) && AcceptOk(sh.slots[i], a) && !CreateOp(a)
    requires n(Refs) >= RefsOf(AcceptT(i, a)) && n(Recv) >= One(!a.Abandon?) && n(Refs) <= FEW
    requires more == ExecAccept(sh, i, a, c).1
    requires Moved(n, n', (if more == [] then 0 else RefsOf(more[0])) - RefsOf(AcceptT(i, a)),
                   One(more == [RelT(i, Post)]), 0, 0, 0, 0,
                   One(more != [] && more[0].AcceptT? && !more[0].a.Abandon?) - One(!a.Abandon?), 0, 0)
    ensures SlotOk(ExecAccept(sh, i, a, c).0.slots[i], i, n')
  {
    var slot := sh.slots[i];
    match a
    case Register => if c.ok { SameKept(slot, i, n, n'); } else { LessRecvKept(slot, i, n, n'); }
    case Join => JoinKept(slot, i, n, n');
    case First => FirstStepKept(sh, i, c, n, n', more);
    case FirstIssue => if c.ok { FirstIssueKept(slot, i, n, n'); } else { LessRecvKept(slot, i, n, n'); }
    case Abandon => if c.retry { SameKept(slot, i, n, n'); } else { AbandonKept(slot, i, n, n'); }
    case _ => assert false;
  }

  lemma OpenStep(sh: Shared, i: nat, a: AcceptOp, c: Choice, n: Tally, n': Tally)
    requires i < |sh.slots| && SlotOk(sh.slots[i], i, n) && AcceptOk(sh.slots[i], a) && !CreateOp(a)
    requires Counting(n, i, AcceptT(i, a))
    requires Traded(n, n', i, AcceptT(i, a), ExecAccept(sh, i, a, c).1)
    ensures SlotOk(ExecAccept(sh, i, a, c).0.slots[i], i, n')
  {
    CountingMeans(n, i, AcceptT(i, a));
    AcceptTrade(n, n', i, a, ExecAccept(sh, i, a, c).1);
    OpenKept(sh, i, a, c, n, n', ExecAccept(sh, i, a, c).1);
  }
}
