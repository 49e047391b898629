/** What postSend, a receive completion and an accept have done when they end: packets do reach the socket, a
  * session goes on receiving, and a new session does reach the application.
  */
module SessionService {

  import opened Common
  import opened Session
  import opened SessionInvariant
  import opened SessionSlots
  import opened SessionRuns
  import opened SessionTheorems
  import opened SessionCalls

  // ---------------------------------------------------------------- moments of a call

  predicate Released(sh: Shared, i: nat) { i < |sh.slots| && Releasing(sh.slots[i].control) }

  /** At some moment from state `a` up to state `b`, release of the session in slot `i` had been requested. */
  ghost predicate WasReleased(tr: seq<State>, i: nat, a: nat, b: nat) {
    exists k: nat :: a <= k <= b < |tr| && Released(tr[k].sh, i)
  }

  predicate About(s: State, t: Tid, task: Task) { t < |s.threads| && s.threads[t] != [] && s.threads[t][0] == task }

  /** Thread `t` was about to take the send flag and found it taken. */
  ghost predicate FoundBusy(tr: seq<State>, t: Tid, i: nat, a: nat, b: nat) {
    exists k: nat :: && a <= k < b <= |tr| && About(tr[k], t, SendT(i, Flag))
                     && i < |tr[k].sh.slots| && tr[k].sh.slots[i].sendFlag != 0
  }

  /** Thread `t` had the send flag, was about to empty the ring, and found it empty. */
  ghost predicate FoundEmpty(tr: seq<State>, t: Tid, i: nat, a: nat, b: nat) {
    exists k: nat :: && a <= k < b <= |tr| && About(tr[k], t, SendT(i, Drain))
                     && i < |tr[k].sh.slots| && tr[k].sh.slots[i].ring == []
  }

  /** The first packets of a ring, at most 32. */
  function Batch(ring: seq<Pkt>): seq<Pkt> { if |ring| < 32 then ring else ring[..32] }

  /** At state `k` thread `t` was about to empty the ring, and `batch` is what it had to take. */
  predicate TookAt(tr: seq<State>, t: Tid, i: nat, a: nat, b: nat, k: nat, batch: seq<Pkt>) {
    && a <= k < b <= |tr| && About(tr[k], t, SendT(i, Drain))
    && i < |tr[k].sh.slots| && tr[k].sh.slots[i].ring != [] && batch == Batch(tr[k].sh.slots[i].ring)
  }

  ghost predicate Took(tr: seq<State>, t: Tid, i: nat, a: nat, b: nat, batch: seq<Pkt>) {
    exists k: nat :: TookAt(tr, t, i, a, b, k, batch)
  }

  /** The socket accepts `batch` with event `m` of thread `t`. */
  predicate AcceptsAt(tr: seq<State>, events: seq<Event>, t: Tid, i: nat, a: nat, b: nat, m: nat, batch: seq<Pkt>) {
    && a <= m < b <= |events| == |tr| - 1 && events[m].t == t
    && i < |tr[m].sh.slots| && i < |tr[m + 1].sh.slots|
    && tr[m + 1].sh.slots[i].accepted == tr[m].sh.slots[i].accepted + batch
    && tr[m + 1].sh.slots[i].sendPosted == tr[m].sh.slots[i].sendPosted + 1
  }

  ghost predicate HandedOver(tr: seq<State>, events: seq<Event>, t: Tid, i: nat, a: nat, b: nat) {
    exists m: nat, batch :: Took(tr, t, i, a, b, batch) && AcceptsAt(tr, events, t, i, a, b, m, batch)
  }

  /** What a call of postSend has come to. */
  ghost predicate Sent(tr: seq<State>, events: seq<Event>, t: Tid, i: nat, a: nat, b: nat) {
    || FoundBusy(tr, t, i, a, b) || FoundEmpty(tr, t, i, a, b) || WasReleased(tr, i, a, b)
    || HandedOver(tr, events, t, i, a, b)
  }

  lemma SentMore(tr: seq<State>, events: seq<Event>, t: Tid, i: nat, a: nat, b: nat)
    requires Sent(tr, events, t, i, a, b) && b < |events| == |tr| - 1
    ensures Sent(tr, events, t, i, a, b + 1)
  {
    if HandedOver(tr, events, t, i, a, b) { HandedMore(tr, events, t, i, a, b); }
  }

  lemma TookMore(tr: seq<State>, t: Tid, i: nat, a: nat, b: nat, batch: seq<Pkt>)
    requires Took(tr, t, i, a, b, batch) && b < |tr|
    ensures Took(tr, t, i, a, b + 1, batch)
  {
    var k: nat :| TookAt(tr, t, i, a, b, k, batch);
    assert TookAt(tr, t, i, a, b + 1, k, batch);
  }

  lemma HandedMore(tr: seq<State>, events: seq<Event>, t: Tid, i: nat, a: nat, b: nat)
    requires HandedOver(tr, events, t, i, a, b) && b < |events| == |tr| - 1
    ensures HandedOver(tr, events, t, i, a, b + 1)
  {
    var m: nat, batch :| Took(tr, t, i, a, b, batch) && AcceptsAt(tr, events, t, i, a, b, m, batch);
    TookMore(tr, t, i, a, b, batch);
    assert AcceptsAt(tr, events, t, i, a, b + 1, m, batch);
  }

  // ---------------------------------------------------------------- a batch belongs to the thread that took it

  predicate Carries(task: Task, i: nat) { task == SendT(i, Claim) || task == SendT(i, Transmit) }

  lemma CarrierCounts(s: State, t: Tid, i: nat)
    requires Inv(s) && t < |s.threads| && s.threads[t] != [] && Carries(s.threads[t][0], i)
    ensures Live(s.sh, i) && s.sh.slots[i].sendPosted == 0
    ensures Total(s.threads, i)(Busy) == 0 && Total(s.threads, i)(Loaded) + Total(s.threads, i)(Armed) == 1
  {
    assert ThreadOk(s.sh, t, s.threads[t]) && TaskOk(s.sh, s.threads[t][0]);
    TaskCounted(s, t, 0, i, Loaded);
    TaskCounted(s, t, 0, i, Armed);
    CarrierWeighs(s.threads[t][0], i);
    assert SlotOk(s.sh.slots[i], i, Total(s.threads, i));
    OneSender(s.sh.slots[i], i, Total(s.threads, i));
  }

  lemma CarrierWeighs(task: Task, i: nat)
    requires Carries(task, i)
    ensures Of(Loaded, i)(task) + Of(Armed, i)(task) == 1
  {
  }

  lemma OneSender(slot: Slot, i: nat, n: Tally)
    requires SlotOk(slot, i, n) && n(Loaded) + n(Armed) >= 1
    ensures slot.sendPosted == 0 && n(Busy) == 0 && n(Loaded) + n(Armed) == 1
  {
  }

  lemma OthersDoNotCarry(s: State, t: Tid, u: Tid, i: nat)
    requires Inv(s) && t < |s.threads| && s.threads[t] != [] && Carries(s.threads[t][0], i)
    requires u < |s.threads| && u != t && s.threads[u] != []
    ensures !Carries(s.threads[u][0], i) && s.threads[u][0] != SendT(i, Drain)
  {
    CarrierCounts(s, t, i);
    CarrierWeighs(s.threads[t][0], i);
    BesideHead(s, t, u, 0, i, Loaded);
    BesideHead(s, t, u, 0, i, Armed);
    TaskCounted(s, u, 0, i, Busy);
    DrainWeighs(i);
    if Carries(s.threads[u][0], i) { CarrierWeighs(s.threads[u][0], i); }
  }

  lemma DrainWeighs(i: nat)
    ensures Of(Busy, i)(SendT(i, Drain)) == 1
  {
  }

  lemma ExecKeepsBatch(sh: Shared, task: Task, c: Choice, i: nat)
    requires i < |sh.slots| && sh.slots[i].phase == Alive(true) && TaskOk(sh, task)
    requires !Carries(task, i) && task != SendT(i, Drain)
    ensures i < |Exec(sh, task, c).0.slots| && Exec(sh, task, c).0.slots[i].batch == sh.slots[i].batch
  {
    if !On(task, i) {
      SlotsOffTarget(sh, task, c, i);
    } else if task.AcceptT? {
      AcceptKeepsBatch(sh, i, task.a, c);
    } else if task.UseT? {
      UseKeepsBatch(sh, task.u, c, i);
    } else if task.SendT? {
      SendKeepsBatch(sh.slots[i], i, task.s, c);
    }
  }

  lemma AcceptKeepsBatch(sh: Shared, i: nat, a: AcceptOp, c: Choice)
    requires i < |sh.slots| && sh.slots[i].phase == Alive(true) && AcceptOk(sh.slots[i], a)
    ensures i < |ExecAccept(sh, i, a, c).0.slots| && ExecAccept(sh, i, a, c).0.slots[i].batch == sh.slots[i].batch
  {
  }

  lemma UseKeepsBatch(sh: Shared, u: UseTask, c: Choice, i: nat)
    requires i < |sh.slots|
    ensures i < |ExecUse(sh, u, c).0.slots| && ExecUse(sh, u, c).0.slots[i].batch == sh.slots[i].batch
  {
  }

  lemma SendKeepsBatch(slot: Slot, i: nat, s: SendOp, c: Choice)
    requires !s.Drain? && !s.Claim? && !s.Transmit?
    ensures ExecSend(slot, i, s, c).0.batch == slot.batch
  {
  }

  lemma BeginKeepsBatch(sh: Shared, t: Tid, c: Choice, i: nat)
    requires i < |sh.slots| && sh.slots[i].sendPosted == 0
    ensures i < |Begin(sh, t, c).0.slots| && Begin(sh, t, c).0.slots[i].batch == sh.slots[i].batch
  {
    BeginSize(sh, t, c);
    if Takes(sh, t, c, i) { TakeKeepsBatch(sh, t, c, i); } else { BeginElsewhere(sh, t, c, i); }
  }

  lemma TakeKeepsBatch(sh: Shared, t: Tid, c: Choice, i: nat)
    requires i < |sh.slots| == |Begin(sh, t, c).0.slots| && sh.slots[i].sendPosted == 0 && Takes(sh, t, c, i)
    ensures Begin(sh, t, c).0.slots[i].batch == sh.slots[i].batch
  {
    match c.op
    case TakeRecv(_) => TakenKeepsBatch(sh.slots[i], i, c.ok);
    case TakeSend(_) => TakenKeepsBatch(sh.slots[i], i, c.ok);
    case TakeRelease(_) => TakenKeepsBatch(sh.slots[i], i, c.ok);
    case _ =>
  }

  lemma TakenKeepsBatch(slot: Slot, i: nat, ok: bool)
    requires slot.sendPosted == 0
    ensures TakeRecvFrom(slot, i, ok).0.batch == slot.batch && TakeSendFrom(slot, i, ok).0.batch == slot.batch
    ensures TakeReleaseFrom(slot, i).0.batch == slot.batch
  {
  }

  /** While a thread is about to hand a batch to the socket, no other thread changes that batch. */
  lemma BatchStays(s: State, e: Event, t: Tid, i: nat)
    requires Inv(s) && t < |s.threads| && s.threads[t] != [] && Carries(s.threads[t][0], i) && e.t != t
    ensures i < |s.sh.slots| == |Step(s, e).sh.slots| && Step(s, e).sh.slots[i].batch == s.sh.slots[i].batch
  {
    CarrierCounts(s, t, i);
    StepNext(s, e);
    if e.t < |s.threads| {
      if s.threads[e.t] == [] {
        BeginKeepsBatch(s.sh, e.t, e.c, i);
      } else {
        OthersDoNotCarry(s, t, e.t, i);
        assert ThreadOk(s.sh, e.t, s.threads[e.t]) && TaskOk(s.sh, s.threads[e.t][0]);
        ExecKeepsBatch(s.sh, s.threads[e.t][0], e.c, i);
      }
    }
  }

  // ---------------------------------------------------------------- the course of postSend

  predicate Subs(todo: seq<Task>) { forall k: nat :: k < |todo| ==> todo[k].SubRef? }

  predicate AllTail(todo: seq<Task>) { forall k: nat :: k < |todo| ==> Tail(todo[k]) }

  /** Thread `t` has the tasks `cur` to do before `rest`. */
  predicate Doing(s: State, t: Tid, cur: seq<Task>, rest: seq<Task>) { t < |s.threads| && s.threads[t] == cur + rest }

  ghost predicate Returning(s: State, t: Tid, last: Task, rest: seq<Task>) {
    exists subs :: Subs(subs) && Doing(s, t, subs + [last], rest)
  }

  ghost predicate Winding(s: State, t: Tid, rest: seq<Task>) {
    exists cur :: AllTail(cur) && Doing(s, t, cur, rest)
  }

  ghost predicate Carrying(tr: seq<State>, t: Tid, i: nat, rest: seq<Task>, a: nat, j: nat) {
    && j < |tr| && (Doing(tr[j], t, [SendT(i, Claim)], rest) || Doing(tr[j], t, [SendT(i, Transmit)], rest))
    && i < |tr[j].sh.slots| && Took(tr, t, i, a, j, tr[j].sh.slots[i].batch)
  }

  ghost predicate Serving(tr: seq<State>, events: seq<Event>, t: Tid, i: nat, rest: seq<Task>, a: nat, j: nat) {
    j < |tr| &&
    (|| Returning(tr[j], t, SendT(i, Finish), rest)
     || Doing(tr[j], t, [SendT(i, Flag)], rest)
     || Doing(tr[j], t, [SendT(i, Drain)], rest)
     || Carrying(tr, t, i, rest, a, j)
     || Returning(tr[j], t, SendT(i, Refuse), rest)
     || (Winding(tr[j], t, rest) && Sent(tr, events, t, i, a, j)))
  }

  lemma DoingStep(s: State, e: Event, cur: seq<Task>, rest: seq<Task>)
    requires Doing(s, e.t, cur, rest) && cur != []
    ensures Step(s, e).sh == Exec(s.sh, cur[0], e.c).0
    ensures Doing(Step(s, e), e.t, Exec(s.sh, cur[0], e.c).1 + cur[1..], rest)
  {
    assert cur + rest == [cur[0]] + (cur[1..] + rest);
    OwnStep(s, e, cur[0], cur[1..] + rest);
    assert Exec(s.sh, cur[0], e.c).1 + (cur[1..] + rest) == Exec(s.sh, cur[0], e.c).1 + cur[1..] + rest;
  }

  lemma OneStep(s: State, e: Event, task: Task, rest: seq<Task>)
    requires Doing(s, e.t, [task], rest)
    ensures Step(s, e).sh == Exec(s.sh, task, e.c).0 && Doing(Step(s, e), e.t, Exec(s.sh, task, e.c).1, rest)
  {
    DoingStep(s, e, [task], rest);
    assert Exec(s.sh, task, e.c).1 + [task][1..] == Exec(s.sh, task, e.c).1;
  }

  lemma ReturningStep(s: State, e: Event, last: Task, rest: seq<Task>)
    requires Returning(s, e.t, last, rest)
    ensures || Returning(Step(s, e), e.t, last, rest)
            || (Doing(s, e.t, [last], rest) && Step(s, e).sh == Exec(s.sh, last, e.c).0
                && Doing(Step(s, e), e.t, Exec(s.sh, last, e.c).1, rest))
  {
    var subs :| Subs(subs) && Doing(s, e.t, subs + [last], rest);
    if subs == [] {
      assert subs + [last] == [last];
      OneStep(s, e, last, rest);
    } else {
      DoingStep(s, e, subs + [last], rest);
      assert Exec(s.sh, subs[0], e.c).1 + (subs + [last])[1..] == subs[1..] + [last];
      assert Subs(subs[1..]);
    }
  }

  lemma WindingStep(s: State, e: Event, rest: seq<Task>)
    requires Winding(s, e.t, rest) && Inside(s, e.t, rest)
    ensures Winding(Step(s, e), e.t, rest)
  {
    var cur :| AllTail(cur) && Doing(s, e.t, cur, rest);
    DoingStep(s, e, cur, rest);
    TailAppend(s.sh, cur, e.c);
    assert AllTail(Exec(s.sh, cur[0], e.c).1 + cur[1..]);
  }

  lemma LiveSender(s: State, t: Tid, i: nat, o: SendOp, rest: seq<Task>)
    requires Inv(s) && Doing(s, t, [SendT(i, o)], rest)
    ensures i < |s.sh.slots| && About(s, t, SendT(i, o))
  {
    assert s.threads[t][0] == SendT(i, o);
    assert ThreadOk(s.sh, t, s.threads[t]) && TaskOk(s.sh, s.threads[t][0]);
  }

  lemma SenderIsThere(tr: seq<State>, events: seq<Event>, t: Tid, i: nat, o: SendOp, rest: seq<Task>, j: nat)
    requires Trace(tr, events) && j < |events| && Doing(tr[j], t, [SendT(i, o)], rest)
    ensures i < |tr[j].sh.slots| && About(tr[j], t, SendT(i, o))
  {
    TraceInv(tr, events, j);
    LiveSender(tr[j], t, i, o, rest);
  }

  lemma FlagCourse(tr: seq<State>, events: seq<Event>, t: Tid, i: nat, rest: seq<Task>, a: nat, j: nat)
    requires Trace(tr, events) && a <= j < |events| && events[j].t == t && Doing(tr[j], t, [SendT(i, Flag)], rest)
    ensures Serving(tr, events, t, i, rest, a, j + 1)
  {
    var s, e := tr[j], events[j];
    assert StepAt(tr, events, j);
    SenderIsThere(tr, events, t, i, Flag, rest, j);
    OneStep(s, e, SendT(i, Flag), rest);
    if s.sh.slots[i].sendFlag != 0 {
      assert FoundBusy(tr, t, i, a, j + 1);
      assert AllTail([RelT(i, Drop)]);
    }
  }

  lemma DrainCourse(tr: seq<State>, events: seq<Event>, t: Tid, i: nat, rest: seq<Task>, a: nat, j: nat)
    requires Trace(tr, events) && a <= j < |events| && events[j].t == t && Doing(tr[j], t, [SendT(i, Drain)], rest)
    ensures Serving(tr, events, t, i, rest, a, j + 1)
  {
    var s, e := tr[j], events[j];
    assert StepAt(tr, events, j);
    SenderIsThere(tr, events, t, i, Drain, rest, j);
    OneStep(s, e, SendT(i, Drain), rest);
    if s.sh.slots[i].ring == [] {
      assert FoundEmpty(tr, t, i, a, j + 1);
      assert AllTail([SendT(i, Unflag)]);
    } else {
      assert tr[j + 1].sh.slots[i].batch == Batch(s.sh.slots[i].ring);
      assert TookAt(tr, t, i, a, j + 1, j, tr[j + 1].sh.slots[i].batch);
      assert Took(tr, t, i, a, j + 1, tr[j + 1].sh.slots[i].batch);
    }
  }

  lemma SubsTail(ps: seq<Pkt>, task: Task)
    requires Tail(task)
    ensures Subs(SubRefs(ps)) && AllTail(SubRefs(ps) + [task])
  {
  }

  lemma ClaimCourse(tr: seq<State>, events: seq<Event>, t: Tid, i: nat, rest: seq<Task>, a: nat, j: nat)
    requires Trace(tr, events) && a <= j < |events| && events[j].t == t && i < |tr[j].sh.slots|
    requires Doing(tr[j], t, [SendT(i, Claim)], rest) && Took(tr, t, i, a, j, tr[j].sh.slots[i].batch)
    ensures Serving(tr, events, t, i, rest, a, j + 1)
  {
    var s, e := tr[j], events[j];
    assert StepAt(tr, events, j);
    OneStep(s, e, SendT(i, Claim), rest);
    TookMore(tr, t, i, a, j, s.sh.slots[i].batch);
    if !e.c.retry && Releasing(s.sh.slots[i].control) {
      assert Released(tr[j].sh, i);
      assert WasReleased(tr, i, a, j + 1);
      SubsTail(s.sh.slots[i].batch, SendT(i, Unflag));
    } else {
      assert tr[j + 1].sh.slots[i].batch == s.sh.slots[i].batch;
    }
  }

  lemma TransmitCourse(tr: seq<State>, events: seq<Event>, t: Tid, i: nat, rest: seq<Task>, a: nat, j: nat)
    requires Trace(tr, events) && a <= j < |events| && events[j].t == t && i < |tr[j].sh.slots|
    requires Doing(tr[j], t, [SendT(i, Transmit)], rest) && Took(tr, t, i, a, j, tr[j].sh.slots[i].batch)
    ensures Serving(tr, events, t, i, rest, a, j + 1)
  {
    var s, e := tr[j], events[j];
    var batch := s.sh.slots[i].batch;
    assert StepAt(tr, events, j);
    OneStep(s, e, SendT(i, Transmit), rest);
    if e.c.ok {
      TookMore(tr, t, i, a, j, batch);
      assert AcceptsAt(tr, events, t, i, a, j + 1, j, batch);
      assert HandedOver(tr, events, t, i, a, j + 1);
      assert AllTail([RelT(i, Drop)]);
    } else {
      SubsTail(batch, SendT(i, Unflag));
      assert Doing(tr[j + 1], t, SubRefs(batch) + [SendT(i, Refuse)], rest);
    }
  }

  lemma RefuseExec(sh: Shared, i: nat, c: Choice)
    requires i < |sh.slots| && !c.retry
    ensures var r := Exec(sh, SendT(i, Refuse), c); Released(r.0, i) && AllTail(r.1)
  {
    ReleaseSticks(sh.slots[i].control);
  }

  lemma RetryReturns(s: State, t: Tid, last: Task, rest: seq<Task>)
    requires Doing(s, t, [last], rest)
    ensures Returning(s, t, last, rest)
  {
    assert [] + [last] == [last];
    assert Subs([]);
  }

  lemma RefuseRetries(s: State, e: Event, i: nat, rest: seq<Task>)
    requires Returning(s, e.t, SendT(i, Refuse), rest) && e.c.retry && i < |s.sh.slots|
    ensures Returning(Step(s, e), e.t, SendT(i, Refuse), rest)
  {
    ReturningStep(s, e, SendT(i, Refuse), rest);
    if Doing(Step(s, e), e.t, [SendT(i, Refuse)], rest) { RetryReturns(Step(s, e), e.t, SendT(i, Refuse), rest); }
  }

  lemma ReturnerIsLive(s: State, t: Tid, i: nat, o: SendOp, rest: seq<Task>)
    requires Inv(s) && Returning(s, t, SendT(i, o), rest)
    ensures i < |s.sh.slots|
  {
    var subs :| Subs(subs) && Doing(s, t, subs + [SendT(i, o)], rest);
    assert s.threads[t][|subs|] == SendT(i, o);
    assert ThreadOk(s.sh, t, s.threads[t]) && TaskOk(s.sh, s.threads[t][|subs|]);
  }

  lemma ReturnerIsThere(tr: seq<State>, events: seq<Event>, t: Tid, i: nat, o: SendOp, rest: seq<Task>, j: nat)
    requires Trace(tr, events) && j < |events| && Returning(tr[j], t, SendT(i, o), rest)
    ensures i < |tr[j].sh.slots|
  {
    TraceInv(tr, events, j);
    ReturnerIsLive(tr[j], t, i, o, rest);
  }

  lemma RefuseServes(tr: seq<State>, events: seq<Event>, t: Tid, i: nat, rest: seq<Task>, a: nat, j: nat)
    requires Trace(tr, events) && a <= j < |events| && events[j].t == t && Returning(tr[j], t, SendT(i, Refuse), rest)
    ensures Serving(tr, events, t, i, rest, a, j + 1)
  {
    var s, e := tr[j], events[j];
    assert StepAt(tr, events, j);
    ReturnerIsThere(tr, events, t, i, Refuse, rest, j);
    if e.c.retry {
      RefuseRetries(s, e, i, rest);
    } else {
      ReturningStep(s, e, SendT(i, Refuse), rest);
      RefuseExec(s.sh, i, e.c);
      if Released(tr[j + 1].sh, i) { assert WasReleased(tr, i, a, j + 1); }
    }
  }

  lemma FinishServes(tr: seq<State>, events: seq<Event>, t: Tid, i: nat, rest: seq<Task>, a: nat, j: nat)
    requires Trace(tr, events) && a <= j < |events| && events[j].t == t && Returning(tr[j], t, SendT(i, Finish), rest)
    ensures Serving(tr, events, t, i, rest, a, j + 1)
  {
    var s, e := tr[j], events[j];
    assert StepAt(tr, events, j);
    ReturnerIsThere(tr, events, t, i, Finish, rest, j);
    ReturningStep(s, e, SendT(i, Finish), rest);
  }

  lemma OwnServes(tr: seq<State>, events: seq<Event>, t: Tid, i: nat, rest: seq<Task>, a: nat, j: nat)
    requires Trace(tr, events) && a <= j < |events| && events[j].t == t && Inside(tr[j], t, rest)
    requires Serving(tr, events, t, i, rest, a, j)
    ensures Serving(tr, events, t, i, rest, a, j + 1)
  {
    if Returning(tr[j], t, SendT(i, Finish), rest) { FinishServes(tr, events, t, i, rest, a, j); }
    else if Doing(tr[j], t, [SendT(i, Flag)], rest) { FlagCourse(tr, events, t, i, rest, a, j); }
    else if Doing(tr[j], t, [SendT(i, Drain)], rest) { DrainCourse(tr, events, t, i, rest, a, j); }
    else if Returning(tr[j], t, SendT(i, Refuse), rest) { RefuseServes(tr, events, t, i, rest, a, j); }
    else if Carrying(tr, t, i, rest, a, j) {
      if Doing(tr[j], t, [SendT(i, Claim)], rest) { ClaimCourse(tr, events, t, i, rest, a, j); }
      else { TransmitCourse(tr, events, t, i, rest, a, j); }
    } else {
      assert StepAt(tr, events, j);
      WindingStep(tr[j], events[j], rest);
      SentMore(tr, events, t, i, a, j);
    }
  }

  lemma OthersDoing(s: State, e: Event, t: Tid, rest: seq<Task>)
    requires e.t != t && t < |s.threads|
    ensures forall cur :: Doing(s, t, cur, rest) ==> Doing(Step(s, e), t, cur, rest)
  {
    OthersStep(s, e, t);
  }

  lemma BatchStaysAt(tr: seq<State>, events: seq<Event>, t: Tid, i: nat, rest: seq<Task>, a: nat, j: nat)
    requires Trace(tr, events) && j < |events| && events[j].t != t && Carrying(tr, t, i, rest, a, j)
    ensures i < |tr[j + 1].sh.slots| && tr[j + 1].sh.slots[i].batch == tr[j].sh.slots[i].batch
  {
    assert StepAt(tr, events, j);
    TraceInv(tr, events, j);
    assert Carries(tr[j].threads[t][0], i);
    BatchStays(tr[j], events[j], t, i);
  }

  lemma OthersServe(tr: seq<State>, events: seq<Event>, t: Tid, i: nat, rest: seq<Task>, a: nat, j: nat)
    requires Trace(tr, events) && j < |events| && events[j].t != t && Inside(tr[j], t, rest)
    requires Serving(tr, events, t, i, rest, a, j)
    ensures Serving(tr, events, t, i, rest, a, j + 1)
  {
    assert StepAt(tr, events, j);
    OthersDoing(tr[j], events[j], t, rest);
    if Carrying(tr, t, i, rest, a, j) {
      BatchStaysAt(tr, events, t, i, rest, a, j);
      TookMore(tr, t, i, a, j, tr[j].sh.slots[i].batch);
    }
    if Sent(tr, events, t, i, a, j) { SentMore(tr, events, t, i, a, j); }
  }

  /** From state `a` to state `z` thread `t` is busy, and comes back to the tasks `rest` at `z`. */
  ghost predicate Busies(tr: seq<State>, t: Tid, rest: seq<Task>, a: nat, z: nat) {
    && a <= z < |tr| && (forall j: nat :: a <= j < z ==> Inside(tr[j], t, rest))
    && t < |tr[z].threads| && tr[z].threads[t] == rest
  }

  lemma {:induction false} ServeCourse(tr: seq<State>, events: seq<Event>, t: Tid, i: nat, rest: seq<Task>,
                                       a: nat, z: nat, j: nat)
    requires Trace(tr, events) && Busies(tr, t, rest, a, z) && a <= j <= z && Serving(tr, events, t, i, rest, a, a)
    ensures Serving(tr, events, t, i, rest, a, j)
    decreases j
  {
    if j > a {
      ServeCourse(tr, events, t, i, rest, a, z, j - 1);
      if events[j - 1].t == t {
        OwnServes(tr, events, t, i, rest, a, j - 1);
      } else {
        OthersServe(tr, events, t, i, rest, a, j - 1);
      }
    }
  }

  lemma AtRest(s: State, t: Tid, last: Task, rest: seq<Task>)
    requires t < |s.threads| && s.threads[t] == rest
    ensures !Returning(s, t, last, rest) && !Doing(s, t, [last], rest)
  {
  }

  lemma ServedAtEnd(tr: seq<State>, events: seq<Event>, t: Tid, i: nat, rest: seq<Task>, a: nat, z: nat)
    requires Trace(tr, events) && Busies(tr, t, rest, a, z) && Serving(tr, events, t, i, rest, a, a)
    ensures Sent(tr, events, t, i, a, z)
  {
    ServeCourse(tr, events, t, i, rest, a, z, z);
    AtRest(tr[z], t, SendT(i, Finish), rest);
    AtRest(tr[z], t, SendT(i, Flag), rest);
    AtRest(tr[z], t, SendT(i, Drain), rest);
    AtRest(tr[z], t, SendT(i, Claim), rest);
    AtRest(tr[z], t, SendT(i, Transmit), rest);
    AtRest(tr[z], t, SendT(i, Refuse), rest);
  }

  /** A call of postSend hands the socket exactly the packets at the front of the ring, at most 32 of them, as they
    * stood when it emptied the ring; unless another thread had the send flag, the ring was empty, or release of
    * the session was requested, which the call itself does when the socket refuses.
    */
  lemma PostSendTakesEffect(tr: seq<State>, events: seq<Event>, t: Tid, i: nat, rest: seq<Task>, a: nat, z: nat)
    requires Trace(tr, events) && Busies(tr, t, rest, a, z) && Doing(tr[a], t, [SendT(i, Flag)], rest)
    ensures || FoundBusy(tr, t, i, a, z) || FoundEmpty(tr, t, i, a, z) || WasReleased(tr, i, a, z)
            || HandedOver(tr, events, t, i, a, z)
  {
    ServedAtEnd(tr, events, t, i, rest, a, z);
  }

  /** A worker that takes a successful send completion gives the batch back and looks after the ring again. */
  lemma CompletionServesRing(tr: seq<State>, events: seq<Event>, t: Tid, i: nat, a: nat, z: nat)
    requires Trace(tr, events) && a < |events| && events[a].t == t && 0 < t < |tr[a].threads| && tr[a].threads[t] == []
    requires events[a].c.op == TakeSend(i) && events[a].c.ok && i < |tr[a].sh.slots| && tr[a].sh.slots[i].sendPosted > 0
    requires Busies(tr, t, [], a + 1, z)
    ensures || FoundBusy(tr, t, i, a + 1, z) || FoundEmpty(tr, t, i, a + 1, z) || WasReleased(tr, i, a + 1, z)
            || HandedOver(tr, events, t, i, a + 1, z)
  {
    var batch := tr[a].sh.slots[i].batch;
    assert StepAt(tr, events, a);
    SubsTail(batch, SendT(i, Unflag));
    assert Doing(tr[a + 1], t, SubRefs(batch) + [SendT(i, Finish)], []);
    ServedAtEnd(tr, events, t, i, [], a + 1, z);
  }

  ghost predicate PutAndServed(tr: seq<State>, events: seq<Event>, t: Tid, sid: nat, p: Pkt, rest: seq<Task>,
                               a: nat, z: nat) {
    exists k: nat :: PutOnce(tr, events, t, sid, p, rest, a, z, k) &&
                     Sent(tr, events, t, sid / UNIQUE_RANGE, k + 1, z)
  }

  /** So a call of SendPacket that puts its packet also sees to the ring before it returns. */
  lemma SendPacketServesRing(tr: seq<State>, events: seq<Event>, t: Tid, sid: nat, p: Pkt, rest: seq<Task>,
                             a: nat, z: nat)
    requires Trace(tr, events) && Calls(tr, t, sid, Send(p), rest, a, z)
    ensures || PutAndServed(tr, events, t, sid, p, rest, a, z)
            || (Silent(tr, events, t, a, z) && WasClosed(tr, sid, a, z))
            || (Silent(tr, events, t, a, z) && WasFull(tr, sid, a, z) && WasAsked(tr, sid, a, z))
  {
    SendTakesEffectOnce(tr, events, t, sid, p, rest, a, z);
    if PutsOnce(tr, events, t, sid, p, rest, a, z) {
      var k: nat :| PutOnce(tr, events, t, sid, p, rest, a, z, k);
      PostSendTakesEffect(tr, events, t, sid / UNIQUE_RANGE, rest, k + 1, z);
    }
  }

  // ---------------------------------------------------------------- requests for release

  /** Thread `t` is about to request release of the session in slot `i`. */
  ghost predicate AsksRelease(s: State, t: Tid, i: nat, rest: seq<Task>) {
    exists more :: AllTail(more) && Doing(s, t, [RelT(i, Request)] + more, rest)
  }

  ghost predicate ReleaseUnderWay(tr: seq<State>, t: Tid, i: nat, rest: seq<Task>, a: nat, j: nat) {
    j < |tr| && (AsksRelease(tr[j], t, i, rest) || (Winding(tr[j], t, rest) && WasReleased(tr, i, a, j)))
  }

  lemma RequestExec(sh: Shared, i: nat, c: Choice)
    requires i < |sh.slots| && !c.retry
    ensures Released(Exec(sh, RelT(i, Request), c).0, i)
  {
    ReleaseSticks(sh.slots[i].control);
  }

  lemma AskerIsLive(s: State, t: Tid, i: nat, rest: seq<Task>)
    requires Inv(s) && AsksRelease(s, t, i, rest)
    ensures i < |s.sh.slots|
  {
    var more :| AllTail(more) && Doing(s, t, [RelT(i, Request)] + more, rest);
    assert s.threads[t][0] == RelT(i, Request);
    assert ThreadOk(s.sh, t, s.threads[t]) && TaskOk(s.sh, s.threads[t][0]);
  }

  lemma AskStep(s: State, e: Event, i: nat, rest: seq<Task>)
    requires i < |s.sh.slots| && AsksRelease(s, e.t, i, rest)
    ensures || AsksRelease(Step(s, e), e.t, i, rest)
            || (Winding(Step(s, e), e.t, rest) && Released(Step(s, e).sh, i))
  {
    var ask := RelT(i, Request);
    var more :| AllTail(more) && Doing(s, e.t, [ask] + more, rest);
    assert ([ask] + more)[1..] == more;
    DoingStep(s, e, [ask] + more, rest);
    var next := Exec(s.sh, ask, e.c).1;
    if e.c.retry {
      assert next == [ask];
    } else {
      RequestExec(s.sh, i, e.c);
      TailAppend(s.sh, [ask] + more, e.c);
      assert AllTail(next + more);
    }
  }

  lemma AskerIsThere(tr: seq<State>, events: seq<Event>, t: Tid, i: nat, rest: seq<Task>, j: nat)
    requires Trace(tr, events) && j < |events| && AsksRelease(tr[j], t, i, rest)
    ensures i < |tr[j].sh.slots|
  {
    TraceInv(tr, events, j);
    AskerIsLive(tr[j], t, i, rest);
  }

  lemma ReleaseCourse(tr: seq<State>, events: seq<Event>, t: Tid, i: nat, rest: seq<Task>, a: nat, j: nat)
    requires Trace(tr, events) && a <= j < |events| && Inside(tr[j], t, rest)
    requires ReleaseUnderWay(tr, t, i, rest, a, j)
    ensures ReleaseUnderWay(tr, t, i, rest, a, j + 1)
  {
    var s, e := tr[j], events[j];
    assert StepAt(tr, events, j);
    if e.t != t {
      OthersDoing(s, e, t, rest);
    } else if AsksRelease(s, t, i, rest) {
      AskerIsThere(tr, events, t, i, rest, j);
      AskStep(s, e, i, rest);
      if Released(tr[j + 1].sh, i) { assert WasReleased(tr, i, a, j + 1); }
    } else {
      WindingStep(s, e, rest);
    }
  }

  // ---------------------------------------------------------------- receives

  /** Thread `t` has posted a receive for slot `i`. */
  ghost predicate PostedRecv(tr: seq<State>, events: seq<Event>, t: Tid, i: nat, a: nat, b: nat) {
    exists m: nat :: && a <= m < b <= |events| == |tr| - 1 && events[m].t == t
                     && i < |tr[m].sh.slots| && i < |tr[m + 1].sh.slots|
                     && tr[m + 1].sh.slots[i].recvPosted == tr[m].sh.slots[i].recvPosted + 1
  }

  ghost predicate Receiving(tr: seq<State>, events: seq<Event>, t: Tid, i: nat, rest: seq<Task>, a: nat, j: nat) {
    j < |tr| &&
    (|| Doing(tr[j], t, [RecvT(i, Next)], rest)
     || Doing(tr[j], t, [RecvT(i, Issue)], rest)
     || ReleaseUnderWay(tr, t, i, rest, a, j)
     || (Winding(tr[j], t, rest) && PostedRecv(tr, events, t, i, a, j)))
  }

  lemma LiveReceiver(s: State, t: Tid, i: nat, r: RecvOp, rest: seq<Task>)
    requires Inv(s) && Doing(s, t, [RecvT(i, r)], rest)
    ensures i < |s.sh.slots|
  {
    assert s.threads[t][0] == RecvT(i, r);
    assert ThreadOk(s.sh, t, s.threads[t]) && TaskOk(s.sh, s.threads[t][0]);
  }

  lemma AsksOnce(s: State, t: Tid, i: nat, more: seq<Task>, rest: seq<Task>)
    requires AllTail(more) && Doing(s, t, [RelT(i, Request)] + more, rest)
    ensures AsksRelease(s, t, i, rest)
  {
  }

  lemma ReceiverIsThere(tr: seq<State>, events: seq<Event>, t: Tid, i: nat, r: RecvOp, rest: seq<Task>, j: nat)
    requires Trace(tr, events) && j < |events| && Doing(tr[j], t, [RecvT(i, r)], rest)
    ensures i < |tr[j].sh.slots|
  {
    TraceInv(tr, events, j);
    LiveReceiver(tr[j], t, i, r, rest);
  }

  lemma NextRecv(tr: seq<State>, events: seq<Event>, t: Tid, i: nat, rest: seq<Task>, a: nat, j: nat)
    requires Trace(tr, events) && a <= j < |events| && events[j].t == t && Doing(tr[j], t, [RecvT(i, Next)], rest)
    ensures Receiving(tr, events, t, i, rest, a, j + 1)
  {
    var s, e := tr[j], events[j];
    assert StepAt(tr, events, j);
    ReceiverIsThere(tr, events, t, i, Next, rest, j);
    OneStep(s, e, RecvT(i, Next), rest);
    if !e.c.retry && Releasing(s.sh.slots[i].control) {
      assert [RelT(i, Request)] + [] == [RelT(i, Request)];
      AsksOnce(tr[j + 1], t, i, [], rest);
    }
  }

  lemma IssueRecv(tr: seq<State>, events: seq<Event>, t: Tid, i: nat, rest: seq<Task>, a: nat, j: nat)
    requires Trace(tr, events) && a <= j < |events| && events[j].t == t && Doing(tr[j], t, [RecvT(i, Issue)], rest)
    ensures Receiving(tr, events, t, i, rest, a, j + 1)
  {
    var s, e := tr[j], events[j];
    assert StepAt(tr, events, j);
    ReceiverIsThere(tr, events, t, i, Issue, rest, j);
    OneStep(s, e, RecvT(i, Issue), rest);
    if e.c.ok {
      assert PostedRecv(tr, events, t, i, a, j + 1);
      assert AllTail([RelT(i, Drop)]);
    } else {
      assert [RelT(i, Request)] + [RelT(i, Request)] == [RelT(i, Request), RelT(i, Request)];
      AsksOnce(tr[j + 1], t, i, [RelT(i, Request)], rest);
    }
  }

  lemma RecvStep(tr: seq<State>, events: seq<Event>, t: Tid, i: nat, rest: seq<Task>, a: nat, j: nat)
    requires Trace(tr, events) && a <= j < |events| && Inside(tr[j], t, rest)
    requires Receiving(tr, events, t, i, rest, a, j)
    ensures Receiving(tr, events, t, i, rest, a, j + 1)
  {
    assert StepAt(tr, events, j);
    if ReleaseUnderWay(tr, t, i, rest, a, j) {
      ReleaseCourse(tr, events, t, i, rest, a, j);
    } else if events[j].t != t {
      OthersDoing(tr[j], events[j], t, rest);
    } else if Doing(tr[j], t, [RecvT(i, Next)], rest) {
      NextRecv(tr, events, t, i, rest, a, j);
    } else if Doing(tr[j], t, [RecvT(i, Issue)], rest) {
      IssueRecv(tr, events, t, i, rest, a, j);
    } else {
      WindingStep(tr[j], events[j], rest);
    }
  }

  lemma {:induction false} RecvCourse(tr: seq<State>, events: seq<Event>, t: Tid, i: nat, rest: seq<Task>,
                                      a: nat, z: nat, j: nat)
    requires Trace(tr, events) && Busies(tr, t, rest, a, z) && a <= j <= z
    requires Receiving(tr, events, t, i, rest, a, a)
    ensures Receiving(tr, events, t, i, rest, a, j)
    decreases j
  {
    if j > a {
      RecvCourse(tr, events, t, i, rest, a, z, j - 1);
      RecvStep(tr, events, t, i, rest, a, j - 1);
    }
  }

  lemma {:induction false} ReleaseRuns(tr: seq<State>, events: seq<Event>, t: Tid, i: nat, rest: seq<Task>,
                                       a: nat, z: nat, j: nat)
    requires Trace(tr, events) && Busies(tr, t, rest, a, z) && a <= j <= z && ReleaseUnderWay(tr, t, i, rest, a, a)
    ensures ReleaseUnderWay(tr, t, i, rest, a, j)
    decreases j
  {
    if j > a {
      ReleaseRuns(tr, events, t, i, rest, a, z, j - 1);
      ReleaseCourse(tr, events, t, i, rest, a, j - 1);
    }
  }

  lemma NotAskingAtRest(s: State, t: Tid, i: nat, rest: seq<Task>)
    requires t < |s.threads| && s.threads[t] == rest
    ensures !AsksRelease(s, t, i, rest)
  {
  }

  /** A session goes on receiving: a worker that takes a successful receive completion has, when it is done, posted
    * the next receive of that session, or release of the session was requested, which the worker itself does when
    * the socket refuses. After a failed completion release is requested.
    */
  lemma ReceiveGoesOn(tr: seq<State>, events: seq<Event>, t: Tid, i: nat, a: nat, z: nat)
    requires Trace(tr, events) && a < |events| && events[a].t == t && 0 < t < |tr[a].threads| && tr[a].threads[t] == []
    requires events[a].c.op == TakeRecv(i) && i < |tr[a].sh.slots| && tr[a].sh.slots[i].recvPosted > 0
    requires Busies(tr, t, [], a + 1, z)
    ensures WasReleased(tr, i, a + 1, z) || (events[a].c.ok && PostedRecv(tr, events, t, i, a + 1, z))
  {
    assert StepAt(tr, events, a);
    NotAskingAtRest(tr[z], t, i, []);
    if events[a].c.ok {
      assert Doing(tr[a + 1], t, [RecvT(i, Next)], []);
      RecvCourse(tr, events, t, i, [], a + 1, z, z);
      AtRest(tr[z], t, RecvT(i, Next), []);
      AtRest(tr[z], t, RecvT(i, Issue), []);
    } else {
      assert [RelT(i, Request)] + [] == [RelT(i, Request)];
      AsksOnce(tr[a + 1], t, i, [], []);
      ReleaseRuns(tr, events, t, i, [], a + 1, z, z);
    }
  }

  // ---------------------------------------------------------------- accepts

  /** Registering the new socket has failed. */
  ghost predicate WasRefused(tr: seq<State>, events: seq<Event>, i: nat, a: nat, b: nat) {
    exists k: nat :: && a <= k < b <= |events| && b < |tr| && events[k].t == 0 && !events[k].c.ok
                     && About(tr[k], 0, AcceptT(i, Register))
  }

  /** The application has been given one new id, which names slot `i`. */
  ghost predicate Published(before: set<nat>, after: set<nat>, i: nat) {
    exists id :: id !in before && id / UNIQUE_RANGE == i && after == before + {id}
  }

  predicate Unpublished(a: AcceptOp) { CreateOp(a) || a.Register? || a.Join? }

  // How far the accept thread has come, which found the ids `before` published when it began: the session is not
  // published yet, or it will not be because its socket was refused, or it is published.

  ghost predicate Preparing(tr: seq<State>, i: nat, before: set<nat>, j: nat) {
    && j < |tr| && tr[j].sh.published == before
    && exists op :: Unpublished(op) && Doing(tr[j], 0, [AcceptT(i, op)], [])
  }

  ghost predicate Abandoning(tr: seq<State>, events: seq<Event>, i: nat, before: set<nat>, a: nat, j: nat) {
    && j < |tr| && tr[j].sh.published == before && WasRefused(tr, events, i, a, j)
    && (Doing(tr[j], 0, [AcceptT(i, Abandon)], []) || (Winding(tr[j], 0, []) && WasReleased(tr, i, a, j)))
  }

  ghost predicate Opened(tr: seq<State>, events: seq<Event>, i: nat, before: set<nat>, a: nat, j: nat) {
    && j < |tr| && Published(before, tr[j].sh.published, i)
    && (|| Doing(tr[j], 0, [AcceptT(i, First)], []) || Doing(tr[j], 0, [AcceptT(i, FirstIssue)], [])
        || ReleaseUnderWay(tr, 0, i, [], a, j)
        || (Winding(tr[j], 0, []) && PostedRecv(tr, events, 0, i, a, j)))
  }

  ghost predicate Opening(tr: seq<State>, events: seq<Event>, i: nat, before: set<nat>, a: nat, j: nat) {
    || Preparing(tr, i, before, j) || Abandoning(tr, events, i, before, a, j)
    || Opened(tr, events, i, before, a, j)
  }

  lemma BeginPublishes(sh: Shared, t: Tid, c: Choice)
    ensures Begin(sh, t, c).0.published == sh.published
  {
  }

  lemma ExecPublishes(sh: Shared, task: Task, c: Choice)
    requires !(task.AcceptT? && task.a.Join?)
    ensures Exec(sh, task, c).0.published == sh.published
  {
    match task
    case UseT(u) => UsePublishes(sh, u, c);
    case AcceptT(i, a) => if i < |sh.slots| { AcceptPublishes(sh, i, a, c); }
    case CleanT(i, sid, op) => if i < |sh.slots| { CleanPublishes(sh, i, sid, op); }
    case _ =>
  }

  lemma UsePublishes(sh: Shared, u: UseTask, c: Choice)
    ensures ExecUse(sh, u, c).0.published == sh.published
  {
  }

  lemma AcceptPublishes(sh: Shared, i: nat, a: AcceptOp, c: Choice)
    requires i < |sh.slots| && !a.Join?
    ensures ExecAccept(sh, i, a, c).0.published == sh.published
  {
  }

  lemma CleanPublishes(sh: Shared, i: nat, sid: nat, op: CleanOp)
    requires i < |sh.slots|
    ensures ExecClean(sh, i, sid, op).0.published == sh.published
  {
  }

  lemma OthersPublish(s: State, e: Event)
    requires Inv(s) && e.t != 0
    ensures Step(s, e).sh.published == s.sh.published
  {
    if e.t < |s.threads| {
      if s.threads[e.t] == [] {
        BeginPublishes(s.sh, e.t, e.c);
      } else {
        assert ThreadOk(s.sh, e.t, s.threads[e.t]);
        ExecPublishes(s.sh, s.threads[e.t][0], e.c);
      }
    }
  }

  lemma CreateGoesOn(sh: Shared, i: nat, a: AcceptOp, c: Choice)
    requires i < |sh.slots| && CreateOp(a)
    ensures exists op :: Unpublished(op) && Exec(sh, AcceptT(i, a), c).1 == [AcceptT(i, op)]
  {
    if a.CountUp? {
      assert Unpublished(Register) && Exec(sh, AcceptT(i, a), c).1 == [AcceptT(i, Register)];
    } else {
      CreateNext(sh, i, a);
      var op := ExecCreate(sh, i, a).1[0].a;
      assert Unpublished(op) && Exec(sh, AcceptT(i, a), c).1 == [AcceptT(i, op)];
    }
  }

  lemma JoinerIsNamed(s: State, i: nat)
    requires Inv(s) && Doing(s, 0, [AcceptT(i, Join)], [])
    ensures i < |s.sh.slots| && s.sh.slots[i].id !in s.sh.published && s.sh.slots[i].id / UNIQUE_RANGE == i
  {
    assert s.threads[0][0] == AcceptT(i, Join);
    assert ThreadOk(s.sh, 0, s.threads[0]) && TaskOk(s.sh, s.threads[0][0]);
    assert IdOk(s.sh, s.sh.slots[i]) && SlotOk(s.sh.slots[i], i, Total(s.threads, i));
    assert SessionInvariant.Named(s.sh.slots[i], i);
  }

  lemma JoinPublishes(sh: Shared, i: nat, c: Choice)
    requires i < |sh.slots| && sh.slots[i].id !in sh.published && sh.slots[i].id / UNIQUE_RANGE == i
    ensures Published(sh.published, Exec(sh, AcceptT(i, Join), c).0.published, i)
    ensures Exec(sh, AcceptT(i, Join), c).1 == [AcceptT(i, First)]
  {
  }

  lemma OpenerIsThere(s: State, i: nat, op: AcceptOp)
    requires Inv(s) && Doing(s, 0, [AcceptT(i, op)], [])
    ensures i < |s.sh.slots| && About(s, 0, AcceptT(i, op))
  {
    assert s.threads[0][0] == AcceptT(i, op);
    assert ThreadOk(s.sh, 0, s.threads[0]) && TaskOk(s.sh, s.threads[0][0]);
  }

  lemma OpenerAt(tr: seq<State>, events: seq<Event>, i: nat, op: AcceptOp, j: nat)
    requires Trace(tr, events) && j < |events| && Doing(tr[j], 0, [AcceptT(i, op)], [])
    ensures i < |tr[j].sh.slots| && About(tr[j], 0, AcceptT(i, op))
  {
    TraceInv(tr, events, j);
    OpenerIsThere(tr[j], i, op);
  }

  lemma JoinAt(tr: seq<State>, events: seq<Event>, i: nat, j: nat)
    requires Trace(tr, events) && j < |events| && Doing(tr[j], 0, [AcceptT(i, Join)], [])
    ensures var r := Exec(tr[j].sh, AcceptT(i, Join), events[j].c);
            Published(tr[j].sh.published, r.0.published, i) && r.1 == [AcceptT(i, First)]
  {
    TraceInv(tr, events, j);
    JoinerIsNamed(tr[j], i);
    JoinPublishes(tr[j].sh, i, events[j].c);
  }

  lemma EarlyOpens(tr: seq<State>, events: seq<Event>, i: nat, a: nat, j: nat, op: AcceptOp)
    requires Trace(tr, events) && a <= j < |events| && events[j].t == 0
    requires Unpublished(op) && Doing(tr[j], 0, [AcceptT(i, op)], [])
    ensures Opening(tr, events, i, tr[j].sh.published, a, j + 1)
  {
    var s, e := tr[j], events[j];
    assert StepAt(tr, events, j);
    OpenerAt(tr, events, i, op, j);
    OneStep(s, e, AcceptT(i, op), []);
    if op.Join? {
      JoinAt(tr, events, i, j);
    } else {
      ExecPublishes(s.sh, AcceptT(i, op), e.c);
      if op.Register? {
        if e.c.ok { assert Unpublished(Join); } else { assert WasRefused(tr, events, i, a, j + 1); }
      } else {
        CreateGoesOn(s.sh, i, op, e.c);
      }
    }
  }

  lemma AbandonOpens(tr: seq<State>, events: seq<Event>, i: nat, a: nat, j: nat)
    requires Trace(tr, events) && a <= j < |events| && events[j].t == 0
    requires WasRefused(tr, events, i, a, j) && Doing(tr[j], 0, [AcceptT(i, Abandon)], [])
    ensures tr[j + 1].sh.published == tr[j].sh.published
    ensures || Doing(tr[j + 1], 0, [AcceptT(i, Abandon)], [])
            || (Winding(tr[j + 1], 0, []) && WasReleased(tr, i, a, j + 1))
  {
    var s, e := tr[j], events[j];
    assert StepAt(tr, events, j);
    OpenerAt(tr, events, i, Abandon, j);
    OneStep(s, e, AcceptT(i, Abandon), []);
    ExecPublishes(s.sh, AcceptT(i, Abandon), e.c);
    if !e.c.retry {
      ReleaseSticks(s.sh.slots[i].control);
      assert Released(tr[j + 1].sh, i);
      assert WasReleased(tr, i, a, j + 1);
      assert AllTail(Exec(s.sh, AcceptT(i, Abandon), e.c).1);
    }
  }

  lemma FirstOpens(tr: seq<State>, events: seq<Event>, i: nat, a: nat, j: nat)
    requires Trace(tr, events) && a <= j < |events| && events[j].t == 0 && Doing(tr[j], 0, [AcceptT(i, First)], [])
    ensures tr[j + 1].sh.published == tr[j].sh.published
    ensures || Doing(tr[j + 1], 0, [AcceptT(i, First)], []) || Doing(tr[j + 1], 0, [AcceptT(i, FirstIssue)], [])
            || ReleaseUnderWay(tr, 0, i, [], a, j + 1)
  {
    var s, e := tr[j], events[j];
    assert StepAt(tr, events, j);
    OpenerAt(tr, events, i, First, j);
    OneStep(s, e, AcceptT(i, First), []);
    ExecPublishes(s.sh, AcceptT(i, First), e.c);
    if !e.c.retry && Releasing(s.sh.slots[i].control) {
      assert Released(tr[j].sh, i);
      assert WasReleased(tr, i, a, j + 1);
      assert AllTail([]);
    }
  }

  lemma IssueOpens(tr: seq<State>, events: seq<Event>, i: nat, a: nat, j: nat)
    requires Trace(tr, events) && a <= j < |events| && events[j].t == 0 && Doing(tr[j], 0, [AcceptT(i, FirstIssue)], [])
    ensures tr[j + 1].sh.published == tr[j].sh.published
    ensures || ReleaseUnderWay(tr, 0, i, [], a, j + 1)
            || (Winding(tr[j + 1], 0, []) && PostedRecv(tr, events, 0, i, a, j + 1))
  {
    var s, e := tr[j], events[j];
    assert StepAt(tr, events, j);
    OpenerAt(tr, events, i, FirstIssue, j);
    OneStep(s, e, AcceptT(i, FirstIssue), []);
    ExecPublishes(s.sh, AcceptT(i, FirstIssue), e.c);
    if e.c.ok {
      assert PostedRecv(tr, events, 0, i, a, j + 1);
      assert AllTail([]);
    } else {
      assert [RelT(i, Request)] + [] == [RelT(i, Request)];
      AsksOnce(tr[j + 1], 0, i, [], []);
    }
  }

  lemma RefusedMore(tr: seq<State>, events: seq<Event>, i: nat, a: nat, j: nat)
    requires j < |events| == |tr| - 1 && WasRefused(tr, events, i, a, j)
    ensures WasRefused(tr, events, i, a, j + 1)
  {
  }

  lemma PostedMore(tr: seq<State>, events: seq<Event>, t: Tid, i: nat, a: nat, j: nat)
    requires j < |events| == |tr| - 1 && PostedRecv(tr, events, t, i, a, j)
    ensures PostedRecv(tr, events, t, i, a, j + 1)
  {
  }

  lemma OthersPublishAt(tr: seq<State>, events: seq<Event>, j: nat)
    requires Trace(tr, events) && j < |events| && events[j].t != 0
    ensures tr[j + 1].sh.published == tr[j].sh.published
  {
    assert StepAt(tr, events, j);
    TraceInv(tr, events, j);
    OthersPublish(tr[j], events[j]);
  }

  lemma OthersOpen(tr: seq<State>, events: seq<Event>, i: nat, before: set<nat>, a: nat, j: nat)
    requires Trace(tr, events) && a <= j < |events| && events[j].t != 0 && Inside(tr[j], 0, [])
    requires Opening(tr, events, i, before, a, j)
    ensures Opening(tr, events, i, before, a, j + 1)
  {
    var s, e := tr[j], events[j];
    assert StepAt(tr, events, j);
    OthersPublishAt(tr, events, j);
    OthersDoing(s, e, 0, []);
    if WasRefused(tr, events, i, a, j) { RefusedMore(tr, events, i, a, j); }
    if PostedRecv(tr, events, 0, i, a, j) { PostedMore(tr, events, 0, i, a, j); }
    if ReleaseUnderWay(tr, 0, i, [], a, j) { ReleaseCourse(tr, events, 0, i, [], a, j); }
  }

  lemma WindingPublishes(s: State, e: Event, rest: seq<Task>)
    requires Winding(s, e.t, rest) && Inside(s, e.t, rest)
    ensures Winding(Step(s, e), e.t, rest) && Step(s, e).sh.published == s.sh.published
  {
    WindingStep(s, e, rest);
    var cur :| AllTail(cur) && Doing(s, e.t, cur, rest);
    DoingStep(s, e, cur, rest);
    ExecPublishes(s.sh, cur[0], e.c);
  }

  lemma AskPublishes(s: State, e: Event, i: nat, rest: seq<Task>)
    requires AsksRelease(s, e.t, i, rest)
    ensures Step(s, e).sh.published == s.sh.published
  {
    var more :| AllTail(more) && Doing(s, e.t, [RelT(i, Request)] + more, rest);
    DoingStep(s, e, [RelT(i, Request)] + more, rest);
    ExecPublishes(s.sh, RelT(i, Request), e.c);
  }

  lemma OpenedOn(tr: seq<State>, events: seq<Event>, i: nat, before: set<nat>, a: nat, j: nat)
    requires Trace(tr, events) && a <= j < |events| && events[j].t == 0 && Inside(tr[j], 0, [])
    requires Opened(tr, events, i, before, a, j)
    ensures Opened(tr, events, i, before, a, j + 1)
  {
    assert StepAt(tr, events, j);
    if Doing(tr[j], 0, [AcceptT(i, First)], []) {
      FirstOpens(tr, events, i, a, j);
    } else if Doing(tr[j], 0, [AcceptT(i, FirstIssue)], []) {
      IssueOpens(tr, events, i, a, j);
    } else if ReleaseUnderWay(tr, 0, i, [], a, j) {
      ReleaseOn(tr, events, i, a, j);
    } else {
      WindingPublishes(tr[j], events[j], []);
      PostedMore(tr, events, 0, i, a, j);
    }
  }

  lemma ReleaseOn(tr: seq<State>, events: seq<Event>, i: nat, a: nat, j: nat)
    requires Trace(tr, events) && a <= j < |events| && events[j].t == 0 && Inside(tr[j], 0, [])
    requires ReleaseUnderWay(tr, 0, i, [], a, j)
    ensures ReleaseUnderWay(tr, 0, i, [], a, j + 1) && tr[j + 1].sh.published == tr[j].sh.published
  {
    assert StepAt(tr, events, j);
    ReleaseCourse(tr, events, 0, i, [], a, j);
    if AsksRelease(tr[j], 0, i, []) {
      AskPublishes(tr[j], events[j], i, []);
    } else {
      WindingPublishes(tr[j], events[j], []);
    }
  }

  lemma AbandoningOn(tr: seq<State>, events: seq<Event>, i: nat, before: set<nat>, a: nat, j: nat)
    requires Trace(tr, events) && a <= j < |events| && events[j].t == 0 && Inside(tr[j], 0, [])
    requires Abandoning(tr, events, i, before, a, j)
    ensures Abandoning(tr, events, i, before, a, j + 1)
  {
    assert StepAt(tr, events, j);
    RefusedMore(tr, events, i, a, j);
    if Doing(tr[j], 0, [AcceptT(i, Abandon)], []) {
      AbandonOpens(tr, events, i, a, j);
    } else {
      WindingPublishes(tr[j], events[j], []);
    }
  }

  lemma {:induction false} OpenCourse(tr: seq<State>, events: seq<Event>, i: nat, before: set<nat>, a: nat, z: nat,
                                      j: nat)
    requires Trace(tr, events) && Busies(tr, 0, [], a, z) && a <= j <= z && Opening(tr, events, i, before, a, a)
    ensures Opening(tr, events, i, before, a, j)
    decreases j
  {
    if j > a {
      OpenCourse(tr, events, i, before, a, z, j - 1);
      if events[j - 1].t != 0 {
        OthersOpen(tr, events, i, before, a, j - 1);
      } else if Preparing(tr, i, before, j - 1) {
        var op :| Unpublished(op) && Doing(tr[j - 1], 0, [AcceptT(i, op)], []);
        EarlyOpens(tr, events, i, a, j - 1, op);
      } else if Abandoning(tr, events, i, before, a, j - 1) {
        AbandoningOn(tr, events, i, before, a, j - 1);
      } else {
        OpenedOn(tr, events, i, before, a, j - 1);
      }
    }
  }

  lemma OpenAtRest(tr: seq<State>, events: seq<Event>, i: nat, before: set<nat>, a: nat, z: nat)
    requires Opening(tr, events, i, before, a, z) && 0 < |tr[z].threads| && tr[z].threads[0] == []
    ensures || (Published(before, tr[z].sh.published, i)
                && (PostedRecv(tr, events, 0, i, a, z) || WasReleased(tr, i, a, z)))
            || (tr[z].sh.published == before && WasRefused(tr, events, i, a, z) && WasReleased(tr, i, a, z))
  {
    NotAskingAtRest(tr[z], 0, i, []);
    AtRest(tr[z], 0, AcceptT(i, Abandon), []);
    AtRest(tr[z], 0, AcceptT(i, First), []);
    AtRest(tr[z], 0, AcceptT(i, FirstIssue), []);
    forall op ensures !Doing(tr[z], 0, [AcceptT(i, op)], []) { AtRest(tr[z], 0, AcceptT(i, op), []); }
  }

  lemma AcceptBegins(tr: seq<State>, events: seq<Event>, a: nat)
    requires Trace(tr, events) && a < |events| && events[a].t == 0 && 0 < |tr[a].threads| && tr[a].threads[0] == []
    requires events[a].c.op == Accept && tr[a].sh.freeStack != []
    ensures Preparing(tr, tr[a].sh.freeStack[0], tr[a].sh.published, a + 1)
  {
    var i := tr[a].sh.freeStack[0];
    assert StepAt(tr, events, a);
    TopIsFree(tr, events, a);
    BeginPublishes(tr[a].sh, 0, events[a].c);
    assert Unpublished(ResetId) && Doing(tr[a + 1], 0, [AcceptT(i, ResetId)], []);
  }

  lemma TopIsFree(tr: seq<State>, events: seq<Event>, a: nat)
    requires Trace(tr, events) && a < |events| && tr[a].sh.freeStack != []
    ensures tr[a].sh.freeStack[0] < |tr[a].sh.slots|
  {
    TraceInv(tr, events, a);
    FreeTop(tr[a]);
  }

  /** An accept that finds a free slot gives the application one new id, which names that slot, and posts the first
    * receive of the session or sees its release requested. Only if the registration of the socket fails, no id is
    * published, and the release of the unpublished session is requested.
    */
  lemma AcceptReachesApplication(tr: seq<State>, events: seq<Event>, a: nat, z: nat)
    requires Trace(tr, events) && a < |events| && events[a].t == 0 && 0 < |tr[a].threads| && tr[a].threads[0] == []
    requires events[a].c.op == Accept && tr[a].sh.freeStack != []
    requires Busies(tr, 0, [], a + 1, z)
    ensures var i := tr[a].sh.freeStack[0];
            || (Published(tr[a].sh.published, tr[z].sh.published, i)
                && (PostedRecv(tr, events, 0, i, a + 1, z) || WasReleased(tr, i, a + 1, z)))
            || (tr[z].sh.published == tr[a].sh.published && WasRefused(tr, events, i, a + 1, z)
                && WasReleased(tr, i, a + 1, z))
  {
    var i, before := tr[a].sh.freeStack[0], tr[a].sh.published;
    AcceptBegins(tr, events, a);
    OpenCourse(tr, events, i, before, a + 1, z, z);
    OpenAtRest(tr, events, i, before, a + 1, z);
  }

  // ---------------------------------------------------------------- one call for each session

  /** Thread `t` has not lost `rest` from the end of its tasks. */
  ghost predicate Before(s: State, t: Tid, rest: seq<Task>) { exists cur :: Doing(s, t, cur, rest) }

  lemma UnwindStep(tr: seq<State>, events: seq<Event>, t: Tid, cur: seq<Task>, rest: seq<Task>, a: nat)
    requires Trace(tr, events) && a < |events| && Doing(tr[a], t, cur, rest) && cur != []
    ensures Before(tr[a + 1], t, rest)
  {
    assert StepAt(tr, events, a);
    if events[a].t == t {
      DoingStep(tr[a], events[a], cur, rest);
    } else {
      OthersStep(tr[a], events[a], t);
      assert Doing(tr[a + 1], t, cur, rest);
    }
  }

  /** A thread that is idle again at `z` has before come back exactly to what followed its first tasks. */
  lemma {:induction false} Unwinds(tr: seq<State>, events: seq<Event>, t: Tid, cur: seq<Task>, rest: seq<Task>,
                                   a: nat, z: nat)
    returns (m: nat)
    requires Trace(tr, events) && a <= z <= |events| && Doing(tr[a], t, cur, rest)
    requires t < |tr[z].threads| && tr[z].threads[t] == []
    ensures a <= m <= z && Busies(tr, t, rest, a, m)
    decreases z - a
  {
    if cur == [] {
      m := a;
      assert cur + rest == rest;
    } else {
      UnwindStep(tr, events, t, cur, rest, a);
      var cur' :| Doing(tr[a + 1], t, cur', rest);
      m := Unwinds(tr, events, t, cur', rest, a + 1, z);
      assert Inside(tr[a], t, rest);
    }
  }

  /** Somewhere from state `a` to state `z` thread `t` makes the whole call for handle `sid`, with `rest` to follow. */
  ghost predicate MakesCall(tr: seq<State>, t: Tid, sid: nat, use: Use, rest: seq<Task>, a: nat, z: nat) {
    exists b: nat, m: nat :: a <= b <= m <= z && Calls(tr, t, sid, use, rest, b, m)
  }

  lemma CallMade(tr: seq<State>, events: seq<Event>, t: Tid, sid: nat, use: Use, rest: seq<Task>, b: nat, z: nat)
    returns (m: nat)
    requires Trace(tr, events) && b <= z <= |events| && Doing(tr[b], t, [UseT(Find(sid, use))], rest)
    requires t < |tr[z].threads| && tr[z].threads[t] == []
    ensures b <= m <= z && t < |tr[m].threads| && tr[m].threads[t] == rest && Calls(tr, t, sid, use, rest, b, m)
  {
    m := Unwinds(tr, events, t, [UseT(Find(sid, use))], rest, b, z);
  }

  lemma SendToFront(sids: seq<nat>, p: Pkt)
    requires sids != []
    ensures SendTo(sids, p) == [UseT(Find(sids[0], Send(p)))] + SendTo(sids[1..], p)
  {
  }

  lemma {:induction false} CallsInTurn(tr: seq<State>, events: seq<Event>, t: Tid, sids: seq<nat>, p: Pkt,
                                       a: nat, b: nat, z: nat, k: nat)
    requires Trace(tr, events) && a <= b <= z <= |events| && k < |sids|
    requires t < |tr[b].threads| && tr[b].threads[t] == SendTo(sids, p)
    requires t < |tr[z].threads| && tr[z].threads[t] == []
    ensures MakesCall(tr, t, sids[k], Send(p), SendTo(sids[k + 1..], p), a, z)
    decreases k
  {
    SendToFront(sids, p);
    var m := CallMade(tr, events, t, sids[0], Send(p), SendTo(sids[1..], p), b, z);
    if k > 0 {
      assert sids[1..][k - 1] == sids[k] && sids[1..][k..] == sids[k + 1..];
      CallsInTurn(tr, events, t, sids[1..], p, a, m, z, k - 1);
    }
  }

  /** Sending a packet to some sessions is a call of SendPacket for each of them, in turn, before the caller gives
    * its own reference back.
    */
  lemma SendCallsEach(tr: seq<State>, events: seq<Event>, t: Tid, sids: seq<nat>, p: Pkt, a: nat, z: nat, k: nat)
    requires Trace(tr, events) && a < z <= |events| && events[a].t == t && events[a].c.op == StartSend(sids, p)
    requires 0 < t < |tr[a].threads| && tr[a].threads[t] == [] && t < |tr[z].threads| && tr[z].threads[t] == []
    requires p !in tr[a].sh.refCnt && (forall sid :: sid in sids ==> sid in tr[a].sh.published) && k < |sids|
    ensures MakesCall(tr, t, sids[k], Send(p), SendTo(sids[k + 1..], p), a + 1, z)
  {
    assert StepAt(tr, events, a);
    CallsInTurn(tr, events, t, sids, p, a + 1, a + 1, z, k);
  }

  /** Kicking a session is a call of DisConnect for its handle. */
  lemma KickCalls(tr: seq<State>, events: seq<Event>, t: Tid, sid: nat, a: nat, z: nat)
    requires Trace(tr, events) && a < z <= |events| && events[a].t == t && events[a].c.op == StartKick(sid)
    requires 0 < t < |tr[a].threads| && tr[a].threads[t] == [] && t < |tr[z].threads| && tr[z].threads[t] == []
    requires sid in tr[a].sh.published
    ensures MakesCall(tr, t, sid, Kick, [], a + 1, z)
  {
    assert StepAt(tr, events, a);
    assert Doing(tr[a + 1], t, [UseT(Find(sid, Kick))], []);
    var m := CallMade(tr, events, t, sid, Kick, [], a + 1, z);
  }
}
