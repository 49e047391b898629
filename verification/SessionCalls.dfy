/** What a call of SendPacket or DisConnect has done when it ends, whatever other threads do meanwhile. */
module SessionCalls {

  import opened Common
  import opened Session
  import opened SessionInvariant
  import opened SessionSlots
  import opened SessionRuns
  import opened SessionTheorems

  // ---------------------------------------------------------------- traces

  ghost predicate StepAt(tr: seq<State>, events: seq<Event>, j: nat) {
    j < |events| && j + 1 < |tr| && tr[j + 1] == Step(tr[j], events[j])
  }

  /** The states of a whole run of a proper configuration with fewer than 2^48 sessions. */
  ghost predicate Trace(tr: seq<State>, events: seq<Event>) {
    && |tr| == |events| + 1 && SizesOk(tr[0]) && tr[0] == Init(|tr[0].sh.slots|, |tr[0].threads|)
    && tr[|events|].sh.next <= UNIQUE_RANGE
    && forall j: nat :: j < |events| ==> StepAt(tr, events, j)
  }

  lemma {:induction false} NextBelow(tr: seq<State>, events: seq<Event>, j: nat)
    requires Trace(tr, events) && j <= |events|
    ensures tr[j].sh.next <= UNIQUE_RANGE
    decreases |events| - j
  {
    if j < |events| {
      NextBelow(tr, events, j + 1);
      assert StepAt(tr, events, j);
      StepNext(tr[j], events[j]);
    }
  }

  lemma FirstInv(tr: seq<State>, events: seq<Event>)
    requires Trace(tr, events)
    ensures Inv(tr[0])
  {
    InitInv(|tr[0].sh.slots|, |tr[0].threads|);
  }

  lemma NextInv(s: State, e: Event, s': State)
    requires Inv(s) && s' == Step(s, e) && s'.sh.next <= UNIQUE_RANGE
    ensures Inv(s')
  {
    StepInv(s, e);
  }

  lemma {:induction false} TraceInv(tr: seq<State>, events: seq<Event>, j: nat)
    requires Trace(tr, events) && j <= |events|
    ensures Inv(tr[j]) && tr[j].sh.next <= UNIQUE_RANGE
  {
    NextBelow(tr, events, j);
    if j == 0 {
      FirstInv(tr, events);
    } else {
      TraceInv(tr, events, j - 1);
      assert StepAt(tr, events, j - 1);
      NextInv(tr[j - 1], events[j - 1], tr[j]);
    }
  }

  // ---------------------------------------------------------------- what a call can do

  /** The handle names no session that takes calls: another id, not connected, or release requested. */
  predicate Closed(sh: Shared, sid: nat) {
    var i := sid / UNIQUE_RANGE;
    i >= |sh.slots| || sh.slots[i].id != sid || !sh.slots[i].connected || Releasing(sh.slots[i].control)
  }

  predicate Names(sh: Shared, sid: nat) {
    sid / UNIQUE_RANGE < |sh.slots| && sh.slots[sid / UNIQUE_RANGE].id == sid
  }

  /** The ring of the session named `sid` holds 256 packets. */
  predicate Full(sh: Shared, sid: nat) { Names(sh, sid) && |sh.slots[sid / UNIQUE_RANGE].ring| >= 256 }

  /** Release of the session itself has been requested. */
  predicate Asked(sh: Shared, sid: nat) { Names(sh, sid) && Releasing(sh.slots[sid / UNIQUE_RANGE].control) }

  /** No session is given a packet to send. */
  ghost predicate PutsNothing(sh: Shared, sh': Shared) {
    |sh'.slots| == |sh.slots| && forall i: nat :: i < |sh.slots| ==> sh'.slots[i].put == sh.slots[i].put
  }

  /** The session named `sid` is given packet `p` to send, at the end of its ring, and no other is given any. */
  ghost predicate Puts(sh: Shared, sh': Shared, sid: nat, p: Pkt) {
    var i := sid / UNIQUE_RANGE;
    && |sh'.slots| == |sh.slots| && Names(sh, sid) && |sh.slots[i].ring| < 256
    && sh'.slots[i].put == sh.slots[i].put + [p] && sh'.slots[i].ring == sh.slots[i].ring + [p]
    && forall k: nat :: k < |sh.slots| && k != i ==> sh'.slots[k].put == sh.slots[k].put
  }

  /** Thread `t` gives no session a packet from event `a` on until before event `b`. */
  ghost predicate Silent(tr: seq<State>, events: seq<Event>, t: Tid, a: nat, b: nat) {
    && |tr| == |events| + 1 && b <= |events|
    && forall j: nat :: a <= j < b && events[j].t == t ==> PutsNothing(tr[j].sh, tr[j + 1].sh)
  }

  /** Event `k` is the one at which thread `t` puts its packet; postSend comes next. */
  ghost predicate PutOnce(tr: seq<State>, events: seq<Event>, t: Tid, sid: nat, p: Pkt, rest: seq<Task>,
                          a: nat, b: nat, k: nat) {
    && a <= k < b <= |events| == |tr| - 1 && events[k].t == t && Puts(tr[k].sh, tr[k + 1].sh, sid, p)
    && Silent(tr, events, t, a, k) && Silent(tr, events, t, k + 1, b)
    && t < |tr[k + 1].threads| && tr[k + 1].threads[t] == [SendT(sid / UNIQUE_RANGE, Flag)] + rest
  }

  ghost predicate PutsOnce(tr: seq<State>, events: seq<Event>, t: Tid, sid: nat, p: Pkt, rest: seq<Task>,
                           a: nat, b: nat) {
    exists k: nat :: PutOnce(tr, events, t, sid, p, rest, a, b, k)
  }

  /** At some moment from state `a` on until before state `b`, the handle was closed. */
  ghost predicate WasClosed(tr: seq<State>, sid: nat, a: nat, b: nat) {
    exists k: nat :: a <= k < b <= |tr| && Closed(tr[k].sh, sid)
  }

  ghost predicate WasFull(tr: seq<State>, sid: nat, a: nat, b: nat) {
    exists k: nat :: a <= k < b <= |tr| && Full(tr[k].sh, sid)
  }

  /** At some moment after state `a` and up to state `b`, release of the session itself had been requested. */
  ghost predicate WasAsked(tr: seq<State>, sid: nat, a: nat, b: nat) {
    exists k: nat :: a < k <= b < |tr| && Asked(tr[k].sh, sid)
  }

  // ---------------------------------------------------------------- the course of a call

  /** The tasks that are left when nothing remains but to serve the ring and drop what the call holds. */
  predicate Tail(task: Task) { task.SendT? || task.SubRef? || (task.RelT? && !task.l.Cleanup?) }

  predicate Asks(u: UseTask, sid: nat, use: Use) {
    var i := sid / UNIQUE_RANGE;
    || u == Find(sid, use) || u == Look(i, sid, use) || u == Acquire(i, sid, use) || u == CheckId(i, sid, use)
    || (use.Send? && (u == CheckState(i, use.p) || u == AddRef(i, use.p) || u == Put(i, use.p)))
  }

  predicate Checked(u: UseTask) { u.CheckState? || u.AddRef? || u.Put? }

  /** The session is in use under the handle of the call. */
  predicate Ours(sh: Shared, sid: nat) { Names(sh, sid) && Live(sh, sid / UNIQUE_RANGE) }

  /** The call is still asking for its session; past the re-check it is the right one. */
  predicate Asking(s: State, t: Tid, u: UseTask, sid: nat, use: Use, rest: seq<Task>) {
    && t < |s.threads| && s.threads[t] == [UseT(u)] + rest && Asks(u, sid, use)
    && (Checked(u) ==> Ours(s.sh, sid))
  }

  /** The call is about to request release of its session. */
  predicate Refusing(s: State, t: Tid, sid: nat, use: Use, rest: seq<Task>) {
    var ask := RelT(sid / UNIQUE_RANGE, Request);
    && t < |s.threads| && Ours(s.sh, sid)
    && (s.threads[t] == [ask] + rest || (use.Send? && s.threads[t] == [SubRef(use.p), ask] + rest))
  }

  predicate Ending(s: State, t: Tid, cur: seq<Task>, rest: seq<Task>) {
    t < |s.threads| && s.threads[t] == cur + rest && forall k: nat :: k < |cur| ==> Tail(cur[k])
  }

  // ---------------------------------------------------------------- single steps

  lemma OwnStep(s: State, e: Event, head: Task, rest: seq<Task>)
    requires e.t < |s.threads| && s.threads[e.t] == [head] + rest
    ensures Step(s, e).sh == Exec(s.sh, head, e.c).0
    ensures e.t < |Step(s, e).threads| && Step(s, e).threads[e.t] == Exec(s.sh, head, e.c).1 + rest
  {
    assert s.threads[e.t][1..] == rest;
  }

  lemma OthersStep(s: State, e: Event, t: Tid)
    requires t < |s.threads| && e.t != t
    ensures t < |Step(s, e).threads| && Step(s, e).threads[t] == s.threads[t]
  {
  }

  lemma TailExec(sh: Shared, task: Task, c: Choice, k: nat)
    requires Tail(task) && k < |Exec(sh, task, c).1|
    ensures Tail(Exec(sh, task, c).1[k])
  {
  }

  lemma TailPuts(sh: Shared, task: Task, c: Choice)
    requires Tail(task)
    ensures PutsNothing(sh, Exec(sh, task, c).0)
  {
    SlotCount(sh, task, c);
    forall i: nat | i < |sh.slots| ensures Exec(sh, task, c).0.slots[i].put == sh.slots[i].put {
      if On(task, i) { TailPut(sh, task, c, i); } else { SlotsOffTarget(sh, task, c, i); }
    }
  }

  lemma TailPut(sh: Shared, task: Task, c: Choice, i: nat)
    requires Tail(task) && i < |sh.slots| == |Exec(sh, task, c).0.slots| && On(task, i)
    ensures Exec(sh, task, c).0.slots[i].put == sh.slots[i].put
  {
    if task.SendT? { SendPut(sh.slots[i], i, task.s, c); } else { RelPut(sh.slots[i], i, task.l, c); }
  }

  lemma SendPut(slot: Slot, i: nat, s: SendOp, c: Choice)
    ensures ExecSend(slot, i, s, c).0.put == slot.put
  {
  }

  lemma RelPut(slot: Slot, i: nat, l: RelOp, c: Choice)
    ensures ExecRel(slot, i, l, c).0.put == slot.put
  {
  }

  /** The accesses up to the re-check either go on to the next one or find the handle closed. */
  lemma EarlyExec(sh: Shared, u: UseTask, c: Choice, sid: nat, use: Use)
    requires Asks(u, sid, use) && Early(u)
    ensures var r := Exec(sh, UseT(u), c);
            PutsNothing(sh, r.0) &&
            ((|r.1| == 1 && r.1[0].UseT? && Asks(r.1[0].u, sid, use) && !Checked(r.1[0].u))
             || (r.1 == [] && Closed(sh, sid)))
  {
  }

  lemma CheckExec(sh: Shared, u: UseTask, c: Choice, sid: nat, use: Use)
    requires Asks(u, sid, use) && u.CheckId? && u.i < |sh.slots|
    ensures var r := Exec(sh, UseT(u), c);
            && r.0 == sh
            && (if !Names(sh, sid) then r.1 == [RelT(u.i, Drop)] && Closed(sh, sid)
                else if use.Kick? then r.1 == [RelT(u.i, Request)]
                else r.1 == [UseT(CheckState(u.i, use.p))])
  {
  }

  lemma StateExec(sh: Shared, c: Choice, sid: nat, p: Pkt)
    requires Ours(sh, sid)
    ensures var i := sid / UNIQUE_RANGE;
            var r := Exec(sh, UseT(CheckState(i, p)), c);
            && r.0 == sh
            && (r.1 == [UseT(AddRef(i, p))] || (r.1 == [RelT(i, Drop)] && Closed(sh, sid)))
  {
  }

  lemma AddExec(sh: Shared, c: Choice, i: nat, p: Pkt)
    ensures var r := Exec(sh, UseT(AddRef(i, p)), c); r.0.slots == sh.slots && r.1 == [UseT(Put(i, p))]
  {
  }

  lemma PutExec(sh: Shared, c: Choice, sid: nat, p: Pkt)
    requires Ours(sh, sid)
    ensures var i := sid / UNIQUE_RANGE;
            var r := Exec(sh, UseT(Put(i, p)), c);
            || (Puts(sh, r.0, sid, p) && r.1 == [SendT(i, Flag)])
            || (r.0 == sh && Full(sh, sid) && r.1 == [SubRef(p), RelT(i, Request)])
  {
  }

  lemma AskExec(sh: Shared, c: Choice, sid: nat)
    requires Ours(sh, sid)
    ensures var i := sid / UNIQUE_RANGE;
            var r := Exec(sh, RelT(i, Request), c);
            || (r.0.slots == sh.slots && r.1 == [RelT(i, Request)])
            || (Asked(r.0, sid) && forall k: nat :: k < |r.1| ==> Tail(r.1[k]))
  {
    ReleaseSticks(sh.slots[sid / UNIQUE_RANGE].control);
  }

  lemma FlagAdded(control: nat)
    ensures Flags(control + IO_RANGE) == Flags(control) + 1
  {
  }

  lemma OddNext(f: nat)
    ensures f % 2 != 1 ==> (f + 1) % 2 == 1
  {
  }

  lemma ReleaseSticks(control: nat)
    ensures Releasing(SetRelease(control))
  {
    FlagAdded(control);
    OddNext(Flags(control));
    if !Releasing(control) { assert SetRelease(control) == control + IO_RANGE; }
  }

  // ---------------------------------------------------------------- whole calls

  /** What the call has come to: the packet is put, or the handle was found closed, or release is requested. */
  ghost predicate Outcome(tr: seq<State>, events: seq<Event>, t: Tid, sid: nat, use: Use, rest: seq<Task>,
                          a: nat, b: nat) {
    || (use.Send? && PutsOnce(tr, events, t, sid, use.p, rest, a, b))
    || (Silent(tr, events, t, a, b) && WasClosed(tr, sid, a, b))
    || (Silent(tr, events, t, a, b) && (use.Send? ==> WasFull(tr, sid, a, b)) && WasAsked(tr, sid, a, b))
  }

  ghost predicate StillAsks(tr: seq<State>, events: seq<Event>, t: Tid, sid: nat, use: Use, rest: seq<Task>,
                            a: nat, j: nat) {
    j < |tr| && Silent(tr, events, t, a, j) && exists u :: Asking(tr[j], t, u, sid, use, rest)
  }

  ghost predicate Refuses(tr: seq<State>, events: seq<Event>, t: Tid, sid: nat, use: Use, rest: seq<Task>,
                          a: nat, j: nat) {
    && j < |tr| && Silent(tr, events, t, a, j) && Refusing(tr[j], t, sid, use, rest)
    && (use.Send? ==> WasFull(tr, sid, a, j))
  }

  ghost predicate Winds(tr: seq<State>, events: seq<Event>, t: Tid, sid: nat, use: Use, rest: seq<Task>,
                        a: nat, j: nat) {
    j < |tr| && Outcome(tr, events, t, sid, use, rest, a, j) && exists cur :: Ending(tr[j], t, cur, rest)
  }

  ghost predicate Course(tr: seq<State>, events: seq<Event>, t: Tid, sid: nat, use: Use, rest: seq<Task>,
                         a: nat, j: nat) {
    || StillAsks(tr, events, t, sid, use, rest, a, j)
    || Refuses(tr, events, t, sid, use, rest, a, j)
    || Winds(tr, events, t, sid, use, rest, a, j)
  }

  /** Event `j` gives no packet to a session, or is another thread's. */
  ghost predicate Harmless(tr: seq<State>, events: seq<Event>, t: Tid, j: nat) {
    j < |events| == |tr| - 1 && (events[j].t == t ==> PutsNothing(tr[j].sh, tr[j + 1].sh))
  }

  lemma SilentMore(tr: seq<State>, events: seq<Event>, t: Tid, a: nat, j: nat)
    requires Silent(tr, events, t, a, j) && Harmless(tr, events, t, j)
    ensures Silent(tr, events, t, a, j + 1)
  {
  }

  lemma PutsMore(tr: seq<State>, events: seq<Event>, t: Tid, sid: nat, p: Pkt, rest: seq<Task>, a: nat, j: nat)
    requires PutsOnce(tr, events, t, sid, p, rest, a, j) && Harmless(tr, events, t, j)
    ensures PutsOnce(tr, events, t, sid, p, rest, a, j + 1)
  {
    var k: nat :| PutOnce(tr, events, t, sid, p, rest, a, j, k);
    SilentMore(tr, events, t, k + 1, j);
    assert PutOnce(tr, events, t, sid, p, rest, a, j + 1, k);
  }

  lemma WasMore(tr: seq<State>, sid: nat, a: nat, j: nat)
    requires j + 1 < |tr|
    ensures WasClosed(tr, sid, a, j) ==> WasClosed(tr, sid, a, j + 1)
    ensures WasFull(tr, sid, a, j) ==> WasFull(tr, sid, a, j + 1)
    ensures WasAsked(tr, sid, a, j) ==> WasAsked(tr, sid, a, j + 1)
  {
  }

  lemma OutcomeMore(tr: seq<State>, events: seq<Event>, t: Tid, sid: nat, use: Use, rest: seq<Task>, a: nat, j: nat)
    requires Outcome(tr, events, t, sid, use, rest, a, j) && Harmless(tr, events, t, j)
    ensures Outcome(tr, events, t, sid, use, rest, a, j + 1)
  {
    if use.Send? && PutsOnce(tr, events, t, sid, use.p, rest, a, j) {
      PutsMore(tr, events, t, sid, use.p, rest, a, j);
    } else {
      SilentMore(tr, events, t, a, j);
      WasMore(tr, sid, a, j);
    }
  }

  /** While a call holds a reference, its session stays its own, whatever others do. */
  lemma OursStays(s: State, e: Event, t: Tid, task: Task, sid: nat)
    requires Inv(s) && Step(s, e).sh.next <= UNIQUE_RANGE && t < |s.threads| && task in s.threads[t]
    requires Ours(s.sh, sid) && Of(Refs, sid / UNIQUE_RANGE)(task) >= 1
    ensures Ours(Step(s, e).sh, sid)
  {
    var k: nat :| k < |s.threads[t]| && s.threads[t][k] == task;
    TaskWithin(Of(Refs, sid / UNIQUE_RANGE), s.threads[t], k);
    UsePins(s, e, t, sid / UNIQUE_RANGE);
  }

  lemma CheckedCounts(u: UseTask, i: nat)
    requires Checked(u) && u.i == i
    ensures Of(Refs, i)(UseT(u)) >= 1
  {
  }

  lemma RequestCounts(i: nat)
    ensures Of(Refs, i)(RelT(i, Request)) >= 1
  {
  }

  lemma AskingStays(s: State, e: Event, t: Tid, u: UseTask, sid: nat, use: Use, rest: seq<Task>)
    requires Inv(s) && Step(s, e).sh.next <= UNIQUE_RANGE && Asking(s, t, u, sid, use, rest) && e.t != t
    ensures Asking(Step(s, e), t, u, sid, use, rest)
  {
    OthersStep(s, e, t);
    if Checked(u) {
      CheckedCounts(u, sid / UNIQUE_RANGE);
      assert s.threads[t][0] == UseT(u);
      OursStays(s, e, t, UseT(u), sid);
    }
  }

  lemma RefusingStays(s: State, e: Event, t: Tid, sid: nat, use: Use, rest: seq<Task>)
    requires Inv(s) && Step(s, e).sh.next <= UNIQUE_RANGE && Refusing(s, t, sid, use, rest) && e.t != t
    ensures Refusing(Step(s, e), t, sid, use, rest)
  {
    var ask := RelT(sid / UNIQUE_RANGE, Request);
    OthersStep(s, e, t);
    RequestCounts(sid / UNIQUE_RANGE);
    assert ask in s.threads[t] by {
      assert s.threads[t][0] == ask || s.threads[t][1] == ask;
    }
    OursStays(s, e, t, ask, sid);
  }

  lemma OthersCourse(tr: seq<State>, events: seq<Event>, t: Tid, sid: nat, use: Use, rest: seq<Task>, a: nat, j: nat)
    requires Trace(tr, events) && j < |events| && events[j].t != t && Course(tr, events, t, sid, use, rest, a, j)
    ensures Course(tr, events, t, sid, use, rest, a, j + 1)
  {
    var s, e := tr[j], events[j];
    assert StepAt(tr, events, j);
    TraceInv(tr, events, j);
    NextBelow(tr, events, j + 1);
    if StillAsks(tr, events, t, sid, use, rest, a, j) {
      var u :| Asking(s, t, u, sid, use, rest);
      AskingStays(s, e, t, u, sid, use, rest);
      SilentMore(tr, events, t, a, j);
    } else if Refuses(tr, events, t, sid, use, rest, a, j) {
      RefusingStays(s, e, t, sid, use, rest);
      SilentMore(tr, events, t, a, j);
      WasMore(tr, sid, a, j);
    } else {
      var cur :| Ending(s, t, cur, rest);
      OthersStep(s, e, t);
      assert Ending(tr[j + 1], t, cur, rest);
      OutcomeMore(tr, events, t, sid, use, rest, a, j);
    }
  }

  lemma EndingStep(s: State, e: Event, cur: seq<Task>, rest: seq<Task>)
    requires Ending(s, e.t, cur, rest) && cur != []
    ensures PutsNothing(s.sh, Step(s, e).sh)
    ensures Ending(Step(s, e), e.t, Exec(s.sh, cur[0], e.c).1 + cur[1..], rest)
  {
    var more := Exec(s.sh, cur[0], e.c).1;
    assert cur + rest == [cur[0]] + (cur[1..] + rest);
    OwnStep(s, e, cur[0], cur[1..] + rest);
    TailPuts(s.sh, cur[0], e.c);
    TailAppend(s.sh, cur, e.c);
    assert more + (cur[1..] + rest) == (more + cur[1..]) + rest;
  }

  lemma TailAppend(sh: Shared, cur: seq<Task>, c: Choice)
    requires cur != [] && forall k: nat :: k < |cur| ==> Tail(cur[k])
    ensures var all := Exec(sh, cur[0], c).1 + cur[1..]; forall k: nat :: k < |all| ==> Tail(all[k])
  {
    var more := Exec(sh, cur[0], c).1;
    forall k: nat | k < |more + cur[1..]| ensures Tail((more + cur[1..])[k]) {
      if k < |more| { TailExec(sh, cur[0], c, k); }
    }
  }

  lemma EndingCourse(tr: seq<State>, events: seq<Event>, t: Tid, sid: nat, use: Use, rest: seq<Task>, a: nat, j: nat,
                     cur: seq<Task>)
    requires Trace(tr, events) && j < |events| && events[j].t == t && Outcome(tr, events, t, sid, use, rest, a, j)
    requires Ending(tr[j], t, cur, rest) && cur != []
    ensures Winds(tr, events, t, sid, use, rest, a, j + 1)
  {
    assert StepAt(tr, events, j);
    EndingStep(tr[j], events[j], cur, rest);
    OutcomeMore(tr, events, t, sid, use, rest, a, j);
  }

  lemma ClosedCourse(tr: seq<State>, events: seq<Event>, t: Tid, sid: nat, use: Use, rest: seq<Task>, a: nat, j: nat,
                     more: seq<Task>)
    requires j < |events| == |tr| - 1 && a <= j && Silent(tr, events, t, a, j + 1) && Closed(tr[j].sh, sid)
    requires Ending(tr[j + 1], t, more, rest)
    ensures Winds(tr, events, t, sid, use, rest, a, j + 1)
  {
    assert WasClosed(tr, sid, a, j + 1);
  }

  lemma EarlyCourse(tr: seq<State>, events: seq<Event>, t: Tid, sid: nat, use: Use, rest: seq<Task>, a: nat, j: nat,
                    u: UseTask)
    requires Trace(tr, events) && a <= j < |events| && events[j].t == t && Silent(tr, events, t, a, j)
    requires Asking(tr[j], t, u, sid, use, rest) && Early(u)
    ensures Course(tr, events, t, sid, use, rest, a, j + 1)
  {
    var s, e := tr[j], events[j];
    assert StepAt(tr, events, j);
    OwnStep(s, e, UseT(u), rest);
    EarlyExec(s.sh, u, e.c, sid, use);
    var more := Exec(s.sh, UseT(u), e.c).1;
    SilentMore(tr, events, t, a, j);
    if more == [] {
      ClosedCourse(tr, events, t, sid, use, rest, a, j, more);
    } else {
      assert more == [UseT(more[0].u)];
      assert Asking(tr[j + 1], t, more[0].u, sid, use, rest);
    }
  }

  /** The re-check gives up on another session, and otherwise goes on with the session of the handle. */
  lemma CheckStep(s: State, e: Event, u: UseTask, sid: nat, use: Use, rest: seq<Task>)
    requires Inv(s) && Asking(s, e.t, u, sid, use, rest) && u.CheckId?
    ensures var s' := Step(s, e);
            && PutsNothing(s.sh, s'.sh)
            && (if !Names(s.sh, sid) then Closed(s.sh, sid) && Ending(s', e.t, [RelT(u.i, Drop)], rest)
                else if use.Kick? then Refusing(s', e.t, sid, use, rest)
                else Asking(s', e.t, CheckState(u.i, use.p), sid, use, rest))
  {
    assert s.threads[e.t][0] == UseT(u);
    CheckedIsLive(s, e.t, u);
    OwnStep(s, e, UseT(u), rest);
    CheckExec(s.sh, u, e.c, sid, use);
  }

  lemma CheckCourse(tr: seq<State>, events: seq<Event>, t: Tid, sid: nat, use: Use, rest: seq<Task>, a: nat, j: nat,
                    u: UseTask)
    requires Trace(tr, events) && a <= j < |events| && events[j].t == t && Silent(tr, events, t, a, j)
    requires Asking(tr[j], t, u, sid, use, rest) && u.CheckId?
    ensures Course(tr, events, t, sid, use, rest, a, j + 1)
  {
    assert StepAt(tr, events, j);
    TraceInv(tr, events, j);
    CheckStep(tr[j], events[j], u, sid, use, rest);
    SilentMore(tr, events, t, a, j);
    if !Names(tr[j].sh, sid) { ClosedCourse(tr, events, t, sid, use, rest, a, j, [RelT(u.i, Drop)]); }
  }

  lemma CheckedCourse(tr: seq<State>, events: seq<Event>, t: Tid, sid: nat, p: Pkt, rest: seq<Task>, a: nat, j: nat,
                      u: UseTask)
    requires Trace(tr, events) && a <= j < |events| && events[j].t == t && Silent(tr, events, t, a, j)
    requires Asking(tr[j], t, u, sid, Send(p), rest) && (u.CheckState? || u.AddRef?)
    ensures Course(tr, events, t, sid, Send(p), rest, a, j + 1)
  {
    var s, e, i := tr[j], events[j], sid / UNIQUE_RANGE;
    assert StepAt(tr, events, j);
    OwnStep(s, e, UseT(u), rest);
    StateExec(s.sh, e.c, sid, p);
    AddExec(s.sh, e.c, i, p);
    SilentMore(tr, events, t, a, j);
    if u.AddRef? {
      assert Asking(tr[j + 1], t, Put(i, p), sid, Send(p), rest);
    } else if Exec(s.sh, UseT(u), e.c).1 == [UseT(AddRef(i, p))] {
      assert Asking(tr[j + 1], t, AddRef(i, p), sid, Send(p), rest);
    } else {
      ClosedCourse(tr, events, t, sid, Send(p), rest, a, j, [RelT(i, Drop)]);
    }
  }

  lemma PutCourse(tr: seq<State>, events: seq<Event>, t: Tid, sid: nat, p: Pkt, rest: seq<Task>, a: nat, j: nat)
    requires Trace(tr, events) && a <= j < |events| && events[j].t == t && Silent(tr, events, t, a, j)
    requires Asking(tr[j], t, Put(sid / UNIQUE_RANGE, p), sid, Send(p), rest)
    ensures Course(tr, events, t, sid, Send(p), rest, a, j + 1)
  {
    var s, e, i := tr[j], events[j], sid / UNIQUE_RANGE;
    assert StepAt(tr, events, j);
    OwnStep(s, e, UseT(Put(i, p)), rest);
    PutExec(s.sh, e.c, sid, p);
    if Exec(s.sh, UseT(Put(i, p)), e.c).1 == [SendT(i, Flag)] {
      assert PutOnce(tr, events, t, sid, p, rest, a, j + 1, j);
      assert PutsOnce(tr, events, t, sid, p, rest, a, j + 1);
      assert Ending(tr[j + 1], t, [SendT(i, Flag)], rest);
    } else {
      SilentMore(tr, events, t, a, j);
      assert WasFull(tr, sid, a, j + 1);
      assert Refusing(tr[j + 1], t, sid, Send(p), rest);
    }
  }

  lemma RefuseCourse(tr: seq<State>, events: seq<Event>, t: Tid, sid: nat, use: Use, rest: seq<Task>, a: nat, j: nat)
    requires Trace(tr, events) && a <= j < |events| && events[j].t == t && Refuses(tr, events, t, sid, use, rest, a, j)
    ensures Course(tr, events, t, sid, use, rest, a, j + 1)
  {
    var s, e, ask := tr[j], events[j], RelT(sid / UNIQUE_RANGE, Request);
    assert StepAt(tr, events, j);
    WasMore(tr, sid, a, j);
    if s.threads[t] == [ask] + rest {
      OwnStep(s, e, ask, rest);
      TailPuts(s.sh, ask, e.c);
      SilentMore(tr, events, t, a, j);
      AskExec(s.sh, e.c, sid);
      if Asked(tr[j + 1].sh, sid) {
        assert WasAsked(tr, sid, a, j + 1);
        AskedCourse(tr, events, t, sid, use, rest, a, j);
      } else {
        assert Refusing(tr[j + 1], t, sid, use, rest);
      }
    } else {
      assert [SubRef(use.p), ask] + rest == [SubRef(use.p)] + ([ask] + rest);
      OwnStep(s, e, SubRef(use.p), [ask] + rest);
      SilentMore(tr, events, t, a, j);
      assert Refusing(tr[j + 1], t, sid, use, rest);
    }
  }

  lemma AskedCourse(tr: seq<State>, events: seq<Event>, t: Tid, sid: nat, use: Use, rest: seq<Task>, a: nat, j: nat)
    requires j + 1 < |tr| && Silent(tr, events, t, a, j + 1) && WasAsked(tr, sid, a, j + 1)
    requires use.Send? ==> WasFull(tr, sid, a, j + 1)
    requires j < |events| && t < |tr[j].threads| && events[j].t == t
    requires tr[j].threads[t] == [RelT(sid / UNIQUE_RANGE, Request)] + rest && Ours(tr[j].sh, sid)
    requires tr[j + 1] == Step(tr[j], events[j])
    ensures Winds(tr, events, t, sid, use, rest, a, j + 1)
  {
    var s, e, ask := tr[j], events[j], RelT(sid / UNIQUE_RANGE, Request);
    OwnStep(s, e, ask, rest);
    var more := Exec(s.sh, ask, e.c).1;
    forall k: nat | k < |more| ensures Tail(more[k]) { TailExec(s.sh, ask, e.c, k); }
    assert Ending(tr[j + 1], t, more, rest);
  }

  lemma OwnCourse(tr: seq<State>, events: seq<Event>, t: Tid, sid: nat, use: Use, rest: seq<Task>, a: nat, j: nat)
    requires Trace(tr, events) && a <= j < |events| && events[j].t == t && Inside(tr[j], t, rest)
    requires Course(tr, events, t, sid, use, rest, a, j)
    ensures Course(tr, events, t, sid, use, rest, a, j + 1)
  {
    if StillAsks(tr, events, t, sid, use, rest, a, j) {
      var u :| Asking(tr[j], t, u, sid, use, rest);
      if Early(u) {
        EarlyCourse(tr, events, t, sid, use, rest, a, j, u);
      } else if u.CheckId? {
        CheckCourse(tr, events, t, sid, use, rest, a, j, u);
      } else if u.Put? {
        PutCourse(tr, events, t, sid, use.p, rest, a, j);
      } else {
        CheckedCourse(tr, events, t, sid, use.p, rest, a, j, u);
      }
    } else if Refuses(tr, events, t, sid, use, rest, a, j) {
      RefuseCourse(tr, events, t, sid, use, rest, a, j);
    } else {
      var cur :| Ending(tr[j], t, cur, rest);
      EndingCourse(tr, events, t, sid, use, rest, a, j, cur);
    }
  }

  /** Thread `t` has not yet come back to the tasks `rest`. */
  predicate Inside(s: State, t: Tid, rest: seq<Task>) { t < |s.threads| && |s.threads[t]| > |rest| }

  /** From state `a` to state `z`, thread `t` is in a call for handle `sid`, with the tasks `rest` to follow. */
  ghost predicate Calls(tr: seq<State>, t: Tid, sid: nat, use: Use, rest: seq<Task>, a: nat, z: nat) {
    && a <= z < |tr| && t < |tr[a].threads| && tr[a].threads[t] == [UseT(Find(sid, use))] + rest
    && (forall j: nat :: a <= j < z ==> Inside(tr[j], t, rest))
    && t < |tr[z].threads| && tr[z].threads[t] == rest
  }

  lemma {:induction false} CallCourse(tr: seq<State>, events: seq<Event>, t: Tid, sid: nat, use: Use, rest: seq<Task>,
                                      a: nat, z: nat, j: nat)
    requires Trace(tr, events) && Calls(tr, t, sid, use, rest, a, z) && a <= j <= z
    ensures Course(tr, events, t, sid, use, rest, a, j)
    decreases j
  {
    if j == a {
      assert Asking(tr[a], t, Find(sid, use), sid, use, rest);
    } else {
      CallCourse(tr, events, t, sid, use, rest, a, z, j - 1);
      if events[j - 1].t == t {
        OwnCourse(tr, events, t, sid, use, rest, a, j - 1);
      } else {
        OthersCourse(tr, events, t, sid, use, rest, a, j - 1);
      }
    }
  }

  lemma CallOutcome(tr: seq<State>, events: seq<Event>, t: Tid, sid: nat, use: Use, rest: seq<Task>, a: nat, z: nat)
    requires Trace(tr, events) && Calls(tr, t, sid, use, rest, a, z)
    ensures Outcome(tr, events, t, sid, use, rest, a, z)
  {
    CallCourse(tr, events, t, sid, use, rest, a, z, z);
    assert |tr[z].threads[t]| == |rest|;
  }

  /** SendPacket takes effect once. When a call of any thread in any run is over, either one access of it, and
    * only that one, has put the packet at the end of the ring of the very session that the handle names; or the
    * call has put no packet anywhere, and at some moment of it the handle named no connected session without
    * release requested, or the ring of that session was full and its release has been requested since.
    */
  lemma SendTakesEffectOnce(tr: seq<State>, events: seq<Event>, t: Tid, sid: nat, p: Pkt, rest: seq<Task>,
                            a: nat, z: nat)
    requires Trace(tr, events) && Calls(tr, t, sid, Send(p), rest, a, z)
    ensures || PutsOnce(tr, events, t, sid, p, rest, a, z)
            || (Silent(tr, events, t, a, z) && WasClosed(tr, sid, a, z))
            || (Silent(tr, events, t, a, z) && WasFull(tr, sid, a, z) && WasAsked(tr, sid, a, z))
  {
    CallOutcome(tr, events, t, sid, Send(p), rest, a, z);
  }

  /** DisConnect takes effect: when a call is over, release of the very session that the handle names has been
    * requested, or at some moment of the call it named no connected session without release requested.
    */
  lemma KickTakesEffect(tr: seq<State>, events: seq<Event>, t: Tid, sid: nat, rest: seq<Task>, a: nat, z: nat)
    requires Trace(tr, events) && Calls(tr, t, sid, Kick, rest, a, z)
    ensures Silent(tr, events, t, a, z)
    ensures WasAsked(tr, sid, a, z) || WasClosed(tr, sid, a, z)
  {
    CallOutcome(tr, events, t, sid, Kick, rest, a, z);
  }
}
