/** What each call and each job of the hand-off has done when it ends, whatever else runs in between. */
module GroupHandOffCalls {

  import opened Common
  import opened GroupHandOff
  import opened GroupHandOffInvariant
  import opened GroupHandOffRuns
  import opened GroupHandOffTheorems

  // ---------------------------------------------------------------- traces

  ghost predicate StepAt(tr: seq<State>, events: seq<Event>, j: nat) {
    j < |events| && j + 1 < |tr| && tr[j + 1] == Step(tr[j], events[j])
  }

  /** The states that a reachable state and these events lead through. */
  ghost predicate Trace(tr: seq<State>, events: seq<Event>) {
    |tr| == |events| + 1 && Reachable(tr[0]) && forall j: nat :: j < |events| ==> StepAt(tr, events, j)
  }

  lemma {:induction false} TraceReachable(tr: seq<State>, events: seq<Event>, j: nat)
    requires Trace(tr, events) && j < |tr|
    ensures Reachable(tr[j]) && Inv(tr[j])
  {
    if j > 0 {
      TraceReachable(tr, events, j - 1);
      assert StepAt(tr, events, j - 1);
      Next(tr[j - 1], events[j - 1]);
    }
    ReachableInv(tr[j]);
  }

  // ---------------------------------------------------------------- what a step puts into mailboxes

  ghost predicate PostsNothing(s: State, s': State) {
    |s'.groups| == |s.groups| && forall h: nat :: h < |s.groups| ==> s'.groups[h].posted == s.groups[h].posted
  }

  /** One job goes to group `g`, and nothing to the others. */
  ghost predicate Posts(s: State, s': State, g: nat, job: Job) {
    && |s'.groups| == |s.groups| && g < |s.groups| && s'.groups[g].posted == s.groups[g].posted + [job]
    && forall h: nat :: h < |s.groups| && h != g ==> s'.groups[h].posted == s.groups[h].posted
  }

  // ---------------------------------------------------------------- what a turn leaves alone

  /** What only a group's own thread changes; `|posted| - |mail|` jobs have been taken from the mailbox. */
  predicate SameWork(group: Group, group': Group) {
    && group'.local == group.local && group'.pc == group.pc && group'.members == group.members
    && |group'.posted| - |group'.mail| == |group.posted| - |group.mail| && |group'.posted| >= |group.posted|
  }

  lemma PostElsewhereOrMail(s: State, h: nat, job: Job, g: nat)
    requires g < |s.groups|
    ensures |Post(s, h, job).groups| == |s.groups| && SameWork(s.groups[g], Post(s, h, job).groups[g])
    ensures Post(s, h, job).route == s.route
  {
  }

  /** A turn of group `g` leaves alone what is not its own, but for the mailboxes. */
  ghost predicate TurnKeeps(s: State, s': State, g: nat) {
    && s'.readers == s.readers && s'.route == s.route && |s'.groups| == |s.groups|
    && forall h: nat :: h < |s.groups| && h != g ==> SameWork(s.groups[h], s'.groups[h])
  }

  lemma PutKeeps(s: State, s': State, g: nat)
    requires g < |s.groups| && s'.readers == s.readers && s'.route == s.route
    requires |s'.groups| == |s.groups| && s'.groups == s.groups[g := s'.groups[g]]
    ensures TurnKeeps(s, s', g)
  {
  }

  lemma PostKeeps(s: State, s': State, g: nat, h: nat, job: Job)
    requires TurnKeeps(s, s', g)
    ensures TurnKeeps(s, Post(s', h, job), g)
  {
    forall i: nat | i < |s.groups| && i != g ensures SameWork(s.groups[i], Post(s', h, job).groups[i]) {
      PostElsewhereOrMail(s', h, job, i);
    }
  }

  lemma QuietShape(s: State, g: nat, ok: bool)
    requires g < |s.groups| && s.groups[g].local != [] && !s.groups[g].pc.Forward? && !s.groups[g].pc.Handing?
    ensures var s' := Work(s, g, ok);
            && s'.readers == s.readers && s'.route == s.route && |s'.groups| == |s.groups|
            && s'.groups == s.groups[g := s'.groups[g]]
  {
  }

  lemma ForwardKeeps(s: State, g: nat, ok: bool)
    requires g < |s.groups| && s.groups[g].local != [] && s.groups[g].pc.Forward?
    ensures TurnKeeps(s, Work(s, g, ok), g)
  {
    var s', w := Pop(s, g), s.groups[g].pc.to;
    PutKeeps(s, s', g);
    if w.At? {
      PostKeeps(s, s', g, w.g, Leave(s.groups[g].local[0].p));
    } else {
      PutKeeps(s, Work(s, g, ok), g);
    }
  }

  lemma HandingKeeps(s: State, g: nat, ok: bool)
    requires g < |s.groups| && s.groups[g].local != [] && s.groups[g].pc.Handing?
    ensures TurnKeeps(s, Work(s, g, ok), g)
  {
    var p := s.groups[g].local[0].p;
    PutKeeps(s, GoOn(s, g, Store), g);
    PostKeeps(s, GoOn(s, g, Store), g, s.route(p), Enter(p));
  }

  lemma OtherTurn(s: State, g: nat, ok: bool)
    ensures TurnKeeps(s, TurnOf(s, g, ok), g)
  {
    if g >= |s.groups| {
    } else if s.groups[g].local == [] {
      PutKeeps(s, TurnOf(s, g, ok), g);
    } else if s.groups[g].pc.Forward? {
      ForwardKeeps(s, g, ok);
    } else if s.groups[g].pc.Handing? {
      HandingKeeps(s, g, ok);
    } else {
      QuietShape(s, g, ok);
      PutKeeps(s, Work(s, g, ok), g);
    }
  }

  // ---------------------------------------------------------------- OnRecv

  predicate IsTurn(e: Event, t: nat) { e.OnRecv? && e.t == t }

  /** Thread `t` may enter OnRecv, and will find player `p` on the map. */
  predicate Receives(s: State, t: nat, p: Player) {
    t < |s.readers| && s.readers[t].Outside? && s.writer.NoWriter? && p in s.registered
  }

  /** Thread `t` makes no access between events `a` and `b`. */
  ghost predicate Rests(events: seq<Event>, t: nat, a: nat, b: nat) {
    forall j: nat :: a < j < b && j < |events| ==> !IsTurn(events[j], t)
  }

  lemma OthersKeepReader(s: State, e: Event, t: nat)
    requires t < |s.readers| && !IsTurn(e, t)
    ensures t < |Step(s, e).readers| && Step(s, e).readers[t] == s.readers[t]
    ensures |Step(s, e).groups| == |s.groups|
  {
    if e.Turn? { OtherTurn(s, e.g, e.ok); }
  }

  lemma {:induction false} ReaderRests(tr: seq<State>, events: seq<Event>, t: nat, a: nat, b: nat)
    requires Trace(tr, events) && a < b < |tr| && Rests(events, t, a, b) && t < |tr[a + 1].readers|
    ensures t < |tr[b].readers| && tr[b].readers[t] == tr[a + 1].readers[t] && |tr[b].groups| == |tr[a + 1].groups|
    decreases b
  {
    if a + 1 < b {
      ReaderRests(tr, events, t, a, b - 1);
      assert StepAt(tr, events, b - 1);
      OthersKeepReader(tr[b - 1], events[b - 1], t);
    }
  }

  lemma Finds(s: State, t: nat, p: Player, k: nat)
    requires Receives(s, t, p)
    ensures var s' := Step(s, OnRecv(t, p, k));
            PostsNothing(s, s') && t < |s'.readers| && s'.readers[t] == Found(p, k)
  {
  }

  lemma Loads(s: State, e: Event, t: nat, p: Player, k: nat)
    requires Inv(s) && IsTurn(e, t) && t < |s.readers| && s.readers[t] == Found(p, k)
    ensures Locate(s, p).At? && Locate(s, p).g < |s.groups| && PostsNothing(s, Step(s, e))
    ensures t < |Step(s, e).readers| && Step(s, e).readers[t] == Loaded(p, k, Locate(s, p))
  {
    assert ReaderOk(s, s.readers[t]) && PlayerOk(s, p);
    RegisteredIsSomewhere(s, p);
  }

  lemma Delivers(s: State, e: Event, t: nat, p: Player, k: nat, g: nat)
    requires IsTurn(e, t) && t < |s.readers| && s.readers[t] == Loaded(p, k, At(g)) && g < |s.groups|
    ensures Posts(s, Step(s, e), g, Packet(p, k))
    ensures t < |Step(s, e).readers| && Step(s, e).readers[t] == Outside
  {
  }

  /** A call of OnRecv that finds its player is over after three accesses `a`, `b` and `c`, however they are
    * interleaved. The last one puts the packet into the mailbox of the group that the player was in at the
    * second, and into no other; the first two put nothing anywhere.
    */
  lemma RecvDeliversOnce(tr: seq<State>, events: seq<Event>, t: nat, p: Player, k: nat, a: nat, b: nat, c: nat)
    requires Trace(tr, events) && a < b < c < |events|
    requires Receives(tr[a], t, p) && events[a] == OnRecv(t, p, k) && IsTurn(events[b], t) && IsTurn(events[c], t)
    requires Rests(events, t, a, b) && Rests(events, t, b, c)
    ensures Locate(tr[b], p).At? && Posts(tr[c], tr[c + 1], Locate(tr[b], p).g, Packet(p, k))
    ensures PostsNothing(tr[a], tr[a + 1]) && PostsNothing(tr[b], tr[b + 1])
    ensures t < |tr[c + 1].readers| && tr[c + 1].readers[t] == Outside
  {
    assert StepAt(tr, events, a) && StepAt(tr, events, b) && StepAt(tr, events, c);
    Finds(tr[a], t, p, k);
    ReaderRests(tr, events, t, a, b);
    TraceReachable(tr, events, b);
    Loads(tr[b], events[b], t, p, k);
    ReaderRests(tr, events, t, b, c);
    Delivers(tr[c], events[c], t, p, k, Locate(tr[b], p).g);
  }

  // ---------------------------------------------------------------- OnClientJoin

  lemma NewIsUnknown(s: State, p: Player)
    requires Inv(s) && p !in s.joined
    ensures s.groups != [] && Mine(p, s.groups[0].posted) == []
  {
    assert PlayerOk(s, p);
  }

  lemma JoinPosts(s: State, p: Player)
    requires s.groups != [] && s.writer.NoWriter? && NoReaders(s) && p !in s.joined
    ensures var s' := Step(s, OnJoin(p));
            p in s'.registered && Locate(s', p) == At(0) && Posts(s, s', 0, Join(p))
  {
  }

  lemma FirstOfMine(p: Player, jobs: seq<Job>)
    requires Mine(p, jobs) == []
    ensures Mine(p, jobs + [Join(p)]) == [Join(p)]
  {
    MineAppend(p, jobs, [Join(p)]);
    MineOne(p, Join(p));
  }

  /** A session that joins is on the map, in the login group, and that group is told first of all by its JOIN. */
  lemma JoinDelivers(s: State, p: Player)
    requires Reachable(s) && s.writer.NoWriter? && NoReaders(s) && p !in s.joined
    ensures var s' := Step(s, OnJoin(p));
            && p in s'.registered && Locate(s', p) == At(0) && Posts(s, s', 0, Join(p))
            && Mine(p, s'.groups[0].posted) == [Join(p)]
  {
    ReachableInv(s);
    NewIsUnknown(s, p);
    JoinPosts(s, p);
    FirstOfMine(p, s.groups[0].posted);
  }

  // ---------------------------------------------------------------- packets over whole runs

  /** How often `job` has been put into the mailboxes of these groups. */
  function Tally(groups: seq<Group>, job: Job): nat {
    if groups == [] then 0 else multiset(groups[0].posted)[job] + Tally(groups[1..], job)
  }

  lemma {:induction false} TallyPut(groups: seq<Group>, g: nat, group: Group, job: Job)
    requires g < |groups|
    ensures Tally(groups[g := group], job) + multiset(groups[g].posted)[job]
         == Tally(groups, job) + multiset(group.posted)[job]
  {
    if g == 0 {
      assert groups[0 := group][1..] == groups[1..];
    } else {
      TallyPut(groups[1..], g - 1, group, job);
      assert groups[g := group][1..] == groups[1..][g - 1 := group];
    }
  }

  lemma TallySame(s: State, g: nat, group: Group, job: Job)
    requires g < |s.groups| && group.posted == s.groups[g].posted
    ensures Tally(Put(s, g, group).groups, job) == Tally(s.groups, job)
  {
    TallyPut(s.groups, g, group, job);
  }

  lemma TallyPost(s: State, g: nat, job: Job, j: Job)
    requires g < |s.groups|
    ensures Tally(Post(s, g, job).groups, j) == Tally(s.groups, j) + One(job == j)
  {
    TallyPut(s.groups, g, Post(s, g, job).groups[g], j);
  }

  lemma {:induction false} TallyNone(groups: seq<Group>, job: Job)
    requires forall g: nat :: g < |groups| ==> groups[g].posted == []
    ensures Tally(groups, job) == 0
  {
    if groups != [] { TallyNone(groups[1..], job); }
  }

  lemma TurnTally(s: State, g: nat, ok: bool, job: Job)
    requires Inv(s) && g < |s.groups| && job.Packet?
    ensures Tally(TurnOf(s, g, ok).groups, job) == Tally(s.groups, job)
  {
    if s.groups[g].local == [] {
      TallySame(s, g, s.groups[g].(local := s.groups[g].mail, mail := []), job);
    } else if s.groups[g].pc.Forward? {
      WorkingServes(s, g);
      ForwardTally(s, g, ok, job);
    } else if s.groups[g].pc.Handing? {
      WorkingServes(s, g);
      HandingTally(s, g, ok, job);
    } else {
      QuietTally(s, g, ok, job);
    }
  }

  lemma QuietTally(s: State, g: nat, ok: bool, job: Job)
    requires g < |s.groups| && s.groups[g].local != [] && !s.groups[g].pc.Forward? && !s.groups[g].pc.Handing?
    ensures Tally(Work(s, g, ok).groups, job) == Tally(s.groups, job)
  {
    var group := Work(s, g, ok).groups[g];
    QuietShape(s, g, ok);
    QuietPosts(s, g, ok);
    TallySame(s, g, group, job);
  }

  lemma QuietPosts(s: State, g: nat, ok: bool)
    requires g < |s.groups| && s.groups[g].local != [] && !s.groups[g].pc.Forward? && !s.groups[g].pc.Handing?
    ensures |Work(s, g, ok).groups| == |s.groups| && Work(s, g, ok).groups[g].posted == s.groups[g].posted
  {
  }

  lemma ForwardTally(s: State, g: nat, ok: bool, job: Job)
    requires Serving(s, g) && s.groups[g].pc.Forward? && job.Packet?
    ensures Tally(Work(s, g, ok).groups, job) == Tally(s.groups, job)
  {
    var s', p, w := Pop(s, g), Front(s, g), s.groups[g].pc.to;
    TallySame(s, g, Popped(s.groups[g]), job);
    if w.At? {
      ForwardPosts(s, s', g, w.g, p, ok);
      if w.g < |s'.groups| { TallyPost(s', w.g, Leave(p), job); }
    }
  }

  lemma ForwardPosts(s: State, s': State, g: nat, h: nat, p: Player, ok: bool)
    requires g < |s.groups| && s.groups[g].local != [] && s.groups[g].pc == Forward(At(h))
    requires s' == Pop(s, g) && p == s.groups[g].local[0].p
    ensures Work(s, g, ok) == Post(s', h, Leave(p))
  {
  }

  lemma HandingTally(s: State, g: nat, ok: bool, job: Job)
    requires Serving(s, g) && s.groups[g].pc.Handing? && job.Packet?
    ensures Tally(Work(s, g, ok).groups, job) == Tally(s.groups, job)
  {
    var s', p := GoOn(s, g, Store), Front(s, g);
    TallySame(s, g, s.groups[g].(pc := Store), job);
    var target := s.route(p);
    HandingPosts(s, s', g, target, p, ok);
    if target < |s'.groups| { TallyPost(s', target, Enter(p), job); }
  }

  lemma HandingPosts(s: State, s': State, g: nat, target: nat, p: Player, ok: bool)
    requires g < |s.groups| && s.groups[g].local != [] && s.groups[g].pc.Handing?
    requires s' == GoOn(s, g, Store) && p == s.groups[g].local[0].p && target == s.route(p)
    ensures Work(s, g, ok) == Post(s', target, Enter(p))
  {
  }

  /** This event ends a call of OnRecv with packet `k` for player `p`. */
  predicate Ends(s: State, e: Event, p: Player, k: nat) {
    e.OnRecv? && e.t < |s.readers| && s.readers[e.t].Loaded? && s.readers[e.t].p == p && s.readers[e.t].k == k
  }

  lemma RecvTally(s: State, t: nat, q: Player, j: nat, p: Player, k: nat)
    requires Inv(s)
    ensures Tally(RecvStep(s, t, q, j).groups, Packet(p, k)) ==
            Tally(s.groups, Packet(p, k)) + One(Ends(s, OnRecv(t, q, j), p, k))
  {
    if t < |s.readers| && s.readers[t].Loaded? {
      var Loaded(r, i, w) := s.readers[t];
      assert ReaderOk(s, s.readers[t]);
      RegisteredIsSomewhere(s, r);
      assert PlayerOk(s, r);
      TallyPost(s.(readers := s.readers[t := Outside]), w.g, Packet(r, i), Packet(p, k));
    }
  }

  lemma LeaveTally(s: State, q: Player, job: Job)
    requires Inv(s) && job.Packet?
    ensures Tally(LeaveStep(s, q).groups, job) == Tally(s.groups, job)
  {
    if s.writer.Leaving? {
      assert PlayerOk(s, s.writer.p);
      TallyPost(s.(writer := NoWriter), s.writer.w.g, Leave(s.writer.p), job);
    }
  }

  lemma JoinTally(s: State, q: Player, job: Job)
    requires Inv(s) && job.Packet?
    ensures Tally(JoinStep(s, q).groups, job) == Tally(s.groups, job)
  {
    assert PlayerOk(s, q);
    TallyPost(s.(at := s.at[q := 0], registered := s.registered + {q}, joined := s.joined + {q}), 0, Join(q), job);
  }

  lemma StepTally(s: State, e: Event, p: Player, k: nat)
    requires Inv(s)
    ensures Tally(Step(s, e).groups, Packet(p, k)) == Tally(s.groups, Packet(p, k)) + One(Ends(s, e, p, k))
  {
    match e
    case Turn(g, ok) => if g < |s.groups| { TurnTally(s, g, ok, Packet(p, k)); }
    case OnJoin(q) => JoinTally(s, q, Packet(p, k));
    case OnRecv(t, q, j) => RecvTally(s, t, q, j, p, k);
    case OnLeave(q) => LeaveTally(s, q, Packet(p, k));
  }

  /** How many calls of OnRecv with packet `k` for player `p` have ended during these events. */
  function Ended(shards: nat, readers: nat, events: seq<Event>, p: Player, k: nat): nat
    requires shards > 0
    decreases |events|
  {
    if events == [] then 0
    else
      var before := events[..|events| - 1];
      Ended(shards, readers, before, p, k)
      + One(Ends(Run(Init(shards, readers), before), events[|events| - 1], p, k))
  }

  /** No packet is lost or doubled between OnRecv and the mailboxes: in every run, the mailboxes of all groups
    * together have been given a packet as often as calls of OnRecv with it have ended.
    */
  lemma {:induction false} PacketsAreConserved(shards: nat, readers: nat, events: seq<Event>, p: Player, k: nat)
    requires shards > 0
    ensures Tally(Run(Init(shards, readers), events).groups, Packet(p, k)) == Ended(shards, readers, events, p, k)
    decreases |events|
  {
    if events == [] {
      TallyNone(Init(shards, readers).groups, Packet(p, k));
    } else {
      var before := events[..|events| - 1];
      PacketsAreConserved(shards, readers, before, p, k);
      RunInv(shards, readers, before);
      StepTally(Run(Init(shards, readers), before), events[|events| - 1], p, k);
    }
  }

  // ---------------------------------------------------------------- handleLogin

  predicate IsWork(e: Event, g: nat) { e.Turn? && e.g == g }

  /** The content thread of group `g` makes no access between events `a` and `b`. */
  ghost predicate Idles(events: seq<Event>, g: nat, a: nat, b: nat) {
    forall j: nat :: a < j < b && j < |events| ==> !IsWork(events[j], g)
  }

  lemma OthersKeepWork(s: State, e: Event, g: nat)
    requires g < |s.groups| && !IsWork(e, g)
    ensures |Step(s, e).groups| == |s.groups| && SameWork(s.groups[g], Step(s, e).groups[g])
    ensures Step(s, e).route == s.route
  {
    if e.Turn? { OtherTurn(s, e.g, e.ok); }
  }

  lemma {:induction false} WorkRests(tr: seq<State>, events: seq<Event>, g: nat, a: nat, b: nat)
    requires Trace(tr, events) && a < b < |tr| && Idles(events, g, a, b) && g < |tr[a + 1].groups|
    ensures |tr[b].groups| == |tr[a + 1].groups| && SameWork(tr[a + 1].groups[g], tr[b].groups[g])
    ensures tr[b].route == tr[a + 1].route
    decreases b
  {
    if a + 1 < b {
      WorkRests(tr, events, g, a, b - 1);
      assert StepAt(tr, events, b - 1);
      OthersKeepWork(tr[b - 1], events[b - 1], g);
    }
  }

  /** The login thread is at `pc` in a PACKET job of player `p`, with the jobs `rest` behind it. */
  predicate LoggingIn(s: State, p: Player, pc: Pc, rest: seq<Job>) {
    && s.groups != [] && s.groups[0].local != [] && s.groups[0].pc == pc
    && s.groups[0].local[0].Packet? && s.groups[0].local[0].p == p && s.groups[0].local[1..] == rest
  }

  lemma LoginWorks(s: State, p: Player, pc: Pc, rest: seq<Job>)
    requires Inv(s) && LoggingIn(s, p, pc, rest)
    ensures Routed(s, p) && (pc in {Handing, Store} ==> Locate(s, p) == At(0))
    ensures pc in {Depart, DepartCount, Reply} ==> Locate(s, p) == At(s.route(p))
    ensures pc == Depart ==> p in s.groups[0].members
  {
    WorkingServes(s, 0);
    assert PlayerOk(s, p);
    LoginFacts(ViewOf(s, p), p, s.route(p));
  }

  lemma LoginFacts(v: View, p: Player, target: nat)
    requires ViewOk(v, p, target) && v.joined && Pending(v.login) && v.login.posted[v.login.done].Packet?
    ensures v.login.pc in {Handing, Store} ==> v.here == At(0)
    ensures v.login.pc in {Depart, DepartCount, Reply} ==> v.here == At(target)
    ensures v.login.pc == Depart ==> v.login.member
  {
    assert v.login.posted[0].Join?;
  }

  lemma LoginStarts(s: State, p: Player, rest: seq<Job>)
    requires LoggingIn(s, p, Ready, rest) && Locate(s, p) == At(0)
    ensures LoggingIn(Step(s, Turn(0, true)), p, Handing, rest) && PostsNothing(s, Step(s, Turn(0, true)))
  {
  }

  lemma LoginHands(s: State, p: Player, rest: seq<Job>, ok: bool)
    requires LoggingIn(s, p, Handing, rest) && 0 < s.route(p) < |s.groups|
    ensures LoggingIn(Step(s, Turn(0, ok)), p, Store, rest) && Posts(s, Step(s, Turn(0, ok)), s.route(p), Enter(p))
  {
  }

  lemma LoginStores(s: State, p: Player, rest: seq<Job>, ok: bool)
    requires LoggingIn(s, p, Store, rest)
    ensures LoggingIn(Step(s, Turn(0, ok)), p, Depart, rest) && PostsNothing(s, Step(s, Turn(0, ok)))
    ensures Locate(Step(s, Turn(0, ok)), p) == At(s.route(p))
  {
  }

  lemma LoginDeparts(s: State, p: Player, rest: seq<Job>, ok: bool)
    requires LoggingIn(s, p, Depart, rest) && p in s.groups[0].members
    ensures LoggingIn(Step(s, Turn(0, ok)), p, DepartCount, rest) && PostsNothing(s, Step(s, Turn(0, ok)))
    ensures p !in Step(s, Turn(0, ok)).groups[0].members
  {
  }

  lemma LoginCounts(s: State, p: Player, rest: seq<Job>, ok: bool)
    requires LoggingIn(s, p, DepartCount, rest)
    ensures LoggingIn(Step(s, Turn(0, ok)), p, Reply, rest) && PostsNothing(s, Step(s, Turn(0, ok)))
    ensures Step(s, Turn(0, ok)).groups[0].members == s.groups[0].members
  {
  }

  lemma LoginReplies(s: State, p: Player, rest: seq<Job>, ok: bool)
    requires LoggingIn(s, p, Reply, rest)
    ensures var s' := Step(s, Turn(0, ok));
            && PostsNothing(s, s') && s'.groups != [] && s'.groups[0].local == rest && s'.groups[0].pc == Ready
            && s'.groups[0].members == s.groups[0].members && Locate(s', p) == Locate(s, p)
  {
  }

  /** The login thread's accesses `at[0]` to `at[5]` follow each other. */
  ghost predicate InARow(events: seq<Event>, at: seq<nat>) {
    && |at| == 6 && (forall k: nat :: k < 6 ==> at[k] < |events| && IsWork(events[at[k]], 0))
    && forall k: nat :: k < 5 ==> at[k] < at[k + 1] && Idles(events, 0, at[k], at[k + 1])
  }

  lemma NextWork(tr: seq<State>, events: seq<Event>, at: seq<nat>, k: nat, p: Player, pc: Pc, rest: seq<Job>)
    requires Trace(tr, events) && InARow(events, at) && 0 < k < 6 && LoggingIn(tr[at[k - 1] + 1], p, pc, rest)
    ensures LoggingIn(tr[at[k]], p, pc, rest) && Inv(tr[at[k]]) && tr[at[k] + 1] == Step(tr[at[k]], events[at[k]])
    ensures tr[at[k]].groups[0].members == tr[at[k - 1] + 1].groups[0].members
    ensures tr[at[k]].route == tr[at[k - 1] + 1].route
  {
    assert at[k - 1] < at[k - 1 + 1];
    WorkRests(tr, events, 0, at[k - 1], at[k]);
    TraceReachable(tr, events, at[k]);
    assert StepAt(tr, events, at[k]);
  }

  lemma FactsAt(tr: seq<State>, events: seq<Event>, i: nat, p: Player, pc: Pc, rest: seq<Job>)
    requires Trace(tr, events) && i < |tr| && LoggingIn(tr[i], p, pc, rest)
    ensures pc == Handing ==> 0 < tr[i].route(p) < |tr[i].groups|
    ensures pc == Reply ==> Locate(tr[i], p) == At(tr[i].route(p))
    ensures pc == Depart ==> p in tr[i].groups[0].members
  {
    TraceReachable(tr, events, i);
    LoginWorks(tr[i], p, pc, rest);
  }

  lemma FirstAccess(tr: seq<State>, events: seq<Event>, at: seq<nat>, p: Player, rest: seq<Job>)
    requires Trace(tr, events) && InARow(events, at) && events[at[0]].ok
    requires LoggingIn(tr[at[0]], p, Ready, rest) && Locate(tr[at[0]], p) == At(0)
    ensures PostsNothing(tr[at[0]], tr[at[0] + 1]) && LoggingIn(tr[at[1]], p, Handing, rest)
  {
    var s, e := tr[at[0]], events[at[0]];
    assert StepAt(tr, events, at[0]) && IsWork(e, 0);
    assert e == Turn(0, true);
    LoginStarts(s, p, rest);
    NextWork(tr, events, at, 1, p, Handing, rest);
  }

  lemma SecondAccess(tr: seq<State>, events: seq<Event>, at: seq<nat>, p: Player, rest: seq<Job>)
    requires Trace(tr, events) && InARow(events, at) && LoggingIn(tr[at[1]], p, Handing, rest)
    ensures Posts(tr[at[1]], tr[at[1] + 1], tr[at[1]].route(p), Enter(p)) && LoggingIn(tr[at[2]], p, Store, rest)
  {
    var s, e := tr[at[1]], events[at[1]];
    assert StepAt(tr, events, at[1]) && IsWork(e, 0);
    FactsAt(tr, events, at[1], p, Handing, rest);
    LoginHands(s, p, rest, e.ok);
    NextWork(tr, events, at, 2, p, Store, rest);
  }

  lemma ThirdAccess(tr: seq<State>, events: seq<Event>, at: seq<nat>, p: Player, rest: seq<Job>)
    requires Trace(tr, events) && InARow(events, at) && LoggingIn(tr[at[2]], p, Store, rest)
    ensures PostsNothing(tr[at[2]], tr[at[2] + 1]) && LoggingIn(tr[at[3]], p, Depart, rest)
  {
    var s, e := tr[at[2]], events[at[2]];
    assert StepAt(tr, events, at[2]) && IsWork(e, 0);
    LoginStores(s, p, rest, e.ok);
    NextWork(tr, events, at, 3, p, Depart, rest);
  }

  lemma FourthAccess(tr: seq<State>, events: seq<Event>, at: seq<nat>, p: Player, rest: seq<Job>)
    requires Trace(tr, events) && InARow(events, at) && LoggingIn(tr[at[3]], p, Depart, rest)
    ensures PostsNothing(tr[at[3]], tr[at[3] + 1]) && LoggingIn(tr[at[4]], p, DepartCount, rest)
    ensures p !in tr[at[4]].groups[0].members
  {
    var s, e := tr[at[3]], events[at[3]];
    assert StepAt(tr, events, at[3]) && IsWork(e, 0);
    FactsAt(tr, events, at[3], p, Depart, rest);
    LoginDeparts(s, p, rest, e.ok);
    NextWork(tr, events, at, 4, p, DepartCount, rest);
  }

  lemma FifthAccess(tr: seq<State>, events: seq<Event>, at: seq<nat>, p: Player, rest: seq<Job>)
    requires Trace(tr, events) && InARow(events, at) && LoggingIn(tr[at[4]], p, DepartCount, rest)
    ensures PostsNothing(tr[at[4]], tr[at[4] + 1]) && LoggingIn(tr[at[5]], p, Reply, rest)
    ensures tr[at[5]].groups[0].members == tr[at[4]].groups[0].members
  {
    var s, e := tr[at[4]], events[at[4]];
    assert StepAt(tr, events, at[4]) && IsWork(e, 0);
    LoginCounts(s, p, rest, e.ok);
    NextWork(tr, events, at, 5, p, Reply, rest);
  }

  lemma LastAccess(tr: seq<State>, events: seq<Event>, at: seq<nat>, p: Player, rest: seq<Job>)
    requires Trace(tr, events) && InARow(events, at) && LoggingIn(tr[at[5]], p, Reply, rest)
    ensures PostsNothing(tr[at[5]], tr[at[5] + 1])
    ensures LoggedIn(tr[at[5] + 1], p, rest, tr[at[5]].groups[0].members)
  {
    var s, e := tr[at[5]], events[at[5]];
    assert StepAt(tr, events, at[5]) && IsWork(e, 0);
    FactsAt(tr, events, at[5], p, Reply, rest);
    LoginReplies(s, p, rest, e.ok);
  }

  /** Player `p` belongs to its shard, and the login thread, with these members, goes on with `rest`. */
  predicate LoggedIn(s: State, p: Player, rest: seq<Job>, members: set<Player>) {
    && Locate(s, p) == At(s.route(p)) && s.groups != []
    && s.groups[0].members == members && s.groups[0].local == rest && s.groups[0].pc == Ready
  }

  /** A login that is entered moves the player: of the six accesses of its thread, whatever comes between them,
    * the second posts GROUP_ENTER to the player's shard and no other posts anything; afterwards mGroup is the
    * shard, the player has left the mPlayers of the login group, and the thread goes on with the next job.
    */
  lemma LoginMovesPlayer(tr: seq<State>, events: seq<Event>, at: seq<nat>, p: Player, rest: seq<Job>)
    requires Trace(tr, events) && InARow(events, at) && events[at[0]].ok
    requires LoggingIn(tr[at[0]], p, Ready, rest) && Locate(tr[at[0]], p) == At(0)
    ensures exists members :: LoggedIn(tr[at[5] + 1], p, rest, members) && p !in members
    ensures Posts(tr[at[1]], tr[at[1] + 1], tr[at[1]].route(p), Enter(p))
    ensures PostsNothing(tr[at[0]], tr[at[0] + 1]) && PostsNothing(tr[at[2]], tr[at[2] + 1])
    ensures PostsNothing(tr[at[3]], tr[at[3] + 1]) && PostsNothing(tr[at[4]], tr[at[4] + 1])
    ensures PostsNothing(tr[at[5]], tr[at[5] + 1])
  {
    FirstAccess(tr, events, at, p, rest);
    SecondAccess(tr, events, at, p, rest);
    ThirdAccess(tr, events, at, p, rest);
    FourthAccess(tr, events, at, p, rest);
    FifthAccess(tr, events, at, p, rest);
    LastAccess(tr, events, at, p, rest);
  }
}
