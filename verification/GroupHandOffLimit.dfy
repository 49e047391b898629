/** Exactly when the login thread can meet a player that its shard has given back. */
module GroupHandOffLimit {

  import opened Common
  import opened GroupHandOff
  import opened GroupHandOffInvariant
  import opened GroupHandOffRuns
  import opened GroupHandOffTheorems

  /** A job about player `p` is still to be done, or under way, in this group. */
  predicate Awaits(group: Group, p: Player) { exists k: nat :: k < |Queue(group)| && Queue(group)[k].p == p }

  lemma {:induction false} SomeMine(p: Player, jobs: seq<Job>)
    ensures Mine(p, jobs) != [] <==> exists k: nat :: k < |jobs| && jobs[k].p == p
  {
    if jobs != [] {
      SomeMine(p, jobs[1..]);
      if jobs[0].p != p {
        forall k: nat | k < |jobs| && jobs[k].p == p ensures k > 0 && jobs[1..][k - 1].p == p { }
        forall k: nat | k < |jobs[1..]| && jobs[1..][k].p == p ensures jobs[k + 1].p == p { }
      }
    }
  }

  lemma AwaitsIsPending(group: Group, p: Player)
    requires QueueOk(group)
    ensures Pending(SideOf(group, p)) <==> Awaits(group, p)
  {
    MineAppend(p, Taken(group), Queue(group));
    SomeMine(p, Queue(group));
  }

  // ---------------------------------------------------------------- safe for good

  /** The LEAVE of the player has gone or will go to the login group, or that group is done with the player. */
  predicate Safe(v: View) {
    && v.joined && !v.listed
    && ((v.writer.Leaving? && v.writer.w == At(0)) || Left(v.login.posted)
        || (!Pending(v.login) && (v.writer.Leaving? ==> v.writer.w != At(0))))
  }

  lemma SafeIsUntouched(v: View, p: Player, target: nat)
    requires ViewOk(v, p, target) && Safe(v)
    ensures !Pending(v.login) || v.freed == 0
  {
  }

  lemma SafeServed(v: View, p: Player, target: nat, ok: bool)
    requires Safe(v) && ViewOk(v, p, target)
    ensures Pending(v.login) ==> Safe(ServeLogin(v, p, target, ok))
    ensures Pending(v.echo) ==> Safe(ServeEcho(v))
    ensures v.writer.Leaving? ==> Safe(EndsLeave(v, p))
  {
  }

  lemma SafeTurn(s: State, g: nat, ok: bool, p: Player)
    requires Inv(s) && g < |s.groups| && Routed(s, p) && Safe(ViewOf(s, p))
    ensures Routed(TurnOf(s, g, ok), p) && Safe(ViewOf(TurnOf(s, g, ok), p))
  {
    assert PlayerOk(s, p);
    if s.groups[g].local == [] {
      assert GroupOk(s.groups[g], g, s.route);
      DrainSide(s.groups[g], p);
      PutView(s, g, s.groups[g].(local := s.groups[g].mail, mail := []), p);
    } else {
      WorkingServes(s, g);
      WorkView(s, g, ok, p);
      SafeServed(ViewOf(s, p), p, s.route(p), ok);
    }
  }

  lemma SafeJoin(s: State, q: Player, p: Player)
    requires Inv(s) && Routed(s, p) && Safe(ViewOf(s, p))
    ensures Routed(JoinStep(s, q), p) && Safe(ViewOf(JoinStep(s, q), p))
  {
    if !s.writer.Leaving? && NoReaders(s) && q !in s.joined {
      assert GroupOk(s.groups[0], 0, s.route);
      var s1 := s.(at := s.at[q := 0], registered := s.registered + {q}, joined := s.joined + {q});
      PostView(s1, 0, Join(q), p);
      JoinView(s, q, p);
    }
  }

  lemma ReadersUnseen(s: State, readers: seq<Reader>, p: Player)
    requires Routed(s, p)
    ensures ViewOf(s.(readers := readers), p) == ViewOf(s, p)
  {
  }

  /** What a reader posts is about a player on the map. */
  lemma DeliversForListed(s: State, t: nat)
    requires Inv(s) && t < |s.readers| && s.readers[t].Loaded?
    ensures var r, w := s.readers[t].p, s.readers[t].w;
            r in s.registered && w.At? && w.g < |s.groups| && QueueOk(s.groups[w.g])
  {
    assert ReaderOk(s, s.readers[t]);
    var r, w := s.readers[t].p, s.readers[t].w;
    RegisteredIsSomewhere(s, r);
    assert PlayerOk(s, r);
    assert GroupOk(s.groups[w.g], w.g, s.route);
  }

  lemma SafeDelivery(s: State, t: nat, p: Player)
    requires Inv(s) && Routed(s, p) && Safe(ViewOf(s, p)) && t < |s.readers| && s.readers[t].Loaded?
    ensures Routed(RecvStep(s, t, p, 0), p) && ViewOf(RecvStep(s, t, p, 0), p) == ViewOf(s, p)
  {
    var Loaded(r, j, w) := s.readers[t];
    var readers := s.readers[t := Outside];
    DeliversForListed(s, t);
    ReadersUnseen(s, readers, p);
    PostView(s.(readers := readers), w.g, Packet(r, j), p);
  }

  /** No packet of a player that is off the map is on its way to a mailbox. */
  lemma SafeRecv(s: State, t: nat, q: Player, k: nat, p: Player)
    requires Inv(s) && Routed(s, p) && Safe(ViewOf(s, p))
    ensures Routed(RecvStep(s, t, q, k), p) && Safe(ViewOf(RecvStep(s, t, q, k), p))
  {
    if t < |s.readers| {
      if s.readers[t].Loaded? {
        SafeDelivery(s, t, p);
      } else {
        ReadersUnseen(s, RecvStep(s, t, q, k).readers, p);
      }
    }
  }

  lemma SafeStartLeave(s: State, q: Player, p: Player)
    requires Routed(s, p) && Safe(ViewOf(s, p)) && s.writer.NoWriter? && NoReaders(s) && q in s.registered
    ensures Routed(LeaveStep(s, q), p) && Safe(ViewOf(LeaveStep(s, q), p))
  {
    assert ViewOf(LeaveStep(s, q), p) == ViewOf(s, p);
  }

  lemma EndLeaveView(s: State, p: Player)
    requires Inv(s) && s.writer.Leaving? && Routed(s, p)
    ensures var r, w := s.writer.p, s.writer.w;
            && w.At? && SameShape(s, Post(s.(writer := NoWriter), w.g, Leave(r)))
            && ViewOf(Post(s.(writer := NoWriter), w.g, Leave(r)), p) ==
               if r == p then EndsLeave(ViewOf(s, p), p) else ViewOf(s, p)
  {
    var r, w, s1 := s.writer.p, s.writer.w, s.(writer := NoWriter);
    assert PlayerOk(s, r);
    assert GroupOk(s.groups[w.g], w.g, s.route);
    PostView(s1, w.g, Leave(r), p);
    assert ViewOf(s1, p) == ViewOf(s, p).(writer := NoWriter);
  }

  lemma SafeEndLeave(s: State, q: Player, p: Player)
    requires Inv(s) && Routed(s, p) && Safe(ViewOf(s, p)) && s.writer.Leaving?
    ensures Routed(LeaveStep(s, q), p) && Safe(ViewOf(LeaveStep(s, q), p))
  {
    EndLeaveView(s, p);
    assert PlayerOk(s, p);
    SafeServed(ViewOf(s, p), p, s.route(p), true);
  }

  lemma SafeLeave(s: State, q: Player, p: Player)
    requires Inv(s) && Routed(s, p) && Safe(ViewOf(s, p))
    ensures Routed(LeaveStep(s, q), p) && Safe(ViewOf(LeaveStep(s, q), p))
  {
    if s.writer.Leaving? {
      SafeEndLeave(s, q, p);
    } else if NoReaders(s) && q in s.registered {
      SafeStartLeave(s, q, p);
    }
  }

  lemma SafeStep(s: State, e: Event, p: Player)
    requires Inv(s) && Routed(s, p) && Safe(ViewOf(s, p))
    ensures Routed(Step(s, e), p) && Safe(ViewOf(Step(s, e), p))
  {
    match e
    case Turn(g, ok) => if g < |s.groups| { SafeTurn(s, g, ok, p); }
    case OnJoin(q) => SafeJoin(s, q, p);
    case OnRecv(t, q, k) => SafeRecv(s, t, q, k, p);
    case OnLeave(q) => SafeLeave(s, q, p);
  }

  lemma {:induction false} SafeRun(s: State, p: Player, more: seq<Event>)
    requires Inv(s) && Routed(s, p) && Safe(ViewOf(s, p))
    ensures Inv(Run(s, more)) && Routed(Run(s, more), p) && Safe(ViewOf(Run(s, more), p))
    decreases |more|
  {
    if more != [] {
      var before := more[..|more| - 1];
      SafeRun(s, p, before);
      StepInv(Run(s, before), more[|more| - 1]);
      SafeStep(Run(s, before), more[|more| - 1], p);
    }
  }

  lemma SafeNeverTouched(s: State, p: Player)
    requires Inv(s) && Routed(s, p) && Safe(ViewOf(s, p))
    ensures !LoginTouchesFreed(s, p)
  {
    assert PlayerOk(s, p);
    SafeIsUntouched(ViewOf(s, p), p, s.route(p));
    if p in Touched(s, 0) { WorkingServes(s, 0); }
  }

  // ---------------------------------------------------------------- how the thread gets there

  function Rank(pc: Pc): nat {
    match pc
    case Ready => 11
    case Forward(_) => 1
    case Erase => 4
    case CountDown => 3
    case Release => 2
    case CountUp => 1
    case Handing => 10
    case Store => 9
    case Depart => 8
    case DepartCount => 7
    case Reply => 6
  }

  /** What a content thread has still to do about the jobs it knows of. */
  function Effort(group: Group): nat {
    16 * |Queue(group)| + Rank(group.pc) + (if group.local == [] then 1 else 0)
  }

  lemma PostElsewhere(s: State, h: nat, job: Job, g: nat)
    requires g < |s.groups| && h != g
    ensures |Post(s, h, job).groups| == |s.groups| && Post(s, h, job).groups[g] == s.groups[g]
  {
  }

  lemma PoppedEffort(group: Group, count: int)
    requires group.local != []
    ensures Effort(Popped(group).(count := count)) < Effort(group)
  {
  }

  /** A step that goes on with the job at hand, or is done with it, and leaves the queue alone otherwise. */
  lemma HeadwayOn(s: State, g: nat, ok: bool)
    requires g < |s.groups| && s.groups[g].local != []
    requires !s.groups[g].pc.Forward? && !s.groups[g].pc.Handing? && !s.groups[g].pc.Ready?
    ensures |Work(s, g, ok).groups| == |s.groups| && Effort(Work(s, g, ok).groups[g]) < Effort(s.groups[g])
  {
    var group := s.groups[g];
    PoppedEffort(group, if group.pc.CountUp? then group.count + 1 else group.count);
  }

  lemma HeadwayReady(s: State, g: nat, ok: bool)
    requires g < |s.groups| && s.groups[g].local != [] && s.groups[g].pc.Ready?
    ensures |Work(s, g, ok).groups| == |s.groups| && Effort(Work(s, g, ok).groups[g]) < Effort(s.groups[g])
  {
    PoppedEffort(s.groups[g], s.groups[g].count);
  }

  lemma HeadwayPosting(s: State, g: nat, ok: bool)
    requires Serving(s, g) && (s.groups[g].pc.Forward? || s.groups[g].pc.Handing?)
    ensures |Work(s, g, ok).groups| == |s.groups| && Effort(Work(s, g, ok).groups[g]) < Effort(s.groups[g])
  {
    var p, pc := Front(s, g), s.groups[g].pc;
    PoppedEffort(s.groups[g], s.groups[g].count);
    if pc.Forward? { PostElsewhere(Pop(s, g), pc.to.g, Leave(p), g); }
    else { PostElsewhere(GoOn(s, g, Store), s.route(p), Enter(p), g); }
  }

  /** A content thread with a job makes headway, and gives itself no new job. */
  lemma Headway(s: State, g: nat, ok: bool)
    requires Inv(s) && g < |s.groups| && Queue(s.groups[g]) != []
    ensures |TurnOf(s, g, ok).groups| == |s.groups| && Effort(TurnOf(s, g, ok).groups[g]) < Effort(s.groups[g])
  {
    var pc := s.groups[g].pc;
    if s.groups[g].local == [] {
      DrainEffort(s.groups[g]);
    } else if pc.Forward? || pc.Handing? {
      WorkingServes(s, g);
      HeadwayPosting(s, g, ok);
    } else if pc.Ready? {
      HeadwayReady(s, g, ok);
    } else {
      HeadwayOn(s, g, ok);
    }
  }

  lemma DrainEffort(group: Group)
    requires group.local == [] && Queue(group) != []
    ensures Effort(group.(local := group.mail, mail := [])) < Effort(group)
  {
    assert group.mail + [] == group.mail && [] + group.mail == group.mail;
  }

  /** A set of states that is closed under all steps. */
  ghost predicate Closed(r: iset<State>) { forall s: State, e: Event :: s in r ==> Step(s, e) in r }

  /** A turn of one group as player `p` sees it. */
  lemma TurnView(s: State, g: nat, p: Player)
    requires Inv(s) && g < |s.groups|
    ensures Inv(TurnOf(s, g, true)) && SameShape(s, TurnOf(s, g, true)) && Routed(s, p)
    ensures ViewOf(TurnOf(s, g, true), p) ==
            if s.groups[g].local != [] && Routed(s, Front(s, g)) && Pending(SideAt(s, g))
            then Served(s, g, true, p) else ViewOf(s, p)
  {
    StepInv(s, Turn(g, true));
    assert PlayerOk(s, p);
    if s.groups[g].local == [] {
      assert GroupOk(s.groups[g], g, s.route);
      DrainSide(s.groups[g], p);
      PutView(s, g, s.groups[g].(local := s.groups[g].mail, mail := []), p);
    } else {
      WorkingServes(s, g);
      WorkView(s, g, true, p);
    }
  }

  lemma PendingIsQueued(s: State, g: nat, p: Player)
    requires Inv(s) && g < |s.groups| && Pending(SideOf(s.groups[g], p))
    ensures Queue(s.groups[g]) != []
  {
    assert GroupOk(s.groups[g], g, s.route);
    AwaitsIsPending(s.groups[g], p);
  }

  lemma EchoTokenPends(v: View, p: Player, target: nat)
    requires ViewOk(v, p, target) && Left(v.echo.posted) && Pending(v.login)
    ensures v.freed > 0 || Pending(v.echo)
  {
  }

  /** The shard has the LEAVE of player `p`, and the login group a job about `p`. */
  ghost predicate Racing(s: State, p: Player) {
    Inv(s) && Routed(s, p) && Left(ViewOf(s, p).echo.posted) && Pending(ViewOf(s, p).login)
  }

  lemma RacesOn(s: State, p: Player)
    requires Racing(s, p) && s.freed[p] == 0
    ensures var s', g := TurnOf(s, s.route(p), true), s.route(p);
            && Racing(s', p) && s'.route == s.route && Effort(s'.groups[g]) < Effort(s.groups[g])
  {
    var g := s.route(p);
    assert PlayerOk(s, p);
    EchoTokenPends(ViewOf(s, p), p, g);
    PendingIsQueued(s, g, p);
    TurnView(s, g, p);
    Headway(s, g, true);
  }

  /** Left alone with its LEAVE, the shard gives the player back while the login group still has a job. */
  lemma ShardGivesBack(r: iset<State>, s: State, p: Player) returns (s': State)
    requires Closed(r) && s in r && Racing(s, p)
    ensures s' in r && Racing(s', p) && s'.freed[p] > 0
    decreases Effort(s.groups[s.route(p)])
  {
    if s.freed[p] > 0 { return s; }
    RacesOn(s, p);
    assert Step(s, Turn(s.route(p), true)) in r;
    s' := ShardGivesBack(r, TurnOf(s, s.route(p), true), p);
  }

  /** The player is back in the pool, and the login group has a job about it. */
  ghost predicate Overdue(s: State, p: Player) {
    Inv(s) && Routed(s, p) && s.freed[p] > 0 && Pending(ViewOf(s, p).login)
  }

  lemma GetsNearer(s: State, p: Player)
    requires Overdue(s, p) && !LoginTouchesFreed(s, p)
    ensures var s' := TurnOf(s, 0, true); Overdue(s', p) && Effort(s'.groups[0]) < Effort(s.groups[0])
  {
    PendingIsQueued(s, 0, p);
    TurnView(s, 0, p);
    Headway(s, 0, true);
  }

  /** Then the login thread works its way to that job. */
  lemma LoginGetsThere(r: iset<State>, s: State, p: Player) returns (s': State)
    requires Closed(r) && s in r && Overdue(s, p)
    ensures s' in r && LoginTouchesFreed(s', p)
    decreases Effort(s.groups[0])
  {
    if LoginTouchesFreed(s, p) { return s; }
    GetsNearer(s, p);
    assert Step(s, Turn(0, true)) in r;
    s' := LoginGetsThere(r, TurnOf(s, 0, true), p);
  }

  // ---------------------------------------------------------------- the condition

  lemma RunOn(s: State, more: seq<Event>, e: Event)
    ensures Run(s, more + [e]) == Step(Run(s, more), e)
  {
    assert (more + [e])[..|more|] == more;
  }

  /** At the moment OnClientLeave takes a player off the map, with no packet on its way: the login thread can
    * ever meet that player after it was given back exactly when the player has moved to its shard and the
    * login group still has a job about it.
    */
  lemma LoginMeetsFreedIff(s: State, p: Player)
    requires Reachable(s) && s.writer.NoWriter? && NoReaders(s) && p in s.registered
    ensures s.groups != []
    ensures (exists more: seq<Event> :: LoginTouchesFreed(Run(LeaveStep(s, p), more), p)) <==>
            Locate(s, p) != At(0) && Awaits(s.groups[0], p)
  {
    ReachableInv(s);
    assert PlayerOk(s, p) && GroupOk(s.groups[0], 0, s.route);
    AwaitsIsPending(s.groups[0], p);
    var s1 := LeaveStep(s, p);
    StartLeaveInv(s, p);
    assert ViewOf(s1, p) == StartsLeave(ViewOf(s, p), p);
    if Locate(s, p) != At(0) && Awaits(s.groups[0], p) {
      MeetsFreed(s1, p);
    } else {
      forall more: seq<Event> ensures !LoginTouchesFreed(Run(s1, more), p) {
        SafeRun(s1, p, more);
        SafeNeverTouched(Run(s1, more), p);
      }
    }
  }

  lemma PostsLeave(s: State, p: Player)
    requires Inv(s) && Routed(s, p) && s.writer == Leaving(p, At(s.route(p)))
    ensures Inv(LeaveStep(s, p)) && Routed(LeaveStep(s, p), p)
    ensures ViewOf(LeaveStep(s, p), p) == EndsLeave(ViewOf(s, p), p)
  {
    EndLeaveInv(s, p);
    EndLeaveView(s, p);
  }

  ghost predicate RunsTo(s: State, t: State) { exists more: seq<Event> :: Run(s, more) == t }

  lemma RunsToIsClosed(s: State, r: iset<State>)
    requires r == iset t: State | RunsTo(s, t)
    ensures Closed(r) && s in r
  {
    assert Run(s, []) == s;
    forall t: State, e: Event | t in r ensures Step(t, e) in r {
      var more: seq<Event> :| Run(s, more) == t;
      RunOn(s, more, e);
    }
  }

  lemma Meets(r: iset<State>, s: State, p: Player) returns (s': State)
    requires Closed(r) && s in r
    requires Inv(s) && Routed(s, p) && s.writer == Leaving(p, At(s.route(p))) && Pending(ViewOf(s, p).login)
    ensures s' in r && LoginTouchesFreed(s', p)
  {
    PostsLeave(s, p);
    assert Step(s, OnLeave(p)) in r;
    var s1 := ShardGivesBack(r, LeaveStep(s, p), p);
    s' := LoginGetsThere(r, s1, p);
  }

  lemma MeetsFreed(s: State, p: Player)
    requires Inv(s) && Routed(s, p) && s.writer == Leaving(p, At(s.route(p))) && Pending(ViewOf(s, p).login)
    ensures exists more: seq<Event> :: LoginTouchesFreed(Run(s, more), p)
  {
    var r := iset t: State | RunsTo(s, t);
    RunsToIsClosed(s, r);
    var s' := Meets(r, s, p);
    var more: seq<Event> :| Run(s, more) == s';
    assert LoginTouchesFreed(Run(s, more), p);
  }
}
