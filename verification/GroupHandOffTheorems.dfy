/** What the hand-off invariant means for every run: what each group is told of each player, in which
  * order, and who gives the player back to its pool.
  */
module GroupHandOffTheorems {

  import opened Common
  import opened GroupHandOff
  import opened GroupHandOffInvariant
  import opened GroupHandOffRuns

  ghost predicate Reachable(s: State) {
    exists shards: nat, readers: nat, events: seq<Event> ::
      shards > 0 && Run(Init(shards, readers), events) == s
  }

  lemma ReachableInv(s: State)
    requires Reachable(s)
    ensures Inv(s)
  {
    var shards: nat, readers: nat, events: seq<Event> :|
      shards > 0 && Run(Init(shards, readers), events) == s;
    RunInv(shards, readers, events);
  }

  /** Entry first, then packets, then at most one LEAVE. */
  predicate InOrder(jobs: seq<Job>, entry: Job) { jobs == [] || Opens(jobs, entry) }

  /** Whichever way the disconnect races with the login, the shard's mailbox sees of each player
    * GROUP_ENTER, then PACKETs, then at most one LEAVE; the login group sees JOIN in place of GROUP_ENTER,
    * and no group but these two is ever told of the player.
    */
  lemma MailboxOrder(s: State, p: Player, g: nat)
    requires Reachable(s) && g < |s.groups|
    ensures var told := Mine(p, s.groups[g].posted);
            if g == 0 then InOrder(told, Join(p))
            else if g == s.route(p) then InOrder(told, Enter(p))
            else told == []
  {
    ReachableInv(s);
    assert PlayerOk(s, p) && GroupOk(s.groups[g], g, s.route);
    if g != 0 && g != s.route(p) { NotTold(s.groups[g].posted, p); }
  }

  lemma {:induction false} NotTold(jobs: seq<Job>, p: Player)
    requires forall k: nat :: k < |jobs| ==> jobs[k].p != p
    ensures Mine(p, jobs) == []
  {
    if jobs != [] { NotTold(jobs[1..], p); }
  }

  /** Jobs are taken in the order in which they were posted. */
  lemma MailboxIsFifo(s: State, g: nat)
    requires Reachable(s) && g < |s.groups|
    ensures s.groups[g].posted == Taken(s.groups[g]) + s.groups[g].local + s.groups[g].mail
  {
    ReachableInv(s);
    assert GroupOk(s.groups[g], g, s.route);
    assert Taken(s.groups[g]) + Queue(s.groups[g]) == Taken(s.groups[g]) + s.groups[g].local + s.groups[g].mail;
  }

  /** A shard works only on players that entered it and were not given back: a packet or a LEAVE finds the
    * player in mPlayers, an entry finds it absent.
    */
  lemma ShardKnowsItsPlayers(s: State, g: nat)
    requires Reachable(s) && 0 < g < |s.groups| && s.groups[g].local != []
    ensures s.freed[Front(s, g)] == 0 && g == s.route(Front(s, g))
    ensures s.groups[g].pc.Ready? ==>
              (Front(s, g) in s.groups[g].members <==>
               s.groups[g].local[0].Packet? || s.groups[g].local[0].Leave?)
  {
    ReachableInv(s);
    WorkingServes(s, g);
    assert PlayerOk(s, Front(s, g));
  }

  /** The next access of the login thread dereferences player `p`, which is back in the pool. */
  predicate LoginTouchesFreed(s: State, p: Player) { p in Touched(s, 0) && s.freed[p] > 0 }

  /** The login thread works on a player that was given back only in a PACKET job, after it has stored the
    * shard in mGroup; from then on it posts no job about it and stores no group.
    */
  lemma LoginOutlivesOnlyTheMoved(s: State, p: Player, ok: bool)
    requires Reachable(s) && LoginTouchesFreed(s, p)
    ensures Locate(s, p) == At(s.route(p)) && s.groups[0].local[0].Packet?
    ensures var s' := Step(s, Turn(0, ok));
            && s'.at == s.at && s'.freed == s.freed
            && |s'.groups| == |s.groups|
            && forall g: nat :: g < |s.groups| ==> s'.groups[g].posted == s.groups[g].posted
  {
    ReachableInv(s);
    WorkingServes(s, 0);
    assert PlayerOk(s, p);
    AfterFreed(ViewOf(s, p), p, s.route(p));
  }

  lemma AfterFreed(v: View, p: Player, target: nat)
    requires ViewOk(v, p, target) && v.joined && v.freed > 0 && Pending(v.login)
    ensures v.here == At(target) && v.login.posted[v.login.done].Packet?
    ensures v.login.pc in {Ready, Depart, DepartCount, Reply}
  {
  }

  /** Each session has one LEAVE to its name: not asked for yet, being posted, queued in one group, or
    * carried out; so its player is given back at most once.
    */
  lemma LeavesOnce(s: State, p: Player)
    requires Reachable(s) && p in s.joined
    ensures Routed(s, p)
    ensures var login, echo := ViewOf(s, p).login, ViewOf(s, p).echo;
            One(p in s.registered) + One(s.writer.Leaving? && s.writer.p == p)
            + One(Left(login.posted) && Pending(login)) + One(Left(echo.posted) && Pending(echo)) + s.freed[p] == 1
  {
    ReachableInv(s);
    assert PlayerOk(s, p);
  }

  /** The group that takes a player out finds it in its own mPlayers, and only then gives it back. */
  lemma FreeingGroupFindsPlayer(s: State, g: nat)
    requires Reachable(s) && g < |s.groups| && s.groups[g].local != []
    ensures s.groups[g].pc.Erase? ==>
              Front(s, g) in s.groups[g].members && Locate(s, Front(s, g)) == At(g) && s.freed[Front(s, g)] == 0
    ensures s.groups[g].pc.Release? ==>
              Front(s, g) !in s.groups[g].members && Locate(s, Front(s, g)) == At(g) && s.freed[Front(s, g)] == 0
  {
    ReachableInv(s);
    WorkingServes(s, g);
    assert PlayerOk(s, Front(s, g));
    TakingOut(ViewOf(s, Front(s, g)), Front(s, g), s.route(Front(s, g)));
  }

  lemma TakingOut(v: View, p: Player, target: nat)
    requires ViewOk(v, p, target) && v.joined && target > 0
    ensures v.login.pc.Erase? ==> v.login.member && v.here == At(0) && v.freed == 0
    ensures v.login.pc.Release? ==> !v.login.member && v.here == At(0) && v.freed == 0
    ensures v.echo.pc.Erase? ==> v.echo.member && v.here == At(target) && v.freed == 0
    ensures v.echo.pc.Release? ==> !v.echo.member && v.here == At(target) && v.freed == 0
  {
  }

  /** A LEAVE is forwarded from the login group to the player's shard only, and at most once. */
  lemma ForwardsOnce(s: State, g: nat)
    requires Reachable(s) && g < |s.groups| && s.groups[g].local != [] && s.groups[g].pc.Forward?
    ensures Routed(s, Front(s, g)) && g == 0 && s.groups[g].pc.to == At(s.route(Front(s, g)))
    ensures forall k: nat :: k < |Mine(Front(s, g), s.groups[s.route(Front(s, g))].posted)| ==>
              !Mine(Front(s, g), s.groups[s.route(Front(s, g))].posted)[k].Leave?
  {
    ReachableInv(s);
    WorkingServes(s, g);
    assert PlayerOk(s, Front(s, g));
    NotForwarded(ViewOf(s, Front(s, g)), Front(s, g), s.route(Front(s, g)));
  }

  lemma NotForwarded(v: View, p: Player, target: nat)
    requires ViewOk(v, p, target) && v.login.pc.Forward?
    ensures forall k: nat :: k < |v.echo.posted| ==> !v.echo.posted[k].Leave?
  {
    forall k: nat | k < |v.echo.posted| ensures !v.echo.posted[k].Leave? {
      if k > 0 { assert v.echo.posted[k] == v.echo.posted[1..][k - 1]; }
    }
  }

  /** Between jobs mPlayerCount is the size of mPlayers. */
  lemma CountIsSize(s: State, g: nat)
    requires Reachable(s) && g < |s.groups| && s.groups[g].pc.Ready?
    ensures s.groups[g].count == |s.groups[g].members|
  {
    ReachableInv(s);
    assert GroupOk(s.groups[g], g, s.route);
  }

  /** A player is in the mPlayers of both groups only while the login thread is handing it over. */
  lemma OneHome(s: State, p: Player)
    requires Reachable(s) && Routed(s, p) && p in s.groups[0].members && p in s.groups[s.route(p)].members
    ensures s.groups[0].local != [] && Front(s, 0) == p && (s.groups[0].pc.Store? || s.groups[0].pc.Depart?)
  {
    ReachableInv(s);
    assert PlayerOk(s, p);
  }

  // ---------------------------------------------------------------- the limit of the login group's safety

  lemma Next(s: State, e: Event)
    requires Reachable(s)
    ensures Reachable(Step(s, e))
  {
    var shards: nat, readers: nat, events: seq<Event> :|
      shards > 0 && Run(Init(shards, readers), events) == s;
    assert (events + [e])[..|events + [e]| - 1] == events;
    assert Run(Init(shards, readers), events + [e]) == Step(s, e);
  }

  // One shard, one reader and player 0.
  function Two(login: Group, shard: Group, at: nat, registered: set<Player>, r: Reader, w: Writer): State {
    State([login, shard], Route(1), map[0 := at], registered, [r], w, {0}, multiset{})
  }

  lemma Loads(login: Group, shard: Group, k: nat)
    requires Reachable(Two(login, shard, 0, {0}, Outside, NoWriter))
    ensures Reachable(Two(login, shard, 0, {0}, Loaded(0, k, At(0)), NoWriter))
  {
    var e, s0 := OnRecv(0, 0, k), Two(login, shard, 0, {0}, Outside, NoWriter);
    Next(s0, e);
    var s1 := Two(login, shard, 0, {0}, Found(0, k), NoWriter);
    assert s0.readers[0 := Found(0, k)] == s1.readers;
    Next(s1, e);
    assert s1.readers[0 := Loaded(0, k, At(0))] == [Loaded(0, k, At(0))];
  }

  lemma Receives(login: Group, shard: Group, k: nat)
    requires Reachable(Two(login, shard, 0, {0}, Outside, NoWriter))
    ensures Reachable(Two(login.(mail := login.mail + [Packet(0, k)], posted := login.posted + [Packet(0, k)]), shard,
                          0, {0}, Outside, NoWriter))
  {
    Loads(login, shard, k);
    var e, s := OnRecv(0, 0, k), Two(login, shard, 0, {0}, Loaded(0, k, At(0)), NoWriter);
    Next(s, e);
    assert s.readers[0 := Outside] == [Outside];
    var login' := login.(mail := login.mail + [Packet(0, k)], posted := login.posted + [Packet(0, k)]);
    assert Step(s, e).groups == [login', shard];
  }

  predicate Goes(login: Group, shard: Group, at: nat, registered: set<Player>, g: nat, group: Group) {
    var s := TurnOf(Two(login, shard, at, registered, Outside, NoWriter), g, true);
    s.groups == (if g == 0 then [group, shard] else [login, group]) && s.at == map[0 := at] && s.freed == multiset{} &&
    s.registered == registered && s.readers == [Outside] && s.writer == NoWriter && s.joined == {0}
  }

  lemma LoginTurn(login: Group, shard: Group, at: nat, registered: set<Player>, group: Group)
    requires Reachable(Two(login, shard, at, registered, Outside, NoWriter))
    requires Goes(login, shard, at, registered, 0, group)
    ensures Reachable(Two(group, shard, at, registered, Outside, NoWriter))
  {
    Next(Two(login, shard, at, registered, Outside, NoWriter), Turn(0, true));
    TurnKeepsRoute(Two(login, shard, at, registered, Outside, NoWriter), 0);
  }

  lemma ShardTurn(login: Group, shard: Group, at: nat, registered: set<Player>, group: Group)
    requires Reachable(Two(login, shard, at, registered, Outside, NoWriter))
    requires Goes(login, shard, at, registered, 1, group)
    ensures Reachable(Two(login, group, at, registered, Outside, NoWriter))
  {
    Next(Two(login, shard, at, registered, Outside, NoWriter), Turn(1, true));
    TurnKeepsRoute(Two(login, shard, at, registered, Outside, NoWriter), 1);
  }

  lemma TurnKeepsRoute(s: State, g: nat)
    ensures TurnOf(s, g, true).route == s.route
  {
  }

  const IDLE: Group := Group([], [], {}, 0, Ready, [])

  lemma Joined()
    ensures Reachable(Two(IDLE.(mail := [Join(0)], posted := [Join(0)]), IDLE, 0, {0}, Outside, NoWriter))
  {
    var s := Init(1, 1);
    assert Run(s, []) == s;
    Next(s, OnJoin(0));
    assert s.groups == [IDLE, IDLE] && s.readers == [Outside];
    assert IDLE.mail + [Join(0)] == [Join(0)] == IDLE.posted + [Join(0)];
    assert Step(s, OnJoin(0)).groups == [IDLE.(mail := [Join(0)], posted := [Join(0)]), IDLE];
    assert s.at[0 := 0] == map[0 := 0] && s.registered + {0} == {0} == s.joined + {0};
  }

  // The login group with two packets of player 0 drained behind its JOIN, then in each step up to the
  // one that posts GROUP_ENTER; and after the hand-over, with the second packet still in hand.
  const JOBS: seq<Job> := [Join(0), Packet(0, 1), Packet(0, 2)]
  const QUEUED: Group := IDLE.(mail := JOBS, posted := JOBS)
  const DRAINED: Group := IDLE.(local := JOBS, posted := JOBS)
  const ENTERED: Group := DRAINED.(members := {0}, pc := CountUp)
  const MEMBER: Group := DRAINED.(local := [Packet(0, 1), Packet(0, 2)], members := {0}, count := 1)
  const MOVED: Group := DRAINED.(local := [Packet(0, 2)])

  lemma Enrolls()
    ensures Goes(QUEUED, IDLE, 0, {0}, 0, DRAINED) && Goes(DRAINED, IDLE, 0, {0}, 0, ENTERED)
    ensures Goes(ENTERED, IDLE, 0, {0}, 0, MEMBER)
  {
    assert DRAINED.members + {0} == {0} && JOBS[1..] == MEMBER.local;
  }

  lemma Drained()
    ensures Reachable(Two(DRAINED, IDLE, 0, {0}, Outside, NoWriter))
  {
    var one := IDLE.(mail := [Join(0)], posted := [Join(0)]);
    Joined();
    Receives(one, IDLE, 1);
    var two := one.(mail := one.mail + [Packet(0, 1)], posted := one.posted + [Packet(0, 1)]);
    Receives(two, IDLE, 2);
    assert two.mail + [Packet(0, 2)] == JOBS == two.posted + [Packet(0, 2)];
    Enrolls();
    LoginTurn(QUEUED, IDLE, 0, {0}, DRAINED);
  }

  lemma Queued()
    ensures Reachable(Two(MEMBER.(pc := Handing), IDLE, 0, {0}, Outside, NoWriter))
  {
    Drained();
    Enrolls();
    LoginTurn(DRAINED, IDLE, 0, {0}, ENTERED);
    LoginTurn(ENTERED, IDLE, 0, {0}, MEMBER);
    assert Goes(MEMBER, IDLE, 0, {0}, 0, MEMBER.(pc := Handing));
    LoginTurn(MEMBER, IDLE, 0, {0}, MEMBER.(pc := Handing));
  }

  const TOLD: Group := IDLE.(mail := [Enter(0)], posted := [Enter(0)])

  lemma Posts()
    ensures Reachable(Two(MEMBER.(pc := Store), TOLD, 0, {0}, Outside, NoWriter))
  {
    Queued();
    var s := Two(MEMBER.(pc := Handing), IDLE, 0, {0}, Outside, NoWriter);
    Next(s, Turn(0, true));
    assert IDLE.mail + [Enter(0)] == [Enter(0)] == IDLE.posted + [Enter(0)];
    assert Step(s, Turn(0, true)).groups == [MEMBER.(pc := Store), TOLD];
  }

  lemma Stores()
    ensures Reachable(Two(MEMBER.(pc := Depart), TOLD, 1, {0}, Outside, NoWriter))
  {
    Posts();
    var s := Two(MEMBER.(pc := Store), TOLD, 0, {0}, Outside, NoWriter);
    Next(s, Turn(0, true));
    assert Step(s, Turn(0, true)).groups == [MEMBER.(pc := Depart), TOLD];
    assert s.at[0 := 1] == map[0 := 1];
  }

  const DEPARTING: Group := MEMBER.(members := {}, pc := DepartCount)

  lemma Departs()
    ensures Goes(MEMBER.(pc := Depart), TOLD, 1, {0}, 0, DEPARTING)
    ensures Goes(DEPARTING, TOLD, 1, {0}, 0, DEPARTING.(count := 0, pc := Reply))
    ensures Goes(DEPARTING.(count := 0, pc := Reply), TOLD, 1, {0}, 0, MOVED)
  {
    assert MEMBER.members - {0} == {} && MEMBER.local[1..] == MOVED.local;
  }

  lemma HandedOver()
    ensures Reachable(Two(MOVED, TOLD, 1, {0}, Outside, NoWriter))
  {
    Stores();
    Departs();
    LoginTurn(MEMBER.(pc := Depart), TOLD, 1, {0}, DEPARTING);
    LoginTurn(DEPARTING, TOLD, 1, {0}, DEPARTING.(count := 0, pc := Reply));
    LoginTurn(DEPARTING.(count := 0, pc := Reply), TOLD, 1, {0}, MOVED);
  }

  const ALL: seq<Job> := [Enter(0), Leave(0)]
  const TOLD_ALL: Group := IDLE.(mail := ALL, posted := ALL)
  const HOSTING: Group := IDLE.(local := ALL, posted := ALL)
  const HOST: Group := IDLE.(local := [Leave(0)], members := {0}, count := 1, posted := ALL)
  const LEFT: Group := HOST.(members := {}, pc := CountDown)

  lemma StartsLeaving(login: Group, shard: Group)
    requires Reachable(Two(login, shard, 1, {0}, Outside, NoWriter))
    ensures Reachable(Two(login, shard, 1, {}, Outside, Leaving(0, At(1))))
  {
    var s := Two(login, shard, 1, {0}, Outside, NoWriter);
    Next(s, OnLeave(0));
    assert s.registered - {0} == {};
  }

  lemma Leaves(login: Group, shard: Group)
    requires Reachable(Two(login, shard, 1, {}, Outside, Leaving(0, At(1))))
    ensures Reachable(Two(login, shard.(mail := shard.mail + [Leave(0)], posted := shard.posted + [Leave(0)]),
                          1, {}, Outside, NoWriter))
  {
    var s := Two(login, shard, 1, {}, Outside, Leaving(0, At(1)));
    Next(s, OnLeave(0));
  }

  lemma LeavePosted()
    ensures Reachable(Two(MOVED, TOLD_ALL, 1, {}, Outside, NoWriter))
  {
    HandedOver();
    StartsLeaving(MOVED, TOLD);
    Leaves(MOVED, TOLD);
    assert TOLD.mail + [Leave(0)] == ALL == TOLD.posted + [Leave(0)];
  }

  lemma Hosts()
    ensures Goes(MOVED, TOLD_ALL, 1, {}, 1, HOSTING)
    ensures Goes(MOVED, HOSTING, 1, {}, 1, HOSTING.(members := {0}, pc := CountUp))
    ensures Goes(MOVED, HOSTING.(members := {0}, pc := CountUp), 1, {}, 1, HOST)
  {
    assert HOSTING.members + {0} == {0} && ALL[1..] == [Leave(0)];
  }

  lemma Enters()
    ensures Reachable(Two(MOVED, HOST, 1, {}, Outside, NoWriter))
  {
    LeavePosted();
    Hosts();
    ShardTurn(MOVED, TOLD_ALL, 1, {}, HOSTING);
    ShardTurn(MOVED, HOSTING, 1, {}, HOSTING.(members := {0}, pc := CountUp));
    ShardTurn(MOVED, HOSTING.(members := {0}, pc := CountUp), 1, {}, HOST);
  }

  lemma TakesOut()
    ensures Goes(MOVED, HOST, 1, {}, 1, HOST.(pc := Erase)) && Goes(MOVED, HOST.(pc := Erase), 1, {}, 1, LEFT)
    ensures Goes(MOVED, LEFT, 1, {}, 1, LEFT.(count := 0, pc := Release))
  {
    assert HOST.members - {0} == {};
  }

  lemma TakenOut()
    ensures Reachable(Two(MOVED, LEFT.(count := 0, pc := Release), 1, {}, Outside, NoWriter))
  {
    Enters();
    TakesOut();
    ShardTurn(MOVED, HOST, 1, {}, HOST.(pc := Erase));
    ShardTurn(MOVED, HOST.(pc := Erase), 1, {}, LEFT);
    ShardTurn(MOVED, LEFT, 1, {}, LEFT.(count := 0, pc := Release));
  }

  lemma GivesBack()
    ensures var s := TurnOf(Two(MOVED, LEFT.(count := 0, pc := Release), 1, {}, Outside, NoWriter), 1, true);
            s.groups != [] && s.groups[0] == MOVED && s.freed[0] == 1
  {
  }

  lemma FrontIsTouched(s: State, p: Player)
    requires s.groups != [] && s.groups[0].local != [] && Front(s, 0) == p && s.freed[p] > 0
    ensures LoginTouchesFreed(s, p)
  {
  }

  /** A packet left in the login group's queue makes it work on a player that the shard has given back. */
  lemma LoginCanTouchAFreedPlayer()
    ensures exists s: State, p: Player :: Reachable(s) && LoginTouchesFreed(s, p)
  {
    TakenOut();
    GivesBack();
    var s := Two(MOVED, LEFT.(count := 0, pc := Release), 1, {}, Outside, NoWriter);
    Next(s, Turn(1, true));
    FrontIsTouched(TurnOf(s, 1, true), 0);
  }
}
