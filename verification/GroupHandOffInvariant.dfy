/** One player's view of the groups, and why every step of every thread keeps it in order. */
module GroupHandOffInvariant {

  import opened Common
  import opened GroupHandOff

  // ---------------------------------------------------------------- one player's view

  function Mine(p: Player, jobs: seq<Job>): seq<Job> {
    if jobs == [] then []
    else (if jobs[0].p == p then [jobs[0]] else []) + Mine(p, jobs[1..])
  }

  /** The jobs of a group that are not done with, the one at hand first. */
  function Queue(group: Group): seq<Job> { group.local + group.mail }

  /** The jobs that the content thread is done with. */
  function Taken(group: Group): seq<Job> {
    if |Queue(group)| <= |group.posted| then group.posted[..|group.posted| - |Queue(group)|] else []
  }

  function PcFor(group: Group, p: Player): Pc {
    if group.local != [] && group.local[0].p == p then group.pc else Ready
  }

  // A player as one group sees it: the jobs about it ever posted and how many of them are done with,
  // where the content thread is in a job about it, and whether it is in mPlayers.
  datatype Side = Side(posted: seq<Job>, done: nat, pc: Pc, member: bool)

  datatype View = View(
    joined: bool,
    listed: bool,        // in mPlayerMap
    here: Where,         // mGroup
    writer: Writer,      // its OnClientLeave, if that is under way
    login: Side,
    echo: Side,
    freed: nat)

  function SideOf(group: Group, p: Player): Side {
    Side(Mine(p, group.posted), |Mine(p, Taken(group))|, PcFor(group, p), p in group.members)
  }

  predicate Routed(s: State, p: Player) { 0 < s.route(p) < |s.groups| }

  function ViewOf(s: State, p: Player): View
    requires Routed(s, p)
  {
    View(p in s.joined, p in s.registered, Locate(s, p),
         if s.writer.Leaving? && s.writer.p == p then s.writer else NoWriter,
         SideOf(s.groups[0], p), SideOf(s.groups[s.route(p)], p), s.freed[p])
  }

  const NOTHING: Side := Side([], 0, Ready, false)

  /** Any packets, then at most one LEAVE. */
  predicate Tail(jobs: seq<Job>) {
    forall k: nat :: k < |jobs| ==> jobs[k].Packet? || (jobs[k].Leave? && k == |jobs| - 1)
  }

  predicate Opens(jobs: seq<Job>, first: Job) { jobs != [] && jobs[0] == first && Tail(jobs[1..]) }

  predicate Left(jobs: seq<Job>) { jobs != [] && jobs[|jobs| - 1].Leave? }

  predicate Pending(side: Side) { side.done < |side.posted| }

  /** The job at hand, or else the next one, is the LEAVE or the packet that the step needs. */
  predicate AtLeave(side: Side) { side.done < |side.posted| && side.posted[side.done].Leave? }

  predicate AtPacket(side: Side) { side.done < |side.posted| && side.posted[side.done].Packet? }

  /** The player is in `mPlayers` from its entry until it is taken out, and jobs come in posting order. */
  predicate SideOk(side: Side, out: bool) {
    && side.done <= |side.posted|
    && (side.done == 0 ==> side.pc in {Ready, CountUp} && side.member == side.pc.CountUp?)
    && (side.done > 0 ==> !side.pc.CountUp? && side.member == !out)
    && (!side.pc.Ready? ==> Pending(side))
    && (side.pc in {Erase, CountDown, Release} || side.pc.Forward? ==> AtLeave(side))
  }

  predicate LoginOk(v: View, target: nat) {
    var side := v.login;
    if v.here == At(0) then
      && side.pc in {Ready, CountUp, Erase, CountDown, Release, Handing, Store}
      && (side.pc.Handing? || side.pc.Store? ==> AtPacket(side))
      && SideOk(side, side.pc.CountDown? || side.pc.Release? || v.freed > 0)
      && (v.freed > 0 ==> !Pending(side))
      && (side.pc.Store? ==> |v.echo.posted| == 1)
      && (!side.pc.Store? ==> v.echo == NOTHING)
    else
      && v.here == At(target)
      && (side.pc in {Ready, Depart, DepartCount, Reply} || side.pc == Forward(At(target)))
      && (side.pc in {Depart, DepartCount, Reply} ==> AtPacket(side))
      && side.done > 0 && SideOk(side, !side.pc.Depart?)
      && v.echo.posted != []
  }

  predicate EchoOk(v: View) {
    v.echo.posted != [] ==>
      && v.echo.pc in {Ready, CountUp, Erase, CountDown, Release}
      && SideOk(v.echo, v.echo.pc.CountDown? || v.echo.pc.Release? || v.freed > 0)
      && (v.freed > 0 ==> !Pending(v.echo))
  }

  /** There is one LEAVE for the player: not called for yet, under way, posted to a group, or done. */
  predicate TokenOk(v: View) {
    && One(v.listed) + One(v.writer.Leaving?) + One(Left(v.login.posted) && Pending(v.login))
       + One(Left(v.echo.posted) && Pending(v.echo)) + v.freed == 1
    && (Left(v.login.posted) || Left(v.echo.posted) ==> !v.listed && v.writer.NoWriter?)
    && (Left(v.echo.posted) && Left(v.login.posted) ==> !Pending(v.login))
  }

  predicate ViewOk(v: View, p: Player, target: nat) {
    if !v.joined then v == View(false, false, Nowhere, NoWriter, NOTHING, NOTHING, 0)
    else
      && Opens(v.login.posted, Join(p)) && (v.echo.posted == [] || Opens(v.echo.posted, Enter(p)))
      && (v.writer.Leaving? ==> v.writer.p == p && (v.writer.w == At(0) || v.writer.w == At(target) == v.here))
      && LoginOk(v, target) && EchoOk(v) && TokenOk(v)
  }

  // ---------------------------------------------------------------- what a step does to the view

  function Posted(side: Side, job: Job): Side { side.(posted := side.posted + [job]) }

  function Done(side: Side): Side { side.(done := side.done + 1, pc := Ready) }

  function Joins(v: View, p: Player): View {
    v.(joined := true, listed := true, here := At(0), login := Posted(v.login, Join(p)))
  }

  function PostedTo(v: View, w: Where, job: Job): View {
    if w == At(0) then v.(login := Posted(v.login, job)) else v.(echo := Posted(v.echo, job))
  }

  function StartsLeave(v: View, p: Player): View { v.(listed := false, writer := Leaving(p, v.here)) }

  function EndsLeave(v: View, p: Player): View
    requires v.writer.Leaving?
  {
    PostedTo(v, v.writer.w, Leave(p)).(writer := NoWriter)
  }

  /** The content thread of a group does one access of the job at hand, which is about this player. */
  function Serve(side: Side, moving: bool, forward: Where): Side
    requires Pending(side)
  {
    match side.pc
    case Ready =>
      (match side.posted[side.done]
       case Join(_) => side.(member := true, pc := CountUp)
       case Enter(_) => side.(member := true, pc := CountUp)
       case Leave(_) => side.(pc := if forward == Nowhere then Erase else Forward(forward))
       case Packet(_, _) => if moving then side.(pc := Handing) else Done(side))
    case CountUp => Done(side)
    case Forward(_) => Done(side)
    case Erase => if side.member then side.(member := false, pc := CountDown) else side.(pc := Release)
    case CountDown => side.(pc := Release)
    case Release => Done(side)
    case Handing => side.(pc := Store)
    case Store => side.(pc := Depart)
    case Depart => if side.member then side.(member := false, pc := DepartCount) else side.(pc := Reply)
    case DepartCount => side.(pc := Reply)
    case Reply => Done(side)
  }

  function ServeLogin(v: View, p: Player, target: nat, ok: bool): View
    requires Pending(v.login)
  {
    var side := Serve(v.login, v.here == At(0) && ok, if v.here == At(0) then Nowhere else v.here);
    var v' := v.(login := side);
    match v.login.pc
    case Forward(_) => v'.(echo := Posted(v.echo, Leave(p)))
    case Release => v'.(freed := v.freed + 1)
    case Handing => v'.(echo := Posted(v.echo, Enter(p)))
    case Store => v'.(here := At(target))
    case _ => v'
  }

  function ServeEcho(v: View): View
    requires Pending(v.echo)
  {
    v.(echo := Serve(v.echo, false, Nowhere), freed := v.freed + One(v.echo.pc.Release?))
  }

  lemma JoinsOk(v: View, p: Player, target: nat)
    requires ViewOk(v, p, target) && !v.joined && target > 0
    ensures ViewOk(Joins(v, p), p, target)
  {
  }

  lemma PacketOk(v: View, p: Player, target: nat, w: Where, k: nat)
    requires ViewOk(v, p, target) && v.listed && target > 0 && (w == At(0) || w == At(target) == v.here)
    ensures ViewOk(PostedTo(v, w, Packet(p, k)), p, target)
  {
  }

  lemma StartsLeaveOk(v: View, p: Player, target: nat)
    requires ViewOk(v, p, target) && v.listed && target > 0
    ensures ViewOk(StartsLeave(v, p), p, target)
  {
  }

  lemma EndsLeaveOk(v: View, p: Player, target: nat)
    requires ViewOk(v, p, target) && v.writer.Leaving? && target > 0
    ensures ViewOk(EndsLeave(v, p), p, target)
  {
  }

  lemma DispatchOk(v: View, p: Player, target: nat, ok: bool)
    requires ViewOk(v, p, target) && Pending(v.login) && target > 0 && v.login.pc.Ready?
    ensures ViewOk(ServeLogin(v, p, target, ok), p, target)
  {
  }

  lemma HandsOverOk(v: View, p: Player, target: nat, ok: bool)
    requires ViewOk(v, p, target) && Pending(v.login) && target > 0
    requires v.login.pc in {Handing, Store, Depart, DepartCount, Reply}
    ensures ViewOk(ServeLogin(v, p, target, ok), p, target)
  {
  }

  lemma ForwardsOk(v: View, p: Player, target: nat, ok: bool)
    requires ViewOk(v, p, target) && Pending(v.login) && target > 0 && v.login.pc.Forward?
    ensures ViewOk(ServeLogin(v, p, target, ok), p, target)
  {
  }

  lemma TakesOutOk(v: View, p: Player, target: nat, ok: bool)
    requires ViewOk(v, p, target) && Pending(v.login) && target > 0
    requires v.login.pc.CountUp? || v.login.pc.Erase? || v.login.pc.CountDown? || v.login.pc.Release?
    ensures ViewOk(ServeLogin(v, p, target, ok), p, target)
  {
  }

  lemma ServeLoginOk(v: View, p: Player, target: nat, ok: bool)
    requires ViewOk(v, p, target) && Pending(v.login) && target > 0
    ensures ViewOk(ServeLogin(v, p, target, ok), p, target)
  {
    match v.login.pc
    case Ready => DispatchOk(v, p, target, ok);
    case Forward(_) => ForwardsOk(v, p, target, ok);
    case CountUp => TakesOutOk(v, p, target, ok);
    case Erase => TakesOutOk(v, p, target, ok);
    case CountDown => TakesOutOk(v, p, target, ok);
    case Release => TakesOutOk(v, p, target, ok);
    case _ => HandsOverOk(v, p, target, ok);
  }

  lemma ServeEchoOk(v: View, p: Player, target: nat)
    requires ViewOk(v, p, target) && Pending(v.echo) && target > 0
    ensures ViewOk(ServeEcho(v), p, target)
  {
  }

  // ---------------------------------------------------------------- one group

  predicate QueueOk(group: Group) {
    && |Queue(group)| <= |group.posted| && group.posted == Taken(group) + Queue(group)
    && (group.local == [] ==> group.pc.Ready?)
  }

  function Adjust(pc: Pc): int { if pc.CountUp? then -1 else if pc.CountDown? || pc.DepartCount? then 1 else 0 }

  /** A shard only hears of its own players, and the count is behind `mPlayers` by one access at most. */
  ghost predicate GroupOk(group: Group, g: nat, route: Player -> nat) {
    && QueueOk(group)
    && (forall k: nat :: k < |group.posted| ==>
          if g == 0 then !group.posted[k].Enter?
          else !group.posted[k].Join? && g == route(group.posted[k].p))
    && (g > 0 ==> forall p :: p in group.members ==> g == route(p))
    && group.count == |group.members| + Adjust(group.pc)
  }

  lemma {:induction false} MineAppend(p: Player, a: seq<Job>, b: seq<Job>)
    ensures Mine(p, a + b) == Mine(p, a) + Mine(p, b)
  {
    if a == [] {
      assert a + b == b;
    } else {
      MineAppend(p, a[1..], b);
      assert (a + b)[1..] == a[1..] + b;
    }
  }

  lemma MineOne(p: Player, job: Job)
    ensures Mine(p, [job]) == if job.p == p then [job] else []
  {
    assert Mine(p, []) == [];
  }

  lemma PostSide(group: Group, job: Job, p: Player)
    requires QueueOk(group)
    ensures var group' := group.(mail := group.mail + [job], posted := group.posted + [job]);
            && QueueOk(group')
            && SideOf(group', p) == if job.p == p then Posted(SideOf(group, p), job) else SideOf(group, p)
  {
    var group' := group.(mail := group.mail + [job], posted := group.posted + [job]);
    assert Queue(group') == Queue(group) + [job];
    assert Taken(group') == Taken(group);
    MineAppend(p, group.posted, [job]);
    MineOne(p, job);
  }

  lemma PopQueue(group: Group, count: int)
    requires QueueOk(group) && group.local != []
    ensures QueueOk(Popped(group).(count := count))
    ensures Taken(Popped(group).(count := count)) == Taken(group) + [group.local[0]]
  {
    assert Queue(group) == [group.local[0]] + Queue(Popped(group).(count := count));
  }

  lemma PopSide(group: Group, count: int, p: Player)
    requires QueueOk(group) && group.local != []
    ensures QueueOk(Popped(group).(count := count))
    ensures SideOf(Popped(group).(count := count), p) ==
            if group.local[0].p == p then Done(SideOf(group, p)) else SideOf(group, p)
  {
    PopQueue(group, count);
    MineAppend(p, Taken(group), [group.local[0]]);
    MineOne(p, group.local[0]);
  }

  lemma DrainSide(group: Group, p: Player)
    requires QueueOk(group) && group.local == []
    ensures var group' := group.(local := group.mail, mail := []);
            QueueOk(group') && SideOf(group', p) == SideOf(group, p)
  {
    var group' := group.(local := group.mail, mail := []);
    assert Queue(group') == Queue(group);
  }

  lemma EditSide(group: Group, group': Group, p: Player)
    requires QueueOk(group) && group.local != []
    requires group' == group.(members := group'.members, count := group'.count, pc := group'.pc)
    requires forall q :: q != group.local[0].p ==> (q in group'.members <==> q in group.members)
    ensures QueueOk(group')
    ensures SideOf(group', p) ==
            if group.local[0].p == p then SideOf(group, p).(pc := group'.pc, member := p in group'.members)
            else SideOf(group, p)
  {
    assert Queue(group') == Queue(group) && Taken(group') == Taken(group);
  }

  /** The job at hand is the next one that its player's side waits for. */
  lemma FrontSide(group: Group)
    requires QueueOk(group) && group.local != []
    ensures var p := group.local[0].p;
            var side := SideOf(group, p);
            Pending(side) && side.posted[side.done] == group.local[0] && side.pc == group.pc
  {
    var p := group.local[0].p;
    MineAppend(p, Taken(group), Queue(group));
    assert Queue(group)[0] == group.local[0];
    assert Mine(p, Queue(group)) == [group.local[0]] + Mine(p, Queue(group)[1..]);
  }
}
