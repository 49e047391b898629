/** The invariant of the hand-off machine over every run. */
module GroupHandOffRuns {

  import opened Common
  import opened GroupHandOff
  import opened GroupHandOffInvariant

  /** A reader works for a registered player and knows a group that the player was in. */
  predicate ReaderOk(s: State, r: Reader) {
    match r
    case Outside => true
    case Found(p, _) => p in s.registered
    case Loaded(p, _, w) =>
      p in s.registered && (w == At(0) || w == At(s.route(p)) == Locate(s, p))
  }

  ghost predicate LocksOk(s: State) {
    && (forall t: nat :: t < |s.readers| ==> ReaderOk(s, s.readers[t]))
    && (s.writer.Leaving? ==> NoReaders(s))
  }

  ghost predicate GroupsOk(s: State) {
    forall g: nat :: g < |s.groups| ==> GroupOk(s.groups[g], g, s.route)
  }

  ghost predicate PlayerOk(s: State, p: Player) {
    Routed(s, p) && ViewOk(ViewOf(s, p), p, s.route(p))
  }

  ghost predicate Inv(s: State) {
    GroupsOk(s) && LocksOk(s) && forall p: Player :: PlayerOk(s, p)
  }

  ghost predicate SameShape(s: State, s': State) { |s'.groups| == |s.groups| && s'.route == s.route }

  // ---------------------------------------------------------------- content threads

  ghost predicate Working(s: State, g: nat) { Inv(s) && g < |s.groups| && s.groups[g].local != [] }

  function Front(s: State, g: nat): Player
    requires g < |s.groups| && s.groups[g].local != []
  {
    s.groups[g].local[0].p
  }

  function SideAt(s: State, g: nat): Side
    requires g < |s.groups| && s.groups[g].local != [] && Routed(s, Front(s, g))
  {
    if g == 0 then ViewOf(s, Front(s, g)).login else ViewOf(s, Front(s, g)).echo
  }

  /** What the step of a content thread needs to know of the state. */
  ghost predicate Serving(s: State, g: nat) {
    && g < |s.groups| && s.groups[g].local != [] && Routed(s, Front(s, g))
    && QueueOk(s.groups[g]) && QueueOk(s.groups[s.route(Front(s, g))])
    && (g == 0 || g == s.route(Front(s, g)))
    && Pending(SideAt(s, g)) && SideAt(s, g).posted[SideAt(s, g).done] == s.groups[g].local[0]
    && SideAt(s, g).pc == s.groups[g].pc
    && (s.groups[g].pc.Forward? ==> g == 0 && s.groups[g].pc.to == At(s.route(Front(s, g))))
    && (s.groups[g].pc in {Handing, Store, Depart, DepartCount, Reply} ==> g == 0)
    && Locate(s, Front(s, g)) != Nowhere
    && (s.groups[g].local[0].Leave? && g > 0 ==> Locate(s, Front(s, g)) == At(g))
  }

  /** What a player's view tells the group that works on the player. */
  lemma ViewServes(v: View, p: Player, target: nat, g: nat)
    requires ViewOk(v, p, target) && target > 0 && (g == 0 || g == target)
    requires Pending(if g == 0 then v.login else v.echo)
    ensures var side := if g == 0 then v.login else v.echo;
            && v.joined && v.here != Nowhere
            && (side.pc.Forward? ==> g == 0 && side.pc.to == At(target))
            && (side.pc in {Handing, Store, Depart, DepartCount, Reply} ==> g == 0)
            && (side.posted[side.done].Leave? && g > 0 ==> v.here == At(g))
  {
  }

  lemma FrontIsHere(s: State, g: nat)
    requires g < |s.groups| && s.groups[g].local != [] && GroupOk(s.groups[g], g, s.route)
    ensures g == 0 || g == s.route(Front(s, g))
  {
    var group := s.groups[g];
    assert group.posted[|Taken(group)|] == Queue(group)[0] == group.local[0];
  }

  lemma WorkingServes(s: State, g: nat)
    requires Working(s, g)
    ensures Serving(s, g) && ViewOf(s, Front(s, g)).joined
  {
    var p := Front(s, g);
    assert PlayerOk(s, p);
    assert GroupOk(s.groups[g], g, s.route) && GroupOk(s.groups[s.route(p)], s.route(p), s.route);
    FrontIsHere(s, g);
    FrontSide(s.groups[g]);
    ViewServes(ViewOf(s, p), p, s.route(p), g);
  }

  function Served(s: State, g: nat, ok: bool, p: Player): View
    requires g < |s.groups| && s.groups[g].local != [] && Routed(s, p)
    requires Routed(s, Front(s, g)) && Pending(SideAt(s, g))
  {
    if p != Front(s, g) then ViewOf(s, p)
    else if g == 0 then ServeLogin(ViewOf(s, p), p, s.route(p), ok)
    else ServeEcho(ViewOf(s, p))
  }

  predicate Drops(s: State, g: nat, ok: bool)
    requires g < |s.groups| && s.groups[g].local != []
  {
    s.groups[g].local[0].Packet? && !(g == 0 && Locate(s, Front(s, g)) == At(0) && ok)
  }

  function WithSide(v: View, g: nat, side: Side): View { if g == 0 then v.(login := side) else v.(echo := side) }

  lemma PutView(s: State, g: nat, group: Group, p: Player)
    requires Routed(s, p) && g < |s.groups|
    ensures ViewOf(Put(s, g, group), p) ==
            if g == 0 || g == s.route(p) then WithSide(ViewOf(s, p), g, SideOf(group, p)) else ViewOf(s, p)
  {
  }

  lemma EditedView(s: State, g: nat, group: Group, p: Player)
    requires Serving(s, g) && Routed(s, p)
    requires group == s.groups[g].(members := group.members, count := group.count, pc := group.pc)
    requires forall q :: q != Front(s, g) ==> (q in group.members <==> q in s.groups[g].members)
    ensures ViewOf(Put(s, g, group), p) ==
            if p != Front(s, g) then ViewOf(s, p)
            else WithSide(ViewOf(s, p), g, SideAt(s, g).(pc := group.pc, member := p in group.members))
  {
    EditSide(s.groups[g], group, p);
    PutView(s, g, group, p);
  }

  lemma PoppedView(s: State, g: nat, count: int, p: Player)
    requires Serving(s, g) && Routed(s, p)
    ensures ViewOf(Put(s, g, Popped(s.groups[g]).(count := count)), p) ==
            if p != Front(s, g) then ViewOf(s, p) else WithSide(ViewOf(s, p), g, Done(SideAt(s, g)))
  {
    PopSide(s.groups[g], count, p);
    PutView(s, g, Popped(s.groups[g]).(count := count), p);
  }

  lemma PoppedPlain(s: State, g: nat, p: Player)
    requires Serving(s, g) && Routed(s, p)
    ensures ViewOf(Pop(s, g), p) ==
            if p != Front(s, g) then ViewOf(s, p) else WithSide(ViewOf(s, p), g, Done(SideAt(s, g)))
  {
    PoppedView(s, g, s.groups[g].count, p);
    assert Popped(s.groups[g]).(count := s.groups[g].count) == Popped(s.groups[g]);
  }

  function NextPc(pc: Pc, member: bool): Pc {
    if pc == Erase then (if member then CountDown else Release)
    else if pc == Depart then (if member then DepartCount else Reply)
    else if pc == CountDown then Release
    else Reply
  }

  function TakenOut(side: Side): Side { side.(pc := NextPc(side.pc, side.member), member := false) }

  lemma EraseServe(v: View, p: Player, target: nat, ok: bool)
    ensures Pending(v.login) && v.login.pc in {Erase, Depart} ==>
              ServeLogin(v, p, target, ok) == v.(login := TakenOut(v.login))
    ensures Pending(v.echo) && v.echo.pc.Erase? ==> ServeEcho(v) == v.(echo := TakenOut(v.echo))
  {
  }

  lemma EraseShape(s: State, g: nat, ok: bool)
    requires g < |s.groups| && s.groups[g].local != [] && s.groups[g].pc in {Erase, Depart}
    ensures var group, q := s.groups[g], Front(s, g);
            Work(s, g, ok) ==
            Put(s, g, group.(members := group.members - {q}, pc := NextPc(group.pc, q in group.members)))
  {
    var group, q := s.groups[g], Front(s, g);
    assert q !in group.members ==> group.members - {q} == group.members;
  }

  lemma EraseView(s: State, g: nat, ok: bool, p: Player)
    requires Serving(s, g) && Routed(s, p) && s.groups[g].pc in {Erase, Depart}
    ensures SameShape(s, Work(s, g, ok)) && ViewOf(Work(s, g, ok), p) == Served(s, g, ok, p)
  {
    var group, q := s.groups[g], Front(s, g);
    EraseShape(s, g, ok);
    EditedView(s, g, group.(members := group.members - {q}, pc := NextPc(group.pc, q in group.members)), p);
    EraseServe(ViewOf(s, q), q, s.route(q), ok);
  }

  lemma CountDownServe(v: View, p: Player, target: nat, ok: bool)
    ensures Pending(v.login) && v.login.pc in {CountDown, DepartCount} ==>
              ServeLogin(v, p, target, ok) == v.(login := v.login.(pc := NextPc(v.login.pc, false)))
    ensures Pending(v.echo) && v.echo.pc.CountDown? ==>
              ServeEcho(v) == v.(echo := v.echo.(pc := NextPc(v.echo.pc, false)))
  {
  }

  lemma CountDownShape(s: State, g: nat, ok: bool)
    requires g < |s.groups| && s.groups[g].local != [] && s.groups[g].pc in {CountDown, DepartCount}
    ensures var group := s.groups[g];
            Work(s, g, ok) == Put(s, g, group.(count := group.count - 1, pc := NextPc(group.pc, false)))
  {
  }

  lemma CountDownView(s: State, g: nat, ok: bool, p: Player)
    requires Serving(s, g) && Routed(s, p) && s.groups[g].pc in {CountDown, DepartCount}
    ensures SameShape(s, Work(s, g, ok)) && ViewOf(Work(s, g, ok), p) == Served(s, g, ok, p)
  {
    var group, q := s.groups[g], Front(s, g);
    CountDownShape(s, g, ok);
    EditedView(s, g, group.(count := group.count - 1, pc := NextPc(group.pc, false)), p);
    CountDownServe(ViewOf(s, q), q, s.route(q), ok);
  }

  lemma StoreView(s: State, g: nat, ok: bool, p: Player)
    requires Serving(s, g) && Routed(s, p) && s.groups[g].pc == Store
    ensures SameShape(s, Work(s, g, ok)) && ViewOf(Work(s, g, ok), p) == Served(s, g, ok, p)
  {
    EditedView(s, g, s.groups[g].(pc := Depart), p);
  }

  lemma DropView(s: State, g: nat, ok: bool, p: Player)
    requires Serving(s, g) && Routed(s, p) && s.groups[g].pc == Ready && Drops(s, g, ok)
    ensures SameShape(s, Work(s, g, ok)) && ViewOf(Work(s, g, ok), p) == Served(s, g, ok, p)
  {
    PoppedPlain(s, g, p);
  }

  lemma EnterView(s: State, g: nat, ok: bool, p: Player)
    requires Serving(s, g) && Routed(s, p)
    requires s.groups[g].pc == Ready && (s.groups[g].local[0].Join? || s.groups[g].local[0].Enter?)
    ensures SameShape(s, Work(s, g, ok)) && ViewOf(Work(s, g, ok), p) == Served(s, g, ok, p)
  {
    EditedView(s, g, s.groups[g].(members := s.groups[g].members + {Front(s, g)}, pc := CountUp), p);
  }

  lemma LeaveServe(v: View, p: Player, target: nat, ok: bool)
    requires v.here != Nowhere
    ensures Pending(v.login) && v.login.pc.Ready? && v.login.posted[v.login.done].Leave? ==>
              ServeLogin(v, p, target, ok) ==
              v.(login := v.login.(pc := if v.here == At(0) then Erase else Forward(v.here)))
    ensures Pending(v.echo) && v.echo.pc.Ready? && v.echo.posted[v.echo.done].Leave? ==>
              ServeEcho(v) == v.(echo := v.echo.(pc := Erase))
  {
  }

  lemma LeaveView(s: State, g: nat, ok: bool, p: Player)
    requires Serving(s, g) && Routed(s, p) && s.groups[g].pc == Ready && s.groups[g].local[0].Leave?
    ensures SameShape(s, Work(s, g, ok)) && ViewOf(Work(s, g, ok), p) == Served(s, g, ok, p)
  {
    var q := Front(s, g);
    var to := Locate(s, q);
    EditedView(s, g, s.groups[g].(pc := if to == At(g) then Erase else Forward(to)), p);
    LeaveServe(ViewOf(s, q), q, s.route(q), ok);
  }

  lemma LoginView(s: State, g: nat, ok: bool, p: Player)
    requires Serving(s, g) && Routed(s, p)
    requires s.groups[g].pc == Ready && s.groups[g].local[0].Packet? && !Drops(s, g, ok)
    ensures SameShape(s, Work(s, g, ok)) && ViewOf(Work(s, g, ok), p) == Served(s, g, ok, p)
  {
    EditedView(s, g, s.groups[g].(pc := Handing), p);
  }

  lemma ReadyView(s: State, g: nat, ok: bool, p: Player)
    requires Serving(s, g) && Routed(s, p) && s.groups[g].pc == Ready
    ensures SameShape(s, Work(s, g, ok)) && ViewOf(Work(s, g, ok), p) == Served(s, g, ok, p)
  {
    match s.groups[g].local[0]
    case Join(_) => EnterView(s, g, ok, p);
    case Enter(_) => EnterView(s, g, ok, p);
    case Leave(_) => LeaveView(s, g, ok, p);
    case Packet(_, _) => if Drops(s, g, ok) { DropView(s, g, ok, p); } else { LoginView(s, g, ok, p); }
  }

  lemma CountUpServe(v: View, p: Player, target: nat, ok: bool)
    ensures Pending(v.login) && v.login.pc.CountUp? ==>
              ServeLogin(v, p, target, ok) == v.(login := Done(v.login))
    ensures Pending(v.echo) && v.echo.pc.CountUp? ==> ServeEcho(v) == v.(echo := Done(v.echo))
  {
  }

  lemma CountUpShape(s: State, g: nat, ok: bool)
    requires g < |s.groups| && s.groups[g].local != [] && s.groups[g].pc == CountUp
    ensures Work(s, g, ok) == Put(s, g, Popped(s.groups[g]).(count := s.groups[g].count + 1))
  {
  }

  lemma CountUpView(s: State, g: nat, ok: bool, p: Player)
    requires Serving(s, g) && Routed(s, p) && s.groups[g].pc == CountUp
    ensures SameShape(s, Work(s, g, ok)) && ViewOf(Work(s, g, ok), p) == Served(s, g, ok, p)
  {
    var q := Front(s, g);
    CountUpShape(s, g, ok);
    PoppedView(s, g, s.groups[g].count + 1, p);
    CountUpServe(ViewOf(s, q), q, s.route(q), ok);
  }

  lemma ReplyView(s: State, g: nat, ok: bool, p: Player)
    requires Serving(s, g) && Routed(s, p) && s.groups[g].pc == Reply
    ensures SameShape(s, Work(s, g, ok)) && ViewOf(Work(s, g, ok), p) == Served(s, g, ok, p)
  {
    PoppedPlain(s, g, p);
  }

  lemma ReleaseView(s: State, g: nat, ok: bool, p: Player)
    requires Serving(s, g) && Routed(s, p) && s.groups[g].pc == Release
    ensures SameShape(s, Work(s, g, ok)) && ViewOf(Work(s, g, ok), p) == Served(s, g, ok, p)
  {
    PoppedPlain(s, g, p);
    assert ViewOf(Work(s, g, ok), p) == ViewOf(Pop(s, g), p).(freed := s.freed[p] + One(p == Front(s, g)));
  }

  lemma ForwardView(s: State, g: nat, ok: bool, p: Player)
    requires Serving(s, g) && Routed(s, p) && s.groups[g].pc.Forward?
    ensures SameShape(s, Work(s, g, ok)) && ViewOf(Work(s, g, ok), p) == Served(s, g, ok, p)
  {
    PopSide(s.groups[g], s.groups[g].count, p);
    assert Popped(s.groups[g]).(count := s.groups[g].count) == Popped(s.groups[g]);
    PostSide(s.groups[s.groups[g].pc.to.g], Leave(Front(s, g)), p);
  }

  lemma HandingView(s: State, g: nat, ok: bool, p: Player)
    requires Serving(s, g) && Routed(s, p) && s.groups[g].pc == Handing
    ensures SameShape(s, Work(s, g, ok)) && ViewOf(Work(s, g, ok), p) == Served(s, g, ok, p)
  {
    EditSide(s.groups[g], s.groups[g].(pc := Store), p);
    PostSide(s.groups[s.route(Front(s, g))], Enter(Front(s, g)), p);
  }

  lemma WorkView(s: State, g: nat, ok: bool, p: Player)
    requires Serving(s, g) && Routed(s, p)
    ensures SameShape(s, Work(s, g, ok)) && ViewOf(Work(s, g, ok), p) == Served(s, g, ok, p)
  {
    match s.groups[g].pc
    case Ready => ReadyView(s, g, ok, p);
    case Forward(_) => ForwardView(s, g, ok, p);
    case Handing => HandingView(s, g, ok, p);
    case Store => StoreView(s, g, ok, p);
    case CountUp => CountUpView(s, g, ok, p);
    case Release => ReleaseView(s, g, ok, p);
    case Reply => ReplyView(s, g, ok, p);
    case Erase => EraseView(s, g, ok, p);
    case Depart => EraseView(s, g, ok, p);
    case CountDown => CountDownView(s, g, ok, p);
    case DepartCount => CountDownView(s, g, ok, p);
  }

  lemma ServedViewOk(s: State, s': State, g: nat, ok: bool, p: Player)
    requires Working(s, g) && Serving(s, g) && SameShape(s, s') && Routed(s, p)
    requires ViewOf(s', p) == Served(s, g, ok, p)
    ensures PlayerOk(s', p)
  {
    assert PlayerOk(s, p);
    if p == Front(s, g) {
      if g == 0 {
        ServeLoginOk(ViewOf(s, p), p, s.route(p), ok);
      } else {
        ServeEchoOk(ViewOf(s, p), p, s.route(p));
      }
    }
  }

  lemma ServedOk(s: State, g: nat, ok: bool, p: Player)
    requires Working(s, g)
    ensures SameShape(s, Work(s, g, ok)) && PlayerOk(Work(s, g, ok), p)
  {
    WorkingServes(s, g);
    assert PlayerOk(s, p);
    WorkView(s, g, ok, p);
    ServedViewOk(s, Work(s, g, ok), g, ok, p);
  }

  // ---------------------------------------------------------------- groups after a step

  lemma PostGroup(group: Group, g: nat, route: Player -> nat, job: Job)
    requires GroupOk(group, g, route)
    requires if g == 0 then !job.Enter? else !job.Join? && g == route(job.p)
    ensures GroupOk(group.(mail := group.mail + [job], posted := group.posted + [job]), g, route)
  {
    PostSide(group, job, job.p);
  }

  lemma PopGroup(group: Group, count: int, g: nat, route: Player -> nat)
    requires GroupOk(group, g, route) && group.local != [] && count == |group.members|
    ensures GroupOk(Popped(group).(count := count), g, route)
  {
    PopSide(group, count, group.local[0].p);
  }

  lemma EditGroup(group: Group, members: set<Player>, count: int, pc: Pc, g: nat, route: Player -> nat)
    requires GroupOk(group, g, route) && group.local != [] && count == |members| + Adjust(pc)
    requires members <= group.members + {group.local[0].p}
    requires g > 0 ==> g == route(group.local[0].p)
    ensures GroupOk(group.(members := members, count := count, pc := pc), g, route)
  {
    var group' := group.(members := members, count := count, pc := pc);
    assert Queue(group') == Queue(group) && Taken(group') == Taken(group);
  }

  /** Whoever enters a group was not in its mPlayers before. */
  lemma EntersOnce(s: State, g: nat)
    requires Working(s, g) && s.groups[g].pc == Ready && !s.groups[g].local[0].Leave? && !s.groups[g].local[0].Packet?
    ensures Front(s, g) !in s.groups[g].members
  {
    WorkingServes(s, g);
    assert PlayerOk(s, Front(s, g));
  }

  /** The content thread of group `g` has a job at hand, and the group is in order. */
  ghost predicate AtWork(s: State, g: nat) {
    && g < |s.groups| && s.groups[g].local != [] && GroupOk(s.groups[g], g, s.route)
    && (g > 0 ==> g == s.route(Front(s, g)))
  }

  /** Only group `g` is touched, and it is in order again. */
  ghost predicate OnlyGroup(s: State, s': State, g: nat) {
    && SameShape(s, s') && g < |s.groups| && GroupOk(s'.groups[g], g, s.route)
    && forall h: nat :: h < |s.groups| && h != g ==> s'.groups[h] == s.groups[h]
  }

  lemma ErasedGroup(s: State, g: nat, ok: bool)
    requires AtWork(s, g) && s.groups[g].pc in {Erase, Depart}
    ensures OnlyGroup(s, Work(s, g, ok), g)
  {
    var group, q := s.groups[g], Front(s, g);
    var pc := Work(s, g, ok).groups[g].pc;
    EditGroup(group, if q in group.members then group.members - {q} else group.members, group.count, pc, g, s.route);
  }

  lemma CountedGroup(s: State, g: nat, ok: bool)
    requires AtWork(s, g) && s.groups[g].pc in {CountDown, DepartCount, Store}
    ensures OnlyGroup(s, Work(s, g, ok), g)
  {
    var count, pc := Work(s, g, ok).groups[g].count, Work(s, g, ok).groups[g].pc;
    EditGroup(s.groups[g], s.groups[g].members, count, pc, g, s.route);
  }

  lemma PoppedGroup(s: State, g: nat, ok: bool)
    requires AtWork(s, g) && (s.groups[g].pc in {CountUp, Release, Reply} || (s.groups[g].pc.Ready? && Drops(s, g, ok)))
    ensures OnlyGroup(s, Work(s, g, ok), g)
  {
    var group, group' := s.groups[g], Work(s, g, ok).groups[g];
    PopGroup(group, group'.count, g, s.route);
    assert group' == Popped(group).(count := group'.count);
  }

  lemma StartedGroup(s: State, g: nat, ok: bool)
    requires AtWork(s, g) && s.groups[g].pc.Ready?
    requires (s.groups[g].local[0].Leave? || (s.groups[g].local[0].Packet? && !Drops(s, g, ok)))
    ensures OnlyGroup(s, Work(s, g, ok), g)
  {
    EditGroup(s.groups[g], s.groups[g].members, s.groups[g].count, Work(s, g, ok).groups[g].pc, g, s.route);
  }

  lemma EnteredGroup(s: State, g: nat, ok: bool)
    requires AtWork(s, g) && s.groups[g].pc.Ready? && (s.groups[g].local[0].Join? || s.groups[g].local[0].Enter?)
    requires Front(s, g) !in s.groups[g].members
    ensures OnlyGroup(s, Work(s, g, ok), g)
  {
    EditGroup(s.groups[g], s.groups[g].members + {Front(s, g)}, s.groups[g].count, CountUp, g, s.route);
  }

  lemma SomeGroupsOk(s: State, s': State, g: nat, h: nat)
    requires GroupsOk(s) && SameShape(s, s') && g < |s.groups| && h < |s.groups|
    requires GroupOk(s'.groups[g], g, s.route) && GroupOk(s'.groups[h], h, s.route)
    requires forall k: nat :: k < |s.groups| && k != g && k != h ==> s'.groups[k] == s.groups[k]
    ensures GroupsOk(s')
  {
    forall k: nat | k < |s.groups| ensures GroupOk(s'.groups[k], k, s.route) {
      assert GroupOk(s.groups[k], k, s.route);
    }
  }

  lemma ForwardGroups(s: State, g: nat, ok: bool)
    requires Working(s, g) && Serving(s, g) && s.groups[g].pc.Forward?
    ensures SameShape(s, Work(s, g, ok)) && GroupsOk(Work(s, g, ok))
  {
    var target := s.route(Front(s, g));
    assert GroupOk(s.groups[g], g, s.route) && GroupOk(s.groups[target], target, s.route);
    PopGroup(s.groups[g], s.groups[g].count, g, s.route);
    assert Popped(s.groups[g]).(count := s.groups[g].count) == Popped(s.groups[g]);
    PostGroup(s.groups[target], target, s.route, Leave(Front(s, g)));
    SomeGroupsOk(s, Work(s, g, ok), g, target);
  }

  lemma HandingGroups(s: State, g: nat, ok: bool)
    requires Working(s, g) && Serving(s, g) && s.groups[g].pc.Handing?
    ensures SameShape(s, Work(s, g, ok)) && GroupsOk(Work(s, g, ok))
  {
    var target := s.route(Front(s, g));
    assert GroupOk(s.groups[g], g, s.route) && GroupOk(s.groups[target], target, s.route);
    EditGroup(s.groups[g], s.groups[g].members, s.groups[g].count, Store, g, s.route);
    PostGroup(s.groups[target], target, s.route, Enter(Front(s, g)));
    SomeGroupsOk(s, Work(s, g, ok), g, target);
  }

  lemma WorkGroups(s: State, g: nat, ok: bool)
    requires Working(s, g)
    ensures SameShape(s, Work(s, g, ok)) && GroupsOk(Work(s, g, ok))
  {
    WorkingServes(s, g);
    var pc := s.groups[g].pc;
    if pc.Forward? {
      ForwardGroups(s, g, ok);
    } else if pc.Handing? {
      HandingGroups(s, g, ok);
    } else {
      var job := s.groups[g].local[0];
      assert GroupOk(s.groups[g], g, s.route);
      if pc.Ready? && (job.Join? || job.Enter?) {
        EntersOnce(s, g);
        EnteredGroup(s, g, ok);
      } else if pc.Ready? && !Drops(s, g, ok) {
        StartedGroup(s, g, ok);
      } else if pc.Ready? || pc in {CountUp, Release, Reply} {
        PoppedGroup(s, g, ok);
      } else if pc in {Erase, Depart} {
        ErasedGroup(s, g, ok);
      } else {
        CountedGroup(s, g, ok);
      }
      SomeGroupsOk(s, Work(s, g, ok), g, g);
    }
  }

  /** A content thread leaves the locks alone, and moves a player only to its shard. */
  lemma WorkBooks(s: State, g: nat, ok: bool)
    requires Serving(s, g)
    ensures var s' := Work(s, g, ok);
            && SameShape(s, s') && s'.registered == s.registered && s'.readers == s.readers
            && s'.writer == s.writer && s'.joined == s.joined
            && forall p: Player :: Locate(s', p) == Locate(s, p) || Locate(s', p) == At(s.route(p))
  {
    var s' := Work(s, g, ok);
    if s.groups[g].pc.Store? {
      assert s'.at == s.at[Front(s, g) := s.route(Front(s, g))];
    } else {
      WorkStays(s, g, ok);
    }
  }

  predicate Stays(s: State, s': State) {
    && |s'.groups| == |s.groups| && s'.registered == s.registered && s'.readers == s.readers
    && s'.writer == s.writer && s'.joined == s.joined && s'.at == s.at
  }

  lemma PostStays(s: State, g: nat, job: Job)
    ensures Stays(s, Post(s, g, job))
  {
  }

  lemma WorkStays(s: State, g: nat, ok: bool)
    requires Serving(s, g) && !s.groups[g].pc.Store?
    ensures Stays(s, Work(s, g, ok)) && Work(s, g, ok).route == s.route
  {
    match s.groups[g].pc
    case Forward(w) => PostStays(Pop(s, g), w.g, Leave(Front(s, g)));
    case Handing => PostStays(GoOn(s, g, Store), s.route(Front(s, g)), Enter(Front(s, g)));
    case _ =>
  }

  lemma LocksKept(s: State, s': State)
    requires LocksOk(s) && SameShape(s, s') && s'.registered == s.registered
    requires s'.readers == s.readers && s'.writer == s.writer
    requires forall p: Player :: Locate(s', p) == Locate(s, p) || Locate(s', p) == At(s.route(p))
    ensures LocksOk(s')
  {
    forall t: nat | t < |s'.readers| ensures ReaderOk(s', s'.readers[t]) {
      assert ReaderOk(s, s.readers[t]);
    }
  }

  lemma WorkInv(s: State, g: nat, ok: bool)
    requires Working(s, g)
    ensures Inv(Work(s, g, ok))
  {
    WorkingServes(s, g);
    WorkGroups(s, g, ok);
    WorkBooks(s, g, ok);
    LocksKept(s, Work(s, g, ok));
    forall p: Player ensures PlayerOk(Work(s, g, ok), p) { ServedOk(s, g, ok, p); }
  }

  // ---------------------------------------------------------------- draining a mailbox

  lemma DrainInv(s: State, g: nat)
    requires Inv(s) && g < |s.groups| && s.groups[g].local == []
    ensures Inv(TurnOf(s, g, true))
  {
    var s', group := TurnOf(s, g, true), s.groups[g].(local := s.groups[g].mail, mail := []);
    assert GroupOk(s.groups[g], g, s.route);
    DrainSide(s.groups[g], 0);
    assert Queue(group) == Queue(s.groups[g]);
    SomeGroupsOk(s, s', g, g);
    LocksKept(s, s');
    forall p: Player ensures PlayerOk(s', p) {
      assert PlayerOk(s, p);
      DrainSide(s.groups[g], p);
      PutView(s, g, group, p);
    }
  }

  // ---------------------------------------------------------------- producers

  lemma PostView(s: State, g: nat, job: Job, p: Player)
    requires Routed(s, p) && g < |s.groups| && QueueOk(s.groups[g])
    requires job.p == p ==> g == 0 || g == s.route(p)
    ensures SameShape(s, Post(s, g, job))
    ensures ViewOf(Post(s, g, job), p) == if job.p == p then PostedTo(ViewOf(s, p), At(g), job) else ViewOf(s, p)
  {
    PostSide(s.groups[g], job, p);
    PutView(s, g, Post(s, g, job).groups[g], p);
  }

  lemma PostGroups(s: State, g: nat, job: Job)
    requires GroupsOk(s) && g < |s.groups|
    requires if g == 0 then !job.Enter? else !job.Join? && g == s.route(job.p)
    ensures GroupsOk(Post(s, g, job))
  {
    assert GroupOk(s.groups[g], g, s.route);
    PostGroup(s.groups[g], g, s.route, job);
    SomeGroupsOk(s, Post(s, g, job), g, g);
  }

  lemma JoinInv(s: State, p: Player)
    requires Inv(s)
    ensures Inv(JoinStep(s, p))
  {
    if !s.writer.Leaving? && NoReaders(s) && p !in s.joined {
      var s1 := s.(at := s.at[p := 0], registered := s.registered + {p}, joined := s.joined + {p});
      var s' := Post(s1, 0, Join(p));
      assert PlayerOk(s, p);
      PostGroups(s1, 0, Join(p));
      forall q: Player ensures PlayerOk(s', q) {
        assert PlayerOk(s, q) && GroupOk(s.groups[0], 0, s.route);
        PostView(s1, 0, Join(p), q);
        JoinView(s, p, q);
        if q == p { JoinsOk(ViewOf(s, p), p, s.route(p)); }
      }
    }
  }

  lemma JoinView(s: State, p: Player, q: Player)
    requires Routed(s, q) && s.writer.NoWriter?
    ensures var s1 := s.(at := s.at[p := 0], registered := s.registered + {p}, joined := s.joined + {p});
            ViewOf(s1, q) ==
            if q == p then ViewOf(s, q).(joined := true, listed := true, here := At(0)) else ViewOf(s, q)
  {
  }

  /** A registered player is in the login group or in its shard. */
  lemma RegisteredIsSomewhere(s: State, p: Player)
    requires Inv(s) && p in s.registered
    ensures Locate(s, p) == At(0) || Locate(s, p) == At(s.route(p))
  {
    assert PlayerOk(s, p);
  }

  lemma LookInv(s: State, t: nat, r: Reader)
    requires Inv(s) && t < |s.readers| && ReaderOk(s, r) && (r.Outside? || s.writer.NoWriter?)
    ensures Inv(s.(readers := s.readers[t := r]))
  {
    var s' := s.(readers := s.readers[t := r]);
    forall u: nat | u < |s'.readers| ensures ReaderOk(s', s'.readers[u]) {
      assert ReaderOk(s, s.readers[u]);
    }
    if s.writer.Leaving? {
      assert forall x | x in s'.readers :: x == r || x in s.readers;
    }
    forall p: Player ensures PlayerOk(s', p) {
      assert PlayerOk(s, p) && ViewOf(s', p) == ViewOf(s, p);
    }
  }

  lemma DeliverInv(s: State, w: Where, p: Player, k: nat)
    requires Inv(s) && p in s.registered && w.At? && (w == At(0) || w == At(s.route(p)) == Locate(s, p))
    ensures Inv(Post(s, w.g, Packet(p, k)))
  {
    var s' := Post(s, w.g, Packet(p, k));
    assert PlayerOk(s, p);
    PostGroups(s, w.g, Packet(p, k));
    LocksKept(s, s');
    forall q: Player ensures PlayerOk(s', q) {
      assert PlayerOk(s, q) && GroupOk(s.groups[w.g], w.g, s.route);
      PostView(s, w.g, Packet(p, k), q);
      if q == p { PacketOk(ViewOf(s, p), p, s.route(p), w, k); }
    }
  }

  lemma RecvInv(s: State, t: nat, p: Player, k: nat)
    requires Inv(s)
    ensures Inv(RecvStep(s, t, p, k))
  {
    if t < |s.readers| {
      assert ReaderOk(s, s.readers[t]);
      if !s.readers[t].Outside? {
        assert s.readers[t] in s.readers;
        assert s.writer.NoWriter?;
      }
      match s.readers[t]
      case Outside => if !s.writer.Leaving? && p in s.registered { LookInv(s, t, Found(p, k)); }
      case Found(q, j) =>
        RegisteredIsSomewhere(s, q);
        LookInv(s, t, Loaded(q, j, Locate(s, q)));
      case Loaded(q, j, w) =>
        LookInv(s, t, Outside);
        DeliverInv(s.(readers := s.readers[t := Outside]), w, q, j);
    }
  }

  lemma StartLeavePlayer(s: State, p: Player, q: Player)
    requires PlayerOk(s, q) && s.writer.NoWriter? && NoReaders(s) && p in s.registered
    ensures PlayerOk(LeaveStep(s, p), q)
  {
    var s' := LeaveStep(s, p);
    if q == p {
      StartsLeaveOk(ViewOf(s, p), p, s.route(p));
      assert ViewOf(s', p) == StartsLeave(ViewOf(s, p), p);
    } else {
      assert ViewOf(s', q) == ViewOf(s, q);
    }
  }

  lemma StartLeaveInv(s: State, p: Player)
    requires Inv(s) && s.writer.NoWriter? && NoReaders(s) && p in s.registered
    ensures Inv(LeaveStep(s, p))
  {
    var s' := LeaveStep(s, p);
    forall t: nat | t < |s'.readers| ensures s'.readers[t].Outside? { assert s.readers[t] in s.readers; }
    forall q: Player ensures PlayerOk(s', q) {
      assert PlayerOk(s, q);
      StartLeavePlayer(s, p, q);
    }
  }

  lemma EndLeavePlayer(s: State, r: Player)
    requires PlayerOk(s, r) && s.writer.Leaving? && s.writer.w.At? && s.writer.w.g < |s.groups|
    requires s.writer.p == r ==> s.writer.w.g == 0 || s.writer.w.g == s.route(r)
    requires QueueOk(s.groups[s.writer.w.g])
    ensures PlayerOk(Post(s.(writer := NoWriter), s.writer.w.g, Leave(s.writer.p)), r)
  {
    var q, w, s1 := s.writer.p, s.writer.w, s.(writer := NoWriter);
    PostView(s1, w.g, Leave(q), r);
    assert ViewOf(s1, r) == ViewOf(s, r).(writer := NoWriter);
    if r == q { EndsLeaveOk(ViewOf(s, q), q, s.route(q)); }
  }

  lemma EndLeaveInv(s: State, p: Player)
    requires Inv(s) && s.writer.Leaving?
    ensures Inv(LeaveStep(s, p))
  {
    var q, w := s.writer.p, s.writer.w;
    assert PlayerOk(s, q);
    var s1 := s.(writer := NoWriter);
    PostGroups(s1, w.g, Leave(q));
    LocksKept(s1, Post(s1, w.g, Leave(q)));
    forall r: Player ensures PlayerOk(Post(s1, w.g, Leave(q)), r) {
      assert PlayerOk(s, r) && GroupOk(s.groups[w.g], w.g, s.route);
      EndLeavePlayer(s, r);
    }
  }

  // ---------------------------------------------------------------- runs

  lemma StepInv(s: State, e: Event)
    requires Inv(s)
    ensures Inv(Step(s, e))
  {
    match e
    case Turn(g, ok) =>
      if g < |s.groups| {
        if s.groups[g].local == [] { DrainInv(s, g); } else { WorkInv(s, g, ok); }
      }
    case OnJoin(p) => JoinInv(s, p);
    case OnRecv(t, p, k) => RecvInv(s, t, p, k);
    case OnLeave(p) =>
      if s.writer.Leaving? {
        EndLeaveInv(s, p);
      } else if NoReaders(s) && p in s.registered {
        StartLeaveInv(s, p);
      }
  }

  lemma InitInv(shards: nat, readers: nat)
    requires shards > 0
    ensures Inv(Init(shards, readers))
  {
    var s := Init(shards, readers);
    forall p: Player ensures PlayerOk(s, p) {
      RouteInRange(shards, p);
    }
  }

  lemma RouteInRange(shards: nat, p: Player)
    requires shards > 0
    ensures 0 < Route(shards)(p) <= shards
  {
  }

  lemma {:induction false} RunInv(shards: nat, readers: nat, events: seq<Event>)
    requires shards > 0
    ensures Inv(Run(Init(shards, readers), events))
    decreases |events|
  {
    if events == [] {
      InitInv(shards, readers);
    } else {
      RunInv(shards, readers, events[..|events| - 1]);
      StepInv(Run(Init(shards, readers), events[..|events| - 1]), events[|events| - 1]);
    }
  }
}
