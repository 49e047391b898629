/** Player hand-off between groups: FIFO mailboxes, the JOIN / PACKET / GROUP_ENTER / LEAVE jobs, the
  * login thread that moves a player in a fixed order of steps, and the disconnects that race with it.
  *
  * Group 0 is the login group, groups 1.. are the echo shards; each has one content thread. A player is
  * named by its session id. Each step is one access to shared state; `mPlayers` and the drained queue
  * belong to one thread, so taking a job off is part of the job's last access.
  */
module GroupHandOff {

  type Player = nat

  datatype Job = Join(p: Player) | Enter(p: Player) | Packet(p: Player, k: nat) | Leave(p: Player)

  // What a load of `mGroup` gives.
  datatype Where = Nowhere | At(g: nat)

  // Where a content thread is in the job at the front of its drained queue. The last five are the
  // steps of handleLogin.
  datatype Pc =
    | Ready | CountUp | Forward(to: Where) | Erase | CountDown | Release
    | Handing | Store | Depart | DepartCount | Reply

  datatype Group = Group(
    mail: seq<Job>,          // mMailbox
    local: seq<Job>,         // the queue drained by Update
    members: set<Player>,    // mPlayers
    count: int,              // mPlayerCount
    pc: Pc,
    posted: seq<Job>)        // history: every job ever put in the mailbox

  // A thread inside GroupServer::OnRecv, holding the player-map lock shared.
  datatype Reader = Outside | Found(p: Player, k: nat) | Loaded(p: Player, k: nat, w: Where)

  // The thread inside GroupServer::OnClientLeave, holding the lock exclusively.
  datatype Writer = NoWriter | Leaving(p: Player, w: Where)

  datatype State = State(
    groups: seq<Group>,
    route: Player -> nat,        // GetEchoGroupFor, as an index into `groups`
    at: map<Player, nat>,        // mGroup; absent is nullptr
    registered: set<Player>,     // mPlayerMap
    readers: seq<Reader>,
    writer: Writer,
    joined: set<Player>,         // history: every session the application was told of
    freed: multiset<Player>)     // history: returns to the player pool

  // `ok` tells whether handleLogin is entered and gets its response packet.
  datatype Event =
    | Turn(g: nat, ok: bool)
    | OnJoin(p: Player)
    | OnRecv(t: nat, p: Player, k: nat)
    | OnLeave(p: Player)

  function Route(shards: nat): Player -> nat
    requires shards > 0
  {
    (p: Player) => 1 + p % shards
  }

  function Init(shards: nat, readers: nat): State
    requires shards > 0
  {
    State(seq(1 + shards, _ => Group([], [], {}, 0, Ready, [])), Route(shards), map[], {},
          seq(readers, _ => Outside), NoWriter, {}, multiset{})
  }

  function Locate(s: State, p: Player): Where { if p in s.at then At(s.at[p]) else Nowhere }

  function Put(s: State, g: nat, group: Group): State
    requires g < |s.groups|
  {
    s.(groups := s.groups[g := group])
  }

  function Post(s: State, g: nat, job: Job): State {
    if g < |s.groups|
    then Put(s, g, s.groups[g].(mail := s.groups[g].mail + [job], posted := s.groups[g].posted + [job]))
    else s
  }

  /** The content thread of group `g` is done with the job at the front. */
  function Pop(s: State, g: nat): State
    requires g < |s.groups| && s.groups[g].local != []
  {
    Put(s, g, Popped(s.groups[g]))
  }

  function Popped(group: Group): Group
    requires group.local != []
  {
    group.(local := group.local[1..], pc := Ready)
  }

  function GoOn(s: State, g: nat, pc: Pc): State
    requires g < |s.groups|
  {
    Put(s, g, s.groups[g].(pc := pc))
  }

  function Dispatch(s: State, g: nat, job: Job, ok: bool): State
    requires g < |s.groups| && s.groups[g].local != []
  {
    match job
    case Join(p) => Put(s, g, s.groups[g].(members := s.groups[g].members + {p}, pc := CountUp))
    case Enter(p) => Put(s, g, s.groups[g].(members := s.groups[g].members + {p}, pc := CountUp))
    case Leave(p) => GoOn(s, g, if Locate(s, p) == At(g) then Erase else Forward(Locate(s, p)))
    case Packet(p, _) => if g == 0 && Locate(s, p) == At(0) && ok then GoOn(s, g, Handing) else Pop(s, g)
  }

  /** One access of the content thread of group `g`, in the job at the front of its queue. */
  function Work(s: State, g: nat, ok: bool): State
    requires g < |s.groups| && s.groups[g].local != []
  {
    var group := s.groups[g];
    var p, target := group.local[0].p, s.route(group.local[0].p);
    match group.pc
    case Ready => Dispatch(s, g, group.local[0], ok)
    case CountUp => Put(s, g, Popped(group).(count := group.count + 1))
    case Forward(w) => if w.At? then Post(Pop(s, g), w.g, Leave(p)) else Pop(s, g).(freed := s.freed + multiset{p})
    case Erase =>
      if p in group.members then Put(s, g, group.(members := group.members - {p}, pc := CountDown))
      else GoOn(s, g, Release)
    case CountDown => Put(s, g, group.(count := group.count - 1, pc := Release))
    case Release => Pop(s, g).(freed := s.freed + multiset{p})
    case Handing => Post(GoOn(s, g, Store), target, Enter(p))
    case Store => GoOn(s, g, Depart).(at := s.at[p := target])
    case Depart =>
      if p in group.members then Put(s, g, group.(members := group.members - {p}, pc := DepartCount))
      else GoOn(s, g, Reply)
    case DepartCount => Put(s, g, group.(count := group.count - 1, pc := Reply))
    case Reply => Pop(s, g)
  }

  function TurnOf(s: State, g: nat, ok: bool): State {
    if g >= |s.groups| then s
    else if s.groups[g].local == [] then Put(s, g, s.groups[g].(local := s.groups[g].mail, mail := []))
    else Work(s, g, ok)
  }

  predicate NoReaders(s: State) { forall r | r in s.readers :: r.Outside? }

  /** OnClientJoin is one locked section; a session id is never issued twice. */
  function JoinStep(s: State, p: Player): State {
    if s.writer.Leaving? || !NoReaders(s) || p in s.joined then s
    else Post(s.(at := s.at[p := 0], registered := s.registered + {p}, joined := s.joined + {p}), 0, Join(p))
  }

  function RecvStep(s: State, t: nat, p: Player, k: nat): State {
    if t >= |s.readers| then s
    else match s.readers[t]
         case Outside =>
           if s.writer.Leaving? || p !in s.registered then s else s.(readers := s.readers[t := Found(p, k)])
         case Found(q, j) => s.(readers := s.readers[t := Loaded(q, j, Locate(s, q))])
         case Loaded(q, j, w) =>
           var s' := s.(readers := s.readers[t := Outside]);
           if w.At? then Post(s', w.g, Packet(q, j)) else s'
  }

  /** OnClientLeave: the load of `mGroup` and the post, in one exclusively locked section. */
  function LeaveStep(s: State, p: Player): State {
    match s.writer
    case NoWriter =>
      if !NoReaders(s) || p !in s.registered then s
      else s.(registered := s.registered - {p}, writer := Leaving(p, Locate(s, p)))
    case Leaving(q, w) =>
      var s' := s.(writer := NoWriter);
      if w.At? then Post(s', w.g, Leave(q)) else s'.(freed := s.freed + multiset{q})
  }

  function Step(s: State, e: Event): State {
    match e
    case Turn(g, ok) => TurnOf(s, g, ok)
    case OnJoin(p) => JoinStep(s, p)
    case OnRecv(t, p, k) => RecvStep(s, t, p, k)
    case OnLeave(p) => LeaveStep(s, p)
  }

  function Run(s: State, events: seq<Event>): State
    decreases |events|
  {
    if events == [] then s else Step(Run(s, events[..|events| - 1]), events[|events| - 1])
  }

  /** The players that the next access of group `g`'s content thread dereferences. */
  function Touched(s: State, g: nat): set<Player> {
    if g < |s.groups| && s.groups[g].local != [] then {s.groups[g].local[0].p} else {}
  }
}
