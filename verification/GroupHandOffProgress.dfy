/** Every job that is put in a mailbox is done after a known number of turns of its group, and a player's shard is
  * the one its session id names.
  */
module GroupHandOffProgress {

  import opened Common
  import opened GroupHandOff
  import opened GroupHandOffInvariant
  import opened GroupHandOffRuns
  import opened GroupHandOffTheorems
  import opened GroupHandOffCalls

  // ---------------------------------------------------------------- one turn

  /** How many accesses the job at the front still takes at most. */
  function Rank(pc: Pc): nat {
    match pc
    case Ready => 6
    case Handing => 5
    case Store => 4
    case Depart => 3
    case DepartCount => 2
    case Reply => 1
    case Erase => 3
    case CountDown => 2
    case Release => 1
    case Forward(_) => 1
    case CountUp => 1
  }

  /** The thread has come nearer to the end of the job at the front, or has done it. */
  predicate Advances(group: Group, group': Group) {
    && |group'.posted| - |group'.mail| == |group.posted| - |group.mail| && |group'.posted| >= |group.posted|
    && ((group'.local == group.local && Rank(group'.pc) < Rank(group.pc))
        || (group.local != [] && group'.local == group.local[1..] && group'.pc == Ready))
  }

  lemma QuietAdvances(s: State, g: nat, ok: bool)
    requires g < |s.groups| && s.groups[g].local != [] && !s.groups[g].pc.Forward? && !s.groups[g].pc.Handing?
    ensures g < |Work(s, g, ok).groups| && Advances(s.groups[g], Work(s, g, ok).groups[g])
  {
  }

  lemma PostAdvances(s: State, s': State, g: nat, h: nat, job: Job)
    requires g < |s.groups| && g < |s'.groups| && Advances(s.groups[g], s'.groups[g])
    ensures g < |Post(s', h, job).groups| && Advances(s.groups[g], Post(s', h, job).groups[g])
  {
    PostElsewhereOrMail(s', h, job, g);
  }

  lemma ForwardAdvances(s: State, g: nat, ok: bool)
    requires g < |s.groups| && s.groups[g].local != [] && s.groups[g].pc.Forward?
    ensures g < |Work(s, g, ok).groups| && Advances(s.groups[g], Work(s, g, ok).groups[g])
  {
    var s', w, p := Pop(s, g), s.groups[g].pc.to, s.groups[g].local[0].p;
    if w.At? {
      ForwardPosts(s, s', g, w.g, p, ok);
      PostAdvances(s, s', g, w.g, Leave(p));
    }
  }

  lemma HandingAdvances(s: State, g: nat, ok: bool)
    requires g < |s.groups| && s.groups[g].local != [] && s.groups[g].pc.Handing?
    ensures g < |Work(s, g, ok).groups| && Advances(s.groups[g], Work(s, g, ok).groups[g])
  {
    var s', p := GoOn(s, g, Store), s.groups[g].local[0].p;
    var target := s.route(p);
    HandingPosts(s, s', g, target, p, ok);
    PostAdvances(s, s', g, target, Enter(p));
  }

  lemma WorkAdvances(s: State, g: nat, ok: bool)
    requires g < |s.groups| && s.groups[g].local != []
    ensures g < |Work(s, g, ok).groups| && Advances(s.groups[g], Work(s, g, ok).groups[g])
  {
    if s.groups[g].pc.Forward? { ForwardAdvances(s, g, ok); }
    else if s.groups[g].pc.Handing? { HandingAdvances(s, g, ok); }
    else { QuietAdvances(s, g, ok); }
  }

  // ---------------------------------------------------------------- jobs get done

  /** How many of the first `due` jobs ever posted to a group are not done. */
  function Due(group: Group, due: nat): int { due - (|group.posted| - |group.mail| - |group.local|) }

  /** How many turns of its thread they still take at most. */
  function TurnsLeft(group: Group, due: nat): int {
    var u := Due(group, due);
    if u <= 0 then 0
    else if group.local == [] then 6 * u + 1
    else 6 * (u - 1) + Rank(group.pc) + One(u > |group.local|)
  }

  /** One turn of a group, or any other event, on the way to `due` jobs done. */
  predicate Nearer(group: Group, group': Group, due: nat, turn: bool) {
    && due <= |group'.posted|
    && (TurnsLeft(group, due) == 0 ==> TurnsLeft(group', due) == 0)
    && (TurnsLeft(group, due) > 0 ==> TurnsLeft(group', due) + One(turn) <= TurnsLeft(group, due))
  }

  lemma AdvanceCounts(group: Group, group': Group, due: nat)
    requires Advances(group, group') && group.local != [] && due <= |group.posted|
    ensures Nearer(group, group', due, true)
  {
  }

  lemma DrainCounts(group: Group, due: nat)
    requires group.local == [] && group.pc.Ready? && due <= |group.posted|
    ensures Nearer(group, group.(local := group.mail, mail := []), due, true)
  {
  }

  lemma SameCounts(group: Group, group': Group, due: nat)
    requires SameWork(group, group') && due <= |group.posted|
    ensures Nearer(group, group', due, false)
  {
  }

  lemma TurnCounts(s: State, g: nat, ok: bool, due: nat)
    requires Inv(s) && g < |s.groups| && due <= |s.groups[g].posted|
    ensures g < |TurnOf(s, g, ok).groups| && Nearer(s.groups[g], TurnOf(s, g, ok).groups[g], due, true)
  {
    if s.groups[g].local == [] {
      assert GroupOk(s.groups[g], g, s.route);
      DrainCounts(s.groups[g], due);
    } else {
      WorkAdvances(s, g, ok);
      AdvanceCounts(s.groups[g], Work(s, g, ok).groups[g], due);
    }
  }

  lemma EventCounts(s: State, e: Event, g: nat, due: nat)
    requires Inv(s) && g < |s.groups| && due <= |s.groups[g].posted|
    ensures g < |Step(s, e).groups| && Nearer(s.groups[g], Step(s, e).groups[g], due, IsWork(e, g))
  {
    if IsWork(e, g) {
      TurnCounts(s, g, e.ok, due);
    } else {
      OthersKeepWork(s, e, g);
      SameCounts(s.groups[g], Step(s, e).groups[g], due);
    }
  }

  /** How many turns group `g` gets from event `a` on until before event `b`. */
  function Turns(events: seq<Event>, g: nat, a: nat, b: nat): nat
    requires b <= |events|
    decreases b
  {
    if b <= a then 0 else Turns(events, g, a, b - 1) + One(IsWork(events[b - 1], g))
  }

  lemma {:induction false} TurnsCount(tr: seq<State>, events: seq<Event>, g: nat, a: nat, z: nat, due: nat)
    requires Trace(tr, events) && a <= z <= |events| && g < |tr[a].groups| && due <= |tr[a].groups[g].posted|
    ensures g < |tr[z].groups| && due <= |tr[z].groups[g].posted|
    ensures || TurnsLeft(tr[z].groups[g], due) == 0
            || TurnsLeft(tr[z].groups[g], due) + Turns(events, g, a, z) <= TurnsLeft(tr[a].groups[g], due)
    decreases z
  {
    if z > a {
      TurnsCount(tr, events, g, a, z - 1, due);
      NearerAt(tr, events, g, z - 1, due);
    }
  }

  lemma NearerAt(tr: seq<State>, events: seq<Event>, g: nat, j: nat, due: nat)
    requires Trace(tr, events) && j < |events| && g < |tr[j].groups| && due <= |tr[j].groups[g].posted|
    ensures g < |tr[j + 1].groups| && Nearer(tr[j].groups[g], tr[j + 1].groups[g], due, IsWork(events[j], g))
  {
    assert StepAt(tr, events, j);
    TraceReachable(tr, events, j);
    EventCounts(tr[j], events[j], g, due);
  }

  lemma FewTurnsLeft(group: Group)
    requires |group.mail| + |group.local| <= |group.posted|
    ensures TurnsLeft(group, |group.posted|) <= 6 * (|group.mail| + |group.local|) + 1
  {
  }

  lemma QueueWithin(s: State, g: nat)
    requires Reachable(s) && g < |s.groups|
    ensures |s.groups[g].mail| + |s.groups[g].local| <= |s.groups[g].posted|
  {
    MailboxIsFifo(s, g);
  }

  /** Every job gets done: whatever the other threads do meanwhile, once a group has had six turns for each job that
    * waits for it, and one more, all that had been posted to it is done.
    */
  lemma JobsGetDone(tr: seq<State>, events: seq<Event>, g: nat, a: nat, z: nat)
    requires Trace(tr, events) && a <= z <= |events| && g < |tr[a].groups|
    requires Turns(events, g, a, z) >= 6 * (|tr[a].groups[g].mail| + |tr[a].groups[g].local|) + 1
    ensures g < |tr[z].groups|
    ensures |Taken(tr[z].groups[g])| >= |tr[a].groups[g].posted|
  {
    var due := |tr[a].groups[g].posted|;
    TraceReachable(tr, events, a);
    TraceReachable(tr, events, z);
    QueueWithin(tr[a], g);
    FewTurnsLeft(tr[a].groups[g]);
    TurnsCount(tr, events, g, a, z, due);
    TakenCounts(tr[z], g, due);
  }

  lemma TakenCounts(s: State, g: nat, due: nat)
    requires Reachable(s) && g < |s.groups| && TurnsLeft(s.groups[g], due) == 0
    ensures |Taken(s.groups[g])| >= due
  {
    MailboxIsFifo(s, g);
  }

  // ---------------------------------------------------------------- which shard is a player's

  lemma RouteStays(s: State, e: Event)
    ensures Step(s, e).route == s.route && |Step(s, e).groups| == |s.groups|
  {
    if e.Turn? { OtherTurn(s, e.g, e.ok); }
  }

  lemma {:induction false} RunRoute(shards: nat, readers: nat, events: seq<Event>)
    requires shards > 0
    ensures var s := Run(Init(shards, readers), events); s.route == Route(shards) && |s.groups| == 1 + shards
    decreases |events|
  {
    if events != [] {
      RunRoute(shards, readers, events[..|events| - 1]);
      RouteStays(Run(Init(shards, readers), events[..|events| - 1]), events[|events| - 1]);
    }
  }

  /** The group with this number serves player `p` when there are so many shards beside the login group. */
  predicate IsShardOf(g: nat, p: Player, shards: nat) { 0 < shards && 0 < g <= shards && (g - 1) == p % shards }

  /** In every run a player's shard stays the one that its session id names modulo the number of shards, so that
    * consecutive ids go to the shards in turn.
    */
  lemma ShardIsFixed(shards: nat, readers: nat, events: seq<Event>, p: Player)
    requires shards > 0
    ensures var s := Run(Init(shards, readers), events); |s.groups| == 1 + shards && IsShardOf(s.route(p), p, shards)
  {
    RunRoute(shards, readers, events);
  }
}
