/** The chat server's sectors: who stands where, and who hears a message. */
module SectorGrid {

  import opened Common

  // A sector coordinate is a 16-bit WORD; Player::Clear stores -1 in it.
  const NO_SECTOR: nat := 0xFFFF

  class Player {
    var sessionId: nat
    var accountNo: nat
    var sectorX: nat
    var sectorY: nat
    var willDelete: bool
    var loggedIn: bool

    /** A player as OnClientJoin sets one up: cleared, then given its session. */
    constructor (sid: nat)
      ensures sessionId == sid && accountNo == 0 && !willDelete && !loggedIn
      ensures sectorX == NO_SECTOR && sectorY == NO_SECTOR
    {
      sessionId, accountNo := sid, 0;
      sectorX, sectorY := NO_SECTOR, NO_SECTOR;
      willDelete, loggedIn := false, false;
    }

    ghost function Pos(): SectorPos
      reads this
    {
      SectorPos(sectorX, sectorY)
    }
  }

  datatype SectorPos = SectorPos(x: int, y: int)

  // `around` has room for nine positions; the first `count` are filled in.
  datatype SectorAround = SectorAround(count: nat, around: seq<SectorPos>)

  ghost predicate InGrid(p: SectorPos, width: nat, height: nat) { 0 <= p.x < width && 0 <= p.y < height }

  /** Chebyshev distance at most one. */
  ghost predicate Near(p: SectorPos, q: SectorPos) { -1 <= p.x - q.x <= 1 && -1 <= p.y - q.y <= 1 }

  /** The filled part of `a` holds, each once, the sectors of the grid next to `p`. */
  ghost predicate Surrounds(a: SectorAround, p: SectorPos, width: nat, height: nat) {
    && a.count <= |a.around| == 9
    && NoRepeats(a.around[..a.count])
    && forall q :: q in a.around[..a.count] <==> InGrid(q, width, height) && Near(q, p)
  }

  /** Whoever is in my neighbourhood has me in theirs. */
  lemma NeighboursAreMutual(a: SectorAround, p: SectorPos, b: SectorAround, q: SectorPos, width: nat, height: nat)
    requires Surrounds(a, p, width, height) && Surrounds(b, q, width, height)
    requires InGrid(p, width, height) && InGrid(q, width, height)
    ensures q in a.around[..a.count] <==> p in b.around[..b.count]
  {
  }

  // ---- Removing a player from a sector: the last one takes its place ----

  /** The first place `p` stands in `s`, or the length of `s`: std::find. */
  function Find<T(==)>(s: seq<T>, p: T): (i: nat)
    ensures i <= |s| && (forall j :: 0 <= j < i ==> s[j] != p) && (i < |s| ==> s[i] == p)
  {
    if s == [] || s[0] == p then 0 else 1 + Find(s[1..], p)
  }

  lemma FindIsFirst<T>(s: seq<T>, p: T, i: nat)
    requires i <= |s| && (forall j :: 0 <= j < i ==> s[j] != p) && (i < |s| ==> s[i] == p)
    ensures Find(s, p) == i
  {
  }

  function SwapErase<T(==)>(s: seq<T>, p: T): seq<T> {
    var i := Find(s, p);
    if i < |s| then s[i := s[|s| - 1]][..|s| - 1] else s
  }

  lemma LastFillsTheHole<T>(s: seq<T>, i: nat)
    requires i < |s|
    ensures multiset(s[i := s[|s| - 1]][..|s| - 1]) == multiset(s) - multiset{s[i]}
  {
    var n := |s| - 1;
    if i == n {
      assert s == s[..n] + [s[n]] && s[i := s[n]][..n] == s[..n];
    } else {
      assert s == s[..i] + [s[i]] + s[i + 1..n] + [s[n]];
      assert s[i := s[n]][..n] == s[..i] + [s[n]] + s[i + 1..n];
    }
  }

  /** Erasing takes out one occurrence of `p`, if any, and reorders the rest. */
  lemma SwapEraseTakesOne<T>(s: seq<T>, p: T)
    ensures multiset(SwapErase(s, p)) == multiset(s) - multiset{p}
  {
    var i := Find(s, p);
    if i < |s| { LastFillsTheHole(s, i); }
  }

  lemma SwapEraseKeepsDistinct<T>(s: seq<T>, p: T)
    requires NoRepeats(s)
    ensures NoRepeats(SwapErase(s, p)) && p !in SwapErase(s, p)
    ensures forall q :: q in SwapErase(s, p) <==> q in s && q != p
  {
    var i := Find(s, p);
    var t := SwapErase(s, p);
    if i < |s| {
      forall q | q in s && q != p ensures q in t {
        var k :| 0 <= k < |s| && s[k] == q;
        assert t[if k == |s| - 1 then i else k] == q;
      }
    }
  }

  /** `rows` times `cols`, for the one to three columns a neighbourhood has. */
  ghost function Cells(rows: int, cols: int): int {
    if cols == 1 then rows else if cols == 2 then 2 * rows else 3 * rows
  }

  ghost predicate Before(p: SectorPos, q: SectorPos) { p.y < q.y || (p.y == q.y && p.x < q.x) }

  /** `a` holds, row by row, the positions of the box that come before `next`. */
  ghost predicate FilledTo(a: SectorAround, next: SectorPos, lo: SectorPos, hi: SectorPos) {
    && a.count <= |a.around| == 9
    && NoRepeats(a.around[..a.count])
    && forall q :: q in a.around[..a.count] <==> lo.x <= q.x <= hi.x && lo.y <= q.y <= hi.y && Before(q, next)
  }

  lemma FillOne(a: SectorAround, next: SectorPos, lo: SectorPos, hi: SectorPos)
    requires FilledTo(a, next, lo, hi) && a.count < 9
    requires lo.x <= next.x <= hi.x && lo.y <= next.y <= hi.y
    ensures FilledTo(SectorAround(a.count + 1, a.around[a.count := next]), SectorPos(next.x + 1, next.y), lo, hi)
  {
    var b := a.around[a.count := next];
    assert b[..a.count + 1] == a.around[..a.count] + [next];
    assert !Before(next, next);
  }

  lemma NothingFilled(around: seq<SectorPos>, lo: SectorPos, hi: SectorPos)
    requires |around| == 9
    ensures FilledTo(SectorAround(0, around), lo, lo, hi)
  {
    assert around[..0] == [];
  }

  lemma NextRow(a: SectorAround, row: int, lo: SectorPos, hi: SectorPos)
    requires FilledTo(a, SectorPos(hi.x + 1, row), lo, hi)
    ensures FilledTo(a, SectorPos(lo.x, row + 1), lo, hi)
  {
    assert forall q: SectorPos :: lo.x <= q.x <= hi.x ==>
             Before(q, SectorPos(hi.x + 1, row)) == Before(q, SectorPos(lo.x, row + 1));
  }

  /** A box that reaches one step each way, cut at the edges, is the neighbourhood. */
  lemma FilledBoxSurrounds(a: SectorAround, p: SectorPos, lo: SectorPos, hi: SectorPos, width: nat, height: nat)
    requires InGrid(p, width, height) && FilledTo(a, SectorPos(lo.x, hi.y + 1), lo, hi)
    requires lo.x == (if p.x == 0 then 0 else p.x - 1) && hi.x == (if p.x + 1 < width then p.x + 1 else width - 1)
    requires lo.y == (if p.y == 0 then 0 else p.y - 1) && hi.y == (if p.y + 1 < height then p.y + 1 else height - 1)
    ensures Surrounds(a, p, width, height)
  {
    assert forall q: SectorPos ::
             lo.x <= q.x <= hi.x && lo.y <= q.y <= hi.y && Before(q, SectorPos(lo.x, hi.y + 1)) <==>
             InGrid(q, width, height) && Near(q, p);
  }

  class ChatServer {
    const width: nat          // SECTOR_CNT_X
    const height: nat         // SECTOR_CNT_Y
    const sectors: array2<seq<Player>>
    const aroundTable: array2<SectorAround>
    var players: map<nat, Player>

    ghost predicate Shaped() {
      && width <= NO_SECTOR && height <= NO_SECTOR
      && sectors.Length0 == aroundTable.Length0 == height
      && sectors.Length1 == aroundTable.Length1 == width
    }

    ghost predicate TableOk()
      requires Shaped()
      reads aroundTable
    {
      forall y, x :: 0 <= y < height && 0 <= x < width ==> Surrounds(aroundTable[y, x], SectorPos(x, y), width, height)
    }

    /** Player `q` has a sector. */
    ghost predicate Placed(q: Player)
      reads q
    {
      q.sectorX < width && q.sectorY < height
    }

    /** The map has `q` under its own session id. */
    ghost predicate Known(q: Player)
      reads this`players, q
    {
      q.sessionId in players && players[q.sessionId] == q
    }

    ghost predicate Listed(q: Player)
      requires Shaped() && Placed(q)
      reads sectors, q
    {
      q in sectors[q.sectorY, q.sectorX]
    }

    /** The players listed in sector (x, y) are each listed once, connected, and stand there. */
    ghost predicate SectorOk(x: int, y: int)
      requires Shaped() && 0 <= x < width && 0 <= y < height
      reads this, sectors, players.Values
    {
      && NoRepeats(sectors[y, x])
      && forall q :: q in sectors[y, x] ==> q in players.Values && Known(q) && q.sectorX == x && q.sectorY == y
    }

    ghost predicate Valid()
      reads this, sectors, aroundTable, players.Values
    {
      && Shaped() && TableOk()
      && (forall sid :: sid in players ==> players[sid].sessionId == sid)
      && (forall x, y :: 0 <= x < width && 0 <= y < height ==> SectorOk(x, y))
      && forall sid :: sid in players && Placed(players[sid]) ==> Listed(players[sid])
    }

    ghost predicate Hears(q: Player)
      reads q
    {
      q.loggedIn && !q.willDelete
    }

    /** The players that should hear `p`, found by looking at everyone. */
    ghost function Audience(p: Player): set<nat>
      reads this, p, players.Values
    {
      if Placed(p) then
        set sid | sid in players && Hears(players[sid]) && Placed(players[sid]) && Near(players[sid].Pos(), p.Pos())
      else {}
    }

    constructor (w: nat, h: nat)
      requires w <= NO_SECTOR && h <= NO_SECTOR
      ensures Valid() && width == w && height == h && players == map[]
      ensures fresh(sectors) && fresh(aroundTable)
    {
      width, height := w, h;
      sectors := new seq<Player>[h, w]((_, _) => []);
      aroundTable := new SectorAround[h, w];
      players := map[];
      new;
      InitSectorAroundTable();
    }

    method InitSectorAroundTable()
      requires Shaped()
      modifies aroundTable
      ensures TableOk()
    {
      for y := 0 to height
        invariant forall j, x :: 0 <= j < y && 0 <= x < width ==>
                    Surrounds(aroundTable[j, x], SectorPos(x, j), width, height)
      {
        for x := 0 to width
          invariant forall j, i :: 0 <= j < y && 0 <= i < width ==>
                      Surrounds(aroundTable[j, i], SectorPos(i, j), width, height)
          invariant forall i :: 0 <= i < x ==> Surrounds(aroundTable[y, i], SectorPos(i, y), width, height)
        {
          var around := FillAround(x, y);
          aroundTable[y, x] := around;
        }
      }
    }

    /** The two inner loops of initSectorAroundTable; never more than nine positions. */
    method FillAround(x: nat, y: nat) returns (a: SectorAround)
      requires x < width && y < height
      ensures Surrounds(a, SectorPos(x, y), width, height)
    {
      var startX, endX := if x == 0 then 0 else x - 1, if x + 1 < width then x + 1 else width - 1;
      var startY, endY := if y == 0 then 0 else y - 1, if y + 1 < height then y + 1 else height - 1;
      a := FillBox(startX, endX, startY, endY);
      FilledBoxSurrounds(a, SectorPos(x, y), SectorPos(startX, startY), SectorPos(endX, endY), width, height);
    }

    method FillBox(startX: int, endX: int, startY: int, endY: int) returns (a: SectorAround)
      requires startX <= endX <= startX + 2 && startY <= endY <= startY + 2
      ensures FilledTo(a, SectorPos(startX, endY + 1), SectorPos(startX, startY), SectorPos(endX, endY))
    {
      a := SectorAround(0, seq(9, _ => SectorPos(0, 0)));
      ghost var lo, hi, cols := SectorPos(startX, startY), SectorPos(endX, endY), endX - startX + 1;
      NothingFilled(a.around, lo, hi);
      var sy := startY;
      while sy <= endY
        invariant startY <= sy <= endY + 1 && a.count == Cells(sy - startY, cols)
        invariant FilledTo(a, SectorPos(startX, sy), lo, hi)
      {
        a := FillRow(a, sy, startX, endX, lo, hi);
        sy := sy + 1;
      }
    }

    method FillRow(a0: SectorAround, sy: int, startX: int, endX: int, ghost lo: SectorPos, ghost hi: SectorPos)
      returns (a: SectorAround)
      requires lo.x == startX <= endX == hi.x && lo.y <= sy <= hi.y
      requires FilledTo(a0, SectorPos(startX, sy), lo, hi) && a0.count + (endX - startX + 1) <= 9
      ensures FilledTo(a, SectorPos(startX, sy + 1), lo, hi) && a.count == a0.count + (endX - startX + 1)
    {
      a := a0;
      var sx := startX;
      while sx <= endX
        invariant startX <= sx <= endX + 1 && a.count == a0.count + (sx - startX)
        invariant FilledTo(a, SectorPos(sx, sy), lo, hi)
      {
        a := Append(a, sx, sy, lo, hi);
        sx := sx + 1;
      }
      NextRow(a, sy, lo, hi);
    }

    method Append(a: SectorAround, sx: int, sy: int, ghost lo: SectorPos, ghost hi: SectorPos)
      returns (b: SectorAround)
      requires FilledTo(a, SectorPos(sx, sy), lo, hi) && a.count < 9
      requires lo.x <= sx <= hi.x && lo.y <= sy <= hi.y
      ensures FilledTo(b, SectorPos(sx + 1, sy), lo, hi) && b.count == a.count + 1
    {
      FillOne(a, SectorPos(sx, sy), lo, hi);
      b := SectorAround(a.count + 1, a.around[a.count := SectorPos(sx, sy)]);
    }

    /** A second player under one session id is dropped; the first stays. */
    method OnClientJoin(sid: nat)
      requires Valid()
      modifies this`players
      ensures Valid()
      ensures sid in old(players) ==> players == old(players)
      ensures sid !in old(players) ==>
                && sid in players && fresh(players[sid]) && players == old(players)[sid := players[sid]]
                && !Placed(players[sid]) && !players[sid].loggedIn && !players[sid].willDelete
    {
      var player := new Player(sid);
      if sid !in players {
        players := players[sid := player];
        forall x, y | 0 <= x < width && 0 <= y < height ensures SectorOk(x, y) {
          assert old(SectorOk(x, y));
          forall q | q in sectors[y, x] ensures q in players.Values { assert players[q.sessionId] == q; }
        }
      }
    }

    /** No sector lists a player twice, and `player` at most where it stands. */
    ghost predicate AtMostAtHome(player: Player)
      requires Shaped()
      reads sectors, player
    {
      forall x, y :: 0 <= x < width && 0 <= y < height ==>
        NoRepeats(sectors[y, x]) && (player in sectors[y, x] ==> player.Pos() == SectorPos(x, y))
    }

    method ErasePlayerFromSector(player: Player)
      requires Shaped() && AtMostAtHome(player)
      modifies sectors
      ensures forall x, y :: 0 <= x < width && 0 <= y < height ==>
                NoRepeats(sectors[y, x]) && forall q :: q in sectors[y, x] <==> q in old(sectors[y, x]) && q != player
      ensures forall x, y :: 0 <= x < width && 0 <= y < height ==>
                sectors[y, x] == if SectorPos(x, y) == player.Pos() then SwapErase(old(sectors[y, x]), player)
                                 else old(sectors[y, x])
    {
      var x, y := player.sectorX, player.sectorY;
      if x >= width || y >= height { return; }
      var list := sectors[y, x];
      var i := 0;
      while i < |list| && list[i] != player
        invariant 0 <= i <= |list| && forall j :: 0 <= j < i ==> list[j] != player
      {
        i := i + 1;
      }
      FindIsFirst(list, player, i);
      SwapEraseKeepsDistinct(list, player);
      if i < |list| {
        list := list[i := list[|list| - 1]];
        sectors[y, x] := list[..|list| - 1];
      }
    }

    method MovePlayerSector(player: Player, newX: nat, newY: nat)
      requires Valid() && Known(player)
      modifies player`sectorX, player`sectorY, sectors
      ensures Valid()
      ensures player.Pos() == if newX < width && newY < height then SectorPos(newX, newY) else old(player.Pos())
      ensures forall x, y :: 0 <= x < width && 0 <= y < height ==>
                sectors[y, x] == if player.Pos() == old(player.Pos()) then old(sectors[y, x])
                                 else if SectorPos(x, y) == old(player.Pos()) then SwapErase(old(sectors[y, x]), player)
                                 else if SectorPos(x, y) == player.Pos() then old(sectors[y, x]) + [player]
                                 else old(sectors[y, x])
    {
      if newX >= width || newY >= height { return; }
      if player.sectorX == newX && player.sectorY == newY { return; }
      assert SectorOk(newX, newY);
      assert AtMostAtHome(player) by {
        forall x, y | 0 <= x < width && 0 <= y < height
          ensures NoRepeats(sectors[y, x]) && (player in sectors[y, x] ==> player.Pos() == SectorPos(x, y))
        {
          assert SectorOk(x, y);
        }
      }
      ErasePlayerFromSector(player);
      forall x, y | 0 <= x < width && 0 <= y < height ensures SectorOk(x, y) && player !in sectors[y, x] {
        assert old(SectorOk(x, y));
      }
      Enter(player, newX, newY);
    }

    /** A player that no sector lists takes its place in one. */
    method Enter(player: Player, x: nat, y: nat)
      requires Shaped() && x < width && y < height && Known(player)
      requires forall i, j :: 0 <= i < width && 0 <= j < height ==> SectorOk(i, j) && player !in sectors[j, i]
      modifies player`sectorX, player`sectorY, sectors
      ensures player.Pos() == SectorPos(x, y)
      ensures forall i, j :: 0 <= i < width && 0 <= j < height ==> SectorOk(i, j)
      ensures forall i, j :: 0 <= i < width && 0 <= j < height ==>
                sectors[j, i] == old(sectors[j, i]) + if i == x && j == y then [player] else []
    {
      player.sectorX, player.sectorY := x, y;
      sectors[y, x] := sectors[y, x] + [player];
      forall i, j | 0 <= i < width && 0 <= j < height ensures SectorOk(i, j) {
        assert old(SectorOk(i, j));
      }
    }

    /** A move request; a wrong account number or a sector outside the grid is refused, and nothing moves.
      * `sent` tells whether the answer can be made and sent; the player has moved even if not.
      */
    method SectorMove(player: Player, accountNo: nat, newX: nat, newY: nat, sent: bool) returns (ok: bool)
      requires Valid() && Known(player)
      modifies player`sectorX, player`sectorY, sectors
      ensures Valid()
      ensures var accepted := player.accountNo == accountNo && newX < width && newY < height;
              && ok == (accepted && sent)
              && player.Pos() == (if accepted then SectorPos(newX, newY) else old(player.Pos()))
              && (!accepted ==> forall x, y :: 0 <= x < width && 0 <= y < height ==>
                                  sectors[y, x] == old(sectors[y, x]))
    {
      if player.accountNo != accountNo { return false; }
      if newX >= width || newY >= height { return false; }
      MovePlayerSector(player, newX, newY);
      ok := sent;
    }

    /** Player `q` is logged in under this account on another session than `sid`. */
    ghost predicate Rival(q: Player, accountNo: nat, sid: nat)
      reads q
    {
      q.loggedIn && q.accountNo == accountNo && q.sessionId != sid
    }

    /** A login. `valid` tells whether the packet and the session key pass their checks, and `sent` whether the
      * answer can be sent. Another session with the same account is disconnected, if there is one.
      */
    method Login(player: Player, accountNo: nat, valid: bool, sent: bool) returns (ok: bool, kicked: Option<nat>)
      requires Valid() && Known(player)
      modifies player`accountNo, player`loggedIn
      ensures Valid()
      ensures var done := valid && !old(player.loggedIn);
              && ok == (done && sent)
              && player.loggedIn == (old(player.loggedIn) || done)
              && player.accountNo == (if done then accountNo else old(player.accountNo))
              && (kicked.Some? ==> done && kicked.value in players
                                   && Rival(players[kicked.value], accountNo, player.sessionId))
              && (done && kicked.None? ==>
                    forall sid :: sid in players ==> !Rival(players[sid], accountNo, player.sessionId))
    {
      kicked := None;
      if player.loggedIn || !valid { return false, kicked; }
      var rest := players.Keys;
      while rest != {}
        invariant rest <= players.Keys && kicked.None?
        invariant forall sid :: sid in players && sid !in rest ==> !Rival(players[sid], accountNo, player.sessionId)
        decreases |rest|
      {
        var sid :| sid in rest;
        rest := rest - {sid};
        if players[sid].loggedIn && players[sid].accountNo == accountNo && sid != player.sessionId {
          kicked := Some(sid);
          break;
        }
      }
      player.accountNo := accountNo;
      player.loggedIn := true;
      forall x, y | 0 <= x < width && 0 <= y < height ensures SectorOk(x, y) { assert old(SectorOk(x, y)); }
      ok := sent;
    }

    method ReserveDeletePlayer(player: Player)
      requires Valid() && Known(player)
      modifies player`willDelete
      ensures Valid() && player.willDelete
    {
      player.willDelete := true;
      forall x, y | 0 <= x < width && 0 <= y < height ensures SectorOk(x, y) { assert old(SectorOk(x, y)); }
    }

    /** Takes a player out of the map, then out of its sector; an unknown id is ignored. */
    method OnClientLeave(sid: nat)
      requires Valid()
      modifies this`players, players.Values, sectors
      ensures Valid() && players == old(players) - {sid}
      ensures forall q :: q in players.Values ==> unchanged(q)
      ensures sid in old(players) ==> old(players[sid]).willDelete && !old(players[sid]).loggedIn
      ensures forall x, y :: 0 <= x < width && 0 <= y < height ==>
                sectors[y, x] == if sid in old(players) && SectorPos(x, y) == old(players[sid].Pos())
                                 then SwapErase(old(sectors[y, x]), old(players[sid])) else old(sectors[y, x])
    {
      if sid !in players { return; }
      var player := players[sid];
      RemoveFromMap(player, sid);
      label Removed:
      ErasePlayerFromSector(player);
      player.loggedIn := false;
      forall x, y | 0 <= x < width && 0 <= y < height ensures SectorOk(x, y) {
        assert old@Removed(LeftOver(x, y, player));
      }
    }

    /** Sector (x, y) is in order, apart from listing `player`, who has left the map. */
    ghost predicate LeftOver(x: int, y: int, player: Player)
      requires Shaped() && 0 <= x < width && 0 <= y < height
      reads this, sectors, players.Values
    {
      && NoRepeats(sectors[y, x])
      && forall q :: q in sectors[y, x] && q != player ==>
           q in players.Values && Known(q) && q.sectorX == x && q.sectorY == y
    }

    /** What OnClientLeave does under the lock of the player map. */
    method RemoveFromMap(player: Player, sid: nat)
      requires Valid() && sid in players && players[sid] == player
      modifies this`players, player`willDelete
      ensures players == old(players) - {sid} && player.willDelete && AtMostAtHome(player)
      ensures forall x, y :: 0 <= x < width && 0 <= y < height ==> LeftOver(x, y, player)
    {
      player.willDelete := true;
      players := players - {sid};
      forall x, y | 0 <= x < width && 0 <= y < height
        ensures LeftOver(x, y, player) && (player in sectors[y, x] ==> player.Pos() == SectorPos(x, y))
      {
        assert old(SectorOk(x, y));
        forall q | q in sectors[y, x] && q != player ensures q in players.Values { assert players[q.sessionId] == q; }
      }
    }

    /** The session ids a message of `player` is sent to. */
    method Broadcast(player: Player) returns (targets: seq<nat>)
      requires Valid()
      ensures NoRepeats(targets)
      ensures forall sid :: sid in targets <==> sid in Audience(player)
    {
      targets := [];
      if player.sectorX >= width || player.sectorY >= height { return; }
      var around := aroundTable[player.sectorY, player.sectorX];
      for i := 0 to around.count
        invariant NoRepeats(targets) && forall sid :: sid in targets ==> sid in players
        invariant forall sid :: sid in players ==>
                    (sid in targets <==> Hears(players[sid]) && players[sid].Pos() in around.around[..i])
      {
        var pos := around.around[i];
        assert pos in around.around[..around.count];
        assert SectorOk(pos.x, pos.y);
        var list := sectors[pos.y, pos.x];
        for j := 0 to |list|
          invariant NoRepeats(targets) && forall sid :: sid in targets ==> sid in players
          invariant forall sid :: sid in players ==>
                      (sid in targets <==>
                       Hears(players[sid]) && (players[sid].Pos() in around.around[..i] || players[sid] in list[..j]))
        {
          var target := list[j];
          assert Known(target) && target.Pos() == pos;
          if target.willDelete { continue; }
          if !target.loggedIn { continue; }
          targets := targets + [target.sessionId];
        }
      }
    }
  }

  /** A connected player is listed once in the sector it stands in, and nowhere else. */
  lemma ListedOnceAtHome(server: ChatServer, sid: nat, x: nat, y: nat)
    requires server.Valid() && sid in server.players && x < server.width && y < server.height
    ensures multiset(server.sectors[y, x])[server.players[sid]]
         == if server.players[sid].Pos() == SectorPos(x, y) then 1 else 0
  {
    var p, s := server.players[sid], server.sectors[y, x];
    assert server.SectorOk(x, y);
    if p.Pos() == SectorPos(x, y) {
      assert server.Listed(p);
      CountOnce(s, p);
    }
  }

  /** Of two players that can hear, one is sent the other's messages exactly when the other is sent its own. */
  lemma HearingIsMutual(server: ChatServer, a: nat, b: nat)
    requires server.Valid() && a in server.players && b in server.players
    requires server.Hears(server.players[a]) && server.Hears(server.players[b])
    ensures a in server.Audience(server.players[b]) <==> b in server.Audience(server.players[a])
  {
  }
}
