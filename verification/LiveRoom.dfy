/**
 * The room as the program runs it (api/internal/game/room.go and play.go): fields and player states that the
 * handlers update in place. Each handler is proved to do to the snapshot what its function in RoomSpec says.
 */
module LiveRoom {
  import opened Common
  import opened Questions
  import opened Shuffling
  import opened Scoring
  import opened Rank
  import opened Database
  import opened Services
  import World
  import Spec = RoomSpec
  import opened RoomSpec

  /** What a room keeps of one player: totals, open question, connection. */
  class PlayerState {
    const id: PlayerId
    var score: int
    var correct: int
    var totalMs: int
    var streak: int
    var resolved: nat
    var active: Option<Active>
    var sink: Option<SinkId>

    constructor (id: PlayerId, p: Progress)
      ensures this.id == id && Snapshot() == Player(p, None) && sink.None?
    {
      this.id := id;
      score, correct, totalMs, streak, resolved := p.score, p.correct, p.totalMs, p.streak, p.resolved;
      active, sink := None, None;
    }

    function Done(): Progress
      reads this
    {
      Progress(score, correct, totalMs, streak, resolved)
    }

    ghost function Snapshot(): Player
      reads this
    {
      Player(Done(), active)
    }
  }

  type PlayerStates = map<PlayerId, PlayerState>

  ghost function Snapshots(players: PlayerStates): map<PlayerId, Player>
    reads players.Values
  {
    map p | p in players :: players[p].Snapshot()
  }

  ghost function SinksOf(players: PlayerStates): map<PlayerId, SinkId>
    reads players.Values
  {
    map p | p in players && players[p].sink.Some? :: players[p].sink.value
  }

  /** What the two maps say about single states, and when they are equal to given maps. */
  lemma SnapshotsAre(players: PlayerStates)
    ensures Snapshots(players).Keys == players.Keys
    ensures forall p :: p in players ==> Snapshots(players)[p] == players[p].Snapshot()
  {
  }

  lemma SinksAre(players: PlayerStates)
    ensures forall p :: p in SinksOf(players) <==> p in players && players[p].sink.Some?
    ensures forall p :: p in SinksOf(players) ==> SinksOf(players)[p] == players[p].sink.value
  {
  }

  lemma SnapshotsEqual(players: PlayerStates, snapshots: map<PlayerId, Player>)
    requires players.Keys == snapshots.Keys && forall p :: p in players ==> players[p].Snapshot() == snapshots[p]
    ensures Snapshots(players) == snapshots
  {
  }

  lemma SinksEqual(players: PlayerStates, sinks: map<PlayerId, SinkId>)
    requires sinks.Keys <= players.Keys
    requires forall p :: p in players ==> players[p].sink == if p in sinks then Some(sinks[p]) else None
    ensures SinksOf(players) == sinks
  {
  }

  /** Each state is stored under its own id, so no two ids share one. */
  ghost predicate Named(players: PlayerStates) {
    forall p :: p in players ==> players[p].id == p
  }

  lemma TellOneMore(wire: Wire, told: set<SinkId>, s: SinkId, m: Packet)
    requires told <= wire.Keys && s in wire && s !in told
    ensures s in Tell(wire, told, m) && Tell(Tell(wire, told, m), {s}, m) == Tell(wire, told + {s}, m)
  {
  }

  lemma FirstMessage(wire: Wire, s: SinkId, m: Packet)
    ensures Tell(wire[s := []], {s}, m) == wire[s := [m]]
  {
    assert [] + [m] == [m];
  }

  lemma SecondMessage(wire: Wire, s: SinkId, m: Packet, n: Packet)
    ensures Tell(wire[s := [m]], {s}, n) == wire[s := [m, n]]
  {
    assert [m] + [n] == [m, n];
  }

  lemma TellBoth(wire: Wire, a: set<SinkId>, b: set<SinkId>, m: Packet)
    requires a <= wire.Keys && b <= wire.Keys && a !! b
    ensures Tell(wire, a, m).Keys == wire.Keys && Tell(Tell(wire, a, m), b, m) == Tell(wire, a + b, m)
  {
  }

  ghost predicate Injective(sinks: map<PlayerId, SinkId>) {
    forall p, q :: p in sinks && q in sinks && p != q ==> sinks[p] != sinks[q]
  }

  lemma Connected(r: Spec.Room)
    requires WellFormed(r)
    ensures Injective(r.sinks) && r.sinks.Values <= r.wire.Keys && r.sinks.Keys <= r.players.Keys
    ensures r.host.Some? ==> r.host.value in r.wire && r.host.value !in r.sinks.Values
  {
  }

  /** A change of one state shows at one place. */
  lemma OneStateChanged(players: PlayerStates, id: PlayerId, snapshots: map<PlayerId, Player>,
                        sinks: map<PlayerId, SinkId>)
    requires id in players && players.Keys == snapshots.Keys && sinks.Keys <= players.Keys
    requires forall q :: q in players && q != id ==>
      players[q].Snapshot() == snapshots[q] && players[q].sink == if q in sinks then Some(sinks[q]) else None
    ensures Snapshots(players) == snapshots[id := players[id].Snapshot()]
    ensures SinksOf(players) == if players[id].sink.Some? then sinks[id := players[id].sink.value] else sinks - {id}
  {
  }
  /** The first n stored players added one by one. */
  ghost function WithStored(r: Spec.Room, t: Tables, n: nat): Spec.Room
    requires n <= |t.joined| && Consistent(t)
  {
    if n == 0 then r
    else
      var p := t.joined[n - 1];
      Spec.AddPlayer(WithStored(r, t, n - 1), p, World.ProgressOf(t.rows[p]))
  }

  ghost function StoredPlayers(t: Tables, n: nat): (players: map<PlayerId, Player>)
    requires n <= |t.joined| && Consistent(t)
    ensures players.Keys == set p | p in t.joined[..n]
  {
    map p | p in t.joined[..n] :: Player(World.ProgressOf(t.rows[p]), None)
  }

  lemma OneMoreStored(t: Tables, n: nat)
    requires 0 < n <= |t.joined| && Consistent(t)
    ensures var p := t.joined[n - 1];
      && p in t.rows && p !in StoredPlayers(t, n - 1)
      && StoredPlayers(t, n) == StoredPlayers(t, n - 1)[p := Player(World.ProgressOf(t.rows[p]), None)]
      && t.joined[..n] == t.joined[..n - 1] + [p]
  {
    assert t.joined[..n] == t.joined[..n - 1] + [t.joined[n - 1]];
  }

  lemma {:induction false} WithStoredAdds(r: Spec.Room, t: Tables, n: nat)
    requires n <= |t.joined| && Consistent(t) && r.players == map[] && r.order == []
    ensures WithStored(r, t, n) == r.(players := StoredPlayers(t, n), order := t.joined[..n])
  {
    hide WellFormed, Consistent;
    if n > 0 {
      WithStoredAdds(r, t, n - 1);
      OneMoreStored(t, n);
      hide StoredPlayers;
    }
  }

  lemma EmptyRoomIsWellFormed(r: Spec.Room)
    requires Consistent(r.tables) && r.players == map[] && r.order == [] && r.host.None? && r.sinks == map[]
    ensures WellFormed(r)
  {
    hide Consistent;
  }

  /** Before its deadline is armed, a new room is the empty room with the stored players. */
  lemma NewRoomIsFolded(r: Spec.Room, wall: nat)
    requires Consistent(r.tables)
    requires r == World.CREATED.room.(status := r.tables.status, tables := r.tables, board := r.board, wire := r.wire)
    ensures var left := Max(MAX_ROOM_DURATION - (wall - r.tables.startedAt), NS_PER_MS);
      WithStored(r, r.tables, |r.tables.joined|).(deadline := if r.status.Running? then Some(wall + left) else None)
      == World.NewRoom(World.CREATED.room.(tables := r.tables, board := r.board, wire := r.wire), wall)
  {
    hide WellFormed, WithStored, StoredPlayers;
    var t := r.tables;
    WithStoredAdds(r, t, |t.joined|);
    assert t.joined[..|t.joined|] == t.joined;
    StoredPlayersAreJoined(t);
    hide Consistent;
  }

  lemma StoredPlayersAreJoined(t: Tables)
    requires Consistent(t)
    ensures StoredPlayers(t, |t.joined|) == map p | p in t.rows :: Player(World.ProgressOf(t.rows[p]), None)
  {
    assert t.joined[..|t.joined|] == t.joined;
  }

  function HostTold(wire: Wire, host: Option<SinkId>, m: Packet): (told: Wire)
    requires host.Some? ==> host.value in wire
    ensures told.Keys == wire.Keys
  {
    if host.Some? then Tell(wire, {host.value}, m) else wire
  }

  /** Telling everybody: the host, then the players. */
  lemma TellingInTwoSteps(r: Spec.Room, m: Packet)
    requires WellFormed(r)
    ensures Injective(r.sinks) && r.sinks.Values <= r.wire.Keys && (r.host.Some? ==> r.host.value in r.wire)
    ensures Tell(r.wire, Held(r), m) == Tell(HostTold(r.wire, r.host, m), r.sinks.Values, m)
  {
    hide Tell;
    Connected(r);
    TellingNobody(r.wire, m);
    ghost var first := if r.host.Some? then {r.host.value} else {};
    TellBoth(r.wire, first, r.sinks.Values, m);
  }

  /** The connections of some of the players. */
  ghost function Kept(sinks: map<PlayerId, SinkId>, some: set<PlayerId>): map<PlayerId, SinkId> {
    map p | p in sinks && p in some :: sinks[p]
  }

  lemma KeptAllOrNone(sinks: map<PlayerId, SinkId>, all: set<PlayerId>)
    ensures sinks.Keys <= all ==> Kept(sinks, all) == sinks
    ensures Kept(sinks, {}) == map[]
  {
  }

  lemma KeptWithout(sinks: map<PlayerId, SinkId>, some: set<PlayerId>, p: PlayerId)
    requires p in some
    ensures p in Kept(sinks, some) <==> p in sinks
    ensures p in sinks ==> Kept(sinks, some)[p] == sinks[p]
    ensures Kept(sinks, some - {p}) == Kept(sinks, some) - {p}
    ensures p !in sinks ==> Kept(sinks, some - {p}) == Kept(sinks, some)
  {
  }

  /** The connections other than s, and those of some players. */
  ghost function NotAt(sinks: map<PlayerId, SinkId>, s: SinkId, some: set<PlayerId>): map<PlayerId, SinkId> {
    map p | p in sinks && (p in some || sinks[p] != s) :: sinks[p]
  }

  lemma NotAtAll(sinks: map<PlayerId, SinkId>, s: SinkId, all: set<PlayerId>)
    ensures sinks.Keys <= all ==> NotAt(sinks, s, all) == sinks
    ensures NotAt(sinks, s, {}) == map p | p in sinks && sinks[p] != s :: sinks[p]
  {
  }

  lemma NotAtWithout(sinks: map<PlayerId, SinkId>, s: SinkId, some: set<PlayerId>, p: PlayerId)
    requires p in some
    ensures p in NotAt(sinks, s, some) <==> p in sinks
    ensures p in sinks ==> NotAt(sinks, s, some)[p] == sinks[p]
    ensures var before := NotAt(sinks, s, some);
      NotAt(sinks, s, some - {p}) == if p in sinks && sinks[p] == s then before - {p} else before
  {
  }

  class RoomObject {
    const config: Config
    const store: Store
    const board: Board
    const network: Network

    var status: Status
    var players: PlayerStates
    var order: seq<PlayerId>
    var host: Option<SinkId>
    var deadline: Option<nat>
    var lbDirty: bool
    var lbWaiting: bool
    var lbLast: Option<nat>
    var lbDue: nat

    ghost var history: seq<nat>
    ghost var endMarks: nat

    ghost function View(): Spec.Room
      reads this, players.Values, store, board, network
    {
      Spec.Room(status, Snapshots(players), order, host, SinksOf(players), deadline,
                Throttle(lbDirty, lbWaiting, lbLast, lbDue),
                store.View(), board.entries, network.wire, history, endMarks)
    }

    ghost predicate Valid()
      reads this, players.Values, store, board, network
    {
      Named(players) && WellFormed(View())
    }

    /** newRoom: the stored players in the order they joined; nothing active, nobody connected. */
    constructor (config: Config, store: Store, board: Board, network: Network, wall: nat)
      requires Consistent(store.View())
      ensures this.config == config && this.store == store && this.board == board && this.network == network
      ensures Valid() && fresh(players.Values)
      ensures var empty := World.CREATED.room.(tables := store.View(), board := board.entries, wire := network.wire);
        View() == World.NewRoom(empty, wall)
    {
      this.config, this.store, this.board, this.network := config, store, board, network;
      status, players, order, host, deadline := store.status, map[], [], None, None;
      lbDirty, lbWaiting, lbLast, lbDue := false, false, None, 0;
      history, endMarks := [], 0;
      new;
      hide Snapshots, SinksOf, WellFormed, WithStored, Consistent, World.NewRoom;
      SinksEqual(players, map[]);
      SnapshotsEqual(players, map[]);
      ghost var r := View();
      ghost var expected := World.NewRoom(World.CREATED.room.(tables := r.tables, board := r.board, wire := r.wire),
                                          wall);
      EmptyRoomIsWellFormed(r);
      NewRoomIsFolded(r, wall);
      AddStoredPlayers();
      assert View() == WithStored(r, r.tables, |r.tables.joined|) && status == r.status;
      ArmDeadline(wall);
      assert View() == expected;
    }

    /** The rest of the session's time, at least a moment. */
    method ArmDeadline(wall: nat)
      modifies this`deadline
      ensures deadline == if status.Running?
                          then Some(wall + Max(MAX_ROOM_DURATION - (wall - store.startedAt),
                                               NS_PER_MS)) else old(deadline)
      ensures View() == old(View()).(deadline := deadline)
    {
      hide Snapshots, SinksOf;
      if status.Running? {
        deadline := Some(wall + Max(MAX_ROOM_DURATION - (wall - store.startedAt), NS_PER_MS));
      }
    }

    method AddStoredPlayers()
      requires Valid() && players == map[] && order == []
      modifies this`players, this`order
      ensures Valid() && fresh(players.Values)
      ensures Consistent(store.View()) && View() == WithStored(old(View()), store.View(), |store.joined|)
    {
      hide Snapshots, SinksOf, WellFormed, Spec.AddPlayer;
      ghost var r := View();
      TablesAreConsistent(r);
      for i := 0 to |store.joined|
        invariant Valid() && fresh(players.Values)
        invariant View() == WithStored(r, store.View(), i)
      {
        var p := store.joined[i];
        assert p in store.rows && store.rows[p].index >= 0;
        AddPlayer(p, World.ProgressOf(store.rows[p]));
      }
    }

    /** A player already known is left alone. */
    method AddPlayer(id: PlayerId, progress: Progress)
      requires Valid()
      modifies this`players, this`order
      ensures Valid() && View() == Spec.AddPlayer(old(View()), id, progress)
      ensures fresh(players.Values - old(players.Values))
    {
      hide Snapshots, SinksOf, WellFormed;
      SnapshotsAre(players);
      SinksAre(players);
      if id in players { return; }
      ghost var r := View();
      var state := new PlayerState(id, progress);
      players, order := players[id := state], order + [id];
      SnapshotsEqual(players, r.players[id := Player(progress, None)]);
      SinksEqual(players, r.sinks);
      assert View() == Spec.AddPlayer(r, id, progress);
    }

    // -------------------------------------------------------------- connections

    method SendTo(p: PlayerState, m: Packet)
      requires Valid() && p.id in players && players[p.id] == p
      modifies network
      ensures Valid() && View() == Spec.SendTo(old(View()), p.id, m)
    {
      SinksAre(players);
      hide Snapshots, SinksOf, WellFormed, Tell;
      ghost var r := View();
      Connected(r);
      if p.sink.Some? { network.Send(p.sink.value, m); }
      assert View() == Spec.SendTo(r, p.id, m);
    }

    method Broadcast(m: Packet)
      requires Valid()
      modifies network
      ensures Valid() && View() == Spec.Broadcast(old(View()), m)
    {
      hide Tell, Snapshots, SinksOf, WellFormed, HostTold;
      ghost var r := View();
      TellingInTwoSteps(r, m);
      SendToHost(m);
      SendToPlayers(m);
      assert View() == Spec.Broadcast(r, m);
    }

    method SendToHost(m: Packet)
      requires host.Some? ==> host.value in network.wire
      modifies network
      ensures network.wire == HostTold(old(network.wire), host, m)
    {
      if host.Some? { network.Send(host.value, m); }
    }

    method SendToPlayers(m: Packet)
      requires Injective(SinksOf(players)) && SinksOf(players).Values <= network.wire.Keys
      modifies network
      ensures network.wire == Tell(old(network.wire), SinksOf(players).Values, m)
    {
      hide Tell, SinksOf;
      SinksAre(players);
      ghost var was, sinks := network.wire, SinksOf(players);
      ghost var told: set<SinkId> := {};
      TellingNobody(was, m);
      var rest := players.Keys;
      while rest != {}
        invariant rest <= players.Keys && told <= sinks.Values
        invariant forall p :: p in sinks ==> (p in rest <==> sinks[p] !in told)
        invariant network.wire == Tell(was, told, m)
      {
        var p :| p in rest;
        rest := rest - {p};
        if players[p].sink.Some? {
          TellOneMore(was, told, sinks[p], m);
          network.Send(players[p].sink.value, m);
          told := told + {sinks[p]};
        }
      }
      assert told == sinks.Values;
    }

    method LetHostGo()
      requires host.Some? ==> host.value in network.wire
      modifies this`host, network
      ensures View() == old(View()).(host := None, wire := network.wire)
      ensures network.wire == HostTold(old(network.wire), old(host), Closed)
    {
      hide Snapshots, SinksOf, Tell;
      if host.Some? {
        network.Close(host.value);
        host := None;
      }
    }

    method CloseAll()
      requires Valid()
      modifies this`host, players.Values, network
      ensures Valid() && View() == Spec.CloseAll(old(View()))
    {
      hide Tell, Snapshots, SinksOf, WellFormed, HostTold;
      ghost var r := View();
      TellingInTwoSteps(r, Closed);
      LetHostGo();
      ClosePlayers();
      assert View() == Spec.CloseAll(r);
    }

    method ClosePlayers()
      requires Named(players) && Injective(SinksOf(players)) && SinksOf(players).Values <= network.wire.Keys
      modifies players.Values, network
      ensures Snapshots(players) == old(Snapshots(players)) && SinksOf(players) == map[]
      ensures network.wire == Tell(old(network.wire), old(SinksOf(players)).Values, Closed)
    {
      hide Tell, Snapshots, SinksOf, Kept;
      ghost var was, sinks := network.wire, SinksOf(players);
      ghost var told: set<SinkId> := {};
      TellingNobody(was, Closed);
      var rest := players.Keys;
      SinksAre(players);
      KeptAllOrNone(sinks, rest);
      while rest != {}
        invariant rest <= players.Keys && told <= sinks.Values
        invariant forall p :: p in sinks ==> (p in rest <==> sinks[p] !in told)
        invariant Snapshots(players) == old(Snapshots(players)) && SinksOf(players) == Kept(sinks, rest)
        invariant network.wire == Tell(was, told, Closed)
      {
        var p :| p in rest;
        SinksAre(players);
        KeptWithout(sinks, rest, p);
        rest := rest - {p};
        var state := players[p];
        if state.sink.Some? {
          TellOneMore(was, told, sinks[p], Closed);
          network.Close(state.sink.value);
          told := told + {sinks[p]};
          SetSink(state, None);
        }
      }
      assert told == sinks.Values;
    }

    // -------------------------------------------------------------- standings and leaderboard

    method Standings() returns (standings: seq<Standing>)
      requires Valid()
      ensures standings == Spec.Standings(View().players, View().order)
    {
      hide Snapshots, SinksOf;
      SnapshotsAre(players);
      standings := [];
      for i := 0 to |order|
        invariant |standings| == i
        invariant forall j :: 0 <= j < i ==> standings[j] == StandingOf(order[j], View().players[order[j]].progress)
      {
        assert order[i] in View().players;
        standings := standings + [StandingOf(order[i], players[order[i]].Done())];
      }
    }

    method CoversAllPlayers(ids: seq<PlayerId>) returns (covers: bool)
      ensures covers == Spec.CoversAllPlayers(View().players, ids)
    {
      SnapshotsAre(players);
      hide Snapshots;
      assert |View().players| == |View().players.Keys| == |players|;
      if |ids| != |players| { return false; }
      for i := 0 to |ids|
        invariant forall j :: 0 <= j < i ==> ids[j] in players
      {
        if ids[i] !in players { return false; }
      }
      return true;
    }

    method SaveStandings(standings: seq<Standing>, applied: bool)
      modifies board
      ensures View() == Spec.SaveStandings(config, old(View()), standings, applied)
    {
      hide Snapshots, SinksOf;
      if config.hasBoard { board.Save(standings, applied); }
    }

    method RestoreBoard(applied: bool)
      requires Valid()
      modifies board
      ensures Valid()
      ensures View() == Spec.SaveStandings(config, old(View()), Spec.Standings(old(View()).players, old(View()).order),
                                           applied)
    {
      hide Snapshots, SinksOf, WellFormed, Spec.Standings, Spec.SaveStandings;
      ghost var r := View();
      var standings := Standings();
      SaveStandings(standings, applied);
      OtherFieldsDoNotMatter(r, View());
    }

    method RankedIds(env: Env) returns (ids: seq<PlayerId>)
      requires Valid()
      modifies board
      ensures Valid() && (View(), ids) == Spec.RankedIds(config, old(View()), env)
    {
      hide Snapshots, SinksOf, WellFormed, Spec.Standings, Rank.Order, Spec.CoversAllPlayers, Spec.SaveStandings;
      ghost var r := View();
      var standings := Standings();
      if !config.hasBoard {
        ids := OrderStandings(standings);
        return;
      }
      var answer := AskBoard(env);
      ghost var r1 := View();
      if answer.Some? { return answer.value; }
      SaveStandings(standings, env.boardRebuilds);
      OtherFieldsDoNotMatter(r1, View());
      ids := OrderStandings(standings);
    }

    /** The order Redis gives, if it answers for all current players. */
    method AskBoard(env: Env) returns (ids: Option<seq<PlayerId>>)
      requires Valid()
      modifies board
      ensures Valid() && View() == old(View()).(board := old(View()).board - env.evicted)
      ensures var ranked := Leaderboard.Ranked(View().board);
        ids == if env.boardReads && Spec.CoversAllPlayers(View().players, ranked) then Some(ranked) else None
    {
      hide Snapshots, SinksOf, WellFormed, Spec.CoversAllPlayers, Leaderboard.Ranked;
      ghost var r := View();
      ids := board.Order(env.evicted, env.boardReads);
      assert View() == r.(board := r.board - env.evicted);
      OtherFieldsDoNotMatter(r, View());
      if ids.Some? {
        var covers := CoversAllPlayers(ids.value);
        if !covers { ids := None; }
      }
    }

    method RankRows(ids: seq<PlayerId>) returns (rows: seq<RankRow>)
      requires forall id :: id in ids ==> id in players
      ensures forall id :: id in ids ==> id in View().players
      ensures rows == Spec.RankRows(View().players, ids)
    {
      SnapshotsAre(players);
      hide Snapshots;
      rows := [];
      for i := 0 to |ids|
        invariant |rows| == i
        invariant forall j :: 0 <= j < i ==>
          rows[j] == RankRow(ids[j], View().players[ids[j]].progress.score, View().players[ids[j]].progress.correct)
      {
        assert ids[i] in ids;
        rows := rows + [RankRow(ids[i], players[ids[i]].score, players[ids[i]].correct)];
      }
    }

    method SendLeaderboard(env: Env)
      requires Valid()
      modifies this`lbDirty, this`lbLast, this`history, board, network
      ensures Valid() && View() == Spec.SendLeaderboard(config, old(View()), env)
    {
      hide Snapshots, SinksOf, WellFormed, Spec.RankedIds, Spec.Broadcast, Spec.RankRows;
      ghost var r := View();
      var ids := RankedIds(env);
      ghost var r1 := View();
      SnapshotsAre(players);
      var rows := RankRows(ids);
      Broadcast(Rankings(rows));
      NoteUpdate(env.wall);
    }

    method NoteUpdate(wall: nat)
      requires Valid()
      modifies this`lbDirty, this`lbLast, this`history
      ensures Valid()
      ensures View() == old(View()).(lb := old(View()).lb.(dirty := false, last := Some(wall)),
                                     history := old(View()).history + [wall])
    {
      hide Snapshots, SinksOf, WellFormed;
      ghost var r := View();
      lbDirty, lbLast := false, Some(wall);
      history := history + [wall];
      OtherFieldsDoNotMatter(r, View());
    }

    /** At most one update per interval, delayed if needed; time.AfterFunc is the due time. */
    method MarkLeaderboardDirty(env: Env)
      requires Valid()
      modifies this`lbDirty, this`lbLast, this`lbWaiting, this`lbDue, this`history, board, network
      ensures Valid() && View() == Spec.MarkLeaderboardDirty(config, old(View()), env)
    {
      hide Snapshots, SinksOf, WellFormed, Spec.SendLeaderboard;
      ghost var r := View();
      lbDirty := true;
      assert View() == r.(lb := r.lb.(dirty := true));
      OtherFieldsDoNotMatter(r, View());
      if lbWaiting { return; }
      if lbLast.None? || config.lbInterval - (env.wall - lbLast.value) <= 0 {
        SendLeaderboard(env);
        return;
      }
      lbWaiting, lbDue := true, lbLast.value + config.lbInterval;
      OtherFieldsDoNotMatter(r, View());
    }

    /** The pending timer fires. */
    method BoardTimer(env: Env)
      requires Valid()
      modifies this`lbDirty, this`lbLast, this`lbWaiting, this`history, board, network
      ensures Valid() && View() == Spec.BoardTimer(config, old(View()), env)
    {
      hide Snapshots, SinksOf, WellFormed, Spec.SendLeaderboard;
      ghost var r := View();
      lbWaiting := false;
      assert View() == r.(lb := r.lb.(waiting := false));
      OtherFieldsDoNotMatter(r, View());
      if lbDirty && !status.Ended? { SendLeaderboard(env); }
    }

    // -------------------------------------------------------------- ending

    method Podium() returns (rows: seq<RankRow>)
      requires Valid()
      ensures rows == Spec.Podium(View())
    {
      hide Snapshots, SinksOf, Rank.Order, Spec.Standings, Spec.RankRows;
      var standings := Standings();
      var ids := OrderStandings(standings);
      OrderedIdsArePlayers(View().players, View().order);
      SnapshotsAre(players);
      rows := RankRows(ids[..Min(PODIUM_SIZE, |ids|)]);
    }

    method EndSession(env: Env)
      requires Valid()
      modifies this`status, this`host, this`endMarks, players.Values, store, network
      ensures Valid() && View() == Spec.EndSession(old(View()), env)
    {
      hide Snapshots, SinksOf, WellFormed, Spec.Podium, Spec.Broadcast, Spec.CloseAll;
      if status.Ended? { return; }
      MarkEnded(env);
      var podium := Podium();
      Broadcast(RoomEnded(podium));
      CloseAll();
    }

    /** Ended in memory even if the database refuses. */
    method MarkEnded(env: Env)
      requires Valid()
      modifies this`status, this`endMarks, store
      ensures Valid()
      ensures View() == old(View()).(tables := Database.MarkRoomEnded(old(View()).tables, env.mark),
                                     endMarks := old(endMarks) + 1, status := Ended)
    {
      hide Snapshots, SinksOf, WellFormed;
      ghost var r := View();
      store.MarkRoomEnded(env.mark);
      endMarks := endMarks + 1;
      status := Ended;
      OtherFieldsDoNotMatter(r, View());
    }

    method EverybodyFinished() returns (all: bool)
      ensures all == AllFinished(config, View().players)
    {
      SnapshotsAre(players);
      hide Snapshots;
      var rest := players.Keys;
      while rest != {}
        invariant rest <= players.Keys
        invariant forall p :: p in players && p !in rest ==> players[p].resolved >= |config.questions|
      {
        var p :| p in rest;
        rest := rest - {p};
        if players[p].resolved < |config.questions| {
          assert View().players[p].progress.resolved < |config.questions|;
          return false;
        }
      }
      return true;
    }

    method EndIfAllFinished(env: Env)
      requires Valid()
      modifies this`status, this`host, this`endMarks, players.Values, store, network
      ensures Valid() && View() == Spec.EndIfAllFinished(config, old(View()), env)
    {
      SnapshotsAre(players);
      hide Snapshots, SinksOf, WellFormed, Valid, Spec.EndSession, AllFinished;
      assert |View().players| == |View().players.Keys| == |players|;
      if !status.Running? || |players| == 0 { return; }
      var over := EverybodyFinished();
      if over { EndSession(env); }
    }

    // -------------------------------------------------------------- resolving a question

    /** Grades a choice that came in time; anything else is worth what a timeout is. */
    method OutcomeOf(p: PlayerState, a: Active, option: Option<OptionId>, now: nat) returns (out: Outcome)
      ensures out == Spec.OutcomeOf(config, p.Done(), a, option, now)
    {
      if option.None? || now > Deadline(a) { return TimeoutOutcome(a); }
      var elapsed := now - a.servedAt;
      var correct := Judge(a.options, option.value);
      out := Outcome(option, Some(correct), Some(now), Points(config, a, correct, elapsed, p.streak),
                     Milliseconds(Min(elapsed, a.limit)));
    }

    method Persist(result: Result, env: Env) returns (error: SaveError)
      requires Valid()
      modifies store
      ensures Valid() && (View(), error) == Spec.Persist(old(View()), result, env)
    {
      hide Snapshots, SinksOf, WellFormed, Database.SaveResult, SaveToAccount;
      TablesAreConsistent(View());
      error := store.SaveResult(result, env.save, env.wall);
      assert (View(), error) == Spec.Persist(old(View()), result, env);
    }

    /** Memory moves on; then the standing is saved and everybody told. */
    method MoveOn(p: PlayerState, next: Progress, message: Option<Packet>, env: Env)
      requires Valid() && p.id in players && players[p.id] == p
      modifies this, players.Values, store, board, network
      ensures Valid() && players == old(players)
      ensures View() == Spec.Advanced(config, old(View()), p.id, next, message, env)
    {
      SnapshotsAre(players);
      hide Snapshots, SinksOf, WellFormed, Spec.SaveStandings, Spec.SendTo, Spec.MarkLeaderboardDirty,
           Spec.EndIfAllFinished;
      SetAndSave(p, next, env);
      hide Valid;
      if message.Some? { SendTo(p, message.value); }
      MarkLeaderboardDirty(env);
      if next.resolved >= |config.questions| { EndIfAllFinished(env); }
    }

    /** The new totals in memory, then in Redis. */
    method SetAndSave(p: PlayerState, next: Progress, env: Env)
      requires Valid() && p.id in players && players[p.id] == p
      modifies p, board
      ensures Valid()
      ensures var r := old(View()).(players := old(View()).players[p.id := Player(next, None)]);
        View() == Spec.SaveStandings(config, r, [StandingOf(p.id, next)], env.boardSaves)
    {
      SnapshotsAre(players);
      hide Snapshots, SinksOf, WellFormed, Spec.SaveStandings;
      ghost var r := View();
      SetProgress(p, next);
      OnePlayerReplaced(r, p.id, Player(next, None));
      ghost var r1 := View();
      SaveStandings([StandingOf(p.id, next)], env.boardSaves);
      OtherFieldsDoNotMatter(r1, View());
    }

    method SetProgress(p: PlayerState, next: Progress)
      requires Named(players) && p.id in players && players[p.id] == p
      modifies p
      ensures View() == old(View()).(players := old(View()).players[p.id := Player(next, None)])
    {
      SnapshotsAre(players);
      SinksAre(players);
      hide Snapshots, SinksOf;
      ghost var snapshots, sinks := Snapshots(players), SinksOf(players);
      p.score, p.correct, p.totalMs := next.score, next.correct, next.totalMs;
      p.streak, p.resolved, p.active := next.streak, next.resolved, None;
      OneStateChanged(players, p.id, snapshots, sinks);
      assert SinksOf(players) == old(SinksOf(players));
    }

    /** A result that is stored: the player moves on, told or not. */
    method Accept(p: PlayerState, a: Active, next: Progress, out: Outcome, announce: bool, env: Env)
      requires Valid() && p.id in players && players[p.id] == p
      modifies this, players.Values, store, board, network
      ensures p.id in old(View()).players
      ensures Valid() && players == old(players)
      ensures var message := Graded(Right(out), CorrectOptionId(a.question.options), out.points, next.score,
                                    next.streak,
                                    next.resolved >= |config.questions|);
        View() == Spec.Advanced(config, old(View()), p.id, next, if announce then Some(message) else None, env)
    {
      SnapshotsAre(players);
      hide View, Snapshots, Valid, Spec.Advanced, CorrectOptionId;
      var correctOption := FindCorrectOption(a.question.options);
      var message := Graded(Right(out), correctOption, out.points, next.score, next.streak,
                            next.resolved >= |config.questions|);
      MoveOn(p, next, if announce then Some(message) else None, env);
    }

    method Resolve(p: PlayerState, out: Outcome, announce: bool, env: Env) returns (saved: bool)
      requires Valid() && p.id in players && players[p.id] == p && p.active.Some?
      modifies this, players.Values, store, board, network
      ensures p.id in old(View()).players && old(View()).players[p.id].active.Some?
      ensures Valid() && players == old(players)
      ensures (View(), saved) == Spec.Resolve(config, old(View()), p.id, out, announce, env)
    {
      SnapshotsAre(players);
      hide Snapshots, SinksOf, WellFormed, Valid, Spec.Persist, Spec.Advanced, Spec.Reject, Advance, CorrectOptionId,
           ResultOf;
      var a := p.active.value;
      var next := Advanced(p.Done(), out);
      var finished := next.resolved >= |config.questions|;
      var error := Persist(ResultOf(p.id, a, out, next, finished), env);
      ResultNames(p.id, a, out, next, finished);
      saved := error == Saved;
      hide View;
      if !saved {
        RejectFailedSave(p, error);
      } else {
        Accept(p, a, next, out, announce, env);
      }
    }

    /** The totals after one more question. */
    method Advanced(p: Progress, out: Outcome) returns (next: Progress)
      ensures next == Advance(p, out)
    {
      var score, totalMs, resolved := p.score + out.points, p.totalMs + out.spentMs, p.resolved + 1;
      var streak, correct := 0, p.correct;
      if Right(out) { streak, correct := p.streak + 1, p.correct + 1; }
      next := Progress(score, correct, totalMs, streak, resolved);
    }

    method Reject(p: PlayerState, command: Command, code: Code)
      requires Valid() && p.id in players && players[p.id] == p
      modifies network
      ensures Valid() && View() == Spec.Reject(old(View()), p.id, command, code)
    {
      hide Snapshots, SinksOf, WellFormed, Spec.SendTo;
      SendTo(p, Error(code, command));
    }

    method RejectFailedSave(p: PlayerState, error: SaveError)
      requires Valid() && p.id in players && players[p.id] == p
      modifies network
      ensures Valid() && View() == Spec.Reject(old(View()), p.id, QAnswer,
                                               if error.DuplicateAnswer? then AlreadyAnswered else Internal)
    {
      if error.DuplicateAnswer? {
        Reject(p, QAnswer, AlreadyAnswered);
      } else {
        Reject(p, QAnswer, Internal);
      }
    }

    /** Closes the open question if its time is over; the result says that none is open any more. */
    method SettleExpired(p: PlayerState, env: Env) returns (free: bool)
      requires Valid() && p.id in players && players[p.id] == p
      modifies this, players.Values, store, board, network
      ensures p.id in old(View()).players
      ensures Valid() && players == old(players) && (View(), free) == Spec.SettleExpired(config, old(View()), p.id, env)
    {
      SnapshotsAre(players);
      hide Snapshots, SinksOf, WellFormed, Spec.Resolve;
      if p.active.None? { return true; }
      if !status.Running? || env.now < Deadline(p.active.value) { return false; }
      free := Resolve(p, TimeoutOutcome(p.active.value), false, env);
    }

    // -------------------------------------------------------------- serving

    /** The options shuffled in a copy, but those of a true/false question as they are. */
    method ShuffledOptions(q: Question, draws: seq<nat>) returns (options: seq<Choice>)
      ensures options == Spec.ShuffledOptions(q, draws)
    {
      if q.kind.TrueFalse? { return q.options; }
      var copy := new Choice[|q.options|](i requires 0 <= i < |q.options| => q.options[i]);
      assert copy[..] == q.options;
      Shuffle(copy, draws);
      options := copy[..];
    }

    method SendQuestion(p: PlayerState, now: nat)
      requires Valid() && p.id in players && players[p.id] == p && p.active.Some?
      modifies network
      ensures p.id in old(View()).players && old(View()).players[p.id].active.Some?
      ensures Valid() && View() == Spec.ShowActive(config, old(View()), p.id, now)
    {
      SnapshotsAre(players);
      hide Snapshots, SinksOf, WellFormed, Spec.SendTo;
      var a := p.active.value;
      var remaining := Max(a.servedAt + a.limit - now, 0);
      var labels: seq<Label> := [];
      for i := 0 to |a.options|
        invariant |labels| == i && forall j :: 0 <= j < i ==> labels[j] == Label(a.options[j].id, a.options[j].caption)
      {
        labels := labels + [Label(a.options[i].id, a.options[i].caption)];
      }
      assert labels == Labels(a.options);
      SendTo(p, Show(p.resolved, |config.questions|, a.question.site, a.question.level, a.question.prompt, labels,
                     Milliseconds(remaining)));
    }

    method Serve(p: PlayerState, env: Env)
      requires Valid() && p.id in players && players[p.id] == p && p.resolved < |config.questions|
      modifies p, network
      ensures p.id in old(View()).players && old(View()).players[p.id].progress.resolved < |config.questions|
      ensures Valid() && View() == Spec.Serve(config, old(View()), p.id, env)
    {
      SnapshotsAre(players);
      hide Snapshots, SinksOf, WellFormed, Spec.ShowActive, Spec.ShuffledOptions;
      ghost var r := View();
      var q := config.questions[p.resolved];
      var options := ShuffledOptions(q, env.draws);
      var a := Active(q, options, env.now, QuestionLimit(q.level, config.jenjang));
      SetActive(p, a);
      OnePlayerReplaced(r, p.id, View().players[p.id]);
      SendQuestion(p, env.now);
    }

    method SetActive(p: PlayerState, a: Active)
      requires Named(players) && p.id in players && players[p.id] == p
      modifies p
      ensures p.id in old(View()).players && p.active == Some(a)
      ensures var r := old(View());
        View() == r.(players := r.players[p.id := r.players[p.id].(active := Some(a))])
    {
      SnapshotsAre(players);
      SinksAre(players);
      hide Snapshots, SinksOf;
      ghost var snapshots, sinks := Snapshots(players), SinksOf(players);
      p.active := Some(a);
      OneStateChanged(players, p.id, snapshots, sinks);
      assert SinksOf(players) == old(SinksOf(players));
    }

    // -------------------------------------------------------------- q.next and q.answer

    method NextQuestion(id: PlayerId, env: Env)
      requires Valid()
      modifies this, players.Values, store, board, network
      ensures Valid() && players == old(players) && View() == Spec.NextQuestion(config, old(View()), id, env)
    {
      SnapshotsAre(players);
      hide Snapshots, SinksOf, WellFormed, Spec.SettleExpired, Spec.Proceed, Spec.Reject;
      if id !in players { return; }
      var p := players[id];
      if !status.Running? {
        Reject(p, QNext, NotStarted);
        return;
      }
      var free := SettleExpired(p, env);
      if !free {
        Reject(p, QNext, InProgress);
        return;
      }
      Proceed(p, env);
    }

    method Proceed(p: PlayerState, env: Env)
      requires Valid() && p.id in players && players[p.id] == p
      modifies p, network
      ensures p.id in old(View()).players
      ensures Valid() && View() == Spec.Proceed(config, old(View()), p.id, env)
    {
      SnapshotsAre(players);
      hide Snapshots, SinksOf, WellFormed, Spec.Serve, Spec.Reject;
      if !status.Running? { return; }
      if p.resolved >= |config.questions| {
        Reject(p, QNext, Finished);
        return;
      }
      Serve(p, env);
    }

    method WasResolved(p: PlayerState, question: QuestionId) returns (was: bool)
      ensures was == Spec.WasResolved(config, p.Done(), question)
    {
      for i := 0 to Min(p.resolved, |config.questions|)
        invariant forall j :: 0 <= j < i ==> config.questions[j].id != question
      {
        if config.questions[i].id == question { return true; }
      }
      return false;
    }

    method RejectUnservedAnswer(p: PlayerState, question: QuestionId)
      requires Valid() && p.id in players && players[p.id] == p
      modifies network
      ensures Valid()
      ensures View() == Spec.Reject(old(View()), p.id, QAnswer,
                                    if Spec.WasResolved(config, old(p.Done()),
                                                        question) then AlreadyAnswered else NotServed)
    {
      hide Spec.WasResolved;
      var was := WasResolved(p, question);
      if was {
        Reject(p, QAnswer, AlreadyAnswered);
        return;
      }
      Reject(p, QAnswer, NotServed);
    }

    /** An answer to the question the player is working on. */
    method AnswerActive(p: PlayerState, option: Option<OptionId>, env: Env)
      requires Valid() && p.id in players && players[p.id] == p && p.active.Some?
      modifies this, players.Values, store, board, network
      ensures p.id in old(View()).players && old(View()).players[p.id].active.Some?
      ensures Valid() && players == old(players)
      ensures var r, q := old(View()), old(View()).players[p.id];
        if option.Some? && !HasOption(q.active.value.options, option.value)
        then View() == Spec.Reject(r, p.id, QAnswer, BadOption)
        else
          var out := Spec.OutcomeOf(config, q.progress, q.active.value, option, env.now);
          View() == Spec.Resolve(config, r, p.id, out, true, env).0
    {
      SnapshotsAre(players);
      hide Snapshots, SinksOf, WellFormed, Valid, Spec.Resolve, Spec.Reject, Spec.OutcomeOf, HasOption;
      if option.Some? {
        var known := FindOption(p.active.value.options, option.value);
        if !known {
          Reject(p, QAnswer, BadOption);
          return;
        }
      }
      var out := OutcomeOf(p, p.active.value, option, env.now);
      var saved := Resolve(p, out, true, env);
    }

    method Answer(id: PlayerId, question: QuestionId, option: Option<OptionId>, env: Env)
      requires Valid()
      modifies this, players.Values, store, board, network
      ensures Valid() && players == old(players)
      ensures View() == Spec.SubmitAnswer(config, old(View()), id, question, option, env)
    {
      SnapshotsAre(players);
      hide Snapshots, SinksOf, WellFormed, Spec.Resolve, Spec.Reject, Spec.OutcomeOf, HasOption, Spec.WasResolved;
      if id !in players { return; }
      var p := players[id];
      if !status.Running? {
        Reject(p, QAnswer, NotStarted);
        return;
      }
      if p.active.None? || p.active.value.question.id != question {
        RejectUnservedAnswer(p, question);
        return;
      }
      AnswerActive(p, option, env);
    }

    // -------------------------------------------------------------- joining, attaching, leaving

    method AddPlayerAndNotify(id: PlayerId)
      requires Valid()
      modifies this`players, this`order, network
      ensures Valid() && View() == Spec.AddPlayerAndNotify(old(View()), id)
      ensures fresh(players.Values - old(players.Values))
    {
      hide Snapshots, SinksOf, WellFormed, Spec.AddPlayer, Tell;
      ghost var r := View();
      AddPlayer(id, NO_PROGRESS);
      Connected(View());
      ghost var r1 := View();
      if host.Some? { network.Send(host.value, Spec.Joined(id)); }
      assert View() == r1.(wire := network.wire);
      assert View() == Spec.AddPlayerAndNotify(r, id);
    }

    method StateMessage(p: Progress) returns (m: Packet)
      ensures m == Spec.StateMessage(View(), p)
    {
      m := RoomState(status, p.resolved, p.score, p.streak, order);
    }

    method AttachPlayer(id: PlayerId, s: SinkId, env: Env) returns (error: Option<AttachError>)
      requires Valid() && s !in network.wire
      modifies this, players.Values, store, board, network
      ensures Valid() && players == old(players) && View() == Spec.AttachPlayer(config, old(View()), id, s, env)
      ensures error == if id in old(players) then None else Some(UnknownPlayer)
    {
      SnapshotsAre(players);
      hide Snapshots, SinksOf, WellFormed, Spec.SettleExpired, Spec.Released, Spec.Welcome;
      if id !in players { return Some(UnknownPlayer); }
      var p := players[id];
      ghost var r := View();
      Release(p);
      var free := SettleExpired(p, env);
      assert View() == SettleUnattached(config, r, id, env);
      Welcome(p, s, env);
      error := None;
    }

    /** Closes the previous connection. */
    method Release(p: PlayerState)
      requires Valid() && p.id in players && players[p.id] == p
      modifies p, network
      ensures Valid() && View() == Spec.Released(old(View()), p.id)
    {
      SinksAre(players);
      hide Snapshots, SinksOf, WellFormed, Tell;
      ghost var r := View();
      Connected(r);
      if p.sink.Some? {
        network.Close(p.sink.value);
        SetSink(p, None);
      }
      assert View() == Spec.Released(r, p.id);
    }

    method Welcome(p: PlayerState, s: SinkId, env: Env)
      requires Valid() && p.id in players && players[p.id] == p && p.id !in View().sinks && s !in network.wire
      modifies p, network
      ensures p.id in old(View()).players
      ensures Valid() && View() == Spec.Welcome(config, old(View()), p.id, s, env.now)
    {
      SnapshotsAre(players);
      hide Snapshots, SinksOf, WellFormed, Spec.ShowActive, Spec.Podium, Spec.TakeSink, Tell;
      ghost var r := View();
      if status.Ended? {
        SayGoodbye(s);
        assert View() == Spec.Welcome(config, r, p.id, s, env.now);
        return;
      }
      var m := StateMessage(p.Done());
      TakeSink(p, s, m);
      if status.Running? && p.active.Some? { SendQuestion(p, env.now); }
    }

    method SayGoodbye(s: SinkId)
      requires Valid() && s !in network.wire
      modifies network
      ensures Named(players)
      ensures View() == old(View()).(wire := old(View()).wire[s := [RoomEnded(Spec.Podium(old(View()))), Closed]])
    {
      hide Snapshots, SinksOf, WellFormed, Spec.Podium, Tell;
      ghost var r := View();
      var podium := Podium();
      Greet(s, RoomEnded(podium));
      network.Close(s);
      SecondMessage(r.wire, s, RoomEnded(podium), Closed);
      assert View() == r.(wire := r.wire[s := [RoomEnded(podium), Closed]]);
    }

    /** The first message of a new connection. */
    method Greet(s: SinkId, m: Packet)
      requires s !in network.wire
      modifies network
      ensures network.wire == old(network.wire)[s := [m]]
    {
      hide Tell;
      ghost var wire := network.wire;
      network.Open(s);
      network.Send(s, m);
      FirstMessage(wire, s, m);
    }

    method SetSink(p: PlayerState, sink: Option<SinkId>)
      requires Named(players) && p.id in players && players[p.id] == p
      modifies p
      ensures p.active == old(p.active) && p.Snapshot() == old(p.Snapshot())
      ensures Snapshots(players) == old(Snapshots(players))
      ensures var sinks := old(SinksOf(players));
        SinksOf(players) == if sink.Some? then sinks[p.id := sink.value] else sinks - {p.id}
    {
      SnapshotsAre(players);
      SinksAre(players);
      hide Snapshots, SinksOf;
      ghost var snapshots, sinks := Snapshots(players), SinksOf(players);
      p.sink := sink;
      OneStateChanged(players, p.id, snapshots, sinks);
      assert Snapshots(players) == old(Snapshots(players));
    }

    method TakeSink(p: PlayerState, s: SinkId, m: Packet)
      requires Valid() && p.id in players && players[p.id] == p && p.id !in View().sinks && s !in network.wire
      modifies p, network
      ensures p.id in old(View()).players
      ensures Valid() && View() == Spec.TakeSink(old(View()), p.id, s, m)
      ensures p.active == old(p.active) && p.Snapshot() == old(p.Snapshot())
    {
      SnapshotsAre(players);
      hide Snapshots, SinksOf, WellFormed;
      ghost var r := View();
      SetSink(p, Some(s));
      Greet(s, m);
      assert View() == Spec.TakeSink(r, p.id, s, m);
    }

    method AttachHost(hostId: nat, s: SinkId) returns (error: Option<AttachError>)
      requires Valid() && s !in network.wire
      modifies this`host, network
      ensures Valid() && View() == Spec.AttachHost(old(View()), s, hostId == config.hostId)
      ensures error == if hostId == config.hostId then None else Some(NotHost)
    {
      if hostId != config.hostId { return Some(NotHost); }
      ReplaceHost(s);
      error := None;
    }

    method ReplaceHost(s: SinkId)
      requires Valid() && s !in network.wire
      modifies this`host, network
      ensures Valid() && View() == Spec.AttachHost(old(View()), s, true)
    {
      hide Snapshots, SinksOf, WellFormed, Tell;
      ghost var r := View();
      CloseHost();
      ghost var wire := network.wire;
      host := Some(s);
      var m := StateMessage(NO_PROGRESS);
      Greet(s, m);
      assert m == Spec.StateMessage(r, NO_PROGRESS);
      assert View() == r.(host := Some(s), wire := wire[s := [Spec.StateMessage(r, NO_PROGRESS)]]);
      assert View() == Spec.AttachHost(r, s, true);
    }

    method CloseHost()
      requires Valid()
      modifies network
      ensures host.Some? ==> host.value in old(network.wire)
      ensures network.wire == HostTold(old(network.wire), host, Closed)
    {
      hide Snapshots, SinksOf, WellFormed, Tell;
      Connected(View());
      if host.Some? { network.Close(host.value); }
    }

    method Detach(s: SinkId)
      requires Valid()
      modifies this`host, players.Values
      ensures Valid() && View() == Spec.Detach(old(View()), s)
    {
      hide Snapshots, SinksOf, WellFormed;
      ghost var r := View();
      if host == Some(s) { host := None; }
      DetachPlayers(s);
      assert View() == Spec.Detach(r, s);
    }

    method DetachPlayers(s: SinkId)
      requires Named(players)
      modifies players.Values
      ensures Snapshots(players) == old(Snapshots(players))
      ensures var sinks := old(SinksOf(players));
        SinksOf(players) == map p | p in sinks && sinks[p] != s :: sinks[p]
    {
      hide Snapshots, SinksOf, NotAt;
      ghost var sinks := SinksOf(players);
      var rest := players.Keys;
      SinksAre(players);
      NotAtAll(sinks, s, rest);
      while rest != {}
        invariant rest <= players.Keys
        invariant Snapshots(players) == old(Snapshots(players)) && SinksOf(players) == NotAt(sinks, s, rest)
      {
        var p :| p in rest;
        SinksAre(players);
        NotAtWithout(sinks, s, rest, p);
        rest := rest - {p};
        if players[p].sink == Some(s) { SetSink(players[p], None); }
      }
    }

    // -------------------------------------------------------------- the host's commands

    method StartSession(env: Env)
      requires Valid()
      modifies this`status, this`deadline, store, network
      ensures Valid() && View() == Spec.StartSession(old(View()), env)
    {
      hide Snapshots, SinksOf, Spec.Broadcast, WellFormed;
      if !status.Lobby? { return; }
      var started := MarkStarted(env);
      if !started { return; }
      ghost var r := View();
      status, deadline := Running, Some(env.wall + MAX_ROOM_DURATION);
      OtherFieldsDoNotMatter(r, View());
      Broadcast(RoomStarted);
    }

    /** Asks the database; an error counts as not started. */
    method MarkStarted(env: Env) returns (started: bool)
      requires Valid()
      modifies store
      ensures Valid()
      ensures View() == old(View()).(tables := Database.MarkRoomStarted(old(View()).tables, env.mark, env.wall).0)
      ensures var (_, moved, failed) := Database.MarkRoomStarted(old(View()).tables, env.mark, env.wall);
        started == (moved && !failed)
    {
      hide Snapshots, SinksOf;
      var moved, failed := store.MarkRoomStarted(env.mark, env.wall);
      started := moved && !failed;
    }

    method Kick(id: PlayerId, env: Env)
      requires Valid()
      modifies this, players.Values, store, board, network
      ensures Valid() && players.Values <= old(players.Values) && View() == Spec.Kick(config, old(View()), id, env)
    {
      SnapshotsAre(players);
      hide Snapshots, SinksOf, WellFormed, Spec.Deleted, Spec.Gone;
      if id !in players { return; }
      var deleted := Delete(id, env);
      if deleted { Leave(id, env); }
    }

    /** The leaderboard is marked, and the session ends if nobody is left to play. */
    method Announce(env: Env)
      requires Valid()
      modifies this, players.Values, store, board, network
      ensures Valid() && players == old(players)
      ensures View() == Spec.EndIfAllFinished(config, Spec.MarkLeaderboardDirty(config, old(View()), env), env)
    {
      hide View, Valid, Spec.MarkLeaderboardDirty, Spec.EndIfAllFinished;
      MarkLeaderboardDirty(env);
      EndIfAllFinished(env);
    }

    /** What follows once the database has deleted the player. */
    method Leave(id: PlayerId, env: Env)
      requires Valid() && id in players
      modifies this, players.Values, store, board, network
      ensures Valid() && players.Values <= old(players.Values) && View() == Spec.Gone(config, old(View()), id, env)
    {
      SinksAre(players);
      hide Snapshots, SinksOf, WellFormed, Spec.Removed, Spec.Farewell;
      ghost var r := View();
      SinksAreOpen(r);
      var sink := players[id].sink;
      Remove(id, env);
      if sink.Some? { SayFarewell(sink.value); }
      Announce(env);
      assert View() == Spec.Gone(config, r, id, env);
    }

    method Delete(id: PlayerId, env: Env) returns (deleted: bool)
      requires Valid()
      modifies store
      ensures Valid() && (View(), deleted) == Spec.Deleted(old(View()), id, env)
    {
      hide Snapshots, SinksOf, WellFormed, Database.DeletePlayer;
      ghost var r := View();
      deleted := store.DeletePlayer(id, env.delete);
      assert (View(), deleted) == Spec.Deleted(r, id, env);
    }

    method DropPlayer(id: PlayerId)
      requires Named(players) && id in players
      modifies this`players, this`order
      ensures players == old(players) - {id} && order == Without(old(order), id)
      ensures Snapshots(players) == old(Snapshots(players)) - {id} && SinksOf(players) == old(SinksOf(players)) - {id}
    {
      SnapshotsAre(players);
      SinksAre(players);
      hide Snapshots, SinksOf;
      ghost var snapshots, sinks := Snapshots(players), SinksOf(players);
      players := players - {id};
      order := RemoveId(order, id);
      SnapshotsEqual(players, snapshots - {id});
      SinksEqual(players, sinks - {id});
    }

    method Remove(id: PlayerId, env: Env)
      requires Valid() && id in players
      modifies this`players, this`order, board
      ensures Valid() && players == old(players) - {id} && View() == Spec.Removed(config, old(View()), id, env)
    {
      hide Snapshots, SinksOf, WellFormed;
      ghost var r := View();
      DropPlayer(id);
      ghost var s := View();
      RosterWithout(r, id);
      if config.hasBoard { board.Forget(id, env.boardForgets); }
      assert View() == Spec.Removed(config, r, id, env);
    }

    method SayFarewell(s: SinkId)
      requires Valid() && s in network.wire
      modifies network
      ensures Valid() && View() == Spec.Farewell(old(View()), s)
    {
      hide Snapshots, SinksOf, WellFormed;
      ghost var r := View();
      network.Send(s, Kicked);
      network.Close(s);
      assert View() == Spec.Farewell(r, s);
    }

    // -------------------------------------------------------------- the loop

    /** One event taken from the queue: the class does what the runs of module World say. */
    method Process(ghost w: World.World, i: World.Input)
      requires Valid() && w.room == View() && World.IsRoomEvent(i.event) && World.Enabled(w, i)
      modifies this, players.Values, store, board, network
      ensures Valid() && View() == World.RoomAfter(config, w, i)
      ensures fresh(players.Values - old(players.Values))
    {
      hide View, Valid, WellFormed, World.RoomAfter, World.EventEnabled;
      if i.event.AddJoined? || i.event.DetachEvent? {
        ProcessRoster(w, i);
      } else if i.event.AttachPlayerEvent? || i.event.AttachHostEvent? {
        ProcessAttach(w, i);
      } else if i.event.Next? || i.event.Submit? {
        ProcessCommand(w, i);
      } else if i.event.BoardTimerFires? || i.event.KickEvent? {
        ProcessRanking(w, i);
      } else {
        ProcessSession(w, i);
      }
    }

    method ProcessRoster(ghost w: World.World, i: World.Input)
      requires Valid() && w.room == View() && World.Enabled(w, i) && (i.event.AddJoined? || i.event.DetachEvent?)
      modifies this, players.Values, store, board, network
      ensures Valid() && View() == World.RoomAfter(config, w, i)
      ensures fresh(players.Values - old(players.Values))
    {
      hide View, Valid, WellFormed, Spec.AddPlayerAndNotify, Spec.Detach;
      match i.event
      case AddJoined(p) => AddPlayerAndNotify(p);
      case DetachEvent(s) => Detach(s);
    }

    method ProcessAttach(ghost w: World.World, i: World.Input)
      requires Valid() && w.room == View() && World.Enabled(w, i)
      requires i.event.AttachPlayerEvent? || i.event.AttachHostEvent?
      modifies this, players.Values, store, board, network
      ensures Valid() && players == old(players) && View() == World.RoomAfter(config, w, i)
    {
      assert network.wire == w.room.wire;
      hide View, Valid, WellFormed, Spec.AttachPlayer, Spec.AttachHost;
      match i.event
      case AttachPlayerEvent(p, s) => var error := AttachPlayer(p, s, i.env);
      case AttachHostEvent(s, hostId) => var error := AttachHost(hostId, s);
    }

    method ProcessCommand(ghost w: World.World, i: World.Input)
      requires Valid() && w.room == View() && World.Enabled(w, i) && (i.event.Next? || i.event.Submit?)
      modifies this, players.Values, store, board, network
      ensures Valid() && players == old(players) && View() == World.RoomAfter(config, w, i)
    {
      hide View, Valid, WellFormed, Spec.NextQuestion, Spec.SubmitAnswer;
      match i.event
      case Next(p) => NextQuestion(p, i.env);
      case Submit(p, question, option) => Answer(p, question, option, i.env);
    }

    method ProcessRanking(ghost w: World.World, i: World.Input)
      requires Valid() && w.room == View() && World.Enabled(w, i) && (i.event.BoardTimerFires? || i.event.KickEvent?)
      modifies this, players.Values, store, board, network
      ensures Valid() && players.Values <= old(players.Values) && View() == World.RoomAfter(config, w, i)
    {
      hide View, Valid, WellFormed, Spec.BoardTimer, Spec.Kick;
      match i.event
      case BoardTimerFires => BoardTimer(i.env);
      case KickEvent(p) => Kick(p, i.env);
    }

    /** Started or ended by the host, or ended by the deadline. */
    method ProcessSession(ghost w: World.World, i: World.Input)
      requires Valid() && w.room == View() && World.Enabled(w, i) && World.SessionEvent(i.event)
      modifies this, players.Values, store, board, network
      ensures Valid() && players == old(players) && View() == World.RoomAfter(config, w, i)
    {
      hide View, Valid, WellFormed, Spec.StartSession, Spec.EndSession;
      if i.event.Start? { StartSession(i.env); } else { EndSession(i.env); }
    }
  }

  /** Why Get gives no room: a row it needs is missing or the session is over, a read failed, or a mark failed. */
  datatype LoadError = NotFound | ReadFailed | EndFailed

  /** What reading rows from the database gives. */
  datatype Reading = Found | Missing | Failed

  function ReadingError(reading: Reading): LoadError {
    if reading.Missing? then NotFound else ReadFailed
  }

  /**
   * Registry.Get when no live room is found: nothing for an ended room; an expired one is marked ended; otherwise a
   * new room object made from the stored rows, which rebuilds the board. row says what reading the room's row gives,
   * parts what reading its players and questions gives; an unknown room or question is missing.
   */
  method Load(config: Config, store: Store, board: Board, network: Network, ghost r: Spec.Room, row: Reading,
              parts: Reading, env: Env)
    returns (room: Option<RoomObject>, error: Option<LoadError>)
    requires WellFormed(r) && r.tables == store.View() && r.board == board.entries && r.wire == network.wire
    modifies store, board
    ensures room.Some? <==> error.None?
    ensures room.Some? <==> row.Found? && World.Loaded(config, r, env).1 && parts.Found?
    ensures room.Some? ==>
      room.value.Valid() && fresh(room.value) && room.value.View() == World.Loaded(config, r, env).0
    ensures room.None? ==> board.entries == old(board.entries)
    ensures room.None? ==> store.View() == if row.Found? then World.Loaded(config, r, env).0.tables else r.tables
    ensures row.Found? && r.tables.status.Ended? ==> error == Some(NotFound)
    ensures row.Found? && World.Expired(r.tables, env.wall) ==>
      error == Some(if env.mark.Works? then NotFound else EndFailed)
    ensures !row.Found? ==> error == Some(ReadingError(row))
    ensures row.Found? && World.Loaded(config, r, env).1 && !parts.Found? ==> error == Some(ReadingError(parts))
  {
    hide World.NewRoom, WellFormed, RoomObject.Valid, RoomObject.View, Spec.SaveStandings, Spec.Standings;
    if !row.Found? { return None, Some(ReadingError(row)); }
    error := EndIfOver(store, env);
    if error.Some? { return None, error; }
    if !parts.Found? { return None, Some(ReadingError(parts)); }
    var loaded := Revive(config, store, board, network, r, env);
    room := Some(loaded);
  }

  /** An ended session is not found; an expired one is marked ended first. */
  method EndIfOver(store: Store, env: Env) returns (error: Option<LoadError>)
    modifies store
    ensures var t := old(store.View());
      var over := World.Expired(t, env.wall);
      && store.View() == (if over then Database.MarkRoomEnded(t, env.mark) else t)
      && error == (if t.status.Ended? || (over && env.mark.Works?) then Some(NotFound)
                   else if over then Some(EndFailed) else None)
  {
    if store.status.Ended? { return Some(NotFound); }
    if store.status.Running? && TimeIsUp(store.startedAt, env.wall) {
      store.MarkRoomEnded(env.mark);
      return Some(if env.mark.Works? then NotFound else EndFailed);
    }
    return None;
  }

  /** spawn for a session that goes on: the new object, then its first event. */
  method Revive(config: Config, store: Store, board: Board, network: Network, ghost r: Spec.Room,
                env: Env) returns (room: RoomObject)
    requires WellFormed(r) && r.tables == store.View() && r.board == board.entries && r.wire == network.wire
    modifies board
    ensures room.Valid() && fresh(room)
    ensures var s := World.NewRoom(r, env.wall);
      room.View() == Spec.SaveStandings(config, s, Spec.Standings(s.players, s.order), env.boardRebuilds)
  {
    hide Snapshots, SinksOf, World.NewRoom, Spec.SaveStandings, Spec.Standings;
    TablesAreConsistent(r);
    NewRoomNeedsOnlyTheRows(r, env.wall);
    hide WellFormed, Consistent;
    room := new RoomObject(config, store, board, network, env.wall);
    room.RestoreBoard(env.boardRebuilds);
  }

  lemma NewRoomNeedsOnlyTheRows(r: Spec.Room, wall: nat)
    requires Consistent(r.tables)
    ensures World.NewRoom(World.CREATED.room.(tables := r.tables, board := r.board, wire := r.wire),
                          wall) == World.NewRoom(r, wall)
  {
    hide WellFormed, Consistent;
  }
}
