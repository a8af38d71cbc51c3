/** Runs: one room over its whole life, with joins, crashes, shutdowns and reloads between its events. */
module World {
  import opened Common
  import opened Database
  import opened RoomSpec

  datatype Event =
    | Join(player: PlayerId, place: nat)     // the JoinRoom transaction commits
    | AddJoined(player: PlayerId)            // the live room learns about it
    | LoseJoined(player: PlayerId)           // ... or never does
    | AttachPlayerEvent(player: PlayerId, sink: SinkId)
    | AttachHostEvent(sink: SinkId, hostId: nat)
    | DetachEvent(sink: SinkId)
    | Start
    | EndByHost
    | DeadlineFires
    | BoardTimerFires
    | Next(player: PlayerId)
    | Submit(player: PlayerId, question: QuestionId, option: Option<OptionId>)
    | KickEvent(player: PlayerId)
    | Crash
    | Shutdown
    | Load                                   // Registry.Get finds no live room

  datatype Input = Input(event: Event, env: Env)

  /**
   * live: a room object processes events. pending: joins the live room has not learnt about, whose
   * players hold no token yet. issued: every player id so far. clock and wall: the latest readings.
   */
  datatype World = World(live: bool, room: Room, pending: set<PlayerId>, issued: set<PlayerId>, clock: nat, wall: nat)

  const NEW_TABLES := Tables(Lobby, 0, map[], map[], [])
  const IDLE_THROTTLE := Throttle(false, false, None, 0)

  /** A room row just created, not yet loaded by anybody. */
  const CREATED := World(false, Room(Lobby, map[], [], None, map[], None, IDLE_THROTTLE, NEW_TABLES, map[], map[], [],
                                     0),
                         {}, {}, 0, 0)

  // ---------------------------------------------------------------- loading

  function ProgressOf(row: Row): Progress
    requires row.index >= 0
  {
    Progress(row.score, row.correct, row.totalMs, row.streak, row.index)
  }

  /** newRoom: the players of the tables in join order, nothing active, nobody connected. */
  function NewRoom(r: Room, wall: nat): (s: Room)
    requires Consistent(r.tables)
    ensures WellFormed(s) && s.tables == r.tables && s.players.Keys == r.tables.rows.Keys
  {
    var t := r.tables;
    Room(t.status, map p | p in t.rows :: Player(ProgressOf(t.rows[p]), None), t.joined, None, map[],
         if t.status.Running? then Some(wall + Max(MAX_ROOM_DURATION - (wall - t.startedAt), NS_PER_MS)) else None,
         IDLE_THROTTLE, t, r.board, r.wire, [], 0)
  }

  predicate Expired(t: Tables, wall: nat) {
    t.status.Running? && TimeIsUp(t.startedAt, wall)
  }

  /** Registry.Get without a live room: not found when ended or expired, otherwise load and rebuild the board. */
  function Loaded(c: Config, r: Room, env: Env): (result: (Room, bool))
    requires WellFormed(r)
    ensures WellFormed(result.0) && result.0.tables.rows.Keys == r.tables.rows.Keys
    ensures result.0.players.Keys == r.players.Keys || result.0.players.Keys == r.tables.rows.Keys
  {
    hide NewRoom, SaveStandings, Standings;
    if r.tables.status.Ended? then (r, false)
    else if Expired(r.tables, env.wall) then (r.(tables := MarkRoomEnded(r.tables, env.mark)), false)
    else
      var s := NewRoom(r, env.wall);
      (SaveStandings(c, s, Standings(s.players, s.order), env.boardRebuilds), true)
  }

  ghost predicate IsStored(p: Player, account: Option<Account>) {
    account.Some? && account.value.row.index >= 0 && p == Player(ProgressOf(account.value.row), None)
  }

  /** What a load makes of one seat. */
  ghost predicate Reloads(r: Room, s: Room, live: bool, env: Env, id: PlayerId) {
    && s.wire == r.wire
    && AccountOf(s.tables, id) == AccountOf(r.tables, id)
    && s.tables.startedAt == r.tables.startedAt
    && (live <==> !r.tables.status.Ended? && !Expired(r.tables, env.wall))
    && s.tables.status == (if Expired(r.tables, env.wall) && !env.mark.Refused? then Ended else r.tables.status)
    && (!live ==> s == r.(tables := s.tables))
    && (live ==>
        && s.status == r.tables.status
        && (id in s.players <==> AccountOf(r.tables, id).Some?)
        && (id in s.players ==> IsStored(s.players[id], AccountOf(r.tables, id)))
        && s.deadline == (if r.tables.status.Running?
             then Some(env.wall + Max(MAX_ROOM_DURATION - (env.wall - r.tables.startedAt), NS_PER_MS)) else None))
  }

  lemma NewRoomSeat(r: Room, wall: nat, id: PlayerId)
    requires Consistent(r.tables)
    ensures var s := NewRoom(r, wall);
      && s.status == r.tables.status && s.wire == r.wire && s.tables == r.tables
      && (id in s.players <==> AccountOf(r.tables, id).Some?)
      && (id in s.players ==> IsStored(s.players[id], AccountOf(r.tables, id)))
      && s.deadline == (if r.tables.status.Running?
           then Some(wall + Max(MAX_ROOM_DURATION - (wall - r.tables.startedAt), NS_PER_MS)) else None)
  {
    hide WellFormed;
  }

  lemma LoadReloads(c: Config, r: Room, env: Env, id: PlayerId)
    requires WellFormed(r)
    ensures Reloads(r, Loaded(c, r, env).0, Loaded(c, r, env).1, env, id)
  {
    assert Consistent(r.tables);
    NewRoomSeat(r, env.wall, id);
    StatusKeepsAccounts(r.tables, MarkRoomEnded(r.tables, env.mark), id);
    hide Standings, SaveStandings, WellFormed, NewRoom, IsStored, Consistent, AccountOf;
  }

  lemma StatusKeepsAccounts(t: Tables, u: Tables, id: PlayerId)
    requires u == t.(status := u.status)
    ensures AccountOf(u, id) == AccountOf(t, id)
  {
  }

  function Disconnected(r: Room): (s: Room)
    requires WellFormed(r)
    ensures WellFormed(s) && s == r.(host := None, sinks := map[])
  {
    r.(host := None, sinks := map[])
  }

  function Inserted(r: Room, p: PlayerId, place: nat): (s: Room)
    requires WellFormed(r) && p !in r.tables.rows
    ensures WellFormed(s) && s == r.(tables := InsertPlayer(r.tables, p, place))
  {
    InsertingKeepsConsistency(r.tables, p, place);
    r.(tables := InsertPlayer(r.tables, p, place))
  }

  // ---------------------------------------------------------------- steps

  predicate IsRoomEvent(e: Event) {
    !e.Join? && !e.LoseJoined? && !e.Crash? && !e.Shutdown? && !e.Load?
  }

  predicate EventEnabled(w: World, i: Input) {
    var r := w.room;
    match i.event
    case Join(p, _) => p !in w.issued && !r.tables.status.Ended? && |r.tables.rows| < MAX_PLAYERS
    case AddJoined(p) => p in w.pending
    case AttachPlayerEvent(p, s) => s !in r.wire && p !in w.pending
    case AttachHostEvent(s, _) => s !in r.wire
    case DeadlineFires => r.deadline.Some? && i.env.wall >= r.deadline.value
    case BoardTimerFires => r.lb.waiting && i.env.wall >= r.lb.due
    case Next(p) => p !in w.pending
    case Submit(p, _, _) => p !in w.pending
    case Crash => w.live
    case Shutdown => w.live
    case Load => !w.live
    case _ => true
  }

  /** Clocks never run backwards; a room object that ended or crashed processes nothing more. */
  predicate Enabled(w: World, i: Input) {
    && i.env.now >= w.clock && i.env.wall >= w.wall
    && (IsRoomEvent(i.event) ==> w.live)
    && EventEnabled(w, i)
  }

  ghost function RoomAfter(c: Config, w: World, i: Input): (s: Room)
    requires WellFormed(w.room) && IsRoomEvent(i.event) && Enabled(w, i)
    ensures WellFormed(s)
    ensures s.tables.rows.Keys <= w.room.tables.rows.Keys
    ensures s.players.Keys <= w.room.players.Keys + if i.event.AddJoined? then {i.event.player} else {}
  {
    hide AddPlayerAndNotify, AttachPlayer, AttachHost, Detach, StartSession, EndSession, BoardTimer, NextQuestion,
         SubmitAnswer, Kick,
         WellFormed, NextSeat, SubmitSeat, SettleSeat, AllFinished, SurplusMarks, AccountOf, MarkRoomStarted,
         OnlyPlayer, DeletePlayer;
    var r, env := w.room, i.env;
    match i.event
    case AddJoined(p) => AddPlayerAndNotify(r, p)
    case AttachPlayerEvent(p, s) =>
      var t := AttachPlayer(c, r, p, s, env);
      if p in r.players then OnlyPlayerKeeps(r, t.(wire := r.wire, sinks := map[]), p); t else t
    case AttachHostEvent(s, hostId) => AttachHost(r, s, hostId == c.hostId)
    case DetachEvent(s) => Detach(r, s)
    case Start => StartSession(r, env)
    case EndByHost => EndSession(r, env)
    case DeadlineFires => EndSession(r, env)
    case BoardTimerFires => BoardTimer(c, r, env)
    case Next(p) =>
      var t := NextQuestion(c, r, p, env);
      OnlyPlayerKeeps(r, t, p);
      t
    case Submit(p, question, option) =>
      var t := SubmitAnswer(c, r, p, question, option, env);
      OnlyPlayerKeeps(r, t, p);
      t
    case KickEvent(p) =>
      DeletingAddsNobody(r.tables, p, env.delete);
      Kick(c, r, p, env)
  }

  lemma DeletingAddsNobody(t: Tables, p: PlayerId, fault: Fault)
    ensures DeletePlayer(t, p, fault).0.rows.Keys <= t.rows.Keys
  {
  }

  ghost predicate Sound(w: World) {
    && WellFormed(w.room)
    && w.room.tables.rows.Keys <= w.issued && w.pending <= w.issued && w.room.players.Keys <= w.issued
  }

  ghost function Apply(c: Config, w: World, i: Input): (v: World)
    requires Sound(w) && Enabled(w, i)
    ensures Sound(v)
  {
    hide RoomAfter, CloseAll, Loaded, WellFormed, Inserted, Disconnected;
    var r := w.room;
    match i.event
    case Join(p, place) =>
      w.(room := Inserted(r, p, place), pending := w.pending + {p}, issued := w.issued + {p})
    case LoseJoined(p) => w.(pending := w.pending - {p})
    case Crash => w.(live := false, room := Disconnected(r))
    case Shutdown => w.(live := false, room := CloseAll(r))
    case Load => var (s, live) := Loaded(c, r, i.env); w.(live := live, room := s)
    case _ =>
      var s := RoomAfter(c, w, i);
      w.(live := !s.status.Ended?, room := s,
         pending := if i.event.AddJoined? then w.pending - {i.event.player} else w.pending)
  }

  /** An event that is not enabled does not happen. */
  ghost function Step(c: Config, w: World, i: Input): (v: World)
    requires Sound(w)
    ensures Sound(v)
  {
    hide Apply;
    if Enabled(w, i) then Apply(c, w, i).(clock := i.env.now, wall := i.env.wall) else w
  }

  lemma PendingIsAdded(w: World, i: Input)
    requires Enabled(w, i) && i.event.AddJoined?
    ensures i.event.player in w.pending
  {
  }

  lemma NothingHappens(c: Config, w: World, i: Input)
    requires Sound(w) && !Enabled(w, i)
    ensures Step(c, w, i) == w
  {
  }

  /** A step that happens, by the kind of its event. */
  lemma RoomStep(c: Config, w: World, i: Input)
    requires Sound(w) && Enabled(w, i) && IsRoomEvent(i.event)
    ensures var s := RoomAfter(c, w, i);
      var pending := if i.event.AddJoined? then w.pending - {i.event.player} else w.pending;
      Step(c, w, i) == World(!s.status.Ended?, s, pending, w.issued, i.env.now, i.env.wall)
  {
    hide RoomAfter, WellFormed, EventEnabled;
  }

  lemma LoadStep(c: Config, w: World, i: Input)
    requires Sound(w) && Enabled(w, i) && i.event.Load?
    ensures var (s, live) := Loaded(c, w.room, i.env);
      Step(c, w, i) == World(live, s, w.pending, w.issued, i.env.now, i.env.wall)
  {
    hide Loaded, WellFormed;
  }

  /** Joins and stops leave the game itself alone. */
  lemma OutsideStep(c: Config, w: World, i: Input)
    requires Sound(w) && Enabled(w, i) && !IsRoomEvent(i.event) && !i.event.Load?
    ensures var v := Step(c, w, i);
      && v.room == w.room.(tables := v.room.tables, host := v.room.host, sinks := v.room.sinks, wire := v.room.wire)
      && v.room.tables.status == w.room.tables.status && v.room.tables.startedAt == w.room.tables.startedAt
      && (v.live <==> w.live && !i.event.Crash? && !i.event.Shutdown?)
      && (forall p :: p in v.pending ==> p in w.pending || p !in w.issued)
      && v.clock == i.env.now && v.wall == i.env.wall
  {
    hide WellFormed, CloseAll, Inserted, Disconnected;
  }

  /** ... and every account, but that a new player gets one. */
  lemma OutsideAccounts(c: Config, w: World, i: Input, id: PlayerId)
    requires Sound(w) && Enabled(w, i) && !IsRoomEvent(i.event) && !i.event.Load?
    ensures var now, next := AccountOf(w.room.tables, id), AccountOf(Step(c, w, i).room.tables, id);
      next == now || (id !in w.issued && next == Some(NEW_ACCOUNT))
  {
    hide WellFormed, CloseAll;
  }

  ghost function Run(c: Config, w: World, inputs: seq<Input>): (v: World)
    requires Sound(w)
    ensures Sound(v)
  {
    hide Step;
    if inputs == [] then w else Step(c, Run(c, w, inputs[..|inputs| - 1]), inputs[|inputs| - 1])
  }

  // ---------------------------------------------------------------- what a step does to one seat

  /** The effect of an event on the seat of the player it is about; every other seat stays as it is. */
  function PlaySeat(c: Config, running: bool, seat: Seat, id: PlayerId, i: Input): Seat {
    match i.event
    case Next(p) => if p == id then NextSeat(c, running, seat, id, i.env) else seat
    case Submit(p, question, option) =>
      if p == id then SubmitSeat(c, running, seat, id, question, option, i.env) else seat
    case AttachPlayerEvent(p, _) => if p == id then SettleSeat(c, running, seat, id, i.env) else seat
    case KickEvent(p) => if p == id && !i.env.delete.Refused? then seat.(account := None) else seat
    case _ => seat
  }

  /** Room events act on each seat separately: by PlaySeat, by joining, or by being kicked. */
  ghost predicate ActsOnSeat(c: Config, r: Room, s: Room, id: PlayerId, i: Input) {
    && (id in r.players && id in s.players ==> SeatOf(s, id) == PlaySeat(c, r.status.Running?, SeatOf(r, id), id, i))
    && (id in r.players && id !in s.players ==> i.event == KickEvent(id) && AccountOf(s.tables, id).None?)
    && (i.event == KickEvent(id) && id in r.players ==> (id in s.players <==> !i.env.delete.Works?))
    && (id !in r.players ==> AccountOf(s.tables, id) == AccountOf(r.tables, id))
    && (id !in r.players && id in s.players ==> i.event == AddJoined(id) && s.players[id] == Player(NO_PROGRESS, None))
  }

  lemma SeatsActSeparately(c: Config, w: World, i: Input, id: PlayerId)
    requires WellFormed(w.room) && IsRoomEvent(i.event) && Enabled(w, i)
    ensures ActsOnSeat(c, w.room, RoomAfter(c, w, i), id, i)
  {
    hide AddPlayerAndNotify, AttachPlayer, AttachHost, Detach, StartSession, EndSession, BoardTimer, NextQuestion,
         SubmitAnswer, Kick,
         NextSeat, SubmitSeat, SettleSeat, WellFormed;
    var r, s := w.room, RoomAfter(c, w, i);
    match i.event
    case KickEvent(p) => DeleteIsLocal(r.tables, p, i.env.delete, id);
    case _ =>
  }

  lemma DeleteIsLocal(t: Tables, p: PlayerId, fault: Fault, id: PlayerId)
    ensures AccountOf(DeletePlayer(t, p, fault).0, id)
         == if id == p && !fault.Refused? then None else AccountOf(t, id)
    ensures DeletePlayer(t, p, fault).1 ==> !fault.Refused?
  {
  }

  /** No room event forgets a connection, and only attaching brings one. */
  ghost predicate WireGrows(r: Room, s: Room, e: Event) {
    && r.wire.Keys <= s.wire.Keys
    && s.wire.Keys <= r.wire.Keys + (if e.AttachPlayerEvent? || e.AttachHostEvent? then {e.sink} else {})
    && (e.AttachPlayerEvent? && e.player in r.players ==> e.sink in s.wire)
  }

  predicate SessionEvent(e: Event) {
    e.Start? || e.EndByHost? || e.DeadlineFires?
  }

  /** Other events leave the session alone, unless they finish the last player. */
  ghost predicate KeepsSession(c: Config, r: Room, s: Room) {
    && s.deadline == r.deadline && s.tables.startedAt == r.tables.startedAt
    && (s.status == r.status ==> s.tables.status == r.tables.status)
    && (s.tables.status == r.tables.status || s.tables.status.Ended?)
    && (s.status != r.status ==> r.status.Running? && s.status.Ended? && AllFinished(c, s.players))
  }

  lemma SessionAndWire(c: Config, w: World, i: Input)
    requires WellFormed(w.room) && IsRoomEvent(i.event) && Enabled(w, i)
    ensures WireGrows(w.room, RoomAfter(c, w, i), i.event)
    ensures !SessionEvent(i.event) ==> KeepsSession(c, w.room, RoomAfter(c, w, i))
  {
    hide AddPlayerAndNotify, AttachPlayer, AttachHost, Detach, StartSession, EndSession, BoardTimer, NextQuestion,
         SubmitAnswer, Kick,
         NextSeat, SubmitSeat, SettleSeat, WellFormed, AllFinished;
  }
}
