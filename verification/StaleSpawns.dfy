/**
 * Runs in which a room object may be spawned from rows that were read earlier (api/internal/game/registry.go): what
 * memory and rows then still have in common.
 */
module StaleSpawns {
  import opened Common
  import opened Questions
  import Shuffling
  import opened Scoring
  import opened Database
  import opened RoomSpec
  import opened World
  import opened Persistence
  import opened Bounds
  import opened Extremes

  /** The room, and every state of its rows that some caller of Get has read and may still spawn from. */
  datatype Server = Server(world: World, seen: set<Tables>)

  datatype Action =
    | Plain(input: Input)
    | Read                                 // a caller that found no live room reads the rows
    | SpawnFrom(rows: Tables, env: Env)    // ... and makes an object from what it read, however long ago

  ghost predicate SoundServer(s: Server) {
    Sound(s.world) && forall t :: t in s.seen ==> Consistent(t) && t.rows.Keys <= s.world.issued
  }

  /** spawn: the object has the players and the session as read; its store is the database as it now is. */
  ghost function Spawned(c: Config, r: Room, t: Tables, env: Env): (s: Room)
    requires WellFormed(r) && Consistent(t)
    ensures WellFormed(s) && s.tables == r.tables && s.players.Keys == t.rows.Keys
  {
    hide NewRoom, SaveStandings, Standings;
    var s := NewRoom(r.(tables := t), env.wall);
    TablesAreConsistent(r);
    OnOtherTables(s, r.tables);
    var s1 := s.(tables := r.tables);
    SaveStandings(c, s1, Standings(s1.players, s1.order), env.boardRebuilds)
  }

  lemma OnOtherTables(s: Room, t: Tables)
    requires WellFormed(s) && Consistent(t)
    ensures WellFormed(s.(tables := t))
  {
    hide Consistent;
  }

  ghost predicate Happens(s: Server, a: Action) {
    match a
    case Plain(i) => Enabled(s.world, i)
    case Read => !s.world.room.tables.status.Ended? && !Expired(s.world.room.tables, s.world.wall)
    case SpawnFrom(t, env) => t in s.seen && !s.world.live && env.now >= s.world.clock && env.wall >= s.world.wall
  }

  /** An action that cannot happen changes nothing. */
  ghost function Act(c: Config, s: Server, a: Action): (u: Server)
    requires SoundServer(s)
    ensures SoundServer(u)
  {
    hide Step, WellFormed, Spawned, Enabled, Consistent;
    if !Happens(s, a) then s
    else match a
      case Plain(i) =>
        IssuedStay(c, s.world, i);
        s.(world := Step(c, s.world, i))
      case Read =>
        TablesAreConsistent(s.world.room);
        s.(seen := s.seen + {s.world.room.tables})
      case SpawnFrom(t, env) =>
        s.(world := s.world.(live := true, room := Spawned(c, s.world.room, t, env), clock := env.now,
                             wall := env.wall))
  }

  lemma IssuedStay(c: Config, w: World, i: Input)
    requires Sound(w)
    ensures w.issued <= Step(c, w, i).issued
  {
    hide RoomAfter, WellFormed, Loaded, CloseAll;
  }

  ghost function Acts(c: Config, s: Server, actions: seq<Action>): (u: Server)
    requires SoundServer(s)
    ensures SoundServer(u)
  {
    hide Act;
    if actions == [] then s else Act(c, Acts(c, s, actions[..|actions| - 1]), actions[|actions| - 1])
  }

  const UNREAD := Server(CREATED, {})

  // ---------------------------------------------------------------- growing accounts

  /** b has every answer of a. */
  ghost predicate Within(a: Account, b: Account) {
    && a.row.index <= b.row.index
    && forall q :: q in a.answers ==> q in b.answers && b.answers[q] == a.answers[q]
  }

  /** Nothing stored is ever lost or altered, except with the whole account. */
  ghost predicate Grows(old_: Option<Account>, new_: Option<Account>) {
    new_.Some? ==> old_.Some? && Within(old_.value, new_.value)
  }

  lemma {:induction false} ReplayOfMore(c: Config, a: Account, b: Account, k: nat)
    requires AnswersFirst(c, a.answers, k) && Within(a, b)
    ensures AnswersFirst(c, b.answers, k) && Replay(c, b.answers, k) == Replay(c, a.answers, k)
  {
    hide Advance, StoredOutcome;
    if k > 0 { ReplayOfMore(c, a, b, k - 1); }
  }

  // ---------------------------------------------------------------- a seat behind its rows

  /** Memory is the replay of the first stored answers, perhaps not of all of them. */
  ghost predicate Trails(c: Config, seat: Seat, clock: nat) {
    && ActiveFits(c, seat.player, clock)
    && (seat.account.Some? ==>
        var p, acc := seat.player.progress, seat.account.value;
        && Replayed(c, acc)
        && p.resolved <= acc.row.index
        && p == Replay(c, acc.answers, p.resolved))
  }

  ghost predicate Behind(seat: Seat) {
    seat.account.Some? && seat.player.progress.resolved < seat.account.value.row.index
  }

  lemma AgreeingTrails(c: Config, seat: Seat, clock: nat)
    requires SeatAgrees(c, seat, clock)
    ensures Trails(c, seat, clock)
  {
    hide AllHonest, Replay;
  }

  lemma TrailingInStepAgrees(c: Config, seat: Seat, clock: nat)
    requires Trails(c, seat, clock) && !Behind(seat)
    ensures SeatAgrees(c, seat, clock)
    ensures seat.account.Some? ==> InStep(seat.player, seat.account.value)
  {
    hide AllHonest, Replay;
  }

  lemma LaterTrails(c: Config, seat: Seat, clock: nat, later: nat)
    requires Trails(c, seat, clock) && clock <= later
    ensures Trails(c, seat, later)
  {
    hide Replayed, Replay;
  }

  /** The stored answer is in the way of every save of a seat that is behind. */
  lemma {:induction false} StoredIsFirst(c: Config, k: nat, i: nat)
    requires i < k <= |c.questions|
    ensures c.questions[i].id in FirstIds(c, k)
  {
    if i < k - 1 { StoredIsFirst(c, k - 1, i); }
  }

  lemma BehindCannotSave(c: Config, seat: Seat, id: PlayerId, out: Outcome, env: Env, clock: nat)
    requires Trails(c, seat, clock) && Behind(seat) && seat.player.active.Some?
    ensures ResolveSeat(c, seat, id, out, env) == seat
  {
    hide Replay, AllHonest, Advance, FirstIds;
    StoredIsFirst(c, seat.account.value.row.index, seat.player.progress.resolved);
  }

  /** An answer saved is one more; otherwise the account stays as it is. */
  lemma SavingGrows(c: Config, seat: Seat, id: PlayerId, out: Outcome, env: Env, clock: nat)
    requires Playable(c) && Trails(c, seat, clock) && seat.player.active.Some?
    requires HonestOutcome(c, seat.player.progress, seat.player.active.value, out)
    ensures var s := ResolveSeat(c, seat, id, out, env);
      Trails(c, s, clock) && Grows(seat.account, s.account)
  {
    hide HonestOutcome, Replay, AllHonest, Advance, FirstIds, Playable, ProgressRow;
    if Behind(seat) {
      BehindCannotSave(c, seat, id, out, env, clock);
    } else {
      TrailingInStepAgrees(c, seat, clock);
      ResolveKeepsAgreement(c, seat, id, out, env, clock);
      AgreeingTrails(c, ResolveSeat(c, seat, id, out, env), clock);
      AdvanceCounts(seat.player.progress, out);
      if seat.account.Some? && !env.save.Refused? { SaveExtendsReplay(c, seat, id, out, env, clock); }
    }
  }

  lemma GrowingAddsUp(a: Option<Account>, b: Option<Account>, d: Option<Account>)
    requires Grows(a, b) && Grows(b, d)
    ensures Grows(a, d)
  {
  }

  lemma SettlingTrails(c: Config, running: bool, seat: Seat, id: PlayerId, env: Env, clock: nat)
    requires Playable(c) && Trails(c, seat, clock) && clock <= env.now
    ensures var s := SettleSeat(c, running, seat, id, env);
      && Trails(c, s, clock) && Grows(seat.account, s.account)
      && (Behind(seat) ==> s == seat)
  {
    hide HonestOutcome, Replayed, ResolveSeat, Playable, Replay;
    if seat.player.active.Some? {
      OutcomesAreHonest(c, seat.player, None, clock, env.now);
      SavingGrows(c, seat, id, TimeoutOutcome(seat.player.active.value), env, clock);
      if Behind(seat) { BehindCannotSave(c, seat, id, TimeoutOutcome(seat.player.active.value), env, clock); }
    }
  }

  lemma ServingTrails(c: Config, seat: Seat, env: Env, clock: nat)
    requires Trails(c, seat, clock) && clock <= env.now
    requires seat.player.active.None? && seat.player.progress.resolved < |c.questions|
    ensures var s := ServeSeat(c, seat, env);
      && Trails(c, s, env.now) && s.account == seat.account && s.player.progress == seat.player.progress
  {
    hide Replayed, Replay, QuestionLimit;
    var q := c.questions[seat.player.progress.resolved];
    Shuffling.ShuffledIsPermutation(q.options, env.draws);
  }

  lemma AnsweringTrails(c: Config, running: bool, seat: Seat, id: PlayerId, question: QuestionId,
                        option: Option<OptionId>, env: Env, clock: nat)
    requires Playable(c) && Trails(c, seat, clock) && clock <= env.now
    ensures var s := SubmitSeat(c, running, seat, id, question, option, env);
      && Trails(c, s, clock) && Grows(seat.account, s.account)
      && (Behind(seat) ==> s == seat)
  {
    hide ResolveSeat, HonestOutcome, Replayed, Playable, OutcomeOf, Replay;
    if seat.player.active.Some? && (option.Some? ==> HasOption(seat.player.active.value.options, option.value)) {
      var out := OutcomeOf(c, seat.player.progress, seat.player.active.value, option, env.now);
      OutcomesAreHonest(c, seat.player, option, clock, env.now);
      SavingGrows(c, seat, id, out, env, clock);
      if Behind(seat) { BehindCannotSave(c, seat, id, out, env, clock); }
    }
  }

  /** Whatever the player does: memory keeps trailing the rows, and what is behind stays where it is. */
  lemma PlayingTrails(c: Config, running: bool, seat: Seat, id: PlayerId, i: Input, clock: nat)
    requires Playable(c) && Trails(c, seat, clock) && clock <= i.env.now
    ensures var s := PlaySeat(c, running, seat, id, i);
      && Trails(c, s, i.env.now) && Grows(seat.account, s.account)
      && (Behind(seat) && i.event != KickEvent(id) ==>
            s.player.progress == seat.player.progress && s.account == seat.account)
  {
    hide SettleSeat, SubmitSeat, ServeSeat, Trails, Grows, Playable, Within;
    TrailsWithoutAccount(c, seat, clock);
    LaterTrails(c, seat, clock, i.env.now);
    var settled := SettleSeat(c, running, seat, id, i.env);
    SettlingTrails(c, running, seat, id, i.env, clock);
    LaterTrails(c, settled, clock, i.env.now);
    LaterTrails(c, seat.(account := None), clock, i.env.now);
    match i.event
    case Next(p) =>
      if settled.player.active.None? && settled.player.progress.resolved < |c.questions| {
        ServingTrails(c, settled, i.env, clock);
      }
    case Submit(p, question, option) =>
      AnsweringTrails(c, running, seat, id, question, option, i.env, clock);
      LaterTrails(c, SubmitSeat(c, running, seat, id, question, option, i.env), clock, i.env.now);
    case _ =>
  }

  lemma TrailsWithoutAccount(c: Config, seat: Seat, clock: nat)
    requires Trails(c, seat, clock)
    ensures Trails(c, seat.(account := None), clock) && Grows(seat.account, None) && Grows(seat.account, seat.account)
  {
    hide Replayed, Replay;
  }

  // ---------------------------------------------------------------- over runs

  /** What every action keeps for one player of the room. */
  ghost predicate TrailsFor(c: Config, w: World, id: PlayerId) {
    var account := AccountOf(w.room.tables, id);
    && (account.Some? ==> Replayed(c, account.value))
    && (id in w.room.players ==> Trails(c, SeatOf(w.room, id), w.clock))
    && (id in w.pending && account.Some? ==> account.value == NEW_ACCOUNT)
  }

  /** ... and for what was read about that player. */
  ghost predicate SeenFor(c: Config, s: Server, id: PlayerId) {
    forall t :: t in s.seen && AccountOf(t, id).Some? ==>
      && Replayed(c, AccountOf(t, id).value)
      && Grows(AccountOf(t, id), AccountOf(s.world.room.tables, id))
  }

  lemma TrailingIsReplayed(c: Config, seat: Seat, clock: nat)
    requires Trails(c, seat, clock)
    ensures seat.account.Some? ==> Replayed(c, seat.account.value)
  {
    hide Replayed, Replay;
  }

  lemma PendingPlaysNothing(c: Config, w: World, i: Input, id: PlayerId)
    requires Enabled(w, i) && IsRoomEvent(i.event) && id in w.pending && id in w.room.players
    ensures var s := PlaySeat(c, w.room.status.Running?, SeatOf(w.room, id), id, i);
      s.account == AccountOf(w.room.tables, id) || s.account.None?
  {
    hide AccountOf, SettleSeat;
  }

  lemma NewcomerTrails(c: Config, account: Option<Account>, clock: nat)
    requires account.Some? ==> account.value == NEW_ACCOUNT
    ensures Trails(c, Seat(Player(NO_PROGRESS, None), account), clock)
  {
    hide SeatAgrees, Trails;
    NewcomerAgrees(c, account, clock);
    AgreeingTrails(c, Seat(Player(NO_PROGRESS, None), account), clock);
  }

  lemma RoomEventTrails(c: Config, w: World, i: Input, id: PlayerId)
    requires Playable(c) && Sound(w) && TrailsFor(c, w, id) && Enabled(w, i) && IsRoomEvent(i.event)
    ensures TrailsFor(c, Step(c, w, i), id)
    ensures Grows(AccountOf(w.room.tables, id), AccountOf(Step(c, w, i).room.tables, id))
    ensures id in w.room.players && Behind(SeatOf(w.room, id)) && i.event != KickEvent(id) ==>
      var s := Step(c, w, i).room;
      id in s.players && s.players[id].progress == w.room.players[id].progress
      && AccountOf(s.tables, id) == AccountOf(w.room.tables, id)
  {
    hide Replayed, RoomAfter, PlaySeat, WellFormed, Playable, Step, Trails, AccountOf, EventEnabled, Within;
    RoomStep(c, w, i);
    SeatsActSeparately(c, w, i, id);
    if id in w.room.players {
      var seat := PlaySeat(c, w.room.status.Running?, SeatOf(w.room, id), id, i);
      PlayingTrails(c, w.room.status.Running?, SeatOf(w.room, id), id, i, w.clock);
      TrailingIsReplayed(c, seat, i.env.now);
      if id in w.pending { PendingPlaysNothing(c, w, i, id); }
    } else if id in RoomAfter(c, w, i).players {
      PendingIsAdded(w, i);
      NewcomerTrails(c, AccountOf(w.room.tables, id), i.env.now);
    }
    GrowsItself(AccountOf(w.room.tables, id));
  }

  lemma GrowsItself(account: Option<Account>)
    ensures Grows(account, account)
  {
  }

  lemma LoadTrails(c: Config, w: World, i: Input, id: PlayerId)
    requires Sound(w) && TrailsFor(c, w, id) && Enabled(w, i) && i.event.Load?
    ensures TrailsFor(c, Step(c, w, i), id)
    ensures AccountOf(Step(c, w, i).room.tables, id) == AccountOf(w.room.tables, id)
  {
    hide Replayed, Loaded, WellFormed, Step, SeatAgrees, AccountOf, Trails;
    LoadStep(c, w, i);
    LoadReloads(c, w.room, i.env, id);
    if id in w.room.players { LaterTrails(c, SeatOf(w.room, id), w.clock, i.env.now); }
    var account := AccountOf(w.room.tables, id);
    if account.Some? {
      StoredSeatAgrees(c, account.value, i.env.now);
      AgreeingTrails(c, Seat(Player(ProgressOf(account.value.row), None), account), i.env.now);
    }
  }

  lemma OtherTrails(c: Config, w: World, i: Input, id: PlayerId)
    requires Sound(w) && TrailsFor(c, w, id) && Enabled(w, i) && !IsRoomEvent(i.event) && !i.event.Load?
    ensures TrailsFor(c, Step(c, w, i), id)
    ensures id in w.issued ==> AccountOf(Step(c, w, i).room.tables, id) == AccountOf(w.room.tables, id)
    ensures id in w.room.players ==>
      id in Step(c, w, i).room.players && Step(c, w, i).room.players[id] == w.room.players[id]
  {
    hide Replayed, WellFormed, Trails, Step, AccountOf, EventEnabled;
    NewAccountIsReplayed(c);
    OutsideAccounts(c, w, i, id);
    OutsideStep(c, w, i);
    KnownIsIssued(w, id);
    if id in w.room.players { LaterTrails(c, SeatOf(w.room, id), w.clock, i.env.now); }
  }

  lemma StepTrails(c: Config, w: World, i: Input, id: PlayerId)
    requires Playable(c) && Sound(w) && TrailsFor(c, w, id)
    ensures TrailsFor(c, Step(c, w, i), id)
    ensures id in w.issued ==> Grows(AccountOf(w.room.tables, id), AccountOf(Step(c, w, i).room.tables, id))
  {
    hide Step, TrailsFor, Playable, Enabled, AccountOf, Grows;
    GrowsItself(AccountOf(w.room.tables, id));
    if !Enabled(w, i) { NothingHappens(c, w, i); }
    else if IsRoomEvent(i.event) { RoomEventTrails(c, w, i, id); }
    else if i.event.Load? { LoadTrails(c, w, i, id); }
    else { OtherTrails(c, w, i, id); }
  }

  /** The state of memory that old rows give, next to the rows as they now are. */
  lemma StoredTrails(c: Config, old_: Account, account: Option<Account>, clock: nat)
    requires Replayed(c, old_) && Grows(Some(old_), account) && (account.Some? ==> Replayed(c, account.value))
    ensures Trails(c, Seat(Player(ProgressOf(old_.row), None), account), clock)
  {
    hide AllHonest, Replay;
    if account.Some? { ReplayOfMore(c, old_, account.value, old_.row.index); }
  }

  /** What a spawn knows of one player is what was read. */
  lemma SpawnedSeat(c: Config, r: Room, t: Tables, env: Env, id: PlayerId)
    requires WellFormed(r) && Consistent(t)
    ensures var s := Spawned(c, r, t, env);
      && (id in s.players <==> AccountOf(t, id).Some?)
      && (id in s.players ==> IsStored(s.players[id], AccountOf(t, id)))
  {
    hide WellFormed, Consistent, SaveStandings, Standings, NewRoom, IsStored, AccountOf;
    NewRoomSeat(r.(tables := t), env.wall, id);
  }

  lemma SpawnStep(c: Config, s: Server, t: Tables, env: Env)
    requires SoundServer(s) && Happens(s, SpawnFrom(t, env))
    ensures Act(c, s, SpawnFrom(t, env)).seen == s.seen
    ensures Act(c, s, SpawnFrom(t, env)).world == World(true, Spawned(c, s.world.room, t, env), s.world.pending,
                                                        s.world.issued, env.now, env.wall)
  {
    hide WellFormed, Consistent, Spawned;
  }

  lemma SpawnTrails(c: Config, s: Server, t: Tables, env: Env, id: PlayerId)
    requires SoundServer(s) && TrailsFor(c, s.world, id) && SeenFor(c, s, id) && Happens(s, SpawnFrom(t, env))
    ensures TrailsFor(c, Act(c, s, SpawnFrom(t, env)).world, id)
  {
    hide WellFormed, Consistent, Spawned, Replayed, Trails, AccountOf, Act, Grows;
    SpawnStep(c, s, t, env);
    SpawnedSeat(c, s.world.room, t, env, id);
    if AccountOf(t, id).Some? {
      StoredTrails(c, AccountOf(t, id).value, AccountOf(s.world.room.tables, id), env.now);
    }
  }

  lemma PlainTrails(c: Config, s: Server, i: Input, id: PlayerId)
    requires Playable(c) && SoundServer(s) && TrailsFor(c, s.world, id) && SeenFor(c, s, id)
    ensures var u := Act(c, s, Plain(i)); TrailsFor(c, u.world, id) && SeenFor(c, u, id)
  {
    hide Sound, Step, TrailsFor, Playable, Enabled, Consistent, Replayed, Grows;
    if Enabled(s.world, i) {
      var u := Act(c, s, Plain(i));
      StepTrails(c, s.world, i, id);
      forall t | t in s.seen && AccountOf(t, id).Some?
        ensures Grows(AccountOf(t, id), AccountOf(u.world.room.tables, id))
      {
        GrowingAddsUp(AccountOf(t, id), AccountOf(s.world.room.tables, id), AccountOf(u.world.room.tables, id));
      }
    }
  }

  lemma ReadTrails(c: Config, s: Server, id: PlayerId)
    requires SoundServer(s) && TrailsFor(c, s.world, id) && SeenFor(c, s, id)
    ensures var u := Act(c, s, Read); TrailsFor(c, u.world, id) && SeenFor(c, u, id)
  {
    hide Sound, Consistent, Replayed, Grows, AccountOf, Expired, Trails;
    GrowsItself(AccountOf(s.world.room.tables, id));
  }

  lemma ActTrails(c: Config, s: Server, a: Action, id: PlayerId)
    requires Playable(c) && SoundServer(s) && TrailsFor(c, s.world, id) && SeenFor(c, s, id)
    ensures var u := Act(c, s, a); TrailsFor(c, u.world, id) && SeenFor(c, u, id)
  {
    hide Act, TrailsFor, SeenFor, Playable, Happens;
    match a
    case Plain(i) => PlainTrails(c, s, i, id);
    case Read => ReadTrails(c, s, id);
    case SpawnFrom(t, env) =>
      NotActing(c, s, a);
      if Happens(s, a) {
        SpawnTrails(c, s, t, env, id);
        SpawnStep(c, s, t, env);
        SameSeen(c, s, Act(c, s, a), id);
      }
  }

  lemma NotActing(c: Config, s: Server, a: Action)
    requires SoundServer(s)
    ensures !Happens(s, a) ==> Act(c, s, a) == s
  {
  }

  lemma SameSeen(c: Config, s: Server, u: Server, id: PlayerId)
    requires SeenFor(c, s, id) && u.seen == s.seen && u.world.room.tables == s.world.room.tables
    ensures SeenFor(c, u, id)
  {
  }

  /**
   * In every run, spawns from any rows ever read included: stored rows are replays of honest answers, and memory is the
   * replay of the first of them. A stale object never damages what is stored.
   */
  lemma {:induction false} RunsTrail(c: Config, actions: seq<Action>, id: PlayerId)
    requires Playable(c)
    ensures var s := Acts(c, UNREAD, actions); TrailsFor(c, s.world, id) && SeenFor(c, s, id)
  {
    hide Act, TrailsFor, SeenFor, Playable;
    if actions == [] {
      NobodyTrails(c, id);
    } else {
      RunsTrail(c, actions[..|actions| - 1], id);
      ActTrails(c, Acts(c, UNREAD, actions[..|actions| - 1]), actions[|actions| - 1], id);
    }
  }

  lemma UnreadIsSound()
    ensures SoundServer(UNREAD)
  {
  }

  lemma NobodyTrails(c: Config, id: PlayerId)
    ensures SoundServer(UNREAD) && TrailsFor(c, CREATED, id) && SeenFor(c, UNREAD, id)
  {
  }

  // ---------------------------------------------------------------- which spawns agree

  /** No answer of the player has been stored since the rows were read. */
  predicate Current(then_: Option<Account>, now: Option<Account>) {
    now.Some? ==> now.value.row.index == if then_.Some? then then_.value.row.index else 0
  }

  lemma UnplayedIsNew(c: Config, acc: Account)
    requires Replayed(c, acc)
    ensures acc.row.index == 0 <==> acc == NEW_ACCOUNT
  {
  }

  lemma StoredAgreesExactly(c: Config, old_: Account, account: Option<Account>, clock: nat)
    requires old_.row.index >= 0 && Trails(c, Seat(Player(ProgressOf(old_.row), None), account), clock)
    ensures SeatAgrees(c, Seat(Player(ProgressOf(old_.row), None), account), clock)
       <==> Current(Some(old_), account)
  {
    hide Replay, AllHonest;
  }

  /** A new object agrees with the rows about a player exactly if the rows it was made from are current about them. */
  lemma SpawnAgreesExactly(c: Config, actions: seq<Action>, t: Tables, env: Env, id: PlayerId)
    requires Playable(c) && Happens(Acts(c, UNREAD, actions), SpawnFrom(t, env))
    ensures var s := Acts(c, UNREAD, actions);
      AgreesFor(c, Act(c, s, SpawnFrom(t, env)).world, id)
      <==> Current(AccountOf(t, id), AccountOf(s.world.room.tables, id))
  {
    hide Acts, Playable, Happens, AgreesFor, TrailsFor, SeenFor;
    var s := Acts(c, UNREAD, actions);
    RunsTrail(c, actions, id);
    SpawnAgreement(c, s, t, env, id);
  }

  lemma SpawnAgreement(c: Config, s: Server, t: Tables, env: Env, id: PlayerId)
    requires SoundServer(s) && TrailsFor(c, s.world, id) && SeenFor(c, s, id) && Happens(s, SpawnFrom(t, env))
    ensures AgreesFor(c, Act(c, s, SpawnFrom(t, env)).world, id)
       <==> Current(AccountOf(t, id), AccountOf(s.world.room.tables, id))
  {
    hide WellFormed, Consistent, Spawned, Replayed, Trails, AccountOf, Act, Grows, SeatAgrees;
    SpawnStep(c, s, t, env);
    SpawnTrails(c, s, t, env, id);
    SpawnedSeat(c, s.world.room, t, env, id);
    var account := AccountOf(s.world.room.tables, id);
    if AccountOf(t, id).Some? {
      StoredAgreesExactly(c, AccountOf(t, id).value, account, env.now);
    } else if account.Some? {
      UnplayedIsNew(c, account.value);
    }
  }

  /** Every spawn that happens is from rows that are current about the player. */
  ghost predicate SpawnsCurrent(c: Config, actions: seq<Action>, id: PlayerId) {
    if actions == [] then true
    else
      var init, last := actions[..|actions| - 1], actions[|actions| - 1];
      var s := Acts(c, UNREAD, init);
      && SpawnsCurrent(c, init, id)
      && (last.SpawnFrom? && Happens(s, last) ==>
            Current(AccountOf(last.rows, id), AccountOf(s.world.room.tables, id)))
  }

  /** Then memory agrees with the rows about that player throughout, as it does when loads are atomic. */
  lemma {:induction false} CurrentSpawnsKeepAgreement(c: Config, actions: seq<Action>, id: PlayerId)
    requires Playable(c) && SpawnsCurrent(c, actions, id)
    ensures AgreesFor(c, Acts(c, UNREAD, actions).world, id)
  {
    hide Act, AgreesFor, Playable, Happens;
    if actions == [] {
      CreatedAgrees(c, id);
    } else {
      var init, last := actions[..|actions| - 1], actions[|actions| - 1];
      CurrentSpawnsKeepAgreement(c, init, id);
      NotActing(c, Acts(c, UNREAD, init), last);
      if Happens(Acts(c, UNREAD, init), last) {
        if last.SpawnFrom? { SpawnAgreesExactly(c, init, last.rows, last.env, id); }
        else { PlainAgrees(c, Acts(c, UNREAD, init), last, id); }
      }
    }
  }

  lemma PlainAgrees(c: Config, s: Server, a: Action, id: PlayerId)
    requires Playable(c) && SoundServer(s) && AgreesFor(c, s.world, id) && Happens(s, a) && !a.SpawnFrom?
    ensures AgreesFor(c, Act(c, s, a).world, id)
  {
    hide AgreesFor, Playable, Step, Enabled, WellFormed, Consistent;
    if a.Plain? { StepKeepsAgreement(c, s.world, a.input, id); }
  }

  // ---------------------------------------------------------------- what makes rows current

  /** The events that can store an answer of the player. */
  predicate Plays(id: PlayerId, e: Event) {
    e == Next(id) || (e.Submit? && e.player == id) || (e.AttachPlayerEvent? && e.player == id)
  }

  lemma UnplayedSeat(c: Config, running: bool, seat: Seat, id: PlayerId, i: Input)
    requires !Plays(id, i.event)
    ensures var s := PlaySeat(c, running, seat, id, i); s.account == seat.account || s.account.None?
  {
  }

  lemma UnplayedStep(c: Config, w: World, i: Input, id: PlayerId)
    requires Sound(w) && Enabled(w, i) && !Plays(id, i.event)
    ensures var now, next := AccountOf(w.room.tables, id), AccountOf(Step(c, w, i).room.tables, id);
      next == now || next.None? || (id !in w.issued && next == Some(NEW_ACCOUNT))
  {
    hide WellFormed, Step, RoomAfter, PlaySeat, AccountOf, EventEnabled, Loaded;
    if IsRoomEvent(i.event) {
      RoomStep(c, w, i);
      SeatsActSeparately(c, w, i, id);
      if id in w.room.players { UnplayedSeat(c, w.room.status.Running?, SeatOf(w.room, id), id, i); }
    } else if i.event.Load? {
      LoadStep(c, w, i);
      LoadReloads(c, w.room, i.env, id);
    } else {
      OutsideAccounts(c, w, i, id);
    }
  }

  /** Rows stay current about a player while that player asks, answers and attaches nothing. */
  lemma {:induction false} UnplayedReadsAreCurrent(c: Config, s: Server, more: seq<Action>, id: PlayerId)
    requires SoundServer(s)
    requires forall k :: 0 <= k < |more| && more[k].Plain? ==> !Plays(id, more[k].input.event)
    ensures var u := Acts(c, s, more);
      && s.world.issued <= u.world.issued
      && Current(AccountOf(s.world.room.tables, id), AccountOf(u.world.room.tables, id))
  {
    hide Act, Sound, AccountOf, Consistent;
    if more != [] {
      var init, last := more[..|more| - 1], more[|more| - 1];
      assert forall k :: 0 <= k < |init| ==> init[k] == more[k];
      UnplayedReadsAreCurrent(c, s, init, id);
      UnplayedAct(c, Acts(c, s, init), last, id);
      KnownIsIssued(s.world, id);
    }
  }

  lemma KnownIsIssued(w: World, id: PlayerId)
    requires Sound(w)
    ensures AccountOf(w.room.tables, id).Some? ==> id in w.issued
  {
  }

  lemma UnplayedAct(c: Config, s: Server, a: Action, id: PlayerId)
    requires SoundServer(s) && (a.Plain? ==> !Plays(id, a.input.event))
    ensures var u := Act(c, s, a);
      var now, next := AccountOf(s.world.room.tables, id), AccountOf(u.world.room.tables, id);
      && s.world.issued <= u.world.issued
      && (next == now || next.None? || (id !in s.world.issued && next == Some(NEW_ACCOUNT)))
  {
    hide Sound, Step, Enabled, Consistent, Spawned, AccountOf, Expired;
    if a.Plain? && Enabled(s.world, a.input) {
      UnplayedStep(c, s.world, a.input, id);
      IssuedStay(c, s.world, a.input);
    }
  }

  // ---------------------------------------------------------------- a player left behind

  /** Neither makes a new object nor removes the player. */
  predicate Leaves(id: PlayerId, a: Action) {
    a.Read? || (a.Plain? && !a.input.event.Load? && a.input.event != KickEvent(id))
  }

  lemma BehindAct(c: Config, s: Server, a: Action, id: PlayerId)
    requires Playable(c) && SoundServer(s) && TrailsFor(c, s.world, id) && Leaves(id, a)
    requires id in s.world.room.players && Behind(SeatOf(s.world.room, id))
    ensures var r, u := s.world.room, Act(c, s, a).world.room;
      && id in u.players && u.players[id].progress == r.players[id].progress
      && AccountOf(u.tables, id) == AccountOf(r.tables, id)
  {
    hide WellFormed, Step, Enabled, Consistent, TrailsFor, Playable, AccountOf, Expired;
    if a.Plain? && Enabled(s.world, a.input) {
      if IsRoomEvent(a.input.event) { RoomEventTrails(c, s.world, a.input, id); }
      else { OtherTrails(c, s.world, a.input, id); }
    }
  }

  lemma {:induction false} BehindActs(c: Config, s: Server, more: seq<Action>, id: PlayerId)
    requires Playable(c) && SoundServer(s) && TrailsFor(c, s.world, id) && SeenFor(c, s, id)
    requires id in s.world.room.players && Behind(SeatOf(s.world.room, id))
    requires forall k :: 0 <= k < |more| ==> Leaves(id, more[k])
    ensures var r, u := s.world.room, Acts(c, s, more).world.room;
      && TrailsFor(c, Acts(c, s, more).world, id) && SeenFor(c, Acts(c, s, more), id)
      && id in u.players && u.players[id].progress == r.players[id].progress
      && AccountOf(u.tables, id) == AccountOf(r.tables, id)
  {
    hide Act, Playable, AccountOf, TrailsFor, SeenFor, Leaves, SoundServer;
    if more != [] {
      var init, last := more[..|more| - 1], more[|more| - 1];
      assert forall k :: 0 <= k < |init| ==> init[k] == more[k];
      BehindActs(c, s, init, id);
      ActTrails(c, Acts(c, s, init), last, id);
      BehindAct(c, Acts(c, s, init), last, id);
    }
  }

  /**
   * A player whom a stale object has left behind stays behind: until the next object is made, or a kick, neither memory
   * nor the rows about that player move, whatever anybody asks or answers.
   */
  lemma BehindStaysBehind(c: Config, actions: seq<Action>, more: seq<Action>, id: PlayerId)
    requires Playable(c) && forall k :: 0 <= k < |more| ==> Leaves(id, more[k])
    requires var r := Acts(c, UNREAD, actions).world.room; id in r.players && Behind(SeatOf(r, id))
    ensures var s := Acts(c, UNREAD, actions);
      var r, u := s.world.room, Acts(c, s, more).world.room;
      && id in u.players && u.players[id].progress == r.players[id].progress
      && AccountOf(u.tables, id) == AccountOf(r.tables, id)
  {
    hide Acts, Playable, AccountOf, TrailsFor, SeenFor, Leaves;
    RunsTrail(c, actions, id);
    BehindActs(c, Acts(c, UNREAD, actions), more, id);
  }

  // ---------------------------------------------------------------- a stale object, from the start

  function Plains(inputs: seq<Input>): (actions: seq<Action>)
    ensures |actions| == |inputs| && forall k :: 0 <= k < |inputs| ==> actions[k] == Plain(inputs[k])
  {
    seq(|inputs|, k requires 0 <= k < |inputs| => Plain(inputs[k]))
  }

  /** Plain actions are a run of the room. */
  lemma {:induction false} PlainsRun(c: Config, s: Server, inputs: seq<Input>)
    requires SoundServer(s)
    ensures Acts(c, s, Plains(inputs)) == s.(world := Run(c, s.world, inputs))
  {
    hide Step, Sound, Enabled, Consistent;
    if inputs != [] {
      var init, last := inputs[..|inputs| - 1], inputs[|inputs| - 1];
      assert Plains(inputs)[..|inputs| - 1] == Plains(init);
      PlainsRun(c, s, init);
      if !Enabled(Run(c, s.world, init), last) { NothingHappens(c, Run(c, s.world, init), last); }
    }
  }

  lemma HostEnds(c: Config, w: World, id: PlayerId)
    requires Sound(w) && AccountOf(w.room.tables, id).Some?
    ensures var v := Step(c, w, Input(EndByHost, PlainEnv(w.clock, w.wall)));
      && !v.live && v.clock == w.clock && v.wall == w.wall
      && AccountOf(v.room.tables, id) == AccountOf(w.room.tables, id)
  {
    hide Step, WellFormed, AccountOf, RoomAfter, PlaySeat;
    var i := Input(EndByHost, PlainEnv(w.clock, w.wall));
    if w.live {
      RoomStep(c, w, i);
      SeatsActSeparately(c, w, i, id);
      if id in w.room.players { NotPlaying(c, w.room.status.Running?, SeatOf(w.room, id), id, i); }
      HostEndsRoom(c, w, i);
    } else {
      NothingHappens(c, w, i);
    }
  }

  lemma NotPlaying(c: Config, running: bool, seat: Seat, id: PlayerId, i: Input)
    requires i.event.EndByHost?
    ensures PlaySeat(c, running, seat, id, i) == seat
  {
  }

  lemma HostEndsRoom(c: Config, w: World, i: Input)
    requires Sound(w) && Enabled(w, i) && i.event.EndByHost?
    ensures RoomAfter(c, w, i).status.Ended?
  {
    hide WellFormed, EndSession;
  }

  lemma TrackIndex(c: Config, w: World, id: PlayerId, k: nat)
    requires k <= |c.questions| && OnTrack(c, w, id, k)
    ensures AccountOf(w.room.tables, id).value.row.index == k && w.clock == 0 && w.wall == 0
  {
    hide Replay, AllHonest, ScoreCap;
  }

  /** The first question is answered, and the host ends the session. */
  ghost function AfterOneAnswer(c: Config, w: World): (v: World)
    requires Sound(w) && |c.questions| > 0
    ensures Sound(v)
  {
    var env := PlainEnv(0, 0);
    Step(c, Step(c, Step(c, w, Ask(0, env)), AnswerRight(c, 0, 0, env)), Input(EndByHost, env))
  }

  lemma OneAnswerStored(c: Config, w: World)
    requires Playable(c) && |c.questions| > 0 && OnTrack(c, w, 0, 0)
    ensures var v := AfterOneAnswer(c, w);
      && !v.live && v.clock == 0 && v.wall == 0
      && AccountOf(v.room.tables, 0).Some? && AccountOf(v.room.tables, 0).value.row.index == 1
  {
    hide Playable, Step, WellFormed, AgreesFor, AccountOf, Perfect;
    var env := PlainEnv(0, 0);
    PerfectRound(c, w, 0, 0);
    var u := Step(c, Step(c, w, Ask(0, env)), AnswerRight(c, 0, 0, env));
    TrackIndex(c, u, 0, 1);
    HostEnds(c, u, 0);
  }

  lemma OneMore(c: Config, actions: seq<Action>, a: Action)
    ensures Acts(c, UNREAD, actions + [a]) == Act(c, Acts(c, UNREAD, actions), a)
  {
    hide Act;
    assert (actions + [a])[..|actions|] == actions;
  }

  lemma PlainAct(c: Config, s: Server, i: Input)
    requires SoundServer(s)
    ensures Act(c, s, Plain(i)) == s.(world := Step(c, s.world, i))
  {
    hide Step, Sound, Enabled, Consistent;
    if !Enabled(s.world, i) { NothingHappens(c, s.world, i); }
  }

  /** The rows are read when the session has just begun. */
  lemma ReadsOpening(c: Config) returns (actions: seq<Action>, t: Tables)
    requires Playable(c) && |c.questions| > 0
    ensures var s := Acts(c, UNREAD, actions);
      && OnTrack(c, s.world, 0, 0) && t == s.world.room.tables && t in s.seen
  {
    hide OnTrack, Run, Playable, Acts;
    var opening := Opening(c);
    PlainsRun(c, UNREAD, opening);
    OneMore(c, Plains(opening), Read);
    actions, t := Plains(opening) + [Read], Run(c, CREATED, opening).room.tables;
    OpeningIsRead(c, Acts(c, UNREAD, Plains(opening)));
  }

  lemma OpeningIsRead(c: Config, s: Server)
    requires SoundServer(s) && OnTrack(c, s.world, 0, 0) && |c.questions| > 0
    ensures Act(c, s, Read) == s.(seen := s.seen + {s.world.room.tables})
  {
    hide WellFormed, AgreesFor, Consistent;
  }

  /** The first question is answered, the host ends the session, and whoever had read the rows is still to spawn. */
  lemma AnsweredSinceRead(c: Config) returns (actions: seq<Action>, t: Tables)
    requires Playable(c) && |c.questions| > 0
    ensures var s := Acts(c, UNREAD, actions);
      && t in s.seen && !s.world.live && s.world.clock == 0 && s.world.wall == 0
      && AccountOf(t, 0).Some? && AccountOf(t, 0).value.row.index == 0
      && AccountOf(s.world.room.tables, 0).Some? && AccountOf(s.world.room.tables, 0).value.row.index == 1
  {
    hide Acts, Act, Playable, Step, WellFormed, AgreesFor, AccountOf, Perfect;
    var env := PlainEnv(0, 0);
    UnreadIsSound();
    var read, rows := ReadsOpening(c);
    t := rows;
    var s := Acts(c, UNREAD, read);
    var ask, answer, end := Ask(0, env), AnswerRight(c, 0, 0, env), Input(EndByHost, env);
    TrackIndex(c, s.world, 0, 0);
    OneAnswerStored(c, s.world);
    OneMore(c, read, Plain(ask));
    PlainAct(c, s, ask);
    OneMore(c, read + [Plain(ask)], Plain(answer));
    PlainAct(c, Acts(c, UNREAD, read + [Plain(ask)]), answer);
    OneMore(c, read + [Plain(ask)] + [Plain(answer)], Plain(end));
    PlainAct(c, Acts(c, UNREAD, read + [Plain(ask)] + [Plain(answer)]), end);
    actions := read + [Plain(ask)] + [Plain(answer)] + [Plain(end)];
  }

  /**
   * A run from the very start: a caller reads the rows, a question is answered, the host ends the session, and the
   * caller makes a room object of what it read. The player is back at the first question, whose answer is stored.
   */
  lemma StaleSpawnLeavesBehind(c: Config) returns (actions: seq<Action>, t: Tables)
    requires Playable(c) && |c.questions| > 0
    ensures var s := Acts(c, UNREAD, actions);
      var a := SpawnFrom(t, PlainEnv(0, 0));
      && Happens(s, a)
      && var r := Act(c, s, a).world.room;
      0 in r.players && r.players[0].progress.resolved == 0 && Behind(SeatOf(r, 0))
  {
    hide Acts, Act, Playable, AccountOf, SpawnsCurrent, Spawned, WellFormed, Consistent;
    UnreadIsSound();
    actions, t := AnsweredSinceRead(c);
    var s := Acts(c, UNREAD, actions);
    SpawnStep(c, s, t, PlainEnv(0, 0));
    SpawnedSeat(c, s.world.room, t, PlainEnv(0, 0), 0);
  }
}
