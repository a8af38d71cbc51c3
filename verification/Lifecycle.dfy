/** The life of one room object: where its status can go, how often it ends, and who is left to play. */
module Lifecycle {
  import opened Common
  import opened Scoring
  import opened Questions
  import opened Database
  import opened RoomSpec
  import opened World
  import opened Persistence
  import opened Bounds
  import opened Extremes

  function Phase(s: Status): nat {
    match s case Lobby => 0 case Running => 1 case Ended => 2
  }

  /** MarkRoomEnded was called exactly if this room object has ended. */
  ghost predicate EndedOnce(r: Room) {
    r.endMarks == if r.status.Ended? then 1 else 0
  }

  /** In every step of a room object the session only moves from lobby to running to ended, and is ended once. */
  lemma SessionMovesForward(c: Config, w: World, i: Input)
    requires Sound(w) && IsRoomEvent(i.event) && Enabled(w, i)
    ensures var s := RoomAfter(c, w, i);
      && Phase(w.room.status) <= Phase(s.status) && SurplusMarks(s) == SurplusMarks(w.room)
      && (EndedOnce(w.room) ==> EndedOnce(s))
      && (s.status.Running? && w.room.status.Lobby? ==> i.event.Start?)
  {
    hide AddPlayerAndNotify, AttachPlayer, AttachHost, Detach, StartSession, EndSession, BoardTimer, NextQuestion,
         SubmitAnswer, Kick,
         NextSeat, SubmitSeat, SettleSeat, WellFormed, AllFinished;
    SessionAndWire(c, w, i);
  }

  lemma LoadedIsFresh(c: Config, r: Room, env: Env)
    requires WellFormed(r) && EndedOnce(r)
    ensures EndedOnce(Loaded(c, r, env).0)
  {
    hide WellFormed, Standings, SaveStandings;
  }

  lemma StepEndsOnce(c: Config, w: World, i: Input)
    requires Sound(w) && EndedOnce(w.room)
    ensures EndedOnce(Step(c, w, i).room)
  {
    hide WellFormed, RoomAfter, CloseAll, Loaded, EventEnabled;
    if Enabled(w, i) && i.event.Load? { LoadedIsFresh(c, w.room, i.env); }
    if Enabled(w, i) && IsRoomEvent(i.event) { SessionMovesForward(c, w, i); }
  }

  /** MarkRoomEnded is called at most once per room object, in every run. */
  lemma {:induction false} RunsEndOnce(c: Config, inputs: seq<Input>)
    ensures EndedOnce(Run(c, CREATED, inputs).room)
  {
    hide Step;
    if inputs != [] {
      RunsEndOnce(c, inputs[..|inputs| - 1]);
      StepEndsOnce(c, Run(c, CREATED, inputs[..|inputs| - 1]), inputs[|inputs| - 1]);
    }
  }

  // ---------------------------------------------------------------- somebody is left to play

  ghost predicate SomeoneUnfinished(c: Config, r: Room) {
    exists p :: p in r.players && r.players[p].progress.resolved < |c.questions|
  }

  /** A running room with players waits for one of them. */
  ghost predicate NotStalled(c: Config, r: Room) {
    r.status.Running? && r.players != map[] ==> SomeoneUnfinished(c, r)
  }

  /** In the lobby nobody has resolved anything, neither in memory nor in the tables. */
  ghost predicate FreshFor(w: World, id: PlayerId) {
    && (w.room.tables.status.Lobby? && AccountOf(w.room.tables, id).Some? ==>
          AccountOf(w.room.tables, id).value.row.index == 0)
    && (w.live && w.room.status.Lobby? && id in w.room.players ==> w.room.players[id].progress.resolved == 0)
  }

  ghost predicate LobbyIsFresh(w: World) {
    && (forall id :: FreshFor(w, id))
    && (w.live && w.room.tables.status.Lobby? ==> w.room.status.Lobby?)
    && (w.live ==> !w.room.status.Ended?)
  }

  /** A handler that changes the players and leaves the room running leaves someone to wait for. */
  ghost predicate Waits(c: Config, r: Room, s: Room) {
    s.status.Running? && s.players != map[] && s.players != r.players ==> !AllFinished(c, s.players)
  }

  lemma EndingWaits(c: Config, r: Room, env: Env)
    requires WellFormed(r)
    ensures var s := EndIfAllFinished(c, r, env); s.status.Running? && s.players != map[] ==> !AllFinished(c, s.players)
  {
    hide EndSession;
  }

  lemma ResolveWaits(c: Config, r: Room, id: PlayerId, out: Outcome, announce: bool, env: Env)
    requires WellFormed(r) && id in r.players && r.players[id].active.Some?
    ensures Waits(c, r, Resolve(c, r, id, out, announce, env).0)
  {
    hide Advanced, Persist, Reject, Advance, CorrectOptionId, ResultOf, AccountOf, SameForOthers, AllFinished;
    var next := Advance(r.players[id].progress, out);
    var result := ResultOf(id, r.players[id].active.value, out, next, next.resolved >= |c.questions|);
    var r0 := Persist(r, result, env).0;
    var message := Graded(Right(out), CorrectOptionId(r.players[id].active.value.question.options), out.points,
                          next.score,
                          next.streak, next.resolved >= |c.questions|);
    AdvancedWaits(c, r0, id, next, if announce then Some(message) else None, env);
  }

  lemma AdvancedWaits(c: Config, r: Room, id: PlayerId, next: Progress, message: Option<Packet>, env: Env)
    requires WellFormed(r) && id in r.players
    ensures var s := Advanced(c, r, id, next, message, env); s.status.Running? ==> !AllFinished(c, s.players)
  {
    hide MarkLeaderboardDirty, EndIfAllFinished, SendTo, SaveStandings;
    var r1 := SaveStandings(c, r.(players := r.players[id := Player(next, None)]), [StandingOf(id, next)],
                            env.boardSaves);
    EndingWaits(c, MarkLeaderboardDirty(c, if message.Some? then SendTo(r1, id, message.value) else r1, env), env);
  }

  lemma SettleWaits(c: Config, r: Room, id: PlayerId, env: Env)
    requires WellFormed(r) && id in r.players
    ensures Waits(c, r, SettleExpired(c, r, id, env).0)
  {
    hide Resolve, AllFinished;
    if r.players[id].active.Some? { ResolveWaits(c, r, id, TimeoutOutcome(r.players[id].active.value), false, env); }
  }

  lemma ProceedWaits(c: Config, r: Room, id: PlayerId, env: Env)
    requires WellFormed(r) && id in r.players
    ensures Waits(c, r, Proceed(c, r, id, env))
  {
    hide Serve, Reject;
  }

  lemma NextWaits(c: Config, r: Room, id: PlayerId, env: Env)
    requires WellFormed(r)
    ensures Waits(c, r, NextQuestion(c, r, id, env))
  {
    hide SettleExpired, Proceed, Reject, SettleSeat, ServeSeat, AllFinished, AccountOf, SameForOthers;
    if id in r.players && r.status.Running? {
      SettleWaits(c, r, id, env);
      ProceedWaits(c, SettleExpired(c, r, id, env).0, id, env);
    }
  }

  lemma SubmitWaits(c: Config, r: Room, id: PlayerId, question: QuestionId, option: Option<OptionId>, env: Env)
    requires WellFormed(r)
    ensures Waits(c, r, SubmitAnswer(c, r, id, question, option, env))
  {
    hide Resolve, Reject, OutcomeOf, ResolveSeat, AllFinished, AccountOf, SameForOthers;
    if id in r.players && r.players[id].active.Some? {
      var p := r.players[id];
      ResolveWaits(c, r, id, OutcomeOf(c, p.progress, p.active.value, option, env.now), true, env);
    }
  }

  lemma AttachWaits(c: Config, r: Room, id: PlayerId, s: SinkId, env: Env)
    requires WellFormed(r) && s !in r.wire
    ensures Waits(c, r, AttachPlayer(c, r, id, s, env))
  {
    hide Welcome, SettleExpired, Released, SettleSeat, AllFinished, AccountOf, SameForOthers;
    if id in r.players { SettleWaits(c, Released(r, id), id, env); }
  }

  lemma KickWaits(c: Config, r: Room, id: PlayerId, env: Env)
    requires WellFormed(r)
    ensures Waits(c, r, Kick(c, r, id, env))
  {
    hide Removed, Farewell, MarkLeaderboardDirty, EndIfAllFinished, AllFinished, SaveResult, Consistent;
    if id in r.players {
      DeletingKeepsConsistency(r.tables, id, env.delete);
      var r0 := r.(tables := DeletePlayer(r.tables, id, env.delete).0);
      var r1 := Removed(c, r0, id, env);
      EndingWaits(c, MarkLeaderboardDirty(c, if id in r.sinks then Farewell(r1, r.sinks[id]) else r1, env), env);
    }
  }

  /** Every event of a room that is not stalled leaves it not stalled. */
  lemma EventsDoNotStall(c: Config, w: World, i: Input)
    requires Sound(w) && IsRoomEvent(i.event) && Enabled(w, i) && |c.questions| > 0
    requires NotStalled(c, w.room) && LobbyIsFresh(w) && !w.room.status.Ended?
    ensures NotStalled(c, RoomAfter(c, w, i))
  {
    hide AttachPlayer, AttachHost, Detach, StartSession, EndSession, BoardTimer, NextQuestion, SubmitAnswer, Kick,
         WellFormed, SettleSeat, SubmitSeat, NextSeat;
    match i.event
    case Next(p) => NextWaits(c, w.room, p, i.env);
    case Submit(p, question, option) => SubmitWaits(c, w.room, p, question, option, i.env);
    case AttachPlayerEvent(p, s) => AttachWaits(c, w.room, p, s, i.env);
    case KickEvent(p) => KickWaits(c, w.room, p, i.env);
    case Start =>
      if w.room.players != map[] {
        var p :| p in w.room.players;
        assert FreshFor(w, p);
      }
    case AddJoined(p) => NewcomerUnfinished(c, w.room, p);
    case _ =>
  }

  lemma NewcomerUnfinished(c: Config, r: Room, p: PlayerId)
    requires WellFormed(r) && |c.questions| > 0 && NotStalled(c, r)
    ensures NotStalled(c, AddPlayerAndNotify(r, p))
  {
    hide WellFormed;
    var s := AddPlayerAndNotify(r, p);
    if p !in r.players {
      assert s.players[p].progress.resolved < |c.questions|;
    } else {
      assert s.players == r.players;
    }
  }

  // ---------------------------------------------------------------- over runs

  lemma IdleSeat(c: Config, seat: Seat, id: PlayerId, i: Input)
    ensures PlaySeat(c, false, seat, id, i).player == seat.player
    ensures var s := PlaySeat(c, false, seat, id, i); s.account == seat.account || s.account.None?
  {
  }

  lemma StatusInTables(c: Config, w: World, i: Input)
    requires Sound(w) && IsRoomEvent(i.event) && Enabled(w, i) && LobbyIsFresh(w)
    ensures var s := RoomAfter(c, w, i);
      && (s.tables.status.Lobby? ==> w.room.tables.status.Lobby? && (s.status.Lobby? || s.status.Ended?))
      && (s.status.Lobby? ==> w.room.status.Lobby?)
  {
    hide AddPlayerAndNotify, AttachPlayer, AttachHost, Detach, StartSession, EndSession, BoardTimer, NextQuestion,
         SubmitAnswer, Kick,
         NextSeat, SubmitSeat, SettleSeat, WellFormed, AllFinished;
    SessionAndWire(c, w, i);
    SessionMovesForward(c, w, i);
  }

  lemma LobbyStaysFresh(c: Config, w: World, i: Input, id: PlayerId)
    requires Sound(w) && IsRoomEvent(i.event) && Enabled(w, i) && LobbyIsFresh(w)
    ensures var s := RoomAfter(c, w, i);
      && (s.tables.status.Lobby? && AccountOf(s.tables, id).Some? ==> AccountOf(s.tables, id).value.row.index == 0)
      && (s.status.Lobby? && id in s.players ==> s.players[id].progress.resolved == 0)
  {
    hide RoomAfter, PlaySeat, WellFormed;
    StatusInTables(c, w, i);
    SeatsActSeparately(c, w, i, id);
    assert FreshFor(w, id);
    if id in w.room.players && !w.room.status.Running? { IdleSeat(c, SeatOf(w.room, id), id, i); }
    var s := RoomAfter(c, w, i);
    if s.tables.status.Lobby? && AccountOf(s.tables, id).Some? {
      assert w.room.status.Lobby?;
      assert AccountOf(s.tables, id) == AccountOf(w.room.tables, id);
    }
  }

  lemma RoomEventKeepsLobbyFresh(c: Config, w: World, i: Input, id: PlayerId)
    requires Sound(w) && IsRoomEvent(i.event) && Enabled(w, i) && LobbyIsFresh(w)
    ensures FreshFor(Apply(c, w, i), id)
  {
    hide RoomAfter, WellFormed;
    LobbyStaysFresh(c, w, i, id);
    assert Apply(c, w, i).room == RoomAfter(c, w, i);
  }

  lemma LoadKeepsLobbyFresh(c: Config, w: World, i: Input, id: PlayerId)
    requires Sound(w) && i.event.Load? && Enabled(w, i) && LobbyIsFresh(w)
    ensures FreshFor(Apply(c, w, i), id)
  {
    hide Loaded, WellFormed, AccountOf;
    assert FreshFor(w, id);
    LoadReloads(c, w.room, i.env, id);
  }

  lemma OtherEventKeepsLobbyFresh(c: Config, w: World, i: Input, id: PlayerId)
    requires Sound(w) && !IsRoomEvent(i.event) && Enabled(w, i) && LobbyIsFresh(w)
    ensures FreshFor(Apply(c, w, i), id)
  {
    hide WellFormed, Loaded, CloseAll;
    assert FreshFor(w, id);
    var r, s := w.room, Apply(c, w, i).room;
    if i.event.Load? {
      LoadKeepsLobbyFresh(c, w, i, id);
    } else {
      assert s.players == r.players && s.status == r.status;
      if !(i.event.Join? && i.event.player == id) { assert AccountOf(s.tables, id) == AccountOf(r.tables, id); }
    }
  }

  lemma StepKeepsLobbyFresh(c: Config, w: World, i: Input)
    requires Sound(w) && LobbyIsFresh(w)
    ensures LobbyIsFresh(Step(c, w, i))
  {
    hide RoomAfter, WellFormed, CloseAll, Standings, SaveStandings, EventEnabled;
    if Enabled(w, i) {
      forall id ensures FreshFor(Step(c, w, i), id) {
        if IsRoomEvent(i.event) {
          RoomEventKeepsLobbyFresh(c, w, i, id);
        } else {
          OtherEventKeepsLobbyFresh(c, w, i, id);
        }
      }
      if IsRoomEvent(i.event) { StatusInTables(c, w, i); }
    }
  }

  lemma {:induction false} RunsKeepLobbyFresh(c: Config, inputs: seq<Input>)
    ensures LobbyIsFresh(Run(c, CREATED, inputs))
  {
    hide Step;
    if inputs != [] {
      RunsKeepLobbyFresh(c, inputs[..|inputs| - 1]);
      StepKeepsLobbyFresh(c, Run(c, CREATED, inputs[..|inputs| - 1]), inputs[|inputs| - 1]);
    }
  }

  /** The tables hold a running session whose players have all finished. */
  ghost predicate StoredStalled(c: Config, t: Tables) {
    t.status.Running? && t.rows != map[] && forall p :: p in t.rows ==> t.rows[p].index >= |c.questions|
  }

  /** A load yields a stalled room exactly when the tables it reads are stalled. */
  lemma LoadStallsExactly(c: Config, w: World, i: Input)
    requires Sound(w) && Enabled(w, i) && i.event.Load? && Step(c, w, i).live
    ensures NotStalled(c, Step(c, w, i).room) <==> !StoredStalled(c, w.room.tables)
  {
    hide WellFormed, Standings, SaveStandings;
    var t, r := w.room.tables, Step(c, w, i).room;
    assert r.players.Keys == t.rows.Keys;
    assert forall p :: p in t.rows ==> r.players[p].progress.resolved == t.rows[p].index;
    if t.rows != map[] {
      var p :| p in t.rows;
      assert p in r.players;
    }
  }

  /** A load that finds a stalled session, not yet expired, in the tables. */
  ghost predicate FindsStalled(c: Config, w: World, i: Input) {
    Enabled(w, i) && i.event.Load? && StoredStalled(c, w.room.tables) && !Expired(w.room.tables, i.env.wall)
  }

  /** No load of this run does that. */
  ghost predicate NoStalledLoad(c: Config, inputs: seq<Input>) {
    inputs == [] ||
    var init, last := inputs[..|inputs| - 1], inputs[|inputs| - 1];
    NoStalledLoad(c, init) && !FindsStalled(c, Run(c, CREATED, init), last)
  }

  /** After each event of this run, a running room with players waits for an unfinished one. */
  ghost predicate NeverStalls(c: Config, inputs: seq<Input>) {
    (inputs == [] || NeverStalls(c, inputs[..|inputs| - 1]))
    && (Run(c, CREATED, inputs).live ==> NotStalled(c, Run(c, CREATED, inputs).room))
  }

  /** The two are the same: only a load can bring a room that waits for nobody. */
  lemma {:induction false} RunsStallExactly(c: Config, inputs: seq<Input>)
    requires |c.questions| > 0
    ensures NeverStalls(c, inputs) <==> NoStalledLoad(c, inputs)
  {
    hide Step, NotStalled, FindsStalled, LobbyIsFresh;
    if inputs != [] {
      var init, last := inputs[..|inputs| - 1], inputs[|inputs| - 1];
      RunsStallExactly(c, init);
      if NeverStalls(c, init) {
        RunsKeepLobbyFresh(c, init);
        StepStallsExactly(c, Run(c, CREATED, init), last);
      }
    }
  }

  lemma StepStallsExactly(c: Config, w: World, i: Input)
    requires Sound(w) && LobbyIsFresh(w) && |c.questions| > 0 && (w.live ==> NotStalled(c, w.room))
    ensures (Step(c, w, i).live ==> NotStalled(c, Step(c, w, i).room)) <==> !FindsStalled(c, w, i)
  {
    hide WellFormed, StoredStalled, EventEnabled, NotStalled, LobbyIsFresh, Step;
    if !Enabled(w, i) {
      NothingHappens(c, w, i);
    } else if i.event.Load? {
      LoadIsLive(c, w, i);
      if Step(c, w, i).live { LoadStallsExactly(c, w, i); }
    } else if IsRoomEvent(i.event) {
      RoomStep(c, w, i);
      LiveIsOpen(w);
      EventsDoNotStall(c, w, i);
    } else {
      OutsideStep(c, w, i);
      SamePlayersSameWait(c, w.room, Step(c, w, i).room);
    }
  }

  /** A load brings a room object exactly for a session that is neither ended nor expired. */
  lemma LoadIsLive(c: Config, w: World, i: Input)
    requires Sound(w) && Enabled(w, i) && i.event.Load?
    ensures Step(c, w, i).live <==> !w.room.tables.status.Ended? && !Expired(w.room.tables, i.env.wall)
    ensures StoredStalled(c, w.room.tables) ==> !w.room.tables.status.Ended?
  {
    hide Step, WellFormed, NewRoom, SaveStandings, Standings;
    LoadStep(c, w, i);
  }

  lemma LiveIsOpen(w: World)
    requires LobbyIsFresh(w)
    ensures w.live ==> !w.room.status.Ended?
  {
  }

  lemma SamePlayersSameWait(c: Config, r: Room, s: Room)
    requires s.players == r.players && s.status == r.status
    ensures NotStalled(c, s) <==> NotStalled(c, r)
  {
  }

  // ---------------------------------------------------------------- a reload that stalls

  function LosingAck(i: Input): Input {
    i.(env := i.env.(save := AckLost))
  }

  /** The last answer is stored, its acknowledgement lost. */
  lemma LastAckLost(c: Config, w: World, id: PlayerId, k: nat)
    requires Playable(c) && k + 1 == |c.questions| && OnTrack(c, w, id, k)
    ensures var env := PlainEnv(w.clock, w.wall);
      var v := Step(c, Step(c, w, Ask(id, env)), LosingAck(AnswerRight(c, id, k, env)));
      && Sound(v) && v.live && v.room.tables.status.Running? && v.wall == 0 && v.clock == 0
      && v.room.tables.rows.Keys <= {id} && id in v.room.tables.rows && v.room.tables.rows[id].index == |c.questions|
  {
    hide Step, Playable, WellFormed, Replayed, SubmitSeat, NextSeat, ScoreCap;
    var env := PlainEnv(w.clock, w.wall);
    LostAckOnSeat(c, SeatOf(w.room, id), id, k, env, w.clock);
    RunningRoomStep(c, w, id, Ask(id, env));
    RunningRoomStep(c, Step(c, w, Ask(id, env)), id, LosingAck(AnswerRight(c, id, k, env)));
  }

  lemma LostAckOnSeat(c: Config, seat: Seat, id: PlayerId, k: nat, env: Env, clock: nat)
    requires Playable(c) && k < |c.questions| && env.save.Works? && clock <= env.now
    requires seat.player == Player(Perfect(c, k), None) && seat.account.Some? && SeatAgrees(c, seat, clock)
    ensures var served := NextSeat(c, true, seat, id, env);
      var right := Some(CorrectOptionId(c.questions[k].options));
      var s := SubmitSeat(c, true, served, id, c.questions[k].id, right, env.(save := AckLost));
      && served.player.progress == s.player.progress == Perfect(c, k)
      && s.account.Some? && s.account.value.row.index == k + 1
  {
    hide Replayed, Playable, Score, SaveOutcome;
    var q := c.questions[k];
    var served := ServeSeat(c, seat, env);
    assert NextSeat(c, true, seat, id, env) == served;
    ServeKeepsAgreement(c, seat, env, clock);
    var right := CorrectOptionId(q.options);
    AskingForTheRightOne(c, k);
    GradingIgnoresOrder(q.options, served.player.active.value.options, right);
    var out := OutcomeOf(c, served.player.progress, served.player.active.value, Some(right), env.now);
    OutcomesAreHonest(c, served.player, Some(right), env.now, env.now);
    SaveExtendsReplay(c, served, id, out, env.(save := AckLost), env.now);
  }

  lemma CrashAndLoad(c: Config, w: World, id: PlayerId)
    requires Sound(w) && w.live && w.room.tables.status.Running? && w.wall == 0 && w.clock == 0
    requires w.room.tables.rows.Keys <= {id} && id in w.room.tables.rows
    requires w.room.tables.rows[id].index == |c.questions|
    ensures var v := Step(c, Step(c, w, Input(Crash, PlainEnv(0, 0))), Input(Load, PlainEnv(0, 0)));
      v.live && !NotStalled(c, v.room)
  {
    hide WellFormed, Standings, SaveStandings, NotStalled;
    var crashed := Step(c, w, Input(Crash, PlainEnv(0, 0)));
    LoadStallsExactly(c, crashed, Input(Load, PlainEnv(0, 0)));
  }

  /**
   * Without that condition the promise fails: the last answer's acknowledgement is lost, the process
   * crashes, and the reloaded room runs with nobody left to play, until its deadline.
   */
  lemma FinishedReloadStalls(c: Config) returns (inputs: seq<Input>)
    requires Playable(c) && |c.questions| > 0
    ensures Run(c, CREATED, inputs).live && !NotStalled(c, Run(c, CREATED, inputs).room)
  {
    hide Run, Step, Playable, NotStalled, AgreesFor;
    var k := |c.questions| - 1;
    var opening := Opening(c);
    var before := PerfectRuns(c, opening, 0, k);
    var w := Run(c, CREATED, before);
    var env := PlainEnv(w.clock, w.wall);
    var asked := before + [Ask(0, env)];
    RunStep(c, CREATED, before, Ask(0, env));
    RunStep(c, CREATED, asked, LosingAck(AnswerRight(c, 0, k, env)));
    var answered := asked + [LosingAck(AnswerRight(c, 0, k, env))];
    LastAckLost(c, w, 0, k);
    CrashAndLoad(c, Run(c, CREATED, answered), 0);
    RunStep(c, CREATED, answered, Input(Crash, PlainEnv(0, 0)));
    RunStep(c, CREATED, answered + [Input(Crash, PlainEnv(0, 0))], Input(Load, PlainEnv(0, 0)));
    inputs := answered + [Input(Crash, PlainEnv(0, 0))] + [Input(Load, PlainEnv(0, 0))];
  }
}
