/** A Save that fails, in a run from the very start: the next lb.update is wrong. */
module FailedSave {
  import opened Common
  import opened Questions
  import opened Scoring
  import opened Rank
  import opened Database
  import opened RoomSpec
  import opened World
  import Messages
  import opened Persistence
  import opened Extremes
  import opened Cache

  // ---------------------------------------------------------------- one answer whose standing is not saved

  /** Two players Redis knows with no points each, and a host watching. */
  ghost predicate Level(r: Room, a: PlayerId, b: PlayerId, k: SinkId) {
    && WellFormed(r) && r.status.Running? && a < b
    && r.players.Keys == {a, b} && r.players[a].progress == r.players[b].progress == NO_PROGRESS
    && r.board == map[a := ZERO_KEY, b := ZERO_KEY]
    && r.host == Some(k) && r.lb == IDLE_THROTTLE
  }

  lemma LevelRanked(a: PlayerId, b: PlayerId)
    requires a < b
    ensures Leaderboard.Ranked(map[a := ZERO_KEY, b := ZERO_KEY]) == [b, a]
  {
    var entries := map[a := ZERO_KEY, b := ZERO_KEY];
    hide Leaderboard.Ranked, Leaderboard.InOrder;
    Leaderboard.RankedListsEntries(entries);
    assert |entries.Keys| == |{a, b}| == 2 && |entries| == |entries.Keys|;
    InOrderOfTwo(entries, Leaderboard.Ranked(entries), b, a);
  }

  lemma InOrderOfTwo(entries: Leaderboard.Entries, ids: seq<PlayerId>, a: PlayerId, b: PlayerId)
    requires a != b && entries.Keys == {a, b} && Leaderboard.Ahead(entries, a, b)
    requires |ids| == 2 && Leaderboard.InOrder(entries, ids)
    ensures ids == [a, b]
  {
    assert ids[0] in entries && ids[1] in entries;
    assert Leaderboard.Ahead(entries, ids[0], ids[1]);
  }

  /** A ranking that still goes by those entries. */
  lemma StaleRanking(c: Config, r: Room, a: PlayerId, b: PlayerId, env: Env)
    requires WellFormed(r) && c.hasBoard && env.boardReads && env.evicted == {} && a < b
    requires r.players.Keys == {a, b} && r.board == map[a := ZERO_KEY, b := ZERO_KEY]
    ensures RankedIds(c, r, env) == (r, [b, a])
  {
    hide WellFormed, Leaderboard.Ranked, CoversAllPlayers, Standings, Order;
    LevelRanked(a, b);
    assert r.board - env.evicted == r.board;
    CoveringEntries(r.players, r.board);
  }

  lemma StaleBroadcast(c: Config, r: Room, a: PlayerId, b: PlayerId, k: SinkId, env: Env)
    requires WellFormed(r) && c.hasBoard && env.boardReads && env.evicted == {} && a < b
    requires r.players.Keys == {a, b} && r.board == map[a := ZERO_KEY, b := ZERO_KEY] && r.host == Some(k)
    ensures var s := SendLeaderboard(c, r, env);
      && k in s.wire && s.wire[k] == r.wire[k] + [Rankings(RankRows(r.players, [b, a]))] && s.players == r.players
  {
    StaleRanking(c, r, a, b, env);
    assert k in Held(r);
    hide WellFormed, RankedIds;
  }

  lemma WrongRows(players: map<PlayerId, Player>, a: PlayerId, b: PlayerId)
    requires players.Keys == {a, b} && a < b && KeyOf(a, players[a]) > KeyOf(b, players[b])
    ensures !Lists(players, RankRows(players, [b, a]))
  {
    var rows := RankRows(players, [b, a]);
    assert RowIds(rows)[0] == b && RowIds(rows)[1] == a;
  }

  /** The standing moves on in memory only. */
  lemma UnsavedAdvanceMisleads(c: Config, r: Room, a: PlayerId, b: PlayerId, k: SinkId, next: Progress,
                               message: Option<Packet>, env: Env)
    requires Level(r, a, b, k) && c.hasBoard && |c.questions| > 0
    requires env.boardReads && env.evicted == {} && !env.boardSaves
    requires StandingOf(a, next).Key() > ZERO_KEY
    ensures Misleads(r, Advanced(c, r, a, next, message, env), k)
  {
    hide WellFormed, MarkLeaderboardDirty, EndIfAllFinished, AllFinished, SendTo, Misleads, KeyOf;
    OnePlayerReplaced(r, a, Player(next, None));
    var r1 := r.(players := r.players[a := Player(next, None)]);
    assert SaveStandings(c, r1, [StandingOf(a, next)], env.boardSaves) == r1;
    var r2 := if message.Some? then SendTo(r1, a, message.value) else r1;
    if message.Some? { TellingAPlayer(r1, a, k, message.value); }
    HostIsOpen(r, k);
    OvertakesZero(r2, a, b);
    UnsavedMarkMisleads(c, r2, a, b, k, env);
    NobodyEnds(c, MarkLeaderboardDirty(c, r2, env), b, env);
    MisleadsSince(r, r2, MarkLeaderboardDirty(c, r2, env), k);
  }

  lemma OvertakesZero(r: Room, a: PlayerId, b: PlayerId)
    requires a in r.players && b in r.players && StandingOf(a, r.players[a].progress).Key() > ZERO_KEY
    requires r.players[b].progress == NO_PROGRESS
    ensures KeyOf(a, r.players[a]) > KeyOf(b, r.players[b])
  {
  }

  lemma NobodyEnds(c: Config, r: Room, b: PlayerId, env: Env)
    requires WellFormed(r) && |c.questions| > 0 && b in r.players && r.players[b].progress.resolved == 0
    ensures EndIfAllFinished(c, r, env) == r
  {
    hide WellFormed, EndSession;
  }

  lemma MisleadsSince(r: Room, r2: Room, s: Room, k: SinkId)
    requires Misleads(r2, s, k) && k in r.wire && r2.wire[k] == r.wire[k]
    ensures Misleads(r, s, k)
  {
    hide Lists;
  }

  /** A message to a player is none to the host. */
  lemma TellingAPlayer(r: Room, p: PlayerId, k: SinkId, m: Packet)
    requires WellFormed(r) && r.host == Some(k)
    ensures var s := SendTo(r, p, m); k in r.wire && k in s.wire && s.wire[k] == r.wire[k]
  {
    HostIsOpen(r, k);
  }

  lemma HostIsOpen(r: Room, k: SinkId)
    requires WellFormed(r) && r.host == Some(k)
    ensures k in r.wire
  {
    assert k in Held(r);
  }

  lemma UnsavedMarkMisleads(c: Config, r: Room, a: PlayerId, b: PlayerId, k: SinkId, env: Env)
    requires WellFormed(r) && c.hasBoard && env.boardReads && env.evicted == {} && a < b && r.lb == IDLE_THROTTLE
    requires r.players.Keys == {a, b} && r.board == map[a := ZERO_KEY, b := ZERO_KEY] && r.host == Some(k)
    requires KeyOf(a, r.players[a]) > KeyOf(b, r.players[b])
    ensures Misleads(r, MarkLeaderboardDirty(c, r, env), k)
  {
    hide WellFormed, SendLeaderboard, RankRows, Lists, KeyOf;
    var dirty := r.(lb := r.lb.(dirty := true));
    HostIsOpen(r, k);
    OtherFieldsDoNotMatter(r, dirty);
    StaleBroadcast(c, dirty, a, b, k, env);
    WrongRows(r.players, a, b);
  }

  /** One more message to k, and it is a wrong ranking. */
  ghost predicate Misleads(r: Room, s: Room, k: SinkId) {
    && k in r.wire && k in s.wire && |s.wire[k]| == |r.wire[k]| + 1
    && s.wire[k][|r.wire[k]|].Rankings? && !Lists(s.players, s.wire[k][|r.wire[k]|].rows)
  }

  lemma UnsavedAnswerMisleads(c: Config, r: Room, a: PlayerId, b: PlayerId, k: SinkId, question: QuestionId,
                              option: Option<OptionId>,
                              next: Progress, env: Env)
    requires Level(r, a, b, k) && c.hasBoard && |c.questions| > 0 && r.players[a].active.Some?
    requires env.boardReads && env.evicted == {} && !env.boardSaves
    requires SubmitSeat(c, true, SeatOf(r, a), a, question, option, env).player == Player(next, None)
    requires StandingOf(a, next).Key() > ZERO_KEY
    ensures Misleads(r, SubmitAnswer(c, r, a, question, option, env), k)
  {
    hide WellFormed, Advanced, Persist, SaveToAccount, OutcomeOf, Advance, CorrectOptionId, Reject, AccountOf,
         SameForOthers, HasOption;
    var p := r.players[a];
    var out := OutcomeOf(c, p.progress, p.active.value, option, env.now);
    var finished := next.resolved >= |c.questions|;
    var (r0, error) := Persist(r, ResultOf(a, p.active.value, out, next, finished), env);
    var message := Graded(Right(out), CorrectOptionId(p.active.value.question.options), out.points, next.score,
                          next.streak, finished);
    UnsavedAdvanceMisleads(c, r0, a, b, k, next, Some(message), env);
  }

  // ---------------------------------------------------------------- getting there from the start

  const BOTH_JOINED := Tables(Lobby, 0, map[0 := NEW_ROW, 1 := NEW_ROW], map[0 := map[], 1 := map[]], [0, 1])
  const NEWCOMER := Player(NO_PROGRESS, None)
  const HOST: SinkId := 7
  const PHONE: SinkId := 5

  /** The room while it is a lobby with both players: before and after connections are made. */
  function Lobby2(host: Option<SinkId>, sinks: map<PlayerId, SinkId>, wire: Wire): Room {
    Room(Lobby, map[0 := NEWCOMER, 1 := NEWCOMER], [0, 1], host, sinks, None, IDLE_THROTTLE, BOTH_JOINED,
         map[0 := ZERO_KEY, 1 := ZERO_KEY], wire, [], 0)
  }

  function At(event: Event): Input {
    Input(event, PlainEnv(0, 0))
  }

  const JOINED_2 := World(false, CREATED.room.(tables := BOTH_JOINED), {0, 1}, {0, 1}, 0, 0)

  const JOINED_1 := World(false, CREATED.room.(tables := JOINED_TABLES), {0}, {0}, 0, 0)

  lemma CreatedIsSound()
    ensures Sound(CREATED)
  {
  }

  lemma OneJoins(c: Config)
    requires Sound(CREATED)
    ensures Step(c, CREATED, At(Join(0, 0))) == JOINED_1
  {
    hide WellFormed;
    assert InsertPlayer(NEW_TABLES, 0, 0) == JOINED_TABLES;
  }

  lemma TwoJoin(c: Config)
    requires Sound(JOINED_1)
    ensures Step(c, JOINED_1, At(Join(1, 1))) == JOINED_2
  {
    hide WellFormed;
    assert InsertPlayer(JOINED_TABLES, 1, 1) == BOTH_JOINED;
  }

  lemma BothStanding()
    ensures var s := [StandingOf(0, NO_PROGRESS), StandingOf(1, NO_PROGRESS)];
      && Standings(map[0 := NEWCOMER, 1 := NEWCOMER], [0, 1]) == s
      && Leaderboard.Added(map[], s) == map[0 := ZERO_KEY, 1 := ZERO_KEY]
  {
    var s := [StandingOf(0, NO_PROGRESS), StandingOf(1, NO_PROGRESS)];
    assert s[..1] == [s[0]] && s[..1][..0] == [];
    assert Leaderboard.Added(map[], s[..1]) == map[0 := ZERO_KEY];
  }

  lemma BothJoinedIsConsistent()
    ensures Consistent(BOTH_JOINED)
  {
  }

  lemma NewRoomForTwo()
    requires Consistent(BOTH_JOINED)
    ensures NewRoom(JOINED_2.room, 0) == Lobby2(None, map[], map[]).(board := map[])
  {
    hide WellFormed, Consistent;
  }

  lemma LoadedForTwo(c: Config, r: Room)
    requires c.hasBoard && WellFormed(r) && r == JOINED_2.room
    ensures Loaded(c, r, PlainEnv(0, 0)) == (Lobby2(None, map[], map[]), true)
  {
    hide WellFormed, Standings, Leaderboard.Added, NewRoom, Consistent;
    BothStanding();
    BothJoinedIsConsistent();
    NewRoomForTwo();
  }

  lemma TwoLoad(c: Config, w: World)
    requires c.hasBoard && Sound(w) && w == JOINED_2
    ensures Step(c, w, At(Load)) == World(true, Lobby2(None, map[], map[]), {0, 1}, {0, 1}, 0, 0)
  {
    hide WellFormed, Loaded, Consistent, Step;
    LoadedForTwo(c, w.room);
    LoadStep(c, w, At(Load));
  }

  const GREETING := [RoomState(Lobby, 0, 0, 0, [0, 1])]
  const HOSTED := Lobby2(Some(HOST), map[], map[HOST := GREETING])
  const CONNECTED := Lobby2(Some(HOST), map[0 := PHONE], map[HOST := GREETING, PHONE := GREETING])

  lemma HostAttaches(c: Config, w: World)
    requires w == World(true, Lobby2(None, map[], map[]), {0, 1}, {0, 1}, 0, 0) && Sound(w)
    ensures Sound(Step(c, w, At(AddJoined(0))))
    ensures Step(c, Step(c, w, At(AddJoined(0))), At(AttachHostEvent(HOST, c.hostId)))
         == World(true, HOSTED, {1}, {0, 1}, 0, 0)
  {
    hide WellFormed;
    assert Step(c, w, At(AddJoined(0))) == w.(pending := {1});
  }

  lemma PlayerAttaches(c: Config, w: World)
    requires w == World(true, HOSTED, {1}, {0, 1}, 0, 0) && Sound(w)
    ensures Step(c, w, At(AttachPlayerEvent(0, PHONE))) == World(true, CONNECTED, {1}, {0, 1}, 0, 0)
  {
    hide WellFormed, Step, SettleSeat, OnlyPlayer, AccountOf;
    RoomStep(c, w, At(AttachPlayerEvent(0, PHONE)));
    assert AttachPlayer(c, w.room, 0, PHONE, PlainEnv(0, 0)) == CONNECTED;
  }

  ghost predicate Playing2(w: World) {
    && Sound(w) && w.live && w.pending == {1} && w.clock == 0 && w.wall == 0
    && Level(w.room, 0, 1, HOST) && w.room.players == map[0 := NEWCOMER, 1 := NEWCOMER]
    && AccountOf(w.room.tables, 0).Some?
  }

  lemma TwoStart(c: Config, w: World)
    requires w == World(true, CONNECTED, {1}, {0, 1}, 0, 0) && Sound(w)
    ensures Playing2(Step(c, w, At(Start)))
  {
    hide WellFormed, StartSession, Step, RoomAfter;
    RoomStep(c, w, At(Start));
    Messages.OtherStep(c, w, At(Start));
  }

  lemma ServedAlone(c: Config, r: Room, id: PlayerId, env: Env)
    requires WellFormed(r) && id in r.players && r.players[id].active.None? && r.status.Running?
    requires r.players[id].progress.resolved < |c.questions|
    ensures var s := NextQuestion(c, r, id, env); s == r.(players := s.players, wire := s.wire)
  {
    hide WellFormed, ShuffledOptions, QuestionLimit, AccountOf, SameForOthers;
  }

  /** The first player asks for the first question. */
  ghost predicate Asked2(v: World) {
    && Sound(v) && v.live && v.pending == {1} && v.clock == 0 && v.wall == 0
    && Level(v.room, 0, 1, HOST) && v.room.players[0].active.Some?
  }

  lemma ServedStaysLevel(r: Room, s: Room)
    requires Level(r, 0, 1, HOST) && WellFormed(s) && s == r.(players := s.players, wire := s.wire)
    requires OnlyPlayer(r, s, 0) && s.players[0].progress == NO_PROGRESS
    ensures Level(s, 0, 1, HOST)
  {
    hide WellFormed;
  }

  lemma FirstServed(c: Config, w: World, v: World)
    requires Playable(c) && |c.questions| > 0 && Playing2(w) && AgreesFor(c, w, 0)
    requires v == Step(c, w, Ask(0, PlainEnv(0, 0)))
    ensures Asked2(v) && 0 in w.room.players
    ensures SeatOf(v.room, 0) == NextSeat(c, true, SeatOf(w.room, 0), 0, PlainEnv(0, 0))
  {
    hide WellFormed, NextQuestion, AgreesFor, Playable, NextSeat, Replayed, AccountOf, Step, SameForOthers,
         SurplusMarks, SubmitSeat, Perfect;
    var env := PlainEnv(0, 0);
    PerfectFirstRound(c, w);
    RoomStep(c, w, Ask(0, env));
    ServedAlone(c, w.room, 0, env);
    assert v.room == NextQuestion(c, w.room, 0, env) && v.room.players[0].progress == NO_PROGRESS;
    ServedStaysLevel(w.room, v.room);
  }

  /** What serving and answering the first question does to the first seat. */
  lemma PerfectFirstRound(c: Config, w: World)
    requires Playable(c) && |c.questions| > 0 && Playing2(w) && AgreesFor(c, w, 0)
    ensures 0 in w.room.players
    ensures var env := PlainEnv(0, 0);
      var served := NextSeat(c, true, SeatOf(w.room, 0), 0, env);
      && served.player.active.Some? && served.player.progress == NO_PROGRESS
      && SubmitSeat(c, true, served, 0, c.questions[0].id, Some(CorrectOptionId(c.questions[0].options)), env).player
         == Player(Perfect(c, 1), None)
  {
    hide WellFormed, NextSeat, SubmitSeat, Replayed, Playable;
    PerfectRoundOnSeat(c, SeatOf(w.room, 0), 0, 0, PlainEnv(0, 0), 0);
  }

  function Unsaved(i: Input): Input {
    i.(env := i.env.(boardSaves := false))
  }

  /** Answering it right while Redis does not take the standing. */
  lemma FirstAnswerMisleads(c: Config, w: World)
    requires Playable(c) && |c.questions| > 0 && Playing2(w) && AgreesFor(c, w, 0) && c.hasBoard
    ensures var v := Step(c, w, Ask(0, PlainEnv(0, 0)));
      Misleads(v.room, Step(c, v, Unsaved(AnswerRight(c, 0, 0, PlainEnv(0, 0)))).room, HOST)
  {
    assert Sound(w);
    hide Step, WellFormed, NextSeat, SubmitSeat, AgreesFor, Playable, SubmitAnswer, Playing2, Misleads, AccountOf;
    var v := Step(c, w, Ask(0, PlainEnv(0, 0)));
    FirstServed(c, w, v);
    PerfectFirstRound(c, w);
    FirstPointsCount(c);
    AnswerMisleads(c, v);
  }

  lemma AnswerMisleads(c: Config, v: World)
    requires c.hasBoard && |c.questions| > 0 && Asked2(v) && StandingOf(0, Perfect(c, 1)).Key() > ZERO_KEY
    requires SubmitSeat(c, true, SeatOf(v.room, 0), 0, c.questions[0].id, Some(CorrectOptionId(c.questions[0].options)),
                        PlainEnv(0, 0)).player
          == Player(Perfect(c, 1), None)
    ensures Misleads(v.room, Step(c, v, Unsaved(AnswerRight(c, 0, 0, PlainEnv(0, 0)))).room, HOST)
  {
    hide Step, WellFormed, SubmitSeat, SubmitAnswer, Misleads, AccountOf, Perfect;
    var i, option := Unsaved(AnswerRight(c, 0, 0, PlainEnv(0, 0))), Some(CorrectOptionId(c.questions[0].options));
    BoardDoesNotMatterToSeats(c, SeatOf(v.room, 0), PlainEnv(0, 0), c.questions[0].id, option);
    UnsavedAnswerMisleads(c, v.room, 0, 1, HOST, c.questions[0].id, option, Perfect(c, 1), i.env);
    Submitting(c, v, i);
  }

  lemma Submitting(c: Config, w: World, i: Input)
    requires Sound(w) && i.event.Submit? && Enabled(w, i)
    ensures Step(c, w, i).room == SubmitAnswer(c, w.room, i.event.player, i.event.question, i.event.option, i.env)
  {
    hide WellFormed, SubmitAnswer, AccountOf, Step;
    RoomStep(c, w, i);
  }

  lemma BoardDoesNotMatterToSeats(c: Config, seat: Seat, env: Env, question: QuestionId, option: Option<OptionId>)
    ensures SubmitSeat(c, true, seat, 0, question, option, env)
         == SubmitSeat(c, true, seat, 0, question, option, env.(boardSaves := false))
  {
    hide SaveToAccount, OutcomeOf, Advance;
  }

  lemma FirstPointsCount(c: Config)
    requires Playable(c) && |c.questions| > 0
    ensures StandingOf(0, Perfect(c, 1)).Key() > ZERO_KEY
  {
  }

  /** These inputs lead to that world, and no Save fails on the way. */
  ghost predicate Leads(c: Config, inputs: seq<Input>, w: World) {
    Sound(CREATED) && Sound(w) && Run(c, CREATED, inputs) == w && BoardsWork(inputs)
  }

  lemma LeadsOn(c: Config, inputs: seq<Input>, w: World, i: Input)
    requires Leads(c, inputs, w) && BoardWorks(i.env)
    ensures Leads(c, inputs + [i], Step(c, w, i))
  {
    hide Step, WellFormed;
    RunStep(c, CREATED, inputs, i);
  }

  lemma TwoWait(c: Config) returns (inputs: seq<Input>)
    requires c.hasBoard
    ensures Leads(c, inputs, World(true, Lobby2(None, map[], map[]), {0, 1}, {0, 1}, 0, 0))
  {
    CreatedIsSound();
    assert Leads(c, [], CREATED);
    hide Step, Leads, Sound, Run;
    OneJoins(c);
    LeadsOn(c, [], CREATED, At(Join(0, 0)));
    LeadingIsSound(c, [] + [At(Join(0, 0))], JOINED_1);
    TwoJoin(c);
    LeadsOn(c, [] + [At(Join(0, 0))], JOINED_1, At(Join(1, 1)));
    LeadingIsSound(c, [] + [At(Join(0, 0))] + [At(Join(1, 1))], JOINED_2);
    TwoLoad(c, JOINED_2);
    LeadsOn(c, [] + [At(Join(0, 0))] + [At(Join(1, 1))], JOINED_2, At(Load));
    inputs := [] + [At(Join(0, 0))] + [At(Join(1, 1))] + [At(Load)];
  }

  lemma LeadingIsSound(c: Config, inputs: seq<Input>, w: World)
    requires Leads(c, inputs, w)
    ensures Sound(w)
  {
  }

  lemma TwoPlay(c: Config) returns (inputs: seq<Input>)
    requires c.hasBoard
    ensures Sound(CREATED) && Playing2(Run(c, CREATED, inputs)) && BoardsWork(inputs)
  {
    CreatedIsSound();
    hide Step, Playing2, WellFormed, Run;
    var before := TwoWait(c);
    var w := World(true, Lobby2(None, map[], map[]), {0, 1}, {0, 1}, 0, 0);
    HostAttaches(c, w);
    LeadsOn(c, before, w, At(AddJoined(0)));
    var w1 := Step(c, w, At(AddJoined(0)));
    LeadsOn(c, before + [At(AddJoined(0))], w1, At(AttachHostEvent(HOST, c.hostId)));
    var w2 := Step(c, w1, At(AttachHostEvent(HOST, c.hostId)));
    var connected := before + [At(AddJoined(0))] + [At(AttachHostEvent(HOST, c.hostId))];
    PlayerAttaches(c, w2);
    LeadsOn(c, connected, w2, At(AttachPlayerEvent(0, PHONE)));
    var w3 := Step(c, w2, At(AttachPlayerEvent(0, PHONE)));
    TwoStart(c, w3);
    LeadsOn(c, connected + [At(AttachPlayerEvent(0, PHONE))], w3, At(Start));
    inputs := connected + [At(AttachPlayerEvent(0, PHONE))] + [At(Start)];
  }

  /**
   * Every Save works but the last; then the lb.update that follows lists the players in an overtaken order. So
   * the condition of Cache.EveryRankingIsRight is needed from the first answer on.
   */
  lemma FailedSaveMisleads(c: Config) returns (inputs: seq<Input>, last: Input)
    requires Playable(c) && c.hasBoard && |c.questions| > 0
    ensures BoardsWork(inputs) && last.env == PlainEnv(0, 0).(boardSaves := false)
    ensures var w := Run(c, CREATED, inputs);
      var v := Step(c, w, last);
      !News(v.room.players, w.room.wire, v.room.wire)
  {
    hide Step, Run, Playing2, Misleads, News, Playable, AgreesFor;
    var before := TwoPlay(c);
    var w := Run(c, CREATED, before);
    var ask := Ask(0, PlainEnv(0, 0));
    inputs, last := before + [ask], Unsaved(AnswerRight(c, 0, 0, PlainEnv(0, 0)));
    RunsKeepAgreement(c, before, 0);
    FirstAnswerMisleads(c, w);
    RunStep(c, CREATED, before, ask);
    MisleadingIsNoNews(Run(c, CREATED, inputs).room, Step(c, Run(c, CREATED, inputs), last).room);
  }

  lemma MisleadingIsNoNews(r: Room, s: Room)
    requires Misleads(r, s, HOST)
    ensures !News(s.players, r.wire, s.wire)
  {
    hide Lists;
  }
}
