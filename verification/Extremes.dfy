/** The score caps in numbers, and runs that attain them. */
module Extremes {
  import opened Common
  import opened Scoring
  import opened Questions
  import opened Selector
  import opened Database
  import opened RoomSpec
  import opened World
  import opened Persistence
  import opened Catalog
  import opened Bounds

  // ---------------------------------------------------------------- the caps of the compositions

  function CellsBase(cells: seq<SiteLevel>): nat {
    if cells == [] then 0 else CellsBase(cells[..|cells| - 1]) + BasePoints(cells[|cells| - 1].level)
  }

  lemma {:induction false} CellsBaseConcat(a: seq<SiteLevel>, b: seq<SiteLevel>)
    ensures CellsBase(a + b) == CellsBase(a) + CellsBase(b)
  {
    if b == [] {
      assert a + b == a;
    } else {
      CellsBaseConcat(a, b[..|b| - 1]);
      assert (a + b)[..|a + b| - 1] == a + b[..|b| - 1];
    }
  }

  lemma {:induction false} BaseCapIsCellsBase(c: Config, plan: seq<SiteLevel>, k: nat)
    requires |plan| == |c.questions| && k <= |plan| && forall i :: 0 <= i < |plan| ==>
      c.questions[i].level == plan[i].level
    ensures BaseCap(c, k) == CellsBase(plan[..k])
  {
    if k > 0 {
      BaseCapIsCellsBase(c, plan, k - 1);
      assert plan[..k][..k - 1] == plan[..k - 1];
    }
  }

  function StageBase(levels: seq<int>, shortSession: bool): nat
    requires |levels| == 3
  {
    BasePoints(levels[0]) + (if shortSession then 0 else BasePoints(levels[1])) + BasePoints(levels[2])
  }

  lemma CellsBaseOfStage(site: int, levels: seq<int>, shortSession: bool)
    requires |levels| == 3
    ensures CellsBase(Cells(site, LevelsToAsk(levels, shortSession))) == StageBase(levels, shortSession)
  {
    var asked := LevelsToAsk(levels, shortSession);
    var cells := Cells(site, asked);
    if shortSession {
      assert cells == [SiteLevel(site, asked[0])] + [SiteLevel(site, asked[1])];
    } else {
      assert cells == [SiteLevel(site, asked[0])] + [SiteLevel(site, asked[1])] + [SiteLevel(site, asked[2])];
      CellsBaseConcat([SiteLevel(site, asked[0])] + [SiteLevel(site, asked[1])], [SiteLevel(site, asked[2])]);
    }
    CellsBaseConcat([SiteLevel(site, asked[0])], [SiteLevel(site, asked[1])]);
  }

  function StagesBase(cells: seq<seq<int>>, shortSession: bool, stage: nat): nat
    requires stage <= |cells| && forall levels :: levels in cells ==> |levels| == 3
    decreases |cells| - stage
  {
    if stage == |cells| then 0 else StageBase(cells[stage], shortSession) + StagesBase(cells, shortSession, stage + 1)
  }

  lemma {:induction false} PlanBase(cells: seq<seq<int>>, shortSession: bool, stage: nat)
    requires stage <= |cells| && forall levels :: levels in cells ==> |levels| == 3
    ensures CellsBase(PlanFrom(cells, shortSession, stage)) == StagesBase(cells, shortSession, stage)
    decreases |cells| - stage
  {
    if stage < |cells| {
      PlanBase(cells, shortSession, stage + 1);
      CellsBaseOfStage(stage + 1, cells[stage], shortSession);
      CellsBaseConcat(Cells(stage + 1, LevelsToAsk(cells[stage], shortSession)),
                      PlanFrom(cells, shortSession, stage + 1));
    }
  }

  function CompositionCap(jenjang: Jenjang, shortSession: bool): nat {
    match jenjang
    case SD => if shortSession then 8250 else 12750
    case SMP => if shortSession then 8750 else 13500
    case SMA => if shortSession then 9500 else 14750
    case Unknown(_) => 0
  }

  lemma FiveStages(cells: seq<seq<int>>, shortSession: bool)
    requires |cells| == 5 && forall levels :: levels in cells ==> |levels| == 3
    ensures StagesBase(cells, shortSession, 0)
         == StageBase(cells[0], shortSession) + StageBase(cells[1], shortSession) + StageBase(cells[2], shortSession)
          + StageBase(cells[3], shortSession) + StageBase(cells[4], shortSession)
  {
    hide StageBase;
    assert StagesBase(cells, shortSession, 4) == StageBase(cells[4], shortSession);
    assert StagesBase(cells, shortSession, 3) == StageBase(cells[3], shortSession) + StagesBase(cells, shortSession, 4);
    assert StagesBase(cells, shortSession, 2) == StageBase(cells[2], shortSession) + StagesBase(cells, shortSession, 3);
    assert StagesBase(cells, shortSession, 1) == StageBase(cells[1], shortSession) + StagesBase(cells, shortSession, 2);
  }

  lemma BonusTotals()
    ensures BonusCap(10) == 1750 && BonusCap(15) == 3000
  {
    assert BonusCap(5) == 500;
    assert BonusCap(10) == 1750;
  }

  lemma CompositionTotals(jenjang: Jenjang, shortSession: bool)
    requires Composition(jenjang).Some?
    ensures StagesBase(Composition(jenjang).value, shortSession, 0) + BonusCap(if shortSession then 10 else 15)
         == CompositionCap(jenjang, shortSession)
  {
    hide StagesBase, BonusCap;
    BonusTotals();
    FiveStages(Composition(jenjang).value, shortSession);
  }

  /** A room built by the selector: the most a player can ever have is the stated constant. */
  lemma SelectedRoomCap(c: Config, shortSession: bool, bank: seq<Question>, pool: seq<QuestionRef>,
                        ids: seq<QuestionId>)
    requires ValidBank(bank) && RefersTo(pool, bank) && Composition(c.jenjang).Some?
    requires Fulfils(ids, Plan(c.jenjang, shortSession), pool) && InOrderOf(c.questions, ids, bank)
    ensures Playable(c) && ScoreCap(c, |c.questions|) == CompositionCap(c.jenjang, shortSession)
  {
    hide ValidBank, RefersTo, Playable, StagesBase, BonusCap, BaseCap, CellsBase;
    var plan := Plan(c.jenjang, shortSession);
    SelectionIsPlayable(c, shortSession, bank, pool, ids);
    BaseCapIsCellsBase(c, plan, |plan|);
    assert plan[..|plan|] == plan;
    PlanBase(Composition(c.jenjang).value, shortSession, 0);
    CompositionTotals(c.jenjang, shortSession);
  }

  lemma {:induction false} CapsGrow(c: Config, k: nat, n: nat)
    requires k <= n <= |c.questions|
    ensures ScoreCap(c, k) <= ScoreCap(c, n)
    decreases n
  {
    if k < n { CapsGrow(c, k, n - 1); }
  }

  /** No run of a selected room, with whatever failures and reloads, exceeds its constant, to its final standings. */
  lemma NoRunExceedsTheCap(c: Config, shortSession: bool, bank: seq<Question>, pool: seq<QuestionRef>,
                           ids: seq<QuestionId>,
                           inputs: seq<Input>, id: PlayerId)
    requires ValidBank(bank) && RefersTo(pool, bank) && Composition(c.jenjang).Some?
    requires Fulfils(ids, Plan(c.jenjang, shortSession), pool) && InOrderOf(c.questions, ids, bank)
    requires id in Run(c, CREATED, inputs).room.players
    ensures 0 <= Run(c, CREATED, inputs).room.players[id].progress.score <= CompositionCap(c.jenjang, shortSession)
  {
    hide ValidBank, RefersTo, Playable, ScoreCap, Run, CompositionCap, Plan, Fulfils, InOrderOf;
    SelectedRoomCap(c, shortSession, bank, pool, ids);
    RunsStayCapped(c, inputs, id);
    CapsGrow(c, Run(c, CREATED, inputs).room.players[id].progress.resolved, |c.questions|);
  }

  // ---------------------------------------------------------------- a perfect game

  /** Every question answered correctly the instant it is served. */
  function Perfect(c: Config, k: nat): Progress
    requires k <= |c.questions|
  {
    Progress(ScoreCap(c, k), k, 0, k, k)
  }

  function PlainEnv(now: nat, wall: nat): Env {
    Env(now, wall, [], Works, Works, Works, true, true, true, true, {})
  }

  lemma InstantScore(in_: ScoreInput)
    requires in_.correct && in_.responseMs == 0 && in_.limitMs >= 0 && in_.graceMs >= 0
    ensures Score(in_) == BasePoints(in_.level) + StreakBonus(in_.streakBefore)
  {
    ScoreIsIntegerFormula(in_);
    var b, d := BasePoints(in_.level), in_.limitMs - in_.graceMs;
    if !in_.accuracyMode && d > 0 { RoundedQuotientOfMultiple(b, d); }
  }

  /** The seat of a player on the way to a perfect game. */
  ghost predicate OnTrack(c: Config, w: World, id: PlayerId, k: nat)
    requires k <= |c.questions|
  {
    && Sound(w) && AgreesFor(c, w, id)
    && id !in w.pending && id in w.room.players
    && w.room.players[id] == Player(Perfect(c, k), None)
    && AccountOf(w.room.tables, id).Some? && w.room.tables.rows.Keys <= {id}
    && w.clock == 0 && w.wall == 0
    && (k < |c.questions| ==> w.live && w.room.status.Running? && w.room.tables.status.Running?)
  }

  /** Serving and answering at once resolves the question with full points. */
  lemma PerfectRoundOnSeat(c: Config, seat: Seat, id: PlayerId, k: nat, env: Env, clock: nat)
    requires Playable(c) && k < |c.questions| && env.save.Works? && clock <= env.now
    requires seat.player == Player(Perfect(c, k), None) && seat.account.Some? && SeatAgrees(c, seat, clock)
    ensures var served := NextSeat(c, true, seat, id, env);
      && served.player.active.Some? && served.player.progress == Perfect(c, k)
      && var answered := SubmitSeat(c, true, served, id, c.questions[k].id,
                                    Some(CorrectOptionId(c.questions[k].options)), env);
      answered.player == Player(Perfect(c, k + 1), None) && answered.account.Some?
  {
    hide Replayed, Playable, Score, SaveOutcome;
    var q := c.questions[k];
    var served := ServeSeat(c, seat, env);
    assert NextSeat(c, true, seat, id, env) == served;
    ServeKeepsAgreement(c, seat, env, clock);
    var a := served.player.active.value;
    var right := CorrectOptionId(q.options);
    AskingForTheRightOne(c, k);
    GradingIgnoresOrder(q.options, a.options, right);
    var out := OutcomeOf(c, served.player.progress, a, Some(right), env.now);
    InstantScore(ScoreInput(q.level, true, 0, Milliseconds(a.limit), ReadingGrace(c.jenjang), k, c.accuracyMode));
    assert Advance(Perfect(c, k), out) == Perfect(c, k + 1);
    OutcomesAreHonest(c, served.player, Some(right), env.now, env.now);
    SaveExtendsReplay(c, served, id, out, env, env.now);
  }

  lemma AskingForTheRightOne(c: Config, k: nat)
    requires Playable(c) && k < |c.questions|
    ensures HasOption(c.questions[k].options, CorrectOptionId(c.questions[k].options))
    ensures Gradable(c.questions[k].options)
  {
    var options := c.questions[k].options;
    NoneCorrect(options);
    OnlyCorrect(options, 0);
  }

  lemma RunStep(c: Config, w: World, inputs: seq<Input>, i: Input)
    requires Sound(w)
    ensures Run(c, w, inputs + [i]) == Step(c, Run(c, w, inputs), i)
  {
    hide Step;
    assert (inputs + [i])[..|inputs|] == inputs;
  }

  function Ask(id: PlayerId, env: Env): Input { Input(Next(id), env) }

  function AnswerRight(c: Config, id: PlayerId, k: nat, env: Env): Input
    requires k < |c.questions|
  {
    Input(Submit(id, c.questions[k].id, Some(CorrectOptionId(c.questions[k].options))), env)
  }

  lemma PerfectRound(c: Config, w: World, id: PlayerId, k: nat)
    requires Playable(c) && k < |c.questions| && OnTrack(c, w, id, k)
    ensures var env := PlainEnv(w.clock, w.wall);
      OnTrack(c, Step(c, Step(c, w, Ask(id, env)), AnswerRight(c, id, k, env)), id, k + 1)
  {
    hide Step, Playable, WellFormed, Replayed, SubmitSeat, NextSeat, ScoreCap;
    var env := PlainEnv(w.clock, w.wall);
    PerfectRoundOnSeat(c, SeatOf(w.room, id), id, k, env, w.clock);
    RunningRoomStep(c, w, id, Ask(id, env));
    var v := Step(c, w, Ask(id, env));
    RunningRoomStep(c, v, id, AnswerRight(c, id, k, env));
  }

  lemma {:induction false} PerfectRuns(c: Config, opening: seq<Input>, id: PlayerId,
                                       k: nat) returns (inputs: seq<Input>)
    requires Playable(c) && k <= |c.questions| && OnTrack(c, Run(c, CREATED, opening), id, 0)
    ensures OnTrack(c, Run(c, CREATED, inputs), id, k)
  {
    hide OnTrack, Run, Playable, Step;
    if k == 0 {
      inputs := opening;
    } else {
      var before := PerfectRuns(c, opening, id, k - 1);
      var w := Run(c, CREATED, before);
      var env := PlainEnv(w.clock, w.wall);
      PerfectRound(c, w, id, k - 1);
      RunStep(c, CREATED, before, Ask(id, env));
      RunStep(c, CREATED, before + [Ask(id, env)], AnswerRight(c, id, k - 1, env));
      inputs := before + [Ask(id, env)] + [AnswerRight(c, id, k - 1, env)];
    }
  }

  // ---------------------------------------------------------------- opening a room

  const JOINING := Input(Join(0, 0), PlainEnv(0, 0))
  const LOADING := Input(Load, PlainEnv(0, 0))
  const DELIVERING := Input(AddJoined(0), PlainEnv(0, 0))
  const ATTACHING := Input(AttachPlayerEvent(0, 0), PlainEnv(0, 0))
  const STARTING := Input(Start, PlainEnv(0, 0))

  /** A lobby with one fresh player. */
  ghost predicate FreshLobby(w: World) {
    && Sound(w) && w.live && w.room.status.Lobby? && w.room.tables.status.Lobby? && w.clock == 0 && w.wall == 0
    && w.room.players == map[0 := Player(NO_PROGRESS, None)]
    && AccountOf(w.room.tables, 0).Some? && w.room.tables.rows.Keys <= {0}
  }

  const JOINED_TABLES := Tables(Lobby, 0, map[0 := NEW_ROW], map[0 := map[]], [0])

  lemma HasJoined(c: Config)
    ensures var w := Step(c, CREATED, JOINING);
      && Sound(w) && !w.live && w.pending == {0} && w.clock == 0 && w.wall == 0
      && w.room.tables == JOINED_TABLES && w.room.wire == map[]
  {
    hide WellFormed;
  }

  lemma LoadsJoined(c: Config, w: World)
    requires Sound(w) && !w.live && w.pending == {0} && w.clock == 0 && w.wall == 0
    requires w.room.tables == JOINED_TABLES && w.room.wire == map[]
    ensures var v := Step(c, w, LOADING); FreshLobby(v) && v.pending == {0} && v.room.wire == map[]
  {
    hide WellFormed, Standings, SaveStandings;
  }

  ghost function AfterJoining(c: Config): (w: World)
    ensures Sound(w)
  {
    Step(c, CREATED, JOINING)
  }

  lemma HasLoaded(c: Config)
    ensures var w := Step(c, AfterJoining(c), LOADING);
      FreshLobby(w) && w.pending == {0} && w.room.wire == map[]
  {
    hide Step, FreshLobby;
    HasJoined(c);
    LoadsJoined(c, AfterJoining(c));
  }

  lemma Delivered(c: Config, w: World)
    requires FreshLobby(w) && w.pending == {0} && w.room.wire == map[]
    ensures var v := Step(c, w, DELIVERING); FreshLobby(v) && v.pending == {} && v.room.wire == map[]
  {
    hide WellFormed;
  }

  /** Without an open question nothing is settled: the player only gets a connection. */
  lemma Attached(c: Config, w: World)
    requires FreshLobby(w) && w.pending == {} && w.room.wire == map[]
    ensures FreshLobby(Step(c, w, ATTACHING)) && Step(c, w, ATTACHING).pending == {}
  {
    hide WellFormed, Step, RoomAfter, SettleUnattached, Welcome;
    RoomStep(c, w, ATTACHING);
    SeatsActSeparately(c, w, ATTACHING, 0);
    SessionAndWire(c, w, ATTACHING);
  }

  lemma Started(c: Config, w: World)
    requires FreshLobby(w) && w.pending == {}
    ensures var v := Step(c, w, STARTING);
      && v.live && v.room.status.Running? && v.room.tables.status.Running? && v.pending == {}
      && v.room.players == w.room.players
      && AccountOf(v.room.tables, 0).Some? && v.room.tables.rows.Keys <= {0} && v.clock == 0 && v.wall == 0
  {
    hide WellFormed, StartSession;
  }

  lemma LobbyRun(c: Config) returns (inputs: seq<Input>)
    ensures var w := Run(c, CREATED, inputs);
      FreshLobby(w) && w.pending == {0} && w.room.wire == map[]
  {
    hide Step, FreshLobby;
    RunStep(c, CREATED, [], JOINING);
    assert [] + [JOINING] == [JOINING];
    RunStep(c, CREATED, [JOINING], LOADING);
    HasLoaded(c);
    inputs := [JOINING] + [LOADING];
  }

  lemma ReadyRun(c: Config) returns (inputs: seq<Input>)
    ensures FreshLobby(Run(c, CREATED, inputs)) && Run(c, CREATED, inputs).pending == {}
  {
    hide Step, Run, FreshLobby;
    var lobby := LobbyRun(c);
    RunStep(c, CREATED, lobby, DELIVERING);
    Delivered(c, Run(c, CREATED, lobby));
    RunStep(c, CREATED, lobby + [DELIVERING], ATTACHING);
    Attached(c, Run(c, CREATED, lobby + [DELIVERING]));
    inputs := lobby + [DELIVERING] + [ATTACHING];
  }

  /** Joined, loaded, delivered, connected and started: a running room with one fresh player. */
  lemma Opening(c: Config) returns (inputs: seq<Input>)
    requires Playable(c)
    ensures OnTrack(c, Run(c, CREATED, inputs), 0, 0)
  {
    hide AgreesFor, Playable, Step, Run;
    var ready := ReadyRun(c);
    RunStep(c, CREATED, ready, STARTING);
    Started(c, Run(c, CREATED, ready));
    inputs := ready + [STARTING];
    RunsKeepAgreement(c, inputs, 0);
  }

  /** The cap is attained: some run gives a player exactly every point there is. */
  lemma TheCapIsReached(c: Config) returns (inputs: seq<Input>)
    requires Playable(c)
    ensures var w := Run(c, CREATED, inputs);
      0 in w.room.players && w.room.players[0].progress.score == ScoreCap(c, |c.questions|)
  {
    hide Run, Playable, ScoreCap, AgreesFor;
    var opening := Opening(c);
    inputs := PerfectRuns(c, opening, 0, |c.questions|);
  }
}
