/** What the commands of a player are answered with: questions, results and errors, each exactly once. */
module Deliveries {
  import opened Common
  import opened Questions
  import opened Scoring
  import opened Database
  import opened RoomSpec
  import opened World
  import opened Persistence
  import opened Messages

  // ---------------------------------------------------------------- questions

  /** m shows the player the first unresolved question: its text, the labels in the player's order, the time left. */
  ghost predicate ShowsQuestion(c: Config, p: Player, now: nat, m: Packet) {
    && p.progress.resolved < |c.questions| && p.active.Some? && m.Show?
    && var q, a := c.questions[p.progress.resolved], p.active.value;
    && m.index == p.progress.resolved && m.total == |c.questions|
    && m.site == q.site && m.level == q.level && m.prompt == q.prompt
    && |m.options| == |a.options|
    && (forall j :: 0 <= j < |a.options| ==>
          m.options[j].id == a.options[j].id && m.options[j].caption == a.options[j].caption)
    && multiset(a.options) == multiset(q.options)
    && a.limit == QuestionLimit(q.level, c.jenjang)
    && m.limitMs == Milliseconds(Max(a.servedAt + a.limit - now, 0))
  }

  lemma ShownIsRight(c: Config, p: Player, now: nat, clock: nat)
    requires ActiveFits(c, p, clock) && p.active.Some?
    ensures ShowsQuestion(c, p, now, ShowMessage(c, p, now))
  {
    hide QuestionLimit;
  }

  /** The call opens a question: none was open, or the open one was settled. */
  predicate Serves(r: Room, s: Room, id: PlayerId) {
    && id in r.players && id in s.players && s.players[id].active.Some?
    && (r.players[id].active.None? || s.players[id].progress.resolved > r.players[id].progress.resolved)
  }

  lemma ServedSeat(c: Config, seat: Seat, id: PlayerId, env: Env)
    requires var s := NextSeat(c, true, seat, id, env);
      s.player.active.Some? && (seat.player.active.None? || s.player.progress.resolved > seat.player.progress.resolved)
    ensures var s := NextSeat(c, true, seat, id, env);
      && SettleSeat(c, true, seat, id, env).player.active.None?
      && s.player.active.value.servedAt == env.now
      && (seat.player.active.Some? && env.now >= Deadline(seat.player.active.value) ==>
            SaveOutcome(c, seat, id, TimeoutOutcome(seat.player.active.value), env).1.Saved?)
  {
    hide SaveOutcome, Advance, ShuffledOptions, QuestionLimit;
  }

  /** Only a running room serves, and the room still runs afterwards. */
  lemma ServingRuns(c: Config, w: World, i: Input)
    requires Playable(c) && Sound(w) && Enabled(w, i) && i.event.Next? && AgreesFor(c, w, i.event.player)
    requires Serves(w.room, Step(c, w, i).room, i.event.player)
    ensures var (v, id) := (Step(c, w, i).room, i.event.player);
      && v == RoomAfter(c, w, i)
      && w.room.status.Running? && v.status.Running?
      && SeatOf(v, id) == NextSeat(c, true, SeatOf(w.room, id), id, i.env)
      && ActiveFits(c, v.players[id], i.env.now)
  {
    hide Step, WellFormed, RoomAfter, NextSeat, AgreesFor, Playable, EventEnabled, SeatAgrees, ActiveFits;
    var id := i.event.player;
    RoomStep(c, w, i);
    SeatsActSeparately(c, w, i, id);
    SessionAndWire(c, w, i);
    StepKeepsAgreement(c, w, i, id);
    PresentFits(c, Step(c, w, i), id);
    NothingServedBefore(c, SeatOf(w.room, id), id, i.env);
  }

  lemma PresentFits(c: Config, w: World, id: PlayerId)
    requires AgreesFor(c, w, id) && id in w.room.players
    ensures var p := w.room.players[id];
      ActiveFits(c, p, w.clock) && (p.active.Some? ==> p.progress.resolved < |c.questions|)
  {
    hide Replayed;
  }

  lemma NothingServedBefore(c: Config, seat: Seat, id: PlayerId, env: Env)
    ensures NextSeat(c, false, seat, id, env) == seat
  {
  }

  /** A served question is shown and nothing else is said but, before it, perhaps a ranking. */
  lemma ServedIsShown(c: Config, w: World, i: Input, k: SinkId) returns (rows: seq<RankRow>, m: Packet)
    requires Playable(c) && Sound(w) && Enabled(w, i) && i.event.Next? && AgreesFor(c, w, i.event.player)
    requires Serves(w.room, Step(c, w, i).room, i.event.player) && At(w.room, i.event.player, k)
    ensures var (v, id) := (Step(c, w, i).room, i.event.player);
      && k in w.room.wire && k in v.wire
      && v.wire[k] == w.room.wire[k] + If(|v.history| > |w.room.history|, [Rankings(rows)]) + [m]
      && ShowsQuestion(c, v.players[id], i.env.now, m)
      && v.players[id].active.value.servedAt == i.env.now
  {
    hide Step, WellFormed, RoomAfter, NextSeat, AgreesFor, Playable, EventEnabled, Held, ShowMessage, ActiveFits,
         NextQuestion, Verdict, SaveOutcome, ShowsQuestion;
    var id := i.event.player;
    ServingRuns(c, w, i);
    var v := Step(c, w, i).room;
    ServedSeat(c, SeatOf(w.room, id), id, i.env);
    NextStep(c, w, i);
    ReplacedIsHeld(w.room, id, k);
    SinksAreOpen(w.room);
    var lines, podium := NextHeard(c, w.room, id, i.env, k);
    rows, m := lines, ShowMessage(c, v.players[id], i.env.now);
    ShownIsRight(c, v.players[id], i.env.now, i.env.now);
    ServedWords(c, w.room, v, id, i.env);
    var ranking := If(|v.history| > |w.room.history|, [Rankings(rows)]);
    assert Public(w.room, v, rows, podium) == ranking;
    assert [] + ranking + [m] == ranking + [m];
    assert w.room.wire[k] + (ranking + [m]) == w.room.wire[k] + ranking + [m];
  }

  lemma ServedWords(c: Config, r: Room, s: Room, id: PlayerId, env: Env)
    requires id in r.players && id in s.players && r.status.Running? && s.status.Running?
    requires SettleSeat(c, true, SeatOf(r, id), id, env).player.active.None? && s.players[id].active.Some?
    requires r.players[id].active.Some? && env.now >= Deadline(r.players[id].active.value) ==>
      SaveOutcome(c, SeatOf(r, id), id, TimeoutOutcome(r.players[id].active.value), env).1.Saved?
    ensures NextFirst(c, r, id, env) == []
    ensures NextLast(c, r, s, id, env) == [ShowMessage(c, s.players[id], env.now)]
  {
    hide SaveOutcome, ShowMessage, SettleSeat, CorrectOptionId, Advance;
  }

  // ---------------------------------------------------------------- results

  /** An answer counts if it names an option and comes no later than the limit and the grace after it. */
  predicate InTime(a: Active, option: Option<OptionId>, now: nat) {
    option.Some? && now <= a.servedAt + a.limit + NETWORK_GRACE_MS * NS_PER_MS
  }

  /** m tells what the answer to the first unresolved question was worth, and memory q after p says the same. */
  ghost predicate Grades(c: Config, p: Player, q: Player, option: Option<OptionId>, now: nat, m: Packet) {
    && p.progress.resolved < |c.questions| && p.active.Some? && m.Graded?
    && var options := c.questions[p.progress.resolved].options;
    && HasOption(options, m.correctOption)
    && (forall o :: o in options ==> (o.correct <==> o.id == m.correctOption))
    && (m.correct <==> InTime(p.active.value, option, now) && option == Some(m.correctOption))
    && m.points == q.progress.score - p.progress.score && (!m.correct ==> m.points == 0)
    && m.score == q.progress.score && m.streak == q.progress.streak
    && q.progress.streak == (if m.correct then p.progress.streak + 1 else 0)
    && q.progress.correct == p.progress.correct + (if m.correct then 1 else 0)
    && q.progress.resolved == p.progress.resolved + 1 && q.active.None?
    && (m.finished <==> q.progress.resolved == |c.questions|)
  }

  /** The answer row says when the question was served, and of an answer in time when and how it was given. */
  ghost predicate Stores(p: Player, account: Option<Account>, option: Option<OptionId>, now: nat, m: Packet) {
    && p.active.Some? && account.Some? && m.Graded?
    && var a := p.active.value;
    && a.question.id in account.value.answers
    && account.value.answers[a.question.id]
       == if InTime(a, option, now) then Answer(a.servedAt, Some(now), option, Some(m.correct), m.points)
          else Answer(a.servedAt, None, None, None, 0)
  }

  /** A submission that resolves a question was for that question, with one of its options or none, and was saved. */
  lemma ResolvingSubmission(c: Config, seat: Seat, id: PlayerId, question: QuestionId, option: Option<OptionId>,
                            env: Env)
    requires SubmitSeat(c, true, seat, id, question, option, env).player.progress.resolved
           > seat.player.progress.resolved
    ensures seat.player.active.Some? && seat.player.active.value.question.id == question
    ensures option.Some? ==> HasOption(seat.player.active.value.options, option.value)
    ensures var out := OutcomeOf(c, seat.player.progress, seat.player.active.value, option, env.now);
      var (account, error) := SaveOutcome(c, seat, id, out, env);
      && error.Saved?
      && SubmitSeat(c, true, seat, id, question, option, env)
         == Seat(Player(Advance(seat.player.progress, out), None), account)
  {
    hide SaveOutcome, OutcomeOf, HasOption;
  }

  lemma RightOptionIsMarked(c: Config, k: nat)
    requires Playable(c) && k < |c.questions|
    ensures var options := c.questions[k].options;
      && HasOption(options, CorrectOptionId(options))
      && forall o :: o in options ==> (o.correct <==> o.id == CorrectOptionId(options))
  {
    var options := c.questions[k].options;
    NoneCorrect(options);
    var first :| 0 <= first < |options| && options[first].correct;
    OnlyCorrect(options, first);
    forall o | o in options ensures o.correct <==> o.id == CorrectOptionId(options) {
      var j :| 0 <= j < |options| && options[j] == o;
      OnlyCorrect(options, j);
    }
  }

  /** The verdict that Resolve announces of an answer that was saved. */
  function ResultMessage(c: Config, p: Player, out: Outcome): Packet
    requires p.active.Some?
  {
    var next := Advance(p.progress, out);
    Graded(Right(out), CorrectOptionId(p.active.value.question.options), out.points, next.score, next.streak,
           next.resolved >= |c.questions|)
  }

  lemma ResultIsRight(c: Config, p: Player, option: Option<OptionId>, now: nat, clock: nat)
    requires Playable(c) && ActiveFits(c, p, clock) && p.active.Some?
    ensures var out := OutcomeOf(c, p.progress, p.active.value, option, now);
      Grades(c, p, Player(Advance(p.progress, out), None), option, now, ResultMessage(c, p, out))
  {
    hide QuestionLimit, HasOption, Points;
    var a := p.active.value;
    RightOptionIsMarked(c, p.progress.resolved);
    if option.Some? {
      GradingIgnoresOrder(a.question.options, a.options, option.value);
      WrongEarnsNothing(c, a, now - a.servedAt, p.progress.streak);
    }
    hide Playable;
  }

  lemma WrongEarnsNothing(c: Config, a: Active, elapsed: int, streak: int)
    ensures Points(c, a, false, elapsed, streak) == 0
  {
  }

  lemma StreakIsNatural(c: Config, seat: Seat, clock: nat)
    requires Playable(c) && SeatAgrees(c, seat, clock)
    ensures ActiveFits(c, seat.player, clock)
    ensures seat.account.Some? ==> seat.player.progress.streak >= 0
  {
    hide Playable, Honest, Replay;
    if seat.account.Some? {
      var acc, k := seat.account.value, seat.player.progress.resolved;
      if k < acc.row.index { LastIsHonest(c, acc.answers, acc.row.index); }
      ReplayIsBounded(c, acc.answers, k);
    }
  }

  lemma ResultIsStored(c: Config, seat: Seat, id: PlayerId, option: Option<OptionId>, env: Env, clock: nat)
    requires Playable(c) && SeatAgrees(c, seat, clock) && seat.player.active.Some? && clock <= env.now
    requires option.Some? ==> HasOption(seat.player.active.value.options, option.value)
    requires var out := OutcomeOf(c, seat.player.progress, seat.player.active.value, option, env.now);
      SaveOutcome(c, seat, id, out, env).1.Saved?
    ensures var out := OutcomeOf(c, seat.player.progress, seat.player.active.value, option, env.now);
      Stores(seat.player, SaveOutcome(c, seat, id, out, env).0, option, env.now, ResultMessage(c, seat.player, out))
  {
    hide SeatAgrees, Points, QuestionLimit, CorrectOptionId, HasOption, ProgressRow;
    StreakIsNatural(c, seat, clock);
    var a := seat.player.active.value;
    var out := OutcomeOf(c, seat.player.progress, a, option, env.now);
    OutcomesAreHonest(c, seat.player, option, clock, env.now);
    HonestIsBounded(c, a.question, seat.player.progress.streak, AnswerOf(a, out));
  }

  /** An answer that is taken is followed by exactly one q.result, and then by what is public. */
  lemma AnswerIsGraded(c: Config, w: World, i: Input, k: SinkId)
    returns (rows: seq<RankRow>, podium: seq<RankRow>, m: Packet)
    requires Playable(c) && Sound(w) && Enabled(w, i) && i.event.Submit? && AgreesFor(c, w, i.event.player)
    requires i.event.player in w.room.players && i.event.player in Step(c, w, i).room.players
    requires Step(c, w, i).room.players[i.event.player].progress.resolved
           > w.room.players[i.event.player].progress.resolved
    requires At(w.room, i.event.player, k)
    ensures var (v, id) := (Step(c, w, i).room, i.event.player);
      && k in w.room.wire && k in v.wire
      && v.wire[k] == w.room.wire[k] + ([m] + Public(w.room, v, rows, podium))
      && c.questions != [] && Grades(c, w.room.players[id], v.players[id], i.event.option, i.env.now, m)
      && i.event.question == c.questions[w.room.players[id].progress.resolved].id
      && Stores(w.room.players[id], AccountOf(v.tables, id), i.event.option, i.env.now, m)
  {
    hide Step, WellFormed, RoomAfter, SubmitSeat, AgreesFor, Playable, EventEnabled, SeatAgrees, ActiveFits, Held,
         SubmitAnswer, SaveOutcome, OutcomeOf, Grades, Stores, Public, AccountOf, HasOption, Advance, Replayed;
    var id, option := i.event.player, i.event.option;
    var p := w.room.players[id];
    RoomStep(c, w, i);
    SubmitStep(c, w, i);
    SeatsActSeparately(c, w, i, id);
    AnsweringRuns(c, SeatOf(w.room, id), id, i, w.room.status.Running?);
    ResolvingSubmission(c, SeatOf(w.room, id), id, i.event.question, option, i.env);
    PlayerAgrees(c, w, id);
    ResultIsRight(c, p, option, i.env.now, w.clock);
    ResultIsStored(c, SeatOf(w.room, id), id, option, i.env, w.clock);
    QuestionFits(c, p, w.clock);
    rows, podium := SubmitHeard(c, w.room, id, i.event.question, option, i.env, k);
    m := ResultMessage(c, p, OutcomeOf(c, p.progress, p.active.value, option, i.env.now));
    ReplacedIsHeld(w.room, id, k);
    SinksAreOpen(w.room);
    GradedWords(c, w.room, id, i.event.question, option, i.env);
  }

  lemma AnsweringRuns(c: Config, seat: Seat, id: PlayerId, i: Input, running: bool)
    requires i.event.Submit? && i.event.player == id
    ensures PlaySeat(c, running, seat, id, i)
         == if running then SubmitSeat(c, true, seat, id, i.event.question, i.event.option, i.env) else seat
  {
    hide ResolveSeat, OutcomeOf, HasOption;
  }

  lemma PlayerAgrees(c: Config, w: World, id: PlayerId)
    requires AgreesFor(c, w, id) && id in w.room.players
    ensures SeatAgrees(c, SeatOf(w.room, id), w.clock) && ActiveFits(c, w.room.players[id], w.clock)
  {
    hide Replayed;
  }

  lemma QuestionFits(c: Config, p: Player, clock: nat)
    requires ActiveFits(c, p, clock) && p.active.Some?
    ensures p.progress.resolved < |c.questions| && p.active.value.question == c.questions[p.progress.resolved]
  {
    hide QuestionLimit;
  }

  lemma GradedWords(c: Config, r: Room, id: PlayerId, question: QuestionId, option: Option<OptionId>, env: Env)
    requires id in r.players && r.status.Running? && r.players[id].active.Some?
    requires r.players[id].active.value.question.id == question
    requires option.Some? ==> HasOption(r.players[id].active.value.options, option.value)
    requires var p := r.players[id];
      SaveOutcome(c, SeatOf(r, id), id, OutcomeOf(c, p.progress, p.active.value, option, env.now), env).1.Saved?
    ensures var p := r.players[id];
      SubmitWords(c, r, id, question, option, env)
      == [ResultMessage(c, p, OutcomeOf(c, p.progress, p.active.value, option, env.now))]
  {
    hide SaveOutcome, OutcomeOf, HasOption, CorrectOptionId, Advance, AccountOf;
  }

  // ---------------------------------------------------------------- refusals

  /** Why a result was not taken: its answer is stored already, or the database did not say that it is. */
  predicate StoredAlready(account: Option<Account>, question: QuestionId, env: Env) {
    !env.save.Refused? && account.Some? && question in account.value.answers
  }

  lemma UnsavedCode(c: Config, seat: Seat, id: PlayerId, out: Outcome, env: Env)
    requires seat.player.active.Some?
    ensures SaveOutcome(c, seat, id, out, env).1.DuplicateAnswer?
        <==> StoredAlready(seat.account, seat.player.active.value.question.id, env)
  {
    hide Advance, ProgressRow, Allowed, AnswerRow;
  }

  lemma UnsavedIsQuiet(c: Config, r: Room, id: PlayerId, out: Outcome, announce: bool, env: Env)
    requires WellFormed(r) && id in r.players && r.players[id].active.Some?
    requires !SaveOutcome(c, SeatOf(r, id), id, out, env).1.Saved?
    ensures var s := Resolve(c, r, id, out, announce, env).0; s.status == r.status && s.history == r.history
  {
    hide WellFormed, Advanced, Persist, AllFinished, AccountOf, SameForOthers, Advance, OnlyPlayer, SaveToAccount,
         ResultOf;
    ResultNames(id, r.players[id].active.value, out, Advance(r.players[id].progress, out),
                Advance(r.players[id].progress, out).resolved >= |c.questions|);
  }

  /** Why q.answer is refused, in the order in which the reasons are looked at. */
  ghost predicate RefusesAnswer(c: Config, r: Room, id: PlayerId, question: QuestionId, option: Option<OptionId>,
                                env: Env, code: Code)
    requires id in r.players && r.players[id].progress.resolved <= |c.questions|
  {
    var p := r.players[id];
    var open := p.active.Some? && p.progress.resolved < |c.questions|
                && question == c.questions[p.progress.resolved].id;
    if !r.status.Running? then code == NotStarted
    else if !open then
      if exists j :: 0 <= j < p.progress.resolved && c.questions[j].id == question then code == AlreadyAnswered
      else code == NotServed
    else if option.Some? && !HasOption(c.questions[p.progress.resolved].options, option.value) then code == BadOption
    else code == if StoredAlready(AccountOf(r.tables, id), question, env) then AlreadyAnswered else Internal
  }

  lemma RefusalCode(c: Config, r: Room, id: PlayerId, question: QuestionId, option: Option<OptionId>, env: Env,
                    clock: nat)
    requires Playable(c) && id in r.players && ActiveFits(c, r.players[id], clock)
    requires SubmitSeat(c, r.status.Running?, SeatOf(r, id), id, question, option, env).player.progress.resolved
          == r.players[id].progress.resolved
    ensures var words := SubmitWords(c, r, id, question, option, env);
      && |words| == 1 && words[0].Error? && words[0].command == QAnswer
      && RefusesAnswer(c, r, id, question, option, env, words[0].code)
  {
    hide SaveOutcome, OutcomeOf, HasOption, CorrectOptionId, AccountOf, QuestionLimit, StoredAlready;
    var p := r.players[id];
    if p.active.Some? {
      var a := p.active.value;
      UnsavedCode(c, SeatOf(r, id), id, OutcomeOf(c, p.progress, a, option, env.now), env);
      AdvanceCounts(p.progress, OutcomeOf(c, p.progress, a, option, env.now));
      if option.Some? { GradingIgnoresOrder(a.question.options, a.options, option.value); }
    }
    hide Playable, Advance;
  }

  lemma RefusedAnswerIsQuiet(c: Config, w: World, i: Input)
    requires Sound(w) && Enabled(w, i) && i.event.Submit? && i.event.player in w.room.players
    requires var (r, id) := (w.room, i.event.player);
      var s := SubmitSeat(c, r.status.Running?, SeatOf(r, id), id, i.event.question, i.event.option, i.env);
      s.player.progress.resolved == r.players[id].progress.resolved
    ensures RoomAfter(c, w, i).status == w.room.status && RoomAfter(c, w, i).history == w.room.history
  {
    hide WellFormed, RoomAfter, Resolve, OutcomeOf, HasOption, WasResolved, SaveOutcome, AccountOf, OnlyPlayer,
         AllFinished;
    var (r, id, question, option) := (w.room, i.event.player, i.event.question, i.event.option);
    SubmitStep(c, w, i);
    if r.status.Running? && r.players[id].active.Some? && r.players[id].active.value.question.id == question
       && (option.Some? ==> HasOption(r.players[id].active.value.options, option.value))
    {
      var p := r.players[id];
      var out := OutcomeOf(c, p.progress, p.active.value, option, i.env.now);
      AdvanceCounts(p.progress, out);
      UnsavedIsQuiet(c, r, id, out, true, i.env);
    }
  }

  /** A q.answer that resolves nothing is answered by exactly one error, with the code that fits, and changes nobody. */
  lemma RefusedAnswerIsTold(c: Config, w: World, i: Input, k: SinkId) returns (code: Code)
    requires Playable(c) && Sound(w) && Enabled(w, i) && i.event.Submit? && AgreesFor(c, w, i.event.player)
    requires i.event.player in w.room.players && At(w.room, i.event.player, k)
    requires i.event.player in Step(c, w, i).room.players
    requires Step(c, w, i).room.players[i.event.player].progress.resolved
          == w.room.players[i.event.player].progress.resolved
    ensures var (r, v, id) := (w.room, Step(c, w, i).room, i.event.player);
      && k in r.wire && k in v.wire && v.wire[k] == r.wire[k] + [Error(code, QAnswer)]
      && r.players[id].progress.resolved <= |c.questions|
      && RefusesAnswer(c, r, id, i.event.question, i.event.option, i.env, code)
      && v.status == r.status && v.players == r.players
  {
    hide Step, WellFormed, RoomAfter, SubmitSeat, AgreesFor, Playable, EventEnabled, SeatAgrees, ActiveFits, Held,
         SubmitAnswer, SaveOutcome, OutcomeOf, Public, AccountOf, HasOption, Advance, Replayed, RefusesAnswer,
         SubmitWords;
    var (r, id, question, option) := (w.room, i.event.player, i.event.question, i.event.option);
    RoomStep(c, w, i);
    SubmitStep(c, w, i);
    SeatsActSeparately(c, w, i, id);
    PlayerAgrees(c, w, id);
    FewResolved(c, r.players[id], w.clock);
    SubmittingSeat(c, r.status.Running?, SeatOf(r, id), id, i);
    RefusedAnswerIsQuiet(c, w, i);
    RefusalCode(c, r, id, question, option, i.env, w.clock);
    var words := SubmitWords(c, r, id, question, option, i.env);
    code := words[0].code;
    var rows, podium := SubmitHeard(c, r, id, question, option, i.env, k);
    NothingPublic(r, Step(c, w, i).room, rows, podium);
    ReplacedIsHeld(r, id, k);
    SinksAreOpen(r);
    assert words == [Error(code, QAnswer)] && words + [] == words;
    UntouchedPlayers(c, w, i);
  }

  lemma SubmittingSeat(c: Config, running: bool, seat: Seat, id: PlayerId, i: Input)
    requires i.event.Submit? && i.event.player == id
    ensures PlaySeat(c, running, seat, id, i)
         == SubmitSeat(c, running, seat, id, i.event.question, i.event.option, i.env)
  {
    hide SubmitSeat;
  }

  lemma FewResolved(c: Config, p: Player, clock: nat)
    requires ActiveFits(c, p, clock)
    ensures p.progress.resolved <= |c.questions|
  {
    hide QuestionLimit;
  }

  /** Who resolves nothing keeps everything, and so do the others. */
  lemma UntouchedPlayers(c: Config, w: World, i: Input)
    requires Sound(w) && Enabled(w, i) && i.event.Submit? && i.event.player in w.room.players
    requires i.event.player in RoomAfter(c, w, i).players
    requires RoomAfter(c, w, i).players[i.event.player].progress.resolved
          == w.room.players[i.event.player].progress.resolved
    ensures RoomAfter(c, w, i).players == w.room.players
  {
    hide WellFormed, RoomAfter, SubmitSeat, AccountOf, EventEnabled, SameForOthers, SubmitAnswer;
    var (r, id) := (w.room, i.event.player);
    SubmitStep(c, w, i);
    UnresolvedSeat(c, r.status.Running?, SeatOf(r, id), id, i.event.question, i.event.option, i.env);
  }

  lemma UnresolvedSeat(c: Config, running: bool, seat: Seat, id: PlayerId, question: QuestionId,
                       option: Option<OptionId>, env: Env)
    ensures var s := SubmitSeat(c, running, seat, id, question, option, env);
      s.player.progress.resolved == seat.player.progress.resolved ==> s.player == seat.player
  {
    hide SaveOutcome, OutcomeOf, HasOption;
  }

  /**
   * What a q.next that neither serves nor settles is told: one error; but two if the open question has run out and its
   * timeout cannot be saved, the first of them for the save.
   */
  ghost predicate RefusesNext(c: Config, r: Room, id: PlayerId, env: Env, words: seq<Packet>)
    requires id in r.players
  {
    var p := r.players[id];
    if !r.status.Running? then words == [Error(NotStarted, QNext)]
    else if p.active.None? then words == [Error(Finished, QNext)] && p.progress.resolved == |c.questions|
    else if env.now < p.active.value.servedAt + p.active.value.limit + NETWORK_GRACE_MS * NS_PER_MS then
      words == [Error(InProgress, QNext)]
    else
      words == [Error(if StoredAlready(AccountOf(r.tables, id), p.active.value.question.id, env) then AlreadyAnswered
                      else Internal, QAnswer), Error(InProgress, QNext)]
  }

  lemma UnservedSeat(c: Config, seat: Seat, id: PlayerId, env: Env)
    requires var s := NextSeat(c, true, seat, id, env);
      s.player.progress.resolved == seat.player.progress.resolved
      && !(s.player.active.Some? && seat.player.active.None?)
    ensures NextSeat(c, true, seat, id, env).player == seat.player
    ensures seat.player.active.Some? ==>
      && SettleSeat(c, true, seat, id, env).player.active.Some?
      && (env.now >= Deadline(seat.player.active.value) ==>
            !SaveOutcome(c, seat, id, TimeoutOutcome(seat.player.active.value), env).1.Saved?)
    ensures seat.player.active.None? ==>
      SettleSeat(c, true, seat, id, env) == seat && seat.player.progress.resolved >= |c.questions|
  {
    hide SaveOutcome, ShuffledOptions, QuestionLimit;
    if seat.player.active.Some? { AdvanceCounts(seat.player.progress, TimeoutOutcome(seat.player.active.value)); }
  }

  lemma UnservedRoom(c: Config, r: Room, s: Room, id: PlayerId, env: Env)
    requires id in r.players && id in s.players
    requires SeatOf(s, id) == NextSeat(c, r.status.Running?, SeatOf(r, id), id, env)
    requires s.players[id].progress.resolved == r.players[id].progress.resolved && !Serves(r, s, id)
    ensures s.players[id] == r.players[id]
    ensures r.status.Running? && r.players[id].active.Some? ==> Blocked(c, r, id, env)
    ensures r.players[id].active.None? ==> !r.status.Running? || r.players[id].progress.resolved >= |c.questions|
  {
    hide NextSeat, SettleSeat, AccountOf;
    if r.status.Running? { UnservedSeat(c, SeatOf(r, id), id, env); }
    else { NothingServedBefore(c, SeatOf(r, id), id, env); }
  }

  lemma RefusedNextWords(c: Config, r: Room, s: Room, id: PlayerId, env: Env, clock: nat)
    requires id in r.players && id in s.players && ActiveFits(c, r.players[id], clock) && !Over(r, s)
    requires SeatOf(s, id) == NextSeat(c, r.status.Running?, SeatOf(r, id), id, env)
    requires s.players[id].progress.resolved == r.players[id].progress.resolved && !Serves(r, s, id)
    ensures RefusesNext(c, r, id, env, NextFirst(c, r, id, env) + NextLast(c, r, s, id, env))
  {
    hide SaveOutcome, NextSeat, SettleSeat, StoredAlready, CorrectOptionId, AccountOf, QuestionLimit;
    UnservedRoom(c, r, s, id, env);
    if r.status.Running? {
      UnservedSeat(c, SeatOf(r, id), id, env);
      if r.players[id].active.Some? {
        UnsavedCode(c, SeatOf(r, id), id, TimeoutOutcome(r.players[id].active.value), env);
      }
    }
  }

  /** A refused call that is not blocked by an open question was for a finished player, or before the start. */
  lemma RefusedNextIsQuiet(c: Config, w: World, i: Input)
    requires Sound(w) && Enabled(w, i) && i.event.Next? && i.event.player in w.room.players
    requires var (r, id) := (w.room, i.event.player);
      r.status.Running? && r.players[id].active.Some? ==> Blocked(c, r, id, i.env)
    requires w.room.players[i.event.player].active.None? ==>
      !w.room.status.Running? || w.room.players[i.event.player].progress.resolved >= |c.questions|
    ensures RoomAfter(c, w, i).status == w.room.status && RoomAfter(c, w, i).history == w.room.history
  {
    hide WellFormed, RoomAfter, Blocked, SettleSeat, AccountOf, OnlyPlayer, AllFinished, SendTo, Serve, Resolve;
    NextStep(c, w, i);
    if w.room.status.Running? && w.room.players[i.event.player].active.Some? {
      hide SettleExpired, Proceed;
      BlockedIsQuiet(c, w.room, i.event.player, i.env);
    }
  }

  lemma AskersAlone(c: Config, w: World, i: Input)
    requires Sound(w) && Enabled(w, i) && i.event.Next? && i.event.player in w.room.players
    ensures var (r, s, id) := (w.room, RoomAfter(c, w, i), i.event.player);
      && id in s.players && SeatOf(s, id) == NextSeat(c, r.status.Running?, SeatOf(r, id), id, i.env)
      && (s.players[id] == r.players[id] ==> s.players == r.players)
  {
    hide WellFormed, RoomAfter, NextSeat, AccountOf, SameForOthers, NextQuestion;
    NextStep(c, w, i);
  }

  lemma ToldBoth(r: Room, s: Room, id: PlayerId, k: SinkId, first: seq<Packet>, last: seq<Packet>)
    requires WellFormed(r) && At(r, id, k)
    requires Hears(r, s, k, If(At(r, id, k), first) + If(k in Held(r), []) + If(At(r, id, k), last))
    ensures k in r.wire && k in s.wire && s.wire[k] == r.wire[k] + (first + last)
  {
    SinksAreOpen(r);
    assert first + [] + last == first + last;
  }

  /** A q.next that resolves and serves nothing is told why, nothing else is said, and nobody changes. */
  lemma RefusedNextIsTold(c: Config, w: World, i: Input, k: SinkId) returns (words: seq<Packet>)
    requires Playable(c) && Sound(w) && Enabled(w, i) && i.event.Next? && AgreesFor(c, w, i.event.player)
    requires i.event.player in w.room.players && At(w.room, i.event.player, k)
    requires i.event.player in Step(c, w, i).room.players && !Serves(w.room, Step(c, w, i).room, i.event.player)
    requires Step(c, w, i).room.players[i.event.player].progress.resolved
          == w.room.players[i.event.player].progress.resolved
    ensures var (r, v, id) := (w.room, Step(c, w, i).room, i.event.player);
      && k in r.wire && k in v.wire && v.wire[k] == r.wire[k] + words && RefusesNext(c, r, id, i.env, words)
      && v.status == r.status && v.players == r.players
  {
    hide Step, WellFormed, RoomAfter, NextSeat, AgreesFor, Playable, EventEnabled, SeatAgrees, ActiveFits, Held,
         NextQuestion, Public, AccountOf, RefusesNext, NextFirst, NextLast, Serves, Blocked, Hears;
    var (r, id) := (w.room, i.event.player);
    RoomStep(c, w, i);
    NextStep(c, w, i);
    var s := RoomAfter(c, w, i);
    AskersAlone(c, w, i);
    PlayerAgrees(c, w, id);
    UnservedRoom(c, r, s, id, i.env);
    RefusedNextIsQuiet(c, w, i);
    RefusedNextWords(c, r, s, id, i.env, w.clock);
    var first, last := NextFirst(c, r, id, i.env), NextLast(c, r, s, id, i.env);
    words := first + last;
    var rows, podium := NextHeard(c, r, id, i.env, k);
    NothingPublic(r, s, rows, podium);
    ToldBoth(r, s, id, k, first, last);
  }

  lemma SettledToTheEnd(c: Config, r: Room, s: Room, id: PlayerId, env: Env, clock: nat)
    requires id in r.players && id in s.players && ActiveFits(c, r.players[id], clock)
    requires SeatOf(s, id) == NextSeat(c, r.status.Running?, SeatOf(r, id), id, env)
    requires s.players[id].progress.resolved > r.players[id].progress.resolved && s.players[id].active.None?
    ensures s.players[id].progress.resolved == |c.questions|
    ensures NextFirst(c, r, id, env) == [] && r.status.Running?
    ensures NextLast(c, r, s, id, env) == If(!Over(r, s), [Error(Finished, QNext)])
  {
    hide SaveOutcome, ShuffledOptions, QuestionLimit, CorrectOptionId, AccountOf;
    if r.players[id].active.Some? {
      AdvanceCounts(r.players[id].progress, TimeoutOutcome(r.players[id].active.value));
    }
  }

  /** q.next times the last question out: none follows, and the player is told unless the session is over by it. */
  lemma LastTimeoutIsTold(c: Config, w: World, i: Input, k: SinkId)
    returns (rows: seq<RankRow>, podium: seq<RankRow>)
    requires Playable(c) && Sound(w) && Enabled(w, i) && i.event.Next? && AgreesFor(c, w, i.event.player)
    requires i.event.player in w.room.players && At(w.room, i.event.player, k)
    requires i.event.player in Step(c, w, i).room.players
    requires var (p, q) := (w.room.players[i.event.player], Step(c, w, i).room.players[i.event.player]);
      q.progress.resolved > p.progress.resolved && q.active.None?
    ensures var (r, v, id) := (w.room, Step(c, w, i).room, i.event.player);
      && v.players[id].progress.resolved == |c.questions|
      && k in r.wire && k in v.wire
      && v.wire[k] == r.wire[k] + (Public(r, v, rows, podium) + If(!Over(r, v), [Error(Finished, QNext)]))
  {
    hide Step, WellFormed, RoomAfter, NextSeat, AgreesFor, Playable, EventEnabled, SeatAgrees, ActiveFits, Held,
         NextQuestion, Public, AccountOf, NextFirst, NextLast, Hears, Over;
    var (r, id) := (w.room, i.event.player);
    RoomStep(c, w, i);
    NextStep(c, w, i);
    var s := RoomAfter(c, w, i);
    AskersAlone(c, w, i);
    PlayerAgrees(c, w, id);
    SettledToTheEnd(c, r, s, id, i.env, w.clock);
    rows, podium := NextHeard(c, r, id, i.env, k);
    ReplacedIsHeld(r, id, k);
    PublicThen(r, s, id, k, Public(r, s, rows, podium), NextLast(c, r, s, id, i.env));
  }

  lemma PublicThen(r: Room, s: Room, id: PlayerId, k: SinkId, public: seq<Packet>, last: seq<Packet>)
    requires WellFormed(r) && At(r, id, k) && k in Held(r)
    requires Hears(r, s, k, If(At(r, id, k), []) + If(k in Held(r), public) + If(At(r, id, k), last))
    ensures k in r.wire && k in s.wire && s.wire[k] == r.wire[k] + (public + last)
  {
    SinksAreOpen(r);
    assert [] + public + last == public + last;
  }

  // ---------------------------------------------------------------- connecting

  /** A connection of a player is greeted with the state of the room, and with the question that is open. */
  lemma AttachIsGreeted(c: Config, w: World, i: Input) returns (podium: seq<RankRow>, show: Packet)
    requires Playable(c) && Sound(w) && Enabled(w, i) && i.event.AttachPlayerEvent? && !w.room.status.Ended?
    requires i.event.player in w.room.players && AgreesFor(c, w, i.event.player)
    ensures var (v, id, sink) := (Step(c, w, i).room, i.event.player, i.event.sink);
      && id in v.players && sink in v.wire
      && var p := v.players[id];
      && (v.status.Ended? ==> v.wire[sink] == [RoomEnded(podium), Closed] && !Connected(v, sink))
      && (!v.status.Ended? ==>
            && Connected(v, sink)
            && v.wire[sink] == [RoomState(v.status, p.progress.resolved, p.progress.score, p.progress.streak, v.order)]
                               + If(v.status.Running? && p.active.Some?, [show]))
      && (v.status.Running? && p.active.Some? ==> ShowsQuestion(c, p, i.env.now, show))
  {
    hide Step, WellFormed, RoomAfter, AgreesFor, Playable, SeatAgrees, ActiveFits, Held, AttachPlayer, Public,
         ShowMessage, ShowsQuestion, Connected, Hears;
    var (r, id, sink) := (w.room, i.event.player, i.event.sink);
    RoomStep(c, w, i);
    AttachStep(c, w, i);
    StepKeepsAgreement(c, w, i, id);
    var v := Step(c, w, i);
    var rows, ranked, last := AttachHeard(c, r, id, sink, i.env, sink);
    podium := last;
    PlayerAgrees(c, v, id);
    ConnectedIsHeld(v.room, sink);
    show := Joined(id);
    if v.room.players[id].active.Some? {
      show := ShowMessage(c, v.room.players[id], i.env.now);
      ShownIsRight(c, v.room.players[id], i.env.now, v.clock);
    }
  }

  /** A player who arrives in a live room is last in its roster, and the host is told. */
  lemma NewcomerIsAnnounced(c: Config, w: World, i: Input, k: SinkId)
    requires Sound(w) && Enabled(w, i) && i.event.AddJoined? && w.room.host == Some(k)
    ensures var (r, v, p) := (w.room, Step(c, w, i).room, i.event.player);
      && k in r.wire && k in v.wire && v.wire[k] == r.wire[k] + [Joined(p)]
      && p in v.players && (p !in r.players ==> v.order == r.order + [p] && v.players[p] == Player(NO_PROGRESS, None))
      && (p in r.players ==> v.order == r.order && v.players == r.players)
  {
    hide Step, WellFormed, RoomAfter, Held;
    RoomStep(c, w, i);
    OtherStep(c, w, i);
    NewcomerHeard(w.room, i.event.player, k);
    HostHasLog(w.room, k);
  }

  lemma HostHasLog(r: Room, k: SinkId)
    requires WellFormed(r) && r.host == Some(k)
    ensures k in r.wire
  {
    assert k in Held(r);
  }

  /** A host connection is greeted if it comes from the host of the room, and otherwise nothing happens. */
  lemma HostIsGreeted(c: Config, w: World, i: Input)
    requires Sound(w) && Enabled(w, i) && i.event.AttachHostEvent?
    ensures var (r, v, sink) := (w.room, Step(c, w, i).room, i.event.sink);
      if i.event.hostId == c.hostId
      then v.host == Some(sink) && sink in v.wire && v.wire[sink] == [RoomState(r.status, 0, 0, 0, r.order)]
      else v == r
  {
    hide Step, WellFormed, RoomAfter, Held;
    RoomStep(c, w, i);
    OtherStep(c, w, i);
    HostHeard(w.room, i.event.sink, i.event.hostId == c.hostId, i.event.sink);
    hide AttachHost;
    NewHost(w.room, i.event.sink);
  }

  lemma NewHost(r: Room, sink: SinkId)
    requires WellFormed(r) && sink !in r.wire
    ensures AttachHost(r, sink, true).host == Some(sink)
  {
  }

  /** A connection that goes away by itself takes nobody along and is told nothing. */
  lemma DetachLeavesTheRest(c: Config, w: World, i: Input, k: SinkId)
    requires Sound(w) && Enabled(w, i) && i.event.DetachEvent?
    ensures var (r, v) := (w.room, Step(c, w, i).room);
      && v.wire == r.wire && v.players == r.players
      && (Connected(v, k) <==> Connected(r, k) && k != i.event.sink)
  {
    hide Step, WellFormed, RoomAfter, Held, Connected;
    RoomStep(c, w, i);
    OtherStep(c, w, i);
    DetachHeard(w.room, i.event.sink);
    ConnectedIsHeld(w.room, k);
    ConnectedIsHeld(Step(c, w, i).room, k);
  }
}
