/**
 * Memory, tables and reloads agree: over every run each stored row is the replay of the answers stored
 * for the first questions, and memory equals that row or is one unacknowledged answer behind it.
 */
module Persistence {
  import opened Common
  import opened Questions
  import opened Shuffling
  import opened Scoring
  import opened Database
  import opened RoomSpec
  import opened World

  /** Rooms are built from at most fifteen distinct, gradable questions of levels one to three. */
  ghost predicate Playable(c: Config) {
    && |c.questions| <= 15
    && (forall i, j :: 0 <= i < j < |c.questions| ==> c.questions[i].id != c.questions[j].id)
    && (forall i :: 0 <= i < |c.questions| ==> 1 <= c.questions[i].level <= 3 && Gradable(c.questions[i].options))
  }

  // ---------------------------------------------------------------- replaying the stored answers

  function Limit(c: Config, q: Question): nat {
    QuestionLimit(q.level, c.jenjang)
  }

  /** What a stored answer added to total_ms, recomputed from its timestamps. */
  function SpentMs(c: Config, q: Question, a: Answer): int {
    Milliseconds(if a.answeredAt.None? then Limit(c, q) else Min(a.answeredAt.value - a.servedAt, Limit(c, q)))
  }

  function StoredOutcome(c: Config, q: Question, a: Answer): Outcome {
    Outcome(a.option, a.correct, a.answeredAt, a.points, SpentMs(c, q, a))
  }

  ghost predicate AnswersFirst(c: Config, answers: map<QuestionId, Answer>, k: nat) {
    k <= |c.questions| && forall i :: 0 <= i < k ==> c.questions[i].id in answers
  }

  function FirstIds(c: Config, k: nat): set<QuestionId>
    requires k <= |c.questions|
  {
    if k == 0 then {} else FirstIds(c, k - 1) + {c.questions[k - 1].id}
  }

  lemma {:induction false} IdIsNew(c: Config, k: nat, i: nat)
    requires Playable(c) && k <= i < |c.questions|
    ensures c.questions[i].id !in FirstIds(c, k)
  {
    if k > 0 { IdIsNew(c, k - 1, i); }
  }

  /** The progress that the answers to the first k questions amount to. */
  function Replay(c: Config, answers: map<QuestionId, Answer>, k: nat): Progress
    requires AnswersFirst(c, answers, k)
  {
    if k == 0 then NO_PROGRESS
    else
      var q := c.questions[k - 1];
      Advance(Replay(c, answers, k - 1), StoredOutcome(c, q, answers[q.id]))
  }

  /**
   * An answer whose verdict and points are what its own timestamps, option and the streak before it
   * call for, given before the deadline; or a timeout.
   */
  ghost predicate Honest(c: Config, q: Question, streak: int, a: Answer) {
    if a.answeredAt.None? then a.option.None? && a.correct.None? && a.points == 0
    else
      var elapsed := a.answeredAt.value - a.servedAt;
      && 0 <= elapsed <= Limit(c, q) + NETWORK_GRACE_MS * NS_PER_MS
      && a.option.Some? && HasOption(q.options, a.option.value)
      && a.correct == Some(a.option.value == CorrectOptionId(q.options))
      && a.points == Score(ScoreInput(q.level, a.correct.value, Milliseconds(elapsed), Milliseconds(Limit(c, q)),
                                      ReadingGrace(c.jenjang), streak, c.accuracyMode))
  }

  ghost predicate AllHonest(c: Config, answers: map<QuestionId, Answer>, k: nat)
    requires AnswersFirst(c, answers, k)
  {
    forall i :: 0 <= i < k ==> Honest(c, c.questions[i], Replay(c, answers, i).streak, answers[c.questions[i].id])
  }

  /** The row says k; then exactly the first k questions are answered, honestly, and the row is their replay. */
  ghost predicate Replayed(c: Config, acc: Account) {
    var k := acc.row.index;
    && 0 <= k <= |c.questions|
    && AnswersFirst(c, acc.answers, k) && acc.answers.Keys == FirstIds(c, k)
    && AllHonest(c, acc.answers, k)
    && ProgressOf(acc.row) == Replay(c, acc.answers, k)
    && (acc.row.finishedAt.Some? <==> 0 < k == |c.questions|)
  }

  // ---------------------------------------------------------------- one seat

  /** The question in front of a player is the first unresolved one, unaltered but for option order. */
  ghost predicate ActiveFits(c: Config, p: Player, clock: nat) {
    && p.progress.resolved <= |c.questions|
    && (p.active.Some? ==>
        var a := p.active.value;
        && p.progress.resolved < |c.questions|
        && a.question == c.questions[p.progress.resolved]
        && multiset(a.options) == multiset(a.question.options)
        && a.limit == Limit(c, a.question)
        && a.servedAt <= clock)
  }

  ghost predicate InStep(p: Player, acc: Account)
    requires acc.row.index >= 0
  {
    p.progress == ProgressOf(acc.row)
  }

  /** A save was applied but its acknowledgement got lost: the question is stored and still active. */
  ghost predicate OneBehind(c: Config, p: Player, acc: Account)
    requires Replayed(c, acc)
  {
    && p.active.Some? && p.progress.resolved + 1 == acc.row.index
    && p.progress == Replay(c, acc.answers, p.progress.resolved)
  }

  ghost predicate SeatAgrees(c: Config, seat: Seat, clock: nat) {
    && ActiveFits(c, seat.player, clock)
    && (seat.account.Some? ==>
        && Replayed(c, seat.account.value)
        && (InStep(seat.player, seat.account.value) || OneBehind(c, seat.player, seat.account.value)))
  }

  // ---------------------------------------------------------------- bounds that keep the columns from clamping

  lemma {:induction false} ReplayIsBounded(c: Config, answers: map<QuestionId, Answer>, k: nat)
    requires Playable(c) && AnswersFirst(c, answers, k) && AllHonest(c, answers, k)
    ensures var p := Replay(c, answers, k);
      && 0 <= p.score <= 1250 * k && 0 <= p.correct <= k && 0 <= p.streak <= k && 0 <= p.totalMs <= 31250 * k
      && p.resolved == k
  {
    hide Honest, SpentMs, AllHonest, BasePoints, StreakBonus, QuestionLimit;
    if k > 0 {
      LastIsHonest(c, answers, k);
      ReplayIsBounded(c, answers, k - 1);
      HonestIsBounded(c, c.questions[k - 1], Replay(c, answers, k - 1).streak, answers[c.questions[k - 1].id]);
    }
  }

  lemma LastIsHonest(c: Config, answers: map<QuestionId, Answer>, k: nat)
    requires 0 < k && AnswersFirst(c, answers, k) && AllHonest(c, answers, k)
    ensures AnswersFirst(c, answers, k - 1) && AllHonest(c, answers, k - 1)
    ensures Honest(c, c.questions[k - 1], Replay(c, answers, k - 1).streak, answers[c.questions[k - 1].id])
  {
    hide Honest, Replay;
  }

  lemma HonestIsBounded(c: Config, q: Question, streak: int, a: Answer)
    requires Honest(c, q, streak, a) && streak >= 0
    ensures 0 <= a.points <= BasePoints(q.level) + StreakBonus(streak) <= 1250
    ensures a.correct != Some(true) ==> a.points == 0
    ensures 0 <= SpentMs(c, q, a) <= Milliseconds(Limit(c, q)) <= 31250
  {
    hide Score, QuestionLimit;
    LimitsAreWholeMilliseconds(q.level, c.jenjang);
    if a.answeredAt.Some? {
      var elapsed := a.answeredAt.value - a.servedAt;
      var in_ := ScoreInput(q.level, a.correct.value, Milliseconds(elapsed), Milliseconds(Limit(c, q)),
                            ReadingGrace(c.jenjang), streak, c.accuracyMode);
      InTimeByNanosecondsIsInTimeByMilliseconds(elapsed, Limit(c, q));
      ScoreOfWrong(in_);
      if in_.correct { ScoreRange(in_); }
    }
  }

  lemma ScoreOfWrong(in_: ScoreInput)
    ensures !in_.correct ==> Score(in_) == 0
  {
  }

  // ---------------------------------------------------------------- resolving keeps the agreement

  /** An outcome that, stored for question q, is an honest answer. */
  ghost predicate HonestOutcome(c: Config, p: Progress, a: Active, out: Outcome) {
    && Honest(c, a.question, p.streak, Answer(a.servedAt, out.answeredAt, out.option, out.correct, out.points))
    && out.spentMs == SpentMs(c, a.question, Answer(a.servedAt, out.answeredAt, out.option, out.correct, out.points))
  }

  lemma OutcomesAreHonest(c: Config, p: Player, option: Option<OptionId>, clock: nat, now: nat)
    requires Playable(c) && ActiveFits(c, p, clock) && p.active.Some? && clock <= now
    requires option.Some? ==> HasOption(p.active.value.options, option.value)
    ensures HonestOutcome(c, p.progress, p.active.value, TimeoutOutcome(p.active.value))
    ensures HonestOutcome(c, p.progress, p.active.value, OutcomeOf(c, p.progress, p.active.value, option, now))
  {
    hide Score, QuestionLimit;
    var a := p.active.value;
    if option.Some? { GradingIgnoresOrder(a.question.options, a.options, option.value); }
  }

  lemma {:induction false} ReplayIgnoresLaterAnswers(c: Config, answers: map<QuestionId, Answer>, k: nat, q: QuestionId,
                                                     a: Answer)
    requires AnswersFirst(c, answers, k) && q !in answers
    ensures AnswersFirst(c, answers[q := a], k) && Replay(c, answers[q := a], k) == Replay(c, answers, k)
  {
    if k > 0 { ReplayIgnoresLaterAnswers(c, answers, k - 1, q, a); }
  }

  lemma HonestStays(c: Config, answers: map<QuestionId, Answer>, k: nat, i: nat, q: QuestionId, a: Answer)
    requires i < k && AnswersFirst(c, answers, k) && AllHonest(c, answers, k) && q !in answers
    ensures AnswersFirst(c, answers[q := a], i)
    ensures Honest(c, c.questions[i], Replay(c, answers[q := a], i).streak, answers[q := a][c.questions[i].id])
  {
    hide Honest, Replay;
    ReplayIgnoresLaterAnswers(c, answers, i, q, a);
  }

  lemma AppendReplay(c: Config, answers: map<QuestionId, Answer>, k: nat, a: Answer)
    requires k < |c.questions| && AnswersFirst(c, answers, k) && AllHonest(c, answers, k)
    requires c.questions[k].id !in answers && Honest(c, c.questions[k], Replay(c, answers, k).streak, a)
    ensures var more := answers[c.questions[k].id := a];
      && AnswersFirst(c, more, k + 1) && AllHonest(c, more, k + 1)
      && Replay(c, more, k + 1) == Advance(Replay(c, answers, k), StoredOutcome(c, c.questions[k], a))
  {
    hide Honest, StoredOutcome, Advance;
    var q := c.questions[k];
    var more := answers[q.id := a];
    ReplayIgnoresLaterAnswers(c, answers, k, q.id, a);
    assert AnswersFirst(c, more, k + 1);
    assert Replay(c, more, k + 1) == Advance(Replay(c, more, k), StoredOutcome(c, q, a));
    forall i | 0 <= i < k + 1
      ensures Honest(c, c.questions[i], Replay(c, more, i).streak, more[c.questions[i].id])
    {
      hide Replay;
      if i < k { HonestStays(c, answers, k, i, q.id, a); }
    }
  }

  // ---------------------------------------------------------------- resolving keeps the agreement

  /** A row within its columns is stored as it is, and the constraints accept it. */
  lemma RowFitsColumns(r: Result, previous: Row, wall: nat)
    requires 0 <= r.score <= 1250 * 15 && 0 <= r.correct <= 15 && 0 <= r.totalMs <= 31250 * 15
    requires 0 <= r.index <= 15 && 0 <= r.streak <= 15 && 0 <= r.answer.points <= 1250
    ensures AnswerRow(r.answer) == r.answer
    ensures var row := ProgressRow(r, previous, wall);
      && Allowed(row, AnswerRow(r.answer))
      && ProgressOf(row) == Progress(r.score, r.correct, r.totalMs, r.streak, r.index)
      && (row.finishedAt.Some? <==> r.finished || previous.finishedAt.Some?)
  {
  }

  /** One more honest answer, and a row that says so, is again a replayed account. */
  lemma RecordExtends(c: Config, acc: Account, a: Answer, row: Row)
    requires Playable(c) && Replayed(c, acc) && acc.row.index < |c.questions|
    requires var q := c.questions[acc.row.index];
      && Honest(c, q, acc.row.streak, a)
      && row.index == acc.row.index + 1
      && ProgressOf(row) == Advance(ProgressOf(acc.row), StoredOutcome(c, q, a))
    requires row.finishedAt.Some? <==> row.index == |c.questions|
    ensures var q := c.questions[acc.row.index].id;
      && q !in acc.answers
      && Replayed(c, Account(row, acc.answers[q := a]))
      && Replay(c, acc.answers[q := a], acc.row.index) == ProgressOf(acc.row)
  {
    hide Honest, StoredOutcome, Advance, Playable, Replay, AllHonest, AnswersFirst;
    var k := acc.row.index;
    IdIsNew(c, k, k);
    AppendReplay(c, acc.answers, k, a);
    ReplayIgnoresLaterAnswers(c, acc.answers, k, c.questions[k].id, a);
  }

  /** The outcome as the answer row that stores it. */
  function AnswerOf(a: Active, out: Outcome): Answer {
    Answer(a.servedAt, out.answeredAt, out.option, out.correct, out.points)
  }

  lemma NextStaysInColumns(c: Config, acc: Account, a: Active, out: Outcome)
    requires Playable(c) && Replayed(c, acc) && acc.row.index < |c.questions|
    requires a.question == c.questions[acc.row.index] && HonestOutcome(c, ProgressOf(acc.row), a, out)
    ensures var next := Advance(ProgressOf(acc.row), out);
      && 0 <= next.score <= 1250 * 15 && 0 <= next.correct <= 15 && 0 <= next.totalMs <= 31250 * 15
      && next.resolved <= 15 && 0 <= next.streak <= 15 && 0 <= out.points <= 1250
  {
    hide Honest, SpentMs;
    ReplayIsBounded(c, acc.answers, acc.row.index);
    HonestIsBounded(c, a.question, acc.row.streak, AnswerOf(a, out));
  }

  /** The save of an honest outcome for the next question extends the replay by exactly that outcome. */
  lemma SaveExtendsReplay(c: Config, seat: Seat, id: PlayerId, out: Outcome, env: Env, clock: nat)
    requires Playable(c) && seat.account.Some? && SeatAgrees(c, seat, clock) && InStep(seat.player, seat.account.value)
    requires seat.player.active.Some? && HonestOutcome(c, seat.player.progress, seat.player.active.value, out)
    requires !env.save.Refused?
    ensures var (account, error) := SaveOutcome(c, seat, id, out, env);
      && account.Some? && Replayed(c, account.value)
      && ProgressOf(account.value.row) == Advance(seat.player.progress, out)
      && Replay(c, account.value.answers, seat.player.progress.resolved) == seat.player.progress
      && error == if env.save.AckLost? then OtherError else Saved
  {
    hide Honest, SpentMs, Replay, AllHonest, AnswersFirst, Advance, ProgressRow, AnswerRow;
    var acc, p, a := seat.account.value, seat.player.progress, seat.player.active.value;
    var next := Advance(p, out);
    AdvanceCounts(p, out);
    var r := ResultOf(id, a, out, next, next.resolved >= |c.questions|);
    NextStaysInColumns(c, acc, a, out);
    RowFitsColumns(r, acc.row, env.wall);
    RecordExtends(c, acc, r.answer, ProgressRow(r, acc.row, env.wall));
  }

  lemma AdvanceCounts(p: Progress, out: Outcome)
    ensures Advance(p, out).resolved == p.resolved + 1
  {
  }

  // ---------------------------------------------------------------- every event keeps a seat in agreement

  lemma ResolveKeepsAgreement(c: Config, seat: Seat, id: PlayerId, out: Outcome, env: Env, clock: nat)
    requires Playable(c) && SeatAgrees(c, seat, clock)
    requires seat.player.active.Some? && HonestOutcome(c, seat.player.progress, seat.player.active.value, out)
    ensures SeatAgrees(c, ResolveSeat(c, seat, id, out, env), clock)
  {
    hide Honest, Replay, AllHonest, Advance, HonestOutcome, FirstIds;
    AdvanceCounts(seat.player.progress, out);
    if seat.account.Some? && !env.save.Refused? && InStep(seat.player, seat.account.value) {
      SaveExtendsReplay(c, seat, id, out, env, clock);
    } else if seat.account.Some? && !env.save.Refused? {
      assert OneBehind(c, seat.player, seat.account.value);
      assert seat.player.active.value.question.id in seat.account.value.answers;
    }
  }

  /** Memory falls behind its row exactly when the acknowledgement of an applied save is lost. */
  lemma OnlyALostAckFallsBehind(c: Config, seat: Seat, id: PlayerId, out: Outcome, env: Env, clock: nat)
    requires Playable(c) && SeatAgrees(c, seat, clock) && seat.account.Some? && InStep(seat.player, seat.account.value)
    requires seat.player.active.Some? && HonestOutcome(c, seat.player.progress, seat.player.active.value, out)
    ensures var s := ResolveSeat(c, seat, id, out, env);
      && s.account.Some? && s.account.value.row.index >= 0
      && (InStep(s.player, s.account.value) <==> !env.save.AckLost?)
      && (s.player == seat.player <==> !env.save.Works?)
  {
    hide Honest, Replay, AllHonest, Advance, HonestOutcome, FirstIds;
    AdvanceCounts(seat.player.progress, out);
    if !env.save.Refused? { SaveExtendsReplay(c, seat, id, out, env, clock); }
  }

  lemma SettleKeepsAgreement(c: Config, running: bool, seat: Seat, id: PlayerId, env: Env, clock: nat)
    requires Playable(c) && SeatAgrees(c, seat, clock) && clock <= env.now
    ensures SeatAgrees(c, SettleSeat(c, running, seat, id, env), clock)
  {
    hide HonestOutcome, Replayed, ResolveSeat;
    if seat.player.active.Some? {
      OutcomesAreHonest(c, seat.player, None, clock, env.now);
      ResolveKeepsAgreement(c, seat, id, TimeoutOutcome(seat.player.active.value), env, clock);
    }
  }

  lemma ServeKeepsAgreement(c: Config, seat: Seat, env: Env, clock: nat)
    requires SeatAgrees(c, seat, clock) && clock <= env.now
    requires seat.player.active.None? && seat.player.progress.resolved < |c.questions|
    ensures SeatAgrees(c, ServeSeat(c, seat, env), env.now)
  {
    hide Replayed, Replay, QuestionLimit;
    var q := c.questions[seat.player.progress.resolved];
    ShuffledIsPermutation(q.options, env.draws);
  }

  lemma TimePassesKeepsAgreement(c: Config, seat: Seat, clock: nat, later: nat)
    requires SeatAgrees(c, seat, clock) && clock <= later
    ensures SeatAgrees(c, seat, later)
  {
  }

  lemma PlayKeepsAgreement(c: Config, running: bool, seat: Seat, id: PlayerId, i: Input, clock: nat)
    requires Playable(c) && SeatAgrees(c, seat, clock) && clock <= i.env.now
    ensures SeatAgrees(c, PlaySeat(c, running, seat, id, i), i.env.now)
  {
    hide SettleSeat, ServeSeat, ResolveSeat, HonestOutcome, Replayed, Playable;
    TimePassesKeepsAgreement(c, seat, clock, i.env.now);
    var settled := SettleSeat(c, running, seat, id, i.env);
    SettleKeepsAgreement(c, running, seat, id, i.env, clock);
    TimePassesKeepsAgreement(c, settled, clock, i.env.now);
    match i.event
    case Next(p) =>
      if settled.player.active.None? && settled.player.progress.resolved < |c.questions| {
        ServeKeepsAgreement(c, settled, i.env, clock);
      }
    case Submit(p, question, option) =>
      if seat.player.active.Some? && (option.Some? ==> HasOption(seat.player.active.value.options, option.value)) {
        var out := OutcomeOf(c, seat.player.progress, seat.player.active.value, option, i.env.now);
        OutcomesAreHonest(c, seat.player, option, clock, i.env.now);
        ResolveKeepsAgreement(c, seat, id, out, i.env, clock);
        TimePassesKeepsAgreement(c, ResolveSeat(c, seat, id, out, i.env), clock, i.env.now);
      }
    case _ =>
  }

  // ---------------------------------------------------------------- the invariant over runs

  /** The agreement for one player id, up to the last state of the room object. */
  ghost predicate AgreesFor(c: Config, w: World, id: PlayerId) {
    var account := AccountOf(w.room.tables, id);
    && (account.Some? ==> Replayed(c, account.value))
    && (id in w.room.players ==> SeatAgrees(c, SeatOf(w.room, id), w.clock))
    && (w.live && id !in w.room.players && account.Some? ==> account.value == NEW_ACCOUNT)
  }

  lemma NewAccountIsReplayed(c: Config)
    ensures Replayed(c, NEW_ACCOUNT) && ProgressOf(NEW_ROW) == NO_PROGRESS
  {
  }

  lemma StoredSeatAgrees(c: Config, acc: Account, clock: nat)
    requires Replayed(c, acc)
    ensures SeatAgrees(c, Seat(Player(ProgressOf(acc.row), None), Some(acc)), clock)
  {
  }

  lemma RoomStepKeepsAgreement(c: Config, w: World, i: Input, id: PlayerId)
    requires Playable(c) && Sound(w) && AgreesFor(c, w, id) && Enabled(w, i) && IsRoomEvent(i.event)
    ensures AgreesFor(c, Step(c, w, i), id)
  {
    hide Replayed, RoomAfter, PlaySeat, WellFormed, Playable, Step, SeatAgrees, AccountOf, EventEnabled;
    NewAccountIsReplayed(c);
    RoomStep(c, w, i);
    SeatsActSeparately(c, w, i, id);
    if id in w.room.players {
      PlayKeepsAgreement(c, w.room.status.Running?, SeatOf(w.room, id), id, i, w.clock);
      AgreeingIsReplayed(c, PlaySeat(c, w.room.status.Running?, SeatOf(w.room, id), id, i), i.env.now);
    } else if id in RoomAfter(c, w, i).players {
      NewcomerAgrees(c, AccountOf(w.room.tables, id), i.env.now);
    }
  }

  lemma AgreeingIsReplayed(c: Config, seat: Seat, clock: nat)
    requires SeatAgrees(c, seat, clock)
    ensures seat.account.Some? ==> Replayed(c, seat.account.value)
  {
    hide Replayed;
  }

  lemma NewcomerAgrees(c: Config, account: Option<Account>, clock: nat)
    requires account.Some? ==> account.value == NEW_ACCOUNT
    ensures SeatAgrees(c, Seat(Player(NO_PROGRESS, None), account), clock)
  {
    NewAccountIsReplayed(c);
  }

  lemma LoadStepKeepsAgreement(c: Config, w: World, i: Input, id: PlayerId)
    requires Sound(w) && AgreesFor(c, w, id) && Enabled(w, i) && i.event.Load?
    ensures AgreesFor(c, Step(c, w, i), id)
  {
    hide Replayed, Loaded, WellFormed, Step, SeatAgrees, AccountOf;
    LoadStep(c, w, i);
    LoadReloads(c, w.room, i.env, id);
    if id in w.room.players { TimePassesKeepsAgreement(c, SeatOf(w.room, id), w.clock, i.env.now); }
    var account := AccountOf(w.room.tables, id);
    if account.Some? { StoredSeatAgrees(c, account.value, i.env.now); }
  }

  lemma OtherStepKeepsAgreement(c: Config, w: World, i: Input, id: PlayerId)
    requires Sound(w) && AgreesFor(c, w, id) && Enabled(w, i) && !IsRoomEvent(i.event) && !i.event.Load?
    ensures AgreesFor(c, Step(c, w, i), id)
  {
    hide Replayed, WellFormed, SeatAgrees, Step, AccountOf, EventEnabled;
    NewAccountIsReplayed(c);
    OutsideStep(c, w, i);
    OutsideAccounts(c, w, i, id);
    if id in w.room.players { TimePassesKeepsAgreement(c, SeatOf(w.room, id), w.clock, i.env.now); }
  }

  lemma StepKeepsAgreement(c: Config, w: World, i: Input, id: PlayerId)
    requires Playable(c) && Sound(w) && AgreesFor(c, w, id)
    ensures AgreesFor(c, Step(c, w, i), id)
  {
    hide Step, AgreesFor, Playable, Enabled;
    if !Enabled(w, i) { NothingHappens(c, w, i); }
    else if IsRoomEvent(i.event) { RoomStepKeepsAgreement(c, w, i, id); }
    else if i.event.Load? { LoadStepKeepsAgreement(c, w, i, id); }
    else { OtherStepKeepsAgreement(c, w, i, id); }
  }

  /**
   * In every run, with refused saves, lost acknowledgements, kicks, crashes and reloads anywhere: each
   * stored row is the replay of honest answers to exactly the first questions, and the memory of the room object,
   * also of one that ended or crashed, equals it or is one answer behind with that question still active. Nothing is
   * counted twice.
   */
  lemma {:induction false} RunsKeepAgreement(c: Config, inputs: seq<Input>, id: PlayerId)
    requires Playable(c)
    ensures AgreesFor(c, Run(c, CREATED, inputs), id)
  {
    hide AgreesFor, Step, Playable;
    if inputs == [] {
      CreatedAgrees(c, id);
    } else {
      RunsKeepAgreement(c, inputs[..|inputs| - 1], id);
      StepKeepsAgreement(c, Run(c, CREATED, inputs[..|inputs| - 1]), inputs[|inputs| - 1], id);
    }
  }

  lemma CreatedAgrees(c: Config, id: PlayerId)
    ensures AgreesFor(c, CREATED, id)
  {
  }

  // ---------------------------------------------------------------- lost acknowledgements

  /** Until a reload or a kick, a player one answer behind is frozen: every retry meets the stored answer. */
  lemma OneBehindIsFrozen(c: Config, running: bool, seat: Seat, id: PlayerId, i: Input, clock: nat)
    requires Playable(c) && seat.account.Some? && SeatAgrees(c, seat, clock)
    requires OneBehind(c, seat.player, seat.account.value)
    requires i.event != KickEvent(id)
    ensures PlaySeat(c, running, seat, id, i) == seat
  {
    hide Honest, Replay, AllHonest, Advance, OutcomeOf, Playable, FirstIds;
    assert seat.player.active.value.question.id in seat.account.value.answers;
  }

  /** A reload brings every stored player back in step with the tables. */
  lemma ReloadCatchesUp(c: Config, w: World, i: Input, id: PlayerId)
    requires Sound(w) && Enabled(w, i) && i.event.Load? && id in w.room.tables.rows
    requires Step(c, w, i).live
    ensures var v := Step(c, w, i);
      && id in v.room.players && id in v.room.tables.rows
      && v.room.tables.rows[id] == w.room.tables.rows[id]
      && v.room.players[id] == Player(ProgressOf(w.room.tables.rows[id]), None)
  {
    hide WellFormed, Standings, SaveStandings;
  }

  /** ... in the order in which their joins began, with nobody connected. */
  lemma ReloadKeepsJoinOrder(c: Config, w: World, i: Input)
    requires Sound(w) && Enabled(w, i) && i.event.Load? && Step(c, w, i).live
    ensures var s := Step(c, w, i).room;
      && s.order == w.room.tables.joined && s.host.None? && s.sinks == map[] && s.wire == w.room.wire
      && s.lb == IDLE_THROTTLE && s.history == [] && s.endMarks == 0
  {
    hide WellFormed, Standings, SaveStandings;
  }

  /** A room event about one player, from a running room in which that player stays unfinished. */
  lemma RunningRoomStep(c: Config, w: World, id: PlayerId, i: Input)
    requires Playable(c) && Sound(w) && AgreesFor(c, w, id) && Enabled(w, i) && w.room.status.Running?
    requires id in w.room.players
    requires (i.event.Next? || i.event.Submit?) && i.event.player == id && id !in w.pending
    ensures var v := Step(c, w, i);
      && Sound(v) && AgreesFor(c, v, id) && id !in v.pending && id in v.room.players
      && SeatOf(v.room, id) == PlaySeat(c, true, SeatOf(w.room, id), id, i)
      && (v.room.players[id].progress.resolved < |c.questions| ==> v.live && v.room.status.Running?)
      && (v.room.status == w.room.status ==> v.room.tables.status == w.room.tables.status)
      && v.room.tables.rows.Keys <= w.room.tables.rows.Keys
      && v.clock == i.env.now && v.wall == i.env.wall
  {
    hide RoomAfter, AgreesFor, PlaySeat, Playable, WellFormed;
    StepKeepsAgreement(c, w, i, id);
    SeatsActSeparately(c, w, i, id);
    SessionAndWire(c, w, i);
  }
}
