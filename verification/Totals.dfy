/** What a player's numbers mean: sums over the answers given, counted without looking at how they were added up. */
module Totals {
  import opened Common
  import opened Scoring
  import opened Database
  import opened RoomSpec
  import opened World
  import opened Persistence

  /** The answer stored for the question at a position. */
  function AnswerAt(c: Config, answers: map<QuestionId, Answer>, i: nat): Answer
    requires i < |c.questions| && c.questions[i].id in answers
  {
    answers[c.questions[i].id]
  }

  predicate RightAt(c: Config, answers: map<QuestionId, Answer>, i: nat) {
    i < |c.questions| && c.questions[i].id in answers && answers[c.questions[i].id].correct == Some(true)
  }

  function RightOnes(c: Config, answers: map<QuestionId, Answer>, k: nat): set<nat> {
    set i: nat | 0 <= i < k && RightAt(c, answers, i)
  }

  function PointsOfFirst(c: Config, answers: map<QuestionId, Answer>, k: nat): int
    requires AnswersFirst(c, answers, k)
  {
    if k == 0 then 0 else PointsOfFirst(c, answers, k - 1) + AnswerAt(c, answers, k - 1).points
  }

  /** The time limit of each question not answered in time, and the time taken, up to the limit, of the others. */
  function TimeOfFirst(c: Config, answers: map<QuestionId, Answer>, k: nat): int
    requires AnswersFirst(c, answers, k)
  {
    if k == 0 then 0
    else
      var a, limit := AnswerAt(c, answers, k - 1), QuestionLimit(c.questions[k - 1].level, c.jenjang);
      TimeOfFirst(c, answers, k - 1)
      + Milliseconds(if a.answeredAt.None? || a.answeredAt.value - a.servedAt > limit then limit
                     else a.answeredAt.value - a.servedAt)
  }

  /** k answers add up to p: points, right answers, time, and the right answers at the end of the row. */
  ghost predicate AddsUp(c: Config, answers: map<QuestionId, Answer>, k: nat, p: Progress) {
    && AnswersFirst(c, answers, k) && p.resolved == k
    && p.score == PointsOfFirst(c, answers, k)
    && p.correct == |RightOnes(c, answers, k)|
    && p.totalMs == TimeOfFirst(c, answers, k)
    && 0 <= p.streak <= k
    && (forall i :: k - p.streak <= i < k ==> RightAt(c, answers, i))
    && (p.streak < k ==> !RightAt(c, answers, k - 1 - p.streak))
  }

  lemma OneMoreRight(c: Config, answers: map<QuestionId, Answer>, k: nat)
    ensures |RightOnes(c, answers, k + 1)| == |RightOnes(c, answers, k)| + if RightAt(c, answers, k) then 1 else 0
  {
    assert RightOnes(c, answers, k + 1) == RightOnes(c, answers, k) + if RightAt(c, answers, k) then {k} else {};
  }

  lemma {:induction false} ReplayAddsUp(c: Config, answers: map<QuestionId, Answer>, k: nat)
    requires AnswersFirst(c, answers, k)
    ensures AddsUp(c, answers, k, Replay(c, answers, k))
  {
    hide QuestionLimit;
    if k == 0 {
      assert RightOnes(c, answers, 0) == {};
    } else {
      ReplayAddsUp(c, answers, k - 1);
      OneMoreRight(c, answers, k - 1);
      hide RightOnes;
    }
  }

  /**
   * In every run a player's row, and a player's memory, add up to the answers stored to the first questions, of which
   * memory may not know the last.
   */
  lemma PlayersAddUp(c: Config, inputs: seq<Input>, id: PlayerId)
    requires Playable(c) && AccountOf(Run(c, CREATED, inputs).room.tables, id).Some?
    ensures var r := Run(c, CREATED, inputs).room;
      var acc := AccountOf(r.tables, id).value;
      && acc.row.index >= 0 && AddsUp(c, acc.answers, acc.row.index, ProgressOf(acc.row))
      && acc.answers.Keys == FirstIds(c, acc.row.index)
      && (id in r.players ==>
            AddsUp(c, acc.answers, r.players[id].progress.resolved, r.players[id].progress))
  {
    hide Run, Playable, AddsUp, AccountOf;
    RunsKeepAgreement(c, inputs, id);
    AgreeingAddsUp(c, Run(c, CREATED, inputs), id);
  }

  lemma AgreeingAddsUp(c: Config, w: World, id: PlayerId)
    requires AgreesFor(c, w, id) && AccountOf(w.room.tables, id).Some?
    ensures var acc := AccountOf(w.room.tables, id).value;
      && acc.row.index >= 0 && AddsUp(c, acc.answers, acc.row.index, ProgressOf(acc.row))
      && acc.answers.Keys == FirstIds(c, acc.row.index)
      && (id in w.room.players ==>
            AddsUp(c, acc.answers, w.room.players[id].progress.resolved, w.room.players[id].progress))
  {
    hide AllHonest, Replay, AddsUp;
    var acc := AccountOf(w.room.tables, id).value;
    ReplayAddsUp(c, acc.answers, acc.row.index);
    if id in w.room.players { ReplayAddsUp(c, acc.answers, w.room.players[id].progress.resolved); }
  }
}
