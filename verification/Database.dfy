/**
 * What the SQL statements do to the tables of one room (api/internal/store). Every call takes a fault:
 * the transaction is applied and acknowledged, refused, or applied with the acknowledgement lost.
 */
module Database {
  import opened Common

  datatype Fault = Works | Refused | AckLost

  datatype Status = Lobby | Running | Ended

  /** room_players: the progress columns. */
  datatype Row = Row(score: int, correct: int, totalMs: int, index: int, streak: int, finishedAt: Option<nat>)

  /** answers: one row per (player, question); a timeout has no time, option or verdict. */
  datatype Answer = Answer(servedAt: nat, answeredAt: Option<nat>, option: Option<OptionId>, correct: Option<bool>,
                           points: int)

  /** The tables, for one room. joined lists the players by created_at. */
  datatype Tables = Tables(status: Status, startedAt: nat, rows: map<PlayerId, Row>,
                           answers: map<PlayerId, map<QuestionId, Answer>>, joined: seq<PlayerId>)

  const NEW_ROW := Row(0, 0, 0, 0, 0, None)

  /** What one save carries: the answer row and the progress row after it. */
  datatype Result = Result(player: PlayerId, question: QuestionId, answer: Answer,
                           score: int, correct: int, totalMs: int, index: int, streak: int, finished: bool)

  datatype SaveError = Saved | DuplicateAnswer | OtherError

  // SMALLINT and INTEGER columns: a value out of range becomes the nearest one in range.
  function ToInt16(v: int): int { Min(Max(v, -0x8000), 0x7fff) }
  function ToInt32(v: int): int { Min(Max(v, -0x8000_0000), 0x7fff_ffff) }

  function AnswerRow(a: Answer): Answer {
    a.(points := ToInt16(a.points))
  }

  function ProgressRow(r: Result, previous: Row, wall: nat): Row {
    Row(ToInt32(r.score), ToInt16(r.correct), ToInt32(r.totalMs), ToInt16(r.index), ToInt16(r.streak),
        if r.finished && previous.finishedAt.None? then Some(wall) else previous.finishedAt)
  }

  /** The CHECK constraints of the two tables. */
  predicate Allowed(row: Row, a: Answer) {
    row.totalMs >= 0 && 0 <= row.index <= 15 && row.streak >= 0 && a.points >= 0
  }

  ghost predicate Consistent(t: Tables) {
    && t.answers.Keys == t.rows.Keys
    && Distinct(t.joined) && (forall p :: p in t.joined <==> p in t.rows)
    && (forall p :: p in t.rows ==> 0 <= t.rows[p].index <= 15)
  }

  /** The insert and the update of one transaction. */
  function Recorded(t: Tables, r: Result, wall: nat): Tables
    requires r.player in t.rows && r.player in t.answers
  {
    t.(rows := t.rows[r.player := ProgressRow(r, t.rows[r.player], wall)],
       answers := t.answers[r.player := t.answers[r.player][r.question := AnswerRow(r.answer)]])
  }

  /** Insert the answer unless the key exists, update the progress, commit. */
  function SaveResult(t: Tables, r: Result, fault: Fault, wall: nat): (Tables, SaveError)
    requires Consistent(t)
  {
    if fault.Refused? || r.player !in t.rows then (t, OtherError)
    else if r.question in t.answers[r.player] then (t, DuplicateAnswer)
    else if !Allowed(ProgressRow(r, t.rows[r.player], wall), AnswerRow(r.answer)) then (t, OtherError)
    else (Recorded(t, r, wall), if fault.AckLost? then OtherError else Saved)
  }

  /** The delete cascades to the answers. */
  function WithoutPlayer(t: Tables, p: PlayerId): Tables {
    t.(rows := t.rows - {p}, answers := t.answers - {p}, joined := Without(t.joined, p))
  }

  function DeletePlayer(t: Tables, p: PlayerId, fault: Fault): (Tables, bool) {
    if fault.Refused? then (t, false) else (WithoutPlayer(t, p), fault.Works?)
  }

  /** created_at is when the transaction began, so a player may come before players whose joins committed earlier. */
  function InsertPlayer(t: Tables, p: PlayerId, place: nat): Tables {
    var k := Min(place, |t.joined|);
    t.(rows := t.rows[p := NEW_ROW], answers := t.answers[p := map[]], joined := t.joined[..k] + [p] + t.joined[k..])
  }

  /** Reports whether a row moved from lobby to running, and whether the call failed. */
  function MarkRoomStarted(t: Tables, fault: Fault, wall: nat): (Tables, bool, bool) {
    if fault.Refused? then (t, false, true)
    else if t.status.Lobby? then (t.(status := Running, startedAt := wall), fault.Works?, fault.AckLost?)
    else (t, false, fault.AckLost?)
  }

  function MarkRoomEnded(t: Tables, fault: Fault): Tables {
    if fault.Refused? then t else t.(status := Ended)
  }

  // ---------------------------------------------------------------- one player's rows

  /** What the two tables hold about one player. */
  datatype Account = Account(row: Row, answers: map<QuestionId, Answer>)

  const NEW_ACCOUNT := Account(NEW_ROW, map[])

  function AccountOf(t: Tables, p: PlayerId): Option<Account> {
    if p in t.rows && p in t.answers then Some(Account(t.rows[p], t.answers[p])) else None
  }

  /** SaveResult as seen by the player it is about. */
  function SaveToAccount(a: Option<Account>, r: Result, fault: Fault, wall: nat): (Option<Account>, SaveError) {
    if fault.Refused? || a.None? then (a, OtherError)
    else if r.question in a.value.answers then (a, DuplicateAnswer)
    else
      var row := ProgressRow(r, a.value.row, wall);
      if !Allowed(row, AnswerRow(r.answer)) then (a, OtherError)
      else (Some(Account(row, a.value.answers[r.question := AnswerRow(r.answer)])),
            if fault.AckLost? then OtherError else Saved)
  }

  /** Tables that agree on everything but one player's rows and the room's status. */
  ghost predicate SameForOthers(t: Tables, u: Tables, p: PlayerId) {
    && u.joined == t.joined && u.startedAt == t.startedAt && u.rows.Keys == t.rows.Keys
    && forall q :: q != p ==> AccountOf(u, q) == AccountOf(t, q)
  }

  /** The transaction touches one account, in the way that account alone determines. */
  lemma SaveIsLocal(t: Tables, r: Result, fault: Fault, wall: nat)
    requires Consistent(t)
    ensures var (u, error) := SaveResult(t, r, fault, wall);
      && Consistent(u) && u.status == t.status && SameForOthers(t, u, r.player)
      && (AccountOf(u, r.player), error) == SaveToAccount(AccountOf(t, r.player), r, fault, wall)
  {
    hide Distinct, ToInt16, ToInt32;
  }

  lemma DeletingKeepsConsistency(t: Tables, p: PlayerId, fault: Fault)
    requires Consistent(t)
    ensures Consistent(DeletePlayer(t, p, fault).0)
  {
    hide Without;
    var joined := Without(t.joined, p);
    assert Distinct(joined) && forall x :: x in joined <==> x in t.joined && x != p;
    hide Distinct;
  }

  lemma InsertingKeepsConsistency(t: Tables, p: PlayerId, place: nat)
    requires Consistent(t) && p !in t.rows
    ensures Consistent(InsertPlayer(t, p, place))
  {
    var k := Min(place, |t.joined|);
    var before, after := t.joined[..k], t.joined[k..];
    assert t.joined == before + after;
    assert forall x :: x in before + [p] + after <==> x in t.joined || x == p;
  }
}
