/**
 * What every event of a live room does (api/internal/game/play.go and room.go), as functions from one
 * snapshot of the room, its tables, its leaderboard and its connections to the next.
 */
module RoomSpec {
  import opened Common
  import opened Questions
  import opened Shuffling
  import opened Scoring
  import opened Rank
  import opened Database
  import Leaderboard

  const PODIUM_SIZE: nat := 3

  /** The fields of a room that never change. */
  datatype Config = Config(questions: seq<Question>, jenjang: Jenjang, accuracyMode: bool, hostId: nat, lbInterval: nat,
                           hasBoard: bool)

  /** An open question: its options as shuffled for one player, since when, and for how long. */
  datatype Active = Active(question: Question, options: seq<Choice>, servedAt: nat, limit: nat)

  /** A player's totals; resolved is how many questions are behind the player, whether answered in time or not. */
  datatype Progress = Progress(score: int, correct: int, totalMs: int, streak: int, resolved: nat)

  datatype Player = Player(progress: Progress, active: Option<Active>)

  /** The lb.update throttle; due is when the pending timer fires. */
  datatype Throttle = Throttle(dirty: bool, waiting: bool, last: Option<nat>, due: nat)

  datatype RankRow = RankRow(player: PlayerId, score: int, correct: int)

  datatype Code = NotStarted | InProgress | Finished | NotServed | AlreadyAnswered | BadOption | Internal
  datatype Command = QNext | QAnswer

  /** An option as a player sees it. */
  datatype Label = Label(id: OptionId, caption: Text)

  /** What a connection sees; Closed is the Close call. */
  datatype Packet =
    | RoomState(status: Status, index: int, score: int, streak: int, roster: seq<PlayerId>)
    | RoomStarted
    | RoomEnded(podium: seq<RankRow>)
    | Show(index: int, total: int, site: int, level: int, prompt: Text, options: seq<Label>, limitMs: int)
    | Graded(correct: bool, correctOption: OptionId, points: int, score: int, streak: int, finished: bool)
    | Rankings(rows: seq<RankRow>)
    | Joined(player: PlayerId)
    | Kicked
    | Error(code: Code, command: Command)
    | Closed

  type Wire = map<SinkId, seq<Packet>>

  /** A snapshot. history: when lb.update was broadcast; endMarks: how often this room called MarkRoomEnded. */
  datatype Room = Room(status: Status, players: map<PlayerId, Player>, order: seq<PlayerId>,
                       host: Option<SinkId>, sinks: map<PlayerId, SinkId>, deadline: Option<nat>, lb: Throttle,
                       tables: Tables, board: Leaderboard.Entries, wire: Wire,
                       history: seq<nat>, endMarks: nat)

  /** One reading of the clocks and random source, and the outcome of each call an event may make. */
  datatype Env = Env(now: nat, wall: nat, draws: seq<nat>, save: Fault, delete: Fault, mark: Fault,
                     boardSaves: bool, boardRebuilds: bool, boardForgets: bool, boardReads: bool,
                     evicted: set<PlayerId>)

  function Held(r: Room): set<SinkId> {
    (if r.host.Some? then {r.host.value} else {}) + r.sinks.Values
  }

  /** The roster matches the players, and every connection is held once. */
  ghost predicate WellFormed(r: Room) {
    && Distinct(r.order) && (forall p :: p in r.order <==> p in r.players)
    && r.sinks.Keys <= r.players.Keys
    && (forall p, q :: p in r.sinks && q in r.sinks && p != q ==> r.sinks[p] != r.sinks[q])
    && (r.host.Some? ==> r.host.value !in r.sinks.Values)
    && Held(r) <= r.wire.Keys
    && Consistent(r.tables)
  }

  /** Only messages, the board cache and the throttle differ. */
  ghost predicate SameButMessages(r: Room, s: Room) {
    && s == r.(lb := s.lb, board := s.board, wire := s.wire, history := s.history)
    && s.wire.Keys == r.wire.Keys
  }

  /** Calls of MarkRoomEnded beyond the one that ending takes; no event changes it. */
  function SurplusMarks(r: Room): int {
    r.endMarks - if r.status.Ended? then 1 else 0
  }

  /** What one player's question may change: that player, the tables, messages, and the end of the session. */
  ghost predicate OnlyPlayer(r: Room, s: Room, id: PlayerId) {
    && s.players.Keys == r.players.Keys && (forall p :: p in r.players && p != id ==> s.players[p] == r.players[p])
    && SameForOthers(r.tables, s.tables, id)
    && s.order == r.order && s.deadline == r.deadline && s.wire.Keys == r.wire.Keys
    && (s.status == r.status || (r.status.Running? && s.status.Ended?))
    && (s.status == r.status ==> s.tables.status == r.tables.status)
    && (s.tables.status == r.tables.status || s.tables.status.Ended?)
    && SurplusMarks(s) == SurplusMarks(r)
    && s.sinks.Keys <= r.sinks.Keys
  }

  lemma SameForOthersIsTransitive(t: Tables, id: PlayerId)
    ensures SameForOthers(t, t, id)
    ensures forall u, v :: SameForOthers(t, u, id) && SameForOthers(u, v, id) ==> SameForOthers(t, v, id)
  {
  }

  lemma OnlyPlayerAddsUp(r: Room, s: Room, t: Room, id: PlayerId)
    requires OnlyPlayer(r, s, id) && OnlyPlayer(s, t, id)
    ensures OnlyPlayer(r, t, id) && t.players.Keys == s.players.Keys == r.players.Keys
    ensures t.status != r.status ==> t.status.Ended?
  {
    hide SameForOthers, SurplusMarks;
    SameForOthersIsTransitive(r.tables, id);
  }

  lemma OnlyPlayerKeeps(r: Room, s: Room, id: PlayerId)
    requires OnlyPlayer(r, s, id)
    ensures s.players.Keys == r.players.Keys && s.tables.rows.Keys == r.tables.rows.Keys
    ensures s.status == r.status || (r.status.Running? && s.status.Ended?)
  {
  }

  lemma OnlyPlayerSinks(r: Room, s: Room, id: PlayerId)
    requires OnlyPlayer(r, s, id)
    ensures s.sinks.Keys <= r.sinks.Keys && s.wire.Keys == r.wire.Keys
  {
  }

  /** Leaving the connections aside. */
  lemma ConnectionAside(r: Room, s: Room, t: Room, id: PlayerId)
    requires OnlyPlayer(r, s, id) && t == s.(sinks := t.sinks, wire := t.wire)
    ensures OnlyPlayer(r, t.(wire := r.wire, sinks := map[]), id)
  {
  }

  lemma OnlyMessages(r: Room, s: Room, id: PlayerId)
    requires s.wire.Keys == r.wire.Keys && s.sinks.Keys <= r.sinks.Keys && s == r.(wire := s.wire, sinks := s.sinks)
    ensures OnlyPlayer(r, s, id)
  {
  }

  /** Ending leaves the game itself alone. */
  ghost predicate OnlyEnds(r: Room, s: Room) {
    && s == r.(status := s.status, tables := r.tables.(status := s.tables.status), host := s.host, sinks := s.sinks,
               wire := s.wire, endMarks := s.endMarks)
    && s.wire.Keys == r.wire.Keys && s.sinks.Keys <= r.sinks.Keys
    && (s == r || s.status.Ended?) && (s.tables.status == r.tables.status || s.tables.status.Ended?)
    && SurplusMarks(s) == SurplusMarks(r)
  }

  /** Status, throttle, board, deadline and counters have no part in being well formed. */
  lemma OtherFieldsDoNotMatter(r: Room, s: Room)
    requires WellFormed(r)
    requires s.players == r.players && s.order == r.order && s.host == r.host && s.sinks == r.sinks && s.wire == r.wire
    requires s.tables == r.tables.(status := s.tables.status, startedAt := s.tables.startedAt)
    ensures WellFormed(s)
  {
  }

  lemma TablesAreConsistent(r: Room)
    requires WellFormed(r)
    ensures Consistent(r.tables)
  {
  }

  lemma OnePlayerReplaced(r: Room, id: PlayerId, p: Player)
    requires WellFormed(r) && id in r.players
    ensures WellFormed(r.(players := r.players[id := p]))
  {
  }

  // ---------------------------------------------------------------- messages

  function Tell(wire: Wire, receivers: set<SinkId>, m: Packet): Wire
    requires receivers <= wire.Keys
  {
    map s | s in wire :: if s in receivers then wire[s] + [m] else wire[s]
  }

  lemma TellingNobody(wire: Wire, m: Packet)
    ensures Tell(wire, {}, m) == wire
  {
  }

  lemma TellingKeepsAll(wire: Wire, receivers: set<SinkId>, m: Packet)
    requires receivers <= wire.Keys
    ensures Tell(wire, receivers, m).Keys == wire.Keys
  {
  }

  function SendTo(r: Room, p: PlayerId, m: Packet): (s: Room)
    requires WellFormed(r)
    ensures WellFormed(s) && s == r.(wire := s.wire) && s.wire.Keys == r.wire.Keys
  {
    if p in r.sinks then r.(wire := Tell(r.wire, {r.sinks[p]}, m)) else r
  }

  function Broadcast(r: Room, m: Packet): (s: Room)
    requires WellFormed(r)
    ensures WellFormed(s) && s == r.(wire := s.wire) && s.wire.Keys == r.wire.Keys
  {
    r.(wire := Tell(r.wire, Held(r), m))
  }

  function CloseAll(r: Room): (s: Room)
    requires WellFormed(r)
    ensures WellFormed(s) && s == r.(wire := s.wire, host := None, sinks := map[]) && s.wire.Keys == r.wire.Keys
  {
    r.(wire := Tell(r.wire, Held(r), Closed), host := None, sinks := map[])
  }

  // ---------------------------------------------------------------- standings and leaderboard

  function StandingOf(id: PlayerId, p: Progress): Standing {
    Standing(id, p.score, p.correct, p.totalMs)
  }

  function Standings(players: map<PlayerId, Player>, order: seq<PlayerId>): (s: seq<Standing>)
    requires forall id :: id in order ==> id in players
    ensures |s| == |order|
    ensures forall i :: 0 <= i < |order| ==> s[i] == StandingOf(order[i], players[order[i]].progress)
  {
    seq(|order|, i requires 0 <= i < |order| => StandingOf(order[i], players[order[i]].progress))
  }

  function SaveStandings(c: Config, r: Room, standings: seq<Standing>, applied: bool): (s: Room)
    ensures s == r.(board := s.board)
  {
    if c.hasBoard && applied then r.(board := Leaderboard.Added(r.board, standings)) else r
  }

  /** The same members, as far as counting and looking them up can tell. */
  predicate CoversAllPlayers(players: map<PlayerId, Player>, ids: seq<PlayerId>) {
    |ids| == |players| && forall id :: id in ids ==> id in players
  }

  /** Redis when it answers for exactly the current players, otherwise memory (rebuilding Redis). */
  ghost function RankedIds(c: Config, r: Room, env: Env): (result: (Room, seq<PlayerId>))
    requires WellFormed(r)
    ensures result.0 == r.(board := result.0.board)
    ensures forall id :: id in result.1 ==> id in r.players
  {
    var standings := Standings(r.players, r.order);
    OrderedIdsArePlayers(r.players, r.order);
    if !c.hasBoard then (r, Order(standings))
    else
      var r1 := r.(board := r.board - env.evicted);
      var ids := Leaderboard.Ranked(r1.board);
      if env.boardReads && CoversAllPlayers(r.players, ids) then (r1, ids)
      else (SaveStandings(c, r1, standings, env.boardRebuilds), Order(standings))
  }

  function RankRows(players: map<PlayerId, Player>, ids: seq<PlayerId>): seq<RankRow>
    requires forall id :: id in ids ==> id in players
  {
    seq(|ids|, i requires 0 <= i < |ids| =>
      RankRow(ids[i], players[ids[i]].progress.score, players[ids[i]].progress.correct))
  }

  lemma OrderedIdsArePlayers(players: map<PlayerId, Player>, order: seq<PlayerId>)
    requires forall id :: id in order ==> id in players
    ensures forall id :: id in Order(Standings(players, order)) <==> id in order
    ensures |Order(Standings(players, order))| == |order|
  {
    var s := Standings(players, order);
    SortedMembers(s);
    forall id ensures id in Order(s) <==> id in order {
      if id in Order(s) {
        var i :| 0 <= i < |s| && Order(s)[i] == id;
        assert Sorted(s)[i] in s;
      }
      if id in order {
        var i :| 0 <= i < |order| && order[i] == id;
        assert s[i] in s && s[i] in Sorted(s);
        var j :| 0 <= j < |s| && Sorted(s)[j] == s[i];
        assert Order(s)[j] == id;
      }
    }
  }

  ghost function SendLeaderboard(c: Config, r: Room, env: Env): (s: Room)
    requires WellFormed(r)
    ensures WellFormed(s) && SameButMessages(r, s)
  {
    hide RankedIds, Broadcast, RankRows;
    var (r1, ids) := RankedIds(c, r, env);
    var r2 := Broadcast(r1, Rankings(RankRows(r.players, ids)));
    r2.(lb := r2.lb.(dirty := false, last := Some(env.wall)), history := r2.history + [env.wall])
  }

  /** A change of standings: announced at once if the last broadcast is long enough ago, otherwise when that is so. */
  ghost function MarkLeaderboardDirty(c: Config, r: Room, env: Env): (s: Room)
    requires WellFormed(r)
    ensures WellFormed(s) && SameButMessages(r, s)
  {
    hide SendLeaderboard;
    var r1 := r.(lb := r.lb.(dirty := true));
    if r1.lb.waiting then r1
    else if r1.lb.last.None? || env.wall - r1.lb.last.value >= c.lbInterval then SendLeaderboard(c, r1, env)
    else r1.(lb := r1.lb.(waiting := true, due := r1.lb.last.value + c.lbInterval))
  }

  ghost function BoardTimer(c: Config, r: Room, env: Env): (s: Room)
    requires WellFormed(r)
    ensures WellFormed(s) && SameButMessages(r, s)
  {
    hide SendLeaderboard;
    var r1 := r.(lb := r.lb.(waiting := false));
    if r1.lb.dirty && !r1.status.Ended? then SendLeaderboard(c, r1, env) else r1
  }

  // ---------------------------------------------------------------- ending

  function Podium(r: Room): seq<RankRow>
    requires WellFormed(r)
  {
    var ids := Order(Standings(r.players, r.order));
    OrderedIdsArePlayers(r.players, r.order);
    RankRows(r.players, ids[..Min(PODIUM_SIZE, |ids|)])
  }

  function EndSession(r: Room, env: Env): (s: Room)
    requires WellFormed(r)
    ensures WellFormed(s) && OnlyEnds(r, s) && s.status.Ended?
    ensures !r.status.Ended? ==> s.tables == MarkRoomEnded(r.tables, env.mark)
  {
    hide Podium, Broadcast, CloseAll;
    if r.status.Ended? then r
    else
      var r1 := r.(tables := MarkRoomEnded(r.tables, env.mark), endMarks := r.endMarks + 1, status := Ended);
      CloseAll(Broadcast(r1, RoomEnded(Podium(r1))))
  }

  predicate AllFinished(c: Config, players: map<PlayerId, Player>) {
    forall p :: p in players ==> players[p].progress.resolved >= |c.questions|
  }

  function EndIfAllFinished(c: Config, r: Room, env: Env): (s: Room)
    requires WellFormed(r)
    ensures WellFormed(s) && OnlyEnds(r, s)
    ensures s.status == r.status || (r.status.Running? && s.status.Ended? && AllFinished(c, s.players))
    ensures s.status == r.status ==> s == r
  {
    hide EndSession;
    if !r.status.Running? || |r.players| == 0 || !AllFinished(c, r.players) then r else EndSession(r, env)
  }

  // ---------------------------------------------------------------- resolving a question

  /** The last instant at which an answer counts: time limit and grace for the network after serving. */
  function Deadline(a: Active): nat {
    a.servedAt + a.limit + NETWORK_GRACE_MS * NS_PER_MS
  }

  /** What becomes of an open question; without a verdict it ran out of time. */
  datatype Outcome = Outcome(option: Option<OptionId>, correct: Option<bool>, answeredAt: Option<nat>, points: int,
                             spentMs: int)

  function TimeoutOutcome(a: Active): Outcome {
    Outcome(None, None, None, 0, Milliseconds(a.limit))
  }

  function Points(c: Config, a: Active, correct: bool, elapsed: int, streak: int): int {
    Score(ScoreInput(a.question.level, correct, Milliseconds(elapsed), Milliseconds(a.limit),
                     ReadingGrace(c.jenjang), streak, c.accuracyMode))
  }

  /** A choice that came in time is graded and scored; no choice or a late one yields the timeout. */
  function OutcomeOf(c: Config, p: Progress, a: Active, option: Option<OptionId>, now: nat): Outcome {
    if option.None? || now > Deadline(a) then TimeoutOutcome(a)
    else
      var elapsed := now - a.servedAt;
      var correct := IsCorrect(a.options, option.value);
      Outcome(option, Some(correct), Some(now), Points(c, a, correct, elapsed, p.streak),
              Milliseconds(Min(elapsed, a.limit)))
  }

  predicate Right(out: Outcome) {
    out.correct == Some(true)
  }

  function Advance(p: Progress, out: Outcome): Progress {
    Progress(p.score + out.points, if Right(out) then p.correct + 1 else p.correct, p.totalMs + out.spentMs,
             if Right(out) then p.streak + 1 else 0, p.resolved + 1)
  }

  function ResultOf(id: PlayerId, a: Active, out: Outcome, next: Progress, finished: bool): Result {
    Result(id, a.question.id, Answer(a.servedAt, out.answeredAt, out.option, out.correct, out.points),
           next.score, next.correct, next.totalMs, next.resolved, next.streak, finished)
  }

  // ---------------------------------------------------------------- one seat: what concerns a single player

  /** A player in memory together with that player's rows in the tables. */
  datatype Seat = Seat(player: Player, account: Option<Account>)

  function SeatOf(r: Room, id: PlayerId): Seat
    requires id in r.players
  {
    Seat(r.players[id], AccountOf(r.tables, id))
  }

  function SaveOutcome(c: Config, seat: Seat, id: PlayerId, out: Outcome, env: Env): (Option<Account>, SaveError)
    requires seat.player.active.Some?
  {
    var next := Advance(seat.player.progress, out);
    SaveToAccount(seat.account, ResultOf(id, seat.player.active.value, out, next, next.resolved >= |c.questions|),
                  env.save, env.wall)
  }

  /** Resolving: the account first, memory only after an acknowledged save. */
  function ResolveSeat(c: Config, seat: Seat, id: PlayerId, out: Outcome, env: Env): Seat
    requires seat.player.active.Some?
  {
    var (account, error) := SaveOutcome(c, seat, id, out, env);
    if error.Saved? then Seat(Player(Advance(seat.player.progress, out), None), account)
    else seat.(account := account)
  }

  function SettleSeat(c: Config, running: bool, seat: Seat, id: PlayerId, env: Env): Seat {
    if seat.player.active.None? || !running || env.now < Deadline(seat.player.active.value) then seat
    else ResolveSeat(c, seat, id, TimeoutOutcome(seat.player.active.value), env)
  }

  function ServeSeat(c: Config, seat: Seat, env: Env): Seat
    requires seat.player.progress.resolved < |c.questions|
  {
    var q := c.questions[seat.player.progress.resolved];
    seat.(player := seat.player.(active :=
      Some(Active(q, ShuffledOptions(q, env.draws), env.now, QuestionLimit(q.level, c.jenjang)))))
  }

  /** q.next: settle an expired question, then serve unless one is still open or none is left. */
  function NextSeat(c: Config, running: bool, seat: Seat, id: PlayerId, env: Env): Seat {
    if !running then seat
    else
      var settled := SettleSeat(c, running, seat, id, env);
      if settled.player.active.Some? || settled.player.progress.resolved >= |c.questions| then settled
      else ServeSeat(c, settled, env)
  }

  /** q.answer for the active question with one of its options. */
  function SubmitSeat(c: Config, running: bool, seat: Seat, id: PlayerId, question: QuestionId,
                      option: Option<OptionId>, env: Env): Seat {
    if !running || seat.player.active.None? || seat.player.active.value.question.id != question then seat
    else
      var a := seat.player.active.value;
      if option.Some? && !HasOption(a.options, option.value) then seat
      else ResolveSeat(c, seat, id, OutcomeOf(c, seat.player.progress, a, option, env.now), env)
  }

  function ShuffledOptions(q: Question, draws: seq<nat>): seq<Choice> {
    if q.kind.TrueFalse? then q.options else Shuffled(q.options, draws)
  }

  // ---------------------------------------------------------------- the handlers

  function Reject(r: Room, id: PlayerId, command: Command, code: Code): (s: Room)
    requires WellFormed(r)
    ensures WellFormed(s) && s == r.(wire := s.wire) && s.wire.Keys == r.wire.Keys
  {
    SendTo(r, id, Error(code, command))
  }

  /** Persists first; only then memory advances. The flag says whether the result was saved. */
  ghost function Resolve(c: Config, r: Room, id: PlayerId, out: Outcome, announce: bool,
                         env: Env): (result: (Room, bool))
    requires WellFormed(r) && id in r.players && r.players[id].active.Some?
    ensures WellFormed(result.0) && OnlyPlayer(r, result.0, id)
    ensures SeatOf(result.0, id) == ResolveSeat(c, SeatOf(r, id), id, out, env)
    ensures result.1 <==> SaveOutcome(c, SeatOf(r, id), id, out, env).1.Saved?
    ensures result.0.status != r.status ==> AllFinished(c, result.0.players)
  {
    hide Advanced, Persist, SaveToAccount, Reject, Advance, CorrectOptionId, ResultOf, AccountOf, SameForOthers,
         OnlyPlayer, WellFormed,
         AllFinished;
    var p := r.players[id];
    var a := p.active.value;
    var next := Advance(p.progress, out);
    var finished := next.resolved >= |c.questions|;
    var (r0, error) := Persist(r, ResultOf(id, a, out, next, finished), env);
    ResultNames(id, a, out, next, finished);
    if error != Saved then
      var s := Reject(r0, id, QAnswer, if error.DuplicateAnswer? then AlreadyAnswered else Internal);
      AfterPersist(r, r0, s, id);
      (s, false)
    else
      var message := Graded(Right(out), CorrectOptionId(a.question.options), out.points, next.score, next.streak,
                            finished);
      var s := Advanced(c, r0, id, next, if announce then Some(message) else None, env);
      AfterPersist(r, r0, s, id);
      (s, true)
  }

  lemma AfterPersist(r: Room, r0: Room, s: Room, id: PlayerId)
    requires r0 == r.(tables := r0.tables) && SameForOthers(r.tables, r0.tables, id)
    requires r0.tables.status == r.tables.status
    requires OnlyPlayer(r0, s, id) || (s == r0.(wire := s.wire) && s.wire.Keys == r0.wire.Keys)
    ensures OnlyPlayer(r, s, id)
    ensures s.tables == r0.tables.(status := s.tables.status) ==> AccountOf(s.tables, id) == AccountOf(r0.tables, id)
  {
  }

  lemma ResultNames(id: PlayerId, a: Active, out: Outcome, next: Progress, finished: bool)
    ensures ResultOf(id, a, out, next, finished).player == id
  {
  }

  function Persist(r: Room, result: Result, env: Env): (persisted: (Room, SaveError))
    requires WellFormed(r)
    ensures WellFormed(persisted.0) && persisted.0 == r.(tables := persisted.0.tables)
    ensures SameForOthers(r.tables, persisted.0.tables, result.player) && persisted.0.tables.status == r.tables.status
    ensures (AccountOf(persisted.0.tables, result.player), persisted.1)
         == SaveToAccount(AccountOf(r.tables, result.player), result, env.save, env.wall)
  {
    hide SaveResult, SaveToAccount;
    SaveIsLocal(r.tables, result, env.save, env.wall);
    var (tables, error) := SaveResult(r.tables, result, env.save, env.wall);
    (r.(tables := tables), error)
  }

  /** The player moves on: standing saved, result announced, leaderboard marked, session perhaps over. */
  ghost function Advanced(c: Config, r: Room, id: PlayerId, next: Progress, message: Option<Packet>,
                          env: Env): (s: Room)
    requires WellFormed(r) && id in r.players
    ensures WellFormed(s) && OnlyPlayer(r, s, id)
    ensures s.players == r.players[id := Player(next, None)] && s.tables == r.tables.(status := s.tables.status)
    ensures s.status != r.status ==> AllFinished(c, s.players)
  {
    hide MarkLeaderboardDirty, EndIfAllFinished, SendTo, SaveStandings, WellFormed, AllFinished;
    OnePlayerReplaced(r, id, Player(next, None));
    var r1 := r.(players := r.players[id := Player(next, None)]);
    var r2 := SaveStandings(c, r1, [StandingOf(id, next)], env.boardSaves);
    OtherFieldsDoNotMatter(r1, r2);
    var r3 := if message.Some? then SendTo(r2, id, message.value) else r2;
    var r4 := MarkLeaderboardDirty(c, r3, env);
    if next.resolved >= |c.questions| then EndIfAllFinished(c, r4, env) else r4
  }

  /**
   * In a running room an open question whose deadline has come is resolved as a timeout; the flag says that none is
   * open.
   */
  ghost function SettleExpired(c: Config, r: Room, id: PlayerId, env: Env): (result: (Room, bool))
    requires WellFormed(r) && id in r.players
    ensures WellFormed(result.0) && OnlyPlayer(r, result.0, id)
    ensures SeatOf(result.0, id) == SettleSeat(c, r.status.Running?, SeatOf(r, id), id, env)
    ensures result.1 <==> SeatOf(result.0, id).player.active.None?
    ensures result.0.status != r.status ==> AllFinished(c, result.0.players)
  {
    hide Resolve, SaveToAccount, Advance, ResultOf;
    var active := r.players[id].active;
    if active.None? then (r, true)
    else if !r.status.Running? || env.now < Deadline(active.value) then (r, false)
    else Resolve(c, r, id, TimeoutOutcome(active.value), false, env)
  }

  function Labels(options: seq<Choice>): seq<Label> {
    seq(|options|, i requires 0 <= i < |options| => Label(options[i].id, options[i].caption))
  }

  /** q.show: the open question in this player's option order, and how much of its time is left. */
  function ShowMessage(c: Config, p: Player, now: nat): Packet
    requires p.active.Some?
  {
    var a := p.active.value;
    Show(p.progress.resolved, |c.questions|, a.question.site, a.question.level, a.question.prompt, Labels(a.options),
         Milliseconds(Max(a.servedAt + a.limit - now, 0)))
  }

  function ShowActive(c: Config, r: Room, id: PlayerId, now: nat): (s: Room)
    requires WellFormed(r) && id in r.players && r.players[id].active.Some?
    ensures WellFormed(s) && s == r.(wire := s.wire) && s.wire.Keys == r.wire.Keys
  {
    hide SendTo;
    SendTo(r, id, ShowMessage(c, r.players[id], now))
  }

  function Serve(c: Config, r: Room, id: PlayerId, env: Env): (s: Room)
    requires WellFormed(r) && id in r.players && r.players[id].progress.resolved < |c.questions|
    ensures WellFormed(s) && OnlyPlayer(r, s, id) && s.status == r.status
    ensures SeatOf(s, id) == ServeSeat(c, SeatOf(r, id), env)
  {
    hide ShowActive;
    var p := r.players[id];
    var q := c.questions[p.progress.resolved];
    var a := Active(q, ShuffledOptions(q, env.draws), env.now, QuestionLimit(q.level, c.jenjang));
    ShowActive(c, r.(players := r.players[id := p.(active := Some(a))]), id, env.now)
  }

  // ---------------------------------------------------------------- the events

  ghost function NextQuestion(c: Config, r: Room, id: PlayerId, env: Env): (s: Room)
    requires WellFormed(r)
    ensures WellFormed(s) && OnlyPlayer(r, s, id)
    ensures s.status != r.status ==> AllFinished(c, s.players)
    ensures id !in r.players ==> s == r
    ensures id in r.players ==> SeatOf(s, id) == NextSeat(c, r.status.Running?, SeatOf(r, id), id, env)
  {
    hide SettleExpired, Proceed, Reject, SettleSeat, ServeSeat, WellFormed, AccountOf, AllFinished, OnlyPlayer;
    OnlyMessages(r, r, id);
    if id !in r.players then r
    else if !r.status.Running? then
      var s := Reject(r, id, QNext, NotStarted);
      OnlyMessages(r, s, id);
      s
    else
      var (r1, free) := SettleExpired(c, r, id, env);
      OnlyPlayerKeeps(r, r1, id);
      var s := if !free then Reject(r1, id, QNext, InProgress) else Proceed(c, r1, id, env);
      if !free then OnlyMessages(r1, s, id); OnlyPlayerAddsUp(r, r1, s, id); s
      else OnlyPlayerAddsUp(r, r1, s, id); s
  }

  /** The player is free: serve the next question, if the session goes on and one is left. */
  function Proceed(c: Config, r: Room, id: PlayerId, env: Env): (s: Room)
    requires WellFormed(r) && id in r.players
    ensures WellFormed(s) && OnlyPlayer(r, s, id) && s.status == r.status && (!r.status.Running? ==> s == r)
    ensures SeatOf(s, id) ==
      if r.status.Running? && r.players[id].progress.resolved < |c.questions| then ServeSeat(c, SeatOf(r, id), env)
      else SeatOf(r, id)
  {
    hide Serve, Reject, ServeSeat;
    if !r.status.Running? then r
    else if r.players[id].progress.resolved >= |c.questions| then Reject(r, id, QNext, Finished)
    else Serve(c, r, id, env)
  }

  predicate WasResolved(c: Config, p: Progress, question: QuestionId) {
    exists i :: 0 <= i < Min(p.resolved, |c.questions|) && c.questions[i].id == question
  }

  ghost function SubmitAnswer(c: Config, r: Room, id: PlayerId, question: QuestionId, option: Option<OptionId>,
                              env: Env): (s: Room)
    requires WellFormed(r)
    ensures WellFormed(s) && OnlyPlayer(r, s, id)
    ensures s.status != r.status ==> AllFinished(c, s.players)
    ensures id !in r.players ==> s == r
    ensures id in r.players ==>
      SeatOf(s, id) == SubmitSeat(c, r.status.Running?, SeatOf(r, id), id, question, option, env)
  {
    hide Resolve, Reject, OutcomeOf, ResolveSeat;
    if id !in r.players then r
    else if !r.status.Running? then Reject(r, id, QAnswer, NotStarted)
    else
      var p := r.players[id];
      if p.active.None? || p.active.value.question.id != question then
        Reject(r, id, QAnswer, if WasResolved(c, p.progress, question) then AlreadyAnswered else NotServed)
      else if option.Some? && !HasOption(p.active.value.options, option.value) then Reject(r, id, QAnswer, BadOption)
      else Resolve(c, r, id, OutcomeOf(c, p.progress, p.active.value, option, env.now), true, env).0
  }

  /** A joining player has no progress yet; a known one is left alone. */
  function AddPlayer(r: Room, id: PlayerId, progress: Progress): (s: Room)
    ensures WellFormed(r) ==> WellFormed(s)
  {
    assert forall x :: x in r.order + [id] <==> x in r.order || x == id;
    if id in r.players then r
    else r.(players := r.players[id := Player(progress, None)], order := r.order + [id])
  }

  const NO_PROGRESS := Progress(0, 0, 0, 0, 0)

  function AddPlayerAndNotify(r: Room, id: PlayerId): (s: Room)
    requires WellFormed(r)
    ensures WellFormed(s) && s == AddPlayer(r, id, NO_PROGRESS).(wire := s.wire) && s.wire.Keys == r.wire.Keys
  {
    var r1 := AddPlayer(r, id, NO_PROGRESS);
    if r1.host.Some? then r1.(wire := Tell(r1.wire, {r1.host.value}, Joined(id))) else r1
  }

  function StateMessage(r: Room, p: Progress): Packet {
    RoomState(r.status, p.resolved, p.score, p.streak, r.order)
  }

  datatype AttachError = UnknownPlayer | NotHost

  function Released(r: Room, id: PlayerId): (s: Room)
    requires WellFormed(r)
    ensures WellFormed(s) && s == r.(wire := s.wire, sinks := r.sinks - {id}) && s.wire.Keys == r.wire.Keys
  {
    if id in r.sinks then r.(wire := Tell(r.wire, {r.sinks[id]}, Closed), sinks := r.sinks - {id}) else r
  }

  function TakeSink(r: Room, id: PlayerId, s: SinkId, m: Packet): (t: Room)
    requires WellFormed(r) && id in r.players && id !in r.sinks && s !in r.wire
    ensures WellFormed(t) && t == r.(sinks := t.sinks, wire := t.wire) && t.wire.Keys == r.wire.Keys + {s}
  {
    r.(sinks := r.sinks[id := s], wire := r.wire[s := [m]])
  }

  ghost function AttachPlayer(c: Config, r: Room, id: PlayerId, s: SinkId, env: Env): (t: Room)
    requires WellFormed(r) && s !in r.wire
    ensures WellFormed(t)
    ensures id !in r.players ==> t == r
    ensures id in r.players ==> t.wire.Keys == r.wire.Keys + {s}
    ensures t.status != r.status ==> AllFinished(c, t.players)
    ensures id in r.players ==>
      && OnlyPlayer(r, t.(wire := r.wire, sinks := map[]), id)
      && SeatOf(t, id) == SettleSeat(c, r.status.Running?, SeatOf(r, id), id, env)
  {
    hide WellFormed, SettleUnattached, Welcome, SettleSeat, OnlyPlayer, AccountOf, AllFinished;
    if id !in r.players then r
    else
      var r1 := SettleUnattached(c, r, id, env);
      OnlyPlayerSinks(r, r1, id);
      OnlyPlayerKeeps(r, r1, id);
      var t := Welcome(c, r1, id, s, env.now);
      ConnectionAside(r, r1, t, id);
      t
  }

  /** The previous connection is closed before anything is sent. */
  ghost function SettleUnattached(c: Config, r: Room, id: PlayerId, env: Env): (s: Room)
    requires WellFormed(r) && id in r.players
    ensures WellFormed(s) && OnlyPlayer(r, s, id) && id !in s.sinks
    ensures s.status != r.status ==> AllFinished(c, s.players)
    ensures SeatOf(s, id) == SettleSeat(c, r.status.Running?, SeatOf(r, id), id, env)
  {
    hide WellFormed, SettleExpired, Released, SettleSeat, AllFinished, AccountOf, OnlyPlayer;
    var r1 := Released(r, id);
    OnlyMessages(r, r1, id);
    var s := SettleExpired(c, r1, id, env).0;
    OnlyPlayerAddsUp(r, r1, s, id);
    OnlyPlayerSinks(r1, s, id);
    s
  }

  /** A new connection gets the state and the open question, or learns that the room is over. */
  function Welcome(c: Config, r: Room, id: PlayerId, s: SinkId, now: nat): (t: Room)
    requires WellFormed(r) && id in r.players && id !in r.sinks && s !in r.wire
    ensures WellFormed(t) && t == r.(sinks := t.sinks, wire := t.wire) && t.wire.Keys == r.wire.Keys + {s}
  {
    hide ShowActive, Podium, TakeSink;
    if r.status.Ended? then r.(wire := r.wire[s := [RoomEnded(Podium(r)), Closed]])
    else
      var r1 := TakeSink(r, id, s, StateMessage(r, r.players[id].progress));
      if r1.status.Running? && r1.players[id].active.Some? then ShowActive(c, r1, id, now) else r1
  }

  function AttachHost(r: Room, s: SinkId, isHost: bool): (t: Room)
    requires WellFormed(r) && s !in r.wire
    ensures WellFormed(t) && t == r.(host := t.host, wire := t.wire)
    ensures t.wire.Keys == if isHost then r.wire.Keys + {s} else r.wire.Keys
  {
    if !isHost then r
    else
      var wire := if r.host.Some? then Tell(r.wire, {r.host.value}, Closed) else r.wire;
      r.(host := Some(s), wire := wire[s := [StateMessage(r, NO_PROGRESS)]])
  }

  function Detach(r: Room, s: SinkId): (t: Room)
    requires WellFormed(r)
    ensures WellFormed(t) && t == r.(host := t.host, sinks := t.sinks)
  {
    r.(host := if r.host == Some(s) then None else r.host,
       sinks := map p | p in r.sinks && r.sinks[p] != s :: r.sinks[p])
  }

  function StartSession(r: Room, env: Env): (s: Room)
    requires WellFormed(r)
    ensures WellFormed(s) && s.wire.Keys == r.wire.Keys
    ensures s == r.(status := s.status, tables := s.tables, deadline := s.deadline, wire := s.wire)
    ensures s.tables == r.tables.(status := s.tables.status, startedAt := s.tables.startedAt)
    ensures !r.status.Lobby? ==> s == r
    ensures r.status.Lobby? ==>
      var (tables, started, failed) := MarkRoomStarted(r.tables, env.mark, env.wall);
      && s.tables == tables
      && s.status == (if started && !failed then Running else Lobby)
      && s.deadline == (if started && !failed then Some(env.wall + MAX_ROOM_DURATION) else r.deadline)
  {
    if !r.status.Lobby? then r
    else
      hide Broadcast, WellFormed;
      var (tables, started, failed) := MarkRoomStarted(r.tables, env.mark, env.wall);
      var r1 := r.(tables := tables);
      var r2 := r1.(status := Running, deadline := Some(env.wall + MAX_ROOM_DURATION));
      OtherFieldsDoNotMatter(r, r1);
      OtherFieldsDoNotMatter(r, r2);
      if failed || !started then r1 else Broadcast(r2, RoomStarted)
  }

  lemma RosterWithout(r: Room, id: PlayerId)
    requires WellFormed(r)
    ensures WellFormed(r.(players := r.players - {id}, order := Without(r.order, id), sinks := r.sinks - {id}))
  {
    var order := Without(r.order, id);
    assert Distinct(order) && forall p :: p in order <==> p in r.players - {id};
    assert forall k :: k in (r.sinks - {id}).Values ==> k in r.sinks.Values;
  }

  /** The player is gone from memory and, if Redis answers, from the leaderboard. */
  function Removed(c: Config, r: Room, id: PlayerId, env: Env): (s: Room)
    requires WellFormed(r)
    ensures WellFormed(s)
    ensures s == r.(players := r.players - {id}, order := Without(r.order, id), sinks := r.sinks - {id},
                    board := s.board)
  {
    hide WellFormed;
    var s := r.(players := r.players - {id}, order := Without(r.order, id), sinks := r.sinks - {id});
    RosterWithout(r, id);
    var t := s.(board := if c.hasBoard && env.boardForgets then r.board - {id} else r.board);
    OtherFieldsDoNotMatter(s, t);
    t
  }

  function Farewell(r: Room, s: SinkId): (t: Room)
    requires WellFormed(r) && s in r.wire
    ensures WellFormed(t) && t == r.(wire := t.wire) && t.wire.Keys == r.wire.Keys
  {
    r.(wire := Tell(Tell(r.wire, {s}, Kicked), {s}, Closed))
  }

  ghost function Kick(c: Config, r: Room, id: PlayerId, env: Env): (s: Room)
    requires WellFormed(r)
    ensures WellFormed(s) && s.wire.Keys == r.wire.Keys && s.deadline == r.deadline
    ensures id !in r.players ==> s == r
    ensures id in r.players ==>
      var (tables, deleted) := DeletePlayer(r.tables, id, env.delete);
      && s.tables == tables.(status := s.tables.status)
      && s.players == (if deleted then r.players - {id} else r.players)
    ensures s.status == r.status || (r.status.Running? && s.status.Ended? && AllFinished(c, s.players))
    ensures s.status == r.status ==> s.tables.status == r.tables.status
    ensures s.tables.status == r.tables.status || s.tables.status.Ended?
    ensures SurplusMarks(s) == SurplusMarks(r)
  {
    hide Gone, Deleted, WellFormed;
    if id !in r.players then r
    else
      var (r0, deleted) := Deleted(r, id, env);
      if deleted then Gone(c, r0, id, env) else r0
  }

  function Deleted(r: Room, id: PlayerId, env: Env): (result: (Room, bool))
    requires WellFormed(r)
    ensures WellFormed(result.0) && result.0 == r.(tables := DeletePlayer(r.tables, id, env.delete).0)
    ensures result.1 == DeletePlayer(r.tables, id, env.delete).1
  {
    DeletingKeepsConsistency(r.tables, id, env.delete);
    var (tables, deleted) := DeletePlayer(r.tables, id, env.delete);
    (r.(tables := tables), deleted)
  }

  /** What follows once the database has deleted the player. */
  ghost function Gone(c: Config, r: Room, id: PlayerId, env: Env): (s: Room)
    requires WellFormed(r)
    ensures WellFormed(s) && s.wire.Keys == r.wire.Keys && s.deadline == r.deadline
    ensures s.players == r.players - {id} && s.tables == r.tables.(status := s.tables.status)
    ensures s.status == r.status || (r.status.Running? && s.status.Ended? && AllFinished(c, s.players))
    ensures s.status == r.status ==> s.tables.status == r.tables.status
    ensures s.tables.status == r.tables.status || s.tables.status.Ended?
    ensures SurplusMarks(s) == SurplusMarks(r)
  {
    hide Removed, Farewell, MarkLeaderboardDirty, EndIfAllFinished, WellFormed;
    var r1 := Removed(c, r, id, env);
    SinksAreOpen(r);
    var r2 := if id in r.sinks then Farewell(r1, r.sinks[id]) else r1;
    EndIfAllFinished(c, MarkLeaderboardDirty(c, r2, env), env)
  }

  lemma SinksAreOpen(r: Room)
    requires WellFormed(r)
    ensures forall p :: p in r.sinks ==> r.sinks[p] in r.wire
  {
  }
}
