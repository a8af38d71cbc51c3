/** Hard bounds on what any run can reach, and runs that reach them. */
module Bounds {
  import opened Common
  import opened Scoring
  import opened Rank
  import opened Questions
  import opened Database
  import opened RoomSpec
  import opened World
  import opened Persistence

  // ---------------------------------------------------------------- the caps

  /** Every base point and every streak bonus of the first k questions. */
  function BaseCap(c: Config, k: nat): nat
    requires k <= |c.questions|
  {
    if k == 0 then 0 else BaseCap(c, k - 1) + BasePoints(c.questions[k - 1].level)
  }

  function BonusCap(k: nat): nat {
    if k == 0 then 0 else BonusCap(k - 1) + StreakBonus(k - 1)
  }

  function ScoreCap(c: Config, k: nat): nat
    requires k <= |c.questions|
  {
    BaseCap(c, k) + BonusCap(k)
  }

  /** The full limits of the first k questions. */
  function TimeCap(c: Config, k: nat): nat
    requires k <= |c.questions|
  {
    if k == 0 then 0 else TimeCap(c, k - 1) + Milliseconds(Limit(c, c.questions[k - 1]))
  }

  ghost predicate Capped(c: Config, p: Progress) {
    && p.resolved <= |c.questions|
    && 0 <= p.score <= ScoreCap(c, p.resolved)
    && 0 <= p.correct <= p.resolved && 0 <= p.streak <= p.resolved
    && 0 <= p.totalMs <= TimeCap(c, p.resolved)
  }

  lemma {:induction false} CapsAreSmall(c: Config, k: nat)
    requires k <= |c.questions|
    ensures ScoreCap(c, k) <= 1250 * k && TimeCap(c, k) <= 31250 * k
  {
    if k > 0 {
      CapsAreSmall(c, k - 1);
      LimitsAreWholeMilliseconds(c.questions[k - 1].level, c.jenjang);
    }
  }

  // ---------------------------------------------------------------- every run stays under the caps

  lemma AdvanceStaysCapped(c: Config, p: Player, out: Outcome, clock: nat)
    requires Playable(c) && ActiveFits(c, p, clock) && p.active.Some? && Capped(c, p.progress)
    requires HonestOutcome(c, p.progress, p.active.value, out)
    ensures Capped(c, Advance(p.progress, out))
  {
    hide Honest, SpentMs, Playable, BasePoints;
    HonestIsBounded(c, p.active.value.question, p.progress.streak, AnswerOf(p.active.value, out));
  }

  lemma ResolveStaysCapped(c: Config, seat: Seat, id: PlayerId, out: Outcome, env: Env, clock: nat)
    requires Playable(c) && ActiveFits(c, seat.player, clock) && seat.player.active.Some?
    requires Capped(c, seat.player.progress)
    requires HonestOutcome(c, seat.player.progress, seat.player.active.value, out)
    ensures Capped(c, ResolveSeat(c, seat, id, out, env).player.progress)
  {
    hide Capped, Playable, HonestOutcome, Advance, SaveOutcome;
    AdvanceStaysCapped(c, seat.player, out, clock);
  }

  lemma PlayStaysCapped(c: Config, running: bool, seat: Seat, id: PlayerId, i: Input, clock: nat)
    requires Playable(c) && ActiveFits(c, seat.player, clock) && clock <= i.env.now && Capped(c, seat.player.progress)
    ensures Capped(c, PlaySeat(c, running, seat, id, i).player.progress)
  {
    hide Capped, ResolveSeat, Playable, HonestOutcome, OutcomeOf, TimeoutOutcome;
    var p := seat.player;
    if p.active.Some? {
      OutcomesAreHonest(c, p, None, clock, i.env.now);
      ResolveStaysCapped(c, seat, id, TimeoutOutcome(p.active.value), i.env, clock);
      if i.event.Submit? && (i.event.option.Some? ==> HasOption(p.active.value.options, i.event.option.value)) {
        OutcomesAreHonest(c, p, i.event.option, clock, i.env.now);
        ResolveStaysCapped(c, seat, id, OutcomeOf(c, p.progress, p.active.value, i.event.option, i.env.now), i.env,
                           clock);
      }
    }
  }

  lemma {:induction false} ReplayIsCapped(c: Config, answers: map<QuestionId, Answer>, k: nat)
    requires Playable(c) && AnswersFirst(c, answers, k) && AllHonest(c, answers, k)
    ensures Capped(c, Replay(c, answers, k)) && Replay(c, answers, k).resolved == k
  {
    hide Honest, SpentMs, AllHonest, BasePoints, Limit;
    if k > 0 {
      LastIsHonest(c, answers, k);
      ReplayIsCapped(c, answers, k - 1);
      HonestIsBounded(c, c.questions[k - 1], Replay(c, answers, k - 1).streak, answers[c.questions[k - 1].id]);
    }
  }

  ghost predicate CappedFor(c: Config, w: World, id: PlayerId) {
    id in w.room.players ==> Capped(c, w.room.players[id].progress)
  }

  lemma StepStaysCapped(c: Config, w: World, i: Input, id: PlayerId)
    requires Playable(c) && Sound(w) && AgreesFor(c, w, id) && CappedFor(c, w, id)
    ensures CappedFor(c, Step(c, w, i), id)
  {
    hide Capped, Replayed, RoomAfter, Loaded, PlaySeat, WellFormed, Playable, CloseAll;
    if Enabled(w, i) {
      if i.event.Load? {
        LoadReloads(c, w.room, i.env, id);
        var account := AccountOf(w.room.tables, id);
        if account.Some? { StoredIsCapped(c, account.value); }
      } else if IsRoomEvent(i.event) {
        SeatsActSeparately(c, w, i, id);
        if id in w.room.players {
          PlayStaysCapped(c, w.room.status.Running?, SeatOf(w.room, id), id, i, w.clock);
        }
        NewcomersAreCapped(c);
      }
    }
  }

  lemma NewcomersAreCapped(c: Config)
    ensures Capped(c, NO_PROGRESS)
  {
  }

  lemma StoredIsCapped(c: Config, acc: Account)
    requires Playable(c) && Replayed(c, acc)
    ensures Capped(c, ProgressOf(acc.row))
  {
    hide Capped, Replay, AllHonest;
    ReplayIsCapped(c, acc.answers, acc.row.index);
  }

  /** In every run, no player's score, correct count or time ever exceeds the caps of the questions resolved. */
  lemma {:induction false} RunsStayCapped(c: Config, inputs: seq<Input>, id: PlayerId)
    requires Playable(c)
    ensures CappedFor(c, Run(c, CREATED, inputs), id)
  {
    hide CappedFor, AgreesFor, Step, Playable;
    if inputs == [] {
      NobodyIsCreated(c, id);
    } else {
      var init := inputs[..|inputs| - 1];
      RunsStayCapped(c, init, id);
      RunsKeepAgreement(c, init, id);
      StepStaysCapped(c, Run(c, CREATED, init), inputs[|inputs| - 1], id);
    }
  }

  lemma NobodyIsCreated(c: Config, id: PlayerId)
    ensures CappedFor(c, CREATED, id)
  {
  }

  // ---------------------------------------------------------------- consequences for ranking

  lemma CappedIsBounded(c: Config, id: PlayerId, p: Progress)
    requires Playable(c) && Capped(c, p)
    ensures StandingOf(id, p).Bounded()
  {
    CapsAreSmall(c, p.resolved);
  }

  /**
   * In every reachable state, the final standings included, total_ms is at most 468750, fewer than 100 answers are
   * correct, and keys are exact in a float64.
   */
  lemma StandingsAreBounded(c: Config, inputs: seq<Input>)
    requires Playable(c)
    ensures var r := Run(c, CREATED, inputs).room;
      forall x :: x in Standings(r.players, r.order) ==>
        x.Bounded() && x.totalMs <= 468750 && x.correct < 100 && 0 <= x.Key() < FLOAT_EXACT
  {
    hide Run, Playable, Capped;
    var r := Run(c, CREATED, inputs).room;
    var s := Standings(r.players, r.order);
    forall x | x in s ensures x.Bounded() && x.totalMs <= 468750 && x.correct < 100 && 0 <= x.Key() < FLOAT_EXACT {
      var i :| 0 <= i < |s| && s[i] == x;
      assert r.order[i] in r.order;
      RunsStayCapped(c, inputs, r.order[i]);
      CappedIsBounded(c, r.order[i], r.players[r.order[i]].progress);
      KeyFoldsTheCriteria(x, x);
    }
  }

  ghost predicate ComesBefore(order: seq<PlayerId>, p: PlayerId, q: PlayerId) {
    exists a, b :: 0 <= a < b < |order| && order[a] == p && order[b] == q
  }

  /**
   * So in every room, live or over, whoever stands earlier is better by the three criteria, or ties in all of them
   * and comes earlier in the order of the room.
   */
  lemma OrderIsByTheCriteria(c: Config, inputs: seq<Input>, i: nat, j: nat)
    requires Playable(c) && i < j < |Run(c, CREATED, inputs).room.order|
    ensures var r := Run(c, CREATED, inputs).room;
      var t := Sorted(Standings(r.players, r.order));
      t[i].Better(t[j]) || (t[i].Ties(t[j]) && ComesBefore(r.order, t[i].player, t[j].player))
  {
    hide Run, Playable, Sorted;
    var r := Run(c, CREATED, inputs).room;
    var s := Standings(r.players, r.order);
    StandingsAreBounded(c, inputs);
    SortedByCriteria(s, i, j);
    if !Sorted(s)[i].Better(Sorted(s)[j]) {
      var a, b := TiesKeepTheirOrder(s, i, j);
      assert r.order[a] == Sorted(s)[i].player && r.order[b] == Sorted(s)[j].player;
    }
  }

  // ---------------------------------------------------------------- the order SQL gives to the rows

  function RowStanding(t: Tables, p: PlayerId): Standing
    requires p in t.rows
  {
    Standing(p, t.rows[p].score, t.rows[p].correct, t.rows[p].totalMs)
  }

  /** RANK() OVER (ORDER BY score DESC, correct_count DESC, total_ms ASC) of a row of room_players. */
  function RowRank(t: Tables, p: PlayerId): nat
    requires p in t.rows
  {
    1 + |set q | q in t.rows && RowStanding(t, q).Better(RowStanding(t, p))|
  }

  /** Memory and rows name the same players with the same totals: no join is under way, no acknowledgement was lost. */
  ghost predicate AllInStep(r: Room) {
    && r.players.Keys == r.tables.rows.Keys
    && forall p :: p in r.players ==> StandingOf(p, r.players[p].progress) == RowStanding(r.tables, p)
  }

  lemma {:induction false} BetterPlayers(players: map<PlayerId, Player>, order: seq<PlayerId>, x: Standing)
    requires Distinct(order) && forall p :: p in order ==> p in players
    ensures BetterCount(Standings(players, order), x)
         == |set p | p in order && StandingOf(p, players[p].progress).Better(x)|
  {
    var better := set p | p in order && StandingOf(p, players[p].progress).Better(x);
    if order == [] {
      assert better == {};
    } else {
      var init, last := order[..|order| - 1], order[|order| - 1];
      var before := set p | p in init && StandingOf(p, players[p].progress).Better(x);
      assert order == init + [last] && last !in before;
      BetterPlayers(players, init, x);
      assert Standings(players, order)[..|order| - 1] == Standings(players, init);
      assert better == before + if StandingOf(last, players[last].progress).Better(x) then {last} else {};
    }
  }

  lemma RowRankIsSqlRank(r: Room, p: PlayerId)
    requires WellFormed(r) && AllInStep(r) && p in r.players
    ensures RowRank(r.tables, p) == SqlRank(Standings(r.players, r.order), RowStanding(r.tables, p))
  {
    var x := RowStanding(r.tables, p);
    BetterPlayers(r.players, r.order, x);
    assert (set q | q in r.order && StandingOf(q, r.players[q].progress).Better(x))
        == (set q | q in r.tables.rows && RowStanding(r.tables, q).Better(x));
  }

  lemma SortedIsFromRows(r: Room, k: nat)
    requires WellFormed(r) && AllInStep(r) && k < |r.order|
    ensures var x := Sorted(Standings(r.players, r.order))[k];
      x.player in r.players && x.player in r.tables.rows && x == RowStanding(r.tables, x.player)
  {
    var s := Standings(r.players, r.order);
    SortedMembers(s);
    assert Sorted(s)[k] in s;
    hide Sorted;
    var m :| 0 <= m < |s| && s[m] == Sorted(s)[k];
    assert r.order[m] in r.players;
  }

  /** RANK over the rows splits the order of memory. */
  ghost predicate SplitByRank(r: Room, i: nat, j: nat)
    requires WellFormed(r) && i < |r.order| && j < |r.order|
  {
    var ids := Order(Standings(r.players, r.order));
    && ids[i] in r.tables.rows && ids[j] in r.tables.rows
    && (i < RowRank(r.tables, ids[j]) - 1 <==> RowStanding(r.tables, ids[i]).Better(RowStanding(r.tables, ids[j])))
  }

  lemma OrderIsSplitByRank(r: Room, i: nat, j: nat)
    requires WellFormed(r) && AllInStep(r) && i < |r.order| && j < |r.order|
    requires forall x :: x in Standings(r.players, r.order) ==> x.Bounded()
    ensures SplitByRank(r, i, j)
  {
    hide AllInStep, Sorted, SqlRank, RowRank;
    SqlRankSplitsTheOrder(Standings(r.players, r.order), i, j);
    SortedIsFromRows(r, i);
    SortedIsFromRows(r, j);
    RowRankIsSqlRank(r, Sorted(Standings(r.players, r.order))[j].player);
  }

  /**
   * While memory and rows agree, RANK over the rows splits the order of memory: before the position it gives to a
   * player stand exactly the players with better rows. So the first of each tied group stands at its rank.
   */
  lemma OrderIsSqlRank(c: Config, inputs: seq<Input>, i: nat, j: nat)
    requires Playable(c) && AllInStep(Run(c, CREATED, inputs).room)
    requires i < |Run(c, CREATED, inputs).room.order| && j < |Run(c, CREATED, inputs).room.order|
    ensures SplitByRank(Run(c, CREATED, inputs).room, i, j)
  {
    hide Run, Playable, AllInStep, SplitByRank;
    StandingsAreBounded(c, inputs);
    OrderIsSplitByRank(Run(c, CREATED, inputs).room, i, j);
  }
}
