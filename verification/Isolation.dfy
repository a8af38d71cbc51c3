/** Player isolation: other players' events and the shared shuffle never reach a player's own game. */
module Isolation {
  import opened Common
  import opened Questions
  import opened Shuffling
  import opened Scoring
  import opened Database
  import opened RoomSpec
  import opened World
  import opened Persistence

  // ---------------------------------------------------------------- seats equal up to option order

  ghost predicate SameActive(a: Active, b: Active) {
    b == a.(options := b.options) && multiset(b.options) == multiset(a.options)
  }

  ghost predicate SamePlayer(p: Player, q: Player) {
    && q.progress == p.progress
    && (p.active.Some? <==> q.active.Some?)
    && (p.active.Some? ==> SameActive(p.active.value, q.active.value))
  }

  ghost predicate SameSeat(a: Seat, b: Seat) {
    SamePlayer(a.player, b.player) && a.account == b.account
  }

  /** The same event under the same circumstances, but with its own draws from the random source. */
  predicate SameButDraws(i: Input, j: Input) {
    j == i.(env := i.env.(draws := j.env.draws))
  }

  lemma SameOptionsGradeAlike(c: Config, p: Player, q: Player, clock: nat, option: OptionId)
    requires Playable(c) && ActiveFits(c, p, clock) && SamePlayer(p, q) && p.active.Some?
    ensures HasOption(p.active.value.options, option) <==> HasOption(q.active.value.options, option)
    ensures IsCorrect(p.active.value.options, option) <==> IsCorrect(q.active.value.options, option)
  {
    var question := p.active.value.question;
    GradingIgnoresOrder(question.options, p.active.value.options, option);
    GradingIgnoresOrder(question.options, q.active.value.options, option);
  }

  lemma ResolveAlike(c: Config, a: Seat, b: Seat, id: PlayerId, out: Outcome, i: Env, j: Env)
    requires SameSeat(a, b) && a.player.active.Some? && j == i.(draws := j.draws)
    ensures SameSeat(ResolveSeat(c, a, id, out, i), ResolveSeat(c, b, id, out, j))
  {
    hide SaveToAccount, Advance;
  }

  lemma SettleAlike(c: Config, running: bool, a: Seat, b: Seat, id: PlayerId, i: Env, j: Env)
    requires SameSeat(a, b) && j == i.(draws := j.draws)
    ensures SameSeat(SettleSeat(c, running, a, id, i), SettleSeat(c, running, b, id, j))
  {
    hide ResolveSeat;
    if a.player.active.Some? { ResolveAlike(c, a, b, id, TimeoutOutcome(a.player.active.value), i, j); }
  }

  lemma ServeAlike(c: Config, a: Seat, b: Seat, i: Env, j: Env)
    requires SameSeat(a, b) && j == i.(draws := j.draws) && a.player.progress.resolved < |c.questions|
    ensures SameSeat(ServeSeat(c, a, i), ServeSeat(c, b, j))
  {
    hide QuestionLimit;
    var q := c.questions[a.player.progress.resolved];
    ShuffledIsPermutation(q.options, i.draws);
    ShuffledIsPermutation(q.options, j.draws);
  }

  lemma SubmitAlike(c: Config, running: bool, a: Seat, b: Seat, id: PlayerId, question: QuestionId,
                    option: Option<OptionId>,
                    i: Env, j: Env, clock: nat)
    requires Playable(c) && ActiveFits(c, a.player, clock) && SameSeat(a, b) && j == i.(draws := j.draws)
    ensures SameSeat(SubmitSeat(c, running, a, id, question, option, i),
                     SubmitSeat(c, running, b, id, question, option, j))
  {
    hide ResolveSeat, Playable, Score;
    if a.player.active.Some? {
      if option.Some? { SameOptionsGradeAlike(c, a.player, b.player, clock, option.value); }
      ResolveAlike(c, a, b, id, OutcomeOf(c, a.player.progress, a.player.active.value, option, i.now), i, j);
    }
  }

  lemma PlayAlike(c: Config, running: bool, a: Seat, b: Seat, id: PlayerId, i: Input, j: Input, clock: nat)
    requires Playable(c) && ActiveFits(c, a.player, clock) && SameSeat(a, b) && SameButDraws(i, j)
    ensures SameSeat(PlaySeat(c, running, a, id, i), PlaySeat(c, running, b, id, j))
  {
    hide SettleSeat, ServeSeat, SubmitSeat, Playable, ActiveFits;
    SettleAlike(c, running, a, b, id, i.env, j.env);
    match i.event
    case Next(p) =>
      var s, t := SettleSeat(c, running, a, id, i.env), SettleSeat(c, running, b, id, j.env);
      if s.player.progress.resolved < |c.questions| { ServeAlike(c, s, t, i.env, j.env); }
    case Submit(p, question, option) => SubmitAlike(c, running, a, b, id, question, option, i.env, j.env, clock);
    case _ =>
  }

  ghost predicate Done(c: Config, p: Player) {
    p.active.None? && p.progress.resolved >= |c.questions|
  }

  /** Who has answered everything only loses an account, and only by being kicked. */
  lemma DoneStaysDone(c: Config, running: bool, a: Seat, id: PlayerId, i: Input)
    requires Done(c, a.player)
    ensures var s := PlaySeat(c, running, a, id, i);
      && s.player == a.player
      && s.account == if i.event == KickEvent(id) && !i.env.delete.Refused? then None else a.account
  {
  }

  // ---------------------------------------------------------------- projections

  /** The player's own events, and the ones that concern the whole session or the process. */
  predicate Concerns(id: PlayerId, e: Event) {
    match e
    case Next(p) => p == id
    case Submit(p, _, _) => p == id
    case AttachPlayerEvent(p, _) => p == id
    case KickEvent(p) => p == id
    case Start => true
    case EndByHost => true
    case DeadlineFires => true
    case Crash => true
    case Shutdown => true
    case Load => true
    case _ => false
  }

  /** own keeps exactly the events that concern the player, each perhaps with other draws. */
  ghost predicate Projection(id: PlayerId, inputs: seq<Input>, own: seq<Input>) {
    if inputs == [] then own == []
    else
      var init, last := inputs[..|inputs| - 1], inputs[|inputs| - 1];
      if Concerns(id, last.event)
      then own != [] && SameButDraws(last, own[|own| - 1]) && Projection(id, init, own[..|own| - 1])
      else Projection(id, init, own)
  }

  /** Every input happens. */
  ghost predicate AllHappen(c: Config, w: World, inputs: seq<Input>)
    requires Sound(w)
  {
    if inputs == [] then true
    else
      var init, last := inputs[..|inputs| - 1], inputs[|inputs| - 1];
      AllHappen(c, w, init) && Enabled(Run(c, w, init), last)
  }

  // ---------------------------------------------------------------- the simulation

  ghost predicate SameSession(v: World, w: World) {
    && w.room.status == v.room.status && w.room.deadline == v.room.deadline
    && w.room.tables.status == v.room.tables.status && w.room.tables.startedAt == v.room.tables.startedAt
    && w.live == v.live && (v.live ==> !v.room.status.Ended?)
  }

  /** If there is a row, it says what memory says. */
  ghost predicate Stored(seat: Seat) {
    seat.account.Some? ==>
      seat.account.value.row.index >= 0 && ProgressOf(seat.account.value.row) == seat.player.progress
  }

  /** A player who is through with all questions, and stored so, wherever there still is a row. */
  ghost predicate Through(c: Config, a: Seat, b: Seat) {
    && Done(c, a.player) && b.player == a.player && Stored(a) && Stored(b)
    && (a.account.Some? ==> b.account.Some?)
  }

  /** Either the same session and seat, or a player who is through. */
  ghost predicate SameGame(c: Config, v: World, w: World, id: PlayerId)
    requires id in v.room.players && id in w.room.players
  {
    || (SameSession(v, w) && SameSeat(SeatOf(v.room, id), SeatOf(w.room, id)))
    || Through(c, SeatOf(v.room, id), SeatOf(w.room, id))
  }

  /** In the room, or to be found there again after the next load. */
  ghost predicate Present(w: World, id: PlayerId) {
    id in w.room.players && (w.live || AccountOf(w.room.tables, id).Some?)
  }

  /** v runs everything, w only what concerns the player, whose game is the same in both. */
  ghost predicate Mirrors(c: Config, v: World, w: World, id: PlayerId) {
    && Sound(v) && Sound(w) && AgreesFor(c, v, id)
    && w.clock <= v.clock && w.wall <= v.wall
    && id !in v.pending && id in v.issued && id !in w.pending
    && (id !in v.room.players ==> AccountOf(v.room.tables, id).None?)
    && (Present(v, id) ==> id in w.room.players && w.room.wire.Keys <= v.room.wire.Keys && SameGame(c, v, w, id))
  }

  /** A seat that the step leaves in place still agrees with the tables. */
  lemma SeatAfter(c: Config, v: World, i: Input, id: PlayerId)
    requires Playable(c) && Sound(v) && AgreesFor(c, v, id) && IsRoomEvent(i.event) && Enabled(v, i)
    requires id in v.room.players && id in RoomAfter(c, v, i).players
    ensures ActiveFits(c, v.room.players[id], v.clock)
    ensures SeatAgrees(c, SeatOf(RoomAfter(c, v, i), id), i.env.now)
  {
    hide RoomAfter, Replayed, PlaySeat, Playable, WellFormed, EventEnabled;
    SeatsActSeparately(c, v, i, id);
    PlayKeepsAgreement(c, v.room.status.Running?, SeatOf(v.room, id), id, i, v.clock);
  }

  /** A finished seat in agreement is stored; if another one looks the same, the player is through in both. */
  lemma FinishedIsThrough(c: Config, a: Seat, b: Seat, clock: nat)
    requires SeatAgrees(c, a, clock) && SameSeat(a, b) && a.player.progress.resolved >= |c.questions|
    ensures Through(c, a, b)
  {
    hide Replayed;
  }

  lemma SessionEventsAlike(c: Config, v: World, w: World, i: Input, j: Input)
    requires WellFormed(v.room) && WellFormed(w.room) && Enabled(v, i) && Enabled(w, j)
    requires SessionEvent(i.event) && SameButDraws(i, j) && SameSession(v, w)
    ensures var s, t := RoomAfter(c, v, i), RoomAfter(c, w, j);
      && s.status == t.status && s.deadline == t.deadline
      && s.tables.status == t.tables.status && s.tables.startedAt == t.tables.startedAt
  {
    hide StartSession, EndSession, WellFormed, EventEnabled;
    match i.event
    case Start =>
    case EndByHost =>
    case DeadlineFires =>
  }

  // ---------------------------------------------------------------- what others do

  /** The player's game after a room event of somebody else. */
  lemma OtherRoomEvents(c: Config, v: World, w: World, id: PlayerId, i: Input)
    requires Playable(c) && Sound(v) && AgreesFor(c, v, id) && IsRoomEvent(i.event) && Enabled(v, i)
    requires !Concerns(id, i.event) && id !in v.pending
    requires id in v.room.players ==> id in w.room.players && SameGame(c, v, w, id)
    ensures var s := RoomAfter(c, v, i);
      && v.room.wire.Keys <= s.wire.Keys
      && (id in s.players ==> id in v.room.players && SameGame(c, Step(c, v, i), w, id))
  {
    hide RoomAfter, AgreesFor, SettleSeat, NextSeat, SubmitSeat, Playable, WellFormed, Replayed, Step, SameSeat,
         Through, EventEnabled;
    RoomStep(c, v, i);
    SeatsActSeparately(c, v, i, id);
    SessionAndWire(c, v, i);
    if i.event.AddJoined? { PendingIsAdded(v, i); }
    var s := RoomAfter(c, v, i);
    if id in s.players {
      assert SeatOf(s, id) == SeatOf(v.room, id);
      if s.status != v.room.status && !Through(c, SeatOf(v.room, id), SeatOf(w.room, id)) {
        SeatAfter(c, v, i, id);
        FinishedIsThrough(c, SeatOf(s, id), SeatOf(w.room, id), i.env.now);
      }
    }
  }

  lemma JoinsDoNotMatter(c: Config, v: World, w: World, id: PlayerId, i: Input)
    requires Mirrors(c, v, w, id) && Enabled(v, i) && (i.event.Join? || i.event.LoseJoined?)
    requires AgreesFor(c, Step(c, v, i), id)
    ensures Mirrors(c, Step(c, v, i), w, id)
  {
    hide AgreesFor, WellFormed, SameSeat, Through;
  }

  lemma RoomEventsDoNotMatter(c: Config, v: World, w: World, id: PlayerId, i: Input)
    requires Playable(c) && Mirrors(c, v, w, id) && Enabled(v, i) && !Concerns(id, i.event) && IsRoomEvent(i.event)
    requires AgreesFor(c, Step(c, v, i), id)
    ensures Mirrors(c, Step(c, v, i), w, id)
  {
    hide RoomAfter, AgreesFor, Playable, WellFormed, SameGame, Step, EventEnabled, Concerns, AccountOf, PlaySeat;
    RoomStep(c, v, i);
    SeatsActSeparately(c, v, i, id);
    OtherRoomEvents(c, v, w, id, i);
  }

  /** What others do leaves the mirror intact. */
  lemma OthersDoNotMatter(c: Config, v: World, w: World, id: PlayerId, i: Input)
    requires Playable(c) && Mirrors(c, v, w, id) && Enabled(v, i) && !Concerns(id, i.event)
    ensures Mirrors(c, Step(c, v, i), w, id)
  {
    hide Mirrors, Playable, Step, Enabled;
    MirrorsAgree(c, v, w, id);
    StepKeepsAgreement(c, v, i, id);
    if IsRoomEvent(i.event) { RoomEventsDoNotMatter(c, v, w, id, i); } else { JoinsDoNotMatter(c, v, w, id, i); }
  }

  lemma MirrorsAgree(c: Config, v: World, w: World, id: PlayerId)
    requires Mirrors(c, v, w, id)
    ensures Sound(v) && Sound(w) && AgreesFor(c, v, id)
  {
  }

  // ---------------------------------------------------------------- what concerns the player

  lemma OwnSeatsMatch(c: Config, v: World, w: World, id: PlayerId, i: Input, j: Input)
    requires Playable(c) && Sound(v) && Sound(w) && AgreesFor(c, v, id) && SameButDraws(i, j)
    requires IsRoomEvent(i.event) && Enabled(v, i) && Enabled(w, j) && v.room.status == w.room.status
    requires id in v.room.players && id in RoomAfter(c, v, i).players && id in w.room.players
    requires SameSeat(SeatOf(v.room, id), SeatOf(w.room, id))
    ensures id in RoomAfter(c, w, j).players
    ensures SameSeat(SeatOf(RoomAfter(c, v, i), id), SeatOf(RoomAfter(c, w, j), id))
  {
    hide RoomAfter, Replayed, PlaySeat, Playable, WellFormed, SameSeat, EventEnabled, AgreesFor, SeatAgrees, ActiveFits;
    SeatAfter(c, v, i, id);
    SeatsActSeparately(c, v, i, id);
    SeatsActSeparately(c, w, j, id);
    PlayAlike(c, v.room.status.Running?, SeatOf(v.room, id), SeatOf(w.room, id), id, i, j, v.clock);
  }

  /** Both rooms run the event, from the same session. */
  lemma OwnEventsMatch(c: Config, v: World, w: World, id: PlayerId, i: Input, j: Input)
    requires Playable(c) && Sound(v) && Sound(w) && AgreesFor(c, v, id) && Concerns(id, i.event) && SameButDraws(i, j)
    requires IsRoomEvent(i.event) && Enabled(v, i) && Enabled(w, j)
    requires id in v.room.players && id in w.room.players && id in RoomAfter(c, v, i).players
    requires SameSession(v, w) && SameSeat(SeatOf(v.room, id), SeatOf(w.room, id))
    ensures id in RoomAfter(c, w, j).players && SameGame(c, Step(c, v, i), Step(c, w, j), id)
  {
    hide RoomAfter, AgreesFor, Playable, WellFormed, EventEnabled, Step, SameSeat, Through, SeatAgrees, AllFinished;
    OwnSeatsMatch(c, v, w, id, i, j);
    SessionAndWire(c, v, i);
    SessionAndWire(c, w, j);
    RoomStep(c, v, i);
    RoomStep(c, w, j);
    if SessionEvent(i.event) {
      SessionEventsAlike(c, v, w, i, j);
    } else if RoomAfter(c, v, i).status != v.room.status || RoomAfter(c, w, j).status != w.room.status {
      BothFinished(c, v, w, id, i, j);
    }
  }

  /** The session ended in one of them because all had finished, this player too. */
  lemma BothFinished(c: Config, v: World, w: World, id: PlayerId, i: Input, j: Input)
    requires Playable(c) && Sound(v) && Sound(w) && AgreesFor(c, v, id) && IsRoomEvent(i.event) && IsRoomEvent(j.event)
    requires Enabled(v, i) && Enabled(w, j)
    requires var s, t := RoomAfter(c, v, i), RoomAfter(c, w, j);
      && id in v.room.players && id in s.players && id in t.players && SameSeat(SeatOf(s, id), SeatOf(t, id))
      && (AllFinished(c, s.players) || AllFinished(c, t.players))
    ensures Through(c, SeatOf(RoomAfter(c, v, i), id), SeatOf(RoomAfter(c, w, j), id))
  {
    hide RoomAfter, AgreesFor, Playable, WellFormed, EventEnabled;
    SeatAfter(c, v, i, id);
    FinishedIsThrough(c, SeatOf(RoomAfter(c, v, i), id), SeatOf(RoomAfter(c, w, j), id), i.env.now);
  }

  /** The mirror of a player who is already through. */
  lemma ThroughStaysThrough(c: Config, v: World, w: World, id: PlayerId, i: Input, j: Input)
    requires Sound(v) && Sound(w) && IsRoomEvent(i.event) && Enabled(v, i) && SameButDraws(i, j)
    requires id in v.room.players && id in w.room.players && Through(c, SeatOf(v.room, id), SeatOf(w.room, id))
    requires id in RoomAfter(c, v, i).players
    ensures id in Step(c, w, j).room.players
    ensures Through(c, SeatOf(RoomAfter(c, v, i), id), SeatOf(Step(c, w, j).room, id))
  {
    hide RoomAfter, PlaySeat, WellFormed, EventEnabled, Step;
    SeatsActSeparately(c, v, i, id);
    DoneStaysDone(c, v.room.status.Running?, SeatOf(v.room, id), id, i);
    if Enabled(w, j) {
      RoomStep(c, w, j);
      SeatsActSeparately(c, w, j, id);
      DoneStaysDone(c, w.room.status.Running?, SeatOf(w.room, id), id, j);
    } else {
      NothingHappens(c, w, j);
    }
  }

  lemma OwnIsEnabled(c: Config, v: World, w: World, id: PlayerId, i: Input, j: Input)
    requires SameSession(v, w) && w.room.wire.Keys <= v.room.wire.Keys && w.clock <= v.clock && w.wall <= v.wall
    requires id !in w.pending && Concerns(id, i.event) && SameButDraws(i, j) && Enabled(v, i)
    ensures Enabled(w, j)
  {
  }

  /** The game after a room event of the player's own, or of the session. */
  lemma OwnRoomEvents(c: Config, v: World, w: World, id: PlayerId, i: Input, j: Input)
    requires Playable(c) && Mirrors(c, v, w, id) && Concerns(id, i.event) && SameButDraws(i, j) && Enabled(v, i)
    requires IsRoomEvent(i.event)
    requires id in RoomAfter(c, v, i).players
    ensures id in v.room.players && id in Step(c, w, j).room.players && SameGame(c, Step(c, v, i), Step(c, w, j), id)
  {
    hide RoomAfter, AgreesFor, PlaySeat, Playable, WellFormed, Replayed, SameSeat, SameSession, Through, Step,
         EventEnabled;
    SeatsActSeparately(c, v, i, id);
    RoomStep(c, v, i);
    if Through(c, SeatOf(v.room, id), SeatOf(w.room, id)) {
      ThroughStaysThrough(c, v, w, id, i, j);
    } else {
      OwnIsEnabled(c, v, w, id, i, j);
      SameStatus(v, w);
      RoomStep(c, w, j);
      OwnEventsMatch(c, v, w, id, i, j);
    }
  }

  lemma SameStatus(v: World, w: World)
    requires SameSession(v, w)
    ensures w.room.status == v.room.status && w.live == v.live
  {
  }

  /** The connections of the own run stay among those of the whole run. */
  lemma OwnConnections(c: Config, v: World, w: World, id: PlayerId, i: Input, j: Input)
    requires Sound(v) && Sound(w) && SameButDraws(i, j) && Enabled(v, i) && IsRoomEvent(i.event)
    requires Concerns(id, i.event)
    requires id in v.room.players && w.room.wire.Keys <= v.room.wire.Keys
    ensures Step(c, w, j).room.wire.Keys <= Step(c, v, i).room.wire.Keys
  {
    hide RoomAfter, WellFormed, Step, EventEnabled;
    RoomStep(c, v, i);
    SessionAndWire(c, v, i);
    if Enabled(w, j) {
      RoomStep(c, w, j);
      SessionAndWire(c, w, j);
    } else {
      NothingHappens(c, w, j);
    }
  }

  lemma OwnRoomEventsMirror(c: Config, v: World, w: World, id: PlayerId, i: Input, j: Input)
    requires Playable(c) && Mirrors(c, v, w, id) && Concerns(id, i.event) && SameButDraws(i, j) && Enabled(v, i)
    requires IsRoomEvent(i.event)
    requires AgreesFor(c, Step(c, v, i), id)
    ensures Mirrors(c, Step(c, v, i), Step(c, w, j), id)
  {
    hide RoomAfter, AgreesFor, Playable, WellFormed, SameGame, Step, EventEnabled, AccountOf;
    RoomStep(c, v, i);
    SeatsActSeparately(c, v, i, id);
    StepsKeepBooks(c, w, j);
    if id in RoomAfter(c, v, i).players {
      OwnRoomEvents(c, v, w, id, i, j);
      OwnConnections(c, v, w, id, i, j);
    }
  }

  /** Clocks and pending joins of a step that is not a join. */
  lemma StepsKeepBooks(c: Config, w: World, i: Input)
    requires Sound(w) && !i.event.Join?
    ensures var v := Step(c, w, i);
      && v.pending <= w.pending && v.issued == w.issued
      && v.clock == (if Enabled(w, i) then i.env.now else w.clock)
      && v.wall == (if Enabled(w, i) then i.env.wall else w.wall)
  {
    hide RoomAfter, WellFormed, EventEnabled, CloseAll, Loaded;
  }

  // ---------------------------------------------------------------- crashes and reloads

  /** A process that stops leaves memory behind as it was. */
  lemma StoppingStep(c: Config, w: World, i: Input)
    requires Sound(w) && Enabled(w, i) && (i.event.Crash? || i.event.Shutdown?)
    ensures var v := Step(c, w, i);
      && !v.live && v.room == w.room.(host := None, sinks := map[], wire := v.room.wire)
      && v.room.wire.Keys == w.room.wire.Keys
      && v.pending == w.pending && v.issued == w.issued && v.clock == i.env.now && v.wall == i.env.wall
  {
    hide WellFormed;
  }

  lemma StoppingMirrors(c: Config, v: World, w: World, id: PlayerId, i: Input, j: Input)
    requires Mirrors(c, v, w, id) && SameButDraws(i, j) && Enabled(v, i) && (i.event.Crash? || i.event.Shutdown?)
    requires AgreesFor(c, Step(c, v, i), id)
    ensures Mirrors(c, Step(c, v, i), Step(c, w, j), id)
  {
    hide AgreesFor, WellFormed, SameSeat, Through, Step, AccountOf;
    StoppingStep(c, v, i);
    if Enabled(w, j) { StoppingStep(c, w, j); } else { NothingHappens(c, w, j); }
  }

  /** Two worlds with the same session and seat reload alike. */
  lemma SameReload(c: Config, v: World, w: World, id: PlayerId, i: Input, j: Input)
    requires Sound(v) && Sound(w) && Enabled(v, i) && Enabled(w, j) && SameButDraws(i, j) && i.event.Load?
    requires id in v.room.players && id in w.room.players && SameSession(v, w)
    requires SameSeat(SeatOf(v.room, id), SeatOf(w.room, id))
    ensures var s, t := Step(c, v, i), Step(c, w, j);
      Present(s, id) ==> id in t.room.players && SameGame(c, s, t, id)
  {
    hide WellFormed, Loaded, Step, AccountOf, Through;
    LoadStep(c, v, i);
    LoadStep(c, w, j);
    LoadReloads(c, v.room, i.env, id);
    LoadReloads(c, w.room, j.env, id);
  }

  /** Whoever is through is so after any reload. */
  lemma ThroughReload(c: Config, v: World, w: World, id: PlayerId, i: Input, j: Input)
    requires Sound(v) && Sound(w) && Enabled(v, i) && SameButDraws(i, j) && i.event.Load?
    requires id in v.room.players && id in w.room.players && Through(c, SeatOf(v.room, id), SeatOf(w.room, id))
    ensures var s, t := Step(c, v, i), Step(c, w, j);
      Present(s, id) ==> id in t.room.players && SameGame(c, s, t, id)
  {
    hide WellFormed, Loaded, Step, AccountOf, SameSession, SameSeat;
    LoadStep(c, v, i);
    LoadReloads(c, v.room, i.env, id);
    if Enabled(w, j) {
      LoadStep(c, w, j);
      LoadReloads(c, w.room, j.env, id);
    } else {
      NothingHappens(c, w, j);
    }
  }

  /** A load keeps the account, and forgets a player without one. */
  lemma LoadKeepsAccount(c: Config, v: World, i: Input, id: PlayerId)
    requires Sound(v) && Enabled(v, i) && i.event.Load?
    ensures var s := Step(c, v, i);
      && AccountOf(s.room.tables, id) == AccountOf(v.room.tables, id) && s.room.wire == v.room.wire
      && !v.live && (s.live ==> (id in s.room.players <==> AccountOf(s.room.tables, id).Some?))
      && (!s.live ==> s.room.players == v.room.players)
  {
    hide WellFormed, Loaded, Step, AccountOf, IsStored;
    LoadStep(c, v, i);
    LoadReloads(c, v.room, i.env, id);
  }

  lemma LoadsMirror(c: Config, v: World, w: World, id: PlayerId, i: Input, j: Input)
    requires Mirrors(c, v, w, id) && SameButDraws(i, j) && Enabled(v, i) && i.event.Load?
    requires AgreesFor(c, Step(c, v, i), id)
    ensures Mirrors(c, Step(c, v, i), Step(c, w, j), id)
  {
    hide AgreesFor, WellFormed, SameSeat, SameSession, Through, Step, AccountOf, EventEnabled;
    var s, t := Step(c, v, i), Step(c, w, j);
    StepsKeepBooks(c, v, i);
    StepsKeepBooks(c, w, j);
    LoadKeepsAccount(c, v, i, id);
    if Enabled(w, j) { LoadKeepsAccount(c, w, j, id); } else { NothingHappens(c, w, j); }
    if Present(s, id) {
      assert Present(v, id);
      LoadedGame(c, v, w, id, i, j);
    }
  }

  lemma LoadedGame(c: Config, v: World, w: World, id: PlayerId, i: Input, j: Input)
    requires Mirrors(c, v, w, id) && Present(v, id) && SameButDraws(i, j) && Enabled(v, i) && i.event.Load?
    ensures Present(Step(c, v, i), id) ==>
      id in Step(c, w, j).room.players && SameGame(c, Step(c, v, i), Step(c, w, j), id)
  {
    hide AgreesFor, WellFormed, SameSeat, SameSession, Through, Step, AccountOf;
    if Through(c, SeatOf(v.room, id), SeatOf(w.room, id)) {
      ThroughReload(c, v, w, id, i, j);
    } else {
      SameStatus(v, w);
      SameReload(c, v, w, id, i, j);
    }
  }

  // ---------------------------------------------------------------- the theorem

  lemma OwnEventsMirror(c: Config, v: World, w: World, id: PlayerId, i: Input, j: Input)
    requires Playable(c) && Mirrors(c, v, w, id) && Concerns(id, i.event) && SameButDraws(i, j) && Enabled(v, i)
    ensures Mirrors(c, Step(c, v, i), Step(c, w, j), id)
  {
    hide Mirrors, Playable, Step, Enabled, AgreesFor;
    MirrorsAgree(c, v, w, id);
    StepKeepsAgreement(c, v, i, id);
    if IsRoomEvent(i.event) { OwnRoomEventsMirror(c, v, w, id, i, j); }
    else if i.event.Load? { LoadsMirror(c, v, w, id, i, j); }
    else { StoppingMirrors(c, v, w, id, i, j); }
  }

  /** Any run and its projection mirror each other. */
  lemma {:induction false} ProjectionsMirror(c: Config, w: World, id: PlayerId, inputs: seq<Input>, own: seq<Input>)
    requires Playable(c) && Sound(w) && Mirrors(c, w, w, id) && AllHappen(c, w, inputs) && Projection(id, inputs, own)
    ensures Mirrors(c, Run(c, w, inputs), Run(c, w, own), id)
  {
    hide Mirrors, Step, Playable, Enabled, Concerns;
    if inputs != [] {
      var init, last := inputs[..|inputs| - 1], inputs[|inputs| - 1];
      if Concerns(id, last.event) {
        ProjectionsMirror(c, w, id, init, own[..|own| - 1]);
        OwnEventsMirror(c, Run(c, w, init), Run(c, w, own[..|own| - 1]), id, last, own[|own| - 1]);
      } else {
        ProjectionsMirror(c, w, id, init, own);
        OthersDoNotMatter(c, Run(c, w, init), Run(c, w, own), id, last);
      }
    }
  }

  lemma MirrorsItself(c: Config, w: World, id: PlayerId)
    requires Sound(w) && w.live && !w.room.status.Ended? && AgreesFor(c, w, id) && id in w.room.players
    requires id !in w.pending
    ensures Mirrors(c, w, w, id)
  {
    hide AgreesFor, WellFormed, AccountOf;
  }

  /**
   * Isolation: from any agreeing world, a player present after a run, crashes and reloads included, has exactly the
   * score, streak, resolved count, total time and active question (up to the order of its options) that the events
   * concerning that player alone produce, whatever the others did and however options were shuffled.
   */
  lemma OthersNeverReachAPlayer(c: Config, w: World, id: PlayerId, inputs: seq<Input>, own: seq<Input>)
    requires Playable(c) && Sound(w) && w.live && !w.room.status.Ended? && AgreesFor(c, w, id)
    requires id in w.room.players && id !in w.pending
    requires AllHappen(c, w, inputs) && Projection(id, inputs, own)
    ensures var v, u := Run(c, w, inputs), Run(c, w, own);
      Present(v, id) ==> id in u.room.players && SamePlayer(v.room.players[id], u.room.players[id])
  {
    hide Step, Playable, Enabled, AgreesFor, WellFormed, Run, SameSession, Projection;
    MirrorsItself(c, w, id);
    ProjectionsMirror(c, w, id, inputs, own);
  }
}
