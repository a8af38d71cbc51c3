/**
 * The caps on players per room and on active rooms under any interleaving of transactions
 * (api/internal/store/store.go): lock, count, insert, commit, with kicks and endings at any moment.
 */
module Capacity {
  import opened Common

  type Tx = nat

  const MAX_ACTIVE_ROOMS := 5
  const PIN_ATTEMPTS := 8
  const ACTIVE_WINDOW: nat := 2 * 3600 * NS_PER_SECOND

  // ---------------------------------------------------------------- joining one room

  /** Where a JoinRoom call is; its count was read under the row lock, its player is not visible before the commit. */
  datatype Join =
    | Begun
    | Locked
    | Counted(count: nat)
    | Inserted(count: nat, player: PlayerId)
    | Joined(player: PlayerId)
    | Full(count: nat)
    | Failed                    // not found, invalid school, nickname taken, or any error: rolled back

  /** issued: player ids are generated, so none is used twice. */
  datatype Room = Room(ended: bool, players: set<PlayerId>, holder: Option<Tx>, joins: map<Tx, Join>,
                       issued: set<PlayerId>)

  const EMPTY_ROOM := Room(false, {}, None, map[], {})

  datatype JoinAction =
    | BeginJoin(tx: Tx)
    | LockRow(tx: Tx)
    | CountPlayers(tx: Tx)
    | InsertRow(tx: Tx, player: PlayerId)
    | CommitJoin(tx: Tx)
    | AbortJoin(tx: Tx)
    | KickPlayer(player: PlayerId)
    | EndRoom

  predicate JoinEnabled(r: Room, a: JoinAction) {
    match a
    case BeginJoin(t) => t !in r.joins
    case LockRow(t) => t in r.joins && r.joins[t].Begun? && r.holder.None?
    case CountPlayers(t) => t in r.joins && r.joins[t].Locked?
    case InsertRow(t, p) => t in r.joins && r.joins[t].Counted? && p !in r.issued
    case CommitJoin(t) => t in r.joins && r.joins[t].Inserted?
    case AbortJoin(t) => t in r.joins && !r.joins[t].Joined? && !r.joins[t].Full?
    case KickPlayer(_) => true
    case EndRoom => true
  }

  function Release(holder: Option<Tx>, t: Tx): Option<Tx> {
    if holder == Some(t) then None else holder
  }

  function JoinStep(r: Room, a: JoinAction): Room {
    if !JoinEnabled(r, a) then r
    else match a
      case BeginJoin(t) => r.(joins := r.joins[t := Begun])
      case LockRow(t) =>
        if r.ended then r.(joins := r.joins[t := Failed]) else r.(joins := r.joins[t := Locked], holder := Some(t))
      case CountPlayers(t) =>
        if |r.players| >= MAX_PLAYERS then r.(joins := r.joins[t := Full(|r.players|)], holder := None)
        else r.(joins := r.joins[t := Counted(|r.players|)])
      case InsertRow(t, p) => r.(joins := r.joins[t := Inserted(r.joins[t].count, p)], issued := r.issued + {p})
      case CommitJoin(t) =>
        var p := r.joins[t].player;
        r.(players := r.players + {p}, joins := r.joins[t := Joined(p)], holder := None)
      case AbortJoin(t) => r.(joins := r.joins[t := Failed], holder := Release(r.holder, t))
      case KickPlayer(p) => r.(players := r.players - {p})
      case EndRoom => r.(ended := true)
  }

  function JoinRun(actions: seq<JoinAction>): Room {
    if actions == [] then EMPTY_ROOM else JoinStep(JoinRun(actions[..|actions| - 1]), actions[|actions| - 1])
  }

  predicate InsideLock(j: Join) {
    j.Locked? || j.Counted? || j.Inserted?
  }

  /** Only the holder of the row lock is past it, and its count still bounds the committed players. */
  ghost predicate JoinSafe(r: Room) {
    && |r.players| <= MAX_PLAYERS
    && (forall t :: t in r.joins && InsideLock(r.joins[t]) ==> r.holder == Some(t))
    && (forall t :: t in r.joins && (r.joins[t].Counted? || r.joins[t].Inserted?) ==>
          |r.players| <= r.joins[t].count < MAX_PLAYERS)
    && (forall t :: t in r.joins && r.joins[t].Full? ==> r.joins[t].count == MAX_PLAYERS)
    && r.players <= r.issued
    && (forall t :: t in r.joins && r.joins[t].Inserted? ==>
          r.joins[t].player in r.issued && r.joins[t].player !in r.players)
  }

  lemma FewerPlayers(players: set<PlayerId>, p: PlayerId)
    ensures |players - {p}| <= |players|
  {
    if p in players { assert players == (players - {p}) + {p}; } else { assert players - {p} == players; }
  }

  lemma KickIsSafe(r: Room, a: JoinAction)
    requires JoinSafe(r) && a.KickPlayer?
    ensures JoinSafe(JoinStep(r, a))
  {
    FewerPlayers(r.players, a.player);
  }

  lemma CommitIsSafe(r: Room, a: JoinAction)
    requires JoinSafe(r) && a.CommitJoin?
    ensures JoinSafe(JoinStep(r, a))
  {
  }

  lemma JoinStepIsSafe(r: Room, a: JoinAction)
    requires JoinSafe(r)
    ensures JoinSafe(JoinStep(r, a))
  {
    if a.KickPlayer? {
      hide JoinSafe;
      KickIsSafe(r, a);
    } else if a.CommitJoin? {
      hide JoinSafe;
      CommitIsSafe(r, a);
    }
  }

  /**
   * At any moment of any interleaving of joins, kicks and endings: at most fifteen players; a refusal saw exactly
   * fifteen.
   */
  lemma {:induction false} NoRoomOverflows(actions: seq<JoinAction>)
    ensures JoinSafe(JoinRun(actions))
    ensures |JoinRun(actions).players| <= 15
  {
    hide JoinStep, JoinSafe;
    if actions != [] {
      NoRoomOverflows(actions[..|actions| - 1]);
      JoinStepIsSafe(JoinRun(actions[..|actions| - 1]), actions[|actions| - 1]);
    } else {
      EmptyRoomIsSafe();
    }
    AtMostFifteen(JoinRun(actions));
  }

  lemma EmptyRoomIsSafe()
    ensures JoinSafe(EMPTY_ROOM)
  {
  }

  lemma AtMostFifteen(r: Room)
    requires JoinSafe(r)
    ensures |r.players| <= 15
  {
  }

  /** Under the lock a call goes on exactly if fewer than fifteen players are committed, and then it can get in. */
  lemma FifteenDecide(r: Room, t: Tx, p: PlayerId)
    requires JoinSafe(r) && t in r.joins && r.joins[t].Locked? && p !in r.issued
    ensures var counted := JoinStep(r, CountPlayers(t));
      && (counted.joins[t].Full? <==> |r.players| == 15)
      && (|r.players| < 15 ==>
            var done := JoinStep(JoinStep(counted, InsertRow(t, p)), CommitJoin(t));
            done.joins[t] == Joined(p) && done.players == r.players + {p} && done.holder.None?)
  {
  }

  ghost predicate NobodyInside(r: Room) {
    r.ended && forall t :: t in r.joins ==> !InsideLock(r.joins[t])
  }

  function JoinsOn(r: Room, more: seq<JoinAction>): Room {
    if more == [] then r else JoinStep(JoinsOn(r, more[..|more| - 1]), more[|more| - 1])
  }

  lemma EndedStepTakesNobody(r: Room, a: JoinAction)
    requires NobodyInside(r)
    ensures NobodyInside(JoinStep(r, a)) && JoinStep(r, a).players <= r.players
  {
  }

  /** Once a room has ended and no call holds its row, nobody joins it any more. */
  lemma {:induction false} EndedRoomsTakeNobody(actions: seq<JoinAction>, more: seq<JoinAction>)
    requires JoinRun(actions).ended && JoinRun(actions).holder.None?
    ensures NobodyInside(JoinsOn(JoinRun(actions), more))
    ensures JoinsOn(JoinRun(actions), more).players <= JoinRun(actions).players
  {
    hide JoinStep, JoinRun, NobodyInside;
    if more == [] {
      NoRoomOverflows(actions);
      NobodyHolds(JoinRun(actions));
    } else {
      EndedRoomsTakeNobody(actions, more[..|more| - 1]);
      EndedStepTakesNobody(JoinsOn(JoinRun(actions), more[..|more| - 1]), more[|more| - 1]);
    }
  }

  lemma NobodyHolds(r: Room)
    requires JoinSafe(r) && r.ended && r.holder.None?
    ensures NobodyInside(r)
  {
  }

  // ---------------------------------------------------------------- creating rooms

  type Pin = nat
  type RoomKey = nat

  /** A committed row; createdAt is the start of the transaction that made it. */
  datatype RoomRow = RoomRow(pin: Pin, createdAt: nat, ended: bool)

  /** Where a CreateRoom call is; attempts counts the transactions begun, startedAt is NOW() of the current one. */
  datatype Create =
    | Idle(attempts: nat)
    | Waiting(attempts: nat, startedAt: nat)
    | Admitted(attempts: nat, startedAt: nat)              // holds the advisory lock
    | Tallied(attempts: nat, startedAt: nat, count: nat)
    | Added(attempts: nat, startedAt: nat, count: nat, pin: Pin)
    | Made(room: RoomKey)
    | TooMany(count: nat)
    | NoPin
    | GaveUp

  datatype Server = Server(rooms: map<RoomKey, RoomRow>, holder: Option<Tx>, creates: map<Tx, Create>, clock: nat)

  const NO_ROOMS := Server(map[], None, map[], 0)

  datatype CreateAction =
    | CallCreate(tx: Tx)
    | BeginAttempt(tx: Tx)
    | TakeLock(tx: Tx)
    | CountActive(tx: Tx)
    | InsertRoom(tx: Tx, pin: Pin)
    | CommitRoom(tx: Tx, key: RoomKey)
    | AbortCreate(tx: Tx)
    | MarkEnded(key: RoomKey)
    | TimePasses(time: nat)

  /** CountActiveRooms as seen at a given time. */
  function Active(rooms: map<RoomKey, RoomRow>, now: nat): set<RoomKey> {
    set k | k in rooms && !rooms[k].ended && rooms[k].createdAt + ACTIVE_WINDOW > now
  }

  predicate PinTaken(rooms: map<RoomKey, RoomRow>, pin: Pin) {
    exists k :: k in rooms && rooms[k].pin == pin
  }

  predicate HoldsLock(c: Create) {
    c.Admitted? || c.Tallied? || c.Added?
  }

  predicate CreateEnabled(s: Server, a: CreateAction) {
    match a
    case CallCreate(t) => t !in s.creates
    case BeginAttempt(t) => t in s.creates && s.creates[t].Idle?
    case TakeLock(t) => t in s.creates && s.creates[t].Waiting? && s.holder.None?
    case CountActive(t) => t in s.creates && s.creates[t].Admitted?
    case InsertRoom(t, _) => t in s.creates && s.creates[t].Tallied?
    case CommitRoom(t, k) => t in s.creates && s.creates[t].Added? && k !in s.rooms
    case AbortCreate(t) => t in s.creates && (s.creates[t].Idle? || s.creates[t].Waiting? || HoldsLock(s.creates[t]))
    case MarkEnded(k) => k in s.rooms
    case TimePasses(_) => true
  }

  function CreateStep(s: Server, a: CreateAction): Server {
    if !CreateEnabled(s, a) then s
    else match a
      case CallCreate(t) => s.(creates := s.creates[t := Idle(0)])
      case BeginAttempt(t) =>
        var n := s.creates[t].attempts;
        s.(creates := s.creates[t := if n < PIN_ATTEMPTS then Waiting(n + 1, s.clock) else NoPin])
      case TakeLock(t) =>
        var c := s.creates[t];
        s.(creates := s.creates[t := Admitted(c.attempts, c.startedAt)], holder := Some(t))
      case CountActive(t) =>
        var c := s.creates[t];
        var n := |Active(s.rooms, c.startedAt)|;
        if n >= MAX_ACTIVE_ROOMS then s.(creates := s.creates[t := TooMany(n)], holder := None)
        else s.(creates := s.creates[t := Tallied(c.attempts, c.startedAt, n)])
      case InsertRoom(t, pin) =>
        // A taken PIN violates the unique column: the attempt is rolled back and the next one starts afresh.
        var c := s.creates[t];
        if PinTaken(s.rooms, pin) then s.(creates := s.creates[t := Idle(c.attempts)], holder := None)
        else s.(creates := s.creates[t := Added(c.attempts, c.startedAt, c.count, pin)])
      case CommitRoom(t, k) =>
        var c := s.creates[t];
        s.(rooms := s.rooms[k := RoomRow(c.pin, c.startedAt, false)], creates := s.creates[t := Made(k)],
           holder := None)
      case AbortCreate(t) => s.(creates := s.creates[t := GaveUp], holder := Release(s.holder, t))
      case MarkEnded(k) => s.(rooms := s.rooms[k := s.rooms[k].(ended := true)])
      case TimePasses(d) => s.(clock := s.clock + d)
  }

  function CreateRun(actions: seq<CreateAction>): Server {
    if actions == [] then NO_ROOMS else CreateStep(CreateRun(actions[..|actions| - 1]), actions[|actions| - 1])
  }

  /** The rooms a creator counted: a superset of the rooms active later, as long as it keeps the lock. */
  ghost predicate CreateSafe(s: Server) {
    && |Active(s.rooms, s.clock)| <= MAX_ACTIVE_ROOMS
    && (forall t :: t in s.creates && HoldsLock(s.creates[t]) ==>
          s.holder == Some(t) && s.creates[t].startedAt <= s.clock)
    && (forall t :: t in s.creates && s.creates[t].Waiting? ==> s.creates[t].startedAt <= s.clock)
    && (forall t :: t in s.creates && (s.creates[t].Tallied? || s.creates[t].Added?) ==>
          |Active(s.rooms, s.creates[t].startedAt)| <= s.creates[t].count < MAX_ACTIVE_ROOMS)
    && (forall t :: t in s.creates && s.creates[t].Added? ==> !PinTaken(s.rooms, s.creates[t].pin))
    && (forall j, k :: j in s.rooms && k in s.rooms && j != k ==> s.rooms[j].pin != s.rooms[k].pin)
    && (forall t :: t in s.creates ==> AttemptsOf(s.creates[t]) <= PIN_ATTEMPTS)
  }

  function AttemptsOf(c: Create): nat {
    if c.Idle? || c.Waiting? || HoldsLock(c) then c.attempts else 0
  }

  /** Later, or with one room ended, no more rooms are active. */
  lemma ActiveShrinks(rooms: map<RoomKey, RoomRow>, after: map<RoomKey, RoomRow>, t: nat, u: nat)
    requires t <= u && after.Keys == rooms.Keys
    requires forall k :: k in rooms ==> after[k].createdAt == rooms[k].createdAt && (rooms[k].ended ==> after[k].ended)
    ensures |Active(after, u)| <= |Active(rooms, t)|
  {
    SubsetIsSmaller(Active(after, u), Active(rooms, t));
  }

  lemma SubsetIsSmaller(a: set<RoomKey>, b: set<RoomKey>)
    requires a <= b
    ensures |a| <= |b|
  {
    assert b == a + (b - a);
  }

  lemma OneMoreActive(rooms: map<RoomKey, RoomRow>, k: RoomKey, row: RoomRow, t: nat)
    requires k !in rooms
    ensures |Active(rooms[k := row], t)| <= |Active(rooms, t)| + 1
  {
    SubsetIsSmaller(Active(rooms[k := row], t), Active(rooms, t) + {k});
  }

  lemma CallersStaySafe(s: Server, a: CreateAction)
    requires CreateSafe(s) && CreateEnabled(s, a) && (a.CallCreate? || a.BeginAttempt? || a.TakeLock? || a.AbortCreate?)
    ensures CreateSafe(CreateStep(s, a))
  {
    hide Active, PinTaken;
  }

  lemma LockHoldersStaySafe(s: Server, a: CreateAction)
    requires CreateSafe(s) && CreateEnabled(s, a) && (a.CountActive? || a.InsertRoom?)
    ensures CreateSafe(CreateStep(s, a))
  {
    hide Active, PinTaken;
  }

  lemma CommitStaysSafe(s: Server, a: CreateAction)
    requires CreateSafe(s) && CreateEnabled(s, a) && a.CommitRoom?
    ensures CreateSafe(CreateStep(s, a))
  {
    var c := s.creates[a.tx];
    ActiveShrinks(s.rooms, s.rooms, c.startedAt, s.clock);
    OneMoreActive(s.rooms, a.key, RoomRow(c.pin, c.startedAt, false), s.clock);
  }

  lemma EndingStaysSafe(s: Server, a: CreateAction)
    requires CreateSafe(s) && CreateEnabled(s, a) && (a.MarkEnded? || a.TimePasses?)
    ensures CreateSafe(CreateStep(s, a))
  {
    var v := CreateStep(s, a);
    ActiveShrinks(s.rooms, v.rooms, s.clock, v.clock);
    forall t | t in s.creates && (s.creates[t].Tallied? || s.creates[t].Added?)
      ensures |Active(v.rooms, s.creates[t].startedAt)| <= s.creates[t].count
    {
      ActiveShrinks(s.rooms, v.rooms, s.creates[t].startedAt, s.creates[t].startedAt);
    }
    assert forall pin :: PinTaken(v.rooms, pin) ==> PinTaken(s.rooms, pin);
  }

  /**
   * At any moment of any interleaving of creations, PIN retries, endings and time: at most five active rooms, no PIN
   * twice.
   */
  lemma {:induction false} NeverTooManyRooms(actions: seq<CreateAction>)
    ensures CreateSafe(CreateRun(actions))
    ensures |Active(CreateRun(actions).rooms, CreateRun(actions).clock)| <= 5
  {
    hide CreateStep, CreateSafe, Active;
    if actions != [] {
      var init, a := actions[..|actions| - 1], actions[|actions| - 1];
      var s := CreateRun(init);
      NeverTooManyRooms(init);
      if !CreateEnabled(s, a) { DisabledCreates(s, a); }
      else if a.CommitRoom? { CommitStaysSafe(s, a); }
      else if a.MarkEnded? || a.TimePasses? { EndingStaysSafe(s, a); }
      else if a.CountActive? || a.InsertRoom? { LockHoldersStaySafe(s, a); }
      else { CallersStaySafe(s, a); }
    } else {
      NoRoomsIsSafe();
    }
    AtMostFive(CreateRun(actions));
  }

  lemma DisabledCreates(s: Server, a: CreateAction)
    ensures !CreateEnabled(s, a) ==> CreateStep(s, a) == s
  {
  }

  lemma NoRoomsIsSafe()
    ensures CreateSafe(NO_ROOMS)
  {
    assert Active(map[], 0) == {};
  }

  lemma AtMostFive(s: Server)
    requires CreateSafe(s)
    ensures |Active(s.rooms, s.clock)| <= 5
  {
  }

  // ---------------------------------------------------------------- who is refused

  /** Not ended, and made less than two hours before. */
  function Living(rooms: map<RoomKey, RoomRow>, now: nat): set<RoomKey> {
    set k | k in rooms && !rooms[k].ended && now < rooms[k].createdAt + 7_200_000_000_000
  }

  /** A creator is refused exactly if five rooms are active as of the start of its transaction. */
  lemma FiveDecide(s: Server, t: Tx)
    requires t in s.creates && s.creates[t].Admitted?
    ensures var counted := CreateStep(s, CountActive(t)).creates[t];
      var n := |Living(s.rooms, s.creates[t].startedAt)|;
      && (n >= 5 ==> counted == TooMany(n))
      && (n < 5 ==> counted == Tallied(s.creates[t].attempts, s.creates[t].startedAt, n))
  {
    assert Active(s.rooms, s.creates[t].startedAt) == Living(s.rooms, s.creates[t].startedAt);
  }

  /** With fewer, and a PIN nobody uses, the room is made. */
  lemma AdmittedCanMake(s: Server, t: Tx, pin: Pin, key: RoomKey)
    requires t in s.creates && s.creates[t].Admitted? && |Living(s.rooms, s.creates[t].startedAt)| < 5
    requires key !in s.rooms && forall k :: k in s.rooms ==> s.rooms[k].pin != pin
    ensures var done := CreateStep(CreateStep(CreateStep(s, CountActive(t)), InsertRoom(t, pin)), CommitRoom(t, key));
      && done.creates[t] == Made(key) && done.holder.None?
      && done.rooms == s.rooms[key := RoomRow(pin, s.creates[t].startedAt, false)]
  {
    FiveDecide(s, t);
    hide Active;
  }

  /** The rooms whose two hours were up between two moments. */
  function Expired(rooms: map<RoomKey, RoomRow>, then_: nat, now: nat): set<RoomKey> {
    set k | k in Living(rooms, then_) && rooms[k].createdAt + 7_200_000_000_000 <= now
  }

  /**
   * In every run: what a creator counts is the active rooms and those that ceased to be while it waited for the lock.
   * So a refusal has counted exactly five if and only if both together are five.
   */
  lemma RefusalCounts(actions: seq<CreateAction>, t: Tx)
    requires var s := CreateRun(actions); t in s.creates && s.creates[t].Admitted?
    ensures var s := CreateRun(actions);
      var start := s.creates[t].startedAt;
      && |Living(s.rooms, s.clock)| <= 5
      && |Living(s.rooms, start)| == |Living(s.rooms, s.clock)| + |Expired(s.rooms, start, s.clock)|
  {
    NeverTooManyRooms(actions);
    var s := CreateRun(actions);
    hide CreateRun, CreateStep;
    WaitedSince(s, t);
    var start := s.creates[t].startedAt;
    assert Active(s.rooms, s.clock) == Living(s.rooms, s.clock);
    assert Living(s.rooms, start) == Living(s.rooms, s.clock) + Expired(s.rooms, start, s.clock);
    assert Living(s.rooms, s.clock) * Expired(s.rooms, start, s.clock) == {};
  }

  lemma WaitedSince(s: Server, t: Tx)
    requires CreateSafe(s) && t in s.creates && s.creates[t].Admitted?
    ensures s.creates[t].startedAt <= s.clock
  {
    hide Active, PinTaken;
  }

  /** In every run a refusal has counted five rooms at least. */
  lemma {:induction false} RefusalsSawFive(actions: seq<CreateAction>, t: Tx)
    ensures var s := CreateRun(actions); t in s.creates && s.creates[t].TooMany? ==> s.creates[t].count >= 5
  {
    hide CreateStep;
    if actions != [] {
      RefusalsSawFive(actions[..|actions| - 1], t);
      StepSawFive(CreateRun(actions[..|actions| - 1]), actions[|actions| - 1], t);
    }
  }

  lemma StepSawFive(s: Server, a: CreateAction, t: Tx)
    requires t in s.creates && s.creates[t].TooMany? ==> s.creates[t].count >= 5
    ensures var v := CreateStep(s, a); t in v.creates && v.creates[t].TooMany? ==> v.creates[t].count >= 5
  {
    hide Active, PinTaken;
  }

  // ---------------------------------------------------------------- a refusal that counts six

  lemma RunsOn(actions: seq<CreateAction>, a: CreateAction)
    ensures CreateRun(actions + [a]) == CreateStep(CreateRun(actions), a)
  {
    assert (actions + [a])[..|actions|] == actions;
  }

  function WithRoom(s: Server, k: nat): Server {
    s.(rooms := s.rooms[k := RoomRow(k, s.clock, false)], creates := s.creates[k := Made(k)])
  }

  lemma MakeSteps(s: Server, k: nat)
    requires s.holder.None? && k !in s.creates && k !in s.rooms && !PinTaken(s.rooms, k)
    requires |Active(s.rooms, s.clock)| < 5
    ensures var begun := CreateStep(CreateStep(s, CallCreate(k)), BeginAttempt(k));
      var counted := CreateStep(CreateStep(begun, TakeLock(k)), CountActive(k));
      CreateStep(CreateStep(counted, InsertRoom(k, k)), CommitRoom(k, k)) == WithRoom(s, k)
  {
    hide Active, PinTaken;
    var begun := CreateStep(CreateStep(s, CallCreate(k)), BeginAttempt(k));
    assert begun == s.(creates := s.creates[k := Waiting(1, s.clock)]);
    var counted := CreateStep(CreateStep(begun, TakeLock(k)), CountActive(k));
    var n := |Active(s.rooms, s.clock)|;
    assert counted == s.(creates := s.creates[k := Tallied(1, s.clock, n)], holder := Some(k));
  }

  /** One creator from its call to its commit. */
  lemma MakeOne(actions: seq<CreateAction>, k: nat) returns (longer: seq<CreateAction>)
    requires var s := CreateRun(actions);
      s.holder.None? && k !in s.creates && k !in s.rooms && !PinTaken(s.rooms, k) && |Active(s.rooms, s.clock)| < 5
    ensures CreateRun(longer) == WithRoom(CreateRun(actions), k)
  {
    hide CreateRun, CreateStep, Active, PinTaken;
    MakeSteps(CreateRun(actions), k);
    var called := actions + [CallCreate(k)];
    RunsOn(actions, CallCreate(k));
    RunsOn(called, BeginAttempt(k));
    RunsOn(called + [BeginAttempt(k)], TakeLock(k));
    var locked := called + [BeginAttempt(k)] + [TakeLock(k)];
    RunsOn(locked, CountActive(k));
    RunsOn(locked + [CountActive(k)], InsertRoom(k, k));
    RunsOn(locked + [CountActive(k)] + [InsertRoom(k, k)], CommitRoom(k, k));
    longer := locked + [CountActive(k)] + [InsertRoom(k, k)] + [CommitRoom(k, k)];
  }

  /** n rooms made at time 0. */
  function Rooms(n: nat): Server {
    Server(map k: nat | k < n :: RoomRow(k, 0, false), None, map k: nat | k < n :: Made(k), 0)
  }

  function FirstKeys(n: nat): set<RoomKey> {
    Rooms(n).rooms.Keys
  }

  lemma {:induction false} FirstKeysSize(n: nat)
    ensures |FirstKeys(n)| == n
  {
    if n > 0 {
      FirstKeysSize(n - 1);
      assert FirstKeys(n) == FirstKeys(n - 1) + {n - 1};
    } else {
      assert FirstKeys(0) == {};
    }
  }

  lemma {:induction false} MakeSome(n: nat) returns (actions: seq<CreateAction>)
    requires n <= 5
    ensures CreateRun(actions) == Rooms(n)
  {
    hide CreateRun, CreateStep;
    if n == 0 {
      actions := [];
      NothingMade();
    } else {
      var fewer := MakeSome(n - 1);
      FirstKeysSize(n - 1);
      assert Active(Rooms(n - 1).rooms, 0) == FirstKeys(n - 1);
      actions := MakeOne(fewer, n - 1);
      assert Rooms(n) == WithRoom(Rooms(n - 1), n - 1);
    }
  }

  lemma NothingMade()
    ensures CreateRun([]) == Rooms(0)
  {
  }

  /** Five rooms almost two hours old, and a creator whose transaction has just begun. */
  function LateCaller(clock: nat): Server {
    Rooms(5).(clock := clock, creates := Rooms(5).creates[9 := Waiting(1, ACTIVE_WINDOW - 1)])
  }

  lemma SixCounted()
    ensures |Active(WithRoom(LateCaller(ACTIVE_WINDOW), 6).rooms, ACTIVE_WINDOW - 1)| == 6
    ensures |Active(LateCaller(ACTIVE_WINDOW).rooms, ACTIVE_WINDOW)| == 0
  {
    FirstKeysSize(5);
    assert Active(LateCaller(ACTIVE_WINDOW).rooms, ACTIVE_WINDOW) == {};
    assert Active(WithRoom(LateCaller(ACTIVE_WINDOW), 6).rooms, ACTIVE_WINDOW - 1) == FirstKeys(5) + {6};
  }

  lemma LateCallerWaits(five: seq<CreateAction>) returns (actions: seq<CreateAction>)
    requires CreateRun(five) == Rooms(5)
    ensures CreateRun(actions) == LateCaller(ACTIVE_WINDOW)
  {
    hide CreateRun;
    RunsOn(five, TimePasses(ACTIVE_WINDOW - 1));
    var late := five + [TimePasses(ACTIVE_WINDOW - 1)];
    RunsOn(late, CallCreate(9));
    RunsOn(late + [CallCreate(9)], BeginAttempt(9));
    assert CreateRun(late + [CallCreate(9)] + [BeginAttempt(9)]) == LateCaller(ACTIVE_WINDOW - 1);
    RunsOn(late + [CallCreate(9)] + [BeginAttempt(9)], TimePasses(1));
    actions := late + [CallCreate(9)] + [BeginAttempt(9)] + [TimePasses(1)];
  }

  /**
   * The count of a refusal need not be five: a creator waits for the lock while the two hours of five rooms end and
   * another room is made; as of the start of its transaction six are active.
   */
  lemma RefusalMayCountSix() returns (actions: seq<CreateAction>)
    ensures var s := CreateRun(actions); 9 in s.creates && s.creates[9] == TooMany(6)
  {
    hide CreateRun;
    var five := MakeSome(5);
    var waiting := LateCallerWaits(five);
    SixCounted();
    var more := MakeOne(waiting, 6);
    var s := CreateRun(more);
    RunsOn(more, TakeLock(9));
    RunsOn(more + [TakeLock(9)], CountActive(9));
    actions := more + [TakeLock(9)] + [CountActive(9)];
  }

  // ---------------------------------------------------------------- who finds no PIN

  /** How often a creator met a PIN in use. */
  function Collisions(actions: seq<CreateAction>, t: Tx): nat {
    if actions == [] then 0
    else
      var init, a := actions[..|actions| - 1], actions[|actions| - 1];
      var s := CreateRun(init);
      Collisions(init, t)
      + if a.InsertRoom? && a.tx == t && CreateEnabled(s, a) && PinTaken(s.rooms, a.pin) then 1 else 0
  }

  /** One attempt more than collisions while it is at it; it gives up for want of a PIN after exactly eight. */
  predicate TriesFit(s: Server, t: Tx, collisions: nat) {
    && collisions <= 8
    && (t !in s.creates ==> collisions == 0)
    && (t in s.creates ==>
          match s.creates[t]
          case Idle(n) => n == collisions
          case Waiting(n, _) => n == collisions + 1 <= 8
          case Admitted(n, _) => n == collisions + 1 <= 8
          case Tallied(n, _, _) => n == collisions + 1 <= 8
          case Added(n, _, _, _) => n == collisions + 1 <= 8
          case NoPin => collisions == 8
          case Made(_) => collisions < 8
          case TooMany(_) => collisions < 8
          case GaveUp => true)
  }

  lemma StepKeepsTries(s: Server, a: CreateAction, t: Tx, collisions: nat)
    requires TriesFit(s, t, collisions)
    ensures TriesFit(CreateStep(s, a), t, collisions +
      if a.InsertRoom? && a.tx == t && CreateEnabled(s, a) && PinTaken(s.rooms, a.pin) then 1 else 0)
  {
    hide Active, PinTaken;
  }

  /** In every run a creator finds no PIN exactly after eight PINs in use, and is never refused one sooner. */
  lemma {:induction false} EightTries(actions: seq<CreateAction>, t: Tx)
    ensures TriesFit(CreateRun(actions), t, Collisions(actions, t))
  {
    hide CreateStep, TriesFit, CreateEnabled, PinTaken;
    if actions == [] {
      NoTries(t);
    } else {
      EightTries(actions[..|actions| - 1], t);
      StepKeepsTries(CreateRun(actions[..|actions| - 1]), actions[|actions| - 1], t,
                     Collisions(actions[..|actions| - 1], t));
    }
  }

  lemma NoTries(t: Tx)
    ensures TriesFit(NO_ROOMS, t, 0)
  {
  }
}
