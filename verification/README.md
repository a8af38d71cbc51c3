# Live quiz room

A model, with proofs, of the live quiz room of the Jejak Inderasakti backend: the room goroutine and its handlers, the
tables and the Redis leaderboard behind it, the arithmetic of points and rankings, the question selector, the rate
limiter, and the small concurrent protocols around them (registry, event queue, joining, room creation).

`dafny verify dfyconfig.toml` checks the whole project.

## How it is built

- `RoomSpec` says what each handler does, as functions from one snapshot of the room, its tables, its board and the logs
  of its connections to the next. A handler gets one reading of the clocks, the draws of the random source, and the outcome
  of each store and Redis call it may make (`Env`). A store call works, is refused, or is applied with its acknowledgement
  lost; a duplicate answer follows from the tables.
- `LiveRoom` is the room as it runs: a class with the program's fields, player states updated in place, loops over maps and
  lists, and the classes of `Services` (store, board, network). Every method is proved equal to its function in `RoomSpec`,
  and `LiveRoom.RoomObject.Process` ties the class to the runs.
- `World` puts events in sequence: joins that commit before or without the room learning of them, attaches, answers, kicks,
  timers, crashes, shutdowns and reloads, in any order and with any outcome. `Run` skips an event that is not possible, so
  a statement about `Run(c, CREATED, inputs)` for all `inputs` is one about every reachable state.
- `Persistence`, `Totals`, `Isolation`, `Bounds`, `Extremes`, `Witness`, `Advancing`, `Lifecycle`, `Statuses`, `Timing`,
  `Finale`, `Endings`, `Throttling`, `Connections`, `Cache` and `FailedSave` prove the main results about those runs, up to
  and including the final state of a session. `Messages` derives, handler by handler, what each event adds to each
  connection's log; `Deliveries` and `Goodbyes` state it for players, hosts and endings. `StaleSpawns` extends the runs by objects made from rows that were read earlier. `Registry`,
  `Mailbox` and `Capacity` are step relations with their own runs.

Where the code disagrees with what one would expect of it, the code is modelled and the exact condition proved:

- A reload that finds a running session whose players have all finished does not end it: `Lifecycle.LoadStallsExactly`
  and `Lifecycle.RunsStallExactly` give the condition, `Lifecycle.FinishedReloadStalls` a run that gets there.
- After a lost commit acknowledgement memory stays one answer behind until a reload
  (`Persistence.OnlyALostAckFallsBehind`, `Persistence.OneBehindIsFrozen`, `Persistence.ReloadCatchesUp`).
- A failed `Save` can leave an overtaken order in use: `Cache.RankingIsRightExactly` gives the condition on the entries,
  `FailedSave.FailedSaveMisleads` a run from the start in which the next lb.update is wrong.
- `Registry.Get` reads the rows outside the lock, so spawn can use rows that have changed since:
  `Registry.SpawnIsCurrentExactly` says exactly when, over all that writes them, and `Registry.JoinAfterReading`,
  `Registry.ExpiryAfterReading` and `Registry.OvertakenSpawnIsStale` are a run for each way. A player whose join commits
  in between reaches the room by the delivery that `World` calls `AddJoined`. `StaleSpawns` follows such an object: it
  never damages what is stored (`RunsTrail`), agrees with the rows about a player exactly if no answer of that player was
  stored since the read (`SpawnAgreesExactly`), and otherwise the player is stuck (`BehindStaysBehind`).
- A `Start` whose acknowledgement is lost leaves a lobby over a row that says running; that is the only way a live room's
  status can differ from its row (`Statuses.StatusesDifferExactly`), and the room then refuses every further `Start`
  until the object is gone (`Statuses.LostStartLasts`). An end whose mark is refused is told to everybody, and the next
  load revives the session (`Statuses.UnmarkedEndReturns`).
- A refused command gets exactly one error, but for a q.next whose open question has run out and whose timeout cannot be
  saved: that gets two, the first of them about q.answer (`Deliveries.RefusedNextIsTold`).
- A creator counts the rooms active at the start of its transaction, not when it gets the lock, so a refusal can have
  counted more than five rooms and come when fewer are active: `Capacity.RefusalCounts` gives the exact count,
  `Capacity.RefusalMayCountSix` a run.
- The table of client messages in `contracts/ws.md` says an answer past its deadline is rejected; the code, and a later
  section of the same file, store it as a timeout without points. The model follows the code.

## Model

| member | source | states |
|---|---|---|
| Persistence.RunsKeepAgreement | api/internal/game/play.go:138-185 | in every run, whatever saves are refused, acknowledgements lost, processes crashed and rooms reloaded: each stored row is the replay of honest answers to exactly the first questions in order, and the memory of the room object, its last state included, equals it or is one answer behind with that question still active; nothing is counted twice |
| Persistence.StepKeepsAgreement | api/internal/store/gameplay.go:100-132 | every single event, fault included, keeps that agreement |
| Persistence.SaveExtendsReplay | api/internal/store/queries/answers.sql.go:15-52 | an applied save of an honest outcome extends the stored replay by exactly that outcome, whether or not its acknowledgement arrives |
| Persistence.OnlyALostAckFallsBehind | api/internal/game/play.go:146-153 | memory falls behind its row if and only if an applied save was not acknowledged, and moves if and only if the save was acknowledged |
| Persistence.OneBehindIsFrozen | api/internal/game/play.go:178-185 | a seat that is one answer behind is changed by no event but its own kick: every retry is refused as a duplicate |
| Persistence.ReloadCatchesUp | api/internal/game/room.go:121-138 | loading a room brings every stored player to exactly what its row says |
| Persistence.ReloadKeepsJoinOrder | api/internal/game/room.go:121-138 | a new room object lists the players in the order in which their joins began, with nobody connected and no broadcast pending |
| Totals.PlayersAddUp | api/internal/game/play.go:138-155 | in every run a player's row and memory are sums over the stored answers to the first questions: points, the number of right ones, the time taken or the whole limit, and as streak exactly the right answers at the end |
| Persistence.ReplayIsBounded | api/internal/store/gameplay.go:151-158 | a replay of k answers has at most 1250 k points, k correct, streak k and 31250 k ms, so the clamped columns hold it unchanged |
| Isolation.OthersNeverReachAPlayer | api/internal/game/play.go:56-98 | a player in the room after any run, crashes, shutdowns and reloads included, has the score, streak, resolved count, total time and active question that the projection of the run onto that player's own events, the session's and the process's yields; other players, and all shuffles, are irrelevant |
| Isolation.ProjectionsMirror | api/internal/game/play.go:138-165 | the run and its projection keep the same session and the same seat, step by step |
| World.SeatsActSeparately | api/internal/game/play.go:56-98 | each room event changes each player's memory and rows as that seat alone determines |
| Extremes.NoRunExceedsTheCap | api/internal/game/selector.go:17-56 | in a room built by the selector no state of any run, the final standings included, has a score above 12750 (SD), 13500 (SMP), 14750 (SMA), or 8250, 8750, 9500 in a short session |
| Extremes.TheCapIsReached | api/internal/game/scoring.go:36-51 | the cap is attained: a run that connects and answers everything right at once, from joining to the last question, for any playable question list |
| Extremes.SelectedRoomCap | api/internal/game/selector.go:17-21 | base points and bonuses of any selection add up to exactly those constants |
| Witness.SelectedRoomsAttainTheCap | api/internal/game/selector.go:17-56 | every room that is a selection from a valid bank attains its constant in some run |
| Witness.EveryConstantIsAttained | api/internal/game/selector.go:17-21 | and for each of the six compositions there is such a bank, selection and run |
| Bounds.RunsStayCapped | api/internal/game/play.go:138-155 | after k questions, live or at the end: score at most the first k base points plus bonuses min(50 i, 250), correct and streak at most k, total time at most the sum of the limits |
| Bounds.OrderIsSqlRank | api/internal/store/queries/results.sql.go:14-22 | in every reachable state, live or over, in which rows and memory name the same players with the same totals: RANK over the room_players rows splits the order of memory, so that before the position it gives to a player stand exactly the players whose rows are better |
| Bounds.OrderIsByTheCriteria | api/internal/rank/rank.go:20-35 | in every reachable state, the final one included, whoever stands earlier has the higher score, or equal score and more correct answers, or equal both and less time, or ties in all and comes earlier in the room's order: that of arrival, or after a load that in which the joins began |
| Bounds.StandingsAreBounded | api/internal/rank/rank.go:6-24 | in every reachable state, the final standings included, total_ms is at most 468750, correct below 100 and the key below 2^53 |
| Cache.EveryRankingIsRight | api/internal/game/play.go:304-345 | while no Save fails, every lb.update of every run lists each current player exactly once with the current score, in non-increasing key order, whatever Redis drops and however often reading or forgetting fails |
| Cache.RankingIsRight | api/internal/game/play.go:317-345 | equal length and membership alone make Redis' answer a permutation of the players, in the right order if the entries it still has are up to date |
| Cache.RankingIsRightExactly | api/internal/game/play.go:317-345 | whether Saves failed or not: a ranking is right if and only if Redis cannot be read, or its entries are not exactly those of the players, or they put nobody ahead of a player with a larger key |
| Cache.RunsKeepCache | api/internal/game/play.go:347-377 | every entry of a current player is up to date in every run without a failed Save; entries of players still to be added say no progress |
| Cache.KickForgets | api/internal/game/play.go:366-375 | a removed player has no entry after the kick, if Redis takes the removal |
| Cache.FallbackRebuilds | api/internal/game/play.go:317-333 | a ranking that Redis could not give leaves it with the current key of every player, if that save works |
| Cache.LoadFillsCache | api/internal/game/play.go:347-349 | and so does a load |
| FailedSave.FailedSaveMisleads | api/internal/game/play.go:140-165 | in a run from the creation of the room, two players and a host, with the host and the answering player connected, every Save works but the one after the first answer: the lb.update sent in that very step is wrong |
| Throttling.RunsAreThrottled | api/internal/game/play.go:283-314 | in every run, the step that ends the session included, consecutive lb.update broadcasts of a room object are at least one interval apart, and a change is pending exactly while a timer is |
| Throttling.EventsArePaced | api/internal/game/play.go:283-314 | an event that changes a standing or removes a player makes a broadcast now if no timer runs and the interval since the last one is over, and otherwise leaves a timer running towards it; the timer makes the one that is due |
| Connections.RunsKeepTheTracePromise | api/internal/game/room.go:148-196 | what any connection sees in any run starts with room.state or is exactly one room.ended; room.ended comes at most once and last; nothing follows Close; a connection still held has not been closed |
| Connections.EndingIsTraced | api/internal/game/room.go:287-323 | ending, from whatever handler, keeps every log in its promised form |
| Connections.AttachIsTraced | api/internal/game/room.go:148-169 | reattaching keeps every log in order even if the session ends inside the attach |
| Deliveries.ServedIsShown | api/internal/game/play.go:187-209 | a q.next that serves a question adds to the player's log exactly one q.show, after at most a ranking: the resolved count, how many questions there are, site, level and prompt of the first unresolved one, the labels of its options in the player's order, and the whole limit, the question being served now |
| Deliveries.AnswerIsGraded | api/internal/game/play.go:79-98 | a q.answer that resolves a question adds exactly one q.result and then what is public: it is for the first unresolved question, its points are the rise of the score, score and streak are those in memory, the right option is the only one, correct says that this one came in time, finished that all are resolved; and the answer row stores option, verdict, points and both times |
| Deliveries.RefusedAnswerIsTold | api/internal/game/play.go:79-106 | a q.answer that resolves nothing adds exactly one error, changes no player, and has the code that fits: not started; already answered if the question is among those resolved and else not served; unknown option; already answered if the answer is stored and else internal |
| Deliveries.RefusedNextIsTold | api/internal/game/play.go:56-77 | a q.next that neither settles nor serves adds only its errors and changes no player: not started, finished, in progress before the deadline, and at or after it the error of the failed save and then in progress |
| Deliveries.LastTimeoutIsTold | api/internal/game/play.go:65-77 | a q.next that times the last question out adds what is public and then the finished error, which is left out if the session is over by it |
| Deliveries.AttachIsGreeted | api/internal/game/room.go:148-169 | a new connection of a player hears room.state with the player's numbers and then the open question, if any, with the time left; or, if the session is over by the attach, room.ended and Close |
| Deliveries.NewcomerIsAnnounced | api/internal/game/room.go:249-264 | a newcomer is last in the roster, without progress, and the host hears of it |
| Deliveries.HostIsGreeted | api/internal/game/room.go:171-183 | a host connection hears room.state with zeros if it comes from the host of the room, and otherwise nothing changes |
| Deliveries.DetachLeavesTheRest | api/internal/game/room.go:185-196 | a connection that goes away is let go, alone, and nothing is said |
| Messages.EverybodyHears | api/internal/game/room.go:343-352 | in a live room a held connection that an event is not about hears exactly what is public: room.started if the session starts, a ranking if one is broadcast, room.ended and Close if it ends; one that is gone hears nothing |
| Goodbyes.NobodyGoesInSilence | api/internal/game/room.go:354-366 | in every run a connection that is let go, other than by its own leaving or a crash, has Close last on its log |
| Goodbyes.EndIsHeard | api/internal/game/room.go:287-298 | in every run, in the step that ends a session each connection held until then has room.ended with the best three players and then Close last on its log, and is let go |
| Goodbyes.SessionEndIsHeard | api/internal/game/room.go:287-298 | when the host or the deadline ends the session each log grows by exactly room.ended and Close |
| Goodbyes.KickIsTold | api/internal/game/room.go:304-323 | a kick that works adds exactly player.kicked and Close to the kicked connection, which is let go |
| Goodbyes.NewerConnectionCloses | api/internal/game/room.go:154-178 | a newer connection of the same player or of the host adds exactly Close to the one before, which is let go |
| Lifecycle.SessionMovesForward | api/internal/game/room.go:266-298 | status only moves from lobby to running to ended, and running only by start |
| Lifecycle.RunsEndOnce | api/internal/game/room.go:287-298 | in every run MarkRoomEnded was called once by a room object that has ended, and not at all by one that has not |
| Endings.EndIsToldOnce | api/internal/game/room.go:287-302 | in every run, the only step in which any room.ended is sent is the one that ends the room object: before it the object is alive and has not called MarkRoomEnded, after it it has, and processes nothing more |
| Endings.PodiumIsRight | api/internal/game/room.go:380-388 | in every run, every room.ended that any step sends names the best min(3, n) of the n players then in the room, each once, with their final scores; nobody left out or named later is better by score, then right answers, then time |
| Statuses.StatusesDifferExactly | api/internal/game/room.go:266-285 | in every run the status of a live room equals that of its row, unless it is a lobby over a running row; and that is so if and only if a Start in the lobby, since the last load, lost its acknowledgement |
| Statuses.LostStartLasts | api/internal/game/room.go:266-281 | such a room stays a lobby over a running row, and nobody resolves a question, through any further events with any outcome, unless the process stops or the host ends the session |
| Statuses.UnmarkedEndReturns | api/internal/game/room.go:287-298 | after the step that ends a live room the next load yields a live room again if and only if MarkRoomEnded was refused in that step and the time of the stored session is not up |
| Timing.StartIsDated | api/internal/store/queries/rooms.sql.go:155-157 | in every run a row that says running has as its start the wall clock of the step that moved it there from the lobby |
| Timing.LoadsForTwelveMinutes | api/internal/game/registry.go:49-57 | so a load of a running row gives a live room if and only if it comes less than twelve minutes after that step |
| Timing.DeadlineIsDated | api/internal/game/room.go:325-327 | in every run the deadline of a running room is twelve minutes after that step, or a millisecond after the load if that is later |
| Timing.FinishIsDated | api/internal/store/queries/answers.sql.go:47-52 | in every run finished_at is set exactly for players through with all questions, to the wall clock of the step that stored the last answer |
| Finale.EndsExactly | api/internal/game/play.go:238-248 | a running session is over by an event if and only if the host or the deadline ends it, or somebody got past a question or was removed, players are left, and all of them are through |
| Lifecycle.RunsStallExactly | api/internal/game/play.go:238-248 | after every event of a run a running room with players waits for an unfinished one, if and only if no load of the run finds a stalled, not yet expired session stored |
| Lifecycle.LoadStallsExactly | api/internal/game/registry.go:41-67 | a load yields a stalled room if and only if the stored session is running with players who all finished |
| Lifecycle.FinishedReloadStalls | api/internal/game/play.go:138-165 | that does happen: a run loses the last acknowledgement, crashes and reloads into a running room with nobody left to play |
| Advancing.PatientCallsFinish | api/internal/game/play.go:56-77 | over a working store, q.next calls at or after each deadline finish the player: no points, and exactly the remaining limits on the clock |
| Advancing.PatientAmongOthers | api/internal/game/play.go:56-77 | the same with any events of other players in between: once the player has made the calls needed, the player is still in the room, everything is resolved, without a point more and with exactly the remaining limits added |
| Advancing.NoGapAtTheDeadline | api/internal/game/play.go:34-37 | an open question can be graded exactly up to its deadline and settled exactly from it on, so at every instant at least one of them |
| RoomSpec.Resolve | api/internal/game/play.go:138-165 | touches one seat, as ResolveSeat says; reports success exactly for an acknowledged save; ends the session only when all are finished |
| RoomSpec.SettleExpired | api/internal/game/play.go:219-230 | touches one seat; the player is free exactly if nothing is active afterwards |
| RoomSpec.NextQuestion | api/internal/game/play.go:56-77 | touches one seat, as NextSeat says, and nothing for a stranger |
| RoomSpec.SubmitAnswer | api/internal/game/play.go:79-98 | touches one seat, as SubmitSeat says, and nothing for a stranger |
| RoomSpec.AttachPlayer | api/internal/game/room.go:148-169 | settles that player's expired question and nobody else's; adds one connection |
| RoomSpec.EndIfAllFinished | api/internal/game/play.go:238-248 | ends a running session only if all players are finished, otherwise changes nothing |
| RoomSpec.StartSession | api/internal/game/room.go:266-285 | only a lobby starts, and only on an acknowledged update of the row |
| RoomSpec.Kick | api/internal/game/room.go:304-323 | the player leaves memory only after an acknowledged delete |
| LiveRoom.RoomObject.constructor | api/internal/game/room.go:121-138 | a new room object holds the stored players in join order, nothing active, the deadline armed for the rest of the session |
| LiveRoom.RoomObject.Process | api/internal/game/room.go:204-220 | one event on the fields of the room, its player states, the store, the board and the connections does exactly what the step of a run says |
| LiveRoom.Load | api/internal/game/registry.go:41-67 | with its errors: not found for an ended session and for an unknown room or question, a failed read reported as such; an expired session is marked ended, and a failure to do so reported; otherwise a room object equal to the loaded snapshot with its board rebuilt |
| LiveRoom.RoomObject.Resolve | api/internal/game/play.go:138-165 | on the fields: the store first; if it refuses, memory, board and leaderboard stay and the player is told why, otherwise totals move on, the open question is gone, and the flag is true |
| LiveRoom.RoomObject.Persist | api/internal/game/play.go:167-176 | one SaveResult call |
| LiveRoom.RoomObject.RejectFailedSave | api/internal/game/play.go:178-185 | a duplicate is reported as already answered, anything else as internal |
| LiveRoom.RoomObject.OutcomeOf | api/internal/game/play.go:117-130 | the graded outcome, or a timeout for no option or a late one |
| LiveRoom.RoomObject.SettleExpired | api/internal/game/play.go:219-230 | on the fields: an open question past its deadline is resolved as a timeout without a message; the flag says whether the player is free |
| LiveRoom.RoomObject.NextQuestion | api/internal/game/play.go:56-77 | on the fields: refused before the start, during an open question and after the last; otherwise an expired question is settled and the next one served |
| LiveRoom.RoomObject.Answer | api/internal/game/play.go:79-98 | on the fields: refused before the start, for another question and for an unknown option; otherwise graded and resolved |
| LiveRoom.RoomObject.RejectUnservedAnswer | api/internal/game/play.go:100-106 | already answered or not served |
| LiveRoom.RoomObject.WasResolved | api/internal/game/play.go:108-115 | the loop finds the question among the resolved ones if and only if it is there |
| LiveRoom.RoomObject.Serve | api/internal/game/play.go:187-194 | on the fields: the first unresolved question, freshly shuffled, with its limit, starting now |
| LiveRoom.RoomObject.SendQuestion | api/internal/game/play.go:196-209 | q.show with index, site, level, prompt, the labels in this player's order, and the time left, never negative |
| LiveRoom.RoomObject.ShuffledOptions | api/internal/game/play.go:250-256 | shuffles a copy in place, unless true/false |
| LiveRoom.RoomObject.SendTo | api/internal/game/play.go:262-266 | one message to that player's connection, if any |
| LiveRoom.RoomObject.Standings | api/internal/game/play.go:270-280 | the loop over the roster |
| LiveRoom.RoomObject.MarkLeaderboardDirty | api/internal/game/play.go:283-302 | sends now, waits for a pending timer, or arms one |
| LiveRoom.RoomObject.BoardTimer | api/internal/game/play.go:294-301 | the timer sends if something is pending and the room has not ended |
| LiveRoom.RoomObject.SendLeaderboard | api/internal/game/play.go:304-314 | one broadcast of the ranking |
| LiveRoom.RoomObject.RankedIds | api/internal/game/play.go:317-333 | Redis' order if it covers all players, otherwise memory and a rebuild |
| LiveRoom.RoomObject.CoversAllPlayers | api/internal/game/play.go:335-345 | the loop decides: as many ids as players, and all of them players |
| LiveRoom.RoomObject.RestoreBoard | api/internal/game/play.go:347-364 | saves every standing |
| LiveRoom.RoomObject.EndIfAllFinished | api/internal/game/play.go:238-248 | the loop over all players |
| LiveRoom.RoomObject.AddPlayer | api/internal/game/room.go:249-257 | appends a new player state; a known player is left alone |
| LiveRoom.RoomObject.AddPlayerAndNotify | api/internal/game/room.go:259-264 | and tells the host |
| LiveRoom.RoomObject.AttachPlayer | api/internal/game/room.go:148-169 | in place, with the error for strangers |
| LiveRoom.RoomObject.AttachHost | api/internal/game/room.go:171-183 | a wrong host id is refused; the previous host connection is closed before the new one gets the state |
| LiveRoom.RoomObject.Detach | api/internal/game/room.go:185-196 | the loop clears exactly the seats and the host seat held by that connection |
| LiveRoom.RoomObject.StartSession | api/internal/game/room.go:266-285 | on the fields: the row first; only an acknowledged move from the lobby starts the session, arms the deadline and tells everybody |
| LiveRoom.RoomObject.EndSession | api/internal/game/room.go:287-298 | on the fields: once; the row is marked, everybody is told the podium, every connection is closed |
| LiveRoom.RoomObject.Podium | api/internal/game/room.go:380-388 | at most three, best first |
| LiveRoom.RoomObject.Kick | api/internal/game/room.go:304-323 | on the fields: the row first; then state, place in the order and board entry go, the connection is told and closed, the leaderboard is marked, and the session may be over |
| LiveRoom.RoomObject.Broadcast | api/internal/game/room.go:343-352 | the loop reaches every held connection exactly once |
| LiveRoom.RoomObject.CloseAll | api/internal/game/room.go:354-365 | the loop closes every held connection exactly once and lets go of it |
| LiveRoom.NewRoomIsFolded | api/internal/game/room.go:121-138 | adding the stored players one by one gives the loaded snapshot |
| Services.Store.SaveResult | api/internal/store/gameplay.go:100-132 | both statements or none: equal to the transaction of module Database |
| Services.Store.InsertAnswer | api/internal/store/queries/answers.sql.go:15-19 | inserts unless the key exists; says how many rows |
| Services.Store.UpdatePlayerProgress | api/internal/store/queries/answers.sql.go:47-52 | sets the five totals, finished_at once |
| Services.Store.DeletePlayer | api/internal/store/queries/players.sql.go:26-28 | the row, its answers and its place in the join order go |
| Services.Store.MarkRoomStarted | api/internal/store/queries/rooms.sql.go:155-157 | moves a lobby row only, and reports whether it did |
| Services.Store.MarkRoomEnded | api/internal/store/queries/rooms.sql.go:146-148 | an ended row stays ended |
| Services.RemoveId | api/internal/game/room.go:394-401 | the list without the first occurrence |
| Services.Board.Save | api/internal/leaderboard/redis.go:27-43 | overwrites the entry of each given player with its key, or nothing on failure |
| Services.Board.Order | api/internal/leaderboard/redis.go:46-52 | after evictions, all members with larger keys first |
| Services.Board.Forget | api/internal/leaderboard/redis.go:54-59 | removes one member, or nothing on failure |
| Leaderboard.RankedListsEntries | api/internal/leaderboard/redis.go:46-52 | reading the set back lists every member once, by falling key, ties by falling id |
| Leaderboard.AddedValue | api/internal/leaderboard/redis.go:27-43 | after ZADD each given player has the key just given |
| Leaderboard.AddedKeys | api/internal/leaderboard/redis.go:27-43 | and nobody else is touched |
| Database.SaveIsLocal | api/internal/store/gameplay.go:100-132 | a save touches one player's rows, in the way those rows alone determine |
| Common.Without | api/internal/game/room.go:394-401 | keeps everybody else, in a list without repetitions |
| World.SessionAndWire | api/internal/game/room.go:204-220 | only start, end and deadline change the session, unless the last player finishes; no event forgets a connection |
| Catalog.QuestionsByIds | api/internal/store/gameplay.go:60-84 | succeeds if and only if every id is there, and then keeps the order of the ids |
| Catalog.SelectionIsPlayable | api/internal/game/selector.go:25-49 | a selection from a validated bank is at most 15 distinct gradable questions of levels 1 to 3, as the gameplay proofs need |
| Scoring.ScoreIsIntegerFormula | api/internal/game/scoring.go:36-51 | the rounded real expression equals an integer quotient, with no division by zero |
| Scoring.ScoreRange | api/internal/game/scoring.go:36-51 | a correct answer in time scores between 60% and 100% of base plus the capped bonus |
| Scoring.ScoreNeverRisesWithTime | api/internal/game/scoring.go:44-51 | a slower answer never scores more |
| Scoring.InTimeByNanosecondsIsInTimeByMilliseconds | api/internal/game/play.go:118-130 | the lateness check of Score never fires on an answer the deadline let through |
| Scoring.LimitsAreWholeMilliseconds | api/internal/game/scoring.go:53-67 | limits are whole milliseconds, above the reading grace and at most 31250 ms |
| Scoring.PromisedBySpeed | api/internal/game/scoring_test.go:8-25 | the points that the tests promise for answers of different speed |
| Scoring.PromisedByStreak | api/internal/game/scoring_test.go:23-36 | the points that the tests promise for wrong answers, accuracy mode and streaks |
| Scoring.PromisedByLevel | api/internal/game/scoring_test.go:26-51 | the points that the tests promise for the other levels and timers |
| Scoring.PromisedLimits | api/internal/game/scoring_test.go:53-69 | timers and reading times of every level, a quarter more time and a second more to read in SD |
| Rank.KeyFoldsTheCriteria | api/internal/rank/rank.go:21-24 | on bounded standings one key compares like score, correct, total time, and is exact in a float64 |
| Rank.SortedIsStableSort | api/internal/rank/rank.go:27-35 | Order sorts by falling key, is a permutation, and keeps the input order inside ties |
| Rank.StableSortIsUnique | api/internal/rank/rank.go:27-35 | no other list has these properties |
| Rank.FirstOfTieHasSqlRank | api/internal/store/queries/results.sql.go:14-22 | the first of each tied group is where SQL ranks the group |
| Rank.SqlRankSplitsTheOrder | api/internal/store/queries/results.sql.go:14-22 | before the position RANK gives to a standing stand exactly the better ones |
| Rank.SortedByCriteria | api/internal/rank/rank.go:20-35 | Order goes by the three criteria in their order of importance |
| Rank.TiesKeepTheirOrder | api/internal/rank/rank.go:26-30 | two standings with equal keys come in the order of the input |
| Rank.SortInPlace | api/internal/rank/rank.go:27-30 | the in-place sort of the copied slice yields Sorted |
| Rank.MoveLeft | api/internal/rank/rank.go:27-30 | one round of the insertion sort |
| Rank.OrderStandings | api/internal/rank/rank.go:26-35 | copy, sort, collect ids |
| Shuffling.Shuffle | api/internal/game/play.go:250-256 | the in-place Fisher-Yates loop |
| Shuffling.ShuffledIsPermutation | api/internal/game/play.go:250-256 | every shuffle is a permutation |
| Shuffling.EveryPermutationIsDrawn | api/internal/game/play.go:250-256 | every permutation comes from some draws |
| Questions.GradingIgnoresOrder | api/internal/game/play.go:211-217 | for validated options and any permutation: an answer is right if and only if its id is the reported correct id, and exactly the original ids are accepted |
| Questions.FindOption | api/internal/game/play.go:379-386 | the loop decides membership |
| Questions.Judge | api/internal/game/play.go:388-395 | the verdict of the first option with that id |
| Questions.FindCorrectOption | api/internal/game/play.go:397-404 | the id of the first correct option |
| Questions.ValidateOptions | api/internal/seed/questions.go:137-170 | no problem if and only if the options are valid: allowed count, distinct well-formed ids, labels, exactly one correct |
| Questions.ValidateId | api/internal/seed/questions.go:114-135 | no problem if and only if the id is well formed and matches its site |
| Questions.ValidateQuestion | api/internal/seed/questions.go:96-112 | no problem if and only if the question is valid |
| Questions.ValidateQuestions | api/internal/seed/questions.go:65-77 | no problem if and only if ids are distinct and every question is valid |
| Selector.SelectQuestions | api/internal/game/selector.go:27-49 | for every shuffle: it selects if and only if each demand fits the supply, and then returns distinct pool ids of the prescribed sites and levels; otherwise it names a cell that lacks questions |
| Selector.ShuffledBuckets | api/internal/game/selector.go:58-68 | each bucket is a permutation of the pool's ids of that site and level |
| Selector.FillCells | api/internal/game/selector.go:35-48 | the loop over the stages: it selects if every demand fits the supply, and otherwise names a cell that lacks questions |
| Selector.FillSite | api/internal/game/selector.go:37-46 | the inner loop: the next unused id of the right bucket for each level of a site, or the first cell without one |
| Selector.PlanSize | api/internal/game/selector.go:51-56 | 15 questions, or 10 in a short session |
| Selector.SelectionIsLaidOut | api/internal/game/selector.go:30-56 | of a selection, entry 3(s-1)+i is a question of site s and of level i of its row; in a short session entries 2(s-1) and 2(s-1)+1 have the first and the third level |
| Selector.SitesGetHarder | api/internal/game/selector.go:17-21 | within a site levels never fall, and no site is worth less than the one before |
| Registry.AtMostOneRoomPerId | api/internal/game/registry.go:75-94 | in any interleaving two rooms of one id are never both alive, so at most one processes events |
| Registry.DoneRoomsAreNotRegistered | api/internal/game/room.go:204-207 | once done is closed the room is out of the registry |
| Registry.StoppedRoomsCanLeave | api/internal/game/registry.go:88-94 | a stopped room, even one that stops while spawn holds the lock, is unregistered after at most that spawn's exit |
| Registry.ForgetEvictsOnlyItself | api/internal/game/registry.go:88-94 | an entry disappears or changes only by the forget of that very room |
| Registry.ConcurrentLoadersShareTheRoom | api/internal/game/registry.go:41-86 | two callers hold the same room unless one of their rooms is done |
| Registry.LoadFindsExactly | api/internal/game/registry.go:41-67 | a readable room is not found if and only if it has ended or has run for twelve minutes, and in the second case it is marked ended |
| Registry.SpawnIsCurrentExactly | api/internal/game/registry.go:41-67 | for every interleaving of callers, room objects, joins and expiry marks: spawn makes a room from rows that are still as they were read if and only if since the read no join has committed, no other caller has marked the room expired, and no object made after the lookup has written; objects that existed at the lookup cannot have written any more |
| Registry.JoinAfterReading | api/internal/store/store.go:218-242 | the first way it fails, and only that one: a join commits between the read and spawn |
| Registry.ExpiryAfterReading | api/internal/game/registry.go:52-57 | the second way: read just before the twelve minutes, marked ended by another caller, then a running room is made on an ended row |
| Registry.OvertakenSpawnIsStale | api/internal/game/registry.go:41-67 | the third way: a room object made since the lookup ends the session and is forgotten, then a lobby is made on an ended row |
| StaleSpawns.RunsTrail | api/internal/game/registry.go:41-86 | in every run, with room objects made from rows read at any earlier time: each stored row is still the replay of honest answers, memory is the replay of the first of those answers, and whatever was read is part of what is stored now |
| StaleSpawns.SpawnAgreesExactly | api/internal/game/registry.go:58-86 | a new object agrees with the rows about a player if and only if, since the rows it was made from were read, no answer of that player has been stored |
| StaleSpawns.CurrentSpawnsKeepAgreement | api/internal/game/registry.go:41-86 | a run in which each such object was made from rows that are current about a player keeps the agreement of Persistence about that player throughout |
| StaleSpawns.UnplayedReadsAreCurrent | api/internal/game/registry.go:41-86 | rows that were read stay current about a player as long as that player asks, answers and attaches nothing, whatever else happens |
| StaleSpawns.BehindStaysBehind | api/internal/game/play.go:146-185 | a player whom such an object has left behind the rows stays there: no event but a kick and no number of retries moves memory or rows until the next object is made |
| StaleSpawns.StaleSpawnLeavesBehind | api/internal/game/registry.go:41-86 | that does happen: a run from the creation of the room reads the rows, stores an answer, ends the session and spawns from what was read, with the player back at the question whose answer is stored |
| Registry.Rooms.Lookup | api/internal/game/registry.go:69-73 | the method is the Lookup action of the step relation: it finds the one room of that id that is alive, or none of that id is alive |
| Registry.Rooms.EnterSpawn | api/internal/game/registry.go:75-83 | the EnterSpawn action: the alive room that is registered, or else a new object, which the caller now holds |
| Registry.Rooms.LeaveSpawn | api/internal/game/registry.go:84-86 | the LeaveSpawn action: the new object is registered and the lock released |
| Registry.Rooms.Forget | api/internal/game/registry.go:88-94 | the Forget action: afterwards no entry names that room, and every other entry is as before |
| Mailbox.CallTellsTheTruth | api/internal/game/room.go:231-247 | call reports ErrRoomClosed if and only if its function did not run and never will, and otherwise the function's own result |
| Mailbox.RunsAreTruthful | api/internal/game/room.go:204-247 | each function is queued, running or has run, never twice; replies belong to functions that ran |
| Mailbox.SomethingHelps | api/internal/game/room.go:222-247 | whoever waits, some step of that caller or of the loop is possible |
| Mailbox.NothingSetsBack | api/internal/game/room.go:222-247 | no step of anybody increases a caller's remaining steps, and each helping step decreases them |
| Mailbox.EnoughHelpReturns | api/internal/game/room.go:231-247 | so a call returns after a bounded number of helping steps |
| Capacity.NoRoomOverflows | api/internal/store/store.go:218-266 | in any interleaving of joins, kicks and endings a room has at most 15 committed players, and the count read under the lock stays an upper bound until the commit |
| Capacity.NeverTooManyRooms | api/internal/store/store.go:117-167 | in any interleaving of creations, PIN retries, endings and passing time at most 5 rooms are active, and no PIN is used twice |
| Capacity.JoinStepIsSafe | api/internal/store/queries/rooms.sql.go:135-137 | each statement of a join keeps that bound |
| Capacity.FifteenDecide | api/internal/store/store.go:218-266 | under the row lock a join is refused as full if and only if fifteen players are committed, and with fewer it can be committed |
| Capacity.EndedRoomsTakeNobody | api/internal/store/store.go:225-235 | once a room has ended and no join holds its row, nobody joins in any further run |
| Capacity.CommitStaysSafe | api/internal/store/queries/rooms.sql.go:15-18 | the count at the start of a transaction covers every room active at its commit |
| Capacity.FiveDecide | api/internal/store/store.go:148-154 | a creation is refused if and only if at least five rooms are active as of the start of its transaction, and is otherwise tallied |
| Capacity.AdmittedCanMake | api/internal/store/store.go:136-167 | with at most four and an unused PIN it can go on to its commit |
| Capacity.RefusalCounts | api/internal/store/queries/rooms.sql.go:15-18 | in every run the count is that of the rooms active now and of those whose two hours ended while the creator waited for the lock |
| Capacity.RefusalsSawFive | api/internal/store/store.go:152-154 | in every run each refusal has counted five rooms or more |
| Capacity.RefusalMayCountSix | api/internal/store/store.go:136-154 | and not always exactly five: a run in which it counts six |
| Capacity.EightTries | api/internal/store/store.go:117-134 | in every run a creator gives up for want of a PIN exactly after meeting eight that are in use |
| RateLimit.Limiter.Allow | api/internal/ratelimit/limiter.go:36-49 | counts in Redis while it can be reached and otherwise in memory; the answer is that of a limiter that never forgets, given the calls that reached that counter |
| RateLimit.RedisCounters.CountInRedis | api/internal/ratelimit/limiter.go:51-60 | INCR and EXPIRE NX count like the fixed window in memory |
| RateLimit.Limiter.CountInMemory | api/internal/ratelimit/limiter.go:62-76 | prunes, then counts in the current or a new window |
| RateLimit.Limiter.PruneExpired | api/internal/ratelimit/limiter.go:78-84 | removes exactly the windows that are over |
| RateLimit.PruningIsInvisible | api/internal/ratelimit/limiter.go:78-84 | after pruning, or after just waiting, the windows differ from those of a limiter that never prunes only by windows that are over |
| RateLimit.AtMostLimitPerWindow | api/internal/ratelimit/limiter.go:62-76 | at most limit calls pass per window |
| RateLimit.FewerThanTwiceTheLimit | api/internal/ratelimit/limiter.go:62-76 | in any half-open interval of one window length at most 2 limit - 1 calls of a key pass |
| RateLimit.TheBoundIsReached | api/internal/ratelimit/limiter.go:62-76 | and that many do pass in some run, for every limit |

## Left out

- Time: a handler reads the game clock and the wall clock once; both are whole nanoseconds and never run backwards. The
  microsecond rounding of stored timestamps is not modelled.
- Floating point: `Score` uses exact rationals, so rounding of an exact half inside float64 is not modelled.
- Random numbers: draws are arbitrary numbers; `Shuffling.EveryPermutationIsDrawn` shows that this loses no shuffle.
- Loading: reading the three row sets of a load is one step, atomic with the spawn in `World` and apart from it in
  `StaleSpawns` and `Registry`.
- The active question, the throttle and the connections of a crashed process are gone after a reload, as in the code.
- Delivery of a join to the live room: it may come late or never; until then the player holds no token, so the player's own
  events do not occur. Ids are never issued twice, and a connection is attached once.
- The outside of a connection is the log of what was sent and whether it was closed; queues, pumps and pings are not modelled.
- Registry loads: the three database reads are one action of the step relation that finds the room or does not.
- Go scheduling: no scheduler is modelled, so how soon the helping steps come is not stated.
- Transactions: joins and creations are step relations over their statements and locks, not classes; isolation is read committed.
- Rate limiting: nothing is stated about the sum of the two counters across a switch, and Redis loses no counter.
- LiveRoom.RoomObject.SendQuestion: prompt and labels are sent in both languages; choosing the player's is not modelled.
- Sorting: the insertion sort that sort.SliceStable runs on short slices; its merging of longer ones is not
  modelled, but any stable sort gives the same list (`Rank.StableSortIsUnique`).
- The ended_at column, which no modelled behaviour reads.
- Redis failures: a failed call changes nothing, and expiry of the whole key is an eviction of all its members.
- Player names, avatars, schools, languages, PIN lookup, texts of messages and the school leaderboard are not modelled.
- HTTP handlers, authentication, configuration, CSV export, seeding from files and the command-line tools are not modelled.
