# SilentTanks: a verified model

SilentTanks is a turn-based game server with fog of war and a client that replays recorded matches. This
project models its rule engine, match state machine, replay stepping, ranked matching, ratings and wire
formats in Dafny, and proves what they promise. `dafny verify dfyconfig.toml` checks everything.

Each component comes twice: as functions on values, about which the theorems are stated, and as a class or
method in the form of the source, whose contract equates the two.

| file | what it models |
|---|---|
| Basics.dfy | options, 8-bit arithmetic, offsets in a grid |
| Boards.dfy, GameInstance.dfy | the board as a value; the game instance with its arrays of cells and tanks |
| Commands.dfy | the server's and the replay's interpretation of a command |
| Eliminations.dfy | what an elimination does to the board |
| Effects.dfy, Areas.dfy | what each command does; shells and placements over whole runs |
| Vision.dfy | rays, visibility and partial views |
| Cones.dfy | which cells a tank sees, stated without rays |
| Replay.dfy, ReplayManager.dfy | forward and backward steps over a history; the replay manager |
| Matches.dfy, MatchInstance.dfy | a match as a state machine; the match instance and its handlers |
| Ledger.dfy, Fairness.dfy, Overruns.dfy | what all runs keep; fair play and exactly when it is kept; what goes wrong otherwise |
| Progress.dfy, Rankings.dfy, TurnOrder.dfy, Provenance.dfy | matches conclude; ranks follow eliminations; turns go round; commands come from their senders |
| Fidelity.dfy | replaying what the server recorded |
| Anchors.dfy | live tanks and their cells over whole runs, and the views there |
| Deliveries.dfy | a view on its way to the client |
| Duels.dfy | one match that reaches each exception the board and replay theorems name |
| Ranked.dfy, RankedQueue.dfy | the ranked queue and its pairing pass |
| Elos.dfy, ZeroSums.dfy, Upsets.dfy | the rating update; its zero-sum law for two players; which way ratings move |
| Codec.dfy, ViewCodec.dfy, Messages.dfy | wire formats; printers and parsers |
| Identities.dfy, ServerIdentity.dfy, ServerList.dfy | server identities and the client's list of them |
| Session.dfy | the rate limiter |

A match is a sequence of events on one strand: a posted start_turn runs, a command is delivered, a timer
fires, a player forfeits or reconnects. Several start_turns can be posted at once, so their number is part of
the state. An event *slips in* a placement if, in setup, it hands an unclaimed turn to a current player who is
dead or has placed everything, and the best command in that player's queue is a placement that passes every
check. An event is *harmless* if whoever it eliminates has no live tank and nobody standing where one of its
tanks lies, and the command it takes from the current player's queue, if any, is not, in play, a loaded shot
that meets a friendly tank first.

Where the code departs from its documentation or evident intent, the model follows the code:

- A shot whose first tank is friendly spares it on the server and damages it in the replay.
- A skip and an in-turn forfeit pass the turn on without claiming it. In play the next player may then move
  before its start_turn, which does no harm. In setup a player who has placed everything can place past its
  tank list, and a dead player can place a tank and own it.
- Eliminations are not recorded, so the replay of a history does not show them.
- Undoing a shot sets the tank's health to full, whatever it was, and undoing a kill also brings back every
  other tank lying on the cell.
- An elimination empties the cells of the player's long dead tanks too, also when somebody else has moved there.
- The documentation calls every rating update zero sum unless the floor applies. For two players, the only
  rated mode, that holds over exact reals; `elo_updates` with more players can lose a point to rounding.
- A pass of the ranked matcher does not try the last player of a bucket it found odd against its neighbours.
- The picture of a diagonal cone leaves out its far corner, which the rays reach, and near column or row 0 the
  rounding of a ray cuts off one of the two sight lines of two cells (Cones.dfy).
- The rate limiter loses part of a token at every call, so calls in quick succession get no refill.
- The replay parser refuses a replay with players but no moves.

## Model

| member | source | states |
|---|---|---|
| Boards.NewBoardIsSound | src/libgame/game-instance.cpp:55-69 | a fresh instance is consistent, every player owns its slice of the tank IDs and nothing is placed |
| Boards.OneStepFurther | src/libgame/game-instance.cpp:441-449 | k steps ahead is one step ahead of k - 1 steps, which a shell flying one step at a time relies on |
| Boards.ShotMeaning | src/libgame/game-instance.cpp:441-484 | a shell strikes a cell exactly when that cell is occupied, off terrain and in range, and every nearer cell exists, is off terrain and empty |
| Boards.VictimIsAnother | src/libgame/game-instance.cpp:441-484 | a shell never strikes its shooter |
| Cones.VictimMeaning | src/libgame/game-instance.cpp:428-484 | a tank is the victim of a shot exactly if it stands on the first occupied cell within four cells of a straight barrel, or three of a diagonal one, with nothing but open cells before it |
| Replay.LastAtIsLast | src/libgame/game-instance.cpp:556-571 | of the tanks lying on a repaired empty cell the one with the highest ID becomes its occupant |
| Boards.SlotOf | src/libgame/game-instance.cpp:1115-1122 | every tank ID is the k-th slot of some player; with GoodPlayer, who may own it is fixed |
| Boards.LiveTanksIsTrueCount | src/libgame/game-instance.cpp:612-632 | the live-tank count handed back with a view is the number of live tanks the player owns |
| GameInstances.GameInstance.constructor | src/libgame/game-instance.cpp:55-69 | the new instance holds the fresh board |
| GameInstances.GameInstance.NextCell | src/libgame/game-instance.cpp:148-412 | the eight bounds checks in wrapping arithmetic give the neighbouring cell, or none at the edge |
| GameInstances.GameInstance.IsOpen | src/libgame/game-instance.cpp:148-412 | the step is open exactly if the cell is free, off terrain, and a diagonal step passes its corner-terrain check |
| GameInstances.GameInstance.MoveTank | src/libgame/game-instance.cpp:119-426 | the in-place move leaves exactly the board of the move function and reports whether the tank moved |
| GameInstances.GameInstance.StepShell | src/libgame/game-instance.cpp:443-451 | one step of the shell in wrapping arithmetic is the next cell ahead, or off the board |
| GameInstances.GameInstance.FlyShell | src/libgame/game-instance.cpp:441-484 | the shell loop finds the cell of the shot function |
| GameInstances.GameInstance.DealDamage | src/libgame/tank-entity.cpp:37-46 | damage saturates at zero; the cell of a tank at zero health is cleared |
| GameInstances.GameInstance.FireTank | src/libgame/game-instance.cpp:428-485 | the server shot: the shell is spent, and the first tank on the line is damaged unless it is friendly |
| GameInstances.GameInstance.ReplayFireTank | src/libgame/game-instance.cpp:487-542 | the replay shot: the first tank on the line is damaged, friendly or not, and its position recorded |
| GameInstances.GameInstance.RepairTank | src/libgame/game-instance.cpp:544-572 | the occupant comes back to full health, or else every tank lying on the cell does, the last one as occupant |
| GameInstances.GameInstance.ReviveAt | src/libgame/game-instance.cpp:556-571 | the scan over the tank table: exactly the tanks on the cell are repaired and the last of them is named by it |
| GameInstances.GameInstance.PlaceTank | src/libgame/game-instance.cpp:1115-1151 | the placed tank takes the next slot, the cell and the tank list name it; on terrain it is dead at once |
| GameInstances.GameInstance.RemoveTank | src/libgame/game-instance.cpp:1153-1181 | the last placement is taken back field by field |
| Commands.MoveKeeps | src/libgame/game-instance.cpp:119-426 | a move keeps both halves of the cell/tank consistency, the slices and the map |
| Commands.DamageKeeps | src/libgame/game-instance.cpp:462-480 | so does damaging the tank a shell met |
| Commands.PlaceKeeps | src/libgame/game-instance.cpp:1115-1151 | so does a placement on a free cell off terrain |
| Commands.ServerKeepsBoard | src/server/match-instance.cpp:634-818 | every command the server accepts keeps: each occupied cell names a live tank standing there, each live tank is in bounds, off terrain and named by its cell |
| Commands.ReplayKeepsBoard | src/client/replay-manager.cpp:412-627 | the replay keeps the same for recorded commands |
| Commands.StepFidelity | src/client/replay-manager.cpp:412-627 | an accepted command is never refused by the replay, which reaches the same board if and only if the shot, if it is one, does not meet a friendly tank first |
| Commands.FlagFidelity | src/server/match-instance.cpp:645-818 | the success flags agree if and only if, besides, the command is no Load or Place |
| Duels.ReplayDiverges | src/libgame/game-instance.cpp:487-542 | a run of one match, faithful up to its eighteenth command, whose replay leaves the server's board with that command: a shot that meets a friendly tank first |
| Eliminations.EliminateKeeps | src/server/match-instance.cpp:606-617 | an elimination kills exactly the player's placed tanks and keeps every occupied cell naming a live tank that stands there |
| Eliminations.EliminateAnchoredIff | src/server/match-instance.cpp:608-617 | it keeps the converse (every live tank is named by its cell) if and only if no live tank of another player stands where one of the player's tanks lies |
| Eliminations.EliminateIdleIff | src/server/match-instance.cpp:606-617 | it leaves the board alone if and only if the player has no live tank and no live tank stands where one of the player's tanks lies |
| Duels.EliminationUnanchors | src/server/match-instance.cpp:608-617 | a run of one match after which a living player's forfeit empties the cell of a live tank |
| Eliminations.EliminateCounts | src/server/match-instance.cpp:606-617 | afterwards the player has no live tank, and all other counts are as before |
| Effects.MoveEffect | src/libgame/game-instance.cpp:119-426 | a tank moves one cell along its heading, or against it in reverse, exactly when the cell exists, is free and off terrain and a diagonal step does not squeeze between terrain; otherwise nothing at all changes |
| Effects.RotationEffect | src/libgame/game-instance.cpp:88-116 | 0 turns the tank, or its barrel, one eighth clockwise and anything else one eighth the other way, and nothing else changes |
| Effects.FireEffect | src/libgame/game-instance.cpp:428-485 | a shot is taken exactly by a loaded tank, costs its shell, and takes one health point from the first tank met if that is somebody else's and from no other; the cell is emptied with the last point |
| Effects.StepKeepsShells | src/server/match-instance.cpp:715-772 | after any event the record of every tank says loaded exactly if its last shot or reload in the history was a reload |
| Effects.ShotsAndReloadsAlternate | src/server/match-instance.cpp:715-772 | in the history of every run between two shots of one tank lies a reload of it, and between two reloads a shot |
| Areas.StepKeepsAreas | src/libgame/game-instance.h:168-183 | an event keeps all placements on record in their senders' areas of the map, off terrain |
| Areas.RunKeepsAreas | src/server/match-instance.cpp:773-808 | after any run every placement on record lies on the board, off terrain, on a cell marked with its sender's number |
| Anchors.StepAnchoredIff | src/server/match-instance.cpp:362-631 | an event keeps every live tank named by its cell if and only if it eliminates nobody on one of whose tanks somebody else stands |
| Anchors.RunIsAnchoredIff | src/server/match-instance.cpp:362-631 | so at every point of a run if and only if no elimination of the run does |
| Anchors.RunShowsTheTruth | src/server/match-instance.cpp:820-868 | after such a run from the start of a match every view shows the true occupant of each visible cell, lists it, and shows nobody elsewhere |
| Vision.MaskMeaning | src/libgame/game-instance.cpp:586-963 | a cell is visible exactly if one of the viewer's live tanks stands on it or sees it over the terrain: the mask depends on nothing else |
| Vision.SameMask | src/libgame/game-instance.cpp:586-963 | two states with the same map and the same own tanks give the same mask |
| Vision.NonInterference | src/libgame/game-instance.cpp:586-963 | two states with the same map and own tanks that agree on the occupants of the visible cells give identical views |
| Vision.ViewIsSound | src/libgame/game-instance.cpp:594-637 | every occupant shown is the true one on a visible cell, and every tank listed is a true record of the viewer's own or of one standing on a visible cell |
| Vision.ViewIsExact | src/libgame/game-instance.cpp:586-963 | on a consistent board each visible cell shows its true occupant and lists it, and no other cell shows anybody |
| Vision.ListedIff | src/libgame/game-instance.cpp:594-637 | the tanks a view lists are exactly the player's own placed ones, dead or alive, and the live ones on visible cells |
| Vision.TerrainEndsRay | src/libgame/game-instance.cpp:1062-1069 | a ray reveals nothing past its first terrain cell |
| Vision.ViewFitsByte | src/protocol/message.cpp:1398-1399 | a player with at most four tanks never lists more than 255, so the count fits the byte it is sent in |
| Cones.TankSeesIff | src/libgame/game-instance.cpp:638-957 | a live tank sees its own cell and exactly the cells of a cone ahead of its barrel whose lines of sight, cells named one by one, are flat; on any ground and at any edge of the board |
| Cones.VisibleIff | src/libgame/game-instance.cpp:586-963 | a cell is visible in a view exactly if one of the player's live tanks stands on it or has it in sight in that cone |
| Cones.FoliageHides | src/libgame/game-instance.cpp:1072-1099 | visible foliage has one of the player's live tanks on it or on a touching cell |
| Cones.AheadIsInSight | src/libgame/game-instance.cpp:638-957 | over flat ground a tank has the cells straight ahead of its barrel in sight, four on a straight barrel and three on a diagonal one |
| Cones.TargetIsSeen | src/libgame/game-instance.cpp:586-963 | what a tank's shot can strike over flat ground its player sees and finds listed |
| Deliveries.ReadBackIff | src/protocol/message.cpp:1390-1459 | the client parses what was printed if and only if fewer than 256 tanks are listed |
| Deliveries.ClientSeesTheView | src/server/match-instance.cpp:820-868 | the view the server computes is the view the client reads, always with at most four tanks a player |
| Deliveries.BytesTellNothingElse | src/server/match-instance.cpp:820-868 | two matches with the same public state, map and own tanks that agree on the visible occupants send the player the same bytes |
| GameInstances.GameInstance.TakeSample | src/libgame/game-instance.cpp:1056-1112 | one ray sample changes the view by exactly the acts of the sample |
| GameInstances.GameInstance.CastRay | src/libgame/game-instance.cpp:1000-1113 | the ray loop performs the acts of its samples up to the first that ends it |
| GameInstances.GameInstance.LookAround | src/libgame/game-instance.cpp:657-957 | the cone of a tank: all rays of its barrel direction in order |
| GameInstances.GameInstance.ComputeView | src/libgame/game-instance.cpp:586-963 | the in-place loops compute the view function, and the number of live tanks of the player |
| Replay.UndoMove | src/client/replay-manager.cpp:735-768 | reversing a move that happened is possible again, corner checks included, and puts the tank back |
| Replay.UndoPlace | src/client/replay-manager.cpp:902-920 | taking back a placement restores cell, tank, count and tank list |
| Replay.UndoWound | src/client/replay-manager.cpp:859-868 | undoing a shot that only wounded restores everything except that tank's health, which becomes full |
| Replay.UndoKill | src/client/replay-manager.cpp:859-868 | undoing a killing shot brings back every tank lying on the cell at full health |
| Replay.UndoFire | src/client/replay-manager.cpp:825-871 | undoing a shot retraces it and reloads the tank |
| Replay.UndoStep | src/client/replay-manager.cpp:733-940 | one backward step retraces one forward step from any board the later steps can have left |
| Replay.UndoRun | src/client/replay-manager.cpp:377-940 | after any recorded history and as many backward steps none is refused, and the board is the first one up to tanks repaired on the way |
| Replay.UndoRestoresIff | src/client/replay-manager.cpp:377-940 | the board is restored exactly if and only if every tank that was on it and is repaired on the way back was at full health |
| Duels.RepairOvershoots | src/libgame/game-instance.cpp:544-572 | a run of one match after which one shot, replayed and undone, does not lead back to the same board |
| ReplayManagers.AheadIsForward | src/client/replay-manager.cpp:377-627 | k steps of the replay position are k forward steps over the history, statuses included |
| ReplayManagers.BackIsBackward | src/client/replay-manager.cpp:697-940 | k steps back are k reversals, the latest move first |
| ReplayManagers.ThereAndBack | src/client/replay-manager.cpp:377-940 | k steps forward and k back end at the same move, and on the same board if and only if every tank repaired on the way back was whole |
| ReplayManagers.ReplayManager.constructor | src/client/replay-manager.cpp:307 | a replay starts before its first move |
| ReplayManagers.ReplayManager.ReplayTank | src/client/replay-manager.cpp:412-573 | the forward case split over commands to tanks |
| ReplayManagers.ReplayManager.ReplayPlace | src/client/replay-manager.cpp:574-606 | the forward placement, without the server's phase and mask checks |
| ReplayManagers.ReplayManager.StepForward | src/client/replay-manager.cpp:377-627 | a step records its status and advances; a refused move or the end of the history changes nothing |
| ReplayManagers.ReplayManager.RepairAll | src/client/replay-manager.cpp:861-867 | each recorded hit is repaired in order |
| ReplayManagers.ReplayManager.RevertTank | src/client/replay-manager.cpp:733-901 | the backward case split over commands to tanks |
| ReplayManagers.ReplayManager.RevertPlace | src/client/replay-manager.cpp:902-920 | the backward placement |
| ReplayManagers.ReplayManager.StepBackward | src/client/replay-manager.cpp:697-940 | a step back reverts the last move; at the start, or when refused, nothing changes |
| Matches.ViewsDrop | src/server/match-instance.cpp:820-868 | computing all views drops exactly the living players without a live tank, and nobody during setup |
| Matches.Top | src/server/match-instance.cpp:500-501 | the command taken is the one with the least sequence number |
| Ledger.FallKeepsLedger | src/server/match-instance.cpp:591-595 | a player dropping out keeps the ledger: remaining is the number alive, counter = n - remaining, the dead hold ranks 0 .. counter - 1 once each |
| Ledger.StepIsSane | src/server/match-instance.cpp:362-631 | every handler, in any order, keeps the ledger, "alive means armed", placements before all else, and timers in the past |
| Ledger.RunIsSane | src/server/match-instance.cpp:362-631 | so does every run |
| Ledger.ConclusionRanksEveryone | src/server/match-instance.cpp:870-891 | when any match concludes, the elimination order is a permutation of 0 .. n - 1, also when nobody is left alive |
| Ledger.SkipChainEnds | src/server/match-instance.cpp:362-438 | from any running state with a start_turn posted, fewer than n skips follow, and then a start_turn concludes the match or opens the turn of a living player; the one that ends setup while the first player is dead is included |
| Progress.StepIsLive | src/server/match-instance.cpp:362-631 | every event leaves a start_turn posted or an unclaimed, timed turn of a living player open, unless the match is concluded |
| Progress.RunIsLive | src/server/match-instance.cpp:362-631 | so no run from the start gets stuck |
| Progress.DecidedConcludes | src/server/match-instance.cpp:362-386 | whenever at most one player is left the conclusion is posted: the next start_turn to run concludes the match |
| Progress.LeftAloneConcludes | src/server/match-instance.cpp:362-631 | from every fair state of every run the posted start_turns and expiring timers alone lead to a conclusion that ranks all players |
| Progress.FairRunCanConclude | src/server/match-instance.cpp:362-631 | so after any run from the start in which no placement slips in |
| Rankings.ViewsRankBySeat | src/server/match-instance.cpp:820-868 | of two players found without a live tank at once the one in the lower seat ranks lower, and both rank above all earlier losers |
| Rankings.EliminationKeepsRanks | src/server/match-instance.cpp:577-631 | an eliminated player gets the next rank, nobody loses a rank, and players it leaves without tanks rank above it |
| Rankings.StepKeepsRanks | src/server/match-instance.cpp:362-902 | no event takes a rank back, and whoever it drops ranks above everybody dropped before |
| Rankings.EarlierOutRanksLower | src/server/match-instance.cpp:870-890 | if at some point of a run one player is out and another is still in, the first finishes below the second |
| TurnOrder.StepPassesTurn | src/server/match-instance.cpp:449-631 | in play an event leaves the turn where it is, or passes it to the next seat after three moves or because its player is out |
| TurnOrder.RunIsSeated | src/server/match-instance.cpp:362-631 | in play a turn lasts three moves unless its player drops out, and between the seats of successive turns, and up to the current player, lie only seats of dead players |
| Provenance.ArrivalTakesBest | src/server/match-instance.cpp:449-570 | of the commands waiting for the current player one with the least sequence number is taken, recorded if it is accepted, and the others go on waiting in order |
| Provenance.StepHolds | src/server/match-instance.cpp:76-148 | counting each command, what has been executed or waits never grows by more than the command delivered, in the name of whoever delivered it |
| Provenance.HistoryIsDelivered | src/server/match-instance.cpp:76-148 | every command in the history of a run was delivered by its sender, at least as often as it was executed |
| Provenance.DroppedIsForgotten | src/server/match-instance.cpp:150-256 | nothing a player sent before a reconnect or a forfeit is executed after it |
| Provenance.RunIsPaced | src/server/match-instance.cpp:449-470 | after any run no more commands have been executed than turns begun, counting one before the first, and at most eight wait in each queue |
| Fairness.InitialIsFair | src/server/match-instance.cpp:37-68 | a new match is fair: setup in rounds, history in turns, the dead without live tanks |
| Fairness.SetupEndsExactly | src/server/match-instance.cpp:367-378 | setup ends exactly when every living player has placed all tanks; until then living players' counts differ by at most one |
| Fairness.PlacementIsFair | src/server/match-instance.cpp:529-540 | an accepted placement passes the turn on and keeps the round |
| Fairness.EliminationIsFair | src/server/match-instance.cpp:577-631 | a forfeit or timeout keeps the round, the turns in order and the dead without live tanks |
| Fairness.StepIsFairIff | src/server/match-instance.cpp:362-631 | from any fair state an event leads to a fair state if and only if it does not slip in a placement: in setup, an unclaimed turn, and the best queued command a placement that passes every check for a current player who is dead or has placed everything |
| Fairness.RunIsFairIff | src/server/match-instance.cpp:362-631 | a run stays fair throughout if and only if no placement slips in; so counts stay within one, no placement leaves its slice, the history is placements then turns of at most three moves by one sender, fewer only when cut, and the dead own no live tank |
| Fairness.WaitingIsFair | src/server/match-instance.cpp:362-438 | if in setup every accepted command finds its turn opened for its sender, nothing slips in and the run stays fair |
| Fairness.PlayIsFair | src/server/match-instance.cpp:362-631 | once setup is over every run stays fair, whenever its commands come |
| Overruns.OverrunIff | src/server/match-instance.cpp:449-530 | from any fair state, a placement runs past its player's tank list if and only if it slips in for a player who has placed everything |
| Overruns.OtherSlipsArmTheDead | src/server/match-instance.cpp:449-540 | every other slip leaves a dead player with a live tank, counted as placed |
| Overruns.ForfeitLeavesTurnOpen | src/server/match-instance.cpp:622-631 | an in-turn forfeit leaves its turn unclaimed, and the next player can place once too often |
| Overruns.SetupCanOverrun | src/server/match-instance.cpp:449-631 | a concrete run of five events from a fresh two-player match that places past the tank list |
| Overruns.SetupCanArmTheDead | src/server/match-instance.cpp:449-631 | a concrete run of four events from a fresh four-player match after which a dead player owns a live tank and setup goes on |
| MatchInstances.MatchInstance.constructor | src/server/match-instance.cpp:37-68 | a new match: everybody alive, setup, nothing placed; Valid() holds |
| MatchInstances.MatchInstance.ComputeAllViews | src/server/match-instance.cpp:820-868 | the in-place loop is the views function |
| MatchInstances.MatchInstance.DestroyTanks | src/server/match-instance.cpp:608-617 | the loop zeroes the health of exactly the listed tanks and empties exactly the cells they lie on |
| MatchInstances.MatchInstance.RemovePlayer | src/server/match-instance.cpp:585-617 | queue dropped, ledger advanced, setup total reduced, tanks destroyed |
| MatchInstances.MatchInstance.HandleElimination | src/server/match-instance.cpp:577-631 | the whole handler, including the turn passing on |
| MatchInstances.MatchInstance.CommandTank | src/server/match-instance.cpp:648-765 | the case split over commands to tanks answers as the server function |
| MatchInstances.MatchInstance.PlaceByCommand | src/server/match-instance.cpp:766-810 | the placement checks; a placement past the tank list is flagged |
| MatchInstances.MatchInstance.ApplyCommand | src/server/match-instance.cpp:634-818 | board, answer and setup total after any command in any phase |
| MatchInstances.MatchInstance.Accept | src/server/match-instance.cpp:505-570 | an accepted command is recorded and the turn advanced; a refused one restarts the turn |
| MatchInstances.MatchInstance.Pop | src/server/match-instance.cpp:500-501 | the best command leaves the queue |
| MatchInstances.MatchInstance.MoveArrived | src/server/match-instance.cpp:449-570 | the handler of an arrived move |
| MatchInstances.MatchInstance.ConcludeGame | src/server/match-instance.cpp:870-891 | the loop gives every living player the last rank |
| MatchInstances.MatchInstance.NewTurn | src/server/match-instance.cpp:362-378 | a new turn ID, and the switch to play |
| MatchInstances.MatchInstance.StartTurn | src/server/match-instance.cpp:362-438 | the handler that concludes, skips or opens a turn; it keeps Valid() |
| MatchInstances.MatchInstance.ReceiveCommand | src/server/match-instance.cpp:76-147 | the posted handler: stale turn, full queue, overridden sender; it keeps Valid() |
| MatchInstances.MatchInstance.TimerHandler | src/server/match-instance.cpp:405-430 | a timer acts only for its own unclaimed turn; it keeps Valid() |
| MatchInstances.MatchInstance.ForfeitBy | src/server/match-instance.cpp:150-188 | a forfeit before the conclusion eliminates the player; it keeps Valid() |
| Fidelity.StepFaithfulIff | src/server/match-instance.cpp:362-631 | an event keeps the recorded history faithful to the server's board if and only if whoever it eliminates has nothing left on the board and it does not take, in play, a loaded shot that meets a friendly tank first |
| Fidelity.RunIsFaithfulIff | src/client/replay-manager.cpp:377-627 | replaying the recorded history gives the server's board after every prefix of a run, both halves of consistency included, if and only if every event of the run is harmless in that sense |
| Fidelity.ReplayOfMatch | src/client/replay-manager.cpp:377-940 | from the start of a match with harmless events the replay is faithful, and rewinding it fully gives the empty board |
| Ranked.BucketMeaning | src/server/match-strategy.cpp:492-508 | buckets are 25 points wide from 500 on, and ratings below the first or above the last fall into it |
| Ranked.Nearest | src/server/match-strategy.cpp:421-441 | the partner bucket is the nearest occupied one within the window, the lower first; none means the window is clear |
| Ranked.WindowMeaning | src/server/match-strategy.cpp:395-414 | an entry may look d buckets away exactly if it has waited d times fifteen seconds and d is at most sixteen |
| Ranked.EnqueueKeepsIndex | src/server/match-strategy.cpp:305-333 | joining keeps index and buckets in agreement and the buckets in order of arrival, and changes nothing if and only if the player is waiting already |
| Ranked.CancelKeepsIndex | src/server/match-strategy.cpp:335-355 | so does cancelling |
| Ranked.PairingKeeps | src/server/match-strategy.cpp:460-490 | so does a pairing; the two leave queue and index together and are inside the window |
| Ranked.StepIsSound | src/server/match-strategy.cpp:305-490 | every handler keeps index agreement, conservation of entries and window soundness |
| Ranked.RunIsSound | src/server/match-strategy.cpp:305-490 | after any run index and buckets agree, every entry is queued, cancelled or in one pairing, and in every pairing d > 0 buckets apart the searching player has waited d times fifteen seconds, d at most sixteen |
| Ranked.PairedRatingsAreClose | src/server/match-strategy.cpp:395-441 | paired ratings are less than 25 (d + 1) points apart for some d the searching player has waited fifteen seconds each for, and less than 425 |
| Ranked.OnePass | src/server/match-strategy.cpp:371-458 | one pass leaves at most one player per bucket, and only the last of a bucket that is odd and holds three or more when the pass comes to it can be left with somebody in its window; without such a bucket the pass settles the queue |
| Ranked.SettledIffIdle | src/server/match-strategy.cpp:371-458 | a pass over thin buckets settles them, and changes nothing if and only if they were settled |
| Ranked.SettledKeepsApart | src/server/match-strategy.cpp:372-460 | in a settled queue nobody who has waited d times fifteen seconds, d up to sixteen, has anyone within d buckets |
| Ranked.ThirdPassIdles | src/server/match-strategy.cpp:371-458 | after two passes at one clock a third matches nobody |
| Ranked.LeftoverIsMissed | src/server/match-strategy.cpp:448-456 | a first pass does not try an odd bucket's leftover against its neighbours |
| Ranked.EvenBucketIsMissed | src/server/match-strategy.cpp:371-458 | a bucket of four can be left over too, when a higher bucket takes one of its players first |
| Ranked.EvenCaseIsReached | src/server/match-strategy.cpp:305-333 | six joins reach that case |
| Ranked.LeftoverCaseIsReached | src/server/match-strategy.cpp:448-456 | four joins reach that case |
| RankedQueues.RankedTwoPlayerStrategy.Enqueue | src/server/match-strategy.cpp:305-333 | the handler edits list and index together |
| RankedQueues.RankedTwoPlayerStrategy.Cancel | src/server/match-strategy.cpp:335-355 | the handler erases through the index |
| RankedQueues.RankedTwoPlayerStrategy.MatchAndRemove | src/server/match-strategy.cpp:460-490 | the second player is erased first, through the index, and both fronts are gone |
| RankedQueues.RankedTwoPlayerStrategy.Neighbour | src/server/match-strategy.cpp:421-441 | the radius loop finds the nearest bucket |
| RankedQueues.RankedTwoPlayerStrategy.TryFormMatch | src/server/match-strategy.cpp:371-458 | the nested loops perform the sweep |
| Elos.OddsCancel | src/server/elo-updates.cpp:71-94 | the odds of two players add up to one on every branch, clamped or not |
| Elos.ExpectationsSum | src/server/elo-updates.cpp:60-102 | all expected scores add up to one per pair, whatever the ratings |
| Elos.RankIsTaken | src/server/elo-updates.cpp:38-47 | a ranking of n players takes every rank |
| Elos.ChangesCancel | src/server/elo-updates.cpp:104-116 | for any permutation of placements the unrounded changes add up to zero |
| Elos.ChangeIsBounded | src/server/elo-updates.cpp:104-116 | no unrounded change exceeds the scaled K factor |
| Elos.WinnerGains | src/server/elo-updates.cpp:104-116 | the winner never loses points, the first one out never gains any |
| Elos.BetterPlacedGainsMore | src/server/elo-updates.cpp:104-116 | of two players with one rating the better placed gains strictly more |
| Elos.UpdateIsDetermined | src/server/elo-updates.cpp:113-131 | ratings and placements determine the new ratings |
| Elos.TotalIsNearlyKept | src/server/elo-updates.cpp:113-131 | after rounding the total never drops by more than N/2, and moves by at most N/2 when no floor applies |
| Elos.RatingChangeIsBounded | src/server/elo-updates.cpp:113-131 | a rating at or above the floor changes by at most k + 1/2 and stays at or above it |
| Elos.TwoPlayersZeroSumIff | README.md:391 | a two-player update without floor is zero sum if and only if the change is no half-integer |
| ZeroSums.RatedPairIsZeroSum | README.md:391 | with integer ratings and f = 10^x it never is one: the zero-sum claim holds for every two-player update without floor |
| Upsets.ScoreFalls | src/server/elo-updates.cpp:70-96 | the expected score never rises with the opponent's rating, and is constant only beyond 2800 points either way |
| Upsets.FavouriteIff | src/server/elo-updates.cpp:70-96 | it is above one half exactly against a lower rated opponent, and one half between equals |
| Upsets.LowerExpectsLess | src/server/elo-updates.cpp:62-101 | the lower rated of two players is expected to score no more in all |
| Upsets.LowerRatedGainsMore | src/server/elo-updates.cpp:62-130 | for one and the same placement the lower rated of two players gains at least as much |
| Upsets.UpsetGainsMore | src/server/elo-updates.cpp:62-130 | a player placed better than a higher or equally rated one gains more |
| Rankings.LaterOutGainsMore | src/server/database.cpp:1062 | in a concluded match whoever outlived another player of the same or a higher rating gains more |
| Upsets.UpsetPaysIff | src/server/elo-updates.cpp:62-130 | of two players the winner gains more than sixteen points exactly if rated lower, less exactly if rated higher, and never more than thirty-two |
| Upsets.TenToOne | src/server/elo-updates.cpp:62-130 | four hundred points are odds of ten to one; 1200 beating 1600 gives 1229 and 1571 |
| Elos.FourPlayersLoseAPoint | README.md:391 | a four-player update without floor that loses a point: the zero-sum claim fails |
| Elos.ConcludedMatchIsBalanced | src/server/database.cpp:1062 | the order of any concluded match makes the update cancel out and nearly keep the total |
| Elos.ConcludedRatingIsBounded | src/server/database.cpp:1062 | and no player of it at or above the floor moves by more than k + 1/2, or below the floor |
| Elos.ExpectedScore | src/server/elo-updates.cpp:69-94 | the inner branch computes the table entry |
| Elos.ExpectedSum | src/server/elo-updates.cpp:60-97 | the inner loop sums one player's expected scores |
| Elos.EloUpdates | src/server/elo-updates.cpp:25-133 | the whole update: changes as in the formula, rounded and floored; fewer than two players are returned unchanged |
| Codec.BigThenValue | src/protocol/message.cpp:1074-1118 | numbers within their width survive network order |
| Codec.BigIsNetworkOrder | src/protocol/message.cpp:1074-1118 | byte i of k printed is digit k - 1 - i of the number to the base 256: the most significant byte travels first |
| Codec.ParseUserExact | src/protocol/message.cpp:466-510 | a user is read exactly if a valid user's print comes first |
| Codec.UserListExact | src/protocol/message.cpp:453-517 | the user-list parser accepts exactly the prints of lists of valid users and gives the list back |
| Codec.StaticExact | src/protocol/message.cpp:199-295 | the static-data parser accepts exactly the prints of at least 32 bytes with at most five valid users |
| Codec.ReplayExact | src/protocol/message.cpp:781-973 | the replay parser accepts exactly the prints of valid replays: fields in width, users = players, and a move if there are users |
| Codec.EmptyReplayIsRefused | src/protocol/message.cpp:925-929 | a replay with players and no moves is refused |
| ViewCodec.TimerRoundTrip | src/protocol/message.cpp:1448-1457 | 64-bit signed timers survive |
| ViewCodec.ViewParsePrintParse | src/protocol/message.cpp:292-408 | a payload is read exactly if it is as long as its first seven bytes promise; the view read is valid, and its print is that long and reads back the same |
| ViewCodec.ViewRoundTrip | src/protocol/message.cpp:1390-1459 | parsing inverts printing for up to 255 tanks and timers on any grid, whatever bytes follow |
| Messages.Message.CreateUserList | src/protocol/message.cpp:1204-1229 | the append loop builds the print |
| Messages.Message.CreateStaticMatchData | src/protocol/message.cpp:1348-1384 | the append loop builds the print |
| Messages.Message.CreateMatchReplay | src/protocol/message.cpp:1069-1161 | the append loops build the print |
| Messages.Message.CreatePlayerView | src/protocol/message.cpp:1390-1459 | the append loops build the print |
| Messages.Message.ReadUser | src/protocol/message.cpp:461-510 | the index walk reads one user or fails |
| Messages.Message.ToUserList | src/protocol/message.cpp:453-517 | the loop to the end of the payload is the parser |
| Messages.Message.ToStaticMatchData | src/protocol/message.cpp:199-295 | the counted loop and the mask |
| Messages.Message.ToMatchReplay | src/protocol/message.cpp:781-973 | the field reads, length checks, users and moves |
| Messages.Message.ToPlayerView | src/protocol/message.cpp:292-408 | the three record loops and their length checks |
| Identities.LineRoundTripIff | src/protocol/server-identity.cpp:170-200 | parsing a printed line gives the identity back if and only if the name has no closing brace, the address no closing bracket, the port fits and the fingerprint is 64 lower-case hex digits |
| Identities.ParsePrintParse | src/protocol/server-identity.cpp:170-200 | parse, print, parse is parse |
| Identities.ParsedIsCanonical | src/protocol/server-identity.cpp:27-117 | whatever is read can be written and read back |
| Identities.NumberOfDecimal | src/protocol/server-identity.cpp:89-105 | a printed port reads back |
| Identities.HexRoundTrip | src/protocol/server-identity.cpp:223-275 | 32 bytes printed in hex read back, with or without 0x |
| Identities.HexReadBack | src/protocol/server-identity.cpp:223-275 | only 64 hex digits give bytes, and printing those gives the digits in lower case |
| ServerIdentities.ServerIdentity.TryParseIdentityString | src/protocol/server-identity.cpp:27-117 | succeeds exactly when the parser does; a failure can only have replaced the address |
| ServerIdentities.ServerIdentity.TryParseListLine | src/protocol/server-identity.cpp:170-200 | succeeds exactly when the parser does; a failure can only have replaced name and address |
| ServerIdentities.HexStringToBytes | src/protocol/server-identity.cpp:223-261 | the loop is the conversion |
| ServerIdentities.BytesToHexString | src/protocol/server-identity.cpp:263-275 | the loop is the conversion |
| ServerLists.BijectiveIsOneToOne | src/client/server-list.cpp:368-478 | no two listed servers share a key |
| ServerLists.IndexIsDetermined | src/client/server-list.cpp:368-478 | the vector determines the index |
| ServerLists.FirstOfEachKeepsKeys | src/client/server-list.cpp:378-396 | removing duplicates keeps every key |
| ServerLists.FirstOfEachIsDistinct | src/client/server-list.cpp:378-396 | and leaves none twice |
| ServerLists.RemovalKeepsIndex | src/client/server-list.cpp:462-478 | taking a key out and moving later positions up keeps the bijection |
| ServerLists.ServerList.InitializeServerList | src/client/server-list.cpp:368-400 | the first identity of each key, indexed |
| ServerLists.ServerList.AddServerIdentity | src/client/server-list.cpp:402-447 | a new key is appended, or rolled back if saving fails; a known key changes nothing |
| ServerLists.ServerList.Reindex | src/client/server-list.cpp:471-478 | the loop over the map moves later positions up, in any order |
| ServerLists.ServerList.RemoveServerIdentity | src/client/server-list.cpp:449-489 | exactly the found server is gone and the index agrees |
| Sessions.AcceptedIsBounded | src/server/session.cpp:120-145 | over any run of requests, from any initial contents, the accepted cost is at most 100 + 10 per second between first and last |
| Sessions.SilenceRefills | src/server/session.cpp:126-130 | ten seconds of silence allow a burst of exactly up to a hundred |
| Sessions.AcceptsIff | src/server/session.cpp:120-145 | a request is accepted exactly if it costs at most a hundred and the tokens left, with ten for each second since the last call, cover it |
| Sessions.PatienceIsServed | src/server/session.cpp:120-145 | a client that waits a tenth of a second for each token it spends is never refused |
| Sessions.HasteStarves | src/server/session.cpp:126-132 | a client that never waits a tenth of a second between calls gets no refill at all: the part of a token is lost at every call |
| Sessions.Session.SpendTokens | src/server/session.cpp:120-145 | refill truncated and capped, then spend or refuse |

## Left out

- Commands.FlagFidelity: the server reports no success for Load and Place although they take effect; the model keeps that, so the flags agree for the other commands only.
- Ranked.OnePass: one direction only; when a bucket does leave one over, whether somebody is left inside that player's window depends on what the rest of the pass takes, and is not characterised.
- Replay.UndoRestoresIff: about the board; the header fields a backward step also touches (current player, fuel, phase) are not inverse to the forward ones.
- Elos.EloUpdates: `double` is taken as real, `pow` as any f with f(x) > 0 and f(x) f(-x) = 1 (in ZeroSums also f(1) = 10 and f(x + y) = f(x) f(y)), and 32 log2(N) as any k >= 0.
- ViewCodec.ViewParsePrintParse: an accepted payload need not be the print of its parse, because the parser ignores trailing bytes and turns every non-zero flag byte into true.
- Sessions.Session.SpendTokens: `double` seconds are taken as real; the weights of the commands are a parameter.
- Boards.Unplaced: the source leaves the `id_` of a tank that was never placed uninitialised and reads it nowhere; here it is the tank's own slot.
- Ray casting: `float` samples are exact fractions over the constants of the source, and a negative sample coordinate, which the source converts to an unsigned integer, is off the board.
- A placement past the end of a player's tank list is undefined behaviour in the source; a run stops there, marked corrupt.
- A match's turn IDs are unbounded here, 32 bits in the source; equal sequence numbers are taken in order of arrival, which std::priority_queue does not promise.
- Clocks: time left per player, increments, and when a timer expires (an event here); monotonic clocks are parameters.
- Looking up a player by user ID, messages to clients, callbacks, chat, shutdown, and a second conclude_game after the callbacks have been cleared.
- The global view of the replay client, its list of replays, and popups.
- The Command message (on little-endian hosts its sequence number comes back byte-swapped), the other small messages, and header length checks.
- The queue of a casual mode, MatchMaker, KeyedExecutor, UserManager, the database, files, sockets, TLS and the user interface.
- The endpoint form Address:Port of an identity, and fingerprints taken from certificates.
