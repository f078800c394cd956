# Battleship: a verified model

This project models the Battleship game under `project/src`: the board, the hunt-and-target bot, the
host's timed state machine, and the serial link over which a second machine follows the game. It proves
what these parts promise, over every fleet, every run and every interleaving of the two machines. The proofs
are for Dafny 4.11; `dafny verify dfyconfig.toml` checks them all.

## How the model is built

Code that updates variables in place is modelled twice: as a class whose methods change the same variables
with the same branches and loops, and as functions on values that say what the new state is. Each method is
proved to compute its function, and the properties are proved about the functions.

| file | part of the program |
|---|---|
| `Boards`, `BoardLaws`, `BoardObject` | the board, and `BoardOf(fleet, shots)`: every reachable board as a function of a fleet and a *set* of shots |
| `Rays`, `Hunt`, `HuntRuns`, `Fitting`, `BotObject` | the bot: its three modes, the walk over hit cells, whole hunts, and why its sampling loops can end |
| `Explosion`, `Host`, `HostObject` | the explosion timers and the host's handlers for timer, keyboard, mouse and messages |
| `HostControl`, `HostSteps`, `HostRuns`, `HostShots`, `HostProgress`, `HostPause`, `HostMisses`, `HostBot`, `HostEnd` | the host's invariant, and what holds over its runs |
| `PlaceInput`, `HostInput`, `ClientInput` | what keys, mouse packets and announced states mean on either machine |
| `HostPaths` | runs from `game_init` to the states in which the code does not do what its rules promise |
| `Protocol`, `Uart`, `SerialPort`, `SerialRuns` | frames, ring buffer, interrupt handler, and runs of interrupts |
| `Replica`, `Client`, `ClientObject` | the client, which plays no rules and shows what it is told |
| `Session`, `SessionSteps`, `SessionBattle`, `SessionRuns`, `SessionTheorems` | one game on two machines with two queues between them |
| `SessionShots`, `SessionSignals`, `SessionNews`, `SessionWinner` | a shot from cursor to board, the cursors, the log of the host, and the winner that the client shows |
| `LateShots`, `SessionPaths`, `WinnerPaths` | what happens without the premise of the sessions, and sessions that reach the states in which the code fails |

Three conventions. `rand()` is an arbitrary choice; where a loop draws until a draw is accepted, at most
`patience` draws are rejected, for any `patience`, and it is proved that an acceptable draw exists. The
union `g.data` is five words that the place, turn, menu and pause records overlay. A run is any sequence of
ticks, keys, mouse packets and messages that keeps the premises named below (`HostRuns.Enabled`); a run says
nothing about what follows a state in which the code would leave its arrays, and it is proved that there is none.

## Main results

- **Board.** After any shots at fresh cells, grid, hit counters, sunk flags and sunk count are a function of the
  fleet and the set of cells shot, so their order does not matter. A shot at any cell keeps the board
  explainable exactly if that cell is not hit or sunk already.
- **Bot.** Every shot of every hunt goes to a fresh cell of the grid. Search mode never gives up and needs at
  most three misses. Destroy mode gives up exactly when both ends of its run of hits are closed, which cannot
  happen along the axis of the ship it hit first; a complete hunt in which it does happen is given.
- **Host.** In every run the announced winner is right, only a miss hands the turn over, a battle has at most
  200 shots, the bot fires at fresh cells, drops no search, and drops a pursuit exactly when both ends are
  closed, and a pause changes nothing but the HUD clock. The bot shoots with an exact tick: in its turn the 30th
  less what its timer has counted, 69 ticks after a hit, and a miss makes it player 1's turn in 173. When a
  fleet is sunk the game is over with the tick that reads the last shot. A miss of player 1 hands the turn over
  with the 145th tick outside pauses, and not before, if and only if no further shot of player 1 is accepted
  between the end of the animation and the tick that reads the result. A run in which such a shot is accepted is
  given.
- **Players.** A ship is placed exactly on the cells from the cursor to the right or downwards, as R has turned it, if
  they are on the grid and free. Player 1 and the client's player shoot exactly at the cell under their cursor. The
  program ends exactly by Escape in the menu or after the game, the last item of a menu, or the client's word.
- **Serial link.** With at most 64 bytes an interrupt the ring never overflows, and 64 is the largest such
  number. Without line errors every byte reaches the parser if and only if no line status interrupt finds bytes:
  the handler throws those away even when it finds no error. Then, however interrupts cut the stream, the
  messages sent are the messages dispatched.
- **Two machines.** They talk over two queues that lose nothing, as the link does under the guard above. One
  premise: no shot that the host accepts arrives from the client while a miss of the client is waited out. In
  every session that keeps it each message finds its reader ready, both machines have the same fleets when the
  battle begins, and the client never shows anything false, however far behind it is. A client that has heard
  everything shows the host's boards exactly when every shot whose report was lost lies on a ship whose sinking
  was reported. A shot of the client hits on the host exactly the cell that was under the client's cursor, and no other
  shot reaches player 1's board. At the end the client shows the right winner, unless its player selects another item
  of the pause menu between the last two messages. The premise is needed: sessions reach the point where an impatient
  client breaks it, and then the client shows a hit that never happened.

## Where the code and its documentation differ

- README.md:150 and README.md:216 say that search mode, too, can exhaust its four tries. In the code it
  cannot: `HuntRuns.HuntTheorem`. For destroy mode the note is right: `HuntRuns.DestroyCanLoseAShip`.
- README.md:133 draws an edge from TURN_P2 to PAUSED. The host has none (project/src/controller/game.c:374);
  only the client pauses in its own turn, and the host is not told.
- project/src/model/board.h:65-72 counts at most five ships on a board. The keyboard code that places ships has
  no role guard, unlike the mouse code (project/src/controller/game.c:526-527): Enter during PLACE_SHIPS_P2 puts
  a ship of player 1's choice on the bot's board. `HostSteps.KeyKeepsExactly` says that this is the only key
  that breaks the invariant, and `HostPaths.KeyOverrunsTheBotsTable` that it can be pressed there and that the
  bot's own five ships then do not fit the table.
- README.md:138 reads as if every miss ended the turn. A miss of player 1 whose result is waiting to be read is
  overtaken by a shot accepted before the next tick, and its result is never read:
  `HostMisses.MissEndsTurnExactly` and `HostPaths.AMissIsOvertaken`.
- The host accepts a client's shot while a miss of the client is waited out
  (project/src/controller/game.c:711-725). Its result is read in player 1's turn, off player 2's board
  (project/src/controller/game.c:110-122): `LateShots.LateShotDeceives` and `SessionPaths.PremiseIsNeeded`.
- The winner that a client is told (project/src/controller/game.c:856-857) is the same word of the union as the
  selection in its pause menu (project/src/controller/game.c:249-250). A client that pauses its own turn and selects
  another item before it hears that the game is over shows the wrong winner (project/src/view/renderer.c:550):
  `SessionWinner.LateChoiceExactly` says that nothing else spoils it, and `WinnerPaths.WrongWinnerIsShown` is a session
  in which it happens.
- The comment at project/src/serial/uart.c:137 speaks of a line error, but the loop below it runs for every line
  status interrupt, and the mask of errors (project/src/serial/uart.h:116) has no break bit. Bytes drained without
  an error are lost and nothing is resynchronised: `SerialRuns.SilentDrainMisreads`.

## Model

| member | source | states |
|---|---|---|
| `Boards.BoardOfInverse` | project/src/model/board.h:65-70 | fleet and set of shots can be read back from a board, so `BoardOf` loses nothing |
| `Boards.InitialIsBoardOf` | project/src/model/board.c:4-14 | the cleared board is the board of the empty fleet and no shots |
| `Boards.InBoundsMeans` | project/src/model/board.c:16-27 | a ship is in bounds iff every one of its cells is on the grid |
| `Boards.PlaceRefines` | project/src/model/board.c:16-49 | placing a ship where it fits extends a legal fleet by that ship and changes nothing else |
| `Boards.AttackRefines` | project/src/model/board.c:51-82 | a shot at a fresh cell adds exactly that cell to the set of shots: grid, hits, sunk flags and sunk count included |
| `Boards.HitCounting` | project/src/model/board.c:63-66 | a ship's hit counter reaches its size exactly when its last cell is shot |
| `BoardLaws.FreshShot` | project/src/model/board.c:51-82 | on a legal board a fresh shot keeps the fleet, adds the cell to the shots and leaves a legal board |
| `BoardLaws.ShotStaysLegalExactly` | project/src/model/board.c:78-81 | attacking any cell keeps the board explainable by some fleet and shots iff the cell is not already hit or sunk |
| `BoardLaws.ShotsRefine` | project/src/model/board.c:51-82 | any sequence of distinct fresh shots gives the board of the fleet and the set of cells shot |
| `BoardLaws.OrderIndependent` | project/src/model/board.c:51-82 | permuting the shots gives the same board, counters and flags included |
| `BoardLaws.AllSunkMeansEveryCellShot` | project/src/model/board.c:90-92 | the board reports all sunk iff every cell of every ship was shot |
| `BoardLaws.AfloatMeansFreshCell` | project/src/model/board.c:84-92 | while a fleet is not sunk there is a ship cell left to shoot at |
| `BoardLaws.DamageConserved` | project/src/model/board.c:104-120 | hit counters add up to the hit cells, and hits and misses together are the shots |
| `BoardObject.Board.constructor` | project/src/model/board.c:4-14 | a new board object stands for the empty board |
| `BoardObject.Board.Init` | project/src/model/board.c:4-14 | clearing in place gives the empty board whatever was there |
| `BoardObject.Board.CanPlaceAt` | project/src/model/board.c:16-28 | true iff every cell of the ship, counted from its first to the right or downwards, is on the grid and empty |
| `BoardObject.Board.PaintShip` | project/src/model/board.c:41-46 | exactly the ship's cells get the new state |
| `BoardObject.Board.Place` | project/src/model/board.c:30-49 | the in-place update computes `PlaceShip` |
| `BoardObject.Board.Shoot` | project/src/model/board.c:51-82 | the in-place update computes `Attack`, and the result tells whether a ship cell was struck |
| `BoardObject.Board.DamageShip` | project/src/model/board.c:63-73 | the counting and sinking of one ship in place |
| `BoardObject.Board.AlreadyAttacked` | project/src/model/board.c:84-88 | true iff the cell is one of the shots |
| `BoardObject.Board.CountHits` | project/src/model/board.c:104-111 | the number of hit and sunk cells |
| `BoardObject.Board.CountMisses` | project/src/model/board.c:113-120 | the number of miss cells |
| `Rays.RunLength` | project/src/controller/bot.c:103-112 | the walk over hit cells: all cells passed are hits, the next one is not |
| `Rays.SameEnd` | project/src/controller/bot.c:108-111 | walking on along a run of hits keeps the same end in view, which is why the `continue` is harmless |
| `Rays.WoundedShipHasOpenRay` | project/src/controller/bot.c:92-117 | from any hit cell of a floating ship one of the two rays along the ship ends in a cell not yet attacked |
| `Hunt.SearchFinds` | project/src/controller/bot.c:119-129 | search mode fires in the first open direction it has not tried |
| `Hunt.PursueIs` | project/src/controller/bot.c:130-143 | destroy mode fires at an open end of the run through its first hit, the current side first, and gives up iff both are closed |
| `Hunt.ChooseIsSound` | project/src/controller/bot.c:78-148 | the chosen cell is in the grid and was never attacked; search mode stays; destroy mode falls back iff both ends are closed |
| `Hunt.OwnAxisNeverLost` | project/src/controller/bot.c:130-143 | destroy mode never gives up along the orientation of the ship that was hit first |
| `Hunt.RoundKeepsTracking` | project/src/controller/game.c:211-217 | a round of choose, attack and register keeps the bot's memory true of the board: a run of hits from first hit to current cell, directions tried are closed; a pursuit keeps its axis |
| `HuntRuns.EveryHuntTracks` | project/src/controller/bot.c:42-148 | after any number of rounds of any hunt that invariant holds, the fleet is unchanged and every round has shot a new cell |
| `HuntRuns.HuntTheorem` | project/src/controller/bot.c:56-137 | in every hunt search mode never falls back to random, neither choosing nor on a miss, and destroy mode does iff both ends are closed |
| `HuntRuns.FewMisses` | project/src/controller/bot.c:56-75 | at most three misses in a search, two in a pursuit, one in a pursuit along the first ship's axis |
| `HuntRuns.SearchIsShort` | project/src/controller/bot.c:56-68 | a search lasts at most four shots |
| `HuntRuns.HuntIsFinite` | project/src/controller/game.c:206-221 | no hunt has more rounds than the grid has cells |
| `HuntRuns.DestroyCanLoseAShip` | project/src/controller/bot.c:139-143 | a complete hunt after which destroy mode gives up although the first ship it hit still floats |
| `Fitting.NextShipFits` | project/src/controller/bot.c:16-30 | after any legal placement of the first ships the next one fits somewhere, so the sampling loop is never stuck |
| `BotObject.Bot.constructor` | project/src/controller/bot.c:10-14 | the initial values of the bot's variables |
| `BotObject.Bot.Reset` | project/src/controller/bot.c:32-40 | the bot as at the start, whatever it did before |
| `BotObject.Bot.RegisterResult` | project/src/controller/bot.c:42-76 | the in-place update computes `Register` |
| `BotObject.Bot.DrawCell` | project/src/controller/bot.c:79-87 | the rejection loop ends with a fresh cell of the grid |
| `BotObject.Bot.Look` | project/src/controller/bot.c:93-117 | one step along a ray: onto the open end, further along the same run, or blocked before a closed end |
| `BotObject.Bot.TurnFromBlocked` | project/src/controller/bot.c:119-136 | the change of direction when a cell is blocked |
| `BotObject.Bot.FollowRays` | project/src/controller/bot.c:88-143 | the directional loop terminates, finds exactly the cell the rays determine, and is back in random mode otherwise |
| `BotObject.Bot.ChooseAttack` | project/src/controller/bot.c:78-148 | with its one recursive call: a cell of the grid never attacked, and the state `Choose` |
| `BotObject.Bot.PlaceShips` | project/src/controller/bot.c:16-30 | ends with a complete fleet in bounds, pairwise disjoint, of the canonical sizes, on an otherwise empty board |
| `BotObject.Bot.DrawPlacement` | project/src/controller/bot.c:17-28 | the rejection loop for one ship ends with a position that fits |
| `Explosion.AnimatePaced` | project/src/view/renderer.c:344-373 | an animation tick brings the end one tick nearer, keeps cell and result, and sets the flag exactly at the end |
| `Explosion.Renderer.constructor` | project/src/view/renderer.c:390-399 | nothing shown at the start |
| `Explosion.Renderer.Reset` | project/src/view/renderer.c:390-406 | nothing shown after a reset |
| `Explosion.Renderer.Start` | project/src/view/renderer.c:330-342 | a shot is shown from its first frame, and an unread result is dropped |
| `Explosion.Renderer.Update` | project/src/view/renderer.c:344-373 | the in-place update computes `Animate`, with the eight frames of the sprite |
| `Explosion.Renderer.TakeFinished` | project/src/view/renderer.c:375-381 | true once for each finished explosion |
| `HostControl.CountdownKeeps` | project/src/controller/game.c:88-103 | the countdown keeps the control part of the invariant |
| `HostControl.ResolveKeeps` | project/src/controller/game.c:105-140 | reading a result keeps it, and the cell that is read is on the opponent's grid |
| `HostControl.PostAttackKeeps` | project/src/controller/game.c:142-159 | the pause after a miss keeps it |
| `HostControl.HandoverKeeps` | project/src/controller/game.c:161-178 | the handover keeps it |
| `HostSteps.InitInv` | project/src/controller/game.c:52-72 | the initial state satisfies the invariant |
| `HostSteps.BotAims` | project/src/controller/game.c:206-213 | when the bot is to fire there is a fresh cell, and it aims at one |
| `HostSteps.TickKeeps` | project/src/controller/handlers.c:19-24 | a timer interrupt, bot and animation included, keeps the invariant |
| `HostSteps.KeyKeepsExactly` | project/src/controller/game.c:227-445 | a key keeps the invariant iff it does not place a ship on the bot's board, and never leaves the arrays from a state of the invariant |
| `HostSteps.MouseKeeps` | project/src/controller/game.c:448-650 | every mouse packet keeps the invariant |
| `HostSteps.MsgKeeps` | project/src/controller/game.c:653-741 | every message that meets `MsgOk` keeps the invariant, shots at attacked cells in any state and accepted shots outside the wait after a miss included |
| `HostSteps.ClientShotKeepsExactly` | project/src/controller/game.c:711-725 | a shot accepted from a client, whatever is shown at the time, keeps the invariant iff no miss is being waited out |
| `HostRuns.EveryStateSafe` | project/src/controller/game.c:75-741 | the invariant holds in every state of every run |
| `HostRuns.WinnerIsRight` | project/src/controller/game.c:124-133 | at game over the announced winner has shot every ship cell of the opponent and has one of its own left; a fleet lost before that was lost in the running turn by a shot still to be read |
| `HostRuns.PendingShotIsReal` | project/src/controller/game.c:105-120 | in every run, the shot that is shown or waited out is an attacked cell of the opponent's board, shown as the hit or miss it was |
| `HostRuns.FlowDiscipline` | project/src/controller/game.c:105-178 | states change only along the flow of the game; a turn is handed over only after a miss on the opponent's board; the game ends only with the opponent's fleet sunk |
| `HostShots.BotHoldsFire` | project/src/controller/game.c:206-221 | the bot fires only in its turn, with no shot unresolved and no pause running, at a fresh cell |
| `HostShots.BotHuntsInRuns` | project/src/controller/game.c:206-221 | in every run every shot of the bot goes to a fresh cell, search mode never gives up, destroy mode does iff both ends are closed, and a pursuit keeps its axis; a first hit begins a search around its cell, a second the pursuit, which lasts until the ship is sunk |
| `HostShots.EventShoots` | project/src/controller/game.c:391-407 | an event of a battle leaves both boards alone or is one shot of the player whose turn it is at a fresh cell |
| `HostShots.BattleIsFinite` | project/src/controller/game.c:206-221 | a battle keeps the fleets and has at most 100 shots a board and 200 in all |
| `HostMisses.MissStandsExactly` | project/src/controller/game.c:391-407 | whatever happens, a standing miss of player 1 goes on or the turn is handed over, and no board changes, iff the event is not Enter, Space or a click at a fresh cell while nothing is shown |
| `HostMisses.MissEndsTurnExactly` | project/src/controller/game.c:105-159 | in every run the turn is handed over with the last of the remaining ticks iff no shot has overtaken the miss by then |
| `HostMisses.HandoverNotEarly` | project/src/controller/game.c:142-159 | and in no state before, overtaken or not |
| `HostMisses.NoHandoverBefore` | project/src/controller/game.c:105-159 | from any state in which the handover is at least `n` ticks away it does not come within fewer |
| `HostMisses.WaterShotOnItsWay` | project/src/view/renderer.c:344-373 | a shot of player 1 into the water is 145 ticks from the handover |
| `HostPaths.AMissIsOvertaken` | project/src/view/renderer.c:330-342 | a run from the start of the program in which a miss is overtaken, after which the turn is not handed over for 100 ticks at the least |
| `HostPaths.KeyOverrunsTheBotsTable` | project/src/controller/game.c:197-205 | a run after which Enter places a ship on the bot's board, the next tick is the one in which the bot places its five, and the table is full before the fifth |
| `HostProgress.TickApproaches` | project/src/controller/game.c:88-178 | during countdown, handover, pause after a miss, or a miss of the bot being shown, each tick brings the next turn exactly one tick nearer |
| `HostProgress.InputIgnored` | project/src/controller/game.c:376-376 | meanwhile keys and clicks do nothing, and messages touch only the link |
| `HostProgress.ClockRuns` | project/src/controller/game.c:88-178 | over any stretch of a run with any inputs, ticks count down exactly |
| `HostProgress.NextTurnOnTime` | project/src/controller/game.c:161-178 | the next turn begins with the last of the remaining ticks |
| `HostProgress.NextTurnNotEarly` | project/src/controller/game.c:161-178 | and in no state before |
| `HostProgress.BotMissTakes173Ticks` | project/src/controller/game.c:142-178 | after a bot's shot into the water it is player 1's turn in 173 ticks |
| `HostPause.StepInPause` | project/src/controller/game.c:418-427 | in a pause the clock and the link change neither tags nor union, and input at most the menu choice until it resumes |
| `HostPause.OnlyEscapePauses` | project/src/controller/game.c:361-361 | only the Escape key pauses, and it does nothing else |
| `HostPause.PauseIsTransparent` | project/src/controller/game.h:108-130 | however long a pause lasts, the state that is resumed is the one that was left, ship index, orientation and cursors included |
| `HostBot.BotStep` | project/src/controller/game.c:197-221 | from the handover to the bot on, each tick brings its shot exactly one tick nearer, and no input or message moves it; the timer stands still while a hit is shown |
| `HostBot.BotHoldsUntil` | project/src/controller/game.c:206-208 | over any stretch of a run fewer ticks than that leave both boards alone |
| `HostBot.BotShootsOnTime` | project/src/controller/game.c:206-221 | with the last of these ticks the bot shoots at a fresh cell of player 1's board; if it hits, the next shot is 69 ticks away, if not, player 1's turn 173 |
| `HostBot.BotShootsInItsTurn` | project/src/controller/game.c:206-221 | in the bot's turn with nothing shown, tick number max(1, 30 - timer) is the one that shoots, and none before |
| `HostBot.BotPlacesNotEarly` | project/src/controller/game.c:197-200 | before the bot places its ships no event changes a board, the key that places one for it aside |
| `HostBot.BotPlacesOnTime` | project/src/controller/game.c:197-205 | the bot places five ships in the 60th tick after player 1's last, those in a pause not counted, and the first turn is then 150 ticks away |
| `HostEnd.EndStep` | project/src/controller/game.c:105-133 | once a fleet is sunk each tick outside a pause brings the end one tick nearer, and an accepted shot, which can only hit water, starts the count again |
| `HostEnd.GameEndsOnTime` | project/src/controller/game.c:124-133 | the game is over with the last of these ticks if no shot was accepted meanwhile, and the winner is the player in turn |
| `HostEnd.GameNotOverEarly` | project/src/controller/game.c:105-133 | and with no tick before |
| `HostEnd.LastShipSunk` | project/src/view/renderer.c:344-373 | player 1's shot at the last ship is 41 ticks from the end |
| `PlaceInput.EnterPlaces` | project/src/controller/game.c:323-360 | Enter in PLACE_SHIPS_P1 turns exactly the cells from the cursor to the right, or downwards if the orientation word is 1, from empty to ship iff all are on the grid and empty, and asks for the next ship or for player 2's; else nothing happens |
| `PlaceInput.ClickPlaces` | project/src/controller/game.c:524-578 | the cursor follows the mouse, and a click does the same there |
| `PlaceInput.EnterPlacesForBot` | project/src/controller/game.c:307-360 | Enter in PLACE_SHIPS_P2 does the same to the bot's board |
| `PlaceInput.ClientEnterPlaces` | project/src/controller/game.c:323-360 | Enter on the client does the same to the client's board and sends column, row, size, type and orientation, and the end of placing after the fifth |
| `PlaceInput.ClientClickPlaces` | project/src/controller/game.c:524-578 | a click on the client, likewise |
| `PlaceInput.KeysSteerShip` | project/src/controller/game.c:311-321 | R switches between the two orientations and moves nothing; an arrow key moves the cursor one cell in its direction, within the grid, and turns nothing |
| `PlaceInput.ClientKeysSteerShip` | project/src/controller/game.c:311-321 | the same on the client |
| `PlaceInput.ShipIsPlacedExactly` | project/src/controller/game.c:307-360 | of all events while player 1 places ships the board changes exactly with Enter or a click with room for the ship |
| `HostInput.PlayerOneShootsExactly` | project/src/controller/game.c:371-412 | in player 1's turn a board changes exactly with Enter, Space or a click at a fresh cell while nothing is shown, and the shot is at the cell under the cursor |
| `HostInput.KeysSteerCursor` | project/src/controller/game.c:378-389 | in player 1's turn an arrow key moves the cursor one cell in its direction, within the grid, and no key but Enter and Space does more |
| `HostInput.MouseSteersCursor` | project/src/controller/game.c:581-595 | a mouse packet without a click takes the cursor to the cell under the mouse and does nothing else |
| `HostInput.TurnBeginsAtHome` | project/src/controller/game.c:92-97 | every turn of player 1 begins with the cursor in the corner |
| `HostInput.MenuByKey` | project/src/controller/game.c:266-301 | Up and Down go round the four items; Enter chooses a game alone, a game against a client, the instructions or the end |
| `HostInput.MenuByMouse` | project/src/controller/game.c:483-519 | the same by mouse |
| `HostInput.InstructionsAreLeft` | project/src/controller/game.c:303-305 | Enter, Escape and a click lead back to the menu |
| `HostInput.PauseAndResume` | project/src/controller/game.c:418-427 | Escape, and Escape again or the first item, lead back to the same state; the second item leaves |
| `HostInput.EnterAfterTheGame` | project/src/controller/game.c:429-437 | Enter after the game leads to the menu with empty boards, and the client is told |
| `HostInput.LeavesExactly` | project/src/controller/game.c:732-734 | the exit flag is raised exactly by Escape in the menu or after the game, the last item of either menu, and the client's MSG_CLIENT_QUIT |
| `HostInput.GreetingIsAnswered` | project/src/controller/game.c:659-672 | a greeting is answered once, and starts the placing if the host waits for it |
| `HostInput.EndOfPlacingStartsCountdown` | project/src/controller/game.c:674-688 | the client's last word on placing starts a countdown of 150 ticks, with the host's fleet sent first |
| `HostInput.AloneIsSilent` | project/src/controller/game.c:75-195 | in a single-player game nothing is sent but the answer to a greeting |
| `HostObject.Game.constructor` | project/src/controller/game.c:52-72 | a new game object satisfies `Init` |
| `HostObject.Game.CountDown` | project/src/controller/game.c:88-103 | computes `TickCountdown` in place |
| `HostObject.Game.ResolveShot` | project/src/controller/game.c:105-140 | computes `TickResolve` in place, and returns early exactly at the end of the game |
| `HostObject.Game.WaitAfterAttack` | project/src/controller/game.c:142-159 | computes `TickPostAttack` in place |
| `HostObject.Game.HandOver` | project/src/controller/game.c:161-178 | computes `TickHandover` in place |
| `HostObject.Game.SendCursor` | project/src/controller/game.c:181-195 | computes `TickCursor` in place |
| `HostObject.Game.BotFire` | project/src/controller/game.c:211-220 | choose, attack, register and show: the bot's shot on the real board |
| `HostObject.Game.BotTurn` | project/src/controller/game.c:197-223 | computes the bot's part of the tick, placing included |
| `HostObject.Game.Timer` | project/src/controller/handlers.c:19-24 | computes a whole tick for some fair draws |
| `HostObject.Game.Commit` | project/src/controller/game.c:323-360 | computes the placing of one ship by player 1 |
| `HostObject.Game.CommitOnBotsBoard` | project/src/controller/game.c:307-360 | computes what Enter does while the bot is to place its ships |
| `HostObject.Game.Fire` | project/src/controller/game.c:391-407 | computes player 1's shot |
| `HostObject.Game.Keyboard` | project/src/controller/game.c:227-445 | computes `HandleKey` in every state |
| `HostObject.Game.MousePacket` | project/src/controller/game.c:448-650 | computes `HandleMouse` in every state |
| `HostObject.Game.SendFleet` | project/src/controller/game.c:677-681 | the loop sends one placement for each of player 1's ships, in order |
| `HostObject.Game.SerialMsg` | project/src/controller/game.c:653-741 | computes `HandleMsg` in any state for every message that does not lead out of the arrays there |
| `Protocol.DecodeEncode` | project/src/serial/protocol.c:93-138 | one frame decodes to the message it encodes |
| `Protocol.ParseSplit` | project/src/serial/protocol.c:29-91 | a stream may be cut anywhere: a receiver that keeps the unfinished frame loses nothing |
| `Protocol.RoundTrip` | project/src/serial/protocol.c:29-138 | the concatenated frames of any messages are read as exactly these messages, with nothing left over |
| `Protocol.RoundTripWithNoise` | project/src/serial/protocol.c:30-32 | bytes that are no message type are skipped between frames |
| `Protocol.ParseRest` | project/src/serial/protocol.c:46-47 | an unfinished frame never outgrows the buffer |
| `Protocol.ProtoRx.constructor` | project/src/serial/protocol.c:22-27 | a new receiver is idle |
| `Protocol.ProtoRx.Reset` | project/src/serial/protocol.c:22-27 | an unfinished frame is dropped |
| `Protocol.ProtoRx.FeedByte` | project/src/serial/protocol.c:29-91 | byte by byte the receiver computes the meaning of the stream |
| `Uart.WindowPush` | project/src/serial/uart.c:19-27 | moving the write index appends to the queue unless it holds 127 bytes |
| `Uart.WindowPop` | project/src/serial/uart.c:29-34 | moving the read index removes the oldest byte, across the wrap too |
| `Uart.RingBuffer.constructor` | project/src/serial/uart.c:9-12 | empty and not overflowed |
| `Uart.RingBuffer.DiscardAll` | project/src/serial/uart.c:15-17 | the queue is empty |
| `Uart.RingBuffer.Push` | project/src/serial/uart.c:19-27 | appended while there is room, else dropped and flagged, with nothing else disturbed |
| `Uart.RingBuffer.Pop` | project/src/serial/uart.c:29-34 | the oldest byte, or nothing from an empty queue |
| `Uart.RingBuffer.TakeOverflow` | project/src/serial/uart.c:188-192 | the flag is cleared by reading it |
| `Uart.ReceiveClean` | project/src/serial/uart.c:147-161 | good bytes are queued in order, and the flag rises exactly when one finds no room |
| `Uart.ReceiveBad` | project/src/serial/uart.c:152-155 | whatever ring and FIFO held, after a bad byte what is kept is what comes behind the last one, as far as the ring has room, and the flag is up |
| `SerialPort.Port.DrainFifo` | project/src/serial/uart.c:147-163 | the FIFO loop computes `ReceiveAll` |
| `SerialPort.Port.HandleInterrupt` | project/src/serial/uart.c:114-164 | computes `UartIh` for each cause |
| `SerialPort.Port.Drain` | project/src/controller/handlers.c:92-98 | the drain loop terminates with an empty ring and dispatches what the queued bytes mean |
| `SerialPort.Port.Handle` | project/src/controller/handlers.c:84-99 | interrupt, overflow reset and parser together compute `HandleSerial` |
| `SerialRuns.EveryRunSynchronised` | project/src/controller/handlers.c:84-99 | with at most 64 bytes an interrupt, after any run the messages dispatched since the last line error are what the parsed bytes mean, and every good byte since then is queued or parsed iff none was drained silently |
| `SerialRuns.ResetOnlyOnError` | project/src/serial/uart.c:188-192 | under that bound the overflow reset happens exactly on line errors |
| `SerialRuns.LosslessWithoutErrors` | project/src/controller/handlers.c:84-99 | without line errors the parser is given the whole stream iff no line status interrupt finds bytes, and then the messages dispatched are those of the stream, however it was cut |
| `SerialRuns.SentIsDispatched` | project/src/serial/protocol.c:93-138 | without line errors and silent drains the messages sent are the messages dispatched, in order |
| `SerialRuns.LinkIsAQueue` | project/src/controller/handlers.c:84-99 | and at any moment before, the messages dispatched are the first of those sent |
| `SerialRuns.SilentDrainMisreads` | project/src/serial/uart.c:125-142 | without any error flagged, one drained byte turns two messages sent into one that was not |
| `SerialRuns.SixtyFiveIsTooMany` | project/src/serial/uart.c:147-161 | with 65 bytes a byte that arrived intact can be lost |
| `Replica.OneReport` | project/src/controller/game.c:799-839 | a report turns the copy that shows some shots into the copy that also shows this one, or the whole ship if it sank |
| `Replica.ReplicaIsTruthful` | project/src/controller/game.c:799-839 | whatever reports are lost, the copy is the board of the same fleet after the shots it knows of |
| `Replica.ReplicaAgreesExactly` | project/src/controller/game.c:812-838 | the copy equals the host's board iff every unreported shot lies on a ship whose sinking was reported |
| `ClientObject.ApplyReport` | project/src/controller/game.c:807-839 | the in-place update of the copy computes `Reported` |
| `ClientObject.MarkSunk` | project/src/controller/game.c:815-838 | the loop marks exactly the first floating ship at the cell, flags and counters included |
| `ClientObject.Terminal.constructor` | project/src/controller/game.c:52-72 | a new client shows empty boards |
| `ClientObject.Terminal.StateAnnounced` | project/src/controller/game.c:750-783 | computes `HearState` |
| `ClientObject.Terminal.ShipAnnounced` | project/src/controller/game.c:785-797 | placements fill player 1's board first |
| `ClientObject.Terminal.AttackReported` | project/src/controller/game.c:799-845 | the report goes to the board of the player who is not in turn |
| `ClientObject.Terminal.SerialMsg` | project/src/controller/game.c:743-862 | computes `Hear` for every message |
| `ClientObject.Terminal.Commit` | project/src/controller/game.c:323-360 | the client's player places a ship, announces it, and announces the end after the fifth |
| `ClientObject.Terminal.Fire` | project/src/controller/game.c:402-405 | the client's player announces a shot and changes no board |
| `ClientObject.Terminal.Keyboard` | project/src/controller/game.c:227-445 | computes `ClientKey` in every state |
| `ClientObject.Terminal.MousePacket` | project/src/controller/game.c:448-650 | computes `ClientMouse` in every state |
| `ClientObject.Terminal.Timer` | project/src/controller/game.c:190-194 | computes the client's part of a tick, greeting included |
| `ClientInput.ClientShootsExactly` | project/src/controller/game.c:391-407 | the client sends a shot exactly with Enter, Space or a click in its own turn while none is shown, at a cell it does not know to be attacked: `AttackMsg` with column and row of the cell under the cursor, and an explosion there |
| `ClientInput.ClientKeysSteerCursor` | project/src/controller/game.c:378-389 | an arrow key moves the client's cursor one cell in its direction, within the grid |
| `ClientInput.MouseSteersClient` | project/src/controller/game.c:609-623 | a mouse packet without a click takes the client's cursor to the cell under the mouse |
| `ClientInput.ClientMenuByKey` | project/src/controller/game.c:266-301 | the main menu on the client: a game alone is not offered, and the host is told of the end |
| `ClientInput.ClientMenuByMouse` | project/src/controller/game.c:483-519 | the same by mouse |
| `ClientInput.ClientPausesAndResumes` | project/src/controller/game.c:248-257 | Escape pauses, Escape or the first item resumes the same state, the second item leaves and tells the host |
| `ClientInput.ClientPauseByMouse` | project/src/controller/game.c:468-477 | the same by mouse |
| `ClientInput.ClientLeavesInstructions` | project/src/controller/game.c:303-305 | Enter, Escape and a click lead back to the menu |
| `ClientInput.ClientAfterTheGame` | project/src/controller/game.c:429-440 | Enter leads to the menu with empty boards; Escape leaves without telling the host |
| `ClientInput.ElsewhereInputIsForwarded` | project/src/controller/game.c:242-246 | in the host's states keys and packets are forwarded as they are, once the host has answered |
| `ClientInput.ClockTells` | project/src/controller/game.c:181-195 | every second tick in its turn the client sends its cursor, every thirtieth while waiting a greeting, and nothing else |
| `ClientInput.AnnouncedStateBegins` | project/src/controller/game.c:750-783 | a turn begins with the cursor home and the other one hidden, placing with the first ship, the menu with empty boards; a waiting client ignores the menu |
| `Session.ShipRoundTrip` | project/src/serial/protocol.c:108-113 | the packed placement is read back as it was sent, for every type index below 8 |
| `Session.ShipReadExactly` | project/src/controller/game.c:690-700 | a placement received is the encoding of the ship it is read as iff the upper four bits of its packed byte are zero |
| `Session.OpeningNet` | project/src/controller/game.c:676-687 | a client that has heard the first k messages of a game has player 1's first k - 3 ships |
| `SessionSteps.NotStarted` | project/src/controller/game.c:674-675 | as long as the client has ships left to place the host has not started |
| `SessionSteps.ClientStep` | project/src/controller/game.c:232-412 | any input on the client keeps the machines together |
| `SessionSteps.HearStep` | project/src/controller/game.c:743-862 | any message heard keeps the machines together |
| `SessionRuns.ShipIsOk` | project/src/controller/game.c:690-700 | a placement arrives while the host waits for it, is the next ship of the fleet, and fits |
| `SessionRuns.DoneIsOk` | project/src/controller/game.c:674-675 | the end of placing arrives after the fifth ship |
| `SessionBattle.TickSync` | project/src/controller/game.c:105-195 | what the host sends in a tick keeps announced state and reported shots in step with its boards |
| `SessionTheorems.GreetingStarts` | project/src/controller/game.c:659-668 | a waiting host that reads a greeting starts a session |
| `SessionTheorems.SessionsExist` | project/src/controller/game.c:281-299 | sessions are reached from the start of the program through the menu and a greeting |
| `SessionTheorems.EverySession` | project/src/controller/game.c:653-863 | the joint invariant of both machines and both queues holds in every state of every session that keeps the premise on late shots |
| `SessionTheorems.EveryMessageIsExpected` | project/src/controller/game.c:653-863 | in every such session each message finds its reader in a state that expects it |
| `SessionTheorems.FleetsAreMirrored` | project/src/controller/game.c:674-700 | from the countdown on the host has the client's fleet, and a client that has heard the five placements has the host's |
| `SessionTheorems.ClientNeverShowsFalse` | project/src/controller/game.c:799-839 | in every such session, however far behind, the client's boards are the right fleets after some of the host's shots |
| `SessionTheorems.CaughtUpClient` | project/src/controller/game.c:750-845 | a client that has heard everything is in the host's state, or pauses its own turn, and its boards agree iff the losses are healed |
| `SessionTheorems.ReplicaFollows` | project/src/controller/game.c:114-122 | if shots do not overtake each other, a client that has heard everything shows both boards, the shot still shown on the host aside |
| `SessionShots.EveryShotWasAimed` | project/src/controller/game.c:402-405 | every shot in the client's log was sent at the cell that was under its cursor at that step |
| `SessionShots.ShotArrives` | project/src/controller/game.c:711-725 | when the host reads it, its board takes a shot at exactly that cell if it is the client's turn and the cell is fresh, shown as a hit iff there is a ship; else nothing happens |
| `SessionShots.ShotsComeFromTheCursor` | project/src/controller/game.c:711-725 | in a session player 1's board changes in no other way |
| `SessionSignals.CursorClockAlternates` | project/src/controller/game.c:181-184 | of two ticks in a row that do not end the game one is a sending one |
| `SessionSignals.HostCursorArrives` | project/src/controller/game.c:181-190 | every second tick in player 1's turn the host tells where its cursor is, and a client that hears it shows it there |
| `SessionSignals.ClientCursorArrives` | project/src/controller/game.c:727-730 | the same for the client's cursor |
| `SessionSignals.QuitArrives` | project/src/controller/game.c:732-734 | a client that leaves by its pause menu ends the host when the host reads of it |
| `SessionSignals.ClientSeesTheShot` | project/src/controller/game.c:840-843 | when a shot of player 1 is reported the client shows an explosion at a cell that was shot at, as a hit iff there is a ship of its player |
| `SessionNews.EveryNewsIsTrue` | project/src/controller/game.c:88-133 | in every session the host has told the seconds it counts, and a winner and the end exactly when the game is over, last of all |
| `SessionWinner.CountdownIsShared` | project/src/controller/game.c:852-854 | while the host counts down a client that has heard everything shows the same seconds |
| `SessionWinner.ClientShowsTheWinner` | project/src/controller/game.c:856-857 | a client that shows the end shows the host's winner, who has shot every ship cell of the opponent, unless another item of its pause menu was selected between the last two messages |
| `SessionWinner.LateChoiceExactly` | project/src/controller/game.c:249-250 | between these messages an input spoils the winner iff it is such a selection |
| `WinnerPaths.WrongWinnerIsShown` | project/src/view/renderer.c:550-550 | a session from the start of the program in which a client that has heard everything shows the loser as the winner |
| `LateShots.TickOnIsTick` | project/src/controller/handlers.c:19-24 | the tick that is used outside the invariant is the tick of all runs within it |
| `LateShots.LateShotIsMisread` | project/src/controller/game.c:105-122 | ticks alone lead from a shot read during the wait after a miss to the report of a hit on player 2's board where nobody shot |
| `LateShots.LateShotDeceives` | project/src/controller/game.c:711-725 | from any state of a session, a client that then hears everything shows that hit, which no subset of the host's shots explains |
| `SessionPaths.LateShotsHappen` | project/src/controller/game.c:402-405 | a session from the start of the program that keeps the premise and in which the next message breaks it |
| `SessionPaths.PremiseIsNeeded` | project/src/controller/game.c:142-159 | so without the premise the client does show something false |

## Left out

- HostRuns.EveryStateSafe: runs leave out the key that places a ship on the bot's board (`HostSteps.PlacesForBot`), after which the code writes outside an array; that key and what follows it are `HostPaths.KeyOverrunsTheBotsTable`.
- HostSteps.MsgKeeps: `MsgOk` leaves out placements that do not fit or come out of order, which sessions prove a client never sends; a client's accepted shot while a miss is waited out, which breaks the invariant (`HostSteps.ClientShotKeepsExactly`); and an accepted `MSG_ATTACK` in a single-player TURN_P2, which game.c:711 does not exclude and which can sink the ship the bot is hunting behind the bot's back.
- SessionTheorems.EverySession: carries the premise on late shots, shown to be needed by `SessionPaths.PremiseIsNeeded`; covers one game, from the answered greeting until a player goes back to the menu; messages left over from an earlier game are not part of this model.
- SessionTheorems.EveryMessageIsExpected: carries the same premise.
- SessionTheorems.ClientNeverShowsFalse: carries the same premise, and is false without it.
- HostMisses.MissEndsTurnExactly: about player 1's misses; when a shot of the client overtakes another is only part of what sessions say about lost reports.
- SessionWinner.ClientShowsTheWinner: carries the guard on the pause menu, shown to be needed by `WinnerPaths.WrongWinnerIsShown`.
- SerialRuns.EveryRunSynchronised: what a line status interrupt with an error drains, and what stands before a bad byte, counts as part of the error and not as arrived.
- BotObject.Bot.DrawCell: the distribution of `rand()` is not modelled, only that acceptable draws keep coming.
- Client.TagOf: state bytes above 13 are read as EXIT; the host sends none.
- Failing sends (`uart_send_byte` after ten attempts), port registers, FIFO set-up and interrupt subscription are not part of this model; an interrupt is its cause and the bytes it finds.
- Drawing, sprites other than the frame counter, fonts, menus and hit-testing: a mouse packet carries the cell and the menu item under the mouse.
- Pixel conversion, mouse packet assembly, the RTC and the HUD clock: easy arithmetic that no game rule reads.
- The process around the handlers (`main.c`): a set exit flag does not stop a run.
