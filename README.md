# Monopoly turn engine

A Dafny model of the turn-resolution engine of a small text Monopoly game
written in Java (`MonopolyGame.java`). It covers five parts:

- **The players.** Each player has cash, a token on a 20-square ring and a
  three-attempt jail state machine.
- **The squares.** There are seven kinds: Go, Property, Chance, Income Tax,
  Jail, Go to Jail and Free Parking. Each has a `landOn` effect, and Go also
  has a `passBy` effect.
- **The game.** Two to six players share a 21-slot board; slot 0 is unused.
  The game handles turns, jail turns and bankruptcies, the round counter
  and the end of the game, the winners, and the turn rotation.
- **The stand-alone `GameBoard`**, with its bounds-checked `setSquare`.
- **Chance and input.** The dice, the Chance coin and amount, and the
  players' y/n answers all come from outside the game. They are parameters
  here:
  - `TurnInput` bundles two dice in 1..4, the "pay the fine?" answer, the
    "buy?" answer and a Chance draw;
  - `Game.Play` takes one `TurnInput` per turn, as a function from the turn
    number.

Modules follow the parts of the Java code:

- `Players` (`player.dfy`): `Player` as a class whose fields the methods
  update, and the jail machine as functions on a `PlayerState` value.
- `Squares` (`square.dfy`):
  - the `Square` datatype and the `PropertySquare` class, whose owner is a
    mutable reference compared by identity;
  - the landing effects as the pure function `Land` over a player's view of
    a square (`Cell`), with the `LandOn` and `PassBy` methods proved
    against it.
- `Turns` (`turn.dfy`): one turn as a pure function of the board as the
  player sees it and the turn's inputs.
- `Roster` (`roster.dfy`): turn rotation, order-preserving removal, and
  winner selection.
- `Boards` (`board.dfy`): the stand-alone `GameBoard`.
- `Games` (`game.dfy`): the `Game` class.
  - Its methods are proved against `Turns.Turn`.
  - `Game.Did` states what one turn did to every player and every property.
  - `Game.Valid` is the game's invariant. The constructor establishes it,
    and `TakeTurn`, `Retire`, `TurnAt`, `PlayRound`, `PlayRounds` and
    `Play` keep it. It says:
    - the board is laid out with every slot occupied;
    - every property on the board appears exactly once in the ghost set of
      deeds;
    - players are distinct and on the board;
    - a jailed player stands on 11;
    - every owner is an active player;
    - the round counter is within 0..100.
  - `IsGameOver` holds exactly when the round counter is 100 or exactly one
    player is left. `Play` tests it before the first round, so a game that
    is already over plays no round.

Quirks of the Java code that the model keeps as written:

- The jail square reports position 11 but sits in slot 6, and slot 11 is
  Free Parking. It is the only square on the default board whose reported
  position differs from its slot.
- Go to Jail puts the player on 11.
- A jail escape moves the player by the roll, with no wrap-around and no
  pass-Go salary.
- The third attempt charges the 150 fine even on doubles, whatever the
  balance.
- A bankruptcy clears the owner of every property.
- Income tax uses Java's truncating division.
- Wrapping exactly onto Go pays the 1500 salary twice.

## Model

| member | source | states |
|---|---|---|
| Players.Player.constructor | MonopolyGame.java:206-212 | a new player has 1500, stands on 1, is not in jail, counter 0 |
| Players.Player.AddMoney | MonopolyGame.java:219-221 | money rises by the amount, nothing else changes |
| Players.Player.ReduceMoney | MonopolyGame.java:223-228 | money falls by the amount with no clamping, nothing else changes |
| Players.Player.SetPosition | MonopolyGame.java:230-232 | only the position changes |
| Players.Player.GoToJail | MonopolyGame.java:234-237 | jailed with counter 0, position and money unchanged |
| Players.Player.TryToGetOutOfJail | MonopolyGame.java:239-250 | new state and result are Escape's; freed exactly on doubles or on the third attempt |
| Players.Player.PayJailFine | MonopolyGame.java:252-259 | new state is PayFine of the old one |
| Players.EscapeRules | MonopolyGame.java:239-250 | freed iff doubles or third attempt; freed means out of jail with counter 0 and the fine paid only on the third attempt; otherwise still jailed with money kept and counter one higher |
| Players.PayFineRules | MonopolyGame.java:252-259 | jailed and at least 150: exactly 150 less, free, counter 0; otherwise no change at all |
| Players.JailTransitionsKeepInvariant | MonopolyGame.java:234-259 | goToJail, an escape attempt and payJailFine keep the counter in 0..2 while jailed and 0 when free |
| Players.ReleasedWithinThreeAttempts | MonopolyGame.java:239-250 | whatever the dice, the remaining attempts (at most three) free the player with counter 0 |
| Players.ThirdAttemptChargesFine | Monopoly/src/mono/MonopolyGameTest.java:70-88 | two non-doubles keep the player jailed; the third attempt frees them at exactly 150 less |
| Squares.TaxDueSpec | MonopolyGame.java:145-151 | for a balance of 0 or more the tax is money/100*10, between 0 and money/10, and never leaves the balance negative; it is positive from 100 up; negative balances truncate toward zero; always a multiple of ten |
| Squares.ChanceDeltaSpec | MonopolyGame.java:122-134 | a Chance card changes cash by a non-zero multiple of ten: a gain of at most 200 on heads, a loss of at most 300 otherwise |
| Squares.PropertyCases | MonopolyGame.java:36-73 | the four cases of landing on a property: buy (price debited, Bought), decline or cannot afford (no change), rent to another owner (rent debited), own property (no change) |
| Squares.SimpleSquares | MonopolyGame.java:93-197 | Go pays exactly 1500; Jail and Free Parking change nothing; Go to Jail jails the player at 11 with counter 0 from anywhere |
| Squares.CashSquares | Monopoly/src/mono/MonopolyGameTest.java:31-45 | income tax leaves a solvent balance non-negative and lowers one of 100 or more; a Chance card always changes the balance |
| Squares.LandingKeepsPlace | MonopolyGame.java:93-197 | only Go to Jail moves the lander or touches the jail state |
| Squares.PropertySquare.constructor | MonopolyGame.java:28-32 | position, name, price and rent as given, no owner |
| Squares.PropertySquare.SetOwner | MonopolyGame.java:75-77 | the owner becomes the given reference |
| Squares.PropertySquare.LandOn | MonopolyGame.java:35-73 | the lander's state and the owner follow PropertyLanding for the holder as seen by the lander; on rent the old owner is credited exactly the rent, so the pair's total is conserved |
| Squares.LandOn | MonopolyGame.java:93-197 | landOn of any square: the lander's new state is Land's for the square's cell; a property's owner changes only on a purchase, to the lander; a rent payment credits the old owner by the amount |
| Squares.PassBy | MonopolyGame.java:101-109 | Go pays 1500 unless the player stands on 1; other squares change nothing |
| Turns.Advance | MonopolyGame.java:378-385 | the new square is in 1..20 and differs from the old one; the move wrapped exactly when the new square is below the old |
| Turns.AdvanceIsModular | MonopolyGame.java:378-385 | the move is addition modulo the 20-square ring |
| Turns.FreeWalk | MonopolyGame.java:378-386 | before landing, a free player stands on p+roll or p+roll-20, never on p, and has gained 1500 exactly when the move wrapped |
| Turns.FreeTurnLands | MonopolyGame.java:386-387 | a free player's turn lands on the square the walk reached |
| Turns.TurnMovesOffGo | Monopoly/src/mono/MonopolyGameTest.java:109-117 | a free player on Go always ends the turn on another square |
| Turns.WrapOntoGoPaysTwice | MonopolyGame.java:382-388 | wrapping exactly onto Go pays 3000 and lands on 1 |
| Turns.StayInJail | MonopolyGame.java:408-426 | a jailed player who does not pay and neither rolls doubles nor reaches the third attempt only counts the attempt |
| Turns.EscapeMove | MonopolyGame.java:408-423 | a released player lands on 11+roll with no wrap-around and no salary, the fine charged only on the third attempt |
| Turns.TurnFacts | MonopolyGame.java:365-427 | a turn lands on 1..20, or nowhere only for a jailed player who stays jailed with position and cash kept; it buys only an unowned property and pays rent only on another player's, the amount being that property's rent |
| Turns.MoveKeepsPlayerOk | MonopolyGame.java:365-389 | a free player's turn leaves the player on the board, with a consistent counter, on 11 if jailed |
| Turns.RollKeepsPlayerOk | MonopolyGame.java:408-426 | the same holds for a roll for release |
| Turns.TurnKeepsPlayerOk | MonopolyGame.java:365-427 | the same holds for every turn |
| Roster.NextIndex | MonopolyGame.java:292-294 | the next index is a valid index |
| Roster.NextIndexWraps | MonopolyGame.java:483-486 | the next index is i+1, or 0 after the last player |
| Roster.RotateIsOffset | MonopolyGame.java:292-294 | k moves advance the index by k, wrapping once past the end |
| Roster.EveryPlayerGetsATurn | MonopolyGame.java:292-294 | within n moves every player becomes current, and after n moves the turn is back where it started |
| Roster.SubseqRemove | MonopolyGame.java:357 | removing one player keeps the others in their order |
| Roster.MaxMoney | MonopolyGame.java:440-443 | the maximum is held by some player and bounds everyone's balance |
| Roster.SelectSpec | MonopolyGame.java:445-447 | the filter keeps exactly the players with the given balance, in list order |
| Roster.SelectSnoc | MonopolyGame.java:445-447 | filtering a list extended by one player extends the result by that player exactly when it matches |
| Roster.WinnersSpec | MonopolyGame.java:433-456 | no winners iff no players; the winners are exactly the players with the largest balance, in list order, and every other player has strictly less |
| Boards.GameBoard.constructor | MonopolyGame.java:508-511 | 21 empty slots |
| Boards.GameBoard.GetSquare | MonopolyGame.java:524-526 | the slot's square; slot 0 never holds one, since setSquare refuses it; after a successful setSquare it is the square just set and every other slot reads as before (see SetSquare) |
| Boards.GameBoard.SetSquare | MonopolyGame.java:517-522 | accepted iff the position is in 1..20; then exactly that slot holds the square, getSquare returns it and every other slot reads as before; otherwise the board is unchanged; slot 0 stays empty |
| Games.DefaultBoardFacts | MonopolyGame.java:315-336 | the default board has every slot occupied, Go in slot 1 and positive prices and rents; the jail square sits in slot 6 but reports 11, slot 11 is Free Parking, and every other square reports its own slot |
| Games.Game.NewSquare | MonopolyGame.java:316-335 | the square the default layout gives a slot; a property is fresh and unowned |
| Games.Game.InitializeBoard | MonopolyGame.java:315-336 | slots 1..20 hold the default layout; every property is fresh, unowned and stored at the slot of its position |
| Games.Game.constructor | MonopolyGame.java:296-313 | for 2..6 names: the players are fresh, in the given order, in the start state; the board is the default one with no owners; index 0, round 0; the game is valid |
| Games.Game.Create | MonopolyGame.java:296-299 | no game iff the name count is outside 2..6; otherwise a valid game with one player per name |
| Games.Game.TakeTurn | MonopolyGame.java:365-389 | the game changes exactly as Turn prescribes on the board as the player saw it: the lander's state, at most one rent payee credited, at most the landed property bought; no other player loses money; the game stays valid |
| Games.Game.FreeTurn | MonopolyGame.java:371-388 | a free player walks with Go's passBy on wrap-around, then lands, as Turn prescribes |
| Games.Game.HandleJailTurn | MonopolyGame.java:391-427 | pay-and-move or roll-for-release, as Turn prescribes for a jailed player |
| Games.Game.RollForRelease | MonopolyGame.java:408-426 | the escape attempt and, when freed, the move by the roll and the landing, as Roll prescribes |
| Games.Game.MoveTo | MonopolyGame.java:386-387 | setPosition then landOn: the lander's state and the owners change as Land prescribes for that slot |
| Games.Game.RentIsPositive | MonopolyGame.java:316-335 | rent paid in a turn is positive, since every rent on the default board is |
| Games.Game.ClearOwners | MonopolyGame.java:351-356 | every property on the board ends with no owner |
| Games.Game.Retire | MonopolyGame.java:348-357 | all owners cleared; the player leaves the list and the others keep their order |
| Games.Game.TurnAt | MonopolyGame.java:346-357 | one step of the round, round counter and turn index untouched: the player's new state and every other player's change are those Turn prescribes (Did); when the player stays, ownership changes as Did says; the player retires exactly when its balance is then negative, and then every property loses its owner and only that player leaves the list; earlier players stay solvent |
| Games.Game.PlayRound | MonopolyGame.java:340-357 | the round counter goes up by one and the turn index is untouched; the round consumes exactly one scripted input per player active at its start; afterwards every remaining player is solvent, every removed player is bankrupt, and the survivors keep their order (what each turn does is stated by TurnAt, which the loop calls once per player) |
| Games.Game.Play | MonopolyGame.java:338-363 | play ends with the game over and valid, the turn index untouched; a game already over plays no round; the scripted inputs consumed are a sum with one entry per round, the first round consuming one per starting player and no round fewer than the survivors; survivors keep their order; every removed player is bankrupt; after at least one round all survivors are solvent; the result is announceWinner's |
| Games.Game.PlayRounds | MonopolyGame.java:339-361 | the while loop of play: the same facts about rounds, inputs consumed, survivors, bankruptcy and the turn index as Play, without the announcement |
| Games.Game.IsGameOver | MonopolyGame.java:429-431 | a game with one player left is over; a game below the round cap that is not over has a round to go, which bounds play |
| Games.Game.AnnounceWinner | MonopolyGame.java:433-456 | returns Winners of the player list |
| Games.Game.MaxBalance | MonopolyGame.java:440-443 | returns the largest balance |
| Games.Game.PlayersWith | MonopolyGame.java:445-447 | returns the players with the given balance, in list order |
| Games.Game.MoveToNextPlayer | MonopolyGame.java:292-294 | the index advances to the next index mod the list size; the new current player is the old getNextPlayer |
| Games.Game.GetNextPlayer | MonopolyGame.java:483-486 | the player after the current one, or the first after the last |

## Left out

- The interactive `MonopolyGame` class (MonopolyGame.java:541-769) is left out. This covers its menus, name generation, `modifySquare` and the round bump in its own game loop; it is console I/O.
- Every `Scanner` prompt becomes a boolean. The re-prompt loop on an answer that is neither y nor n is not modelled, because only a final y or n has an effect.
- `Random` in `Dice` and `ChanceSquare` is replaced by inputs: dice in 1..4, and a Chance coin with 1..20 or 1..30 tens.
- `Game.Play` draws one `TurnInput` per turn. A turn consults at most one pair of dice, one fine answer, one buy answer and one Chance card. Paying the fine skips the escape roll, and the nested `takeTurn` rolls once.
- Serialization (`saveGame`, `loadGame`, `saveBoard`, `loadBoard`) is file I/O and is left out.
- Console narration and the status strings (`getStatus`, `getGameStatus`, `getAllPlayersStatus`) are formatting only and are left out.
- The plain getters are reads of the corresponding Dafny fields. These are `getName`, `getMoney`, `getPosition`, `isInJail`, `getOwner`, `getPlayers` and `getCurrentPlayer`. `incrementRound` (MonopolyGame.java:288-290) is not called by the modelled code. It can push the round counter past 100; `isGameOver` tests for exactly 100 (MonopolyGame.java:430), so `play` entered in that state would stop only once exactly one player is left: never while two or more remain or after all have gone bankrupt, up to the 32-bit wrap-around of the counter, which this model leaves out. `Game.Valid` keeps the counter within 0..100, which the termination of `Play` relies on.
- Java's 32-bit `int` wrap-around is not modelled. Balances are unbounded integers; they stay far from 2^31 within 100 rounds of at most 3000 per turn.
- Games.Game.InitializeBoard: writes the twenty slots in a loop over the layout table rather than as twenty separate assignments. The resulting board is the same.
- Games.Game.MoveToNextPlayer: requires a non-empty list and a non-negative index. The Java code throws `ArithmeticException` on an empty list; the game never calls it then.
- Games.Game.GetNextPlayer: has the same requirement, for the same reason.
- Boards.GameBoard.GetSquare: requires a position within the array, on a board built by the constructor. Java throws `ArrayIndexOutOfBoundsException` outside it.
- Boards.GameBoard.SetSquare: returns `false` where Java throws `IllegalArgumentException`, and then leaves the board unchanged.
- Games.Game.PlayRound: the contract gives the round count, the inputs consumed, the survivors, the bankruptcies and the order, but not each turn's effect on balances, positions and owners; that effect is stated turn by turn by `Games.Game.TurnAt`, which the loop calls once per player. Composing those per-turn facts into a closed-form result for the round would need a value-level snapshot of every player and owner, which the model does not have.
- Games.Game.PlayRounds: states rounds, inputs consumed, survivors, bankruptcies and order as `PlayRound` does, and likewise not the combined effect of the turns. For rounds after the first, the number of inputs a round consumed is bounded (between the survivors and the starting list) rather than tied to the list at that round's start.
- Games.Game.Play: the same as `Games.Game.PlayRounds`, followed by the winner announcement.
- Games.Game.constructor: requires 2..6 names where Java throws. `Games.Game.Create` models the failure as `None`.
