# Banco Imobiliário simulation engine, modelled in Dafny

This project models the simulation engine of a four-player property-trading board
game. Each of the four players follows one fixed purchase strategy.

- **`models.dfy`, module `Models`** covers `src/domain/models.py`.
  - A `Property` is a square with a position, a price, a rent and an optional owner.
  - A `Player` is a class whose balance, position, owned squares and active flag are
    changed in place by `Move`, `Pay`, `Receive`, `Buy` and `ReleaseProperties`.
- **`strategies.dfy`, module `Strategies`** covers `src/adapters/strategies.py`.
  - It holds the four purchase rules: impulsive, demanding, cautious and random.
  - It holds the name-to-rule table.
- **`game.dfy`, module `Games`** covers `src/usecases/game.py`.
  - The `Game` class lays out the 20-square board, seats the players, and plays rounds until one player is left or 1000 rounds have been played.
  - At the end it picks the winner and ranks the players by balance.
  - The batch runner counts wins per strategy and adds up the rounds.

**Ownership by index.** A square names its owner by the owner's seat number in turn order, and a player lists the indices of the squares it owns. This replaces the object references of the original.

**Snapshots.** `Setup` and `CreatePlayers` state their results directly. Every other state-changing method of `Game` is proved equal to a pure rule on value snapshots of the board and seats (`GameState`):

| method | pure rule |
|---|---|
| `Start` | `Initial` |
| `Advance` | `Moved` |
| `OfferSquare` | `Offer` |
| `Transfer` | `Transferred` |
| `Forfeit` | `Forfeited` |
| `ChargeRent` | `PayRent` |
| `LandOn` | `Land` |
| `PlayTurn` | `Turn` |
| `PlayRound` | `RoundFrom` from seat 0 |
| `NextRound` | one step of `PlayFrom` |
| `PlayRounds` | `PlayFrom` from round 0 |
| `Simulate` | `PlayFrom` from `Initial` |

`RunGame` returns exactly `GameOutcome`: the standings of the state `PlayFrom` reaches from `Initial`. `RunGames` returns exactly `Batch`, which chains `GameOutcome` over the games and passes each game's next unused coin to the next game. `RoundFrom` and `PlayFrom` leave a state that is not consistent as it is. No game reaches such a state (`RoundFromKeeps`, `PlayFromEnds`).

The properties are proved as lemmas about those rules and carried by the `Valid` invariant:
- ownership stays two-way, and an inactive player owns nothing;
- rent conserves money;
- a turn switches off at most the mover;
- purchases happen exactly under the buying rule.

**Randomness is input:**
- the shuffled seating is the parameter `order`, required to be a permutation of the four names;
- the t-th die roll is `roll(t)`, standing for a draw from 1..6. The rules need no range; `TurnMove` uses it to show that a move wraps at most once;
- the random strategy's coin flips are `coins(c)`. The index `c` is threaded through all games of a batch, because the source draws these flips from the process-wide random module and not from the game's own generator.

**Initial balance.** The initial balance comes from a constants module that is not part of this model, so it is a parameter (`Game.initialBalance`). When it is not negative, `Valid` also keeps "active exactly while the balance is not negative".

**Test naming mismatch.** `tests/test_game_integration.py:1` imports `simulateGames`, but the batch function is named `simulate_games` (`src/usecases/game.py:70`). The model follows the source's function.

## Model

| member | source | states |
|---|---|---|
| Models.Player.constructor | src/domain/models.py:19-26 | a new player has the given name, strategy and balance; it stands on square 0, is active and owns nothing |
| Models.Player.Move | src/domain/models.py:28-32 | position becomes (old + steps) mod board size and lies on the board; the result is true exactly when old + steps reaches the board size; nothing else changes |
| Models.MoveWrapsAtMostOnce | src/domain/models.py:28-32 | a move from the board that is shorter than the board wraps at most once: it ends at old + steps, or at old + steps − size behind the start |
| Models.Player.Pay | src/domain/models.py:34-37 | balance drops by the amount; the player is deactivated exactly when the new balance is negative and is never reactivated |
| Models.Player.Receive | src/domain/models.py:39-40 | balance rises by the amount; nothing else changes |
| Models.Player.Buy | src/domain/models.py:42-45 | balance drops by the price with no affordability check; the square is appended to the owned list; its owner becomes this player; no other square changes |
| Models.Player.ReleaseProperties | src/domain/models.py:47-50 | every square in the owned list loses its owner, every other square is untouched, and the list becomes empty |
| Strategies.ImpulsiveStrategy | src/adapters/strategies.py:9-11 | the impulsive rule approves every purchase |
| Strategies.DemandingStrategy | src/adapters/strategies.py:14-16 | the demanding rule approves exactly when the rent exceeds 50 |
| Strategies.DemandingThreshold | src/adapters/strategies.py:14-16 | rent 51 is approved and rent 50 is not, whatever the balance and price |
| Strategies.CautiousStrategy | src/adapters/strategies.py:19-21 | the cautious rule approves exactly when at least 80 would be left after paying the price |
| Strategies.CautiousThreshold | src/adapters/strategies.py:19-21 | with balance 200, price 120 is approved and price 150 is not |
| Strategies.Approves | src/usecases/game.py:47-48 | the rule the table binds to the name decides: always for impulsive, rent above 50 for demanding, at least 80 left after the price for cautious, the coin for random |
| Strategies.RandomStrategy | src/adapters/strategies.py:24-26 | the random rule answers with the outside coin, whatever the player and square |
| Strategies.OnlyRandomUsesCoin | src/adapters/strategies.py:24-34 | the three deterministic table entries give the same answer for either coin; the random entry follows the coin |
| Strategies.DeterministicRulesMonotone | src/adapters/strategies.py:9-21 | for the deterministic rules, a richer player or a square with a higher rent is approved whenever the poorer player or lower rent was |
| Strategies.TableIsComplete | src/adapters/strategies.py:29-34 | the table has exactly the four distinct names, each bound to its own rule |
| Games.Game.constructor | src/usecases/game.py:12-16 | a new game has the given initial balance, an empty board and no players; the round limit is the constant 1000 |
| Games.Game.Setup | src/usecases/game.py:18-19 | the board is a new array of 20 squares; square j has position j, price 100 + 10j, rent 10 + 5j and no owner |
| Games.ShuffleFacts | src/usecases/game.py:22-24 | a shuffled roster has four distinct names, each a table key, and every strategy occurs in it |
| Games.Game.CreatePlayers | src/usecases/game.py:21-24 | one new, distinct player per name of the shuffled order, in that order, named after its strategy, with the initial balance, on square 0, active, owning nothing |
| Games.Game.ActivePlayers | src/usecases/game.py:26-27 | the active players in turn order: as many as there are active flags, the first being the earliest active seat |
| Games.Initial | src/usecases/game.py:18-24 | the initial state is consistent with four active players, and every player is active exactly while solvent when the balance is not negative |
| Games.Game.Start | src/usecases/game.py:30-31 | after setup and seating the state is `Initial`: a new 20-square board with square j at `Square(j)` and no owner; one new player per name of `order`, with the initial balance, on square 0, active, owning nothing; the invariant holds |
| Games.Game.Advance | src/usecases/game.py:40-43 | the mover's position advances by the roll around the board, 100 is credited exactly when a lap is completed, and nothing else changes |
| Games.TurnMove | src/usecases/game.py:40-43 | in a turn the new position is old + roll mod 20, the lap flag is set exactly when old + roll ≥ 20, and a roll of 1..6 wraps once at most |
| Games.Game.OfferSquare | src/usecases/game.py:45-49 | on an unowned square the player buys exactly when its balance covers the price and its strategy approves; the coin is used up exactly when the random strategy is asked |
| Games.TurnPurchaseRule | src/usecases/game.py:45-49 | a turn buys exactly when the square is unowned, the balance after the move covers the price and the strategy approves; the buyer then owns the square and keeps a non-negative balance |
| Games.CautiousTurnKeepsReserve | src/usecases/game.py:45-49 | a cautious player that buys in its turn keeps a balance of at least 80 |
| Games.DemandingTurnBuysHighRent | src/usecases/game.py:45-49 | a demanding player buys in its turn only a square whose rent exceeds 50 |
| Games.OfferMoney | src/usecases/game.py:48-49 | a purchase removes exactly the price from the sum of balances; declining changes nothing |
| Games.Game.Transfer | src/usecases/game.py:50-52 | the payer loses the rent, deactivated if that makes it negative, and the owner gains it; nothing else changes |
| Games.TransferConservesMoney | src/usecases/game.py:50-52 | a transfer between two seats leaves the sum of balances unchanged |
| Games.RentConservesMoney | src/usecases/game.py:50-54 | paying rent, including a bankruptcy, leaves the sum of balances unchanged |
| Games.Game.Forfeit | src/usecases/game.py:53-54 | the seat's squares all lose their owner and its list becomes empty; nothing else changes |
| Games.Game.ChargeRent | src/usecases/game.py:50-54 | on another player's square, the rent goes from the mover to the owner; a mover left negative is deactivated and gives up every square |
| Games.Game.LandOn | src/usecases/game.py:45-54 | the landing step is an offer on an unowned square, rent on another player's square, and nothing on one's own |
| Games.Game.PlayTurn | src/usecases/game.py:36-54 | one turn of an active player equals the turn rule on the snapshots and keeps the game invariant |
| Games.MoveKeepsConsistent | src/usecases/game.py:40-43 | moving keeps ownership consistent |
| Games.OfferKeepsConsistent | src/usecases/game.py:45-49 | a purchase keeps ownership two-way: the square's owner is the buyer exactly when the buyer lists it |
| Games.ForfeitKeepsOwned | src/usecases/game.py:53-54 | giving up all squares keeps ownership two-way and leaves the seat owning nothing |
| Games.RentKeepsConsistent | src/usecases/game.py:50-54 | paying rent keeps ownership consistent, and a player who goes bankrupt owns nothing afterwards |
| Games.TurnKeepsConsistent | src/usecases/game.py:36-54 | a whole turn keeps ownership consistent and inactive players owning nothing |
| Games.TurnKeepsSolvent | src/usecases/game.py:45-54 | if every player is active exactly while its balance is not negative, a turn keeps it so |
| Games.TurnMoney | src/usecases/game.py:40-54 | a turn changes the sum of balances by exactly the lap bonus when a lap was completed, minus the price when a square was bought |
| Games.OfferKeepsActives | src/usecases/game.py:45-49 | an offer changes no active flag |
| Games.RentActives | src/usecases/game.py:50-54 | paying rent can switch off only the payer's own active flag |
| Games.TurnDeactivatesAtMostMover | src/usecases/game.py:50-57 | after a turn the active flags are unchanged, or only the mover's is switched off; the number of active players drops by one at most |
| Games.RoundFromKeeps | src/usecases/game.py:36-57 | the rest of a round keeps the state consistent, leaves at least one player active, only advances the die and coin indices, and keeps every player active exactly while solvent |
| Games.PlayFromEnds | src/usecases/game.py:34-57 | a game ends within 1000 rounds with the state consistent and a player active; it ends before round 1000 only with exactly one player active; the coin index only advances and solvency is kept |
| Games.PlayFromStep | src/usecases/game.py:34-35 | with two or more players active and fewer than 1000 rounds played, the game is one round followed by the rest of the game |
| Games.PlayStartsWithARound | src/usecases/game.py:32-35 | a game from the initial state plays at least one round |
| Games.Game.NextRound | src/usecases/game.py:34-57 | playing one round keeps the invariant and leaves a state from which the rest of the game is the same as before the round |
| Games.Game.PlayRounds | src/usecases/game.py:32-57 | the rounds loop keeps the invariant and ends in exactly the state, round count and coin index of `PlayFrom` from round 0 |
| Games.Game.PlayRound | src/usecases/game.py:36-57 | a round from at least two active players keeps the invariant and leaves exactly the state, die index and coin index of `RoundFrom` from seat 0 |
| Games.Game.Simulate | src/usecases/game.py:29-67 | the final state, round count and coin index are those of `PlayFrom` from `Initial`; the rounds are in 1..1000; at least one player stays active; fewer than 1000 rounds means exactly one is active; winner and ranking are the standings of the final balances and flags |
| Games.RankSeats | src/usecases/game.py:63-66 | the ranking of seats by balance has one entry per seat |
| Games.RankSeatsPermutation | src/usecases/game.py:63-66 | the ranking lists every seat once, and each seat comes before all later seats with a lower balance, or an equal balance and a later seat |
| Games.RankHeadIsFirstMaximum | src/usecases/game.py:63-64 | the head of the ranking has the highest balance and is the earliest seat among those with it |
| Games.WinnerSeat | src/usecases/game.py:59-64 | the winner is one of the seats |
| Games.WinnerSeatSpec | src/usecases/game.py:59-64 | the winner is the only active seat when exactly one remains; otherwise it is the earliest seat with the highest balance |
| Games.Standings | src/usecases/game.py:59-67 | the winner is the winning seat's strategy; the ranking lists the seats' strategies in ranked order and contains the winner |
| Games.StandingsListEveryName | src/usecases/game.py:66-67 | for a shuffled roster, the ranking names each of the four strategies exactly once, and the winner is a table key |
| Games.Tally | src/usecases/game.py:95-99 | the counting loop produces exactly the tally function's wins and the total of rounds |
| Games.NoWins | src/usecases/game.py:95 | the starting tally has the four strategies with zero wins |
| Games.WinsOfCounts | src/usecases/game.py:95-98 | the tally's keys are the four strategies plus every winner, and each holds that name's number of wins |
| Games.WinsAddUp | src/usecases/game.py:95-98 | for well-formed outcomes the keys are exactly the four strategies and the four win counts add up to the number of games |
| Games.TotalRoundsBounds | src/usecases/game.py:99 | n games of 1..1000 rounds each total between n and 1000n rounds |
| Games.GameOutcome | src/usecases/game.py:59-67 | the outcome of a game from the initial state is well formed, and the coin index only advances |
| Games.RunGame | src/usecases/game.py:79-84 | one game on a fresh engine returns exactly `GameOutcome`, which is well formed: a table-key winner, a ranking of the four distinct names, and 1..1000 rounds |
| Games.Batch | src/usecases/game.py:78-84 | the outcomes of the first i games, each game played from the coin index where the previous one stopped, are i well-formed outcomes |
| Games.RunGames | src/usecases/game.py:78-84 | the loop over n games returns exactly the outcomes of `Batch` |
| Games.Aggregated | src/usecases/game.py:95-112 | the report holds n, the wins per name over the outcomes and their total of rounds; the four strategies are the keys; for n > 1 the wins add up to n and the rounds lie in n..1000n; for negative n every count and the total are zero |
| Games.SimulateGames | src/usecases/game.py:70-112 | the outcomes are those of `Batch`, one well-formed outcome per game; one game is reported as its outcome; any other nonzero n reports n, the wins per name over the outcomes and their total of rounds |
| Games.PayRentAsWritten | src/usecases/game.py:50-54 | as written, the rent branch raises exactly when the payer is left inactive; otherwise it equals the corrected rule |
| Games.BankruptcyRaisesAsWritten | src/usecases/game.py:53-54 | on a concrete bankruptcy the as-written branch raises, while the corrected rule deactivates the payer, frees its square and credits the owner |

## Left out

- The web API (`src/interfaces/api.py`) and the command-line script (`scripts/run_simulation.py`) are left out because they are I/O and presentation only.
- Python's generators (`random.Random`, `shuffle`, `randint`, `random.random`) and the seed derivation are not modelled; they become the inputs `order`, `roll` and `coins`. The statistical test of the random strategy is not a verifiable property.
- The percentages, the mean number of rounds and the formatted strings of `simulate_games` are left out because they are floating point and text. The model keeps the integer counts they are computed from, and the report omits the echoed seed.
- Object aliasing: squares are values held in the board array, and owners are seat numbers, so the model does not capture two references to the same square.
- Games.SimulateGames: requires n ≠ 0. With n = 0 the source divides by zero when it computes the percentages, and that error is not modelled.
- Models.Player.Move: requires a positive board size. With size 0 the source raises a division error, which is not modelled. For positive sizes Python's floor modulo and Dafny's Euclidean modulo agree.
- Games.Game.ActivePlayers: states the length and the first element of the filtered list, not every element.
- Games.TurnKeepsSolvent: the "active exactly while not negative" invariant is conditional on a non-negative initial balance, because the constants module is not part of this model.

## Findings

| source | as written | input that shows it | evidently intended | confidence | as-written member | corrected member |
|---|---|---|---|---|---|---|
| src/usecases/game.py:54 | a bankrupt payer calls `release_properties()`, but players only define `releaseProperties` (src/domain/models.py:47), so the game stops with an attribute error | the player at seat 0 owns square 2 and has 10 left; it lands on square 10, owned by seat 1, with rent 60 | the bankrupt player gives up all its squares and the game goes on | high (not executed) | Games.PayRentAsWritten | Games.PayRent |
