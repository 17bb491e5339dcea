# Falling coins: the game loop, modelled in Dafny

`fall_coins.dfy` models the simulation step of the falling-coins arcade game
(`fall_coins.py`). A paddle 40 pixels wide sits near the bottom of a 600 x 400
window. Coins of radius 10 fall from the top at 4 pixels per tick. One tick of the
`while True` loop runs five phases in this order:

1. Move the paddle by 7 for each held arrow key. Each move's guard is tested
   before that move, left first.
2. Sometimes append one new coin at y = 0.
3. Let every coin fall by 4.
4. Walk a snapshot of the coins. Each coin over the paddle adds 1 to the score and
   is removed from the live list by value.
5. Drop the coins whose y has reached 400.

Module `FallCoins` holds two layers:

- A value-level specification. `State` holds the paddle x, the score and the coin
  list. `Step` applies one tick; each phase is its own function (`Moved`,
  `Spawned`, `Advanced`, `Missed`/`HitCount`, `OnScreen`). `Run` folds `Step` over
  a finite sequence of inputs.
- The class `Game`. Its fields `playerX`, `score` and `coins` are updated in place
  by one method per phase, by `Tick` and by `Play` (the loop itself). Each method
  is proved equal to the specification, and `Tick` also keeps the game invariant.

Inputs the program reads from the outside world are parameters. These are the two
arrow-key flags and the result of the spawn draw: `NoSpawn`, or `SpawnAt(x)` with
x drawn from [10, 590]. The game ends (the window is closed) when the input
sequence given to `Play` runs out.

Where the code and a plain reading of the game differ, the model follows the code:

- The paddle is not clamped to [0, WIDTH - player_width] = [0, 560]. Each guard
  tests the position before its move, so the paddle can overshoot either edge by
  less than one step. The bound it really keeps is -7 < x < 567, and x stays on
  the grid 300 + 7k. `PaddleLeavesWindow` shows x = -1 after 43 ticks of holding
  left, and x = 566 after 38 ticks of holding right.
- The hit test is a half-plane plus an open interval: 380 < y + 10 and
  x_paddle < x < x_paddle + 40. It has no lower bound on y. A coin that has fallen
  to y = 400, below the paddle, still scores in the tick in which cleanup would
  have dropped it (`CaughtAtBottomEdge`).

## Model

| member | source | states |
|---|---|---|
| `FallCoins.PaddleMoves` | fall_coins.py:46-49 | Left moves the paddle by exactly player_speed iff x > 0, else leaves it. Right then moves it by exactly player_speed iff the position after the left step is < WIDTH - player_width, else leaves it. |
| `FallCoins.BothKeysCancel` | fall_coins.py:46-49 | With both keys held and 0 < x < 560, the two moves cancel and x is unchanged. |
| `FallCoins.MovedKeepsBounds` | fall_coins.py:46-49 | Any key state keeps the paddle within -player_speed < x < WIDTH - player_width + player_speed and on the grid (x - 300) % 7 == 0. |
| `FallCoins.EmptyStep` | fall_coins.py:45-69 | A tick with no coins and no spawn only moves the paddle; the score and the empty coin list stay as they were. |
| `FallCoins.HoldLeft` | fall_coins.py:46-47 | Holding left for k ticks moves the paddle left by exactly k steps while every position before the last move is > 0. |
| `FallCoins.HoldRight` | fall_coins.py:48-49 | Holding right for k ticks moves the paddle right by exactly k steps while every position before the last move is < WIDTH - player_width. |
| `FallCoins.PaddleLeavesWindow` | fall_coins.py:24-49 | From x = WIDTH // 2, holding left reaches x = -1 after 43 ticks and holding right reaches x = 566 after 38 ticks, so the paddle is not clamped to [0, WIDTH - player_width]. |
| `FallCoins.Spawned` | fall_coins.py:52-53 | A spawn adds at most one coin, at the end, at y = 0 and at the drawn x. The earlier coins are kept unchanged and in order; with no spawn the list is unchanged. |
| `FallCoins.Advanced` | fall_coins.py:56-57 | Falling keeps the number and order of the coins, raises every y by exactly coin_speed and changes no x. |
| `FallCoins.Missed` | fall_coins.py:60-66 | The coins left by the collision phase, in order, are never more than the coins it started with. |
| `FallCoins.HitCount` | fall_coins.py:61-65 | The number of caught coins is at most the number of coins, and it is 0 exactly when no coin passes the hit test. |
| `FallCoins.RemoveFirst` | fall_coins.py:66 | `list.remove` on a list that holds the value leaves one element fewer. |
| `FallCoins.RemoveFirstTakesOne` | fall_coins.py:66 | `list.remove` takes away exactly one copy of the value and nothing else (as multisets). |
| `FallCoins.RemoveFirstAfter` | fall_coins.py:66 | When the first copy of v follows a prefix free of v, removing v by value drops exactly that copy and keeps the prefix and the tail. |
| `FallCoins.MissedMembers` | fall_coins.py:60-66 | A coin survives the collision phase iff it was in the list and fails the hit test. |
| `FallCoins.CatchPartition` | fall_coins.py:60-66 | Every coin is either kept or counted, never both: survivors + catches = coins before the phase. |
| `FallCoins.CatchAppend` | fall_coins.py:60-66 | The collision result of a concatenation is the concatenation of the results, and the counts add, so survivors keep their relative order. |
| `FallCoins.CatchSingle` | fall_coins.py:61-64 | A single coin is removed and counted once iff it passes the hit test, and kept otherwise. |
| `FallCoins.CatchOneHit` | fall_coins.py:61-66 | A caught coin, removed by value from the live list, leaves the survivors so far and the untested coins as they were, and adds 1 to the count. |
| `FallCoins.CatchOneMiss` | fall_coins.py:61-64 | A missed coin stays where it is in the live list and adds nothing to the count. |
| `FallCoins.CatchTurn` | fall_coins.py:60-66 | Turn i of the walk over the snapshot finds the coin in the live list. It takes the live list "survivors of the first i coins, then coins i.. of the snapshot" to the same form for i + 1, and adds 1 to the score iff the coin is hit. |
| `FallCoins.HitHasNoFloor` | fall_coins.py:61-64 | The hit test has no lower bound on y: a hit coin moved further down is still a hit. |
| `FallCoins.CaughtAtBottomEdge` | fall_coins.py:60-69 | A coin at y = 396 over the paddle falls to y = HEIGHT, is caught and scores 1 in the same tick, instead of being dropped by cleanup. |
| `FallCoins.OnScreenMembers` | fall_coins.py:69 | A coin survives cleanup iff it was in the list and its y < HEIGHT. |
| `FallCoins.OnScreenAppend` | fall_coins.py:69 | Cleanup of a concatenation is the concatenation of the cleanups, so cleanup keeps the order of the coins. |
| `FallCoins.OnScreen` | fall_coins.py:69 | Cleanup never adds coins. |
| `FallCoins.StepScore` | fall_coins.py:61-65 | In one tick the score grows by exactly the number of coins that the collision phase removes from the fallen list, so it never decreases. |
| `FallCoins.StepLeavesNothingToCatch` | fall_coins.py:60-69 | After a tick, no remaining coin passes the hit test against the paddle's new position. |
| `FallCoins.StepCoins` | fall_coins.py:52-69 | A tick adds at most one coin. Every coin after it is an old coin that fell by exactly coin_speed, or the newly spawned coin at y = coin_speed. |
| `FallCoins.StepSpawnedCoinIsLast` | fall_coins.py:52-69 | A coin spawned at x is never caught or dropped in its first tick: afterwards it is the last coin, at (x, coin_speed). |
| `FallCoins.SpawnedPlaced` | fall_coins.py:52-53 | A coin drawn in [coin_radius, WIDTH - coin_radius] at y = 0, appended to valid coins, leaves every coin in range and on the coin_speed grid. |
| `FallCoins.FallPlaced` | fall_coins.py:56-57 | A coin in range falls to a y > 0 on the coin_speed grid and keeps its x. |
| `FallCoins.AdvancedPlaced` | fall_coins.py:56-57 | After the fall phase every coin has x in [coin_radius, WIDTH - coin_radius] and a positive y that is a multiple of coin_speed. |
| `FallCoins.StepKeepsInvariant` | fall_coins.py:45-69 | With a spawn draw from the source's range, a tick keeps the invariant: -7 < paddle x < 567 on its grid, score >= 0, and every coin with x in [10, 590], 0 < y < HEIGHT, y a multiple of coin_speed. |
| `FallCoins.StepFacts` | fall_coins.py:45-69 | A tick never lowers the score, and it keeps the invariant whenever the spawn draw is in range. |
| `FallCoins.RunKeepsInvariant` | fall_coins.py:37-69 | Over any number of ticks with in-range spawn draws, the invariant holds and the score never goes down. |
| `FallCoins.GameInvariant` | fall_coins.py:22-69 | Every state reached from the initial set-up (x = 300, score 0, no coins) satisfies the invariant. |
| `FallCoins.Game.constructor` | fall_coins.py:22-34 | The set-up before the loop: paddle at WIDTH // 2, no coins, score 0. |
| `FallCoins.Game.MovePaddle` | fall_coins.py:45-49 | Updates playerX in place to the guarded left-then-right move. |
| `FallCoins.Game.SpawnCoin` | fall_coins.py:52-53 | Appends the drawn coin, if any, to the coins field. |
| `FallCoins.Game.AdvanceCoins` | fall_coins.py:56-57 | Adds coin_speed to each coin's y in turn; the loop's result is the fall of every coin. |
| `FallCoins.Game.CatchCoins` | fall_coins.py:60-66 | The walk over the snapshot with removal by value leaves exactly the in-order survivors. It adds to the score exactly the number of snapshot coins that pass the hit test. |
| `FallCoins.Game.DropFallen` | fall_coins.py:69 | Reassigns the coins to those with y < HEIGHT. |
| `FallCoins.Game.Tick` | fall_coins.py:45-69 | One loop iteration takes the fields to `Step` of the old state. It never lowers the score, and it keeps the invariant when the spawn draw is in range. |
| `FallCoins.Game.Play` | fall_coins.py:37-69 | The loop, one tick per input until the inputs end, takes the fields to `Run` of the old state. |

## Left out

- pygame set-up, the window, the font and the clock (fall_coins.py:1-19, 35) are library calls with no game logic.
- Event polling and quitting (fall_coins.py:39-42) are I/O and process exit. Quitting is modelled as the end of the input sequence given to `Game.Play`.
- Drawing and frame pacing (fall_coins.py:72-87) only read the state and never change it.
- `random.randint` (fall_coins.py:52-53) is replaced by the `Spawn` parameter of each tick. The 1-in-20 chance and the uniform x are not modelled; only the range of x is, through `ValidSpawn`.
- `Game.CatchCoins`: the live list and the score are updated in local variables during the walk and stored in the fields once it ends. The source updates the globals at each hit, but nothing reads them during the walk, so the state after the phase is the same.
- Coins are values (`Coin(x, y)`), not the mutable two-element lists of the source. The falling phase mutates each list in place, and the snapshot shares those lists with the live list, but nothing changes a coin during the collision walk, so the sharing makes no difference there.
- Python integers are unbounded, and so are Dafny's; no wrap-around needs modelling.
