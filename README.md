# Keno game controller and payout table

A Dafny model of the core of a single-player Keno simulator. The player picks
how many spots to play (1, 4, 8 or 10 numbers from a grid of 1 to 80) and how
many drawings to play (1 to 4). Each drawing takes 20 distinct numbers from
the grid. Matches between the selection and the drawing are scored against a
fixed payout table.

Three modules:

- `Grid` (Grid.dfy): the grid, the selection held as a duplicate-free
  sequence in insertion order (the source's `LinkedHashSet`), a drawing, and
  the shuffled 80-number pool. `Remove` and `Insert` are the set's remove and
  add: removal keeps the other numbers in order, and insertion appends at
  the end. `ShuffleIsPermutationOfGrid` proves that any shuffle of 1..80 has
  length 80, no duplicates and only grid numbers.
- `PayoutTable` (PayoutTable.dfy): the static two-level table as a
  `map<int, map<int, int>>` literal, and the lookup with a default of 0 at
  each level.
- `GameControl` (GameController.dfy): the class `GameController`. Its fields
  are the ones the source updates in place: `spotsToPlay`, `drawingsToPlay`,
  `drawingsStarted`, `selected`, `allDrawings`, `currentDrawingIndex` and
  `currentDrawing`. `Valid()` is its invariant:
  - the spot count is unset (0) or playable;
  - the drawing count is in 0..4;
  - the selection has at most `spotsToPlay` distinct grid numbers;
  - every drawing has 20 distinct grid numbers;
  - the current drawing is the one under the cursor, or the last one once the
    cursor has run past the end.

  Every mutator names in its `modifies` clause exactly the fields it may
  change. Its `ensures` give their new values, including the refusal cases
  where nothing changes. The module also holds pure specification functions:
  - `Select` is one toggle of a number;
  - `HasNext` and `NextResults` are the answers of successive `nextDrawing`
    calls;
  - `Matches` is the scoring intersection.

  Lemmas relate these functions across several calls.

Randomness is a parameter. `AutoPick` and `PrepareDrawings` take the
result of each `Collections.shuffle` as an argument. The argument must be a
shuffle of the ordered pool 1..80 (`IsShuffle`: the same multiset). So their
contracts hold for every possible shuffle.

`ResetGrid` follows the code: it empties the selection even while a session
is active, unlike `SelectNumber` and `AutoPick`, which refuse then. Whether
that is intended is open. The model keeps the code's behaviour and states it
in the contract.

## Model

| member | source | states |
|---|---|---|
| `PayoutTable.GetPayout` | src/main/java/PayoutTable.java:53-58 | The lookup is total and never negative. It is positive exactly for the listed (spots, matches) pairs. A paying match count lies between 0 and the spot count. |
| `PayoutTable.OneSpotRow` | src/main/java/PayoutTable.java:17-20 | 1 spot: one match pays 2. Any other match count, 0 included, pays 0. |
| `PayoutTable.FourSpotRow` | src/main/java/PayoutTable.java:22-27 | 4 spots: 2→1, 3→5, 4→75, and 0 for any other match count. |
| `PayoutTable.EightSpotRow` | src/main/java/PayoutTable.java:29-36 | 8 spots: 4→2, 5→12, 6→50, 7→750, 8→10000, and 0 otherwise (3 matches pays 0, for example). |
| `PayoutTable.TenSpotRow` | src/main/java/PayoutTable.java:38-47 | 10 spots: 0→5, 5→2, 6→15, 7→40, 8→450, 9→4250, 10→100000, and 0 otherwise (4 matches pays 0, for example). |
| `PayoutTable.UnlistedSpotsPayNothing` | src/main/java/PayoutTable.java:54-55 | A spot count other than 1, 4, 8 or 10 pays 0 for every match count. |
| `PayoutTable.AllSpotsMatchedPaysMost` | src/main/java/PayoutTable.java:17-47 | In every row, matching all the spots pays at least as much as any other match count. |
| `Grid.OrderedPool` | src/main/java/GameController.java:117-120 | The pool before shuffling has 80 entries and no duplicates. It holds exactly the numbers 1 to 80. |
| `Grid.ShuffleIsPermutationOfGrid` | src/main/java/GameController.java:121 | Any shuffle of that pool has 80 entries and no duplicates. It holds exactly the grid numbers. |
| `Grid.Remove` | src/main/java/GameController.java:92-94 | Removing from the selection leaves exactly the other numbers. It removes nothing when the number is absent. On a duplicate-free selection the result stays duplicate-free and is one shorter when the number was present; it is then the selection with that one position cut out, so the other numbers keep their order. |
| `Grid.Insert` | src/main/java/GameController.java:122-124 | Adding to the selection gives the old numbers plus the new one. It changes nothing when the number is already present, and keeps the selection duplicate-free. |
| `Grid.RemoveUndoesAppend` | src/main/java/GameController.java:92-101 | Appending an absent number and then removing it restores the exact sequence, order included. |
| `GameControl.PlayableSpotsHavePayoutRow` | src/main/java/GameController.java:47 | The spot counts `setMaxSpots` accepts are exactly the spot counts that have a row in the payout table. |
| `GameControl.Select` | src/main/java/GameController.java:81-102 | A toggle is accepted iff no session is active, spots are set, n is in 1..80, and n is already selected or the selection has room. A refusal changes nothing. An accepted toggle flips n's membership, leaves every other number's membership alone and changes the size by one. It keeps the selection valid: at most `spots` distinct grid numbers. An accepted add appends n at the end; an accepted removal is `Remove`, which keeps the order of the rest. |
| `GameControl.SelectTwiceRestores` | src/main/java/GameController.java:92-101 | Selecting the same number twice: the second call is also accepted and the membership is as before. When the first call added the number, the sequence is restored exactly. |
| `GameControl.NextResults` | src/main/java/GameController.java:185-192 | k successive `nextDrawing` calls give k answers. |
| `GameControl.NextResultsAt` | src/main/java/GameController.java:185-192 | Call i of those k answers true iff index + i + 1 < total. The cursor moves on by one on every call, whether or not the call succeeds. |
| `GameControl.NextAfterPrepare` | src/main/java/GameController.java:155-192 | After d drawings are prepared, with the cursor at 0, call i (counted from 0) answers true iff i < d - 1. So d - 1 calls answer true and every later call answers false. |
| `GameControl.Matches` | src/main/java/GameController.java:197-201 | The matches are exactly the numbers in both the selection and the drawing. There are no more of them than numbers selected, nor than numbers drawn. |
| `GameControl.OneSpotScoring` | src/main/java/GameController.java:197-226 | Scoring (`getMatches`, lines 197-201) followed by the payout lookup (`getPayout`, lines 224-226) with the 1-spot row. A 1-spot ticket against any drawing: if the drawing holds the number, the matches are that number alone and pay 2; otherwise there are no matches and they pay 0. |
| `GameControl.Advance` | src/main/java/GameController.java:185-192 | k successive `nextDrawing` calls on the controller answer exactly `NextResults` from the cursor they start at. The cursor ends k positions further on, and the invariant is kept. |
| `GameControl.PlayDrawings` | src/main/java/GameController.java:155-192 | `prepareDrawings` followed by k `nextDrawing` calls on the controller: `drawingsToPlay` drawings are prepared, call i (from 0) answers true iff i < drawingsToPlay - 1, and the drawing number ends at k + 1. |
| `GameControl.ScenarioCapacity` | src/test/java/MyTest.java:122-128 | The capacity test, with a 4-spot ticket: four distinct numbers are accepted, a fifth is refused, and the selection keeps 4 numbers. |
| `GameControl.ScenarioTwoDrawings` | src/test/java/MyTest.java:163-170 | With 2 drawings prepared the total is 2 and the drawing number is 1. The first `nextDrawing` answers true, the second false. |
| `GameControl.DrawFromPool` | src/main/java/GameController.java:158-166 | A drawing is the first 20 numbers of a shuffled pool: 20 distinct grid numbers. |
| `GameControl.GameController.constructor` | src/main/java/GameController.java:8-36 | A new controller has spots and drawings unset, no session, no selection, no drawings, the cursor at 0 and an empty current drawing. |
| `GameControl.GameController.SetMaxSpots` | src/main/java/GameController.java:42-53 | Accepted iff no session is active and n is 1, 4, 8 or 10. Then the spot count becomes n and the selection is emptied. Otherwise neither changes. No other field can change. |
| `GameControl.GameController.SetNumberOfDrawings` | src/main/java/GameController.java:63-70 | Accepted iff no session is active and 1 <= d <= 4. Then the drawing count becomes d; otherwise it is unchanged. No other field can change. |
| `GameControl.GameController.SelectNumber` | src/main/java/GameController.java:81-102 | The answer and the new selection are those of `Select` for the current session flag and spot count. Only the selection can change. |
| `GameControl.GameController.AutoPick` | src/main/java/GameController.java:112-125 | With a session active or spots unset, nothing changes. Otherwise the selection becomes the first `spotsToPlay` numbers of the shuffled pool: exactly `spotsToPlay` distinct grid numbers. |
| `GameControl.GameController.ResetGrid` | src/main/java/GameController.java:128-130 | The selection is emptied, with or without an active session. |
| `GameControl.GameController.StartDrawing` | src/main/java/GameController.java:135-142 | The session flag is set when spots and drawings are both set. Otherwise it keeps its old value. |
| `GameControl.GameController.EndDrawingSession` | src/main/java/GameController.java:144-146 | The session flag is cleared unconditionally. |
| `GameControl.GameController.PrepareDrawings` | src/main/java/GameController.java:155-175 | Prior drawings are replaced by exactly `drawingsToPlay` new ones. Drawing k is the first 20 numbers of the k-th shuffled pool, so each has 20 distinct grid numbers. The cursor is reset to 0, so the drawing number is 1. The current drawing is the first drawing, or empty when there are none. |
| `GameControl.GameController.NextDrawing` | src/main/java/GameController.java:185-192 | The cursor always moves on by one. The answer is `HasNext` of the old cursor: true iff the new cursor is below the number of drawings. On true, the drawing under the cursor becomes current. On false, the current drawing stays as it was. |
| `GameControl.GameController.GetMatches` | src/main/java/GameController.java:197-201 | The matches are `Matches` of the selection and the current drawing, and reading them changes nothing. They are grid numbers, at most `spotsToPlay` and at most 20 of them. |
| `GameControl.GameController.CurrentDrawingNumber` | src/main/java/GameController.java:214-216 | The 1-based drawing number is at least 1. |
| `GameControl.GameController.TotalDrawings` | src/main/java/GameController.java:218-220 | The number of prepared drawings is between 0 and 4. |
| `GameControl.GameController.GetPayout` | src/main/java/GameController.java:224-226 | The answer is the payout table's entry for the configured spot count. It is never negative, and positive only for a match count between 0 and the spot count. |
| `GameControl.GameController.GetOddsForSpots` | src/main/java/GameController.java:206-212 | The odds, in hundredths, are never negative. They are nonzero exactly when the configured spot count is playable. |

## Left out

- The user interface (GameScene.java, MenuScene.java, SceneManager.java, KinoApp.java) is not part of this model: it is layout, theming and window navigation.
- KenoGame.java is not part of this model. It holds the animation timeline, the play-button guards and the earnings counters `lastRoundEarnings` and `totalEarnings`, all inside UI callbacks.
- Uniformity of `java.util.Random` and `Collections.shuffle` is not modelled. Each shuffle is an arbitrary permutation of 1..80 passed in by the caller.
- The loops that fill the pool with 1..80 before each shuffle are not written as loops. The shuffled pool parameter stands for both the fill and the shuffle, with `OrderedPool` as the list before shuffling.
- GameControl.GameController.GetOddsForSpots: the source returns a `double` (4.00, 3.86, 9.97, 9.05, else 0.0). The model returns integer hundredths (400, 386, 997, 905, else 0).
- The console messages printed by `startDrawing` are left out. Only the flag update is modelled.
- Plain getters (`getMaxSpots`, `getNumberOfDrawings`, `getSelected`, `getCurrentDraw`, `isDrawingActive`) are not separate members. They return a field, and the model's fields are read directly.
- GameControl.GameController.NextDrawing: the Java `int` cursor would wrap around after 2^31 - 1 calls. The model's cursor is an unbounded integer.
- The mutators require `Valid()`. The source has no such check; the invariant holds from construction and every method keeps it.
