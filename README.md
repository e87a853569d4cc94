# Level bookkeeping and pin scoring of a bowling minigame

This project is a Dafny model of the score and level bookkeeping of a Unity
bowling minigame. In the game the player shapes a ball's path with a
mathematical function, launches the ball and knocks down pins.

- **`Game`** (`game.dfy`) models `Assets/UI/GameManager.cs`.
  - A `Level` object holds a level's number, pins, best star count and
    ball counter. Registering a result keeps the best star count as a
    high-water mark. Using a ball counts down and refills to 3 when the
    counter runs out.
  - The `GameManager` object holds the five initial levels and the count of
    balls launched. It also holds the gold and grey star tiles of the level
    selector.
    - `EndLevel` lights the tiles and then records the result. It writes only
      when the level number is in range.
    - `BallStopped` counts a ball and takes it from the current level.
- **`Score`** (`score.dfy`) models `Assets/UI/ScoreManager.cs`.
  - A `ScoreManager` keeps a list of the pins hit so far, with a counter
    beside it. A pin counts the first time only.
  - The hits become a rating of one, two or three stars. That rating is
    reported to the game manager as the result for level 1.

Objects the game changes in place are Dafny classes, and their methods
change their fields.

- Each class method is specified against a pure function on values:
  - `LevelRecord` is the value of a level.
  - `Registered`, `BallsAfterUse`, `AfterResult` and `AfterBallUse` give
    each level update as a function of the old values.
  - `Recorded` and `RecordedAll` give the hit list.
  - `Stars` gives the rating.
- The lemmas prove the game's rules about these functions:
  - the best-star mark after many results;
  - the ball counter repeats every three balls;
  - the list has no duplicates and its count is the number of distinct pins hit;
  - when a three-star rating happens.

What the model receives as parameters, because the source reads it from
other objects:

- The current level index. The source reads it from the UI manager
  singleton, and the UI manager's `currentLevel` is not part of this model.
- The game manager that `CalculateStars` reports to. The source uses the
  `GameManager.Instance` singleton.
- Each star image, reduced to its `enabled` flag. The two star lists become
  two `array<bool>`.
- Each pin game object, reduced to an identity (`PinId`).

Two comments in `CalculateStars` disagree with the code:
- the comment at `Assets/UI/ScoreManager.cs:52` says that no hit earns 0 stars, but the code assigns 1;
- the comment at `Assets/UI/ScoreManager.cs:62` says that a partial hit earns 1 star, but the code assigns 2.

The model follows the code in both cases.

## Model

| member | source | states |
|---|---|---|
| `Game.Registered` | Assets/UI/GameManager.cs:136-139 | the new best-star mark is at least the old mark and at least the new result, it is one of the two, and no other field of the level changes |
| `Game.RegisteredIdempotent` | Assets/UI/GameManager.cs:136-139 | registering the same result twice leaves the level as registering it once |
| `Game.RegisteredAllIsBest` | Assets/UI/GameManager.cs:136-139 | after any series of results, the best-star mark is at least the old mark and every result, and it equals the old mark or one of the results; no other field changes |
| `Game.BallsAfterUse` | Assets/UI/GameManager.cs:141-149 | a counter above 1 drops by exactly one; a counter of 1 becomes 3; the counter is never left at 0; a counter in [1,3] stays in [1,3] |
| `Game.BallsCycle` | Assets/UI/GameManager.cs:141-149 | from a counter b in [1,3], after k balls it reads ((b - k - 1) mod 3) + 1, so it stays in [1,3] and is back at b after every multiple of 3 balls |
| `Game.InitialLevels` | Assets/UI/GameManager.cs:17-24 | the game starts with 5 levels numbered 1 to 5, each with 3 balls and no stars; level 2 has 4 pins and the others have 3 |
| `Game.InitialLevelsInRange` | Assets/UI/GameManager.cs:17-24 | every initial level has its star mark in [0,3] and its ball counter in [1,3] |
| `Game.AfterResult` | Assets/UI/GameManager.cs:52-56 | the list keeps its length; only index nextLevel-1 registers the result, and only when 1 <= nextLevel <= number of levels; every other level is unchanged; an out-of-range number leaves the whole list unchanged |
| `Game.AfterResultMonotone` | Assets/UI/GameManager.cs:52-56 | finishing a level never lowers any level's best-star mark |
| `Game.AfterResultIdempotent` | Assets/UI/GameManager.cs:52-56 | reporting the same result for the same level number twice gives the same list as reporting it once |
| `Game.AfterResultKeepsStarsInRange` | Assets/UI/GameManager.cs:52-56 | if every star mark is in [0,3] and the result is in [0,3], every mark stays in [0,3] |
| `Game.AfterBallUse` | Assets/UI/GameManager.cs:109-110 | only the level at the current index has its ball counter advanced by one use; every other level is unchanged |
| `Game.AfterBallUseKeepsBallsInRange` | Assets/UI/GameManager.cs:109-110 | if every ball counter is in [1,3], every counter stays in [1,3] after a ball stops |
| `Game.StarRow` | Assets/UI/GameManager.cs:97-102 | the row has 3 tiles, and tile i is gold exactly when i < earnedStars |
| `Game.StarRowCount` | Assets/UI/GameManager.cs:97-102 | the row shows as many gold tiles as stars earned, clamped to [0,3] |
| `Game.Level.constructor` | Assets/UI/GameManager.cs:127-134 | a new level stores its number, pins and balls as given, has 0 stars, and `shoots` keeps its default 0 |
| `Game.Level.RegisterResult` | Assets/UI/GameManager.cs:136-139 | the level's new value is `Registered` of its old value; only `earnedStars` may change |
| `Game.Level.BallUsed` | Assets/UI/GameManager.cs:141-149 | the ball counter becomes `BallsAfterUse` of the old counter; nothing else changes |
| `Game.GameManager.constructor` | Assets/UI/GameManager.cs:17-24 | the manager holds five fresh, distinct levels whose values are `InitialLevels`, and `ballsLaunched` is 0 |
| `Game.GameManager.SetStarsLevel` | Assets/UI/GameManager.cs:95-103 | the first three gold flags equal `StarRow(earnedStars)`; each grey flag is the negation of its gold flag; flags at index 3 and above are untouched |
| `Game.GameManager.EndLevel` | Assets/UI/GameManager.cs:44-57 | the tiles show the earned stars as `SetStarsLevel` does, and the levels' new values are `AfterResult` of the old values |
| `Game.GameManager.BallStopped` | Assets/UI/GameManager.cs:105-112 | `ballsLaunched` goes up by exactly 1, and the levels' new values are `AfterBallUse` of the old values at the current index |
| `Score.Stars` | Assets/UI/ScoreManager.cs:48-64 | the rating is in {1,2,3}; it is 1 exactly when no pin was hit, whatever the total; it is 3 exactly when some pin was hit and the count equals the total; otherwise it is 2 |
| `Score.Recorded` | Assets/UI/ScoreManager.cs:25-29 | the new list holds exactly the old pins and the hit pin, with the old list as its prefix; it grows by one exactly when the pin was not listed; a list without duplicates keeps none |
| `Score.RecordedAllContents` | Assets/UI/ScoreManager.cs:23-35 | after any series of hits, a list without duplicates still has none, and it lists exactly its old pins and the pins hit |
| `Score.HitCountIsDistinctPins` | Assets/UI/ScoreManager.cs:23-35 | starting from the empty list that a reset leaves, the number of listed pins equals the number of distinct pins hit |
| `Score.RecordedAllFresh` | Assets/UI/ScoreManager.cs:25-29 | hits by pins that are not yet listed and are not repeated are appended in order |
| `Score.ThreeStarsIffAllHit` | Assets/UI/ScoreManager.cs:48-64 | starting from an empty list, the rating is 3 exactly when some pin was hit and the number of distinct pins hit equals the total |
| `Score.ClearanceAfterStartScoresTwo` | Assets/UI/ScoreManager.cs:14-17 | with the total that `Start` leaves (0), hitting every pin of a non-empty scene earns 2 stars, never 3 |
| `Score.ClearanceScoresThree` | Assets/UI/ScoreManager.cs:12-17 | with the total read from the scene's list before it is cleared, hitting each scene pin once earns 3 stars |
| `Score.ScoreManager.constructor` | Assets/UI/ScoreManager.cs:8-12 | the list holds the scene's pins, the hit counter is 0 and the total is 3 |
| `Score.ScoreManager.Start` | Assets/UI/ScoreManager.cs:14-20 | after start the list is empty, the counter is 0, the counter equals the list length with no duplicates, and the total is 0 |
| `Score.ScoreManager.StartCountingFirst` | Assets/UI/ScoreManager.cs:14-20 | the corrected start: the list is empty and the counter is 0, and the total is the length of the list before it was cleared |
| `Score.ScoreManager.PinHit` | Assets/UI/ScoreManager.cs:23-35 | the list becomes `Recorded` of the old list; a new pin increments the counter by exactly 1; a listed pin changes nothing; "counter == list length, no duplicates" is preserved |
| `Score.ScoreManager.ResetPinCount` | Assets/UI/ScoreManager.cs:71-76 | the list is empty and the counter is 0 |
| `Score.ScoreManager.CalculateStars` | Assets/UI/ScoreManager.cs:46-68 | the reported rating is `Stars(pinsHitCount, totalPins)`, and, whenever the counter equals the list length with no duplicates, the rating of the list length against the total; it is reported for level number 1, so only level index 0 can change and every other level is unchanged; the first three tiles show the rating and tiles at index 3 and above are unchanged |

## Findings

| source | as written | input that shows it | evidently intended | confidence | as-written member | corrected member |
|---|---|---|---|---|---|---|
| Assets/UI/ScoreManager.cs:16-17 | `Start` clears the pin list and then sets `totalPins` to the count of that just-cleared list, so `totalPins` is 0 | a scene list of pins 1, 2, 3, each hit once: the count is 3, the total is 0, and the rating is 2 | `totalPins` is the number of pins in the scene, read before the list is cleared (field comment at line 12), so clearing the scene earns 3 stars | not executed; high | `Score.ClearanceAfterStartScoresTwo` | `Score.ClearanceScoresThree` |

`Score.ScoreManager.Start` models the start as written.
`Score.ScoreManager.StartCountingFirst` models the corrected start, whose
total `Score.ClearanceScoresThree` uses.

## Left out

- Unity lifecycle and singletons are engine plumbing and are not modelled:
  - `Awake` and `DontDestroyOnLoad` (GameManager.cs:26-37);
  - `GameManager.Start`, which calls the UI manager (GameManager.cs:38-41).
- `SpawnBall` and `SpawnBallControls` (GameManager.cs:59-91) are left out. They find objects in the scene graph, instantiate prefabs and wire components together.
- `UIManager.Instance.GameToStatsMenu` in `endLevel` (GameManager.cs:47) is left out. It switches a UI menu, which is opaque to this model.
- The `Debug.Log` and `print` calls are left out because they only write logs.
- `ScoreManager.Update` (ScoreManager.cs:37-43) is left out. It polls `ballsLaunched == 3` every frame. Only the `CalculateStars` it triggers is modelled.
- The collision callbacks that spawn particles or call `PinHit` behind a tag check are left out. They are engine glue: `PinCounter`, both `ParticleAtCollision` files, and scene loading in `TestSampleScene`.
- The trajectory display, ball launcher and physics handoff are left out. The ball and ball-controls classes they rely on are not part of this model.
- Game.GameManager.BallStopped: `ballsLaunched` is an unbounded integer. The 32-bit wrap-around of C# `int` would take 2^31 stopped balls.
- Game.Level.BallUsed: the counter is an unbounded integer, so a counter below 1 keeps counting down. The 32-bit wrap-around at `int.MinValue` is not modelled.
- Game.GameManager.SetStarsLevel: requires both tile lists to hold at least three images. The source throws an index exception partway through its loop otherwise, and that exception path is not modelled.
- Game.GameManager.EndLevel: needs at least three images in each tile list, for the same reason as `SetStarsLevel`.
- Game.GameManager.BallStopped: requires the current index to be within the level list. The source indexes the list without a guard, and the exception it throws otherwise is not modelled.
- Game.GameManager.SetStarsLevel: each star image is reduced to its `enabled` flag, and the gold and grey lists are two distinct arrays. Aliasing between image objects is not modelled.
- Game.GameManager.constructor: the levels are distinct objects and the `levels` list is never replaced. Outside code that replaces or edits the public list is not modelled.
- Game.GameManager.EndLevel: calls `SetStarsLevel` on itself, while the source calls it on the `GameManager.Instance` singleton. The model therefore assumes the manager is the one instance that `Awake` keeps.
- Score.ScoreManager.CalculateStars: needs at least three images in each tile list of the game manager, because it calls `EndLevel`.
