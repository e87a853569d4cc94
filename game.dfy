/**
 * Level bookkeeping of the bowling minigame: the per-level record (best
 * star count, pins, balls left), the game manager's list of levels, the
 * star tiles of the level selector and the per-ball counter.
 *
 * The state the game updates in place is kept in two classes, `Level` and
 * `GameManager`. Their methods are specified against the pure functions on
 * `LevelRecord` values defined first, and the properties of the game's
 * rules are proved as lemmas about those functions.
 */
module Game {

  /** Balls a level offers per round; the counter is refilled to this value. */
  const MaxBalls := 3

  /** Number of star tiles shown for a level. */
  const StarTiles := 3

  /** The value of a `Level` object's fields at one moment. */
  datatype LevelRecord = LevelRecord(
    numLevel: int,
    earnedStars: int,
    shoots: int,
    numPins: int,
    ballsAvailable: int)

  function Max(a: int, b: int): int
  {
    if a >= b then a else b
  }

  // ---------------------------------------------------------------------
  // Rules of a single level
  // ---------------------------------------------------------------------

  /** The record after a result worth `stars` is registered: a high-water mark. */
  function Registered(r: LevelRecord, stars: int): (r': LevelRecord)
    ensures r'.earnedStars >= r.earnedStars && r'.earnedStars >= stars
    ensures r'.earnedStars == r.earnedStars || r'.earnedStars == stars
    ensures r' == r.(earnedStars := r'.earnedStars)
  {
    r.(earnedStars := Max(r.earnedStars, stars))
  }

  /** The ball counter after one ball is used: it counts down and wraps from 1 to `MaxBalls`. */
  function BallsAfterUse(balls: int): (r: int)
    ensures balls > 1 ==> r == balls - 1
    ensures balls == 1 ==> r == MaxBalls
    ensures r != 0
    ensures 1 <= balls <= MaxBalls ==> 1 <= r <= MaxBalls
  {
    if balls - 1 == 0 then MaxBalls else balls - 1
  }

  /** The counter after `k` balls are used one after another. */
  function BallsAfterUses(balls: int, k: nat): int
    decreases k
  {
    if k == 0 then balls else BallsAfterUses(BallsAfterUse(balls), k - 1)
  }

  /** The record after each of `results` is registered, in order. */
  function RegisteredAll(r: LevelRecord, results: seq<int>): LevelRecord
    decreases |results|
  {
    if results == [] then r else RegisteredAll(Registered(r, results[0]), results[1..])
  }

  /** Registering the same result twice is the same as registering it once. */
  lemma RegisteredIdempotent(r: LevelRecord, stars: int)
    ensures Registered(Registered(r, stars), stars) == Registered(r, stars)
  {
  }

  /**
   * After a series of results the best-star mark is the largest of the old
   * mark and every result, and nothing else in the record changes.
   */
  lemma {:induction false} RegisteredAllIsBest(r: LevelRecord, results: seq<int>)
    ensures RegisteredAll(r, results).earnedStars >= r.earnedStars
    ensures forall i :: 0 <= i < |results| ==> RegisteredAll(r, results).earnedStars >= results[i]
    ensures RegisteredAll(r, results).earnedStars == r.earnedStars ||
            exists i :: 0 <= i < |results| && RegisteredAll(r, results).earnedStars == results[i]
    ensures RegisteredAll(r, results) == r.(earnedStars := RegisteredAll(r, results).earnedStars)
    decreases |results|
  {
    if results != [] {
      var r1 := Registered(r, results[0]);
      var tail := results[1..];
      RegisteredAllIsBest(r1, tail);
      var best := RegisteredAll(r, results);
      assert best == RegisteredAll(r1, tail);
      forall i | 0 <= i < |results|
        ensures best.earnedStars >= results[i]
      {
        if i > 0 {
          assert results[i] == tail[i - 1];
        }
      }
      if best.earnedStars != r1.earnedStars {
        var j :| 0 <= j < |tail| && best.earnedStars == tail[j];
        assert best.earnedStars == results[j + 1];
      } else if r1.earnedStars != r.earnedStars {
        assert best.earnedStars == results[0];
      }
    }
  }

  /**
   * The ball counter cycles with period `MaxBalls`: from a value in
   * [1, MaxBalls], after `k` balls it is ((balls - k - 1) mod MaxBalls) + 1,
   * so it stays in range and is back where it started after every full round.
   */
  lemma {:induction false} BallsCycle(balls: int, k: nat)
    requires 1 <= balls <= MaxBalls
    ensures BallsAfterUses(balls, k) == (balls - k - 1) % MaxBalls + 1
    ensures 1 <= BallsAfterUses(balls, k) <= MaxBalls
    ensures k % MaxBalls == 0 ==> BallsAfterUses(balls, k) == balls
    decreases k
  {
    if k > 0 {
      var next := BallsAfterUse(balls);
      BallsCycle(next, k - 1);
      if balls == 1 {
        assert (next - (k - 1) - 1) % MaxBalls == (balls - k - 1 + MaxBalls) % MaxBalls;
      }
    }
  }

  // ---------------------------------------------------------------------
  // Rules of the level list
  // ---------------------------------------------------------------------

  /** The levels the game starts with, as listed at the top of the game manager. */
  function InitialLevels(): (ls: seq<LevelRecord>)
    ensures |ls| == 5
    ensures forall i :: 0 <= i < |ls| ==>
      ls[i].numLevel == i + 1 && ls[i].earnedStars == 0 && ls[i].shoots == 0 &&
      ls[i].ballsAvailable == MaxBalls && ls[i].numPins == (if i == 1 then 4 else 3)
  {
    [LevelRecord(1, 0, 0, 3, 3),
     LevelRecord(2, 0, 0, 4, 3),
     LevelRecord(3, 0, 0, 3, 3),
     LevelRecord(4, 0, 0, 3, 3),
     LevelRecord(5, 0, 0, 3, 3)]
  }

  /**
   * The level list after a level is finished with `starsEarned`: only the
   * level numbered `nextLevel` (at index `nextLevel - 1`) registers the
   * result, and a number outside the list changes nothing.
   */
  function AfterResult(ls: seq<LevelRecord>, starsEarned: int, nextLevel: int): (r: seq<LevelRecord>)
    ensures |r| == |ls|
    ensures forall i :: 0 <= i < |ls| && i != nextLevel - 1 ==> r[i] == ls[i]
    ensures 1 <= nextLevel <= |ls| ==> r[nextLevel - 1] == Registered(ls[nextLevel - 1], starsEarned)
    ensures !(1 <= nextLevel <= |ls|) ==> r == ls
  {
    var index := nextLevel - 1;
    if 0 <= index < |ls| then ls[index := Registered(ls[index], starsEarned)] else ls
  }

  /** The level list after a ball of level `current` stops. */
  function AfterBallUse(ls: seq<LevelRecord>, current: int): (r: seq<LevelRecord>)
    requires 0 <= current < |ls|
    ensures |r| == |ls|
    ensures forall i :: 0 <= i < |ls| && i != current ==> r[i] == ls[i]
    ensures r[current] == ls[current].(ballsAvailable := BallsAfterUse(ls[current].ballsAvailable))
  {
    ls[current := ls[current].(ballsAvailable := BallsAfterUse(ls[current].ballsAvailable))]
  }

  ghost predicate StarsInRange(ls: seq<LevelRecord>)
  {
    forall i :: 0 <= i < |ls| ==> 0 <= ls[i].earnedStars <= StarTiles
  }

  ghost predicate BallsInRange(ls: seq<LevelRecord>)
  {
    forall i :: 0 <= i < |ls| ==> 1 <= ls[i].ballsAvailable <= MaxBalls
  }

  /** Finishing a level never lowers any level's best-star mark. */
  lemma AfterResultMonotone(ls: seq<LevelRecord>, starsEarned: int, nextLevel: int)
    ensures forall i :: 0 <= i < |ls| ==> AfterResult(ls, starsEarned, nextLevel)[i].earnedStars >= ls[i].earnedStars
  {
  }

  /** Reporting the same result for the same level twice is the same as reporting it once. */
  lemma AfterResultIdempotent(ls: seq<LevelRecord>, starsEarned: int, nextLevel: int)
    ensures AfterResult(AfterResult(ls, starsEarned, nextLevel), starsEarned, nextLevel)
         == AfterResult(ls, starsEarned, nextLevel)
  {
    if 1 <= nextLevel <= |ls| {
      RegisteredIdempotent(ls[nextLevel - 1], starsEarned);
    }
  }

  /** Star marks stay within the tiles when every reported result does. */
  lemma AfterResultKeepsStarsInRange(ls: seq<LevelRecord>, starsEarned: int, nextLevel: int)
    requires StarsInRange(ls) && 0 <= starsEarned <= StarTiles
    ensures StarsInRange(AfterResult(ls, starsEarned, nextLevel))
  {
  }

  /** Ball counters in [1, MaxBalls] stay there when a ball stops. */
  lemma AfterBallUseKeepsBallsInRange(ls: seq<LevelRecord>, current: int)
    requires 0 <= current < |ls| && BallsInRange(ls)
    ensures BallsInRange(AfterBallUse(ls, current))
  {
  }

  /** Every level of the initial list satisfies both range invariants. */
  lemma InitialLevelsInRange()
    ensures StarsInRange(InitialLevels()) && BallsInRange(InitialLevels())
  {
  }

  /** The star tiles shown for `earnedStars`: tile `i` is gold iff `i < earnedStars`. */
  function StarRow(earnedStars: int): (row: seq<bool>)
    ensures |row| == StarTiles
    ensures forall i :: 0 <= i < StarTiles ==> row[i] == (i < earnedStars)
  {
    [0 < earnedStars, 1 < earnedStars, 2 < earnedStars]
  }

  function CountTrue(flags: seq<bool>): nat
  {
    if flags == [] then 0 else (if flags[0] then 1 else 0) + CountTrue(flags[1..])
  }

  /** The row shows as many gold tiles as stars were earned, clamped to [0, StarTiles]. */
  lemma StarRowCount(earnedStars: int)
    ensures CountTrue(StarRow(earnedStars)) ==
      (if earnedStars < 0 then 0 else if earnedStars > StarTiles then StarTiles else earnedStars)
  {
    var row := StarRow(earnedStars);
    assert row[1..][1..][1..] == [];
    assert CountTrue(row[1..][1..]) == (if row[2] then 1 else 0);
    assert CountTrue(row[1..]) == (if row[1] then 1 else 0) + (if row[2] then 1 else 0);
  }

  // ---------------------------------------------------------------------
  // The objects
  // ---------------------------------------------------------------------

  class Level {
    var numLevel: int
    /** The best star count obtained; a level with stars is completed. */
    var earnedStars: int
    /** Declared by the game and never assigned: it keeps its default 0. */
    var shoots: int
    var numPins: int
    var ballsAvailable: int

    function Record(): LevelRecord
      reads this
    {
      LevelRecord(numLevel, earnedStars, shoots, numPins, ballsAvailable)
    }

    constructor (numLevel: int, numPins: int, ballsAvailable: int)
      ensures Record() == LevelRecord(numLevel, 0, 0, numPins, ballsAvailable)
    {
      this.numLevel := numLevel;
      this.earnedStars := 0;
      this.shoots := 0;
      this.numPins := numPins;
      this.ballsAvailable := ballsAvailable;
    }

    method RegisterResult(newStarsEarned: int)
      modifies this`earnedStars
      ensures Record() == Registered(old(Record()), newStarsEarned)
    {
      earnedStars := Max(earnedStars, newStarsEarned);
    }

    method BallUsed()
      modifies this`ballsAvailable
      ensures Record() == old(Record()).(ballsAvailable := BallsAfterUse(old(ballsAvailable)))
    {
      ballsAvailable := ballsAvailable - 1;
      if 0 == ballsAvailable {
        ballsAvailable := MaxBalls;
      }
    }
  }

  class GameManager {
    var levels: seq<Level>
    var ballsLaunched: int
    /** The `enabled` flags of the gold star images of the level selector. */
    var goldStars: array<bool>
    /** The `enabled` flags of the grey star images of the level selector. */
    var greyStars: array<bool>

    ghost predicate Valid()
      reads this
    {
      (forall i, j :: 0 <= i < j < |levels| ==> levels[i] != levels[j]) &&
      goldStars != greyStars
    }

    /** The current value of every level, in list order. */
    ghost function Records(): (rs: seq<LevelRecord>)
      reads this, levels
      ensures |rs| == |levels|
      ensures forall i :: 0 <= i < |levels| ==> rs[i] == levels[i].Record()
    {
      seq(|levels|, i reads this, levels requires 0 <= i < |levels| => levels[i].Record())
    }

    constructor (goldStars: array<bool>, greyStars: array<bool>)
      requires goldStars != greyStars
      ensures Valid() && fresh(levels)
      ensures Records() == InitialLevels()
      ensures ballsLaunched == 0
      ensures this.goldStars == goldStars && this.greyStars == greyStars
    {
      var l1 := new Level(1, 3, 3);
      var l2 := new Level(2, 4, 3);
      var l3 := new Level(3, 3, 3);
      var l4 := new Level(4, 3, 3);
      var l5 := new Level(5, 3, 3);
      levels := [l1, l2, l3, l4, l5];
      ballsLaunched := 0;
      this.goldStars := goldStars;
      this.greyStars := greyStars;
    }

    /** Lights the first `StarTiles` tiles for `earnedStars`; other tiles are left alone. */
    method SetStarsLevel(earnedStars: int)
      requires goldStars.Length >= StarTiles && greyStars.Length >= StarTiles
      requires goldStars != greyStars
      modifies goldStars, greyStars
      ensures goldStars[..StarTiles] == StarRow(earnedStars)
      ensures forall i :: 0 <= i < StarTiles ==> greyStars[i] == !goldStars[i]
      ensures forall i :: StarTiles <= i < goldStars.Length ==> goldStars[i] == old(goldStars[i])
      ensures forall i :: StarTiles <= i < greyStars.Length ==> greyStars[i] == old(greyStars[i])
    {
      for i := 0 to StarTiles
        invariant forall k :: 0 <= k < i ==> goldStars[k] == (k < earnedStars) && greyStars[k] == !goldStars[k]
        invariant forall k :: i <= k < goldStars.Length ==> goldStars[k] == old(goldStars[k])
        invariant forall k :: i <= k < greyStars.Length ==> greyStars[k] == old(greyStars[k])
      {
        var gold := i < earnedStars;
        goldStars[i] := gold;
        greyStars[i] := !gold;
      }
    }

    /** Shows the earned stars and records them for the level numbered `nextLevel`. */
    method EndLevel(starsEarned: int, nextLevel: int)
      requires Valid()
      requires goldStars.Length >= StarTiles && greyStars.Length >= StarTiles
      modifies goldStars, greyStars, levels
      ensures Valid()
      ensures Records() == AfterResult(old(Records()), starsEarned, nextLevel)
      ensures goldStars[..StarTiles] == StarRow(starsEarned)
      ensures forall i :: 0 <= i < StarTiles ==> greyStars[i] == !goldStars[i]
      ensures forall i :: StarTiles <= i < goldStars.Length ==> goldStars[i] == old(goldStars[i])
      ensures forall i :: StarTiles <= i < greyStars.Length ==> greyStars[i] == old(greyStars[i])
    {
      SetStarsLevel(starsEarned);
      var levelIndex := nextLevel - 1;
      if levelIndex >= 0 && levelIndex < |levels| {
        levels[levelIndex].RegisterResult(starsEarned);
      }
    }

    /** Counts a stopped ball and takes it from the level at index `currentLevel`. */
    method BallStopped(currentLevel: int)
      requires Valid() && 0 <= currentLevel < |levels|
      modifies this`ballsLaunched, levels[currentLevel]
      ensures Valid()
      ensures ballsLaunched == old(ballsLaunched) + 1
      ensures Records() == AfterBallUse(old(Records()), currentLevel)
    {
      ballsLaunched := ballsLaunched + 1;
      var level := levels[currentLevel];
      level.BallUsed();
    }
  }
}
