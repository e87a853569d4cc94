/**
 * Pin scoring of the bowling minigame: a list of the pins hit so far with a
 * counter beside it, and the star rating derived from the count.
 *
 * The score manager's fields are updated in place by its methods; the
 * list they maintain is specified by `Recorded` and `RecordedAll`, and the
 * rating by `Stars`.
 */
module Score {
  import Game

  /** Identity of a pin object in the scene. */
  datatype PinId = PinId(instanceId: int)

  ghost predicate NoDuplicates(s: seq<PinId>)
  {
    forall i, j :: 0 <= i < j < |s| ==> s[i] != s[j]
  }

  /** The pins among `s`, as a set. */
  ghost function Distinct(s: seq<PinId>): set<PinId>
  {
    set p | p in s
  }

  /**
   * Stars earned with `pinsHitCount` pins hit out of `totalPins`: one when
   * no pin was hit (tested first, so also when there are no pins at all),
   * three when every pin was hit, two otherwise.
   */
  function Stars(pinsHitCount: int, totalPins: int): (stars: int)
    ensures 1 <= stars <= 3
    ensures stars == 1 <==> pinsHitCount == 0
    ensures stars == 3 <==> pinsHitCount != 0 && pinsHitCount == totalPins
  {
    if pinsHitCount == 0 then 1
    else if pinsHitCount == totalPins then 3
    else 2
  }

  /** The hit list after `pin` hits: a pin is listed the first time only. */
  function Recorded(pins: seq<PinId>, pin: PinId): (r: seq<PinId>)
    ensures NoDuplicates(pins) ==> NoDuplicates(r)
    ensures forall p :: p in r <==> p in pins || p == pin
    ensures |r| == |pins| + (if pin in pins then 0 else 1)
    ensures r[..|pins|] == pins
  {
    if pin in pins then pins else pins + [pin]
  }

  /** The hit list after each of `hits`, in order. */
  function RecordedAll(pins: seq<PinId>, hits: seq<PinId>): seq<PinId>
    decreases |hits|
  {
    if hits == [] then pins else RecordedAll(Recorded(pins, hits[0]), hits[1..])
  }

  /** A series of hits keeps the list free of duplicates and lists exactly the pins hit. */
  lemma {:induction false} RecordedAllContents(pins: seq<PinId>, hits: seq<PinId>)
    requires NoDuplicates(pins)
    ensures NoDuplicates(RecordedAll(pins, hits))
    ensures forall p :: p in RecordedAll(pins, hits) <==> p in pins || p in hits
    decreases |hits|
  {
    if hits != [] {
      RecordedAllContents(Recorded(pins, hits[0]), hits[1..]);
      forall p
        ensures p in hits <==> p == hits[0] || p in hits[1..]
      {
        if p in hits {
          var k :| 0 <= k < |hits| && hits[k] == p;
          if k > 0 {
            assert hits[1..][k - 1] == p;
          }
        }
      }
    }
  }

  /** A list without duplicates has as many elements as distinct pins. */
  lemma {:induction false} DistinctLength(s: seq<PinId>)
    requires NoDuplicates(s)
    ensures |Distinct(s)| == |s|
    decreases |s|
  {
    if s != [] {
      var tail := s[1..];
      DistinctLength(tail);
      assert Distinct(s) == Distinct(tail) + {s[0]};
      assert s[0] !in Distinct(tail);
    }
  }

  /** Starting from an empty list, the hit count is the number of distinct pins hit. */
  lemma HitCountIsDistinctPins(hits: seq<PinId>)
    ensures |RecordedAll([], hits)| == |Distinct(hits)|
  {
    RecordedAllContents([], hits);
    DistinctLength(RecordedAll([], hits));
    assert Distinct(RecordedAll([], hits)) == Distinct(hits);
  }

  /**
   * From an empty list, three stars are earned exactly when some pin was
   * hit and the number of distinct pins hit equals the total.
   */
  lemma ThreeStarsIffAllHit(hits: seq<PinId>, totalPins: int)
    ensures Stars(|RecordedAll([], hits)|, totalPins) == 3 <==> hits != [] && |Distinct(hits)| == totalPins
  {
    HitCountIsDistinctPins(hits);
    if hits != [] {
      assert hits[0] in Distinct(hits);
    }
  }

  /** Hits by pins not yet listed, none repeated, are appended in order. */
  lemma {:induction false} RecordedAllFresh(pins: seq<PinId>, hits: seq<PinId>)
    requires NoDuplicates(pins + hits)
    ensures RecordedAll(pins, hits) == pins + hits
    decreases |hits|
  {
    if hits != [] {
      var both := pins + hits;
      forall k | 0 <= k < |pins|
        ensures pins[k] != hits[0]
      {
        assert pins[k] == both[k] && hits[0] == both[|pins|];
      }
      assert (pins + [hits[0]]) + hits[1..] == both;
      RecordedAllFresh(pins + [hits[0]], hits[1..]);
    }
  }

  /**
   * With the total read from the scene's pin list before that list is
   * cleared, hitting every scene pin once earns three stars.
   */
  lemma ClearanceScoresThree(scene: seq<PinId>)
    requires scene != [] && NoDuplicates(scene)
    ensures Stars(|RecordedAll([], scene)|, |scene|) == 3
  {
    assert [] + scene == scene;
    RecordedAllFresh([], scene);
  }

  /**
   * With the total read after the list is cleared (as `Start` does), it is
   * 0, so hitting every scene pin earns two stars and never three.
   */
  lemma ClearanceAfterStartScoresTwo(scene: seq<PinId>)
    requires scene != []
    ensures Stars(|RecordedAll([], scene)|, 0) == 2
  {
    RecordedAllContents([], scene);
    assert scene[0] in RecordedAll([], scene);
  }

  class ScoreManager {
    /** The list of pins; cleared on start and then holding the pins hit. */
    var pins: seq<PinId>
    var pinsHitCount: int
    var totalPins: int

    ghost predicate Valid()
      reads this
    {
      pinsHitCount == |pins| && NoDuplicates(pins)
    }

    /** A score manager whose list holds the pins placed in the scene. */
    constructor (scenePins: seq<PinId>)
      ensures pins == scenePins && pinsHitCount == 0 && totalPins == 3
    {
      pins := scenePins;
      pinsHitCount := 0;
      totalPins := 3;
    }

    /** Resets the counter, then reads the total from the list it has just cleared. */
    method Start()
      modifies this
      ensures Valid()
      ensures pins == [] && pinsHitCount == 0 && totalPins == 0
    {
      ResetPinCount();
      totalPins := |pins|;
    }

    /** `Start` with the total read before the list is cleared. */
    method StartCountingFirst()
      modifies this
      ensures Valid()
      ensures pins == [] && pinsHitCount == 0 && totalPins == |old(pins)|
    {
      totalPins := |pins|;
      ResetPinCount();
    }

    method PinHit(pin: PinId)
      modifies this`pins, this`pinsHitCount
      ensures pins == Recorded(old(pins), pin)
      ensures pinsHitCount == old(pinsHitCount) + (if pin in old(pins) then 0 else 1)
      ensures pin in old(pins) ==> pins == old(pins) && pinsHitCount == old(pinsHitCount)
      ensures old(Valid()) ==> Valid()
    {
      if pin !in pins {
        pins := pins + [pin];
        pinsHitCount := pinsHitCount + 1;
      }
    }

    /** Rates the hits and reports the rating as the result for level 1. */
    method CalculateStars(game: Game.GameManager) returns (starsEarned: int)
      requires game.Valid()
      requires game.goldStars.Length >= Game.StarTiles && game.greyStars.Length >= Game.StarTiles
      modifies game.goldStars, game.greyStars, game.levels
      ensures starsEarned == Stars(pinsHitCount, totalPins)
      ensures Valid() ==> starsEarned == Stars(|pins|, totalPins)
      ensures game.Valid()
      ensures game.Records() == Game.AfterResult(old(game.Records()), starsEarned, 1)
      ensures forall i :: 1 <= i < |game.levels| ==> game.Records()[i] == old(game.Records())[i]
      ensures game.goldStars[..Game.StarTiles] == Game.StarRow(starsEarned)
      ensures forall i :: 0 <= i < Game.StarTiles ==> game.greyStars[i] == !game.goldStars[i]
      ensures forall i :: Game.StarTiles <= i < game.goldStars.Length ==> game.goldStars[i] == old(game.goldStars[i])
      ensures forall i :: Game.StarTiles <= i < game.greyStars.Length ==> game.greyStars[i] == old(game.greyStars[i])
    {
      starsEarned := Stars(pinsHitCount, totalPins);
      game.EndLevel(starsEarned, 1);
    }

    method ResetPinCount()
      modifies this`pins, this`pinsHitCount
      ensures Valid()
      ensures pins == [] && pinsHitCount == 0
    {
      pins := [];
      pinsHitCount := 0;
    }
  }
}
