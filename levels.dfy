/** Blind levels and the seed schedule the server starts with (server/types.ts, server/index.ts). */
module Levels {
  import opened Wrappers

  /** One stage of the tournament. `ante`, `isBreak` and `label` (here `caption`) are optional properties. */
  datatype BlindLevel = BlindLevel(
    id: int,
    smallBlind: int,
    bigBlind: int,
    ante: Option<int>,
    duration: int,           // minutes
    isBreak: Option<bool>,
    caption: Option<string>) // the `label` property (`label` is a Dafny keyword)

  /** `blinds[i]` in JavaScript: the level, or `undefined` outside the array. */
  function LevelAt(blinds: seq<BlindLevel>, i: int): (r: Option<BlindLevel>)
    ensures r.Some? <==> 0 <= i < |blinds|
    ensures r.Some? ==> r.value == blinds[i]
  {
    if 0 <= i < |blinds| then Some(blinds[i]) else None
  }

  function Seed(id: int, small: int, big: int, ante: Option<int>): BlindLevel {
    BlindLevel(id, small, big, ante, 15, None, None)
  }

  /** The fourteen hard-coded levels; an ante from level 5 on. */
  function DefaultBlinds(): (r: seq<BlindLevel>)
    ensures |r| == 14
    ensures forall i :: 0 <= i < |r| ==> r[i].id == i + 1 && r[i].duration == 15
    ensures forall i :: 0 <= i < |r| ==> r[i].bigBlind == 2 * r[i].smallBlind
    ensures forall i :: 0 <= i < |r| ==> (r[i].ante.Some? <==> i >= 4)
    ensures forall i :: 0 <= i < |r| ==> r[i].smallBlind > 0 && (r[i].ante.Some? ==> r[i].ante.value > 0)
    ensures forall i, j :: 0 <= i < j < |r| ==> r[i].smallBlind <= r[j].smallBlind
  {
    [ Seed(1, 25, 50, None),
      Seed(2, 50, 100, None),
      Seed(3, 75, 150, None),
      Seed(4, 100, 200, None),
      Seed(5, 100, 200, Some(25)),
      Seed(6, 150, 300, Some(25)),
      Seed(7, 200, 400, Some(50)),
      Seed(8, 250, 500, Some(50)),
      Seed(9, 300, 600, Some(75)),
      Seed(10, 400, 800, Some(100)),
      Seed(11, 500, 1000, Some(100)),
      Seed(12, 600, 1200, Some(200)),
      Seed(13, 800, 1600, Some(200)),
      Seed(14, 1000, 2000, Some(300)) ]
  }
}
