/**
 * Editing the blind structure in the configuration panel (src/components/ConfigPanel.tsx).
 * Each operation computes the panel's next local structure from the current one.
 */
module Structure {
  import opened Wrappers
  import opened Levels

  /** A level with its number blanked, for comparisons that ignore renumbering. */
  function Unnumbered(l: BlindLevel): BlindLevel {
    l.(id := 0)
  }

  function Strip(levels: seq<BlindLevel>): (r: seq<BlindLevel>)
    ensures |r| == |levels|
    ensures forall i :: 0 <= i < |r| ==> r[i] == Unnumbered(levels[i])
  {
    seq(|levels|, i requires 0 <= i < |levels| => Unnumbered(levels[i]))
  }

  /** Levels are numbered 1, 2, 3, ... in order. */
  predicate Numbered(levels: seq<BlindLevel>) {
    forall i :: 0 <= i < |levels| ==> levels[i].id == i + 1
  }

  /** `reindex`: `levels.map((l, i) => ({ ...l, id: i + 1 }))`. */
  function Reindex(levels: seq<BlindLevel>): (r: seq<BlindLevel>)
    ensures |r| == |levels| && Numbered(r)
    ensures Strip(r) == Strip(levels)
  {
    seq(|levels|, i requires 0 <= i < |levels| => levels[i].(id := i + 1))
  }

  /** Renumbering an already numbered structure changes nothing. */
  lemma ReindexNumbered(levels: seq<BlindLevel>)
    requires Numbered(levels)
    ensures Reindex(levels) == levels
  {
  }

  /** Two structures with the same levels, apart from ids, renumber to the same structure. */
  lemma ReindexOnlyNeedsStrip(a: seq<BlindLevel>, b: seq<BlindLevel>)
    requires Strip(a) == Strip(b)
    ensures Reindex(a) == Reindex(b)
  {
    assert |a| == |Strip(a)| == |b|;
    forall i | 0 <= i < |a| ensures Reindex(a)[i] == Reindex(b)[i] {
      assert Strip(a)[i] == Strip(b)[i];
    }
  }

  // ------------------------------------------------------------- add a level

  /** The level `addLevel` appends: twice the last level's blinds, or 25/50 for 15 minutes. */
  function NewLevel(levels: seq<BlindLevel>): (r: BlindLevel)
    ensures r.id == 0 && r.ante == Some(0) && r.isBreak.None? && r.caption.None?
    ensures |levels| > 0 ==> var last := levels[|levels| - 1];
      r.smallBlind == 2 * last.smallBlind && r.bigBlind == 2 * last.bigBlind && r.duration == last.duration
    ensures |levels| == 0 ==> r.smallBlind == 25 && r.bigBlind == 50 && r.duration == 15
  {
    if |levels| > 0 then
      var last := levels[|levels| - 1];
      BlindLevel(0, last.smallBlind * 2, last.bigBlind * 2, Some(0), last.duration, None, None)
    else BlindLevel(0, 25, 50, Some(0), 15, None, None)
  }

  /** `addLevel`. */
  function AddLevel(levels: seq<BlindLevel>): (r: seq<BlindLevel>)
    ensures |r| == |levels| + 1 && Numbered(r)
    ensures Strip(r)[..|levels|] == Strip(levels)
    ensures var added := r[|levels|];
      added.ante == Some(0) && added.isBreak.None? && added.caption.None? &&
      (if |levels| > 0 then
         added.smallBlind == 2 * levels[|levels| - 1].smallBlind &&
         added.bigBlind == 2 * levels[|levels| - 1].bigBlind &&
         added.duration == levels[|levels| - 1].duration
       else added.smallBlind == 25 && added.bigBlind == 50 && added.duration == 15)
  {
    Reindex(levels + [NewLevel(levels)])
  }

  // ---------------------------------------------------------- remove a level

  /** `filter((_, i) => i !== index)`, walking the structure with the position of its head. */
  function DropAt(levels: seq<BlindLevel>, index: int): (r: seq<BlindLevel>)
    ensures |r| == if 0 <= index < |levels| then |levels| - 1 else |levels|
    ensures 0 <= index < |levels| ==> multiset(r) + multiset{levels[index]} == multiset(levels)
    ensures !(0 <= index < |levels|) ==> multiset(r) == multiset(levels)
    decreases |levels|
  {
    if levels == [] then []
    else
      var rest := DropAt(levels[1..], index - 1);
      assert levels == [levels[0]] + levels[1..];
      assert 0 < index < |levels| ==> levels[1..][index - 1] == levels[index];
      (if index == 0 then [] else [levels[0]]) + rest
  }

  /** The filter removes exactly element `index` when it exists, and nothing otherwise. */
  lemma {:induction false} DropAtIsRemoval(levels: seq<BlindLevel>, index: int)
    ensures DropAt(levels, index) ==
      if 0 <= index < |levels| then levels[..index] + levels[index + 1..] else levels
    decreases |levels|
  {
    if levels != [] {
      DropAtIsRemoval(levels[1..], index - 1);
      if index > 0 && index < |levels| {
        assert levels[1..][..index - 1] == levels[1..index];
        assert levels[1..][index..] == levels[index + 1..];
        assert [levels[0]] + levels[1..index] == levels[..index];
      } else if index != 0 {
        assert [levels[0]] + levels[1..] == levels;
      }
    }
  }

  /** `removeLevel`. */
  function RemoveLevel(levels: seq<BlindLevel>, index: int): (r: seq<BlindLevel>)
    ensures Numbered(r)
    ensures 0 <= index < |levels| ==>
      |r| == |levels| - 1 && Strip(r) == Strip(levels[..index] + levels[index + 1..])
    ensures !(0 <= index < |levels|) ==> r == Reindex(levels)
  {
    DropAtIsRemoval(levels, index);
    Reindex(DropAt(levels, index))
  }

  // ------------------------------------------------------------ move a level

  datatype Direction = Up | Down

  /** `moveLevel`: no change at the ends, otherwise a swap with the neighbour and a renumbering. */
  function MoveLevel(levels: seq<BlindLevel>, index: int, dir: Direction): (r: seq<BlindLevel>)
    requires 0 <= index < |levels|
    ensures |r| == |levels|
    ensures multiset(Strip(r)) == multiset(Strip(levels))
  {
    if dir.Up? && index == 0 then levels
    else if dir.Down? && index == |levels| - 1 then levels
    else
      var target := if dir.Up? then index - 1 else index + 1;
      var swapped := levels[index := levels[target]][target := levels[index]];
      SwapStrip(levels, index, target);
      Reindex(swapped)
  }

  /** Swapping two positions and then stripping ids keeps the multiset of levels. */
  lemma SwapStrip(levels: seq<BlindLevel>, i: int, j: int)
    requires 0 <= i < |levels| && 0 <= j < |levels|
    ensures var swapped := levels[i := levels[j]][j := levels[i]];
      multiset(Strip(swapped)) == multiset(Strip(levels))
  {
    var swapped := levels[i := levels[j]][j := levels[i]];
    var s := Strip(levels);
    var once := s[i := s[j]];
    var twice := once[j := s[i]];
    assert Strip(swapped) == twice;
    assert multiset(once) == multiset(s) - multiset{s[i]} + multiset{s[j]};
    assert multiset(twice) == multiset(once) - multiset{once[j]} + multiset{s[i]};
  }

  /** Moving up at the top or down at the bottom leaves the structure exactly as it was. */
  lemma MoveLevelAtEnds(levels: seq<BlindLevel>)
    requires |levels| > 0
    ensures MoveLevel(levels, 0, Up) == levels
    ensures MoveLevel(levels, |levels| - 1, Down) == levels
  {
  }

  /** Elsewhere the level trades places with its neighbour and the ids are renumbered. */
  lemma MoveLevelSwaps(levels: seq<BlindLevel>, index: int, dir: Direction)
    requires 0 <= index < |levels|
    requires dir == Up ==> index > 0
    requires dir == Down ==> index < |levels| - 1
    ensures var target := if dir == Up then index - 1 else index + 1;
      var r := MoveLevel(levels, index, dir);
      Numbered(r) &&
      Unnumbered(r[target]) == Unnumbered(levels[index]) &&
      Unnumbered(r[index]) == Unnumbered(levels[target]) &&
      forall k :: 0 <= k < |levels| && k != index && k != target ==> Unnumbered(r[k]) == Unnumbered(levels[k])
  {
  }

  /** Moving a level up and then back down restores the structure, renumbered. */
  lemma MoveUpThenDown(levels: seq<BlindLevel>, index: int)
    requires 0 < index < |levels|
    ensures MoveLevel(MoveLevel(levels, index, Up), index - 1, Down) == Reindex(levels)
  {
    var once := MoveLevel(levels, index, Up);
    var twice := MoveLevel(once, index - 1, Down);
    assert Strip(twice) == Strip(levels) by {
      forall k | 0 <= k < |levels| ensures Strip(twice)[k] == Strip(levels)[k] {
        MoveLevelSwaps(levels, index, Up);
        MoveLevelSwaps(once, index - 1, Down);
      }
    }
    ReindexOnlyNeedsStrip(twice, levels);
    ReindexNumbered(twice);
  }

  // ---------------------------------------------------------- edit one field

  datatype Field = SmallBlind | BigBlind | Ante | Duration

  /** `{ ...level, [field]: value }`: field `f` now reads `v` and everything else is kept. */
  function SetField(l: BlindLevel, f: Field, v: int): (r: BlindLevel)
    ensures GetField(r, f) == Some(v)
    ensures forall g :: g != f ==> GetField(r, g) == GetField(l, g)
    ensures r.id == l.id && r.isBreak == l.isBreak && r.caption == l.caption
  {
    match f
    case SmallBlind => l.(smallBlind := v)
    case BigBlind => l.(bigBlind := v)
    case Ante => l.(ante := Some(v))
    case Duration => l.(duration := v)
  }

  /** The value of field `f` of `l`, an absent ante reading as `None`. */
  function GetField(l: BlindLevel, f: Field): Option<int> {
    match f
    case SmallBlind => Some(l.smallBlind)
    case BigBlind => Some(l.bigBlind)
    case Ante => l.ante
    case Duration => Some(l.duration)
  }

  /** Writing back the value a field already holds changes nothing. */
  lemma SetFieldUnchanged(l: BlindLevel, f: Field)
    requires GetField(l, f).Some?
    ensures SetField(l, f, GetField(l, f).value) == l
  {
  }

  /** A field set twice keeps only the second value. */
  lemma SetFieldTwice(l: BlindLevel, f: Field, v: int, w: int)
    ensures SetField(SetField(l, f, v), f, w) == SetField(l, f, w)
  {
  }

  /** `handleLevelChange`; the panel only calls it for a row it shows. */
  function ChangeLevel(levels: seq<BlindLevel>, index: int, f: Field, v: int): (r: seq<BlindLevel>)
    requires 0 <= index < |levels|
    ensures |r| == |levels|
    ensures GetField(r[index], f) == Some(v) && r[index].id == levels[index].id
    ensures forall g :: g != f ==> GetField(r[index], g) == GetField(levels[index], g)
    ensures r[index].isBreak == levels[index].isBreak && r[index].caption == levels[index].caption
    ensures forall k :: 0 <= k < |levels| && k != index ==> r[k] == levels[k]
  {
    levels[index := SetField(levels[index], f, v)]
  }

  // ---------------------------------------------------------------- saving

  /** The least value `handleSave` accepts in field `f`. */
  function Least(f: Field): int {
    if f == Duration then 1 else 0
  }

  /** The condition each level must meet in `handleSave`; a saved level lasts at least a minute. */
  predicate ValidLevel(l: BlindLevel)
    ensures ValidLevel(l) ==> l.duration * 60 >= 60
  {
    l.smallBlind >= 0 && l.bigBlind >= 0 && (l.ante.None? || l.ante.value >= 0) && l.duration > 0
  }

  /** The gate, field by field: every edited field that is present is at least its least value. */
  lemma ValidLevelByField(l: BlindLevel)
    ensures ValidLevel(l) <==> forall f :: GetField(l, f).Some? ==> GetField(l, f).value >= Least(f)
  {
    assert GetField(l, SmallBlind) == Some(l.smallBlind) && GetField(l, BigBlind) == Some(l.bigBlind);
    assert GetField(l, Ante) == l.ante && GetField(l, Duration) == Some(l.duration);
  }

  /** `Array.prototype.every` over the levels, from the front. */
  function Every(levels: seq<BlindLevel>): (b: bool)
    ensures b <==> forall i :: 0 <= i < |levels| ==> ValidLevel(levels[i])
  {
    if levels == [] then true
    else ValidLevel(levels[0]) && Every(levels[1..])
  }

  /** `handleSave`: the structure handed to `onSave`, or `None` when the alert is shown instead. */
  function HandleSave(levels: seq<BlindLevel>): (r: Option<seq<BlindLevel>>)
    ensures r.Some? <==> forall i :: 0 <= i < |levels| ==> ValidLevel(levels[i])
    ensures r.Some? ==> r.value == levels
  {
    if Every(levels) then Some(levels) else None
  }

  predicate ValidStructure(levels: seq<BlindLevel>) {
    forall i :: 0 <= i < |levels| ==> ValidLevel(levels[i])
  }

  /** The seed schedule passes the gate. */
  lemma DefaultBlindsSavable()
    ensures HandleSave(DefaultBlinds()) == Some(DefaultBlinds())
  {
  }

  lemma AddKeepsValid(levels: seq<BlindLevel>)
    requires ValidStructure(levels)
    ensures ValidStructure(AddLevel(levels))
  {
    var added := AddLevel(levels);
    forall i | 0 <= i < |added| ensures ValidLevel(added[i]) {
      assert Strip(added)[i] == Unnumbered(added[i]);
      if i < |levels| {
        assert Strip(added)[..|levels|][i] == Strip(levels)[i];
      }
    }
  }

  lemma RemoveKeepsValid(levels: seq<BlindLevel>, index: int)
    requires ValidStructure(levels)
    ensures ValidStructure(RemoveLevel(levels, index))
  {
    var removed := RemoveLevel(levels, index);
    var kept := if 0 <= index < |levels| then levels[..index] + levels[index + 1..] else levels;
    assert Strip(removed) == Strip(kept);
    forall i | 0 <= i < |removed| ensures ValidLevel(removed[i]) {
      assert Strip(removed)[i] == Strip(kept)[i];
      assert kept[i] in levels;
    }
  }

  lemma MoveKeepsValid(levels: seq<BlindLevel>, index: int, dir: Direction)
    requires ValidStructure(levels) && 0 <= index < |levels|
    ensures ValidStructure(MoveLevel(levels, index, dir))
  {
    var moved := MoveLevel(levels, index, dir);
    forall i | 0 <= i < |moved| ensures ValidLevel(moved[i]) {
      var u := Strip(moved)[i];
      assert u in multiset(Strip(levels));
      var k :| 0 <= k < |levels| && Strip(levels)[k] == u;
    }
  }

  /** Adding, removing and moving levels keep a savable structure savable. */
  lemma EditsKeepValid(levels: seq<BlindLevel>, index: int, dir: Direction)
    requires ValidStructure(levels)
    ensures ValidStructure(AddLevel(levels))
    ensures ValidStructure(RemoveLevel(levels, index))
    ensures 0 <= index < |levels| ==> ValidStructure(MoveLevel(levels, index, dir))
  {
    AddKeepsValid(levels);
    RemoveKeepsValid(levels, index);
    if 0 <= index < |levels| {
      MoveKeepsValid(levels, index, dir);
    }
  }
}
