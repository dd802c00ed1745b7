/** The editing operations of the drum machine (src/App.jsx): toggling a
    step of the grid, changing a voice parameter, and the arrangement list
    operations (add, move, copy, delete). */
module Edits {
  import opened Patterns

  // ---------------------------------------------------------------------
  // Step grid and voice parameters
  // ---------------------------------------------------------------------

  /** `toggleStep(sound, stepIndex)`: flips exactly that step of that
      instrument's row. An index past the row changes nothing. The source
      reads the row unguarded, so the instrument must have one. */
  function ToggleStep(g: StepGrid, sound: Instrument, step: nat): (r: StepGrid)
    requires sound in g
    ensures r.Keys == g.Keys
    ensures |r[sound]| == |g[sound]|
    ensures forall k :: 0 <= k < |g[sound]| ==> r[sound][k] == (if k == step then !g[sound][k] else g[sound][k])
    ensures forall i :: i in g && i != sound ==> r[i] == g[i]
  {
    var row := g[sound];
    g[sound := seq(|row|, k requires 0 <= k < |row| => if k == step then !row[k] else row[k])]
  }

  /** Toggling keeps a well-formed grid well formed. */
  lemma ToggleKeepsShape(g: StepGrid, sound: Instrument, step: nat)
    requires WellFormedGrid(g)
    ensures WellFormedGrid(ToggleStep(g, sound, step))
  {
  }

  /** Toggling the same step twice restores the grid. */
  lemma ToggleTwice(g: StepGrid, sound: Instrument, step: nat)
    requires sound in g
    ensures ToggleStep(ToggleStep(g, sound, step), sound, step) == g
  {
    var once := ToggleStep(g, sound, step);
    var twice := ToggleStep(once, sound, step);
    assert twice[sound] == g[sound];
    assert forall i :: i in g ==> twice[i] == g[i];
  }

  /** After a toggle the step is on exactly when it was off before. */
  lemma ToggleFlipsActive(g: StepGrid, sound: Instrument, step: nat, i: Instrument, s: nat)
    requires sound in g
    ensures Active(ToggleStep(g, sound, step), i, s)
            == (if i == sound && s == step && s < |g[sound]| then !Active(g, i, s) else Active(g, i, s))
  {
  }

  /** The knobs a voice has so far; none when it has no parameters. */
  function Knobs(params: DrumParams, sound: Instrument): VoiceParams {
    if sound in params then params[sound] else map[]
  }

  /** `handleDrumParamChange(sound, param, value)`: sets one knob of one
      voice; a voice without parameters gets a map with just that knob. */
  function SetDrumParam(params: DrumParams, sound: Instrument, param: string, value: real): (r: DrumParams)
    ensures r.Keys == params.Keys + {sound}
    ensures param in r[sound] && r[sound][param] == value
    ensures sound in params ==> r[sound].Keys == params[sound].Keys + {param}
    ensures forall q :: q in r[sound] && q != param ==> sound in params && q in params[sound] && r[sound][q] == params[sound][q]
    ensures forall i :: i in params && i != sound ==> r[i] == params[i]
  {
    params[sound := Knobs(params, sound)[param := value]]
  }

  /** The last of two changes to the same knob wins. */
  lemma SetDrumParamLastWins(params: DrumParams, sound: Instrument, param: string, v1: real, v2: real)
    ensures SetDrumParam(SetDrumParam(params, sound, param, v1), sound, param, v2) == SetDrumParam(params, sound, param, v2)
  {
    var a := SetDrumParam(SetDrumParam(params, sound, param, v1), sound, param, v2);
    var b := SetDrumParam(params, sound, param, v2);
    assert a[sound] == b[sound];
  }

  /** Changes to different knobs, or different voices, commute. */
  lemma SetDrumParamCommutes(params: DrumParams, s1: Instrument, p1: string, v1: real, s2: Instrument, p2: string, v2: real)
    requires s1 != s2 || p1 != p2
    ensures SetDrumParam(SetDrumParam(params, s1, p1, v1), s2, p2, v2)
         == SetDrumParam(SetDrumParam(params, s2, p2, v2), s1, p1, v1)
  {
    var one := params[s1 := Knobs(params, s1)[p1 := v1]];
    var two := params[s2 := Knobs(params, s2)[p2 := v2]];
    KnobUpdatesCommute(params, s1, p1, v1, s2, p2, v2, one, two);
  }

  /** The map algebra behind `SetDrumParamCommutes`, on the updates
      `SetDrumParam` makes. */
  lemma KnobUpdatesCommute(params: DrumParams, s1: Instrument, p1: string, v1: real, s2: Instrument, p2: string, v2: real,
                           one: DrumParams, two: DrumParams)
    requires s1 != s2 || p1 != p2
    requires one == params[s1 := Knobs(params, s1)[p1 := v1]]
    requires two == params[s2 := Knobs(params, s2)[p2 := v2]]
    ensures one[s2 := Knobs(one, s2)[p2 := v2]] == two[s1 := Knobs(two, s1)[p1 := v1]]
  {
    var k1, k2 := Knobs(params, s1), Knobs(params, s2);
    if s1 != s2 {
      assert Knobs(one, s2) == k2;
      assert Knobs(two, s1) == k1;
      UpdatesCommute(params, s1, k1[p1 := v1], s2, k2[p2 := v2]);
    } else {
      assert Knobs(one, s1) == k1[p1 := v1];
      assert Knobs(two, s1) == k1[p2 := v2];
      UpdatesCommute(k1, p1, v1, p2, v2);
      UpdateOverwrites(params, s1, k1[p1 := v1], k1[p1 := v1][p2 := v2]);
      UpdateOverwrites(params, s1, k1[p2 := v2], k1[p2 := v2][p1 := v1]);
    }
  }

  lemma UpdatesCommute<K, V>(m: map<K, V>, a: K, x: V, b: K, y: V)
    requires a != b
    ensures m[a := x][b := y] == m[b := y][a := x]
  {
  }

  lemma UpdateOverwrites<K, V>(m: map<K, V>, a: K, x: V, y: V)
    ensures m[a := x][a := y] == m[a := y]
  {
  }

  // ---------------------------------------------------------------------
  // Arrangement list
  // ---------------------------------------------------------------------

  /** `addPatternToArrangement`: appends a copy of the pattern. */
  function Add(a: seq<Pattern>, p: Pattern): (r: seq<Pattern>)
    ensures |r| == |a| + 1 && r[..|a|] == a && r[|a|] == p
  {
    a + [p]
  }

  /** The list without index `i`. */
  function RemoveAt<T>(a: seq<T>, i: nat): (r: seq<T>)
    requires i < |a|
    ensures |r| == |a| - 1
    ensures forall k :: 0 <= k < |r| ==> r[k] == (if k < i then a[k] else a[k + 1])
  {
    a[..i] + a[i + 1..]
  }

  /** The list with `x` inserted before index `i`. */
  function InsertAt<T>(a: seq<T>, i: nat, x: T): (r: seq<T>)
    requires i <= |a|
    ensures |r| == |a| + 1
    ensures r[i] == x
    ensures forall k :: 0 <= k < |r| && k != i ==> r[k] == (if k < i then a[k] else a[k - 1])
  {
    a[..i] + [x] + a[i..]
  }

  lemma RemoveInserted<T>(a: seq<T>, i: nat, x: T)
    requires i <= |a|
    ensures RemoveAt(InsertAt(a, i, x), i) == a
  {
  }

  lemma InsertRemoved<T>(a: seq<T>, i: nat)
    requires i < |a|
    ensures InsertAt(RemoveAt(a, i), i, a[i]) == a
  {
  }

  lemma RemoveAtMultiset<T>(a: seq<T>, i: nat)
    requires i < |a|
    ensures multiset(RemoveAt(a, i)) + multiset{a[i]} == multiset(a)
  {
    assert a == a[..i] + [a[i]] + a[i + 1..];
  }

  lemma InsertAtMultiset<T>(a: seq<T>, i: nat, x: T)
    requires i <= |a|
    ensures multiset(InsertAt(a, i, x)) == multiset(a) + multiset{x}
  {
    assert a == a[..i] + a[i..];
  }

  /** `movePatternInArrangement(fromIndex, direction)`: when the target
      index is inside the list, the pattern is taken out and put back at
      the target; otherwise nothing changes. The source is only called with
      the index of a pattern in the list. */
  function Move(a: seq<Pattern>, from: nat, direction: int): (r: seq<Pattern>)
    requires from < |a|
    ensures |r| == |a|
    ensures multiset(r) == multiset(a)
    ensures !(0 <= from + direction < |a|) ==> r == a
    ensures 0 <= from + direction < |a| ==> r[from + direction] == a[from]
    ensures 0 <= from + direction < |a| ==> RemoveAt(r, from + direction) == RemoveAt(a, from)
  {
    var to := from + direction;
    if 0 <= to < |a| then
      RemoveAtMultiset(a, from);
      InsertAtMultiset(RemoveAt(a, from), to, a[from]);
      RemoveInserted(RemoveAt(a, from), to, a[from]);
      InsertAt(RemoveAt(a, from), to, a[from])
    else a
  }

  /** Moving a pattern and moving it back restores the list. */
  lemma MoveBack(a: seq<Pattern>, from: nat, direction: int)
    requires from < |a| && 0 <= from + direction < |a|
    ensures Move(Move(a, from, direction), from + direction, -direction) == a
  {
    var b := Move(a, from, direction);
    var to := from + direction;
    assert b[to] == a[from];
    assert RemoveAt(b, to) == RemoveAt(a, from);
    InsertRemoved(a, from);
  }

  /** The buttons move by one place: that swaps two neighbours. */
  lemma MoveOneSwaps(a: seq<Pattern>, from: nat, direction: int)
    requires from < |a| && (direction == 1 || direction == -1) && 0 <= from + direction < |a|
    ensures Move(a, from, direction) == a[from := a[from + direction]][from + direction := a[from]]
  {
    var to := from + direction;
    var moved := InsertAt(RemoveAt(a, from), to, a[from]);
    var swapped := a[from := a[to]][to := a[from]];
    forall k | 0 <= k < |a|
      ensures moved[k] == swapped[k]
    {
    }
    assert moved == swapped;
  }

  /** `copyPatternInArrangement(pattern, index)`: a copy with a fresh id
      and `_copy` appended to its name goes right after `index`; an index
      at or past the end appends it. */
  function Copy(a: seq<Pattern>, p: Pattern, index: nat, freshId: int): (r: seq<Pattern>)
    ensures |r| == |a| + 1
    ensures var at := if index + 1 < |a| then index + 1 else |a|;
      && r[..at] == a[..at]
      && r[at] == p.(id := freshId, name := CopyOf(p.name))
      && r[at + 1..] == a[at..]
  {
    var at := if index + 1 < |a| then index + 1 else |a|;
    InsertAt(a, at, p.(id := freshId, name := CopyOf(p.name)))
  }

  /** `deleteFromArrangement(index)`: keeps every other pattern, in order;
      an index outside the list changes nothing. */
  function Delete(a: seq<Pattern>, index: int): (r: seq<Pattern>)
    ensures 0 <= index < |a| ==> |r| == |a| - 1 && r[..index] == a[..index] && r[index..] == a[index + 1..]
    ensures !(0 <= index < |a|) ==> r == a
  {
    if 0 <= index < |a| then RemoveAt(a, index) else a
  }

  /** Deleting the copy just made restores the arrangement. */
  lemma DeleteCopy(a: seq<Pattern>, p: Pattern, index: nat, freshId: int)
    ensures Delete(Copy(a, p, index, freshId), if index + 1 < |a| then index + 1 else |a|) == a
  {
    var at := if index + 1 < |a| then index + 1 else |a|;
    RemoveInserted(a, at, p.(id := freshId, name := CopyOf(p.name)));
  }

  /** Deleting the pattern just added restores the arrangement. */
  lemma DeleteAdded(a: seq<Pattern>, p: Pattern)
    ensures Delete(Add(a, p), |a|) == a
  {
    assert Add(a, p)[..|a|] == a;
  }
}
