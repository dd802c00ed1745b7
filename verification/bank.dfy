/** The pattern bank: up to eight saved snapshots of the editor, kept in
    a sparse list where a deleted pattern leaves an empty slot behind
    (src/App.jsx:405-513), and the bank panel that shows it
    (src/PatternBank.jsx). */
module Bank {
  import opened Wrappers
  import opened Patterns

  /** The bank as the app keeps it: position `k` is slot `k`, `None` is an
      empty slot (a hole left by a delete, or never filled). */
  type Slots = seq<Option<Pattern>>

  const FullAlert: string := "Pattern bank is full! Delete some patterns to make room."

  /** What the editor currently shows: the values a save snapshots and a
      load restores. */
  datatype Editor = Editor(
    tempo: Tempo,
    swing: Swing,
    sequence: StepGrid,
    drumParams: DrumParams,
    arp: Option<ArpState>)

  /** The bank together with the editor and the single-pattern player. */
  datatype BankState = BankState(
    slots: Slots,
    editor: Editor,
    activeStep: StepIndex,
    currentlyPlaying: Option<int>,
    isPlaying: bool)

  /** A saved pattern holding the editor's values. */
  function Snapshot(e: Editor, id: int, name: Name): (p: Pattern)
    ensures p.id == id && p.name == name
    ensures p.tempo == e.tempo && p.swing == e.swing && p.sequence == e.sequence
    ensures p.drumParams == e.drumParams && p.arp == e.arp
  {
    Pattern(id, name, e.tempo, e.swing, e.sequence, e.drumParams, e.arp)
  }

  /** `loadPattern`: the editor shows the pattern's values. */
  function Load(p: Pattern): (e: Editor)
    ensures e.tempo == p.tempo && e.swing == p.swing && e.sequence == p.sequence
    ensures e.drumParams == p.drumParams && e.arp == p.arp
  {
    Editor(p.tempo, p.swing, p.sequence, p.drumParams, p.arp)
  }

  /** Loading a snapshot gives back the editor it was taken from. */
  lemma LoadSnapshot(e: Editor, id: int, name: Name)
    ensures Load(Snapshot(e, id, name)) == e
  {
  }

  /** The number of filled slots. */
  function OccupiedCount(slots: Slots): (n: nat)
    ensures n <= |slots|
  {
    if |slots| == 0 then 0
    else OccupiedCount(slots[..|slots| - 1]) + (if slots[|slots| - 1].Some? then 1 else 0)
  }

  lemma {:induction false} OccupiedCountAppend(a: Slots, b: Slots)
    ensures OccupiedCount(a + b) == OccupiedCount(a) + OccupiedCount(b)
    decreases |b|
  {
    if |b| == 0 {
      assert a + b == a;
    } else {
      assert (a + b)[..|a + b| - 1] == a + b[..|b| - 1];
      OccupiedCountAppend(a, b[..|b| - 1]);
    }
  }

  /** Replacing one slot changes the count by what left and what came. */
  lemma OccupiedCountUpdate(slots: Slots, k: nat, v: Option<Pattern>)
    requires k < |slots|
    ensures OccupiedCount(slots[k := v]) + (if slots[k].Some? then 1 else 0)
            == OccupiedCount(slots) + (if v.Some? then 1 else 0)
  {
    var s' := slots[k := v];
    assert slots == slots[..k] + [slots[k]] + slots[k + 1..];
    assert s' == slots[..k] + [v] + slots[k + 1..];
    OccupiedCountAppend(slots[..k] + [slots[k]], slots[k + 1..]);
    OccupiedCountAppend(slots[..k], [slots[k]]);
    OccupiedCountAppend(slots[..k] + [v], slots[k + 1..]);
    OccupiedCountAppend(slots[..k], [v]);
    assert [slots[k]][..0] == [];
    assert [v][..0] == [];
  }

  /** `n` empty slots. */
  function Holes(n: nat): (r: Slots)
    ensures |r| == n && forall k :: 0 <= k < n ==> r[k].None?
  {
    seq(n, _ => None)
  }

  /** Empty slots add nothing to the count. */
  lemma {:induction false} OccupiedCountHoles(n: nat)
    ensures OccupiedCount(Holes(n)) == 0
  {
    if n > 0 {
      assert Holes(n)[..n - 1] == Holes(n - 1);
      OccupiedCountHoles(n - 1);
    }
  }

  // ---------------------------------------------------------------------
  // Saving and deleting
  // ---------------------------------------------------------------------

  datatype Saved = Saved(slots: Slots, alert: Option<string>)

  /** `saveCurrentPattern`: refuses with an alert once the list holds eight
      entries, holes included; otherwise appends a snapshot named after
      its new position. */
  function SaveCurrent(slots: Slots, e: Editor, id: int): (r: Saved)
    ensures |slots| >= BankCapacity ==> r == Saved(slots, Some(FullAlert))
    ensures |slots| < BankCapacity ==>
      r.alert.None? && r.slots == slots + [Some(Snapshot(e, id, Numbered(|slots| + 1)))]
  {
    if |slots| >= BankCapacity then Saved(slots, Some(FullAlert))
    else Saved(slots + [Some(Snapshot(e, id, Numbered(|slots| + 1)))], None)
  }

  /** Saving never takes the bank past eight entries and, when it saves,
      fills exactly one more slot. */
  lemma SaveCurrentCount(slots: Slots, e: Editor, id: int)
    requires |slots| <= BankCapacity
    ensures |SaveCurrent(slots, e, id).slots| <= BankCapacity
    ensures SaveCurrent(slots, e, id).alert.None? ==>
      OccupiedCount(SaveCurrent(slots, e, id).slots) == OccupiedCount(slots) + 1
  {
    if |slots| < BankCapacity {
      OccupiedCountAppend(slots, [Some(Snapshot(e, id, Numbered(|slots| + 1)))]);
      assert [Some(Snapshot(e, id, Numbered(|slots| + 1)))][..0] == [];
    }
  }

  /** `handleSaveToSlot(slotIndex)`: writes a snapshot named after the slot
      into exactly that slot; a slot past the end of the list extends it
      with empty slots in between. */
  function SaveToSlot(slots: Slots, slot: nat, e: Editor, id: int): (r: Slots)
    requires slot < BankCapacity
    ensures |r| == if slot < |slots| then |slots| else slot + 1
    ensures r[slot] == Some(Snapshot(e, id, Numbered(slot + 1)))
    ensures forall k :: 0 <= k < |r| && k != slot ==> r[k] == (if k < |slots| then slots[k] else None)
  {
    if slot < |slots| then slots[slot := Some(Snapshot(e, id, Numbered(slot + 1)))]
    else slots + Holes(slot - |slots|) + [Some(Snapshot(e, id, Numbered(slot + 1)))]
  }

  /** Saving into a slot keeps the bank within eight entries; saving into
      an empty slot fills one more, into a filled one replaces it. */
  lemma SaveToSlotCount(slots: Slots, slot: nat, e: Editor, id: int)
    requires slot < BankCapacity && |slots| <= BankCapacity
    ensures |SaveToSlot(slots, slot, e, id)| <= BankCapacity
    ensures OccupiedCount(SaveToSlot(slots, slot, e, id))
            == OccupiedCount(slots) + (if slot < |slots| && slots[slot].Some? then 0 else 1)
  {
    var p := Some(Snapshot(e, id, Numbered(slot + 1)));
    if slot < |slots| {
      OccupiedCountUpdate(slots, slot, p);
    } else {
      var holes := Holes(slot - |slots|);
      OccupiedCountAppend(slots + holes, [p]);
      OccupiedCountAppend(slots, holes);
      OccupiedCountHoles(slot - |slots|);
      assert [p][..0] == [];
    }
  }

  predicate HasId(s: Option<Pattern>, id: int) {
    s.Some? && s.value.id == id
  }

  /** `findIndex(p => p?.id === id)`: the first slot holding that id. */
  function FindId(slots: Slots, id: int): (r: Option<nat>)
    ensures r.Some? ==> r.value < |slots| && HasId(slots[r.value], id)
                        && forall k :: 0 <= k < r.value ==> !HasId(slots[k], id)
    ensures r.None? ==> forall k :: 0 <= k < |slots| ==> !HasId(slots[k], id)
  {
    if |slots| == 0 then None
    else if HasId(slots[0], id) then Some(0)
    else
      var rest := FindId(slots[1..], id);
      if rest.Some? then Some(rest.value + 1) else None
  }

  /** `deletePattern(id)`: empties the first slot holding the id without
      moving the others, and stops the player when that pattern was the
      one playing. */
  function DeletePattern(s: BankState, id: int): (r: BankState)
    ensures |r.slots| == |s.slots| && r.editor == s.editor && r.activeStep == s.activeStep
    ensures FindId(s.slots, id).None? ==> r.slots == s.slots
    ensures FindId(s.slots, id).Some? ==> r.slots == s.slots[FindId(s.slots, id).value := None]
    ensures s.currentlyPlaying == Some(id) ==> r.currentlyPlaying.None? && !r.isPlaying
    ensures s.currentlyPlaying != Some(id) ==> r.currentlyPlaying == s.currentlyPlaying && r.isPlaying == s.isPlaying
  {
    var at := FindId(s.slots, id);
    var slots := if at.Some? then s.slots[at.value := None] else s.slots;
    if s.currentlyPlaying == Some(id) then s.(slots := slots, currentlyPlaying := None, isPlaying := false)
    else s.(slots := slots)
  }

  /** Deleting a saved pattern empties one slot, so the count drops by one;
      deleting an unknown id changes nothing. */
  lemma DeleteCount(s: BankState, id: int)
    ensures FindId(s.slots, id).Some? ==> OccupiedCount(DeletePattern(s, id).slots) + 1 == OccupiedCount(s.slots)
    ensures FindId(s.slots, id).None? ==> OccupiedCount(DeletePattern(s, id).slots) == OccupiedCount(s.slots)
  {
    var at := FindId(s.slots, id);
    if at.Some? {
      OccupiedCountUpdate(s.slots, at.value, None);
    }
  }

  /** A delete leaves a hole and does not shorten the list, so a full bank
      keeps refusing `Save Pattern` after a delete; only the slot's own
      save button can fill the hole. */
  lemma DeleteDoesNotMakeRoom(s: BankState, id: int, e: Editor, newId: int)
    requires |s.slots| == BankCapacity
    ensures SaveCurrent(DeletePattern(s, id).slots, e, newId).alert == Some(FullAlert)
  {
  }

  /** `playPattern(pattern)`: the pattern playing is stopped; any other is
      loaded into the editor from step 0 and played. */
  function PlayPattern(s: BankState, p: Pattern): (r: BankState)
    ensures r.slots == s.slots
    ensures s.currentlyPlaying == Some(p.id) ==> r == s.(currentlyPlaying := None, isPlaying := false)
    ensures s.currentlyPlaying != Some(p.id) ==>
      r.editor == Load(p) && r.activeStep == 0 && r.currentlyPlaying == Some(p.id) && r.isPlaying
  {
    if s.currentlyPlaying == Some(p.id) then s.(currentlyPlaying := None, isPlaying := false)
    else s.(editor := Load(p), activeStep := 0, currentlyPlaying := Some(p.id), isPlaying := true)
  }

  /** The bank panel's stop button: nothing plays any more, and the bank,
      the editor and the step shown stay as they were. */
  function StopPattern(s: BankState): (r: BankState)
    ensures r.currentlyPlaying.None? && !r.isPlaying
    ensures r.slots == s.slots && r.editor == s.editor && r.activeStep == s.activeStep
  {
    s.(currentlyPlaying := None, isPlaying := false)
  }

  // ---------------------------------------------------------------------
  // The bank panel
  // ---------------------------------------------------------------------

  /** What the panel shows in one of its eight slots. */
  datatype SlotView =
    | EmptySlot(saveTarget: nat)
    | FilledSlot(pattern: Pattern, kicks: seq<bool>, showSwing: bool, playing: bool, deleteTarget: int)

  /** The slot list padded or cut to the eight slots on screen. */
  function Shown(slots: Slots): (r: Slots)
    ensures |r| == BankCapacity
    ensures forall k :: 0 <= k < BankCapacity ==> r[k] == (if k < |slots| then slots[k] else None)
  {
    seq(BankCapacity, k requires 0 <= k < BankCapacity => if k < |slots| then slots[k] else None)
  }

  /** One slot of the panel. */
  function View(slot: Option<Pattern>, k: nat, playing: Option<int>): (v: SlotView)
    ensures slot.None? <==> v.EmptySlot?
    ensures v.EmptySlot? ==> v.saveTarget == k
    ensures v.FilledSlot? ==>
      && v.pattern == slot.value
      && v.deleteTarget == slot.value.id
      && (v.playing <==> playing == Some(slot.value.id))
      && (v.showSwing <==> slot.value.swing > 0)
      && |v.kicks| == StepCount
      && forall i :: 0 <= i < StepCount ==> v.kicks[i] == Active(slot.value.sequence, Kick, i)
  {
    match slot
    case None => EmptySlot(k)
    case Some(p) =>
      FilledSlot(p, seq(StepCount, i requires 0 <= i < StepCount => Active(p.sequence, Kick, i)),
                 p.swing > 0, playing == Some(p.id), p.id)
  }

  /** The eight slots of the panel. */
  function SlotViews(slots: Slots, playing: Option<int>): (r: seq<SlotView>)
    ensures |r| == BankCapacity
    ensures forall k :: 0 <= k < BankCapacity ==> r[k] == View(Shown(slots)[k], k, playing)
  {
    seq(BankCapacity, k requires 0 <= k < BankCapacity => View(Shown(slots)[k], k, playing))
  }

  /** The `n/8` in the panel title. */
  function DisplayedCount(slots: Slots): (n: nat)
    ensures n <= |slots|
  {
    OccupiedCount(slots)
  }

  /** The full-bank banner shows exactly when the list is eight long. */
  predicate ShowFullBanner(slots: Slots) {
    |slots| == BankCapacity
  }

  /** The title counts exactly the filled slots on screen while the bank
      holds at most eight entries. */
  lemma DisplayedCountMatchesSlots(slots: Slots)
    requires |slots| <= BankCapacity
    ensures DisplayedCount(slots) == OccupiedCount(Shown(slots))
  {
    var holes := Holes(BankCapacity - |slots|);
    assert Shown(slots) == slots + holes;
    OccupiedCountAppend(slots, holes);
    OccupiedCountHoles(BankCapacity - |slots|);
  }

  /** The banner can be up while the title shows fewer than eight
      patterns: after a delete from a full bank it reads 7/8. */
  lemma BannerWithHole(s: BankState, id: int)
    requires |s.slots| == BankCapacity && OccupiedCount(s.slots) == BankCapacity
    requires FindId(s.slots, id).Some?
    ensures ShowFullBanner(DeletePattern(s, id).slots)
    ensures DisplayedCount(DeletePattern(s, id).slots) == BankCapacity - 1
  {
    DeleteCount(s, id);
  }

  /** What a button of the panel asks the app to do. */
  datatype Action = Play(pattern: Pattern) | Stop | SaveHere(slot: nat) | DeleteId(id: int)

  /** The play button of a filled slot: stop when its pattern is playing,
      play it otherwise. */
  function PlayButton(v: SlotView): Action
    requires v.FilledSlot?
  {
    if v.playing then Stop else Play(v.pattern)
  }

  /** The delete button of a filled slot and the save button of an empty
      one. */
  function SlotButton(v: SlotView): Action {
    match v
    case EmptySlot(k) => SaveHere(k)
    case FilledSlot(_, _, _, _, id) => DeleteId(id)
  }

  /** What the app does with an action: only playing changes the editor
      and the step, only saving and deleting change the bank, and saving
      leaves the player alone. */
  function Dispatch(s: BankState, a: Action, e: Editor, freshId: int): (r: BankState)
    requires a.SaveHere? ==> a.slot < BankCapacity
    ensures !a.Play? ==> r.editor == s.editor && r.activeStep == s.activeStep
    ensures a.Play? || a.Stop? ==> r.slots == s.slots
    ensures a.Play? && s.currentlyPlaying != Some(a.pattern.id) ==>
      r.editor == Load(a.pattern) && r.currentlyPlaying == Some(a.pattern.id) && r.isPlaying
    ensures a.Stop? || (a.Play? && s.currentlyPlaying == Some(a.pattern.id)) ==>
      r.currentlyPlaying.None? && !r.isPlaying
    ensures a.SaveHere? ==>
      && |r.slots| == (if a.slot < |s.slots| then |s.slots| else a.slot + 1)
      && r.slots[a.slot] == Some(Snapshot(e, freshId, Numbered(a.slot + 1)))
      && r.currentlyPlaying == s.currentlyPlaying && r.isPlaying == s.isPlaying
    ensures a.DeleteId? && FindId(s.slots, a.id).Some? ==> r.slots == s.slots[FindId(s.slots, a.id).value := None]
  {
    match a
    case Play(p) => PlayPattern(s, p)
    case Stop => StopPattern(s)
    case SaveHere(k) => s.(slots := SaveToSlot(s.slots, k, e, freshId))
    case DeleteId(id) => DeletePattern(s, id)
  }

  /** Pressing a filled slot's play button flips whether that slot shows
      as playing. */
  lemma PlayButtonToggles(s: BankState, k: nat, e: Editor, freshId: int)
    requires k < BankCapacity && k < |s.slots| && s.slots[k].Some?
    ensures
      var v := SlotViews(s.slots, s.currentlyPlaying)[k];
      var r := Dispatch(s, PlayButton(v), e, freshId);
      SlotViews(r.slots, r.currentlyPlaying)[k].FilledSlot?
      && SlotViews(r.slots, r.currentlyPlaying)[k].playing == !v.playing
  {
  }

  /** With distinct ids, a filled slot's delete button empties that slot
      and no other; an empty slot's save button fills that slot, and one
      shown past the end of the list extends the list up to it with empty
      slots in between. */
  lemma SlotButtonTargetsOwnSlot(s: BankState, k: nat, e: Editor, freshId: int)
    requires k < BankCapacity
    requires forall i, j :: 0 <= i < j < |s.slots| && s.slots[i].Some? && s.slots[j].Some? ==> s.slots[i].value.id != s.slots[j].value.id
    ensures
      var r := Dispatch(s, SlotButton(SlotViews(s.slots, s.currentlyPlaying)[k]), e, freshId);
      && |r.slots| == (if k < |s.slots| then |s.slots| else k + 1)
      && (k < |s.slots| ==> r.slots[k].Some? == s.slots[k].None?)
      && (|s.slots| <= k ==> r.slots[k].Some?)
      && ((k < |s.slots| ==> s.slots[k].None?) ==> r.slots[k] == Some(Snapshot(e, freshId, Numbered(k + 1))))
      && (forall j :: 0 <= j < |s.slots| && j != k ==> r.slots[j] == s.slots[j])
      && (forall j :: |s.slots| <= j < k ==> r.slots[j].None?)
  {
    if k < |s.slots| && s.slots[k].Some? {
      var at := FindId(s.slots, s.slots[k].value.id);
      assert at == Some(k);
    }
  }
}
