/** The list editors of the form that registers a new artist: specialties and availability slots. */
module ArtistForm {
  import opened Lists

  /** A date and time pair entered in the availability editor. */
  datatype Availability = Availability(date: string, time: string)

  const EmptySlot := Availability("", "")

  function IsNot(c: string): string -> bool {
    (x: string) => x != c
  }

  /** `handleCategoryToggle(c)`: a selected category is removed everywhere, an unselected one is appended. */
  function Toggle(selected: seq<string>, c: string): (r: seq<string>)
    ensures c in selected ==> c !in r && |r| < |selected|
    ensures c in selected ==> forall i :: 0 <= i < |r| ==> r[i] in selected
    ensures c in selected ==> forall i :: 0 <= i < |selected| && selected[i] != c ==> selected[i] in r
    ensures c !in selected ==> r == selected + [c]
  {
    if c in selected then
      var r := Filter(selected, IsNot(c));
      assert c !in r;
      var k :| 0 <= k < |selected| && selected[k] == c;
      assert |r| < |selected| by { FilterShorter(selected, IsNot(c), k); }
      r
    else selected + [c]
  }

  /** Toggling keeps the selection free of duplicates. */
  lemma ToggleNoDup(selected: seq<string>, c: string)
    requires NoDup(selected)
    ensures NoDup(Toggle(selected, c))
  {
    if c in selected {
      FilterNoDup(selected, IsNot(c));
    } else {
      AppendNoDup(selected, c);
    }
  }

  /**
   * Toggling twice restores the selected set; when the category was not
   * selected, it restores the list itself.
   */
  lemma ToggleTwice(selected: seq<string>, c: string)
    ensures (set x | x in Toggle(Toggle(selected, c), c)) == (set x | x in selected)
    ensures c !in selected ==> Toggle(Toggle(selected, c), c) == selected
  {
    var once := Toggle(selected, c);
    if c in selected {
      assert Toggle(once, c) == once + [c];
      forall x | x in selected ensures x in once + [c] {
        if x != c {
          var i :| 0 <= i < |selected| && selected[i] == x;
          assert selected[i] in once;
        }
      }
    } else {
      assert c in once;
      FilterConcat(selected, [c], IsNot(c));
      assert forall i :: 0 <= i < |selected| ==> IsNot(c)(selected[i]);
      FilterKeepsAll(selected, IsNot(c));
      assert Filter([c], IsNot(c)) == [];
    }
  }

  /** `addSlot()`: with both fields filled the slot is appended and the entry reset; otherwise nothing changes. */
  function AddSlot(slots: seq<Availability>, current: Availability): (r: (seq<Availability>, Availability))
    ensures current.date == "" || current.time == "" ==> r == (slots, current)
    ensures current.date != "" && current.time != "" ==>
      && |r.0| == |slots| + 1 && r.0[..|slots|] == slots && r.0[|slots|] == current
      && r.1 == EmptySlot
  {
    if current.date == "" || current.time == "" then (slots, current)
    else (slots + [current], EmptySlot)
  }

  /** `removeSlot(index)`: drops the element whose position equals the index, walking the list with the index shifted. */
  function RemoveAt<T>(xs: seq<T>, index: int): (r: seq<T>)
    ensures 0 <= index < |xs| ==> r == xs[..index] + xs[index + 1..]
    ensures !(0 <= index < |xs|) ==> r == xs
  {
    if xs == [] then []
    else
      var rest := RemoveAt(xs[1..], index - 1);
      if index == 0 then rest else [xs[0]] + rest
  }

  /** A slot the editor accepts: both fields filled. */
  predicate Complete(slot: Availability) {
    slot.date != "" && slot.time != ""
  }

  /** Every stored slot is complete, the invariant the `addSlot` guard keeps. */
  predicate AllComplete(slots: seq<Availability>) {
    forall i :: 0 <= i < |slots| ==> Complete(slots[i])
  }

  /** Adding a slot never stores an incomplete one. */
  lemma AddSlotComplete(slots: seq<Availability>, current: Availability)
    requires AllComplete(slots)
    ensures AllComplete(AddSlot(slots, current).0)
  {
    var r := AddSlot(slots, current).0;
    if Complete(current) {
      forall i | 0 <= i < |r| ensures Complete(r[i]) {
        if i < |slots| {
          assert r[i] == r[..|slots|][i] == slots[i];
        }
      }
    }
  }

  /** Removing a slot keeps the rest complete. */
  lemma RemoveAtComplete(slots: seq<Availability>, index: int)
    requires AllComplete(slots)
    ensures AllComplete(RemoveAt(slots, index))
  {
    var r := RemoveAt(slots, index);
    if 0 <= index < |slots| {
      forall i | 0 <= i < |r| ensures Complete(r[i]) {
        if i < index {
          assert r[i] == slots[i];
        } else {
          assert r[i] == slots[i + 1];
        }
      }
    }
  }

  /** The form's list state. */
  class EditorState {
    var specialties: seq<string>
    var slots: seq<Availability>
    var currentSlot: Availability

    constructor ()
      ensures specialties == [] && slots == [] && currentSlot == EmptySlot
      ensures AllComplete(slots)
    {
      specialties := [];
      slots := [];
      currentSlot := EmptySlot;
    }

    method ToggleCategory(c: string)
      modifies this
      ensures specialties == Toggle(old(specialties), c)
      ensures slots == old(slots) && currentSlot == old(currentSlot)
      ensures NoDup(old(specialties)) ==> NoDup(specialties)
    {
      if NoDup(specialties) {
        ToggleNoDup(specialties, c);
      }
      specialties := Toggle(specialties, c);
    }

    /** The date input's change handler. */
    method SetDate(date: string)
      modifies this
      ensures currentSlot == old(currentSlot).(date := date)
      ensures specialties == old(specialties) && slots == old(slots)
    {
      currentSlot := currentSlot.(date := date);
    }

    /** The time input's change handler. */
    method SetTime(time: string)
      modifies this
      ensures currentSlot == old(currentSlot).(time := time)
      ensures specialties == old(specialties) && slots == old(slots)
    {
      currentSlot := currentSlot.(time := time);
    }

    method AddCurrentSlot()
      modifies this
      ensures (slots, currentSlot) == AddSlot(old(slots), old(currentSlot))
      ensures specialties == old(specialties)
      ensures AllComplete(old(slots)) ==> AllComplete(slots)
    {
      if AllComplete(slots) {
        AddSlotComplete(slots, currentSlot);
      }
      if currentSlot.date == "" || currentSlot.time == "" {
        return;
      }
      slots := slots + [currentSlot];
      currentSlot := EmptySlot;
    }

    method RemoveSlot(index: int)
      modifies this
      ensures slots == RemoveAt(old(slots), index)
      ensures specialties == old(specialties) && currentSlot == old(currentSlot)
      ensures AllComplete(old(slots)) ==> AllComplete(slots)
    {
      if AllComplete(slots) {
        RemoveAtComplete(slots, index);
      }
      slots := RemoveAt(slots, index);
    }
  }
}
