/**
 * The web pickup page (`app/pickup/page.tsx`): the chosen date and time slot, the waste types
 * ticked (kept as a list of labels), and the flag set once a pickup is booked.
 */
module Pickup {
  import opened Seqs

  datatype WasteOption = WasteOption(id: string, caption: string, icon: string)

  const WasteOptions: seq<WasteOption> := [
    WasteOption("plastic", "Plastic", "\U{1F964}"),
    WasteOption("paper", "Paper & Cardboard", "\U{1F4C4}"),
    WasteOption("metal", "Metal", "\U{1F96B}"),
    WasteOption("glass", "Glass", "\U{1F376}"),
    WasteOption("electronics", "E-waste", "\U{1F4F1}"),
    WasteOption("organic", "Organic Waste", "\U{1F34E}")
  ]

  /** The selection after `handleWasteTypeChange(wasteType, checked)`: a tick appends the
    * label, an untick removes every copy of it and keeps the rest in order. */
  function ChangedSelection(selected: seq<string>, wasteType: string, checked: bool)
    : (r: seq<string>)
    ensures checked ==> r == selected + [wasteType]
    ensures !checked ==> wasteType !in r && IsSubsequence(r, selected)
    ensures !checked ==> forall x :: x != wasteType ==> (x in r <==> x in selected)
    ensures !checked ==> forall x :: multiset(r)[x] == if x == wasteType then 0 else multiset(selected)[x]
  {
    if checked then selected + [wasteType]
    else
      FilterIsSubsequence(selected, (t: string) => t != wasteType);
      Filter(selected, (t: string) => t != wasteType)
  }

  /** A checkbox is shown ticked when its label is in the selection. */
  predicate IsChecked(selected: seq<string>, wasteType: string) {
    wasteType in selected
  }

  /** Ticking shows the box ticked, unticking shows it clear, whatever came before. */
  lemma CheckboxFollowsChange(selected: seq<string>, wasteType: string, checked: bool)
    ensures IsChecked(ChangedSelection(selected, wasteType, checked), wasteType) == checked
  {
    if checked {
      assert ChangedSelection(selected, wasteType, true)[|selected|] == wasteType;
    }
  }

  /** Unticking twice is unticking once, and ticking then unticking is unticking alone. */
  lemma UntickIdempotent(selected: seq<string>, wasteType: string)
    ensures ChangedSelection(ChangedSelection(selected, wasteType, false), wasteType, false)
            == ChangedSelection(selected, wasteType, false)
    ensures ChangedSelection(ChangedSelection(selected, wasteType, true), wasteType, false)
            == ChangedSelection(selected, wasteType, false)
  {
    FilterIdempotent(selected, (t: string) => t != wasteType);
    FilterAppendDropped(selected, wasteType);
  }

  /** Removing `wasteType` from a list that ends in `wasteType` ignores that last element. */
  lemma {:induction false} FilterAppendDropped(s: seq<string>, wasteType: string)
    ensures Filter(s + [wasteType], (t: string) => t != wasteType)
            == Filter(s, (t: string) => t != wasteType)
  {
    if s != [] {
      assert (s + [wasteType])[1..] == s[1..] + [wasteType];
      FilterAppendDropped(s[1..], wasteType);
    } else {
      var one: seq<string> := [wasteType];
      assert one[1..] == [];
    }
  }

  /** Unticking a label that is not selected changes nothing. */
  lemma UntickAbsent(selected: seq<string>, wasteType: string)
    requires wasteType !in selected
    ensures ChangedSelection(selected, wasteType, false) == selected
  {
    FilterKeepsAll(selected, (t: string) => t != wasteType);
  }

  /** The handler does not look at the list: ticking a label already there adds a copy. */
  lemma TickTwiceDuplicates(selected: seq<string>, wasteType: string)
    ensures ChangedSelection(ChangedSelection(selected, wasteType, true), wasteType, true)
            == selected + [wasteType, wasteType]
  {
  }

  /** The book button is enabled with a date, a time slot and at least one waste type. */
  predicate CanSchedule(date: string, time: string, selected: seq<string>) {
    !(date == "" || time == "" || |selected| == 0)
  }

  /** With a date and a time chosen, a tick always enables the button, and unticking the one
    * label selected disables it. */
  lemma ScheduleFollowsSelection(date: string, time: string, selected: seq<string>,
                                 wasteType: string)
    requires date != "" && time != ""
    ensures CanSchedule(date, time, ChangedSelection(selected, wasteType, true))
    ensures selected == [wasteType]
        ==> !CanSchedule(date, time, ChangedSelection(selected, wasteType, false))
  {
    if selected == [wasteType] {
      FilterDropsAll(selected, (t: string) => t != wasteType);
    }
  }

  class PickupPage {
    var selectedDate: string
    var selectedTime: string
    var selectedWasteTypes: seq<string>
    var isScheduled: bool

    constructor()
      ensures selectedDate == "" && selectedTime == "" && selectedWasteTypes == []
      ensures !isScheduled
    {
      selectedDate := "";
      selectedTime := "";
      selectedWasteTypes := [];
      isScheduled := false;
    }

    method HandleWasteTypeChange(wasteType: string, checked: bool)
      modifies this
      ensures selectedWasteTypes == ChangedSelection(old(selectedWasteTypes), wasteType, checked)
      ensures selectedDate == old(selectedDate) && selectedTime == old(selectedTime)
      ensures isScheduled == old(isScheduled)
    {
      if checked {
        selectedWasteTypes := selectedWasteTypes + [wasteType];
      } else {
        selectedWasteTypes := Filter(selectedWasteTypes, (t: string) => t != wasteType);
      }
    }

    /** Booking only raises the flag, so a second booking changes nothing. */
    method HandleSchedulePickup()
      modifies this
      ensures isScheduled
      ensures selectedDate == old(selectedDate) && selectedTime == old(selectedTime)
      ensures selectedWasteTypes == old(selectedWasteTypes)
    {
      isScheduled := true;
    }
  }
}
