/**
 * The contractor's hour picker (`src/components/contractor/AvailabilityTimeSlots.tsx`):
 * the offered hours, the end time of an hour slot and the toggle that adds
 * or removes a slot by its start.
 */
module AvailabilityTimeSlots {
  import opened Wrappers
  import opened Seqs
  import opened Strings
  import opened Types

  /** `TIME_SLOTS`: the hours from 08:00 to 18:00. */
  const TimeSlotStarts: seq<string> :=
    ["08:00", "09:00", "10:00", "11:00", "12:00", "13:00", "14:00", "15:00", "16:00", "17:00", "18:00"]

  /** The rows the picker shows: every entry but the last (`index < TIME_SLOTS.length - 1`). */
  function OfferedStarts(): (r: seq<string>)
    ensures |r| == 10 && r[0] == "08:00" && r[9] == "17:00"
    ensures "18:00" !in r
  {
    TimeSlotStarts[..|TimeSlotStarts| - 1]
  }

  /** An hour as `startHour.toString().padStart(2, '0')` writes it. */
  function TwoDigitHour(hour: nat): string {
    PadStart(NatToString(hour), 2, '0')
  }

  /**
   * `getEndTime`: the hour before the first ':' plus one, padded to two
   * digits, then ":00". An hour that does not parse gives `NaN`.
   */
  function EndTime(start: string): (r: string)
    ensures |r| >= 3 && r[|r| - 3..] == ":00"
  {
    var hours := Split(start, ':')[0];
    match ParseInt(hours)
    case None => "NaN:00"
    case Some(h) => PadStart(IntToString(h + 1), 2, '0') + ":00"
  }

  /** A string of decimal digits keeps its value under a leading zero. */
  lemma {:induction false} DigitsValueLeadingZero(ds: string)
    requires forall k :: 0 <= k < |ds| ==> IsDigit(ds[k])
    ensures DigitsValue(['0'] + ds) == DigitsValue(ds)
    decreases |ds|
  {
    if ds != [] {
      var zs := ['0'] + ds;
      assert zs[..|zs| - 1] == ['0'] + ds[..|ds| - 1];
      DigitsValueLeadingZero(ds[..|ds| - 1]);
    }
  }

  /** `parseInt` reads an hour back from its two-digit form. */
  lemma ParseTwoDigitHour(hour: nat)
    ensures ParseInt(TwoDigitHour(hour)) == Some(hour)
  {
    var s := NatToString(hour);
    if |s| < 2 {
      var t := TwoDigitHour(hour);
      assert t == ['0'] + s;
      LeadingDigitsAll(t);
      assert t[..|t|] == t;
      DigitsValueLeadingZero(s);
      DigitsValueOfNatToString(hour);
    } else {
      ParseIntNatToString(hour);
    }
  }

  /** The end of the slot starting at `HH:mm` is the next hour, `HH+1:00`, in two digits. */
  lemma EndTimeOfHour(hour: nat, minutes: string)
    ensures EndTime(TwoDigitHour(hour) + ":" + minutes) == TwoDigitHour(hour + 1) + ":00"
  {
    var hh := TwoDigitHour(hour);
    assert ':' !in hh by {
      assert forall k :: 0 <= k < |NatToString(hour)| ==> IsDigit(NatToString(hour)[k]);
    }
    assert hh + ":" + minutes == hh + [':'] + minutes;
    SplitAtFirst(hh, ':', minutes);
    ParseTwoDigitHour(hour);
  }

  lemma TwoDigitHourDigits(hour: nat)
    requires hour < 100
    ensures TwoDigitHour(hour) == [DigitChar(hour / 10), DigitChar(hour % 10)]
  {
    if hour >= 10 {
      assert NatToString(hour) == NatToString(hour / 10) + [DigitChar(hour % 10)];
    }
  }

  /** Entry `i` of `TIME_SLOTS` is the hour `8 + i` on the hour. */
  lemma TimeSlotStartHour(i: nat)
    requires i < |TimeSlotStarts|
    ensures TimeSlotStarts[i] == TwoDigitHour(8 + i) + ":00"
  {
    TwoDigitHourDigits(8 + i);
    if i == 0 { assert TimeSlotStarts[i] == [DigitChar(0), DigitChar(8)] + ":00"; }
    else if i == 1 { assert TimeSlotStarts[i] == [DigitChar(0), DigitChar(9)] + ":00"; }
    else if i == 2 { assert TimeSlotStarts[i] == [DigitChar(1), DigitChar(0)] + ":00"; }
    else if i == 3 { assert TimeSlotStarts[i] == [DigitChar(1), DigitChar(1)] + ":00"; }
    else if i == 4 { assert TimeSlotStarts[i] == [DigitChar(1), DigitChar(2)] + ":00"; }
    else if i == 5 { assert TimeSlotStarts[i] == [DigitChar(1), DigitChar(3)] + ":00"; }
    else if i == 6 { assert TimeSlotStarts[i] == [DigitChar(1), DigitChar(4)] + ":00"; }
    else if i == 7 { assert TimeSlotStarts[i] == [DigitChar(1), DigitChar(5)] + ":00"; }
    else if i == 8 { assert TimeSlotStarts[i] == [DigitChar(1), DigitChar(6)] + ":00"; }
    else if i == 9 { assert TimeSlotStarts[i] == [DigitChar(1), DigitChar(7)] + ":00"; }
    else { assert TimeSlotStarts[i] == [DigitChar(1), DigitChar(8)] + ":00"; }
  }

  /** Every offered row ends where the next entry of `TIME_SLOTS` starts. */
  lemma OfferedSlotsEndAtNextStart(i: nat)
    requires i < |TimeSlotStarts| - 1
    ensures EndTime(TimeSlotStarts[i]) == TimeSlotStarts[i + 1]
  {
    var hh := TwoDigitHour(8 + i);
    TimeSlotStartHour(i);
    TimeSlotStartHour(i + 1);
    assert hh + ":00" == hh + ":" + "00";
    EndTimeOfHour(8 + i, "00");
  }

  /** `isTimeSlotSelected`: some chosen slot starts at `start`. */
  predicate IsTimeSlotSelected(slots: seq<TimeSlot>, start: string)
    ensures IsTimeSlotSelected(slots, start) <==> Filter(slots, StartsElsewhere(start)) != slots
  {
    SelectedIffRemovalChanges(slots, start);
    exists k :: 0 <= k < |slots| && slots[k].start == start
  }

  /** Some slot starts at `start` exactly when removing that start changes the list. */
  lemma SelectedIffRemovalChanges(slots: seq<TimeSlot>, start: string)
    ensures (exists k :: 0 <= k < |slots| && slots[k].start == start) <==>
      Filter(slots, StartsElsewhere(start)) != slots
  {
    var r := Filter(slots, StartsElsewhere(start));
    if k :| 0 <= k < |slots| && slots[k].start == start {
      assert slots[k] in multiset(slots);
      assert multiset(r)[slots[k]] == 0;
    } else {
      FilterKeepsAll(slots, StartsElsewhere(start));
    }
  }

  /** The test `slot => slot.start !== start`. */
  function StartsElsewhere(start: string): TimeSlot -> bool {
    (slot: TimeSlot) => slot.start != start
  }

  /**
   * The list `toggleTimeSlot` hands to `onSlotsChange`: without every slot
   * starting at `start` if there is one, otherwise with the hour slot from
   * `start` appended.
   */
  function ToggleTimeSlot(slots: seq<TimeSlot>, start: string): (r: seq<TimeSlot>)
    ensures IsTimeSlotSelected(r, start) == !IsTimeSlotSelected(slots, start)
    ensures forall other :: other != start ==> IsTimeSlotSelected(r, other) == IsTimeSlotSelected(slots, other)
  {
    if IsTimeSlotSelected(slots, start) then
      var r := Filter(slots, StartsElsewhere(start));
      FilterKeepsOtherStarts(slots, start);
      r
    else
      AppendSelectsOnlyStart(slots, TimeSlot(start, EndTime(start)));
      slots + [TimeSlot(start, EndTime(start))]
  }

  /** Appending a slot selects its start and leaves every other start's selection alone. */
  lemma AppendSelectsOnlyStart(slots: seq<TimeSlot>, slot: TimeSlot)
    ensures IsTimeSlotSelected(slots + [slot], slot.start)
    ensures forall other :: other != slot.start ==>
      IsTimeSlotSelected(slots + [slot], other) == IsTimeSlotSelected(slots, other)
  {
    var r := slots + [slot];
    assert r[|slots|].start == slot.start;
    assert forall k :: 0 <= k < |slots| ==> r[k] == slots[k];
  }

  /** Removing by start keeps exactly the slots with other starts. */
  lemma FilterKeepsOtherStarts(slots: seq<TimeSlot>, start: string)
    ensures !IsTimeSlotSelected(Filter(slots, StartsElsewhere(start)), start)
    ensures forall other :: other != start ==>
      IsTimeSlotSelected(Filter(slots, StartsElsewhere(start)), other) == IsTimeSlotSelected(slots, other)
  {
    var r := Filter(slots, StartsElsewhere(start));
    forall other | other != start
      ensures IsTimeSlotSelected(r, other) == IsTimeSlotSelected(slots, other)
    {
      if IsTimeSlotSelected(slots, other) {
        var k :| 0 <= k < |slots| && slots[k].start == other;
        assert slots[k] in multiset(slots);
        assert slots[k] in multiset(r);
        var m :| 0 <= m < |r| && r[m] == slots[k];
      }
      if IsTimeSlotSelected(r, other) {
        var m :| 0 <= m < |r| && r[m].start == other;
        assert r[m] in multiset(r);
        assert r[m] in multiset(slots);
        var k :| 0 <= k < |slots| && slots[k] == r[m];
      }
    }
  }

  /**
   * Toggling a selected start removes every slot with that start and keeps
   * the others in their order; toggling an unselected one appends the hour
   * slot from that start.
   */
  lemma ToggleShape(slots: seq<TimeSlot>, start: string)
    ensures IsTimeSlotSelected(slots, start) ==>
      && IsSubsequence(ToggleTimeSlot(slots, start), slots)
      && (forall k :: 0 <= k < |ToggleTimeSlot(slots, start)| ==> ToggleTimeSlot(slots, start)[k].start != start)
      && (forall x: TimeSlot :: x.start != start ==> multiset(ToggleTimeSlot(slots, start))[x] == multiset(slots)[x])
    ensures !IsTimeSlotSelected(slots, start) ==>
      ToggleTimeSlot(slots, start) == slots + [TimeSlot(start, EndTime(start))]
  {
  }

  /** Toggling an unselected start twice gives back the original list. */
  lemma ToggleTwiceRestores(slots: seq<TimeSlot>, start: string)
    requires !IsTimeSlotSelected(slots, start)
    ensures ToggleTimeSlot(ToggleTimeSlot(slots, start), start) == slots
  {
    var slot := TimeSlot(start, EndTime(start));
    var p := StartsElsewhere(start);
    FilterConcat(slots, [slot], p);
    FilterKeepsAll(slots, p);
    FilterCons(slot, [], p);
  }
}
