/**
 * The contractor store (`src/context/ContractorContext.tsx`): the
 * contractor's record, its job list and its availability, a map from day
 * to the time slots offered that day.
 */
module ContractorContext {
  import opened Wrappers
  import opened Types

  /** `AvailabilityMap`, keyed by day instead of by ISO date string. */
  type AvailabilityMap = map<Day, seq<TimeSlot>>

  /** The number of days `findNextAvailableSlot` looks ahead. */
  const SearchDays: nat := 14

  /** `availability[key] || []`: the slots stored for a day, or none. */
  function SlotsOn(availability: AvailabilityMap, day: Day): seq<TimeSlot> {
    if day in availability then availability[day] else []
  }

  /** Writing a day's slots replaces that day only. */
  lemma SlotsOnAfterWrite(availability: AvailabilityMap, day: Day, slots: seq<TimeSlot>, other: Day)
    ensures SlotsOn(availability[day := slots], day) == slots
    ensures other != day ==> SlotsOn(availability[day := slots], other) == SlotsOn(availability, other)
  {
  }

  /** Some job is scheduled on `day` at a slot with the same start. */
  predicate HasConflict(jobs: seq<Job>, day: Day, slot: TimeSlot) {
    exists j :: 0 <= j < |jobs| && jobs[j].scheduledDate == Some(day) && jobs[j].timeSlot.start == slot.start
  }

  /** Slot number `k` of `day` exists and no scheduled job conflicts with it. */
  predicate IsFreeSlot(availability: AvailabilityMap, jobs: seq<Job>, day: Day, k: int) {
    0 <= k < |SlotsOn(availability, day)| && !HasConflict(jobs, day, SlotsOn(availability, day)[k])
  }

  /** `prev.map(...)` of `scheduleJob`: every job with the id gets the date, the slot and `'scheduled'`. */
  function ScheduledJobs(jobs: seq<Job>, jobId: string, date: Day, slot: TimeSlot): (r: seq<Job>)
    ensures |r| == |jobs|
    ensures forall k :: 0 <= k < |jobs| && jobs[k].id == jobId ==>
      r[k] == jobs[k].(scheduledDate := Some(date), timeSlot := slot, status := Scheduled)
    ensures forall k :: 0 <= k < |jobs| && jobs[k].id != jobId ==> r[k] == jobs[k]
  {
    if jobs == [] then []
    else
      var head := if jobs[0].id == jobId
        then jobs[0].(scheduledDate := Some(date), timeSlot := slot, status := Scheduled)
        else jobs[0];
      [head] + ScheduledJobs(jobs[1..], jobId, date, slot)
  }

  /** `prev.map(...)` of `completeJob`: every job with the id becomes `'completed'`. */
  function CompletedJobs(jobs: seq<Job>, jobId: string): (r: seq<Job>)
    ensures |r| == |jobs|
    ensures forall k :: 0 <= k < |jobs| && jobs[k].id == jobId ==> r[k] == jobs[k].(status := Completed)
    ensures forall k :: 0 <= k < |jobs| && jobs[k].id != jobId ==> r[k] == jobs[k]
  {
    if jobs == [] then []
    else
      var head := if jobs[0].id == jobId then jobs[0].(status := Completed) else jobs[0];
      [head] + CompletedJobs(jobs[1..], jobId)
  }

  class ContractorStore {
    var contractor: Contractor
    var jobs: seq<Job>
    var availability: AvailabilityMap

    /** The provider's initial state: the given contractor and jobs, no availability. */
    constructor (contractor: Contractor, jobs: seq<Job>)
      ensures this.contractor == contractor && this.jobs == jobs && availability == map[]
    {
      this.contractor := contractor;
      this.jobs := jobs;
      availability := map[];
    }

    /** `getAvailabilityForDate`. */
    function GetAvailabilityForDate(date: Day): (r: seq<TimeSlot>)
      reads this
      ensures date !in availability ==> r == []
      ensures date in availability ==> r == availability[date]
    {
      SlotsOn(availability, date)
    }

    /** `addAvailability`: replaces the slots of one day and leaves every other day alone. */
    method AddAvailability(date: Day, slots: seq<TimeSlot>)
      modifies this`availability
      ensures availability == old(availability)[date := slots]
      ensures GetAvailabilityForDate(date) == slots
      ensures forall d :: d != date ==> GetAvailabilityForDate(d) == old(GetAvailabilityForDate(d))
    {
      availability := availability[date := slots];
    }

    /**
     * `findNextAvailableSlot`: scans the 14 days from `forDate` (or from
     * `today` when none is given) and, within each day, the slots in list
     * order; returns the first slot no scheduled job starts at on that day.
     */
    method FindNextAvailableSlot(forDate: Option<Day>, today: Day) returns (r: Option<(Day, TimeSlot)>)
      ensures var start := if forDate.Some? then forDate.value else today;
        r.Some? ==> start <= r.value.0 < start + SearchDays
      ensures r.Some? ==> exists k ::
                && IsFreeSlot(availability, jobs, r.value.0, k)
                && SlotsOn(availability, r.value.0)[k] == r.value.1
                && forall k' :: 0 <= k' < k ==> !IsFreeSlot(availability, jobs, r.value.0, k')
      ensures var start := if forDate.Some? then forDate.value else today;
        r.Some? ==> forall d, k :: start <= d < r.value.0 ==> !IsFreeSlot(availability, jobs, d, k)
      ensures var start := if forDate.Some? then forDate.value else today;
        r.None? <==> forall d, k :: start <= d < start + SearchDays ==> !IsFreeSlot(availability, jobs, d, k)
    {
      var start := if forDate.Some? then forDate.value else today;
      for i := 0 to SearchDays
        invariant forall d, k :: start <= d < start + i ==> !IsFreeSlot(availability, jobs, d, k)
      {
        var day := start + i;
        var slots := if day in availability then availability[day] else [];
        if |slots| > 0 {
          for k := 0 to |slots|
            invariant forall k' :: 0 <= k' < k ==> !IsFreeSlot(availability, jobs, day, k')
          {
            var conflict := HasConflict(jobs, day, slots[k]);
            if !conflict {
              assert IsFreeSlot(availability, jobs, day, k);
              return Some((day, slots[k]));
            }
          }
        }
      }
      return None;
    }

    /** `scheduleJob`: only the jobs with the id change. */
    method ScheduleJob(jobId: string, date: Day, slot: TimeSlot)
      modifies this`jobs
      ensures jobs == ScheduledJobs(old(jobs), jobId, date, slot)
    {
      jobs := ScheduledJobs(jobs, jobId, date, slot);
    }

    /** `completeJob`: marks the jobs with the id completed and lowers the active-job count, never below zero. */
    method CompleteJob(jobId: string)
      modifies this`jobs, this`contractor
      ensures jobs == CompletedJobs(old(jobs), jobId)
      ensures contractor == old(contractor).(activeJobs := FlooredDecrement(old(contractor.activeJobs)))
      ensures contractor.activeJobs >= 0
    {
      jobs := CompletedJobs(jobs, jobId);
      contractor := contractor.(activeJobs := FlooredDecrement(contractor.activeJobs));
    }
  }
}
