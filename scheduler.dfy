/**
 * The daily scheduler of one owner: a task list (loaded lazily from the owner's
 * pets), and the latest plan and conflicts produced by the greedy walk over the
 * tasks sorted by priority.
 */
module Scheduling {
  import opened Entities
  import opened Ordering
  import opened Greedy

  /** The label a scheduled task carries in the plan summary. */
  datatype Band = High | Medium | Low

  /** HIGH for the high priorities, MEDIUM for priority 3, LOW for anything else. */
  function BandOf(t: Task): (b: Band)
    ensures b == High <==> t.IsHighPriority()
    ensures b == High <==> t.priority <= 2
    ensures b == Medium <==> t.priority == 3
    ensures b == Low <==> t.priority >= 4
  {
    if t.IsHighPriority() then High
    else if t.priority == 3 then Medium
    else Low
  }

  /** The summary line of the empty plan. */
  const NothingScheduledMessage: string := "No tasks scheduled yet. Run generate_daily_plan() first."

  /** One numbered line of the plan summary: position from 1, done mark, band and task. */
  datatype Entry = Entry(position: nat, done: bool, band: Band, task: Task)

  /**
   * The content of the plan summary: either the fixed message for an empty plan,
   * or the owner's name, available and scheduled minutes, one entry per planned
   * task and the list of conflicts.
   */
  datatype Summary =
    | NothingScheduled(message: string)
    | Report(ownerName: string, availableTime: int, scheduledTime: int, entries: seq<Entry>, conflicts: seq<Task>)

  /** The numbered entries of a plan, numbered from `first`. */
  function Entries(plan: seq<Task>, first: nat): (r: seq<Entry>)
    reads plan
    ensures |r| == |plan|
    ensures forall i :: 0 <= i < |plan| ==>
              r[i].position == first + i && r[i].task == plan[i] &&
              r[i].done == plan[i].completed && r[i].band == BandOf(plan[i])
  {
    if plan == [] then []
    else [Entry(first, plan[0].completed, BandOf(plan[0]), plan[0])] + Entries(plan[1..], first + 1)
  }

  class Scheduler {
    const owner: Owner
    var tasks: seq<Task>
    var dailyPlan: seq<Task>
    var conflicts: seq<Task>

    constructor (owner: Owner)
      ensures this.owner == owner && tasks == [] && dailyPlan == [] && conflicts == []
    {
      this.owner := owner;
      tasks := [];
      dailyPlan := [];
      conflicts := [];
    }

    /** Adds a task unless an equal task is already listed. */
    method AddTask(task: Task)
      modifies this`tasks
      ensures old(tasks) <= tasks && |tasks| <= |old(tasks)| + 1
      ensures tasks == if HasEqualTask(old(tasks), task) then old(tasks) else old(tasks) + [task]
    {
      if !HasEqualTask(tasks, task) {
        tasks := tasks + [task];
      }
    }

    /** Removes the first task equal to `task`, if there is one. */
    method RemoveTask(task: Task)
      modifies this`tasks
      ensures tasks == RemoveFirstEqual(old(tasks), task)
    {
      if HasEqualTask(tasks, task) {
        tasks := RemoveFirstEqual(tasks, task);
      }
    }

    /** Replaces the task list by the owner's tasks, pet by pet. */
    method LoadTasksFromOwner()
      modifies this`tasks
      ensures tasks == AllTasks(owner.pets)
    {
      tasks := owner.GetAllTasks();
    }

    /** The task list sorted by ascending priority number; the list itself is left as it is. */
    function SortByPriority(): (r: seq<Task>)
      reads this
      ensures multiset(r) == multiset(tasks)
      ensures IsSortedByPriority(r)
    {
      StableSortByPriority(tasks)
    }

    /**
     * The plan and the conflicts are the greedy split of the current task list,
     * sorted by priority, against the owner's available time. GenerateDailyPlan
     * establishes it; adding or removing tasks afterwards makes the plan stale.
     */
    predicate PlanIsCurrent()
      reads this
    {
      Schedule(dailyPlan, conflicts) == Allocate(StableSortByPriority(tasks), owner.availableTime)
    }

    /**
     * Minutes taken by the current plan: within the available time for a current,
     * non-empty plan, and at least any single planned task when no duration is negative.
     */
    function CalculateTotalTime(): (r: int)
      reads this
      ensures PlanIsCurrent() ==> dailyPlan == [] || r <= owner.availableTime
      ensures NonNegativeDurations(dailyPlan) ==> 0 <= r && forall i :: 0 <= i < |dailyPlan| ==> dailyPlan[i].duration <= r
    {
      AllocateWithinCapacity(StableSortByPriority(tasks), owner.availableTime);
      if NonNegativeDurations(dailyPlan) then
        TotalBoundsEach(dailyPlan);
        Total(dailyPlan)
      else
        Total(dailyPlan)
    }

    /**
     * The tasks that did not fit in the current plan: with the plan they make up
     * the task list, and none of them would fit in the time the plan leaves free.
     */
    function CheckConflicts(): (r: seq<Task>)
      reads this
      ensures PlanIsCurrent() ==> multiset(dailyPlan) + multiset(r) == multiset(tasks)
      ensures PlanIsCurrent() && NonNegativeDurations(tasks) ==>
                forall t :: t in r ==> Total(dailyPlan) + t.duration > owner.availableTime
    {
      var sorted := StableSortByPriority(tasks);
      AllocateSplits(sorted, owner.availableTime);
      if NonNegativeDurations(tasks) then
        PermutationKeepsNonNegative(tasks, sorted);
        RejectedWouldOverflow(sorted, owner.availableTime);
        conflicts
      else
        conflicts
    }

    /**
     * Recomputes the plan from scratch: clears the plan and the conflicts, loads
     * the owner's tasks if the task list is empty, and fills the plan from the
     * tasks sorted by priority.
     */
    method GenerateDailyPlan() returns (plan: seq<Task>)
      modifies this`tasks, this`dailyPlan, this`conflicts
      ensures old(tasks) == [] ==> tasks == old(AllTasks(owner.pets))
      ensures old(tasks) != [] ==> tasks == old(tasks)
      ensures PlanIsCurrent()
      ensures IsSortedByPriority(dailyPlan) && IsSortedByPriority(conflicts)
      ensures Interleaves(StableSortByPriority(tasks), dailyPlan, conflicts)
      ensures multiset(dailyPlan) + multiset(conflicts) == multiset(tasks)
      ensures dailyPlan == [] || CalculateTotalTime() <= owner.availableTime
      ensures plan == dailyPlan
    {
      ghost var all := AllTasks(owner.pets);
      dailyPlan := [];
      conflicts := [];
      if tasks == [] {
        LoadTasksFromOwner();
        assert tasks == all;
      }
      var sorted := SortByPriority();
      FillPlan(sorted);
      AllocateSplits(sorted, owner.availableTime);
      SplitKeepsOrder(sorted, dailyPlan, conflicts);
      plan := dailyPlan;
    }

    /**
     * The greedy walk of GenerateDailyPlan: each task, in the given order, joins
     * the plan when the minutes used so far plus its duration fit in the owner's
     * available time, and joins the conflicts otherwise.
     */
    method FillPlan(sorted: seq<Task>)
      requires dailyPlan == [] && conflicts == []
      modifies this`dailyPlan, this`conflicts
      ensures Schedule(dailyPlan, conflicts) == Allocate(sorted, owner.availableTime)
    {
      var availableTime := owner.availableTime;
      var timeUsed := 0;
      for i := 0 to |sorted|
        invariant Schedule(dailyPlan, conflicts) == Allocate(sorted[..i], availableTime)
        invariant timeUsed == Total(dailyPlan)
      {
        var task := sorted[i];
        assert sorted[..i + 1][..i] == sorted[..i];
        if timeUsed + task.duration <= availableTime {
          TotalAppend(dailyPlan, task);
          dailyPlan := dailyPlan + [task];
          timeUsed := timeUsed + task.duration;
        } else {
          conflicts := conflicts + [task];
        }
      }
      assert sorted[..|sorted|] == sorted;
    }

    /** What the plan summary shows; the text layout around it is not modelled. */
    function GetPlanSummary(): (r: Summary)
      reads this, dailyPlan
      ensures r.NothingScheduled? <==> dailyPlan == []
      ensures r.NothingScheduled? ==> r.message == NothingScheduledMessage
      ensures r.Report? ==> r.ownerName == owner.name && r.availableTime == owner.availableTime
      ensures r.Report? ==> r.scheduledTime == CalculateTotalTime() && r.conflicts == conflicts
      ensures r.Report? ==> |r.entries| == |dailyPlan|
      ensures r.Report? ==> forall i :: 0 <= i < |dailyPlan| ==>
                r.entries[i] == Entry(i + 1, dailyPlan[i].completed, BandOf(dailyPlan[i]), dailyPlan[i])
    {
      if dailyPlan == [] then NothingScheduled(NothingScheduledMessage)
      else Report(owner.name, owner.availableTime, CalculateTotalTime(), Entries(dailyPlan, 1), conflicts)
    }
  }

  /** Running the plan twice in a row, with nothing changed in between, gives the same plan and conflicts. */
  method RegenerateIsStable(s: Scheduler) returns (first: Schedule, second: Schedule)
    modifies s`tasks, s`dailyPlan, s`conflicts
    ensures first == second
    ensures second == Schedule(s.dailyPlan, s.conflicts) && s.PlanIsCurrent()
  {
    ghost var all := AllTasks(s.owner.pets);
    var plan := s.GenerateDailyPlan();
    first := Schedule(plan, s.conflicts);
    ghost var firstTasks := s.tasks;
    assert AllTasks(s.owner.pets) == all;
    assert firstTasks == [] ==> all == [];
    plan := s.GenerateDailyPlan();
    assert s.tasks == firstTasks;
    second := Schedule(plan, s.conflicts);
  }

  /** In an order sorted by priority, every HIGH task comes before every task that is not. */
  lemma HighPriorityFirst(s: seq<Task>, i: int, j: int)
    requires IsSortedByPriority(s)
    requires 0 <= i < |s| && 0 <= j < |s| && s[i].IsHighPriority() && !s[j].IsHighPriority()
    ensures i < j && BandOf(s[i]) == High && BandOf(s[j]) != High
  {
  }

  /** Both sides of a split of a priority-sorted list are sorted by priority. */
  lemma {:induction false} SplitKeepsOrder(s: seq<Task>, a: seq<Task>, b: seq<Task>)
    requires Interleaves(s, a, b) && IsSortedByPriority(s)
    ensures IsSortedByPriority(a) && IsSortedByPriority(b)
    decreases |s|
  {
    if s != [] {
      var init, last := s[..|s| - 1], s[|s| - 1];
      if a != [] && a[|a| - 1] == last && Interleaves(init, a[..|a| - 1], b) {
        var rest := a[..|a| - 1];
        SplitKeepsOrder(init, rest, b);
        BelowLast(s, rest, b);
        assert a == rest + [last];
      } else {
        var rest := b[..|b| - 1];
        SplitKeepsOrder(init, a, rest);
        BelowLast(s, a, rest);
        assert b == rest + [last];
      }
    }
  }

  /** Every task of a split of all but the last task has a priority number no larger than the last one's. */
  lemma BelowLast(s: seq<Task>, a: seq<Task>, b: seq<Task>)
    requires s != [] && IsSortedByPriority(s) && Interleaves(s[..|s| - 1], a, b)
    ensures forall k :: 0 <= k < |a| ==> a[k].priority <= s[|s| - 1].priority
    ensures forall k :: 0 <= k < |b| ==> b[k].priority <= s[|s| - 1].priority
  {
    var init := s[..|s| - 1];
    InterleavesIsPermutation(init, a, b);
    forall k | 0 <= k < |a| ensures a[k].priority <= s[|s| - 1].priority {
      assert a[k] in multiset(init);
      var m :| 0 <= m < |init| && init[m] == a[k];
      assert s[m] == init[m];
    }
    forall k | 0 <= k < |b| ensures b[k].priority <= s[|s| - 1].priority {
      assert b[k] in multiset(init);
      var m :| 0 <= m < |init| && init[m] == b[k];
      assert s[m] == init[m];
    }
  }
}
