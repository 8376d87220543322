/**
 * Concrete households from the project's test suite, built through the modelled
 * constructors and scheduler, with what each test expects stated as postconditions.
 */
module Scenarios {
  import opened Wrappers
  import opened Entities
  import opened Ordering
  import opened Greedy
  import opened Scheduling

  /** Capacity 60 and tasks of 20 and 40 minutes: both fit exactly, nothing is rejected. */
  lemma ExactFill(t1: Task, t2: Task)
    requires t1.duration == 20 && t1.priority == 1
    requires t2.duration == 40 && t2.priority == 2
    ensures Allocate(StableSortByPriority([t1, t2]), 60) == Schedule([t1, t2], [])
    ensures Total(Allocate(StableSortByPriority([t1, t2]), 60).plan) == 60
  {
    assert [t1, t2][1..] == [t2];
    assert StableSortByPriority([t1, t2]) == [t1, t2];
    TotalAppend([], t1);
    TotalAppend([t1], t2);
    assert [] + [t1] == [t1] && [t1] + [t2] == [t1, t2];
    AllFit([t1, t2], 60);
  }

  /** Capacity 0: both tasks go to the conflicts. */
  lemma ZeroCapacity(t1: Task, t2: Task)
    requires t1.duration == 15 && t1.priority == 1
    requires t2.duration == 30 && t2.priority == 2
    ensures Allocate(StableSortByPriority([t1, t2]), 0) == Schedule([], [t1, t2])
  {
    assert [t1, t2][1..] == [t2];
    assert StableSortByPriority([t1, t2]) == [t1, t2];
    NoneFit([t1, t2], 0);
  }

  /** A single 90-minute task against 60 minutes is rejected, and is the only conflict. */
  lemma SingleLongTask(t: Task)
    requires t.duration == 90
    ensures Allocate(StableSortByPriority([t]), 60) == Schedule([], [t])
  {
    NoneFit([t], 60);
  }

  /** Tasks of priorities 4, 1 and 3 that all fit in 200 minutes are planned as 1, 3, 4. */
  lemma PrioritySorting(low: Task, high: Task, medium: Task)
    requires low.duration == 20 && low.priority == 4
    requires high.duration == 5 && high.priority == 1
    requires medium.duration == 30 && medium.priority == 3
    ensures Allocate(StableSortByPriority([low, high, medium]), 200).plan == [high, medium, low]
  {
    SortThree(low, high, medium);
    TotalThree(high, medium, low);
    AllFit([high, medium, low], 200);
  }

  /** Priorities 4, 1, 3 sort to 1, 3, 4. */
  lemma SortThree(low: Task, high: Task, medium: Task)
    requires low.priority == 4 && high.priority == 1 && medium.priority == 3
    ensures StableSortByPriority([low, high, medium]) == [high, medium, low]
  {
    assert [low, high, medium][1..] == [high, medium];
    assert [high, medium][1..] == [medium];
    assert StableSortByPriority([medium]) == [medium];
    assert StableSortByPriority([high, medium]) == [high, medium];
    assert InsertByPriority(low, [medium]) == [medium, low];
  }

  /** The minutes of three tasks add up. */
  lemma TotalThree(a: Task, b: Task, c: Task)
    ensures Total([a, b, c]) == a.duration + b.duration + c.duration
  {
    TotalAppend([], a);
    TotalAppend([a], b);
    TotalAppend([a, b], c);
    assert [] + [a] == [a] && [a] + [b] == [a, b];
    assert [a, b] + [c] == [a, b, c];
  }

  /**
   * The exact-fill household run through the scheduler itself: the owner's two
   * tasks are loaded lazily, both are planned, the plan takes all 60 minutes.
   */
  method ExactFillThroughScheduler() returns (plan: seq<Task>, rejected: seq<Task>, total: int)
    ensures |plan| == 2 && rejected == [] && total == 60
  {
    var owner: Owner;
    ghost var t1: Task;
    ghost var t2: Task;
    owner, t1, t2 := ExactFillHousehold();
    var scheduler := new Scheduler(owner);
    plan := scheduler.GenerateDailyPlan();
    ExactFill(t1, t2);
    rejected := scheduler.CheckConflicts();
    total := scheduler.CalculateTotalTime();
  }

  /** One owner with 60 minutes and one pet holding a 20-minute and a 40-minute task. */
  method ExactFillHousehold() returns (owner: Owner, ghost t1: Task, ghost t2: Task)
    ensures owner.availableTime == 60 && AllTasks(owner.pets) == [t1, t2]
    ensures t1.duration == 20 && t1.priority == 1 && t2.duration == 40 && t2.priority == 2
  {
    owner := new Owner("Owner", 60);
    var pet := new Pet("Max", "Dog", 5, owner, []);
    assert owner.pets == [pet];
    var r1: Result<Task, ValidationError>;
    var r2: Result<Task, ValidationError>;
    r1, t1 := CreateTask("Task 1", "feeding", 20, 1, pet, "daily");
    assert pet.tasks == [t1];
    r2, t2 := CreateTask("Task 2", "walk", 40, 2, pet, "daily");
    assert t1.name[5] != t2.name[5];
    assert !HasEqualTask([t1], t2);
    assert pet.tasks == [t1, t2];
    assert AllTasks(owner.pets) == [t1, t2] by {
      assert owner.pets[..0] == [];
    }
  }

  /**
   * Durations -10 and 0 fail the duration check with its message, and both
   * rejected tasks are still registered with the pet.
   */
  method InvalidDurationScenario()
    returns (negativeDuration: Result<Task, ValidationError>, zeroDuration: Result<Task, ValidationError>,
             registered: nat)
    ensures negativeDuration == Failure(DurationNotPositive) && zeroDuration == Failure(DurationNotPositive)
    ensures Message(negativeDuration.error) == "Duration must be positive"
    ensures registered == 2
  {
    var owner := new Owner("Owner", 120);
    var pet := new Pet("Max", "Dog", 5, owner, []);
    ghost var a: Task;
    ghost var b: Task;
    negativeDuration, a := CreateRejected(-10, 1, pet);
    assert Message(negativeDuration.error) == "Duration must be positive";
    assert pet.tasks == [a];
    zeroDuration, b := CreateRejected(0, 1, pet);
    assert pet.tasks == [a, b];
    registered := |pet.tasks|;
  }

  /**
   * Priorities 6 and 0 fail the priority check with its message, while every
   * priority from 1 to 5 is accepted and kept on the task.
   */
  method InvalidPriorityScenario()
    returns (priorityTooHigh: Result<Task, ValidationError>, priorityTooLow: Result<Task, ValidationError>,
             validAccepted: bool)
    ensures priorityTooHigh == Failure(PriorityOutOfRange) && priorityTooLow == Failure(PriorityOutOfRange)
    ensures Message(priorityTooHigh.error) == "Priority must be between 1 (highest) and 5 (lowest)"
    ensures validAccepted
  {
    var owner := new Owner("Test Owner", 60);
    var pet := new Pet("Cat", "Cat", 2, owner, []);
    ghost var rejected: Task;
    priorityTooHigh, rejected := CreateRejected(10, 6, pet);
    priorityTooLow, rejected := CreateRejected(10, 0, pet);
    validAccepted := true;
    for priority := 1 to 6
      invariant validAccepted
    {
      var r: Result<Task, ValidationError>;
      ghost var registered: Task;
      r, registered := CreateTask("Task", "feeding", 10, priority, pet, "daily");
      validAccepted := r.Success? && r.value.priority == priority;
    }
  }

  /**
   * Constructing an invalid task: the error of the first failed check, and a task
   * left registered with the pet when no listed task has its duration and priority.
   */
  method CreateRejected(duration: int, priority: int, pet: Pet) returns (r: Result<Task, ValidationError>, ghost t: Task)
    requires !(duration > 0 && 1 <= priority <= 5)
    modifies pet`tasks
    ensures r == Failure(if duration <= 0 then DurationNotPositive else PriorityOutOfRange)
    ensures t.duration == duration && t.priority == priority
    ensures (forall u :: u in old(pet.tasks) ==> u.duration != duration || u.priority != priority) ==>
              pet.tasks == old(pet.tasks) + [t]
  {
    ghost var before := pet.tasks;
    r, t := CreateTask("Invalid", "feeding", duration, priority, pet, "daily");
    if forall u :: u in before ==> u.duration != duration || u.priority != priority {
      forall i | 0 <= i < |before| ensures !SameTask(before[i], t) {
        assert before[i] in before;
      }
    }
  }

  /** Constructing the same task, or the same pet, twice registers it once. */
  method DuplicateRegistrationScenario() returns (pets: nat, tasks: nat)
    ensures pets == 1 && tasks == 1
  {
    var owner := new Owner("Owner", 120);
    var pet := new Pet("Max", "Dog", 5, owner, []);
    var twin := new Pet("Max", "Dog", 5, owner, []);
    assert SamePet([pet][0], twin);
    var r1: Result<Task, ValidationError>;
    var r2: Result<Task, ValidationError>;
    ghost var t1: Task;
    ghost var t2: Task;
    r1, t1 := CreateTask("Walk", "walk", 30, 2, pet, "daily");
    r2, t2 := CreateTask("Walk", "walk", 30, 2, pet, "daily");
    assert SameTask([t1][0], t2);
    pets := |owner.pets|;
    tasks := |pet.tasks|;
  }

  /**
   * Special needs passed to the constructor are kept as given, duplicates included,
   * and take part in pet equality: a pet that differs only in its needs is a second pet.
   */
  method SpecialNeedsScenario() returns (pets: nat, needs: nat)
    ensures pets == 2 && needs == 2
  {
    var owner := new Owner("Sarah", 180);
    var max := new Pet("Max", "Dog", 8, owner, ["Slow walks only", "Slow walks only"]);
    var plain := new Pet("Max", "Dog", 8, owner, []);
    assert !SamePet([max][0], plain);
    pets := |owner.pets|;
    needs := |max.specialNeeds|;
  }

  /** A task starts incomplete; marking it complete and then incomplete toggles the flag. */
  method CompletionScenario() returns (initially: bool, afterComplete: bool, afterReset: bool)
    ensures !initially && afterComplete && !afterReset
  {
    var owner := new Owner("Test Owner", 60);
    var pet := new Pet("Fluffy", "Cat", 2, owner, []);
    var r: Result<Task, ValidationError>;
    ghost var registered: Task;
    r, registered := CreateTask("Feed cat", "feeding", 10, 1, pet, "daily");
    var task := r.value;
    initially := task.completed;
    task.MarkComplete();
    afterComplete := task.completed;
    task.MarkIncomplete();
    afterReset := task.completed;
  }
}
