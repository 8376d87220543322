/**
 * The pet-care entities: an Owner with a daily time budget and a list of pets,
 * a Pet with its special needs and its care tasks, and a Task with a duration
 * and a priority. Each list grows only when no equal element is already present,
 * where "equal" is the field-by-field equality the Python dataclasses generate.
 *
 * Fields the source never reassigns after construction are `const`; only the
 * completion flag and the lists are mutable.
 */
module Entities {
  import opened Wrappers

  /** The two checks a new task can fail, in the order the constructor runs them. */
  datatype ValidationError = DurationNotPositive | PriorityOutOfRange

  /** The message of the ValueError raised for each failed check; the two texts tell the errors apart. */
  function Message(e: ValidationError): (m: string)
    ensures e == DurationNotPositive <==> m == "Duration must be positive"
    ensures e == PriorityOutOfRange <==> m == "Priority must be between 1 (highest) and 5 (lowest)"
  {
    match e
    case DurationNotPositive =>
      var m := "Duration must be positive";
      assert |m| == 25;
      m
    case PriorityOutOfRange =>
      var m := "Priority must be between 1 (highest) and 5 (lowest)";
      assert |m| != 25;
      m
  }

  /** The validation a task runs after registering itself with its pet. */
  function Validate(duration: int, priority: int): (e: Option<ValidationError>)
    ensures e == None <==> duration > 0 && 1 <= priority <= 5
    ensures e == Some(DurationNotPositive) <==> duration <= 0
    ensures e == Some(PriorityOutOfRange) <==> duration > 0 && !(1 <= priority <= 5)
  {
    if duration <= 0 then Some(DurationNotPositive)
    else if !(1 <= priority <= 5) then Some(PriorityOutOfRange)
    else None
  }

  /** A pet owner with a daily time budget (minutes) and the pets registered with them. */
  class Owner {
    const name: string
    const availableTime: int
    var preferences: map<string, string>
    var pets: seq<Pet>

    constructor (name: string, availableTime: int)
      ensures this.name == name && this.availableTime == availableTime
      ensures preferences == map[] && pets == []
    {
      this.name := name;
      this.availableTime := availableTime;
      preferences := map[];
      pets := [];
    }

    /** Adds or overwrites one preference; preferences never affect scheduling. */
    method AddPreference(key: string, value: string)
      modifies this`preferences
      ensures preferences == old(preferences)[key := value]
    {
      preferences := preferences[key := value];
    }

    /** Registers a pet unless an equal pet is already registered. */
    method AddPet(pet: Pet)
      modifies this`pets
      ensures old(pets) <= pets && |pets| <= |old(pets)| + 1
      ensures pets == if HasEqualPet(old(pets), pet) then old(pets) else old(pets) + [pet]
    {
      if !HasEqualPet(pets, pet) {
        pets := pets + [pet];
      }
    }

    /** The tasks of every pet, pet by pet in registration order, built by extending a list. */
    method GetAllTasks() returns (all: seq<Task>)
      ensures all == AllTasks(pets)
    {
      all := [];
      for i := 0 to |pets|
        invariant all == AllTasks(pets[..i])
      {
        assert pets[..i + 1][..i] == pets[..i];
        all := all + pets[i].tasks;
      }
      assert pets[..|pets|] == pets;
    }
  }

  /** A pet, owned by one owner, with free-form special needs and its care tasks. */
  class Pet {
    const name: string
    const species: string
    const age: int
    const owner: Owner
    var specialNeeds: seq<string>
    var tasks: seq<Task>

    /**
     * Builds the pet and registers it with its owner, as the dataclass's post-init
     * hook does. Special needs passed in are kept as given, duplicates included.
     */
    constructor (name: string, species: string, age: int, owner: Owner, specialNeeds: seq<string>)
      modifies owner`pets
      ensures this.name == name && this.species == species && this.age == age && this.owner == owner
      ensures this.specialNeeds == specialNeeds && tasks == []
      ensures owner.pets == if HasEqualPet(old(owner.pets), this) then old(owner.pets) else old(owner.pets) + [this]
    {
      this.name := name;
      this.species := species;
      this.age := age;
      this.owner := owner;
      this.specialNeeds := specialNeeds;
      tasks := [];
      new;
      owner.AddPet(this);
    }

    /** Records a special need unless the same text is already recorded. */
    method AddSpecialNeed(need: string)
      modifies this`specialNeeds
      ensures specialNeeds == AppendIfAbsent(old(specialNeeds), need)
    {
      if need !in specialNeeds {
        specialNeeds := specialNeeds + [need];
      }
    }

    /** Registers a task unless an equal task is already registered. */
    method AddTask(task: Task)
      modifies this`tasks
      ensures old(tasks) <= tasks && |tasks| <= |old(tasks)| + 1
      ensures tasks == if HasEqualTask(old(tasks), task) then old(tasks) else old(tasks) + [task]
    {
      if !HasEqualTask(tasks, task) {
        tasks := tasks + [task];
      }
    }
  }

  /** A care task for one pet; only its completion flag changes after construction. */
  class Task {
    const name: string
    const taskType: string
    const duration: int
    const priority: int
    const pet: Pet
    const recurrence: string
    var completed: bool

    /**
     * Builds the task and registers it with its pet, as the dataclass's post-init
     * hook does before it validates; see CreateTask for the validation.
     */
    constructor (name: string, taskType: string, duration: int, priority: int, pet: Pet, recurrence: string)
      modifies pet`tasks
      ensures this.name == name && this.taskType == taskType && this.recurrence == recurrence
      ensures this.duration == duration && this.priority == priority && this.pet == pet
      ensures !completed
      ensures pet.tasks == if HasEqualTask(old(pet.tasks), this) then old(pet.tasks) else old(pet.tasks) + [this]
    {
      this.name := name;
      this.taskType := taskType;
      this.duration := duration;
      this.priority := priority;
      this.pet := pet;
      this.recurrence := recurrence;
      completed := false;
      new;
      pet.AddTask(this);
    }

    method MarkComplete()
      modifies this`completed
      ensures completed
    {
      completed := true;
    }

    method MarkIncomplete()
      modifies this`completed
      ensures !completed
    {
      completed := false;
    }

    /**
     * Priorities 1 and 2 are the high ones among the valid priorities. A task that
     * failed validation with a priority below 1 still counts as high.
     */
    predicate IsHighPriority(): (r: bool)
      ensures 1 <= priority <= 5 ==> (r <==> priority == 1 || priority == 2)
      ensures priority < 1 ==> r
    {
      priority <= 2
    }
  }

  /**
   * Constructing a task: it registers with its pet first and is validated second,
   * so a task that fails validation stays in its pet's list (the `registered`
   * object) while the caller receives the error.
   */
  method CreateTask(name: string, taskType: string, duration: int, priority: int, pet: Pet, recurrence: string)
    returns (r: Result<Task, ValidationError>, ghost registered: Task)
    modifies pet`tasks
    ensures fresh(registered)
    ensures registered.name == name && registered.taskType == taskType && registered.recurrence == recurrence
    ensures registered.duration == duration && registered.priority == priority && registered.pet == pet
    ensures !registered.completed
    ensures pet.tasks == if HasEqualTask(old(pet.tasks), registered) then old(pet.tasks) else old(pet.tasks) + [registered]
    ensures r.Success? <==> duration > 0 && 1 <= priority <= 5
    ensures r.Success? ==> r.value == registered
    ensures r.Failure? ==> Some(r.error) == Validate(duration, priority)
    ensures r.Failure? ==>
              Message(r.error) == if duration <= 0 then "Duration must be positive"
                                  else "Priority must be between 1 (highest) and 5 (lowest)"
  {
    var t := new Task(name, taskType, duration, priority, pet, recurrence);
    registered := t;
    match Validate(duration, priority)
    case None => r := Success(t);
    case Some(e) => r := Failure(e);
  }

  // ----- value equality, as the dataclasses generate it -----

  /** Field-by-field task equality; the pet back-reference is compared by identity. */
  predicate SameTask(a: Task, b: Task): (r: bool)
    reads a, b
    ensures a == b ==> r
    ensures r ==> a.pet == b.pet && a.duration == b.duration && a.priority == b.priority
  {
    a.name == b.name && a.taskType == b.taskType && a.duration == b.duration &&
    a.priority == b.priority && a.pet == b.pet && a.recurrence == b.recurrence &&
    a.completed == b.completed
  }

  /** Field-by-field pet equality; the owner and the listed tasks are compared by identity. */
  predicate SamePet(a: Pet, b: Pet): (r: bool)
    reads a, b
    ensures a == b ==> r
    ensures r ==> a.owner == b.owner && a.tasks == b.tasks && a.specialNeeds == b.specialNeeds
  {
    a.name == b.name && a.species == b.species && a.age == b.age && a.owner == b.owner &&
    a.specialNeeds == b.specialNeeds && a.tasks == b.tasks
  }

  /** `task in tasks` under dataclass equality; `in` tries identity first, so a listed task is always found. */
  predicate HasEqualTask(s: seq<Task>, t: Task)
    reads s, t
    ensures t in s ==> HasEqualTask(s, t)
  {
    exists i :: 0 <= i < |s| && SameTask(s[i], t)
  }

  /** `pet in pets` under dataclass equality; `in` tries identity first, so a listed pet is always found. */
  predicate HasEqualPet(s: seq<Pet>, p: Pet)
    reads s, p
    ensures p in s ==> HasEqualPet(s, p)
  {
    exists i :: 0 <= i < |s| && SamePet(s[i], p)
  }

  /** Appending a plain value unless it is already present (special needs are strings). */
  function AppendIfAbsent<T(==)>(s: seq<T>, x: T): (r: seq<T>)
    ensures x in r && s <= r && |r| <= |s| + 1
    ensures x in s <==> r == s
  {
    if x in s then s else s + [x]
  }

  /** No two positions hold equal values. */
  predicate Distinct<T(==)>(s: seq<T>)
  {
    forall i, j :: 0 <= i < j < |s| ==> s[i] != s[j]
  }

  /** No two positions hold tasks that compare equal. */
  predicate DistinctTasks(s: seq<Task>)
    reads s
  {
    forall i, j :: 0 <= i < j < |s| ==> !SameTask(s[i], s[j])
  }

  /** No two positions hold pets that compare equal. */
  predicate DistinctPets(s: seq<Pet>)
    reads s
  {
    forall i, j :: 0 <= i < j < |s| ==> !SamePet(s[i], s[j])
  }

  /** The position of the first task equal to `t`, the one `list.remove` drops. */
  function FirstEqualTask(s: seq<Task>, t: Task): (r: Option<nat>)
    reads s, t
    ensures r.None? <==> !HasEqualTask(s, t)
    ensures r.Some? ==> r.value < |s| && SameTask(s[r.value], t)
    ensures r.Some? ==> forall j :: 0 <= j < r.value ==> !SameTask(s[j], t)
  {
    if s == [] then None
    else if SameTask(s[0], t) then Some(0)
    else
      match FirstEqualTask(s[1..], t)
      case None => None
      case Some(k) => Some(k + 1)
  }

  /** `list.remove(t)` guarded by `t in list`: drops the first equal task, if any. */
  function RemoveFirstEqual(s: seq<Task>, t: Task): (r: seq<Task>)
    reads s, t
    ensures !HasEqualTask(s, t) ==> r == s
    ensures HasEqualTask(s, t) ==>
              exists i :: 0 <= i < |s| && SameTask(s[i], t) && r == s[..i] + s[i + 1..] &&
                forall j :: 0 <= j < i ==> !SameTask(s[j], t)
  {
    match FirstEqualTask(s, t)
    case None => s
    case Some(i) => s[..i] + s[i + 1..]
  }

  /** The owner's task list: each pet's tasks, pets in registration order. */
  function AllTasks(pets: seq<Pet>): (r: seq<Task>)
    reads pets
    ensures forall j, t :: 0 <= j < |pets| && t in pets[j].tasks ==> t in r
  {
    if pets == [] then [] else AllTasks(pets[..|pets| - 1]) + pets[|pets| - 1].tasks
  }

  /** Task equality is an equivalence: reflexive, symmetric and transitive. */
  lemma SameTaskIsEquivalence(a: Task, b: Task, c: Task)
    ensures SameTask(a, a)
    ensures SameTask(a, b) ==> SameTask(b, a)
    ensures SameTask(a, b) && SameTask(b, c) ==> SameTask(a, c)
  {
  }

  /** Pet equality is an equivalence: reflexive, symmetric and transitive. */
  lemma SamePetIsEquivalence(a: Pet, b: Pet, c: Pet)
    ensures SamePet(a, a)
    ensures SamePet(a, b) ==> SamePet(b, a)
    ensures SamePet(a, b) && SamePet(b, c) ==> SamePet(a, c)
  {
  }

  // ----- properties of registration -----

  /** A task is in the owner's list exactly when it is in some registered pet's list. */
  lemma {:induction false} AllTasksMembership(pets: seq<Pet>, t: Task)
    ensures t in AllTasks(pets) <==> exists j :: 0 <= j < |pets| && t in pets[j].tasks
    decreases |pets|
  {
    if pets != [] {
      var init := pets[..|pets| - 1];
      AllTasksMembership(init, t);
      if t in AllTasks(pets) && t !in pets[|pets| - 1].tasks {
        var j :| 0 <= j < |init| && t in init[j].tasks;
        assert pets[j] == init[j];
      }
      if j :| 0 <= j < |pets| - 1 && t in pets[j].tasks {
        assert init[j] == pets[j];
      }
    }
  }

  /** The owner's list begins with the first pet's tasks, followed by the other pets' tasks. */
  lemma {:induction false} AllTasksFirstPet(pets: seq<Pet>)
    requires pets != []
    ensures AllTasks(pets) == pets[0].tasks + AllTasks(pets[1..])
    decreases |pets|
  {
    if |pets| > 1 {
      var init := pets[..|pets| - 1];
      AllTasksFirstPet(init);
      assert init[1..] == pets[1..][..|pets[1..]| - 1];
      assert init[0] == pets[0];
    } else {
      assert pets[..0] == [];
      assert pets[1..] == [];
    }
  }

  /** Removing a task just appended (when no equal one was present) restores the list. */
  lemma RemoveUndoesAdd(s: seq<Task>, t: Task)
    requires !HasEqualTask(s, t)
    ensures RemoveFirstEqual(s + [t], t) == s
  {
    var s' := s + [t];
    assert SameTask(s'[|s|], t);
    assert forall j :: 0 <= j < |s| ==> s'[j] == s[j];
    assert FirstEqualTask(s', t) == Some(|s|);
    assert s'[..|s|] == s;
  }

  /** Registering a task keeps a duplicate-free list duplicate-free. */
  lemma AddTaskKeepsDistinct(s: seq<Task>, t: Task)
    requires DistinctTasks(s)
    ensures DistinctTasks(if HasEqualTask(s, t) then s else s + [t])
  {
    if !HasEqualTask(s, t) {
      var s' := s + [t];
      forall i, j | 0 <= i < j < |s'| ensures !SameTask(s'[i], s'[j]) {
        if j == |s| {
          assert s'[i] == s[i];
        }
      }
    }
  }

  /** Registering a pet keeps a duplicate-free list duplicate-free. */
  lemma AddPetKeepsDistinct(s: seq<Pet>, p: Pet)
    requires DistinctPets(s)
    ensures DistinctPets(if HasEqualPet(s, p) then s else s + [p])
  {
    if !HasEqualPet(s, p) {
      var s' := s + [p];
      forall i, j | 0 <= i < j < |s'| ensures !SamePet(s'[i], s'[j]) {
        if j == |s| {
          assert s'[i] == s[i];
        }
      }
    }
  }

  /** Recording a special need keeps a duplicate-free list duplicate-free. */
  lemma AddSpecialNeedKeepsDistinct(s: seq<string>, need: string)
    requires Distinct(s)
    ensures Distinct(AppendIfAbsent(s, need))
  {
  }
}
