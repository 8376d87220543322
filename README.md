# PawPal+ scheduler, modelled in Dafny

PawPal+ is a small in-memory pet-care planner. An owner has a daily time budget
in minutes and a list of pets. Each pet has free-form special needs and a list
of care tasks. Each task has a duration, a priority from 1 (most urgent) to 5,
and a completion flag. A scheduler loads the owner's tasks and sorts them by
priority. It then walks them greedily: a task joins the day's plan when the
minutes already planned plus its own duration fit in the budget. Otherwise it
goes to the conflicts.

The model follows `pawpal_system.py` class by class:

- `wrappers.dfy` (module `Wrappers`): `Option` and `Result`.
- `entities.dfy` (module `Entities`):
  - the `Owner`, `Pet` and `Task` classes;
  - the dataclass value equality used by every `in` / `not in` check (`SameTask`, `SamePet`);
  - task validation and `CreateTask`, which builds a task, registers it, then validates it;
  - `AllTasks`, the owner's concatenated task list.
- `ordering.dfy` (module `Ordering`): the stable sort by priority.
  - Stability is stated as: for every priority, the tasks of that priority keep their input order.
  - A uniqueness lemma shows that any stable sort, Python's `sorted` included, returns the same list.
- `greedy.dfy` (module `Greedy`): the greedy partition as the specification function `Allocate`.
  - `Allocate` is a fold over prefixes, so each decision depends only on the tasks before it.
  - Its lemmas cover the order-preserving split, the capacity bound, the inclusive boundary,
    no backtracking and greedy maximality.
- `scheduler.dfy` (module `Scheduling`): the `Scheduler` class.
  - Its methods are proved against `Allocate` and `StableSortByPriority`.
  - It also holds the priority bands and the content of the plan summary.
- `scenarios.dfy` (module `Scenarios`): concrete households from `tests/test_pawpal.py`.

Fields the source never reassigns are `const`: names, duration, priority, the
back-references and the available time. Only the completion flag and the lists
change after construction.

Durations and priorities are unbounded integers, as in Python. A task that fails
validation is still registered with its pet (see below). So the scheduler may
meet zero or negative durations and priorities outside 1..5. Every operation is
modelled for all integers. Lemmas that need it say so explicitly
(`NonNegativeDurations`).

Registration before validation: constructing a task calls `pet.add_task(self)`
first (`pawpal_system.py:82`) and runs the two checks afterwards
(`pawpal_system.py:84-87`). So a task that raises `ValueError` stays in its pet's
list and is later loaded by the scheduler. `CreateTask` models this:
on failure it returns `Failure(...)`, and `pet.tasks` still ends with the new task.

## Model

| member | source | states |
|---|---|---|
| `Entities.Message` | pawpal_system.py:84-87 | The duration error's text is exactly "Duration must be positive", and the priority error's text is exactly "Priority must be between 1 (highest) and 5 (lowest)". Each text belongs to its error alone |
| `Entities.Validate` | pawpal_system.py:84-87 | No error exactly when duration > 0 and 1 <= priority <= 5. The duration error wins whenever duration <= 0. The priority error is reported only for a positive duration with a priority outside 1..5 |
| `Entities.CreateTask` | pawpal_system.py:80-87 | A new task with the given fields is registered with its pet, unless an equal task is already there. Then it is validated. The call succeeds exactly when duration > 0 and 1 <= priority <= 5, and otherwise fails with the error of the first failed check, and whose message is that check's exact text. The registration happens either way |
| `Entities.Task.constructor` | pawpal_system.py:69-82 | The registration half of `Task(...)`: sets every field, starts incomplete, and appends itself to its pet's tasks exactly when no equal task is listed. Validation is added by `CreateTask`, which every scenario uses |
| `Entities.Task.MarkComplete` | pawpal_system.py:89-91 | `completed` becomes true; only that field may change |
| `Entities.Task.MarkIncomplete` | pawpal_system.py:93-95 | `completed` becomes false; only that field may change |
| `Entities.Task.IsHighPriority` | pawpal_system.py:97-99 | Among the valid priorities, a task is high exactly for priority 1 or 2. A task that failed validation with a priority below 1 also counts as high |
| `Entities.SameTask` | pawpal_system.py:69-78 | The generated task `==`: every task equals itself, and equal tasks share the same pet object, duration and priority (all seven fields are compared, the pet by identity) |
| `Entities.SamePet` | pawpal_system.py:39-47 | The generated pet `==`: every pet equals itself, and equal pets share the same owner object, the same task objects in the same order, and the same special needs (all six fields are compared, the owner and the listed tasks by identity) |
| `Entities.SameTaskIsEquivalence` | pawpal_system.py:69-78 | The generated task `==`, field by field, is reflexive, symmetric and transitive |
| `Entities.SamePetIsEquivalence` | pawpal_system.py:39-47 | The generated pet `==`, field by field, is reflexive, symmetric and transitive |
| `Entities.HasEqualTask` | pawpal_system.py:65 | `task in tasks`: some listed task is equal to it. Since `in` tests identity first, a listed task is always found |
| `Entities.HasEqualPet` | pawpal_system.py:28 | `pet in pets`: some registered pet is equal to it. A registered pet is always found |
| `Entities.Owner.constructor` | pawpal_system.py:10-16 | Name and available time as given, no preferences and no pets |
| `Entities.Owner.AddPreference` | pawpal_system.py:22-24 | Adds or overwrites exactly one key of the preferences |
| `Entities.Owner.AddPet` | pawpal_system.py:26-29 | The old list is a prefix of the new one and it grows by at most one. The pet is appended exactly when no equal pet is registered |
| `Entities.Owner.GetAllTasks` | pawpal_system.py:31-36 | The extend loop returns `AllTasks(pets)`: each pet's tasks, pets in registration order |
| `Entities.AllTasks` | pawpal_system.py:31-36 | Every task of every registered pet is in the owner's list |
| `Entities.AllTasksMembership` | pawpal_system.py:31-36 | A task is in the owner's list exactly when it is in some registered pet's tasks |
| `Entities.AllTasksFirstPet` | pawpal_system.py:31-36 | The owner's list is the first pet's tasks followed by the remaining pets' tasks |
| `Entities.Pet.constructor` | pawpal_system.py:39-51 | Sets the fields, keeping the special needs passed in as given, duplicates included, and starts with no tasks. Appends itself to its owner's pets exactly when no equal pet is registered, where equality includes the special needs |
| `Entities.Pet.AddSpecialNeed` | pawpal_system.py:53-56 | The needs become `AppendIfAbsent(old needs, need)` |
| `Entities.AppendIfAbsent` | pawpal_system.py:53-56 | The result contains the value, extends the old list by at most one, and equals the old list exactly when the value was present |
| `Entities.AddSpecialNeedKeepsDistinct` | pawpal_system.py:53-56 | Recording a need keeps a duplicate-free list of needs duplicate-free |
| `Entities.Pet.AddTask` | pawpal_system.py:63-66 | The old list is a prefix of the new one and it grows by at most one. The task is appended exactly when no equal task is listed |
| `Entities.AddTaskKeepsDistinct` | pawpal_system.py:63-66 | Registering a task keeps a list with no two equal tasks that way |
| `Entities.AddPetKeepsDistinct` | pawpal_system.py:26-29 | Registering a pet keeps a list with no two equal pets that way |
| `Entities.FirstEqualTask` | pawpal_system.py:120-123 | Returns the first index holding a task equal to the given one, or None exactly when no equal task is listed |
| `Entities.RemoveFirstEqual` | pawpal_system.py:120-123 | With no equal task the list is unchanged. Otherwise exactly the first equal task is cut out and the rest keep their order |
| `Entities.RemoveUndoesAdd` | pawpal_system.py:115-123 | Removing a task just appended to a list with no equal task restores the list |
| `Ordering.InsertByPriority` | pawpal_system.py:205-207 | Inserting into a sorted list gives a sorted list with exactly one more occurrence of the task |
| `Ordering.StableSortByPriority` | pawpal_system.py:205-207 | The result is a permutation of the input, non-decreasing in priority number |
| `Ordering.SortIsStable` | pawpal_system.py:205-207 | For every priority, the tasks of that priority appear in the same order as in the input |
| `Ordering.EqualPriorityKeepsOrder` | pawpal_system.py:205-207 | Two input positions with equal priority stay in the same relative order after sorting |
| `Ordering.StableSortIsUnique` | pawpal_system.py:205-207 | Two sorted lists with the same per-priority subsequences are equal |
| `Ordering.StableSortsAgree` | pawpal_system.py:205-207 | Any sorted list with the input's per-priority subsequences, for instance the result of Python's stable `sorted`, is `StableSortByPriority` of the input |
| `Greedy.Total` | pawpal_system.py:201-203 | The sum of the durations, never negative when no duration is |
| `Greedy.TotalBoundsEach` | pawpal_system.py:201-203 | With no negative durations, each task takes at most the total |
| `Greedy.Allocate` | pawpal_system.py:147-155 | The plan and conflicts the greedy walk produces; every input task lands on exactly one side, so their lengths add up to the input's |
| `Greedy.AllocateInterleaves` | pawpal_system.py:150-155 | The plan and the conflicts interleave the sorted input: each task goes to exactly one side, and each side keeps the input order |
| `Greedy.InterleavesIsPermutation` | pawpal_system.py:150-155 | An interleaving holds exactly the input's tasks, with their multiplicities, and its lengths add up to the input's |
| `Greedy.AllocateWithinCapacity` | pawpal_system.py:150-153 | The planned minutes never exceed the capacity unless the plan is empty |
| `Greedy.AcceptedIffFits` | pawpal_system.py:151-155 | The task at position i joins the plan exactly when the minutes planned before it plus its duration are <= the capacity. Otherwise it joins the conflicts |
| `Greedy.AllocateExtendsPrefix` | pawpal_system.py:150-155 | No backtracking: the plan and conflicts built for a prefix are prefixes of the final plan and conflicts |
| `Greedy.RejectedWouldOverflow` | pawpal_system.py:150-155 | With non-negative durations, no rejected task would fit in the time the final plan leaves free |
| `Greedy.AllFit` | pawpal_system.py:151 | With non-negative durations whose total is <= the capacity, every task is planned and none is rejected, because the bound is inclusive |
| `Greedy.NoneFit` | pawpal_system.py:151 | When the capacity is >= 0 and every task alone is longer, nothing is planned and everything is rejected in order. Capacity 0 with positive durations is one case |
| `Greedy.TooLongIsRejected` | pawpal_system.py:151-155 | With non-negative durations, a task longer than the capacity always ends among the conflicts, whatever its priority |
| `Greedy.AllocateSplits` | pawpal_system.py:147-155 | The split, permutation and capacity facts that the scheduler relies on, stated together |
| `Scheduling.BandOf` | pawpal_system.py:177-183 | HIGH exactly when `is_high_priority` holds (priority <= 2), MEDIUM exactly for priority 3, LOW exactly for priority >= 4 |
| `Scheduling.HighPriorityFirst` | pawpal_system.py:97-99 | In a list sorted by priority, every task for which `is_high_priority` holds, which is every HIGH task, comes before every task for which it does not |
| `Scheduling.SplitKeepsOrder` | pawpal_system.py:147-155 | Splitting a priority-sorted list leaves both the plan and the conflicts sorted by priority |
| `Scheduling.Entries` | pawpal_system.py:176-188 | One entry per planned task, numbered from the start value, with its completion mark and band |
| `Scheduling.Scheduler.constructor` | pawpal_system.py:109-113 | Given owner, and empty task list, plan and conflicts |
| `Scheduling.Scheduler.AddTask` | pawpal_system.py:115-118 | The old list is a prefix of the new one and it grows by at most one. The task is appended exactly when no equal task is listed |
| `Scheduling.Scheduler.RemoveTask` | pawpal_system.py:120-123 | The task list becomes `RemoveFirstEqual(old list, task)` |
| `Scheduling.Scheduler.LoadTasksFromOwner` | pawpal_system.py:125-127 | The task list is replaced by the owner's concatenated task list |
| `Scheduling.Scheduler.SortByPriority` | pawpal_system.py:205-207 | A permutation of the task list, sorted by priority. It is a function, so the task list is not touched |
| `Scheduling.Scheduler.GenerateDailyPlan` | pawpal_system.py:129-157 | The owner's tasks are loaded only when the task list was empty. The plan and conflicts are exactly `Allocate` of the priority-sorted tasks against the available time (`PlanIsCurrent`), so earlier results are discarded. Both lists are in priority order. They interleave the sorted tasks and together are a permutation of the task list. The planned minutes stay within the available time unless the plan is empty. The returned list is the plan |
| `Scheduling.Scheduler.CalculateTotalTime` | pawpal_system.py:201-203 | The plan's minutes are within the available time when the plan is current and non-empty. With no negative durations they are at least any single planned task |
| `Scheduling.Scheduler.CheckConflicts` | pawpal_system.py:159-161 | When the plan is current, the conflicts and the plan together are exactly the task list. With no negative durations, none of the conflicts would fit in the time the plan leaves free |
| `Scheduling.Scheduler.FillPlan` | pawpal_system.py:147-155 | The loop keeps the running minutes equal to the plan's total, and leaves the plan and conflicts equal to `Allocate` of the given order |
| `Scheduling.Scheduler.GetPlanSummary` | pawpal_system.py:163-199 | An empty plan yields exactly the fixed "No tasks scheduled yet..." message, even when there are conflicts. Otherwise the summary has the owner's name, the available and scheduled minutes, one numbered entry per planned task with its band, and the conflicts |
| `Scheduling.RegenerateIsStable` | pawpal_system.py:134-140 | Generating the plan twice in a row returns the same plan and conflicts, as one `Schedule` per run, and leaves the plan current |
| `Scenarios.ExactFill` | tests/test_pawpal.py:444-457 | Capacity 60 with tasks of 20 and 40 minutes plans both, rejects none and uses 60 minutes |
| `Scenarios.ExactFillThroughScheduler` | tests/test_pawpal.py:444-457 | The same household, built with the constructors and `CreateTask`, run through the scheduler: plan of two, no conflicts, total 60 |
| `Scenarios.ZeroCapacity` | tests/test_pawpal.py:429-441 | Capacity 0 rejects both tasks and plans none |
| `Scenarios.SingleLongTask` | tests/test_pawpal.py:496-508 | A 90-minute task against 60 minutes is the only conflict |
| `Scenarios.PrioritySorting` | tests/test_pawpal.py:85-101 | Tasks of priorities 4, 1 and 3 that fit are planned in the order 1, 3, 4 |
| `Scenarios.ExactFillHousehold` | tests/test_pawpal.py:444-449 | The household built with the constructors and `CreateTask` has 60 minutes, and its task list is the 20-minute and then the 40-minute task |
| `Scenarios.CreateRejected` | pawpal_system.py:80-87 | An invalid task fails with the error of the first failed check, and is registered when no listed task has its duration and priority |
| `Scenarios.InvalidDurationScenario` | tests/test_pawpal.py:511-520 | Durations -10 and 0 fail the duration check, with the message "Duration must be positive". Both rejected tasks remain registered with the pet |
| `Scenarios.InvalidPriorityScenario` | tests/test_pawpal.py:126-142 | Priorities 6 and 0 fail the priority check, with the message "Priority must be between 1 (highest) and 5 (lowest)". Every priority from 1 to 5 is accepted and kept on the task |
| `Scenarios.DuplicateRegistrationScenario` | pawpal_system.py:49-66 | Building an equal pet twice registers it once, and building an equal task twice registers it once |
| `Scenarios.SpecialNeedsScenario` | main.py:19-25 | A pet built with special needs keeps them as given, duplicates included. A pet that differs from it only in its needs is registered as a second pet |
| `Scenarios.CompletionScenario` | tests/test_pawpal.py:28-49 | A new task is incomplete. `mark_complete` makes it complete and `mark_incomplete` makes it incomplete again |

`Owner.get_available_time` (`pawpal_system.py:18-20`) is the constant field
`availableTime`.

## Left out

- Equality on back-references: the dataclass `==` compares a task's `pet` field, and a pet's `owner` and `tasks` fields, by value. The model compares these by identity. The difference shows only for distinct but field-by-field equal pets or owners, where Python's comparison recurses through the back-references.
- Entities.Task.constructor: it registers the task but does not validate it; `Entities.CreateTask` is the whole of `Task(...)`, registration then validation, and the scenarios build every task through it.
- Mutable "constant" fields: Python lets callers reassign any dataclass field. The source never does, so those fields are `const` here.
- Constructor arguments with defaults: the model builds owners without passing `preferences` or `pets`, pets without passing `tasks`, and tasks without passing `completed`, which is how every caller in `pawpal_system.py`, `main.py`, `app.py` and the tests builds them. `special_needs`, which `main.py:24` and `app.py:83` do pass, is a parameter of `Entities.Pet.constructor`.
- Preference values: `preferences` holds arbitrary Python values; here they are strings.
- `Task.__lt__` (`pawpal_system.py:101-103`): it defines `<` by priority, but `sort_by_priority` sorts with a key function and never uses it.
- `Pet.get_info` and the text layout of `get_plan_summary`: the decorations, separators, emoji and string formatting are not modelled. `Scheduling.Scheduler.GetPlanSummary` models what the summary contains, not its characters.
- Aliasing of the returned plan: `generate_daily_plan` returns the same list object as `daily_plan`, so a caller mutating it would change the scheduler. The model returns the plan as a value.
- The Streamlit front end (`app.py`) and the demo script (`main.py`): they hold no scheduling logic, and the front end's efficiency percentage is floating point.
- The sorts by duration and pet name, the filters, time-slot assignment and interval conflict detection called from `tests/test_pawpal.py:166-407`: they do not exist in `pawpal_system.py`.
- The timing assertion of `tests/test_pawpal.py:525-550`: wall-clock time is outside a model.
