/**
 * Ordering tasks by priority number, ascending, as Python's stable `sorted` with
 * `key=priority` does. Stability is stated as: for every priority, the tasks of
 * that priority appear in the result in the same order as in the input. Any
 * sorted sequence with that property is this one (StableSortIsUnique), so the
 * insertion sort below gives the same list as the sort the source calls.
 */
module Ordering {
  import opened Entities

  /** Non-decreasing in priority number. */
  predicate IsSortedByPriority(s: seq<Task>)
  {
    forall i, j :: 0 <= i < j < |s| ==> s[i].priority <= s[j].priority
  }

  /** The tasks of `s` whose priority is `p`, in their order in `s`. */
  function WithPriority(s: seq<Task>, p: int): (r: seq<Task>)
    ensures |r| <= |s|
    ensures forall i :: 0 <= i < |r| ==> r[i].priority == p
  {
    if s == [] then []
    else (if s[0].priority == p then [s[0]] else []) + WithPriority(s[1..], p)
  }

  /** Inserts `x` before the first task of the same or a larger priority number. */
  function InsertByPriority(x: Task, s: seq<Task>): (r: seq<Task>)
    requires IsSortedByPriority(s)
    ensures |r| == |s| + 1 && (r[0] == x || (s != [] && r[0] == s[0]))
    ensures multiset(r) == multiset(s) + multiset{x}
    ensures IsSortedByPriority(r)
  {
    if s == [] || x.priority <= s[0].priority then [x] + s
    else
      var rest := InsertByPriority(x, s[1..]);
      assert s == [s[0]] + s[1..];
      assert s[0].priority <= rest[0].priority;
      [s[0]] + rest
  }

  /** The stable sort of `s` by ascending priority number. */
  function StableSortByPriority(s: seq<Task>): (r: seq<Task>)
    ensures multiset(r) == multiset(s)
    ensures IsSortedByPriority(r)
  {
    if s == [] then []
    else
      assert s == [s[0]] + s[1..];
      InsertByPriority(s[0], StableSortByPriority(s[1..]))
  }

  /** A non-empty sequence has at least its first task in its first task's priority class. */
  lemma WithPriorityOfHead(s: seq<Task>)
    ensures s != [] ==> WithPriority(s, s[0].priority) != []
  {
  }

  /** Every task of WithPriority(s, p) is a task of `s` and has priority `p`. */
  lemma {:induction false} WithPriorityMembers(s: seq<Task>, p: int, t: Task)
    requires t in WithPriority(s, p)
    ensures t in s && t.priority == p
    decreases |s|
  {
    if s[0].priority != p || t != s[0] {
      assert WithPriority(s, p) == (if s[0].priority == p then [s[0]] else []) + WithPriority(s[1..], p);
      WithPriorityMembers(s[1..], p, t);
    }
  }

  /** Inserting `x` keeps, for every priority, the order of `[x] + s`. */
  lemma {:induction false} InsertKeepsPriorityOrder(x: Task, s: seq<Task>, p: int)
    requires IsSortedByPriority(s)
    ensures WithPriority(InsertByPriority(x, s), p) == WithPriority([x] + s, p)
    decreases |s|
  {
    if s != [] && x.priority > s[0].priority {
      InsertKeepsPriorityOrder(x, s[1..], p);
      var rest := InsertByPriority(x, s[1..]);
      assert ([s[0]] + rest)[1..] == rest;
      assert ([x] + s)[1..] == s;
      assert ([x] + s[1..])[1..] == s[1..];
    }
  }

  /** The sort is stable: the tasks of each priority keep their input order. */
  lemma {:induction false} SortIsStable(s: seq<Task>, p: int)
    ensures WithPriority(StableSortByPriority(s), p) == WithPriority(s, p)
    decreases |s|
  {
    if s != [] {
      var sorted := StableSortByPriority(s[1..]);
      SortIsStable(s[1..], p);
      InsertKeepsPriorityOrder(s[0], sorted, p);
      assert ([s[0]] + sorted)[1..] == sorted;
    }
  }

  /** Two sorted sequences that agree on every priority's subsequence are equal. */
  lemma {:induction false} StableSortIsUnique(a: seq<Task>, b: seq<Task>)
    requires IsSortedByPriority(a) && IsSortedByPriority(b)
    requires forall p :: WithPriority(a, p) == WithPriority(b, p)
    ensures a == b
    decreases |a|
  {
    if a == [] || b == [] {
      WithPriorityOfHead(a);
      WithPriorityOfHead(b);
      if a != b {
        assert false;
      }
    } else {
      SortedHeadsAgree(a, b);
      forall q
        ensures WithPriority(a[1..], q) == WithPriority(b[1..], q)
      {
        DropHeadPriority(a, q);
        DropHeadPriority(b, q);
      }
      StableSortIsUnique(a[1..], b[1..]);
      assert a == [a[0]] + a[1..];
      assert b == [b[0]] + b[1..];
    }
  }

  /** Two sorted sequences that agree on every priority's subsequence start with the same task. */
  lemma SortedHeadsAgree(a: seq<Task>, b: seq<Task>)
    requires a != [] && b != []
    requires IsSortedByPriority(a) && IsSortedByPriority(b)
    requires forall p :: WithPriority(a, p) == WithPriority(b, p)
    ensures a[0] == b[0]
  {
    var pa, pb := a[0].priority, b[0].priority;
    assert WithPriority(a, pa)[0] == a[0];
    var tb := WithPriority(b, pa)[0];
    WithPriorityMembers(b, pa, tb);
    var jb :| 0 <= jb < |b| && b[jb] == tb;
    assert pb <= pa;
    assert WithPriority(b, pb)[0] == b[0];
    var ta := WithPriority(a, pb)[0];
    WithPriorityMembers(a, pb, ta);
    var ja :| 0 <= ja < |a| && a[ja] == ta;
    assert pa <= pb;
  }

  /** Dropping the first task drops it from its own priority's subsequence and from no other. */
  lemma DropHeadPriority(s: seq<Task>, q: int)
    requires s != []
    ensures WithPriority(s[1..], q) == WithPriority(s, q)[(if s[0].priority == q then 1 else 0)..]
  {
  }

  /**
   * Any stable ascending sort of `s` by priority, for instance Python's `sorted`,
   * returns StableSortByPriority(s).
   */
  lemma StableSortsAgree(s: seq<Task>, r: seq<Task>)
    requires IsSortedByPriority(r)
    requires forall p :: WithPriority(r, p) == WithPriority(s, p)
    ensures r == StableSortByPriority(s)
  {
    forall p
      ensures WithPriority(r, p) == WithPriority(StableSortByPriority(s), p)
    {
      SortIsStable(s, p);
    }
    StableSortIsUnique(r, StableSortByPriority(s));
  }

  /** Equal-priority tasks keep their relative input order in the sorted list. */
  lemma EqualPriorityKeepsOrder(s: seq<Task>, i: int, j: int)
    requires 0 <= i < j < |s| && s[i].priority == s[j].priority
    ensures WithPriority(StableSortByPriority(s), s[i].priority) == WithPriority(s, s[i].priority)
    ensures exists ki, kj :: 0 <= ki < kj < |WithPriority(s, s[i].priority)| &&
              WithPriority(s, s[i].priority)[ki] == s[i] && WithPriority(s, s[i].priority)[kj] == s[j]
  {
    SortIsStable(s, s[i].priority);
    WithPriorityPositions(s, i, j);
  }

  /** Two positions of the same priority keep their order in that priority's subsequence. */
  lemma {:induction false} WithPriorityPositions(s: seq<Task>, i: int, j: int)
    requires 0 <= i < j < |s| && s[i].priority == s[j].priority
    ensures exists ki, kj :: 0 <= ki < kj < |WithPriority(s, s[i].priority)| &&
              WithPriority(s, s[i].priority)[ki] == s[i] && WithPriority(s, s[i].priority)[kj] == s[j]
    decreases |s|
  {
    var p := s[i].priority;
    if i == 0 {
      WithPriorityContains(s[1..], j - 1);
      var k :| 0 <= k < |WithPriority(s[1..], p)| && WithPriority(s[1..], p)[k] == s[j];
      assert WithPriority(s, p)[0] == s[0];
      assert WithPriority(s, p)[k + 1] == s[j];
    } else {
      WithPriorityPositions(s[1..], i - 1, j - 1);
      var ki, kj :| 0 <= ki < kj < |WithPriority(s[1..], p)| &&
        WithPriority(s[1..], p)[ki] == s[i] && WithPriority(s[1..], p)[kj] == s[j];
      var d := if s[0].priority == p then 1 else 0;
      assert WithPriority(s, p)[ki + d] == s[i];
      assert WithPriority(s, p)[kj + d] == s[j];
    }
  }

  lemma {:induction false} WithPriorityContains(s: seq<Task>, j: int)
    requires 0 <= j < |s|
    ensures exists k :: 0 <= k < |WithPriority(s, s[j].priority)| && WithPriority(s, s[j].priority)[k] == s[j]
    decreases |s|
  {
    var p := s[j].priority;
    if j == 0 {
      assert WithPriority(s, p)[0] == s[0];
    } else {
      WithPriorityContains(s[1..], j - 1);
      var k :| 0 <= k < |WithPriority(s[1..], p)| && WithPriority(s[1..], p)[k] == s[j];
      var d := if s[0].priority == p then 1 else 0;
      assert WithPriority(s, p)[k + d] == s[j];
    }
  }
}
