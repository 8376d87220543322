/**
 * The greedy, capacity-bounded partition behind the daily plan: tasks are taken
 * in the given order, and each one is accepted when the minutes already accepted
 * plus its own duration fit in the capacity (inclusive), and rejected otherwise.
 * Nothing is ever reconsidered.
 */
module Greedy {
  import opened Entities

  /** Total minutes of a list of tasks, summed front to back; never negative when no duration is. */
  function Total(s: seq<Task>): (r: int)
    ensures NonNegativeDurations(s) ==> 0 <= r
  {
    if s == [] then 0
    else
      assert NonNegativeDurations(s) ==> NonNegativeDurations(s[..|s| - 1]);
      Total(s[..|s| - 1]) + s[|s| - 1].duration
  }

  /** The accepted tasks (the plan) and the rejected ones (the conflicts). */
  datatype Schedule = Schedule(plan: seq<Task>, conflicts: seq<Task>)

  /** The outcome of the greedy walk over `s` against `capacity` minutes; every task lands on one side. */
  function Allocate(s: seq<Task>, capacity: int): (r: Schedule)
    ensures |r.plan| + |r.conflicts| == |s|
  {
    if s == [] then Schedule([], [])
    else
      var before := Allocate(s[..|s| - 1], capacity);
      var t := s[|s| - 1];
      if Total(before.plan) + t.duration <= capacity then Schedule(before.plan + [t], before.conflicts)
      else Schedule(before.plan, before.conflicts + [t])
  }

  /** `s` is an order-preserving interleaving of `a` and `b`: each task of `s` goes to exactly one side. */
  predicate Interleaves(s: seq<Task>, a: seq<Task>, b: seq<Task>)
    decreases |s|
  {
    if s == [] then a == [] && b == []
    else
      (a != [] && a[|a| - 1] == s[|s| - 1] && Interleaves(s[..|s| - 1], a[..|a| - 1], b)) ||
      (b != [] && b[|b| - 1] == s[|s| - 1] && Interleaves(s[..|s| - 1], a, b[..|b| - 1]))
  }

  /** Every task whose duration is not negative. */
  predicate NonNegativeDurations(s: seq<Task>)
  {
    forall i :: 0 <= i < |s| ==> s[i].duration >= 0
  }

  /** With no negative durations, every single task takes at most the total. */
  lemma {:induction false} TotalBoundsEach(s: seq<Task>)
    requires NonNegativeDurations(s)
    ensures forall i :: 0 <= i < |s| ==> s[i].duration <= Total(s)
    decreases |s|
  {
    if s != [] {
      var init := s[..|s| - 1];
      assert NonNegativeDurations(init);
      TotalBoundsEach(init);
      assert forall i :: 0 <= i < |init| ==> s[i] == init[i];
    }
  }

  /** Reordering tasks keeps their durations non-negative. */
  lemma PermutationKeepsNonNegative(a: seq<Task>, b: seq<Task>)
    requires multiset(a) == multiset(b) && NonNegativeDurations(a)
    ensures NonNegativeDurations(b)
  {
    forall k | 0 <= k < |b| ensures b[k].duration >= 0 {
      assert b[k] in multiset(a);
    }
  }

  lemma TotalAppend(s: seq<Task>, t: Task)
    ensures Total(s + [t]) == Total(s) + t.duration
  {
    assert (s + [t])[..|s|] == s;
  }

  /** The plan and the conflicts split the input, each keeping the input order. */
  lemma {:induction false} AllocateInterleaves(s: seq<Task>, capacity: int)
    ensures Interleaves(s, Allocate(s, capacity).plan, Allocate(s, capacity).conflicts)
    decreases |s|
  {
    if s != [] {
      var before := Allocate(s[..|s| - 1], capacity);
      AllocateInterleaves(s[..|s| - 1], capacity);
      assert (before.plan + [s[|s| - 1]])[..|before.plan|] == before.plan;
      assert (before.conflicts + [s[|s| - 1]])[..|before.conflicts|] == before.conflicts;
    }
  }

  /** An interleaving loses and invents nothing: it has the input's tasks, as often as the input. */
  lemma {:induction false} InterleavesIsPermutation(s: seq<Task>, a: seq<Task>, b: seq<Task>)
    requires Interleaves(s, a, b)
    ensures multiset(a) + multiset(b) == multiset(s)
    ensures |a| + |b| == |s|
    decreases |s|
  {
    if s != [] {
      var last := s[|s| - 1];
      assert s == s[..|s| - 1] + [last];
      if a != [] && a[|a| - 1] == last && Interleaves(s[..|s| - 1], a[..|a| - 1], b) {
        InterleavesIsPermutation(s[..|s| - 1], a[..|a| - 1], b);
        assert a == a[..|a| - 1] + [last];
      } else {
        InterleavesIsPermutation(s[..|s| - 1], a, b[..|b| - 1]);
        assert b == b[..|b| - 1] + [last];
      }
    }
  }

  /** The accepted minutes never exceed the capacity, unless nothing is accepted at all. */
  lemma {:induction false} AllocateWithinCapacity(s: seq<Task>, capacity: int)
    ensures Allocate(s, capacity).plan == [] || Total(Allocate(s, capacity).plan) <= capacity
    decreases |s|
  {
    if s != [] {
      var before := Allocate(s[..|s| - 1], capacity);
      AllocateWithinCapacity(s[..|s| - 1], capacity);
      TotalAppend(before.plan, s[|s| - 1]);
    }
  }

  /**
   * The greedy step: the task at position i is appended to the plan exactly when the
   * minutes accepted before it plus its duration fit, and to the conflicts otherwise.
   */
  lemma AcceptedIffFits(s: seq<Task>, capacity: int, i: int)
    requires 0 <= i < |s|
    ensures var before := Allocate(s[..i], capacity);
            var after := Allocate(s[..i + 1], capacity);
            (after.plan == before.plan + [s[i]] && after.conflicts == before.conflicts) <==>
            Total(before.plan) + s[i].duration <= capacity
    ensures var before := Allocate(s[..i], capacity);
            var after := Allocate(s[..i + 1], capacity);
            (after.plan == before.plan && after.conflicts == before.conflicts + [s[i]]) <==>
            Total(before.plan) + s[i].duration > capacity
  {
    assert s[..i + 1][..i] == s[..i];
    assert s[..i + 1][i] == s[i];
  }

  /** No backtracking: the decisions taken on a prefix are never revised by later tasks. */
  lemma {:induction false} AllocateExtendsPrefix(s: seq<Task>, capacity: int, j: int)
    requires 0 <= j <= |s|
    ensures Allocate(s[..j], capacity).plan <= Allocate(s, capacity).plan
    ensures Allocate(s[..j], capacity).conflicts <= Allocate(s, capacity).conflicts
    decreases |s| - j
  {
    if j < |s| {
      AllocateExtendsPrefix(s, capacity, j + 1);
      assert s[..j + 1][..j] == s[..j];
    } else {
      assert s[..j] == s;
    }
  }

  /** With no negative durations, a rejected task would still not fit in the final plan's leftover time. */
  lemma {:induction false} RejectedWouldOverflow(s: seq<Task>, capacity: int)
    requires NonNegativeDurations(s)
    ensures forall t :: t in Allocate(s, capacity).conflicts ==> Total(Allocate(s, capacity).plan) + t.duration > capacity
    decreases |s|
  {
    if s != [] {
      var init := s[..|s| - 1];
      var before := Allocate(init, capacity);
      RejectedWouldOverflow(init, capacity);
      var last := s[|s| - 1];
      TotalAppend(before.plan, last);
      assert last.duration >= 0;
      forall t | t in Allocate(s, capacity).conflicts
        ensures Total(Allocate(s, capacity).plan) + t.duration > capacity
      {
        if t != last {
          assert t in before.conflicts;
        }
      }
    }
  }

  /** With no negative durations, everything is accepted when the total fits (the bound is inclusive). */
  lemma {:induction false} AllFit(s: seq<Task>, capacity: int)
    requires NonNegativeDurations(s)
    requires Total(s) <= capacity
    ensures Allocate(s, capacity) == Schedule(s, [])
    decreases |s|
  {
    if s != [] {
      var init := s[..|s| - 1];
      assert [s[|s| - 1]][..0] == [];
      AllFit(init, capacity);
      assert init + [s[|s| - 1]] == s;
    }
  }

  /** When each task alone is longer than a non-negative capacity, everything is rejected. */
  lemma {:induction false} NoneFit(s: seq<Task>, capacity: int)
    requires 0 <= capacity
    requires forall i :: 0 <= i < |s| ==> s[i].duration > capacity
    ensures Allocate(s, capacity) == Schedule([], s)
    decreases |s|
  {
    if s != [] {
      var init := s[..|s| - 1];
      assert forall i :: 0 <= i < |init| ==> init[i] == s[i];
      NoneFit(init, capacity);
      assert init + [s[|s| - 1]] == s;
    }
  }

  /** With no negative durations, a task longer than the whole capacity is always rejected. */
  lemma TooLongIsRejected(s: seq<Task>, capacity: int, i: int)
    requires NonNegativeDurations(s)
    requires 0 <= i < |s| && s[i].duration > capacity
    ensures s[i] in Allocate(s, capacity).conflicts
  {
    var before := Allocate(s[..i], capacity);
    assert NonNegativeDurations(before.plan) by {
      AllocateInterleaves(s[..i], capacity);
      InterleavesIsPermutation(s[..i], before.plan, before.conflicts);
      forall k | 0 <= k < |before.plan| ensures before.plan[k].duration >= 0 {
        assert before.plan[k] in multiset(s[..i]);
      }
    }
    assert Total(before.plan) >= 0;
    AcceptedIffFits(s, capacity, i);
    AllocateExtendsPrefix(s, capacity, i + 1);
    var after := Allocate(s[..i + 1], capacity);
    assert after.conflicts[|after.conflicts| - 1] == s[i];
  }

  /** What a caller of the greedy walk relies on: an order-preserving split within capacity. */
  lemma AllocateSplits(s: seq<Task>, capacity: int)
    ensures Interleaves(s, Allocate(s, capacity).plan, Allocate(s, capacity).conflicts)
    ensures multiset(Allocate(s, capacity).plan) + multiset(Allocate(s, capacity).conflicts) == multiset(s)
    ensures Allocate(s, capacity).plan == [] || Total(Allocate(s, capacity).plan) <= capacity
  {
    AllocateInterleaves(s, capacity);
    InterleavesIsPermutation(s, Allocate(s, capacity).plan, Allocate(s, capacity).conflicts);
    AllocateWithinCapacity(s, capacity);
  }
}
