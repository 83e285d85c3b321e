/**
 * The stimulus-sequence builder: a pool of `targetCount` copies of the target digit
 * followed by randomly chosen other digits, then `random.shuffle`d. The random choices
 * are supplied: `picks` are the digits `random.choice(other_numbers)` returned, and a
 * shuffle is CPython's Fisher-Yates pass driven by the supplied draws
 * (`draws[i]` is what `randbelow(i + 1)` returned while placing position i).
 */
module StimulusSequence {
  import opened Wrappers
  import opened DigitCounts

  /** Attempts GNG-PVT.py makes before giving up (`max_attempts`). */
  const MaxShuffleAttempts: nat := 1000

  /** `[x] * n` */
  function Repeat(x: int, n: nat): (r: seq<int>)
    ensures |r| == n && forall i :: 0 <= i < n ==> r[i] == x
    ensures multiset(r)[x] == n
  {
    if n == 0 then [] else Repeat(x, n - 1) + [x]
  }

  /** `range(max_trials - target_count)`'s length: a negative count gives no draws. */
  function Remaining(targetCount: nat, total: nat): nat {
    if total > targetCount then total - targetCount else 0
  }

  /** Each pick is an element of `[n for n in range(1, 10) if n != target]`. */
  predicate ValidPicks(picks: seq<int>, target: int) {
    forall i :: 0 <= i < |picks| ==> IsDigit(picks[i]) && picks[i] != target
  }

  /** The list before shuffling: the target copies, then the picks. */
  function Pool(target: int, targetCount: nat, picks: seq<int>): seq<int> {
    Repeat(target, targetCount) + picks
  }

  /** The pool holds exactly `targetCount` targets and otherwise non-target digits. */
  lemma PoolComposition(target: int, targetCount: nat, picks: seq<int>)
    requires IsDigit(target) && ValidPicks(picks, target)
    ensures |Pool(target, targetCount, picks)| == targetCount + |picks|
    ensures multiset(Pool(target, targetCount, picks))[target] == targetCount
    ensures forall x :: x in multiset(Pool(target, targetCount, picks)) ==> IsDigit(x)
  {
    var pool := Pool(target, targetCount, picks);
    assert target !in multiset(picks);
    assert multiset(pool) == multiset(Repeat(target, targetCount)) + multiset(picks);
    forall x | x in multiset(pool) ensures IsDigit(x) {
      assert x in pool;
      var i :| 0 <= i < |pool| && pool[i] == x;
      if i >= targetCount {
        assert pool[i] == picks[i - targetCount];
      }
    }
  }

  /** Random draws fit for shuffling a list of length n: `randbelow(i + 1)` is at most i. */
  predicate ValidDraws(draws: seq<nat>, n: nat) {
    |draws| == n && forall i :: 0 <= i < n ==> draws[i] <= i
  }

  /** `x[i], x[j] = x[j], x[i]` */
  function Swap(s: seq<int>, i: nat, j: nat): (r: seq<int>)
    requires i < |s| && j < |s|
    ensures |r| == |s|
  {
    s[i := s[j]][j := s[i]]
  }

  lemma SwapPermutes(s: seq<int>, i: nat, j: nat)
    requires i < |s| && j < |s|
    ensures multiset(Swap(s, i, j)) == multiset(s)
  {
    var t := s[i := s[j]];
    assert multiset(t) == multiset(s) - multiset{s[i]} + multiset{s[j]};
    assert t[j] == (if i == j then s[j] else s[j]);
    assert multiset(t[j := s[i]]) == multiset(t) - multiset{t[j]} + multiset{s[i]};
  }

  /** The positions `n - 1, n - 2, ..., 1` of the shuffle loop still to be placed are those below i. */
  function ShuffleDown(s: seq<int>, draws: seq<nat>, i: nat): (r: seq<int>)
    requires i <= |s| && ValidDraws(draws, |s|)
    ensures |r| == |s|
    decreases i
  {
    if i <= 1 then s else ShuffleDown(Swap(s, i - 1, draws[i - 1]), draws, i - 1)
  }

  /** `random.shuffle(s)` with the given draws. */
  function Shuffled(s: seq<int>, draws: seq<nat>): (r: seq<int>)
    requires ValidDraws(draws, |s|)
    ensures |r| == |s|
  {
    ShuffleDown(s, draws, |s|)
  }

  lemma {:induction false} ShuffleDownPermutes(s: seq<int>, draws: seq<nat>, i: nat)
    requires i <= |s| && ValidDraws(draws, |s|)
    ensures multiset(ShuffleDown(s, draws, i)) == multiset(s)
    decreases i
  {
    if i > 1 {
      SwapPermutes(s, i - 1, draws[i - 1]);
      ShuffleDownPermutes(Swap(s, i - 1, draws[i - 1]), draws, i - 1);
    }
  }

  /** A shuffle only reorders: the result is a permutation of its input. */
  lemma ShuffledPermutes(s: seq<int>, draws: seq<nat>)
    requires ValidDraws(draws, |s|)
    ensures multiset(Shuffled(s, draws)) == multiset(s)
  {
    ShuffleDownPermutes(s, draws, |s|);
  }

  /** GNG-PVT.py's acceptance test: no index i with `s[i] == s[i+1] == target`. */
  predicate NoAdjacentTargets(s: seq<int>, target: int) {
    forall i :: 0 <= i < |s| - 1 ==> !(s[i] == s[i + 1] && s[i] == target)
  }

  /** Draws for every one of the retry loop's shuffles of a list of length n. */
  predicate ValidAttemptDraws(draws: seq<seq<nat>>, n: nat) {
    |draws| == MaxShuffleAttempts && forall a :: 0 <= a < |draws| ==> ValidDraws(draws[a], n)
  }

  /** The list after shuffle number a (counting from 0): each attempt reshuffles the previous one. */
  function Attempt(pool: seq<int>, draws: seq<seq<nat>>, a: nat): (r: seq<int>)
    requires ValidAttemptDraws(draws, |pool|) && a < |draws|
    ensures |r| == |pool|
    decreases a
  {
    var before := if a == 0 then pool else Attempt(pool, draws, a - 1);
    Shuffled(before, draws[a])
  }

  /** Shuffle number a passes the acceptance test. */
  predicate Accepted(pool: seq<int>, draws: seq<seq<nat>>, target: int, a: nat)
    requires ValidAttemptDraws(draws, |pool|) && a < |draws|
  {
    NoAdjacentTargets(Attempt(pool, draws, a), target)
  }

  /** Shuffle number a is the first one that passes the acceptance test. */
  predicate FirstAccepted(pool: seq<int>, draws: seq<seq<nat>>, target: int, a: nat)
    requires ValidAttemptDraws(draws, |pool|)
  {
    a < |draws| && Accepted(pool, draws, target, a) && forall b :: 0 <= b < a ==> !Accepted(pool, draws, target, b)
  }

  /** The `RuntimeError` raised once every attempt left two targets side by side. */
  datatype SequenceError = SequenceConstructionError

  /** Every attempt is a permutation of the pool. */
  lemma {:induction false} AttemptPermutes(pool: seq<int>, draws: seq<seq<nat>>, a: nat)
    requires ValidAttemptDraws(draws, |pool|) && a < |draws|
    ensures multiset(Attempt(pool, draws, a)) == multiset(pool)
    decreases a
  {
    var before := if a == 0 then pool else Attempt(pool, draws, a - 1);
    if a > 0 {
      AttemptPermutes(pool, draws, a - 1);
    }
    ShuffledPermutes(before, draws[a]);
  }

  /** A permutation of the pool keeps the pool's composition. */
  lemma PermutationComposition(s: seq<int>, target: int, targetCount: nat, picks: seq<int>)
    requires IsDigit(target) && ValidPicks(picks, target)
    requires multiset(s) == multiset(Pool(target, targetCount, picks))
    ensures |s| == targetCount + |picks|
    ensures multiset(s)[target] == targetCount
    ensures forall i :: 0 <= i < |s| ==> IsDigit(s[i])
  {
    PoolComposition(target, targetCount, picks);
    assert |s| == |multiset(s)|;
    forall i | 0 <= i < |s| ensures IsDigit(s[i]) {
      assert s[i] in multiset(s);
    }
  }

  /**
   * GNG-PVT.py's retry loop: shuffle the list in place up to 1000 times and stop at the
   * first shuffle that leaves no two targets side by side; None when every attempt fails.
   */
  method ShuffleUntilSeparated(pool: seq<int>, draws: seq<seq<nat>>, target: int) returns (r: Option<seq<int>>)
    requires ValidAttemptDraws(draws, |pool|)
    ensures r.None? <==> forall a :: 0 <= a < MaxShuffleAttempts ==> !Accepted(pool, draws, target, a)
    ensures r.Some? ==> exists a :: FirstAccepted(pool, draws, target, a) && r.value == Attempt(pool, draws, a)
    ensures r.Some? ==> multiset(r.value) == multiset(pool) && NoAdjacentTargets(r.value, target)
  {
    var shuffled := pool;
    for attempt := 0 to MaxShuffleAttempts
      invariant attempt == 0 ==> shuffled == pool
      invariant attempt > 0 ==> shuffled == Attempt(pool, draws, attempt - 1)
      invariant forall b :: 0 <= b < attempt ==> !Accepted(pool, draws, target, b)
    {
      shuffled := Shuffled(shuffled, draws[attempt]);
      assert shuffled == Attempt(pool, draws, attempt);
      if NoAdjacentTargets(shuffled, target) {
        assert FirstAccepted(pool, draws, target, attempt);
        AttemptPermutes(pool, draws, attempt);
        return Some(shuffled);
      }
    }
    return None;
  }

  /**
   * Targets kept apart can fill at most every other slot: an accepted sequence of length n
   * holds at most (n + 1) / 2 targets, so the retry loop cannot succeed on a fuller pool.
   */
  lemma {:induction false} SeparatedTargetsBound(s: seq<int>, target: int)
    requires NoAdjacentTargets(s, target)
    ensures 2 * multiset(s)[target] <= |s| + 1
    decreases |s|
  {
    if |s| >= 2 {
      var rest := s[1..];
      assert s == [s[0]] + rest;
      assert NoAdjacentTargets(rest, target) by {
        forall i | 0 <= i < |rest| - 1 ensures !(rest[i] == rest[i + 1] && rest[i] == target) {
          assert rest[i] == s[i + 1] && rest[i + 1] == s[i + 2];
        }
      }
      if s[0] == target {
        var rest2 := s[2..];
        assert rest == [s[1]] + rest2;
        assert s[1] != target;
        assert NoAdjacentTargets(rest2, target) by {
          forall i | 0 <= i < |rest2| - 1 ensures !(rest2[i] == rest2[i + 1] && rest2[i] == target) {
            assert rest2[i] == s[i + 2] && rest2[i + 1] == s[i + 3];
          }
        }
        SeparatedTargetsBound(rest2, target);
        assert multiset(s)[target] == 1 + multiset(rest2)[target];
      } else {
        SeparatedTargetsBound(rest, target);
        assert multiset(s)[target] == multiset(rest)[target];
      }
    } else if |s| == 1 {
      assert s == [s[0]];
    }
  }

  /** A pool with more targets than every other slot can hold fails all 1000 attempts. */
  lemma FullPoolAlwaysFails(pool: seq<int>, draws: seq<seq<nat>>, target: int)
    requires ValidAttemptDraws(draws, |pool|)
    requires 2 * multiset(pool)[target] > |pool| + 1
    ensures forall a :: 0 <= a < MaxShuffleAttempts ==> !Accepted(pool, draws, target, a)
  {
    forall a | 0 <= a < MaxShuffleAttempts ensures !Accepted(pool, draws, target, a) {
      AttemptPermutes(pool, draws, a);
      if Accepted(pool, draws, target, a) {
        SeparatedTargetsBound(Attempt(pool, draws, a), target);
      }
    }
  }

  /** Without any target in the pool the first shuffle is always accepted. */
  lemma NoTargetsAlwaysAccepted(pool: seq<int>, draws: seq<seq<nat>>, target: int)
    requires ValidAttemptDraws(draws, |pool|)
    requires multiset(pool)[target] == 0
    ensures NoAdjacentTargets(Attempt(pool, draws, 0), target)
  {
    var s := Attempt(pool, draws, 0);
    AttemptPermutes(pool, draws, 0);
    forall i | 0 <= i < |s| - 1 ensures s[i] != target {
      assert s[i] in multiset(s);
    }
  }

  /** gng_pvt.py's single unchecked shuffle can leave two targets side by side. */
  lemma UncheckedShuffleMayRepeatTarget()
    ensures Shuffled(Pool(5, 2, [1]), [0, 1, 2]) == [5, 5, 1]
    ensures !NoAdjacentTargets(Shuffled(Pool(5, 2, [1]), [0, 1, 2]), 5)
  {
    var s: seq<int> := [5, 5, 1];
    var d: seq<nat> := [0, 1, 2];
    assert Pool(5, 2, [1]) == s;
    assert Swap(s, 2, 2) == s;
    assert Swap(s, 1, 1) == s;
    assert ShuffleDown(s, d, 1) == s;
    assert ShuffleDown(s, d, 2) == s;
    assert ShuffleDown(s, d, 3) == s;
    assert s[0] == s[1] && s[0] == 5;
  }
}
