/** The history store: an append-only list of outcomes, views of it, and
    the statistics computed over it in one pass. */
module History {
  import opened Outcomes

  /** The trailing run: its outcome (None for an empty history) and length. */
  datatype Streak = Streak(kind: Option<Outcome>, count: nat)

  /** The integer fields of the statistics record. */
  datatype Stats = Stats(
    total: nat,
    pCount: nat,
    bCount: nat,
    longestP: nat,
    longestB: nat,
    current: Streak)

  const InvalidOutcomeMessage: string := "Result must be 'P' or 'B'"

  /** Entries a (inclusive) to b (exclusive) all equal `o`. */
  ghost predicate AllAre(h: seq<Outcome>, o: Outcome, a: int, b: int)
    requires 0 <= a <= b <= |h|
  {
    forall k :: a <= k < b ==> h[k] == o
  }

  /** L is the length of the longest stretch of `o` in `h` (0 if `o` never
      occurs): no stretch of `o` is longer, and one is exactly that long. */
  ghost predicate IsLongestRun(h: seq<Outcome>, o: Outcome, L: nat) {
    && (forall a, b :: 0 <= a <= b <= |h| && AllAre(h, o, a, b) ==> b - a <= L)
    && (exists a, b :: 0 <= a <= b <= |h| && b - a == L && AllAre(h, o, a, b))
  }

  /** c is the length of the maximal run that ends the (non-empty) history. */
  ghost predicate IsTrailingRun(h: seq<Outcome>, c: nat)
    requires |h| >= 1
  {
    && 1 <= c <= |h|
    && AllAre(h, h[|h| - 1], |h| - c, |h|)
    && (c == |h| || h[|h| - c - 1] != h[|h| - 1])
  }

  /** Python's `s[start:]`, for a start index of either sign: a suffix of
      `s`, which drops the first `start` entries when `start` is
      non-negative and keeps the last `-start` entries when it is
      negative. */
  function SliceFrom<T>(s: seq<T>, start: int): (r: seq<T>)
    ensures |r| == if start >= 0 then Max(0, |s| - start) else Min(|s|, -start)
    ensures s == s[..|s| - |r|] + r
  {
    if start >= 0 then s[Min(start, |s|)..] else s[Max(0, |s| + start)..]
  }

  class GameManager {
    /** The recorded outcomes, oldest first. */
    var history: seq<Outcome>

    constructor()
      ensures history == []
    {
      history := [];
    }

    method Reset()
      modifies this
      ensures history == []
    {
      history := [];
    }

    /** Appends a result given as text; anything but "P" or "B" fails and
        leaves the history as it was. */
    method AddResult(result: string) returns (r: Result<nat>)
      modifies this
      ensures Parse(result).None? ==> r == Failure(InvalidOutcomeMessage) && history == old(history)
      ensures Parse(result).Some? ==> history == old(history) + [Parse(result).value]
      ensures Parse(result).Some? ==> r == Success(|history|) && |history| == |old(history)| + 1
    {
      var o := Parse(result);
      if o.None? {
        return Failure(InvalidOutcomeMessage);
      }
      history := history + [o.value];
      return Success(|history|);
    }

    /** A copy of the history: a value, so no caller can alter the store
        through it. */
    function GetHistory(): (h: seq<Outcome>)
      reads this
      ensures |h| == |history| && forall i :: 0 <= i < |h| ==> h[i] == history[i]
    {
      history
    }

    /** The most recent `count` results for display: the last
        min(count, length) entries in order when count >= 1; the whole
        history when count == 0 (Python's `h[-0:]` is `h[0:]`); the history
        without its first -count entries when count < 0. */
    function GetDisplayHistory(count: int := 25): (r: seq<Outcome>)
      reads this
      ensures history == [] ==> r == []
      ensures count >= 1 ==> |r| == Min(count, |history|) && r == history[|history| - |r|..]
      ensures count == 0 ==> r == history
      ensures count < 0 ==> r == history[Min(-count, |history|)..]
    {
      if |history| > 0 then SliceFrom(history, -count) else []
    }

    /** Counts, the longest run of each outcome and the trailing run, in one
        pass over the history. */
    method GetStats() returns (s: Stats)
      ensures s.total == |history|
      ensures s.pCount == Count(history, P) && s.bCount == Count(history, B)
      ensures history == [] ==> s == Stats(0, 0, 0, 0, 0, Streak(None, 0))
      ensures IsLongestRun(history, P, s.longestP) && IsLongestRun(history, B, s.longestB)
      ensures history != [] ==> s.current.kind == Some(history[|history| - 1])
      ensures history != [] ==> IsTrailingRun(history, s.current.count)
    {
      var h := history;
      if h == [] {
        assert AllAre(h, P, 0, 0) && AllAre(h, B, 0, 0);
        return Stats(0, 0, 0, 0, 0, Streak(None, 0));
      }
      var longestP, longestB, current := ScanRuns(h);
      s := Stats(|h|, Count(h, P), Count(h, B), longestP, longestB, Streak(Some(h[|h| - 1]), current));
    }
  }

  /** The run-length pass of the statistics: walks the history once,
      growing the current run while neighbours match and closing it against
      the longest run of its outcome when they differ or the history ends. */
  method ScanRuns(h: seq<Outcome>) returns (longestP: nat, longestB: nat, current: nat)
    requires |h| >= 1
    ensures IsLongestRun(h, P, longestP) && IsLongestRun(h, B, longestB)
    ensures IsTrailingRun(h, current)
  {
    var n := |h|;
    longestP, longestB := 0, 0;
    current := 1;
    var i := 1;
    assert AllAre(h, P, 0, 0) && AllAre(h, B, 0, 0);
    while i < n
      invariant 1 <= i <= n
      invariant 1 <= current <= i
      invariant AllAre(h, h[i - 1], i - current, i)
      invariant current == i || h[i - current - 1] != h[i - 1]
      invariant RunsBounded(h, P, i, longestP, if h[i - 1] == P then current else 0)
      invariant RunsBounded(h, B, i, longestB, if h[i - 1] == B then current else 0)
      invariant Achieved(h, P, i - current, longestP)
      invariant Achieved(h, B, i - current, longestB)
    {
      if h[i] == h[i - 1] {
        ExtendRun(h, P, i, current, longestP);
        ExtendRun(h, B, i, current, longestB);
        current := current + 1;
      } else {
        CloseRun(h, i, current, longestP, longestB);
        if h[i - 1] == P {
          longestP := Max(longestP, current);
        } else {
          longestB := Max(longestB, current);
        }
        current := 1;
      }
      i := i + 1;
    }
    assert i == n && AllAre(h, h[n - 1], n - current, n);
    Finish(h, P, current, longestP);
    Finish(h, B, current, longestB);
    if h[n - 1] == P {
      longestP := Max(longestP, current);
    } else {
      longestB := Max(longestB, current);
    }
  }

  /** Every stretch of `o` ending by `end` is at most max(L, open) long. */
  ghost predicate RunsBounded(h: seq<Outcome>, o: Outcome, end: int, L: nat, open: nat)
    requires 0 <= end <= |h|
  {
    forall a, b :: 0 <= a <= b <= end && AllAre(h, o, a, b) ==> b - a <= L || b - a <= open
  }

  /** Some stretch of `o` ending by `end` is exactly L long. */
  ghost predicate Achieved(h: seq<Outcome>, o: Outcome, end: int, L: nat)
    requires 0 <= end <= |h|
  {
    exists a, b :: 0 <= a <= b <= end && b - a == L && AllAre(h, o, a, b)
  }

  /** Loop step of GetStats when entry i continues the current run. */
  lemma ExtendRun(h: seq<Outcome>, o: Outcome, i: nat, current: nat, L: nat)
    requires 1 <= i < |h| && 1 <= current <= i && h[i] == h[i - 1]
    requires AllAre(h, h[i - 1], i - current, i)
    requires current == i || h[i - current - 1] != h[i - 1]
    requires RunsBounded(h, o, i, L, if h[i - 1] == o then current else 0)
    ensures RunsBounded(h, o, i + 1, L, if h[i] == o then current + 1 else 0)
  {
    forall a, b | 0 <= a <= b <= i + 1 && AllAre(h, o, a, b)
      ensures b - a <= L || b - a <= (if h[i] == o then current + 1 else 0)
    {
      if b == i + 1 && a < b {
        assert h[i] == o;
        if current < i {
          assert h[i - current - 1] != o;
        }
      } else if b <= i {
        assert AllAre(h, o, a, b);
      }
    }
  }

  /** Loop step of GetStats when entry i starts a new run. */
  lemma CloseRun(h: seq<Outcome>, i: nat, current: nat, lp: nat, lb: nat)
    requires 1 <= i < |h| && 1 <= current <= i && h[i] != h[i - 1]
    requires AllAre(h, h[i - 1], i - current, i)
    requires RunsBounded(h, P, i, lp, if h[i - 1] == P then current else 0)
    requires RunsBounded(h, B, i, lb, if h[i - 1] == B then current else 0)
    requires Achieved(h, P, i - current, lp) && Achieved(h, B, i - current, lb)
    ensures h[i - 1] == P ==> RunsBounded(h, P, i + 1, Max(lp, current), 0)
    ensures h[i - 1] == P ==> RunsBounded(h, B, i + 1, lb, 1)
    ensures h[i - 1] == B ==> RunsBounded(h, B, i + 1, Max(lb, current), 0)
    ensures h[i - 1] == B ==> RunsBounded(h, P, i + 1, lp, 1)
    ensures h[i - 1] == P ==> Achieved(h, P, i, Max(lp, current)) && Achieved(h, B, i, lb)
    ensures h[i - 1] == B ==> Achieved(h, B, i, Max(lb, current)) && Achieved(h, P, i, lp)
  {
    var prev := h[i - 1];
    forall o: Outcome, a, b | 0 <= a <= b <= i + 1 && AllAre(h, o, a, b) && b == i + 1 && a < b
      ensures o == h[i] && a == i
    {
      assert h[i] == o && h[i - 1] != o;
    }
    forall o: Outcome, a, b | 0 <= a <= b <= i && AllAre(h, o, a, b)
      ensures b - a <= (if o == P then lp else lb) || (o == prev && b - a <= current)
    {
    }
    var a0 := i - current;
    assert AllAre(h, prev, a0, i);
  }

  /** After the loop, folding in the trailing run yields the longest run. */
  lemma Finish(h: seq<Outcome>, o: Outcome, current: nat, L: nat)
    requires |h| >= 1 && 1 <= current <= |h|
    requires AllAre(h, h[|h| - 1], |h| - current, |h|)
    requires RunsBounded(h, o, |h|, L, if h[|h| - 1] == o then current else 0)
    requires Achieved(h, o, |h| - current, L)
    ensures h[|h| - 1] == o ==> IsLongestRun(h, o, Max(L, current))
    ensures h[|h| - 1] != o ==> IsLongestRun(h, o, L)
  {
    var n := |h|;
    if h[n - 1] == o && L < current {
      assert AllAre(h, o, n - current, n);
    }
  }

  /** The trailing run is at least one entry long and no longer than the
      longest run of its own outcome. */
  lemma CurrentStreakWithinLongest(h: seq<Outcome>, c: nat, L: nat)
    requires |h| >= 1 && IsTrailingRun(h, c) && IsLongestRun(h, h[|h| - 1], L)
    ensures 1 <= c <= L
  {
    assert AllAre(h, h[|h| - 1], |h| - c, |h|);
  }

  /** The longest-run figure is determined by the history. */
  lemma LongestRunUnique(h: seq<Outcome>, o: Outcome, L1: nat, L2: nat)
    requires IsLongestRun(h, o, L1) && IsLongestRun(h, o, L2)
    ensures L1 == L2
  {
    var a1, b1 :| 0 <= a1 <= b1 <= |h| && b1 - a1 == L1 && AllAre(h, o, a1, b1);
    var a2, b2 :| 0 <= a2 <= b2 <= |h| && b2 - a2 == L2 && AllAre(h, o, a2, b2);
  }
}
