/** The Galactic pattern model: a prioritised chain of structural checks
    over the tail of the history (run lengths, templates, symmetry, cycles,
    balance, momentum), with a sticky "metamorphosis" flag raised by the two
    rarest checks. */
module GalacticPattern {
  import opened Outcomes
  import opened History

  /** The first Fibonacci numbers the model keeps. */
  const Fibonacci: seq<nat> := [1, 1, 2, 3, 5, 8, 13, 21]

  /** The two golden-ratio templates, in the order they are tried. */
  const GoldenPatterns: seq<seq<Outcome>> := [[P, B, P, P, B, P, P, P], [B, P, P, B, P, P, P, B]]

  function Sum(s: seq<nat>): nat {
    if s == [] then 0 else Sum(s[..|s| - 1]) + s[|s| - 1]
  }

  lemma SumAppend(s: seq<nat>, x: nat)
    ensures Sum(s + [x]) == Sum(s) + x
  {
    assert (s + [x])[..|s|] == s;
  }

  /** The run-length pass over the first n entries of `w`: the runs
      closed so far and the length of the open run. A
      matching entry lengthens the open run; a differing one closes it and
      opens a run of one. */
  function Scan(w: seq<Outcome>, n: nat): (r: (seq<nat>, nat))
    requires 1 <= n <= |w|
    ensures r.1 >= 1 && |r.0| + 1 <= n
  {
    if n == 1 then ([], 1)
    else
      var (closed, current) := Scan(w, n - 1);
      if w[n - 1] == w[n - 2] then (closed, current + 1) else (closed + [current], 1)
  }

  /** The lengths of the maximal runs of the window, left to right. */
  function RunLengths(w: seq<Outcome>): (r: seq<nat>)
    ensures |w| >= 1 ==> 1 <= |r| <= |w|
  {
    if w == [] then [] else Scan(w, |w|).0 + [Scan(w, |w|).1]
  }

  /** The run lengths are positive and add up to the number of entries. */
  lemma {:induction false} ScanPartition(w: seq<Outcome>, n: nat)
    requires 1 <= n <= |w|
    ensures forall k :: 0 <= k < |Scan(w, n).0| ==> Scan(w, n).0[k] >= 1
    ensures Sum(Scan(w, n).0) + Scan(w, n).1 == n
  {
    if n > 1 {
      ScanPartition(w, n - 1);
      var (closed, current) := Scan(w, n - 1);
      if w[n - 1] != w[n - 2] {
        SumAppend(closed, current);
      }
    }
  }

  /** The run lengths of a window are positive and add up to its length. */
  lemma RunLengthsPartition(w: seq<Outcome>)
    ensures forall k :: 0 <= k < |RunLengths(w)| ==> RunLengths(w)[k] >= 1
    ensures Sum(RunLengths(w)) == |w|
  {
    if w != [] {
      ScanPartition(w, |w|);
      SumAppend(Scan(w, |w|).0, Scan(w, |w|).1);
    }
  }

  /** Three consecutive run lengths starting at k add up like Fibonacci
      numbers. */
  predicate FibonacciAt(r: seq<nat>, k: int) {
    0 <= k && k + 2 < |r| && r[k] + r[k + 1] == r[k + 2]
  }

  /** The Fibonacci check: a window of at least eight entries, at least three
      runs, and some three consecutive run lengths with a + b == c. */
  predicate FibonacciPattern(w: seq<Outcome>) {
    |w| >= 8 && |RunLengths(w)| >= 3 && exists k :: 0 <= k < |RunLengths(w)| - 2 && FibonacciAt(RunLengths(w), k)
  }

  /** The run-length pass of the Fibonacci check: a matching entry extends
      the current run, a differing one closes it and starts a new one. */
  method RunsOf(w: seq<Outcome>) returns (runs: seq<nat>)
    requires |w| >= 1
    ensures runs == RunLengths(w)
  {
    runs := [];
    var current: nat := 1;
    var i := 1;
    while i < |w|
      invariant 1 <= i <= |w|
      invariant (runs, current) == Scan(w, i)
    {
      if w[i] == w[i - 1] {
        current := current + 1;
      } else {
        runs := runs + [current];
        current := 1;
      }
      i := i + 1;
    }
    runs := runs + [current];
  }

  /** The Fibonacci check: builds the run lengths of the window and searches
      them for a Fibonacci triple. */
  method CheckFibonacciPattern(w: seq<Outcome>) returns (found: bool)
    ensures found == FibonacciPattern(w)
  {
    if |w| < 8 {
      return false;
    }
    var runs := RunsOf(w);
    if |runs| < 3 {
      return false;
    }
    var j := 0;
    while j < |runs| - 2
      invariant 0 <= j <= |runs| - 2
      invariant forall k :: 0 <= k < j ==> !FibonacciAt(runs, k)
    {
      if runs[j] + runs[j + 1] == runs[j + 2] {
        assert FibonacciAt(runs, j);
        return true;
      }
      j := j + 1;
    }
    return false;
  }

  /** The parity prediction of the Fibonacci branch: (21 + 13) is even, so
      the branch always predicts Banker. */
  function FibonacciPrediction(): (o: Outcome)
    ensures o == B
  {
    if (Fibonacci[7] + Fibonacci[6]) % 2 == 1 then P else B
  }

  /** `pat` occurs in `text` at position k. */
  predicate OccursAt(text: seq<Outcome>, pat: seq<Outcome>, k: int) {
    0 <= k && k + |pat| <= |text| && text[k..k + |pat|] == pat
  }

  /** Substring containment (Python's `pattern in recent_str`). */
  predicate Contains(text: seq<Outcome>, pat: seq<Outcome>) {
    exists k :: 0 <= k <= |text| - |pat| && OccursAt(text, pat, k)
  }

  /** The index of the first template, from index i on, that occurs in `w`. */
  function FirstGolden(w: seq<Outcome>, i: nat): (r: Option<nat>)
    requires i <= |GoldenPatterns|
    ensures r.Some? ==> i <= r.value < |GoldenPatterns| && Contains(w, GoldenPatterns[r.value])
    ensures r.Some? ==> forall j :: i <= j < r.value ==> !Contains(w, GoldenPatterns[j])
    ensures r.None? ==> forall j :: i <= j < |GoldenPatterns| ==> !Contains(w, GoldenPatterns[j])
    decreases |GoldenPatterns| - i
  {
    if i == |GoldenPatterns| then None
    else if Contains(w, GoldenPatterns[i]) then Some(i)
    else FirstGolden(w, i + 1)
  }

  /** The template search of the chain: tries the templates in order and
      stops at the first one the window contains. */
  method FindGolden(w: seq<Outcome>) returns (g: Option<nat>)
    ensures g == FirstGolden(w, 0)
  {
    var i := 0;
    while i < |GoldenPatterns|
      invariant 0 <= i <= |GoldenPatterns|
      invariant FirstGolden(w, 0) == FirstGolden(w, i)
    {
      if Contains(w, GoldenPatterns[i]) {
        return Some(i);
      }
      i := i + 1;
    }
    return None;
  }

  function Reverse(s: seq<Outcome>): seq<Outcome> {
    seq(|s|, i requires 0 <= i < |s| => s[|s| - 1 - i])
  }

  /** Compares the first half of the window with the mirrored second half
      (the middle entry of an odd window is skipped). */
  method CheckSymmetry(w: seq<Outcome>) returns (symmetric: bool)
    ensures symmetric <==> w == Reverse(w)
  {
    var size := |w|;
    var mid := size / 2;
    var firstHalf := w[..mid];
    var secondHalf := if size % 2 == 0 then w[mid..] else w[mid + 1..];
    assert |secondHalf| == mid;
    var i := 0;
    while i < mid
      invariant 0 <= i <= mid
      invariant forall k :: 0 <= k < i ==> w[k] == w[size - 1 - k]
    {
      assert secondHalf[mid - i - 1] == w[size - 1 - i];
      if firstHalf[i] != secondHalf[mid - i - 1] {
        assert Reverse(w)[i] != w[i];
        return false;
      }
      i := i + 1;
    }
    forall k | 0 <= k < size
      ensures w[k] == Reverse(w)[k]
    {
      if k >= mid && size - 1 - k < mid {
        assert w[size - 1 - k] == w[size - 1 - (size - 1 - k)];
      }
    }
    return true;
  }

  /** What the symmetry branch predicts, from the midpoint of the whole
      history (not of the window): the entry just before the midpoint for an
      even length, the opposite of the middle entry for an odd one. So it
      repeats the mirror image of the entry at the midpoint exactly when the
      length is even. */
  function SymmetryPrediction(h: seq<Outcome>): (r: Outcome)
    requires |h| >= 1
    ensures r == h[|h| - 1 - |h| / 2] <==> |h| % 2 == 0
  {
    var mid := |h| / 2;
    if |h| % 2 == 0 then h[mid - 1] else Opposite(h[mid])
  }

  /** Every entry of `s` repeats `p` entries later. */
  predicate Periodic(s: seq<Outcome>, p: nat) {
    forall k :: 0 <= k < |s| - p ==> s[k] == s[k + p]
  }

  /** Three equal consecutive slices of length p are a period-p sequence. */
  lemma ThreeSlices(s: seq<Outcome>, p: nat)
    requires p >= 1 && |s| == 3 * p
    ensures (s[0..p] == s[p..2 * p] && s[p..2 * p] == s[2 * p..3 * p]) <==> Periodic(s, p)
  {
    if s[0..p] == s[p..2 * p] && s[p..2 * p] == s[2 * p..3 * p] {
      forall k | 0 <= k < |s| - p
        ensures s[k] == s[k + p]
      {
        if k < p {
          assert s[0..p][k] == s[p..2 * p][k];
        } else {
          assert s[p..2 * p][k - p] == s[2 * p..3 * p][k - p];
        }
      }
    }
    if Periodic(s, p) {
      assert s[0..p] == s[p..2 * p] by {
        forall k | 0 <= k < p ensures s[0..p][k] == s[p..2 * p][k] {
          assert s[k] == s[k + p];
        }
      }
      assert s[p..2 * p] == s[2 * p..3 * p] by {
        forall k | 0 <= k < p ensures s[p..2 * p][k] == s[2 * p..3 * p][k] {
          assert s[p + k] == s[p + k + p];
        }
      }
    }
  }

  /** The cycle check: with at least nine entries, a 3-cycle in the last
      nine, else a 2-cycle in the last six; the value returned is the first
      entry of that window, which is the entry one period back, so the
      prediction continues the cycle. */
  function CheckCycles(h: seq<Outcome>): (r: Option<(nat, Outcome)>)
    ensures r.Some? <==> |h| >= 9 && (Periodic(h[|h| - 9..], 3) || Periodic(h[|h| - 6..], 2))
    ensures r.Some? ==> (r.value.0 == 3 <==> Periodic(h[|h| - 9..], 3))
    ensures r.Some? ==> (r.value.0 == 3 || r.value.0 == 2) && r.value.1 == h[|h| - r.value.0]
  {
    if |h| < 9 then None
    else
      var recent := h[|h| - 9..];
      ThreeSlices(recent, 3);
      if recent[0..3] == recent[3..6] && recent[3..6] == recent[6..9] then
        assert recent[0] == recent[3] == recent[6];
        Some((3, recent[0]))
      else if |h| >= 6 then
        var recent6 := h[|h| - 6..];
        ThreeSlices(recent6, 2);
        if recent6[0..2] == recent6[2..4] && recent6[2..4] == recent6[4..6] then
          assert recent6[0] == recent6[2] == recent6[4];
          Some((2, recent6[0]))
        else
          None
      else
        None
  }

  /** c <= p / n, for a positive n, is c * n <= p. */
  lemma AtLeastShare(p: real, n: real, c: real)
    requires n > 0.0
    ensures c <= p / n <==> c * n <= p
  {
    var x := p / n;
    assert x * n == p;
    if c <= x {
      assert (x - c) * n >= 0.0;
    } else {
      assert (c - x) * n > 0.0;
    }
  }

  /** p / n <= c, for a positive n, is p <= c * n. */
  lemma AtMostShare(p: real, n: real, c: real)
    requires n > 0.0
    ensures p / n <= c <==> p <= c * n
  {
    var x := p / n;
    assert x * n == p;
    if x <= c {
      assert (c - x) * n >= 0.0;
    } else {
      assert (x - c) * n > 0.0;
    }
  }

  /** The balance test: the share of 'P' in the window lies in [0.45, 0.55]. */
  predicate Balanced(p: nat, n: nat)
    requires n >= 1
  {
    0.45 <= (p as real) / (n as real) <= 0.55
  }

  /** The balance test needs no fractions: it is 45n <= 100p <= 55n. */
  lemma BalancedInIntegers(p: nat, n: nat)
    requires n >= 1
    ensures Balanced(p, n) <==> 45 * n <= 100 * p <= 55 * n
  {
    AtLeastShare(p as real, n as real, 0.45);
    AtMostShare(p as real, n as real, 0.55);
  }

  /** The momentum check: an outcome with at least 60% of the window,
      'P' tested first. In integers, a share of at least 0.6 is 5k >= 3n. */
  function DetectTrend(w: seq<Outcome>): (r: Option<Outcome>)
    requires |w| >= 1
    ensures r == Some(P) <==> 5 * Count(w, P) >= 3 * |w|
    ensures r == Some(B) <==> 5 * Count(w, P) < 3 * |w| && 5 * (|w| - Count(w, P)) >= 3 * |w|
    ensures r.None? <==> 5 * Count(w, P) < 3 * |w| && 5 * (|w| - Count(w, P)) < 3 * |w|
  {
    var p := Count(w, P);
    var b := |w| - p;
    AtLeastShare(p as real, |w| as real, 0.6);
    AtLeastShare(b as real, |w| as real, 0.6);
    assert 0.6 * (|w| as real) <= p as real <==> 3 * |w| <= 5 * p;
    assert 0.6 * (|w| as real) <= b as real <==> 3 * |w| <= 5 * b;
    if (p as real) / (|w| as real) >= 0.6 then Some(P)
    else if (b as real) / (|w| as real) >= 0.6 then Some(B)
    else None
  }

  /** On five entries the momentum check always answers, with the majority
      outcome. */
  lemma TrendIsMajority(w: seq<Outcome>)
    requires |w| == 5
    ensures DetectTrend(w).Some?
    ensures DetectTrend(w) == Some(P) <==> Count(w, P) > Count(w, B)
  {
    CountPartition(w);
    var p := Count(w, P);
    AtLeastShare(p as real, 5.0, 0.6);
    AtLeastShare((5 - p) as real, 5.0, 0.6);
  }

  /** The outcome of the pattern chain, and whether it raises the
      metamorphosis flag. */
  datatype Classification = Classification(verdict: Verdict, triggers: bool)

  /** The prioritised chain of checks, stopping at the first that fires:
      Fibonacci runs (95), a golden template (92), symmetry (88), a cycle
      (85), balance over the last twelve (75), momentum over the last five
      (70), else no pattern (0). Each later stage is a function of its own. */
  function Classify(h: seq<Outcome>): (c: Classification)
    requires |h| >= 1
    ensures c.triggers ==> c.verdict.confidence in {95, 92}
    ensures c.verdict.prediction.None? <==> c.verdict.status == NoGalacticPattern
    ensures c.verdict.status == NoGalacticPattern <==> c.verdict.confidence == 0
    ensures c.verdict.status == NoGalacticPattern ==> |h| < 5 || DetectTrend(Last(h, 5)).None?
    ensures c.verdict.confidence in {95, 92, 88, 85, 75, 70, 0}
    ensures c.verdict.status == FibonacciCosmic ==> c.verdict.prediction == Some(B)
  {
    if FibonacciPattern(Last(h, 8)) then
      Classification(Verdict(FibonacciCosmic, Some(FibonacciPrediction()), 95), true)
    else
      GoldenStage(h)
  }

  /** The template stage: the first template contained in the last eight
      entries predicts its own entry at index (window length mod 8). */
  function GoldenStage(h: seq<Outcome>): (c: Classification)
    requires |h| >= 1
    ensures c.triggers ==> c.verdict.confidence == 92
    ensures c.verdict.status != FibonacciCosmic
    ensures c.verdict.prediction.None? <==> c.verdict.status == NoGalacticPattern
    ensures c.verdict.status == NoGalacticPattern <==> c.verdict.confidence == 0
    ensures c.verdict.status == NoGalacticPattern ==> |h| < 5 || DetectTrend(Last(h, 5)).None?
    ensures c.verdict.confidence in {92, 88, 85, 75, 70, 0}
  {
    var w := Last(h, 8);
    match FirstGolden(w, 0)
    case Some(g) =>
      Classification(Verdict(GoldenRatio, Some(GoldenPatterns[g][|w| % |GoldenPatterns[g]|]), 92), true)
    case None =>
      SymmetryStage(h)
  }

  /** The symmetry stage: a mirror-symmetric last eight predict from the
      midpoint of the whole history. */
  function SymmetryStage(h: seq<Outcome>): (c: Classification)
    requires |h| >= 1
    ensures !c.triggers
    ensures c.verdict.prediction.None? <==> c.verdict.status == NoGalacticPattern
    ensures c.verdict.status == NoGalacticPattern <==> c.verdict.confidence == 0
    ensures c.verdict.status == NoGalacticPattern ==> |h| < 5 || DetectTrend(Last(h, 5)).None?
    ensures c.verdict.confidence in {88, 85, 75, 70, 0}
    ensures c.verdict.status != FibonacciCosmic && c.verdict.status != GoldenRatio
    ensures c.verdict.status == Symmetric ==> c.verdict.prediction == Some(SymmetryPrediction(h))
    ensures c.verdict.status == Symmetric <==> Last(h, 8) == Reverse(Last(h, 8))
    ensures Last(h, 8) != Reverse(Last(h, 8)) ==> c == CycleStage(h)
  {
    var w := Last(h, 8);
    if w == Reverse(w) then
      Classification(Verdict(Symmetric, Some(SymmetryPrediction(h)), 88), false)
    else
      CycleStage(h)
  }

  /** The cycle stage: a 3- or 2-cycle predicts its continuation. */
  function CycleStage(h: seq<Outcome>): (c: Classification)
    requires |h| >= 1
    ensures !c.triggers
    ensures c.verdict.prediction.None? <==> c.verdict.status == NoGalacticPattern
    ensures c.verdict.status == NoGalacticPattern <==> c.verdict.confidence == 0
    ensures c.verdict.status == NoGalacticPattern ==> |h| < 5 || DetectTrend(Last(h, 5)).None?
    ensures c.verdict.confidence in {85, 75, 70, 0}
    ensures c.verdict.status.CycleOf? || c.verdict.status in {Balance, Momentum, NoGalacticPattern}
    ensures c.verdict.status.CycleOf? ==> var p := c.verdict.status.period;
      && (p == 3 || p == 2) && 3 * p <= |h| && Periodic(h[|h| - 3 * p..], p)
      && c.verdict.prediction == Some(h[|h| - p])
    ensures c.verdict.status.CycleOf? <==> CheckCycles(h).Some?
    ensures c.verdict.status.CycleOf? ==> c.verdict.status.period == CheckCycles(h).value.0
  {
    match CheckCycles(h)
    case Some((period, next)) =>
      Classification(Verdict(CycleOf(period), Some(next), 85), false)
    case None =>
      TrendStage(h)
  }

  /** The last two stages: balance over the last twelve entries predicts the
      outcome that restores it ('B' when 'P' leads, else 'P'); otherwise
      momentum over the last five predicts the trend. */
  function TrendStage(h: seq<Outcome>): (c: Classification)
    requires |h| >= 1
    ensures !c.triggers
    ensures c.verdict.prediction.None? <==> c.verdict.status == NoGalacticPattern
    ensures c.verdict.status == NoGalacticPattern <==> c.verdict.confidence == 0
    ensures c.verdict.status == NoGalacticPattern ==> |h| < 5 || DetectTrend(Last(h, 5)).None?
    ensures c.verdict.confidence in {75, 70, 0}
    ensures c.verdict.status in {Balance, Momentum, NoGalacticPattern}
    ensures c.verdict.status == Balance ==> var window := Last(h, 12);
      c.verdict.prediction == Some(if Count(window, P) > Count(window, B) then B else P)
    ensures c.verdict.status == Balance <==>
      45 * |Last(h, 12)| <= 100 * Count(Last(h, 12), P) <= 55 * |Last(h, 12)|
    ensures c.verdict.status == Momentum <==>
      !(45 * |Last(h, 12)| <= 100 * Count(Last(h, 12), P) <= 55 * |Last(h, 12)|)
      && |h| >= 5 && DetectTrend(Last(h, 5)).Some?
    ensures c.verdict.status == Momentum ==> c.verdict.prediction == DetectTrend(Last(h, 5))
  {
    var window := Last(h, 12);
    var p := Count(window, P);
    var b := |window| - p;
    CountPartition(window);
    BalancedInIntegers(p, |window|);
    if Balanced(p, |window|) then
      Classification(Verdict(Balance, Some(if p > b then B else P), 75), false)
    else if |h| >= 5 && DetectTrend(Last(h, 5)).Some? then
      Classification(Verdict(Momentum, DetectTrend(Last(h, 5)), 70), false)
    else
      Classification(Verdict(NoGalacticPattern, None, 0), false)
  }

  /** Both golden templates already pass the Fibonacci check: their runs
      are 1,1,2,1,3 (1 + 1 == 2) and 1,2,1,3,1 (2 + 1 == 3). */
  lemma GoldenTemplatesAreFibonacci()
    ensures FibonacciPattern(GoldenPatterns[0]) && FibonacciPattern(GoldenPatterns[1])
  {
    var g0, g1 := GoldenPatterns[0], GoldenPatterns[1];
    FirstTemplateRuns(g0);
    assert FibonacciAt(RunLengths(g0), 0);
    SecondTemplateRuns(g1);
    assert FibonacciAt(RunLengths(g1), 1);
  }

  lemma FirstTemplateRuns(g: seq<Outcome>)
    requires |g| == 8 && g[0] == g[2] == g[3] == g[5] == g[6] == g[7] == P && g[1] == g[4] == B
    ensures RunLengths(g) == [1, 1, 2, 1, 3]
  {
    assert Scan(g, 2).0 == [1] && Scan(g, 2).1 == 1;
    assert Scan(g, 3).0 == [1, 1] && Scan(g, 3).1 == 1;
    assert Scan(g, 4).0 == [1, 1] && Scan(g, 4).1 == 2;
    assert Scan(g, 5).0 == [1, 1, 2] && Scan(g, 5).1 == 1;
    assert Scan(g, 6).0 == [1, 1, 2, 1] && Scan(g, 6).1 == 1;
    assert Scan(g, 7).0 == [1, 1, 2, 1] && Scan(g, 7).1 == 2;
    assert Scan(g, 8).0 == [1, 1, 2, 1] && Scan(g, 8).1 == 3;
  }

  lemma SecondTemplateRuns(g: seq<Outcome>)
    requires |g| == 8 && g[0] == g[3] == g[7] == B && g[1] == g[2] == g[4] == g[5] == g[6] == P
    ensures RunLengths(g) == [1, 2, 1, 3, 1]
  {
    assert Scan(g, 2).0 == [1] && Scan(g, 2).1 == 1;
    assert Scan(g, 3).0 == [1] && Scan(g, 3).1 == 2;
    assert Scan(g, 4).0 == [1, 2] && Scan(g, 4).1 == 1;
    assert Scan(g, 5).0 == [1, 2, 1] && Scan(g, 5).1 == 1;
    assert Scan(g, 6).0 == [1, 2, 1] && Scan(g, 6).1 == 2;
    assert Scan(g, 7).0 == [1, 2, 1] && Scan(g, 7).1 == 3;
    assert Scan(g, 8).0 == [1, 2, 1, 3] && Scan(g, 8).1 == 1;
  }

  /** The golden-template branch is dead: a window of eight that contains an
      eight-entry template equals it and so already passed the Fibonacci
      check, and a shorter window contains no template. */
  lemma GoldenBranchUnreachable(h: seq<Outcome>)
    requires |h| >= 1
    ensures Classify(h).verdict.status != GoldenRatio
    ensures Classify(h).verdict.confidence != 92
    ensures !FibonacciPattern(Last(h, 8)) ==> Classify(h) == SymmetryStage(h)
  {
    var w := Last(h, 8);
    if !FibonacciPattern(w) {
      var g := FirstGolden(w, 0);
      if g.Some? {
        var pat := GoldenPatterns[g.value];
        var k :| 0 <= k <= |w| - |pat| && OccursAt(w, pat, k);
        assert w == pat by {
          assert k == 0 && |w| == 8;
          assert w[0..8] == w;
        }
        GoldenTemplatesAreFibonacci();
        assert false;
      }
    }
  }

  /** The metamorphosis flag is raised exactly when the Fibonacci check
      fires on the last eight entries. */
  lemma TriggersIffFibonacci(h: seq<Outcome>)
    requires |h| >= 1
    ensures Classify(h).triggers <==> FibonacciPattern(Last(h, 8))
  {
    GoldenBranchUnreachable(h);
  }

  /** Once five entries exist the chain always ends in a prediction: the
      momentum check on five entries always answers, so "no pattern" is
      never reported, and the confidence is one of 95, 88, 85, 75, 70. */
  lemma AlwaysPredictsFromFive(h: seq<Outcome>)
    requires |h| >= 5
    ensures Classify(h).verdict.prediction.Some?
    ensures Classify(h).verdict.status != NoGalacticPattern
    ensures Classify(h).verdict.confidence in {95, 88, 85, 75, 70}
  {
    GoldenBranchUnreachable(h);
    TrendIsMajority(Last(h, 5));
  }

  /** A reported cycle is a real one, and its prediction continues it: the
      window of three periods followed by the predicted outcome still repeats
      with that period. */
  lemma CyclePredictionContinues(h: seq<Outcome>, v: Verdict)
    requires |h| >= 1 && v == Classify(h).verdict
    ensures v.status.CycleOf? ==> var p := v.status.period;
      && 3 * p <= |h| && v.prediction.Some?
      && Periodic(h[|h| - 3 * p..] + [v.prediction.value], p)
  {
    if v.status.CycleOf? {
      CycleComesFromCycleStage(h);
      CycleStageContinues(h, v);
    }
  }

  /** The cycle stage's cycle continues with its prediction. */
  lemma CycleStageContinues(h: seq<Outcome>, v: Verdict)
    requires |h| >= 1 && v == CycleStage(h).verdict && v.status.CycleOf?
    ensures var p := v.status.period;
      && 3 * p <= |h| && v.prediction.Some?
      && Periodic(h[|h| - 3 * p..] + [v.prediction.value], p)
  {
    var p := v.status.period;
    var win := h[|h| - 3 * p..];
    assert v.prediction.value == win[|win| - p];
    PeriodicExtends(win, p);
  }

  /** Only the cycle stage reports a cycle. */
  lemma CycleComesFromCycleStage(h: seq<Outcome>)
    requires |h| >= 1
    ensures Classify(h).verdict.status.CycleOf? ==> Classify(h).verdict == CycleStage(h).verdict
  {
    GoldenBranchUnreachable(h);
  }

  /** A periodic window extended by the entry one period back stays periodic. */
  lemma PeriodicExtends(win: seq<Outcome>, p: nat)
    requires 1 <= p <= |win| && Periodic(win, p)
    ensures Periodic(win + [win[|win| - p]], p)
  {
    var s := win + [win[|win| - p]];
    forall k | 0 <= k < |s| - p
      ensures s[k] == s[k + p]
    {
      if k + p == |win| {
        assert s[k] == win[|win| - p];
      }
    }
  }

  /** One run of the model from confidence c and flag m: fewer than eight
      entries leave both alone; otherwise the chain sets the confidence and
      may raise the flag, which then stays raised. */
  function Run(h: seq<Outcome>, c: int, m: bool): (Verdict, bool) {
    if |h| < 8 then (Verdict(InsufficientData, None, c), m)
    else
      var cl := Classify(h);
      (cl.verdict, m || cl.triggers)
  }

  /** The checks of the chain that never raise the metamorphosis flag:
      symmetry, cycles, balance and momentum, in that order. */
  method CheckQuietPatterns(history: seq<Outcome>) returns (status: Status, prediction: Option<Outcome>, conf: int)
    requires |history| >= 1
    ensures Verdict(status, prediction, conf) == SymmetryStage(history).verdict
  {
    var w := Last(history, 8);
    var symmetric := CheckSymmetry(w);
    if symmetric {
      var midPoint := |history| / 2;
      if |history| % 2 == 0 {
        return Symmetric, Some(history[midPoint - 1]), 88;
      } else {
        return Symmetric, Some(Opposite(history[midPoint])), 88;
      }
    }
    assert SymmetryStage(history) == CycleStage(history);
    var cycle := CheckCycles(history);
    if cycle.Some? {
      return CycleOf(cycle.value.0), Some(cycle.value.1), 85;
    }
    assert CycleStage(history) == TrendStage(history);
    var window := Last(history, 12);
    var pCount := Count(window, P);
    var bCount := |window| - pCount;
    if Balanced(pCount, |window|) {
      if pCount > bCount {
        return Balance, Some(B), 75;
      } else {
        return Balance, Some(P), 75;
      }
    }
    if |history| >= 5 {
      var trend := DetectTrend(Last(history, 5));
      if trend.Some? {
        return Momentum, trend, 70;
      }
    }
    return NoGalacticPattern, None, 0;
  }

  class GalacticPatternModel {
    /** The store whose history the model reads. */
    const game: GameManager
    /** The confidence of the last analysis, 0 until one is made. */
    var confidence: int
    /** Raised when a rare pattern fires; lowered only by ResetMetamorphosis. */
    var metamorphosisTriggered: bool

    constructor(game: GameManager)
      ensures this.game == game && confidence == 0 && !metamorphosisTriggered
    {
      this.game := game;
      confidence := 0;
      metamorphosisTriggered := false;
    }

    function GetConfidence(): (c: int)
      reads this
      ensures c == confidence
    {
      confidence
    }

    /** Runs the chain on at least eight entries and records its confidence;
        with fewer it reports "insufficient data" and changes nothing. */
    method Analyze() returns (status: Status, prediction: Option<Outcome>)
      modifies this
      ensures (Verdict(status, prediction, confidence), metamorphosisTriggered)
        == Run(game.history, old(confidence), old(metamorphosisTriggered))
    {
      var history := game.GetHistory();
      if |history| < 8 {
        return InsufficientData, None;
      }
      var c;
      status, prediction, c := CheckPatterns(history);
      confidence := c;
    }

    /** The chain of checks itself. (A 0/1 copy of the history is also
        handed to it, and no check reads that copy.) */
    method CheckPatterns(history: seq<Outcome>) returns (status: Status, prediction: Option<Outcome>, conf: int)
      requires |history| >= 1
      modifies this`metamorphosisTriggered
      ensures Verdict(status, prediction, conf) == Classify(history).verdict
      ensures metamorphosisTriggered == (old(metamorphosisTriggered) || Classify(history).triggers)
    {
      var w := Last(history, 8);
      var fibonacci := CheckFibonacciPattern(w);
      if fibonacci {
        metamorphosisTriggered := true;
        var nextFib := (Fibonacci[7] + Fibonacci[6]) % 2;
        return FibonacciCosmic, Some(if nextFib == 1 then P else B), 95;
      }
      assert Classify(history) == GoldenStage(history);
      var golden := FindGolden(w);
      if golden.Some? {
        metamorphosisTriggered := true;
        var pattern := GoldenPatterns[golden.value];
        return GoldenRatio, Some(pattern[|w| % |pattern|]), 92;
      }
      assert GoldenStage(history) == SymmetryStage(history);
      status, prediction, conf := CheckQuietPatterns(history);
    }

    function IsMetamorphosisTriggered(): (b: bool)
      reads this
      ensures b == metamorphosisTriggered
    {
      metamorphosisTriggered
    }

    method ResetMetamorphosis()
      modifies this`metamorphosisTriggered
      ensures !metamorphosisTriggered
    {
      metamorphosisTriggered := false;
    }
  }
}
