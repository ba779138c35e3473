/** The vocabulary shared by the history store, the prediction models, the
    analysis engine and the bankroll: the two outcomes, optional values,
    the status labels the models report, and counting and windowing over a
    history. */
module Outcomes {

  /** A recorded game result: Player ('P') or Banker ('B'). */
  datatype Outcome = P | B

  datatype Option<T> = None | Some(value: T)

  /** An operation that either yields a value or fails with a message
      (the application raises ValueError in the failing case). */
  datatype Result<T> = Success(value: T) | Failure(error: string)

  /** The status labels the models report, one per message text:
      InsufficientData is "Yetersiz veri", ZigZagOf(n) is "ZigZag x n",
      NoZigZag is "ZigZag tespit edilmedi", and the Galactic labels stand for
      the Fibonacci, golden-ratio, symmetry, n-cycle, balance, momentum and
      "Galaktik desen tespit edilmedi" messages. */
  datatype Status =
    | InsufficientData
    | ZigZagOf(length: nat)
    | NoZigZag
    | FibonacciCosmic
    | GoldenRatio
    | Symmetric
    | CycleOf(period: nat)
    | Balance
    | Momentum
    | NoGalacticPattern

  /** What one model run reports: its status, its prediction for the next
      outcome, and the model's confidence after the run. */
  datatype Verdict = Verdict(status: Status, prediction: Option<Outcome>, confidence: int)

  /** The one-letter text the application uses for an outcome. */
  function Symbol(o: Outcome): string {
    match o
    case P => "P"
    case B => "B"
  }

  /** Reads an outcome from its text; only "P" and "B" are outcomes. */
  function Parse(s: string): (r: Option<Outcome>)
    ensures r.Some? <==> s == "P" || s == "B"
    ensures r.Some? ==> Symbol(r.value) == s
  {
    if s == "P" then Some(P) else if s == "B" then Some(B) else None
  }

  /** The outcome a model predicts to continue an alternation:
      'P' after a 'B', and 'B' otherwise. */
  function Opposite(o: Outcome): (r: Outcome)
    ensures r != o
  {
    if o == B then P else B
  }

  /** How many entries of `s` equal `o` (Python's list.count). */
  function Count(s: seq<Outcome>, o: Outcome): (n: nat)
    ensures n <= |s|
  {
    if s == [] then 0
    else Count(s[..|s| - 1], o) + (if s[|s| - 1] == o then 1 else 0)
  }

  /** Every entry is a 'P' or a 'B', so the two counts add up to the length. */
  lemma {:induction false} CountPartition(s: seq<Outcome>)
    ensures Count(s, P) + Count(s, B) == |s|
  {
    if s != [] {
      CountPartition(s[..|s| - 1]);
    }
  }

  /** Every two neighbouring entries differ. */
  predicate Alternates(s: seq<Outcome>) {
    forall i :: 0 < i < |s| ==> s[i] != s[i - 1]
  }

  /** Python's `s[-k:]` for k >= 1: the last k entries, or all of them. */
  function Last<T>(s: seq<T>, k: nat): (r: seq<T>)
    ensures |r| == if k < |s| then k else |s|
    ensures s == s[..|s| - |r|] + r
  {
    if k < |s| then s[|s| - k..] else s
  }

  function Min(a: int, b: int): int {
    if a < b then a else b
  }

  function Max(a: int, b: int): int {
    if a < b then b else a
  }
}
