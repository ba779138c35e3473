/** The ZigZag model: looks for an alternation of Player and Banker at the
    end of the history and predicts that it continues. */
module ZigZag {
  import opened Outcomes
  import opened History

  /** The window the model inspects: the last six entries, or all of them. */
  function Recent(h: seq<Outcome>): seq<Outcome> {
    if |h| >= 6 then h[|h| - 6..] else h
  }

  /** The verdict on a history of at least five entries: a full alternation
      of the window, else of its last four, else of its last three, each
      predicting the opposite of the last entry. */
  function Evaluate(h: seq<Outcome>): (v: Verdict)
    requires |h| >= 5
    ensures v.prediction.Some? <==> Alternates(h[|h| - 3..])
    ensures v.prediction.Some? ==> v.prediction.value == Opposite(h[|h| - 1]) != h[|h| - 1]
    ensures v.prediction.None? <==> v.confidence == 0
    ensures v.confidence in {94, 91, 75, 65, 0}
    ensures v.prediction.None? ==> v.status == NoZigZag
  {
    var recent := Recent(h);
    var n := |recent|;
    assert recent[n - 3..] == h[|h| - 3..];
    assert recent[n - 1] == h[|h| - 1];
    if Alternates(recent) && n >= 3 then
      Verdict(ZigZagOf(n), Some(Opposite(recent[n - 1])), 85 + Min(n - 3, 3) * 3)
    else if n >= 4 && Alternates(recent[n - 4..]) then
      Verdict(ZigZagOf(4), Some(Opposite(recent[n - 1])), 75)
    else if n >= 3 && Alternates(recent[n - 3..]) then
      Verdict(ZigZagOf(3), Some(Opposite(recent[n - 1])), 65)
    else
      Verdict(NoZigZag, None, 0)
  }

  /** One run of the model from confidence `c`: fewer than five entries
      leave the confidence as it was. */
  function Run(h: seq<Outcome>, c: int): Verdict {
    if |h| < 5 then Verdict(InsufficientData, None, c) else Evaluate(h)
  }

  /** The confidence follows the length of the alternation: 94 for the last
      six, 91 when the whole five-entry history alternates, 75 for the last
      four, 65 for the last three only. */
  lemma ConfidenceByLength(h: seq<Outcome>)
    requires |h| >= 5
    ensures |h| >= 6 && Alternates(h[|h| - 6..]) ==> Evaluate(h) == Verdict(ZigZagOf(6), Some(Opposite(h[|h| - 1])), 94)
    ensures |h| == 5 && Alternates(h) ==> Evaluate(h) == Verdict(ZigZagOf(5), Some(Opposite(h[|h| - 1])), 91)
    ensures !Alternates(Recent(h)) && Alternates(h[|h| - 4..]) ==> Evaluate(h) == Verdict(ZigZagOf(4), Some(Opposite(h[|h| - 1])), 75)
    ensures !Alternates(h[|h| - 4..]) && Alternates(h[|h| - 3..]) ==> Evaluate(h) == Verdict(ZigZagOf(3), Some(Opposite(h[|h| - 1])), 65)
  {
    var recent := Recent(h);
    var n := |recent|;
    assert recent[n - 4..] == h[|h| - 4..];
    assert recent[n - 3..] == h[|h| - 3..];
    if !Alternates(h[|h| - 4..]) {
      // an alternation of the whole window would alternate at its end too
      assert !Alternates(recent) by {
        var k :| 0 < k < 4 && h[|h| - 4..][k] == h[|h| - 4..][k - 1];
        assert recent[n - 4 + k] == recent[n - 4 + k - 1];
      }
    }
  }

  /** The perfect-alternation flag of the model: true until two neighbours
      of the window match. */
  method IsZigZag(recent: seq<Outcome>) returns (zigzag: bool)
    ensures zigzag == Alternates(recent)
  {
    zigzag := true;
    var i := 1;
    while i < |recent|
      invariant 1 <= i <= Max(1, |recent|)
      invariant forall k :: 0 < k < i ==> recent[k] != recent[k - 1]
    {
      if recent[i] == recent[i - 1] {
        zigzag := false;
        break;
      }
      i := i + 1;
    }
  }

  class ZigZagModel {
    /** The store whose history the model reads. */
    const game: GameManager
    /** The confidence of the last prediction, 0 until one is made. */
    var confidence: int

    constructor(game: GameManager)
      ensures this.game == game && confidence == 0
    {
      this.game := game;
      confidence := 0;
    }

    function GetConfidence(): (c: int)
      reads this
      ensures c == confidence
    {
      confidence
    }

    /** Reports a status and a prediction and records the confidence; with
        fewer than five entries it reports "insufficient data" and leaves the
        confidence alone. */
    method Analyze() returns (status: Status, prediction: Option<Outcome>)
      modifies this
      ensures Verdict(status, prediction, confidence) == Run(game.history, old(confidence))
    {
      var history := game.GetHistory();
      if |history| < 5 {
        return InsufficientData, None;
      }
      var recent := if |history| >= 6 then history[|history| - 6..] else history;
      var zigzag := IsZigZag(recent);
      if zigzag && |recent| >= 3 {
        confidence := 85;
        confidence := confidence + Min(|recent| - 3, 3) * 3;
        return ZigZagOf(|recent|), Some(Opposite(recent[|recent| - 1]));
      }
      if |recent| >= 4 {
        var lastFour := recent[|recent| - 4..];
        if lastFour[0] != lastFour[1] && lastFour[1] != lastFour[2] && lastFour[2] != lastFour[3] {
          confidence := 75;
          return ZigZagOf(4), Some(Opposite(lastFour[3]));
        }
      }
      if |recent| >= 3 {
        var lastThree := recent[|recent| - 3..];
        if lastThree[0] != lastThree[1] && lastThree[1] != lastThree[2] {
          confidence := 65;
          return ZigZagOf(3), Some(Opposite(lastThree[2]));
        }
      }
      confidence := 0;
      return NoZigZag, None;
    }
  }
}
