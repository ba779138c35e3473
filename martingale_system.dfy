/** The Martingale bankroll: a pending bet on 'P' or 'B' is settled against
    the next result; a win pays 1:1 on Player and 0.95:1 on Banker and
    restarts the doubling sequence, a loss costs the stake and doubles it,
    until the step limit restarts the sequence. */
module Martingale {
  import opened Outcomes

  function Pow2(n: nat): (r: nat)
    ensures r >= 1
  {
    if n == 0 then 1 else 2 * Pow2(n - 1)
  }

  /** The Banker payout `int(bet * 0.95)`: nineteen twentieths of the bet,
      truncated toward zero. */
  function BankerPayout(bet: int): (r: int)
    ensures bet >= 0 ==> 0 <= r <= bet && 20 * r <= 19 * bet < 20 * r + 20
    ensures bet < 0 ==> bet <= r <= 0 && 20 * r - 20 < 19 * bet <= 20 * r
  {
    if bet >= 0 then 19 * bet / 20 else -(19 * -bet / 20)
  }

  /** What a won bet of `bet` on `side` adds to the cash. */
  function Payout(side: Outcome, bet: int): (r: int)
    ensures side == P ==> r == bet
    ensures bet >= 0 ==> 0 <= r <= bet
    ensures bet >= 20 && side == B ==> r < bet
  {
    if side == P then bet else BankerPayout(bet)
  }

  /** The part of the bankroll a settlement changes. */
  datatype Stake = Stake(cash: int, nextBet: int, step: int)

  /** The doubling invariant: the bet at step k is the initial bet times
      2^(k-1), and the step never passes the limit (a limit below one
      behaves like one). */
  predicate Doubling(s: Stake, initialBet: int, maxSteps: int) {
    1 <= s.step <= Max(1, maxSteps) && s.nextBet == initialBet * Pow2(s.step - 1)
  }

  /** A won bet: the payout is added and the sequence restarts. */
  function AfterWin(s: Stake, side: Outcome, initialBet: int, maxSteps: int): (r: Stake)
    ensures r.cash - s.cash == Payout(side, s.nextBet)
    ensures Doubling(r, initialBet, maxSteps) && r.step == 1
  {
    Stake(s.cash + Payout(side, s.nextBet), initialBet, 1)
  }

  /** A lost bet: the stake is lost (the cash may go negative); the bet
      doubles below the step limit, and at the limit the sequence restarts. */
  function AfterLoss(s: Stake, initialBet: int, maxSteps: int): (r: Stake)
    ensures r.cash == s.cash - s.nextBet
    ensures Doubling(s, initialBet, maxSteps) ==> Doubling(r, initialBet, maxSteps)
    ensures s.step < maxSteps ==> r.nextBet == 2 * s.nextBet && r.step == s.step + 1
    ensures s.step >= maxSteps ==> r.step == 1 && r.nextBet == initialBet
  {
    if s.step < maxSteps then Stake(s.cash - s.nextBet, s.nextBet * 2, s.step + 1)
    else Stake(s.cash - s.nextBet, initialBet, 1)
  }

  /** The stake after k losses in a row. */
  function Losses(s: Stake, k: nat, initialBet: int, maxSteps: int): Stake {
    if k == 0 then s else AfterLoss(Losses(s, k - 1, initialBet, maxSteps), initialBet, maxSteps)
  }

  /** From a fresh sequence, k < maxSteps losses cost initialBet * (2^k - 1)
      and leave the bet at initialBet * 2^k on step k + 1. */
  lemma {:induction false} LossStreak(cash: int, initialBet: int, maxSteps: int, k: nat)
    requires k < maxSteps
    ensures Losses(Stake(cash, initialBet, 1), k, initialBet, maxSteps)
      == Stake(cash - initialBet * (Pow2(k) - 1), initialBet * Pow2(k), k + 1)
  {
    if k > 0 {
      LossStreak(cash, initialBet, maxSteps, k - 1);
      var x := Pow2(k - 1);
      var before := Losses(Stake(cash, initialBet, 1), k - 1, initialBet, maxSteps);
      assert before == Stake(cash - initialBet * (x - 1), initialBet * x, k);
      assert Pow2(k) == 2 * x;
      DoubleLessOne(initialBet, x);
      assert initialBet * x * 2 == initialBet * (2 * x);
    }
  }

  /** maxSteps losses in a row cost initialBet * (2^maxSteps - 1) and
      restart the sequence. */
  lemma FullLossCycleResets(cash: int, initialBet: int, maxSteps: nat)
    requires maxSteps >= 1
    ensures Losses(Stake(cash, initialBet, 1), maxSteps, initialBet, maxSteps)
      == Stake(cash - initialBet * (Pow2(maxSteps) - 1), initialBet, 1)
  {
    var start := Stake(cash, initialBet, 1);
    LossStreak(cash, initialBet, maxSteps, maxSteps - 1);
    var before := Losses(start, maxSteps - 1, initialBet, maxSteps);
    assert Losses(start, maxSteps, initialBet, maxSteps) == AfterLoss(before, initialBet, maxSteps);
    var x := Pow2(maxSteps - 1);
    assert Pow2(maxSteps) == 2 * x;
    calc {
      before.cash - before.nextBet;
      cash - initialBet * (x - 1) - initialBet * x;
      { DoubleLessOne(initialBet, x); }
      cash - initialBet * (Pow2(maxSteps) - 1);
    }
  }

  lemma DoubleLessOne(a: int, x: int)
    ensures a * (x - 1) + a * x == a * (2 * x - 1)
  {
    assert a * (x - 1) == a * x - a;
    assert a * (2 * x - 1) == 2 * (a * x) - a;
  }

  /** The Martingale promise on Player: a win after k < maxSteps losses
      recovers every loss and gains exactly the initial bet. */
  lemma WinRecoversLosses(cash: int, initialBet: int, maxSteps: int, k: nat)
    requires k < maxSteps
    ensures AfterWin(Losses(Stake(cash, initialBet, 1), k, initialBet, maxSteps), P, initialBet, maxSteps)
      == Stake(cash + initialBet, initialBet, 1)
  {
    LossStreak(cash, initialBet, maxSteps, k);
  }

  /** The bankroll status: cash, next bet, step, step limit and the pending
      prediction. */
  datatype BankrollStatus = BankrollStatus(cash: int, nextBet: int, currentStep: int, maxSteps: int, prediction: Option<Outcome>)

  class MartingaleSystem {
    const initialCash: int
    const initialBet: int
    const maxSteps: int
    var cash: int
    var nextBet: int
    var currentStep: int
    /** The text of the last settled result, as given. */
    var lastResult: Option<string>
    /** The pending bet, if one was placed since the last settlement. */
    var prediction: Option<Outcome>

    function StakeOf(): (s: Stake)
      reads this
      ensures s.cash == cash && s.nextBet == nextBet && s.step == currentStep
    {
      Stake(cash, nextBet, currentStep)
    }

    ghost predicate Valid()
      reads this
    {
      Doubling(StakeOf(), initialBet, maxSteps)
    }

    constructor(initialCash: int := 1000, initialBet: int := 2, maxSteps: int := 8)
      ensures this.initialCash == initialCash && this.initialBet == initialBet && this.maxSteps == maxSteps
      ensures cash == initialCash && nextBet == initialBet && currentStep == 1
      ensures lastResult == None && prediction == None
      ensures Valid()
    {
      this.initialCash := initialCash;
      this.initialBet := initialBet;
      this.maxSteps := maxSteps;
      cash := initialCash;
      nextBet := initialBet;
      currentStep := 1;
      lastResult := None;
      prediction := None;
    }

    method Reset()
      modifies this
      ensures cash == initialCash && nextBet == initialBet && currentStep == 1
      ensures lastResult == None && prediction == None
      ensures Valid()
    {
      cash := initialCash;
      nextBet := initialBet;
      currentStep := 1;
      lastResult := None;
      prediction := None;
    }

    /** Records a bet on "P" or "B"; any other text is ignored. No cash
        moves until the result is settled. */
    method PlaceBet(p: string)
      modifies this
      ensures Parse(p).Some? ==> prediction == Parse(p)
      ensures Parse(p).None? ==> prediction == old(prediction)
      ensures StakeOf() == old(StakeOf()) && lastResult == old(lastResult)
    {
      var o := Parse(p);
      if o.None? {
        return;
      }
      prediction := o;
    }

    /** Settles the pending bet against `result` and reports whether it won.
        Without a pending bet only the last result is recorded. Any text
        other than the predicted letter, even one that is not an outcome,
        counts as a loss. */
    method ProcessResult(result: string) returns (won: bool)
      modifies this
      ensures lastResult == Some(result) && prediction == None
      ensures old(prediction).None? ==> !won && StakeOf() == old(StakeOf())
      ensures old(prediction).Some? ==> won == (result == Symbol(old(prediction).value))
      ensures old(prediction).Some? && won ==> StakeOf() == AfterWin(old(StakeOf()), old(prediction).value, initialBet, maxSteps)
      ensures old(prediction).Some? && !won ==> StakeOf() == AfterLoss(old(StakeOf()), initialBet, maxSteps)
      ensures old(Valid()) ==> Valid()
    {
      lastResult := Some(result);
      if prediction.None? {
        return false;
      }
      var side := prediction.value;
      won := result == Symbol(side);
      if won {
        if side == P {
          cash := cash + nextBet;
        } else {
          cash := cash + BankerPayout(nextBet);
        }
        currentStep := 1;
        nextBet := initialBet;
      } else {
        cash := cash - nextBet;
        if currentStep < maxSteps {
          currentStep := currentStep + 1;
          nextBet := nextBet * 2;
        } else {
          currentStep := 1;
          nextBet := initialBet;
        }
      }
      var previous := prediction;
      prediction := None;
      won := won && Symbol(previous.value) == result;
    }

    function GetStatus(): (s: BankrollStatus)
      reads this
      ensures s.cash == cash && s.nextBet == nextBet && s.currentStep == currentStep
      ensures s.maxSteps == maxSteps && s.prediction == prediction
    {
      BankrollStatus(cash, nextBet, currentStep, maxSteps, prediction)
    }
  }
}
