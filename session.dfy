/** One press of a result button: the result is recorded, the engine is
    consulted once the history is long enough, a bet may be placed on its
    prediction, and the bankroll settles against the result. */
module Session {
  import opened Outcomes
  import opened History
  import opened Analysis
  import opened Martingale
  import ZigZag

  /** The application's wiring: the engine reads the store the results go
      to, and its "zigzag" entry is a ZigZag model over that store. */
  predicate Wired(game: GameManager, engine: AnalysisEngine)
    reads engine
  {
    && engine.game == game
    && Primary in engine.models
    && engine.models[Primary].ZigZagEntry?
    && engine.models[Primary].Game() == game
  }

  /** The bankroll is neither the store nor a registered model. */
  lemma BankIsNotAModel(models: map<string, AnalysisModel>, bank: MartingaleSystem)
    ensures bank !in set n | n in models :: models[n].Obj()
  {
  }

  /** The bankroll is not the store of any registered model. */
  lemma BankIsNotAStore(models: map<string, AnalysisModel>, bank: MartingaleSystem)
    ensures bank as object !in set n | n in models :: models[n].Game() as object
  {
  }

  /** An update that leaves the engine, every registered model and every
      model's store alone leaves the engine's view unchanged. */
  twostate lemma ViewKept(engine: AnalysisEngine)
    requires unchanged(engine)
    requires forall n :: n in engine.models ==> unchanged(engine.models[n].Obj()) && unchanged(engine.models[n].Game())
    ensures ViewOf(engine) == old(ViewOf(engine))
  {
  }

  /** No store of a registered model is itself a registered model. */
  lemma StoresAreNotModels(models: map<string, AnalysisModel>)
    ensures forall n, m :: n in models && m in models ==> models[n].Game() as object != models[m].Obj()
  {
    forall n, m | n in models && m in models {
      GameIsNotAModel(models[n], models[m]);
    }
  }

  lemma ParseSymbol(o: Outcome)
    ensures Parse(Symbol(o)) == Some(o)
  {
  }

  /** A ZigZag prediction made once `o` is the last entry is always the
      opposite of `o`, so it never names `o`. */
  lemma PredictionAfterOutcome(h: seq<Outcome>, s: ModelState, o: Outcome)
    requires |h| >= 5 && h[|h| - 1] == o && s.ZigZagState?
    ensures Step(h, s).0.prediction.Some? ==> Step(h, s).0.prediction.value == Opposite(o)
    ensures Step(h, s).0.prediction.Some? ==> Symbol(Step(h, s).0.prediction.value) != Symbol(o)
  {
  }

  /** The discrepancy on a concrete history: after P, B, P, B, P the ZigZag
      model predicts B, a bet on B settled against the P just recorded loses,
      and a fresh bankroll (1000, bet 2, 8 steps) drops to 998 with the bet
      doubled. */
  lemma AlternationBetLoses()
    ensures Step([P, B, P, B, P], ZigZagState(0)).0.prediction == Some(B)
    ensures Symbol(B) != "P"
    ensures AfterLoss(Stake(1000, 2, 1), 2, 8) == Stake(998, 4, 2)
  {
    ZigZag.ConfidenceByLength([P, B, P, B, P]);
  }

  /** The state of every registered model. */
  function States(models: map<string, AnalysisModel>): (r: map<string, ModelState>)
    reads set n | n in models :: models[n].Obj()
    ensures r.Keys == models.Keys
  {
    map n | n in models :: models[n].State()
  }

  /** The model states, from the state of each model. */
  lemma StatesAre(models: map<string, AnalysisModel>, states: map<string, ModelState>)
    requires states.Keys == models.Keys
    requires forall n :: n in models ==> models[n].State() == states[n]
    ensures States(models) == states
  {
  }

  /** An update that leaves every store alone keeps the store contents. */
  twostate lemma HistoriesKept(models: map<string, AnalysisModel>)
    requires forall n :: n in models ==> unchanged(models[n].Game())
    ensures Histories(models) == old(Histories(models))
  {
  }

  /** The store contents every registered model reads. */
  function Histories(models: map<string, AnalysisModel>): (r: map<string, seq<Outcome>>)
    reads set n | n in models :: models[n].Game()
    ensures r.Keys == models.Keys
  {
    map n | n in models :: models[n].Game().history
  }

  /** What can be observed of the engine: its registered models, the state
      of each, the store contents each reads, and the overall prediction and
      confidence. */
  datatype View = View(
    models: map<string, AnalysisModel>,
    states: map<string, ModelState>,
    hists: map<string, seq<Outcome>>,
    prediction: Option<Outcome>,
    confidence: int)

  ghost function ViewOf(engine: AnalysisEngine): (v: View)
    reads engine, engine.ModelObjects(), set n | n in engine.models :: engine.models[n].Game()
    ensures v.models == engine.models && v.prediction == engine.currentPrediction && v.confidence == engine.confidence
    ensures v.states.Keys == v.hists.Keys == engine.models.Keys
  {
    View(engine.models, States(engine.models), Histories(engine.models), engine.currentPrediction, engine.confidence)
  }

  /** One analysis pass over stores `hists`, from model states `before` and
      confidence `c0`, ends in model states `after` and overall prediction
      and confidence `prediction`, `confidence`: every model took one step
      over its own store, and the overall prediction is the "zigzag"
      model's when it predicts; otherwise there is none and the confidence
      stays `c0`. */
  predicate StepsFrom(hists: map<string, seq<Outcome>>, before: map<string, ModelState>, after: map<string, ModelState>,
                      prediction: Option<Outcome>, confidence: int, c0: int)
  {
    && before.Keys == hists.Keys && after.Keys == hists.Keys
    && (forall n :: n in hists ==> after[n] == Step(hists[n], before[n]).1)
    && (if Primary in hists && Step(hists[Primary], before[Primary]).0.prediction.Some?
        then
          && prediction == Step(hists[Primary], before[Primary]).0.prediction
          && confidence == Step(hists[Primary], before[Primary]).0.confidence
        else
          prediction == None && confidence == c0)
  }

  /** `v1` is the engine after one analysis pass from `v0`: the same models
      over the same stores, each stepped once. */
  predicate Analysed(v0: View, v1: View)
  {
    && v1.models == v0.models && v1.hists == v0.hists
    && StepsFrom(v1.hists, v0.states, v1.states, v1.prediction, v1.confidence, v0.confidence)
  }

  /** `v1` differs from `v0` at most in the store contents. */
  predicate Untouched(v0: View, v1: View)
  {
    v1 == v0.(hists := v1.hists)
  }

  /** A second analysis pass straight after a first, over the same stores,
      changes nothing: every model repeats its state, and the overall
      prediction and confidence come out the same. */
  lemma SecondPassKeepsView(v0: View, v1: View, v2: View)
    requires Analysed(v0, v1) && Analysed(v1, v2)
    ensures v2 == v1
  {
    forall n | n in v1.hists
      ensures v2.states[n] == v1.states[n]
    {
      StepIdempotent(v1.hists[n], v0.states[n]);
    }
    if Primary in v1.hists {
      StepIdempotent(v1.hists[Primary], v0.states[Primary]);
    }
  }

  /** Records `result` in the store; the engine and its models are left
      alone, and on a rejected result so are the stores. */
  method Record(game: GameManager, result: string, ghost engine: AnalysisEngine) returns (r: Result<nat>)
    modifies game
    ensures Parse(result).None? ==> r == Failure(InvalidOutcomeMessage) && game.history == old(game.history)
    ensures Parse(result).Some? ==> r == Success(|game.history|) && game.history == old(game.history) + [Parse(result).value]
    ensures Untouched(old(ViewOf(engine)), ViewOf(engine))
    ensures Parse(result).None? ==> ViewOf(engine) == old(ViewOf(engine))
  {
    NotAModel(engine.models, game, engine);
    assert forall n :: n in engine.models ==> allocated(engine.models[n].Obj()) && allocated(engine.models[n].Game());
    r := game.AddResult(result);
  }

  /** An analysis pass, seen through the engine's view: nothing changes
      below five entries in the engine's store; from five on every model
      steps once and the overall prediction is taken from "zigzag". */
  method AnalyzeView(engine: AnalysisEngine)
    modifies engine, engine.ModelObjects()
    ensures |engine.game.history| == |old(engine.game.history)|
    ensures |engine.game.history| < MinHistory ==> ViewOf(engine) == old(ViewOf(engine))
    ensures |engine.game.history| >= MinHistory ==> Analysed(old(ViewOf(engine)), ViewOf(engine))
  {
    ghost var v0 := ViewOf(engine);
    NotAModel(engine.models, engine.game, engine);
    StoresAreNotModels(engine.models);
    assert forall n :: n in engine.models ==> allocated(engine.models[n].Obj()) && allocated(engine.models[n].Game());
    label Run:
    var _ := engine.Analyze();
    HistoriesKept@Run(engine.models);
    if |engine.game.history| < MinHistory {
      StatesAre(engine.models, v0.states);
    } else {
      StatesAre(engine.models, map n | n in v0.hists :: Step(v0.hists[n], v0.states[n]).1);
    }
  }

  /** The analysis step of the handler: an analysis pass, the stored
      overall prediction read back, and a bet placed on it when there is
      one. */
  method ConsultAndBet(engine: AnalysisEngine, bank: MartingaleSystem) returns (prediction: Option<Outcome>)
    modifies engine, engine.ModelObjects(), bank
    ensures |engine.game.history| == |old(engine.game.history)|
    ensures |engine.game.history| < MinHistory ==> ViewOf(engine) == old(ViewOf(engine))
    ensures |engine.game.history| >= MinHistory ==> Analysed(old(ViewOf(engine)), ViewOf(engine))
    ensures prediction == engine.currentPrediction
    ensures prediction.Some? ==> bank.prediction == prediction
    ensures prediction.None? ==> bank.prediction == old(bank.prediction)
    ensures bank.StakeOf() == old(bank.StakeOf()) && bank.lastResult == old(bank.lastResult)
  {
    NotAModel(engine.models, engine.game, engine);
    BankIsNotAModel(engine.models, bank);
    BankIsNotAStore(engine.models, bank);
    AnalyzeView(engine);
    ghost var v1 := ViewOf(engine);
    prediction := engine.GetCurrentPrediction().0;
    if prediction.Some? {
      ParseSymbol(prediction.value);
      assert forall n :: n in engine.models ==> allocated(engine.models[n].Obj()) && allocated(engine.models[n].Game());
      label Bet:
      bank.PlaceBet(Symbol(prediction.value));
      ViewKept@Bet(engine);
    }
    assert ViewOf(engine) == v1;
  }

  /** Settles the bankroll against `result`; the engine is left alone. */
  method Settle(bank: MartingaleSystem, result: string, ghost engine: AnalysisEngine)
    modifies bank
    ensures bank.lastResult == Some(result) && bank.prediction == None
    ensures old(bank.prediction).None? ==> bank.StakeOf() == old(bank.StakeOf())
    ensures old(bank.prediction).Some? && result == Symbol(old(bank.prediction).value) ==>
      bank.StakeOf() == AfterWin(old(bank.StakeOf()), old(bank.prediction).value, bank.initialBet, bank.maxSteps)
    ensures old(bank.prediction).Some? && result != Symbol(old(bank.prediction).value) ==>
      bank.StakeOf() == AfterLoss(old(bank.StakeOf()), bank.initialBet, bank.maxSteps)
    ensures ViewOf(engine) == old(ViewOf(engine))
  {
    BankIsNotAModel(engine.models, bank);
    BankIsNotAStore(engine.models, bank);
    assert forall n :: n in engine.models ==> allocated(engine.models[n].Obj()) && allocated(engine.models[n].Game());
    label Before:
    var _ := bank.ProcessResult(result);
    ViewKept@Before(engine);
  }

  /** The button handler as the application writes it: record the result;
      with at least five entries analyse and bet on the prediction; then
      settle the bankroll against the result just recorded. `bet` is the
      prediction that settlement uses: the one just placed, else whatever
      was pending. The bet is placed after the result is known and is
      settled against that same result, so when the engine is wired to the
      store it always loses. */
  method RecordOutcome(game: GameManager, engine: AnalysisEngine, bank: MartingaleSystem, result: string)
    returns (r: Result<nat>, ghost bet: Option<Outcome>)
    modifies game, engine, engine.ModelObjects(), bank
    ensures Parse(result).None? ==> r == Failure(InvalidOutcomeMessage) && game.history == old(game.history)
    ensures Parse(result).None? ==> ViewOf(engine) == old(ViewOf(engine))
    ensures Parse(result).None? ==>
      bank.StakeOf() == old(bank.StakeOf()) && bank.prediction == old(bank.prediction) && bank.lastResult == old(bank.lastResult)
    ensures Parse(result).Some? ==> r == Success(|game.history|) && game.history == old(game.history) + [Parse(result).value]
    ensures Parse(result).Some? && (|game.history| < MinHistory || |engine.game.history| < MinHistory) ==>
      Untouched(old(ViewOf(engine)), ViewOf(engine))
    ensures Parse(result).Some? && |game.history| >= MinHistory && |engine.game.history| >= MinHistory ==>
      Analysed(old(ViewOf(engine)).(hists := ViewOf(engine).hists), ViewOf(engine))
    ensures Parse(result).Some? ==> bank.lastResult == Some(result) && bank.prediction == None
    ensures Parse(result).Some? ==> bet == (if |game.history| >= MinHistory && engine.currentPrediction.Some?
      then engine.currentPrediction else old(bank.prediction))
    ensures Parse(result).Some? && bet.None? ==> bank.StakeOf() == old(bank.StakeOf())
    ensures Parse(result).Some? && bet.Some? && result == Symbol(bet.value) ==>
      bank.StakeOf() == AfterWin(old(bank.StakeOf()), bet.value, bank.initialBet, bank.maxSteps)
    ensures Parse(result).Some? && bet.Some? && result != Symbol(bet.value) ==>
      bank.StakeOf() == AfterLoss(old(bank.StakeOf()), bank.initialBet, bank.maxSteps)
    ensures Parse(result).Some? && old(Wired(game, engine)) && |game.history| >= MinHistory && engine.currentPrediction.Some? ==>
      bet == Some(Opposite(Parse(result).value)) && bank.StakeOf() == AfterLoss(old(bank.StakeOf()), bank.initialBet, bank.maxSteps)
  {
    ghost var v0 := ViewOf(engine);
    NotAModel(engine.models, game, engine);
    bet := bank.prediction;
    r := Record(game, result, engine);
    if r.Failure? {
      return;
    }
    ghost var o := Parse(result).value;
    ghost var v1 := ViewOf(engine);
    if |game.GetHistory()| >= MinHistory {
      ghost var wired := Wired(game, engine);
      var prediction := ConsultAndBet(engine, bank);
      if wired {
        PredictionAfterOutcome(game.history, v0.states[Primary], o);
      }
      if prediction.Some? {
        bet := prediction;
      }
    }
    ghost var v2 := ViewOf(engine);
    assert v2.hists == v1.hists && v1 == v0.(hists := v1.hists);
    Settle(bank, result, engine);
    assert ViewOf(engine) == v2;
  }

  /** The handler with the evidently intended order: the pending bet, placed
      before the result was known, is settled against it first; then the
      engine is consulted and a bet on its prediction is left pending for
      the next result. */
  method RecordOutcomeSettledFirst(game: GameManager, engine: AnalysisEngine, bank: MartingaleSystem, result: string)
    returns (r: Result<nat>)
    modifies game, engine, engine.ModelObjects(), bank
    ensures Parse(result).None? ==> r == Failure(InvalidOutcomeMessage) && game.history == old(game.history)
    ensures Parse(result).None? ==> ViewOf(engine) == old(ViewOf(engine))
    ensures Parse(result).None? ==>
      bank.StakeOf() == old(bank.StakeOf()) && bank.prediction == old(bank.prediction) && bank.lastResult == old(bank.lastResult)
    ensures Parse(result).Some? ==> r == Success(|game.history|) && game.history == old(game.history) + [Parse(result).value]
    ensures Parse(result).Some? && (|game.history| < MinHistory || |engine.game.history| < MinHistory) ==>
      Untouched(old(ViewOf(engine)), ViewOf(engine))
    ensures Parse(result).Some? && |game.history| >= MinHistory && |engine.game.history| >= MinHistory ==>
      Analysed(old(ViewOf(engine)).(hists := ViewOf(engine).hists), ViewOf(engine))
    ensures Parse(result).Some? ==> bank.lastResult == Some(result)
    ensures Parse(result).Some? && old(bank.prediction).None? ==> bank.StakeOf() == old(bank.StakeOf())
    ensures Parse(result).Some? && old(bank.prediction) == Some(Parse(result).value) ==>
      bank.StakeOf() == AfterWin(old(bank.StakeOf()), Parse(result).value, bank.initialBet, bank.maxSteps)
    ensures Parse(result).Some? && old(bank.prediction).Some? && old(bank.prediction) != Some(Parse(result).value) ==>
      bank.StakeOf() == AfterLoss(old(bank.StakeOf()), bank.initialBet, bank.maxSteps)
    ensures Parse(result).Some? && |game.history| >= MinHistory && engine.currentPrediction.Some? ==>
      bank.prediction == engine.currentPrediction
    ensures Parse(result).Some? && !(|game.history| >= MinHistory && engine.currentPrediction.Some?) ==>
      bank.prediction == None
  {
    NotAModel(engine.models, game, engine);
    r := Record(game, result, engine);
    if r.Failure? {
      return;
    }
    if bank.prediction.Some? {
      ParseSymbol(bank.prediction.value);
    }
    Settle(bank, result, engine);
    if |game.GetHistory()| >= MinHistory {
      var _ := ConsultAndBet(engine, bank);
    }
  }
}
