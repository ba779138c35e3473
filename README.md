# Galaktik: a verified model of the Baccarat tracker core

Galaktik is a desktop tracker for Baccarat. Each game result is either
Player ('P') or Banker ('B'). This project models the deterministic core of
the tracker in Dafny:

- **History store** (`History.GameManager`). An append-only list of outcomes.
  It rejects any text other than "P" or "B". It exposes a copy of the list, a
  last-N view for display, and a one-pass statistics routine: counts, the
  longest run of each outcome, and the trailing run.
- **ZigZag model** (`ZigZag`). Looks for alternation in the last six, four or
  three entries. It predicts the opposite of the last entry, with confidence
  94/91, 75 or 65.
- **Galactic pattern model** (`GalacticPattern`). A prioritised chain of checks
  over the tail of the history:
  - a Fibonacci triple among run lengths (95);
  - two golden-ratio templates (92);
  - mirror symmetry (88);
  - 3- and 2-cycles (85);
  - near-balance over twelve entries (75);
  - momentum over five entries (70).

  It also keeps a sticky "metamorphosis" flag, which the two rarest checks
  raise.
- **Analysis engine** (`Analysis`). A registry from names to models. Once the
  store holds at least five entries, it runs every model. It takes the overall
  prediction from the model registered as "zigzag".
- **Martingale bankroll** (`Martingale`). An integer state machine over cash,
  next bet, step and pending prediction:
  - a win pays 1:1 on Player, or 0.95:1 (truncated) on Banker;
  - a loss costs the bet and doubles it up to the step limit, then restarts.
- **Button handler** (`Session`). Records a result, consults the engine, bets
  on the prediction and settles the bankroll.

Modelling choices:

- Outcomes are the datatype `Outcome = P | B`.
- Raw inputs stay `string`, so the rejection paths are modelled: `Parse`
  accepts exactly "P" and "B".
- Each model's status message is a constructor of `Status`.
- The abstract model base class is folded into the two model classes: its
  confidence starts at 0, and each class has a getter.
- Each loop of the source is a method proved against a specification function:
  - the statistics pass, the alternation flag and the run-length pass;
  - the template search, the symmetry check and the engine's model loop.

Behaviour of the code that a reader might not expect:

- **Aggregate prediction.** The overall prediction comes from the "zigzag"
  entry only; no maximum over the models' confidences is taken
  (modules/analysis_engine.py:47-51). When that entry has no prediction, the
  overall prediction becomes None and the confidence keeps its old value.
- **Golden templates.** The golden-ratio branch can never fire: both
  templates already pass the Fibonacci check, which runs first
  (modules/models/galactic_pattern_model.py:19, 58-72;
  `GalacticPattern.GoldenBranchUnreachable`).
- **Banker payout.** The payout is `int(bet * 0.95)`, which truncates toward
  zero (modules/martingale_system.py:61). For a non-negative bet this is
  the floor; the model truncates for either sign.
- **Symmetry prediction.** The symmetry check looks at the last eight
  entries, but the prediction indexes the midpoint of the whole history,
  not of that window (modules/models/galactic_pattern_model.py:77-81).

## Model

| member | source | states |
|---|---|---|
| Outcomes.Parse | modules/game_manager.py:23-24 | Exactly "P" and "B" are outcomes, and a parsed outcome prints back as the text it came from. |
| Outcomes.Opposite | modules/models/zigzag_model.py:54 | The predicted continuation of an alternation always differs from the last entry. |
| Outcomes.CountPartition | modules/game_manager.py:59-61 | Every entry is 'P' or 'B', so the two counts add up to the total. |
| History.GameManager.constructor | modules/game_manager.py:8-10 | A new store is empty. |
| History.GameManager.Reset | modules/game_manager.py:12-14 | Reset empties the history. |
| History.GameManager.AddResult | modules/game_manager.py:16-27 | Text other than "P"/"B" fails with the ValueError message and leaves the history unchanged. Otherwise exactly that outcome is appended and the new length is returned. |
| History.GameManager.GetHistory | modules/game_manager.py:29-31 | The copy equals the history element by element. It is a value, so it cannot alias the store. |
| History.SliceFrom | modules/game_manager.py:43 | Python's `s[start:]` for a start of either sign: a suffix of `s`, whose length is len - start (at least 0) for start >= 0 and min(len, -start) for start < 0. |
| History.GameManager.GetDisplayHistory | modules/game_manager.py:33-43 | The count defaults to 25. Returns the empty list for an empty history. For count >= 1 it returns the last min(count, length) entries in order. For count 0 it returns the whole history (`h[-0:]`). For count < 0 it returns the history without its first -count entries. |
| History.GameManager.GetStats | modules/game_manager.py:45-96 | Reports the total and the counts. For an empty history it reports all zeros and a streak of (None, 0). Each longest-streak field is the longest run of that outcome, or 0 if the outcome never occurs. The current streak has the last entry's outcome and is the maximal trailing run. |
| History.ScanRuns | modules/game_manager.py:63-85 | The one-pass loop yields, for each outcome, a run of exactly the reported length and none longer. Its final counter is the length of the maximal trailing run. |
| History.CurrentStreakWithinLongest | modules/game_manager.py:66-85 | The trailing run is at least 1 long and at most the longest run of its own outcome. |
| History.LongestRunUnique | modules/game_manager.py:63-85 | The history determines the longest-run figure uniquely. |
| ZigZag.IsZigZag | modules/models/zigzag_model.py:41-45 | The flag loop's result is true iff every two neighbouring entries of the window differ. |
| ZigZag.Evaluate | modules/models/zigzag_model.py:38-74 | On five or more entries there is a prediction iff the last three entries alternate. A prediction is the opposite of the last entry. No prediction means confidence 0 and status "no zigzag". Confidence is one of 94, 91, 75, 65, 0. |
| ZigZag.ConfidenceByLength | modules/models/zigzag_model.py:48-70 | Alternation of the last six gives 94; of a whole five-entry history, 91; of the last four only, 75; of the last three only, 65. Each predicts the opposite of the last entry. |
| ZigZag.ZigZagModel.constructor | modules/models/base_model.py:10-12 | A new model reads the given store and has confidence 0. |
| ZigZag.ZigZagModel.GetConfidence | modules/models/base_model.py:28-35 | Returns the stored confidence. |
| ZigZag.ZigZagModel.Analyze | modules/models/zigzag_model.py:19-74 | The reported status and prediction, and the new confidence, are those of Evaluate. With fewer than five entries it reports insufficient data and keeps the old confidence. |
| GalacticPattern.Scan | modules/models/galactic_pattern_model.py:116-124 | After any non-empty prefix of the run loop the open run is at least 1 long, and there are fewer closed runs than entries read. |
| GalacticPattern.ScanPartition | modules/models/galactic_pattern_model.py:116-124 | After any prefix of the run loop, the closed runs are positive, and closed runs plus the open run sum to the prefix length. |
| GalacticPattern.RunLengthsPartition | modules/models/galactic_pattern_model.py:116-124 | The run decomposition consists of positive lengths that sum to the window length. |
| GalacticPattern.RunsOf | modules/models/galactic_pattern_model.py:115-124 | The run loop computes exactly the run decomposition of the window. |
| GalacticPattern.CheckFibonacciPattern | modules/models/galactic_pattern_model.py:110-135 | True iff the window has at least 8 entries and at least three runs, and some three consecutive run lengths satisfy a + b == c. |
| GalacticPattern.FibonacciPrediction | modules/models/galactic_pattern_model.py:60-62 | The parity of 21 + 13 makes the Fibonacci branch always predict 'B'. |
| GalacticPattern.FirstGolden | modules/models/galactic_pattern_model.py:66-72 | Returns the index of a template contained in the window, and no earlier template is contained. None means no template from the start index on is contained. |
| GalacticPattern.FindGolden | modules/models/galactic_pattern_model.py:67-68 | The template loop finds exactly the first contained template. |
| GalacticPattern.CheckSymmetry | modules/models/galactic_pattern_model.py:137-159 | For windows of either parity, true iff the window equals its reverse. |
| GalacticPattern.SymmetryPrediction | modules/models/galactic_pattern_model.py:77-81 | The symmetry prediction repeats the mirror image of the entry at the midpoint of the whole history exactly when the length is even. For an odd length it is the opposite of the middle entry. |
| GalacticPattern.ThreeSlices | modules/models/galactic_pattern_model.py:168 | Three equal consecutive slices of length p hold iff the sequence repeats with period p. |
| GalacticPattern.CheckCycles | modules/models/galactic_pattern_model.py:161-178 | None below nine entries. A result exists iff the last nine entries have period 3 or the last six have period 2. The period is 3 exactly when the 3-cycle holds. The predicted entry is the one a period back. |
| GalacticPattern.BalancedInIntegers | modules/models/galactic_pattern_model.py:94 | The share test 0.45 <= p/n <= 0.55 is exactly 45n <= 100p <= 55n. |
| GalacticPattern.DetectTrend | modules/models/galactic_pattern_model.py:180-191 | Answers 'P' iff at least 60% of the window is 'P' (5p >= 3n). Answers 'B' iff that fails and at least 60% is 'B' (5(n - p) >= 3n). Otherwise there is no trend. |
| GalacticPattern.TrendIsMajority | modules/models/galactic_pattern_model.py:180-191 | On five entries the momentum check always answers, and it answers 'P' iff 'P' is the majority. |
| GalacticPattern.Classify | modules/models/galactic_pattern_model.py:57-108 | The chain gives no prediction iff the status is "no pattern" iff the confidence is 0. "No pattern" needs fewer than five entries or no trend. The flag is raised only at 95 or 92. Fibonacci predicts 'B'. Confidence is one of 95, 92, 88, 85, 75, 70, 0. |
| GalacticPattern.GoldenStage | modules/models/galactic_pattern_model.py:65-72 | The template stage raises the flag only at 92 and never reports Fibonacci. |
| GalacticPattern.SymmetryStage | modules/models/galactic_pattern_model.py:74-89 | Never raises the flag. Reports symmetry iff the last eight entries equal their reverse. A symmetric window predicts from the midpoint of the whole history: the entry before it for even lengths, the opposite of the middle entry for odd ones. Any other window falls through to the cycle stage. |
| GalacticPattern.CycleStage | modules/models/galactic_pattern_model.py:84-89 | Reports a cycle iff the cycle check finds one, with the period that check found. That period is 3 or 2, and the last three periods really repeat. The prediction is the entry one period back. The chain reaches this stage only when neither the Fibonacci nor the symmetry check fired (Classify, GoldenBranchUnreachable, and the fall-through clause of SymmetryStage). |
| GalacticPattern.TrendStage | modules/models/galactic_pattern_model.py:91-108 | Reports balance iff the P share of the last twelve lies in [0.45, 0.55]. Balance predicts 'B' when 'P' leads, else 'P'. Reports momentum iff not balanced, at least five entries, and the trend of the last five answers; the prediction is that answer. Otherwise no pattern. The flag is never raised. |
| GalacticPattern.CheckQuietPatterns | modules/models/galactic_pattern_model.py:74-108 | The symmetry, cycle, balance and momentum code computes the symmetry stage's verdict. |
| GalacticPattern.FirstTemplateRuns | modules/models/galactic_pattern_model.py:19 | The first template's runs are 1,1,2,1,3. |
| GalacticPattern.SecondTemplateRuns | modules/models/galactic_pattern_model.py:19 | The second template's runs are 1,2,1,3,1. |
| GalacticPattern.GoldenTemplatesAreFibonacci | modules/models/galactic_pattern_model.py:19 | Both golden templates pass the Fibonacci check. |
| GalacticPattern.GoldenBranchUnreachable | modules/models/galactic_pattern_model.py:58-72 | The chain never reports the golden-ratio status or confidence 92. Without a Fibonacci triple it goes straight to the symmetry stage. |
| GalacticPattern.TriggersIffFibonacci | modules/models/galactic_pattern_model.py:58-72 | The metamorphosis flag is raised iff the last eight entries pass the Fibonacci check. |
| GalacticPattern.AlwaysPredictsFromFive | modules/models/galactic_pattern_model.py:102-108 | With five or more entries the chain never reaches "no pattern". It always predicts, with confidence in {95, 88, 85, 75, 70}. |
| GalacticPattern.CycleComesFromCycleStage | modules/models/galactic_pattern_model.py:84-89 | Only the cycle stage reports a cycle. |
| GalacticPattern.PeriodicExtends | modules/models/galactic_pattern_model.py:170 | Appending the entry one period back keeps a periodic window periodic. |
| GalacticPattern.CycleStageContinues | modules/models/galactic_pattern_model.py:84-89 | The cycle stage's prediction continues its cycle. |
| GalacticPattern.CyclePredictionContinues | modules/models/galactic_pattern_model.py:84-89 | A cycle reported by the model is genuine, and the window followed by the prediction still repeats with that period. |
| GalacticPattern.GalacticPatternModel.constructor | modules/models/galactic_pattern_model.py:13-19 | A new model has confidence 0 and the flag lowered. |
| GalacticPattern.GalacticPatternModel.GetConfidence | modules/models/base_model.py:28-35 | Returns the stored confidence. |
| GalacticPattern.GalacticPatternModel.Analyze | modules/models/galactic_pattern_model.py:21-45 | Below eight entries it reports insufficient data and changes nothing. Otherwise it reports the chain's verdict, stores its confidence and ORs the chain's trigger into the flag. |
| GalacticPattern.GalacticPatternModel.CheckPatterns | modules/models/galactic_pattern_model.py:47-108 | The chain's verdict. The flag becomes its old value or the trigger, so it is never lowered here. |
| GalacticPattern.GalacticPatternModel.IsMetamorphosisTriggered | modules/models/galactic_pattern_model.py:193-195 | Returns the flag. |
| GalacticPattern.GalacticPatternModel.ResetMetamorphosis | modules/models/galactic_pattern_model.py:197-199 | Lowers the flag. |
| Analysis.StepIdempotent | modules/analysis_engine.py:35-43 | Running a model a second time over the same history yields the same verdict and state. A model registered under two names therefore reports the same under both, in any order. |
| Analysis.RunModel | modules/analysis_engine.py:36-37 | Running a registered model and reading its confidence gives one analysis step from its old state. |
| Analysis.AnalysisEngine.constructor | modules/analysis_engine.py:11-20 | A new engine has only a fresh ZigZag model over the same store, registered as "zigzag", with confidence 95 and no prediction. |
| Analysis.AnalysisEngine.RegisterModel | modules/analysis_engine.py:22-24 | Inserts or overwrites that name only and leaves the aggregate alone. |
| Analysis.AnalysisEngine.Analyze | modules/analysis_engine.py:26-53 | Below five entries: empty result, nothing changed. Otherwise one result per registered name, each the model's verdict with its new confidence. The aggregate is the "zigzag" prediction and confidence when it predicts. Else the prediction is None and the confidence is kept. |
| Analysis.AnalysisEngine.RunAll | modules/analysis_engine.py:35-43 | Every registered model is run once over its own store, and its verdict is collected under its name. |
| Analysis.RunEach | modules/analysis_engine.py:35-43 | The name-by-name loop yields, for every name, one analysis step from the model's state before the loop, even when names share a model. |
| Analysis.RunEntry | modules/analysis_engine.py:36-43 | Running one entry reaches its expected verdict and state. Other model objects and every history are left alone. |
| Analysis.AnalysisEngine.GetCurrentPrediction | modules/analysis_engine.py:55-57 | Returns the stored pair without recomputing it. |
| Martingale.BankerPayout | modules/martingale_system.py:61 | `int(bet * 0.95)`: nineteen twentieths of the bet, truncated toward zero, for either sign. |
| Martingale.Payout | modules/martingale_system.py:56-61 | Player pays the bet. A payout never exceeds a non-negative bet. Banker pays strictly less from a bet of 20 up. |
| Martingale.AfterWin | modules/martingale_system.py:56-65 | Cash grows by the payout. The sequence restarts at step 1 with the initial bet. |
| Martingale.AfterLoss | modules/martingale_system.py:66-77 | Cash drops by the bet, with no floor. Below the limit the bet doubles and the step increments. At the limit both restart. The doubling invariant is preserved. |
| Martingale.LossStreak | modules/martingale_system.py:66-77 | From a fresh sequence, k losses below the limit cost initialBet*(2^k - 1) and leave the bet at initialBet*2^k on step k+1. |
| Martingale.FullLossCycleResets | modules/martingale_system.py:71-77 | maxSteps losses in a row cost initialBet*(2^maxSteps - 1) and restart the sequence. |
| Martingale.WinRecoversLosses | modules/martingale_system.py:56-77 | A Player win after k losses below the limit recovers all of them and nets exactly the initial bet. |
| Martingale.MartingaleSystem.constructor | modules/martingale_system.py:8-13 | Keeps the three parameters, which default to 1000, 2 and 8. Cash, bet, step, last result and prediction start from them; the doubling invariant holds. |
| Martingale.MartingaleSystem.Reset | modules/martingale_system.py:15-21 | Restores the initial state; the doubling invariant holds. |
| Martingale.MartingaleSystem.PlaceBet | modules/martingale_system.py:23-34 | "P"/"B" becomes the pending prediction; any other text changes nothing; cash, bet and step never move. |
| Martingale.MartingaleSystem.ProcessResult | modules/martingale_system.py:36-83 | Records the result and clears the prediction. Without a pending bet it returns false and leaves the stake unchanged. Otherwise it returns won == (result is the predicted letter) and settles as AfterWin or AfterLoss. It preserves the doubling invariant. |
| Martingale.MartingaleSystem.GetStatus | modules/martingale_system.py:85-93 | A read-only snapshot of cash, bet, step, limit and prediction. |
| Session.PredictionAfterOutcome | modules/models/zigzag_model.py:54 | Once `o` is the last entry, a ZigZag prediction is the opposite of `o`, so its letter never equals `o`'s. |
| Session.AlternationBetLoses | modules/main_window.py:316-325 | After P, B, P, B, P the handler bets on B and settles it against P: a fresh bankroll of 1000 with bet 2 falls to 998 with the bet doubled to 4. |
| Session.SecondPassKeepsView | modules/main_window.py:370-371 | A second analysis pass straight after a first, over the same stores, leaves every model state, the overall prediction and the confidence as the first pass left them. |
| Session.Record | modules/main_window.py:312-313 | The result is appended or rejected as the store does it. The engine's models, their states and the overall prediction are left alone; on a rejected result the stores are too. |
| Session.AnalyzeView | modules/analysis_engine.py:26-53 | Below five entries the engine's view is unchanged. From five on, the models and stores stay, every model steps once from its old state, and the overall prediction and confidence are the "zigzag" step's when it predicts, else None and the old confidence. |
| Session.ConsultAndBet | modules/main_window.py:316-322 | One analysis pass as above, the stored prediction read back, and a bet placed on it when there is one. Without a prediction the pending bet stays. The stake and last result never move. |
| Session.Settle | modules/main_window.py:324-325 | Settles the bankroll as the bankroll does and leaves the engine's view unchanged. |
| Session.RecordOutcome | modules/main_window.py:305-325 | The handler as written. A rejected result changes nothing: store, engine, models and bankroll. Otherwise the result is appended; below five entries the engine and models are untouched, and from five on they are exactly one analysis pass further. Then the handler bets on the prediction and settles it against the same result. With the engine wired to the store, a placed bet is always on the opposite outcome and always settles as a loss. |
| Session.RecordOutcomeSettledFirst | modules/main_window.py:305-325 | The corrected order. A rejected result changes nothing. Otherwise the bet pending before the result is settled against it (win iff it named that outcome), the engine is one analysis pass further from five entries on and untouched below, and the new prediction is left pending for the next result. |

## Left out

- `GameManager.simulate` is not modelled: it draws from a random source.
- The percentage fields of the statistics record are not modelled: they use float division and rounding. `Stats` holds the integer fields only.
- Martingale.BankerPayout: computed exactly as 19*bet/20, truncated toward zero. The representation error of the float 0.95 is not modelled.
- The ratio tests of the Galactic model are modelled on exact rationals. For a window of at most twelve entries the float comparison against 0.45, 0.55 and 0.6 lands on the same side.
- The model's 0/1 copy of the history is not modelled: the Galactic model builds it and no check reads it.
- Status texts (Turkish messages and emoji) are `Status` constructors, not strings. The model's name and description strings are not modelled.
- Analysis.AnalysisEngine.Analyze: dictionary iteration order is not modelled. The engine runs the names in an arbitrary order. The results do not depend on it, by Analysis.StepIdempotent.
- Registering a model while an analysis runs is not modelled (Python would raise on dictionary mutation during iteration). The model has no such interleaving.
- The consciousness and reality-layer models are not part of this model: they depend on the wall clock, randomness, floats and Qt types, and the engine never registers them.
- The window, widgets, timers and styling are not modelled. Of the main window only the result handler is modelled.
- Session.RecordOutcome: the handler ends by refreshing the display (modules/main_window.py:328), and that refresh runs a second analysis pass once the store holds five entries (modules/main_window.py:370-371). The handler does not run that second pass. By Session.SecondPassKeepsView, a pass straight after a pass over the same stores leaves the engine's view as it was, so the stated end state is also the state after the refresh. The label updates the second pass feeds are display only.
- Martingale.MartingaleSystem.PlaceBet: the model keeps the parsed outcome. It does not keep the raw prediction text.
- Integers are unbounded, as in Python.

## Findings

| source | as written | input that shows it | evidently intended | confidence | as-written member | corrected member |
|---|---|---|---|---|---|---|
| modules/main_window.py:313-325 | The handler appends the result, re-analyses, places a bet on the new prediction, and then settles the pending bet against the result it has just recorded. With the default engine the prediction is the opposite of that result, so every placed bet loses. | Fresh store, engine and bankroll (cash 1000, bet 2, 8 steps). Press P, B, P, B, P. On the fifth press ZigZag predicts B, the bet on B is settled against P, and cash drops to 998 with the bet doubled to 4. | Settle the bet placed before the result against that result, then bet on the prediction for the next result. | high (not executed) | Session.RecordOutcome | Session.RecordOutcomeSettledFirst |
