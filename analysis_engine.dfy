/** The analysis engine: a registry of named prediction models over one
    history store, run together, whose overall prediction is taken from the
    model registered as "zigzag". */
module Analysis {
  import opened Outcomes
  import opened History
  import ZigZag
  import GalacticPattern

  /** The mutable part of a model: its confidence, and for the Galactic
      model its metamorphosis flag. */
  datatype ModelState =
    | ZigZagState(confidence: int)
    | GalacticState(confidence: int, metamorphosis: bool)

  /** One analysis of a model in state `s` over history `h`: the verdict it
      reports (with the confidence read back afterwards) and its new state. */
  function Step(h: seq<Outcome>, s: ModelState): (Verdict, ModelState) {
    match s
    case ZigZagState(c) =>
      var v := ZigZag.Run(h, c);
      (v, ZigZagState(v.confidence))
    case GalacticState(c, m) =>
      var (v, m') := GalacticPattern.Run(h, c, m);
      (v, GalacticState(v.confidence, m'))
  }

  /** Analysing twice in a row changes nothing the first analysis did not:
      the verdict and the state depend on the history (and on the flag only
      through a disjunction), so a model registered under two names reports
      the same verdict under both, whatever the order. */
  lemma StepIdempotent(h: seq<Outcome>, s: ModelState)
    ensures Step(h, Step(h, s).1) == Step(h, s)
  {
  }

  /** A registered model: one of the two model classes. */
  datatype AnalysisModel =
    | ZigZagEntry(zigzag: ZigZag.ZigZagModel)
    | GalacticEntry(galactic: GalacticPattern.GalacticPatternModel)
  {
    function Obj(): object {
      match this
      case ZigZagEntry(z) => z
      case GalacticEntry(g) => g
    }

    /** The store whose history the model reads. */
    function Game(): GameManager {
      match this
      case ZigZagEntry(z) => z.game
      case GalacticEntry(g) => g.game
    }

    function State(): ModelState
      reads Obj()
    {
      match this
      case ZigZagEntry(z) => ZigZagState(z.confidence)
      case GalacticEntry(g) => GalacticState(g.confidence, g.metamorphosisTriggered)
    }
  }

  /** Runs one registered model and reads back its confidence. */
  method RunModel(m: AnalysisModel) returns (v: Verdict)
    modifies m.Obj()
    ensures (v, m.State()) == Step(m.Game().history, old(m.State()))
  {
    match m
    case ZigZagEntry(z) =>
      var status, prediction := z.Analyze();
      v := Verdict(status, prediction, z.GetConfidence());
    case GalacticEntry(g) =>
      var status, prediction := g.Analyze();
      v := Verdict(status, prediction, g.GetConfidence());
  }

  /** The least history length the engine analyses. */
  const MinHistory: nat := 5

  /** The name of the model the overall prediction is taken from. */
  const Primary: string := "zigzag"

  class AnalysisEngine {
    const game: GameManager
    var models: map<string, AnalysisModel>
    /** The confidence of the overall prediction; 95 until a prediction
        is made. */
    var confidence: int
    var currentPrediction: Option<Outcome>

    /** The model objects, whose state an analysis changes. */
    function ModelObjects(): set<object>
      reads this
    {
      set n | n in models :: models[n].Obj()
    }

    /** A new engine has the ZigZag model, over the same store, registered
        as "zigzag" and nothing else. */
    constructor(game: GameManager)
      ensures this.game == game
      ensures models.Keys == {Primary} && models[Primary].ZigZagEntry?
      ensures models[Primary].Game() == game && fresh(models[Primary].Obj())
      ensures models[Primary].State() == ZigZagState(0)
      ensures confidence == 95 && currentPrediction == None
    {
      this.game := game;
      models := map[];
      confidence := 95;
      new;
      var zigzag := new ZigZag.ZigZagModel(game);
      RegisterModel(Primary, ZigZagEntry(zigzag));
      currentPrediction := None;
    }

    /** Registers a model under `name`, replacing any model of that name. */
    method RegisterModel(name: string, model: AnalysisModel)
      modifies this
      ensures models == old(models)[name := model]
      ensures confidence == old(confidence) && currentPrediction == old(currentPrediction)
    {
      models := models[name := model];
    }

    /** Runs every registered model once, when the store holds at least five
        entries, and takes the overall prediction from "zigzag": its
        prediction and confidence when it predicts, else no prediction and
        the confidence as it was. */
    method Analyze() returns (results: map<string, Verdict>)
      modifies this, ModelObjects()
      ensures models == old(models)
      ensures |game.history| < MinHistory ==> results == map[]
      ensures |game.history| < MinHistory ==> currentPrediction == old(currentPrediction) && confidence == old(confidence)
      ensures |game.history| < MinHistory ==> forall n :: n in models ==> models[n].State() == old(models[n].State())
      ensures |game.history| >= MinHistory ==> results.Keys == models.Keys
      ensures |game.history| >= MinHistory ==> forall n :: n in models ==>
        var s := Step(models[n].Game().history, old(models[n].State()));
        results[n] == s.0 && models[n].State() == s.1
      ensures |game.history| >= MinHistory && Primary in results && results[Primary].prediction.Some? ==>
        currentPrediction == results[Primary].prediction && confidence == results[Primary].confidence
      ensures |game.history| >= MinHistory && !(Primary in results && results[Primary].prediction.Some?) ==>
        currentPrediction == None && confidence == old(confidence)
    {
      results := map[];
      if |game.GetHistory()| < MinHistory {
        return;
      }
      NotAModel(models, game, this);
      results := RunAll();
      if Primary in results && results[Primary].prediction.Some? {
        currentPrediction := results[Primary].prediction;
        confidence := results[Primary].confidence;
      } else {
        currentPrediction := None;
      }
    }

    /** Runs every registered model once, over its own store. */
    method RunAll() returns (results: map<string, Verdict>)
      modifies ModelObjects()
      ensures results.Keys == models.Keys
      ensures forall n :: n in models ==>
        var s := Step(models[n].Game().history, old(models[n].State()));
        results[n] == s.0 && models[n].State() == s.1
    {
      results := RunEach(models);
    }

    /** Reads back the stored overall prediction and confidence. */
    function GetCurrentPrediction(): (r: (Option<Outcome>, int))
      reads this
      ensures r.0 == currentPrediction && r.1 == confidence
    {
      (currentPrediction, confidence)
    }
  }

  /** The loop of Analyze: runs the models one name at a time. A model
      object registered under several names is run once per name, which by
      StepIdempotent gives the same verdict each time. */
  method RunEach(models: map<string, AnalysisModel>) returns (results: map<string, Verdict>)
    modifies set n | n in models :: models[n].Obj()
    ensures results.Keys == models.Keys
    ensures forall n :: n in models ==>
      var s := Step(models[n].Game().history, old(models[n].State()));
      results[n] == s.0 && models[n].State() == s.1
  {
    ghost var hist, original, expected := Plan(models);
    results := map[];
    var pending := models.Keys;
    while pending != {}
      invariant forall n :: n in pending ==> n in models
      invariant forall n :: n in results <==> n in models && n !in pending
      invariant Progress(models, hist, original, expected)
      invariant forall n :: n in results ==> results[n] == expected[n].0 && models[n].State() == expected[n].1
      decreases pending
    {
      var name :| name in pending;
      var v := RunEntry(models, name, hist, original, expected);
      results := results[name := v];
      pending := pending - {name};
    }
  }

  /** What a run of every registered model should give: each model's
      history and state before the run, and one analysis step from there.
      Names sharing one model object share one expectation. */
  lemma Plan(models: map<string, AnalysisModel>)
    returns (hist: map<string, seq<Outcome>>, original: map<string, ModelState>, expected: map<string, (Verdict, ModelState)>)
    ensures Progress(models, hist, original, expected)
    ensures forall n :: n in models ==> original[n] == models[n].State()
    ensures forall n :: n in models ==> expected[n] == Step(hist[n], original[n])
    ensures forall n, m :: n in models && m in models && models[n] == models[m] ==> expected[n] == expected[m]
  {
    hist := map n | n in models :: models[n].Game().history;
    original := map n | n in models :: models[n].State();
    expected := map n | n in models :: Step(hist[n], original[n]);
  }

  /** Every model still reads the history it read at the start, and is in
      its original state or in the state its run is expected to leave. */
  ghost predicate Progress(models: map<string, AnalysisModel>, hist: map<string, seq<Outcome>>,
                           original: map<string, ModelState>, expected: map<string, (Verdict, ModelState)>)
    reads set n | n in models :: models[n].Obj()
    reads set n | n in models :: models[n].Game()
  {
    forall n :: n in models ==>
      && n in hist && n in original && n in expected
      && models[n].Game().history == hist[n]
      && (models[n].State() == original[n] || models[n].State() == expected[n].1)
  }

  /** Runs the model registered as `name`, whose run from its original state
      over its history is expected to give `expected[name]`: it reports that
      verdict and reaches that state, as does every entry with the same
      object; every other model and every history store is left alone. */
  method RunEntry(models: map<string, AnalysisModel>, name: string, ghost hist: map<string, seq<Outcome>>,
                  ghost original: map<string, ModelState>, ghost expected: map<string, (Verdict, ModelState)>)
    returns (v: Verdict)
    requires name in models && Progress(models, hist, original, expected)
    requires expected[name] == Step(hist[name], original[name])
    requires forall n :: n in models && models[n] == models[name] ==> expected[n] == expected[name]
    modifies models[name].Obj()
    ensures Progress(models, hist, original, expected)
    ensures v == expected[name].0
    ensures forall n :: n in models && models[n].Obj() != models[name].Obj() ==> models[n].State() == old(models[n].State())
    ensures forall n :: n in models && models[n].Obj() == models[name].Obj() ==> models[n] == models[name]
    ensures models[name].State() == expected[name].1
  {
    ghost var before := models[name].State();
    RunStep(hist[name], before, original[name]);
    v := RunModel(models[name]);
    forall n | n in models
      ensures models[n].Game().history == old(models[n].Game().history)
      ensures models[n].Obj() != models[name].Obj() ==> models[n].State() == old(models[n].State())
      ensures models[n].Obj() == models[name].Obj() ==> models[n] == models[name]
    {
      GameIsNotAModel(models[n], models[name]);
      var o := models[n].Obj();
      if o == models[name].Obj() {
        SameObjectSameEntry(models[n], models[name]);
      } else {
        assert old(allocated(o));
      }
    }
  }

  /** Two registered entries with the same object are the same entry. */
  lemma SameObjectSameEntry(a: AnalysisModel, b: AnalysisModel)
    requires a.Obj() == b.Obj()
    ensures a == b
  {
  }

  /** The registered objects are models, never a history store. */
  lemma GameIsNotAModel(a: AnalysisModel, b: AnalysisModel)
    ensures a.Game() as object != b.Obj()
  {
  }

  /** No registered object is the history store or the engine. */
  lemma NotAModel(models: map<string, AnalysisModel>, game: GameManager, engine: AnalysisEngine)
    ensures game !in set n | n in models :: models[n].Obj()
    ensures engine !in set n | n in models :: models[n].Obj()
  {
  }

  /** Running a model from its original state, or from the state its first
      run left, yields the same verdict and state. */
  lemma RunStep(h: seq<Outcome>, before: ModelState, original: ModelState)
    requires before == original || before == Step(h, original).1
    ensures Step(h, before) == Step(h, original)
  {
    StepIdempotent(h, original);
  }
}
