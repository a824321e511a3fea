/** app/classifier/main.py: the classifier service. At startup it loads the
    "Champion" model of the registry; `/predict` scores with that model, or
    with a heuristic over the lower-cased text when none was loaded, and
    returns a `Prediction` for the incoming message.

    What the registry's `predict` returned is an outcome parameter: a
    Python value of one of the shapes the service distinguishes. */
module Classifier {
  import opened Wrappers
  import opened Text
  import opened Heuristics
  import opened Probability
  import opened Models

  const ChampionUri: string := "models:/bot_classifier/Champion"

  datatype RegistryModel = PyfuncModel(uri: string)

  /** A Python value returned by `model.predict(df)`. A string carries what
      `float()` makes of it (`None` when `float()` raises). An iterable is
      anything with `__iter__` other than a string (a list, an array). */
  datatype PyValue =
    | Number(f: PyFloat)
    | Str(s: string, asFloat: Option<PyFloat>)
    | Iterable(items: seq<PyValue>)
    | Opaque

  /** What `model.predict(df)` did: raised, or returned a value. */
  datatype PredictOutcome = PredictRaised | Returned(value: PyValue)

  /** Python's `float(v)`; `None` when it raises. */
  function AsFloat(v: PyValue): Option<PyFloat>
  {
    match v
    case Number(f) => Some(f)
    case Str(_, parsed) => parsed
    case Iterable(_) => None
    case Opaque => None
  }

  /** The float the service reads from a model result: the first element of
      an iterable, the value itself otherwise, as `predict` reads
      `prediction_result`. `None` when
      indexing or `float()` raises. */
  function ResultFloat(v: PyValue): (r: Option<PyFloat>)
    ensures v.Iterable? && v.items == [] ==> r == None
    ensures v.Iterable? && v.items != [] ==> r == AsFloat(v.items[0])
    ensures !v.Iterable? ==> r == AsFloat(v)
  {
    match v
    case Iterable(items) => if items == [] then None else AsFloat(items[0])
    case _ => AsFloat(v)
  }

  /** The model branch of `predict`: the clamped float, or
      0.5 when any step raised. */
  function ModelBranchProbability(outcome: PredictOutcome): (r: real)
    ensures 0.0 <= r <= 1.0
    ensures outcome.PredictRaised? ==> r == Fallback
    ensures outcome.Returned? && ResultFloat(outcome.value).None? ==> r == Fallback
    ensures outcome.Returned? && ResultFloat(outcome.value).Some? ==> r == ClampUnit(ResultFloat(outcome.value).value)
  {
    match outcome
    case PredictRaised => Fallback
    case Returned(v) =>
      match ResultFloat(v)
      case None => Fallback
      case Some(f) => ClampUnit(f)
  }

  /** A number in [0, 1] comes out unchanged, whether the model returned
      it bare, as the first element of a list, or as a numeric string. */
  lemma InRangeResultKept(x: real, rest: seq<PyValue>, s: string)
    requires 0.0 <= x <= 1.0
    ensures ModelBranchProbability(Returned(Number(Finite(x)))) == x
    ensures ModelBranchProbability(Returned(Iterable([Number(Finite(x))] + rest))) == x
    ensures ModelBranchProbability(Returned(Str(s, Some(Finite(x))))) == x
  {
    assert ([Number(Finite(x))] + rest)[0] == Number(Finite(x));
  }

  /** Every result `float()` cannot read falls back to exactly 0.5: an empty
      list (IndexError), a list whose first element is itself a list, a
      string that does not parse, a value of another kind (all raise
      inside the `try`), and the model call raising. */
  lemma UnreadableResultFallsBack(items: seq<PyValue>, rest: seq<PyValue>, s: string)
    ensures ModelBranchProbability(PredictRaised) == 0.5
    ensures ModelBranchProbability(Returned(Iterable([]))) == 0.5
    ensures ModelBranchProbability(Returned(Iterable([Iterable(items)] + rest))) == 0.5
    ensures ModelBranchProbability(Returned(Str(s, None))) == 0.5
    ensures ModelBranchProbability(Returned(Opaque)) == 0.5
  {
    assert ([Iterable(items)] + rest)[0] == Iterable(items);
  }

  /** Out-of-range numbers are cut to the nearest bound; NaN reads as 1.0. */
  lemma OutOfRangeResultClamped(x: real)
    ensures x < 0.0 ==> ModelBranchProbability(Returned(Number(Finite(x)))) == 0.0
    ensures x > 1.0 ==> ModelBranchProbability(Returned(Number(Finite(x)))) == 1.0
    ensures ModelBranchProbability(Returned(Number(NaN))) == 1.0
  {
  }

  class Service {
    var model: Option<RegistryModel>

    constructor ()
      ensures model == None
    {
      model := None;
    }

    /** `load_model`, run at startup: the registry's Champion model, or none
        when loading it raised. */
    method LoadModel(registryLoaded: bool)
      modifies this
      ensures model.Some? <==> registryLoaded
      ensures registryLoaded ==> model == Some(PyfuncModel(ChampionUri))
    {
      if registryLoaded {
        model := Some(PyfuncModel(ChampionUri));
      } else {
        model := None;
      }
    }

    /** `/health`: reports whether a model is loaded. */
    method ModelLoaded() returns (loaded: bool)
      ensures loaded <==> model.Some?
    {
      loaded := model != None;
    }

    /** `/predict`. */
    method Predict(msg: IncomingMessage, outcome: PredictOutcome, predictionId: Uuid) returns (p: Prediction)
      ensures p.id == predictionId
      ensures p.messageId == msg.id && p.dialogId == msg.dialogId
      ensures p.participantIndex == msg.participantIndex
      ensures model.None? ==> p.isBotProbability == Tenths(ClassifierScore(msg.text))
      ensures model.None? ==> p.isBotProbability in {0.5, 0.7, 0.8, 1.0}
      ensures model.Some? ==> p.isBotProbability == ModelBranchProbability(outcome)
      ensures 0.0 <= p.isBotProbability <= 1.0
    {
      var probability: real;
      if model == None {
        var text := Lower(msg.text);
        var score := Base;
        if |text| > 100 {
          score := score + 2;
        }
        if Contains(text, "http") {
          score := score + 3;
        }
        if IsUpper(text) && |text| > 20 {
          score := score + 2;
        }
        score := if score < Ceiling then score else Ceiling;
        ClassifierAdjustment(text);
        ClassifierScoreValues(msg.text);
        probability := Tenths(score);
      } else {
        match outcome
        case PredictRaised =>
          probability := Fallback;
        case Returned(v) =>
          var f := ResultFloat(v);
          match f
          case None =>
            probability := Fallback;
          case Some(x) =>
            probability := ClampUnit(x);
      }
      p := Prediction(predictionId, msg.id, msg.dialogId, msg.participantIndex, probability);
    }
  }
}
