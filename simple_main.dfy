/** simple_main.py: a service that loads a sequence classifier and its
    tokenizer from a local directory at startup and falls back to a
    heuristic (bonus rules only, upper clamp only) when none was loaded.

    The two module globals `model` and `tokenizer_global` are the fields of
    `Service`. What loading from disk did, and what running the model on
    a text returned, come in as outcomes: the transformers library is not
    part of this model. */
module SimpleMain {
  import opened Wrappers
  import opened Text
  import opened Heuristics
  import opened Probability

  const LocalModelPath: string := "/models/bot_classifier"

  datatype Model = SequenceClassifier(path: string)
  datatype Tokenizer = AutoTokenizer(path: string)

  /** What happened at startup: the directory was missing, loading the
      model raised, loading the tokenizer raised, or both loaded. */
  datatype LoadOutcome = PathMissing | ModelLoadRaised | TokenizerLoadRaised | Loaded

  /** What running the model on a text did: it raised, or it produced the
      bot-class probability `probabilities[0][1].item()`. */
  datatype InferenceOutcome = InferenceRaised | Inferred(probability: PyFloat)

  datatype PredictionOutput = PredictionOutput(isBotProbability: real, text: string)

  /** The probability the model branch reports: the clamped model output,
      or 0.5 when anything in the branch raised. */
  function ModelBranchProbability(inference: InferenceOutcome): (r: real)
    ensures 0.0 <= r <= 1.0
    ensures inference.InferenceRaised? ==> r == Fallback
    ensures inference.Inferred? ==> r == ClampUnit(inference.probability)
    ensures inference.Inferred? && inference.probability.Finite? ==>
      (0.0 <= inference.probability.x <= 1.0 ==> r == inference.probability.x)
  {
    match inference
    case InferenceRaised => Fallback
    case Inferred(p) => ClampUnit(p)
  }

  class Service {
    var model: Option<Model>
    var tokenizer: Option<Tokenizer>

    /** The model and the tokenizer are loaded together or not at all. */
    ghost predicate Valid()
      reads this
    {
      model.Some? <==> tokenizer.Some?
    }

    constructor ()
      ensures Valid() && model == None && tokenizer == None
    {
      model := None;
      tokenizer := None;
    }

    /** `load_model`, run at startup. */
    method LoadModel(outcome: LoadOutcome)
      modifies this
      ensures Valid()
      ensures outcome == Loaded ==>
        model == Some(SequenceClassifier(LocalModelPath)) && tokenizer == Some(AutoTokenizer(LocalModelPath))
      ensures outcome != Loaded ==> model == None && tokenizer == None
    {
      if outcome != PathMissing {
        if outcome == ModelLoadRaised {
          model := None;
          tokenizer := None;
        } else {
          model := Some(SequenceClassifier(LocalModelPath));
          if outcome == TokenizerLoadRaised {
            model := None;
            tokenizer := None;
          } else {
            tokenizer := Some(AutoTokenizer(LocalModelPath));
          }
        }
      } else {
        model := None;
        tokenizer := None;
      }
    }

    /** `/health` and `/`: whether a model is loaded. */
    method ModelLoaded() returns (loaded: bool)
      ensures loaded <==> model.Some?
    {
      loaded := model != None;
    }

    /** `/predict`: the heuristic when no model is loaded, the model
        otherwise; the text is echoed back. The model branch calls the
        tokenizer, which `Valid` guarantees was loaded with the model. */
    method Predict(text: string, inference: InferenceOutcome) returns (out: PredictionOutput)
      requires Valid()
      ensures out.text == text
      ensures model.None? ==> out.isBotProbability == Tenths(SimpleScore(text))
      ensures model.Some? ==> out.isBotProbability == ModelBranchProbability(inference)
      ensures 0.0 <= out.isBotProbability <= 1.0
      ensures model.None? ==> 0.5 <= out.isBotProbability
    {
      var probability: real;
      if model == None {
        var textLower := Lower(text);
        var p := Base;
        if |text| > 100 {
          p := p + 2;
        }
        if Contains(textLower, "http") || Contains(textLower, "www.") {
          p := p + 3;
        }
        if IsUpper(text) && |text| > 20 {
          p := p + 2;
        }
        var sales := AnyWordIn(SalesWords, textLower);
        if sales {
          p := p + 1;
        }
        p := if p < Ceiling then p else Ceiling;
        SimpleAdjustment(text);
        SimpleScoreRange(text);
        probability := Tenths(p);
      } else {
        match inference
        case InferenceRaised =>
          probability := Fallback;
        case Inferred(p) =>
          probability := ClampUnit(p);
      }
      out := PredictionOutput(probability, text);
    }
  }
}
