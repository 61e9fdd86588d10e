/**
  The back end's secondary classifier wrapper: a holder for a loaded model and
  its class names, a prediction routine with two fixed fallback results, and
  the breed-name formatter. Loading and running the network are inputs.
 */
module ModelHandler {
  import opened Shared
  import opened Text

  /** The only model the wrapper loads. */
  datatype Model = MobileNetV2

  /** What loading produced: the model and the class names, or the text of what was raised. */
  datatype LoadOutcome = Loaded(model: Model, classNames: seq<string>) | LoadFailed(text: string)

  /** One decoded prediction: class id, class name and score, as the decoder returns them. */
  datatype Decoded = Decoded(classId: string, name: string, score: real)

  /** What running the model and decoding its top three produced, or the text of what was raised. */
  datatype PredictOutcome = Decodes(top: seq<Decoded>) | PredictRaised(text: string)

  const ModelPath := "model"
  const NotLoaded := BreedScore("Model not loaded", 0.0)
  const PredictionFailed := BreedScore("Error during prediction", 0.0)

  /** `name.replace('_', ' ').title()`. */
  function FormatBreedName(name: string): (r: string)
    ensures |r| == |name|
    ensures '_' !in r
    ensures IsTitleCased(r)
  {
    var spaced := Replace(name, '_', ' ');
    TitleSpec(spaced);
    TitleIsTitleCased(spaced);
    Title(spaced)
  }

  /** A breed name is formatted exactly like its title-casing with spaces for underscores, position by position. */
  lemma {:induction false} FormatBreedNameAt(name: string, i: nat)
    requires i < |name|
    ensures FormatBreedName(name)[i] == TitleCharAt(Replace(name, '_', ' '), i)
  {
    TitleSpec(Replace(name, '_', ' '));
  }

  /** Formatting a formatted name changes nothing. */
  lemma {:induction false} FormatBreedNameIdempotent(name: string)
    ensures FormatBreedName(FormatBreedName(name)) == FormatBreedName(name)
  {
    var once := FormatBreedName(name);
    assert Replace(once, '_', ' ') == once;
    TitleIdempotent(Replace(name, '_', ' '));
  }

  class DogBreedClassifier {
    var model: Option<Model>
    var classNames: seq<string>
    var modelPath: string

    /** `__init__`: empty fields, then a load attempt. */
    constructor (load: LoadOutcome)
      ensures modelPath == ModelPath
      ensures load.Loaded? ==> model == Some(load.model) && classNames == load.classNames
      ensures load.LoadFailed? ==> model == None && classNames == []
    {
      model := None;
      classNames := [];
      modelPath := ModelPath;
      new;
      LoadModel(load);
    }

    /** `load_model`: any failure leaves no model and no class names, whatever was assigned before it. */
    method LoadModel(load: LoadOutcome)
      modifies this
      ensures modelPath == old(modelPath)
      ensures load.Loaded? ==> model == Some(load.model) && classNames == load.classNames
      ensures load.LoadFailed? ==> model == None && classNames == []
    {
      match load
      case Loaded(m, names) =>
        model := Some(m);
        classNames := names;
      case LoadFailed(_) =>
        model := None;
        classNames := [];
    }

    /**
      `predict`: with no model, and when the model raises, one fixed entry;
      otherwise one entry per decoded prediction, in order, with the name
      formatted and the score copied as it is (no rescaling to percent).
     */
    method Predict(outcome: PredictOutcome) returns (r: seq<BreedScore>)
      ensures model.None? ==> r == [NotLoaded]
      ensures model.Some? && outcome.PredictRaised? ==> r == [PredictionFailed]
      ensures model.Some? && outcome.Decodes? ==>
        |r| == |outcome.top|
        && forall k :: 0 <= k < |r| ==>
             r[k] == BreedScore(FormatBreedName(outcome.top[k].name), outcome.top[k].score)
    {
      if model.None? {
        return [NotLoaded];
      }
      match outcome
      case PredictRaised(_) =>
        r := [PredictionFailed];
      case Decodes(top) =>
        r := seq(|top|, k requires 0 <= k < |top| => BreedScore(FormatBreedName(top[k].name), top[k].score));
    }
  }
}
