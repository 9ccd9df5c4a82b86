/**
 * src/predict.py: the preprocessor and the classifier wrapper, which take
 * their objects from the artifact store, and the `prediction` pipeline, which
 * runs them and the LLM in a fixed order and reports every failure as
 * PredictionError.
 */
module Predict {
  import opened Wrappers
  import opened Exceptions
  import opened Strings
  import opened ModelStore
  import opened Llm

  /** A two-dimensional numpy array of floats, row by row. */
  type Matrix = seq<seq<real>>

  /** The fitted objects' methods (`scaler.transform`, `model.predict_proba`)
      and numpy's `str` of an array, which the result f-string applies. */
  datatype Numerics = Numerics(
    transform: (Artifact, Matrix) -> Result<Matrix, Exn>,
    predictProba: (Artifact, Matrix) -> Result<Matrix, Exn>,
    render: Matrix -> string)

  const ScalerLoadMessage: string := "Could not load the scaler for data preprocessing."
  const PreprocessMessage: string := "Preprocessing failed. Ensure input data format is correct."
  const ModelLoadMessage: string := "Could not load ML model. Please check model path and format."
  const PredictMessage: string := "Prediction failed. Ensure input data format is correct."
  const PipelineMessage: string := "Prediction function encountered an error. Check inputs and model paths."

  // ---------------------------------------------------------------------------
  // DataPreprocessor and ML_Model_Predictor
  // ---------------------------------------------------------------------------

  /** What `preprocess(input_data)` returns or raises: the scaler is given one
      row holding the inputs in order, and its failure becomes PreprocessingError. */
  function PreprocessResult(num: Numerics, scaler: Artifact, inputData: seq<real>): (r: Result<Matrix, Exn>)
    ensures r.Success? <==> num.transform(scaler, [inputData]).Success?
    ensures r.Success? ==> r.value == num.transform(scaler, [inputData]).value
    ensures r.Failure? ==> r.error == PreprocessingError(PreprocessMessage, Some(num.transform(scaler, [inputData]).error))
  {
    match num.transform(scaler, [inputData])
    case Success(scaled) => Success(scaled)
    case Failure(e) => Failure(PreprocessingError(PreprocessMessage, Some(e)))
  }

  /** What `predict(preprocessed_data)` returns or raises: the classifier's
      probabilities unchanged, or PredictionError. */
  function PredictResult(num: Numerics, model: Artifact, preprocessed: Matrix): (r: Result<Matrix, Exn>)
    ensures r.Success? <==> num.predictProba(model, preprocessed).Success?
    ensures r.Success? ==> r.value == num.predictProba(model, preprocessed).value
    ensures r.Failure? ==> r.error == PredictionError(PredictMessage, Some(num.predictProba(model, preprocessed).error))
  {
    match num.predictProba(model, preprocessed)
    case Success(probabilities) => Success(probabilities)
    case Failure(e) => Failure(PredictionError(PredictMessage, Some(e)))
  }

  class DataPreprocessor {
    /** `self.scaler`. */
    const scaler: Artifact

    constructor (scaler: Artifact)
      ensures this.scaler == scaler
    {
      this.scaler := scaler;
    }

    /** `DataPreprocessor()`: takes the store's "scaler" slot, or raises
        ModelLoadingError (with no cause: that raise has no `from`). */
    static method Create(store: Models) returns (r: Result<DataPreprocessor, Exn>)
      ensures r.Success? <==> ScalerKey in store.slots
      ensures r.Success? ==> fresh(r.value) && r.value.scaler == store.slots[ScalerKey]
      ensures r.Failure? ==> r.error == ModelLoadingError(ScalerLoadMessage, None)
    {
      if ScalerKey !in store.slots {
        return Failure(ModelLoadingError(ScalerLoadMessage, None));
      }
      var preprocessor := new DataPreprocessor(store.slots[ScalerKey]);
      r := Success(preprocessor);
    }

    method Preprocess(num: Numerics, inputData: seq<real>) returns (r: Result<Matrix, Exn>)
      ensures r == PreprocessResult(num, scaler, inputData)
    {
      var scaledData := num.transform(scaler, [inputData]);
      if scaledData.Failure? {
        return Failure(PreprocessingError(PreprocessMessage, Some(scaledData.error)));
      }
      r := Success(scaledData.value);
    }
  }

  class MLModelPredictor {
    /** `self.model`. */
    const model: Artifact

    constructor (model: Artifact)
      ensures this.model == model
    {
      this.model := model;
    }

    /** `ML_Model_Predictor()`: takes the store's "ml_model" slot, or raises
        ModelLoadingError caused by the KeyError. */
    static method Create(store: Models) returns (r: Result<MLModelPredictor, Exn>)
      ensures r.Success? <==> ModelKey in store.slots
      ensures r.Success? ==> fresh(r.value) && r.value.model == store.slots[ModelKey]
      ensures r.Failure? ==> r.error == ModelLoadingError(ModelLoadMessage, Some(KeyError(ModelKey)))
    {
      if ModelKey !in store.slots {
        return Failure(ModelLoadingError(ModelLoadMessage, Some(KeyError(ModelKey))));
      }
      var predictor := new MLModelPredictor(store.slots[ModelKey]);
      r := Success(predictor);
    }

    method Predict(num: Numerics, preprocessed: Matrix) returns (r: Result<Matrix, Exn>)
      ensures r == PredictResult(num, model, preprocessed)
    {
      var prediction := num.predictProba(model, preprocessed);
      if prediction.Failure? {
        return Failure(PredictionError(PredictMessage, Some(prediction.error)));
      }
      r := Success(prediction.value);
    }
  }

  // ---------------------------------------------------------------------------
  // The result text handed to the LLM
  // ---------------------------------------------------------------------------

  const ResultHead: string := "\n        Green Finance Report:\n        \n        **ML Model Risk Probability Prediction:** "
  const ResultMiddle: string := "\n        \n        "
  const ResultTail: string := "\n        "

  /** The `result` f-string: the rendered probabilities, then the raw input text. */
  function ResultText(prediction: string, inputRawData: string): string {
    ResultHead + prediction + ResultMiddle + inputRawData + ResultTail
  }

  /** The result text holds the rendered prediction and the raw input data
      verbatim, in that order. */
  lemma ResultTextEmbeds(prediction: string, inputRawData: string)
    ensures OccursAt(ResultText(prediction, inputRawData), prediction, |ResultHead|)
    ensures OccursAt(ResultText(prediction, inputRawData), inputRawData, |ResultHead| + |prediction| + |ResultMiddle|)
  {
    OccursAfter(ResultHead, prediction, ResultMiddle + inputRawData + ResultTail);
    OccursAfter(ResultHead + prediction + ResultMiddle, inputRawData, ResultTail);
    assert ResultText(prediction, inputRawData)
      == ResultHead + prediction + (ResultMiddle + inputRawData + ResultTail);
  }

  /** The prompt sent to the completion service contains the rendered
      prediction and the raw input data verbatim. */
  lemma PromptCarriesPrediction(prediction: string, inputRawData: string)
    ensures Contains(PromptTemplate(ResultText(prediction, inputRawData)), prediction)
    ensures Contains(PromptTemplate(ResultText(prediction, inputRawData)), inputRawData)
  {
    var result := ResultText(prediction, inputRawData);
    PromptEmbeds(result);
    ResultTextEmbeds(prediction, inputRawData);
    OccursWithin(PromptTemplate(result), result, |PromptPrefix|, prediction, |ResultHead|);
    OccursWithin(PromptTemplate(result), result, |PromptPrefix|, inputRawData,
                 |ResultHead| + |prediction| + |ResultMiddle|);
  }

  // ---------------------------------------------------------------------------
  // prediction
  // ---------------------------------------------------------------------------

  /** The steps of `prediction` that call a collaborator, in program order. */
  datatype Stage =
    | ConstructPreprocessor | ConstructPredictor | ConstructLlm
    | PreprocessStage | PredictStage | InferenceStage

  const StageOrder: seq<Stage> :=
    [ConstructPreprocessor, ConstructPredictor, ConstructLlm, PreprocessStage, PredictStage, InferenceStage]

  /** The outcome of one call of `prediction` and the stages it reached. */
  datatype Run = Run(outcome: Result<string, Exn>, stages: seq<Stage>)

  /** The first `reached` stages ran and the last of them raised `e`, which
      the outer handler re-raises as PredictionError. */
  function Abort(reached: nat, e: Exn): Run
    requires 1 <= reached <= |StageOrder|
  {
    Run(Failure(PredictionError(PipelineMessage, Some(e))), StageOrder[..reached])
  }

  /** `prediction(...)` with the artifact store holding `slots` and the
      feature row `features`: every failure surfaces as PredictionError wrapping
      a domain error, the stages reached are always a prefix of the fixed order,
      and a success has run them all. */
  function PipelineRun(slots: map<string, Artifact>, num: Numerics, api: GroqApi, apiKey: Option<string>,
                       features: seq<real>, inputRawData: string): (run: Run)
    ensures 1 <= |run.stages| <= |StageOrder| && run.stages == StageOrder[..|run.stages|]
    ensures run.outcome.Success? ==> run.stages == StageOrder
    ensures run.outcome.Failure? ==>
      && run.outcome.error.PredictionError?
      && run.outcome.error.message == PipelineMessage
      && run.outcome.error.cause.Some?
      && run.outcome.error.cause.value.IsDomainError()
  {
    if ScalerKey !in slots then Abort(1, ModelLoadingError(ScalerLoadMessage, None))
    else if ModelKey !in slots then Abort(2, ModelLoadingError(ModelLoadMessage, Some(KeyError(ModelKey))))
    else match api.newClient(apiKey)
      case Failure(e) => Abort(3, APIError(InitErrorMessage, Some(e)))
      case Success(client) =>
        match PreprocessResult(num, slots[ScalerKey], features)
        case Failure(e) => Abort(4, e)
        case Success(scaled) =>
          match PredictResult(num, slots[ModelKey], scaled)
          case Failure(e) => Abort(5, e)
          case Success(probabilities) =>
            match ReadResponse(api.create(client, InferenceRequest(ResultText(num.render(probabilities), inputRawData))))
            case Failure(e) => Abort(6, e)
            case Success(report) => Run(Success(report), StageOrder)
  }

  /** `prediction(impact_area_community, ..., certification_cycle, input_raw_data)`. */
  method Prediction(store: Models, num: Numerics, api: GroqApi, apiKey: Option<string>,
                    community: real, environment: real, customers: real, governance: real,
                    certificationCycle: int, inputRawData: string)
    returns (r: Result<string, Exn>, ghost stages: seq<Stage>)
    ensures r == PipelineRun(store.slots, num, api, apiKey,
      [community, environment, customers, governance, certificationCycle as real], inputRawData).outcome
    ensures stages == PipelineRun(store.slots, num, api, apiKey,
      [community, environment, customers, governance, certificationCycle as real], inputRawData).stages
  {
    stages := StageOrder[..1];
    var preprocessor := DataPreprocessor.Create(store);
    if preprocessor.Failure? {
      return Failure(PredictionError(PipelineMessage, Some(preprocessor.error))), stages;
    }
    stages := StageOrder[..2];
    var mlPredictor := MLModelPredictor.Create(store);
    if mlPredictor.Failure? {
      return Failure(PredictionError(PipelineMessage, Some(mlPredictor.error))), stages;
    }
    stages := StageOrder[..3];
    var llm := LLM.Create(api, apiKey);
    if llm.Failure? {
      return Failure(PredictionError(PipelineMessage, Some(llm.error))), stages;
    }

    var structuredData := [community, environment, customers, governance, certificationCycle as real];
    stages := StageOrder[..4];
    var preprocessedData := preprocessor.value.Preprocess(num, structuredData);
    if preprocessedData.Failure? {
      return Failure(PredictionError(PipelineMessage, Some(preprocessedData.error))), stages;
    }

    stages := StageOrder[..5];
    var mlPredictionResult := mlPredictor.value.Predict(num, preprocessedData.value);
    if mlPredictionResult.Failure? {
      return Failure(PredictionError(PipelineMessage, Some(mlPredictionResult.error))), stages;
    }

    var result := ResultText(num.render(mlPredictionResult.value), inputRawData);
    stages := StageOrder;
    var report := llm.value.Inference(api, result);
    if report.Failure? {
      return Failure(PredictionError(PipelineMessage, Some(report.error))), stages;
    }
    r := Success(report.value);
  }

  // ---------------------------------------------------------------------------
  // Properties of the pipeline
  // ---------------------------------------------------------------------------

  /** Which stage failed decides the cause the caller sees. */
  lemma FailureCauses(slots: map<string, Artifact>, num: Numerics, api: GroqApi, apiKey: Option<string>,
                      features: seq<real>, inputRawData: string)
    ensures var run := PipelineRun(slots, num, api, apiKey, features, inputRawData);
      && (ScalerKey !in slots ==>
            run == Abort(1, ModelLoadingError(ScalerLoadMessage, None)))
      && (ScalerKey in slots && ModelKey !in slots ==>
            run == Abort(2, ModelLoadingError(ModelLoadMessage, Some(KeyError(ModelKey)))))
      && (ScalerKey in slots && ModelKey in slots && api.newClient(apiKey).Failure? ==>
            run == Abort(3, APIError(InitErrorMessage, Some(api.newClient(apiKey).error))))
      && (ScalerKey in slots && ModelKey in slots && api.newClient(apiKey).Success?
          && PreprocessResult(num, slots[ScalerKey], features).Failure? ==>
            run == Abort(4, PreprocessResult(num, slots[ScalerKey], features).error)
            && run.outcome.error.cause.value.PreprocessingError?)
      && (ScalerKey in slots && ModelKey in slots && api.newClient(apiKey).Success?
          && PreprocessResult(num, slots[ScalerKey], features).Success?
          && PredictResult(num, slots[ModelKey], PreprocessResult(num, slots[ScalerKey], features).value).Failure? ==>
            run == Abort(5, PredictResult(num, slots[ModelKey], PreprocessResult(num, slots[ScalerKey], features).value).error)
            && run.outcome.error.cause.value.PredictionError?)
      && (ScalerKey in slots && ModelKey in slots && api.newClient(apiKey).Success?
          && PreprocessResult(num, slots[ScalerKey], features).Success?
          && PredictResult(num, slots[ModelKey], PreprocessResult(num, slots[ScalerKey], features).value).Success?
          && ReadResponse(api.create(api.newClient(apiKey).value, InferenceRequest(ResultText(
               num.render(PredictResult(num, slots[ModelKey], PreprocessResult(num, slots[ScalerKey], features).value).value),
               inputRawData)))).Failure? ==>
            run == Abort(6, ReadResponse(api.create(api.newClient(apiKey).value, InferenceRequest(ResultText(
               num.render(PredictResult(num, slots[ModelKey], PreprocessResult(num, slots[ScalerKey], features).value).value),
               inputRawData)))).error)
            && run.outcome.error.cause.value.APIError?)
  {
  }

  /** On a store that `initialize_models` can produce, how far the pipeline
      gets tells what was loaded: it stops at its first stage exactly when the
      store is empty, and at its second exactly when only the scaler was loaded
      (the classifier load failed). */
  lemma StoreDecidesEarlyStops(store: Models, num: Numerics, api: GroqApi, apiKey: Option<string>,
                               features: seq<real>, inputRawData: string)
    requires store.Valid()
    ensures var run := PipelineRun(store.slots, num, api, apiKey, features, inputRawData);
      && (|run.stages| == 1 <==> store.slots == map[])
      && (|run.stages| == 2 <==> store.slots.Keys == {ScalerKey})
  {
    var slots := store.slots;
    if ScalerKey !in slots {
      assert slots.Keys == {};
      assert slots == map[];
    } else if ModelKey !in slots {
      assert slots.Keys == {ScalerKey};
      assert slots != map[];
    } else {
      assert ModelKey in slots.Keys;
      assert slots != map[];
    }
  }

  /** A stage runs only when every earlier stage succeeded: in particular a
      failed preprocess never reaches the classifier or the LLM. */
  lemma InferenceNeedsEarlierStages(slots: map<string, Artifact>, num: Numerics, api: GroqApi,
                                    apiKey: Option<string>, features: seq<real>, inputRawData: string)
    ensures var run := PipelineRun(slots, num, api, apiKey, features, inputRawData);
      && (ConstructPredictor in run.stages ==> ScalerKey in slots)
      && (ConstructLlm in run.stages ==> ScalerKey in slots && ModelKey in slots)
      && (PreprocessStage in run.stages ==>
            ScalerKey in slots && ModelKey in slots && api.newClient(apiKey).Success?)
      && (PredictStage in run.stages ==>
            && ScalerKey in slots && ModelKey in slots && api.newClient(apiKey).Success?
            && PreprocessResult(num, slots[ScalerKey], features).Success?)
      && (InferenceStage in run.stages ==>
            && ScalerKey in slots && ModelKey in slots && api.newClient(apiKey).Success?
            && PreprocessResult(num, slots[ScalerKey], features).Success?
            && PredictResult(num, slots[ModelKey], PreprocessResult(num, slots[ScalerKey], features).value).Success?)
  {
    var run := PipelineRun(slots, num, api, apiKey, features, inputRawData);
    assert StageOrder[..1] == [ConstructPreprocessor];
    assert StageOrder[..2] == [ConstructPreprocessor, ConstructPredictor];
    assert StageOrder[..3] == [ConstructPreprocessor, ConstructPredictor, ConstructLlm];
    assert StageOrder[..4] == [ConstructPreprocessor, ConstructPredictor, ConstructLlm, PreprocessStage];
    assert StageOrder[..5] == [ConstructPreprocessor, ConstructPredictor, ConstructLlm, PreprocessStage, PredictStage];
  }

  /** A successful run returns exactly the LLM's response to the prompt built
      from the rendered probabilities and the raw input data. */
  lemma SuccessIsLlmResponse(slots: map<string, Artifact>, num: Numerics, api: GroqApi,
                             apiKey: Option<string>, features: seq<real>, inputRawData: string)
    requires PipelineRun(slots, num, api, apiKey, features, inputRawData).outcome.Success?
    ensures ScalerKey in slots && ModelKey in slots && api.newClient(apiKey).Success?
    ensures PreprocessResult(num, slots[ScalerKey], features).Success?
    ensures PredictResult(num, slots[ModelKey], PreprocessResult(num, slots[ScalerKey], features).value).Success?
    ensures var probabilities := PredictResult(num, slots[ModelKey], PreprocessResult(num, slots[ScalerKey], features).value).value;
      var sent := InferenceRequest(ResultText(num.render(probabilities), inputRawData));
      var completion := api.create(api.newClient(apiKey).value, sent);
      && Contains(sent.messages[0].content, num.render(probabilities))
      && Contains(sent.messages[0].content, inputRawData)
      && completion.Success? && completion.value.choices != []
      && completion.value.choices[0].message.content
         == Some(PipelineRun(slots, num, api, apiKey, features, inputRawData).outcome.value)
  {
    var probabilities := PredictResult(num, slots[ModelKey], PreprocessResult(num, slots[ScalerKey], features).value).value;
    PromptCarriesPrediction(num.render(probabilities), inputRawData);
  }

  /** Before the store is initialised, the pipeline fails at its first stage
      with the not-loaded error. */
  lemma EmptyStoreFails(num: Numerics, api: GroqApi, apiKey: Option<string>,
                        features: seq<real>, inputRawData: string)
    ensures PipelineRun(map[], num, api, apiKey, features, inputRawData)
      == Run(Failure(PredictionError(PipelineMessage, Some(ModelLoadingError(ScalerLoadMessage, None)))),
             [ConstructPreprocessor])
  {
    assert StageOrder[..1] == [ConstructPreprocessor];
  }

  /** An end-to-end run: loaded artifacts, the UI's default inputs 25, 30, 35,
      40 and 0 (app.py:48-55), and a completion service that answers "OK report". */
  lemma StubbedPipelineReturnsReport(inputRawData: string)
    ensures var slots := map[ScalerKey := Artifact(0), ModelKey := Artifact(1)];
      var num := Numerics((a, m) => Success(m), (a, m) => Success([[0.28, 0.72]]), m => "[[0.28 0.72]]");
      var api := GroqApi(key => Success(Client(0)),
                         (c, q) => Success(ChatCompletion([Choice(ResponseMessage(Some("OK report")))])));
      PipelineRun(slots, num, api, Some("key"), [25.0, 30.0, 35.0, 40.0, 0 as real], inputRawData)
        == Run(Success("OK report"), StageOrder)
  {
  }
}
