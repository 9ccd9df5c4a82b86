# Green-Finance-Pred core, modelled in Dafny

Green-Finance-Pred is a Streamlit application. It scores a company's
sustainability risk with a fitted scaler and a random-forest classifier. It
then asks a Groq-hosted LLM to turn that score and the company's raw data into
a "Green Finance Diagnostic Report". This project models the application's core
and proves properties of the model:

- `TextUtils` (`text_utils.dfy`) covers `src/utils.py`:
  - `clean_text` is modelled on Python's own `str.replace`, `str.strip`, `str.split` and `" ".join`, with the whitespace set of `str.isspace`.
  - `sidebar_markdown` is modelled on a company record whose description it cleans in place. The sidebar HTML is byte-exact.
- `ModelStore` (`model_store.dfy`) covers `src/model_store.py`:
  - the `models` dict is a class with a `slots` map;
  - `initialize_models` is a method on it. The filesystem and joblib are passed in as a `Storage` collaborator.
- `Llm` (`llm.dfy`) covers `src/llm.py`: the `LLM` class, the byte-exact advisory prompt (modelled as a Python f-string value, `FString`), and `inference` with its error mapping. The Groq SDK is passed in as a `GroqApi` collaborator.
- `Predict` (`predict.dfy`) covers `src/predict.py`: `DataPreprocessor`, `ML_Model_Predictor` and the `prediction` pipeline.
  - The scaler's and classifier's methods and numpy's `str` of an array are passed in as a `Numerics` collaborator.
  - `PipelineRun` is the pipeline's meaning. It gives the outcome together with the stages reached.
- `Wrappers`, `Strings` and `Exceptions` (`wrappers.dfy`, `strings.dfy`, `exceptions.dfy`) hold shared pieces:
  - the result types;
  - substring predicates;
  - Python exceptions as one datatype, whose `cause` field is the exception named by `raise ... from e`.

A Python call that can raise returns a `Result` here. A constructor that can raise becomes a static `Create` method. Exceptions travel upward as values.

## Model

| member | source | states |
|---|---|---|
| TextUtils.Replace | src/utils.py:69 | `str.replace`: occurrences found left to right without overlap, text it has produced never rescanned. ReplaceChars, ReplaceNotLonger, ReplaceRemovesChar, ReplaceAbsent and CleanTextSinglePass state its properties |
| TextUtils.ReplaceAbsent | src/utils.py:69 | a pattern whose first character does not occur in the text leaves the text unchanged |
| TextUtils.IsSpace | src/utils.py:69-71 | the whitespace set of Python's `str.isspace`, which `strip()` and `split()` with no argument use. Every whitespace property of the model is stated over it |
| TextUtils.TrimStart | src/utils.py:69 | the leading-whitespace strip drops a prefix that is all whitespace and keeps the rest, a suffix of the input that starts with a non-space. It is empty exactly when the input is all whitespace |
| TextUtils.TrimEnd | src/utils.py:69 | the trailing-whitespace strip drops a suffix that is all whitespace and keeps the rest, a prefix of the input that ends with a non-space. It is empty exactly when the input is all whitespace |
| TextUtils.Strip | src/utils.py:69 | `str.strip()` with no argument: both trims. StripSlice and StripFacts state its properties |
| TextUtils.StripSlice | src/utils.py:69 | `strip()` removes whitespace at the two ends and nothing else: its result is the slice of the input between an all-whitespace prefix and an all-whitespace suffix, and it neither starts nor ends with whitespace |
| TextUtils.StripFacts | src/utils.py:69 | `strip()` never lengthens the text, adds no character, empties exactly the all-whitespace texts, and keeps the words: `s.strip().split() == s.split()` |
| TextUtils.SplitTrimStart | src/utils.py:69-71 | leading whitespace does not change `split()` |
| TextUtils.SplitAppendSpace | src/utils.py:69-71 | one whitespace character appended does not change `split()` |
| TextUtils.SplitAppendSpaces | src/utils.py:69-71 | any run of whitespace appended does not change `split()` |
| TextUtils.SplitTrimEnd | src/utils.py:69-71 | trailing whitespace does not change `split()` |
| TextUtils.WordLength | src/utils.py:71 | the first run of non-whitespace ends at the first whitespace character or at the end |
| TextUtils.Split | src/utils.py:71 | `split()` returns non-empty whitespace-free words drawn from the input, and returns no word exactly when the input is all whitespace |
| TextUtils.SplitSeparates | src/utils.py:71 | the words of `split()` are exactly the maximal non-whitespace runs of the input, in order: the input is those words woven with all-whitespace gaps, every gap between two words non-empty |
| TextUtils.ReplaceChars | src/utils.py:69 | `replace` introduces no character outside the input and the replacement |
| TextUtils.ReplaceNotLonger | src/utils.py:69 | replacing by something no longer than the pattern never lengthens the text |
| TextUtils.ReplaceRemovesChar | src/utils.py:69 | replacing a one-character pattern by text without it removes every occurrence |
| TextUtils.ScrubFacts | src/utils.py:69 | the four replacements never lengthen the text, add no character but ' ', and leave no '_' |
| TextUtils.SplitJoin | src/utils.py:71 | `split()` undoes `" ".join`: for a list of words `" ".join(ws).split() == ws` |
| TextUtils.Join | src/utils.py:71 | `" ".join(ws)`: the words with one space between each two. SplitJoin and JoinCollapsed state its properties |
| TextUtils.Collapse | src/utils.py:71 | `" ".join(s.split())`. JoinCollapsed, CollapseFacts and CollapseKeepsCollapsed state its properties |
| TextUtils.JoinCollapsed | src/utils.py:71 | `" ".join` of words is collapsed text (single inner spaces, none at the ends), and is empty exactly when there are no words |
| TextUtils.CollapseFacts | src/utils.py:71 | `" ".join(s.split())` never lengthens the text, adds no character but ' ', and keeps the words: `" ".join(s.split()).split() == s.split()` |
| TextUtils.CollapseKeepsCollapsed | src/utils.py:71 | the whitespace collapse is the identity on already collapsed text |
| TextUtils.Scrub | src/utils.py:69 | the four `replace` calls, in their order. ScrubFacts and the marker examples state its properties |
| TextUtils.CleanText | src/utils.py:56-72 | the result is collapsed, holds no '\n', '\r' or '_', is no longer than the input, and is empty exactly when only whitespace survives the replacements |
| TextUtils.CleanTextKeepsWords | src/utils.py:69-71 | the cleaned text is the words of the scrubbed text joined by single spaces, and its words are exactly those words: `strip` loses none |
| TextUtils.BlankCleansToEmpty | src/utils.py:69-71 | empty or whitespace-only text cleans to "" |
| TextUtils.WordSurvivesCollapse | src/utils.py:69-71 | a single word is untouched by `strip` and the collapse |
| TextUtils.CleanTextNotIdempotent | src/utils.py:69 | "x000_D" cleans to "x000D", and cleaning that again gives "": the replacements run in order, so removing '_' can create a new "x000D" |
| TextUtils.CleanTextSinglePass | src/utils.py:69 | "xx000D000D" cleans to "x000D": `replace` does not rescan the text it has joined |
| TextUtils.SidebarHtml | src/utils.py:5-52 | the sidebar f-string, byte-exact, with the seven fields in their places. SidebarEmbedsFields states its property |
| TextUtils.SidebarEmbedsFields | src/utils.py:35-49 | the sidebar HTML contains the company name, country, industry category, sector, industry, products and description verbatim |
| TextUtils.CleanedDescription | src/utils.py:4 | the record with its description replaced by the cleaned text. CleanedDescriptionKeepsOthers states its properties |
| TextUtils.CleanedDescriptionKeepsOthers | src/utils.py:4 | the description update keeps the record's keys and every other field, and leaves a collapsed description |
| TextUtils.SidebarMarkdown | src/utils.py:3-53 | the record's description is replaced by its cleaned text, and the HTML returned is built from the updated record's seven fields |
| ModelStore.ScalerPath | src/model_store.py:9 | the scaler file `scaler_object.joblib` in the models directory |
| ModelStore.ModelPath | src/model_store.py:10 | the classifier file `random_forest.joblib` in the models directory |
| ModelStore.ArtifactPaths | src/model_store.py:9-10 | both artifact paths are the models directory, a '/', then a file name with no further '/', and they name two different files |
| ModelStore.Models.constructor | src/model_store.py:5 | the store starts empty |
| ModelStore.Models.InitializeModels | src/model_store.py:7-20 | if either file is missing: FileNotFoundError, store unchanged. If the scaler load fails: that error, store unchanged. If the model load fails: that error, with the scaler slot already written. Otherwise both slots are written and nothing else changes. The store invariant `Valid` (no other key, and no classifier without a scaler) is kept; StoreDecidesEarlyStops relies on it |
| Llm.PromptTemplate | src/llm.py:18-87 | the advisory prompt f-string, byte-exact, with `result` as its one field. PromptEmbeds, PromptShape, PromptInjective and PromptHeadingsInOrder state its properties |
| Llm.PromptEmbeds | src/llm.py:31-32 | `result` occurs verbatim in the prompt, right after the fixed preamble |
| Llm.PromptShape | src/llm.py:20-87 | the prompt is the constant preamble, then `result`, then a suffix that does not depend on `result` |
| Llm.PromptInjective | src/llm.py:20-87 | different result texts give different prompts |
| Llm.RenderWithoutField | src/llm.py:33-86 | text without a replacement field renders the same whatever the field value |
| Llm.SectionsInOrder | src/llm.py:36-86 | in a run of (heading, instructions) sections, the headings occur in their order |
| Llm.PromptHeadingsInOrder | src/llm.py:36-78 | the eight section headings, Company Overview to Next Steps, occur in the prompt in order 1 to 8 |
| Llm.InferenceRequest | src/llm.py:92-101 | exactly one message is sent, with role "user", the prompt for `result` as content, and model `llama3-8b-8192` |
| Llm.IsTruthy | src/llm.py:105 | the truthiness test `if response:` on the content: false for None and for "", true for every other string. ReadResponse and BlankResponseIsReport are stated over it |
| Llm.ReadResponse | src/llm.py:103-114 | success exactly when the call returned, with a non-empty choice list whose first content is neither None nor "". The report is that content. Every failure is APIError with the inference message, caused by the SDK's exception, the IndexError or the empty-response APIError |
| Llm.BlankResponseIsReport | src/llm.py:105-110 | a whitespace-only response is returned as the report; "" and None are rejected |
| Llm.LLM.Create | src/llm.py:9-16 | the client is built from the API key; its failure becomes APIError with the init message, caused by the SDK's error |
| Llm.LLM.Inference | src/llm.py:89-114 | the result is ReadResponse of the completion call on InferenceRequest(result) |
| Predict.PreprocessResult | src/predict.py:18-25 | the scaler gets one row of the inputs in order. Its output is returned unchanged, or its failure becomes PreprocessingError caused by it |
| Predict.PredictResult | src/predict.py:37-44 | the classifier's probabilities are returned unchanged, or its failure becomes PredictionError caused by it |
| Predict.DataPreprocessor.Create | src/predict.py:10-16 | succeeds exactly when the store has a scaler, and holds it. Otherwise ModelLoadingError with no cause |
| Predict.DataPreprocessor.Preprocess | src/predict.py:18-25 | returns PreprocessResult for its scaler |
| Predict.MLModelPredictor.Create | src/predict.py:29-35 | succeeds exactly when the store has a classifier, and holds it. Otherwise ModelLoadingError caused by the KeyError |
| Predict.MLModelPredictor.Predict | src/predict.py:37-44 | returns PredictResult for its classifier |
| Predict.ResultText | src/predict.py:61-67 | the `result` f-string, byte-exact: the report heading, the rendered probabilities, then the raw input text. ResultTextEmbeds and PromptCarriesPrediction state its properties |
| Predict.ResultTextEmbeds | src/predict.py:61-67 | the result text holds the rendered prediction and then the raw input data, both verbatim |
| Predict.PromptCarriesPrediction | src/predict.py:61-70 | the prompt sent to the LLM contains the rendered prediction and the raw input data |
| Predict.Abort | src/predict.py:74-76 | the outer handler: the stages reached so far, and PredictionError with the pipeline message raised from the stage's exception. PipelineRun and FailureCauses state its properties |
| Predict.PipelineRun | src/predict.py:47-76 | the stages reached are a non-empty prefix of the program order; a success ran all six; every failure is PredictionError with the pipeline message, caused by a domain error |
| Predict.Prediction | src/predict.py:47-76 | the value returned or raised, and the stages traced, are those of PipelineRun on the five inputs in order |
| Predict.FailureCauses | src/predict.py:50-76 | each of the six stages aborts at its own place with its own wrapped cause: a missing scaler, a missing classifier, an LLM client failure, a preprocessing failure, a classifier failure and an inference failure, each re-raised as PredictionError from that exception |
| Predict.StoreDecidesEarlyStops | src/predict.py:50-51 | on a store that `initialize_models` can produce (the `Models.Valid` invariant), the pipeline stops at its first stage exactly when the store is empty, and at its second exactly when only the scaler was loaded |
| Predict.InferenceNeedsEarlierStages | src/predict.py:50-70 | a stage is reached only when every earlier stage succeeded: the predictor is built only after the scaler was found, the LLM only after both artifacts, preprocessing only after the LLM client, and prediction and inference only after every step before them |
| Predict.SuccessIsLlmResponse | src/predict.py:55-72 | a successful run returns exactly the LLM's first-choice content, for a prompt that carries the rendered probabilities and the raw input |
| Predict.EmptyStoreFails | src/predict.py:50 | with an empty store the pipeline stops at its first stage, with PredictionError caused by the missing-scaler ModelLoadingError |
| Predict.StubbedPipelineReturnsReport | src/predict.py:47-72 | with loaded artifacts, stub collaborators and the inputs 25, 30, 35, 40, 0, the pipeline runs all stages and returns the stubbed report |

## Left out

- Logging (`logger`, `log_exception`) and `print` are left out. They have no effect on results.
- `app.py`, the Streamlit UI and the dataset loading are not part of this model.
- `src/config.py` is not modelled. `GROQ_MODEL_NAME` is a constant. The API key and the models directory are parameters, because they come from the environment and the filesystem.
- TextUtils.Split: its own contract gives the shape of the words only. That they are exactly the maximal non-whitespace runs of the input, in order, is stated by TextUtils.SplitSeparates, because on the function itself that statement makes every proof that uses `split()` too costly.
- TextUtils.SidebarMarkdown: the record is required to hold the seven columns the sidebar reads. The KeyError that Python raises for a missing column is not modelled.
- TextUtils.CleanText: the `str()` conversion of a non-string argument is not modelled. The model takes strings only.
- Numbers are `real`. Floating point, numpy's `reshape` and the exact printing of an array are not modelled: rendering is the `Numerics.render` collaborator. `certification_cycle` enters the feature row as a real.
- What joblib, scikit-learn and the Groq SDK do internally is not modelled. Their calls are collaborator functions that return or raise.
- The exception classes are modelled only by their kind, message and cause.
- Python's dynamic typing is not modelled. In the model, `company_details` is a map from strings to strings, and the LLM response content is an optional string.
- Three behaviours of the code worth knowing:
  - An LLM response of blanks is accepted as the report. Only None and "" are rejected, and no separate empty-response error type exists.
  - A missing model file leaves the store as it was, rather than emptying it.
  - `DataPreprocessor` raises ModelLoadingError without `from`, so its cause is None.
