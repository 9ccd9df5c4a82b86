/**
 * src/llm.py: the `LLM` class, which holds a Groq client, builds the fixed
 * advisory prompt around the pipeline's result text and turns the first
 * completion returned into the report, mapping every failure to APIError.
 */
module Llm {
  import opened Wrappers
  import opened Exceptions
  import opened Strings

  /** `Config.GROQ_MODEL_NAME` (src/config.py). */
  const GroqModelName: string := "llama3-8b-8192"

  const InitErrorMessage: string := "Error initializing LLM model. Check API key and model name."
  const EmptyResponseMessage: string := "LLM response is empty. Please check input format and prompt."
  const InferenceErrorMessage: string := "Error during LLM inference. Check input data and model configuration."
  /** The message of the IndexError Python raises for `choices[0]` on an empty list. */
  const IndexErrorMessage: string := "list index out of range"

  // ---------------------------------------------------------------------------
  // The Groq SDK, as seen by the core
  // ---------------------------------------------------------------------------

  /** A constructed `Groq` client object. */
  datatype Client = Client(handle: nat)

  datatype Message = Message(role: string, content: string)

  /** The arguments of `chat.completions.create`. */
  datatype ChatRequest = ChatRequest(messages: seq<Message>, model: string)

  /** The parts of a chat completion the core reads: `choices[i].message.content`. */
  datatype ResponseMessage = ResponseMessage(content: Option<string>)
  datatype Choice = Choice(message: ResponseMessage)
  datatype ChatCompletion = ChatCompletion(choices: seq<Choice>)

  /** `Groq(api_key=...)` and `client.chat.completions.create(...)`; each either
      returns or raises. */
  datatype GroqApi = GroqApi(
    newClient: Option<string> -> Result<Client, Exn>,
    create: (Client, ChatRequest) -> Result<ChatCompletion, Exn>)

  // ---------------------------------------------------------------------------
  // prompt_template
  // ---------------------------------------------------------------------------

  /** The text of the prompt before the `result` field. */
  const PromptPrefix: string :=
    "You are a Green Finance Advisor specializing in evaluating companies based on sustainability impact areas, \n    green finance readiness, and risk probabilities predicted by an ML model. Your role is to analyze the provided \n    data, including ML output, to generate a comprehensive, actionable report highlighting the company\'s strengths, \n    areas for improvement, risk levels, and certification recommendations.\n\n    **Instructions:**\n    1. Analyze the provided data, including the ML Model\'s Risk Probability, to create a structured Green Finance Diagnostic Report.\n    2. Integrate the ML output into your assessment, particularly in identifying risks and areas for improvement.\n    3. Ensure the report is professional, clear, and actionable for decision-makers.\n    4. Avoid technical jargon and maintain accessibility while ensuring accuracy.\n\n    **Input Data**:\n    "

  /** The text between `result` and the first numbered section. */
  const OutputFormatLead: string := "\n\n    **Output Format**:\n\n    "

  /** The eight numbered headings of the report format, in order. */
  const SectionHeadings: seq<string> := [
    "1. **Company Overview**:",
    "2. **ML Risk Probability**:",
    "3. **Sustainability Impact Areas**:",
    "4. **Key Strengths**:",
    "5. **Areas for Improvement**:",
    "6. **Certification Recommendations**:",
    "7. **Benefits of Green Finance Alignment**:",
    "8. **Next Steps**:"
  ]

  /** The instructions under each heading, up to the next heading or the end of the prompt. */
  const SectionBodies: seq<string> := [
    "\n        - Provide a brief summary of the company, including its name, location, industry, and product/service offerings.\n        Example:\n        \"The company GreenTech Solutions operates in the Renewable Energy sector in Germany, providing solar and wind power solutions to industrial clients.\"\n\n    ",
    "\n        Highlight the ML-predicted risk probability and interpret its significance.\n        Example:\n        - Risk Probability: 0.72 (High Risk)\n        \"The ML model predicts a 72% probability of sustainability-related risks, indicating a need for focused interventions in governance and environmental impact areas.\"\n\n    ",
    "\n        Assess the company\'s performance in the following areas:\n        - **Community**: Highlight initiatives benefiting local communities, such as employment generation or educational programs.\n        - **Environment**: Discuss environmental practices, like emissions reductions or renewable energy use.\n        - **Customers**: Evaluate customer-focused sustainability measures, such as product lifecycle assessments or ethical sourcing.\n        - **Governance**: Examine the company\'s governance practices, including transparency and ethical policies.\n\n    ",
    "\n        Identify and summarize the company\'s strongest green finance aspects.\n        Example:\n        - \"Strong focus on renewable energy solutions.\"\n        - \"Excellent governance practices, with regular ESG reporting.\"\n\n    ",
    "\n        Provide actionable suggestions for addressing gaps in green finance readiness and mitigating risks highlighted by the ML model.\n        Example:\n        - \"Increase investment in local community infrastructure.\"\n        - \"Adopt more advanced waste management practices.\"\n\n    ",
    "\n        Recommend certifications or frameworks the company should pursue, including timelines.\n        Example:\n        - \"Recommended Certification: Global Reporting Initiative (GRI).\"\n        - \"Suggested Timeline: Achieve certification within the next 12 months.\"\n\n    ",
    "\n        Explain how aligning with green finance standards will benefit the company economically and ecologically.\n        Example:\n        - \"Enhanced access to green funding opportunities.\"\n        - \"Improved brand reputation through sustainability initiatives.\"\n\n    ",
    "\n        Provide a clear roadmap for the company to improve its green finance profile and address risks.\n        Example:\n        - \"Conduct a detailed carbon footprint analysis within the next quarter.\"\n        - \"Develop a Sustainability Action Plan addressing identified gaps.\"\n\n    Use this template to create a detailed report for the user based on the input data and the recommended green finance actions.\n\n    "
  ]

  /** A Python f-string: literal text and replacement fields, in order. The
      prompt is written as one of these rather than as a single `+` chain
      because its eight output sections share one shape, (heading,
      instructions), which EightSections builds and SectionsInOrder reasons
      about section by section. The sidebar and the result block have no such
      repeated structure: the sidebar is a list of fifteen pieces, so that one
      lemma about `Concat` places every field, and the five-piece result block
      is a plain `+` chain. */
  datatype FString = End | Chunk(text: string, rest: FString) | Field(rest: FString)

  /** The value of an f-string whose replacement fields all hold `value`. */
  function Render(f: FString, value: string): string {
    match f
    case End => ""
    case Chunk(text, rest) => text + Render(rest, value)
    case Field(rest) => value + Render(rest, value)
  }

  /** The f-string has at least one replacement field. */
  predicate HasField(f: FString) {
    match f
    case End => false
    case Chunk(_, rest) => HasField(rest)
    case Field(_) => true
  }

  /** Text without replacement fields renders the same whatever the field value. */
  lemma {:induction false} RenderWithoutField(f: FString, v: string, w: string)
    requires !HasField(f)
    ensures Render(f, v) == Render(f, w)
  {
    match f
    case End =>
    case Chunk(_, rest) => RenderWithoutField(rest, v, w);
  }

  /** Each heading followed by its instructions, one section after another. */
  function SectionsTemplate(h: seq<string>, b: seq<string>): (f: FString)
    requires |h| == |b|
    ensures !HasField(f)
    decreases |h|
  {
    if h == [] then End else Chunk(h[0], Chunk(b[0], SectionsTemplate(h[1..], b[1..])))
  }

  /** SectionsTemplate for exactly eight sections, written out (the two agree
      by EightSectionsUnroll); the prompt's f-string uses this form. */
  function EightSections(h: seq<string>, b: seq<string>): FString
    requires |h| == 8 && |b| == 8
  {
    Chunk(h[0], Chunk(b[0],
    Chunk(h[1], Chunk(b[1],
    Chunk(h[2], Chunk(b[2],
    Chunk(h[3], Chunk(b[3],
    Chunk(h[4], Chunk(b[4],
    Chunk(h[5], Chunk(b[5],
    Chunk(h[6], Chunk(b[6],
    Chunk(h[7], Chunk(b[7],
    End))))))))))))))))
  }

  /** The part of the f-string after the `{result}` field. */
  const SuffixTemplate: FString := Chunk(OutputFormatLead, EightSections(SectionHeadings, SectionBodies))

  /** The f-string of `prompt_template`, whose only replacement field is `result`. */
  const PromptFString: FString := Chunk(PromptPrefix, Field(SuffixTemplate))

  /** `prompt_template(result)`. */
  function PromptTemplate(result: string): string {
    Render(PromptFString, result)
  }

  /** The prompt is the prefix, then `result`, then the rest of the text. */
  lemma PromptUnfolds(result: string)
    ensures PromptTemplate(result) == PromptPrefix + (result + Render(SuffixTemplate, result))
  {
    assert Render(Field(SuffixTemplate), result) == result + Render(SuffixTemplate, result);
  }

  /** `result` appears verbatim right after the prefix. */
  lemma PromptEmbeds(result: string)
    ensures OccursAt(PromptTemplate(result), result, |PromptPrefix|)
  {
    PromptUnfolds(result);
    OccursAfter(PromptPrefix, result, Render(SuffixTemplate, result));
    assert PromptPrefix + (result + Render(SuffixTemplate, result)) == PromptPrefix + result + Render(SuffixTemplate, result);
  }

  /** The prompt is a constant prefix, then `result` verbatim, then a suffix
      that is the same whatever `result` is. */
  lemma PromptShape(result: string, other: string)
    ensures var p := PromptTemplate(result);
      && p == PromptPrefix + result + Render(SuffixTemplate, other)
      && p[..|PromptPrefix|] == PromptPrefix
  {
    var sections := EightSections(SectionHeadings, SectionBodies);
    EightSectionsConstant(SectionHeadings, SectionBodies, result, other);
    assert Render(SuffixTemplate, result) == OutputFormatLead + Render(sections, result);
    assert Render(SuffixTemplate, other) == OutputFormatLead + Render(sections, other);
    PromptUnfolds(result);
    assert PromptPrefix + (result + Render(SuffixTemplate, other)) == PromptPrefix + result + Render(SuffixTemplate, other);
    ConcatShape(PromptPrefix, result, Render(SuffixTemplate, other));
  }

  lemma ConcatShape(a: string, t: string, b: string)
    ensures |a + t + b| == |a| + |t| + |b|
    ensures (a + t + b)[..|a|] == a
    ensures OccursAt(a + t + b, t, |a|)
    ensures (a + t + b)[|a| + |t|..] == b
  {
    OccursAfter(a, t, b);
    assert (a + t + b)[..|a|] == a;
    assert (a + t + b)[|a| + |t|..] == b;
  }

  /** The prompt determines the result text it was built from. */
  lemma PromptInjective(result: string, other: string)
    requires PromptTemplate(result) == PromptTemplate(other)
    ensures result == other
  {
    var suffix := Render(SuffixTemplate, other);
    PromptShape(result, other);
    PromptShape(other, other);
    var p := PromptTemplate(result);
    ConcatShape(PromptPrefix, result, suffix);
    ConcatShape(PromptPrefix, other, suffix);
    assert |result| == |other|;
    assert result == p[|PromptPrefix|..|PromptPrefix| + |result|] == other;
  }

  /** The strings `hs` occur in `s` one after another, without overlapping. */
  predicate InOrder(s: string, hs: seq<string>)
    decreases |hs|
  {
    hs == [] || exists i: nat :: i <= |s| && OccursAt(s, hs[0], i) && InOrder(s[i + |hs[0]|..], hs[1..])
  }

  /** Text in front does not disturb the order of what follows. */
  lemma InOrderPrepend(a: string, s: string, hs: seq<string>)
    requires InOrder(s, hs)
    ensures InOrder(a + s, hs)
  {
    if hs != [] {
      var i: nat :| i <= |s| && OccursAt(s, hs[0], i) && InOrder(s[i + |hs[0]|..], hs[1..]);
      var t := a + s;
      assert t[|a| + i..|a| + i + |hs[0]|] == s[i..i + |hs[0]|];
      assert t[|a| + i + |hs[0]|..] == s[i + |hs[0]|..];
      assert OccursAt(t, hs[0], |a| + i) && InOrder(t[|a| + i + |hs[0]|..], hs[1..]);
    }
  }

  /** The headings of the sections occur in their order, whatever the instructions. */
  lemma {:induction false} SectionsInOrder(h: seq<string>, b: seq<string>, v: string)
    requires |h| == |b|
    ensures InOrder(Render(SectionsTemplate(h, b), v), h)
    decreases |h|
  {
    if h != [] {
      var rest := Render(SectionsTemplate(h[1..], b[1..]), v);
      var s := Render(SectionsTemplate(h, b), v);
      assert SectionsTemplate(h, b) == Chunk(h[0], Chunk(b[0], SectionsTemplate(h[1..], b[1..])));
      assert Render(Chunk(b[0], SectionsTemplate(h[1..], b[1..])), v) == b[0] + rest;
      assert s == h[0] + (b[0] + rest);
      SectionsInOrder(h[1..], b[1..], v);
      InOrderPrepend(b[0], rest, h[1..]);
      OccursAfter([], h[0], b[0] + rest);
      assert [] + h[0] + (b[0] + rest) == s;
      assert s[|h[0]|..] == b[0] + rest;
      assert OccursAt(s, h[0], 0) && InOrder(s[0 + |h[0]|..], h[1..]);
    }
  }

  lemma SectionsStep(h: seq<string>, b: seq<string>, k: nat)
    requires |h| == |b| && k < |h|
    ensures SectionsTemplate(h[k..], b[k..])
      == Chunk(h[k], Chunk(b[k], SectionsTemplate(h[k + 1..], b[k + 1..])))
  {
    assert h[k..][1..] == h[k + 1..] && b[k..][1..] == b[k + 1..];
  }

  lemma EightSectionsUnroll(h: seq<string>, b: seq<string>)
    requires |h| == 8 && |b| == 8
    ensures EightSections(h, b) == SectionsTemplate(h, b)
  {
    assert SectionsTemplate(h[8..], b[8..]) == End;
    SectionsStep(h, b, 7);
    SectionsStep(h, b, 6);
    SectionsStep(h, b, 5);
    SectionsStep(h, b, 4);
    SectionsStep(h, b, 3);
    SectionsStep(h, b, 2);
    SectionsStep(h, b, 1);
    SectionsStep(h, b, 0);
    assert h[0..] == h && b[0..] == b;
  }

  /** The eight headings occur in order, whatever text surrounds them. */
  lemma EightSectionsInOrder(h: seq<string>, b: seq<string>, v: string)
    requires |h| == 8 && |b| == 8
    ensures InOrder(Render(EightSections(h, b), v), h)
  {
    EightSectionsUnroll(h, b);
    SectionsInOrder(h, b, v);
  }

  /** The sections hold no replacement field. */
  lemma EightSectionsConstant(h: seq<string>, b: seq<string>, v: string, w: string)
    requires |h| == 8 && |b| == 8
    ensures Render(EightSections(h, b), v) == Render(EightSections(h, b), w)
  {
    EightSectionsUnroll(h, b);
    RenderWithoutField(SectionsTemplate(h, b), v, w);
  }

  /** The prompt asks for the eight report sections, Company Overview through
      Next Steps, in the order 1 to 8. */
  lemma PromptHeadingsInOrder(result: string)
    ensures |SectionHeadings| == 8
    ensures InOrder(PromptTemplate(result), SectionHeadings)
  {
    TemplateHeadingsInOrder(PromptPrefix, OutputFormatLead, SectionHeadings, SectionBodies, result);
  }

  /** PromptHeadingsInOrder for any text of the same form. */
  lemma TemplateHeadingsInOrder(prefix: string, lead: string, h: seq<string>, b: seq<string>, result: string)
    requires |h| == 8 && |b| == 8
    ensures InOrder(Render(Chunk(prefix, Field(Chunk(lead, EightSections(h, b)))), result), h)
  {
    var sections := Render(EightSections(h, b), result);
    EightSectionsInOrder(h, b, result);
    assert Render(Chunk(lead, EightSections(h, b)), result) == lead + sections;
    assert Render(Field(Chunk(lead, EightSections(h, b))), result) == result + (lead + sections);
    assert Render(Chunk(prefix, Field(Chunk(lead, EightSections(h, b)))), result)
      == prefix + (result + (lead + sections))
      == prefix + (result + lead) + sections;
    InOrderPrepend(prefix + (result + lead), sections, h);
  }

  // ---------------------------------------------------------------------------
  // inference
  // ---------------------------------------------------------------------------

  /** The request `inference(result)` sends. */
  function InferenceRequest(result: string): (q: ChatRequest)
    ensures |q.messages| == 1
    ensures q.messages[0].role == "user" && q.messages[0].content == PromptTemplate(result)
    ensures q.model == GroqModelName
  {
    ChatRequest([Message("user", PromptTemplate(result))], GroqModelName)
  }

  /** Python truthiness of the response content: neither None nor "". */
  predicate IsTruthy(content: Option<string>) {
    content.Some? && content.value != ""
  }

  /** What `inference` makes of the outcome of the completion call: the first
      choice's content if it is truthy, and APIError in every other case, with
      the exception that the try block raised as its cause. */
  function ReadResponse(completion: Result<ChatCompletion, Exn>): (r: Result<string, Exn>)
    ensures r.Success? <==>
      completion.Success? && completion.value.choices != [] && IsTruthy(completion.value.choices[0].message.content)
    ensures r.Success? ==> completion.value.choices[0].message.content == Some(r.value) && r.value != ""
    ensures r.Failure? ==> r.error.APIError? && r.error.message == InferenceErrorMessage
    ensures completion.Failure? ==> r.error.cause == Some(completion.error)
    ensures completion.Success? && completion.value.choices == [] ==>
      r.error.cause == Some(IndexError(IndexErrorMessage))
    ensures completion.Success? && completion.value.choices != [] && !IsTruthy(completion.value.choices[0].message.content) ==>
      r.error.cause == Some(APIError(EmptyResponseMessage, None))
  {
    match completion
    case Failure(e) => Failure(APIError(InferenceErrorMessage, Some(e)))
    case Success(c) =>
      if c.choices == [] then Failure(APIError(InferenceErrorMessage, Some(IndexError(IndexErrorMessage))))
      else if IsTruthy(c.choices[0].message.content) then Success(c.choices[0].message.content.value)
      else Failure(APIError(InferenceErrorMessage, Some(APIError(EmptyResponseMessage, None))))
  }

  /** Only "" and None count as empty: a response of blanks is a report. */
  lemma BlankResponseIsReport()
    ensures ReadResponse(Success(ChatCompletion([Choice(ResponseMessage(Some(" \n ")))]))) == Success(" \n ")
    ensures ReadResponse(Success(ChatCompletion([Choice(ResponseMessage(Some("")))]))).Failure?
    ensures ReadResponse(Success(ChatCompletion([Choice(ResponseMessage(None))]))).Failure?
  {
  }

  class LLM {
    /** `self.llm`: the Groq client. */
    const client: Client

    constructor (client: Client)
      ensures this.client == client
    {
      this.client := client;
    }

    /** `LLM()`: builds the Groq client from the API key; a failure becomes APIError. */
    static method Create(api: GroqApi, apiKey: Option<string>) returns (r: Result<LLM, Exn>)
      ensures r.Success? <==> api.newClient(apiKey).Success?
      ensures r.Success? ==> fresh(r.value) && r.value.client == api.newClient(apiKey).value
      ensures r.Failure? ==> r.error == APIError(InitErrorMessage, Some(api.newClient(apiKey).error))
    {
      var made := api.newClient(apiKey);
      if made.Failure? {
        return Failure(APIError(InitErrorMessage, Some(made.error)));
      }
      var llm := new LLM(made.value);
      r := Success(llm);
    }

    /** `inference(result)`: one completion request for the prompt, then the
        first choice's content, or APIError. */
    method Inference(api: GroqApi, result: string) returns (r: Result<string, Exn>)
      ensures r == ReadResponse(api.create(client, InferenceRequest(result)))
    {
      var refinedPrompt := PromptTemplate(result);
      var chatCompletion := api.create(client, ChatRequest([Message("user", refinedPrompt)], GroqModelName));
      if chatCompletion.Failure? {
        return Failure(APIError(InferenceErrorMessage, Some(chatCompletion.error)));
      }
      if chatCompletion.value.choices == [] {
        return Failure(APIError(InferenceErrorMessage, Some(IndexError(IndexErrorMessage))));
      }
      var response := chatCompletion.value.choices[0].message.content;
      if response.Some? && response.value != "" {
        return Success(response.value);
      }
      var raised := APIError(EmptyResponseMessage, None);
      r := Failure(APIError(InferenceErrorMessage, Some(raised)));
    }
  }
}
