/**
  `get_reasoning_approach`: asks the model for two complementary reasoning
  frameworks and extracts the hybrid prompt that follows the fixed marker in
  its answer.
 */
module Reasoning {
  import opened Wrappers
  import opened Text
  import opened Gateway

  const Marker := "Hybrid prompt prefix to add:"
  const NoReasoning := "Failed to get reasoning approach."

  /** The instruction template around the user's query. */
  const PromptHead := "\n    I have a question/task: \""
  const PromptTail :=
    "\"\n\n    From ALL POSSIBLE reasoning frameworks (including but not limited to: inductive, deductive, abductive, \n"
    + "    critical thinking, systems thinking, lateral thinking, dialectical reasoning, analogical reasoning, \n"
    + "    counterfactual reasoning, first principles reasoning, systems 1/2/3 thinking, bayesian reasoning, \n"
    + "    causal reasoning, etc.), identify TWO complementary reasoning approaches that would work well IN TANDEM \n"
    + "    to address this question/task effectively.\n\n"
    + "    Explain briefly why these two specific frameworks combined would yield the best results for this particular \n"
    + "    query. Be specific about how they complement each other.\n\n"
    + "    FORMAT YOUR RESPONSE AS:\n"
    + "    1. Framework 1: [name] - [brief justification]\n"
    + "    2. Framework 2: [name] - [brief justification]\n"
    + "    3. Why combining them works: [explanation]\n"
    + "    4. Hybrid prompt prefix to add: [A paragraph that instructs how to use these two frameworks together]\n"
    + "    "

  /** The explanation shown to the user and the hybrid prompt kept for the next send. */
  datatype ReasoningResult = ReasoningResult(explanation: string, hybridPrompt: Option<string>)

  /** The single-turn request that carries the query inside the template. */
  function ReasoningRequest(query: string, apiKey: string, model: string): (req: Request)
    ensures req.authorization == Bearer(apiKey) && req.model == model && |req.messages| == 1
    ensures req.messages[0].role == User && req.messages[0].content.Plain?
    ensures var text := req.messages[0].content.text;
      && |text| == |PromptHead| + |query| + |PromptTail|
      && text[..|PromptHead|] == PromptHead && text[|PromptHead|..|PromptHead| + |query|] == query
      && text[|PromptHead| + |query|..] == PromptTail
  {
    Request(Bearer(apiKey), model, [OutMessage(User, Plain(PromptHead + query + PromptTail))])
  }

  /** `sections[1].strip()` of `content.split(Marker)`, when there is a second section. */
  function HybridPrompt(content: string): (h: Option<string>)
    ensures h.Some? <==> Find(content, Marker).Some?
  {
    var sections := Split(content, Marker);
    if |sections| > 1 then Some(Strip(sections[1])) else None
  }

  /** The text after a marker, up to the next marker or the end. */
  function UpToMarker(t: string): (r: string)
    ensures Find(r, Marker).None?
  {
    match Find(t, Marker)
    case None => t
    case Some(j) =>
      BeforeFirstLacksPattern(t, Marker, j);
      t[..j]
  }

  /**
    The hybrid prompt is the stripped text between the FIRST marker and the next
    one (or the end), not everything after the first marker.
   */
  lemma HybridPromptIsNextSection(content: string, i: nat)
    requires Find(content, Marker) == Some(i)
    ensures HybridPrompt(content) == Some(Strip(UpToMarker(content[i + |Marker|..])))
  {
    var rest := content[i + |Marker|..];
    assert Split(content, Marker) == [content[..i]] + Split(rest, Marker);
    match Find(rest, Marker)
    case None =>
    case Some(j) =>
      assert Split(rest, Marker)[0] == rest[..j];
  }

  /** The hybrid prompt never contains the marker, and has no white space at either end. */
  lemma HybridPromptIsClean(content: string)
    requires HybridPrompt(content).Some?
    ensures Find(HybridPrompt(content).value, Marker).None?
    ensures HybridPrompt(content).value == Strip(HybridPrompt(content).value)
  {
    var sections := Split(content, Marker);
    SplitPiecesLackSeparator(content, Marker, 1);
    StripKeepsAbsence(sections[1], Marker);
    StripIdempotent(sections[1]);
  }

  /** The explanation and hybrid prompt for what the POST yielded. */
  function ParseReasoning(outcome: HttpOutcome): ReasoningResult {
    match outcome
    case Failed(e) => ReasoningResult(ErrorText(e), None)
    case Received(body) =>
      match FirstChoice(body)
      case None => ReasoningResult(NoReasoning, None)
      case Some(content) => ReasoningResult(content, HybridPrompt(content))
  }

  /**
    `get_reasoning_approach`: no key gives the fixed message and sends nothing;
    otherwise the answer is shown in full and its hybrid-prompt section extracted.
   */
  function GetReasoningApproach(query: string, apiKey: string, model: string, post: Request -> HttpOutcome): (r: ReasoningResult)
    ensures apiKey == "" ==> r == ReasoningResult(KeyRequired, None)
    ensures apiKey != "" && post(ReasoningRequest(query, apiKey, model)).Failed? ==>
      r == ReasoningResult(ErrorText(post(ReasoningRequest(query, apiKey, model)).error), None)
    ensures apiKey != "" && post(ReasoningRequest(query, apiKey, model)).Received? ==>
      var body := post(ReasoningRequest(query, apiKey, model)).body;
      && (FirstChoice(body).None? ==> r == ReasoningResult(NoReasoning, None))
      && (FirstChoice(body).Some? ==> r.explanation == FirstChoice(body).value)
      && (FirstChoice(body).Some? ==> (r.hybridPrompt.Some? <==> Find(FirstChoice(body).value, Marker).Some?))
      && (FirstChoice(body).Some? ==> r.hybridPrompt == HybridPrompt(FirstChoice(body).value))
  {
    if apiKey == "" then ReasoningResult(KeyRequired, None)
    else ParseReasoning(post(ReasoningRequest(query, apiKey, model)))
  }
}
