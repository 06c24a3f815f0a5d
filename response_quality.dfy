/** The response-quality gate: a draft from the RAG agent is answered with a fixed text
    when either score is below the threshold, and sent to the tone reviewer otherwise. The
    reviewer's reply is opaque; the model stops at the request it is sent. */
module ResponseQuality {
  import opened Common
  import opened Text
  import opened Rag

  /** Both scores are compared against 0.8 with a strict `<`. */
  const Threshold: real := 0.8

  /** The reply when both scores are low. */
  const NeedMoreContext: string := "I need more context" + " to answer your question. Could you... X/Y/Z"

  /** The reply when only completeness is low. */
  function QuickOverview(text: string): string {
    "This is a " + "quick overview" + ": " + text + ".\n Do you need more detail? "
  }

  /** How `os.getenv("COMMUNICATION_GUIDELINES")` renders inside the f-string. */
  function GuidelinesText(guidelines: Option<string>): (t: string)
    ensures guidelines.Some? ==> t == guidelines.value
    ensures guidelines.None? ==> t == "None"
  {
    match guidelines
    case Some(g) => g
    case None => "None"
  }

  /** The two messages sent to the reviewer: the guidelines (inside the system prompt, whose
      fixed wording is not modelled) and the draft, as an `agent` message. */
  datatype ReviewRequest = ReviewRequest(guidelines: string, draft: Message)

  /** What the node does: reply with a fixed text, or ask the reviewer. */
  datatype Assessment = Reply(text: string) | Review(request: ReviewRequest)

  /** `response_quality_node`. */
  function ResponseQualityNode(response: RagOutput, guidelines: Option<string>): (r: Assessment)
    ensures r.Review? <==> response.metadata.completenessScore >= Threshold && response.metadata.confidenceScore >= Threshold
    ensures r.Review? ==> r.request == ReviewRequest(GuidelinesText(guidelines), Message("agent", "Query: " + response.text))
  {
    var completeness := response.metadata.completenessScore;
    var confidence := response.metadata.confidenceScore;
    if completeness < Threshold && confidence < Threshold then Reply(NeedMoreContext)
    else if completeness < Threshold then Reply(QuickOverview(response.text))
    else if confidence < Threshold then Reply("")
    else Review(ReviewRequest(GuidelinesText(guidelines), Message("agent", "Query: " + response.text)))
  }

  /** The four outcomes by score: both low asks for context, low completeness alone gives a
      quick overview of the draft, low confidence alone gives an empty reply, and only a
      draft passing both goes to review. */
  lemma Outcomes(response: RagOutput, guidelines: Option<string>)
    ensures var c, k := response.metadata.completenessScore, response.metadata.confidenceScore;
      var r := ResponseQualityNode(response, guidelines);
      && (c < Threshold && k < Threshold ==> r == Reply(NeedMoreContext))
      && (c < Threshold && k >= Threshold ==> r == Reply(QuickOverview(response.text)))
      && (c >= Threshold && k < Threshold ==> r == Reply(""))
      && (c >= Threshold && k >= Threshold ==> r.Review?)
  {
  }

  /** A fixed reply does not depend on the guidelines; only the review request does. */
  lemma EarlyReplyIgnoresGuidelines(response: RagOutput, g1: Option<string>, g2: Option<string>)
    requires ResponseQualityNode(response, g1).Reply?
    ensures ResponseQualityNode(response, g2) == ResponseQualityNode(response, g1)
  {
  }

  /** The threshold is inclusive: scores of exactly 0.8 pass. */
  lemma ThresholdInclusive(response: RagOutput, guidelines: Option<string>)
    requires response.metadata.completenessScore == 0.8 && response.metadata.confidenceScore == 0.8
    ensures ResponseQualityNode(response, guidelines).Review?
  {
  }

  /** Two low scores ask for more context, whatever the draft says. */
  lemma LowScoresAskForContext(response: RagOutput, guidelines: Option<string>)
    requires response.metadata.completenessScore < Threshold && response.metadata.confidenceScore < Threshold
    ensures ResponseQualityNode(response, guidelines).Reply?
    ensures Contains(ResponseQualityNode(response, guidelines).text, "I need more context")
  {
    ContainsMiddle("", "I need more context", " to answer your question. Could you... X/Y/Z");
    assert "" + "I need more context" + " to answer your question. Could you... X/Y/Z" == NeedMoreContext;
  }

  /** Low completeness alone announces a quick overview and quotes the whole draft. */
  lemma QuickOverviewQuotesDraft(response: RagOutput, guidelines: Option<string>)
    requires response.metadata.completenessScore < Threshold <= response.metadata.confidenceScore
    ensures ResponseQualityNode(response, guidelines).Reply?
    ensures Contains(ResponseQualityNode(response, guidelines).text, "quick overview")
    ensures Contains(ResponseQualityNode(response, guidelines).text, response.text)
  {
    var t := response.text;
    var tail := ".\n Do you need more detail? ";
    ContainsMiddle("This is a ", "quick overview", ": " + t + tail);
    assert "This is a " + "quick overview" + (": " + t + tail) == QuickOverview(t);
    ContainsMiddle("This is a " + "quick overview" + ": ", t, tail);
  }

  /** The reviewer sees the draft itself, prefixed with `Query: `. */
  lemma ReviewQuotesDraft(response: RagOutput, guidelines: Option<string>)
    requires ResponseQualityNode(response, guidelines).Review?
    ensures Contains(ResponseQualityNode(response, guidelines).request.draft.content, response.text)
    ensures ResponseQualityNode(response, guidelines).request.draft.role == "agent"
  {
    ContainsMiddle("Query: ", response.text, "");
    assert "Query: " + response.text + "" == "Query: " + response.text;
  }
}
