/** The conversation workflow both entry points compile: its nodes, its edges, the routing
    decision after query understanding, and the two terminal nodes written inline in the
    entry points (`await_clarification` and `emergency`). The two entry points declare the
    same edges and the same emergency text; they differ only in how the router reads the
    stored analysis, which their own modules model. */
module ConversationGraph {
  import opened Common
  import opened Text
  import QU = QueryUnderstanding

  datatype Node =
    | Start
    | QueryUnderstandingNode
    | RagNode
    | ResponseQualityNode
    | AwaitClarificationNode
    | EmergencyNode
    | End

  /** The name each node is registered under. */
  function NodeName(n: Node): string {
    match n
    case Start => "__start__"
    case QueryUnderstandingNode => "query_understanding"
    case RagNode => "rag"
    case ResponseQualityNode => "response_quality"
    case AwaitClarificationNode => "await_clarification"
    case EmergencyNode => "emergency"
    case End => "__end__"
  }

  lemma NodeNamesDistinct(a: Node, b: Node)
    requires a != b
    ensures NodeName(a) != NodeName(b)
  {
  }

  /** The declared edges: fixed ones and the three arms of the conditional edge. */
  function Edges(): set<(Node, Node)> {
    {(Start, QueryUnderstandingNode),
     (QueryUnderstandingNode, RagNode), (QueryUnderstandingNode, EmergencyNode),
     (QueryUnderstandingNode, AwaitClarificationNode),
     (RagNode, ResponseQualityNode),
     (EmergencyNode, End), (AwaitClarificationNode, End), (ResponseQualityNode, End)}
  }

  /** `route_by_query_type` once the `query_type` value is read: "clear" goes to
      retrieval, "emergency" to the emergency node, and every other value to
      clarification. */
  function Route(queryType: string): (n: Node)
    ensures n == RagNode <==> queryType == "clear"
    ensures n == EmergencyNode <==> queryType == "emergency"
    ensures n == AwaitClarificationNode <==> queryType != "clear" && queryType != "emergency"
    ensures (QueryUnderstandingNode, n) in Edges()
  {
    if queryType == "clear" then RagNode
    else if queryType == "emergency" then EmergencyNode
    else AwaitClarificationNode
  }

  /** The classifier's three query types reach the three branches. */
  lemma RouteClassifierTypes()
    ensures Route(QU.QueryTypeName(QU.Clear)) == RagNode
    ensures Route(QU.QueryTypeName(QU.Emergency)) == EmergencyNode
    ensures Route(QU.QueryTypeName(QU.NeedsClarification)) == AwaitClarificationNode
  {
  }

  /** The node that runs after `n`, for a turn whose analysis has this `query_type`. */
  function Step(n: Node, queryType: string): (r: Option<Node>)
    ensures r.None? <==> n == End
    ensures r.Some? ==> (n, r.value) in Edges()
  {
    match n
    case Start => Some(QueryUnderstandingNode)
    case QueryUnderstandingNode => Some(Route(queryType))
    case RagNode => Some(ResponseQualityNode)
    case ResponseQualityNode => Some(End)
    case AwaitClarificationNode => Some(End)
    case EmergencyNode => Some(End)
    case End => None
  }

  /** Distance to the end along the longest branch; every step lowers it. */
  function Rank(n: Node): nat {
    match n
    case Start => 4
    case QueryUnderstandingNode => 3
    case RagNode => 2
    case ResponseQualityNode | AwaitClarificationNode | EmergencyNode => 1
    case End => 0
  }

  /** The nodes visited from `n` up to and including the end. */
  function PathFrom(n: Node, queryType: string): (p: seq<Node>)
    ensures |p| >= 1 && p[0] == n && p[|p| - 1] == End
    decreases Rank(n)
  {
    match Step(n, queryType)
    case None => [n]
    case Some(m) =>
      assert Rank(m) < Rank(n);
      [n] + PathFrom(m, queryType)
  }

  /** One turn through the graph. */
  function Path(queryType: string): seq<Node> {
    PathFrom(Start, queryType)
  }

  /** The three runs of the graph. */
  lemma Paths(queryType: string)
    ensures Path("clear") == [Start, QueryUnderstandingNode, RagNode, ResponseQualityNode, End]
    ensures Path("emergency") == [Start, QueryUnderstandingNode, EmergencyNode, End]
    ensures queryType != "clear" && queryType != "emergency" ==>
      Path(queryType) == [Start, QueryUnderstandingNode, AwaitClarificationNode, End]
  {
  }

  /** Every run follows declared edges. */
  lemma {:induction false} PathFollowsEdges(n: Node, queryType: string, i: nat)
    requires i + 1 < |PathFrom(n, queryType)|
    ensures (PathFrom(n, queryType)[i], PathFrom(n, queryType)[i + 1]) in Edges()
    decreases Rank(n)
  {
    var m := Step(n, queryType).value;
    assert PathFrom(n, queryType) == [n] + PathFrom(m, queryType);
    if i > 0 {
      PathFollowsEdges(m, queryType, i - 1);
    }
  }

  /** The nodes with a direct edge to the end. */
  function Terminals(): set<Node> {
    {EmergencyNode, AwaitClarificationNode, ResponseQualityNode}
  }

  /** Retrieval runs exactly for clear queries, always right after query understanding,
      and the quality review runs exactly when retrieval ran; emergency and
      clarification turns end right after their own node. */
  lemma RetrievalOnlyForClearQueries(queryType: string)
    ensures RagNode in Path(queryType) <==> queryType == "clear"
    ensures ResponseQualityNode in Path(queryType) <==> RagNode in Path(queryType)
    ensures forall i :: 0 < i < |Path(queryType)| && Path(queryType)[i] == RagNode ==>
      Path(queryType)[i - 1] == QueryUnderstandingNode
    ensures forall i :: 0 <= i < |Path(queryType)| - 1 && Path(queryType)[i] in Terminals() ==>
      Path(queryType)[i + 1] == End
  {
    Paths(queryType);
  }

  /** The analysis as the graph state holds it: never written, or the dict that
      `model_dump()` produced. */
  datatype StoredAnalysis = NotSet | Dumped(analysis: QU.QueryAnalysis)

  /** The analysis after query understanding: the clarification and emergency updates
      write it; the two commands of a clear query carry none. */
  function AnalysisAfter(before: StoredAnalysis, output: QU.NodeOutput): (a: StoredAnalysis)
    ensures output.Commands? ==> a == before
  {
    if output.Single? && (output.command.update.ClarificationUpdate? || output.command.update.EmergencyUpdate?)
    then Dumped(output.command.update.analysis)
    else before
  }

  /** `analysis["query_type"]` followed by the dispatch. */
  function RouteStored(a: StoredAnalysis): (r: Result<Node>)
    ensures a.NotSet? ==> r == Err(TypeError("'NoneType' object is not subscriptable"))
    ensures a.Dumped? ==> r == Ok(Route(QU.QueryTypeName(a.analysis.queryType)))
  {
    match a
    case NotSet => Err(TypeError("'NoneType' object is not subscriptable"))
    case Dumped(x) => Ok(Route(QU.QueryTypeName(x.queryType)))
  }

  /** From a fresh turn state, the router follows the classification for clarification and
      emergency turns. A clear turn leaves the analysis unset, so reading its query type
      fails. The clarification command names the node the router picks; the emergency
      command's "emergency_response" names no node of the graph. */
  lemma RoutingAfterUnderstanding(apiKey: Option<string>, state: QU.AgentState, analysis: QU.QueryAnalysis)
    requires QU.QueryUnderstandingNode(apiKey, state, analysis).Ok?
    ensures var out := QU.QueryUnderstandingNode(apiKey, state, analysis).value;
      var routed := RouteStored(AnalysisAfter(NotSet, out));
      && (analysis.queryType == QU.Clear ==> routed.Err?)
      && (analysis.queryType == QU.NeedsClarification ==>
            routed == Ok(AwaitClarificationNode) && out.command.goto == NodeName(AwaitClarificationNode))
      && (analysis.queryType == QU.Emergency ==>
            routed == Ok(EmergencyNode) && forall n :: NodeName(n) != out.command.goto)
  {
  }

  // ---------------------------------------------------------------------------------
  // The terminal nodes

  /** The `whatsapp_number` placeholder. */
  const WhatsappNumber: string := "environment variable very secret"

  /** The continuation indentation inside the triple-quoted message. */
  const Indent: string := "                        "

  const UrgentLine: string := "This seems urgent and like you need immediate assistance. "
    + "Please contact the Red Cross directly at this number "

  /** The three fixed pieces of the emergency message around the WhatsApp number and the
      112 line, with the trailing spaces and indentation of the triple-quoted f-string. */
  const EmergencyLead: string := "  \n" + Indent + UrgentLine
  const EmergencyMiddle: string := "  \n" + Indent + "to get help immediately.  \n"
    + Indent + "For any medical emergency please contact "
  const EmergencyEnd: string := ".  \n" + Indent

  /** The emergency message with the given WhatsApp number. */
  function EmergencyText(number: string): string {
    EmergencyLead + number + EmergencyMiddle + "112" + EmergencyEnd
  }

  /** `emergency_node`: ignores the state and answers with the contact message. */
  function Emergency(messages: seq<Message>): (r: seq<Message>)
    ensures |r| == 1 && r[0].role == "assistant"
  {
    [Message("assistant", EmergencyText(WhatsappNumber))]
  }

  /** The emergency answer names the Red Cross number and the 112 emergency line, and is
      the same for every conversation. */
  lemma EmergencyNamesContacts(messages: seq<Message>, other: seq<Message>)
    ensures Contains(Emergency(messages)[0].content, WhatsappNumber)
    ensures Contains(Emergency(messages)[0].content, "112")
    ensures Emergency(messages) == Emergency(other)
  {
    var text := EmergencyText(WhatsappNumber);
    ContainsMiddle(EmergencyLead, WhatsappNumber, EmergencyMiddle + "112" + EmergencyEnd);
    assert EmergencyLead + WhatsappNumber + (EmergencyMiddle + "112" + EmergencyEnd) == text;
    ContainsMiddle(EmergencyLead + WhatsappNumber + EmergencyMiddle, "112", EmergencyEnd);
  }

  /** `await_clarification_node`: passes the last message on as an assistant message; an
      empty history makes the `[-1]` index fail. */
  function AwaitClarification(messages: seq<Message>): (r: Result<seq<Message>>)
    ensures r.Err? <==> |messages| == 0
    ensures r.Err? ==> r.error == IndexError("list index out of range")
    ensures r.Ok? ==> r.value == [Message("assistant", messages[|messages| - 1].content)]
  {
    match LastMessage(messages)
    case Err(e) => Err(e)
    case Ok(m) => Ok([Message("assistant", m.content)])
  }

  /** After query understanding has appended its clarification request, the clarification
      node repeats exactly that request, which lists every option. */
  lemma ClarificationIsRepeated(history: seq<Message>, options: seq<string>, i: nat)
    requires i < |options|
    ensures AwaitClarification(history + [Message("assistant", QU.ClarificationMessage(options))])
      == Ok([Message("assistant", QU.ClarificationMessage(options))])
    ensures Contains(QU.ClarificationMessage(options), options[i])
  {
    QU.ClarificationMessageListsOptions(options, i);
  }
}
