/** The Streamlit entry point: the per-turn graph state, the choice of the reply text from
    the graph's final state, the mapping of failures to an HTTP 500 error, and the session
    history the page appends to. The compiled graph's `invoke` is a parameter. */
module StreamlitMain {
  import opened Common
  import QU = QueryUnderstanding
  import Rag
  import CG = ConversationGraph

  /** `ChatInput`. The one caller always passes the session history as a list. */
  datatype ChatInput = ChatInput(message: string, history: seq<Message>, location: Option<string>, sessionId: Option<string>)

  /** The `final_response` entry of the graph's result as `chat` reads it: missing, `None`,
      a plain string (what the field is declared as), or a dict of strings. */
  datatype FinalResponse = Absent | NoneValue | Text(text: string) | Record(fields: map<string, string>)

  /** The graph state `ConversationState` at the start of a turn. */
  datatype ConversationState = ConversationState(
    messages: seq<Message>, query: string, location: Option<string>,
    analysis: CG.StoredAnalysis, initialResponse: Option<Rag.RagOutput>, finalResponse: FinalResponse)

  /** What `conversation_graph.invoke` returns, as far as `chat` reads it. */
  datatype GraphResult = GraphResult(messages: seq<Message>, finalResponse: FinalResponse)

  /** What `chat` returns or raises. */
  datatype ChatResult = ChatResponse(response: string) | HttpException(statusCode: nat, detail: string)

  /** `initial_state`: the history and the message, with every result slot empty. */
  function InitialState(input: ChatInput): (s: ConversationState)
    ensures s.messages == input.history && s.query == input.message && s.location == input.location
    ensures s.analysis == CG.NotSet && s.initialResponse.None? && s.finalResponse == NoneValue
  {
    ConversationState(input.history, input.message, input.location, CG.NotSet, None, NoneValue)
  }

  /** The reply text: `final_response["text"]` whenever the key is present, even when its
      value is `None`; only when it is missing, the content of the last message. */
  function ExtractReply(result: GraphResult): (r: Result<string>)
    ensures result.finalResponse.Absent? ==>
      (r.Ok? <==> |result.messages| > 0) &&
      (r.Ok? ==> r.value == result.messages[|result.messages| - 1].content)
    ensures result.finalResponse.NoneValue? ==> r == Err(TypeError("'NoneType' object is not subscriptable"))
    ensures result.finalResponse.Text? ==> r == Err(TypeError("string indices must be integers, not 'str'"))
    ensures result.finalResponse.Record? ==>
      if "text" in result.finalResponse.fields then r == Ok(result.finalResponse.fields["text"])
      else r == Err(KeyError("text"))
  {
    match result.finalResponse
    case Absent =>
      (match LastMessage(result.messages)
       case Ok(m) => Ok(m.content)
       case Err(e) => Err(e))
    case NoneValue => Err(TypeError("'NoneType' object is not subscriptable"))
    case Text(_) => Err(TypeError("string indices must be integers, not 'str'"))
    case Record(fields) => if "text" in fields then Ok(fields["text"]) else Err(KeyError("text"))
  }

  /** `chat`: run the graph on a fresh turn state and pick the reply; any exception becomes
      a status-500 error carrying `str(e)`. */
  function Chat(input: ChatInput, invoke: ConversationState -> Result<GraphResult>): (r: ChatResult)
    ensures r.HttpException? ==> r.statusCode == 500
    ensures r.ChatResponse? <==> invoke(InitialState(input)).Ok? && ExtractReply(invoke(InitialState(input)).value).Ok?
    ensures r.ChatResponse? ==> r.response == ExtractReply(invoke(InitialState(input)).value).value
    ensures invoke(InitialState(input)).Err? ==> r.detail == Describe(invoke(InitialState(input)).error)
    ensures var g := invoke(InitialState(input));
      g.Ok? && ExtractReply(g.value).Err? ==> r.detail == Describe(ExtractReply(g.value).error)
  {
    match invoke(InitialState(input))
    case Err(e) => HttpException(500, Describe(e))
    case Ok(result) =>
      match ExtractReply(result)
      case Err(e) => HttpException(500, Describe(e))
      case Ok(text) => ChatResponse(text)
  }

  /** If the graph hands back the `final_response: None` the turn started with, the key is
      present and `chat` fails, whatever the messages say. */
  lemma UntouchedFinalResponseFails(input: ChatInput, invoke: ConversationState -> Result<GraphResult>)
    requires invoke(InitialState(input)).Ok?
    requires invoke(InitialState(input)).value.finalResponse == InitialState(input).finalResponse
    ensures Chat(input, invoke) == HttpException(500, "'NoneType' object is not subscriptable")
  {
  }

  /** `location if location else None`. */
  function LocationArg(location: string): (r: Option<string>)
    ensures r.None? <==> location == ""
    ensures r.Some? ==> r.value == location
  {
    if location != "" then Some(location) else None
  }

  /** Every assistant entry directly follows a user entry. */
  ghost predicate Paired(messages: seq<Message>) {
    (forall i :: 0 <= i < |messages| ==> messages[i].role in {"user", "assistant"}) &&
    (forall i :: 0 <= i < |messages| && messages[i].role == "assistant" ==> i > 0 && messages[i - 1].role == "user")
  }

  /** A successful turn adds a user entry and then an assistant entry; a failed one only the
      user entry. Either way the history stays paired. */
  lemma {:induction false} TurnKeepsPaired(history: seq<Message>, prompt: string, reply: Option<string>)
    requires Paired(history)
    ensures Paired(history + [Message("user", prompt)])
    ensures reply.Some? ==> Paired(history + [Message("user", prompt), Message("assistant", reply.value)])
  {
    var h1 := history + [Message("user", prompt)];
    assert forall i :: 0 <= i < |history| ==> h1[i] == history[i];
    if reply.Some? {
      var h2 := history + [Message("user", prompt), Message("assistant", reply.value)];
      assert forall i :: 0 <= i < |history| ==> h2[i] == history[i];
      assert h2[|history|].role == "user";
    }
  }

  /** `st.session_state.messages`, kept across reruns of the page. */
  class Session {
    var messages: seq<Message>

    /** `st.session_state.messages = []` on the first run. */
    constructor ()
      ensures messages == []
      ensures Paired(messages)
    {
      messages := [];
    }

    /** One rerun with the chat box's value (`None` or empty when nothing was submitted) and
        the location field. The graph sees the history from before the new prompt; the user
        entry is appended before `chat` runs, the assistant entry only if it returns. */
    method Submit(prompt: Option<string>, location: string, invoke: ConversationState -> Result<GraphResult>)
      returns (outcome: Option<ChatResult>)
      requires Paired(messages)
      modifies this
      ensures Paired(messages)
      ensures prompt.None? || prompt.value == "" ==> outcome.None? && messages == old(messages)
      ensures prompt.Some? && prompt.value != "" ==>
        && outcome == Some(Chat(ChatInput(prompt.value, old(messages), LocationArg(location), None), invoke))
        && (if outcome.value.ChatResponse?
            then messages == old(messages) + [Message("user", prompt.value), Message("assistant", outcome.value.response)]
            else messages == old(messages) + [Message("user", prompt.value)])
    {
      if prompt.None? || prompt.value == "" {
        return None;
      }
      var p := prompt.value;
      var input := ChatInput(p, messages, LocationArg(location), None);
      TurnKeepsPaired(messages, p, None);
      messages := messages + [Message("user", p)];
      var result := Chat(input, invoke);
      outcome := Some(result);
      if result.ChatResponse? {
        TurnKeepsPaired(old(messages), p, Some(result.response));
        messages := messages + [Message("assistant", result.response)];
        assert messages == old(messages) + [Message("user", p), Message("assistant", result.response)];
      }
    }
  }
}
