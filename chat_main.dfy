/** The terminal entry point: its router, the initial stream state, the printing of
    streamed node updates, and the read-evaluate loop with its quit words. The graph's
    stream and the console are parameters: one turn is given as the lines it prints and the
    exception it ends with, if any. */
module ChatMain {
  import opened Common
  import opened Text
  import QU = QueryUnderstanding
  import CG = ConversationGraph

  // ---------------------------------------------------------------------------------
  // Routing

  /** The router as written. The stream state starts without an `analysis` key, so an
      analysis that was never written is a KeyError on `state["analysis"]`; a written one
      is the dict from `model_dump()`, which has no attribute `query_type`. */
  function RouteAsWritten(a: CG.StoredAnalysis): (r: Result<CG.Node>)
    ensures r.Err?
    ensures a.NotSet? ==> r.error == KeyError("analysis")
    ensures a.Dumped? ==> r.error.AttributeError?
  {
    match a
    case NotSet => Err(KeyError("analysis"))
    case Dumped(_) => Err(AttributeError("'dict' object has no attribute 'query_type'"))
  }

  /** Even a turn the classifier marked as an emergency cannot be routed as written. */
  lemma EmergencyTurnCannotRoute(analysis: QU.QueryAnalysis)
    requires analysis.queryType == QU.Emergency
    ensures RouteAsWritten(CG.Dumped(analysis)) == Err(AttributeError("'dict' object has no attribute 'query_type'"))
    ensures CG.RouteStored(CG.Dumped(analysis)) == Ok(CG.EmergencyNode)
  {
  }

  /** The router with the dict read by key, as in the web entry point: the same total
      three-way dispatch. An analysis never written is still a missing key. */
  function RouteByQueryType(a: CG.StoredAnalysis): (r: Result<CG.Node>)
    ensures a.Dumped? ==> r == Ok(CG.Route(QU.QueryTypeName(a.analysis.queryType)))
    ensures a.Dumped? ==> r == CG.RouteStored(a)
    ensures a.NotSet? ==> r == Err(KeyError("analysis"))
  {
    match a
    case NotSet => Err(KeyError("analysis"))
    case Dumped(x) => Ok(CG.Route(QU.QueryTypeName(x.queryType)))
  }

  /** With the analysis set, the corrected router sends every classification where its
      name says: clear to retrieval, emergency to the emergency node, clarification to
      the clarification node. */
  lemma RouteByQueryTypeDispatch(analysis: QU.QueryAnalysis)
    ensures var r := RouteByQueryType(CG.Dumped(analysis));
      && (r == Ok(CG.RagNode) <==> analysis.queryType == QU.Clear)
      && (r == Ok(CG.EmergencyNode) <==> analysis.queryType == QU.Emergency)
      && (r == Ok(CG.AwaitClarificationNode) <==> analysis.queryType == QU.NeedsClarification)
  {
  }

  // ---------------------------------------------------------------------------------
  // Streaming one turn

  /** The state `stream_graph_updates` starts the graph with. */
  datatype StreamState = StreamState(messages: seq<Message>, query: string, location: Option<string>)

  function InitialStreamState(userInput: string, location: Option<string>): (s: StreamState)
    ensures |s.messages| == 1 && s.messages[0] == Message("user", userInput)
    ensures s.query == userInput && s.location == location
  {
    StreamState([Message("user", userInput)], userInput, location)
  }

  /** One node's update in a streamed event: its `messages` entry, or `None` when the
      update has no such key. */
  type UpdateValue = Option<seq<Message>>

  /** What one update prints: the last message of a non-empty `messages` entry. */
  function UpdateLines(v: UpdateValue): (r: seq<string>)
    ensures |r| <= 1
    ensures |r| == 1 <==> v.Some? && |v.value| > 0
    ensures |r| == 1 ==> r[0] == "Assistant: " + v.value[|v.value| - 1].content
  {
    if v.Some? && |v.value| > 0 then ["Assistant: " + v.value[|v.value| - 1].content] else []
  }

  /** What the updates of one event print, in order. */
  function EventLines(values: seq<UpdateValue>): seq<string> {
    if |values| == 0 then [] else EventLines(values[..|values| - 1]) + UpdateLines(values[|values| - 1])
  }

  /** What a whole stream prints, in order. */
  function StreamLines(events: seq<seq<UpdateValue>>): seq<string> {
    if |events| == 0 then [] else StreamLines(events[..|events| - 1]) + EventLines(events[|events| - 1])
  }

  /** The printing loops of `stream_graph_updates`. */
  method StreamGraphUpdates(events: seq<seq<UpdateValue>>) returns (printed: seq<string>)
    ensures printed == StreamLines(events)
  {
    printed := [];
    var i := 0;
    while i < |events|
      invariant 0 <= i <= |events|
      invariant printed == StreamLines(events[..i])
    {
      var event := events[i];
      ghost var before := printed;
      var j := 0;
      while j < |event|
        invariant 0 <= j <= |event|
        invariant printed == before + EventLines(event[..j])
      {
        var value := event[j];
        assert event[..j + 1][..j] == event[..j];
        assert EventLines(event[..j + 1]) == EventLines(event[..j]) + UpdateLines(value);
        if value.Some? && |value.value| > 0 {
          printed := printed + ["Assistant: " + value.value[|value.value| - 1].content];
        } else {
          assert UpdateLines(value) == [];
        }
        j := j + 1;
      }
      assert event[..j] == event;
      assert events[..i + 1][..i] == events[..i];
      assert StreamLines(events[..i + 1]) == StreamLines(events[..i]) + EventLines(event);
      i := i + 1;
    }
    assert events[..i] == events;
  }

  /** Each printed line is the one line of some update (by `UpdateLines`, the last message
      of a non-empty `messages` entry), and there are no more lines than updates. */
  lemma {:induction false} EventLinesShape(values: seq<UpdateValue>, k: nat)
    requires k < |EventLines(values)|
    ensures |EventLines(values)| <= |values|
    ensures exists j :: 0 <= j < |values| && UpdateLines(values[j]) == [EventLines(values)[k]]
  {
    var n := |values|;
    var front := values[..n - 1];
    EventLinesLength(front);
    if k < |EventLines(front)| {
      EventLinesShape(front, k);
      var j :| 0 <= j < |front| && UpdateLines(front[j]) == [EventLines(front)[k]];
      assert values[j] == front[j];
    } else {
      assert EventLines(values)[k] == UpdateLines(values[n - 1])[0];
      assert UpdateLines(values[n - 1]) == [EventLines(values)[k]];
    }
  }

  lemma {:induction false} EventLinesLength(values: seq<UpdateValue>)
    ensures |EventLines(values)| <= |values|
  {
    if |values| > 0 {
      EventLinesLength(values[..|values| - 1]);
    }
  }

  /** Updates without messages, or with an empty list, print nothing. */
  lemma {:induction false} SilentUpdatesPrintNothing(values: seq<UpdateValue>)
    requires forall j :: 0 <= j < |values| ==> values[j].None? || |values[j].value| == 0
    ensures EventLines(values) == []
  {
    if |values| > 0 {
      SilentUpdatesPrintNothing(values[..|values| - 1]);
    }
  }

  // ---------------------------------------------------------------------------------
  // The read-evaluate loop

  /** `user_input.lower() in ["quit", "exit", "q"]`. */
  predicate IsQuit(s: string) {
    var l := Lower(s); l == "quit" || l == "exit" || l == "q"
  }

  /** The quit check ignores letter case but nothing else: surrounding spaces or other
      words do not stop the loop. */
  lemma QuitWords()
    ensures IsQuit("quit") && IsQuit("QUIT") && IsQuit("Exit") && IsQuit("Q")
    ensures !IsQuit("quit ") && !IsQuit("") && !IsQuit("bye")
  {
    assert Lower("QUIT") == "quit";
    assert Lower("Exit") == "exit";
    assert Lower("Q") == "q";
    assert Lower("quit ")[4] == ' ';
    assert Lower("bye")[0] == 'b';
  }

  /** Strings that differ only in the case of their ASCII letters are both quit words or
      neither. */
  lemma {:induction false} IsQuitCaseInsensitive(s: string, t: string)
    requires |s| == |t| && forall i :: 0 <= i < |s| ==> LowerChar(s[i]) == LowerChar(t[i])
    ensures IsQuit(s) <==> IsQuit(t)
  {
    LowerPointwise(s);
    LowerPointwise(t);
    assert Lower(s) == Lower(t);
  }

  /** One console event: a typed line, or Ctrl-C at the prompt. */
  datatype InputEvent = Line(text: string) | Interrupt

  /** What one turn prints and the exception it ends with, if any. */
  datatype TurnOutput = TurnOutput(printed: seq<string>, failure: Option<PyError>)

  const Banner: string := "Red Cross Virtual Assistant" + " (type 'quit' to exit)"
  const Prompt: string := "User: "
  const Farewell: string := "Thank you for using" + " the Red Cross Virtual Assistant." + " Goodbye!"
  const InterruptFarewell: string := "\nGoodbye!"
  const SupportHint: string := "Please try again or contact support" + " if the issue persists."

  /** What a turn prints, followed by the two error lines when it fails. */
  function TurnLines(out: TurnOutput): (r: seq<string>)
    ensures out.failure.None? ==> r == out.printed
    ensures out.failure.Some? ==>
      r == out.printed + ["An error occurred: " + Describe(out.failure.value), SupportHint]
  {
    match out.failure
    case None => out.printed
    case Some(e) => out.printed + ["An error occurred: " + Describe(e), SupportHint]
  }

  predicate Stops(e: InputEvent) {
    e.Interrupt? || IsQuit(e.text)
  }

  /** The console output for the remaining input, after the banner. */
  function Session(inputs: seq<InputEvent>, turn: string -> TurnOutput): seq<string> {
    if |inputs| == 0 then []
    else match inputs[0]
      case Interrupt => [Prompt, InterruptFarewell]
      case Line(t) =>
        if IsQuit(t) then [Prompt, Farewell]
        else [Prompt] + TurnLines(turn(t)) + Session(inputs[1..], turn)
  }

  /** The lines handed to the graph, in order. */
  function Queries(inputs: seq<InputEvent>): seq<string> {
    if |inputs| == 0 || Stops(inputs[0]) then [] else [inputs[0].text] + Queries(inputs[1..])
  }

  /** What the first event of the input prints and hands to the graph. */
  lemma {:induction false} SessionStep(rest: seq<InputEvent>, turn: string -> TurnOutput)
    requires |rest| > 0
    ensures Stops(rest[0]) ==> Queries(rest) == []
    ensures Stops(rest[0]) ==> Session(rest, turn) == [Prompt, if rest[0].Interrupt? then InterruptFarewell else Farewell]
    ensures !Stops(rest[0]) ==>
      && Session(rest, turn) == [Prompt] + TurnLines(turn(rest[0].text)) + Session(rest[1..], turn)
      && Queries(rest) == [rest[0].text] + Queries(rest[1..])
  {
  }

  /** The loop so far has printed `transcript` and handed on `queries`, and the rest of the
      input accounts for everything else. */
  ghost predicate ReplSoFar(inputs: seq<InputEvent>, i: nat, turn: string -> TurnOutput, transcript: seq<string>, queries: seq<string>)
    requires i <= |inputs|
  {
    && transcript + Session(inputs[i..], turn) == [Banner] + Session(inputs, turn)
    && queries + Queries(inputs[i..]) == Queries(inputs)
  }

  /** Output already produced, followed by the output of the rest, read with the first
      pieces of the rest moved to the front. */
  lemma {:induction false} Regroup<T>(done: seq<T>, a: seq<T>, rest: seq<T>, next: seq<T>, total: seq<T>)
    requires done + rest == total && rest == a + next
    ensures done + a + next == total
  {
  }

  /** A line that is not a quit word prints the prompt and its turn, and reaches the graph. */
  lemma {:induction false} ContinueStep(inputs: seq<InputEvent>, i: nat, turn: string -> TurnOutput, transcript: seq<string>, queries: seq<string>)
    requires i < |inputs| && inputs[i].Line? && !IsQuit(inputs[i].text)
    requires ReplSoFar(inputs, i, turn, transcript, queries)
    ensures ReplSoFar(inputs, i + 1, turn, transcript + ([Prompt] + TurnLines(turn(inputs[i].text))), queries + [inputs[i].text])
  {
    var rest, next := inputs[i..], inputs[i + 1..];
    assert rest[0] == inputs[i] && rest[1..] == next;
    SessionStep(rest, turn);
    Regroup(transcript, [Prompt] + TurnLines(turn(inputs[i].text)), Session(rest, turn), Session(next, turn), [Banner] + Session(inputs, turn));
    Regroup(queries, [inputs[i].text], Queries(rest), Queries(next), Queries(inputs));
  }

  /** A quit word or an interrupt prints the prompt and the matching farewell and ends the
      session. */
  lemma {:induction false} StopStep(inputs: seq<InputEvent>, i: nat, turn: string -> TurnOutput, transcript: seq<string>, queries: seq<string>)
    requires i < |inputs| && Stops(inputs[i])
    requires ReplSoFar(inputs, i, turn, transcript, queries)
    ensures transcript + [Prompt, if inputs[i].Interrupt? then InterruptFarewell else Farewell] == [Banner] + Session(inputs, turn)
    ensures queries == Queries(inputs)
  {
    assert inputs[i..][0] == inputs[i];
    SessionStep(inputs[i..], turn);
  }

  /** The `__main__` loop, run over a finite console input. */
  method Repl(inputs: seq<InputEvent>, turn: string -> TurnOutput) returns (transcript: seq<string>, queries: seq<string>)
    ensures transcript == [Banner] + Session(inputs, turn)
    ensures queries == Queries(inputs)
  {
    transcript := [Banner];
    queries := [];
    var i := 0;
    while i < |inputs|
      invariant 0 <= i <= |inputs|
      invariant ReplSoFar(inputs, i, turn, transcript, queries)
    {
      match inputs[i]
      case Interrupt =>
        StopStep(inputs, i, turn, transcript, queries);
        transcript := transcript + [Prompt, InterruptFarewell];
        return;
      case Line(t) =>
        if IsQuit(t) {
          StopStep(inputs, i, turn, transcript, queries);
          transcript := transcript + [Prompt, Farewell];
          return;
        }
        var out := turn(t);
        ContinueStep(inputs, i, turn, transcript, queries);
        transcript := transcript + ([Prompt] + TurnLines(out));
        queries := queries + [t];
        i := i + 1;
    }
    assert inputs[i..] == [];
  }

  /** Nothing after the first quit word or interrupt is read: the output is that of the
      input cut just after it, and it ends with a farewell. */
  lemma {:induction false} StopsAtFirstQuit(inputs: seq<InputEvent>, k: nat, turn: string -> TurnOutput)
    requires k < |inputs| && Stops(inputs[k])
    requires forall j :: 0 <= j < k ==> !Stops(inputs[j])
    ensures Session(inputs, turn) == Session(inputs[..k + 1], turn)
    ensures Queries(inputs) == Queries(inputs[..k + 1])
    ensures |Queries(inputs)| == k
    ensures |Session(inputs, turn)| > 0
    ensures Session(inputs, turn)[|Session(inputs, turn)| - 1] == if inputs[k].Interrupt? then InterruptFarewell else Farewell
  {
    var cut := inputs[..k + 1];
    assert cut[0] == inputs[0];
    if k == 0 {
      SessionStep(inputs, turn);
      SessionStep(cut, turn);
    } else {
      var tail := inputs[1..];
      assert forall j :: 0 <= j < k - 1 ==> tail[j] == inputs[j + 1];
      StopsAtFirstQuit(tail, k - 1, turn);
      assert tail[..k] == cut[1..];
      assert !Stops(inputs[0]);
      SessionStep(inputs, turn);
      SessionStep(cut, turn);
    }
  }

  /** A quit word never reaches the graph. */
  lemma {:induction false} QueriesAreNotQuitWords(inputs: seq<InputEvent>, j: nat)
    requires j < |Queries(inputs)|
    ensures !IsQuit(Queries(inputs)[j])
  {
    if j > 0 {
      QueriesAreNotQuitWords(inputs[1..], j - 1);
    }
  }
}
