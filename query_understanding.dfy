/** The query-understanding agent after its classification call: the closed domain
    vocabulary, the classification record with its defaults, and the branching that turns a
    classification into routing commands. The classification itself comes from a language
    model and is an input here. */
module QueryUnderstanding {
  import opened Common
  import opened Text

  /** The fifteen-value `Domains` literal. */
  datatype Domain =
    | WhereToGoFirst | Shelter | HealthWellbeing | Dentist | SafetyProtection
    | FoodClothing | Work | AsylumReturn | LegalAdvice | SearchMissingRelatives
    | Women | ChildrenYouth | CoursesActivities | Feedback | HelpdeskSocialSupport

  function DomainName(d: Domain): string {
    match d
    case WhereToGoFirst => "Where to go first"
    case Shelter => "Shelter"
    case HealthWellbeing => "Health & Wellbeing"
    case Dentist => "Dentist"
    case SafetyProtection => "Safety & Protection"
    case FoodClothing => "Food & Clothing"
    case Work => "Work"
    case AsylumReturn => "Asylum & Return"
    case LegalAdvice => "Legal Advice"
    case SearchMissingRelatives => "Search Missing Relatives"
    case Women => "Women"
    case ChildrenYouth => "Children & Youth"
    case CoursesActivities => "Courses & Activities"
    case Feedback => "Feedback"
    case HelpdeskSocialSupport => "Helpdesk & Social Support"
  }

  /** The vocabulary in declaration order. */
  function AllDomains(): seq<Domain> {
    [WhereToGoFirst, Shelter, HealthWellbeing, Dentist, SafetyProtection,
     FoodClothing, Work, AsylumReturn, LegalAdvice, SearchMissingRelatives,
     Women, ChildrenYouth, CoursesActivities, Feedback, HelpdeskSocialSupport]
  }

  /** The validation the structured output applies to `domain`: exactly the fifteen names
      are accepted. */
  function ParseDomain(s: string): (r: Option<Domain>)
    ensures r.Some? ==> DomainName(r.value) == s
    ensures r.None? ==> forall d: Domain :: DomainName(d) != s
  {
    if s == "Where to go first" then Some(WhereToGoFirst)
    else if s == "Shelter" then Some(Shelter)
    else if s == "Health & Wellbeing" then Some(HealthWellbeing)
    else if s == "Dentist" then Some(Dentist)
    else if s == "Safety & Protection" then Some(SafetyProtection)
    else if s == "Food & Clothing" then Some(FoodClothing)
    else if s == "Work" then Some(Work)
    else if s == "Asylum & Return" then Some(AsylumReturn)
    else if s == "Legal Advice" then Some(LegalAdvice)
    else if s == "Search Missing Relatives" then Some(SearchMissingRelatives)
    else if s == "Women" then Some(Women)
    else if s == "Children & Youth" then Some(ChildrenYouth)
    else if s == "Courses & Activities" then Some(CoursesActivities)
    else if s == "Feedback" then Some(Feedback)
    else if s == "Helpdesk & Social Support" then Some(HelpdeskSocialSupport)
    else None
  }

  /** Every domain name parses back to its domain, so the fifteen names are distinct. */
  lemma ParseDomainName(d: Domain)
    ensures ParseDomain(DomainName(d)) == Some(d)
  {
  }

  /** The vocabulary lists every domain exactly once. */
  lemma AllDomainsComplete(d: Domain)
    ensures |AllDomains()| == 15
    ensures exists i :: 0 <= i < 15 && AllDomains()[i] == d
    ensures forall i, j :: 0 <= i < j < 15 ==> AllDomains()[i] != AllDomains()[j]
  {
    match d
    case WhereToGoFirst => assert AllDomains()[0] == d;
    case Shelter => assert AllDomains()[1] == d;
    case HealthWellbeing => assert AllDomains()[2] == d;
    case Dentist => assert AllDomains()[3] == d;
    case SafetyProtection => assert AllDomains()[4] == d;
    case FoodClothing => assert AllDomains()[5] == d;
    case Work => assert AllDomains()[6] == d;
    case AsylumReturn => assert AllDomains()[7] == d;
    case LegalAdvice => assert AllDomains()[8] == d;
    case SearchMissingRelatives => assert AllDomains()[9] == d;
    case Women => assert AllDomains()[10] == d;
    case ChildrenYouth => assert AllDomains()[11] == d;
    case CoursesActivities => assert AllDomains()[12] == d;
    case Feedback => assert AllDomains()[13] == d;
    case HelpdeskSocialSupport => assert AllDomains()[14] == d;
  }

  /** `query_type`: `Literal["clear", "needs_clarification", "emergency"]`. */
  datatype QueryType = Clear | NeedsClarification | Emergency

  function QueryTypeName(t: QueryType): string {
    match t
    case Clear => "clear"
    case NeedsClarification => "needs_clarification"
    case Emergency => "emergency"
  }

  function ParseQueryType(s: string): (r: Option<QueryType>)
    ensures r.Some? <==> s in {"clear", "needs_clarification", "emergency"}
    ensures r.Some? ==> QueryTypeName(r.value) == s
  {
    if s == "clear" then Some(Clear)
    else if s == "needs_clarification" then Some(NeedsClarification)
    else if s == "emergency" then Some(Emergency)
    else None
  }

  /** `QueryAnalysis`, the classification record. `clarification_options` is Optional. */
  datatype QueryAnalysis = QueryAnalysis(
    queryType: QueryType,
    domain: Domain,
    emotionalState: string,
    language: string,
    confidence: real,
    extractedEntities: Entities,
    topics: seq<string>,
    clarificationOptions: Option<seq<string>>)

  const DefaultClarificationPrompt: string :=
    "Can you confirm whether your question is related to any of the following: "

  /** A `QueryAnalysis` built from its required fields only: `topics` and
      `clarification_options` take their declared defaults. */
  function NewQueryAnalysis(queryType: QueryType, domain: Domain, emotionalState: string,
                            language: string, confidence: real, entities: Entities): (a: QueryAnalysis)
    ensures a.topics == []
    ensures a.clarificationOptions.Some? && |a.clarificationOptions.value| == 1
    ensures a.clarificationOptions.value[0] == DefaultClarificationPrompt
    ensures a.queryType == queryType && a.domain == domain && a.extractedEntities == entities
    ensures a.emotionalState == emotionalState && a.language == language && a.confidence == confidence
  {
    QueryAnalysis(queryType, domain, emotionalState, language, confidence, entities,
                  [], Some([DefaultClarificationPrompt]))
  }

  /** `AgentState`. `location` is looked up with `state.get`, so it may be absent. */
  datatype AgentState = AgentState(messages: seq<Message>, query: string, location: Option<string>)

  /** The context-management payload (`user_context`). */
  datatype UserContext = UserContext(language: string, emotionalState: string, domain: string,
                                     location: Option<string>, entities: Entities)

  /** The `update` of a command. */
  datatype Update =
    | ClarificationUpdate(messages: seq<Message>, analysis: QueryAnalysis)
    | EmergencyUpdate(messages: seq<Message>, analysis: QueryAnalysis)
    | ContextUpdate(userContext: UserContext)
    | RagUpdate(queryContext: RagInput)

  datatype Command = Command(goto: string, update: Update)

  /** The node returns one command, or a list of them. */
  datatype NodeOutput = Single(command: Command) | Commands(commands: seq<Command>)

  const ClarificationHeader: string := "To better help you, " + "could you clarify if you mean:"

  lemma HeaderNewlineFree()
    ensures NewlineFree(ClarificationHeader)
  {
    assert NewlineFree("To better help you, ");
    assert NewlineFree("could you clarify if you mean:");
  }

  /** The option lines `- opt`, in order. */
  function OptionLines(options: seq<string>): (r: seq<string>)
    ensures |r| == |options|
    ensures forall i :: 0 <= i < |options| ==> r[i] == "- " + options[i]
  {
    if |options| == 0 then [] else ["- " + options[0]] + OptionLines(options[1..])
  }

  /** The clarification message: the header, a newline, then the option lines joined by
      newlines. */
  function ClarificationMessage(options: seq<string>): string {
    ClarificationHeader + "\n" + Join("\n", OptionLines(options))
  }

  /** With newline-free options, the message has the header line followed by one `- opt`
      line per option in order; with no options at all, one empty line follows the header. */
  lemma ClarificationMessageLines(options: seq<string>)
    requires forall i :: 0 <= i < |options| ==> NewlineFree(options[i])
    ensures |options| > 0 ==> Lines(ClarificationMessage(options)) == [ClarificationHeader] + OptionLines(options)
    ensures |options| == 0 ==> Lines(ClarificationMessage(options)) == [ClarificationHeader, ""]
    ensures |Lines(ClarificationMessage(options))| > 1
  {
    var lines := OptionLines(options);
    HeaderNewlineFree();
    if |options| > 0 {
      forall i | 0 <= i < |lines| ensures NewlineFree(lines[i]) {
        NewlineFreeConcat("- ", options[i]);
      }
      HeadedLines(ClarificationHeader, lines);
    } else {
      LinesAfterNewlineFree(ClarificationHeader, "");
    }
  }

  /** Every option appears verbatim in the clarification message. */
  lemma ClarificationMessageListsOptions(options: seq<string>, i: nat)
    requires i < |options|
    ensures Contains(ClarificationMessage(options), options[i])
  {
    var lines := OptionLines(options);
    JoinContains("\n", lines, i);
    ContainsMiddle("- ", options[i], "");
    assert "- " + options[i] + "" == lines[i];
    ContainsTransitive(Join("\n", lines), lines[i], options[i]);
    ContainsWiden(Join("\n", lines), options[i], ClarificationHeader + "\n", "");
    assert ClarificationHeader + "\n" + Join("\n", lines) + "" == ClarificationMessage(options);
  }

  /** The `ANTHROPIC_API_KEY` check: unset and empty both fail (`not os.getenv(...)`). */
  predicate HasApiKey(apiKey: Option<string>) {
    apiKey.Some? && apiKey.value != ""
  }

  /** `query_understanding_node` after the model call: `analysis` is the structured output
      for this state, `apiKey` the environment's key. */
  function QueryUnderstandingNode(apiKey: Option<string>, state: AgentState, analysis: QueryAnalysis): (r: Result<NodeOutput>)
    ensures !HasApiKey(apiKey) ==> r == Err(ValueError("ANTHROPIC_API_KEY environment variable is not set"))
    ensures HasApiKey(apiKey) && analysis.queryType == NeedsClarification ==>
      if analysis.clarificationOptions.None? then r == Err(TypeError("'NoneType' object is not iterable"))
      else r == Ok(Single(Command("await_clarification", ClarificationUpdate(
        [Message("assistant", ClarificationMessage(analysis.clarificationOptions.value))], analysis))))
    ensures HasApiKey(apiKey) && analysis.queryType == Emergency ==>
      r == Ok(Single(Command("emergency_response", EmergencyUpdate(state.messages, analysis))))
    ensures HasApiKey(apiKey) && analysis.queryType == Clear ==>
      r.Ok? && r.value.Commands? && |r.value.commands| == 2
  {
    if !HasApiKey(apiKey) then Err(ValueError("ANTHROPIC_API_KEY environment variable is not set"))
    else match analysis.queryType
      case NeedsClarification =>
        (match analysis.clarificationOptions
         case None => Err(TypeError("'NoneType' object is not iterable"))
         case Some(options) =>
           Ok(Single(Command("await_clarification", ClarificationUpdate(
             [Message("assistant", ClarificationMessage(options))], analysis)))))
      case Emergency =>
        Ok(Single(Command("emergency_response", EmergencyUpdate(state.messages, analysis))))
      case Clear =>
        var context := UserContext(analysis.language, analysis.emotionalState, DomainName(analysis.domain),
                                   state.location, analysis.extractedEntities);
        var request := RagInput(state.query, DomainName(analysis.domain), analysis.extractedEntities,
                                analysis.language);
        Ok(Commands([Command("context_management", ContextUpdate(context)),
                     Command("rag", RagUpdate(request))]))
  }

  /** A clear query yields the context-management command then the RAG command; both carry
      the classifier's domain and entities, the RAG request carries the user's query and
      the context carries the state's location. */
  lemma ClearQueryDispatch(apiKey: Option<string>, state: AgentState, analysis: QueryAnalysis)
    requires HasApiKey(apiKey) && analysis.queryType == Clear
    ensures var r := QueryUnderstandingNode(apiKey, state, analysis);
      && r.Ok? && r.value.Commands? && |r.value.commands| == 2
      && r.value.commands[0].goto == "context_management" && r.value.commands[0].update.ContextUpdate?
      && r.value.commands[1].goto == "rag" && r.value.commands[1].update.RagUpdate?
      && var uc := r.value.commands[0].update.userContext;
         var qc := r.value.commands[1].update.queryContext;
         && uc.domain == qc.domain == DomainName(analysis.domain)
         && uc.entities == qc.entities == analysis.extractedEntities
         && uc.language == qc.language == analysis.language
         && uc.emotionalState == analysis.emotionalState
         && qc.originalQuery == state.query
         && uc.location == state.location
  {
  }

  /** The routing target of every successful output is fixed by the query type alone, and
      only a clear query produces more than one command. */
  lemma NodeTargets(apiKey: Option<string>, state: AgentState, analysis: QueryAnalysis)
    requires QueryUnderstandingNode(apiKey, state, analysis).Ok?
    ensures var out := QueryUnderstandingNode(apiKey, state, analysis).value;
      && (out.Single? <==> analysis.queryType != Clear)
      && (out.Single? ==>
            out.command.goto == (if analysis.queryType == Emergency then "emergency_response" else "await_clarification"))
      && (out.Commands? ==> forall c :: c in out.commands ==> c.goto in {"context_management", "rag"})
  {
  }
}
