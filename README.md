# HIA orchestration model

HIA ("Helpful Information as Aid") is a prototype Red Cross assistant. Each user turn runs
through a LangGraph workflow:

- a query-understanding node classifies the query as clear, needing clarification, or an
  emergency;
- a router sends the turn down one of three paths: retrieval then quality review, a
  clarification prompt, or a fixed emergency message;
- the retrieval node queries a Chroma collection, scores the results and builds an output
  record;
- the quality node either answers with a fixed text or sends the draft to a tone reviewer.

There are two entry points, a Streamlit page and a terminal loop. There are also a web-search
agent and two loaders that fill the Chroma collection from CSV data.

This project models the deterministic part of that code in Dafny and proves what it does.
Every language-model reply, every vector-store query result, every web search and every graph
invocation is a parameter of the model. Python exceptions are values of `Common.PyError`,
carrying the text `str(e)` would show. A function that can raise returns a `Result`.

Modules, one per source file (plus three shared ones):

- `Common`: the exception type, `Result`/`Option`, chat messages, entity dictionaries and the
  retrieval request.
- `Text`: the Python string built-ins the code relies on (`join`, `split("\n")`, `str(n)`,
  ASCII `lower`, `<` on `str`).
- `Store`: CSV cells, metadata, batches and the persistent collection. The collection is a
  class whose `batches` field its methods update.
- `QueryUnderstanding`, `Rag`, `ResponseQuality`, `WebAgent`: the agents.
- `ConversationGraph`: the nodes, edges and terminal nodes that both entry points declare
  identically.
- `StreamlitMain`, `ChatMain`: the two entry points.
- `CsvToChroma`, `InitializeDb`: the two loaders.

The code is followed wherever it departs from the system's written design:

- The quality gate compares both scores with 0.8, not 0.7. Both thresholds are constants.
- When both scores are low, the gate answers with one fixed string. When only confidence is
  low, it answers with the empty string. Nothing is prepended to the draft and no "approved"
  flag is produced.
- The web agent is not wired into the graph, so there is no web fallback.
- An empty retrieval result makes `max()` raise in the retrieval node before quality review
  runs. It does not lead to an "ask for more context" answer.
- The tone review has no configuration error and no empty-draft error. A missing guidelines
  variable is rendered as the text `None`.
- A clear turn leaves the graph state's `analysis` unset. The query-understanding node returns
  two commands that carry no analysis. So the web entry point's router fails on every clear
  turn (`ConversationGraph.RoutingAfterUnderstanding`).
- An emergency turn's command names "emergency_response", which is not a node of the graph.
- The terminal entry point's router cannot route any turn at all (see "## Findings"). A written analysis has no attribute `query_type`, and on a clear turn the `analysis` key is missing from its state.

## Model

| member | source | states |
|---|---|---|
| Common.Describe | streamlit_main.py:174-176 | a KeyError's message is its key in quotes, as `str(KeyError(k))` prints it |
| Common.LastMessage | streamlit_main.py:169 | `[-1]` gives the last message exactly when the list is non-empty, and raises IndexError otherwise |
| Common.Lookup | src/agents/rag.py:189 | `dict.get` is None exactly when no entry has the key; otherwise it is the value of an entry with that key |
| Common.LookupOr | src/agents/web_agent.py:44 | `dict.get(key, default)` gives the default when the key is absent, and a stored value for that key otherwise |
| Text.JoinContains | src/agents/rag.py:220 | every element of a `sep.join` occurs in the joined string |
| Text.JoinLength | src/agents/web_agent.py:82 | a join of n strings is as long as the strings plus n - 1 separators |
| Text.JoinStartsWithFirst | src/agents/web_agent.py:82 | a non-empty join starts with its first element |
| Text.LinesOfJoin | src/agents/query_understanding.py:116 | splitting a newline-join of newline-free lines gives those lines back |
| Text.HeadedLines | src/agents/query_understanding.py:121 | a header line, a newline and newline-joined lines split into the header followed by the lines |
| Text.NatToStringInjective | csv_to_chroma.py:45 | distinct numbers print as distinct decimal strings |
| Text.Lower | chat_main.py:125 | `lower()` keeps the length of the string |
| Text.LowerPointwise | chat_main.py:125 | `lower()` maps each character independently |
| Text.LexLessIrreflexive | src/agents/rag.py:209-210 | Python's `<` on `str` never holds between a string and itself |
| Text.LexLessTransitive | src/agents/rag.py:209-210 | Python's `<` on `str` is transitive |
| Text.LexLessTotal | src/agents/rag.py:209-210 | any two distinct strings are ordered one way or the other |
| Text.LexLessAsymmetric | src/agents/rag.py:209-210 | no two strings are each less than the other |
| Text.LexLessConcat | src/agents/rag.py:209-210 | for two strings whose prefixes have equal length, the prefixes decide the order unless they are equal |
| Store.DocIds | csv_to_chroma.py:45 | `[f"doc_{i}" for i in range(n)]` has n entries and entry i is `doc_i` |
| Store.DocIdsDistinct | csv_to_chroma.py:45 | the generated identifiers are pairwise distinct |
| Store.VectorStore.constructor | src/utils/initialize_db.py:14 | opening the persistent client shows the stored collection, if there is one, with its batches |
| Store.VectorStore.GetOrCreate | src/utils/initialize_db.py:19-30 | afterwards the collection exists; it was created exactly when it was missing, and a new one is empty while an existing one keeps its batches |
| Store.VectorStore.Add | src/utils/initialize_db.py:45-49 | `collection.add` appends exactly the given batch |
| QueryUnderstanding.ParseDomain | src/agents/query_understanding.py:13-29 | exactly the fifteen domain names are accepted, each as its own domain |
| QueryUnderstanding.ParseDomainName | src/agents/query_understanding.py:13-29 | every domain's name parses back to it, so the names are distinct |
| QueryUnderstanding.AllDomainsComplete | src/agents/query_understanding.py:13-29 | the vocabulary has fifteen entries, lists every domain and repeats none |
| QueryUnderstanding.ParseQueryType | src/agents/query_understanding.py:34-36 | exactly "clear", "needs_clarification" and "emergency" are query types, each given by its own name |
| QueryUnderstanding.NewQueryAnalysis | src/agents/query_understanding.py:32-59 | omitted fields take their defaults: no topics, and one clarification option holding the confirmation prompt |
| QueryUnderstanding.OptionLines | src/agents/query_understanding.py:116 | one `- opt` line per option, in order |
| QueryUnderstanding.ClarificationMessageLines | src/agents/query_understanding.py:114-121 | with newline-free options the message is the header line followed by one line per option; with no options an empty line follows the header |
| QueryUnderstanding.ClarificationMessageListsOptions | src/agents/query_understanding.py:116-121 | every option appears verbatim in the clarification message |
| QueryUnderstanding.QueryUnderstandingNode | src/agents/query_understanding.py:70-167 | a missing or empty API key raises ValueError; a clarification gives one command to await_clarification carrying the message (TypeError when the options are None); an emergency gives one command to emergency_response with the history unchanged; a clear query gives two commands |
| QueryUnderstanding.ClearQueryDispatch | src/agents/query_understanding.py:136-167 | a clear query gives a context_management command, then a rag command; both carry the classifier's domain, entities and language, the request carries the query and the context carries the state's location |
| QueryUnderstanding.NodeTargets | src/agents/query_understanding.py:114-167 | the command targets are fixed by the query type alone, and only a clear query yields more than one command |
| Rag.InitializeVectorstore | src/agents/rag.py:59-126 | an existing collection is returned untouched; a missing one is created holding the four seed documents and nothing else |
| Rag.SumNonNegative | src/agents/rag.py:176 | a sum of non-negative distances is non-negative |
| Rag.ConfidenceScore | src/agents/rag.py:176-177 | confidence never exceeds 1, and is 0 when there are no distances |
| Rag.ScoresInRange | src/agents/rag.py:34-43 | with non-negative distances both scores lie in [0, 1], the range the metadata record demands |
| Rag.CompletenessValues | src/agents/rag.py:178 | with up to three results, completeness is 0, 1/3, 2/3 or 1; it is 0 exactly for no result and below 0.8 exactly for fewer than three |
| Rag.EmptyRetrievalScoresZero | src/agents/rag.py:176-178 | both scores are 0 for an empty retrieval |
| Rag.WhereFilter | src/agents/rag.py:158 | there is no filter exactly for the domain "other"; otherwise the filter is `{"domain": domain}` |
| Rag.Request | src/agents/rag.py:155-160 | the vector store is asked for three results under the domain filter |
| Rag.LatestFrom | src/agents/rag.py:209-210 | the running maximum ends at an index with no greater key, every earlier key strictly smaller |
| Rag.NewBest | src/agents/rag.py:209-210 | a strictly greater key becomes the new best, and it is above every key scanned so far |
| Rag.LatestIndex | src/agents/rag.py:209-210 | `max` picks an index whose key nothing exceeds, and it is the first such index |
| Rag.LatestIndexUnique | src/agents/rag.py:209-210 | those two properties determine the index `max` picks |
| Rag.LastUpdatedKeys | src/agents/rag.py:209-210 | the keys are read exactly when every metadata has a text `last_updated`, and each key is that metadata's own text |
| Rag.LatestMetadataIndex | src/agents/rag.py:209-211 | an empty result list raises ValueError; otherwise the index is found exactly when every key can be read, and it is `LatestIndex` of the keys |
| Rag.Pow10 | src/agents/rag.py:221 | place values are positive |
| Rag.DigitsBound | src/agents/rag.py:221 | an n-digit string denotes a number below 10^n |
| Rag.DigitsOrder | src/agents/rag.py:221 | on digit strings of equal length, string order is numeric order |
| Rag.IsoOrderIsChronological | src/agents/rag.py:221 | for two `%Y-%m-%d` dates, the string comparison `max` uses is calendar order |
| Rag.ContactInfo | src/agents/rag.py:213 | a missing contact decodes to `{}`, and a JSON-encoded one to its object; succeeding implies one of these two cases |
| Rag.SourcesFrom | src/agents/rag.py:220 | the sources are read exactly when every metadata has a text source, one per metadata in order; any missing `source` key raises KeyError('source') before any type is checked, and otherwise the TypeError names the first item that is not text |
| Rag.JoinedSources | src/agents/rag.py:220 | the join succeeds exactly when every source is text, and it is the `", "`-join of all sources in retrieval order; a missing `source` key anywhere raises KeyError('source'), and with every key present the TypeError names the first non-text item |
| Rag.JoinedSourcesNameEverySource | src/agents/rag.py:220 | every retrieved source is named in the joined `source` field |
| Rag.NonLocationEntities | src/agents/rag.py:190 | exactly the entity entries whose key is not `location` are kept |
| Rag.NonLocationEntity | src/agents/rag.py:190 | one entry is kept exactly when its key is not `location` |
| Rag.NonLocationEntitiesAppend | src/agents/rag.py:190 | the filter of a concatenation is the concatenation of the filters, so kept entries keep their order and multiplicity |
| Rag.EntityLines | src/agents/rag.py:190 | one `k: v` line per non-location entity, in the order of the order-preserving filter `NonLocationEntities` |
| Rag.EntityContext | src/agents/rag.py:189-190 | the location line shows the extracted location, or "Not specified"; every other entity appears as `k: v` |
| Rag.RagNode | src/agents/rag.py:128-236 | an empty result raises ValueError; on success the command goes to response_quality and carries the model's text, the retrieved chunks, the joined sources, both scores, and the contact and date of the latest metadata |
| Rag.RagNodeReportsLatest | src/agents/rag.py:208-221 | the reported date is one of the retrieved dates, none of them is greater, and for ISO dates none is later in the calendar |
| Rag.RagNodeCompleteness | src/agents/rag.py:155-178 | when the store returns at most the three requested results, the reported completeness is 0, 1/3, 2/3 or 1, is below 0.8 exactly with fewer than three results, and is 1 exactly with all three |
| Rag.RagNodeSucceeds | src/agents/rag.py:128-236 | with non-negative distances the node fails only on bad metadata, never on the score range |
| Rag.ClassifierDomainsMissSeedData | src/agents/rag.py:92-117 | a request built from any of the fifteen classifier domains always filters by domain, and no seed document matches the filter |
| ResponseQuality.GuidelinesText | src/agents/response_quality.py:47 | the guidelines are shown as given, or as `None` when unset |
| ResponseQuality.ResponseQualityNode | src/agents/response_quality.py:15-59 | the draft is sent for review exactly when both scores reach 0.8, as the guidelines plus an `agent` message `Query: <draft>` |
| ResponseQuality.Outcomes | src/agents/response_quality.py:23-28 | both scores low gives the fixed request for context; completeness low alone gives a quick overview; confidence low alone gives the empty reply; otherwise the draft is reviewed |
| ResponseQuality.EarlyReplyIgnoresGuidelines | src/agents/response_quality.py:23-28 | a fixed reply does not depend on the guidelines |
| ResponseQuality.ThresholdInclusive | src/agents/response_quality.py:23-27 | scores of exactly 0.8 pass the gate |
| ResponseQuality.LowScoresAskForContext | src/agents/response_quality.py:23-24 | two low scores ask for more context, whatever the draft says |
| ResponseQuality.QuickOverviewQuotesDraft | src/agents/response_quality.py:25-26 | low completeness alone announces a quick overview and quotes the whole draft |
| ResponseQuality.ReviewQuotesDraft | src/agents/response_quality.py:50-55 | the reviewer receives the draft itself, as an `agent` message |
| ConversationGraph.NodeNamesDistinct | streamlit_main.py:51-86 | the seven nodes are registered under distinct names |
| ConversationGraph.Route | streamlit_main.py:97-102 | "clear" goes to retrieval and "emergency" to the emergency node, each exactly; every other value goes to clarification; each target is a declared edge |
| ConversationGraph.RouteClassifierTypes | streamlit_main.py:89-102 | the classifier's three query types reach the three branches |
| ConversationGraph.Step | streamlit_main.py:105-126 | every node except the end has exactly one successor for a given query type, along a declared edge |
| ConversationGraph.PathFrom | streamlit_main.py:105-126 | a run starts at its node and ends at the end node |
| ConversationGraph.Paths | streamlit_main.py:105-126 | along the declared edges, a turn the router sends as "clear" runs query understanding, retrieval and quality review; one routed as "emergency" runs the emergency node; one routed as anything else runs the clarification node. Whether the router can read the query type at all is `RoutingAfterUnderstanding`'s subject |
| ConversationGraph.PathFollowsEdges | streamlit_main.py:105-126 | every run follows declared edges only |
| ConversationGraph.RetrievalOnlyForClearQueries | streamlit_main.py:105-126 | along the declared edges, retrieval runs exactly when the router returned "clear", right after query understanding; quality review runs exactly when retrieval did; a terminal node is followed by the end |
| ConversationGraph.AnalysisAfter | src/agents/query_understanding.py:114-167 | the two commands of a clear query leave the stored analysis as it was |
| ConversationGraph.RouteStored | streamlit_main.py:94-102 | an unset analysis makes the router raise TypeError; a stored one routes by its query type |
| ConversationGraph.RoutingAfterUnderstanding | streamlit_main.py:89-102 | from a fresh turn, clarification and emergency turns route as classified, while a clear turn cannot be routed; the emergency command's target names no node |
| ConversationGraph.Emergency | streamlit_main.py:69-83 | the emergency node answers with one assistant message |
| ConversationGraph.EmergencyNamesContacts | streamlit_main.py:69-83 | the message names the Red Cross number and 112, and is the same whatever the conversation |
| ConversationGraph.AwaitClarification | streamlit_main.py:56-67 | the clarification node repeats the last message as an assistant message, and raises IndexError on an empty history |
| ConversationGraph.ClarificationIsRepeated | streamlit_main.py:56-67 | after query understanding, the user sees exactly the clarification message, which lists every option |
| StreamlitMain.InitialState | streamlit_main.py:148-155 | the turn starts with the history, the message and the location, and with every result slot empty |
| StreamlitMain.ExtractReply | streamlit_main.py:165-170 | a present `final_response` is subscripted even when it is None (TypeError) or a string (TypeError); only a missing one falls back to the last message, which fails on an empty history |
| StreamlitMain.Chat | streamlit_main.py:144-176 | the reply is given exactly when the graph and the reply extraction succeed; a failure of either becomes status 500 carrying that exception's `str(e)` |
| StreamlitMain.UntouchedFinalResponseFails | streamlit_main.py:152-166 | a graph that leaves `final_response` at its initial None makes every turn fail with status 500 |
| StreamlitMain.LocationArg | streamlit_main.py:189 | an empty location field is passed as None, any other text as itself |
| StreamlitMain.TurnKeepsPaired | streamlit_main.py:191-193 | appending a user entry, and then possibly an assistant entry, keeps every assistant entry right after a user entry |
| StreamlitMain.Session.constructor | streamlit_main.py:178-179 | the first run starts with an empty history |
| StreamlitMain.Session.Submit | streamlit_main.py:184-193 | no submitted prompt changes nothing; a prompt runs `chat` on the earlier history, appends the user entry, and appends the reply only when `chat` returns |
| ChatMain.RouteAsWritten | chat_main.py:73-80 | the router as written never routes: a stored analysis raises AttributeError, and an analysis never written raises KeyError, because the stream state starts without the key |
| ChatMain.EmergencyTurnCannotRoute | chat_main.py:73-80 | even an emergency turn raises, where reading the dict by key would route it to the emergency node |
| ChatMain.RouteByQueryType | chat_main.py:73-80 | the corrected router sends a stored analysis where its query type says, as the web entry point's router does; an analysis never written is still a KeyError |
| ChatMain.RouteByQueryTypeDispatch | chat_main.py:73-80 | clear routes to retrieval, emergency to the emergency node and clarification to the clarification node, each if and only if |
| ChatMain.InitialStreamState | chat_main.py:107-111 | the stream starts with the user's line as the only message, and the query and location it was given |
| ChatMain.UpdateLines | chat_main.py:115-116 | an update prints one line exactly when it has a non-empty message list, namely its last message after `Assistant: ` |
| ChatMain.StreamGraphUpdates | chat_main.py:113-116 | the printing loops print the lines of every update of every event, in stream order |
| ChatMain.EventLinesShape | chat_main.py:114-116 | an event prints at most one line per update, and each line is the line of some update |
| ChatMain.EventLinesLength | chat_main.py:114-116 | an event prints no more lines than it has updates |
| ChatMain.SilentUpdatesPrintNothing | chat_main.py:115 | updates without messages, or with an empty list, print nothing |
| ChatMain.QuitWords | chat_main.py:125 | "quit", "exit" and "q" stop the loop in any letter case; a trailing space, the empty line or another word does not |
| ChatMain.IsQuitCaseInsensitive | chat_main.py:125 | lines that differ only in letter case are both quit words or neither |
| ChatMain.TurnLines | chat_main.py:134-136 | a failing turn prints its output, then the error and the support hint |
| ChatMain.Repl | chat_main.py:119-136 | the loop prints the banner and then the session's output, and passes the graph exactly the lines before the first quit word or interrupt |
| ChatMain.StopsAtFirstQuit | chat_main.py:122-133 | nothing after the first quit word or interrupt is read; the output ends with the matching farewell, and every earlier line reached the graph |
| ChatMain.QueriesAreNotQuitWords | chat_main.py:124-129 | a quit word never reaches the graph |
| WebAgent.RelevantSites | src/agents/web_agent.py:43-61 | the site list is the Red Cross site followed by the mapped sites of each domain, in domain order |
| WebAgent.MappedSitesAppend | src/agents/web_agent.py:59-61 | the sites of a domain list are those of its parts, concatenated |
| WebAgent.RelevantSitesShape | src/agents/web_agent.py:43-61 | the Red Cross site comes first, followed by exactly the mapped sites |
| WebAgent.RepeatedDomainRepeatsSites | src/agents/web_agent.py:59-61 | a repeated domain adds its sites again, with no de-duplication |
| WebAgent.ClassifierDomainsAddNoSites | src/agents/web_agent.py:33-40 | no classifier domain name is a key of the site table, so classifier domains add no site |
| WebAgent.SiteClauses | src/agents/web_agent.py:82 | one `site:` clause per site, in order |
| WebAgent.DomainPriorityShape | src/agents/web_agent.py:82 | the clause starts with the Red Cross site, names every site, and separates n clauses with n - 1 " OR "s |
| WebAgent.FullQuery | src/agents/web_agent.py:83 | the query is the model's search text, one space, then the site clause |
| WebAgent.SearchLocation | src/agents/web_agent.py:44 | the location is the extracted one, or "Netherlands" |
| WebAgent.RunWebAgent | src/agents/web_agent.py:14-88 | the result has one key, `web_response`, holding the search for the full query over the relevant sites |
| CsvToChroma.FirstMissing | csv_to_chroma.py:10-13 | a required column is reported exactly when one is absent, and the one reported is absent |
| CsvToChroma.RequiredColumnCheckPasses | csv_to_chroma.py:10-13 | the required-column list is empty, so the check never fails |
| CsvToChroma.Contact | csv_to_chroma.py:33-37 | the contact holds email and phone, each exactly when present and not missing, with the row's value |
| CsvToChroma.RowMetadataFields | csv_to_chroma.py:25-42 | a standard field is kept exactly when present and not missing; `contact` appears exactly when an email or a phone does; nothing else is added |
| CsvToChroma.BuildMetadata | csv_to_chroma.py:25-42 | the metadata loop builds the row's metadata |
| CsvToChroma.Documents | csv_to_chroma.py:22 | one document per row, the row's `text` cell, in order |
| CsvToChroma.Metadatas | csv_to_chroma.py:42 | one metadata per row, in order |
| CsvToChroma.TableBatch | csv_to_chroma.py:45-52 | the three lists of the batch line up with the rows |
| CsvToChroma.ProcessCsvToCollection | csv_to_chroma.py:1-54 | a frame with rows but no `text` column raises KeyError and adds nothing; otherwise exactly one batch is added, holding every row |
| CsvToChroma.TableBatchAligned | csv_to_chroma.py:20-52 | row i becomes document i with metadata i and identifier `doc_i`, and identifiers are distinct |
| InitializeDb.FirstMissing | src/utils/initialize_db.py:35-37 | a column is reported exactly when some selected column is absent, and the one reported is absent |
| InitializeDb.MissingIffUnselected | src/utils/initialize_db.py:32-37 | selecting columns fails exactly when the table lacks one of the ten selected columns |
| InitializeDb.RowsComplete | src/utils/initialize_db.py:32-37 | in a table with every selected column, every row has them all |
| InitializeDb.BaseMetadata | src/utils/initialize_db.py:36 | each record holds exactly the five `meta_cols` values of its row, missing ones included |
| InitializeDb.OffersBatch | src/utils/initialize_db.py:32-49 | offer i is document i with the rewritten metadata of row i, and the lists line up |
| InitializeDb.RewriteFields | src/utils/initialize_db.py:38-42 | the loop body adds exactly four keys and leaves every other entry alone: `contact` holds the opening hours and `opening_hours` the email and phone, `source` is NaN and `category` is "TBD" |
| InitializeDb.OfferMetadataKeepsColumns | src/utils/initialize_db.py:35-42 | each offer's metadata keeps the five `meta_cols` values of its own row |
| InitializeDb.OfferMetadataKeys | src/utils/initialize_db.py:35-42 | an offer's metadata holds the five columns and the four added fields, nothing else |
| InitializeDb.OffersAligned | src/utils/initialize_db.py:45-49 | offers are paired with their metadata and identifier by position |
| InitializeDb.InitializeVectorstore | src/utils/initialize_db.py:11-51 | the collection exists afterwards; a missing column raises KeyError after creation and before any add; otherwise the offers batch is appended on every call, whether the collection was found or created |

## Left out

- The language-model calls (classification, answer writing, tone review, search-query writing) are left out. Their replies are parameters, and the prompt wording is not modelled.
- The Chroma similarity query and the embeddings are left out. The query result is a parameter, and only the request's count and filter are modelled.
- The DuckDuckGo search is a parameter: `web_search` is a foreign call.
- The Streamlit widgets and rendering (`st.title`, `st.text_input`, `st.chat_message`, `display_chat_messages`) are left out as UI code.
- The FastAPI import and the `ChatResponse` record are left out. They are only used as the `ChatResult` value.
- LangGraph's runtime is left out: graph compilation, `invoke` and `stream`, and the class names in `add_messages` and `Command`. The graph's edges, routing and node outputs are modelled; invocation is a parameter.
- `main.py`, `streamlit_chat.py`, the archive files and `src/utils/llm_utils.py` are not part of this model.
- Environment reads (`load_dotenv`, `os.getenv`) are parameters.
- Every `print` is left out as console logging. Only `chat_main.py`'s user-facing output is modelled, as a list of lines.
- Rag.RagNode: keeps `last_updated` as its text. `datetime.strptime`'s failure on a text that is not `YYYY-MM-DD` is not modelled; `Rag.IsoOrderIsChronological` covers the well-formed dates.
- Rag.RagNode: the scores are exact reals, not IEEE doubles; rounding in `sum`, `/` and `min` is not modelled.
- Rag.SourcesFrom: a JSON-encoded `source` is a string in Python, which the join would copy. The model does not render JSON text, so it rejects such a source with the error a non-string gets. The same holds for `Rag.JoinedSources` and `Rag.RagNode`.
- Rag.JoinedSources: fails on a JSON-encoded source, for the reason given for `Rag.SourcesFrom`.
- Rag.LastUpdatedKeys: rejects any `last_updated` that is not plain text before `max` runs. Python's `max` reads the keys one by one and compares each with the best so far. So a single non-text date, or two NaN dates, get through `max`, and `datetime.strptime` fails on them later. A missing key after a NaN raises KeyError in Python, where the model reports the TypeError. With NaN or missing dates Python fails too, though the exception named may differ. With a JSON-encoded date Python also fails, unless some other date compares greater than the JSON text, which begins with `{`. When the model succeeds, the reported date is the one Python's `max` picks.
- Rag.ContactInfo: a stored contact is either the dict that `json.dumps` encoded or text that is not JSON. JSON text decoding is not modelled.
- Rag.EntityContext: entity values are held as the text `str(v)` shows; Python object rendering is not modelled.
- Common.Describe: its contract states only the KeyError text. The other exceptions carry their message as given, and pydantic's multi-line message layout is not modelled.
- Text.Lower: lowers ASCII letters only; Python's full Unicode `lower()` is not modelled.
- ChatMain.Repl: runs over a finite console input and stops when it is used up. Python would loop forever catching EOFError. Ctrl-C is modelled only at the prompt, not during a turn.
- ChatMain.StreamGraphUpdates: takes the stream's events with each update's `messages` entry already extracted. The dict-versus-message-object subscript inside the printing is not modelled.
- ConversationGraph.AwaitClarification: reads the last message's content without modelling the difference between `.content` (web entry point) and `["content"]` (terminal entry point) on LangGraph message objects.
- StreamlitMain.ChatInput: `history` has a None default, but the one caller always passes the session list, so the model keeps a list. Pydantic's copying of the list is modelled by passing the history from before the append.
- InitializeDb.InitializeVectorstore: a missing column is reported as the first one missing. pandas names every missing column in its KeyError text.
- Store.VectorStore.Add: Chroma's handling of an identifier that is already stored is not modelled; each add is recorded as a new batch. An add with no identifiers, which `CsvToChroma.ProcessCsvToCollection` makes for a table without rows, is recorded as an empty batch, although recent Chroma versions reject it.
- The web agent's `__main__` demonstration is left out, as is the unused `location` variable in its prompt, apart from `WebAgent.SearchLocation`.

## Findings

| source | as written | input that shows it | evidently intended | confidence | as-written member | corrected member |
|---|---|---|---|---|---|---|
| chat_main.py:73-80 | the router reads `analysis.query_type`, but the state declares `analysis` as `Optional[dict]` (line 23) and query understanding stores `model_dump()`, a dict | any turn the classifier marks "emergency": the stored dict has no attribute `query_type`, so routing raises AttributeError and the turn prints only the error | read the key, `analysis["query_type"]`, as the web entry point does, and dispatch three ways | not executed | ChatMain.RouteAsWritten | ChatMain.RouteByQueryType |
