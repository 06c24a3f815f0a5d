/** Shared vocabulary of the assistant's orchestration code: the Python exceptions it can
    raise, chat messages, entity dictionaries and the retrieval request record. */
module Common {

  datatype Option<+T> = None | Some(value: T)

  /** The exceptions the modelled code raises, each with the text `str(e)` gives. */
  datatype PyError =
    | KeyError(key: string)
    | TypeError(detail: string)
    | ValueError(detail: string)
    | IndexError(detail: string)
    | ValidationError(field: string)
    | AttributeError(detail: string)

  datatype Result<+T> = Ok(value: T) | Err(error: PyError)

  /** `str(e)` for the modelled exceptions: a KeyError shows its key in quotes. */
  function Describe(e: PyError): (d: string)
    ensures e.KeyError? ==> d == "'" + e.key + "'"
  {
    match e
    case KeyError(k) => "'" + k + "'"
    case TypeError(t) => t
    case ValueError(t) => t
    case IndexError(t) => t
    case ValidationError(f) => "1 validation error for InformationMetadata: " + f
    case AttributeError(t) => t
  }

  /** One chat message, `{"role": ..., "content": ...}`. */
  datatype Message = Message(role: string, content: string)

  /** The message `result["messages"][-1]` / `state["messages"][-1]` reads. */
  function LastMessage(messages: seq<Message>): (r: Result<Message>)
    ensures r.Ok? <==> |messages| > 0
    ensures r.Ok? ==> r.value == messages[|messages| - 1]
    ensures r.Err? ==> r.error == IndexError("list index out of range")
  {
    if |messages| == 0 then Err(IndexError("list index out of range"))
    else Ok(messages[|messages| - 1])
  }

  /** An entity dictionary extracted by the classifier, in insertion order; values are
      held as the text `str(v)` renders. */
  type Entities = seq<(string, string)>

  /** `entities.get(key)`: the value stored under the first entry with this key. */
  function Lookup(entities: Entities, key: string): (r: Option<string>)
    ensures r.None? <==> (forall i :: 0 <= i < |entities| ==> entities[i].0 != key)
    ensures r.Some? ==> exists i :: 0 <= i < |entities| && entities[i] == (key, r.value)
  {
    if |entities| == 0 then None
    else if entities[0].0 == key then Some(entities[0].1)
    else
      var r := Lookup(entities[1..], key);
      assert forall i :: 1 <= i < |entities| ==> entities[i] == entities[1..][i - 1];
      r
  }

  /** `entities.get(key, default)`. */
  function LookupOr(entities: Entities, key: string, default: string): (r: string)
    ensures (forall i :: 0 <= i < |entities| ==> entities[i].0 != key) ==> r == default
    ensures (exists i :: 0 <= i < |entities| && entities[i].0 == key) ==>
              exists i :: 0 <= i < |entities| && entities[i] == (key, r)
  {
    match Lookup(entities, key)
    case Some(v) => v
    case None => default
  }

  /** The retrieval request the classifier hands to the RAG agent (`RAGInput`). */
  datatype RagInput = RagInput(originalQuery: string, domain: string, entities: Entities, language: string)
}
