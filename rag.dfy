/** The retrieval-augmented generation agent around its two opaque calls (the vector-store
    query and the answer-writing model): seed data for a fresh collection, the score
    formulas, the domain filter, the choice of the latest metadata, and the assembly of
    the output record. Retrieved documents, metadatas, distances and the generated text are
    inputs. */
module Rag {
  import opened Common
  import opened Text
  import opened Store
  import QU = QueryUnderstanding

  // ---------------------------------------------------------------------------------
  // Seed data and `initialize_vectorstore`

  function SeedDocuments(): seq<Cell> {
    [Str("Food assistance is available " + "at the Red Cross office " + "on Mainstreet in Amsterdam. " + "Open Monday-Friday 9-5."),
     Str("Emergency shelter services " + "can be accessed 24/7 " + "at our downtown location " + "in Amsterdam."),
     Str("Financial aid applications " + "are processed within " + "5-7 business days."),
     Str("For immediate medical assistance, " + "please call emergency services " + "at 112.")]
  }

  function SeedMetadata(source: string, lastUpdated: string, contact: map<string, Cell>, domain: string): Metadata {
    map["source" := Scalar(Str(source)), "last_updated" := Scalar(Str(lastUpdated)),
        "contact" := Json(contact), "domain" := Scalar(Str(domain))]
  }

  function SeedMetadatas(): seq<Metadata> {
    [SeedMetadata("RC Food Services Guide", "2024-01-15",
                  map["email" := Str("food@redcross.org"), "phone" := Str("555-0123")], "food"),
     SeedMetadata("RC Shelter Guide", "2024-01-20", map["phone" := Str("555-0124")], "shelter"),
     SeedMetadata("RC Financial Aid Guide", "2024-01-10", map["email" := Str("finance@redcross.org")], "financial"),
     SeedMetadata("RC Emergency Guide", "2024-01-01", map["phone" := Str("112")], "health")]
  }

  function SeedBatch(): Batch {
    Batch(SeedDocuments(), SeedMetadatas(), DocIds(4))
  }

  /** `initialize_vectorstore` in the RAG agent: an existing collection is returned as it
      is; a missing one is created and filled with the four seed documents. */
  method InitializeVectorstore(store: VectorStore)
    modifies store
    ensures store.hasCollection
    ensures store.batches == if old(store.hasCollection) then old(store.batches) else [SeedBatch()]
  {
    var created := store.GetOrCreate();
    if created {
      store.Add(SeedBatch());
    }
  }

  // ---------------------------------------------------------------------------------
  // Scores

  function Sum(xs: seq<real>): real {
    if |xs| == 0 then 0.0 else xs[0] + Sum(xs[1..])
  }

  lemma {:induction false} SumNonNegative(xs: seq<real>)
    requires forall i :: 0 <= i < |xs| ==> xs[i] >= 0.0
    ensures Sum(xs) >= 0.0
  {
    if |xs| > 0 {
      SumNonNegative(xs[1..]);
    }
  }

  /** Python's `min(1.0, x)`. */
  function Min1(x: real): real {
    if x < 1.0 then x else 1.0
  }

  /** The mean distance, 0 for an empty list. */
  function AverageDistance(distances: seq<real>): real {
    if |distances| > 0 then Sum(distances) / (|distances| as real) else 0.0
  }

  /** `confidence_score = min(1.0, avg_score / 0.8)`. */
  function ConfidenceScore(distances: seq<real>): (c: real)
    ensures c <= 1.0
    ensures |distances| == 0 ==> c == 0.0
  {
    Min1(AverageDistance(distances) / 0.8)
  }

  /** `completeness_score = min(1.0, len(docs) / 3)`. */
  function CompletenessScore(n: nat): (c: real) {
    Min1(n as real / 3.0)
  }

  /** Both scores stay in [0, 1] when the distances are non-negative (Chroma's distances
      are), which is the range the metadata record demands. */
  lemma ScoresInRange(distances: seq<real>, n: nat)
    requires forall i :: 0 <= i < |distances| ==> distances[i] >= 0.0
    ensures 0.0 <= ConfidenceScore(distances) <= 1.0
    ensures 0.0 <= CompletenessScore(n) <= 1.0
  {
    SumNonNegative(distances);
  }

  /** With at most three results, completeness is one of 0, 1/3, 2/3 and 1; it is 0 exactly
      when nothing was retrieved and below 0.8 exactly when fewer than three documents
      came back. */
  lemma CompletenessValues(n: nat)
    ensures n <= 3 ==> CompletenessScore(n) in {0.0, 1.0 / 3.0, 2.0 / 3.0, 1.0}
    ensures CompletenessScore(n) == 0.0 <==> n == 0
    ensures CompletenessScore(n) < 0.8 <==> n < 3
  {
  }

  /** An empty retrieval scores zero on both counts. */
  lemma EmptyRetrievalScoresZero()
    ensures CompletenessScore(0) == 0.0 && ConfidenceScore([]) == 0.0
  {
  }

  // ---------------------------------------------------------------------------------
  // The metadata filter

  /** `where={"domain": domain} if domain != "other" else None`. */
  function WhereFilter(domain: string): (f: Option<map<string, string>>)
    ensures f.None? <==> domain == "other"
    ensures f.Some? ==> f.value.Keys == {"domain"} && f.value["domain"] == domain
  {
    if domain != "other" then Some(map["domain" := domain]) else None
  }

  /** Chroma's equality filter: every filtered key is present with that text value. */
  ghost predicate MatchesFilter(f: Option<map<string, string>>, m: Metadata) {
    f.None? || forall k :: k in f.value ==> k in m && m[k] == Scalar(Str(f.value[k]))
  }

  // ---------------------------------------------------------------------------------
  // The latest metadata

  /** `max(range(len(keys)), key=...)` over string keys: the scan keeps its current best
      and replaces it only by a strictly greater key. */
  function LatestFrom(keys: seq<string>, best: nat, i: nat): (r: nat)
    requires best < i <= |keys|
    requires forall j :: 0 <= j < i ==> !LexLess(keys[best], keys[j])
    requires forall j :: 0 <= j < best ==> LexLess(keys[j], keys[best])
    ensures best <= r < |keys|
    ensures forall j :: 0 <= j < |keys| ==> !LexLess(keys[r], keys[j])
    ensures forall j :: 0 <= j < r ==> LexLess(keys[j], keys[r])
    decreases |keys| - i
  {
    if i == |keys| then best
    else if LexLess(keys[best], keys[i]) then
      NewBest(keys, best, i);
      LatestFrom(keys, i, i + 1)
    else
      LatestFrom(keys, best, i + 1)
  }

  lemma NewBest(keys: seq<string>, best: nat, i: nat)
    requires best < i < |keys|
    requires forall j :: 0 <= j < i ==> !LexLess(keys[best], keys[j])
    requires LexLess(keys[best], keys[i])
    ensures forall j :: 0 <= j < i + 1 ==> !LexLess(keys[i], keys[j])
    ensures forall j :: 0 <= j < i ==> LexLess(keys[j], keys[i])
  {
    LexLessIrreflexive(keys[i]);
    forall j | 0 <= j < i
      ensures !LexLess(keys[i], keys[j]) && LexLess(keys[j], keys[i])
    {
      if LexLess(keys[i], keys[j]) {
        LexLessTransitive(keys[best], keys[i], keys[j]);
      }
      if keys[j] == keys[best] {
      } else {
        LexLessTotal(keys[j], keys[best]);
        LexLessTransitive(keys[j], keys[best], keys[i]);
      }
      if keys[i] == keys[j] {
        LexLessIrreflexive(keys[i]);
      } else {
        LexLessTotal(keys[i], keys[j]);
      }
    }
  }

  /** The index Python's `max` picks: the FIRST index holding the greatest key. */
  function LatestIndex(keys: seq<string>): (r: nat)
    requires |keys| > 0
    ensures r < |keys|
    ensures forall j :: 0 <= j < |keys| ==> !LexLess(keys[r], keys[j])
    ensures forall j :: 0 <= j < r ==> LexLess(keys[j], keys[r])
  {
    LexLessIrreflexive(keys[0]);
    LatestFrom(keys, 0, 1)
  }

  /** The two properties of `LatestIndex` pin the index down: any index that is maximal
      and strictly greater than everything before it is the one chosen. */
  lemma LatestIndexUnique(keys: seq<string>, k: nat)
    requires k < |keys|
    requires forall j :: 0 <= j < |keys| ==> !LexLess(keys[k], keys[j])
    requires forall j :: 0 <= j < k ==> LexLess(keys[j], keys[k])
    ensures LatestIndex(keys) == k
  {
    var r := LatestIndex(keys);
    assert !LexLess(keys[r], keys[k]) && !LexLess(keys[k], keys[r]);
  }

  /** The `last_updated` keys in order; a missing key is a KeyError and a value that is not
      text cannot be compared as a string. */
  function LastUpdatedKeys(metadatas: seq<Metadata>): (r: Result<seq<string>>)
    ensures r.Ok? ==> |r.value| == |metadatas|
    ensures r.Ok? ==> forall i :: 0 <= i < |metadatas| ==>
      "last_updated" in metadatas[i] && metadatas[i]["last_updated"] == Scalar(Str(r.value[i]))
    ensures r.Ok? <==> forall i :: 0 <= i < |metadatas| ==>
      "last_updated" in metadatas[i] && metadatas[i]["last_updated"].Scalar? && metadatas[i]["last_updated"].cell.Str?
  {
    if |metadatas| == 0 then Ok([])
    else if "last_updated" !in metadatas[0] then Err(KeyError("last_updated"))
    else match metadatas[0]["last_updated"]
      case Scalar(Str(s)) =>
        (match LastUpdatedKeys(metadatas[1..])
         case Ok(rest) => Ok([s] + rest)
         case Err(e) => Err(e))
      case _ => Err(TypeError("'>' not supported between instances of 'str' and 'float'"))
  }

  /** `latest_idx`: an empty result list makes `max` fail. */
  function LatestMetadataIndex(metadatas: seq<Metadata>): (r: Result<nat>)
    ensures |metadatas| == 0 ==> r == Err(ValueError("max() iterable argument is empty"))
    ensures r.Ok? ==> r.value < |metadatas| && LastUpdatedKeys(metadatas).Ok?
    ensures r.Ok? ==> r.value == LatestIndex(LastUpdatedKeys(metadatas).value)
    ensures |metadatas| > 0 && LastUpdatedKeys(metadatas).Ok? ==> r.Ok?
  {
    if |metadatas| == 0 then Err(ValueError("max() iterable argument is empty"))
    else match LastUpdatedKeys(metadatas)
      case Err(e) => Err(e)
      case Ok(keys) => Ok(LatestIndex(keys))
  }

  // ISO dates: for YYYY-MM-DD strings the string order is the calendar order.

  predicate IsDigit(c: char) {
    '0' <= c <= '9'
  }

  predicate AllDigits(s: string) {
    forall i :: 0 <= i < |s| ==> IsDigit(s[i])
  }

  predicate IsIsoDate(s: string) {
    |s| == 10 && s[4] == '-' && s[7] == '-' && AllDigits(s[..4]) && AllDigits(s[5..7]) && AllDigits(s[8..])
  }

  function Pow10(n: nat): (p: nat)
    ensures p >= 1
  {
    if n == 0 then 1 else 10 * Pow10(n - 1)
  }

  function DigitValue(c: char): nat
    requires IsDigit(c)
  {
    (c as int - '0' as int) as nat
  }

  /** The number a digit string denotes. */
  function DigitsValue(s: string): nat
    requires AllDigits(s)
  {
    if |s| == 0 then 0 else DigitValue(s[0]) * Pow10(|s| - 1) + DigitsValue(s[1..])
  }

  function Year(s: string): nat requires IsIsoDate(s) { DigitsValue(s[..4]) }
  function Month(s: string): nat requires IsIsoDate(s) { DigitsValue(s[5..7]) }
  function Day(s: string): nat requires IsIsoDate(s) { DigitsValue(s[8..]) }

  /** Calendar order on (year, month, day). */
  predicate ChronoBefore(a: string, b: string)
    requires IsIsoDate(a) && IsIsoDate(b)
  {
    Year(a) < Year(b) || (Year(a) == Year(b) && (Month(a) < Month(b) || (Month(a) == Month(b) && Day(a) < Day(b))))
  }

  lemma {:induction false} DigitsBound(s: string)
    requires AllDigits(s)
    ensures DigitsValue(s) < Pow10(|s|)
  {
    if |s| > 0 {
      DigitsBound(s[1..]);
      var d, p, rest := DigitValue(s[0]), Pow10(|s| - 1), DigitsValue(s[1..]);
      assert DigitsValue(s) == d * p + rest;
      assert Pow10(|s|) == 10 * p;
      DigitTimesPlace(d, p, rest);
    }
  }

  /** A digit times a place value, plus less than that place value, is below the next one. */
  lemma DigitTimesPlace(d: nat, p: nat, rest: nat)
    requires d <= 9 && rest < p
    ensures d * p + rest < 10 * p
  {
    assert 10 * p == d * p + (10 - d) * p;
    assert (10 - d) * p >= p;
  }

  /** On digit strings of equal length, string order is numeric order and equal strings
      are equal numbers. */
  lemma {:induction false} DigitsOrder(x: string, y: string)
    requires |x| == |y| && AllDigits(x) && AllDigits(y)
    ensures LexLess(x, y) <==> DigitsValue(x) < DigitsValue(y)
    ensures x == y <==> DigitsValue(x) == DigitsValue(y)
  {
    if |x| > 0 {
      DigitsOrder(x[1..], y[1..]);
      DigitsBound(x[1..]);
      DigitsBound(y[1..]);
      var p := Pow10(|x| - 1);
      var dx, dy := DigitValue(x[0]), DigitValue(y[0]);
      assert DigitsValue(x) == dx * p + DigitsValue(x[1..]);
      assert DigitsValue(y) == dy * p + DigitsValue(y[1..]);
      if dx < dy {
        LeadingDigitDecides(dx, dy, p, DigitsValue(x[1..]), DigitsValue(y[1..]));
      } else if dy < dx {
        LeadingDigitDecides(dy, dx, p, DigitsValue(y[1..]), DigitsValue(x[1..]));
      } else {
        assert x[0] == y[0];
        if x[1..] == y[1..] {
          assert x == [x[0]] + x[1..] && y == [y[0]] + y[1..];
        }
      }
    }
  }

  /** A smaller leading digit makes a smaller number whatever follows it. */
  lemma LeadingDigitDecides(a: nat, b: nat, p: nat, u: nat, v: nat)
    requires a < b && u < p
    ensures a * p + u < b * p + v
  {
    assert (a + 1) * p <= b * p by {
      assert b * p == (a + 1) * p + (b - a - 1) * p;
    }
  }

  /** For two YYYY-MM-DD dates, the string comparison `max` uses is calendar order, so the
      latest metadata is the chronologically latest one. */
  lemma IsoOrderIsChronological(a: string, b: string)
    requires IsIsoDate(a) && IsIsoDate(b)
    ensures LexLess(a, b) <==> ChronoBefore(a, b)
  {
    assert a == a[..4] + a[4..] && b == b[..4] + b[4..];
    LexLessConcat(a[..4], a[4..], b[..4], b[4..]);
    assert a[4..] == "-" + a[5..] && b[4..] == "-" + b[5..];
    LexLessConcat("-", a[5..], "-", b[5..]);
    LexLessIrreflexive("-");
    assert a[5..] == a[5..7] + a[7..] && b[5..] == b[5..7] + b[7..];
    LexLessConcat(a[5..7], a[7..], b[5..7], b[7..]);
    assert a[7..] == "-" + a[8..] && b[7..] == "-" + b[8..];
    LexLessConcat("-", a[8..], "-", b[8..]);
    DigitsOrder(a[..4], b[..4]);
    DigitsOrder(a[5..7], b[5..7]);
    DigitsOrder(a[8..], b[8..]);
  }

  // ---------------------------------------------------------------------------------
  // Output assembly

  /** `json.loads(latest_metadata.get("contact", "{}"))`. JSON-encoded objects decode to
      their dict; a text value is taken to be text that is not JSON; a NaN is not a string. */
  function ContactInfo(latest: Metadata): (r: Result<map<string, Cell>>)
    ensures "contact" !in latest ==> r == Ok(map[])
    ensures "contact" in latest && latest["contact"].Json? ==> r == Ok(latest["contact"].obj)
    ensures r.Ok? ==> "contact" !in latest || latest["contact"].Json?
  {
    if "contact" !in latest then Ok(map[])
    else match latest["contact"]
      case Json(obj) => Ok(obj)
      case Scalar(Str(_)) => Err(ValueError("Expecting value: line 1 column 1 (char 0)"))
      case Scalar(NaN) => Err(TypeError("the JSON object must be str, bytes or bytearray, not float"))
  }

  /** The source of one metadata entry as the join sees it. */
  function SourceOf(m: Metadata): Option<string> {
    if "source" in m && m["source"].Scalar? && m["source"].cell.Str? then Some(m["source"].cell.text) else None
  }

  /** The join's message for a list item that is not a `str`. */
  function ItemTypeError(i: nat): PyError {
    TypeError("sequence item " + NatToString(i) + ": expected str instance, float found")
  }

  /** `", ".join` first turns the generator into a list, so every `m["source"]` is read
      (raising KeyError on the first missing one) before any item's type is checked; the
      join then reports the first item that is not a `str`, by its list index. */
  function SourcesFrom(metadatas: seq<Metadata>, from: nat): (r: Result<seq<string>>)
    requires from <= |metadatas|
    ensures r.Ok? <==> forall i :: from <= i < |metadatas| ==> SourceOf(metadatas[i]).Some?
    ensures r.Ok? ==> |r.value| == |metadatas| - from
    ensures r.Ok? ==> forall i :: from <= i < |metadatas| ==> r.value[i - from] == SourceOf(metadatas[i]).value
    ensures (exists i :: from <= i < |metadatas| && "source" !in metadatas[i]) ==> r == Err(KeyError("source"))
    ensures r.Err? && (forall i :: from <= i < |metadatas| ==> "source" in metadatas[i]) ==>
      exists i :: from <= i < |metadatas| && SourceOf(metadatas[i]).None? &&
        (forall j :: from <= j < i ==> SourceOf(metadatas[j]).Some?) && r.error == ItemTypeError(i)
    decreases |metadatas| - from
  {
    if from == |metadatas| then Ok([])
    else if exists i :: from <= i < |metadatas| && "source" !in metadatas[i] then Err(KeyError("source"))
    else
      var m := metadatas[from];
      match SourceOf(m)
      case None => Err(ItemTypeError(from))
      case Some(s) =>
        match SourcesFrom(metadatas, from + 1)
        case Ok(rest) => Ok([s] + rest)
        case Err(e) => Err(e)
  }

  /** `", ".join(m["source"] for m in metadatas)`: every source, in retrieval order. */
  function JoinedSources(metadatas: seq<Metadata>): (r: Result<string>)
    ensures r.Ok? <==> forall i :: 0 <= i < |metadatas| ==> SourceOf(metadatas[i]).Some?
    ensures r.Ok? ==> exists sources: seq<string> ::
      |sources| == |metadatas| && r.value == Join(", ", sources) &&
      forall i :: 0 <= i < |metadatas| ==> sources[i] == SourceOf(metadatas[i]).value
    ensures (exists i :: 0 <= i < |metadatas| && "source" !in metadatas[i]) ==> r == Err(KeyError("source"))
    ensures r.Err? && (forall i :: 0 <= i < |metadatas| ==> "source" in metadatas[i]) ==>
      exists i :: 0 <= i < |metadatas| && SourceOf(metadatas[i]).None? &&
        (forall j :: 0 <= j < i ==> SourceOf(metadatas[j]).Some?) && r.error == ItemTypeError(i)
  {
    match SourcesFrom(metadatas, 0)
    case Err(e) => Err(e)
    case Ok(sources) => Ok(Join(", ", sources))
  }

  /** Every retrieved source is named in the joined `source` field. */
  lemma JoinedSourcesNameEverySource(metadatas: seq<Metadata>, i: nat)
    requires i < |metadatas| && JoinedSources(metadatas).Ok?
    ensures Contains(JoinedSources(metadatas).value, SourceOf(metadatas[i]).value)
  {
    var sources := SourcesFrom(metadatas, 0).value;
    JoinContains(", ", sources, i);
  }

  /** The entity entries other than the location, in order. */
  function NonLocationEntities(entities: Entities): (r: Entities)
    ensures forall x :: x in r <==> x in entities && x.0 != "location"
    ensures |r| <= |entities|
  {
    if |entities| == 0 then []
    else
      var rest := NonLocationEntities(entities[1..]);
      assert forall x :: x in entities <==> x == entities[0] || x in entities[1..];
      if entities[0].0 == "location" then rest else [entities[0]] + rest
  }

  /** The filter works entry by entry: one entry is kept exactly when its key is not
      `location`, ... */
  lemma NonLocationEntity(x: (string, string))
    ensures NonLocationEntities([x]) == if x.0 == "location" then [] else [x]
  {
    assert [x][1..] == [];
  }

  /** ... and the filter of a concatenation is the concatenation of the filters, so the
      kept entries keep their order and their multiplicity. */
  lemma {:induction false} NonLocationEntitiesAppend(a: Entities, b: Entities)
    ensures NonLocationEntities(a + b) == NonLocationEntities(a) + NonLocationEntities(b)
  {
    if |a| > 0 {
      assert (a + b)[0] == a[0];
      assert (a + b)[1..] == a[1..] + b;
      NonLocationEntitiesAppend(a[1..], b);
    } else {
      assert a + b == b;
    }
  }

  /** `f'{k}: {v}'` for each non-location entity, in order. */
  function EntityLines(entities: Entities): (r: seq<string>)
    ensures |r| == |NonLocationEntities(entities)|
    ensures forall i :: 0 <= i < |r| ==>
      r[i] == NonLocationEntities(entities)[i].0 + ": " + NonLocationEntities(entities)[i].1
  {
    var others := NonLocationEntities(entities);
    seq(|others|, i requires 0 <= i < |others| => others[i].0 + ": " + others[i].1)
  }

  /** The `Location:` line of the generation context. */
  function EntityLocation(entities: Entities): string {
    LookupOr(entities, "location", "Not specified")
  }

  /** The `Other relevant information:` line. */
  function OtherEntities(entities: Entities): string {
    Join(", ", EntityLines(entities))
  }

  /** The location is shown when the classifier extracted one and "Not specified"
      otherwise; every other entity appears as `k: v` and none of them is the location. */
  lemma EntityContext(entities: Entities, k: string, v: string)
    ensures (forall i :: 0 <= i < |entities| ==> entities[i].0 != "location") ==>
      EntityLocation(entities) == "Not specified"
    ensures (exists i :: 0 <= i < |entities| && entities[i].0 == "location") ==>
      (("location", EntityLocation(entities)) in entities)
    ensures (k, v) in entities && k != "location" ==> Contains(OtherEntities(entities), k + ": " + v)
    ensures (k, v) in NonLocationEntities(entities) ==> k != "location"
  {
    if (k, v) in entities && k != "location" {
      var others := NonLocationEntities(entities);
      var i :| 0 <= i < |others| && others[i] == (k, v);
      JoinContains(", ", EntityLines(entities), i);
    }
  }

  /** `InformationMetadata`. */
  datatype InformationMetadata = InformationMetadata(
    source: string, lastUpdated: string, contactInfo: map<string, Cell>,
    completenessScore: real, confidenceScore: real)

  /** `RAGOutput`. */
  datatype RagOutput = RagOutput(text: string, metadata: InformationMetadata, relevantChunks: seq<string>)

  /** `Command(goto="response_quality", update={"response": ...})`. */
  datatype RagCommand = RagCommand(goto: string, response: RagOutput)

  /** The vector-store answer for the single query text. */
  datatype QueryResults = QueryResults(documents: seq<string>, metadatas: seq<Metadata>, distances: seq<real>)

  /** The request `rag_node` sends to the vector store: three results, filtered by domain. */
  datatype QueryRequest = QueryRequest(nResults: nat, where: Option<map<string, string>>)

  function Request(ctx: RagInput): (q: QueryRequest)
    ensures q.nResults == 3 && q.where == WhereFilter(ctx.domain)
  {
    QueryRequest(3, WhereFilter(ctx.domain))
  }

  /** `rag_node` after its two external calls. `results` is what the store returned for
      `Request(ctx)`, `text` what the model wrote. */
  function RagNode(ctx: RagInput, results: QueryResults, text: string): (r: Result<RagCommand>)
    ensures |results.metadatas| == 0 ==> r == Err(ValueError("max() iterable argument is empty"))
    ensures r.Ok? ==> r.value.goto == "response_quality"
    ensures r.Ok? ==> r.value.response.text == text && r.value.response.relevantChunks == results.documents
    ensures r.Ok? ==> Ok(r.value.response.metadata.source) == JoinedSources(results.metadatas)
    ensures r.Ok? ==> r.value.response.metadata.completenessScore == CompletenessScore(|results.documents|)
    ensures r.Ok? ==> r.value.response.metadata.confidenceScore == ConfidenceScore(results.distances)
    ensures r.Ok? ==> 0.0 <= r.value.response.metadata.confidenceScore <= 1.0
    ensures r.Ok? ==> LatestMetadataIndex(results.metadatas).Ok?
    ensures r.Ok? ==> (var idx := LatestMetadataIndex(results.metadatas).value;
      && Ok(r.value.response.metadata.contactInfo) == ContactInfo(results.metadatas[idx])
      && results.metadatas[idx]["last_updated"] == Scalar(Str(r.value.response.metadata.lastUpdated)))
  {
    var confidence := ConfidenceScore(results.distances);
    var completeness := CompletenessScore(|results.documents|);
    match LatestMetadataIndex(results.metadatas)
    case Err(e) => Err(e)
    case Ok(idx) =>
      var latest := results.metadatas[idx];
      var keys := LastUpdatedKeys(results.metadatas).value;
      match ContactInfo(latest)
      case Err(e) => Err(e)
      case Ok(contact) =>
        match JoinedSources(results.metadatas)
        case Err(e) => Err(e)
        case Ok(source) =>
          if confidence < 0.0 then Err(ValidationError("confidence_score"))
          else
            Ok(RagCommand("response_quality", RagOutput(text,
              InformationMetadata(source, keys[idx], contact, completeness, confidence),
              results.documents)))
  }

  /** Whenever the node succeeds, the latest metadata it reports is the first one whose
      `last_updated` is greatest, and for ISO dates nothing retrieved is more recent. */
  lemma RagNodeReportsLatest(ctx: RagInput, results: QueryResults, text: string, j: nat)
    requires RagNode(ctx, results, text).Ok? && j < |results.metadatas|
    ensures var keys := LastUpdatedKeys(results.metadatas).value;
      var latest := RagNode(ctx, results, text).value.response.metadata.lastUpdated;
      && latest in keys
      && !LexLess(latest, keys[j])
      && (IsIsoDate(latest) && IsIsoDate(keys[j]) ==> !ChronoBefore(latest, keys[j]))
  {
    var keys := LastUpdatedKeys(results.metadatas).value;
    var idx := LatestMetadataIndex(results.metadatas).value;
    var latest := RagNode(ctx, results, text).value.response.metadata.lastUpdated;
    assert latest == keys[idx];
    if IsIsoDate(latest) && IsIsoDate(keys[j]) {
      IsoOrderIsChronological(latest, keys[j]);
    }
  }

  /** When the store honours the requested count, the completeness the node reports is
      0, 1/3, 2/3 or 1, and it reaches the 0.8 quality threshold only with a full three
      results. */
  lemma RagNodeCompleteness(ctx: RagInput, results: QueryResults, text: string)
    requires RagNode(ctx, results, text).Ok?
    requires |results.documents| <= Request(ctx).nResults
    ensures var c := RagNode(ctx, results, text).value.response.metadata.completenessScore;
      && c in {0.0, 1.0 / 3.0, 2.0 / 3.0, 1.0}
      && (c < 0.8 <==> |results.documents| < 3)
      && (c == 1.0 <==> |results.documents| == Request(ctx).nResults)
  {
    CompletenessValues(|results.documents|);
  }

  /** With non-negative distances the node fails only on the metadata (empty result, a
      missing or non-text `last_updated`, a bad contact, a missing or non-text source),
      never on the score range. */
  lemma RagNodeSucceeds(ctx: RagInput, results: QueryResults, text: string)
    requires forall i :: 0 <= i < |results.distances| ==> results.distances[i] >= 0.0
    requires |results.metadatas| > 0 && LastUpdatedKeys(results.metadatas).Ok?
    requires forall i :: 0 <= i < |results.metadatas| ==> SourceOf(results.metadatas[i]).Some?
    requires forall i :: 0 <= i < |results.metadatas| ==>
      "contact" !in results.metadatas[i] || results.metadatas[i]["contact"].Json?
    ensures RagNode(ctx, results, text).Ok?
  {
    ScoresInRange(results.distances, |results.documents|);
    var idx := LatestMetadataIndex(results.metadatas).value;
    var latest := results.metadatas[idx];
    assert "contact" !in latest || latest["contact"].Json?;
    assert ContactInfo(latest).Ok?;
    assert JoinedSources(results.metadatas).Ok?;
  }

  /** None of the fifteen classifier domains is a domain of the seed documents, and none
      of them is "other": a request built from a classifier domain always filters, and
      filters out every seed document. */
  lemma ClassifierDomainsMissSeedData(d: QU.Domain, i: nat)
    requires i < 4
    ensures WhereFilter(QU.DomainName(d)).Some?
    ensures !MatchesFilter(WhereFilter(QU.DomainName(d)), SeedMetadatas()[i])
  {
    var f := WhereFilter(QU.DomainName(d));
    assert "domain" in f.value;
    var m := SeedMetadatas()[i];
    assert m["domain"].cell.text in {"food", "shelter", "financial", "health"};
  }
}
