/** What the ingestion and retrieval code exchanges with the vector store: table cells as
    pandas reads them, document metadata, the batches handed to `collection.add`, the
    `doc_<i>` identifiers, and the persistent `test_collection` itself. Embeddings and the
    similarity search are not part of this model. */
module Store {
  import opened Text

  /** A table cell after `pd.read_csv`: its text, or a missing value (NaN). */
  datatype Cell = Str(text: string) | NaN

  /** A metadata value: a scalar cell, or a JSON-encoded object (`json.dumps` of a dict),
      kept as the dict it encodes. */
  datatype MetaValue = Scalar(cell: Cell) | Json(obj: map<string, Cell>)

  type Metadata = map<string, MetaValue>

  /** A data frame: its column labels and its rows, each row keyed by exactly those labels. */
  datatype Table = Table(columns: set<string>, rows: seq<map<string, Cell>>)

  ghost predicate Rectangular(t: Table) {
    forall i :: 0 <= i < |t.rows| ==> t.rows[i].Keys == t.columns
  }

  /** The three parallel lists handed to `collection.add`. */
  datatype Batch = Batch(documents: seq<Cell>, metadatas: seq<Metadata>, ids: seq<string>)

  /** `f"doc_{i}"`. */
  function DocId(i: nat): string {
    "doc_" + NatToString(i)
  }

  /** `[f"doc_{i}" for i in range(n)]`. */
  function DocIds(n: nat): (ids: seq<string>)
    ensures |ids| == n
    ensures forall i :: 0 <= i < n ==> ids[i] == DocId(i)
  {
    if n == 0 then [] else DocIds(n - 1) + [DocId(n - 1)]
  }

  /** The generated identifiers are pairwise distinct. */
  lemma DocIdsDistinct(n: nat, i: nat, j: nat)
    requires i < n && j < n && i != j
    ensures DocIds(n)[i] != DocIds(n)[j]
  {
    if DocId(i) == DocId(j) {
      assert DocId(i)[4..] == NatToString(i);
      assert DocId(j)[4..] == NatToString(j);
      NatToStringInjective(i, j);
    }
  }

  /** A batch whose three lists line up one to one, with the standard identifiers. */
  ghost predicate WellFormedBatch(b: Batch) {
    |b.documents| == |b.metadatas| == |b.ids| && b.ids == DocIds(|b.documents|)
  }

  /** The persistent `test_collection`: whether it exists, and the batches added to it
      since it was created. */
  class VectorStore {
    var hasCollection: bool
    var batches: seq<Batch>

    constructor (present: bool, added: seq<Batch>)
      ensures hasCollection == present && batches == (if present then added else [])
    {
      hasCollection := present;
      batches := if present then added else [];
    }

    /** `get_collection`, falling back to `create_collection` when it is missing. */
    method GetOrCreate() returns (created: bool)
      modifies this
      ensures hasCollection
      ensures created == !old(hasCollection)
      ensures batches == if created then [] else old(batches)
    {
      created := !hasCollection;
      if created {
        hasCollection := true;
        batches := [];
      }
    }

    /** `collection.add(documents=..., metadatas=..., ids=...)`. */
    method Add(b: Batch)
      requires hasCollection
      modifies this
      ensures hasCollection
      ensures batches == old(batches) + [b]
    {
      batches := batches + [b];
    }
  }
}
