/** CSV ingestion: every row of the data frame becomes one document (its `text` cell) and
    one metadata entry (the standard fields it has, and a JSON-encoded contact when it has
    an email or a phone), and the batch is added under `doc_<i>` identifiers. */
module CsvToChroma {
  import opened Common
  import opened Text
  import opened Store

  /** `column_list`: the required-column check iterates over nothing. */
  function RequiredColumns(): seq<string> {
    []
  }

  /** The first column of `required` the frame lacks, which the check reports. */
  function FirstMissing(required: seq<string>, columns: set<string>): (r: Option<string>)
    ensures r.Some? <==> exists i :: 0 <= i < |required| && required[i] !in columns
    ensures r.Some? ==> r.value in required && r.value !in columns
  {
    if |required| == 0 then None
    else if required[0] !in columns then Some(required[0])
    else FirstMissing(required[1..], columns)
  }

  /** The check as configured reports nothing, whatever the frame's columns. */
  lemma RequiredColumnCheckPasses(columns: set<string>)
    ensures FirstMissing(RequiredColumns(), columns).None?
  {
  }

  /** The standard metadata fields, in the order the loop visits them. */
  function StandardFields(): seq<string> {
    ["source", "last_updated", "domain"]
  }

  /** `field in row and pd.notna(row[field])`. */
  predicate Present(row: map<string, Cell>, field: string) {
    field in row && row[field].Str?
  }

  /** The contact object: email and phone, each only when present. */
  function Contact(row: map<string, Cell>): (c: map<string, Cell>)
    ensures c.Keys == (if Present(row, "email") then {"email"} else {}) + (if Present(row, "phone") then {"phone"} else {})
    ensures forall k :: k in c ==> c[k] == row[k]
  {
    var withEmail := if Present(row, "email") then map["email" := row["email"]] else map[];
    if Present(row, "phone") then withEmail["phone" := row["phone"]] else withEmail
  }

  /** The metadata a row yields: each present standard field, and `contact` when the
      contact object is not empty. */
  function RowMetadata(row: map<string, Cell>): (m: Metadata)
  {
    var standard := map f | f in {"source", "last_updated", "domain"} && Present(row, f) :: Scalar(row[f]);
    if Contact(row) != map[] then standard["contact" := Json(Contact(row))] else standard
  }

  /** A standard field is in the metadata exactly when the row has it and it is not
      missing, with the row's value; `contact` is there exactly when an email or a phone
      is, and holds only those; nothing else is added. */
  lemma RowMetadataFields(row: map<string, Cell>)
    ensures forall f :: f in StandardFields() ==>
      (f in RowMetadata(row) <==> Present(row, f)) && (f in RowMetadata(row) ==> RowMetadata(row)[f] == Scalar(row[f]))
    ensures "contact" in RowMetadata(row) <==> Present(row, "email") || Present(row, "phone")
    ensures "contact" in RowMetadata(row) ==> RowMetadata(row)["contact"] == Json(Contact(row))
    ensures RowMetadata(row).Keys <= {"source", "last_updated", "domain", "contact"}
  {
    if Present(row, "email") {
      assert "email" in Contact(row);
    }
    if Present(row, "phone") {
      assert "phone" in Contact(row);
    }
  }

  /** The metadata loop for one row. */
  method BuildMetadata(row: map<string, Cell>) returns (metadata: Metadata)
    ensures metadata == RowMetadata(row)
  {
    metadata := map[];
    var fields := StandardFields();
    for k := 0 to |fields|
      invariant metadata == map f | f in fields[..k] && Present(row, f) :: Scalar(row[f])
    {
      var field := fields[k];
      assert fields[..k + 1] == fields[..k] + [field];
      if field in row && row[field].Str? {
        metadata := metadata[field := Scalar(row[field])];
      }
    }
    assert fields[..|fields|] == fields;
    assert forall f :: f in fields <==> f in {"source", "last_updated", "domain"};
    assert metadata == map f | f in {"source", "last_updated", "domain"} && Present(row, f) :: Scalar(row[f]);
    var contact: map<string, Cell> := map[];
    if "email" in row && row["email"].Str? {
      contact := contact["email" := row["email"]];
    }
    if "phone" in row && row["phone"].Str? {
      contact := contact["phone" := row["phone"]];
    }
    assert contact == Contact(row);
    if contact != map[] {
      metadata := metadata["contact" := Json(contact)];
    }
  }

  /** The `text` cells of the rows, in row order. */
  function Documents(rows: seq<map<string, Cell>>): (d: seq<Cell>)
    requires forall i :: 0 <= i < |rows| ==> "text" in rows[i]
    ensures |d| == |rows| && forall i :: 0 <= i < |rows| ==> d[i] == rows[i]["text"]
  {
    seq(|rows|, i requires 0 <= i < |rows| => rows[i]["text"])
  }

  /** The row metadatas, in row order. */
  function Metadatas(rows: seq<map<string, Cell>>): (m: seq<Metadata>)
    ensures |m| == |rows| && forall i :: 0 <= i < |rows| ==> m[i] == RowMetadata(rows[i])
  {
    seq(|rows|, i requires 0 <= i < |rows| => RowMetadata(rows[i]))
  }

  /** The batch a table with a `text` column yields. */
  function TableBatch(t: Table): (b: Batch)
    requires Rectangular(t) && "text" in t.columns
    ensures WellFormedBatch(b) && |b.documents| == |t.rows|
  {
    Batch(Documents(t.rows), Metadatas(t.rows), DocIds(|t.rows|))
  }

  /** `process_csv_to_collection` on a read frame and an existing collection (the
      required-column check is empty, so it is passed over): a frame with rows but no
      `text` column fails on the first row, before anything is added. */
  method ProcessCsvToCollection(t: Table, store: VectorStore) returns (r: Result<()>)
    requires Rectangular(t) && store.hasCollection
    modifies store
    ensures store.hasCollection
    ensures r.Err? <==> |t.rows| > 0 && "text" !in t.columns
    ensures r.Err? ==> r.error == KeyError("text") && store.batches == old(store.batches)
    ensures r.Ok? && "text" in t.columns ==> store.batches == old(store.batches) + [TableBatch(t)]
    ensures r.Ok? && "text" !in t.columns ==> store.batches == old(store.batches) + [Batch([], [], [])]
  {
    RequiredColumnCheckPasses(t.columns);
    var documents: seq<Cell> := [];
    var metadatas: seq<Metadata> := [];
    for i := 0 to |t.rows|
      invariant i > 0 ==> "text" in t.columns
      invariant store.hasCollection && store.batches == old(store.batches)
      invariant |documents| == i && |metadatas| == i
      invariant forall j :: 0 <= j < i ==> documents[j] == t.rows[j]["text"]
      invariant forall j :: 0 <= j < i ==> metadatas[j] == RowMetadata(t.rows[j])
    {
      var row := t.rows[i];
      if "text" !in row {
        return Err(KeyError("text"));
      }
      documents := documents + [row["text"]];
      var metadata := BuildMetadata(row);
      metadatas := metadatas + [metadata];
    }
    var ids := DocIds(|documents|);
    if "text" in t.columns {
      assert documents == Documents(t.rows) && metadatas == Metadatas(t.rows);
    } else {
      assert documents == [] && metadatas == [];
    }
    store.Add(Batch(documents, metadatas, ids));
    r := Ok(());
  }

  /** Ingestion keeps the rows' order and pairs each row with one document, one metadata
      and one identifier; the identifiers are `doc_0` ... `doc_{n-1}` and pairwise distinct. */
  lemma TableBatchAligned(t: Table, i: nat, j: nat)
    requires Rectangular(t) && "text" in t.columns
    requires i < |t.rows| && j < |t.rows| && i != j
    ensures TableBatch(t).documents[i] == t.rows[i]["text"]
    ensures TableBatch(t).metadatas[i] == RowMetadata(t.rows[i])
    ensures TableBatch(t).ids[i] == DocId(i)
    ensures TableBatch(t).ids[i] != TableBatch(t).ids[j]
  {
    DocIdsDistinct(|t.rows|, i, j);
  }
}
