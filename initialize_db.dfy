/** Loading the offers table: the collection is fetched or created, then every offer is
    added, with metadata taken from five columns and rewritten in place to carry two
    JSON-encoded objects, a missing source and a placeholder category. */
module InitializeDb {
  import opened Common
  import opened Store

  /** `meta_cols`. */
  function MetaColumns(): seq<string> {
    ["subdomain", "icon_url", "link", "address", "date_added"]
  }

  /** The four contact columns read alongside. */
  function ContactColumns(): seq<string> {
    ["email", "phone_number", "opening_hours_weekday", "opening_hours_weekend"]
  }

  const DocumentColumn: string := "offer_edited"

  /** The keys of a record before the rewrite, the contact columns, and the keys the
      rewrite adds, as sets. */
  const MetaKeys: set<string> := {"subdomain", "icon_url", "link", "address", "date_added"}
  const ContactKeys: set<string> := {"email", "phone_number", "opening_hours_weekday", "opening_hours_weekend"}
  const AddedKeys: set<string> := {"contact", "opening_hours", "source", "category"}

  /** Every column the loader selects. */
  const SelectedKeys: set<string> := {DocumentColumn} + MetaKeys + ContactKeys

  /** All columns the loader selects, in the order it selects them. */
  function SelectedColumns(): seq<string> {
    [DocumentColumn] + MetaColumns() + ContactColumns()
  }

  /** The first selected column the table lacks: selecting it raises a KeyError. */
  function FirstMissing(columns: seq<string>, present: set<string>): (r: Option<string>)
    ensures r.None? <==> forall i :: 0 <= i < |columns| ==> columns[i] in present
    ensures r.Some? ==> r.value in columns && r.value !in present
  {
    if |columns| == 0 then None
    else if columns[0] !in present then Some(columns[0])
    else FirstMissing(columns[1..], present)
  }

  /** The selected columns, listed and as a set, are the same columns. */
  lemma SelectedColumnsListed()
    ensures forall c :: c in SelectedColumns() <==> c in SelectedKeys
  {
    assert SelectedColumns() == [DocumentColumn, "subdomain", "icon_url", "link", "address", "date_added",
      "email", "phone_number", "opening_hours_weekday", "opening_hours_weekend"];
  }

  /** The column check reports a missing column exactly when a selected one is absent. */
  lemma MissingIffUnselected(columns: set<string>)
    ensures FirstMissing(SelectedColumns(), columns).None? <==> SelectedKeys <= columns
  {
    SelectedColumnsListed();
  }

  /** A row with every selected column. */
  predicate RowComplete(row: map<string, Cell>) {
    SelectedKeys <= row.Keys
  }

  lemma RowsComplete(t: Table)
    requires Rectangular(t) && HasSelected(t)
    ensures forall i :: 0 <= i < |t.rows| ==> RowComplete(t.rows[i])
  {
  }

  /** `offers[meta_cols].to_dict(orient='records')[i]`: the five values, missing ones
      included. */
  function BaseMetadata(row: map<string, Cell>): (m: Metadata)
    requires RowComplete(row)
    ensures m.Keys == MetaKeys
    ensures forall c :: c in MetaKeys ==> m[c] == Scalar(row[c])
  {
    map c | c in MetaKeys :: Scalar(row[c])
  }

  /** The four fields the loop body adds to a record, from the matching contact record. */
  function Rewrite(metadata: Metadata, row: map<string, Cell>): Metadata
    requires RowComplete(row)
  {
    metadata["contact" := Json(map["weekday" := row["opening_hours_weekday"], "weekend" := row["opening_hours_weekend"]])]
            ["opening_hours" := Json(map["email" := row["email"], "phone" := row["phone_number"]])]
            ["source" := Scalar(NaN)]
            ["category" := Scalar(Str("TBD"))]
  }

  predicate HasSelected(t: Table) {
    SelectedKeys <= t.columns
  }

  /** The metadata of one offer after the loop body. */
  function OfferMetadata(row: map<string, Cell>): Metadata
    requires RowComplete(row)
  {
    Rewrite(BaseMetadata(row), row)
  }

  /** The batch the loader adds for a table with every selected column. */
  function OffersBatch(t: Table): (b: Batch)
    requires Rectangular(t) && HasSelected(t)
    ensures WellFormedBatch(b) && |b.documents| == |t.rows|
    ensures forall i :: 0 <= i < |t.rows| ==> RowComplete(t.rows[i]) && b.metadatas[i] == OfferMetadata(t.rows[i])
    ensures forall i :: 0 <= i < |t.rows| ==> b.documents[i] == t.rows[i][DocumentColumn]
  {
    RowsComplete(t);
    Batch(seq(|t.rows|, i requires 0 <= i < |t.rows| => t.rows[i][DocumentColumn]),
          seq(|t.rows|, i requires 0 <= i < |t.rows| => OfferMetadata(t.rows[i])),
          DocIds(|t.rows|))
  }

  /** The loop body adds exactly its four keys and leaves every other entry alone:
      `contact` gets the weekday and weekend opening hours and `opening_hours` the email
      and phone (the two labels are swapped), `source` becomes missing and `category`
      "TBD". */
  lemma RewriteFields(metadata: Metadata, row: map<string, Cell>)
    requires RowComplete(row)
    ensures var m := Rewrite(metadata, row);
      && m.Keys == metadata.Keys + {"contact", "opening_hours", "source", "category"}
      && (forall k :: k in metadata && k !in {"contact", "opening_hours", "source", "category"} ==> m[k] == metadata[k])
      && m["contact"] == Json(map["weekday" := row["opening_hours_weekday"], "weekend" := row["opening_hours_weekend"]])
      && m["opening_hours"] == Json(map["email" := row["email"], "phone" := row["phone_number"]])
      && m["source"] == Scalar(NaN) && m["category"] == Scalar(Str("TBD"))
  {
  }

  /** Each offer's metadata keeps the five `meta_cols` values of its own row. */
  lemma OfferMetadataKeepsColumns(row: map<string, Cell>, c: string)
    requires RowComplete(row) && c in MetaKeys
    ensures c in OfferMetadata(row) && OfferMetadata(row)[c] == Scalar(row[c])
  {
    var base := BaseMetadata(row);
    assert c != "contact" && c != "opening_hours" && c != "source" && c != "category";
    assert OfferMetadata(row)[c] == base[c];
  }

  /** Nothing but the five columns and the four added fields is in an offer's metadata. */
  lemma OfferMetadataKeys(row: map<string, Cell>)
    requires RowComplete(row)
    ensures OfferMetadata(row).Keys == MetaKeys + AddedKeys
  {
    RewriteFields(BaseMetadata(row), row);
  }

  /** Offers are paired with their metadata and identifier by position. */
  lemma OffersAligned(t: Table, i: nat)
    requires Rectangular(t) && HasSelected(t) && i < |t.rows|
    ensures OffersBatch(t).documents[i] == t.rows[i][DocumentColumn]
    ensures OffersBatch(t).metadatas[i] == OfferMetadata(t.rows[i])
    ensures OffersBatch(t).ids[i] == DocId(i)
  {
  }

  /** `initialize_vectorstore` on the offers table. The collection is fetched or created
      first; a missing column then fails before anything is added. Otherwise the offers
      are added on every call, whether the collection was found or created. */
  method InitializeVectorstore(t: Table, store: VectorStore) returns (r: Result<()>)
    requires Rectangular(t)
    modifies store
    ensures store.hasCollection
    ensures r.Err? <==> !HasSelected(t)
    ensures r.Err? ==> FirstMissing(SelectedColumns(), t.columns).Some?
    ensures r.Err? ==> r.error == KeyError(FirstMissing(SelectedColumns(), t.columns).value)
    ensures r.Err? ==> store.batches == (if old(store.hasCollection) then old(store.batches) else [])
    ensures r.Ok? ==> store.batches == (if old(store.hasCollection) then old(store.batches) else []) + [OffersBatch(t)]
  {
    var _ := store.GetOrCreate();
    var missing := FirstMissing(SelectedColumns(), t.columns);
    MissingIffUnselected(t.columns);
    if missing.Some? {
      return Err(KeyError(missing.value));
    }
    RowsComplete(t);
    var n := |t.rows|;
    var documents := seq(n, i requires 0 <= i < n => t.rows[i][DocumentColumn]);
    var metadatas := seq(n, i requires 0 <= i < n => BaseMetadata(t.rows[i]));
    for i := 0 to n
      invariant |metadatas| == n
      invariant store.hasCollection && store.batches == (if old(store.hasCollection) then old(store.batches) else [])
      invariant forall j :: 0 <= j < i ==> metadatas[j] == OfferMetadata(t.rows[j])
      invariant forall j :: i <= j < n ==> metadatas[j] == BaseMetadata(t.rows[j])
    {
      assert Rewrite(metadatas[i], t.rows[i]) == OfferMetadata(t.rows[i]);
      metadatas := metadatas[i := Rewrite(metadatas[i], t.rows[i])];
    }
    var offers := OffersBatch(t);
    assert documents == offers.documents;
    assert metadatas == offers.metadatas;
    store.Add(Batch(documents, metadatas, DocIds(|documents|)));
    r := Ok(());
  }
}
