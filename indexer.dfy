/**
 * NewsAgentData/NewsDataProcessor/main.py `build_faiss_index`: which rows
 * are embedded, with which text, and what reaches storage. The embedding
 * model and the vector index are not modelled: the index blob records the
 * texts whose vectors it holds, one per text.
 */
module Indexer {
  import opened Wrappers
  import opened Text
  import opened Classifier

  /** The row after `fillna`: title 'No Title', description and link ''. */
  function Filled(row: Row): (r: Row)
    ensures r.title.Some? && r.description.Some? && r.link.Some?
    ensures row.title.Some? ==> r.title == row.title
    ensures row.description.Some? ==> r.description == row.description
  {
    row.(title := Some(row.title.GetOr("No Title")),
         description := Some(row.description.GetOr("")),
         link := Some(row.link.GetOr("")))
  }

  /** `f"{title} {description}".strip()` on the filled row. */
  function IndexText(row: Row): string
  {
    Strip(row.title.GetOr("No Title") + " " + row.description.GetOr(""))
  }

  /** The filter: more than 20 characters after stripping. */
  predicate Indexable(row: Row)
  {
    |IndexText(row)| > 20
  }

  /** The (text, metadata row) pair of a selected row. */
  function Entry(row: Row): (string, Row)
  {
    (Take(IndexText(row), 1000), Filled(row))
  }

  /** The pair of a selected row holds a text still longer than 20 characters. */
  lemma EntryBounds(row: Row)
    requires Indexable(row)
    ensures 20 < |Entry(row).0| <= 1000
  {
  }

  /** The (text, metadata row) pairs in row order. */
  function Selection(rows: seq<Row>): seq<(string, Row)>
  {
    if rows == [] then []
    else
      var last := rows[|rows| - 1];
      Selection(rows[..|rows| - 1]) + (if Indexable(last) then [Entry(last)] else [])
  }

  /** One more row of the loop adds its pair when it passes the filter. */
  lemma SelectionStep(rows: seq<Row>, i: nat)
    requires i < |rows|
    ensures Selection(rows[..i + 1]) ==
      Selection(rows[..i]) + (if |IndexText(rows[i])| > 20 then [(Take(IndexText(rows[i]), 1000), Filled(rows[i]))] else [])
  {
    assert rows[..i + 1][..i] == rows[..i];
  }

  /** Every row that passes the filter is selected. */
  lemma {:induction false} SelectionComplete(rows: seq<Row>)
    ensures forall row :: row in rows && Indexable(row) ==> Entry(row) in Selection(rows)
  {
    if rows != [] {
      var init := rows[..|rows| - 1];
      assert rows == init + [rows[|rows| - 1]];
      SelectionComplete(init);
    }
  }

  /** Every selected pair comes from a row that passes the filter, and there
      are no more pairs than rows. */
  lemma {:induction false} SelectionSound(rows: seq<Row>)
    ensures forall p :: p in Selection(rows) ==> exists row :: row in rows && Indexable(row) && p == Entry(row)
    ensures |Selection(rows)| <= |rows|
  {
    if rows != [] {
      var init := rows[..|rows| - 1];
      SelectionSound(init);
      forall p | p in Selection(rows)
        ensures exists row :: row in rows && Indexable(row) && p == Entry(row)
      {
        if p in Selection(init) {
          var row :| row in init && Indexable(row) && p == Entry(row);
          assert row in rows;
        } else {
          assert rows[|rows| - 1] in rows;
        }
      }
    }
  }

  /** A row is selected iff it passes the filter; each selected pair holds the
      filled row and its text cut to 1000 characters, which is still longer
      than 20 characters. */
  lemma SelectionSpec(rows: seq<Row>)
    ensures forall row :: row in rows && Indexable(row) ==>
      (Take(IndexText(row), 1000), Filled(row)) in Selection(rows)
    ensures forall p :: p in Selection(rows) ==>
      exists row :: row in rows && Indexable(row) && p == (Take(IndexText(row), 1000), Filled(row))
    ensures forall p :: p in Selection(rows) ==> 20 < |p.0| <= 1000
    ensures |Selection(rows)| <= |rows|
  {
    SelectionComplete(rows);
    SelectionSound(rows);
    forall p | p in Selection(rows)
      ensures 20 < |p.0| <= 1000
    {
      var row :| row in rows && Indexable(row) && p == Entry(row);
      EntryBounds(row);
    }
  }

  /** The `texts` list: first components of the selection. */
  function SelectedTexts(rows: seq<Row>): (r: seq<string>)
    ensures |r| == |Selection(rows)|
  {
    seq(|Selection(rows)|, i requires 0 <= i < |Selection(rows)| => Selection(rows)[i].0)
  }

  /** The `valid_rows` list: second components of the selection. */
  function SelectedRows(rows: seq<Row>): (r: seq<Row>)
    ensures |r| == |Selection(rows)|
  {
    seq(|Selection(rows)|, i requires 0 <= i < |Selection(rows)| => Selection(rows)[i].1)
  }

  /** The row loop: `texts` and `valid_rows` are appended together, so they
      have one length and element i of both comes from the same row. */
  method IndexInputs(rows: seq<Row>) returns (texts: seq<string>, validRows: seq<Row>)
    ensures |texts| == |validRows| == |Selection(rows)|
    ensures forall i :: 0 <= i < |texts| ==> (texts[i], validRows[i]) == Selection(rows)[i]
    ensures texts == SelectedTexts(rows) && validRows == SelectedRows(rows)
  {
    texts, validRows := [], [];
    for i := 0 to |rows|
      invariant |texts| == |validRows| == |Selection(rows[..i])|
      invariant forall k :: 0 <= k < |texts| ==> (texts[k], validRows[k]) == Selection(rows[..i])[k]
    {
      var row := rows[i];
      SelectionStep(rows, i);
      var text := IndexText(row);
      if |text| > 20 {
        Paired(texts, validRows, Selection(rows[..i]), Take(text, 1000), Filled(row));
        texts := texts + [Take(text, 1000)];
        validRows := validRows + [Filled(row)];
      }
    }
    assert rows[..|rows|] == rows;
    Unzipped(rows, texts, validRows);
  }

  /** Two lists that pair up with the selection are its two projections. */
  lemma Unzipped(rows: seq<Row>, texts: seq<string>, validRows: seq<Row>)
    requires |texts| == |validRows| == |Selection(rows)|
    requires forall i :: 0 <= i < |texts| ==> (texts[i], validRows[i]) == Selection(rows)[i]
    ensures texts == SelectedTexts(rows) && validRows == SelectedRows(rows)
  {
  }

  /** Appending one pair to each of two lists that pair up with `sel` pairs
      them up with `sel` extended by that pair. */
  lemma Paired<A, B>(xs: seq<A>, ys: seq<B>, sel: seq<(A, B)>, x: A, y: B)
    requires |xs| == |ys| == |sel|
    requires forall k :: 0 <= k < |xs| ==> (xs[k], ys[k]) == sel[k]
    ensures forall k :: 0 <= k < |xs| + 1 ==> ((xs + [x])[k], (ys + [y])[k]) == (sel + [(x, y)])[k]
  {
  }

  /** An element of i-th position of the index and of the metadata describe one row. */
  lemma AlignedInputs(rows: seq<Row>, texts: seq<string>, validRows: seq<Row>, i: nat)
    requires |texts| == |validRows| == |Selection(rows)|
    requires forall k :: 0 <= k < |texts| ==> (texts[k], validRows[k]) == Selection(rows)[k]
    requires i < |texts|
    ensures exists row ::
      row in rows && Indexable(row) && validRows[i] == Filled(row) && texts[i] == Take(IndexText(row), 1000)
  {
    SelectionSpec(rows);
    assert Selection(rows)[i] in Selection(rows);
  }

  datatype Blob = IndexBlob(texts: seq<string>) | MetadataBlob(articles: seq<Row>)

  function IndexKey(date: string): string
  {
    "full_dataset/" + date + "/faiss_index.index"
  }

  function MetadataKey(date: string): string
  {
    "full_dataset/" + date + "/metadata.json"
  }

  datatype BuildOutcome = Skipped | Built | UploadRaised

  /** The object store: blob name to content. */
  class BlobStore {
    var blobs: map<string, Blob>

    constructor(initial: map<string, Blob>)
      ensures blobs == initial
    {
      blobs := initial;
    }

    /** One upload; `ok` is whether the storage call succeeds. */
    method Upload(name: string, blob: Blob, ok: bool)
      modifies this
      ensures ok ==> blobs == old(blobs)[name := blob]
      ensures !ok ==> blobs == old(blobs)
    {
      if ok {
        blobs := blobs[name := blob];
      }
    }
  }

  /** build_faiss_index. Without an embedder or without a selected row nothing
      is written. Otherwise the index and then the metadata are uploaded by two
      separate calls; when the second fails the index is stored without its
      metadata. */
  method BuildFaissIndex(store: BlobStore, rows: seq<Row>, date: string, hasEmbedder: bool,
                         indexUploadOk: bool, metadataUploadOk: bool)
    returns (outcome: BuildOutcome)
    modifies store
    ensures !hasEmbedder || Selection(rows) == [] ==> outcome == Skipped && store.blobs == old(store.blobs)
    ensures hasEmbedder && Selection(rows) != [] ==>
      var texts, valid := SelectedTexts(rows), SelectedRows(rows);
      && (!indexUploadOk ==> outcome == UploadRaised && store.blobs == old(store.blobs))
      && (indexUploadOk && !metadataUploadOk ==>
            outcome == UploadRaised && store.blobs == old(store.blobs)[IndexKey(date) := IndexBlob(texts)])
      && (indexUploadOk && metadataUploadOk ==>
            outcome == Built
            && store.blobs == old(store.blobs)[IndexKey(date) := IndexBlob(texts)][MetadataKey(date) := MetadataBlob(valid)])
  {
    if !hasEmbedder {
      return Skipped;
    }
    var texts, validRows := IndexInputs(rows);
    if |texts| == 0 {
      return Skipped;
    }
    store.Upload(IndexKey(date), IndexBlob(texts), indexUploadOk);
    if !indexUploadOk {
      return UploadRaised;
    }
    store.Upload(MetadataKey(date), MetadataBlob(validRows), metadataUploadOk);
    if !metadataUploadOk {
      return UploadRaised;
    }
    return Built;
  }

  /** The two blobs have different names, so a failed second upload leaves a
      store holding an index whose metadata is absent or from an older run. */
  lemma KeysDiffer(date: string)
    ensures IndexKey(date) != MetadataKey(date)
  {
    var i, m := IndexKey(date), MetadataKey(date);
    assert |i| == |m| + 4;
  }
}
