/** The page concatenation routine `pdf_cat`: every page of every input, in list order,
    appended to one writer. A PDF document is an opaque sequence of pages. */
module PageCat {
  import opened JoinTypes

  /** The flattening of a list of documents: the pages of the first document, then those of
      the second, and so on. */
  function Concat<Page>(docs: seq<seq<Page>>): seq<Page>
  {
    if docs == [] then [] else Concat(docs[..|docs| - 1]) + docs[|docs| - 1]
  }

  /** The sum of the documents' page counts. */
  function TotalPages<Page>(docs: seq<seq<Page>>): nat
  {
    if docs == [] then 0 else |docs[0]| + TotalPages(docs[1..])
  }

  /** Flattening distributes over appending lists of documents. */
  lemma {:induction false} ConcatAppend<Page>(a: seq<seq<Page>>, b: seq<seq<Page>>)
    ensures Concat(a + b) == Concat(a) + Concat(b)
    decreases |b|
  {
    if b == [] {
      assert a + b == a;
    } else {
      var init := b[..|b| - 1];
      assert (a + b)[..|a + b| - 1] == a + init;
      ConcatAppend(a, init);
    }
  }

  /** The flattening of a single document is that document. */
  lemma ConcatSingle<Page>(d: seq<Page>)
    ensures Concat([d]) == d
  {
  }

  /** The merged document has exactly as many pages as the inputs together. */
  lemma {:induction false} ConcatLength<Page>(docs: seq<seq<Page>>)
    ensures |Concat(docs)| == TotalPages(docs)
  {
    if docs != [] {
      assert [docs[0]] + docs[1..] == docs;
      ConcatAppend([docs[0]], docs[1..]);
      ConcatSingle(docs[0]);
      ConcatLength(docs[1..]);
    }
  }

  /** Page j of input i lands at position j after all pages of the inputs before it. */
  lemma ConcatAt<Page>(docs: seq<seq<Page>>, i: nat, j: nat)
    requires i < |docs| && j < |docs[i]|
    ensures TotalPages(docs[..i]) + j < |Concat(docs)|
    ensures Concat(docs)[TotalPages(docs[..i]) + j] == docs[i][j]
  {
    assert docs == docs[..i] + [docs[i]] + docs[i + 1..];
    ConcatAppend(docs[..i] + [docs[i]], docs[i + 1..]);
    ConcatAppend(docs[..i], [docs[i]]);
    ConcatSingle(docs[i]);
    ConcatLength(docs[..i]);
  }

  /** Every input path can be opened and parsed as a PDF. */
  predicate AllReadable<Page>(inputFiles: seq<Path>, fs: map<Path, seq<Page>>)
  {
    forall k :: 0 <= k < |inputFiles| ==> inputFiles[k] in fs
  }

  /** The documents the inputs hold, in list order. */
  function Documents<Page>(inputFiles: seq<Path>, fs: map<Path, seq<Page>>): seq<seq<Page>>
    requires AllReadable(inputFiles, fs)
  {
    seq(|inputFiles|, k requires 0 <= k < |inputFiles| => fs[inputFiles[k]])
  }

  /** The position of the first input that cannot be read. */
  function FirstUnreadable<Page>(inputFiles: seq<Path>, fs: map<Path, seq<Page>>): (k: nat)
    requires !AllReadable(inputFiles, fs)
    ensures k < |inputFiles| && inputFiles[k] !in fs
    ensures forall j :: 0 <= j < k ==> inputFiles[j] in fs
  {
    if inputFiles[0] !in fs then 0 else 1 + FirstUnreadable(inputFiles[1..], fs)
  }

  /** What `pdf_cat` produces: the first unreadable input aborts the whole merge with a
      ReadError; otherwise the writer holds the flattening of the inputs, and writing it
      fails with a WriteError when the sink cannot be written. */
  function CatResult<Page>(inputFiles: seq<Path>, fs: map<Path, seq<Page>>, sinkWritable: bool)
    : Result<seq<Page>, JoinError>
  {
    if !AllReadable(inputFiles, fs) then Failure(ReadError(inputFiles[FirstUnreadable(inputFiles, fs)]))
    else if !sinkWritable then Failure(WriteError)
    else Success(Concat(Documents(inputFiles, fs)))
  }

  /** Readable inputs and a writable sink always give a merge, of any number of inputs, with
      the sum of the inputs' page counts. */
  lemma CatPageCount<Page>(inputFiles: seq<Path>, fs: map<Path, seq<Page>>)
    requires AllReadable(inputFiles, fs)
    ensures var r := CatResult(inputFiles, fs, true);
      r.Success? && |r.value| == TotalPages(Documents(inputFiles, fs))
  {
    ConcatLength(Documents(inputFiles, fs));
  }

  /** In a successful merge, page n of input k sits right after the pages of inputs 0..k-1. */
  lemma CatPages<Page>(inputFiles: seq<Path>, fs: map<Path, seq<Page>>, k: nat, n: nat)
    requires AllReadable(inputFiles, fs)
    requires k < |inputFiles| && n < |fs[inputFiles[k]]|
    ensures var r := CatResult(inputFiles, fs, true);
      r.Success? &&
      TotalPages(Documents(inputFiles[..k], fs)) + n < |r.value| &&
      r.value[TotalPages(Documents(inputFiles[..k], fs)) + n] == fs[inputFiles[k]][n]
  {
    var docs := Documents(inputFiles, fs);
    assert Documents(inputFiles[..k], fs) == docs[..k];
    ConcatAt(docs, k, n);
  }

  /** Reading one more input extends the merged pages by exactly that input's pages. */
  lemma CatStep<Page>(inputFiles: seq<Path>, fs: map<Path, seq<Page>>, i: nat)
    requires i < |inputFiles| && AllReadable(inputFiles[..i + 1], fs)
    ensures AllReadable(inputFiles[..i], fs)
    ensures Concat(Documents(inputFiles[..i + 1], fs)) == Concat(Documents(inputFiles[..i], fs)) + fs[inputFiles[i]]
  {
    assert inputFiles[..i + 1][..i] == inputFiles[..i];
    assert Documents(inputFiles[..i + 1], fs) == Documents(inputFiles[..i], fs) + [fs[inputFiles[i]]];
    ConcatAppend(Documents(inputFiles[..i], fs), [fs[inputFiles[i]]]);
    ConcatSingle(fs[inputFiles[i]]);
  }

  /** `pdf_cat`: for each input in list order, read it and append its pages 0..n-1 to the
      writer; then write the writer out. */
  method PdfCat<Page>(inputFiles: seq<Path>, fs: map<Path, seq<Page>>, sinkWritable: bool)
    returns (r: Result<seq<Page>, JoinError>)
    ensures r == CatResult(inputFiles, fs, sinkWritable)
  {
    var writer: seq<Page> := [];
    for i := 0 to |inputFiles|
      invariant AllReadable(inputFiles[..i], fs)
      invariant writer == Concat(Documents(inputFiles[..i], fs))
    {
      if inputFiles[i] !in fs {
        assert !AllReadable(inputFiles, fs);
        assert FirstUnreadable(inputFiles, fs) == i;
        return Failure(ReadError(inputFiles[i]));
      }
      var reader := fs[inputFiles[i]];
      ghost var before := writer;
      for n := 0 to |reader|
        invariant writer == before + reader[..n]
      {
        writer := writer + [reader[n]];
      }
      assert reader[..|reader|] == reader;
      CatStep(inputFiles, fs, i);
    }
    assert inputFiles[..|inputFiles|] == inputFiles;
    if !sinkWritable {
      return Failure(WriteError);
    }
    return Success(writer);
  }
}
