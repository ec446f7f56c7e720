/** Document ingestion: reading each PDF or TXT file, rejecting files with
    no text, cutting the text into chunks with an opaque splitter, and giving
    every chunk its bookkeeping metadata; then the parallel lists of chunk
    texts and chunk metadata over all files. */
module Ingest {
  import opened Base
  import opened Text
  import opened Metadata

  /** A file of the documents directory with what the two opaque readers make
      of it: `pdf` is what the PDF reader extracts page by page (`None` when
      opening the file raises, a page `None` when its extraction raises) and
      `text` what the UTF-8 read returns (`None` when it raises). */
  datatype DiskFile = DiskFile(name: string, path: string, pdf: Option<seq<Option<string>>>, text: Option<string>)

  /** One entry of `process_document`'s list: `{'text': ..., 'metadata': ...}`. */
  datatype ChunkDoc = ChunkDoc(text: string, metadata: ChunkMeta)

  /** What one page adds: nothing for a page without text, otherwise its text
      under a `[Page n]` tag. */
  function PageBlock(pageNumber: nat, pageText: string): string
  {
    if pageText == "" then "" else TaggedPage(pageNumber, pageText)
  }

  /** The f-string `"\n[Page {n}]\n{page_text}\n"`. */
  function TaggedPage(pageNumber: nat, pageText: string): string
  {
    "\n[Page " + DecimalString(pageNumber) + "]\n" + pageText + "\n"
  }

  /** The text accumulated over the pages, numbered from 1 in page order. */
  function TaggedPages(pages: seq<string>): (r: string)
    ensures r == "" <==> forall i :: 0 <= i < |pages| ==> pages[i] == ""
  {
    if |pages| == 0 then ""
    else
      var init := pages[..|pages| - 1];
      assert forall i :: 0 <= i < |init| ==> init[i] == pages[i];
      assert pages[|pages| - 1] != "" ==> PageBlock(|pages|, pages[|pages| - 1])[0] == '\n';
      TaggedPages(init) + PageBlock(|pages|, pages[|pages| - 1])
  }

  predicate AllExtracted(pages: seq<Option<string>>)
  {
    forall i :: 0 <= i < |pages| ==> pages[i].Some?
  }

  function PageTexts(pages: seq<Option<string>>): (t: seq<string>)
    requires AllExtracted(pages)
    ensures |t| == |pages| && forall i :: 0 <= i < |pages| ==> t[i] == pages[i].value
  {
    seq(|pages|, i requires 0 <= i < |pages| => pages[i].value)
  }

  /** `read_pdf(file_path)`: any error while opening or extracting gives `""`. */
  function PdfText(pdf: Option<seq<Option<string>>>): (r: string)
    ensures r == "" <==>
      || pdf.None? || !AllExtracted(pdf.value)
      || forall i :: 0 <= i < |pdf.value| ==> pdf.value[i] == Some("")
  {
    if pdf.None? || !AllExtracted(pdf.value) then "" else TaggedPages(PageTexts(pdf.value))
  }

  /** `read_pdf(file_path)`: the page loop with its `text +=`. */
  method ReadPdf(pdf: Option<seq<Option<string>>>) returns (text: string)
    ensures text == PdfText(pdf)
  {
    if pdf.None? {
      return "";
    }
    var pages := pdf.value;
    text := "";
    var pageNum := 0;
    while pageNum < |pages|
      invariant 0 <= pageNum <= |pages|
      invariant AllExtracted(pages[..pageNum])
      invariant text == TaggedPages(PageTexts(pages[..pageNum]))
    {
      var pageText := pages[pageNum];
      if pageText.None? {
        assert !AllExtracted(pages);
        return "";
      }
      ReadPdfStep(pages, pageNum);
      if pageText.value != "" {
        text := text + TaggedPage(pageNum + 1, pageText.value);
      }
      pageNum := pageNum + 1;
    }
    assert pages[..pageNum] == pages;
  }

  /** One more extracted page adds its block to the accumulated text. */
  lemma ReadPdfStep(pages: seq<Option<string>>, n: nat)
    requires n < |pages| && AllExtracted(pages[..n]) && pages[n].Some?
    ensures AllExtracted(pages[..n + 1])
    ensures TaggedPages(PageTexts(pages[..n + 1])) == TaggedPages(PageTexts(pages[..n])) + PageBlock(n + 1, pages[n].value)
  {
    assert forall i :: 0 <= i < n ==> pages[..n + 1][i] == pages[..n][i];
    var t := PageTexts(pages[..n + 1]);
    assert t[..n] == PageTexts(pages[..n]);
  }

  lemma BlankConcat(a: string, b: string)
    ensures IsBlank(a + b) <==> IsBlank(a) && IsBlank(b)
  {
    if IsBlank(a + b) {
      forall i | 0 <= i < |a| ensures IsSpace(a[i]) {
        assert (a + b)[i] == a[i];
      }
      forall i | 0 <= i < |b| ensures IsSpace(b[i]) {
        assert (a + b)[|a| + i] == b[i];
      }
    }
    if IsBlank(a) && IsBlank(b) {
      forall i | 0 <= i < |a + b| ensures IsSpace((a + b)[i]) {
        if i < |a| {
          assert (a + b)[i] == a[i];
        } else {
          assert (a + b)[i] == b[i - |a|];
        }
      }
    }
  }

  /** The text read from a PDF is blank exactly when no page has any text: a
      page with text, even whitespace only, adds a `[Page n]` tag. */
  lemma {:induction false} TaggedPagesBlank(pages: seq<string>)
    ensures IsBlank(TaggedPages(pages)) <==> forall i :: 0 <= i < |pages| ==> pages[i] == ""
    decreases |pages|
  {
    if |pages| > 0 {
      var init := pages[..|pages| - 1];
      var last := pages[|pages| - 1];
      TaggedPagesBlank(init);
      BlankConcat(TaggedPages(init), PageBlock(|pages|, last));
      if last != "" {
        assert PageBlock(|pages|, last)[1] == '[';
      }
      assert forall i :: 0 <= i < |init| ==> init[i] == pages[i];
    }
  }

  /** The last occurrence is determined by its two defining facts. */
  lemma RFindUnique(s: string, c: char, i: int)
    requires -1 <= i < |s|
    requires i >= 0 ==> s[i] == c
    requires forall j :: i < j < |s| ==> s[j] != c
    ensures RFind(s, c) == i
  {
  }

  /** pathlib's `suffix` of a file name: from its last dot, unless that dot is
      the first or the last character of the name. */
  function Suffix(name: string): (s: string)
    ensures |s| <= |name|
    ensures s == "" || (2 <= |s| < |name| && s[0] == '.' && s == name[|name| - |s|..])
  {
    var i := RFind(name, '.');
    if 0 < i < |name| - 1 then name[i..] else ""
  }

  datatype FileKind = Pdf | Txt | Unsupported

  /** A name whose last four characters lower to `.pdf` or `.txt` has those
      four characters as its suffix. */
  lemma FourCharacterSuffix(name: string)
    ensures |name| > 4 && (Lower(name[|name| - 4..]) == ".pdf" || Lower(name[|name| - 4..]) == ".txt") ==>
      Suffix(name) == name[|name| - 4..]
  {
    if |name| > 4 && (Lower(name[|name| - 4..]) == ".pdf" || Lower(name[|name| - 4..]) == ".txt") {
      var tail := name[|name| - 4..];
      assert Lower(tail)[0] == '.' && name[|name| - 4] == tail[0];
      forall j | |name| - 4 < j < |name| ensures name[j] != '.' {
        assert name[j] == tail[j - (|name| - 4)];
        assert Lower(tail)[j - (|name| - 4)] != '.';
      }
      RFindUnique(name, '.', |name| - 4);
    }
  }

  /** `file_path.suffix.lower()` compared with `.pdf` and `.txt`. */
  function KindOf(name: string): (k: FileKind)
    ensures k == Pdf <==> |name| > 4 && Lower(name[|name| - 4..]) == ".pdf"
    ensures k == Txt <==> |name| > 4 && Lower(name[|name| - 4..]) == ".txt"
  {
    FourCharacterSuffix(name);
    var s := Lower(Suffix(name));
    if s == ".pdf" then Pdf else if s == ".txt" then Txt else Unsupported
  }

  /** Lower-casing keeps every dot where it was, so it commutes with `Suffix`. */
  lemma SuffixOfLower(name: string)
    ensures Suffix(Lower(name)) == Lower(Suffix(name))
  {
    var low := Lower(name);
    assert forall j :: 0 <= j < |name| ==> (low[j] == '.' <==> name[j] == '.');
    var i := RFind(name, '.');
    RFindUnique(low, '.', i);
    if 0 < i < |name| - 1 {
      assert low[i..] == Lower(name[i..]);
    }
  }

  lemma LowerIdempotent(s: string)
    ensures Lower(Lower(s)) == Lower(s)
  {
  }

  /** The suffix test ignores case: a name and its lower-cased form are read
      the same way. */
  lemma KindIgnoresCase(name: string)
    ensures KindOf(Lower(name)) == KindOf(name)
  {
    SuffixOfLower(name);
    LowerIdempotent(Suffix(name));
  }

  /** A few names: upper-case suffixes are accepted; a name that is only a
      suffix, or that has none, is not. */
  lemma KindExamples()
    ensures KindOf("constitution.PDF") == Pdf
    ensures KindOf("ipc.txt") == Txt
    ensures KindOf("notes.md") == Unsupported
    ensures KindOf(".pdf") == Unsupported
    ensures KindOf("README") == Unsupported
  {
    RFindUnique("constitution.PDF", '.', 12);
    assert Lower(".PDF") == ".pdf";
    RFindUnique("ipc.txt", '.', 3);
    assert Lower(".txt") == ".txt";
    RFindUnique("notes.md", '.', 5);
    assert Lower(".md") == ".md";
    RFindUnique(".pdf", '.', 0);
    RFindUnique("README", '.', -1);
  }

  /** The text `process_document` works on, by the file's suffix. */
  function ReadText(f: DiskFile): string
  {
    match KindOf(f.name)
    case Pdf => PdfText(f.pdf)
    case Txt => f.text.GetOr("")
    case Unsupported => ""
  }

  /** The metadata of chunk `i` of `chunks` cut from file `f`. */
  function ChunkMetadata(f: DiskFile, i: nat, total: nat): ChunkMeta
  {
    ChunkMeta(Some(f.name), None, Some(i), Some(total), Some(f.path))
  }

  /** The entries for the first `n` chunks of file `f`, numbered in order. */
  function ChunkEntries(f: DiskFile, chunks: seq<string>, n: nat): (docs: seq<ChunkDoc>)
    requires n <= |chunks|
    ensures |docs| == n
    ensures forall i :: 0 <= i < n ==> docs[i] == ChunkDoc(chunks[i], ChunkMetadata(f, i, |chunks|))
  {
    if n == 0 then [] else ChunkEntries(f, chunks, n - 1) + [ChunkDoc(chunks[n - 1], ChunkMetadata(f, n - 1, |chunks|))]
  }

  /** `process_document(file_path)`'s result, with `split` the text splitter. */
  function DocumentChunks(f: DiskFile, split: string -> seq<string>): (r: seq<ChunkDoc>)
    ensures forall j :: 0 <= j < |r| ==> r[j].metadata == ChunkMetadata(f, j, |r|)
  {
    if KindOf(f.name) == Unsupported || IsBlank(ReadText(f)) then []
    else ChunkEntries(f, split(ReadText(f)), |split(ReadText(f))|)
  }

  /** What `process_document` yields: nothing for an unsupported suffix or
      blank text, otherwise one entry per splitter chunk, in order, each with
      its chunk number, the chunk count and the file's name and path. */
  lemma DocumentChunksMeaning(f: DiskFile, split: string -> seq<string>)
    ensures KindOf(f.name) == Unsupported ==> DocumentChunks(f, split) == []
    ensures IsBlank(ReadText(f)) ==> DocumentChunks(f, split) == []
    ensures KindOf(f.name) != Unsupported && !IsBlank(ReadText(f)) ==>
      var chunks := split(ReadText(f));
      var docs := DocumentChunks(f, split);
      && |docs| == |chunks|
      && forall i :: 0 <= i < |chunks| ==>
           && docs[i].text == chunks[i]
           && docs[i].metadata.source == Some(f.name)
           && docs[i].metadata.chunkId == Some(i)
           && docs[i].metadata.totalChunks == Some(|chunks|)
           && docs[i].metadata.filePath == Some(f.path)
  {
  }

  /** For a supported suffix, the result depends only on the text read. */
  lemma DocumentChunksOfText(f: DiskFile, split: string -> seq<string>, text: string)
    requires KindOf(f.name) != Unsupported && text == ReadText(f)
    ensures DocumentChunks(f, split) == if IsBlank(text) then [] else ChunkEntries(f, split(text), |split(text)|)
  {
  }

  /** `process_document(file_path)`: dispatch on the suffix, reject blank text,
      then the enumerate loop appending one entry per chunk. */
  method ProcessDocument(f: DiskFile, split: string -> seq<string>) returns (chunkDocs: seq<ChunkDoc>)
    ensures chunkDocs == DocumentChunks(f, split)
  {
    var text: string;
    var kind := KindOf(f.name);
    if kind == Pdf {
      text := ReadPdf(f.pdf);
    } else if kind == Txt {
      text := f.text.GetOr("");
    } else {
      return [];
    }
    DocumentChunksOfText(f, split, text);
    if IsBlank(text) {
      return [];
    }
    var chunks := split(text);
    chunkDocs := [];
    var i := 0;
    while i < |chunks|
      invariant 0 <= i <= |chunks|
      invariant chunkDocs == ChunkEntries(f, chunks, i)
    {
      chunkDocs := chunkDocs + [ChunkDoc(chunks[i], ChunkMetadata(f, i, |chunks|))];
      i := i + 1;
    }
  }

  /** Every entry carries a chunk number below its chunk count and no page key. */
  predicate Numbered(docs: seq<ChunkDoc>)
  {
    forall j :: 0 <= j < |docs| ==>
      && docs[j].metadata.page.None? && docs[j].metadata.chunkId.Some? && docs[j].metadata.totalChunks.Some?
      && docs[j].metadata.chunkId.value < docs[j].metadata.totalChunks.value
  }

  lemma NumberedAppend(a: seq<ChunkDoc>, b: seq<ChunkDoc>)
    requires Numbered(a) && Numbered(b)
    ensures Numbered(a + b)
  {
    forall j | 0 <= j < |a + b| ensures (a + b)[j] == if j < |a| then a[j] else b[j - |a|] {
    }
  }

  /** `out.extend(f(x))` for every `x` of `xs` in turn, starting from `[]`. */
  function Gather<A, B>(xs: seq<A>, f: A -> seq<B>): seq<B>
  {
    if |xs| == 0 then [] else Gather(xs[..|xs| - 1], f) + f(xs[|xs| - 1])
  }

  lemma {:induction false} GatherAppend<A, B>(a: seq<A>, b: seq<A>, f: A -> seq<B>)
    ensures Gather(a + b, f) == Gather(a, f) + Gather(b, f)
    decreases |b|
  {
    if |b| == 0 {
      assert a + b == a;
    } else {
      var init := b[..|b| - 1];
      GatherAppend(a, init, f);
      assert (a + b)[..|a + b| - 1] == a + init;
      assert (a + b)[|a + b| - 1] == b[|b| - 1];
      assert Gather(b, f) == Gather(init, f) + f(b[|b| - 1]);
    }
  }

  lemma GatherStep<A, B>(xs: seq<A>, i: nat, f: A -> seq<B>)
    requires i < |xs|
    ensures Gather(xs[..i + 1], f) == Gather(xs[..i], f) + f(xs[i])
  {
    assert xs[..i + 1][..i] == xs[..i];
  }

  /** Every gathered element comes from the output of `f` on some element of `xs`. */
  lemma {:induction false} GatherOrigin<A, B>(xs: seq<A>, f: A -> seq<B>, j: nat)
    requires j < |Gather(xs, f)|
    ensures exists i, k :: 0 <= i < |xs| && 0 <= k < |f(xs[i])| && Gather(xs, f)[j] == f(xs[i])[k]
    decreases |xs|
  {
    var init := xs[..|xs| - 1];
    var last := xs[|xs| - 1];
    if j < |Gather(init, f)| {
      GatherOrigin(init, f, j);
      var i, k :| 0 <= i < |init| && 0 <= k < |f(init[i])| && Gather(init, f)[j] == f(init[i])[k];
      assert xs[i] == init[i];
    } else {
      var k := j - |Gather(init, f)|;
      assert Gather(xs, f)[j] == f(xs[|xs| - 1])[k];
    }
  }

  /** Gathering outputs that are each numbered gives a numbered list. */
  lemma {:induction false} GatherNumbered<A>(xs: seq<A>, f: A -> seq<ChunkDoc>)
    requires forall i :: 0 <= i < |xs| ==> Numbered(f(xs[i]))
    ensures Numbered(Gather(xs, f))
    decreases |xs|
  {
    if |xs| > 0 {
      var init := xs[..|xs| - 1];
      assert forall i :: 0 <= i < |init| ==> init[i] == xs[i];
      GatherNumbered(init, f);
      NumberedAppend(Gather(init, f), f(xs[|xs| - 1]));
    }
  }

  /** The chunks of all files, in file order. */
  function AllChunks(files: seq<DiskFile>, split: string -> seq<string>): (r: seq<ChunkDoc>)
    ensures Numbered(r)
  {
    var per := f => DocumentChunks(f, split);
    assert forall i :: 0 <= i < |files| ==> per(files[i]) == DocumentChunks(files[i], split);
    GatherNumbered(files, per);
    Gather(files, per)
  }

  /** Order preservation: the chunks of a concatenation of file lists are the
      chunks of the first list followed by those of the second. */
  lemma AllChunksAppend(a: seq<DiskFile>, b: seq<DiskFile>, split: string -> seq<string>)
    ensures AllChunks(a + b, split) == AllChunks(a, split) + AllChunks(b, split)
  {
    GatherAppend(a, b, f => DocumentChunks(f, split));
  }

  /** One more file appends its own entries. */
  lemma AllChunksStep(files: seq<DiskFile>, i: nat, split: string -> seq<string>)
    requires i < |files|
    ensures AllChunks(files[..i + 1], split) == AllChunks(files[..i], split) + DocumentChunks(files[i], split)
  {
    GatherStep(files, i, f => DocumentChunks(f, split));
  }

  /** Every ingested chunk carries consistent bookkeeping: it is entry `k` of
      the output for file `i`, it names that file and its path, and its chunk
      number is below its file's chunk count. */
  lemma AllChunksMetadata(files: seq<DiskFile>, split: string -> seq<string>, j: nat) returns (i: nat, k: nat)
    requires j < |AllChunks(files, split)|
    ensures i < |files| && k < |DocumentChunks(files[i], split)|
    ensures AllChunks(files, split)[j] == DocumentChunks(files[i], split)[k]
    ensures var m := AllChunks(files, split)[j].metadata;
      && m.source == Some(files[i].name) && m.filePath == Some(files[i].path) && m.page.None?
      && m.chunkId == Some(k) && m.totalChunks == Some(|DocumentChunks(files[i], split)|)
  {
    var per := g => DocumentChunks(g, split);
    GatherOrigin(files, per, j);
    i, k :| 0 <= i < |files| && 0 <= k < |per(files[i])| && Gather(files, per)[j] == per(files[i])[k];
  }

  /** `[chunk['text'] for chunk in all_chunks]` */
  function Texts(chunks: seq<ChunkDoc>): (t: seq<string>)
    ensures |t| == |chunks| && forall j :: 0 <= j < |chunks| ==> t[j] == chunks[j].text
  {
    seq(|chunks|, j requires 0 <= j < |chunks| => chunks[j].text)
  }

  /** `[chunk['metadata'] for chunk in all_chunks]` */
  function Metas(chunks: seq<ChunkDoc>): (m: seq<ChunkMeta>)
    ensures |m| == |chunks| && forall j :: 0 <= j < |chunks| ==> m[j] == chunks[j].metadata
  {
    seq(|chunks|, j requires 0 <= j < |chunks| => chunks[j].metadata)
  }

  /** `process_all_documents(docs_dir)`: all PDF files, then all TXT files,
      each processed in turn and its entries appended; then the texts and the
      metadata split into two parallel lists. */
  method ProcessAllDocuments(pdfFiles: seq<DiskFile>, txtFiles: seq<DiskFile>, split: string -> seq<string>)
    returns (documents: seq<string>, metadata: seq<ChunkMeta>)
    ensures |pdfFiles| + |txtFiles| == 0 ==> documents == [] && metadata == []
    ensures |documents| == |metadata| == |AllChunks(pdfFiles + txtFiles, split)|
    ensures forall j :: 0 <= j < |documents| ==>
      AllChunks(pdfFiles + txtFiles, split)[j] == ChunkDoc(documents[j], metadata[j])
  {
    var allChunks: seq<ChunkDoc> := [];
    var allFiles := pdfFiles + txtFiles;
    if |allFiles| == 0 {
      return [], [];
    }
    var i := 0;
    while i < |allFiles|
      invariant 0 <= i <= |allFiles|
      invariant allChunks == AllChunks(allFiles[..i], split)
    {
      var chunks := ProcessDocument(allFiles[i], split);
      AllChunksStep(allFiles, i, split);
      allChunks := allChunks + chunks;
      i := i + 1;
    }
    assert allFiles[..i] == allFiles;
    documents, metadata := Texts(allChunks), Metas(allChunks);
  }
}
