# NyayaBot retrieval-augmented legal QA — a Dafny model of its core

NyayaBot answers legal questions in English, Hindi and Marathi. Its
deterministic core is modelled here.

- **Ingestion** (`scripts/ingest_data.py`): files are read by suffix, and PDF
  pages are tagged `[Page n]`. Blank text is rejected, and the text is cut
  into chunks by a splitter. Each chunk gets its bookkeeping metadata, and the
  chunks of all files become two parallel lists.
- **Document retriever** (`app/nlp_core/retriever.py`): three stores are kept
  aligned by position: chunk texts, chunk metadata and the vector index. The
  raw `(distance, id)` slots of a nearest-neighbour search become ranked
  result records with relevance `1/(1+d)`. A size-bounded context string is
  assembled for the answer generator.
- **Translator** (`app/nlp_core/translator.py`): one tokenizer and one
  model are loaded per configured direction. `translate` returns the text
  unchanged when source equals target or when no model exists for the
  direction.
- **QA service** (`app/services/qa_service.py`): the `answer_question`
  pipeline with its three outcomes (answered, nothing found, error). Also
  source formatting, batch answering, document summaries and the health
  report.

Modules:

| module | file | contents |
|---|---|---|
| `Base` | `base.dfy` | `Option` and `Result` |
| `Text` | `text.dfy` | `sep.join`, `str.strip()` blankness, ASCII lower-casing, `str.rfind`, `str(n)` for naturals |
| `Metadata` | `metadata.dfy` | the chunk metadata dictionary |
| `FlatL2` | `flat_l2.dfy` | a reference exact L2 k-nearest-neighbour search with FAISS's `-1` padding |
| `Retriever` | `retriever.dfy` | result shaping, context assembly and the class `DocumentRetriever` |
| `Translation` | `translator.dfy` | the model table, the loading loop and the class `Translator` |
| `Ingest` | `ingest.dfy` | `read_pdf`, `process_document` and `process_all_documents` |
| `QA` | `qa_service.dfy` | the `QAService` operations over their collaborators |

Points where the model follows the code closely:

- `build_index` has no empty-input check. Line 107 reads
  `embeddings.shape[1]` whatever the list, and the ingestion script exits
  before building when no documents were produced
  (`scripts/ingest_data.py:164-166`).
- `load_index` does not compare the lengths of the two stored artifacts.
- The context budget does not count the `"\n---\n"` separators.
- `translate` has no cache and no pivot through English.
- In `answer_question`, a failing translation or generation call gives the
  apology response with `success = False`. It does not degrade to the
  untranslated text.

## Model

| member | source | states |
|---|---|---|
| `Text.Join` | app/nlp_core/retriever.py:181 | `sep.join(parts)` is empty for no parts, else as long as the parts plus one separator between each two |
| `Text.JoinStartsWithFirst` | app/nlp_core/retriever.py:181 | a non-empty join starts with its first part |
| `Text.DecimalString` | scripts/ingest_data.py:50 | `str(n)` is a non-empty string of digits without a leading zero |
| `Text.DecimalRoundTrip` | scripts/ingest_data.py:50 | the page number written into a `[Page n]` tag reads back as `n` |
| `FlatL2.Nearest` | app/nlp_core/retriever.py:137 | the next slot of an exact search names a remaining stored vector no farther than any other remaining one, the first stored among equally near ones |
| `FlatL2.PositionsMembers` | app/nlp_core/retriever.py:137 | the search ranges over positions `0 .. ntotal - 1`, `ntotal` of them |
| `FlatL2.Select` | app/nlp_core/retriever.py:137 | a search for `k` returns exactly `k` slots |
| `FlatL2.SelectPadding` | app/nlp_core/retriever.py:137 | with no stored vector left, every remaining slot is the `(-1, FLT_MAX)` padding |
| `FlatL2.Search` | app/nlp_core/retriever.py:137 | `index.search(query, k)` returns `k` slots; the first `min(k, ntotal)` name stored vectors with their true squared distances, in ascending distance, and the rest are padding |
| `FlatL2.SelectShape` | app/nlp_core/retriever.py:108 | an exact `IndexFlatL2` search for `k` returns `k` slots: `min(k, n)` filled ones with distinct stored ids and their true distances, then `(-1, FLT_MAX)` padding |
| `FlatL2.SelectSorted` | app/nlp_core/retriever.py:137 | filled slots come in ascending distance |
| `FlatL2.SelectExact` | app/nlp_core/retriever.py:137 | a stored vector left out of the result is no nearer than any returned one, and is only left out when more than `k` vectors are stored |
| `Retriever.Relevance` | app/nlp_core/retriever.py:148 | `1/(1+d)` lies in (0, 1] for every distance `d >= 0` |
| `Retriever.RelevanceDecreasing` | app/nlp_core/retriever.py:148 | relevance never increases as distance grows, and strictly falls for a strictly larger distance |
| `Retriever.PyIndex` | app/nlp_core/retriever.py:145-146 | Python list indexing: defined exactly on `-len .. len-1`, and the plain element for a non-negative position |
| `Retriever.Shape` | app/nlp_core/retriever.py:139-149 | the corrected shaping fails only with `IndexError`; on success it keeps at most one record per slot, each ranked `1 .. len(slots)` with relevance in (0, 1] |
| `Retriever.ShapeAsWritten` | app/nlp_core/retriever.py:139-149 | the shaping as written fails only with `IndexError`; on success it keeps at most one record per slot, each ranked `1 .. len(slots)` with relevance in (0, 1] |
| `Retriever.ShapeFailure` | app/nlp_core/retriever.py:141-147 | shaping fails, always with `IndexError`, exactly when a slot naming a stored chunk has no metadata record |
| `Retriever.ShapeLength` | app/nlp_core/retriever.py:141-149 | a successful shaping has one record per slot naming a stored chunk |
| `Retriever.ShapeRanksIncrease` | app/nlp_core/retriever.py:141-149 | ranks strictly increase along a successful result list |
| `Retriever.ShapeRecords` | app/nlp_core/retriever.py:141-149 | each record of a successful result is the record of slot `rank - 1`, with the text and metadata stored at that slot's id |
| `Retriever.ShapeSuccess` | app/nlp_core/retriever.py:141-149 | a successful shaping keeps exactly the slots naming a stored chunk, in slot order with strictly increasing rank `slot + 1`, each with the text and metadata stored at that slot's id |
| `Retriever.ShapeMeaning` | app/nlp_core/retriever.py:139-149 | results are exactly the slots naming a stored chunk, at most one per slot, in slot order with strictly increasing rank `slot + 1`; each result's text and metadata come from the same stored position; the lookup fails, with `IndexError`, exactly when a kept slot has no metadata |
| `Retriever.AlignedShapeSucceeds` | app/nlp_core/retriever.py:145-146 | with as many metadata records as texts, shaping never fails |
| `Retriever.ShapeAllKept` | app/nlp_core/retriever.py:141-149 | when every slot names a stored chunk, result `i` is slot `i` with rank `i + 1` |
| `Retriever.ShapeDropsPadding` | app/nlp_core/retriever.py:142 | trailing `-1` padding slots add nothing to the corrected result list |
| `Retriever.ExactSearchRecords` | app/nlp_core/retriever.py:137-149 | over an aligned index and an exact search, result `j` is exactly the record built from slot `j`, for the first `min(top_k, n)` slots, and nothing else is kept |
| `Retriever.ExactSearchResults` | app/nlp_core/retriever.py:137-149 | over an aligned index and an exact search, the result list has `min(top_k, n)` records ranked 1, 2, ..., each a different stored chunk with its own text and metadata, relevance non-increasing |
| `Retriever.PaddingSlotKeptAsWritten` | app/nlp_core/retriever.py:142-146 | with one stored chunk and `top_k = 2`, the check as written returns the chunk twice, the second time from the `-1` padding slot; the corrected check returns it once |
| `Retriever.FormatBlock` | app/nlp_core/retriever.py:173 | a context block is `"[Source: " + source-or-Unknown + "]\n" + text + "\n"`, 12 characters longer than source and text together |
| `Retriever.Blocks` | app/nlp_core/retriever.py:168-173 | one formatted block per retrieved document, in order |
| `Retriever.TakenFrom` | app/nlp_core/retriever.py:168-179 | from block `i` on, the greedy loop appends at most the remaining blocks |
| `Retriever.TakenFromLongestFit` | app/nlp_core/retriever.py:175-179 | from block `i` on, a run of blocks fits the remaining budget exactly when the greedy loop gets at least that far |
| `Retriever.TakenCount` | app/nlp_core/retriever.py:175-179 | the greedy loop appends at most all the blocks |
| `Retriever.TakenIsLongestFit` | app/nlp_core/retriever.py:175-179 | a prefix of `m >= 1` blocks fits the budget exactly when the loop appends at least `m` blocks |
| `Retriever.AssembleContext` | app/nlp_core/retriever.py:165-182 | no documents or a negative budget give `""`; a non-empty context is at most `max_length + 5(len(docs) - 1)` long, since the budget does not count the separators |
| `Retriever.ContextBudget` | app/nlp_core/retriever.py:165-182 | the appended blocks are a prefix of the input that fits `max_length`; the next block would overflow; the context is `sum + 5(n-1)` long, so at most `max_length + 5(n-1)`; it starts with the first block; it is `""` exactly for no documents or a first block over budget |
| `Retriever.DocumentRetriever.constructor` | app/nlp_core/retriever.py:28-30 | a new retriever has no index and empty stores |
| `Retriever.DocumentRetriever.BuildIndex` | app/nlp_core/retriever.py:100-109 | the stores become exactly the given lists in every case, since they are assigned before the embeddings are computed; when the encoder or the read of the embedding width raises, the previous index stays beside the new lists; otherwise the index holds one embedding per text, in order, and the three stores are aligned exactly when the lists have equal length |
| `Retriever.DocumentRetriever.LoadIndex` | app/nlp_core/retriever.py:38-52 | the vector index is installed when read; then the texts when the pickle holds `'documents'`, then the metadata when it holds `'metadata'`; a failure raises and leaves what was installed before it, so a pickle without `'metadata'` leaves the new index and texts beside the old metadata; success exactly when all three are present |
| `Retriever.DocumentRetriever.Retrieve` | app/nlp_core/retriever.py:116-152 | with no index it fails with "Index not loaded" before any search; otherwise it is the corrected shaping of the search for `top_k`, or the default when `top_k` is None |
| `Retriever.DocumentRetriever.GetContextForGeneration` | app/nlp_core/retriever.py:154-182 | the loop with its running length and `break` computes the assembled context |
| `Translation.ModelKey` | app/nlp_core/translator.py:33 | the key is `source + "-" + target`: source before the dash, target after it |
| `Translation.ModelKeyInjective` | app/nlp_core/translator.py:33 | for dash-free source codes, a key names one direction only |
| `Translation.LoadTable` | app/nlp_core/translator.py:10-17 | a successful load has the same keys in both dictionaries; a failed load carries the error of some entry's tokenizer or model load |
| `Translation.LoadSucceedsIff` | app/nlp_core/translator.py:10-17 | loading the table succeeds exactly when every tokenizer and model loads |
| `Translation.LoadedKeys` | app/nlp_core/translator.py:10-14 | after a successful load, both dictionaries have exactly the table's keys |
| `Translation.LoadedValues` | app/nlp_core/translator.py:13-14 | each key holds what loading its checkpoint returned |
| `Translation.LoadFailurePersists` | app/nlp_core/translator.py:15-17 | once an entry fails to load, loading the whole table fails with that error |
| `Translation.Translator.constructor` | app/nlp_core/translator.py:6-7 | a translator starts with two empty dictionaries |
| `Translation.Translator.LoadModels` | app/nlp_core/translator.py:10-18 | the loading loop fills the dictionaries, tokenizer before model, and returns the first error, which aborts construction |
| `Translation.Translator.Translate` | app/nlp_core/translator.py:20-57 | identity when source equals target; the original text when the key has no model; otherwise the generated translation from that key's tokenizer and model |
| `Translation.NewTranslator` | app/nlp_core/translator.py:5-18 | construction succeeds exactly when every configured model loads; then both dictionaries have exactly the configured keys |
| `Translation.ConfiguredKeys` | app/config.py:23-28 | the configured directions are en-hi, hi-en, en-mr and mr-en |
| `Translation.ConfiguredRouting` | app/nlp_core/translator.py:30-38 | between two supported languages, a model is used exactly when they differ and one is English; hi to mr and mr to hi return the text unchanged |
| `Ingest.TaggedPages` | scripts/ingest_data.py:47-50 | the accumulated page text is `""` exactly when every page's text is empty |
| `Ingest.PdfText` | scripts/ingest_data.py:42-54 | `read_pdf` gives `""` exactly when opening or a page extraction raises, or no page has text |
| `Ingest.ReadPdf` | scripts/ingest_data.py:42-54 | each page with text adds `"\n[Page n]\n" + text + "\n"`, numbered from 1 in page order; empty pages are skipped; any read error gives `""` |
| `Ingest.ReadPdfStep` | scripts/ingest_data.py:47-50 | one more extracted page appends its own tagged block, and nothing else, to the text so far |
| `Ingest.TaggedPagesBlank` | scripts/ingest_data.py:47-50 | the PDF text is blank exactly when no page has text |
| `Ingest.Suffix` | scripts/ingest_data.py:78 | a file name's suffix is empty or a dot-led tail of at least two characters |
| `Ingest.SuffixOfLower` | scripts/ingest_data.py:78-81 | lower-casing a name lower-cases its suffix |
| `Ingest.FourCharacterSuffix` | scripts/ingest_data.py:78 | a name of more than four characters whose last four lower to `.pdf` or `.txt` has exactly those four as its suffix |
| `Ingest.KindOf` | scripts/ingest_data.py:78-84 | a file is read as PDF (as text) exactly when its name has more than four characters and its last four lower to `.pdf` (`.txt`) |
| `Ingest.KindIgnoresCase` | scripts/ingest_data.py:78-84 | the suffix dispatch ignores case |
| `Ingest.KindExamples` | scripts/ingest_data.py:78-84 | `.PDF` is read as PDF and `.txt` as text; `.md`, a bare `.pdf` name and a name without a dot are unsupported |
| `Ingest.ChunkEntries` | scripts/ingest_data.py:94-104 | the entries for the first `n` chunks: `n` of them, entry `i` holding `chunks[i]` with `chunk_id = i`, `total_chunks = len(chunks)`, the file's name and path |
| `Ingest.DocumentChunks` | scripts/ingest_data.py:65-107 | entry `j` of a file's output carries `chunk_id = j`, `total_chunks` equal to the number of entries, the file's name and path, and no page key |
| `Ingest.DocumentChunksMeaning` | scripts/ingest_data.py:65-107 | an unsupported suffix or blank text gives `[]`; otherwise one entry per splitter chunk, with entry `i` holding `chunks[i]`, `chunk_id = i`, `total_chunks = len(chunks)`, the file's name and path |
| `Ingest.DocumentChunksOfText` | scripts/ingest_data.py:78-104 | for a supported suffix, the result depends only on the text read: `[]` when blank, else the entries for its chunks |
| `Ingest.ProcessDocument` | scripts/ingest_data.py:65-107 | the suffix dispatch, the blank check and the enumerate loop compute exactly the result `Ingest.DocumentChunksMeaning` describes |
| `Ingest.GatherAppend` | scripts/ingest_data.py:133-135 | extending a list file by file over two lists of files gives the first list's output, then the second's |
| `Ingest.AllChunksStep` | scripts/ingest_data.py:133-135 | processing one more file appends exactly that file's entries |
| `Ingest.AllChunksAppend` | scripts/ingest_data.py:122-135 | the chunks of all PDFs then all TXTs are the PDFs' chunks followed by the TXTs' chunks, each in file order |
| `Ingest.NumberedAppend` | scripts/ingest_data.py:133-135 | extending a list with well-numbered entries keeps it well numbered |
| `Ingest.GatherNumbered` | scripts/ingest_data.py:133-135 | extending a list file by file with well-numbered outputs gives a well-numbered list |
| `Ingest.AllChunks` | scripts/ingest_data.py:119-135 | every chunk of every file carries a chunk number below its chunk count and no page key |
| `Ingest.AllChunksMetadata` | scripts/ingest_data.py:95-135 | every ingested chunk is entry `k` of the output of some file `i`: it carries that file's name and path, `chunk_id = k < total_chunks` = that file's chunk count, and no page key |
| `Ingest.Texts` | scripts/ingest_data.py:138 | the text list has one element per chunk, the chunk's text |
| `Ingest.Metas` | scripts/ingest_data.py:139 | the metadata list has one element per chunk, the chunk's metadata |
| `Ingest.ProcessAllDocuments` | scripts/ingest_data.py:109-142 | no files gives `([], [])`; otherwise the two lists have equal length, and `documents[j]` and `metadata[j]` are the text and metadata of the same chunk `j` of the concatenation |
| `QA.Excerpt` | app/services/qa_service.py:123 | a document over 300 characters shows its first 300 plus `"..."`; otherwise the whole document |
| `QA.ExcerptBounds` | app/services/qa_service.py:123 | an excerpt is at most 303 characters and starts with as much of the document as it keeps |
| `QA.SourcesOf` | app/services/qa_service.py:119-128 | one source entry per document, in order, with its rank, its excerpt, its source or `"Unknown"`, its page or None, and its relevance |
| `QA.FormatSources` | app/services/qa_service.py:109-128 | the append loop builds exactly that list |
| `QA.LanguageOrDefault` | app/services/qa_service.py:104 | `language or "en"`: the given code when it is non-empty, `"en"` when it is missing or empty |
| `QA.AnswerQuestion` | app/services/qa_service.py:29-107 | on success there is no error, the query is echoed, and sources are present exactly when requested; otherwise the response is either "couldn't find" with `sources = []`, or the apology with an error message and language `language or "en"`; a failing query translation gives the apology with its message |
| `QA.SuccessResponse` | app/services/qa_service.py:52-98 | on the normal path: success, the back-translated answer, the detected language, the echoed query, the English query, and the formatted sources when requested |
| `QA.NoResultsSkipsGeneration` | app/services/qa_service.py:62-68 | with no documents retrieved, the response is "couldn't find" with `sources = []` and the detected language, whatever the generator and answer translator would do |
| `QA.ErrorAnswer` | app/services/qa_service.py:100-107 | the catch-all response: not successful, the apology text, the exception's message as `error`, language `language or "en"`, and no sources or echoed queries |
| `QA.StageFailureAbsorbed` | app/services/qa_service.py:59-107 | once the query is translated, a failing retrieval, a failing answer generation after a non-empty retrieval, or a failing back-translation of the generated answer gives the apology response carrying that failure's message |
| `QA.BatchAnswerQuestions` | app/services/qa_service.py:130-145 | one response per query, in order, each the answer to that query with the shared language |
| `QA.GetDocumentSummary` | app/services/qa_service.py:147-185 | success exactly when a source is reported, and then without error; a failing retrieval gives "Error generating summary." with its message; an empty retrieval gives "Document not found." without error; a failing summariser on a non-empty retrieval gives "Error generating summary." with its message |
| `QA.SummaryOfRetrieved` | app/services/qa_service.py:159-177 | the summary is the generator's output on the newline-join of the retrieved chunks, which starts with the first chunk; the source is the first chunk's, or "Unknown" |
| `QA.SummaryUsesTopThree` | app/services/qa_service.py:159 | only the retrieval for the name with `top_k = 3` matters |
| `QA.HealthCheck` | app/services/qa_service.py:187-226 | each component is "ok" or its error text; a None index or a None model is an error; overall is "ok" exactly when all three components are "ok", else "degraded" |

## Left out

- Embedding computation (`create_embeddings`, the sentence-transformer model and the `float32` cast) is not modelled: `BuildIndex` takes the embedding as a function and whether encoding raises as a flag, and `Retrieve` takes the search for the embedded query as a function.
- The FAISS and pickle files (`save_index`, `faiss.read_index`, `pickle.load`) are not modelled: `LoadIndex` receives what the index read and the two dictionary lookups return, or `None` where one raises.
- The retriever constructor's file-existence test and automatic load are not modelled: the caller runs `LoadIndex`.
- The FAISS search itself is an input to `Retrieve`. `FlatL2` states what an exact `IndexFlatL2` search returns, but not FAISS's tie order among equal distances: `FlatL2` takes the first stored position.
- `ModelConfig` (`TOP_K_DOCUMENTS`, `CHUNK_SIZE`, `CHUNK_OVERLAP`, the embedding model name) is not part of this model, since `app/config.py` defines only `Config`: the default `top_k` is a parameter of `Retrieve`.
- Floating-point distances are not modelled: distances and relevance are reals, and a distance is never negative.
- QA.SourcesOf: `relevance_score` is the unrounded relevance, because `round(x, 3)` on binary floats is not modelled.
- The text splitter is an opaque function from text to chunks.
- Directory globbing, `tqdm`, logging and `main()` are not modelled: `ProcessAllDocuments` receives the PDF and TXT file lists.
- The PDF reader and the UTF-8 read are not modelled: a file carries what they return. A page whose extraction returns `None` is the empty string, since both are skipped.
- Ingest.KindOf: lower-cases ASCII letters only; Python's full Unicode `str.lower` is not modelled, and no other character lowers to a letter of `pdf` or `txt`.
- Tokenizer and model loading, and `generate`/`batch_decode`, are not modelled: `LoadModels` takes the two loaders as functions, and `Translate` takes the generation as a function.
- The translator calls the QA service makes (`translate_query`, `translate_answer`, `translate_to_english`, and the `cache_size` argument) do not exist in `app/nlp_core/translator.py`. They are collaborator functions, along with `retrieve`, `generate_answer` and `generate_summary`.
- `QAService.__init__` is not modelled: it only wires these collaborators.
- `app/nlp_core/generator.py` is not part of this model.
- Exception messages are not modelled: a collaborator's exception is `Failure(message)`.
- `app/main.py`, `streamlit_app.py`, `test.py` and `test2.py` are not modelled: HTTP endpoints, UI and smoke scripts.

## Findings

| source | as written | input that shows it | evidently intended | confidence | as-written member | corrected member |
|---|---|---|---|---|---|---|
| app/nlp_core/retriever.py:142 | a search slot is kept when `idx < len(self.documents)`; FAISS fills missing slots with id `-1`, which passes, and `self.documents[-1]` is the last stored chunk | one stored chunk and `top_k = 2`: the search returns ids `[0, -1]`, and the chunk comes back twice, the second time at distance `FLT_MAX` with rank 2 | keep only slots with `0 <= idx < len(self.documents)` | high; not executed | `Retriever.ShapeAsWritten` (shown by `Retriever.PaddingSlotKeptAsWritten`) | `Retriever.Shape` (used by `Retriever.DocumentRetriever.Retrieve`; `Retriever.ShapeMeaning`, `Retriever.ExactSearchResults`) |
