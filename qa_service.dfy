/** The question-answering service: translate the question to English,
    retrieve chunks, assemble the context, generate an answer, translate it
    back, and shape the response dictionary; plus source formatting, batch
    answering, document summaries and the health report. The translator,
    retriever and generator it drives are collaborators given as functions;
    a collaborator that raises returns `Failure(str(e))`. */
module QA {
  import opened Base
  import opened Text
  import opened Metadata
  import opened Retriever

  /** What `translate_query` returns: `{'detected_language', 'english_query'}`. */
  datatype QueryTranslation = QueryTranslation(detectedLanguage: string, englishQuery: string)

  datatype Collaborators = Collaborators(
    /** `translator.translate_query(query, language)` */
    translateQuery: (string, Option<string>) -> Result<QueryTranslation, string>,
    /** `retriever.retrieve(query, top_k)` */
    retrieve: (string, Option<int>) -> Result<seq<Retrieved>, string>,
    /** `generator.generate_answer(query, context)` */
    generateAnswer: (string, string) -> Result<string, string>,
    /** `translator.translate_answer(answer, language)` */
    translateAnswer: (string, string) -> Result<string, string>,
    /** `generator.generate_summary(text)` */
    generateSummary: string -> Result<string, string>,
    /** `translator.translate_to_english(text, language)` */
    translateToEnglish: (string, string) -> Result<string, string>)

  const NO_RESULTS_ANSWER: string := "I couldn't find relevant information to answer your question. Please try rephrasing or ask about a different topic."
  const APOLOGY_ANSWER: string := "I apologize, but I encountered an error while processing your question. Please try again."
  const EXCERPT_LENGTH: nat := 300

  /** One entry of `_format_sources`. */
  datatype SourceEntry = SourceEntry(rank: int, text: string, source: string, page: Option<int>, relevanceScore: real)

  /** The response dictionary of `answer_question`; a key the response does
      not carry is `None`. */
  datatype Answer = Answer(
    answer: string,
    language: string,
    originalQuery: Option<string>,
    englishQuery: Option<string>,
    sources: Option<seq<SourceEntry>>,
    success: bool,
    error: Option<string>)

  /** The document text shown for a source: its first 300 characters and an
      ellipsis when it is longer, else the whole document. */
  function Excerpt(document: string): (t: string)
    ensures |document| <= EXCERPT_LENGTH ==> t == document
    ensures |document| > EXCERPT_LENGTH ==> |t| == EXCERPT_LENGTH + 3 && document[..EXCERPT_LENGTH] + "..." == t
  {
    if |document| > EXCERPT_LENGTH then document[..EXCERPT_LENGTH] + "..." else document
  }

  /** An excerpt never exceeds 303 characters and always starts with as much
      of the document as it keeps. */
  lemma ExcerptBounds(document: string)
    ensures |Excerpt(document)| <= EXCERPT_LENGTH + 3
    ensures var n := if |document| < EXCERPT_LENGTH then |document| else EXCERPT_LENGTH;
      document[..n] <= Excerpt(document)
  {
  }

  function FormatSource(doc: Retrieved): SourceEntry
  {
    SourceEntry(doc.rank, Excerpt(doc.document), SourceLabel(doc.metadata), doc.metadata.page, doc.relevance)
  }

  /** The list `_format_sources` builds: one entry per document, in order. */
  function SourcesOf(docs: seq<Retrieved>): (s: seq<SourceEntry>)
    ensures |s| == |docs|
    ensures forall i :: 0 <= i < |docs| ==>
      && s[i].rank == docs[i].rank
      && s[i].text == Excerpt(docs[i].document)
      && s[i].source == docs[i].metadata.source.GetOr("Unknown")
      && s[i].page == docs[i].metadata.page
      && s[i].relevanceScore == docs[i].relevance
  {
    seq(|docs|, i requires 0 <= i < |docs| => FormatSource(docs[i]))
  }

  /** `_format_sources(retrieved_docs)`: the append loop. */
  method FormatSources(docs: seq<Retrieved>) returns (sources: seq<SourceEntry>)
    ensures sources == SourcesOf(docs)
  {
    sources := [];
    for i := 0 to |docs|
      invariant sources == SourcesOf(docs[..i])
    {
      var doc := docs[i];
      assert SourcesOf(docs[..i + 1])[..i] == SourcesOf(docs[..i]);
      sources := sources + [SourceEntry(doc.rank, Excerpt(doc.document), SourceLabel(doc.metadata), doc.metadata.page, doc.relevance)];
    }
    assert docs[..|docs|] == docs;
  }

  /** `language or "en"`: a missing or empty language code reads as English. */
  function LanguageOrDefault(language: Option<string>): (l: string)
    ensures l != ""
    ensures language.Some? && language.value != "" ==> l == language.value
    ensures language.None? || language.value == "" ==> l == "en"
  {
    if language.None? || language.value == "" then "en" else language.value
  }

  /** The catch-all response: the exception's text under `error`. */
  function ErrorAnswer(language: Option<string>, message: string): (r: Answer)
    ensures !r.success && r.answer == APOLOGY_ANSWER && r.error == Some(message)
    ensures r.language == LanguageOrDefault(language)
    ensures r.language != "" && (language.Some? && language.value != "" ==> r.language == language.value)
    ensures r.sources.None? && r.originalQuery.None? && r.englishQuery.None?
  {
    Answer(APOLOGY_ANSWER, LanguageOrDefault(language), None, None, None, false, Some(message))
  }

  /** `answer_question(query, language, top_k, include_sources)`: every
      collaborator failure becomes the apology response, nothing escapes. */
  function AnswerQuestion(svc: Collaborators, query: string, language: Option<string>, topK: Option<int>, includeSources: bool): (r: Answer)
    ensures r.success ==> r.error.None? && r.originalQuery == Some(query) && r.englishQuery.Some?
    ensures r.success ==> (r.sources.Some? <==> includeSources)
    ensures !r.success ==> r.originalQuery.None? && r.englishQuery.None?
    ensures !r.success ==>
      || (r.answer == NO_RESULTS_ANSWER && r.sources == Some([]) && r.error.None?)
      || (r.answer == APOLOGY_ANSWER && r.sources.None? && r.error.Some? && r.language == LanguageOrDefault(language))
    ensures svc.translateQuery(query, language).Failure? ==>
      r == ErrorAnswer(language, svc.translateQuery(query, language).error)
  {
    match svc.translateQuery(query, language)
    case Failure(e) => ErrorAnswer(language, e)
    case Success(t) =>
      match svc.retrieve(t.englishQuery, topK)
      case Failure(e) => ErrorAnswer(language, e)
      case Success(docs) =>
        if |docs| == 0 then
          Answer(NO_RESULTS_ANSWER, t.detectedLanguage, None, None, Some([]), false, None)
        else
          match svc.generateAnswer(t.englishQuery, AssembleContext(docs, DEFAULT_MAX_CONTEXT))
          case Failure(e) => ErrorAnswer(language, e)
          case Success(english) =>
            match svc.translateAnswer(english, t.detectedLanguage)
            case Failure(e) => ErrorAnswer(language, e)
            case Success(final) =>
              Answer(final, t.detectedLanguage, Some(query), Some(t.englishQuery),
                     if includeSources then Some(SourcesOf(docs)) else None, true, None)
  }

  /** The normal path: the back-translated answer of the English question
      over the assembled context, in the detected language. */
  lemma SuccessResponse(svc: Collaborators, query: string, language: Option<string>, topK: Option<int>, includeSources: bool,
                        t: QueryTranslation, docs: seq<Retrieved>, english: string, final: string)
    requires svc.translateQuery(query, language) == Success(t)
    requires svc.retrieve(t.englishQuery, topK) == Success(docs) && |docs| > 0
    requires svc.generateAnswer(t.englishQuery, AssembleContext(docs, DEFAULT_MAX_CONTEXT)) == Success(english)
    requires svc.translateAnswer(english, t.detectedLanguage) == Success(final)
    ensures var r := AnswerQuestion(svc, query, language, topK, includeSources);
      && r.success && r.answer == final && r.language == t.detectedLanguage
      && r.originalQuery == Some(query) && r.englishQuery == Some(t.englishQuery)
      && (includeSources ==> r.sources == Some(SourcesOf(docs)))
  {
  }

  /** With no documents retrieved the response is the fixed "couldn't find"
      answer, whatever the generator and the answer translator would do: they
      are not consulted. */
  lemma NoResultsSkipsGeneration(svc: Collaborators, query: string, language: Option<string>, topK: Option<int>, includeSources: bool,
                                 t: QueryTranslation,
                                 generate: (string, string) -> Result<string, string>,
                                 translateBack: (string, string) -> Result<string, string>)
    requires svc.translateQuery(query, language) == Success(t)
    requires svc.retrieve(t.englishQuery, topK) == Success([])
    ensures var r := AnswerQuestion(svc, query, language, topK, includeSources);
      && r == AnswerQuestion(svc.(generateAnswer := generate, translateAnswer := translateBack), query, language, topK, includeSources)
      && !r.success && r.answer == NO_RESULTS_ANSWER && r.sources == Some([]) && r.language == t.detectedLanguage
  {
  }

  /** A failure at any later stage is absorbed into the apology response
      carrying that stage's message. */
  lemma StageFailureAbsorbed(svc: Collaborators, query: string, language: Option<string>, topK: Option<int>, includeSources: bool,
                             t: QueryTranslation, message: string)
    requires svc.translateQuery(query, language) == Success(t)
    requires || svc.retrieve(t.englishQuery, topK) == Failure(message)
             || (&& svc.retrieve(t.englishQuery, topK).Success?
                 && |svc.retrieve(t.englishQuery, topK).value| > 0
                 && svc.generateAnswer(t.englishQuery, AssembleContext(svc.retrieve(t.englishQuery, topK).value, DEFAULT_MAX_CONTEXT)) == Failure(message))
             || (&& svc.retrieve(t.englishQuery, topK).Success?
                 && |svc.retrieve(t.englishQuery, topK).value| > 0
                 && svc.generateAnswer(t.englishQuery, AssembleContext(svc.retrieve(t.englishQuery, topK).value, DEFAULT_MAX_CONTEXT)).Success?
                 && svc.translateAnswer(svc.generateAnswer(t.englishQuery, AssembleContext(svc.retrieve(t.englishQuery, topK).value, DEFAULT_MAX_CONTEXT)).value, t.detectedLanguage) == Failure(message))
    ensures AnswerQuestion(svc, query, language, topK, includeSources) == ErrorAnswer(language, message)
  {
  }

  /** `batch_answer_questions(queries, language)`: one response per query, in
      order, each with the default `top_k` and sources included. */
  method BatchAnswerQuestions(svc: Collaborators, queries: seq<string>, language: Option<string>) returns (results: seq<Answer>)
    ensures |results| == |queries|
    ensures forall i :: 0 <= i < |queries| ==> results[i] == AnswerQuestion(svc, queries[i], language, None, true)
  {
    results := [];
    for i := 0 to |queries|
      invariant |results| == i
      invariant forall j :: 0 <= j < i ==> results[j] == AnswerQuestion(svc, queries[j], language, None, true)
    {
      var result := AnswerQuestion(svc, queries[i], language, None, true);
      results := results + [result];
    }
  }

  /** The response dictionary of `get_document_summary`. */
  datatype Summary = Summary(summary: string, source: Option<string>, success: bool, error: Option<string>)

  const SUMMARY_TOP_K: int := 3

  function DocumentTexts(docs: seq<Retrieved>): (t: seq<string>)
    ensures |t| == |docs| && forall i :: 0 <= i < |docs| ==> t[i] == docs[i].document
  {
    seq(|docs|, i requires 0 <= i < |docs| => docs[i].document)
  }

  const SUMMARY_NOT_FOUND: string := "Document not found."
  const SUMMARY_ERROR: string := "Error generating summary."

  /** `get_document_summary(document_name)`: the top three chunks for the
      name, joined by newlines and summarised; the source reported is the
      first chunk's. */
  function GetDocumentSummary(svc: Collaborators, documentName: string): (r: Summary)
    ensures r.success <==> r.source.Some?
    ensures r.success ==> r.error.None?
    ensures !r.success ==>
      || (r.summary == SUMMARY_NOT_FOUND && r.error.None?)
      || (r.summary == SUMMARY_ERROR && r.error.Some?)
    ensures svc.retrieve(documentName, Some(SUMMARY_TOP_K)).Failure? ==>
      r == Summary(SUMMARY_ERROR, None, false, Some(svc.retrieve(documentName, Some(SUMMARY_TOP_K)).error))
    ensures svc.retrieve(documentName, Some(SUMMARY_TOP_K)) == Success([]) ==>
      r == Summary(SUMMARY_NOT_FOUND, None, false, None)
    ensures svc.retrieve(documentName, Some(SUMMARY_TOP_K)).Success? && |svc.retrieve(documentName, Some(SUMMARY_TOP_K)).value| > 0 ==>
      var text := Join(DocumentTexts(svc.retrieve(documentName, Some(SUMMARY_TOP_K)).value), "\n");
      svc.generateSummary(text).Failure? ==> r == Summary(SUMMARY_ERROR, None, false, Some(svc.generateSummary(text).error))
  {
    match svc.retrieve(documentName, Some(SUMMARY_TOP_K))
    case Failure(e) => Summary(SUMMARY_ERROR, None, false, Some(e))
    case Success(docs) =>
      if |docs| == 0 then Summary(SUMMARY_NOT_FOUND, None, false, None)
      else
        match svc.generateSummary(Join(DocumentTexts(docs), "\n"))
        case Failure(e) => Summary(SUMMARY_ERROR, None, false, Some(e))
        case Success(summary) => Summary(summary, Some(SourceLabel(docs[0].metadata)), true, None)
  }

  /** The successful summary is the generator's output on a text that starts
      with the first chunk and holds every chunk plus one newline between
      consecutive ones. */
  lemma SummaryOfRetrieved(svc: Collaborators, documentName: string, docs: seq<Retrieved>, summary: string)
    requires svc.retrieve(documentName, Some(SUMMARY_TOP_K)) == Success(docs) && |docs| > 0
    requires svc.generateSummary(Join(DocumentTexts(docs), "\n")) == Success(summary)
    ensures GetDocumentSummary(svc, documentName) == Summary(summary, Some(docs[0].metadata.source.GetOr("Unknown")), true, None)
    ensures docs[0].document <= Join(DocumentTexts(docs), "\n")
    ensures |Join(DocumentTexts(docs), "\n")| == SumLengths(DocumentTexts(docs)) + |docs| - 1
  {
    JoinStartsWithFirst(DocumentTexts(docs), "\n");
  }

  /** Only the retrieval for the name with `top_k = 3` matters: any retriever
      that agrees on that one call gives the same summary. */
  lemma SummaryUsesTopThree(svc: Collaborators, documentName: string, other: (string, Option<int>) -> Result<seq<Retrieved>, string>)
    requires other(documentName, Some(3)) == svc.retrieve(documentName, Some(3))
    ensures GetDocumentSummary(svc.(retrieve := other), documentName) == GetDocumentSummary(svc, documentName)
  {
  }

  const HEALTH_OK: string := "ok"
  const HEALTH_DEGRADED: string := "degraded"

  /** `health_check()`: probe the translator with `("test", "en")`, then the
      retriever's index and the generator's model; each failed probe records
      its error and degrades the overall status. */
  method HealthCheck(svc: Collaborators, retriever: DocumentRetriever, generatorLoaded: bool) returns (status: map<string, string>)
    ensures status.Keys == {"translator", "retriever", "generator", "overall"}
    ensures status["translator"] == (if svc.translateToEnglish("test", "en").Failure? then "error: " + svc.translateToEnglish("test", "en").error else HEALTH_OK)
    ensures status["retriever"] == (if retriever.index.None? then "error: index not loaded" else HEALTH_OK)
    ensures status["generator"] == (if generatorLoaded then HEALTH_OK else "error: model not loaded")
    ensures status["overall"] in {HEALTH_OK, HEALTH_DEGRADED}
    ensures status["overall"] == HEALTH_OK <==>
      status["translator"] == HEALTH_OK && status["retriever"] == HEALTH_OK && status["generator"] == HEALTH_OK
  {
    status := map["translator" := HEALTH_OK, "retriever" := HEALTH_OK, "generator" := HEALTH_OK, "overall" := HEALTH_OK];
    var probe := svc.translateToEnglish("test", "en");
    if probe.Failure? {
      status := status["translator" := "error: " + probe.error];
      status := status["overall" := HEALTH_DEGRADED];
    }
    if retriever.index.None? {
      status := status["retriever" := "error: index not loaded"];
      status := status["overall" := HEALTH_DEGRADED];
    }
    if !generatorLoaded {
      status := status["generator" := "error: model not loaded"];
      status := status["overall" := HEALTH_DEGRADED];
    }
  }
}
