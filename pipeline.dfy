/** `process_url`: the request pipeline. The URL from the request body is
    stripped and checked, then content is extracted, summarised, the summary
    checked, and a quiz generated; every stage that fails ends the request
    with a fixed status code. The three stages are inputs, so each property
    below holds for every extractor, summarizer and quiz generator. */
module Pipeline {
  import opened Text
  import opened JsonValue
  import opened Guardrails
  import opened YouTube
  import opened Scraper
  import opened Summarization
  import opened QuizGeneration

  /** The stages the pipeline calls, as the configured modules would answer. */
  datatype Stages = Stages(
    extract: string -> Extraction,
    summarize: string -> SummaryResult,
    generate: (string, string) -> QuizResult)

  /** The `data` object of a successful response. */
  datatype Envelope = Envelope(title: Option<string>, contentType: ContentKind, summary: string, quiz: Json, url: string)

  /** The JSON body of a response: an error object (with the `url` key only
      when an extraction failure is passed through) or the success object. */
  datatype Body = Failure(message: string, url: Option<string>) | Success(data: Envelope)

  datatype Response = Response(code: int, body: Body)

  const UrlRequired: string := "URL is required"
  const InternalError: string := "Internal server error"

  /** `data.get('url', '')` when it is a string; `None` when reading the
      body, the `.get` or the `.strip()` raises (no JSON object, or a `url`
      that is not a string). */
  function RequestUrl(request: Option<Json>): Option<string> {
    if request.Some? && request.value.Obj? then
      match Get(request.value.fields, "url", Str(""))
      case Str(s) => Some(s)
      case _ => None
    else None
  }

  /** Everything the success response needs went right: the stripped URL is
      safe, the extraction gave `content`, the summary passed its check and
      the quiz was generated from the summary and the content. */
  predicate Delivered(request: Option<Json>, st: Stages, e: Envelope) {
    RequestUrl(request).Some? && e.url == Strip(RequestUrl(request).value) && e.url != []
    && ValidateUrl(e.url).ok
    && st.extract(e.url).Extracted?
    && st.extract(e.url).title == e.title && st.extract(e.url).kind == e.contentType
    && st.summarize(st.extract(e.url).content).SummaryOk?
    && st.summarize(st.extract(e.url).content).summary == Some(e.summary)
    && ValidateSummary(Some(e.summary)).ok
    && st.generate(e.summary, st.extract(e.url).content).QuizOk?
    && st.generate(e.summary, st.extract(e.url).content).quiz == e.quiz
  }

  /** `process_url`. */
  function ProcessUrl(request: Option<Json>, st: Stages): (r: Response)
    ensures r.code == 200 || r.code == 400 || r.code == 500
    ensures r.code == 200 <==> r.body.Success?
    ensures r.body.Success? ==> Delivered(request, st, r.body.data) && !ValidateQuiz(r.body.data.quiz).Raised?
    ensures forall e :: Delivered(request, st, e) && !ValidateQuiz(e.quiz).Raised? ==> r == Response(200, Success(e))
    ensures forall e :: Delivered(request, st, e) && ValidateQuiz(e.quiz).Raised? ==> r == Response(500, Failure(InternalError, None))
  {
    match RequestUrl(request)
    case None => Response(500, Failure(InternalError, None))
    case Some(raw) =>
      var url := Strip(raw);
      if url == [] then Response(400, Failure(UrlRequired, None))
      else
        var safety := ValidateUrl(url);
        if !safety.ok then Response(400, Failure(safety.message, None))
        else
          match st.extract(url)
          case ExtractFailed(m, origin) => Response(400, Failure(m, origin))
          case Extracted(title, content, kind, _) =>
            match st.summarize(content)
            case SummaryFailed(m) => Response(500, Failure(m, None))
            case SummaryOk(summary, _) =>
              var verdict := ValidateSummary(summary);
              if !verdict.ok then Response(400, Failure(verdict.message, None))
              else
                match st.generate(summary.value, content)
                case QuizFailed(m) => Response(500, Failure(m, None))
                case QuizOk(quiz, _) =>
                  // the verdict on the quiz is only logged; an exception inside the check is not caught there
                  if ValidateQuiz(quiz).Raised? then Response(500, Failure(InternalError, None))
                  else Response(200, Success(Envelope(title, kind, summary.value, quiz, url)))
  }

  /** A request whose URL is empty after stripping is refused before the
      URL check and before any stage is called. */
  lemma EmptyUrlRefused(request: Option<Json>, st: Stages)
    requires RequestUrl(request).Some? && Strip(RequestUrl(request).value) == []
    ensures ProcessUrl(request, st) == Response(400, Failure(UrlRequired, None))
  {
  }

  /** A missing `url` key counts as the empty URL. */
  lemma MissingUrlRefused(m: map<string, Json>, st: Stages)
    requires "url" !in m
    ensures ProcessUrl(Some(Obj(m)), st) == Response(400, Failure(UrlRequired, None))
  {
    assert Strip("") == [];
  }

  /** An unsafe URL is refused before extraction: the stages are never consulted. */
  lemma UnsafeUrlRefused(request: Option<Json>, st: Stages)
    requires RequestUrl(request).Some? && Strip(RequestUrl(request).value) != []
    requires !ValidateUrl(Strip(RequestUrl(request).value)).ok
    ensures ProcessUrl(request, st) == Response(400, Failure("Unsafe URL protocol detected", None))
  {
  }

  /** A failed extraction is returned as it is, with status 400. */
  lemma ExtractionFailurePassedOn(request: Option<Json>, st: Stages, m: string, origin: Option<string>)
    requires RequestUrl(request).Some?
    requires var u := Strip(RequestUrl(request).value); u != [] && ValidateUrl(u).ok && st.extract(u) == ExtractFailed(m, origin)
    ensures ProcessUrl(request, st) == Response(400, Failure(m, origin))
  {
  }

  /** A failed summarisation is a server error. */
  lemma SummaryFailureIsServerError(request: Option<Json>, st: Stages, m: string)
    requires RequestUrl(request).Some?
    requires var u := Strip(RequestUrl(request).value);
      u != [] && ValidateUrl(u).ok && st.extract(u).Extracted? && st.summarize(st.extract(u).content) == SummaryFailed(m)
    ensures ProcessUrl(request, st) == Response(500, Failure(m, None))
  {
  }

  /** A summary the guardrail rejects is a client error, and the quiz stage
      is not reached: any quiz generator gives the same response. */
  lemma RejectedSummaryStopsBeforeQuiz(request: Option<Json>, st: Stages, generate: (string, string) -> QuizResult)
    requires RequestUrl(request).Some?
    requires var u := Strip(RequestUrl(request).value);
      u != [] && ValidateUrl(u).ok && st.extract(u).Extracted?
      && st.summarize(st.extract(u).content).SummaryOk?
      && !ValidateSummary(st.summarize(st.extract(u).content).summary).ok
    ensures ProcessUrl(request, st).code == 400
    ensures var u := Strip(RequestUrl(request).value);
      ProcessUrl(request, st) == Response(400, Failure(ValidateSummary(st.summarize(st.extract(u).content).summary).message, None))
    ensures ProcessUrl(request, st) == ProcessUrl(request, Stages(st.extract, st.summarize, generate))
  {
  }

  /** A failed quiz generation is a server error. */
  lemma QuizFailureIsServerError(request: Option<Json>, st: Stages, m: string)
    requires RequestUrl(request).Some?
    requires var u := Strip(RequestUrl(request).value);
      u != [] && ValidateUrl(u).ok && st.extract(u).Extracted?
      && st.summarize(st.extract(u).content).SummaryOk?
      && ValidateSummary(st.summarize(st.extract(u).content).summary).ok
      && st.generate(st.summarize(st.extract(u).content).summary.value, st.extract(u).content) == QuizFailed(m)
    ensures ProcessUrl(request, st) == Response(500, Failure(m, None))
  {
  }

  /** A quiz the guardrail rejects is still delivered: the verdict does not
      change the response. */
  lemma QuizVerdictDoesNotBlock(request: Option<Json>, st: Stages, e: Envelope)
    requires Delivered(request, st, e) && ValidateQuiz(e.quiz).Returned? && !ValidateQuiz(e.quiz).value.ok
    ensures ProcessUrl(request, st) == Response(200, Success(e))
  {
  }

  /** A request without a JSON object, or with a `url` that is not a
      string, is a server error whose message gives no detail. */
  lemma MalformedRequestIsServerError(request: Option<Json>, st: Stages)
    requires RequestUrl(request).None?
    ensures ProcessUrl(request, st) == Response(500, Failure(InternalError, None))
  {
  }

  /** With the real extractor, a delivered video came from a YouTube link
      and a delivered article did not, and the envelope's URL is the
      stripped request URL. */
  lemma DeliveredKindFollowsRouting(request: Option<Json>, net: Network, summarize: string -> SummaryResult,
                                    generate: (string, string) -> QuizResult)
    requires ProcessUrl(request, Stages(u => ExtractContent(Str(u), net), summarize, generate)).body.Success?
    ensures var e := ProcessUrl(request, Stages(u => ExtractContent(Str(u), net), summarize, generate)).body.data;
      (e.contentType == Video <==> IsYoutubeUrl(e.url)) && Strip(e.url) == e.url
  {
    var st := Stages(u => ExtractContent(Str(u), net), summarize, generate);
    var e := ProcessUrl(request, st).body.data;
    assert Delivered(request, st, e);
    StripIdempotent(RequestUrl(request).value);
    var x := ExtractContent(Str(e.url), net);
    assert x.Extracted? && x.kind == e.contentType;
    assert UrlOf(x) == Some(Strip(e.url));
  }

  // ---------------------------------------------------------------------
  // The pipeline as written: a log line takes `len(quiz)`
  // ---------------------------------------------------------------------

  /** `process_url` as written: after the quiz verdict is logged, the log
      line `len(quiz)` raises for a quiz that has no length (null, a
      boolean, a number), which the verdict lets through when it is falsy. */
  function ProcessUrlAsWritten(request: Option<Json>, st: Stages): (r: Response)
    ensures r.code == 200 ==> r == ProcessUrl(request, st) && Sized(r.body.data.quiz)
    ensures forall e :: Delivered(request, st, e) && !Sized(e.quiz) ==> r == Response(500, Failure(InternalError, None))
    ensures r != ProcessUrl(request, st) ==> ProcessUrl(request, st).code == 200 && r == Response(500, Failure(InternalError, None))
  {
    var r := ProcessUrl(request, st);
    if r.body.Success? && !Sized(r.body.data.quiz) then Response(500, Failure(InternalError, None)) else r
  }

  /** A model reply `{"questions": null}` gives the quiz `null`: as written
      the request fails with a server error, although the quiz verdict alone
      lets it through. */
  lemma NullQuizFailsAsWritten(request: Option<Json>, st: Stages, e: Envelope)
    requires Delivered(request, st, e) && e.quiz == Null
    ensures ProcessUrl(request, st) == Response(200, Success(e))
    ensures ProcessUrlAsWritten(request, st) == Response(500, Failure(InternalError, None))
  {
  }

  /** Every quiz without a length fails as written: `null`, `false` and `0`
      pass the quiz check, which the corrected handler delivers, and any
      other such quiz already makes the check raise. */
  lemma UnsizedQuizFailsAsWritten(request: Option<Json>, st: Stages, e: Envelope)
    requires Delivered(request, st, e) && !Sized(e.quiz)
    ensures ProcessUrlAsWritten(request, st) == Response(500, Failure(InternalError, None))
    ensures !Truthy(e.quiz) ==> ProcessUrl(request, st) == Response(200, Success(e))
  {
  }

  /** A summary of 100 `a`s passes the summary check. */
  lemma PlainSummaryAccepted(s: string)
    requires |s| == 100 && forall i :: 0 <= i < |s| ==> s[i] == 'a'
    ensures ValidateSummary(Some(s)).ok
  {
    LowerOfNoUpper(s);
    forall i | 0 <= i < |ForbiddenPatterns|
      ensures !Contains(s, ForbiddenPatterns[i])
    {
      var p := ForbiddenPatterns[i];
      var m: nat := if p == "drugs" || p == "adult content" then 1 else 0;
      assert p[m] != 'a';
      MissingCharExcludes(s, p, m);
    }
  }

  /** Such a request exists: a safe URL, an article, a valid summary and the
      quiz `null` make the corrected pipeline answer 200 and the pipeline as
      written answer 500. */
  lemma NullQuizWitness(url: string, summary: string, content: string)
    requires url == "https://example.com"
    requires |summary| == 100 && forall i :: 0 <= i < |summary| ==> summary[i] == 'a'
    ensures var st := Stages(u => Extracted(Some("T"), content, Article, u),
                             c => SummaryOk(Some(summary), GoogleSummarizer),
                             (s, c) => QuizOk(Null, GoogleModel));
      var request := Some(Obj(map["url" := Str(url)]));
      ProcessUrl(request, st).code == 200 && ProcessUrlAsWritten(request, st).code == 500
  {
    var st := Stages(u => Extracted(Some("T"), content, Article, u),
                     c => SummaryOk(Some(summary), GoogleSummarizer),
                     (s, c) => QuizOk(Null, GoogleModel));
    var request := Some(Obj(map["url" := Str(url)]));
    PlainHttpsUrlAccepted(url);
    StripOfTrimmed(url);
    PlainSummaryAccepted(summary);
    assert Strip(url) == url;
    assert st.extract(url) == Extracted(Some("T"), content, Article, url);
    assert st.summarize(content) == SummaryOk(Some(summary), GoogleSummarizer);
    assert st.generate(summary, content) == QuizOk(Null, GoogleModel);
    var e := Envelope(Some("T"), Article, summary, Null, url);
    StagesDeliver(url, st, e);
    NullQuizFailsAsWritten(request, st, e);
  }

  /** A request for a safe URL whose stages all succeed delivers their results. */
  lemma StagesDeliver(url: string, st: Stages, e: Envelope)
    requires url != [] && Strip(url) == url && ValidateUrl(url).ok && e.url == url
    requires st.extract(url).Extracted? && st.extract(url).title == e.title && st.extract(url).kind == e.contentType
    requires st.summarize(st.extract(url).content) == SummaryOk(Some(e.summary), GoogleSummarizer)
    requires ValidateSummary(Some(e.summary)).ok
    requires st.generate(e.summary, st.extract(url).content).QuizOk?
    requires st.generate(e.summary, st.extract(url).content).quiz == e.quiz
    ensures Delivered(Some(Obj(map["url" := Str(url)])), st, e)
  {
    assert RequestUrl(Some(Obj(map["url" := Str(url)]))) == Some(url);
  }
}
