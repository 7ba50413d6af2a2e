/** `LLMSummarizer.summarize`: the length precondition on the content and
    the dispatch on the configured model. The model call is an input: what
    it returned (the reply's text, `None` when the reply has none) or the
    text of the exception it raised. */
module Summarization {
  import opened Text
  import opened JsonValue

  /** The shortest content worth summarising. */
  const MinContentLength: nat := 100

  const ContentTooShort: string := "Content too short for summarization"
  const UnknownSummarizer: string := "Unknown model type"
  const GoogleSummarizer: string := "google-gemini-2.5-flash"
  const OpenaiSummarizer: string := "openai-gpt3.5"

  /** The dictionary the summarizer returns: `status` is `success` for `SummaryOk`. */
  datatype SummaryResult = SummaryOk(summary: Option<string>, model: string) | SummaryFailed(message: string)

  /** What a backend returns for the model call's outcome. */
  function BackendSummary(reply: Outcome<Option<string>>, model: string): SummaryResult
  {
    match reply
    case Raised(e) => SummaryFailed("Summarization failed: " + e)
    case Returned(s) => SummaryOk(s, model)
  }

  /** The model types the summarizer has a backend for. */
  predicate KnownModel(modelType: string) {
    modelType == "google" || modelType == "openai"
  }

  /** `summarize`: content shorter than 100 characters is refused before any
      model is called; an unknown model type is refused as well. */
  function Summarize(modelType: string, content: string, reply: Outcome<Option<string>>): (r: SummaryResult)
    ensures |content| < MinContentLength ==> r == SummaryFailed(ContentTooShort)
    ensures !KnownModel(modelType) && |content| >= MinContentLength
      ==> r == SummaryFailed(UnknownSummarizer)
    ensures r.SummaryOk? ==>
      (|content| >= MinContentLength && reply == Returned(r.summary)
       && (modelType == "google" ==> r.model == GoogleSummarizer)
       && (modelType == "openai" ==> r.model == OpenaiSummarizer))
    ensures r.SummaryOk? <==> |content| >= MinContentLength && KnownModel(modelType) && reply.Returned?
    ensures |content| >= MinContentLength && KnownModel(modelType) && reply.Raised?
      ==> r == SummaryFailed("Summarization failed: " + reply.error)
  {
    // `not content or len(content) < 100`
    if content == [] || |content| < MinContentLength then SummaryFailed(ContentTooShort)
    else if modelType == "google" then BackendSummary(reply, GoogleSummarizer)
    else if modelType == "openai" then BackendSummary(reply, OpenaiSummarizer)
    else SummaryFailed(UnknownSummarizer)
  }

  /** The two backends agree on everything but the model name they report. */
  lemma BackendsAgree(content: string, reply: Outcome<Option<string>>)
    ensures var g := Summarize("google", content, reply);
      var o := Summarize("openai", content, reply);
      && (g.SummaryOk? <==> o.SummaryOk?)
      && (g.SummaryOk? ==> g.summary == o.summary && g.model == GoogleSummarizer && o.model == OpenaiSummarizer)
      && (g.SummaryFailed? ==> g == o)
  {
  }

  /** Short content gets the same refusal whatever the model would have said. */
  lemma ShortContentNoCall(modelType: string, content: string, r1: Outcome<Option<string>>, r2: Outcome<Option<string>>)
    requires |content| < MinContentLength
    ensures Summarize(modelType, content, r1) == Summarize(modelType, content, r2) == SummaryFailed(ContentTooShort)
  {
  }
}
