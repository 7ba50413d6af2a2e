/** The content guardrails: stateless accept/reject checks on a summary, a
    quiz and a URL. Each returns a verdict and a human-readable reason. */
module Guardrails {
  import opened Text
  import opened JsonValue
  import opened Config

  /** The `(is_valid, message)` pair every check returns. */
  datatype Verdict = Verdict(ok: bool, message: string)

  /** Lower-case topic words whose presence rejects a summary. */
  const ForbiddenPatterns: seq<string> :=
    ["violence", "hate", "adult content", "explicit", "drugs", "weapons", "illegal"]

  /** URL fragments that mark a dangerous protocol. */
  const DangerousProtocols: seq<string> := ["javascript:", "data:", "vbscript:"]

  /** The fields each known question type must carry, in the order they are checked. */
  const RequiredFields: map<string, seq<string>> := map[
    "multiple_choice" := ["id", "question", "options", "correct_answer"],
    "true_false" := ["id", "question", "correct_answer"],
    "fill_blank" := ["id", "question", "correct_answer"]
  ]

  /** Whether a lower-cased summary mentions a forbidden topic. */
  predicate MentionsForbidden(lowered: string) {
    exists i :: 0 <= i < |ForbiddenPatterns| && Contains(lowered, ForbiddenPatterns[i])
  }

  /** `validate_summary`: `None` stands for a missing summary. */
  function ValidateSummary(summary: Option<string>): (v: Verdict)
    ensures (summary.None? || summary == Some("")) ==> v == Verdict(false, "Summary is empty")
    ensures v.ok <==> summary.Some? && MinSummaryLength <= |summary.value| <= MaxSummaryLength
                      && !MentionsForbidden(Lower(summary.value))
    ensures v.ok ==> v.message == "Summary passed validation"
  {
    if summary.None? || summary.value == "" then Verdict(false, "Summary is empty")
    else
      var s := summary.value;
      if |s| < MinSummaryLength then
        Verdict(false, "Summary too short (min " + IntToString(MinSummaryLength) + " chars)")
      else if |s| > MaxSummaryLength then
        Verdict(false, "Summary too long (max " + IntToString(MaxSummaryLength) + " chars)")
      else if AnyOccurs(Lower(s), ForbiddenPatterns) then
        Verdict(false, "Content contains inappropriate material")
      else Verdict(true, "Summary passed validation")
  }

  /** The length bounds are checked before the topic list, shortest first. */
  lemma SummaryLengthRejections(s: string)
    requires s != []
    ensures |s| < MinSummaryLength ==>
      ValidateSummary(Some(s)) == Verdict(false, "Summary too short (min " + IntToString(MinSummaryLength) + " chars)")
    ensures |s| > MaxSummaryLength ==>
      ValidateSummary(Some(s)) == Verdict(false, "Summary too long (max " + IntToString(MaxSummaryLength) + " chars)")
  {
  }

  /** A forbidden word rejects a summary of acceptable length whatever
      surrounds it and however its letters are cased. */
  lemma ForbiddenWordRejects(before: string, word: string, after: string)
    requires Lower(word) in ForbiddenPatterns
    requires MinSummaryLength <= |before + word + after| <= MaxSummaryLength
    ensures ValidateSummary(Some(before + word + after)) == Verdict(false, "Content contains inappropriate material")
  {
    var s := before + word + after;
    ContainsInMiddle(before, word, after);
    ContainsLowered(s, word);
    var i :| 0 <= i < |ForbiddenPatterns| && ForbiddenPatterns[i] == Lower(word);
    assert Contains(Lower(s), ForbiddenPatterns[i]);
  }

  /** "VIOLENCE" rejects a summary just as "violence" does. */
  lemma UpperCaseViolenceRejects(before: string, after: string)
    requires MinSummaryLength <= |before| + 8 + |after| <= MaxSummaryLength
    ensures ValidateSummary(Some(before + "VIOLENCE" + after)) == Verdict(false, "Content contains inappropriate material")
  {
    assert Lower("VIOLENCE") == "violence";
    ForbiddenWordRejects(before, "VIOLENCE", after);
  }

  /** The summary check only sees the text through `lower()`: two summaries
      that lower to the same text get the same verdict. */
  lemma SummaryCaseInsensitive(s: string, t: string)
    requires Lower(s) == Lower(t)
    ensures ValidateSummary(Some(s)) == ValidateSummary(Some(t))
  {
  }

  /** `validate_url`: a case-insensitive substring test against the dangerous protocols. */
  function ValidateUrl(url: string): (v: Verdict)
    ensures v.ok <==> forall i :: 0 <= i < |DangerousProtocols| ==> !Contains(Lower(url), DangerousProtocols[i])
    ensures !v.ok ==> v.message == "Unsafe URL protocol detected"
    ensures v.ok ==> v.message == "URL is safe"
  {
    if AnyOccurs(Lower(url), DangerousProtocols) then Verdict(false, "Unsafe URL protocol detected")
    else Verdict(true, "URL is safe")
  }

  /** A dangerous protocol anywhere in the URL, in any case, rejects it:
      the test is not anchored to the scheme. */
  lemma DangerousAnywhereRejects(before: string, protocol: string, after: string)
    requires Lower(protocol) in DangerousProtocols
    ensures !ValidateUrl(before + protocol + after).ok
  {
    var s := before + protocol + after;
    ContainsInMiddle(before, protocol, after);
    ContainsLowered(s, protocol);
    var i :| 0 <= i < |DangerousProtocols| && DangerousProtocols[i] == Lower(protocol);
    assert Contains(Lower(s), DangerousProtocols[i]);
  }

  /** Every `javascript:` URL, `javascript:alert(1)` among them, is refused. */
  lemma JavascriptUrlRejected(rest: string)
    ensures ValidateUrl("javascript:" + rest) == Verdict(false, "Unsafe URL protocol detected")
  {
    var p := "javascript:";
    LowerOfNoUpper(p);
    assert Lower(p) == DangerousProtocols[0];
    DangerousAnywhereRejects("", p, rest);
    assert "" + p + rest == p + rest;
  }

  /** `https://example.com` is accepted. */
  lemma PlainHttpsUrlAccepted(url: string)
    requires url == "https://example.com"
    ensures ValidateUrl(url) == Verdict(true, "URL is safe")
  {
    LowerOfNoUpper(url);
    MissingCharExcludes(url, "javascript:", 0);
    MissingCharExcludes(url, "data:", 0);
    MissingCharExcludes(url, "vbscript:", 0);
  }

  /** A well-formed question: a dictionary whose `type` is a known question
      type and that has every field that type requires. */
  predicate WellFormedQuestion(q: Json) {
    q.Obj? && "type" in q.fields && q.fields["type"].Str? && q.fields["type"].s in RequiredFields
    && forall f :: f in RequiredFields[q.fields["type"].s] ==> f in q.fields
  }

  /** The first of `fields` missing from `m`. */
  function FirstMissing(fields: seq<string>, m: map<string, Json>): (r: Option<string>)
    ensures r.None? <==> forall f :: f in fields ==> f in m
    ensures r.Some? ==> r.value in fields && r.value !in m
  {
    if fields == [] then None
    else if fields[0] !in m then Some(fields[0])
    else FirstMissing(fields[1..], m)
  }

  /** `fields[i]` is the first of `fields` missing from `m`. */
  predicate FirstAbsent(fields: seq<string>, m: map<string, Json>, i: nat) {
    i < |fields| && fields[i] !in m && forall j :: 0 <= j < i ==> fields[j] in m
  }

  /** The field reported missing is the first missing one in the order the
      fields are listed. */
  lemma {:induction false} FirstMissingIsFirst(fields: seq<string>, m: map<string, Json>)
    ensures FirstMissing(fields, m).Some? ==>
      exists i: nat :: FirstAbsent(fields, m, i) && FirstMissing(fields, m).value == fields[i]
  {
    if fields != [] {
      if fields[0] !in m {
        assert FirstAbsent(fields, m, 0);
      } else {
        FirstMissingIsFirst(fields[1..], m);
        if FirstMissing(fields[1..], m).Some? {
          var i: nat :| FirstAbsent(fields[1..], m, i) && FirstMissing(fields[1..], m).value == fields[1..][i];
          assert forall j :: 1 <= j < |fields| ==> fields[1..][j - 1] == fields[j];
          assert FirstAbsent(fields, m, i + 1);
        }
      }
    }
  }

  /** `q.get('type', 'unknown')`. */
  function QuestionType(q: Json): Json
    requires q.Obj?
  {
    Get(q.fields, "type", Str("unknown"))
  }

  /** Python's `str()` of a hashable scalar, for the unknown-type message. */
  function ScalarText(j: Json): string
    requires !j.List? && !j.Obj?
  {
    match j
    case Null => "None"
    case Bool(b) => if b then "True" else "False"
    case Num(n) => IntToString(n)
    case Str(s) => s
  }

  /** One turn of the loop over the questions: `Returned(None)` lets the loop
      go on, `Returned(Some(reason))` rejects the quiz, `Raised` is the
      exception Python raises for a question that is not a dictionary or a
      `type` that cannot be hashed. */
  function CheckQuestion(q: Json): (r: Outcome<Option<string>>)
    ensures r == Returned(None) <==> WellFormedQuestion(q)
    ensures r.Raised? <==> !q.Obj? || QuestionType(q).List? || QuestionType(q).Obj?
    ensures !q.Obj? ==> r == Raised("'" + TypeName(q) + "' object has no attribute 'get'")
    ensures q.Obj? && !QuestionType(q).List? && !QuestionType(q).Obj?
      && !(QuestionType(q).Str? && QuestionType(q).s in RequiredFields)
      ==> r == Returned(Some("Unknown question type: " + ScalarText(QuestionType(q))))
    ensures q.Obj? && QuestionType(q).Str? && QuestionType(q).s in RequiredFields
      && FirstMissing(RequiredFields[QuestionType(q).s], q.fields).Some?
      ==> r == Returned(Some("Missing field '" + FirstMissing(RequiredFields[QuestionType(q).s], q.fields).value + "' in question"))
  {
    if !q.Obj? then Raised("'" + TypeName(q) + "' object has no attribute 'get'")
    else
      var t := QuestionType(q);
      if t.List? || t.Obj? then Raised("unhashable type: '" + TypeName(t) + "'")
      else if !(t.Str? && t.s in RequiredFields) then
        Returned(Some("Unknown question type: " + ScalarText(t)))
      else
        match FirstMissing(RequiredFields[t.s], q.fields)
        case Some(f) => Returned(Some("Missing field '" + f + "' in question"))
        case None => Returned(None)
  }

  /** The loop over the questions: the first one that fails decides. */
  function CheckQuestions(qs: seq<Json>): Outcome<Verdict> {
    if qs == [] then Returned(Verdict(true, "Quiz passed validation"))
    else
      match CheckQuestion(qs[0])
      case Raised(e) => Raised(e)
      case Returned(Some(reason)) => Returned(Verdict(false, reason))
      case Returned(None) => CheckQuestions(qs[1..])
  }

  /** `validate_quiz` on whatever the generator put under `quiz`. A value
      that is falsy is rejected; any other value that is not a list makes
      Python raise (no `len()`, or no `.get` on the strings that iterating a
      string or a dictionary yields). */
  function ValidateQuiz(quiz: Json): (r: Outcome<Verdict>)
    ensures !Truthy(quiz) ==> r == Returned(Verdict(false, "No quiz questions generated"))
    ensures Truthy(quiz) && !quiz.List? ==> r.Raised?
    ensures r.Returned? && r.value.ok ==> r.value.message == "Quiz passed validation"
  {
    if !Truthy(quiz) then Returned(Verdict(false, "No quiz questions generated"))
    else
      match quiz
      case List(qs) => CheckedQuestionsMessage(qs); CheckQuestions(qs)
      case Str(_) => Raised("'str' object has no attribute 'get'")
      case Obj(_) => Raised("'str' object has no attribute 'get'")
      case _ => Raised("object of type '" + TypeName(quiz) + "' has no len()")
  }

  lemma {:induction false} CheckedQuestionsMessage(qs: seq<Json>)
    ensures CheckQuestions(qs).Returned? && CheckQuestions(qs).value.ok ==>
      CheckQuestions(qs).value.message == "Quiz passed validation"
  {
    if qs != [] && CheckQuestion(qs[0]) == Returned(None) {
      CheckedQuestionsMessage(qs[1..]);
    }
  }

  /** `qs[i]` is the first question the loop does not let through. */
  predicate FirstFailing(qs: seq<Json>, i: nat) {
    i < |qs| && CheckQuestion(qs[i]) != Returned(None)
    && forall j :: 0 <= j < i ==> CheckQuestion(qs[j]) == Returned(None)
  }

  /** What a failing check of one question makes of the whole loop. */
  function Rejection(c: Outcome<Option<string>>): Outcome<Verdict>
    requires c != Returned(None)
  {
    match c
    case Raised(e) => Raised(e)
    case Returned(reason) => Returned(Verdict(false, reason.value))
  }

  /** The first failing question decides the loop: its exception, or a
      rejection with its reason; the questions after it are never looked at. */
  lemma {:induction false} FirstFailingDecides(qs: seq<Json>, i: nat)
    requires FirstFailing(qs, i)
    ensures CheckQuestions(qs) == Rejection(CheckQuestion(qs[i]))
  {
    if i > 0 {
      assert CheckQuestion(qs[0]) == Returned(None);
      assert forall j :: 1 <= j < |qs| ==> qs[1..][j - 1] == qs[j];
      assert FirstFailing(qs[1..], i - 1);
      FirstFailingDecides(qs[1..], i - 1);
    }
  }

  /** So does `validate_quiz` on a list of questions. */
  lemma QuizFirstFailureDecides(qs: seq<Json>, i: nat)
    requires FirstFailing(qs, i)
    ensures ValidateQuiz(List(qs)) == Rejection(CheckQuestion(qs[i]))
  {
    FirstFailingDecides(qs, i);
  }

  /** The loop accepts exactly the lists of well-formed questions. */
  lemma {:induction false} CheckQuestionsAccepts(qs: seq<Json>)
    ensures (CheckQuestions(qs).Returned? && CheckQuestions(qs).value.ok)
      <==> forall i :: 0 <= i < |qs| ==> WellFormedQuestion(qs[i])
  {
    if qs != [] {
      CheckQuestionsAccepts(qs[1..]);
      assert forall i :: 1 <= i < |qs| ==> qs[i] == qs[1..][i - 1];
    }
  }

  /** A quiz passes iff it is a non-empty list of well-formed questions:
      `multiple_choice` also needs `options`, and `explanation` is never needed. */
  lemma QuizAcceptedIff(quiz: Json)
    ensures (ValidateQuiz(quiz).Returned? && ValidateQuiz(quiz).value.ok)
      <==> quiz.List? && quiz.items != [] && forall i :: 0 <= i < |quiz.items| ==> WellFormedQuestion(quiz.items[i])
  {
    if quiz.List? {
      CheckQuestionsAccepts(quiz.items);
    }
  }

  /** A multiple-choice question without `options` makes any quiz holding it fail. */
  lemma MultipleChoiceNeedsOptions(qs: seq<Json>, k: nat)
    requires k < |qs| && qs[k].Obj?
    requires Get(qs[k].fields, "type", Str("unknown")) == Str("multiple_choice")
    requires "options" !in qs[k].fields
    ensures !(ValidateQuiz(List(qs)).Returned? && ValidateQuiz(List(qs)).value.ok)
  {
    QuizAcceptedIff(List(qs));
    assert !WellFormedQuestion(qs[k]);
  }

  /** Removing `explanation` from a question never changes whether it is well formed. */
  lemma ExplanationNeverRequired(m: map<string, Json>)
    ensures WellFormedQuestion(Obj(m)) <==> WellFormedQuestion(Obj(m - {"explanation"}))
  {
    var m' := m - {"explanation"};
    if "type" in m && m["type"].Str? && m["type"].s in RequiredFields {
      var req := RequiredFields[m["type"].s];
      assert "explanation" !in req;
      assert "type" in m' && m'["type"] == m["type"];
    }
  }

  /** The smallest true/false question passes. */
  lemma MinimalTrueFalseAccepted()
    ensures ValidateQuiz(List([Obj(map[
      "id" := Num(1), "question" := Str("..."), "type" := Str("true_false"),
      "correct_answer" := Bool(true)])])) == Returned(Verdict(true, "Quiz passed validation"))
  {
    var q := Obj(map["id" := Num(1), "question" := Str("..."), "type" := Str("true_false"),
      "correct_answer" := Bool(true)]);
    assert WellFormedQuestion(q);
    QuizAcceptedIff(List([q]));
  }
}
