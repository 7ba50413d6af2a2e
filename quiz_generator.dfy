/** `QuizGenerator`: the cleaning of the model's reply text, its parsing
    into the `questions` list, the mapping of failures to messages, and the
    dispatch on the configured model. The model calls themselves are inputs:
    what the call returned, or the text of the exception it raised. */
module QuizGeneration {
  import opened Text
  import opened JsonValue
  import opened Config

  /** The Markdown code fence. */
  const Fence: string := "```"
  /** The language tag a fenced block may start with. */
  const JsonTag: string := "json"

  const GoogleModel: string := "google-gemini-2.5-flash"
  const OpenaiModel: string := "openai-gpt3.5"
  const UnparsableQuiz: string := "Failed to parse quiz format"
  const UnknownModel: string := "Unknown model type"

  /** An occurrence inside a slice is an occurrence in the whole text. */
  lemma ContainsInSlice(s: string, i: nat, j: nat, p: string)
    requires i <= j <= |s| && Contains(s[i..j], p)
    ensures Contains(s, p)
  {
    var k :| 0 <= k <= |s[i..j]| - |p| && OccursAt(s[i..j], p, k);
    assert i + k + |p| <= j;
    forall m | 0 <= m < |p|
      ensures s[i + k..i + k + |p|][m] == p[m]
    {
      assert s[i..j][k..k + |p|][m] == p[m];
    }
    assert s[i + k..i + k + |p|] == p;
    assert OccursAt(s, p, i + k);
  }

  /** An occurrence after the opening fence is one in the rest of the text. */
  lemma FenceShift(t: string, rest: string)
    requires t == Fence + rest
    ensures forall k :: |Fence| <= k ==> OccursAt(t, Fence, k) == OccursAt(rest, Fence, k - |Fence|)
  {
    forall k | |Fence| <= k
      ensures OccursAt(t, Fence, k) == OccursAt(rest, Fence, k - |Fence|)
    {
      if k + |Fence| <= |t| {
        assert t[k..k + |Fence|] == rest[k - |Fence|..k - |Fence| + |Fence|];
      }
    }
  }

  /** The text after the opening fence, up to the next fence or to the end. */
  function FencedBlock(t: string): (r: string)
    requires StartsWith(t, Fence)
    ensures StartsWith(t, Fence + r) && !Contains(r, Fence)
    ensures |t| == |Fence| + |r| || OccursAt(t, Fence, |Fence| + |r|)
    ensures forall k :: |Fence| <= k < |Fence| + |r| ==> !OccursAt(t, Fence, k)
  {
    var rest := t[|Fence|..];
    assert t == Fence + rest;
    FenceShift(t, rest);
    match FindFrom(rest, Fence, 0)
    case None =>
      assert t[..|Fence + rest|] == Fence + rest;
      rest
    case Some(j) =>
      var r := rest[..j];
      assert t[..|Fence + r|] == Fence + r;
      assert t[|Fence| + j..|Fence| + j + |Fence|] == rest[j..j + |Fence|];
      assert forall k :: OccursAt(r, Fence, k) ==> OccursAt(rest, Fence, k) by {
        forall k | OccursAt(r, Fence, k)
          ensures OccursAt(rest, Fence, k)
        {
          assert rest[k..k + |Fence|] == r[k..k + |Fence|];
        }
      }
      r
  }

  /** The cleaning both backends apply to the stripped reply text: a reply
      that opens with a fence keeps just the first fenced block, without a
      leading `json` tag, stripped; any other reply passes through. */
  function Cleaned(reply: string): string {
    var t := Strip(reply);
    if !StartsWith(t, Fence) then t
    else
      var b := FencedBlock(t);
      Strip(if StartsWith(b, JsonTag) then b[|JsonTag|..] else b)
  }

  /** `split('```')[1]` exists when the text opens with a fence, and it is
      the fenced block. */
  lemma SplitSecondIsBlock(t: string)
    requires StartsWith(t, Fence)
    ensures |SplitOn(t, Fence)| >= 2 && SplitOn(t, Fence)[1] == FencedBlock(t)
  {
    assert OccursAt(t, Fence, 0);
    assert t[|Fence|..] == t[0 + |Fence|..];
    var rest := t[|Fence|..];
    assert SplitOn(t, Fence) == [t[..0]] + SplitOn(rest, Fence);
  }

  /** The cleaning, reassigning the reply text step by step as both
      backends do. */
  method CleanMarkdown(reply: string) returns (text: string)
    ensures text == Cleaned(reply)
  {
    text := Strip(reply);
    if StartsWith(text, Fence) {
      SplitSecondIsBlock(text);
      text := SplitOn(text, Fence)[1];
      if StartsWith(text, JsonTag) {
        text := text[|JsonTag|..];
      }
      text := Strip(text);
    }
  }

  /** A reply that does not open with a fence reaches the parser as it is, stripped. */
  lemma UnfencedPassesThrough(reply: string)
    requires !StartsWith(Strip(reply), Fence)
    ensures Cleaned(reply) == Strip(reply)
  {
  }

  /** Nothing of a second fence survives the cleaning of a fenced reply. */
  lemma CleanedHasNoFence(reply: string)
    requires StartsWith(Strip(reply), Fence)
    ensures !Contains(Cleaned(reply), Fence)
  {
    var b := FencedBlock(Strip(reply));
    if StartsWith(b, JsonTag) {
      var c := b[|JsonTag|..];
      assert c == b[|JsonTag|..|b|];
      if Contains(c, Fence) {
        ContainsInSlice(b, |JsonTag|, |b|, Fence);
      }
      StripKeepsNoFence(c);
    } else {
      StripKeepsNoFence(b);
    }
  }

  lemma StripKeepsNoFence(c: string)
    requires !Contains(c, Fence)
    ensures !Contains(Strip(c), Fence)
  {
    StripIsTrimmedSlice(c);
    var i, j :| 0 <= i <= j <= |c| && Strip(c) == c[i..j];
    if Contains(c[i..j], Fence) {
      ContainsInSlice(c, i, j, Fence);
    }
  }

  /** A tag right after the opening fence is the start of the block, from
      which exactly its four letters are dropped before the final strip. */
  lemma JsonTagDropped(reply: string)
    requires StartsWith(Strip(reply), Fence + JsonTag)
    ensures StartsWith(FencedBlock(Strip(reply)), JsonTag)
    ensures Cleaned(reply) == Strip(FencedBlock(Strip(reply))[|JsonTag|..])
  {
    TagOpensBlock(Strip(reply));
  }

  lemma TagOpensBlock(t: string)
    requires StartsWith(t, Fence + JsonTag)
    ensures StartsWith(t, Fence) && StartsWith(FencedBlock(t), JsonTag)
  {
    assert t[..|Fence|] == (Fence + JsonTag)[..|Fence|];
    var b := FencedBlock(t);
    assert forall k :: 0 <= k < |JsonTag| ==> t[|Fence| + k] == JsonTag[k];
    if |b| < |JsonTag| {
      DiffersFirst(t, |Fence| + |b|);
    } else {
      assert b[..|JsonTag|] == t[|Fence|..|Fence| + |JsonTag|];
    }
  }

  /** Text without backquotes. */
  predicate NoBackquote(s: string) {
    forall i :: 0 <= i < |s| ==> s[i] != '`'
  }

  /** Wrapping a JSON text in a `json` code block and cleaning it gives the
      text back, stripped. */
  lemma FencedJsonRoundTrip(body: string)
    requires NoBackquote(body)
    ensures Cleaned(Fence + JsonTag + "\n" + body + "\n" + Fence) == Strip(body)
  {
    var inner := JsonTag + "\n" + body + "\n";
    WrapRegroups(body, inner);
    WrappedBodyCleaned(body, inner);
  }

  lemma WrappedBodyCleaned(body: string, inner: string)
    requires NoBackquote(body) && inner == JsonTag + "\n" + body + "\n"
    ensures Cleaned(Fence + inner + Fence) == Strip(body)
  {
    TaggedInner(body, inner);
    CleanedWrapped(inner);
    StripPadded("\n", body, "\n");
  }

  lemma WrapRegroups(body: string, inner: string)
    requires inner == JsonTag + "\n" + body + "\n"
    ensures Fence + JsonTag + "\n" + body + "\n" + Fence == Fence + inner + Fence
  {
  }

  lemma TaggedInner(body: string, inner: string)
    requires NoBackquote(body) && inner == JsonTag + "\n" + body + "\n"
    ensures NoBackquote(inner) && StartsWith(inner, JsonTag) && inner[|JsonTag|..] == "\n" + body + "\n"
  {
    assert forall k :: 0 <= k < |body| ==> inner[|JsonTag| + 1 + k] == body[k];
    assert inner[..|JsonTag|] == JsonTag;
  }

  /** Cleaning a reply wrapped in fences keeps what they enclose. */
  lemma CleanedWrapped(inner: string)
    requires NoBackquote(inner)
    requires StartsWith(inner, JsonTag)
    ensures Cleaned(Fence + inner + Fence) == Strip(inner[|JsonTag|..])
  {
    var t := Fence + inner + Fence;
    assert t[0] == '`' && t[|t| - 1] == '`';
    StripOfTrimmed(t);
    BlockOfWrapped(inner);
  }

  /** The block of a text wrapped in fences is the text, when it holds no backquote. */
  lemma BlockOfWrapped(inner: string)
    requires NoBackquote(inner)
    ensures StartsWith(Fence + inner + Fence, Fence) && FencedBlock(Fence + inner + Fence) == inner
  {
    var t := Fence + inner + Fence;
    var rest := inner + Fence;
    assert t[..|Fence|] == Fence;
    assert t[|Fence|..] == rest;
    forall j | 0 <= j < |inner|
      ensures !OccursAt(rest, Fence, j)
    {
      assert rest[j] == inner[j];
      DiffersFirst(rest, j);
    }
    assert rest[|inner|..|inner| + |Fence|] == Fence;
    assert OccursAt(rest, Fence, |inner|);
    var found := FindFrom(rest, Fence, 0);
    assert found.Some? && found.value == |inner|;
    assert rest[..|inner|] == inner;
  }

  lemma DiffersFirst(t: string, i: nat)
    requires i < |t| && t[i] != '`'
    ensures !OccursAt(t, Fence, i)
  {
    if i + |Fence| <= |t| {
      assert t[i..i + |Fence|][0] == t[i];
    }
  }

  // ---------------------------------------------------------------------
  // Parsing and the result dictionary
  // ---------------------------------------------------------------------

  /** The dictionary the generator returns: `status` is `success` for `QuizOk`. */
  datatype QuizResult = QuizOk(quiz: Json, model: string) | QuizFailed(message: string)

  /** What a backend returns for the model call's outcome. `parse` is
      `json.loads`, `None` standing for a `JSONDecodeError`. */
  function QuizFromReply(reply: Outcome<string>, parse: string -> Option<Json>, model: string): (r: QuizResult)
    ensures reply.Raised? ==> r == QuizFailed("Quiz generation failed: " + reply.error)
    ensures reply.Returned? && parse(Cleaned(reply.value)).None? ==> r == QuizFailed(UnparsableQuiz)
    ensures r.QuizOk? <==> reply.Returned? && parse(Cleaned(reply.value)).Some? && parse(Cleaned(reply.value)).value.Obj?
    ensures r.QuizOk? ==>
      (r.model == model && r.quiz == Get(parse(Cleaned(reply.value)).value.fields, "questions", List([])))
    ensures reply.Returned? && parse(Cleaned(reply.value)).Some? && !parse(Cleaned(reply.value)).value.Obj? ==>
      r == QuizFailed("Quiz generation failed: '" + TypeName(parse(Cleaned(reply.value)).value) + "' object has no attribute 'get'")
  {
    match reply
    case Raised(e) => QuizFailed("Quiz generation failed: " + e)
    case Returned(text) =>
      match parse(Cleaned(text))
      case None => QuizFailed(UnparsableQuiz)
      case Some(data) =>
        if data.Obj? then QuizOk(Get(data.fields, "questions", List([])), model)
        // `quiz_data.get` on anything but a dictionary raises `AttributeError`
        else QuizFailed("Quiz generation failed: '" + TypeName(data) + "' object has no attribute 'get'")
  }

  /** The reply `{"questions": null}`, once parsed, gives that quiz. */
  lemma NullQuestionsReply(reply: string, parse: string -> Option<Json>, model: string)
    requires parse(Cleaned(reply)) == Some(Obj(map["questions" := Null]))
    ensures QuizFromReply(Returned(reply), parse, model) == QuizOk(Null, model)
  {
  }

  /** The projection does no schema check: whatever `questions` holds is the quiz. */
  lemma QuestionsTakenAsIs(reply: string, parse: string -> Option<Json>, model: string, m: map<string, Json>)
    requires parse(Cleaned(reply)) == Some(Obj(m))
    ensures QuizFromReply(Returned(reply), parse, model)
         == QuizOk(if "questions" in m then m["questions"] else List([]), model)
  {
  }

  /** The two backends differ only in the model name they report. */
  lemma BackendsAgree(reply: Outcome<string>, parse: string -> Option<Json>)
    ensures QuizFromReply(reply, parse, GoogleModel).QuizOk? <==> QuizFromReply(reply, parse, OpenaiModel).QuizOk?
    ensures QuizFromReply(reply, parse, GoogleModel).QuizOk? ==>
      QuizFromReply(reply, parse, GoogleModel).quiz == QuizFromReply(reply, parse, OpenaiModel).quiz
    ensures QuizFromReply(reply, parse, GoogleModel).QuizFailed? ==>
      QuizFromReply(reply, parse, GoogleModel) == QuizFromReply(reply, parse, OpenaiModel)
  {
  }

  class QuizGenerator {
    const modelType: string
    const numQuestions: nat

    constructor(modelType: string)
      ensures this.modelType == modelType && numQuestions == NumQuizQuestions
    {
      this.modelType := modelType;
      numQuestions := NumQuizQuestions;
    }

    /** `generate_with_google`: `reply` is what the Gemini call did. */
    method GenerateWithGoogle(reply: Outcome<string>, parse: string -> Option<Json>) returns (r: QuizResult)
      ensures r == QuizFromReply(reply, parse, GoogleModel)
    {
      r := Backend(reply, parse, GoogleModel);
    }

    /** `generate_with_openai`: `reply` is what the chat completion call did. */
    method GenerateWithOpenai(reply: Outcome<string>, parse: string -> Option<Json>) returns (r: QuizResult)
      ensures r == QuizFromReply(reply, parse, OpenaiModel)
    {
      r := Backend(reply, parse, OpenaiModel);
    }

    /** The body both backends share after the call: clean, parse, project. */
    static method Backend(reply: Outcome<string>, parse: string -> Option<Json>, model: string) returns (r: QuizResult)
      ensures r == QuizFromReply(reply, parse, model)
    {
      if reply.Raised? {
        return QuizFailed("Quiz generation failed: " + reply.error);
      }
      var text := CleanMarkdown(reply.value);
      var quizData := parse(text);
      if quizData.None? {
        return QuizFailed(UnparsableQuiz);
      }
      var data := quizData.value;
      if !data.Obj? {
        return QuizFailed("Quiz generation failed: '" + TypeName(data) + "' object has no attribute 'get'");
      }
      r := QuizOk(Get(data.fields, "questions", List([])), model);
    }

    /** `generate`: dispatch on the configured model type. `reply` is what
        the configured model's call did; no call is made for an unknown type. */
    method Generate(reply: Outcome<string>, parse: string -> Option<Json>) returns (r: QuizResult)
      ensures r == GenerateResult(modelType, reply, parse)
    {
      if modelType == "google" {
        r := GenerateWithGoogle(reply, parse);
      } else if modelType == "openai" {
        r := GenerateWithOpenai(reply, parse);
      } else {
        r := QuizFailed(UnknownModel);
      }
    }
  }

  /** The result of `generate` for a model type. */
  function GenerateResult(modelType: string, reply: Outcome<string>, parse: string -> Option<Json>): (r: QuizResult)
    ensures modelType != "google" && modelType != "openai" ==> r == QuizFailed(UnknownModel)
    ensures r.QuizOk? ==> (modelType == "google" && r.model == GoogleModel) || (modelType == "openai" && r.model == OpenaiModel)
  {
    if modelType == "google" then QuizFromReply(reply, parse, GoogleModel)
    else if modelType == "openai" then QuizFromReply(reply, parse, OpenaiModel)
    else QuizFailed(UnknownModel)
  }
}
