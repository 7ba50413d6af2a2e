# URL to quiz: a verified model

This project models the server side of a small web application. The user posts a URL. The application:

- accepts or refuses the URL,
- extracts the content behind it: a video transcript from a transcript service, or the visible text of an article page,
- has a language model summarise that content,
- checks the summary against a length window and a list of forbidden words,
- has a language model write a quiz about it,
- checks the quiz's shape and returns everything as one JSON envelope with an HTTP status code.

The model is written in Dafny and follows the program module by module:

| file | module | models |
|---|---|---|
| `text.dfy` | `Text` | the string operations the program relies on: the full set of characters that count as whitespace, strip, ASCII lowering, substring search, find, split, join, and whitespace collapsing (`split()`, then `' '.join`) |
| `json.dfy` | `JsonValue` | decoded JSON values, truthiness, `len()`-ability, the type names used in error messages, `dict.get`, and `Outcome` (a value returned or an exception raised) |
| `config.dfy` | `Config` | the configured constants |
| `guardrails.dfy` | `Guardrails` | `validate_summary`, `validate_url`, `validate_quiz` |
| `youtube.dfy` | `YouTube` | `is_youtube_url`, whose anchored regular expression is modelled as groups of literal alternatives; and `extract_youtube_id`, whose four search patterns are modelled as a leftmost scan |
| `scraper.dfy` | `Scraper` | the transcript call and the decoding of its reply, `scrape_article` after HTML parsing, and `extract_content` |
| `summarizer.dfy` | `Summarization` | `summarize` and the two backends' result mapping |
| `quiz_generator.dfy` | `QuizGeneration` | markdown-fence cleaning, the `questions` projection, the exception-to-result mapping, and the `QuizGenerator` class with its dispatch |
| `pipeline.dfy` | `Pipeline` | the `/api/process-url` handler: the order of the stages, which failure gives which status code, and the success envelope |

Several things are inputs rather than parts of the model:

- the network,
- the language models,
- the HTML parser,
- `json.loads`,
- `str()` of containers.

Each of these is a parameter: a reply, an outcome, or a function. "Not invoked" is stated as "the result is the same whatever that parameter is".

## Model

| member | source | states |
|---|---|---|
| Text.StripIsTrimmedSlice | modules/scraper.py:317 | `strip()` returns a contiguous slice of its input; neither end of the result is whitespace; everything removed is whitespace |
| Text.StripIdempotent | main.py:41 | stripping an already stripped URL changes nothing |
| Text.StripPadded | modules/scraper.py:317 | whitespace added around a text does not change its `strip()` |
| Text.ContainsLowered | modules/guardrails.py:26-28 | a substring of the lowered text is found wherever the lowered pattern occurred in the original |
| Text.FindFrom | modules/quiz_generator.py:71 | the index found is the leftmost occurrence at or after the start; `None` means there is no occurrence |
| Text.CollapseProperties | modules/scraper.py:264-265 | collapsed text has no whitespace at either end, no two adjacent spaces, and splits back into exactly the input's words |
| Text.CollapseIdempotent | modules/scraper.py:264-265 | collapsing collapsed text changes nothing |
| Guardrails.ValidateSummary | modules/guardrails.py:10-32 | a missing or empty summary is refused as empty; otherwise the summary is accepted exactly when its length is within [100, 200000] and no forbidden word occurs in its lowered text; each refusal carries its message |
| Guardrails.SummaryLengthRejections | modules/guardrails.py:15-19 | summaries under 100 or over 200000 characters get the too-short and too-long messages |
| Guardrails.ForbiddenWordRejects | modules/guardrails.py:22-30 | a forbidden word, in any casing and anywhere in a summary of acceptable length, rejects it as inappropriate |
| Guardrails.UpperCaseViolenceRejects | modules/guardrails.py:26-30 | "VIOLENCE" is rejected just as "violence" is |
| Guardrails.SummaryCaseInsensitive | modules/guardrails.py:26 | summaries that lower to the same text get the same verdict |
| Guardrails.ValidateUrl | modules/guardrails.py:59-68 | a URL is safe exactly when none of the three dangerous protocols (`javascript:`, `data:`, `vbscript:`) occurs anywhere in its lowered text |
| Guardrails.DangerousAnywhereRejects | modules/guardrails.py:61-66 | the protocol test is not anchored: a dangerous protocol in the middle of a URL, in any case, rejects it |
| Guardrails.JavascriptUrlRejected | modules/guardrails.py:61-66 | every URL starting with `javascript:` is unsafe |
| Guardrails.PlainHttpsUrlAccepted | modules/guardrails.py:59-68 | `https://example.com` is safe |
| Guardrails.FirstMissing | modules/guardrails.py:52-54 | no field is reported exactly when the question has every required field; a field reported is required and absent |
| Guardrails.FirstMissingIsFirst | modules/guardrails.py:52-54 | the field reported missing is the first required field, in the order the fields are listed, that the question lacks |
| Guardrails.CheckQuestion | modules/guardrails.py:46-54 | a question passes exactly when it is a dictionary with a known type and every field that type requires; it raises exactly when it is not a dictionary or its `type` is a list or a dictionary (not hashable), a non-dictionary with the missing-`get` message; an unknown type gives `Unknown question type: ` and the type's text; a known type with a field missing gives `Missing field '<f>' in question` for the first missing field |
| Guardrails.ValidateQuiz | modules/guardrails.py:35-56 | a falsy quiz is refused as having no questions; a truthy quiz that is not a list raises, as iterating over it would; an accepted quiz gets `Quiz passed validation` |
| Guardrails.FirstFailingDecides | modules/guardrails.py:46-56 | the loop's outcome is decided by the first question that does not pass: its exception, or a rejection with its message |
| Guardrails.QuizFirstFailureDecides | modules/guardrails.py:35-56 | so the verdict on a list of questions is the first failing question's exception or message |
| Guardrails.CheckQuestionsAccepts | modules/guardrails.py:46-56 | the loop over questions accepts exactly when every question is well formed |
| Guardrails.QuizAcceptedIff | modules/guardrails.py:35-56 | a quiz is accepted exactly when it is a non-empty list of well-formed questions |
| Guardrails.MultipleChoiceNeedsOptions | modules/guardrails.py:40-54 | a quiz holding a multiple-choice question without `options` is not accepted |
| Guardrails.ExplanationNeverRequired | modules/guardrails.py:40-44 | no question type requires `explanation` |
| Guardrails.MinimalTrueFalseAccepted | modules/guardrails.py:40-56 | a one-question true/false quiz with just its required fields is accepted |
| YouTube.MatchSpells | modules/scraper.py:55-58 | when the anchored pattern matches, the URL starts with a choice of one spelling from each group |
| YouTube.SpellingMatches | modules/scraper.py:55-58 | a URL that starts with one spelling from each group matches, even when an earlier alternative would have had to be abandoned |
| YouTube.IsYoutubeUrlIff | modules/scraper.py:53-58 | `is_youtube_url` holds exactly when the URL starts with an optional `http://` or `https://`, an optional `www.`, one of the three host names, a dot, `com` or `be`, and `/` |
| YouTube.AnchoredAtStart | modules/scraper.py:58 | `re.match` is anchored: a URL whose first character can begin none of the spellings is not a video URL |
| YouTube.ExampleQueryNotVideo | modules/scraper.py:58 | `example.com/?youtube.com/` is not a video URL, although it contains a video host |
| YouTube.CaptureAt | modules/scraper.py:64-67 | a capture group of the excluded-character class fails exactly at the end of the URL or at a stop character; otherwise it is the non-empty maximal run at that index without stop characters |
| YouTube.LeadsAtFirstLead | modules/scraper.py:64 | an alternation of leads captures after the first lead, in order, that matches with a capture after it |
| YouTube.LeadsAtNone | modules/scraper.py:64 | the alternation fails exactly when no lead matches with a capture after it |
| YouTube.LastVIsLast | modules/scraper.py:65 | the greedy `.*v=` captures after the last `v=` in range that is followed by a capturable character |
| YouTube.LastVNone | modules/scraper.py:65 | the greedy `.*v=` fails exactly when no `v=` in range is followed by a capturable character |
| YouTube.SearchFromLeftmost | modules/scraper.py:70 | `re.search` returns the capture at the leftmost index where the pattern matches |
| YouTube.SearchFromNone | modules/scraper.py:70 | `re.search` finds nothing exactly when the pattern matches at no index |
| YouTube.FirstCapture | modules/scraper.py:69-73 | a result is a non-empty piece of the URL without `?` or `&`; there is none exactly when every pattern's search fails |
| YouTube.FirstCaptureFirst | modules/scraper.py:69-73 | the result is the capture of the first pattern, in order, whose search succeeds |
| YouTube.ExtractYoutubeId | modules/scraper.py:61-73 | an identifier found is a non-empty substring of the URL containing neither `?` nor `&`; `None` comes back exactly when all four searches fail |
| YouTube.WatchLinkId | modules/scraper.py:64 | `youtube.com/watch?v=ID`, behind any prefix with no letter `y`, with a plain ID (non-empty, none of `&`, `?`, `#` or a newline) that ends the URL, gives `ID` |
| YouTube.ShortLinkId | modules/scraper.py:64 | `youtu.be/ID`, behind any prefix with no letter `y`, with a plain ID (non-empty, none of `&`, `?`, `#` or a newline) that ends the URL, gives `ID` |
| YouTube.EmbedLinkId | modules/scraper.py:64 | `youtube.com/embed/ID`, behind any prefix with no letter `y`, with a plain ID (non-empty, none of `&`, `?`, `#` or a newline) that ends the URL, gives `ID` |
| YouTube.SameIdForAllForms | modules/scraper.py:63-73 | the watch, short and embed links to one video give the same identifier |
| Scraper.FailureMessage | modules/scraper.py:216-237 | the disabled message comes exactly when the lowered text mentions `disabled`, even when it also mentions `not found`; the no-captions message exactly when it does not mention `disabled` but mentions `not found` or `no transcript`; any other message is `Failed: ` and the first min(length, 100) characters of the exception's text |
| Scraper.FailureCategoryIgnoresCase | modules/scraper.py:217-233 | exceptions whose texts differ only in ASCII case fall in the same category |
| Scraper.JoinValues | modules/scraper.py:159 | `' '.join` succeeds exactly when every item is a string |
| Scraper.JoinOfStrings | modules/scraper.py:159 | a list of strings is joined with single spaces |
| Scraper.JoinNamesFirstNonString | modules/scraper.py:159 | otherwise the `TypeError` names the index and the type of the first item that is not a string |
| Scraper.DecodeItemIsElifChain | modules/scraper.py:146-170 | the four known response shapes are tried in order; the first whose test holds decides the content, even when its content is then empty |
| Scraper.ReplyResult | modules/scraper.py:128-198 | a status-200 JSON body that is not a non-empty list gives no transcript; the reply succeeds exactly when the first item decodes without raising to truthy content whose `str()` strips to at least 50 characters; the transcript is that stripped text, the title `YouTube Video: <id>`; every result carries the URL |
| Scraper.DecodedResult | modules/scraper.py:172-198 | a decoding that raised goes through the message mapping; falsy content fails to parse; content whose `str()` strips to under 50 characters is too short; success comes exactly when none of these holds, with the stripped text as the transcript |
| Scraper.HandleDecoded | modules/scraper.py:172-198 | the method's result is the decoded-content mapping for the same outcome, so it has that mapping's properties |
| Scraper.TranscriptResult | modules/scraper.py:76-237 | every result carries the URL; the transcript succeeds exactly when the URL has an identifier, the key is set, the service answers 200 with a JSON body, and that reply succeeds; a success has the title and transcript of that identifier |
| Scraper.ServiceOutcomes | modules/scraper.py:106-237 | with an identifier and a key, a timeout gives the timeout message; another exception goes through the message mapping; a status other than 200 gives `API Error: <status>. Video may not have captions.`; a 200 body that is not JSON gives the parse message; a 200 JSON body gives that reply's result |
| Scraper.DecodeTranscriptItem | modules/scraper.py:143-170 | the step-by-step rebinding of `content` computes the content the shape order decides |
| Scraper.GetYoutubeTranscript | modules/scraper.py:76-237 | the method's result is the transcript result for the same URL, key and service, so it has that result's properties |
| Scraper.HandleReply | modules/scraper.py:128-198 | the method's result is the reply mapping for the same reply, so it has that mapping's properties |
| Scraper.NoIdNoCall | modules/scraper.py:82-89 | a URL without an identifier fails with the invalid-format message whatever the service would reply |
| Scraper.NoKeyNoCall | modules/scraper.py:98-104 | an empty API key fails with the key message whatever the service would reply |
| Scraper.EmptyReplyHasNoTranscript | modules/scraper.py:132-137 | an empty list body gives the no-transcript message |
| Scraper.TextFieldFirst | modules/scraper.py:146-149 | an item with a `text` field takes it even when it has `tracks` and `content` |
| Scraper.TracksNeverFallThrough | modules/scraper.py:151-160 | an item with `tracks` never falls through to `content` |
| Scraper.MalformedTracksIgnoreContent | modules/scraper.py:151-179 | an item whose `tracks` is not a list fails to parse even when it has `content` |
| Scraper.BareStringTaken | modules/scraper.py:162-165 | a bare string item is its own content |
| Scraper.ContentFieldLast | modules/scraper.py:167-170 | an item with only `content` takes it |
| Scraper.OtherItemsEmpty | modules/scraper.py:143-179 | any other item yields no content, so the reply fails to parse |
| Scraper.TranscriptJoinsFragments | modules/scraper.py:157-159 | the fragments of the first track are joined with single spaces in order |
| Scraper.NonDictFragmentsSkipped | modules/scraper.py:159 | fragments that are not dictionaries are skipped by the comprehension |
| Scraper.ReplyResultAsWritten | modules/scraper.py:140-198 | the reply mapping including the `.keys()` log call at line 141: an empty or non-list body gives no transcript; a first item that is not a dictionary makes that call raise before any shape is tried, giving the mapped `'<type>' object has no attribute 'keys'` failure; for a dictionary item the result is the corrected mapping's |
| Scraper.BareStringTranscriptLost | modules/scraper.py:141-165 | for a bare string transcript, the code as written fails with `Failed: 'str' object has no attribute 'keys'`; the intended result is the stripped transcript |
| Scraper.ScrapeArticle | modules/scraper.py:249-306 | a fetched page succeeds exactly when its collapsed visible text has at least 100 characters; the content is that collapsed text; the title is the page's title or `No title`; a timeout and a connection error get their messages, and any other exception gives `Failed to scrape article: ` and its first 100 characters; the URL is always carried |
| Scraper.MissingTitleFallsBack | modules/scraper.py:268 | a page without a title tag gets `No title` |
| Scraper.PaddingDoesNotCount | modules/scraper.py:264-275 | a page whose visible text is only whitespace is too short |
| Scraper.OnlyWordsCount | modules/scraper.py:264-275 | pages whose visible texts split into the same words get the same result: whitespace runs do not count towards the 100-character minimum |
| Scraper.ExtractContent | modules/scraper.py:308-322 | a falsy or non-string URL is refused without a URL; otherwise the result carries the stripped URL, and a success is a video exactly when that URL matches the video pattern; a video's transcript is stripped with at least 50 characters, an article's text collapsed with at least 100 |
| Scraper.Routing | modules/scraper.py:317-322 | the stripped URL goes to the transcript path when it matches the video pattern, and to the article path otherwise |
| Scraper.StripBeforeRouting | modules/scraper.py:317 | URLs that strip to the same non-empty text get the same extraction |
| Summarization.Summarize | modules/summarizer.py:20-102 | content under 100 characters is refused; an unknown model type is refused; the summary succeeds exactly when the content is long enough, the type is known and the model call returned; a success carries what the call returned, with the backend's model name; a raised call gives `Summarization failed: ` and its text |
| Summarization.BackendsAgree | modules/summarizer.py:20-84 | the two backends agree on every result apart from the model name they report |
| Summarization.ShortContentNoCall | modules/summarizer.py:88-92 | short content gets the same refusal whatever the model would reply |
| QuizGeneration.FencedBlock | modules/quiz_generator.py:70-71 | part 1 of `split('```')` on a fenced reply is the text after the first fence up to the next fence or the end, and contains no fence |
| QuizGeneration.SplitSecondIsBlock | modules/quiz_generator.py:70-71 | `split('```')[1]` on a text starting with a fence is that block |
| QuizGeneration.CleanMarkdown | modules/quiz_generator.py:67-74 | the step-by-step cleaning computes the cleaned reply |
| QuizGeneration.UnfencedPassesThrough | modules/quiz_generator.py:67-70 | a reply that does not start with a fence is only stripped |
| QuizGeneration.CleanedHasNoFence | modules/quiz_generator.py:67-74 | a fenced reply cleans to text without a fence |
| QuizGeneration.JsonTagDropped | modules/quiz_generator.py:72-74 | the `json` language tag after the opening fence is removed |
| QuizGeneration.FencedJsonRoundTrip | modules/quiz_generator.py:67-76 | wrapping a body without backquotes in a `json` fence and cleaning it gives back the stripped body |
| QuizGeneration.QuizFromReply | modules/quiz_generator.py:66-96 | a raised model call gives `Quiz generation failed: ` and its text; an unparseable reply gives the parse-format message; a parsed dictionary succeeds with its `questions` value, or an empty list; a parsed non-dictionary fails with its missing-`get` message |
| QuizGeneration.NullQuestionsReply | modules/quiz_generator.py:76-83 | a reply parsing to `{"questions": null}` is a successful generation of the quiz `null` |
| QuizGeneration.QuestionsTakenAsIs | modules/quiz_generator.py:79-83 | the quiz is the parsed `questions` value verbatim, whatever its shape |
| QuizGeneration.BackendsAgree | modules/quiz_generator.py:124-153 | the two backends map the same reply to the same result apart from the model name |
| QuizGeneration.QuizGenerator.constructor | modules/quiz_generator.py:12-21 | a generator keeps its model type and the configured number of questions |
| QuizGeneration.QuizGenerator.GenerateWithGoogle | modules/quiz_generator.py:23-96 | the Gemini backend's result for the model's reply |
| QuizGeneration.QuizGenerator.GenerateWithOpenai | modules/quiz_generator.py:98-153 | the OpenAI backend's result for the model's reply |
| QuizGeneration.QuizGenerator.Backend | modules/quiz_generator.py:66-96 | the shared backend path applies the cleaning, the parse and the projection |
| QuizGeneration.QuizGenerator.Generate | modules/quiz_generator.py:155-165 | dispatch on the model type; an unknown type gives `Unknown model type` |
| QuizGeneration.GenerateResult | modules/quiz_generator.py:155-165 | a success always comes from one of the two known backends |
| Pipeline.ProcessUrl | main.py:36-106 | the handler answers only with 200, 400 or 500; 200 comes exactly with a success body; a success carries the title, kind, summary, quiz and stripped URL of stages that all succeeded, and the quiz verdict does not hold it back; when every stage succeeds but the quiz check raises, the answer is 500 with the internal error |
| Pipeline.EmptyUrlRefused | main.py:40-45 | a URL that strips to nothing gets 400 `URL is required` |
| Pipeline.MissingUrlRefused | main.py:40-45 | a body without `url` gets 400 `URL is required` |
| Pipeline.UnsafeUrlRefused | main.py:47-49 | an unsafe URL gets 400 with the guardrail's message |
| Pipeline.ExtractionFailurePassedOn | main.py:54-56 | an extraction failure is passed on with 400 |
| Pipeline.SummaryFailureIsServerError | main.py:65-67 | a summarizer failure is passed on with 500 |
| Pipeline.RejectedSummaryStopsBeforeQuiz | main.py:71-75 | a rejected summary gets 400 with the guardrail's message, whatever the quiz stage would do |
| Pipeline.QuizFailureIsServerError | main.py:80-82 | a quiz-generation failure is passed on with 500 |
| Pipeline.QuizVerdictDoesNotBlock | main.py:86-102 | a quiz that fails its check is still delivered |
| Pipeline.MalformedRequestIsServerError | main.py:39-41 | a body that is not a JSON object, or whose `url` is not a string, becomes the internal error |
| Pipeline.DeliveredKindFollowsRouting | main.py:54-100 | a delivered video is one whose stripped URL matches the video pattern |
| Pipeline.ProcessUrlAsWritten | main.py:86-91 | the handler including `len(quiz)` at line 91: it differs from the corrected handler only by turning a success into the internal error; a 200 answer has a quiz with a length; every delivered quiz without a length gives the internal error |
| Pipeline.UnsizedQuizFailsAsWritten | main.py:84-106 | a delivered quiz without a length answers 500 as written; when it is `null`, `false` or `0` it passes the quiz check and the corrected handler answers 200 |
| Pipeline.NullQuizFailsAsWritten | main.py:84-91 | a reply of the form `{"questions": null}` makes the code as written answer 500 |
| Pipeline.NullQuizWitness | main.py:36-106 | for `https://example.com` with a clean summary and the reply `{"questions": null}`, the code as written answers 500 and the corrected handler answers 200 |

## Left out

- Network I/O is left out. This includes requests' retry session and its headers, the transcript service's HTTP request, and the timeout values. Replies and exceptions enter as parameters.
- A `requests` JSON decoding error is an empty body (`None`) in the transcript reply.
- The HTML parser and the in-place removal of script and style elements are left out. The article path starts from the page's visible text and title tag, so `Scraper.ScrapeArticle` is a function over those.
- `QuizGenerator` and `LLMSummarizer` default their model type to `google` when none is given. The model always takes the type as an argument, as the handler always passes it.
- The language-model SDKs, their configuration in the constructors, and the prompts are left out. This includes the `content[:N]` and `summary[:N]` truncations that appear only inside prompts. Each model's reply or exception is an input.
- `json.loads` is a parameter `parse`. The model does not fix JSON's grammar.
- `str()` of lists and dictionaries is a parameter `show`. The model does not fix Python's `repr` format.
- Flask routing, `jsonify`, the health endpoint and the error handlers are left out. Logging is left out too, except where a log line's own expression can raise (the two findings).
- `Text.Lower` covers ASCII letters only. Python's `lower()` also folds other Unicode letters, `str(e).lower()` included.
- JSON numbers are integers. Floats are not modelled, and dictionaries are maps, so key order is not modelled.
- `Scraper.TranscriptResult` leaves out the outer `except` of `get_youtube_transcript` (lines 239-245). In the model, only the inner steps can raise, and the inner `except Exception` catches all of them.
- `Scraper.ExtractContent` receives the URL as a JSON value and models truthiness and the string test. It does not model `strip()` on non-string values, which the handler would already have failed on.
- The text of exceptions raised inside network and model calls is a plain input string. The model does not derive it from the exception types.

## Findings

| source | as written | input that shows it | evidently intended | confidence | as-written member | corrected member |
|---|---|---|---|---|---|---|
| modules/scraper.py:141 | a log line calls `transcript_item.keys()` before the item's shape is tested | a 200 reply whose body is a list with one string of 50 or more characters | a bare string item is taken as the transcript, as the branch at lines 162-165 provides | high; not executed | Scraper.BareStringTranscriptLost | Scraper.ReplyResult |
| main.py:91 | a log line evaluates `len(quiz)` after the non-blocking quiz check | a model reply `{"questions": null}` for a URL whose content and summary pass | the quiz verdict only logs a warning, so the envelope is returned with 200 | medium; not executed | Pipeline.NullQuizWitness | Pipeline.ProcessUrl |

The rest of the model uses the corrected members. `Scraper.ReplyResultAsWritten` and `Pipeline.ProcessUrlAsWritten` keep the code as written. In `ReplyResultAsWritten`, a non-dictionary item raises `AttributeError`, and the generic exception mapping turns that into `Failed: 'str' object has no attribute 'keys'`. `Pipeline.ProcessUrlAsWritten` answers 500 for every quiz without a length, `null` included.
