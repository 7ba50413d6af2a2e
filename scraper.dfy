/** `WebScraper`: routing a URL to the transcript service or to the article
    fetcher, decoding the transcript service's loosely-typed reply, and the
    checks on the text either path produces. The network calls are inputs:
    what the transcript service answered and what the page fetch gave. */
module Scraper {
  import opened Text
  import opened JsonValue
  import opened YouTube

  datatype ContentKind = Video | Article

  /** The dictionary the extraction functions return: `status` is `success`
      for `Extracted`. A failure carries the URL except for invalid input. */
  datatype Extraction =
    | Extracted(title: Option<string>, content: string, kind: ContentKind, url: string)
    | ExtractFailed(message: string, origin: Option<string>)

  /** The `url` key of a result, when it has one. */
  function UrlOf(e: Extraction): Option<string> {
    match e
    case Extracted(_, _, _, url) => Some(url)
    case ExtractFailed(_, origin) => origin
  }

  const MinTranscriptLength: nat := 50
  const MinArticleLength: nat := 100
  /** How much of an exception's text a failure message quotes. */
  const ErrorQuoteLength: nat := 100

  const InvalidVideoUrl: string := "\U{274C} Invalid YouTube URL format. Please check the URL."
  const ApiKeyMissing: string := "API key not configured. Please set YOUTUBE_TRANSCRIPT_IO_API_KEY in .env"
  const NoTranscriptFound: string := "\U{26A0}\U{FE0F} No transcript found for this video."
  const TranscriptUnparsed: string := "Failed to parse transcript data."
  const TranscriptTooShort: string := "Transcript is empty or too short."
  const TranscriptTimeout: string := "Request timed out. Please try again."
  const ReplyNotJson: string := "Failed to parse API response."
  const TranscriptsDisabled: string := "\U{274C} Transcripts are disabled for this video."
  const NoCaptions: string := WarningSign + "No captions found. Try another video or use an article URL."
  /** The warning sign the two "nothing found" messages open with. */
  const WarningSign: string := "\U{26A0}\U{FE0F} "
  const ArticleTooShort: string := "Article content too short or unable to extract text"
  const ArticleTimeout: string := "Request timed out. Website took too long to respond."
  const ArticleUnreachable: string := "Connection error. Unable to reach the website."
  const InvalidUrl: string := "Invalid URL provided"

  /** Python's `s[:n]`. */
  function Prefix(s: string, n: nat): (r: string)
    ensures |r| <= n && StartsWith(s, r) && (|s| <= n ==> r == s)
  {
    if |s| <= n then s else s[..n]
  }

  /** The title of a transcript result. */
  function VideoTitle(id: string): string {
    "YouTube Video: " + id
  }

  // ---------------------------------------------------------------------
  // The transcript path
  // ---------------------------------------------------------------------

  /** What the call to the transcript service did: timed out, raised an
      exception with the given text, or answered with a status and a body
      (`None` when the body is not JSON). */
  datatype TranscriptCall =
    | CallTimedOut
    | CallRaised(error: string)
    | Replied(status: int, body: Option<Json>)

  /** The generic exception handler of the transcript path, which also
      receives the exceptions the decoding itself raises. */
  function FailureMessage(e: string): (m: string)
    ensures Contains(Lower(e), "disabled") ==> m == TranscriptsDisabled
    ensures (!Contains(Lower(e), "disabled") && (Contains(Lower(e), "not found") || Contains(Lower(e), "no transcript")))
      ==> m == NoCaptions
    ensures (!Contains(Lower(e), "disabled") && !Contains(Lower(e), "not found") && !Contains(Lower(e), "no transcript"))
      ==> m == "Failed: " + Prefix(e, ErrorQuoteLength)
    ensures m == TranscriptsDisabled <==> Contains(Lower(e), "disabled")
    ensures m == NoCaptions <==>
      !Contains(Lower(e), "disabled") && (Contains(Lower(e), "not found") || Contains(Lower(e), "no transcript"))
    ensures m != TranscriptsDisabled && m != NoCaptions ==>
      m == "Failed: " + e[..if |e| <= ErrorQuoteLength then |e| else ErrorQuoteLength]
  {
    var lowered := Lower(e);
    if Contains(lowered, "disabled") then TranscriptsDisabled
    else if Contains(lowered, "not found") || Contains(lowered, "no transcript") then NoCaptions
    else
      var quoted := "Failed: " + Prefix(e, ErrorQuoteLength);
      assert quoted[0] == 'F' && TranscriptsDisabled[0] == '\U{274C}' && NoCaptions[0] == WarningSign[0];
      quoted
  }

  /** The category of a failure depends on the exception's text only up to
      ASCII case; only the quoted part keeps the original spelling. */
  lemma FailureCategoryIgnoresCase(e1: string, e2: string)
    requires Lower(e1) == Lower(e2)
    ensures FailureMessage(e1) == TranscriptsDisabled <==> FailureMessage(e2) == TranscriptsDisabled
    ensures FailureMessage(e1) == NoCaptions <==> FailureMessage(e2) == NoCaptions
  {
  }

  /** `[item.get('text', '') for item in items if isinstance(item, dict)]`. */
  function FragmentTexts(items: seq<Json>): (r: seq<Json>)
    ensures |r| <= |items|
  {
    if items == [] then []
    else (if items[0].Obj? then [Get(items[0].fields, "text", Str(""))] else []) + FragmentTexts(items[1..])
  }

  /** The index of the first value that is not a string. */
  function FirstNonString(vals: seq<Json>): (r: Option<nat>)
    ensures r.None? <==> forall i :: 0 <= i < |vals| ==> vals[i].Str?
    ensures r.Some? ==> r.value < |vals| && !vals[r.value].Str? && forall i :: 0 <= i < r.value ==> vals[i].Str?
  {
    if vals == [] then None
    else if !vals[0].Str? then Some(0)
    else
      var r := FirstNonString(vals[1..]);
      assert forall i :: 1 <= i < |vals| ==> vals[i] == vals[1..][i - 1];
      if r.None? then None else Some(r.value + 1)
  }

  /** `' '.join(vals)`: a `TypeError` names the first value that is not a string. */
  function JoinValues(vals: seq<Json>): (r: Outcome<string>)
    ensures r.Returned? <==> forall i :: 0 <= i < |vals| ==> vals[i].Str?
  {
    match FirstNonString(vals)
    case Some(i) =>
      Raised("sequence item " + IntToString(i) + ": expected str instance, " + TypeName(vals[i]) + " found")
    case None => Returned(Join(" ", seq(|vals|, i requires 0 <= i < |vals| => vals[i].s)))
  }

  /** The space-join of the fragments' texts. Iterating a string yields
      strings and iterating a dictionary yields its keys, so neither has a
      dictionary fragment; the other scalars cannot be iterated. */
  function FragmentsText(data: Json): Outcome<string> {
    match data
    case List(items) => JoinValues(FragmentTexts(items))
    case Str(_) => Returned("")
    case Obj(_) => Returned("")
    case _ => Raised("'" + TypeName(data) + "' object is not iterable")
  }

  /** `tracks[0]['transcript']` joined, when the tracks have that shape; `None` (Null) otherwise. */
  function FirstTrackText(tracks: Json): Outcome<Json> {
    if tracks.List? && |tracks.items| > 0 && tracks.items[0].Obj? && "transcript" in tracks.items[0].fields then
      match FragmentsText(tracks.items[0].fields["transcript"])
      case Returned(t) => Returned(Str(t))
      case Raised(e) => Raised(e)
    else Returned(Null)
  }

  /** The four shapes of a transcript item, in the order they are tried. */
  datatype Shape = TextField | Tracks | BareString | ContentField

  const ShapeOrder: seq<Shape> := [TextField, Tracks, BareString, ContentField]

  /** Whether the item has the shape: the test of one `elif` arm. */
  predicate Claims(sh: Shape, item: Json) {
    match sh
    case TextField => item.Obj? && "text" in item.fields
    case Tracks => item.Obj? && "tracks" in item.fields
    case BareString => item.Str?
    case ContentField => item.Obj? && "content" in item.fields
  }

  /** The content an item of the shape carries. */
  function Take(sh: Shape, item: Json): Outcome<Json>
    requires Claims(sh, item)
  {
    match sh
    case TextField => Returned(item.fields["text"])
    case Tracks => FirstTrackText(item.fields["tracks"])
    case BareString => Returned(item)
    case ContentField => Returned(item.fields["content"])
  }

  /** The first shape that claims the item decides its content, even when
      that content turns out empty; no shape gives `None` (Null). */
  function DecodeWith(shapes: seq<Shape>, item: Json): Outcome<Json> {
    if shapes == [] then Returned(Null)
    else if Claims(shapes[0], item) then Take(shapes[0], item)
    else DecodeWith(shapes[1..], item)
  }

  function DecodeItem(item: Json): Outcome<Json> {
    DecodeWith(ShapeOrder, item)
  }

  /** The shape list tried in order is the `elif` chain of the source. */
  lemma DecodeItemIsElifChain(item: Json)
    ensures DecodeItem(item) ==
      if Claims(TextField, item) then Take(TextField, item)
      else if Claims(Tracks, item) then Take(Tracks, item)
      else if Claims(BareString, item) then Take(BareString, item)
      else if Claims(ContentField, item) then Take(ContentField, item)
      else Returned(Null)
  {
    var s1: seq<Shape> := [Tracks, BareString, ContentField];
    var s2: seq<Shape> := [BareString, ContentField];
    var s3: seq<Shape> := [ContentField];
    assert ShapeOrder[1..] == s1 && s1[1..] == s2 && s2[1..] == s3 && s3[1..] == [];
    assert DecodeWith(s3, item) == if Claims(ContentField, item) then Take(ContentField, item) else Returned(Null);
    assert DecodeWith(s2, item) == if Claims(BareString, item) then Take(BareString, item) else DecodeWith(s3, item);
    assert DecodeWith(s1, item) == if Claims(Tracks, item) then Take(Tracks, item) else DecodeWith(s2, item);
  }

  /** Python's `str()` of the content. `show` stands for `str()` of a list
      or a dictionary, whose rendering is not modelled. */
  function ContentText(content: Json, show: Json -> string): string {
    match content
    case Str(s) => s
    case Num(n) => IntToString(n)
    case Bool(b) => if b then "True" else "False"
    case Null => "None"
    case _ => show(content)
  }

  /** A transcript success: the title names the video id, the content is
      stripped and long enough, and the original URL is kept. */
  predicate TranscriptSuccess(r: Extraction, url: string, id: string) {
    r.Extracted? && r == Extracted(Some(VideoTitle(id)), r.content, Video, url)
      && |r.content| >= MinTranscriptLength && Strip(r.content) == r.content
  }

  /** What a status-200 JSON reply decodes to. */
  function ReplyResult(url: string, id: string, data: Json, show: Json -> string): (r: Extraction)
    ensures UrlOf(r) == Some(url)
    ensures r.Extracted? ==> TranscriptSuccess(r, url, id)
    ensures !(data.List? && |data.items| > 0) ==> r == ExtractFailed(NoTranscriptFound, Some(url))
    ensures r.Extracted? <==>
      data.List? && |data.items| > 0 && DecodeItem(data.items[0]).Returned?
      && Truthy(DecodeItem(data.items[0]).value)
      && |Strip(ContentText(DecodeItem(data.items[0]).value, show))| >= MinTranscriptLength
    ensures r.Extracted? ==> r.content == Strip(ContentText(DecodeItem(data.items[0]).value, show))
  {
    // `not data or not isinstance(data, list) or len(data) == 0`
    if !(data.List? && |data.items| > 0) then ExtractFailed(NoTranscriptFound, Some(url))
    else DecodedResult(url, id, DecodeItem(data.items[0]), show)
  }

  /** What the decoded content of the first item gives: a falsy content
      fails to parse, and a stripped text under 50 characters is too short. */
  function DecodedResult(url: string, id: string, decoded: Outcome<Json>, show: Json -> string): (r: Extraction)
    ensures UrlOf(r) == Some(url)
    ensures r.Extracted? ==> TranscriptSuccess(r, url, id)
    ensures r.Extracted? <==>
      decoded.Returned? && Truthy(decoded.value) && |Strip(ContentText(decoded.value, show))| >= MinTranscriptLength
    ensures r.Extracted? ==> r.content == Strip(ContentText(decoded.value, show))
    ensures decoded.Raised? ==> r == ExtractFailed(FailureMessage(decoded.error), Some(url))
    ensures decoded.Returned? && !Truthy(decoded.value) ==> r == ExtractFailed(TranscriptUnparsed, Some(url))
    ensures decoded.Returned? && Truthy(decoded.value) && |Strip(ContentText(decoded.value, show))| < MinTranscriptLength
      ==> r == ExtractFailed(TranscriptTooShort, Some(url))
  {
    match decoded
    case Raised(e) => ExtractFailed(FailureMessage(e), Some(url))
    case Returned(content) =>
      if !Truthy(content) then ExtractFailed(TranscriptUnparsed, Some(url))
      else
        var text := Strip(ContentText(content, show));
        StripIdempotent(ContentText(content, show));
        if |text| < MinTranscriptLength then ExtractFailed(TranscriptTooShort, Some(url))
        else Extracted(Some(VideoTitle(id)), text, Video, url)
  }

  /** The key is set and not empty. */
  predicate KeyConfigured(apiKey: Option<string>) {
    apiKey.Some? && apiKey.value != ""
  }

  /** The service answered with status 200 and a JSON body. */
  predicate ServiceAnswered(call: TranscriptCall) {
    call.Replied? && call.status == 200 && call.body.Some?
  }

  /** `get_youtube_transcript`. `apiKey` is the configured key (`None` when
      unset); `api` gives what the service call did for a video id. */
  function TranscriptResult(url: string, apiKey: Option<string>, api: string -> TranscriptCall, show: Json -> string): (r: Extraction)
    ensures UrlOf(r) == Some(url)
    ensures r.Extracted? ==> ExtractYoutubeId(url).Some? && TranscriptSuccess(r, url, ExtractYoutubeId(url).value)
    ensures r.Extracted? <==>
      ExtractYoutubeId(url).Some? && KeyConfigured(apiKey) && ServiceAnswered(api(ExtractYoutubeId(url).value))
      && ReplyResult(url, ExtractYoutubeId(url).value, api(ExtractYoutubeId(url).value).body.value, show).Extracted?
  {
    match ExtractYoutubeId(url)
    case None => ExtractFailed(InvalidVideoUrl, Some(url))
    case Some(id) =>
      if !KeyConfigured(apiKey) then ExtractFailed(ApiKeyMissing, Some(url))
      else
        match api(id)
        case CallTimedOut => ExtractFailed(TranscriptTimeout, Some(url))
        case CallRaised(e) => ExtractFailed(FailureMessage(e), Some(url))
        case Replied(status, body) =>
          if status != 200 then
            ExtractFailed("API Error: " + IntToString(status) + ". Video may not have captions.", Some(url))
          else if body.None? then ExtractFailed(ReplyNotJson, Some(url))
          else ReplyResult(url, id, body.value, show)
  }

  /** The `elif` arms over the transcript item, rebinding `content` as the
      source does; an exception raised while joining the fragments is the
      `Raised` outcome. */
  method DecodeTranscriptItem(item: Json) returns (r: Outcome<Json>)
    ensures r == DecodeItem(item)
  {
    DecodeItemIsElifChain(item);
    var content: Json := Null;
    if item.Obj? && "text" in item.fields {
      content := item.fields["text"];
    } else if item.Obj? && "tracks" in item.fields {
      var tracks := item.fields["tracks"];
      if tracks.List? && |tracks.items| > 0 {
        var track := tracks.items[0];
        if track.Obj? && "transcript" in track.fields {
          var joined := FragmentsText(track.fields["transcript"]);
          if joined.Raised? {
            return Raised(joined.error);
          }
          content := Str(joined.value);
        }
      }
    } else if item.Str? {
      content := item;
    } else if item.Obj? && "content" in item.fields {
      content := item.fields["content"];
    }
    r := Returned(content);
  }

  /** `get_youtube_transcript` step by step: the early returns, then the
      decoded content is stripped and checked. */
  method GetYoutubeTranscript(url: string, apiKey: Option<string>, api: string -> TranscriptCall, show: Json -> string)
    returns (r: Extraction)
    ensures r == TranscriptResult(url, apiKey, api, show)
  {
    var videoId := ExtractYoutubeId(url);
    if videoId.None? {
      return ExtractFailed(InvalidVideoUrl, Some(url));
    }
    var id := videoId.value;
    if apiKey.None? || apiKey.value == "" {
      return ExtractFailed(ApiKeyMissing, Some(url));
    }
    var call := api(id);
    if call.CallTimedOut? {
      return ExtractFailed(TranscriptTimeout, Some(url));
    }
    if call.CallRaised? {
      return ExtractFailed(FailureMessage(call.error), Some(url));
    }
    if call.status != 200 {
      return ExtractFailed("API Error: " + IntToString(call.status) + ". Video may not have captions.", Some(url));
    }
    if call.body.None? {
      return ExtractFailed(ReplyNotJson, Some(url));
    }
    r := HandleReply(url, id, call.body.value, show);
  }

  /** The handling of a status-200 JSON reply. */
  method HandleReply(url: string, id: string, data: Json, show: Json -> string) returns (r: Extraction)
    ensures r == ReplyResult(url, id, data, show)
  {
    if !Truthy(data) || !data.List? || |data.items| == 0 {
      return ExtractFailed(NoTranscriptFound, Some(url));
    }
    var decoded := DecodeTranscriptItem(data.items[0]);
    r := HandleDecoded(url, id, decoded, show);
  }

  /** The checks on the decoded content: truthiness, then the stripped length. */
  method HandleDecoded(url: string, id: string, decoded: Outcome<Json>, show: Json -> string) returns (r: Extraction)
    ensures r == DecodedResult(url, id, decoded, show)
  {
    if decoded.Raised? {
      return ExtractFailed(FailureMessage(decoded.error), Some(url));
    }
    var content := decoded.value;
    if !Truthy(content) {
      return ExtractFailed(TranscriptUnparsed, Some(url));
    }
    var text := if content.Str? then content.s else ContentText(content, show);
    assert text == ContentText(content, show);
    text := Strip(text);
    ghost var expected := DecodedResult(url, id, decoded, show);
    if text == [] || |text| < MinTranscriptLength {
      assert expected == ExtractFailed(TranscriptTooShort, Some(url));
      return ExtractFailed(TranscriptTooShort, Some(url));
    }
    assert expected == Extracted(Some(VideoTitle(id)), text, Video, url);
    r := Extracted(Some(VideoTitle(id)), text, Video, url);
  }

  /** Once the id and the key are there, what the service did decides: a
      timeout, a raised exception, a status other than 200, a body that is
      not JSON, or a reply that is decoded. */
  lemma ServiceOutcomes(url: string, apiKey: Option<string>, api: string -> TranscriptCall, show: Json -> string)
    requires ExtractYoutubeId(url).Some? && KeyConfigured(apiKey)
    ensures var id := ExtractYoutubeId(url).value;
      var r := TranscriptResult(url, apiKey, api, show);
      && (api(id).CallTimedOut? ==> r == ExtractFailed(TranscriptTimeout, Some(url)))
      && (api(id).CallRaised? ==> r == ExtractFailed(FailureMessage(api(id).error), Some(url)))
      && (api(id).Replied? && api(id).status != 200 ==>
            r == ExtractFailed("API Error: " + IntToString(api(id).status) + ". Video may not have captions.", Some(url)))
      && (api(id).Replied? && api(id).status == 200 && api(id).body.None? ==> r == ExtractFailed(ReplyNotJson, Some(url)))
      && (ServiceAnswered(api(id)) ==> r == ReplyResult(url, id, api(id).body.value, show))
  {
  }

  /** A URL with no video id fails before the service is called: the result
      is the same whatever the service would have done. */
  lemma NoIdNoCall(url: string, apiKey: Option<string>, api: string -> TranscriptCall, show: Json -> string)
    requires ExtractYoutubeId(url).None?
    ensures TranscriptResult(url, apiKey, api, show) == ExtractFailed(InvalidVideoUrl, Some(url))
  {
  }

  /** Without a configured key the service is not called either. */
  lemma NoKeyNoCall(url: string, api: string -> TranscriptCall, show: Json -> string)
    requires ExtractYoutubeId(url).Some?
    ensures TranscriptResult(url, None, api, show) == ExtractFailed(ApiKeyMissing, Some(url))
    ensures TranscriptResult(url, Some(""), api, show) == ExtractFailed(ApiKeyMissing, Some(url))
  {
  }

  /** A reply that is not a non-empty list has no transcript in it. */
  lemma EmptyReplyHasNoTranscript(url: string, id: string, data: Json, show: Json -> string)
    requires !data.List? || data.items == []
    ensures ReplyResult(url, id, data, show) == ExtractFailed(NoTranscriptFound, Some(url))
  {
  }

  /** A top-level `text` field wins over every other field. */
  lemma TextFieldFirst(m: map<string, Json>)
    requires "text" in m
    ensures DecodeItem(Obj(m)) == Returned(m["text"])
  {
    DecodeItemIsElifChain(Obj(m));
  }

  /** Without `text`, a `tracks` field decides the content, well-formed or
      not: a `content` field beside it is never consulted. */
  lemma TracksNeverFallThrough(m: map<string, Json>)
    requires "text" !in m && "tracks" in m
    ensures DecodeItem(Obj(m)) == FirstTrackText(m["tracks"])
  {
    DecodeItemIsElifChain(Obj(m));
  }

  /** So a malformed `tracks` makes the transcript unparsable even when a
      long `content` is present. */
  lemma MalformedTracksIgnoreContent(url: string, id: string, m: map<string, Json>, show: Json -> string)
    requires "text" !in m && "tracks" in m && !m["tracks"].List?
    ensures ReplyResult(url, id, List([Obj(m)]), show) == ExtractFailed(TranscriptUnparsed, Some(url))
  {
    TracksNeverFallThrough(m);
  }

  /** A bare string is the transcript itself. */
  lemma BareStringTaken(s: string)
    ensures DecodeItem(Str(s)) == Returned(Str(s))
  {
    DecodeItemIsElifChain(Str(s));
  }

  /** A `content` field is used only when there is neither `text` nor `tracks`. */
  lemma ContentFieldLast(m: map<string, Json>)
    requires "text" !in m && "tracks" !in m
    ensures DecodeItem(Obj(m)) == (if "content" in m then Returned(m["content"]) else Returned(Null))
  {
    DecodeItemIsElifChain(Obj(m));
  }

  /** Any other item carries no content. */
  lemma OtherItemsEmpty(item: Json)
    requires !item.Obj? && !item.Str?
    ensures DecodeItem(item) == Returned(Null)
  {
    DecodeItemIsElifChain(item);
  }

  /** Dictionary fragments whose `text` (`""` when missing) is `texts[i]`. */
  predicate FragmentsSpell(frags: seq<Json>, texts: seq<string>) {
    |frags| == |texts| &&
    forall i :: 0 <= i < |frags| ==> frags[i].Obj? && Get(frags[i].fields, "text", Str("")) == Str(texts[i])
  }

  lemma {:induction false} FragmentTextsOfDicts(frags: seq<Json>, texts: seq<string>)
    requires FragmentsSpell(frags, texts)
    ensures FragmentTexts(frags) == seq(|texts|, i requires 0 <= i < |texts| => Str(texts[i]))
  {
    if frags != [] {
      assert FragmentsSpell(frags[1..], texts[1..]) by {
        assert forall i :: 0 <= i < |frags| - 1 ==> frags[1..][i] == frags[i + 1] && texts[1..][i] == texts[i + 1];
      }
      FragmentTextsOfDicts(frags[1..], texts[1..]);
    }
  }

  /** The transcript of dictionary fragments is their texts joined by spaces. */
  lemma TranscriptJoinsFragments(frags: seq<Json>, texts: seq<string>)
    requires FragmentsSpell(frags, texts)
    ensures FragmentsText(List(frags)) == Returned(Join(" ", texts))
  {
    FragmentTextsOfDicts(frags, texts);
    var vals := FragmentTexts(frags);
    assert seq(|vals|, i requires 0 <= i < |vals| => vals[i].s) == texts;
  }

  /** Strings are joined with single spaces. */
  lemma JoinOfStrings(texts: seq<string>)
    ensures JoinValues(seq(|texts|, i requires 0 <= i < |texts| => Str(texts[i]))) == Returned(Join(" ", texts))
  {
    var vals := seq(|texts|, i requires 0 <= i < |texts| => Str(texts[i]));
    assert seq(|vals|, i requires 0 <= i < |vals| => vals[i].s) == texts;
  }

  /** The `TypeError` of the join names the index and the type of the first
      value that is not a string. */
  lemma JoinNamesFirstNonString(vals: seq<Json>, i: nat)
    requires i < |vals| && !vals[i].Str? && forall j :: 0 <= j < i ==> vals[j].Str?
    ensures JoinValues(vals) ==
      Raised("sequence item " + IntToString(i) + ": expected str instance, " + TypeName(vals[i]) + " found")
  {
    var r := FirstNonString(vals);
    assert r.Some?;
    assert !(r.value < i) && !(r.value > i);
  }

  /** Fragments that are not dictionaries are skipped. */
  lemma {:induction false} NonDictFragmentsSkipped(frags: seq<Json>, other: Json)
    requires !other.Obj?
    ensures FragmentTexts([other] + frags) == FragmentTexts(frags)
    ensures FragmentTexts(frags + [other]) == FragmentTexts(frags)
  {
    assert ([other] + frags)[1..] == frags;
    if frags != [] {
      assert (frags + [other])[1..] == frags[1..] + [other];
      NonDictFragmentsSkipped(frags[1..], other);
    } else {
      assert frags + [other] == [other];
      assert [other][1..] == [];
    }
  }

  // ---------------------------------------------------------------------
  // The transcript item as written: a log line reads `.keys()` first
  // ---------------------------------------------------------------------

  /** The `AttributeError` text of calling `.keys()` on a string. */
  const StrKeysError: string := "'str" + KeysSuffix

  const KeysSuffix: string := "' object has no attribute 'keys'"

  /** The `AttributeError` text of calling `.keys()` on a value that is not a dictionary. */
  function KeysError(item: Json): string {
    "'" + TypeName(item) + KeysSuffix
  }

  /** The reply decoding as written: the log line before the `elif` arms
      calls `transcript_item.keys()`, which raises for any item that is not
      a dictionary, so the bare-string arm is never reached. */
  function ReplyResultAsWritten(url: string, id: string, data: Json, show: Json -> string): (r: Extraction)
    ensures UrlOf(r) == Some(url)
    ensures r.Extracted? ==> data.List? && |data.items| > 0 && data.items[0].Obj?
    ensures !(data.List? && |data.items| > 0) ==> r == ExtractFailed(NoTranscriptFound, Some(url))
    ensures data.List? && |data.items| > 0 && !data.items[0].Obj? ==>
      r == ExtractFailed(FailureMessage(KeysError(data.items[0])), Some(url))
    ensures data.List? && |data.items| > 0 && data.items[0].Obj? ==> r == ReplyResult(url, id, data, show)
  {
    if !(data.List? && |data.items| > 0) then ExtractFailed(NoTranscriptFound, Some(url))
    else if !data.items[0].Obj? then ExtractFailed(FailureMessage(KeysError(data.items[0])), Some(url))
    else ReplyResult(url, id, data, show)
  }

  /** A reply holding the transcript as a bare string loses it as written,
      and yields it once the log line is guarded. */
  lemma BareStringTranscriptLost(url: string, id: string, s: string, show: Json -> string)
    requires |Strip(s)| >= MinTranscriptLength
    ensures ReplyResultAsWritten(url, id, List([Str(s)]), show)
         == ExtractFailed("Failed: " + StrKeysError, Some(url))
    ensures ReplyResult(url, id, List([Str(s)]), show)
         == Extracted(Some(VideoTitle(id)), Strip(s), Video, url)
  {
    StringKeysErrorQuoted(s);
    BareStringReply(url, id, s, show);
  }

  /** The `AttributeError` of a string item is quoted whole. */
  lemma StringKeysErrorQuoted(s: string)
    ensures FailureMessage(KeysError(Str(s))) == "Failed: " + StrKeysError
  {
    KeysErrorOfString(s);
    KeysErrorQuoted(KeysError(Str(s)));
  }

  lemma KeysErrorOfString(s: string)
    ensures KeysError(Str(s)) == StrKeysError
  {
    assert "'" + TypeName(Str(s)) == "'str";
  }

  lemma KeysErrorQuoted(e: string)
    requires e == StrKeysError
    ensures FailureMessage(e) == "Failed: " + e
  {
    KeysErrorLowered(e);
    KeysErrorHasNo(e, "disabled", 0);
    KeysErrorHasNo(e, "not found", 4);
    KeysErrorHasNo(e, "no transcript", 11);
  }

  lemma KeysErrorLowered(e: string)
    requires e == StrKeysError
    ensures Lower(e) == e
  {
    LowerOfNoUpper(e);
  }

  lemma KeysErrorHasNo(e: string, p: string, m: nat)
    requires e == StrKeysError
    requires m < |p| && (p[m] == 'd' || p[m] == 'f' || p[m] == 'p')
    ensures !Contains(e, p)
  {
    MissingCharExcludes(e, p, m);
  }

  /** With the log line guarded, a long bare-string item is the transcript. */
  lemma BareStringReply(url: string, id: string, s: string, show: Json -> string)
    requires |Strip(s)| >= MinTranscriptLength
    ensures ReplyResult(url, id, List([Str(s)]), show)
         == Extracted(Some(VideoTitle(id)), Strip(s), Video, url)
  {
    BareStringTaken(s);
    assert Truthy(Str(s));
  }

  // ---------------------------------------------------------------------
  // The article path
  // ---------------------------------------------------------------------

  /** The `<title>` of the page: absent, or present with its `.string`
      (`None` when the tag has no single text child). */
  datatype TitleTag = NoTitleTag | TitleTag(text: Option<string>)

  /** What fetching the page did: timed out, could not connect, raised
      another exception with the given text, or gave the page's visible text
      (as the HTML parser extracts it, scripts and styles removed) and title. */
  datatype PageFetch =
    | FetchTimedOut
    | FetchConnectionError
    | FetchRaised(error: string)
    | Fetched(visibleText: string, title: TitleTag)

  function PageTitle(t: TitleTag): Option<string> {
    match t
    case NoTitleTag => Some("No title")
    case TitleTag(s) => s
  }

  /** `scrape_article`: the visible text is collapsed to single spaces and
      must keep at least 100 characters. */
  function ScrapeArticle(url: string, page: PageFetch): (r: Extraction)
    ensures UrlOf(r) == Some(url)
    ensures r.Extracted? <==> page.Fetched? && |Collapse(page.visibleText)| >= MinArticleLength
    ensures r.Extracted? ==>
      r == Extracted(PageTitle(page.title), Collapse(page.visibleText), Article, url)
      && Collapsed(r.content) && Words(r.content) == Words(page.visibleText)
    ensures page.Fetched? && |Collapse(page.visibleText)| < MinArticleLength ==>
      r == ExtractFailed(ArticleTooShort, Some(url))
    ensures page.FetchTimedOut? ==> r == ExtractFailed(ArticleTimeout, Some(url))
    ensures page.FetchConnectionError? ==> r == ExtractFailed(ArticleUnreachable, Some(url))
    ensures page.FetchRaised? ==>
      r == ExtractFailed("Failed to scrape article: " + Prefix(page.error, ErrorQuoteLength), Some(url))
  {
    match page
    case FetchTimedOut => ExtractFailed(ArticleTimeout, Some(url))
    case FetchConnectionError => ExtractFailed(ArticleUnreachable, Some(url))
    case FetchRaised(e) => ExtractFailed("Failed to scrape article: " + Prefix(e, ErrorQuoteLength), Some(url))
    case Fetched(visible, title) =>
      var text := Collapse(visible);
      CollapseProperties(visible);
      if |text| < MinArticleLength then ExtractFailed(ArticleTooShort, Some(url))
      else Extracted(PageTitle(title), text, Article, url)
  }

  /** A page's title falls back to "No title" only when it has no title tag. */
  lemma MissingTitleFallsBack(url: string, visible: string)
    requires |Collapse(visible)| >= MinArticleLength
    ensures ScrapeArticle(url, Fetched(visible, NoTitleTag)).title == Some("No title")
    ensures ScrapeArticle(url, Fetched(visible, TitleTag(None))).title == None
  {
  }

  /** The collapse decides the length check: whitespace padding never turns a
      short article into an accepted one. */
  lemma PaddingDoesNotCount(url: string, visible: string, title: TitleTag)
    requires |Words(visible)| == 0
    ensures ScrapeArticle(url, Fetched(visible, title)) == ExtractFailed(ArticleTooShort, Some(url))
  {
  }

  /** Only the words of the page count: two pages whose visible texts split
      into the same words give the same result, whatever their whitespace. */
  lemma OnlyWordsCount(url: string, v1: string, v2: string, title: TitleTag)
    requires Words(v1) == Words(v2)
    ensures ScrapeArticle(url, Fetched(v1, title)) == ScrapeArticle(url, Fetched(v2, title))
  {
    assert Collapse(v1) == Collapse(v2);
  }

  // ---------------------------------------------------------------------
  // `extract_content`
  // ---------------------------------------------------------------------

  /** The outside world the extraction talks to: the configured service
      key, what the transcript service does for a video id, what fetching a
      page gives, and `str()` of lists and dictionaries. */
  datatype Network = Network(
    apiKey: Option<string>,
    transcriptFor: string -> TranscriptCall,
    pageAt: string -> PageFetch,
    show: Json -> string)

  /** `extract_content`: invalid input fails with no URL; otherwise the
      stripped URL is routed by the YouTube host pattern. */
  function ExtractContent(url: Json, net: Network): (r: Extraction)
    ensures !(url.Str? && url.s != []) ==> r == ExtractFailed(InvalidUrl, None)
    ensures url.Str? && url.s != [] ==> UrlOf(r) == Some(Strip(url.s))
    ensures r.Extracted? ==> (r.kind == Video <==> IsYoutubeUrl(r.url))
    ensures r.Extracted? && r.kind == Video ==> |r.content| >= MinTranscriptLength && Strip(r.content) == r.content
    ensures r.Extracted? && r.kind == Article ==> |r.content| >= MinArticleLength && Collapsed(r.content)
  {
    if !url.Str? || url.s == [] then ExtractFailed(InvalidUrl, None)
    else
      var u := Strip(url.s);
      if IsYoutubeUrl(u) then TranscriptResult(u, net.apiKey, net.transcriptFor, net.show)
      else ScrapeArticle(u, net.pageAt(u))
  }

  /** A YouTube link goes to the transcript path, anything else to the article path. */
  lemma Routing(s: string, net: Network)
    requires s != []
    ensures IsYoutubeUrl(Strip(s)) ==>
      ExtractContent(Str(s), net) == TranscriptResult(Strip(s), net.apiKey, net.transcriptFor, net.show)
    ensures !IsYoutubeUrl(Strip(s)) ==>
      ExtractContent(Str(s), net) == ScrapeArticle(Strip(s), net.pageAt(Strip(s)))
  {
  }

  /** Surrounding whitespace of the URL makes no difference. */
  lemma StripBeforeRouting(s: string, net: Network)
    requires Strip(s) != []
    ensures ExtractContent(Str(s), net) == ExtractContent(Str(Strip(s)), net)
  {
    StripIdempotent(s);
  }
}
