/** Recognising YouTube links and pulling the video id out of them: the two
    regular expressions of the scraper, written as the matches they accept. */
module YouTube {
  import opened Text

  // ---------------------------------------------------------------------
  // `is_youtube_url`: re.match(r'(https?://)?(www\.)?(youtube|youtu|youtube-nocookie)\.(com|be)/', url)
  // ---------------------------------------------------------------------

  const Schemes: seq<string> := ["", "http://", "https://"]
  const Subdomains: seq<string> := ["", "www."]
  const Hosts: seq<string> := ["youtube", "youtu", "youtube-nocookie"]
  const Domains: seq<string> := ["com", "be"]

  /** The pattern as a sequence of groups, each a choice between literals
      (an optional group offers the empty literal; `https?://` is the choice
      between its two spellings). */
  const HostPattern: seq<seq<string>> := [Schemes, Subdomains, Hosts, ["."], Domains, ["/"]]

  /** Whether the groups `g` can be matched one after the other starting at
      index `k` of `url`, with backtracking over the choices of every group. */
  predicate MatchGroups(url: string, k: nat, g: seq<seq<string>>)
    decreases |g|
  {
    g == [] ||
    exists i :: 0 <= i < |g[0]| && OccursAt(url, g[0][i], k)
      && MatchGroups(url, k + |g[0][i]|, g[1..])
  }

  /** `is_youtube_url`: `re.match` anchors the pattern at the start of the URL. */
  predicate IsYoutubeUrl(url: string) {
    MatchGroups(url, 0, HostPattern)
  }

  /** The prefix the pattern accepts, for one choice in every group. */
  function HostPrefix(a: nat, b: nat, c: nat, d: nat): string
    requires a < 3 && b < 2 && c < 3 && d < 2
  {
    Schemes[a] + (Subdomains[b] + (Hosts[c] + ("." + (Domains[d] + "/"))))
  }

  predicate HasYoutubePrefix(url: string) {
    exists a: nat, b: nat, c: nat, d: nat :: a < 3 && b < 2 && c < 3 && d < 2 && StartsWith(url, HostPrefix(a, b, c, d))
  }

  /** One choice of literal in every group. */
  predicate ValidChoice(g: seq<seq<string>>, idx: seq<nat>) {
    |idx| == |g| && forall i :: 0 <= i < |g| ==> idx[i] < |g[i]|
  }

  /** The text spelled by one choice in every group. */
  function Spelled(g: seq<seq<string>>, idx: seq<nat>): string
    requires ValidChoice(g, idx)
    decreases |g|
  {
    if g == [] then ""
    else
      assert forall i :: 0 <= i < |g| - 1 ==> idx[1..][i] == idx[i + 1] && g[1..][i] == g[i + 1];
      g[0][idx[0]] + Spelled(g[1..], idx[1..])
  }

  /** Two occurrences side by side are an occurrence of the two texts joined. */
  lemma OccursConcat(s: string, x: string, y: string, k: nat)
    ensures OccursAt(s, x + y, k) <==> OccursAt(s, x, k) && OccursAt(s, y, k + |x|)
  {
    if OccursAt(s, x + y, k) {
      assert s[k..k + |x|] == (x + y)[..|x|];
      assert s[k + |x|..k + |x| + |y|] == (x + y)[|x|..];
    }
    if OccursAt(s, x, k) && OccursAt(s, y, k + |x|) {
      assert s[k..k + |x + y|] == s[k..k + |x|] + s[k + |x|..k + |x| + |y|];
    }
  }

  /** A match of the groups spells one choice in every group. */
  lemma {:induction false} MatchSpells(url: string, k: nat, g: seq<seq<string>>) returns (idx: seq<nat>)
    requires k <= |url| && MatchGroups(url, k, g)
    ensures ValidChoice(g, idx) && OccursAt(url, Spelled(g, idx), k)
    decreases |g|
  {
    if g == [] {
      idx := [];
      assert url[k..k] == "";
    } else {
      var i :| 0 <= i < |g[0]| && OccursAt(url, g[0][i], k) && MatchGroups(url, k + |g[0][i]|, g[1..]);
      var rest := MatchSpells(url, k + |g[0][i]|, g[1..]);
      idx := [i] + rest;
      assert idx[1..] == rest;
      assert forall j :: 1 <= j < |g| ==> idx[j] == rest[j - 1] && g[j] == g[1..][j - 1];
      OccursConcat(url, g[0][i], Spelled(g[1..], rest), k);
    }
  }

  /** Every spelling of the groups found in the text is a match. */
  lemma {:induction false} SpellingMatches(url: string, k: nat, g: seq<seq<string>>, idx: seq<nat>)
    requires ValidChoice(g, idx) && OccursAt(url, Spelled(g, idx), k)
    ensures MatchGroups(url, k, g)
    decreases |g|
  {
    if g != [] {
      var i := idx[0];
      OccursConcat(url, g[0][i], Spelled(g[1..], idx[1..]), k);
      assert forall j :: 0 <= j < |g| - 1 ==> idx[1..][j] == idx[j + 1] && g[1..][j] == g[j + 1];
      SpellingMatches(url, k + |g[0][i]|, g[1..], idx[1..]);
    }
  }

  /** Unfolding one group of a spelling at position `k`. */
  lemma SpelledStep(g: seq<seq<string>>, idx: seq<nat>, k: nat)
    requires ValidChoice(g, idx) && k < |g|
    ensures ValidChoice(g[k..], idx[k..]) && ValidChoice(g[k + 1..], idx[k + 1..])
    ensures Spelled(g[k..], idx[k..]) == g[k][idx[k]] + Spelled(g[k + 1..], idx[k + 1..])
  {
    assert forall i :: 0 <= i < |g| - k ==> g[k..][i] == g[k + i] && idx[k..][i] == idx[k + i];
    assert g[k..][1..] == g[k + 1..];
    assert idx[k..][1..] == idx[k + 1..];
  }

  /** A spelling of six groups, written out. */
  lemma SpelledSix(g: seq<seq<string>>, idx: seq<nat>)
    requires |g| == 6 && ValidChoice(g, idx)
    ensures Spelled(g, idx) ==
      g[0][idx[0]] + (g[1][idx[1]] + (g[2][idx[2]] + (g[3][idx[3]] + (g[4][idx[4]] + g[5][idx[5]]))))
  {
    SpelledStep(g, idx, 5);
    assert g[6..] == [];
    assert Spelled(g[5..], idx[5..]) == g[5][idx[5]] + "";
    SpelledStep(g, idx, 4);
    SpelledStep(g, idx, 3);
    SpelledStep(g, idx, 2);
    SpelledStep(g, idx, 1);
    SpelledStep(g, idx, 0);
    assert g[0..] == g && idx[0..] == idx;
  }

  /** A choice in the host pattern spells a host prefix. */
  lemma SpelledHost(idx: seq<nat>)
    requires ValidChoice(HostPattern, idx)
    ensures Spelled(HostPattern, idx) == HostPrefix(idx[0], idx[1], idx[2], idx[4])
  {
    var g := HostPattern;
    SpelledSix(g, idx);
    assert g[0] == Schemes && g[1] == Subdomains && g[2] == Hosts && g[3] == ["."] && g[4] == Domains && g[5] == ["/"];
    assert g[3][idx[3]] == "." && g[5][idx[5]] == "/";
  }

  /** The URL is a YouTube link exactly when it starts with an optional
      `http://` or `https://`, an optional `www.`, one of the three host
      names, a dot, `com` or `be`, and a slash. */
  lemma IsYoutubeUrlIff(url: string)
    ensures IsYoutubeUrl(url) <==> HasYoutubePrefix(url)
  {
    if IsYoutubeUrl(url) {
      var idx := MatchSpells(url, 0, HostPattern);
      SpelledHost(idx);
      assert StartsWith(url, HostPrefix(idx[0], idx[1], idx[2], idx[4]));
    }
    if HasYoutubePrefix(url) {
      var a: nat, b: nat, c: nat, d: nat :| a < 3 && b < 2 && c < 3 && d < 2 && StartsWith(url, HostPrefix(a, b, c, d));
      var idx: seq<nat> := [a, b, c, 0, d, 0];
      assert ValidChoice(HostPattern, idx);
      SpelledHost(idx);
      SpellingMatches(url, 0, HostPattern, idx);
    }
  }

  /** The match is anchored: a URL that starts with anything but `h`, `w`
      or `y` is never a YouTube link, whatever follows, so
      `example.com/?youtube.com/` is routed as an article. */
  lemma AnchoredAtStart(url: string)
    requires url != [] && url[0] != 'h' && url[0] != 'w' && url[0] != 'y'
    ensures !IsYoutubeUrl(url)
  {
    IsYoutubeUrlIff(url);
    forall a: nat, b: nat, c: nat, d: nat | a < 3 && b < 2 && c < 3 && d < 2
      ensures !StartsWith(url, HostPrefix(a, b, c, d))
    {
      var p := HostPrefix(a, b, c, d);
      assert p[0] == 'h' || p[0] == 'w' || p[0] == 'y';
    }
  }

  lemma ExampleQueryNotVideo(url: string)
    requires url == "example.com/?youtube.com/"
    ensures !IsYoutubeUrl(url)
  {
    AnchoredAtStart(url);
  }

  // ---------------------------------------------------------------------
  // `extract_youtube_id`: four patterns, searched in order, first capture wins
  // ---------------------------------------------------------------------

  /** One of the id patterns. `AfterLead(leads, stop)` is
      `(?:lead1|lead2|...)([^stop]+)`; `WatchQueryV` is
      `(?:youtube\.com\/watch\?.*v=)([^&\n?#]+)`. */
  datatype IdPattern = AfterLead(leads: seq<string>, stop: set<char>) | WatchQueryV

  /** `[^&\n?#]`: the characters the first two patterns stop the id at. */
  const QueryStops: set<char> := {'&', '\n', '?', '#'}
  /** `[^?&]`: the characters the last two patterns stop the id at. */
  const ParamStops: set<char> := {'?', '&'}

  const WatchLead: string := "youtube.com/watch?"

  const IdPatterns: seq<IdPattern> := [
    AfterLead(["youtube.com/watch?v=", "youtu.be/", "youtube.com/embed/"], QueryStops),
    WatchQueryV,
    AfterLead(["youtu.be/"], ParamStops),
    AfterLead(["youtube.com/embed/"], ParamStops)
  ]

  /** Every pattern's stop set includes `?` and `&`. */
  predicate StopsQuery(stop: set<char>) {
    '?' in stop && '&' in stop
  }

  /** What every capture is: a non-empty piece of the URL free of `?` and `&`. */
  predicate IsCapture(url: string, c: string) {
    c != [] && Contains(url, c) && forall i :: 0 <= i < |c| ==> c[i] != '?' && c[i] != '&'
  }

  /** The end of the longest run of characters outside `stop` that starts at `i`. */
  function RunEnd(s: string, i: nat, stop: set<char>): (j: nat)
    requires i <= |s|
    ensures i <= j <= |s| && (forall k :: i <= k < j ==> s[k] !in stop) && (j == |s| || s[j] in stop)
    decreases |s| - i
  {
    if i == |s| || s[i] in stop then i else RunEnd(s, i + 1, stop)
  }

  /** `([^stop]+)` at index `k`: greedy, and it needs one character at least. */
  function CaptureAt(url: string, k: nat, stop: set<char>): (r: Option<string>)
    requires StopsQuery(stop)
    ensures r.Some? ==> IsCapture(url, r.value)
    ensures r.None? <==> k >= |url| || url[k] in stop
    ensures r.Some? ==>
      OccursAt(url, r.value, k) && (forall i :: 0 <= i < |r.value| ==> r.value[i] !in stop)
      && (k + |r.value| == |url| || url[k + |r.value|] in stop)
  {
    if k < |url| && url[k] !in stop then
      var j := RunEnd(url, k, stop);
      assert OccursAt(url, url[k..j], k);
      Some(url[k..j])
    else None
  }

  /** An alternation of leads at index `k`, in order, each followed by the capture. */
  function LeadsAt(url: string, k: nat, leads: seq<string>, stop: set<char>): (r: Option<string>)
    requires StopsQuery(stop)
    ensures r.Some? ==> IsCapture(url, r.value)
  {
    if leads == [] then None
    else if LeadMatches(url, k, leads[0], stop) then
      CaptureAt(url, k + |leads[0]|, stop)
    else LeadsAt(url, k, leads[1..], stop)
  }

  /** One alternative of the alternation: the lead at `k`, then at least one captured character. */
  predicate LeadMatches(url: string, k: nat, lead: string, stop: set<char>)
    requires StopsQuery(stop)
  {
    OccursAt(url, lead, k) && CaptureAt(url, k + |lead|, stop).Some?
  }

  /** `.*v=` followed by the capture, after the watch lead ends at `b`: the
      greedy `.*` gives back characters from the right until a `v=` with an
      id after it is found, so the last such `v=` at or before `j` wins. */
  function LastV(url: string, b: nat, j: nat): (r: Option<string>)
    requires b <= j <= |url|
    ensures r.Some? ==> IsCapture(url, r.value)
    decreases j - b
  {
    if LeadMatches(url, j, "v=", QueryStops) then CaptureAt(url, j + 2, QueryStops)
    else if j == b then None
    else LastV(url, b, j - 1)
  }

  /** A pattern matched at index `k`, giving its capture. */
  function MatchAt(p: IdPattern, url: string, k: nat): (r: Option<string>)
    requires p.AfterLead? ==> StopsQuery(p.stop)
    ensures r.Some? ==> IsCapture(url, r.value)
  {
    match p
    case AfterLead(leads, stop) => LeadsAt(url, k, leads, stop)
    case WatchQueryV =>
      if OccursAt(url, WatchLead, k) then
        var b := k + |WatchLead|;
        // `.` does not match a newline
        LastV(url, b, RunEnd(url, b, {'\n'}))
      else None
  }

  /** `re.search`: the leftmost index at or after `k` where the pattern matches. */
  function SearchFrom(p: IdPattern, url: string, k: nat): (r: Option<string>)
    requires p.AfterLead? ==> StopsQuery(p.stop)
    requires k <= |url|
    ensures r.Some? ==> IsCapture(url, r.value)
    decreases |url| - k
  {
    var m := MatchAt(p, url, k);
    if m.Some? then m
    else if k == |url| then None
    else SearchFrom(p, url, k + 1)
  }

  predicate WellFormedPatterns(ps: seq<IdPattern>) {
    forall i :: 0 <= i < |ps| && ps[i].AfterLead? ==> StopsQuery(ps[i].stop)
  }

  /** The loop over the patterns: the first one that matches gives the id. */
  function FirstCapture(url: string, ps: seq<IdPattern>): (r: Option<string>)
    requires WellFormedPatterns(ps)
    ensures r.Some? ==> IsCapture(url, r.value)
    ensures r.None? <==> forall i :: 0 <= i < |ps| ==> SearchFrom(ps[i], url, 0).None?
  {
    if ps == [] then None
    else
      var m := SearchFrom(ps[0], url, 0);
      if m.Some? then m
      else
        assert forall i :: 1 <= i < |ps| ==> ps[i] == ps[1..][i - 1];
        FirstCapture(url, ps[1..])
  }

  /** `extract_youtube_id`: `None` when no pattern matches; otherwise the
      capture, a non-empty piece of the URL without `?` or `&`. */
  function ExtractYoutubeId(url: string): (r: Option<string>)
    ensures r.Some? ==> IsCapture(url, r.value)
    ensures r.None? <==> forall i :: 0 <= i < |IdPatterns| ==> SearchFrom(IdPatterns[i], url, 0).None?
  {
    FirstCapture(url, IdPatterns)
  }

  // ---------------------------------------------------------------------
  // The id of the three canonical link forms
  // ---------------------------------------------------------------------

  /** An id the first pattern takes whole: non-empty, none of `&`, newline, `?`, `#`. */
  predicate PlainId(x: string) {
    x != [] && forall i :: 0 <= i < |x| ==> x[i] !in QueryStops
  }

  /** Text in front of the link that cannot start a lead (all leads start with `y`). */
  predicate NoLeadStart(pre: string) {
    forall i :: 0 <= i < |pre| ==> pre[i] != 'y'
  }

  /** A search that finds nothing at the indexes it skips ends where it would from the last one. */
  lemma {:induction false} SearchSkips(p: IdPattern, url: string, k: nat, j: nat)
    requires p.AfterLead? ==> StopsQuery(p.stop)
    requires k <= j <= |url|
    requires forall m :: k <= m < j ==> MatchAt(p, url, m).None?
    ensures SearchFrom(p, url, k) == SearchFrom(p, url, j)
    decreases j - k
  {
    if k < j {
      SearchSkips(p, url, k + 1, j);
    }
  }

  /** The alternative the alternation settles on: the `i`-th lead matches
      with a capture after it, and no earlier lead does. */
  predicate FirstLead(url: string, k: nat, leads: seq<string>, stop: set<char>, i: nat)
    requires StopsQuery(stop)
  {
    i < |leads| && LeadMatches(url, k, leads[i], stop)
    && forall j :: 0 <= j < i ==> !LeadMatches(url, k, leads[j], stop)
  }

  lemma FirstLeadShifts(url: string, k: nat, leads: seq<string>, stop: set<char>, i: nat)
    requires StopsQuery(stop) && leads != [] && !LeadMatches(url, k, leads[0], stop)
    requires FirstLead(url, k, leads[1..], stop, i)
    ensures FirstLead(url, k, leads, stop, i + 1) && leads[i + 1] == leads[1..][i]
  {
    assert forall j :: 1 <= j < |leads| ==> leads[1..][j - 1] == leads[j];
  }

  /** The alternation tries its leads in order: the capture is the one after
      the first lead that matches. */
  lemma {:induction false} LeadsAtFirstLead(url: string, k: nat, leads: seq<string>, stop: set<char>)
    requires StopsQuery(stop)
    ensures LeadsAt(url, k, leads, stop).Some? ==>
      exists i: nat :: FirstLead(url, k, leads, stop, i) && LeadsAt(url, k, leads, stop) == CaptureAt(url, k + |leads[i]|, stop)
  {
    if leads != [] {
      if LeadMatches(url, k, leads[0], stop) {
        assert FirstLead(url, k, leads, stop, 0);
      } else {
        LeadsAtFirstLead(url, k, leads[1..], stop);
        if LeadsAt(url, k, leads[1..], stop).Some? {
          var i: nat :| FirstLead(url, k, leads[1..], stop, i)
            && LeadsAt(url, k, leads[1..], stop) == CaptureAt(url, k + |leads[1..][i]|, stop);
          FirstLeadShifts(url, k, leads, stop, i);
        }
      }
    }
  }

  /** The alternation fails only when none of its leads matches. */
  lemma {:induction false} LeadsAtNone(url: string, k: nat, leads: seq<string>, stop: set<char>)
    requires StopsQuery(stop)
    ensures LeadsAt(url, k, leads, stop).None? <==> forall i :: 0 <= i < |leads| ==> !LeadMatches(url, k, leads[i], stop)
  {
    if leads != [] && !LeadMatches(url, k, leads[0], stop) {
      LeadsAtNone(url, k, leads[1..], stop);
      assert forall i :: 1 <= i < |leads| ==> leads[1..][i - 1] == leads[i];
    }
  }

  /** The `v=` the greedy `.*` settles on: one at or before `j` with a
      capture after it, and no such `v=` later. */
  predicate LastVAt(url: string, b: nat, j: nat, v: nat) {
    b <= v <= j && LeadMatches(url, v, "v=", QueryStops)
    && forall i :: v < i <= j ==> !LeadMatches(url, i, "v=", QueryStops)
  }

  lemma LastVAtExtends(url: string, b: nat, j: nat, v: nat)
    requires 0 < j <= |url|
    requires LastVAt(url, b, j - 1, v) && !LeadMatches(url, j, "v=", QueryStops)
    ensures LastVAt(url, b, j, v)
  {
  }

  /** The greedy `.*v=` captures after the last `v=` that has an id after it. */
  lemma {:induction false} LastVIsLast(url: string, b: nat, j: nat)
    requires b <= j <= |url|
    ensures LastV(url, b, j).Some? ==>
      exists v: nat :: LastVAt(url, b, j, v) && LastV(url, b, j) == CaptureAt(url, v + 2, QueryStops)
    decreases j - b
  {
    if LeadMatches(url, j, "v=", QueryStops) {
      assert LastVAt(url, b, j, j);
    } else if j > b {
      LastVIsLast(url, b, j - 1);
      if LastV(url, b, j - 1).Some? {
        var v: nat :| LastVAt(url, b, j - 1, v) && LastV(url, b, j - 1) == CaptureAt(url, v + 2, QueryStops);
        LastVAtExtends(url, b, j, v);
      }
    }
  }

  /** The greedy `.*v=` fails only when no `v=` in range has an id after it. */
  lemma {:induction false} LastVNone(url: string, b: nat, j: nat)
    requires b <= j <= |url|
    ensures LastV(url, b, j).None? <==> forall i :: b <= i <= j ==> !LeadMatches(url, i, "v=", QueryStops)
    decreases j - b
  {
    if !LeadMatches(url, j, "v=", QueryStops) && j > b {
      LastVNone(url, b, j - 1);
    }
  }

  /** The leftmost index at or after `k` where the pattern matches. */
  predicate LeftmostMatch(p: IdPattern, url: string, k: nat, j: nat)
    requires p.AfterLead? ==> StopsQuery(p.stop)
  {
    k <= j <= |url| && MatchAt(p, url, j).Some? && forall i :: k <= i < j ==> MatchAt(p, url, i).None?
  }

  lemma LeftmostMatchExtends(p: IdPattern, url: string, k: nat, j: nat)
    requires p.AfterLead? ==> StopsQuery(p.stop)
    requires LeftmostMatch(p, url, k + 1, j) && MatchAt(p, url, k).None?
    ensures LeftmostMatch(p, url, k, j)
  {
  }

  /** `re.search` gives the match at the leftmost index where the pattern matches. */
  lemma {:induction false} SearchFromLeftmost(p: IdPattern, url: string, k: nat)
    requires p.AfterLead? ==> StopsQuery(p.stop)
    requires k <= |url|
    ensures SearchFrom(p, url, k).Some? ==>
      exists j: nat :: LeftmostMatch(p, url, k, j) && SearchFrom(p, url, k) == MatchAt(p, url, j)
    decreases |url| - k
  {
    if MatchAt(p, url, k).Some? {
      assert LeftmostMatch(p, url, k, k);
    } else if k < |url| {
      SearchFromLeftmost(p, url, k + 1);
      if SearchFrom(p, url, k + 1).Some? {
        var j: nat :| LeftmostMatch(p, url, k + 1, j) && SearchFrom(p, url, k + 1) == MatchAt(p, url, j);
        LeftmostMatchExtends(p, url, k, j);
      }
    }
  }

  /** `re.search` finds nothing only when the pattern matches at no index. */
  lemma {:induction false} SearchFromNone(p: IdPattern, url: string, k: nat)
    requires p.AfterLead? ==> StopsQuery(p.stop)
    requires k <= |url|
    ensures SearchFrom(p, url, k).None? <==> forall j :: k <= j <= |url| ==> MatchAt(p, url, j).None?
    decreases |url| - k
  {
    var m := MatchAt(p, url, k);
    if m.None? && k < |url| {
      assert SearchFrom(p, url, k) == SearchFrom(p, url, k + 1);
      SearchFromNone(p, url, k + 1);
    }
  }

  /** The first pattern whose search succeeds. */
  predicate FirstSucceeding(url: string, ps: seq<IdPattern>, i: nat)
    requires WellFormedPatterns(ps)
  {
    i < |ps| && SearchFrom(ps[i], url, 0).Some? && forall j :: 0 <= j < i ==> SearchFrom(ps[j], url, 0).None?
  }

  lemma FirstSucceedingShifts(url: string, ps: seq<IdPattern>, i: nat)
    requires WellFormedPatterns(ps) && ps != [] && SearchFrom(ps[0], url, 0).None?
    requires WellFormedPatterns(ps[1..]) && FirstSucceeding(url, ps[1..], i)
    ensures FirstSucceeding(url, ps, i + 1) && ps[i + 1] == ps[1..][i]
  {
    assert forall j :: 1 <= j < |ps| ==> ps[1..][j - 1] == ps[j];
  }

  /** The loop over the patterns returns the capture of the first pattern
      whose search succeeds. */
  lemma {:induction false} FirstCaptureFirst(url: string, ps: seq<IdPattern>)
    requires WellFormedPatterns(ps)
    ensures FirstCapture(url, ps).Some? ==>
      exists i: nat :: FirstSucceeding(url, ps, i) && FirstCapture(url, ps) == SearchFrom(ps[i], url, 0)
  {
    if ps != [] {
      if SearchFrom(ps[0], url, 0).Some? {
        assert FirstSucceeding(url, ps, 0);
      } else {
        assert forall j :: 1 <= j < |ps| ==> ps[1..][j - 1] == ps[j];
        FirstCaptureFirst(url, ps[1..]);
        if FirstCapture(url, ps[1..]).Some? {
          var i: nat :| FirstSucceeding(url, ps[1..], i) && FirstCapture(url, ps[1..]) == SearchFrom(ps[1..][i], url, 0);
          FirstSucceedingShifts(url, ps, i);
        }
      }
    }
  }

  /** `x` cannot occur at `i` when the characters at offset `d` differ. */
  lemma DiffersAt(s: string, x: string, i: nat, d: nat)
    requires d < |x| && i + d < |s| && s[i + d] != x[d]
    ensures !OccursAt(s, x, i)
  {
    if i + |x| <= |s| {
      assert s[i..i + |x|][d] == s[i + d];
    }
  }

  /** No lead matches at an index whose character starts none of them. */
  lemma {:induction false} LeadsNeedFirstChar(url: string, k: nat, leads: seq<string>, stop: set<char>)
    requires StopsQuery(stop) && k < |url|
    requires forall i :: 0 <= i < |leads| ==> leads[i] != [] && leads[i][0] != url[k]
    ensures LeadsAt(url, k, leads, stop).None?
  {
    if leads != [] {
      DiffersAt(url, leads[0], k, 0);
      assert forall i :: 1 <= i < |leads| ==> leads[1..][i - 1] == leads[i];
      LeadsNeedFirstChar(url, k, leads[1..], stop);
    }
  }

  /** The alternation takes the first lead that occurs, when the id follows it. */
  lemma {:induction false} LeadsAtPicks(url: string, k: nat, leads: seq<string>, stop: set<char>, i: nat)
    requires StopsQuery(stop) && i < |leads|
    requires forall j :: 0 <= j < i ==> !OccursAt(url, leads[j], k)
    requires OccursAt(url, leads[i], k) && CaptureAt(url, k + |leads[i]|, stop).Some?
    ensures LeadsAt(url, k, leads, stop) == CaptureAt(url, k + |leads[i]|, stop)
  {
    if i > 0 {
      assert forall j :: 0 <= j < i - 1 ==> leads[1..][j] == leads[j + 1];
      LeadsAtPicks(url, k, leads[1..], stop, i - 1);
    }
  }

  /** The capture right after a lead is the whole plain id. */
  lemma CaptureOfPlainId(url: string, k: nat, x: string)
    requires PlainId(x) && k + |x| == |url| && url[k..] == x
    ensures CaptureAt(url, k, QueryStops) == Some(x)
  {
    assert forall i :: k <= i < |url| ==> url[i] == x[i - k];
    RunToEnd(url, k, QueryStops);
    assert url[k..|url|] == x;
  }

  /** A run with no stop character in it reaches the end of the text. */
  lemma {:induction false} RunToEnd(s: string, i: nat, stop: set<char>)
    requires i <= |s| && forall k :: i <= k < |s| ==> s[k] !in stop
    ensures RunEnd(s, i, stop) == |s|
    decreases |s| - i
  {
    if i < |s| {
      RunToEnd(s, i + 1, stop);
    }
  }

  /** The leads of the first pattern. */
  const LinkLeads: seq<string> := ["youtube.com/watch?v=", "youtu.be/", "youtube.com/embed/"]

  /** A link made of harmless text, the `i`-th lead and a plain id gives the
      id, provided no earlier lead also occurs there. */
  lemma LinkId(pre: string, i: nat, x: string)
    requires i < 3 && NoLeadStart(pre) && PlainId(x)
    requires forall j :: 0 <= j < i ==> !OccursAt(pre + LinkLeads[i] + x, LinkLeads[j], |pre|)
    ensures ExtractYoutubeId(pre + LinkLeads[i] + x) == Some(x)
  {
    var lead := LinkLeads[i];
    var url := pre + lead + x;
    var p := IdPatterns[0];
    assert p.leads == LinkLeads;
    forall m | 0 <= m < |pre|
      ensures MatchAt(p, url, m).None?
    {
      assert url[m] == pre[m];
      LeadsNeedFirstChar(url, m, LinkLeads, QueryStops);
    }
    SearchSkips(p, url, 0, |pre|);
    assert url[|pre|..|pre| + |lead|] == lead;
    assert url[|pre| + |lead|..] == x;
    CaptureOfPlainId(url, |pre| + |lead|, x);
    LeadsAtPicks(url, |pre|, LinkLeads, QueryStops, i);
    assert SearchFrom(p, url, |pre|) == Some(x);
  }

  /** `...youtube.com/watch?v=X` gives `X`. */
  lemma WatchLinkId(pre: string, x: string)
    requires NoLeadStart(pre) && PlainId(x)
    ensures ExtractYoutubeId(pre + "youtube.com/watch?v=" + x) == Some(x)
  {
    LinkId(pre, 0, x);
  }

  /** `...youtu.be/X` gives `X`. */
  lemma ShortLinkId(pre: string, x: string)
    requires NoLeadStart(pre) && PlainId(x)
    ensures ExtractYoutubeId(pre + "youtu.be/" + x) == Some(x)
  {
    var url := pre + LinkLeads[1] + x;
    assert url[|pre| + 5] == LinkLeads[1][5] == '.';
    DiffersAt(url, LinkLeads[0], |pre|, 5);
    LinkId(pre, 1, x);
  }

  /** `...youtube.com/embed/X` gives `X`. */
  lemma EmbedLinkId(pre: string, x: string)
    requires NoLeadStart(pre) && PlainId(x)
    ensures ExtractYoutubeId(pre + "youtube.com/embed/" + x) == Some(x)
  {
    var url := pre + LinkLeads[2] + x;
    assert url[|pre| + 12] == LinkLeads[2][12] == 'e';
    DiffersAt(url, LinkLeads[0], |pre|, 12);
    assert url[|pre| + 5] == LinkLeads[2][5] == 'b';
    DiffersAt(url, LinkLeads[1], |pre|, 5);
    LinkId(pre, 2, x);
  }

  /** The three link forms of one video yield the same id. */
  lemma SameIdForAllForms(pre: string, x: string)
    requires NoLeadStart(pre) && PlainId(x)
    ensures ExtractYoutubeId(pre + "youtube.com/watch?v=" + x)
         == ExtractYoutubeId(pre + "youtu.be/" + x)
         == ExtractYoutubeId(pre + "youtube.com/embed/" + x)
         == Some(x)
  {
    WatchLinkId(pre, x);
    ShortLinkId(pre, x);
    EmbedLinkId(pre, x);
  }
}
