/**
 * youtube.py: extracting the 11-character video id from a URL, assembling a
 * transcript from its entries, and the retry policy around the transcript
 * service. The four patterns of `get_video_id` are written out as scanners;
 * the transcript service is a parameter (`Api`).
 */
module YouTube {
  import opened Wrappers
  import opened Text

  // ---------------------------------------------------------------------------
  // get_video_id (youtube.py:8-31)
  // ---------------------------------------------------------------------------

  const IdLength: nat := 11

  /** `[0-9A-Za-z_-]` */
  predicate IdChar(c: char) {
    ('0' <= c <= '9') || ('A' <= c <= 'Z') || ('a' <= c <= 'z') || c == '_' || c == '-'
  }

  /** `[0-9A-Za-z_-]{11}` matches at `i`. */
  predicate IdAt(s: string, i: int) {
    0 <= i && i + IdLength <= |s| && forall k :: i <= k < i + IdLength ==> IdChar(s[k])
  }

  predicate ValidId(id: string) {
    IdAt(id, 0) && |id| == IdLength
  }

  /** `(?:\?|&|\/|$)` at `j`; `$` matches at the end and before a final newline. */
  predicate BoundaryAt(s: string, j: nat) {
    j == |s|
    || (j < |s| && (s[j] == '?' || s[j] == '&' || s[j] == '/'))
    || (j + 1 == |s| && s[j] == '\n')
  }

  /** The four patterns: `(?:v=|\/)ID(?:\?|&|\/|$)`, then a fixed prefix
      followed by an id for `youtu.be/`, `embed/` and `watch?v=`. */
  datatype Pattern = Delimited | After(prefix: string)

  const Patterns: seq<Pattern> := [Delimited, After("youtu.be/"), After("embed/"), After("watch?v=")]

  /** Where group 1 starts when `pattern` matches at position `p`. */
  function MatchAt(pattern: Pattern, s: string, p: nat): (g: Option<nat>)
    ensures g.Some? ==> IdAt(s, g.value) && p < g.value
  {
    match pattern
    case Delimited =>
      if OccursAt(s, "v=", p) && IdAt(s, p + 2) && BoundaryAt(s, p + 2 + IdLength) then Some(p + 2)
      else if OccursAt(s, "/", p) && IdAt(s, p + 1) && BoundaryAt(s, p + 1 + IdLength) then Some(p + 1)
      else None
    case After(prefix) =>
      if prefix != [] && OccursAt(s, prefix, p) && IdAt(s, p + |prefix|) then Some(p + |prefix|) else None
  }

  /** `re.search`: the leftmost position at or after `from` where `pattern`
      matches. */
  function Search(pattern: Pattern, s: string, from: nat): (r: Option<nat>)
    requires from <= |s|
    ensures r.Some? ==> from <= r.value <= |s| && MatchAt(pattern, s, r.value).Some?
    ensures forall q :: from <= q <= |s| && (r.None? || q < r.value) ==> MatchAt(pattern, s, q).None?
    decreases |s| - from
  {
    if MatchAt(pattern, s, from).Some? then Some(from)
    else if from == |s| then None
    else Search(pattern, s, from + 1)
  }

  /** The id found by the first pattern of `patterns` that matches. */
  function FirstId(patterns: seq<Pattern>, url: string): (r: Option<string>)
    ensures r.Some? ==> ValidId(r.value) && Contains(url, r.value)
  {
    if patterns == [] then None
    else match Search(patterns[0], url, 0)
      case Some(p) =>
        var g := MatchAt(patterns[0], url, p).value;
        assert OccursAt(url, url[g..g + IdLength], g);
        Some(url[g..g + IdLength])
      case None => FirstId(patterns[1..], url)
  }

  /** `get_video_id`; `Err` is the `ValueError`. */
  function GetVideoId(url: string): (r: Result<string, string>)
    ensures r.Ok? ==> ValidId(r.value) && Contains(url, r.value)
  {
    match FirstId(Patterns, url)
    case Some(id) => Ok(id)
    case None => Err("Could not extract video ID from URL. Please ensure it's a valid YouTube URL.")
  }

  /** Pattern `i` matches somewhere in `url`. */
  predicate MatchesSomewhere(pattern: Pattern, url: string) {
    exists p :: 0 <= p <= |url| && MatchAt(pattern, url, p).Some?
  }

  /** The patterns are tried in order: the first one that matches anywhere
      decides the id, at its leftmost match. */
  lemma {:induction false} FirstIdOrder(patterns: seq<Pattern>, url: string, i: nat)
    requires i < |patterns| && MatchesSomewhere(patterns[i], url)
    requires forall j :: 0 <= j < i ==> !MatchesSomewhere(patterns[j], url)
    ensures Search(patterns[i], url, 0).Some?
    ensures var g := MatchAt(patterns[i], url, Search(patterns[i], url, 0).value).value;
      FirstId(patterns, url) == Some(url[g..g + IdLength])
  {
    if i > 0 {
      assert !MatchesSomewhere(patterns[0], url);
      assert Search(patterns[0], url, 0).None?;
      assert patterns[1..][i - 1] == patterns[i];
      FirstIdOrder(patterns[1..], url, i - 1);
    }
  }

  /** `ValueError` is raised exactly when no pattern matches anywhere. */
  lemma {:induction false} FirstIdNone(patterns: seq<Pattern>, url: string)
    ensures FirstId(patterns, url).None? <==> forall j :: 0 <= j < |patterns| ==> !MatchesSomewhere(patterns[j], url)
  {
    if patterns != [] {
      FirstIdNone(patterns[1..], url);
      if Search(patterns[0], url, 0).None? {
        forall j | 1 <= j < |patterns| ensures patterns[j] == patterns[1..][j - 1] {}
      }
    }
  }

  lemma GetVideoIdOrder(url: string, i: nat)
    requires i < |Patterns| && MatchesSomewhere(Patterns[i], url)
    requires forall j :: 0 <= j < i ==> !MatchesSomewhere(Patterns[j], url)
    ensures Search(Patterns[i], url, 0).Some?
    ensures var g := MatchAt(Patterns[i], url, Search(Patterns[i], url, 0).value).value;
      GetVideoId(url) == Ok(url[g..g + IdLength])
  {
    FirstIdOrder(Patterns, url, i);
  }

  lemma GetVideoIdFails(url: string)
    ensures GetVideoId(url).Err? <==> forall j :: 0 <= j < |Patterns| ==> !MatchesSomewhere(Patterns[j], url)
  {
    FirstIdNone(Patterns, url);
  }

  // ---------------------------------------------------------------------------
  // The URL shapes listed in the docstring of get_video_id
  // ---------------------------------------------------------------------------

  /** No match of the first pattern can start inside `h`, whatever id follows
      it behind a `/` or a `v=`: `h` has no `v`, and every `/` in it is followed
      within 11 characters by a character that cannot be in an id (or by the
      end of `h`, where the `/` or the `=` that follows breaks the id). */
  predicate HostOk(h: string) {
    forall p :: 0 <= p < |h| ==> h[p] != 'v' && (h[p] == '/' ==> Blocked(h, p))
  }

  predicate Blocked(h: string, p: nat) {
    p + 10 >= |h| || exists k :: p < k <= p + IdLength && k < |h| && !IdChar(h[k])
  }

  /** What may follow the id so that the first pattern's `(?:\?|&|\/|$)` holds. */
  predicate TailOk(tail: string) {
    tail == [] || tail[0] == '?' || tail[0] == '&' || tail[0] == '/'
  }

  /** No match of the first pattern starts at `q < |h|` when `s` is `h`
      followed by `c` and then a character that is not an id character. */
  lemma HostBlocks(h: string, s: string, q: nat)
    requires HostOk(h) && q < |h| && |h| + 1 < |s| && s[..|h|] == h
    requires !IdChar(s[|h|]) || !IdChar(s[|h| + 1])
    ensures MatchAt(Delimited, s, q).None?
  {
    assert s[q] == h[q];
    OccursAtHead(s, "v=", q);
    OccursAtHead(s, "/", q);
    if s[q] == '/' {
      assert Blocked(h, q);
      if q + 10 >= |h| {
        IdAtChar(s, q + 1, |h|);
        IdAtChar(s, q + 1, |h| + 1);
      } else {
        var k :| q < k <= q + IdLength && k < |h| && !IdChar(h[k]);
        assert s[k] == h[k];
      }
    }
  }

  lemma OccursAtHead(s: string, sub: string, i: nat)
    ensures OccursAt(s, sub, i) && sub != [] ==> s[i] == sub[0]
  {
    if OccursAt(s, sub, i) && sub != [] {
      assert s[i..i + |sub|][0] == s[i];
    }
  }

  lemma IdAtChar(s: string, i: nat, k: nat)
    ensures IdAt(s, i) && i <= k < i + IdLength ==> IdChar(s[k])
  {
  }

  /** `h + "v=" + id + tail` yields `id`. */
  lemma VParamUrl(h: string, id: string, tail: string)
    requires HostOk(h) && ValidId(id) && TailOk(tail)
    ensures GetVideoId(h + "v=" + id + tail) == Ok(id)
  {
    var s := h + "v=" + id + tail;
    var n := |h|;
    assert s[..n] == h;
    assert s[n] == 'v' && s[n + 1] == '=';
    forall q | 0 <= q < n ensures MatchAt(Delimited, s, q).None? {
      HostBlocks(h, s, q);
    }
    assert s[n..n + 2] == "v=";
    forall k | n + 2 <= k < n + 2 + IdLength ensures IdChar(s[k]) {
      assert s[k] == id[k - n - 2];
    }
    assert BoundaryAt(s, n + 2 + IdLength);
    assert MatchAt(Delimited, s, n) == Some(n + 2);
    assert Search(Delimited, s, 0) == Some(n);
    assert s[n + 2..n + 2 + IdLength] == id;
  }

  /** `h + "/" + id + tail` yields `id`. */
  lemma SlashUrl(h: string, id: string, tail: string)
    requires HostOk(h) && ValidId(id) && TailOk(tail)
    ensures GetVideoId(h + "/" + id + tail) == Ok(id)
  {
    var s := h + "/" + id + tail;
    var n := |h|;
    assert s[..n] == h;
    assert s[n] == '/';
    forall q | 0 <= q < n ensures MatchAt(Delimited, s, q).None? {
      HostBlocks(h, s, q);
    }
    assert s[n..n + 1] == "/";
    assert !OccursAt(s, "v=", n);
    forall k | n + 1 <= k < n + 1 + IdLength ensures IdChar(s[k]) {
      assert s[k] == id[k - n - 1];
    }
    assert BoundaryAt(s, n + 1 + IdLength);
    assert MatchAt(Delimited, s, n) == Some(n + 1);
    assert Search(Delimited, s, 0) == Some(n);
    assert s[n + 1..n + 1 + IdLength] == id;
  }

  lemma WatchHost()
    ensures HostOk("https://www.youtube.com/watch?")
  {
    var h := "https://www.youtube.com/watch?";
    forall p | 0 <= p < |h| ensures h[p] != 'v' && (h[p] == '/' ==> Blocked(h, p)) {
      if p == 6 { assert !IdChar(h[7]); }
      else if p == 7 { assert !IdChar(h[11]); }
      else if p == 23 { assert !IdChar(h[29]); }
    }
  }

  lemma MobileWatchHost()
    ensures HostOk("https://m.youtube.com/watch?")
  {
    var h := "https://m.youtube.com/watch?";
    forall p | 0 <= p < |h| ensures h[p] != 'v' && (h[p] == '/' ==> Blocked(h, p)) {
      if p == 6 { assert !IdChar(h[7]); }
      else if p == 7 { assert !IdChar(h[9]); }
      else if p == 21 { assert !IdChar(h[27]); }
    }
  }

  lemma ShortHost()
    ensures HostOk("https://youtu.be")
  {
    var h := "https://youtu.be";
    forall p | 0 <= p < |h| ensures h[p] != 'v' && (h[p] == '/' ==> Blocked(h, p)) {
      if p == 6 { assert !IdChar(h[7]); }
    }
  }

  lemma EmbedHost()
    ensures HostOk("https://www.youtube.com/embed")
  {
    var h := "https://www.youtube.com/embed";
    forall p | 0 <= p < |h| ensures h[p] != 'v' && (h[p] == '/' ==> Blocked(h, p)) {
      if p == 6 { assert !IdChar(h[7]); }
      else if p == 7 { assert !IdChar(h[11]); }
    }
  }

  /** `https://www.youtube.com/watch?v=ID` and its mobile form yield ID. */
  lemma WatchUrlForms(id: string)
    requires ValidId(id)
    ensures GetVideoId("https://www.youtube.com/watch?v=" + id) == Ok(id)
    ensures GetVideoId("https://m.youtube.com/watch?v=" + id) == Ok(id)
  {
    assert GetVideoId("https://www.youtube.com/watch?v=" + id) == Ok(id) by {
      WatchHost();
      VParamUrl("https://www.youtube.com/watch?", id, []);
      WatchPrefix(id, []);
      assert "https://www.youtube.com/watch?v=" + id + [] == "https://www.youtube.com/watch?v=" + id;
    }
    assert GetVideoId("https://m.youtube.com/watch?v=" + id) == Ok(id) by {
      MobileWatchHost();
      VParamUrl("https://m.youtube.com/watch?", id, []);
      MobileWatchPrefix(id);
    }
  }

  lemma WatchPrefix(id: string, tail: string)
    ensures "https://www.youtube.com/watch?" + "v=" + id + tail == "https://www.youtube.com/watch?v=" + id + tail
  {
    assert "https://www.youtube.com/watch?" + "v=" == "https://www.youtube.com/watch?v=";
  }

  lemma MobileWatchPrefix(id: string)
    ensures "https://m.youtube.com/watch?" + "v=" + id + [] == "https://m.youtube.com/watch?v=" + id
  {
    assert "https://m.youtube.com/watch?" + "v=" == "https://m.youtube.com/watch?v=";
  }

  /** A timestamp or a playlist after the id does not change it. */
  lemma WatchUrlParameters(id: string, playlist: string)
    requires ValidId(id)
    ensures GetVideoId("https://www.youtube.com/watch?v=" + id + "&t=123") == Ok(id)
    ensures GetVideoId("https://www.youtube.com/watch?v=" + id + "&list=" + playlist) == Ok(id)
  {
    WatchHost();
    assert GetVideoId("https://www.youtube.com/watch?v=" + id + "&t=123") == Ok(id) by {
      VParamUrl("https://www.youtube.com/watch?", id, "&t=123");
      WatchPrefix(id, "&t=123");
    }
    assert GetVideoId("https://www.youtube.com/watch?v=" + id + "&list=" + playlist) == Ok(id) by {
      VParamUrl("https://www.youtube.com/watch?", id, "&list=" + playlist);
      WatchPrefix(id, "&list=" + playlist);
      assert "https://www.youtube.com/watch?v=" + id + ("&list=" + playlist)
        == "https://www.youtube.com/watch?v=" + id + "&list=" + playlist;
    }
  }

  lemma ShortPrefix(id: string)
    ensures "https://youtu.be" + "/" + id + [] == "https://youtu.be/" + id
  {
    assert "https://youtu.be" + "/" == "https://youtu.be/";
  }

  lemma EmbedPrefix(id: string)
    ensures "https://www.youtube.com/embed" + "/" + id + [] == "https://www.youtube.com/embed/" + id
  {
    assert "https://www.youtube.com/embed" + "/" == "https://www.youtube.com/embed/";
  }

  /** `https://youtu.be/ID` yields ID. */
  lemma ShortUrlForm(id: string)
    requires ValidId(id)
    ensures GetVideoId("https://youtu.be/" + id) == Ok(id)
  {
    ShortHost();
    SlashUrl("https://youtu.be", id, []);
    ShortPrefix(id);
  }

  /** `https://www.youtube.com/embed/ID` yields ID. */
  lemma EmbedUrlForm(id: string)
    requires ValidId(id)
    ensures GetVideoId("https://www.youtube.com/embed/" + id) == Ok(id)
  {
    EmbedHost();
    SlashUrl("https://www.youtube.com/embed", id, []);
    EmbedPrefix(id);
  }

  // ---------------------------------------------------------------------------
  // Transcript text (youtube.py:54-58 and 65-68)
  // ---------------------------------------------------------------------------

  /** Each entry's text followed by a space, concatenated in order. */
  function Spaced(texts: seq<string>): string {
    if texts == [] then [] else Spaced(texts[..|texts| - 1]) + texts[|texts| - 1] + " "
  }

  /** The transcript text made from the entries' texts. */
  function Transcript(texts: seq<string>): string {
    Strip(Spaced(texts))
  }

  /** The `+=` loop followed by `strip()`. */
  method AssembleTranscript(texts: seq<string>) returns (text: string)
    ensures text == Transcript(texts)
  {
    var acc := "";
    for i := 0 to |texts|
      invariant acc == Spaced(texts[..i])
    {
      assert texts[..i + 1][..i] == texts[..i];
      acc := acc + texts[i] + " ";
    }
    assert texts[..|texts|] == texts;
    text := Strip(acc);
  }

  /** Python's `" ".join(texts)`. */
  function SpaceJoin(texts: seq<string>): string {
    if texts == [] then []
    else if |texts| == 1 then texts[0]
    else SpaceJoin(texts[..|texts| - 1]) + " " + texts[|texts| - 1]
  }

  /** A text with no whitespace at either end. */
  predicate TrimmedText(t: string) {
    t != [] && Trimmed(t)
  }

  lemma {:induction false} SpacedIsJoin(texts: seq<string>)
    requires texts != []
    requires forall i :: 0 <= i < |texts| ==> TrimmedText(texts[i])
    ensures Spaced(texts) == SpaceJoin(texts) + " "
    ensures TrimmedText(SpaceJoin(texts))
    decreases |texts|
  {
    var init := texts[..|texts| - 1];
    var last := texts[|texts| - 1];
    assert TrimmedText(last);
    if |texts| == 1 {
      assert init == [];
    } else {
      SpacedIsJoin(init);
      var j := SpaceJoin(init);
      assert SpaceJoin(texts) == j + " " + last;
      assert (j + " " + last)[0] == j[0];
      assert (j + " " + last)[|j| + 1 + |last| - 1] == last[|last| - 1];
    }
  }

  /** When every entry's text is non-empty and has no whitespace at its ends,
      the transcript is the texts joined by single spaces. */
  lemma TranscriptIsJoin(texts: seq<string>)
    requires forall i :: 0 <= i < |texts| ==> TrimmedText(texts[i])
    ensures Transcript(texts) == SpaceJoin(texts)
  {
    if texts != [] {
      SpacedIsJoin(texts);
      StripTrailingSpace(SpaceJoin(texts));
    }
  }

  lemma StripTrailingSpace(j: string)
    requires TrimmedText(j)
    ensures Strip(j + " ") == j
  {
    assert (j + " ")[0] == j[0];
    assert StripLeft(j + " ") == j + " ";
    assert (j + " ")[..|j|] == j;
    assert IsSpace(' ');
    assert StripRight(j + " ") == StripRight(j);
    StripTrimmed(j);
  }

  /** The transcript has no whitespace at its ends, and keeps every
      non-whitespace character of the entries in order. */
  lemma TranscriptShape(texts: seq<string>)
    ensures Trimmed(Transcript(texts))
    ensures NonSpace(Transcript(texts)) == NonSpace(Spaced(texts))
  {
    StripEnds(Spaced(texts));
    StripNonSpace(Spaced(texts));
  }

  // ---------------------------------------------------------------------------
  // The retry policy of _fetch_transcript_sync (youtube.py:33-81) and
  // fetch_transcript (youtube.py:83-99)
  // ---------------------------------------------------------------------------

  /** What one call of the transcript service gives: the texts of the entries,
      or an error with its message. */
  datatype FetchOutcome = Fetched(texts: seq<string>) | Failed(message: string)

  /** The transcript service: the outcome of the `n`-th call (counting from 0)
      for a video id and a language (`None` when no language is given). */
  type Api = (nat, string, Option<string>) -> FetchOutcome

  /** The exceptions: the `ValueError` of `get_video_id`, the one raised after
      the last attempt, and the one of `fetch_transcript` for a missing
      transcript. */
  datatype FetchError =
    | BadUrl(message: string)
    | RetriesExhausted(maxRetries: int, cause: string)
    | NoCaptions

  datatype AttemptResult = Got(text: string) | Error(message: string)

  const NoTranscriptFound := "No transcript found"

  /** One attempt from language `i` on, starting at call number `calls`: an
      error for a given language is swallowed and the next one tried; the
      final call without a language decides. The second component is the
      number of calls made so far. */
  function TryLanguages(api: Api, videoId: string, languages: seq<string>, i: nat, calls: nat): (r: (AttemptResult, nat))
    requires i <= |languages|
    ensures calls < r.1 <= calls + |languages| - i + 1
    ensures r.0.Error? ==> r.1 == calls + |languages| - i + 1
    decreases |languages| - i
  {
    if i == |languages| then
      match api(calls, videoId, None)
      case Fetched(texts) => (Got(Transcript(texts)), calls + 1)
      case Failed(m) => (Error(m), calls + 1)
    else
      match api(calls, videoId, Some(languages[i]))
      case Fetched(texts) => (Got(Transcript(texts)), calls + 1)
      case Failed(_) => TryLanguages(api, videoId, languages, i + 1, calls + 1)
  }

  /** The attempts from `attempt` on. */
  function Retry(api: Api, videoId: string, languages: seq<string>, maxRetries: int, attempt: nat, calls: nat)
    : (r: (Result<Option<string>, FetchError>, nat))
    ensures calls <= r.1
    decreases maxRetries - attempt
  {
    if attempt >= maxRetries then (Ok(None), calls)
    else
      var (outcome, after) := TryLanguages(api, videoId, languages, 0, calls);
      match outcome
      case Got(text) => (Ok(Some(text)), after)
      case Error(m) =>
        if Contains(m, NoTranscriptFound) then (Ok(None), after)
        else if attempt < maxRetries - 1 then Retry(api, videoId, languages, maxRetries, attempt + 1, after)
        else (Err(RetriesExhausted(maxRetries, m)), after)
  }

  /** `_fetch_transcript_sync`, with the number of calls it makes. */
  function FetchSync(url: string, maxRetries: int, languages: seq<string>, api: Api)
    : (r: (Result<Option<string>, FetchError>, nat))
  {
    match GetVideoId(url)
    case Err(e) => (Err(BadUrl(e)), 0)
    case Ok(videoId) => Retry(api, videoId, languages, maxRetries, 0, 0)
  }

  /** The loops of `_fetch_transcript_sync`. */
  method FetchTranscriptSync(url: string, maxRetries: int, languages: seq<string>, api: Api)
    returns (r: Result<Option<string>, FetchError>, calls: nat)
    ensures (r, calls) == FetchSync(url, maxRetries, languages, api)
  {
    calls := 0;
    var id := GetVideoId(url);
    if id.Err? {
      return Err(BadUrl(id.error)), 0;
    }
    var videoId := id.value;
    var attempt: nat := 0;
    while attempt < maxRetries
      invariant Retry(api, videoId, languages, maxRetries, attempt, calls) == FetchSync(url, maxRetries, languages, api)
      decreases maxRetries - attempt
    {
      ghost var start := calls;
      for i := 0 to |languages|
        invariant calls == start + i
        invariant TryLanguages(api, videoId, languages, i, calls) == TryLanguages(api, videoId, languages, 0, start)
      {
        var outcome := api(calls, videoId, Some(languages[i]));
        calls := calls + 1;
        if outcome.Fetched? {
          var text := AssembleTranscript(outcome.texts);
          return Ok(Some(text)), calls;
        }
      }
      var outcome := api(calls, videoId, None);
      calls := calls + 1;
      if outcome.Fetched? {
        var text := AssembleTranscript(outcome.texts);
        return Ok(Some(text)), calls;
      }
      if Contains(outcome.message, NoTranscriptFound) {
        return Ok(None), calls;
      } else if attempt < maxRetries - 1 {
        attempt := attempt + 1;
      } else {
        return Err(RetriesExhausted(maxRetries, outcome.message)), calls;
      }
    }
    r := Ok(None);
  }

  /** `fetch_transcript`: a missing transcript becomes an error; a transcript
      is passed on unchanged, and so is an error. */
  method FetchTranscript(url: string, api: Api) returns (r: Result<string, FetchError>)
    ensures var (sync, _) := FetchSync(url, 3, ["en"], api);
      && (sync == Ok(None) <==> r == Err(NoCaptions))
      && (forall t :: sync == Ok(Some(t)) <==> r == Ok(t))
      && (sync.Err? ==> r == Err(sync.error))
  {
    var sync, _ := FetchTranscriptSync(url, 3, ["en"], api);
    match sync
    case Ok(None) => r := Err(NoCaptions);
    case Ok(Some(t)) => r := Ok(t);
    case Err(e) => r := Err(e);
  }

  /** The most calls `k` more attempts can make, `perAttempt` each. */
  function Budget(k: int, perAttempt: nat): nat
    decreases k
  {
    if k <= 0 then 0 else perAttempt + Budget(k - 1, perAttempt)
  }

  lemma {:induction false} BudgetIsProduct(k: nat, perAttempt: nat)
    ensures Budget(k, perAttempt) == k * perAttempt
  {
    if k > 0 {
      BudgetIsProduct(k - 1, perAttempt);
      MulStep(k - 1, perAttempt);
    }
  }

  /** The remaining attempts make at most `|languages| + 1` calls each. */
  lemma {:induction false} RetryCallBound(api: Api, videoId: string, languages: seq<string>, maxRetries: int, attempt: nat, calls: nat)
    ensures Retry(api, videoId, languages, maxRetries, attempt, calls).1 <= calls + Budget(maxRetries - attempt, |languages| + 1)
    decreases maxRetries - attempt
  {
    if attempt < maxRetries {
      var (outcome, after) := TryLanguages(api, videoId, languages, 0, calls);
      var k := maxRetries - attempt;
      assert Budget(k, |languages| + 1) == |languages| + 1 + Budget(k - 1, |languages| + 1);
      assert after <= calls + (|languages| + 1);
      if outcome.Error? && !Contains(outcome.message, NoTranscriptFound) && attempt < maxRetries - 1 {
        RetryCallBound(api, videoId, languages, maxRetries, attempt + 1, after);
        assert maxRetries - (attempt + 1) == k - 1;
        assert Retry(api, videoId, languages, maxRetries, attempt, calls) == Retry(api, videoId, languages, maxRetries, attempt + 1, after);
      } else {
        assert Retry(api, videoId, languages, maxRetries, attempt, calls).1 == after;
      }
    }
  }

  /** At most `maxRetries` attempts of `|languages| + 1` calls each. */
  lemma FetchCallBound(url: string, maxRetries: int, languages: seq<string>, api: Api)
    ensures FetchSync(url, maxRetries, languages, api).1 <= (if maxRetries < 0 then 0 else maxRetries) * (|languages| + 1)
  {
    if GetVideoId(url).Ok? && maxRetries >= 0 {
      RetryCallBound(api, GetVideoId(url).value, languages, maxRetries, 0, 0);
      BudgetIsProduct(maxRetries, |languages| + 1);
    }
  }

  /** An error mentioning "No transcript found" ends the fetch with no
      transcript after the first attempt, without retrying. */
  lemma NoTranscriptNoRetry(api: Api, videoId: string, languages: seq<string>, maxRetries: int, m: string)
    requires maxRetries >= 1
    requires TryLanguages(api, videoId, languages, 0, 0).0 == Error(m) && Contains(m, NoTranscriptFound)
    ensures Retry(api, videoId, languages, maxRetries, 0, 0) == (Ok(None), |languages| + 1)
  {
  }

  /** When every call fails with the same message, not about a missing
      transcript, all the remaining attempts are made, `|languages| + 1`
      calls each, and the last one raises. */
  lemma {:induction false} PersistentFailureRaises(api: Api, videoId: string, languages: seq<string>, maxRetries: int, m: string, attempt: nat, calls: nat)
    requires attempt < maxRetries
    requires forall n, lang :: api(n, videoId, lang) == Failed(m)
    requires !Contains(m, NoTranscriptFound)
    ensures Retry(api, videoId, languages, maxRetries, attempt, calls)
      == (Err(RetriesExhausted(maxRetries, m)), calls + Budget(maxRetries - attempt, |languages| + 1))
    decreases maxRetries - attempt
  {
    AllFail(api, videoId, languages, m, 0, calls);
    var after := calls + |languages| + 1;
    var k := maxRetries - attempt;
    assert Budget(k, |languages| + 1) == |languages| + 1 + Budget(k - 1, |languages| + 1);
    if attempt < maxRetries - 1 {
      PersistentFailureRaises(api, videoId, languages, maxRetries, m, attempt + 1, after);
      assert maxRetries - (attempt + 1) == k - 1;
    } else {
      assert Budget(k - 1, |languages| + 1) == 0;
    }
  }

  /** The attempt starting at call `calls` fails with a message that is not
      about a missing transcript, so the loop goes on (or gives up). */
  predicate AttemptErrs(api: Api, videoId: string, languages: seq<string>, calls: nat)
  {
    var outcome := TryLanguages(api, videoId, languages, 0, calls).0;
    outcome.Error? && !Contains(outcome.message, NoTranscriptFound)
  }

  /** Each of `remaining` attempts in a row, the first starting at call
      `calls`, fails that way; an attempt that fails tries every language and
      then the default, `|languages| + 1` calls. */
  predicate AttemptsErr(api: Api, videoId: string, languages: seq<string>, remaining: int, calls: nat)
    decreases remaining
  {
    remaining <= 0
    || (AttemptErrs(api, videoId, languages, calls)
        && AttemptsErr(api, videoId, languages, remaining - 1, calls + |languages| + 1))
  }

  /** An attempt that fails for a reason other than a missing transcript,
      before the last: the loop moves on to the next attempt. */
  lemma RetryContinues(api: Api, videoId: string, languages: seq<string>, maxRetries: int, attempt: nat, calls: nat)
    requires attempt < maxRetries - 1
    requires AttemptErrs(api, videoId, languages, calls)
    ensures Retry(api, videoId, languages, maxRetries, attempt, calls)
      == Retry(api, videoId, languages, maxRetries, attempt + 1, calls + |languages| + 1)
  {
  }

  /** The last attempt failing for a reason other than a missing transcript
      raises with its own message. */
  lemma RetryGivesUp(api: Api, videoId: string, languages: seq<string>, maxRetries: int, attempt: nat, calls: nat)
    requires attempt == maxRetries - 1
    requires AttemptErrs(api, videoId, languages, calls)
    ensures var outcome := TryLanguages(api, videoId, languages, 0, calls).0;
      && outcome.Error?
      && Retry(api, videoId, languages, maxRetries, attempt, calls)
        == (Err(RetriesExhausted(maxRetries, outcome.message)), calls + |languages| + 1)
  {
  }

  /** `ErringAttemptsRaise` when one attempt is left. */
  lemma LastAttemptRaises(api: Api, videoId: string, languages: seq<string>, maxRetries: int, attempt: nat, calls: nat)
    requires attempt == maxRetries - 1
    requires AttemptErrs(api, videoId, languages, calls)
    ensures var last := TryLanguages(api, videoId, languages, 0, calls + Budget(maxRetries - attempt - 1, |languages| + 1)).0;
      && last.Error?
      && Retry(api, videoId, languages, maxRetries, attempt, calls)
        == (Err(RetriesExhausted(maxRetries, last.message)), calls + Budget(maxRetries - attempt, |languages| + 1))
  {
    RetryGivesUp(api, videoId, languages, maxRetries, attempt, calls);
    assert Budget(1, |languages| + 1) == |languages| + 1 + Budget(0, |languages| + 1);
  }

  /** When every remaining attempt fails for a reason other than a missing
      transcript, whatever its calls return, all of them are made and the
      error of the last one is raised. */
  lemma {:induction false} ErringAttemptsRaise(api: Api, videoId: string, languages: seq<string>, maxRetries: int, attempt: nat, calls: nat)
    requires attempt < maxRetries
    requires AttemptsErr(api, videoId, languages, maxRetries - attempt, calls)
    ensures var last := TryLanguages(api, videoId, languages, 0, calls + Budget(maxRetries - attempt - 1, |languages| + 1)).0;
      && last.Error?
      && Retry(api, videoId, languages, maxRetries, attempt, calls)
        == (Err(RetriesExhausted(maxRetries, last.message)), calls + Budget(maxRetries - attempt, |languages| + 1))
    decreases maxRetries - attempt
  {
    var per := |languages| + 1;
    var n := maxRetries - attempt;
    var after := calls + per;
    assert Budget(n, per) == per + Budget(n - 1, per);
    if attempt < maxRetries - 1 {
      RetryContinues(api, videoId, languages, maxRetries, attempt, calls);
      ErringAttemptsRaise(api, videoId, languages, maxRetries, attempt + 1, after);
      assert Budget(n - 1, per) == per + Budget(n - 2, per);
    } else {
      LastAttemptRaises(api, videoId, languages, maxRetries, attempt, calls);
    }
  }

  lemma MulStep(x: int, y: int)
    ensures (x + 1) * y == y + x * y
  {
  }

  lemma {:induction false} AllFail(api: Api, videoId: string, languages: seq<string>, m: string, i: nat, calls: nat)
    requires i <= |languages|
    requires forall n, lang :: api(n, videoId, lang) == Failed(m)
    ensures TryLanguages(api, videoId, languages, i, calls).0 == Error(m)
    decreases |languages| - i
  {
    if i < |languages| {
      AllFail(api, videoId, languages, m, i + 1, calls + 1);
    }
  }

  /** A transcript obtained by the fetch has no whitespace at either end. */
  lemma {:induction false} RetryTextTrimmed(api: Api, videoId: string, languages: seq<string>, maxRetries: int, attempt: nat, calls: nat)
    ensures var r := Retry(api, videoId, languages, maxRetries, attempt, calls).0;
      r.Ok? && r.value.Some? ==> Trimmed(r.value.value)
    decreases maxRetries - attempt
  {
    if attempt < maxRetries {
      var (outcome, after) := TryLanguages(api, videoId, languages, 0, calls);
      TryLanguagesTrimmed(api, videoId, languages, 0, calls);
      if outcome.Error? && !Contains(outcome.message, NoTranscriptFound) && attempt < maxRetries - 1 {
        RetryTextTrimmed(api, videoId, languages, maxRetries, attempt + 1, after);
      }
    }
  }

  /** A transcript from one successful call has no surrounding whitespace. */
  lemma FetchedTrimmed(outcome: FetchOutcome)
    ensures outcome.Fetched? ==> Trimmed(Transcript(outcome.texts))
  {
    if outcome.Fetched? {
      StripEnds(Spaced(outcome.texts));
    }
  }

  lemma {:induction false} TryLanguagesTrimmed(api: Api, videoId: string, languages: seq<string>, i: nat, calls: nat)
    requires i <= |languages|
    ensures var r := TryLanguages(api, videoId, languages, i, calls).0;
      r.Got? ==> Trimmed(r.text)
    decreases |languages| - i
  {
    if i == |languages| {
      FetchedTrimmed(api(calls, videoId, None));
    } else {
      FetchedTrimmed(api(calls, videoId, Some(languages[i])));
      TryLanguagesTrimmed(api, videoId, languages, i + 1, calls + 1);
    }
  }
}
