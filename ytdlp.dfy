/**
 * The yt-dlp front end of lib/ytdlp.ts: the argument vector and timeout of
 * every exported operation, the normalisation of yt-dlp's JSON output into
 * `YtDlpMetadata`, and the two batch line parsers with their different error
 * policies. The process is the `run` oracle (what `executeYtDlp` settles with,
 * see YtDlpProcess) and `JSON.parse` is the `parse` oracle.
 */
module YtDlp {
  import opened Wrappers
  import opened JsString
  import opened YtDlpProcess

  // ---------------------------------------------------------------- JSON input

  /** One entry of yt-dlp's `thumbnails` array; a missing field is None. */
  datatype Thumbnail = Thumbnail(url: Option<string>, width: Option<int>)

  /** The fields of a parsed object that the decoders read. `thumbnails` is None
      when absent or not an array. A parsed primitive other than `null` reads as
      an object with every field absent, since each property access on it yields
      `undefined`. */
  datatype RawVideo = RawVideo(
    id: Option<string>,
    title: Option<string>,
    channel: Option<string>,
    uploader: Option<string>,
    duration: Option<int>,
    thumbnails: Option<seq<Thumbnail>>)

  datatype Json = JsonNull | JsonObject(fields: RawVideo)

  /** `JSON.parse`: None when it throws. */
  type JsonParser = string -> Option<Json>

  /** The record every decoder returns. `id` and `title` are passed through,
      so they are absent when the object lacks them. */
  datatype YtDlpMetadata = YtDlpMetadata(
    id: Option<string>,
    title: Option<string>,
    channel: string,
    thumbnail: string,
    duration: int)

  /** A string field that JavaScript treats as true: present and non-empty. */
  predicate Truthy(s: Option<string>) {
    s.Some? && s.value != ""
  }

  /** `a || b` on an optional string. */
  function OrElse(a: Option<string>, b: string): (r: string)
    ensures Truthy(a) ==> r == a.value
    ensures !Truthy(a) ==> r == b
  {
    if Truthy(a) then a.value else b
  }

  /** `t.width || 0`. */
  function Width(t: Thumbnail): int {
    t.width.GetOr(0)
  }

  // ---------------------------------------------------- per-item normalisation

  /** The thumbnail `filter(t => t.url).sort((a, b) => width(b) - width(a))[0]`
      picks, as an index into `ts`. The sort is stable, so its first element is
      the earliest of the widest entries that have a url. */
  function WidestCandidate(ts: seq<Thumbnail>): (r: Option<nat>)
    ensures r.None? <==> forall j :: 0 <= j < |ts| ==> !Truthy(ts[j].url)
    ensures r.Some? ==> r.value < |ts| && Truthy(ts[r.value].url)
    ensures r.Some? ==> forall j :: 0 <= j < |ts| && Truthy(ts[j].url) ==> Width(ts[j]) <= Width(ts[r.value])
    ensures r.Some? ==> forall j :: 0 <= j < r.value && Truthy(ts[j].url) ==> Width(ts[j]) < Width(ts[r.value])
  {
    if ts == [] then None
    else
      var rest := WidestCandidate(ts[1..]);
      if !Truthy(ts[0].url) then
        (if rest.None? then None else Some(rest.value + 1))
      else if rest.None? || Width(ts[0]) >= Width(ts[rest.value + 1]) then Some(0)
      else Some(rest.value + 1)
  }

  /** The choice is determined: at most one index is the earliest of the widest candidates. */
  lemma WidestCandidateUnique(ts: seq<Thumbnail>, i: nat, j: nat)
    requires i < |ts| && Truthy(ts[i].url) && j < |ts| && Truthy(ts[j].url)
    requires forall k :: 0 <= k < |ts| && Truthy(ts[k].url) ==> Width(ts[k]) <= Width(ts[i]) && Width(ts[k]) <= Width(ts[j])
    requires forall k :: 0 <= k < i && Truthy(ts[k].url) ==> Width(ts[k]) < Width(ts[i])
    requires forall k :: 0 <= k < j && Truthy(ts[k].url) ==> Width(ts[k]) < Width(ts[j])
    ensures i == j
  {
  }

  /** The `thumbnail` variable after lines 92-108 of the single-item decoder. */
  function SelectThumbnail(raw: RawVideo): string {
    var fromList :=
      match raw.thumbnails
      case Some(ts) =>
        if |ts| > 0 then
          var best := WidestCandidate(ts);
          var bestUrl := if best.Some? then ts[best.value].url else None;
          OrElse(bestUrl, OrElse(ts[0].url, ""))
        else ""
      case None => "";
    if fromList == "" && Truthy(raw.id) then
      "https://i.ytimg.com/vi/" + raw.id.value + "/hqdefault.jpg"
    else fromList
  }

  /** The thumbnail is the url of the earliest widest entry with a url; without
      such an entry it is the hqdefault image of the id, or empty when the id is
      missing too. The `thumbnails[0]?.url` fallback never contributes. */
  lemma ThumbnailChoice(raw: RawVideo)
    ensures raw.thumbnails.Some? && WidestCandidate(raw.thumbnails.value).Some? ==>
      SelectThumbnail(raw) == raw.thumbnails.value[WidestCandidate(raw.thumbnails.value).value].url.value
    ensures (raw.thumbnails.None? || WidestCandidate(raw.thumbnails.value).None?) && Truthy(raw.id) ==>
      SelectThumbnail(raw) == "https://i.ytimg.com/vi/" + raw.id.value + "/hqdefault.jpg"
    ensures (raw.thumbnails.None? || WidestCandidate(raw.thumbnails.value).None?) && !Truthy(raw.id) ==>
      SelectThumbnail(raw) == ""
  {
    match raw.thumbnails
    case Some(ts) =>
      if |ts| > 0 && WidestCandidate(ts).None? {
        assert !Truthy(ts[0].url);
      }
    case None =>
  }

  /** The object literal every decoder returns for one parsed object. The three
      exported decoders repeat the same code (lines 92-118, 175-198, 237-260),
      so this one function serves all three. */
  function Normalize(raw: RawVideo): (r: YtDlpMetadata)
    ensures r.id == raw.id && r.title == raw.title
    ensures r.channel != ""
    ensures r.thumbnail == "" <==>
      !Truthy(raw.id) && (raw.thumbnails.None? || WidestCandidate(raw.thumbnails.value).None?)
  {
    ThumbnailChoice(raw);
    YtDlpMetadata(
      raw.id,
      raw.title,
      OrElse(raw.channel, OrElse(raw.uploader, "Unknown")),
      SelectThumbnail(raw),
      raw.duration.GetOr(0))
  }

  /** `channel || uploader || 'Unknown'` with empty strings falling through, and `duration || 0`. */
  lemma NormalizedDefaults(raw: RawVideo)
    ensures Truthy(raw.channel) ==> Normalize(raw).channel == raw.channel.value
    ensures !Truthy(raw.channel) && Truthy(raw.uploader) ==> Normalize(raw).channel == raw.uploader.value
    ensures !Truthy(raw.channel) && !Truthy(raw.uploader) ==> Normalize(raw).channel == "Unknown"
    ensures Normalize(raw).duration == if raw.duration.Some? then raw.duration.value else 0
  {
  }

  // ------------------------------------------------------------------ decoders

  /** Why decoding output failed. */
  datatype DecodeError =
    | InvalidJson   // JSON.parse threw a SyntaxError
    | NullDocument  // the single-item output parsed to `null`, and reading `data.title` threw a TypeError

  /** Single-item decoding: parse the whole output as one object. The id is not checked. */
  function DecodeSingle(stdout: string, parse: JsonParser): (r: Result<YtDlpMetadata, DecodeError>)
    ensures parse(stdout).None? ==> r == Err(InvalidJson)
    ensures parse(stdout) == Some(JsonNull) ==> r == Err(NullDocument)
    ensures r.Ok? <==> parse(stdout).Some? && parse(stdout).value.JsonObject?
    ensures r.Ok? ==> r.value == Normalize(parse(stdout).value.fields)
  {
    match parse(stdout)
    case None => Err(InvalidJson)
    case Some(JsonNull) => Err(NullDocument)
    case Some(JsonObject(raw)) => Ok(Normalize(raw))
  }

  /** `data && data.id`: the parsed value is an object with a non-empty id. */
  predicate Identified(v: Option<Json>) {
    v.Some? && v.value.JsonObject? && Truthy(v.value.fields.id)
  }

  function CountNonBlank(lines: seq<string>): nat {
    if lines == [] then 0 else (if IsBlank(lines[0]) then 0 else 1) + CountNonBlank(lines[1..])
  }

  /** What search keeps of one line (lines 224-231): the parsed object when the
      line is not blank, parses (a parse error reads as `null`) and has a truthy id. */
  function SearchLine(l: string, parse: JsonParser): seq<RawVideo> {
    if !IsBlank(l) && Identified(parse(l)) then [parse(l).value.fields] else []
  }

  /** Search's `videos`: the kept objects of all lines, in line order. */
  function SearchVideos(lines: seq<string>, parse: JsonParser): (r: seq<RawVideo>)
    ensures |r| <= CountNonBlank(lines)
  {
    if lines == [] then [] else SearchLine(lines[0], parse) + SearchVideos(lines[1..], parse)
  }

  /** Every object search keeps carries a non-empty id. */
  lemma {:induction false} SearchVideosIdentified(lines: seq<string>, parse: JsonParser)
    ensures forall v :: v in SearchVideos(lines, parse) ==> Truthy(v.id)
  {
    if lines != [] {
      SearchVideosIdentified(lines[1..], parse);
      var h := SearchLine(lines[0], parse);
      assert h != [] ==> h == [parse(lines[0]).value.fields] && Identified(parse(lines[0]));
    }
  }

  /** Search drops exactly the blank, malformed and id-less lines, one line at a time. */
  lemma SearchSingleLine(l: string, parse: JsonParser)
    ensures IsBlank(l) || parse(l).None? || parse(l) == Some(JsonNull) ==> SearchVideos([l], parse) == []
    ensures parse(l).Some? && parse(l).value.JsonObject? && !Truthy(parse(l).value.fields.id) ==> SearchVideos([l], parse) == []
    ensures !IsBlank(l) && Identified(parse(l)) ==> SearchVideos([l], parse) == [parse(l).value.fields]
  {
    assert [l][1..] == [];
  }

  /** Search keeps input order and decides every line independently of its
      neighbours: the result for a concatenation is the concatenation of the results. */
  lemma {:induction false} SearchVideosAppend(a: seq<string>, b: seq<string>, parse: JsonParser)
    ensures SearchVideos(a + b, parse) == SearchVideos(a, parse) + SearchVideos(b, parse)
  {
    if a == [] {
      assert a + b == b;
    } else {
      assert (a + b)[0] == a[0];
      assert (a + b)[1..] == a[1..] + b;
      SearchVideosAppend(a[1..], b, parse);
    }
  }

  /** Playlist's `videos` (lines 166-167): every line is parsed with no catch, so
      one line that does not parse fails the whole batch; otherwise the objects
      with a truthy id are kept, in line order. */
  function PlaylistVideos(lines: seq<string>, parse: JsonParser): (r: Result<seq<RawVideo>, DecodeError>)
    ensures r.Err? ==> r.error == InvalidJson
    ensures r.Ok? ==> |r.value| <= |lines|
  {
    if lines == [] then Ok([])
    else
      var l := lines[0];
      match parse(l)
      case None => Err(InvalidJson)
      case Some(v) =>
        match PlaylistVideos(lines[1..], parse)
        case Err(e) => Err(e)
        case Ok(items) => Ok((if Identified(Some(v)) then [v.fields] else []) + items)
  }

  /** Every object a successful playlist batch keeps carries a non-empty id. */
  lemma {:induction false} PlaylistVideosIdentified(lines: seq<string>, parse: JsonParser)
    requires PlaylistVideos(lines, parse).Ok?
    ensures forall v :: v in PlaylistVideos(lines, parse).value ==> Truthy(v.id)
  {
    if lines != [] {
      PlaylistVideosIdentified(lines[1..], parse);
    }
  }

  /** The playlist batch fails exactly when some line does not parse. */
  lemma {:induction false} PlaylistFailsIffSomeLineMalformed(lines: seq<string>, parse: JsonParser)
    ensures PlaylistVideos(lines, parse).Err? <==> exists k :: 0 <= k < |lines| && parse(lines[k]).None?
  {
    if lines != [] {
      PlaylistFailsIffSomeLineMalformed(lines[1..], parse);
      if exists k :: 0 <= k < |lines[1..]| && parse(lines[1..][k]).None? {
        var k :| 0 <= k < |lines[1..]| && parse(lines[1..][k]).None?;
        assert parse(lines[k + 1]).None?;
      }
      if exists k :: 0 <= k < |lines| && parse(lines[k]).None? {
        var k :| 0 <= k < |lines| && parse(lines[k]).None?;
        if k > 0 {
          assert lines[1..][k - 1] == lines[k];
        }
      }
    }
  }

  /** When the playlist batch succeeds it keeps the same objects as search would
      from the same lines, given that blank text never parses (as with JSON.parse).
      So every object it keeps carries a non-empty id as well. */
  lemma {:induction false} PlaylistAgreesWithSearch(lines: seq<string>, parse: JsonParser)
    requires forall l :: IsBlank(l) ==> parse(l).None?
    requires PlaylistVideos(lines, parse).Ok?
    ensures PlaylistVideos(lines, parse).value == SearchVideos(lines, parse)
  {
    if lines != [] {
      PlaylistAgreesWithSearch(lines[1..], parse);
    }
  }

  /** `videos.map(...)`: every kept object through the shared normalisation. */
  function NormalizeAll(videos: seq<RawVideo>): (r: seq<YtDlpMetadata>)
    ensures |r| == |videos|
    ensures forall k :: 0 <= k < |r| ==> r[k] == Normalize(videos[k])
    ensures forall k :: 0 <= k < |r| ==> r[k].id == videos[k].id && r[k].title == videos[k].title
  {
    seq(|videos|, k requires 0 <= k < |videos| => Normalize(videos[k]))
  }

  /** Search output: `stdout.trim().split('\n')`, then SearchVideos, then the normalisation.
      At most one item per non-blank line, each with a non-empty id. */
  function SearchResults(stdout: string, parse: JsonParser): (r: seq<YtDlpMetadata>)
    ensures |r| <= CountNonBlank(Split(Trim(stdout)))
    ensures forall m :: m in r ==> Truthy(m.id)
  {
    var videos := SearchVideos(Split(Trim(stdout)), parse);
    SearchVideosIdentified(Split(Trim(stdout)), parse);
    assert forall k :: 0 <= k < |videos| ==> videos[k] in videos;
    NormalizeAll(videos)
  }

  /** Playlist output: `stdout.trim().split('\n')`, then PlaylistVideos, then the normalisation.
      It fails, with a JSON error, exactly when some line does not parse; otherwise
      every item has a non-empty id. */
  function PlaylistResults(stdout: string, parse: JsonParser): (r: Result<seq<YtDlpMetadata>, DecodeError>)
    ensures r.Err? ==> r.error == InvalidJson
    ensures r.Err? <==> exists k :: 0 <= k < |Split(Trim(stdout))| && parse(Split(Trim(stdout))[k]).None?
    ensures r.Ok? ==> forall m :: m in r.value ==> Truthy(m.id)
  {
    var lines := Split(Trim(stdout));
    PlaylistFailsIffSomeLineMalformed(lines, parse);
    var batch := PlaylistVideos(lines, parse);
    if batch.Err? then
      assert exists k :: 0 <= k < |Split(Trim(stdout))| && parse(Split(Trim(stdout))[k]).None?;
      Err(batch.error)
    else
      var videos := batch.value;
      PlaylistVideosIdentified(lines, parse);
      assert forall k :: 0 <= k < |videos| ==> videos[k] in videos;
      Ok(NormalizeAll(videos))
  }

  /** Empty (or all-whitespace) playlist output fails, since `''.split('\n')` is `['']`
      and JSON.parse rejects `''`; search returns nothing for it. */
  lemma EmptyOutput(stdout: string, parse: JsonParser)
    requires forall k :: 0 <= k < |stdout| ==> IsWhitespace(stdout[k])
    requires parse("") == None
    ensures PlaylistResults(stdout, parse) == Err(InvalidJson)
    ensures SearchResults(stdout, parse) == []
  {
    BlankIffAllWhitespace(stdout);
    assert Split("") == [""];
    assert IsBlank("");
  }

  // --------------------------------------------------- argument vectors, timeouts

  /** The command line yt-dlp is started with, and the time it is given. */
  datatype Invocation = Invocation(args: seq<string>, timeout: nat)

  const MetadataTimeout: nat := 60000
  const PlaylistTimeout: nat := 120000
  const SearchTimeout: nat := 60000

  function MetadataInvocation(url: string): Invocation {
    Invocation(["--dump-json", "--no-warnings", "--no-playlist", "--flat-playlist", url], MetadataTimeout)
  }

  function PlaylistInvocation(url: string): Invocation {
    Invocation(["--dump-json", "--no-warnings", "--flat-playlist", url], PlaylistTimeout)
  }

  /** yt-dlp's search pseudo-URL for the first `maxResults` hits of `query`. */
  function SearchTarget(query: string, maxResults: nat): string {
    "ytsearch" + NatToString(maxResults) + ":" + query
  }

  function SearchInvocation(query: string, maxResults: nat := 10): Invocation {
    Invocation(["--dump-json", "--no-warnings", "--flat-playlist", "--no-playlist", SearchTarget(query, maxResults)], SearchTimeout)
  }

  function WatchUrl(youtubeId: string): string {
    "https://www.youtube.com/watch?v=" + youtubeId
  }

  /** `-g` prints the direct URL of the `bestaudio` format instead of downloading. */
  function StreamInvocation(youtubeId: string): Invocation {
    Invocation(["-g", "-f", "bestaudio", WatchUrl(youtubeId)], DefaultTimeout)
  }

  function UpdateInvocation(): Invocation {
    Invocation(["-U"], DefaultTimeout)
  }

  /** How the search pseudo-URL reads back: the count is the digits between
      `ytsearch` and the first colon, the query is everything after it. */
  function ParseSearchTarget(s: string): Option<(nat, string)> {
    if |s| < 8 || s[..8] != "ytsearch" then None
    else
      var rest := s[8..];
      var i := IndexOf(rest, ':');
      if i <= 0 || !AllDigits(rest[..i]) then None
      else Some((ParseNat(rest[..i]), rest[i + 1..]))
  }

  /** The search argument carries the result count and the query, colons in the
      query included, so that both read back unchanged. */
  lemma SearchTargetRoundTrip(query: string, maxResults: nat)
    ensures ParseSearchTarget(SearchTarget(query, maxResults)) == Some((maxResults, query))
  {
    var digits := NatToString(maxResults);
    var s := SearchTarget(query, maxResults);
    assert s[..8] == "ytsearch";
    assert s[8..] == digits + [':'] + query;
    NoColonInDigits(digits);
    IndexOfAfterPrefix(digits, ':', query);
    assert s[8..][..|digits|] == digits;
    assert s[8..][|digits| + 1..] == query;
    ParseNatToString(maxResults);
  }

  /** The id reads back out of the watch URL. */
  function VideoIdOf(url: string): Option<string> {
    var prefix := "https://www.youtube.com/watch?v=";
    if |url| >= |prefix| && url[..|prefix|] == prefix then Some(url[|prefix|..]) else None
  }

  lemma WatchUrlRoundTrip(youtubeId: string)
    ensures VideoIdOf(WatchUrl(youtubeId)) == Some(youtubeId)
  {
    var url := WatchUrl(youtubeId);
    assert url[..32] == "https://www.youtube.com/watch?v=";
    assert url[32..] == youtubeId;
  }

  /** The metadata operations all request JSON in flat-playlist mode with the
      locator last; the single-item and search calls disable playlist traversal,
      the playlist call does not; the playlist call has the longest time budget. */
  lemma InvocationShapes(url: string, query: string, maxResults: nat, youtubeId: string)
    ensures var m, p, s := MetadataInvocation(url), PlaylistInvocation(url), SearchInvocation(query, maxResults);
      && (forall inv | inv in {m, p, s} :: inv.args[0] == "--dump-json" && "--flat-playlist" in inv.args)
      && m.args[|m.args| - 1] == url && p.args[|p.args| - 1] == url
      && s.args[|s.args| - 1] == SearchTarget(query, maxResults)
      && "--no-playlist" in m.args && "--no-playlist" in s.args
      && (url != "--no-playlist" ==> "--no-playlist" !in p.args)
      && p.timeout > m.timeout == s.timeout > StreamInvocation(youtubeId).timeout == UpdateInvocation().timeout
  {
    var p := PlaylistInvocation(url);
    assert p.args == ["--dump-json", "--no-warnings", "--flat-playlist", url];
  }

  // ----------------------------------------------------------- exported functions

  /** yt-dlp as the code sees it: the outcome `executeYtDlp` settles with for an invocation. */
  type Runner = Invocation -> ProcessOutcome

  /** A runner that answers only what a run of `executeYtDlp` with the
      invocation's timeout can settle with, for some sequence of events. */
  ghost predicate ValidRunner(run: Runner) {
    forall inv: Invocation :: exists t: seq<Event> :: SettledOf(t, inv.timeout) == Some(run(inv))
  }

  /** The errors such a runner reports have the shapes `executeYtDlp` gives them. */
  lemma ValidRunnerOutcomes(run: Runner, inv: Invocation)
    requires ValidRunner(run)
    ensures run(inv).Err? && run(inv).error.Timeout? ==> run(inv).error.message == TimeoutMessage(inv.timeout)
    ensures run(inv).Err? && run(inv).error.NonZeroExit? ==> run(inv).error.message != ""
  {
    var t :| SettledOf(t, inv.timeout) == Some(run(inv));
    SettledOutcomeShape(t, inv.timeout);
  }

  datatype Operation = Metadata | StreamUrl | Update | PlaylistMetadata | Search

  /** The cause an operation's rethrown error wraps. */
  datatype Cause = ProcessFailed(processError: ProcessError) | Undecodable(decodeError: DecodeError)

  /** An operation's rejection: the message is `FailurePrefix(op) + ": " + cause`. */
  datatype Failure = Failure(op: Operation, cause: Cause)

  function FailurePrefix(op: Operation): string {
    match op
    case Metadata => "Failed to get metadata"
    case StreamUrl => "Failed to get stream URL"
    case Update => "Failed to update yt-dlp"
    case PlaylistMetadata => "Failed to get playlist metadata"
    case Search => "Failed to search YouTube"
  }

  /** Runs `inv` and decodes its stdout with `decode`; either failure is wrapped for `op`. */
  function RunAndDecode<T>(op: Operation, inv: Invocation, run: Runner, decode: string -> Result<T, DecodeError>): (r: Result<T, Failure>)
    ensures run(inv).Err? ==> r == Err(Failure(op, ProcessFailed(run(inv).error)))
    ensures run(inv).Ok? && decode(run(inv).value).Err? ==> r == Err(Failure(op, Undecodable(decode(run(inv).value).error)))
    ensures run(inv).Ok? && decode(run(inv).value).Ok? ==> r == Ok(decode(run(inv).value).value)
  {
    match run(inv)
    case Err(e) => Err(Failure(op, ProcessFailed(e)))
    case Ok(stdout) =>
      match decode(stdout)
      case Err(e) => Err(Failure(op, Undecodable(e)))
      case Ok(v) => Ok(v)
  }

  function GetYoutubeMetadata(url: string, run: Runner, parse: JsonParser): Result<YtDlpMetadata, Failure> {
    RunAndDecode(Metadata, MetadataInvocation(url), run, stdout => DecodeSingle(stdout, parse))
  }

  /** `getStreamUrl`: the trimmed stdout. */
  function GetStreamUrl(youtubeId: string, run: Runner): (r: Result<string, Failure>)
    ensures r.Ok? <==> run(StreamInvocation(youtubeId)).Ok?
    ensures r.Ok? ==> r.value == Trim(run(StreamInvocation(youtubeId)).value)
    ensures r.Ok? ==> r.value == [] || (!IsWhitespace(r.value[0]) && !IsWhitespace(r.value[|r.value| - 1]))
    ensures r.Err? ==> r == Err(Failure(StreamUrl, ProcessFailed(run(StreamInvocation(youtubeId)).error)))
  {
    var out := run(StreamInvocation(youtubeId));
    TrimIsMaximalSlice(if out.Ok? then out.value else "");
    RunAndDecode(StreamUrl, StreamInvocation(youtubeId), run, stdout => Ok(Trim(stdout)))
  }

  /** `updateYtDlp`: the trimmed stdout of `yt-dlp -U`. */
  function UpdateYtDlp(run: Runner): (r: Result<string, Failure>)
    ensures r.Ok? <==> run(UpdateInvocation()).Ok?
    ensures r.Ok? ==> r.value == Trim(run(UpdateInvocation()).value)
    ensures r.Err? ==> r == Err(Failure(Update, ProcessFailed(run(UpdateInvocation()).error)))
  {
    RunAndDecode(Update, UpdateInvocation(), run, stdout => Ok(Trim(stdout)))
  }

  function GetYoutubePlaylistMetadata(url: string, run: Runner, parse: JsonParser): Result<seq<YtDlpMetadata>, Failure> {
    RunAndDecode(PlaylistMetadata, PlaylistInvocation(url), run, stdout => PlaylistResults(stdout, parse))
  }

  /** `searchYoutube`: never fails on bad output, only when the process fails. */
  function SearchYoutube(query: string, run: Runner, parse: JsonParser, maxResults: nat := 10): (r: Result<seq<YtDlpMetadata>, Failure>)
    ensures r.Err? <==> run(SearchInvocation(query, maxResults)).Err?
    ensures r.Ok? ==> r.value == SearchResults(run(SearchInvocation(query, maxResults)).value, parse)
    ensures r.Ok? ==> forall k :: 0 <= k < |r.value| ==> Truthy(r.value[k].id)
  {
    var out := run(SearchInvocation(query, maxResults));
    var videos := SearchVideos(Split(Trim(if out.Ok? then out.value else "")), parse);
    SearchVideosIdentified(Split(Trim(if out.Ok? then out.value else "")), parse);
    assert out.Ok? ==> SearchResults(out.value, parse) == NormalizeAll(videos);
    RunAndDecode(Search, SearchInvocation(query, maxResults), run, stdout => Ok(SearchResults(stdout, parse)))
  }

  /** A failed process surfaces unchanged through every operation, tagged with it. */
  lemma ProcessFailurePropagates(url: string, query: string, youtubeId: string, run: Runner, parse: JsonParser, e: ProcessError)
    requires forall inv :: run(inv) == Err(e)
    ensures GetYoutubeMetadata(url, run, parse) == Err(Failure(Metadata, ProcessFailed(e)))
    ensures GetStreamUrl(youtubeId, run) == Err(Failure(StreamUrl, ProcessFailed(e)))
    ensures UpdateYtDlp(run) == Err(Failure(Update, ProcessFailed(e)))
    ensures GetYoutubePlaylistMetadata(url, run, parse) == Err(Failure(PlaylistMetadata, ProcessFailed(e)))
    ensures SearchYoutube(query, run, parse) == Err(Failure(Search, ProcessFailed(e)))
  {
  }

  /** A metadata lookup that times out reports the one-minute limit it was given. */
  lemma MetadataTimeoutReported(url: string, run: Runner, parse: JsonParser)
    requires ValidRunner(run)
    requires run(MetadataInvocation(url)).Err? && run(MetadataInvocation(url)).error.Timeout?
    ensures GetYoutubeMetadata(url, run, parse)
      == Err(Failure(Metadata, ProcessFailed(Timeout("Process timeout after " + NatToString(60000) + "ms"))))
  {
    ValidRunnerOutcomes(run, MetadataInvocation(url));
  }

  // ------------------------------------------------------------------ scenarios

  const ExampleDocument := "{\"id\":\"abc123\",\"title\":\"Song A\",\"channel\":\"Chan\",\"duration\":180,"
    + "\"thumbnails\":[{\"url\":\"http://x/small.jpg\",\"width\":120},{\"url\":\"http://x/big.jpg\",\"width\":480}]}"

  /** A single video with two thumbnails: the wider one is chosen and the fields pass through. */
  lemma SingleItemScenario(run: Runner, parse: JsonParser)
    requires run(MetadataInvocation("https://youtube.com/watch?v=abc123")) == Ok(ExampleDocument)
    requires parse(ExampleDocument) == Some(JsonObject(RawVideo(
      Some("abc123"), Some("Song A"), Some("Chan"), None, Some(180),
      Some([Thumbnail(Some("http://x/small.jpg"), Some(120)), Thumbnail(Some("http://x/big.jpg"), Some(480))]))))
    ensures GetYoutubeMetadata("https://youtube.com/watch?v=abc123", run, parse)
      == Ok(YtDlpMetadata(Some("abc123"), Some("Song A"), "Chan", "http://x/big.jpg", 180))
  {
    var ts := [Thumbnail(Some("http://x/small.jpg"), Some(120)), Thumbnail(Some("http://x/big.jpg"), Some(480))];
    assert WidestCandidate(ts) == Some(1) by {
      assert ts[1..] == [ts[1]];
      assert ts[1..][1..] == [];
    }
  }

  /** Three search lines, the middle one malformed: the other two come back in order. */
  lemma SearchScenario(a: string, bad: string, c: string, parse: JsonParser, ra: RawVideo, rc: RawVideo)
    requires !IsBlank(a) && !IsBlank(c) && '\n' !in a && '\n' !in bad && '\n' !in c
    requires parse(a) == Some(JsonObject(ra)) && Truthy(ra.id)
    requires parse(bad) == None
    requires parse(c) == Some(JsonObject(rc)) && Truthy(rc.id)
    ensures SearchVideos(Split(a + "\n" + bad + "\n" + c), parse) == [ra, rc]
  {
    SplitOfJoined(a, bad, c);
    assert [a, bad, c] == [a] + ([bad] + [c]);
    SearchVideosAppend([a], [bad] + [c], parse);
    SearchVideosAppend([bad], [c], parse);
    SearchSingleLine(a, parse);
    SearchSingleLine(bad, parse);
    SearchSingleLine(c, parse);
  }

  /** Three lines without line feeds, joined by line feeds, split back apart. */
  lemma SplitOfJoined(a: string, b: string, c: string)
    requires '\n' !in a && '\n' !in b && '\n' !in c
    ensures Split(a + "\n" + b + "\n" + c) == [a, b, c]
  {
    SplitSingleLine(c);
    SplitPrefixLine(b, c);
    assert b + "\n" + c == b + ['\n'] + c;
    SplitPrefixLine(a, b + "\n" + c);
    assert a + "\n" + b + "\n" + c == a + ['\n'] + (b + "\n" + c);
  }

  /** A line without line feeds, then a line feed, splits off as the first piece. */
  lemma {:induction false} SplitPrefixLine(a: string, rest: string)
    requires '\n' !in a
    ensures Split(a + ['\n'] + rest) == [a] + Split(rest)
  {
    if a == [] {
      assert a + ['\n'] + rest == ['\n'] + rest;
      assert (['\n'] + rest)[1..] == rest;
    } else {
      var s := a + ['\n'] + rest;
      assert s[1..] == a[1..] + ['\n'] + rest;
      assert '\n' !in a[1..] by {
        forall k | 0 <= k < |a[1..]| ensures a[1..][k] != '\n' {
          assert a[1..][k] == a[k + 1];
        }
      }
      SplitPrefixLine(a[1..], rest);
      assert [a[0]] + a[1..] == a;
    }
  }
}
