# bitify core, modelled in Dafny

bitify is a self-hosted music player that plays YouTube audio through yt-dlp.
This project models five pieces of its logic and proves properties about them:

- **The stream-URL cache** (`lib/cache.ts`) is the class `Cache.StreamCache`. Its
  map field goes from a YouTube id to the resolved URL and the time it was stored.
  `Get` evicts an entry lazily once it is more than one hour old. `Set` overwrites
  the entry and `Clear` empties the map. `Date.now()` is an explicit `now` argument.
- **The yt-dlp front end** (`lib/ytdlp.ts`) is split between two modules.
  - `YtDlpProcess` settles the promise of `executeYtDlp`. Its class `ProcessRun`
    keeps the handlers' variables. A ghost trace of the events handled so far ties
    each variable to a function of that trace. `CloseOutcome` decides the exit-code
    outcome.
  - `YtDlp` holds:
    - the argument vector and timeout of every exported function;
    - the normalisation of one parsed object (thumbnail choice, channel chain,
      duration default), which all three decoders share;
    - the two batch line parsers, with their different error policies;
    - the exported functions themselves, over a process oracle `run` and a
      `JSON.parse` oracle `parse`.
- **The playback queue** (`components/PlayerContext.tsx`) is the class
  `PlayerContext.PlayerProvider`, which has the provider's six state fields. Each
  handler is proved to move the state as the matching pure transition function
  (`AfterPlayNext`, `AfterToggleShuffle`, …) says. The Fisher–Yates loop
  `ShuffleInPlace` swaps the elements of an array in place. `Math.random` is the
  `rolls` oracle: at position `i` the loop draws an index `rolls[i]` in `[0, i]`.
- **The player-bar guards** (`components/GlobalPlayer.tsx`) are `GlobalPlayer.Props`,
  which derives the bar's props from the queue state.
- **`formatDuration`** (`components/SongCard.tsx`) is `SongCard.FormatDuration`, with
  JavaScript's `%` written out. `SongCard.ParseDuration` is a reference reader of
  `m:ss` text.

`JsString` models the JavaScript string built-ins that the code relies on:
- `trim`, which removes the ECMAScript whitespace set;
- `split('\n')`;
- decimal rendering of integers (`toString` and template literals);
- `padStart`.

`JsString.IndexOf` is not one of them: the code never calls `indexOf`. It serves
only the model's own readers, `YtDlp.ParseSearchTarget` and `SongCard.ParseDuration`,
which the round-trip lemmas use.

`Wrappers` holds `Option` and `Result`.

Some members have no contract of their own; their properties are stated by the
members in the table:
- every argument vector (`MetadataInvocation`, `PlaylistInvocation`,
  `SearchInvocation`, `StreamInvocation`, `UpdateInvocation`), covered by
  `InvocationShapes` and the two round-trip lemmas;
- `GetYoutubeMetadata` and `GetYoutubePlaylistMetadata`, covered by `RunAndDecode`
  with `DecodeSingle` and `PlaylistResults`, by `ProcessFailurePropagates`,
  `MetadataTimeoutReported` and, for the single-item call, `SingleItemScenario`;
- `SongCard.FormatDuration`, covered by `FormatDurationShape`,
  `FormatDurationRoundTrip`, `FormatDurationTwoDigitSeconds`,
  `FormatDurationUnderAMinute`, `FormatDurationWholeMinutes` and
  `FormatDurationNegative`;
- `GlobalPlayer.Props` and `GlobalPlayer.NextSong`, covered by
  `NextSongIsPlayNextTarget`, `OnNextIffNextSong`, `OnPreviousIffPlayPreviousMoves`
  and `OnToggleShuffleIffPlaylist`;
- `YtDlp.SelectThumbnail`, covered by `ThumbnailChoice` and `Normalize`;
- `JsString.Trim`, covered by `TrimIsMaximalSlice`, `TrimIdempotent` and
  `BlankIffAllWhitespace`;
- `YtDlpProcess.StdoutOf`, `StderrOf`, `ResolvedOf`, `Handle` and `SettledOf`,
  covered by `Step`, the invariant `ProcessRun.Valid` that every handler keeps,
  and the lemmas from `StdoutOfAppend` to `SettledOutcomeShape`;
- `YtDlp.ValidRunner`, the assumption that the process oracle answers only what
  `executeYtDlp` can settle with, covered by `ValidRunnerOutcomes`;
- the queue transitions, covered by the lemmas that follow them.

## Model

| member | source | states |
|---|---|---|
| Cache.Lookup | lib/cache.ts:17-28 | `get` yields something exactly when the key is present and its entry is not expired, and then it yields the stored URL |
| Cache.AfterGet | lib/cache.ts:22-25 | `get` removes only the key it reads, and only when that entry is expired; every remaining entry is unchanged |
| Cache.AfterSet | lib/cache.ts:10-15 | `set` adds or overwrites only its own key, stamping the entry with `now`; every other entry is unchanged |
| Cache.StreamCache.constructor | lib/cache.ts:7 | the cache starts empty |
| Cache.StreamCache.Set | lib/cache.ts:10-15 | the new map is the old one with `id` bound to `(url, now)` |
| Cache.StreamCache.Get | lib/cache.ts:17-28 | returns what `Lookup` says of the old map, and leaves the map `AfterGet` says |
| Cache.StreamCache.Clear | lib/cache.ts:30-32 | the map becomes empty |
| Cache.SetThenGetWithinTtl | lib/cache.ts:8-27 | after a store at t, a get at any t' with t' - t <= 3600000 returns the URL and changes nothing; an entry exactly one hour old is still served |
| Cache.SetThenGetAfterTtl | lib/cache.ts:22-25 | past the TTL, get returns nothing, deletes the key, and a second get misses too |
| Cache.GetAbsentKey | lib/cache.ts:18-19 | a get of an absent key misses and leaves the map unchanged |
| Cache.GetHitUnchanged | lib/cache.ts:17-28 | a get that hits leaves the map unchanged |
| Cache.GetTouchesOnlyItsKey | lib/cache.ts:22-23 | a get never adds or removes any other key |
| Cache.SetLeavesOtherKeys | lib/cache.ts:10-15 | set keeps every other key's answer, stale or fresh, and commutes with a get of another key |
| Cache.ClearedMissesEverything | lib/cache.ts:30-32 | after clear every get misses |
| Cache.MissStoreHit | lib/cache.ts:10-28 | a miss, then a store, then a get within the hour returns the stored URL |
| Cache.PlaybackScenario | lib/cache.ts:10-28 | the same sequence run against the class: a fresh cache misses, then hits with the URL |
| YtDlpProcess.CloseOutcome | lib/ytdlp.ts:49-55 | the `close` handler resolves exactly on exit code 0, with stdout; on any other code (or a signal's `null`) it rejects, with stderr when that is non-empty and `Process exited with code N` otherwise |
| YtDlpProcess.Step | lib/ytdlp.ts:34-64 | one more event appends its stdout or stderr chunk, sets the resolved flag only on `close` or `error`, and settles the promise only if it has not settled yet |
| YtDlpProcess.ProcessRun.constructor | lib/ytdlp.ts:21-23 | empty stdout and stderr, not resolved, not settled, no events, and the given timeout (30000 by default) |
| YtDlpProcess.ProcessRun.Settle | lib/ytdlp.ts:18 | a promise settles at most once: the first outcome is kept |
| YtDlpProcess.ProcessRun.OnStdoutData | lib/ytdlp.ts:34-36 | `stdout += data` keeps the invariant that stdout is every stdout chunk handled so far, in order |
| YtDlpProcess.ProcessRun.OnStderrData | lib/ytdlp.ts:38-40 | the same invariant for stderr |
| YtDlpProcess.ProcessRun.OnClose | lib/ytdlp.ts:42-56 | the `close` handler keeps all four variables equal to their trace functions |
| YtDlpProcess.ProcessRun.OnSpawnError | lib/ytdlp.ts:58-64 | the `error` handler rejects with the cause unless the run is already resolved, and keeps the invariant |
| YtDlpProcess.ProcessRun.OnTimerFired | lib/ytdlp.ts:26-32 | the timer rejects with `Process timeout after Nms` unless the run is resolved, without setting the flag, and keeps the invariant |
| YtDlpProcess.StdoutOfAppend | lib/ytdlp.ts:34-36 | stdout accumulates in order: the stdout of two consecutive stretches of events is their stdouts concatenated |
| YtDlpProcess.UnsettledIsUnresolved | lib/ytdlp.ts:42-64 | while the promise is unsettled, no `close` or `error` has been handled |
| YtDlpProcess.SettledIsFinal | lib/ytdlp.ts:18-65 | once settled, the outcome never changes, whatever events follow |
| YtDlpProcess.FirstTerminalEventWins | lib/ytdlp.ts:26-64 | the first `close`, `error` or timer event decides the outcome |
| YtDlpProcess.CleanExitYieldsAllStdout | lib/ytdlp.ts:34-56 | a first terminal event that is exit code 0 resolves with all stdout received before it, in order |
| YtDlpProcess.LaterEventsIgnored | lib/ytdlp.ts:42-44 | once `close` or `error` has set `isResolved`, later events make no resolve or reject call |
| YtDlpProcess.TimeoutThenClose | lib/ytdlp.ts:26-32 | after a timeout the `close` handler still calls reject or resolve, and only the settle-once rule keeps the timeout as the outcome |
| YtDlpProcess.SettledOutcomeShape | lib/ytdlp.ts:26-56 | whatever the promise settles with, a timeout carries `Process timeout after Nms` for its own limit and a failed exit a non-empty message |
| JsString.TrimStartSpec | lib/ytdlp.ts:134 | `trimStart` drops exactly the leading whitespace and stops at a non-whitespace character |
| JsString.TrimEndSpec | lib/ytdlp.ts:134 | `trimEnd` drops exactly the trailing whitespace |
| JsString.TrimIsMaximalSlice | lib/ytdlp.ts:134 | `trim` yields the slice between the leading and trailing whitespace; the slice is empty or has non-whitespace at both ends |
| JsString.TrimIdempotent | lib/ytdlp.ts:134 | trimming twice is trimming once |
| JsString.BlankIffAllWhitespace | lib/ytdlp.ts:224 | `line.trim()` is falsy exactly when every character of the line is whitespace |
| JsString.Split | lib/ytdlp.ts:166 | `split('\n')` yields at least one piece, and no piece contains a line feed |
| JsString.JoinSplit | lib/ytdlp.ts:166 | splitting loses nothing: joining the pieces with line feeds gives back the input |
| JsString.SplitSingleLine | lib/ytdlp.ts:166 | a string without line feeds splits into just itself |
| JsString.NatToString | components/SongCard.tsx:32 | decimal rendering gives at least one character, all of them digits |
| JsString.NatToStringNoLeadingZero | components/SongCard.tsx:32 | the text has no leading zero, and it is one character long exactly for values below 10 |
| JsString.ParseNatToString | components/SongCard.tsx:32 | reading the decimal text back gives the number |
| JsString.PadStart | components/SongCard.tsx:32 | the result is at least as long as the requested width, ends with the input, and is fill characters before it |
| YtDlp.OrElse | lib/ytdlp.ts:115 | `a \|\| b` on an optional string: `a` when it is present and non-empty, else `b` |
| YtDlp.WidestCandidate | lib/ytdlp.ts:95-101 | the first element of the filtered, stably sorted list: none exactly when no entry has a url; otherwise an entry with a url whose width (missing = 0) is at least every other candidate's and strictly greater than every earlier candidate's |
| YtDlp.WidestCandidateUnique | lib/ytdlp.ts:97-101 | the characterisation picks one entry: two earliest-widest candidates are the same index |
| YtDlp.ThumbnailChoice | lib/ytdlp.ts:92-108 | the thumbnail is the earliest widest candidate's url; without a candidate it is the `hqdefault.jpg` URL when an id is present, else empty, and the `thumbnails[0]?.url` fallback never contributes |
| YtDlp.Normalize | lib/ytdlp.ts:112-118 | id and title pass through unchanged, the channel is never empty, and the thumbnail is empty exactly when there is neither a candidate nor an id |
| YtDlp.NormalizedDefaults | lib/ytdlp.ts:115-117 | channel is `channel`, else `uploader`, else `Unknown`, with empty strings falling through; duration is the given value, else 0 |
| YtDlp.DecodeSingle | lib/ytdlp.ts:87-118 | the single-item decoder fails when the output does not parse or parses to `null`; it succeeds on any object, without checking the id, and then yields that object's normalisation |
| YtDlp.SearchVideos | lib/ytdlp.ts:224-231 | search keeps at most as many objects as there are non-blank lines |
| YtDlp.SearchVideosIdentified | lib/ytdlp.ts:231 | every object search keeps has a non-empty id |
| YtDlp.SearchSingleLine | lib/ytdlp.ts:224-231 | search drops a line exactly when it is blank, fails to parse, parses to `null` or lacks a truthy id; otherwise it keeps that line's object |
| YtDlp.SearchVideosAppend | lib/ytdlp.ts:224-231 | search keeps input order and decides each line independently: the result for `a + b` is the result for `a` followed by the result for `b` |
| YtDlp.PlaylistVideos | lib/ytdlp.ts:166-167 | the playlist batch fails only with a parse error, and keeps at most one object per line |
| YtDlp.PlaylistFailsIffSomeLineMalformed | lib/ytdlp.ts:166-167 | the playlist batch fails exactly when some line does not parse |
| YtDlp.PlaylistVideosIdentified | lib/ytdlp.ts:167 | every object a successful playlist batch keeps has a non-empty id |
| YtDlp.PlaylistAgreesWithSearch | lib/ytdlp.ts:166-167 | a successful playlist batch keeps, in order, the same objects search keeps from the same lines, given that blank text never parses |
| YtDlp.NormalizeAll | lib/ytdlp.ts:171-198 | the batch map keeps one record per object, in order: each is that object's normalisation, with the same id and title |
| YtDlp.SearchResults | lib/ytdlp.ts:224-235 | the search decoder yields at most one record per non-blank line of the trimmed output, each with a non-empty id |
| YtDlp.PlaylistResults | lib/ytdlp.ts:166-171 | the playlist decoder fails, with a JSON error, exactly when some line of the trimmed output does not parse; otherwise every record has a non-empty id |
| YtDlp.EmptyOutput | lib/ytdlp.ts:166-167 | all-whitespace output fails the playlist decoder, because `''` does not parse, and gives an empty search result |
| YtDlp.SearchTargetRoundTrip | lib/ytdlp.ts:220 | `ytsearch{n}:{query}` reads back the count and the query unchanged, even when the query contains colons |
| YtDlp.WatchUrlRoundTrip | lib/ytdlp.ts:131 | the watch URL reads back the video id |
| YtDlp.InvocationShapes | lib/ytdlp.ts:79-85 | every metadata call asks for `--dump-json` and `--flat-playlist` with the locator last; single-item and search add `--no-playlist`, playlist does not; timeouts are 120000 for playlist > 60000 for single-item and search > 30000 for stream and update |
| YtDlp.RunAndDecode | lib/ytdlp.ts:119-122 | a process failure, or else a decoding failure, is rethrown tagged with the operation; otherwise the decoded value is returned |
| YtDlp.GetStreamUrl | lib/ytdlp.ts:125-138 | the stream call succeeds exactly when the process does, and then returns the trimmed stdout, whose ends are not whitespace |
| YtDlp.UpdateYtDlp | lib/ytdlp.ts:140-147 | the update call succeeds exactly when `yt-dlp -U` does, and then returns the trimmed stdout |
| YtDlp.SearchYoutube | lib/ytdlp.ts:206-266 | search fails only when the process fails, never on bad output; every returned record has a non-empty id |
| YtDlp.ValidRunnerOutcomes | lib/ytdlp.ts:17-66 | a process oracle that answers only what `executeYtDlp` can settle with reports timeouts with the invocation's own limit and failed exits with a non-empty message |
| YtDlp.MetadataTimeoutReported | lib/ytdlp.ts:79-85 | a metadata lookup that times out is rethrown with the message for its 60000 ms limit |
| YtDlp.ProcessFailurePropagates | lib/ytdlp.ts:119-122 | a failed process surfaces unchanged through all five operations, tagged with the operation |
| YtDlp.SingleItemScenario | lib/ytdlp.ts:87-118 | a concrete document with two thumbnails decodes with the wider one and its fields passed through |
| YtDlp.SearchScenario | lib/ytdlp.ts:224-231 | three lines with a malformed middle one give the outer two objects, in order |
| YtDlp.SplitOfJoined | lib/ytdlp.ts:224 | three lines joined by line feeds split back apart |
| PlayerContext.Lift | components/PlayerContext.tsx:41 | a song list becomes a queue of the same length and the same songs |
| PlayerContext.FindIndex | components/PlayerContext.tsx:85 | `findIndex` returns -1 exactly when no song has the id, and otherwise the first index with that id |
| PlayerContext.PlayerProvider.constructor | components/PlayerContext.tsx:31-36 | the `useState` initial values: no song, index -1, empty queue, flags false, empty original order |
| PlayerContext.PlayerProvider.PlaySong | components/PlayerContext.tsx:38-46 | the new state is `AfterPlaySong` of the old one |
| PlayerContext.PlayerProvider.PlayNext | components/PlayerContext.tsx:48-54 | the new state is `AfterPlayNext` of the old one |
| PlayerContext.PlayerProvider.PlayPrevious | components/PlayerContext.tsx:56-62 | the new state is `AfterPlayPrevious` of the old one |
| PlayerContext.PlayerProvider.ToggleShuffle | components/PlayerContext.tsx:64-90 | the new state is `AfterToggleShuffle` of the old one; this includes the in-place loop over the array of other songs |
| PlayerContext.PlayerProvider.SetPlaylist | components/PlayerContext.tsx:92-94 | the new state is `AfterSetPlaylist` of the old one |
| PlayerContext.PlayerProvider.ClearPlayer | components/PlayerContext.tsx:96-102 | the new state is `AfterClearPlayer` of the old one |
| PlayerContext.ShuffleInPlace | components/PlayerContext.tsx:73-76 | the downward swap loop leaves the array equal to `FisherYates` of its old contents |
| PlayerContext.ShuffleFromPermutes | components/PlayerContext.tsx:73-76 | the swap loop only reorders: same length, same multiset |
| PlayerContext.SwapPermutes | components/PlayerContext.tsx:75 | one destructuring swap keeps the length and the multiset |
| PlayerContext.FisherYatesPermutes | components/PlayerContext.tsx:73-76 | the shuffled list is a permutation of the list shuffled |
| PlayerContext.RemoveAtMultiset | components/PlayerContext.tsx:70 | filtering out an in-range index removes exactly that element |
| PlayerContext.EnableShuffle | components/PlayerContext.tsx:67-81 | enabling shuffle puts the current element first, followed by a permutation of the others; same length and multiset; index 0; shuffled; song, playlist flag and original order unchanged |
| PlayerContext.EnableShuffleOutOfRange | components/PlayerContext.tsx:69-78 | from an out-of-range index, an `undefined` element goes first and every queued element follows |
| PlayerContext.DisableShuffle | components/PlayerContext.tsx:82-89 | disabling shuffle restores the original order; the index is -1 exactly when no song has the current id, and otherwise points at a song with that id |
| PlayerContext.ToggleShuffleGuard | components/PlayerContext.tsx:65 | without a current song, or outside a playlist, the toggle changes nothing |
| PlayerContext.ShuffleRoundTrip | components/PlayerContext.tsx:38-89 | right after a playlist starts, with distinct ids, shuffling on then off restores exactly the state `playSong` set |
| PlayerContext.PlayNextBounds | components/PlayerContext.tsx:48-54 | `playNext` moves one ahead to `playlist[i + 1]` when there is a next index, and otherwise changes nothing; an in-range index stays in range; the queue is untouched |
| PlayerContext.PlayPreviousBounds | components/PlayerContext.tsx:56-62 | `playPrevious` moves one back when the index is positive, and otherwise changes nothing; an in-range index stays in range |
| PlayerContext.StepsLandOnSongs | components/PlayerContext.tsx:48-62 | in a queue with no `undefined` elements, both steps land on a song |
| PlayerContext.PlaySongFields | components/PlayerContext.tsx:38-46 | `playSong` sets the song, index, queue and playlist flag; it records the original order only for a playlist and never touches the shuffle flag |
| PlayerContext.ClearAndSetPlaylistFields | components/PlayerContext.tsx:92-102 | `clearPlayer` resets five fields and keeps the original order; `setPlaylist` replaces only the queue |
| GlobalPlayer.NextSongIsPlayNextTarget | components/GlobalPlayer.tsx:9-14 | `onNext` is offered exactly when `playNext` would move, the prefetched `nextSong` is where it moves, and without `onNext` there is no `nextSong` |
| GlobalPlayer.OnNextIffNextSong | components/GlobalPlayer.tsx:9-14 | in a queue of songs, `onNext` is offered exactly when a `nextSong` is shown; from index -1 that song is the first |
| GlobalPlayer.OnPreviousIffPlayPreviousMoves | components/GlobalPlayer.tsx:15 | `onPrevious` is offered exactly when the index is positive, that is, when `playPrevious` would move |
| GlobalPlayer.OnToggleShuffleIffPlaylist | components/GlobalPlayer.tsx:18 | the shuffle toggle is offered exactly for a playlist; when it is not offered, toggling would change nothing |
| SongCard.JsRemainder60 | components/SongCard.tsx:31 | `s % 60` lies strictly between -60 and 60 and differs from `s` by a multiple of 60; it is never positive for a negative dividend, and for a non-negative dividend it is the mathematical remainder |
| SongCard.Pad2 | components/SongCard.tsx:32 | the seconds text is exactly two digits |
| SongCard.Pad2Value | components/SongCard.tsx:32 | the two digits read back as the seconds |
| SongCard.FormatDurationShape | components/SongCard.tsx:29-33 | for s >= 0 the text is the unpadded decimal of `s / 60`, a colon, and `s % 60` as two digits |
| SongCard.FormatDurationTwoDigitSeconds | components/SongCard.tsx:31-32 | the text ends with a colon followed by exactly two digits |
| SongCard.MinutesSecondsRoundTrip | components/SongCard.tsx:30-32 | minutes and seconds below 60, once written, read back as their total |
| SongCard.FormatDurationRoundTrip | components/SongCard.tsx:30-32 | reading the text back as `m:ss` gives back s, for every s >= 0 |
| SongCard.Pad2Zero | components/SongCard.tsx:32 | zero seconds print as `00` |
| SongCard.FormatDurationUnderAMinute | components/SongCard.tsx:30-32 | under a minute, the minutes print as zero |
| SongCard.FormatDurationWholeMinutes | components/SongCard.tsx:30-32 | `q * 60` prints as the unpadded decimal of q followed by `:00`; the minutes are neither padded nor capped, so 3600 gives `60:00` and 0 gives `0:00` |
| SongCard.FormatDurationNegative | components/SongCard.tsx:30-31 | a negative count keeps JavaScript's signs: -5 gives `-1:-5` |

## Left out

- The process lifecycle of `executeYtDlp` is left out: `spawn`, `kill`, scheduling the timer, and `clearTimeout` (lib/ytdlp.ts:17-32). The child process is the sequence of events its handlers receive, and each exported operation sees only the `run` oracle's settled outcome.
- Choosing the yt-dlp command by platform (lib/ytdlp.ts:5-14) is OS detection and is left out.
- All `console.log` and `console.error` calls are left out. They only log.
- `JSON.parse` and the exact JSON shapes are the `parse` oracle.
  - A non-array `thumbnails` value reads as absent.
  - A parsed non-null primitive reads as an object with every field absent.
  - A `null` entry inside `thumbnails` is not modelled; in the source it would throw while filtering.
- Durations are integers. A fractional or `NaN` duration is not modelled, in the decoders or in `formatDuration`, because both are JavaScript floating-point numbers.
- Error messages are structured values (`Failure(op, cause)` and `ProcessError`). `FailurePrefix` gives the prefix of each operation's message; the `${error}` rendering of the cause is not modelled.
- The sort in the thumbnail choice is modelled by the element it puts first, not as a sort. Only `[0]` of the sorted list is ever read.
- The distribution of `Math.random` is not modelled. Only the index range `[0, i]` of each draw is constrained.
- React's batching of state setters is not modelled. Each handler is one sequential transition from the state before the call.
- The rest of the repository is not part of this model: the HTTP routes, the SQLite layer, the React views, `PlayerBar.tsx` (the audio element and floating-point time formatting) and `Navbar.tsx`.
- `JsString.NatToString` states only that its output is digits; its value is stated by `ParseNatToString` and its shape by `NatToStringNoLeadingZero`.

## Notes on the code

- Expiry is strict (lib/cache.ts:22): an entry exactly 3600000 ms old is still served. The model follows the code.
- The single-item decoder never checks that the parsed object has an id (lib/ytdlp.ts:87-118). `DecodeSingle` succeeds on any object, and then the record's `id` is absent. Only the two batch decoders filter on the id.
- The timer's handler rejects without setting `isResolved` (lib/ytdlp.ts:26-31). A `close` that follows the kill still calls `resolve` or `reject`. Only the promise's settle-once rule keeps the timeout as the outcome; `TimeoutThenClose` states exactly this.
