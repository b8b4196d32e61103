# surge, modelled in Dafny

surge is a terminal music player. It searches YouTube, downloads the
chosen video's audio with `youtube-dl`, and plays the audio. This project
models its core in Dafny and proves properties of the model:

- the command engine `CommandCenter` (`command.dfy`): it splits a command
  line into a verb and an argument, keeps the latest result list and the
  current selection, and drives the backend, youtube-dl and the audio sink;
- the YouTube backend (`youtube.dfy`): the request URLs, the API key
  suffix, the download URL, and `yt_json_parser`'s mapping from the API's
  JSON reply to search results, with each of its panics;
- the youtube-dl front end (`youtube_dl.dfy`): the fixed argument vector,
  the output template, and the reading of the downloaded file's path out
  of youtube-dl's stdout with the pattern `Destination:.*flac\n`;
- the downloader (`download.dfy`): the thumbnail cache over the local
  filesystem, and its own copy of the youtube-dl call;
- the mpv player (`player.dfy`): queueing, stopping, pausing, the
  `loop-file` toggle, and the `time-remain` read with its 64-bit cast.

A Rust panic is the value `Panicked(message)` of `Wrappers.Outcome`, so
every panic path is a result the contracts talk about. The world outside
the program is given as parameters:

- the HTTP client is a function from URL to reply;
- spawning youtube-dl is a function from argument vector to outcome;
- opening a downloaded file and the index typed at the selection prompt
  come in an `Io` value with each command.

The filesystem and the requests the HTTP client has sent live in the
class `Download.Host`. The rodio sink is the log of what was handed to it.
The mpv handle is its property map and the log of commands sent to it.

`Command.Handle` states what one command does to a `Session` value.
`Command.CommandCenter.HandleCommand` changes the object's fields in place
and is proved to agree with it.

Where the program's description and its code disagree, the model follows
the code:
- The commands are `play`, `pause`, `resume`, `related` and `search`.
  Anything else only prints a message.
- `search ` followed by nothing still asks the backend, for the empty
  query. Only a bare `search` is refused.
- The selection is made at the prompt that follows `search` and `related`.
- `play` downloads the selection and plays it at once.

## Model

| member | source | states |
|---|---|---|
| Command.SplitCommand | src/command.rs:34 | the verb holds no space and is the whole line when there is no argument; otherwise the line is the verb, a space and the argument |
| Command.FirstSpace | src/command.rs:34 | the position found is a space, and no space comes before it |
| Command.SplitJoin | src/command.rs:34 | splitting a space-free verb joined to any argument gives back that verb and argument |
| Command.DownloadAudio | src/command.rs:101-106 | returns exactly when youtube-dl ran and its stdout names a destination, and then returns that path; a spawn error becomes a panic |
| Command.Select | src/command.rs:61 | `currents.get(sel).cloned()`: definition; its use is stated in SearchReplacesResults, RelatedFollowsSelection and HandleKeepsSelectionInResults |
| Command.Replace | src/command.rs:40-70 | `self.currents = …` followed by `select_interactive`: the new list replaces the old one and the typed index selects from it; definition, properties in SearchReplacesResults, RelatedFollowsSelection and HandleKeepsSelectionInResults |
| Command.PlayStep | src/command.rs:75-90 | `play_current` on a session: the list and the selection never change, a panic leaves the session as it was, and success adds exactly a file and a play to the sink; each branch in PlayAppendsSelection |
| Command.Handle | src/command.rs:33-54 | `handle_command` on a session: a panicking command changes nothing, and the sink log only grows; per-verb behaviour in the lemmas below |
| Command.UnrecognisedIsNoOp | src/command.rs:33-54 | an empty line or an unknown verb changes no state and does not panic |
| Command.SearchWithoutTermsIsNoOp | src/command.rs:44-50 | a bare `search` changes nothing |
| Command.SearchReplacesResults | src/command.rs:44-66 | `search <terms>` queries the backend for exactly the terms and replaces the result list with the answer. The selection becomes the result at the typed index, or none when the index is out of range. The sink is untouched |
| Command.SearchPanicKeepsState | src/command.rs:44-66 | when the backend panics, the search panics with the same message and nothing changes |
| Command.RelatedFollowsSelection | src/command.rs:40-73 | `related` with no selection panics with "No current selection". Otherwise the tracks related to the selected id replace the list and the prompt selects again |
| Command.PlayAppendsSelection | src/command.rs:75-90 | `play` keeps the list and the selection. With no selection it panics with "No current selection". Otherwise it downloads the selection's download URL: a failed download, a file that does not open and a file that is not audio each panic with their own message and leave the state unchanged, and a file that opens as audio is appended to the sink and played |
| Command.PauseResumeOnlyTouchSink | src/command.rs:92-98 | `pause` and `resume` only log a pause or a play on the sink |
| Command.ArgumentIgnored | src/command.rs:34-43 | text after `play`, `pause`, `resume` or `related` makes no difference |
| Command.HandleKeepsSelectionInResults | src/command.rs:33-73 | every command keeps the selection inside the result list |
| Command.RunKeepsSelectionInResults | src/command.rs:33-54 | over any sequence of commands up to the first panic, the selection stays inside the result list |
| Command.RunOnlyExtendsSink | src/command.rs:33-98 | over any sequence of commands, the sink's log only grows |
| Command.Run | src/command.rs:33-54 | commands handled one after another until the first panic, which ends the program: definition; properties in RunKeepsSelectionInResults and RunOnlyExtendsSink |
| Command.CommandCenter.ForYoutube | src/command.rs:20-31 | a fresh engine has no results and no selection, downloads into the given path and uses the YouTube backend |
| Command.CommandCenter.HandleCommand | src/command.rs:33-54 | the new fields and the outcome are those `Handle` gives for the old fields; the selection invariant is kept |
| Command.CommandCenter.SelectInteractive | src/command.rs:56-62 | the selection becomes the element at the typed index, or none when the index is out of range |
| Command.CommandCenter.Search | src/command.rs:64-66 | the backend's answer replaces the result list; a backend panic leaves everything as it was |
| Command.CommandCenter.FindRelated | src/command.rs:68-73 | with no selection it panics with "No current selection". Otherwise the tracks related to the selection replace the list, or the backend's panic leaves everything as it was |
| Command.CommandCenter.PlayCurrent | src/command.rs:75-90 | the new fields and the outcome are those of `PlayStep` on the old fields |
| Command.CommandCenter.Pause | src/command.rs:92-94 | logs a pause on the sink and changes nothing else |
| Command.CommandCenter.Resume | src/command.rs:96-98 | logs a play on the sink and changes nothing else |
| Youtube.ParseItem | src/youtube.rs:76-91 | an item becomes a result exactly when `snippet.title` and `id.videoId` are strings. A missing title panics with the title message, and otherwise a missing id panics with the id message. The thumbnail is present exactly when `snippet.thumbnails.default.url` is a string, and then equals it |
| Youtube.ParseItems | src/youtube.rs:72-93 | succeeds exactly when every item does, with one result per item in order; otherwise it panics with the first failing item's message |
| Youtube.YtJsonParser | src/youtube.rs:68-98 | a body that is not JSON panics; a reply without an `items` array panics with "Didn't get expected response from youtube api"; otherwise the results are those of the items |
| Youtube.Get | src/youtube.rs:72 | serde's `value[key]`, `Null` for a missing key or a non-object: definition; the item paths are spelled out by At2 and At4 and used in ParseItem |
| Youtube.AsStr | src/youtube.rs:78 | serde's `as_str`: definition; used in ParseItem |
| Youtube.At | src/youtube.rs:77-86 | serde's chained `v[a][b]…`: the value at a path of keys, `Null` as soon as a key is missing or a value is not an object; definition, unfolded by At2 and At4 and used to state ParseItem |
| Youtube.ThumbnailNeverRequired | src/youtube.rs:84-86 | an item with a title and an id but no thumbnail URL parses to a result without a thumbnail |
| Youtube.ReplaceSpaces | src/youtube.rs:56 | every space becomes `+`; no other character changes |
| Youtube.PlusesToSpaces | src/youtube.rs:56 | the inverse reading: every `+` becomes a space |
| Youtube.SearchUrl | src/youtube.rs:54-57 | the search request URL: definition; properties in SearchUrlCarriesKeywords |
| Youtube.RelatedUrl | src/youtube.rs:45-48 | the related-videos request URL, with the id verbatim: definition; used in FindRelatedTracks and RelatedAsksOnlyKeyedUrl |
| Youtube.RequestUrl | src/youtube.rs:26 | the URL with `&key=` and the API key appended: definition; used in HyperRequest |
| Youtube.GenDownloadUrl | src/youtube.rs:62-64 | the watch-page URL of a video: definition; properties in DownloadUrlNamesVideo |
| Youtube.SearchUrlCarriesKeywords | src/youtube.rs:54-57 | the search URL's query is the keywords with spaces as `+`. It holds no space, and keywords without `+` are read back from it exactly |
| Youtube.DownloadUrlNamesVideo | src/youtube.rs:62-64 | the download URL is the watch-page base followed by the id, and the id is recovered from it: the two determine each other |
| Youtube.HyperRequest | src/youtube.rs:24-39 | fetches the URL with `&key=` and the API key appended. It returns the body exactly when sending and reading succeed, and panics otherwise |
| Youtube.Search | src/youtube.rs:53-59 | the reply to the keyed search URL, parsed by `YtJsonParser` when a body arrives; a send or read error panics with that error |
| Youtube.FindRelatedTracks | src/youtube.rs:43-51 | the reply to the keyed related URL of the id, parsed by `YtJsonParser` when a body arrives; a send or read error panics with that error |
| Youtube.SearchAsksOnlyKeyedUrl | src/youtube.rs:53-59 | a search depends on the network only through the keyed search URL |
| Youtube.RelatedAsksOnlyKeyedUrl | src/youtube.rs:43-51 | a related-tracks query depends on the network only through the keyed related URL of that id |
| Youtube.YoutubePlayer | src/youtube.rs:42-65 | the backend, end to end: every search and related-tracks query fetches its URL with `&key=` and the API key appended, returns `yt_json_parser`'s reading of the body, and panics on a send or read error; the download URL is the watch-page base followed by the id |
| YoutubeDl.ArgvDeterminesRequest | src/youtube_dl.rs:16-26 | two downloads run the same youtube-dl command exactly when they agree on the directory and the URL |
| YoutubeDl.MatchUnique | src/youtube_dl.rs:38 | a match of the pattern starting at a given position has only one end |
| YoutubeDl.MatchesAt | src/youtube_dl.rs:38 | what a match of `Destination:.*flac\n` is: the text `Destination:` at the start, then characters that are not line breaks (`.` never matches `\n`), then `flac` and a line break, so a match is at least 17 characters long; definition, the reading of the pattern on which ParseDestination, MatchEnd and FindMatch are stated |
| YoutubeDl.NextNewline | src/youtube_dl.rs:38 | finds the first line break at or after a position |
| YoutubeDl.MatchEnd | src/youtube_dl.rs:38 | finds the end of the match starting at a position, or shows there is none |
| YoutubeDl.FindMatch | src/youtube_dl.rs:38-40 | finds the leftmost match at or after a position, or shows there is none |
| YoutubeDl.ParseDestination | src/youtube_dl.rs:36-44 | nothing is found exactly when the pattern matches nowhere (the `unwrap` panic). Otherwise the result is the leftmost match without its first 13 characters and its final line break, and it holds no line break |
| YoutubeDl.ParseRoundTrip | src/youtube_dl.rs:36-44 | the line `Destination: <p>` followed by a line break is read back as `<p>` for any one-line `p` ending in `flac` |
| YoutubeDl.ParseSkipsEarlierLines | src/youtube_dl.rs:36-44 | complete lines without a match before the destination line, and anything after it, do not change the path read |
| YoutubeDl.DownloadAudioFromUrl | src/youtube_dl.rs:15-33 | a spawn failure is an `Err`. Otherwise, whatever the exit status, the call panics exactly when stdout has no destination line, and returns that line's path when it has one |
| YoutubeDl.OutputTemplate | src/youtube_dl.rs:16 | the `-o` template `<dir>/%(title)s.%(ext)s`: definition; properties in ArgvDeterminesRequest |
| YoutubeDl.Argv | src/youtube_dl.rs:19-26 | the fixed argument vector: definition; properties in ArgvDeterminesRequest |
| Download.LastSegment | src/download.rs:58 | the piece of the URL after its last `/` (or the whole URL): a suffix of the URL that holds no `/` and is preceded by one |
| Download.LastSegmentAfterSlash | src/download.rs:58 | the last segment of `prefix/segment` is `segment` when it holds no `/` |
| Download.Join | src/download.rs:56 | `PathBuf::join` on Unix: an absolute name is the result; otherwise the result is the directory, then one `/` exactly when the directory is non-empty and does not end with one, then the name |
| Download.ThumbnailPath | src/download.rs:55-58 | the cache file of a URL and a video id: definition; properties in ThumbnailPathShape |
| Download.ThumbnailPathShape | src/download.rs:55-58 | the cache file is `<cache dir>/<uid>_<last segment>`: the directory and the name joined by one `/`, or by none when the directory is empty or already ends with `/`; a `uid` starting with `/` makes the name absolute and the directory is dropped |
| Download.ThumbnailLookup | src/download.rs:50-76 | `download_thumbnail` on values: no file ever disappears, at most the one URL is requested, and a returned path is the thumbnail path of the URL and exists on disk; each case in the lemmas below |
| Download.NoUrlNoEffect | src/download.rs:51-54 | without a URL there is no request, no file and no path |
| Download.CacheHitIsFree | src/download.rs:60-62 | a cached file is returned with no request and no change to disk |
| Download.CacheMiss | src/download.rs:63-75 | a miss requests the URL once and creates the cache file whatever happens next. The path is returned exactly when the whole body was copied, the file then holding it, and no other file changes |
| Download.SecondCallIsCacheHit | src/download.rs:50-76 | a second identical call finds the file the first created and changes nothing, so the URL is requested at most once |
| Download.FailedFetchBecomesHit | src/download.rs:63-75 | a failed request leaves an empty file that the next call returns as a cached thumbnail |
| Download.DownloadThumbnail | src/download.rs:50-76 | the host's new files, its request log and the result are those `ThumbnailLookup` gives for the old host |
| Download.DownloadAudioFromUrl | src/download.rs:28-87 | the downloader's copy of the youtube-dl call behaves exactly as `YoutubeDl.DownloadAudioFromUrl` on the music directory |
| Player.AsU64 | src/player.rs:68 | `x as u64` is the value modulo 2^64, so negative values wrap |
| Player.AsI64 | src/player.rs:68 | the opposite reinterpretation agrees with the value modulo 2^64 |
| Player.CastRoundTrip | src/player.rs:68 | the cast loses nothing: the opposite cast undoes it |
| Player.NextLoop | src/player.rs:49-58 | the value `loop-file` is toggled to, or none for an unexpected value: definition; properties in LoopToggleTwice |
| Player.ToggleLoop | src/player.rs:48-64 | `loop_` on the property map: definition; properties in ToggleLoopTwice and ToggleLoopTouchesOnlyLoopFile |
| Player.LoopToggleTwice | src/player.rs:49-60 | toggling twice restores the value exactly when it is `inf` or `no` |
| Player.ToggleLoopTwice | src/player.rs:48-64 | from `inf` or `no`, two toggles succeed and restore every property |
| Player.ToggleLoopTouchesOnlyLoopFile | src/player.rs:48-64 | a toggle changes only `loop-file`, and only to `inf` or `no` |
| Player.AudioPlayer.constructor | src/player.rs:11-18 | a new player has the given properties and has been sent no commands |
| Player.AudioPlayer.Queue | src/player.rs:20-24 | sends `loadfile <file> append-play` and changes no property |
| Player.AudioPlayer.QueueAndPlay | src/player.rs:26-30 | sends `loadfile <file> replace` and changes no property |
| Player.AudioPlayer.Stop | src/player.rs:32-34 | sends `stop` and changes no property |
| Player.AudioPlayer.Pause | src/player.rs:36-40 | sets `pause` to true and nothing else |
| Player.AudioPlayer.Resume | src/player.rs:42-46 | sets `pause` to false and nothing else |
| Player.AudioPlayer.Loop | src/player.rs:48-64 | the new property map, or the panic with the map kept, is what `ToggleLoop` gives for the old map; no command is sent |
| Player.AudioPlayer.GetTimeRemain | src/player.rs:66-71 | some value exactly when `time-remain` reads as an integer, and then that integer cast to unsigned |
| Player.AudioPlayer.SleepSeconds | src/player.rs:76 | the remaining time cast to unsigned, or 90 seconds when it cannot be read |

## Left out

- `src/audio.rs`, `src/main.rs`, `src/backend.rs` beyond its types, and the `app_setup` crate: these are not part of this model. Configuration and start-up belong there.
- The rodio sink is its log of appends, plays and pauses. Decoding and sound output are left out.
- `select_interactive`'s listing of the results is printing only. A non-numeric or negative index, or one too large for `usize`, which makes `read!` panic, is not modelled: the index is a `nat`, and one past the end of the list clears the selection.
- `handle_command`'s messages for a bare `search` and for unknown verbs are printing only.
- `queue_on_file_event_blocking`: the event loop and the sleep are left out. Only the sleep duration, with its 90-second fallback, is modelled (`SleepSeconds`).
- `AudioPlayer::new`'s construction of the mpv handle, and the `expect` panics when mpv refuses a command or a property write, are left out. Those calls always succeed in the model.
- Panic messages are approximated. `panic!(e)` with an error value (src/command.rs:85, 104; src/youtube.rs:33, 36) panics with a payload that is not a string, so Rust prints no error text; the model carries the error's text. The decoder's `unwrap` prints the error after the message; the model keeps only the fixed part (`NotDecodable`).
- Player.AudioPlayer.Loop: an mpv error while reading `loop-file` panics with mpv's own error; the model uses one fixed message for it.
- `download_thumbnail`'s `expect` when the cache file cannot be created is left out: creation always succeeds.
- The HTTP client and serde's parsing of text are left out. A reply is given already decoded, and `NotJson` stands for serde's error message.
- youtube-dl runs as a function from argument vector to outcome. Its output is taken as text, so `from_utf8_lossy`'s replacement of invalid bytes is not modelled.
- Strings are sequences of characters, not of UTF-8 bytes. The panic of slicing `[13..]` inside a multi-byte character cannot arise in the model.
- Command.CommandCenter.ForYoutube: the result count is accepted and dropped. The YouTube backend's constructor takes an HTTP client rather than a count, and `for_youtube` passes the count where the client belongs. The model hands the backend the HTTP function instead.
- A session of several commands stops at the first panic, which stands for the program ending; the later commands are never read.
