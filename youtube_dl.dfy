/** The youtube-dl front end shared by `src/youtube_dl.rs` and `src/download.rs`:
    the command line given to the tool and the reading of the downloaded file's
    path out of what the tool prints. Spawning the process is a parameter. */
module YoutubeDl {
  import opened Wrappers

  /** The literal the destination pattern starts with (12 characters). */
  const Marker: string := "Destination:"
  /** What the output-template adds after the download directory. */
  const TemplateSuffix: string := "/%(title)s.%(ext)s"

  /** What spawning `youtube-dl` gives back: an I/O error, or the exit status and stdout. */
  datatype Spawned = SpawnError(error: string) | Exited(status: int, stdout: string)

  /** The `-o` template: files go to `dlPath`, named after the title and extension. */
  function OutputTemplate(dlPath: string): string {
    dlPath + TemplateSuffix
  }

  /** The fixed argument vector: extract best-quality FLAC audio to `template` from `url`. */
  function Argv(template: string, url: string): seq<string> {
    ["--extract-audio", "--audio-format", "flac", "--audio-quality", "0", "-o", template, url]
  }

  /** The argument vector determines the download directory and the URL:
      two downloads run the same command exactly when both agree. */
  lemma ArgvDeterminesRequest(dl1: string, url1: string, dl2: string, url2: string)
    ensures Argv(OutputTemplate(dl1), url1) == Argv(OutputTemplate(dl2), url2)
            <==> dl1 == dl2 && url1 == url2
  {
    if Argv(OutputTemplate(dl1), url1) == Argv(OutputTemplate(dl2), url2) {
      var t1, t2 := OutputTemplate(dl1), OutputTemplate(dl2);
      assert t1 == Argv(t1, url1)[6] == Argv(t2, url2)[6] == t2;
      assert url1 == Argv(t1, url1)[7] == Argv(t2, url2)[7] == url2;
      assert |dl1| == |t1| - |TemplateSuffix| == |dl2|;
      assert dl1 == t1[..|dl1|] == t2[..|dl2|] == dl2;
    }
  }

  /** The regular expression `Destination:.*flac\n` matches `out[i..e]`:
      the marker, then text without a line break, then `flac` and a line break
      (`.` never matches a line break). */
  ghost predicate MatchesAt(out: string, i: nat, e: nat) {
    && i + |Marker| + 5 <= e <= |out|
    && out[i..i + |Marker|] == Marker
    && out[e - 5..e] == "flac\n"
    && forall m :: i + |Marker| <= m < e - 1 ==> out[m] != '\n'
  }

  /** A match starting at a given position is unique. */
  lemma MatchUnique(out: string, i: nat, e1: nat, e2: nat)
    requires MatchesAt(out, i, e1) && MatchesAt(out, i, e2)
    ensures e1 == e2
  {
    assert out[e1 - 1] == out[e1 - 5..e1][4] == '\n';
    assert out[e2 - 1] == out[e2 - 5..e2][4] == '\n';
  }

  /** The first line break at or after position `k`. */
  function NextNewline(out: string, k: nat): (r: Option<nat>)
    requires k <= |out|
    ensures r.Some? ==> k <= r.value < |out| && out[r.value] == '\n'
    ensures forall m :: k <= m < (if r.Some? then r.value else |out|) ==> out[m] != '\n'
    decreases |out| - k
  {
    if k == |out| then None
    else if out[k] == '\n' then Some(k)
    else NextNewline(out, k + 1)
  }

  /** The end of the match of the pattern that starts at `i`, if there is one. */
  function MatchEnd(out: string, i: nat): (e: Option<nat>)
    requires i <= |out|
    ensures e.Some? ==> MatchesAt(out, i, e.value)
    ensures e.None? ==> forall e': nat :: !MatchesAt(out, i, e')
  {
    if i + |Marker| <= |out| && out[i..i + |Marker|] == Marker then
      match NextNewline(out, i + |Marker|)
      case None =>
        assert forall e': nat :: MatchesAt(out, i, e') ==> out[e' - 1] == out[e' - 5..e'][4] == '\n';
        None
      case Some(j) =>
        if i + |Marker| + 4 <= j && out[j - 4..j] == "flac" then
          assert out[j - 4..j + 1] == out[j - 4..j] + [out[j]];
          Some(j + 1)
        else
          assert forall e': nat :: MatchesAt(out, i, e') ==> e' == j + 1 by {
            forall e': nat | MatchesAt(out, i, e') ensures e' == j + 1 {
              assert out[e' - 1] == out[e' - 5..e'][4] == '\n';
            }
          }
          assert forall e': nat :: MatchesAt(out, i, e') ==> out[j - 4..j] == out[e' - 5..e'][..4];
          None
    else
      None
  }

  /** The leftmost match starting at or after `from`, as (start, end). */
  function FindMatch(out: string, from: nat): (r: Option<(nat, nat)>)
    requires from <= |out|
    ensures r.Some? ==> from <= r.value.0 && MatchesAt(out, r.value.0, r.value.1)
    ensures r.Some? ==> forall k: nat, e: nat :: from <= k < r.value.0 ==> !MatchesAt(out, k, e)
    ensures r.None? ==> forall k: nat, e: nat :: from <= k ==> !MatchesAt(out, k, e)
    decreases |out| - from
  {
    match MatchEnd(out, from)
    case Some(e) => Some((from, e))
    case None =>
      if from == |out| then None else FindMatch(out, from + 1)
  }

  /** `get_dl_path_from_ytdl_stdout`: the leftmost match of `Destination:.*flac\n`
      without its first 13 characters and its line break; `None` is the panic of
      `unwrap` when nothing matches. */
  function ParseDestination(out: string): (r: Option<string>)
    ensures r.None? <==> forall k: nat, e: nat :: !MatchesAt(out, k, e)
    ensures r.Some? ==> exists k: nat, e: nat :: && MatchesAt(out, k, e)
                                       && r.value == out[k + |Marker| + 1..e - 1]
                                       && forall k': nat, e': nat :: k' < k ==> !MatchesAt(out, k', e')
    ensures r.Some? ==> '\n' !in r.value
  {
    match FindMatch(out, 0)
    case None => None
    case Some((k, e)) =>
      var p := out[k + |Marker| + 1..e - 1];
      assert forall m :: 0 <= m < |p| ==> p[m] == out[k + |Marker| + 1 + m];
      Some(p)
  }

  /** The line youtube-dl prints for a FLAC destination is read back as the path it names. */
  lemma {:induction false} ParseRoundTrip(p: string)
    requires '\n' !in p && |p| >= 4 && p[|p| - 4..] == "flac"
    ensures ParseDestination("Destination: " + p + "\n") == Some(p)
  {
    ParseSkipsEarlierLines([], p, []);
    assert [] + "Destination: " + p + "\n" + [] == "Destination: " + p + "\n";
  }

  /** The destination line itself is a match, spanning the whole line. */
  lemma DestinationLineMatches(pre: string, p: string, post: string)
    requires '\n' !in p && |p| >= 4 && p[|p| - 4..] == "flac"
    ensures MatchesAt(pre + "Destination: " + p + "\n" + post, |pre|, |pre| + |p| + 14)
    ensures (pre + "Destination: " + p + "\n" + post)[|pre| + |Marker| + 1..|pre| + |p| + 13] == p
  {
  }

  /** No match can start inside a prefix that ends with a line break and holds
      no match of its own, whatever follows it. */
  lemma NoMatchInCompleteLines(pre: string, rest: string)
    requires pre == [] || pre[|pre| - 1] == '\n'
    requires ParseDestination(pre).None?
    ensures forall k: nat, e: nat :: k < |pre| ==> !MatchesAt(pre + rest, k, e)
  {
    var out, s := pre + rest, |pre|;
    assert forall j :: 0 <= j < |Marker| ==> Marker[j] != '\n';
    forall k: nat, e: nat | k < s ensures !MatchesAt(out, k, e) {
      if e <= s {
        assert out[..s] == pre;
        assert MatchesAt(out, k, e) ==> pre[k..k + |Marker|] == out[k..k + |Marker|];
        assert MatchesAt(out, k, e) ==> pre[e - 5..e] == out[e - 5..e];
        assert MatchesAt(out, k, e) ==> MatchesAt(pre, k, e);
      } else if k + |Marker| <= s - 1 {
        assert out[s - 1] == pre[s - 1] == '\n';
      } else {
        assert out[s - 1] == pre[s - 1] == '\n';
        assert k + |Marker| <= |out| ==> out[k..k + |Marker|][s - 1 - k] == '\n';
      }
    }
  }

  /** When the leftmost match spans `out[s..end]`, that is what is parsed. */
  lemma ParseLeftmost(out: string, s: nat, end: nat)
    requires MatchesAt(out, s, end)
    requires forall k: nat, e: nat :: k < s ==> !MatchesAt(out, k, e)
    ensures ParseDestination(out) == Some(out[s + |Marker| + 1..end - 1])
  {
    var m := FindMatch(out, 0);
    var k, e := m.value.0, m.value.1;
    assert k == s;
    MatchUnique(out, s, e, end);
  }

  /** Lines before the destination line that do not match are skipped, and
      anything after it is ignored: the leftmost destination line wins. */
  lemma {:induction false} ParseSkipsEarlierLines(pre: string, p: string, post: string)
    requires pre == [] || pre[|pre| - 1] == '\n'
    requires ParseDestination(pre).None?
    requires '\n' !in p && |p| >= 4 && p[|p| - 4..] == "flac"
    ensures ParseDestination(pre + "Destination: " + p + "\n" + post) == Some(p)
  {
    var line := "Destination: " + p + "\n";
    var out := pre + "Destination: " + p + "\n" + post;
    var s, end := |pre|, |pre| + |line|;
    DestinationLineMatches(pre, p, post);
    assert out == pre + (line + post);
    NoMatchInCompleteLines(pre, line + post);
    ParseLeftmost(out, s, end);
  }

  /** `YoutubeDl::download_audio_from_url`: run the tool once on the fixed
      argument vector; a spawn error is an `Err`, otherwise the path is read
      from stdout whatever the exit status, and no destination line panics. */
  function DownloadAudioFromUrl(dlPath: string, url: string, youtubeDl: seq<string> -> Spawned)
    : (r: Outcome<Result<string, string>>)
    ensures youtubeDl(Argv(OutputTemplate(dlPath), url)).SpawnError? ==>
              r == Returned(Err(youtubeDl(Argv(OutputTemplate(dlPath), url)).error))
    ensures youtubeDl(Argv(OutputTemplate(dlPath), url)).Exited? ==>
              var out := youtubeDl(Argv(OutputTemplate(dlPath), url)).stdout;
              && (r.Panicked? <==> forall k: nat, e: nat :: !MatchesAt(out, k, e))
              && (r.Returned? ==> r.value.Ok? && '\n' !in r.value.value
                                  && Some(r.value.value) == ParseDestination(out))
  {
    match youtubeDl(Argv(OutputTemplate(dlPath), url))
    case SpawnError(e) => Returned(Err(e))
    case Exited(_, stdout) =>
      match ParseDestination(stdout)
      case None => Panicked("called `Option::unwrap()` on a `None` value")
      case Some(path) => Returned(Ok(path))
  }
}
