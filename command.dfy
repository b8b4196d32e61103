/** `src/command.rs`: the session command engine. It holds the latest result
    list and the current selection, reads one command line at a time and
    drives the backend, youtube-dl and the audio sink. The sink is the log
    of what was handed to it; the index typed at the selection prompt, the
    youtube-dl run and the opening of the downloaded file come from the
    outside world and are given with each command. */
module Command {
  import opened Wrappers
  import opened Backend
  import YoutubeDl
  import Youtube

  /** What the engine does to the rodio sink. */
  datatype SinkEvent = Appended(path: string) | Played | Paused

  /** Opening the downloaded file and decoding it as audio. */
  datatype FileOpen = OpenFailed(error: string) | NotAudio | Audio

  /** What the outside world answers while one command runs: the index read
      at the selection prompt, youtube-dl's response to an argument vector,
      and what opening a path gives. */
  datatype Io = Io(sel: nat, youtubeDl: seq<string> -> YoutubeDl.Spawned, openFile: string -> FileOpen)

  const NoSelection: string := "No current selection"
  const NotDecodable: string := "called `Result::unwrap()` on an `Err` value"

  /** The position of the first space, if any. */
  function FirstSpace(s: string): (r: Option<nat>)
    ensures r.Some? ==> r.value < |s| && s[r.value] == ' '
    ensures forall i :: 0 <= i < (if r.Some? then r.value else |s|) ==> s[i] != ' '
  {
    if s == [] then None
    else if s[0] == ' ' then Some(0)
    else match FirstSpace(s[1..])
      case None => None
      case Some(k) => Some(k + 1)
  }

  /** A command line cut at its first space. */
  datatype CommandLine = CommandLine(verb: string, argument: Option<string>)

  /** `command.splitn(2, ' ')`: the verb is everything before the first
      space (or the whole line), the argument everything after it. */
  function SplitCommand(line: string): (c: CommandLine)
    ensures ' ' !in c.verb
    ensures c.argument.None? ==> c.verb == line
    ensures c.argument.Some? ==> line == c.verb + " " + c.argument.value
  {
    match FirstSpace(line)
    case None => CommandLine(line, None)
    case Some(k) =>
      assert line == line[..k] + " " + line[k + 1..];
      CommandLine(line[..k], Some(line[k + 1..]))
  }

  /** Splitting undoes joining a space-free verb and any argument. */
  lemma SplitJoin(verb: string, argument: string)
    requires ' ' !in verb
    ensures SplitCommand(verb + " " + argument) == CommandLine(verb, Some(argument))
  {
    var line := verb + " " + argument;
    assert line[|verb|] == ' ';
    assert forall i :: 0 <= i < |verb| ==> line[i] == verb[i];
    assert FirstSpace(line) == Some(|verb|);
    assert line[..|verb|] == verb;
    assert line[|verb| + 1..] == argument;
  }

  /** `self.currents.get(sel).cloned()`. */
  function Select(currents: seq<SearchResult>, sel: nat): Option<SearchResult> {
    if sel < |currents| then Some(currents[sel]) else None
  }

  /** `download_audio`: run youtube-dl on the URL into `ytdlPath`; an error panics. */
  function DownloadAudio(ytdlPath: string, url: string, youtubeDl: seq<string> -> YoutubeDl.Spawned)
    : (r: Outcome<string>)
    ensures var d := YoutubeDl.DownloadAudioFromUrl(ytdlPath, url, youtubeDl);
            && (r.Returned? <==> d.Returned? && d.value.Ok?)
            && (r.Returned? ==> r.value == d.value.value)
    ensures r.Returned? ==>
              && youtubeDl(YoutubeDl.Argv(YoutubeDl.OutputTemplate(ytdlPath), url)).Exited?
              && Some(r.value) == YoutubeDl.ParseDestination(youtubeDl(YoutubeDl.Argv(YoutubeDl.OutputTemplate(ytdlPath), url)).stdout)
  {
    match YoutubeDl.DownloadAudioFromUrl(ytdlPath, url, youtubeDl)
    case Panicked(m) => Panicked(m)
    case Returned(Err(e)) => Panicked(e)
    case Returned(Ok(path)) => Returned(path)
  }

  /** The engine's state: the result list, the selection and the sink's log. */
  datatype Session = Session(currents: seq<SearchResult>, current: Option<SearchResult>, sink: seq<SinkEvent>)

  /** The state after a command, and whether it returned or panicked. */
  datatype Step = Step(next: Session, outcome: Outcome<()>)

  /** `play_current` on values. */
  function PlayStep(b: Backend, ytdlPath: string, s: Session, io: Io): (r: Step)
    ensures r.next.currents == s.currents && r.next.current == s.current
    ensures r.outcome.Panicked? ==> r.next == s
    ensures r.outcome.Returned? ==> && s.current.Some?
                                    && |r.next.sink| == |s.sink| + 2
                                    && r.next.sink[..|s.sink|] == s.sink
                                    && r.next.sink[|s.sink|].Appended?
                                    && r.next.sink[|s.sink| + 1] == Played
  {
    match s.current
    case None => Step(s, Panicked(NoSelection))
    case Some(x) =>
      match DownloadAudio(ytdlPath, b.genDownloadUrl(x.id), io.youtubeDl)
      case Panicked(m) => Step(s, Panicked(m))
      case Returned(path) =>
        match io.openFile(path)
        case OpenFailed(e) => Step(s, Panicked(e))
        case NotAudio => Step(s, Panicked(NotDecodable))
        case Audio => Step(s.(sink := s.sink + [Appended(path), Played]), Returned(()))
  }

  /** A new result list followed by the selection prompt (`search` and
      `related` after the backend answered). */
  function Replace(s: Session, results: seq<SearchResult>, sel: nat): Session {
    s.(currents := results, current := Select(results, sel))
  }

  /** `handle_command` on values. */
  function Handle(b: Backend, ytdlPath: string, s: Session, line: string, io: Io): (r: Step)
    ensures r.outcome.Panicked? ==> r.next == s
    ensures s.sink <= r.next.sink
  {
    var cmd := SplitCommand(line);
    if cmd.verb == "" then Step(s, Returned(()))
    else if cmd.verb == "play" then PlayStep(b, ytdlPath, s, io)
    else if cmd.verb == "pause" then Step(s.(sink := s.sink + [Paused]), Returned(()))
    else if cmd.verb == "resume" then Step(s.(sink := s.sink + [Played]), Returned(()))
    else if cmd.verb == "related" then
      match s.current
      case None => Step(s, Panicked(NoSelection))
      case Some(x) =>
        match b.findRelatedTracks(x.id)
        case Panicked(m) => Step(s, Panicked(m))
        case Returned(results) => Step(Replace(s, results, io.sel), Returned(()))
    else if cmd.verb == "search" then
      match cmd.argument
      case None => Step(s, Returned(()))
      case Some(terms) =>
        match b.search(terms)
        case Panicked(m) => Step(s, Panicked(m))
        case Returned(results) => Step(Replace(s, results, io.sel), Returned(()))
    else Step(s, Returned(()))
  }

  /** The selection, when there is one, is an element of the result list. */
  ghost predicate SelectionInResults(s: Session) {
    s.current.Some? ==> s.current.value in s.currents
  }

  /** The verbs `handle_command` dispatches. */
  ghost predicate Dispatched(verb: string) {
    verb == "play" || verb == "pause" || verb == "resume" || verb == "related" || verb == "search"
  }

  /** An empty line or a verb that is not dispatched changes nothing. */
  lemma UnrecognisedIsNoOp(b: Backend, ytdlPath: string, s: Session, line: string, io: Io)
    requires !Dispatched(SplitCommand(line).verb)
    ensures Handle(b, ytdlPath, s, line, io) == Step(s, Returned(()))
  {
  }

  /** `search` with no space after it reports and changes nothing. */
  lemma SearchWithoutTermsIsNoOp(b: Backend, ytdlPath: string, s: Session, io: Io)
    ensures Handle(b, ytdlPath, s, "search", io) == Step(s, Returned(()))
  {
  }

  /** `search <terms>` asks the backend for exactly `<terms>` (empty terms
      included) and replaces the result list with its answer, whatever the
      list was; the prompt then selects by index, an index out of range
      clearing the selection. The sink is untouched. */
  lemma SearchReplacesResults(b: Backend, ytdlPath: string, s: Session, terms: string, io: Io)
    requires b.search(terms).Returned?
    ensures var results := b.search(terms).value;
            var step := Handle(b, ytdlPath, s, "search " + terms, io);
            && step.outcome == Returned(())
            && step.next.currents == results
            && step.next.sink == s.sink
            && (io.sel < |results| ==> step.next.current == Some(results[io.sel]))
            && (io.sel >= |results| ==> step.next.current == None)
  {
    SplitJoin("search", terms);
    assert "search" + " " + terms == "search " + terms;
  }

  /** A search the backend cannot answer panics before any state changes. */
  lemma SearchPanicKeepsState(b: Backend, ytdlPath: string, s: Session, terms: string, io: Io)
    requires b.search(terms).Panicked?
    ensures Handle(b, ytdlPath, s, "search " + terms, io) == Step(s, Panicked(b.search(terms).message))
  {
    SplitJoin("search", terms);
    assert "search" + " " + terms == "search " + terms;
  }

  /** `related` needs a selection; with one, the result list becomes the
      tracks related to the selected id and the prompt selects again. */
  lemma RelatedFollowsSelection(b: Backend, ytdlPath: string, s: Session, io: Io)
    ensures var step := Handle(b, ytdlPath, s, "related", io);
            && (s.current.None? ==> step == Step(s, Panicked(NoSelection)))
            && (s.current.Some? && b.findRelatedTracks(s.current.value.id).Returned? ==>
                  var results := b.findRelatedTracks(s.current.value.id).value;
                  && step.outcome == Returned(())
                  && step.next.currents == results
                  && step.next.current == (if io.sel < |results| then Some(results[io.sel]) else None)
                  && step.next.sink == s.sink)
  {
  }

  /** `play` needs a selection; it downloads the selection's download URL,
      appends the file youtube-dl reported to the sink and plays, leaving
      the result list and the selection as they were. */
  lemma PlayAppendsSelection(b: Backend, ytdlPath: string, s: Session, io: Io)
    ensures var step := Handle(b, ytdlPath, s, "play", io);
            && step.next.currents == s.currents && step.next.current == s.current
            && (s.current.None? ==> step == Step(s, Panicked(NoSelection)))
            && (s.current.Some? ==>
                  var d := DownloadAudio(ytdlPath, b.genDownloadUrl(s.current.value.id), io.youtubeDl);
                  && (d.Panicked? ==> step == Step(s, Panicked(d.message)))
                  && (d.Returned? && io.openFile(d.value).OpenFailed? ==>
                        step == Step(s, Panicked(io.openFile(d.value).error)))
                  && (d.Returned? && io.openFile(d.value) == NotAudio ==> step == Step(s, Panicked(NotDecodable)))
                  && (d.Returned? && io.openFile(d.value) == Audio ==>
                        step == Step(s.(sink := s.sink + [Appended(d.value), Played]), Returned(()))))
  {
  }

  /** `pause` and `resume` only log a pause or a play on the sink. */
  lemma PauseResumeOnlyTouchSink(b: Backend, ytdlPath: string, s: Session, io: Io)
    ensures Handle(b, ytdlPath, s, "pause", io) == Step(s.(sink := s.sink + [Paused]), Returned(()))
    ensures Handle(b, ytdlPath, s, "resume", io) == Step(s.(sink := s.sink + [Played]), Returned(()))
  {
  }

  /** Whatever follows `play`, `pause`, `resume` or `related` is ignored. */
  lemma ArgumentIgnored(b: Backend, ytdlPath: string, s: Session, verb: string, argument: string, io: Io)
    requires verb == "play" || verb == "pause" || verb == "resume" || verb == "related"
    ensures Handle(b, ytdlPath, s, verb + " " + argument, io) == Handle(b, ytdlPath, s, verb, io)
  {
    SplitJoin(verb, argument);
    assert ' ' !in verb;
    assert SplitCommand(verb).verb == verb;
  }

  /** Every command keeps the selection inside the result list. */
  lemma HandleKeepsSelectionInResults(b: Backend, ytdlPath: string, s: Session, line: string, io: Io)
    requires SelectionInResults(s)
    ensures SelectionInResults(Handle(b, ytdlPath, s, line, io).next)
  {
  }

  /** A session: commands run one after another until one panics. */
  function Run(b: Backend, ytdlPath: string, s: Session, script: seq<(string, Io)>): Step
    decreases |script|
  {
    if script == [] then Step(s, Returned(()))
    else
      var step := Handle(b, ytdlPath, s, script[0].0, script[0].1);
      if step.outcome.Panicked? then step
      else Run(b, ytdlPath, step.next, script[1..])
  }

  /** Through any session the selection stays inside the result list. */
  lemma {:induction false} RunKeepsSelectionInResults(b: Backend, ytdlPath: string, s: Session,
                                                      script: seq<(string, Io)>)
    requires SelectionInResults(s)
    ensures SelectionInResults(Run(b, ytdlPath, s, script).next)
    decreases |script|
  {
    if script != [] {
      HandleKeepsSelectionInResults(b, ytdlPath, s, script[0].0, script[0].1);
      var step := Handle(b, ytdlPath, s, script[0].0, script[0].1);
      if step.outcome.Returned? {
        RunKeepsSelectionInResults(b, ytdlPath, step.next, script[1..]);
      }
    }
  }

  /** Through any session the sink's log only grows. */
  lemma {:induction false} RunOnlyExtendsSink(b: Backend, ytdlPath: string, s: Session,
                                              script: seq<(string, Io)>)
    ensures s.sink <= Run(b, ytdlPath, s, script).next.sink
    decreases |script|
  {
    if script != [] {
      var step := Handle(b, ytdlPath, s, script[0].0, script[0].1);
      assert s.sink <= step.next.sink;
      if step.outcome.Returned? {
        RunOnlyExtendsSink(b, ytdlPath, step.next, script[1..]);
      }
    }
  }

  /** The engine: the YouTube backend, youtube-dl into the download path,
      the result list, the selection and the sink. */
  class CommandCenter {
    const ytdlPath: string
    const backend: Backend
    var currents: seq<SearchResult>
    var current: Option<SearchResult>
    var sink: seq<SinkEvent>

    function State(): Session
      reads this
    {
      Session(currents, current, sink)
    }

    ghost predicate Valid()
      reads this
    {
      SelectionInResults(State())
    }

    /** `for_youtube`: an empty session over the YouTube backend. The result
        count is accepted but not passed on: the backend takes none. */
    constructor ForYoutube(youtubeApiKey: string, maxResults: nat, downloadPath: string,
                           http: string -> Youtube.HttpReply)
      ensures Valid()
      ensures State() == Session([], None, [])
      ensures ytdlPath == downloadPath
      ensures backend == Youtube.YoutubePlayer(youtubeApiKey, http)
    {
      backend := Youtube.YoutubePlayer(youtubeApiKey, http);
      ytdlPath := downloadPath;
      currents := [];
      current := None;
      sink := [];
    }

    /** `handle_command`. */
    method HandleCommand(command: string, io: Io) returns (o: Outcome<()>)
      modifies this
      ensures Step(State(), o) == Handle(backend, ytdlPath, old(State()), command, io)
      ensures old(Valid()) ==> Valid()
    {
      ghost var s0 := State();
      if Valid() {
        HandleKeepsSelectionInResults(backend, ytdlPath, s0, command, io);
      }
      var cmdSplit := SplitCommand(command);
      var verb := cmdSplit.verb;
      if verb == "" {
        o := Returned(());
      } else if verb == "play" {
        o := PlayCurrent(io);
      } else if verb == "pause" {
        Pause();
        o := Returned(());
      } else if verb == "resume" {
        Resume();
        o := Returned(());
      } else if verb == "related" {
        o := FindRelated();
        if o.Returned? {
          SelectInteractive(io.sel);
        }
      } else if verb == "search" {
        if cmdSplit.argument.Some? {
          o := Search(cmdSplit.argument.value);
          if o.Returned? {
            SelectInteractive(io.sel);
          }
        } else {
          o := Returned(());
        }
      } else {
        o := Returned(());
      }
    }

    /** `select_interactive`: the index read at the prompt picks the
        selection; an index past the end clears it. */
    method SelectInteractive(sel: nat)
      modifies this
      ensures State() == old(State()).(current := Select(currents, sel))
    {
      current := Select(currents, sel);
    }

    /** `search`: the backend's answer replaces the result list. */
    method Search(terms: string) returns (o: Outcome<()>)
      modifies this
      ensures backend.search(terms).Returned? ==>
                o == Returned(()) && State() == old(State()).(currents := backend.search(terms).value)
      ensures backend.search(terms).Panicked? ==>
                o == Panicked(backend.search(terms).message) && State() == old(State())
    {
      match backend.search(terms) {
        case Panicked(m) =>
          o := Panicked(m);
        case Returned(results) =>
          currents := results;
          o := Returned(());
      }
    }

    /** `find_related`: needs a selection; the related tracks replace the result list. */
    method FindRelated() returns (o: Outcome<()>)
      modifies this
      ensures old(current).None? ==> o == Panicked(NoSelection) && State() == old(State())
      ensures old(current).Some? && backend.findRelatedTracks(old(current).value.id).Panicked? ==>
                o == Panicked(backend.findRelatedTracks(old(current).value.id).message) && State() == old(State())
      ensures old(current).Some? && backend.findRelatedTracks(old(current).value.id).Returned? ==>
                && o == Returned(())
                && State() == old(State()).(currents := backend.findRelatedTracks(old(current).value.id).value)
    {
      match current {
        case None =>
          o := Panicked(NoSelection);
        case Some(x) =>
          match backend.findRelatedTracks(x.id) {
            case Panicked(m) =>
              o := Panicked(m);
            case Returned(results) =>
              currents := results;
              o := Returned(());
          }
      }
    }

    /** `play_current`: download the selection, append it to the sink and play. */
    method PlayCurrent(io: Io) returns (o: Outcome<()>)
      modifies this
      ensures Step(State(), o) == PlayStep(backend, ytdlPath, old(State()), io)
    {
      match current {
        case None =>
          o := Panicked(NoSelection);
        case Some(x) =>
          var download := DownloadAudio(ytdlPath, backend.genDownloadUrl(x.id), io.youtubeDl);
          if download.Panicked? {
            return Panicked(download.message);
          }
          var path := download.value;
          match io.openFile(path) {
            case OpenFailed(e) =>
              o := Panicked(e);
            case NotAudio =>
              o := Panicked(NotDecodable);
            case Audio =>
              sink := sink + [Appended(path)];
              sink := sink + [Played];
              o := Returned(());
          }
      }
    }

    /** `pause`. */
    method Pause()
      modifies this
      ensures State() == old(State()).(sink := old(sink) + [Paused])
    {
      sink := sink + [Paused];
    }

    /** `resume`. */
    method Resume()
      modifies this
      ensures State() == old(State()).(sink := old(sink) + [Played])
    {
      sink := sink + [Played];
    }
  }
}
