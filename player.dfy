/** `src/player.rs`: playback through an mpv handle. The handle is its
    property map and the log of commands sent to it. */
module Player {
  import opened Wrappers

  const TwoTo64: int := 0x1_0000_0000_0000_0000

  newtype i64 = x: int | -0x8000_0000_0000_0000 <= x < 0x8000_0000_0000_0000
  newtype u64 = x: int | 0 <= x < 0x1_0000_0000_0000_0000

  /** A property value as mpv hands it over. */
  datatype MpvValue = Text(s: string) | Flag(b: bool) | Int(i: i64)

  /** `x as u64`: the same 64 bits read as unsigned, so negative values wrap. */
  function AsU64(x: i64): (r: u64)
    ensures r as int == (x as int) % TwoTo64
  {
    if x < 0 then (x as int + TwoTo64) as u64 else x as int as u64
  }

  /** `x as i64`, the inverse reinterpretation. */
  function AsI64(x: u64): (r: i64)
    ensures (r as int) % TwoTo64 == x as int
  {
    if x as int < TwoTo64 / 2 then x as int as i64 else (x as int - TwoTo64) as i64
  }

  /** The cast loses nothing: it is undone by the opposite cast. */
  lemma CastRoundTrip(x: i64)
    ensures AsI64(AsU64(x)) == x
  {
  }

  /** What `loop_` sets `loop-file` to, given its current value; `None` is the panic. */
  function NextLoop(x: string): Option<string> {
    if x == "inf" || x == "yes" then Some("no")
    else if x == "no" || x == "1" then Some("inf")
    else None
  }

  /** Toggling twice returns to the start exactly for the two values the
      toggle itself writes. */
  lemma LoopToggleTwice(x: string)
    ensures (NextLoop(x).Some? && NextLoop(NextLoop(x).value) == Some(x)) <==> x == "inf" || x == "no"
  {
  }

  const LoopFile: string := "loop-file"
  const UnexpectedLoop: string := "Unexpected value for loop-file property"
  const LoopUnreadable: string := "loop-file property could not be read"

  /** `loop_` on the property map: the new map, or the panic. */
  function ToggleLoop(props: map<string, MpvValue>): Outcome<map<string, MpvValue>> {
    if LoopFile in props && props[LoopFile].Text? then
      match NextLoop(props[LoopFile].s)
      case Some(next) => Returned(props[LoopFile := Text(next)])
      case None => Panicked(UnexpectedLoop)
    else
      Panicked(LoopUnreadable)
  }

  /** From `inf` or `no`, two toggles restore every property. */
  lemma {:induction false} ToggleLoopTwice(props: map<string, MpvValue>)
    requires LoopFile in props && (props[LoopFile] == Text("inf") || props[LoopFile] == Text("no"))
    ensures ToggleLoop(props).Returned?
    ensures ToggleLoop(ToggleLoop(props).value) == Returned(props)
  {
    LoopToggleTwice(props[LoopFile].s);
    var once := ToggleLoop(props).value;
    var back := NextLoop(NextLoop(props[LoopFile].s).value).value;
    assert once[LoopFile := Text(back)] == props;
  }

  /** A toggle only ever changes `loop-file`, and only ever to `inf` or `no`. */
  lemma ToggleLoopTouchesOnlyLoopFile(props: map<string, MpvValue>)
    ensures ToggleLoop(props).Returned? ==>
              var next := ToggleLoop(props).value;
              && next.Keys == props.Keys
              && (forall k :: k in props && k != LoopFile ==> next[k] == props[k])
              && (next[LoopFile] == Text("inf") || next[LoopFile] == Text("no"))
  {
  }

  const TimeRemain: string := "time-remain"
  const DefaultSleepSeconds: u64 := 90

  /** The mpv handle: its properties and the commands sent to it so far. */
  class AudioPlayer {
    var properties: map<string, MpvValue>
    var commands: seq<seq<string>>

    constructor (initial: map<string, MpvValue>)
      ensures properties == initial && commands == []
    {
      properties := initial;
      commands := [];
    }

    /** `queue`: append the file to the playlist, starting it if idle. */
    method Queue(file: string)
      modifies this
      ensures commands == old(commands) + [["loadfile", file, "append-play"]]
      ensures properties == old(properties)
    {
      commands := commands + [["loadfile", file, "append-play"]];
    }

    /** `queue_and_play`: replace whatever plays with the file. */
    method QueueAndPlay(file: string)
      modifies this
      ensures commands == old(commands) + [["loadfile", file, "replace"]]
      ensures properties == old(properties)
    {
      commands := commands + [["loadfile", file, "replace"]];
    }

    /** `stop`. */
    method Stop()
      modifies this
      ensures commands == old(commands) + [["stop"]]
      ensures properties == old(properties)
    {
      commands := commands + [["stop"]];
    }

    /** `pause`: set `pause` to true and nothing else. */
    method Pause()
      modifies this
      ensures properties == old(properties)["pause" := Flag(true)]
      ensures commands == old(commands)
    {
      properties := properties["pause" := Flag(true)];
    }

    /** `resume`: set `pause` to false and nothing else. */
    method Resume()
      modifies this
      ensures properties == old(properties)["pause" := Flag(false)]
      ensures commands == old(commands)
    {
      properties := properties["pause" := Flag(false)];
    }

    /** `loop_`: read `loop-file` and write the toggled value; an unreadable
        or unexpected value panics before anything is written. */
    method Loop() returns (o: Outcome<()>)
      modifies this
      ensures commands == old(commands)
      ensures ToggleLoop(old(properties)).Returned? ==>
                o == Returned(()) && properties == ToggleLoop(old(properties)).value
      ensures ToggleLoop(old(properties)).Panicked? ==>
                o == Panicked(ToggleLoop(old(properties)).message) && properties == old(properties)
    {
      if !(LoopFile in properties && properties[LoopFile].Text?) {
        return Panicked(LoopUnreadable);
      }
      var nextLoop := NextLoop(properties[LoopFile].s);
      if nextLoop.None? {
        return Panicked(UnexpectedLoop);
      }
      properties := properties[LoopFile := Text(nextLoop.value)];
      o := Returned(());
    }

    /** `get_time_remain`: the remaining time cast to unsigned, or `None`
        when the property cannot be read as an integer. */
    method GetTimeRemain() returns (r: Option<u64>)
      ensures r.Some? <==> TimeRemain in properties && properties[TimeRemain].Int?
      ensures r.Some? ==> r.value as int == (properties[TimeRemain].i as int) % TwoTo64
    {
      if TimeRemain in properties && properties[TimeRemain].Int? {
        r := Some(AsU64(properties[TimeRemain].i));
      } else {
        r := None;
      }
    }

    /** How long the blocking queue path sleeps once the file has loaded:
        the remaining time, or 90 seconds when there is none. */
    method SleepSeconds() returns (secs: u64)
      ensures !(TimeRemain in properties && properties[TimeRemain].Int?) ==> secs == DefaultSleepSeconds
      ensures TimeRemain in properties && properties[TimeRemain].Int? ==>
                secs as int == (properties[TimeRemain].i as int) % TwoTo64
    {
      var remain := GetTimeRemain();
      secs := remain.GetOr(DefaultSleepSeconds);
    }
  }
}
