/** Shared vocabulary of the soundboard's playback model: the two streamed
    channels, per-channel pairs, the browser audio element seen as a value,
    and the records that travel between the DM, the server and the players.

    Time is an `int` of milliseconds (the value of `Date.now()`, always passed
    in); playback positions are `real` seconds. */
module Playback {

  datatype Option<+T> = None | Some(value: T) {
    function GetOr(default: T): T {
      match this
      case Some(v) => v
      case None => default
    }
  }

  /** Drift tolerance of the sync system, in seconds (`SYNC_TOLERANCE`). */
  const SYNC_TOLERANCE: real := 0.5
  /** The DM's broadcast period and the players' drift-check period, in ms. */
  const BROADCAST_INTERVAL: int := 3000
  const CHECK_INTERVAL: int := 1000

  function Abs(x: real): (r: real)
    ensures r >= 0.0
    ensures r == x || r == -x
  {
    if x < 0.0 then -x else x
  }

  /** Milliseconds to seconds, as `ms / 1000` in the source. */
  function Seconds(ms: int): real {
    ms as real / 1000.0
  }

  /** The two streamed channels. One-shot sound effects are kept apart. */
  datatype Channel = Bgm | Ambience

  /** A `{ bgm: …, ambience: … }` object: one value per streamed channel. */
  datatype PerChannel<T> = PerChannel(bgm: T, ambience: T) {
    function Get(ch: Channel): T {
      match ch
      case Bgm => bgm
      case Ambience => ambience
    }

    /** Replaces one channel's value; the other channel keeps its own. */
    function Set(ch: Channel, v: T): (r: PerChannel<T>)
      ensures r.Get(ch) == v
      ensures forall other :: other != ch ==> r.Get(other) == Get(other)
    {
      match ch
      case Bgm => this.(bgm := v)
      case Ambience => this.(ambience := v)
    }
  }

  /** An HTML audio element. `src == ""` is an element without a source;
      `dmVolume` is `dataset.dmVolume`, None while it was never assigned. */
  datatype Element = Element(
    src: string,
    paused: bool,
    currentTime: real,
    duration: real,
    loop: bool,
    volume: real,
    dmVolume: Option<real>)
  {
    /** Assigning `src` runs the media element load algorithm: playback
        stops and the position returns to 0. */
    function WithSource(url: string): (e: Element)
      ensures e.src == url && e.paused && e.currentTime == 0.0
      ensures e.loop == loop && e.volume == volume && e.dmVolume == dmVolume && e.duration == duration
    {
      this.(src := url, paused := true, currentTime := 0.0)
    }

    /** Assigning `currentTime`. */
    function Seek(t: real): Element {
      this.(currentTime := t)
    }

    /** `play()`: the element starts when the platform allows it and stays
        paused when the returned promise is rejected. */
    function Play(allowed: bool): (e: Element)
      ensures e.paused == (paused && !allowed)
      ensures e.currentTime == currentTime && e.src == src
    {
      if allowed then this.(paused := false) else this
    }

    function Pause(): Element {
      this.(paused := true)
    }
  }

  /** A `track` field: null, a bare string, or an object whose `url`
      property may be absent. */
  datatype TrackRef = NoTrack | TrackName(name: string) | TrackObject(url: Option<string>)
  {
    /** JavaScript truthiness of the field. */
    predicate Truthy() {
      match this
      case NoTrack => false
      case TrackName(s) => s != ""
      case TrackObject(_) => true
    }

    /** `track.url`: absent on anything but an object. */
    function Url(): Option<string> {
      match this
      case TrackObject(u) => u
      case _ => None
    }
  }

  /** JavaScript truthiness of an optional string. */
  predicate TruthyText(s: Option<string>) {
    s.Some? && s.value != ""
  }

  /** What `audio.src = x` stores: an undefined value becomes the text
      "undefined". */
  function SrcText(s: Option<string>): string {
    s.GetOr("undefined")
  }

  /** One channel entry of a `sync:broadcast` or `state:sync` message, as the
      follower reads it. The DM's samples carry `isPlaying` and `src`; the
      server's records carry `playing` and `track` instead, so whichever
      field a producer does not send is false, "" or absent here. */
  datatype Entry = Entry(
    isPlaying: bool,
    playing: bool,
    currentTime: real,
    duration: Option<real>,
    loop: Option<bool>,
    volume: Option<real>,
    src: string,
    track: TrackRef)

  /** The server's record of one channel (`playbackState.bgm`), which is
      also what `state:sync` and the play announcements carry. `startTime`
      is absent after a stop and before the first play. */
  datatype ChannelState = ChannelState(
    track: TrackRef,
    playing: bool,
    volume: real,
    currentTime: real,
    loop: bool,
    startTime: Option<int>)
  {
    /** The record read as a sync entry: it has no `isPlaying` and no `src`. */
    function AsEntry(): (e: Entry)
      ensures !e.isPlaying && e.src == "" && e.playing == playing
      ensures e.currentTime == currentTime && e.track == track
    {
      Entry(false, playing, currentTime, None, Some(loop), Some(volume), "", track)
    }

    /** The record read as a play message: every field is present. */
    function AsPlayMessage(): (m: PlayMessage)
      ensures m.track == Some(track) && m.volume == Some(volume)
      ensures m.loop == Some(loop) && m.currentTime == Some(currentTime)
    {
      PlayMessage(Some(track), Some(volume), Some(loop), Some(currentTime))
    }
  }

  /** The payload of `bgm:play` / `ambience:play`: each field may be absent
      (None); `track: Some(NoTrack)` is an explicit null. */
  datatype PlayMessage = PlayMessage(
    track: Option<TrackRef>,
    volume: Option<real>,
    loop: Option<bool>,
    currentTime: Option<real>)
}
