/** `MusicSyncSystem`, both copies of it: `src/music-sync-system.js` and the
    copy served to browsers, `src/public/music-sync-system.js`.

    The DM's instance samples its two audio elements and broadcasts them
    with a timestamp. A player's instance projects each received entry
    forward by the message's transit time, records the projection per
    channel, starts or hard-seeks its element, and re-checks every second
    that its element has not drifted from the projection.

    Every handler is specified by a function over a `Follower` value (the
    elements, the sync records and the pending click retries); the class
    methods change the fields step by step, as the source does, and are
    proved to produce that value. */
module MusicSync {
  import opened Playback
  import PlayerVolume

  /** Which copy of the class: the two differ only in how an entry's source
      URL is found (the served copy also accepts a string `track`). */
  datatype Copy = Root | Public

  /** A channel's `syncState` record. */
  datatype SyncRecord = SyncRecord(isPlaying: bool, lastSyncTime: int, targetTime: real, syncedAt: int)

  /** The record of a channel that was never synced, or after `destroy`. */
  const IDLE: SyncRecord := SyncRecord(false, 0, 0.0, 0)

  /** A click listener left behind by a rejected `play()`: on the next click
      it seeks the channel's element to the target captured when the
      listener was registered and starts it again. */
  datatype Retry = Retry(channel: Channel, targetTime: real)

  /** A `sync:broadcast` message: an absent (null) entry is None. */
  datatype Snapshot = Snapshot(timestamp: int, channels: PerChannel<Option<Entry>>)

  /** The state a player's instance works on. */
  datatype Follower = Follower(audio: PerChannel<Option<Element>>, sync: PerChannel<SyncRecord>, retries: seq<Retry>)

  /** The outcome of `syncAudio` for one channel. */
  datatype Step = Step(audio: Option<Element>, record: SyncRecord, retry: Option<Retry>)

  function RetryList(r: Option<Retry>): seq<Retry> {
    match r
    case None => []
    case Some(x) => [x]
  }

  // ---------------------------------------------------------------------
  // The DM's side: sampling the elements.

  /** `getBGMState` / `getAmbienceState`: null without an element; otherwise
      the element's state, with `isPlaying` true exactly when it is not
      paused. */
  function Sample(audio: Option<Element>): (e: Option<Entry>)
    ensures e.None? <==> audio.None?
    ensures e.Some? ==>
              && e.value.isPlaying == !audio.value.paused
              && e.value.currentTime == audio.value.currentTime
              && e.value.src == audio.value.src
              && e.value.loop == Some(audio.value.loop)
              && e.value.volume == Some(audio.value.volume)
  {
    match audio
    case None => None
    case Some(a) => Some(Entry(!a.paused, false, a.currentTime, Some(a.duration), Some(a.loop), Some(a.volume), a.src, NoTrack))
  }

  /** `broadcastSync`: both channels sampled under one timestamp. */
  function SnapshotOf(audio: PerChannel<Option<Element>>, now: int): (s: Snapshot)
    ensures s.timestamp == now
    ensures forall ch :: s.channels.Get(ch) == Sample(audio.Get(ch))
  {
    Snapshot(now, PerChannel(Sample(audio.bgm), Sample(audio.ambience)))
  }

  // ---------------------------------------------------------------------
  // A player's side: applying one entry.

  /** The source URL of an entry: `src` if set; otherwise the track's `url`;
      in the served copy a string `track` is itself the URL; otherwise
      null (None). */
  function SourceUrl(copy: Copy, e: Entry): (url: Option<string>)
    ensures url.Some? ==> url.value != ""
    ensures e.src != "" ==> url == Some(e.src)
    ensures e.src == "" && e.track.NoTrack? ==> url.None?
  {
    if e.src != "" then Some(e.src)
    else if !e.track.Truthy() then None
    else
      match e.track
      case TrackName(s) => if copy == Public then Some(s) else None
      case TrackObject(u) => if TruthyText(u) then u else None
      case NoTrack => None
  }

  /** The two copies find the same URL for every entry except one whose
      `track` is a non-empty string and whose `src` is empty: the served copy
      takes the string, the other finds nothing and skips the entry. */
  lemma SourceUrlCopiesDiffer(e: Entry)
    ensures SourceUrl(Root, e) != SourceUrl(Public, e) <==>
              e.src == "" && e.track.TrackName? && e.track.name != ""
    ensures e.src == "" && e.track.TrackName? ==>
              SourceUrl(Root, e).None? && (e.track.name != "" ==> SourceUrl(Public, e) == Some(e.track.name))
    ensures e.src == "" && e.track.TrackObject? ==>
              SourceUrl(Root, e) == SourceUrl(Public, e) == (if TruthyText(e.track.url) then e.track.url else None)
  {
  }

  /** The entry's position projected forward by the transit time. */
  function Target(e: Entry, latency: int): real {
    e.currentTime + Seconds(latency)
  }

  /** The volume step of `syncAudio`: with the player's mixer present and a
      DM level stored on the element, the mixer's level; otherwise the
      entry's level, which is also stored as the DM level; otherwise nothing. */
  function Leveled(ch: Channel, a: Element, e: Entry, mixer: Option<PlayerVolume.Volumes>): (r: Element)
    ensures r.src == a.src && r.paused == a.paused && r.currentTime == a.currentTime && r.loop == a.loop
    ensures r.duration == a.duration
    ensures r.volume == (if mixer.Some? && a.dmVolume.Some?
                         then PlayerVolume.Mix(mixer.value, PlayerVolume.Stream(ch), a.dmVolume.value)
                         else if e.volume.Some? then e.volume.value else a.volume)
    ensures r.dmVolume == (if mixer.Some? && a.dmVolume.Some? then a.dmVolume
                           else if e.volume.Some? then e.volume else a.dmVolume)
    ensures mixer.Some? && a.dmVolume.Some? && PlayerVolume.InUnit(mixer.value.master)
            && PlayerVolume.InUnit(mixer.value.Get(PlayerVolume.Stream(ch))) && PlayerVolume.InUnit(a.dmVolume.value)
            ==> PlayerVolume.InUnit(r.volume) && r.volume <= a.dmVolume.value
  {
    if mixer.Some? && a.dmVolume.Some? then
      a.(volume := PlayerVolume.Mix(mixer.value, PlayerVolume.Stream(ch), a.dmVolume.value))
    else if e.volume.Some? then
      a.(volume := e.volume.value, dmVolume := e.volume)
    else
      a
  }

  /** `syncAudio(channel, state, latency)` at time `now`, where `allowed`
      says whether the platform accepts `play()`.

      Without an element, with an entry that is not playing, or without a
      source URL, nothing changes (so a channel is never paused here).
      Otherwise the record is replaced by {playing, target, now}, where the
      target is the entry's position plus the transit time; the element
      takes the URL (restarting only if it had another one) and the entry's
      loop flag if it has one. An element that is paused or was restarted is
      seeked to the target and started, and a rejected start leaves a retry
      holding that target; a playing element is seeked to the target only
      when it is more than the tolerance away from it. Either way the
      element ends within the tolerance of the target. */
  function SyncStep(copy: Copy, ch: Channel, audio: Option<Element>, record: SyncRecord, e: Entry,
                    latency: int, now: int, mixer: Option<PlayerVolume.Volumes>, allowed: bool): (s: Step)
    ensures audio.None? || !e.isPlaying || SourceUrl(copy, e).None? ==> s == Step(audio, record, None)
    ensures s.audio.Some? == audio.Some?
    ensures audio.Some? && e.isPlaying && SourceUrl(copy, e).Some? ==>
              var url := SourceUrl(copy, e).value;
              var target := Target(e, latency);
              var restart := audio.value.paused || audio.value.src != url;
              && s.record == SyncRecord(true, now, target, now)
              && s.audio.Some?
              && s.audio.value.src == url
              && s.audio.value.loop == e.loop.GetOr(audio.value.loop)
              && Abs(s.audio.value.currentTime - target) <= SYNC_TOLERANCE
              && (restart ==> s.audio.value.currentTime == target)
              && (!restart && Abs(audio.value.currentTime - target) <= SYNC_TOLERANCE ==>
                    s.audio.value.currentTime == audio.value.currentTime)
              && (!restart && Abs(audio.value.currentTime - target) > SYNC_TOLERANCE ==>
                    s.audio.value.currentTime == target)
              && s.audio.value.paused == (restart && !allowed)
              && s.audio.value.volume == Leveled(ch, audio.value, e, mixer).volume
              && s.audio.value.dmVolume == Leveled(ch, audio.value, e, mixer).dmVolume
              && s.audio.value.duration == audio.value.duration
              && s.retry == (if restart && !allowed then Some(Retry(ch, target)) else None)
  {
    if audio.None? || !e.isPlaying || SourceUrl(copy, e).None? then
      Step(audio, record, None)
    else
      var url := SourceUrl(copy, e).value;
      var target := Target(e, latency);
      var a1 := if audio.value.src != url then audio.value.WithSource(url) else audio.value;
      var a2 := if e.loop.Some? then a1.(loop := e.loop.value) else a1;
      var a3 := Leveled(ch, a2, e, mixer);
      var rec := SyncRecord(true, now, target, now);
      if a3.paused then
        Step(Some(a3.Seek(target).Play(allowed)), rec, if allowed then None else Some(Retry(ch, target)))
      else if Abs(a3.currentTime - target) > SYNC_TOLERANCE then
        Step(Some(a3.Seek(target)), rec, None)
      else
        Step(Some(a3), rec, None)
  }

  /** The sync of one channel applied to a follower: the other channel's
      element and record are untouched. */
  function ChannelSynced(copy: Copy, f: Follower, ch: Channel, e: Entry, latency: int, now: int,
                         mixer: Option<PlayerVolume.Volumes>, allowed: bool): (g: Follower)
    ensures var s := SyncStep(copy, ch, f.audio.Get(ch), f.sync.Get(ch), e, latency, now, mixer, allowed);
            g.audio.Get(ch) == s.audio && g.sync.Get(ch) == s.record && g.retries == f.retries + RetryList(s.retry)
    ensures forall other :: other != ch ==> g.audio.Get(other) == f.audio.Get(other) && g.sync.Get(other) == f.sync.Get(other)
  {
    var s := SyncStep(copy, ch, f.audio.Get(ch), f.sync.Get(ch), e, latency, now, mixer, allowed);
    Follower(f.audio.Set(ch, s.audio), f.sync.Set(ch, s.record), f.retries + RetryList(s.retry))
  }

  /** `handleSyncBroadcast(data)` at time `now`: the DM ignores it; a player
      computes the latency `now - timestamp` and syncs each channel present
      in the message. */
  function Received(copy: Copy, role: string, f: Follower, data: Snapshot, now: int,
                    mixer: Option<PlayerVolume.Volumes>, allowed: bool): (g: Follower)
    ensures role == "dm" ==> g == f
  {
    if role == "dm" then f
    else
      var latency := now - data.timestamp;
      var f1 := if data.channels.bgm.Some? then ChannelSynced(copy, f, Bgm, data.channels.bgm.value, latency, now, mixer, allowed) else f;
      if data.channels.ambience.Some? then ChannelSynced(copy, f1, Ambience, data.channels.ambience.value, latency, now, mixer, allowed) else f1
  }

  /** A player applies each channel of a message on its own: a channel's new
      element and record depend only on that channel's entry and old state,
      and a channel without an entry keeps both. */
  lemma {:induction false} ReceivedPerChannel(copy: Copy, role: string, f: Follower, data: Snapshot, now: int,
                                             mixer: Option<PlayerVolume.Volumes>, allowed: bool, ch: Channel)
    requires role != "dm"
    ensures var g := Received(copy, role, f, data, now, mixer, allowed);
            match data.channels.Get(ch)
            case None => g.audio.Get(ch) == f.audio.Get(ch) && g.sync.Get(ch) == f.sync.Get(ch)
            case Some(e) =>
              var s := SyncStep(copy, ch, f.audio.Get(ch), f.sync.Get(ch), e, now - data.timestamp, now, mixer, allowed);
              g.audio.Get(ch) == s.audio && g.sync.Get(ch) == s.record
  {
    var latency := now - data.timestamp;
    var f1 := if data.channels.bgm.Some? then ChannelSynced(copy, f, Bgm, data.channels.bgm.value, latency, now, mixer, allowed) else f;
    var g := if data.channels.ambience.Some? then ChannelSynced(copy, f1, Ambience, data.channels.ambience.value, latency, now, mixer, allowed) else f1;
    assert g == Received(copy, role, f, data, now, mixer, allowed);
    assert f1.audio.Get(Ambience) == f.audio.Get(Ambience) && f1.sync.Get(Ambience) == f.sync.Get(Ambience);
    if ch == Bgm {
      assert g.audio.Get(Bgm) == f1.audio.Get(Bgm) && g.sync.Get(Bgm) == f1.sync.Get(Bgm);
    }
  }

  /** A message whose entries are all not playing changes no element and no
      record: it never pauses a player. */
  lemma NotPlayingMessageChangesNothing(copy: Copy, role: string, f: Follower, data: Snapshot, now: int,
                                        mixer: Option<PlayerVolume.Volumes>, allowed: bool)
    requires forall ch :: data.channels.Get(ch).Some? ==> !data.channels.Get(ch).value.isPlaying
    ensures Received(copy, role, f, data, now, mixer, allowed) == f
  {
    assert data.channels.Get(Bgm) == data.channels.bgm;
    assert data.channels.Get(Ambience) == data.channels.ambience;
  }

  /** Applying the same entry twice at the same instant makes no second
      seek: the position, the play state, the source and the record are
      those of the first application. */
  lemma {:induction false} SyncTwiceNoSecondSeek(copy: Copy, ch: Channel, audio: Option<Element>, record: SyncRecord, e: Entry,
                                                latency: int, now: int, mixer: Option<PlayerVolume.Volumes>, allowed: bool)
    ensures var s1 := SyncStep(copy, ch, audio, record, e, latency, now, mixer, allowed);
            var s2 := SyncStep(copy, ch, s1.audio, s1.record, e, latency, now, mixer, allowed);
            && s2.record == s1.record
            && s2.audio.Some? == s1.audio.Some?
            && (s1.audio.Some? ==>
                  s2.audio.value.currentTime == s1.audio.value.currentTime
                  && s2.audio.value.paused == s1.audio.value.paused
                  && s2.audio.value.src == s1.audio.value.src)
  {
  }

  /** The scenario of a player receiving a broadcast 150 ms late: the DM
      was at 3.0 s, the player is playing the same track at 1.0 s, so it is
      2.15 s off and jumps to 3.15 s. */
  lemma LateBroadcastScenario(copy: Copy, mixer: Option<PlayerVolume.Volumes>, allowed: bool)
    ensures var player := Element("/audio/bgm/theme.mp3", false, 1.0, 120.0, true, 0.5, None);
            var e := Entry(true, false, 3.0, Some(120.0), Some(true), Some(0.5), "/audio/bgm/theme.mp3", NoTrack);
            var s := SyncStep(copy, Bgm, Some(player), IDLE, e, 3150 - 3000, 3150, mixer, allowed);
            s.audio == Some(player.(currentTime := 3.15, volume := s.audio.value.volume, dmVolume := s.audio.value.dmVolume))
            && s.record == SyncRecord(true, 3150, 3.15, 3150)
            && s.retry.None?
  {
  }

  // ---------------------------------------------------------------------
  // The periodic drift check.

  /** Where the channel should be at `now`: the target plus the time since
      it was recorded, at 1x speed and without wrapping at the end of a
      looping track. */
  function Expected(r: SyncRecord, now: int): real {
    r.targetTime + Seconds(now - r.syncedAt)
  }

  /** One channel of `checkDrift`: a channel with an element and a playing
      record is seeked to the expected position exactly when it is more than
      the tolerance away from it; afterwards it is within the tolerance. */
  function Corrected(audio: Option<Element>, r: SyncRecord, now: int): (c: Option<Element>)
    ensures c.Some? == audio.Some?
    ensures audio.None? || !r.isPlaying ==> c == audio
    ensures audio.Some? && r.isPlaying ==>
              Abs(c.value.currentTime - Expected(r, now)) <= SYNC_TOLERANCE
              && (c != audio <==> Abs(Expected(r, now) - audio.value.currentTime) > SYNC_TOLERANCE)
              && (c != audio ==> c.value == audio.value.Seek(Expected(r, now)))
  {
    if audio.Some? && r.isPlaying && Abs(Expected(r, now) - audio.value.currentTime) > SYNC_TOLERANCE then
      Some(audio.value.Seek(Expected(r, now)))
    else
      audio
  }

  /** `checkDrift` at time `now`: nothing for the DM; each channel corrected
      on its own; the records and the retries are never touched. */
  function DriftChecked(role: string, f: Follower, now: int): (g: Follower)
    ensures g.sync == f.sync && g.retries == f.retries
    ensures role == "dm" ==> g == f
    ensures role != "dm" ==> forall ch :: g.audio.Get(ch) == Corrected(f.audio.Get(ch), f.sync.Get(ch), now)
  {
    if role == "dm" then f
    else f.(audio := PerChannel(Corrected(f.audio.bgm, f.sync.bgm, now), Corrected(f.audio.ambience, f.sync.ambience, now)))
  }

  /** Right after a sync, a drift check at the same instant moves nothing:
      the target just recorded is exactly the expected position, and the
      sync left the element within the tolerance of it. */
  lemma {:induction false} NoCorrectionRightAfterSync(copy: Copy, ch: Channel, audio: Option<Element>, record: SyncRecord, e: Entry,
                                                     latency: int, now: int, mixer: Option<PlayerVolume.Volumes>, allowed: bool)
    ensures var s := SyncStep(copy, ch, audio, record, e, latency, now, mixer, allowed);
            s.record != record ==> Corrected(s.audio, s.record, now) == s.audio
  {
    var s := SyncStep(copy, ch, audio, record, e, latency, now, mixer, allowed);
    if s.record != record {
      assert Expected(s.record, now) == s.record.targetTime;
    }
  }

  /** A check leaves the element at most the tolerance from the expected
      position. If the element then advances by `advance` seconds while
      `elapsed` ms pass, the next check finds it at most the tolerance plus
      the difference between the two off. */
  lemma {:induction false} DriftGrowsOnlyByRateError(audio: Element, r: SyncRecord, now: int, elapsed: nat, advance: real)
    requires r.isPlaying
    ensures var c := Corrected(Some(audio), r, now).value;
            Abs(Expected(r, now + elapsed) - (c.currentTime + advance))
              <= SYNC_TOLERANCE + Abs(advance - Seconds(elapsed))
  {
    var c := Corrected(Some(audio), r, now).value;
    assert Expected(r, now + elapsed) == Expected(r, now) + Seconds(elapsed);
  }

  // ---------------------------------------------------------------------
  // Click retries.

  /** One retry listener: the element, if the channel still has one, is
      seeked to the captured target and started. */
  function Retried(audio: PerChannel<Option<Element>>, r: Retry, allowed: bool): (g: PerChannel<Option<Element>>)
    ensures forall c :: c != r.channel ==> g.Get(c) == audio.Get(c)
    ensures g.Get(r.channel).Some? == audio.Get(r.channel).Some?
    ensures audio.Get(r.channel).Some? ==>
              var a := audio.Get(r.channel).value;
              && g.Get(r.channel).value.currentTime == r.targetTime
              && g.Get(r.channel).value.src == a.src
              && g.Get(r.channel).value.paused == (a.paused && !allowed)
  {
    match audio.Get(r.channel)
    case None => audio
    case Some(a) => audio.Set(r.channel, Some(a.Seek(r.targetTime).Play(allowed)))
  }

  /** The retries, in the order their listeners were registered. */
  function RetriedAll(audio: PerChannel<Option<Element>>, rs: seq<Retry>, allowed: bool): (g: PerChannel<Option<Element>>)
    ensures forall c :: (forall i :: 0 <= i < |rs| ==> rs[i].channel != c) ==> g.Get(c) == audio.Get(c)
  {
    if rs == [] then audio
    else Retried(RetriedAll(audio, rs[..|rs| - 1], allowed), rs[|rs| - 1], allowed)
  }

  lemma {:induction false} RetriedAllKeepsElements(audio: PerChannel<Option<Element>>, rs: seq<Retry>, allowed: bool)
    ensures forall ch :: RetriedAll(audio, rs, allowed).Get(ch).Some? == audio.Get(ch).Some?
  {
    if rs != [] {
      RetriedAllKeepsElements(audio, rs[..|rs| - 1], allowed);
    }
  }

  /** A click: every pending retry runs once, then none is left. */
  function Clicked(f: Follower, allowed: bool): (g: Follower)
    ensures g.retries == [] && g.sync == f.sync
  {
    Follower(RetriedAll(f.audio, f.retries, allowed), f.sync, [])
  }

  /** A start the platform rejected is not lost: the next accepted click
      starts the channel at the target captured when it was rejected. */
  lemma {:induction false} RejectedStartResumesOnClick(copy: Copy, f: Follower, ch: Channel, e: Entry, latency: int, now: int,
                                                      mixer: Option<PlayerVolume.Volumes>)
    requires f.audio.Get(ch).Some? && e.isPlaying && SourceUrl(copy, e).Some?
    requires f.audio.Get(ch).value.paused || f.audio.Get(ch).value.src != SourceUrl(copy, e).value
    ensures var g := ChannelSynced(copy, f, ch, e, latency, now, mixer, false);
            var h := Clicked(g, true);
            h.audio.Get(ch).Some?
            && !h.audio.Get(ch).value.paused
            && h.audio.Get(ch).value.currentTime == Target(e, latency)
            && h.audio.Get(ch).value.src == SourceUrl(copy, e).value
  {
    var g := ChannelSynced(copy, f, ch, e, latency, now, mixer, false);
    var rs := g.retries;
    assert rs[|rs| - 1] == Retry(ch, Target(e, latency));
    RetriedAllKeepsElements(g.audio, rs[..|rs| - 1], true);
    RetriedAllSrc(g.audio, rs[..|rs| - 1], true, ch);
  }

  lemma {:induction false} RetriedAllSrc(audio: PerChannel<Option<Element>>, rs: seq<Retry>, allowed: bool, ch: Channel)
    requires audio.Get(ch).Some?
    ensures RetriedAll(audio, rs, allowed).Get(ch).Some?
    ensures RetriedAll(audio, rs, allowed).Get(ch).value.src == audio.Get(ch).value.src
  {
    if rs != [] {
      RetriedAllSrc(audio, rs[..|rs| - 1], allowed, ch);
    }
  }

  // ---------------------------------------------------------------------
  // The class.

  /** `MusicSyncSystem`. `role` is the constructor's role string ("dm" for
      the DM); `broadcasting` and `checking` say whether the DM's broadcast
      interval and the player's drift-check interval are set. */
  class MusicSyncSystem {
    const role: string
    const copy: Copy
    var audioElements: PerChannel<Option<Element>>
    var syncState: PerChannel<SyncRecord>
    var retries: seq<Retry>
    var broadcasting: bool
    var checking: bool

    function View(): Follower
      reads this
    {
      Follower(audioElements, syncState, retries)
    }

    constructor (role: string, copy: Copy)
      ensures this.role == role && this.copy == copy
      ensures audioElements == PerChannel(None, None) && syncState == PerChannel(IDLE, IDLE)
      ensures retries == [] && !broadcasting && !checking
    {
      this.role := role;
      this.copy := copy;
      audioElements := PerChannel(None, None);
      syncState := PerChannel(IDLE, IDLE);
      retries := [];
      broadcasting := false;
      checking := false;
    }

    /** `init`: the elements are attached and the role's interval started. */
    method Init(bgm: Option<Element>, ambience: Option<Element>)
      modifies this
      ensures audioElements == PerChannel(bgm, ambience)
      ensures syncState == old(syncState) && retries == old(retries)
      ensures broadcasting == (old(broadcasting) || role == "dm")
      ensures checking == (old(checking) || role != "dm")
    {
      audioElements := PerChannel(bgm, ambience);
      if role == "dm" {
        broadcasting := true;
      } else {
        checking := true;
      }
    }

    /** `getBGMState` / `getAmbienceState`. */
    function GetState(ch: Channel): (e: Option<Entry>)
      reads this
      ensures e == Sample(audioElements.Get(ch))
    {
      Sample(audioElements.Get(ch))
    }

    /** `broadcastSync`: the message the DM emits. */
    method BroadcastSync(now: int) returns (msg: Snapshot)
      ensures msg == SnapshotOf(audioElements, now)
      ensures msg.timestamp == now
      ensures forall ch :: msg.channels.Get(ch).Some? <==> audioElements.Get(ch).Some?
      ensures forall ch :: msg.channels.Get(ch).Some? ==>
                msg.channels.Get(ch).value.isPlaying == !audioElements.Get(ch).value.paused
                && msg.channels.Get(ch).value.currentTime == audioElements.Get(ch).value.currentTime
                && msg.channels.Get(ch).value.src == audioElements.Get(ch).value.src
    {
      msg := Snapshot(now, PerChannel(GetState(Bgm), GetState(Ambience)));
    }

    /** `sync:request`: only the DM answers, by broadcasting at once. */
    method OnSyncRequest(now: int) returns (sent: Option<Snapshot>)
      ensures sent.Some? <==> role == "dm"
      ensures sent.Some? ==> sent.value == SnapshotOf(audioElements, now)
    {
      if role == "dm" {
        var msg := BroadcastSync(now);
        sent := Some(msg);
      } else {
        sent := None;
      }
    }

    /** `syncAudio(channel, state, latency)`. */
    method SyncAudio(ch: Channel, e: Entry, latency: int, now: int, mixer: Option<PlayerVolume.Volumes>, allowed: bool)
      modifies this`audioElements, this`syncState, this`retries
      ensures View() == ChannelSynced(copy, old(View()), ch, e, latency, now, mixer, allowed)
    {
      var found := audioElements.Get(ch);
      if found.None? {
        return;
      }
      if !e.isPlaying {
        return;
      }
      var srcUrl := SourceUrl(copy, e);
      if srcUrl.None? {
        return;
      }
      ghost var step := SyncStep(copy, ch, found, syncState.Get(ch), e, latency, now, mixer, allowed);
      ghost var retried := retries;
      var audio := found.value;
      if audio.src != srcUrl.value {
        audio := audio.WithSource(srcUrl.value);
      }
      if e.loop.Some? {
        audio := audio.(loop := e.loop.value);
      }
      var targetTime := e.currentTime + Seconds(latency);
      syncState := syncState.Set(ch, SyncRecord(e.isPlaying, now, targetTime, now));
      audio := Leveled(ch, audio, e, mixer);
      if e.isPlaying && audio.paused {
        audio := audio.Seek(targetTime).Play(allowed);
        if !allowed {
          retries := retries + [Retry(ch, targetTime)];
        }
      }
      // The source's pause branch (`!state.isPlaying && !audio.paused`)
      // cannot be reached: an entry that is not playing returned above.
      if e.isPlaying && !audio.paused {
        if Abs(audio.currentTime - targetTime) > SYNC_TOLERANCE {
          audio := audio.Seek(targetTime);
        }
      }
      assert step.audio == Some(audio) && step.record == syncState.Get(ch);
      assert retries == retried + RetryList(step.retry);
      audioElements := audioElements.Set(ch, Some(audio));
    }

    /** `handleSyncBroadcast(data)` received at `now`. */
    method HandleSyncBroadcast(data: Snapshot, now: int, mixer: Option<PlayerVolume.Volumes>, allowed: bool)
      modifies this`audioElements, this`syncState, this`retries
      ensures View() == Received(copy, role, old(View()), data, now, mixer, allowed)
    {
      if role == "dm" {
        return;
      }
      var latency := now - data.timestamp;
      if data.channels.bgm.Some? {
        SyncAudio(Bgm, data.channels.bgm.value, latency, now, mixer, allowed);
      }
      if data.channels.ambience.Some? {
        SyncAudio(Ambience, data.channels.ambience.value, latency, now, mixer, allowed);
      }
    }

    /** `state:sync`: applied as a broadcast stamped with the time of
      arrival, so with zero latency. */
    method OnStateSync(state: PerChannel<Option<Entry>>, now: int, mixer: Option<PlayerVolume.Volumes>, allowed: bool)
      modifies this`audioElements, this`syncState, this`retries
      ensures View() == Received(copy, role, old(View()), Snapshot(now, state), now, mixer, allowed)
    {
      if role == "dm" {
        return;
      }
      HandleSyncBroadcast(Snapshot(now, state), now, mixer, allowed);
    }

    /** `checkDrift` at time `now`. */
    method CheckDrift(now: int)
      modifies this`audioElements
      ensures View() == DriftChecked(role, old(View()), now)
    {
      if role == "dm" {
        return;
      }
      var channels := [Bgm, Ambience];
      var i := 0;
      while i < |channels|
        invariant 0 <= i <= |channels|
        invariant forall j :: 0 <= j < i ==>
                    audioElements.Get(channels[j]) == Corrected(old(audioElements).Get(channels[j]), syncState.Get(channels[j]), now)
        invariant forall j :: i <= j < |channels| ==> audioElements.Get(channels[j]) == old(audioElements).Get(channels[j])
      {
        var ch := channels[i];
        var audio := audioElements.Get(ch);
        var state := syncState.Get(ch);
        if audio.Some? && state.isPlaying {
          var expectedTime := Expected(state, now);
          if Abs(expectedTime - audio.value.currentTime) > SYNC_TOLERANCE {
            audioElements := audioElements.Set(ch, Some(audio.value.Seek(expectedTime)));
          }
        }
        i := i + 1;
      }
      assert audioElements.Get(channels[0]) == audioElements.bgm;
      assert audioElements.Get(channels[1]) == audioElements.ambience;
    }

    /** A user click: every pending retry listener runs once. */
    method OnClick(allowed: bool)
      modifies this`audioElements, this`retries
      ensures View() == Clicked(old(View()), allowed)
    {
      var i := 0;
      while i < |retries|
        invariant 0 <= i <= |retries|
        invariant retries == old(retries)
        invariant audioElements == RetriedAll(old(audioElements), retries[..i], allowed)
      {
        assert retries[..i + 1][..i] == retries[..i];
        audioElements := Retried(audioElements, retries[i], allowed);
        i := i + 1;
      }
      assert retries[..i] == retries;
      retries := [];
    }

    /** `stop`: both intervals cleared. */
    method Stop()
      modifies this`broadcasting, this`checking
      ensures !broadcasting && !checking
    {
      broadcasting := false;
      checking := false;
    }

    /** `destroy`: intervals cleared, elements dropped, both records back to
      not playing with zeroed times. Listeners already registered for a
      click stay registered. */
    method Destroy()
      modifies this
      ensures !broadcasting && !checking
      ensures audioElements == PerChannel(None, None)
      ensures syncState == PerChannel(IDLE, IDLE)
      ensures retries == old(retries)
    {
      Stop();
      audioElements := PerChannel(None, None);
      syncState := PerChannel(IDLE, IDLE);
    }
  }
}
