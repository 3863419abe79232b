/** Properties of the protocol as a whole: what a player's page ends up
    doing when the server, the DM's sync instance and the player's volume
    control exchange their messages. */
module Protocol {
  import opened Playback
  import PlayerVolume
  import MusicSync
  import SessionServer

  /** The server's records read as sync entries. */
  function HandoffEntries(h: PerChannel<ChannelState>): (m: PerChannel<Option<Entry>>)
    ensures forall ch :: m.Get(ch) == Some(h.Get(ch).AsEntry())
  {
    PerChannel(Some(h.bgm.AsEntry()), Some(h.ambience.AsEntry()))
  }

  /** The registration handoff carries `playing` and `track` where the sync
      instance looks for `isPlaying` and `src`, so the sync instance's
      `state:sync` handler leaves every element and record as it was,
      whatever the server is playing. */
  lemma {:induction false} HandoffIgnoredByMusicSync(copy: MusicSync.Copy, role: string, f: MusicSync.Follower,
                                                    state: PerChannel<ChannelState>, now: int,
                                                    mixer: Option<PlayerVolume.Volumes>, allowed: bool)
    ensures var m := MusicSync.Snapshot(now, HandoffEntries(SessionServer.Handoff(state, now)));
            MusicSync.Received(copy, role, f, m, now, mixer, allowed) == f
  {
    var m := MusicSync.Snapshot(now, HandoffEntries(SessionServer.Handoff(state, now)));
    MusicSync.NotPlayingMessageChangesNothing(copy, role, f, m, now, mixer, allowed);
  }

  /** A player that connects `elapsed` ms after the DM started a track gets,
      from the volume control's `state:sync` handler, the track the live
      listeners got, positioned exactly `elapsed` ms further on. */
  lemma {:induction false} LateJoinerIsElapsedAhead(v: PlayerVolume.Volumes, ch: Channel, live: Element, joiner: Element,
                                                   c: ChannelState, data: PlayMessage, start: int, elapsed: int, allowed: bool)
    requires start != 0
    requires data.track.Some? && data.track.value.Truthy()
    ensures var announced := SessionServer.Started(c, data, start);
            var heard := PlayerVolume.Played(v, ch, Some(live), announced.AsPlayMessage(), allowed);
            var joined := PlayerVolume.Resumed(v, ch, Some(joiner), SessionServer.Handoff(PerChannel(announced, announced), start + elapsed).Get(ch), allowed);
            && heard.Some? && joined.Some?
            && joined.value.src == heard.value.src
            && joined.value.currentTime == heard.value.currentTime + Seconds(elapsed)
            && joined.value.paused == heard.value.paused
            && joined.value.volume == heard.value.volume
  {
    var announced := SessionServer.Started(c, data, start);
    var projected := SessionServer.Projected(announced, start + elapsed);
    SessionServer.JoinAfterPlay(c, data, start, elapsed);
    assert SessionServer.Handoff(PerChannel(announced, announced), start + elapsed).Get(ch) == projected;
  }

  /** A follower that applies a DM sample of a playing channel takes the
      DM's source and ends within the tolerance of the DM's position
      projected by the transit time; it plays when the platform allows it. */
  lemma {:induction false} FollowerConvergesOnLeader(copy: MusicSync.Copy, role: string, leader: PerChannel<Option<Element>>,
                                                    f: MusicSync.Follower, sent: int, received: int,
                                                    mixer: Option<PlayerVolume.Volumes>, allowed: bool, ch: Channel)
    requires role != "dm"
    requires leader.Get(ch).Some? && !leader.Get(ch).value.paused && leader.Get(ch).value.src != ""
    requires f.audio.Get(ch).Some?
    ensures var g := MusicSync.Received(copy, role, f, MusicSync.SnapshotOf(leader, sent), received, mixer, allowed);
            var l := leader.Get(ch).value;
            && g.audio.Get(ch).Some?
            && g.audio.Get(ch).value.src == l.src
            && Abs(g.audio.Get(ch).value.currentTime - (l.currentTime + Seconds(received - sent))) <= SYNC_TOLERANCE
            && g.sync.Get(ch) == MusicSync.SyncRecord(true, received, l.currentTime + Seconds(received - sent), received)
            && (allowed ==> !g.audio.Get(ch).value.paused)
  {
    var m := MusicSync.SnapshotOf(leader, sent);
    MusicSync.ReceivedPerChannel(copy, role, f, m, received, mixer, allowed, ch);
    var e := m.channels.Get(ch).value;
    assert e.isPlaying && e.src == leader.Get(ch).value.src;
    assert MusicSync.SourceUrl(copy, e) == Some(e.src);
  }
}
