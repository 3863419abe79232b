/** The session server's state (`src/server.js`): the authoritative
    per-channel playback record, the registry of connected sockets, the
    handoff a socket receives when it registers, and the role gating of the
    sync relay. Every socket handler is a method of `Server`; each is proved
    to produce the value of a transition function, and the properties are
    proved about those functions. */
module SessionServer {
  import opened Playback

  /** A Socket.IO connection id. */
  type SocketId = string

  /** The record a channel starts with and returns to on a stop: no track,
      not playing, at 0, looping, no `startTime`, with the given volume. */
  function Fresh(volume: real): (c: ChannelState)
    ensures c.track == NoTrack && !c.playing && c.currentTime == 0.0 && c.loop && c.startTime.None?
    ensures c.volume == volume
  {
    ChannelState(NoTrack, false, volume, 0.0, true, None)
  }

  /** The initial `playbackState`: bgm at volume 0.5, ambience at 0.3. */
  const INITIAL: PerChannel<ChannelState> := PerChannel(Fresh(0.5), Fresh(0.3))

  /** `bgm:play` / `ambience:play`: the message's fields override the
      record's, then the channel is marked playing from `now`. */
  function Started(c: ChannelState, data: PlayMessage, now: int): (r: ChannelState)
    ensures r.playing && r.startTime == Some(now)
    ensures r.track == data.track.GetOr(c.track) && r.volume == data.volume.GetOr(c.volume)
    ensures r.loop == data.loop.GetOr(c.loop) && r.currentTime == data.currentTime.GetOr(c.currentTime)
  {
    ChannelState(data.track.GetOr(c.track), true, data.volume.GetOr(c.volume),
                 data.currentTime.GetOr(c.currentTime), data.loop.GetOr(c.loop), Some(now))
  }

  /** `…:pause`: only `playing` changes; the position is not updated. */
  function Paused(c: ChannelState): (r: ChannelState)
    ensures !r.playing && r == c.(playing := false)
  {
    c.(playing := false)
  }

  /** `…:stop` and each half of `master:stop`: a fresh record that keeps the
      volume. */
  function Reset(c: ChannelState): (r: ChannelState)
    ensures r == Fresh(c.volume)
  {
    Fresh(c.volume)
  }

  /** `bgm:seek` and `…:time-update`: a new position, counted from `now`. */
  function Positioned(c: ChannelState, time: real, now: int): (r: ChannelState)
    ensures r.currentTime == time && r.startTime == Some(now)
    ensures r.track == c.track && r.playing == c.playing && r.volume == c.volume && r.loop == c.loop
  {
    c.(currentTime := time, startTime := Some(now))
  }

  /** The handoff projection of one record at `now`: a playing record with
      a (truthy) `startTime` has its position advanced by the time since
      then; any other record passes through unchanged. */
  function Projected(c: ChannelState, now: int): (r: ChannelState)
    ensures r.track == c.track && r.playing == c.playing && r.volume == c.volume
    ensures r.loop == c.loop && r.startTime == c.startTime
    ensures (c.playing && c.startTime.Some? && c.startTime.value != 0) ==>
              r.currentTime == c.currentTime + Seconds(now - c.startTime.value)
    ensures !(c.playing && c.startTime.Some? && c.startTime.value != 0) ==> r == c
  {
    if c.playing && c.startTime.Some? && c.startTime.value != 0 then
      c.(currentTime := c.currentTime + Seconds(now - c.startTime.value))
    else c
  }

  /** The `state:sync` payload a registering socket receives. */
  function Handoff(state: PerChannel<ChannelState>, now: int): (h: PerChannel<ChannelState>)
    ensures forall ch :: h.Get(ch) == Projected(state.Get(ch), now)
  {
    PerChannel(Projected(state.bgm, now), Projected(state.ambience, now))
  }

  /** A socket that joins `elapsed` ms after a play started from a given
      position is handed that position plus the elapsed seconds. */
  lemma {:induction false} JoinAfterPlay(c: ChannelState, data: PlayMessage, start: int, elapsed: int)
    requires start != 0
    ensures Projected(Started(c, data, start), start + elapsed).currentTime
              == data.currentTime.GetOr(c.currentTime) + Seconds(elapsed)
  {
    assert start + elapsed - start == elapsed;
  }

  /** A position report from the DM restarts the projection: a socket that
      joins `elapsed` ms later is handed the reported position plus the
      elapsed seconds while the channel plays, and the bare position once
      it is paused. */
  lemma {:induction false} JoinAfterTimeUpdate(c: ChannelState, time: real, at: int, elapsed: int)
    requires at != 0
    ensures c.playing ==> Projected(Positioned(c, time, at), at + elapsed).currentTime == time + Seconds(elapsed)
    ensures Projected(Paused(Positioned(c, time, at)), at + elapsed).currentTime == time
  {
    assert at + elapsed - at == elapsed;
  }

  /** A stopped channel is handed out as the fresh record. */
  lemma StoppedChannelPassesThrough(c: ChannelState, now: int)
    ensures Projected(Reset(c), now) == Fresh(c.volume)
  {
  }

  // ---------------------------------------------------------------------
  // The socket registry.

  /** `connectedClients` together with each socket's `socket.role`. */
  datatype Registry = Registry(dm: Option<SocketId>, players: set<SocketId>, roles: map<SocketId, string>)

  const EMPTY_REGISTRY: Registry := Registry(None, {}, map[])

  /** `register(role)`: the socket's role is recorded; the DM role takes the
      DM slot (replacing whoever held it), any other role joins the players. */
  function Registered(r: Registry, id: SocketId, role: string): (g: Registry)
    ensures g.roles == r.roles[id := role]
    ensures role == "dm" ==> g.dm == Some(id) && g.players == r.players
    ensures role != "dm" ==> g.dm == r.dm && g.players == r.players + {id}
  {
    Registry(if role == "dm" then Some(id) else r.dm,
             if role == "dm" then r.players else r.players + {id},
             r.roles[id := role])
  }

  /** `disconnect`: a socket whose role is "dm" empties the DM slot,
      whichever socket holds it; any other socket (registered or not) leaves
      the players. The socket's role goes with it. */
  function Disconnected(r: Registry, id: SocketId): (g: Registry)
    ensures g.roles == r.roles - {id}
    ensures (id in r.roles && r.roles[id] == "dm") ==> g.dm.None? && g.players == r.players
    ensures !(id in r.roles && r.roles[id] == "dm") ==> g.dm == r.dm && g.players == r.players - {id}
  {
    var isDm := id in r.roles && r.roles[id] == "dm";
    Registry(if isDm then None else r.dm,
             if isDm then r.players else r.players - {id},
             r.roles - {id})
  }

  /** The `clients:update` payload: whether a DM is present, and how many
      player sockets there are. */
  datatype Census = Census(dm: bool, players: nat)

  function CensusOf(r: Registry): (c: Census)
    ensures c.dm <==> TruthyText(r.dm)
    ensures c.players == |r.players|
  {
    Census(TruthyText(r.dm), |r.players|)
  }

  /** A socket that registers and then disconnects leaves the registry as
      it found it, provided it was new and, for the DM role, the slot was
      empty. */
  lemma {:induction false} RegisterThenDisconnect(r: Registry, id: SocketId, role: string)
    requires id !in r.roles && id !in r.players
    requires role == "dm" ==> r.dm.None?
    ensures Disconnected(Registered(r, id, role), id) == r
  {
    var g := Disconnected(Registered(r, id, role), id);
    assert g.roles == r.roles;
    if role != "dm" {
      assert g.players == r.players;
    }
  }

  /** A player's registration raises the player count by one and its
      disconnection lowers it by one. */
  lemma {:induction false} PlayerCountTracksSockets(r: Registry, id: SocketId, role: string)
    requires role != "dm" && id !in r.players && id !in r.roles
    ensures CensusOf(Registered(r, id, role)).players == CensusOf(r).players + 1
    ensures CensusOf(Disconnected(Registered(r, id, role), id)).players == CensusOf(r).players
  {
    assert Registered(r, id, role).players == r.players + {id};
    assert Disconnected(Registered(r, id, role), id).players == r.players;
  }

  /** `sync:broadcast` is relayed only when the sender registered as "dm";
      the DM slot is not consulted. */
  predicate RelaysBroadcast(r: Registry, sender: SocketId)
    ensures sender !in r.roles ==> !RelaysBroadcast(r, sender)
    ensures RelaysBroadcast(r, sender) <==> sender in r.roles && r.roles[sender] == "dm"
  {
    sender in r.roles && r.roles[sender] == "dm"
  }

  /** When a second DM socket takes the slot, the first one's broadcasts are
      still relayed; when it then disconnects, the slot is emptied although
      a DM is still connected. */
  lemma SupersededDmDisconnectEmptiesSlot()
    ensures var r := Registered(Registered(EMPTY_REGISTRY, "a", "dm"), "b", "dm");
            && r.dm == Some("b") && RelaysBroadcast(r, "a")
            && Disconnected(r, "a").dm.None? && "b" in Disconnected(r, "a").roles
  {
  }

  /** `sync:request` goes to the socket in the DM slot, if it holds one. */
  function RequestTarget(r: Registry): (t: Option<SocketId>)
    ensures t.Some? <==> TruthyText(r.dm)
    ensures t.Some? ==> r.dm == t
  {
    if TruthyText(r.dm) then r.dm else None
  }

  /** A player's broadcast is never relayed, and once the DM has registered
      its broadcasts are relayed and player requests reach it. */
  lemma {:induction false} RelayFollowsRoles(r: Registry, dm: SocketId, player: SocketId, role: string)
    requires role != "dm" && dm != "" && dm != player
    ensures var g := Registered(Registered(r, dm, "dm"), player, role);
            !RelaysBroadcast(g, player) && RelaysBroadcast(g, dm) && RequestTarget(g) == Some(dm)
  {
    var g1 := Registered(r, dm, "dm");
    assert g1.dm == Some(dm);
  }

  // ---------------------------------------------------------------------
  // The server.

  /** The module-level state of the server: `playbackState` (its `sfx`
      array is never used) and `connectedClients` with the sockets' roles. */
  class Server {
    var state: PerChannel<ChannelState>
    var clients: Registry

    constructor ()
      ensures state == INITIAL && clients == EMPTY_REGISTRY
    {
      state := INITIAL;
      clients := EMPTY_REGISTRY;
    }

    /** `register(role)` from socket `id` at `now`: returns the `state:sync`
      handoff sent to that socket and the `clients:update` census sent to
      everyone; the playback state itself is not changed. */
    method Register(id: SocketId, role: string, now: int) returns (handoff: PerChannel<ChannelState>, census: Census)
      modifies this`clients
      ensures clients == Registered(old(clients), id, role)
      ensures handoff == Handoff(state, now)
      ensures census == CensusOf(clients)
    {
      if role == "dm" {
        clients := clients.(dm := Some(id), roles := clients.roles[id := role]);
      } else {
        clients := clients.(players := clients.players + {id}, roles := clients.roles[id := role]);
      }
      var bgm := state.bgm;
      var ambience := state.ambience;
      if state.bgm.playing && state.bgm.startTime.Some? && state.bgm.startTime.value != 0 {
        var elapsed := Seconds(now - state.bgm.startTime.value);
        bgm := bgm.(currentTime := state.bgm.currentTime + elapsed);
      }
      if state.ambience.playing && state.ambience.startTime.Some? && state.ambience.startTime.value != 0 {
        var elapsed := Seconds(now - state.ambience.startTime.value);
        ambience := ambience.(currentTime := state.ambience.currentTime + elapsed);
      }
      handoff := PerChannel(bgm, ambience);
      census := Census(TruthyText(clients.dm), |clients.players|);
    }

    /** `disconnect` of socket `id`: returns the census sent to everyone. */
    method Disconnect(id: SocketId) returns (census: Census)
      modifies this`clients
      ensures clients == Disconnected(old(clients), id)
      ensures census == CensusOf(clients)
    {
      if id in clients.roles && clients.roles[id] == "dm" {
        clients := clients.(dm := None);
      } else {
        clients := clients.(players := clients.players - {id});
      }
      clients := clients.(roles := clients.roles - {id});
      census := Census(TruthyText(clients.dm), |clients.players|);
    }

    /** `bgm:play` / `ambience:play` at `now`: returns the record announced
      to everyone. */
    method Play(ch: Channel, data: PlayMessage, now: int) returns (announced: ChannelState)
      modifies this`state
      ensures state == old(state).Set(ch, Started(old(state).Get(ch), data, now))
      ensures announced == state.Get(ch)
    {
      var c := state.Get(ch);
      var merged := ChannelState(data.track.GetOr(c.track), c.playing, data.volume.GetOr(c.volume),
                                 data.currentTime.GetOr(c.currentTime), data.loop.GetOr(c.loop), c.startTime);
      state := state.Set(ch, merged.(playing := true, startTime := Some(now)));
      announced := state.Get(ch);
    }

    method Pause(ch: Channel)
      modifies this`state
      ensures state == old(state).Set(ch, Paused(old(state).Get(ch)))
    {
      state := state.Set(ch, state.Get(ch).(playing := false));
    }

    method Stop(ch: Channel)
      modifies this`state
      ensures state == old(state).Set(ch, Reset(old(state).Get(ch)))
    {
      state := state.Set(ch, ChannelState(NoTrack, false, state.Get(ch).volume, 0.0, true, None));
    }

    /** `…:volume`: only the volume changes. */
    method SetVolume(ch: Channel, volume: real)
      modifies this`state
      ensures state == old(state).Set(ch, old(state).Get(ch).(volume := volume))
    {
      state := state.Set(ch, state.Get(ch).(volume := volume));
    }

    /** `bgm:seek` (there is no ambience seek). */
    method BgmSeek(time: real, now: int)
      modifies this`state
      ensures state == old(state).(bgm := Positioned(old(state).bgm, time, now))
    {
      state := state.(bgm := state.bgm.(currentTime := time));
      state := state.(bgm := state.bgm.(startTime := Some(now)));
    }

    /** `bgm:loop` (there is no ambience loop message). */
    method BgmLoop(loop: bool)
      modifies this`state
      ensures state == old(state).(bgm := old(state).bgm.(loop := loop))
    {
      state := state.(bgm := state.bgm.(loop := loop));
    }

    /** `…:time-update` from the DM. */
    method TimeUpdate(ch: Channel, time: real, now: int)
      modifies this`state
      ensures state == old(state).Set(ch, Positioned(old(state).Get(ch), time, now))
    {
      state := state.Set(ch, state.Get(ch).(currentTime := time));
      state := state.Set(ch, state.Get(ch).(startTime := Some(now)));
    }

    /** `master:stop`: both channels reset, each keeping its volume. */
    method MasterStop()
      modifies this`state
      ensures state == PerChannel(Reset(old(state).bgm), Reset(old(state).ambience))
    {
      state := PerChannel(ChannelState(NoTrack, false, state.bgm.volume, 0.0, true, None),
                          ChannelState(NoTrack, false, state.ambience.volume, 0.0, true, None));
    }

    /** `sync:broadcast` from `sender`: whether it is relayed to the other
      sockets. */
    method RelaySync(sender: SocketId) returns (relayed: bool)
      ensures relayed == RelaysBroadcast(clients, sender)
      ensures relayed <==> sender in clients.roles && clients.roles[sender] == "dm"
    {
      relayed := sender in clients.roles && clients.roles[sender] == "dm";
    }

    /** `sync:request`: the socket it is forwarded to, if any. */
    method ForwardSyncRequest() returns (target: Option<SocketId>)
      ensures target == RequestTarget(clients)
      ensures target.Some? <==> TruthyText(clients.dm)
    {
      if TruthyText(clients.dm) {
        target := clients.dm;
      } else {
        target := None;
      }
    }
  }
}
