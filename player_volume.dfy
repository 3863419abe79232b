/** The player's local mixer (`PlayerVolumeControl`): a table of four
    volume levels, the final level of each stream (master × channel × the
    DM's level), and the socket handlers that start, stop, re-volume and
    seek the player's audio elements and keep the map of live sound effects.

    Each handler is specified by a function on element values; the class
    methods update the fields in place and are proved equal to them. */
module PlayerVolume {
  import opened Playback

  /** The keys of the `volumes` table. */
  datatype Key = Master | Stream(ch: Channel) | Effects

  /** The `volumes` table: `{ master, bgm, ambience, sfx }`. */
  datatype Volumes = Volumes(master: real, bgm: real, ambience: real, sfx: real) {
    function Get(k: Key): real {
      match k
      case Master => master
      case Stream(Bgm) => bgm
      case Stream(Ambience) => ambience
      case Effects => sfx
    }

    /** `this.volumes[channel] = value`: one entry changes, no other does. */
    function Set(k: Key, v: real): (r: Volumes)
      ensures r.Get(k) == v
      ensures forall other :: other != k ==> r.Get(other) == Get(other)
    {
      match k
      case Master => this.(master := v)
      case Stream(Bgm) => this.(bgm := v)
      case Stream(Ambience) => this.(ambience := v)
      case Effects => this.(sfx := v)
    }
  }

  /** The table a new player starts from, and what "Reset to Defaults" restores. */
  const DEFAULTS: Volumes := Volumes(0.7, 1.0, 1.0, 1.0)

  predicate InUnit(x: real) {
    0.0 <= x <= 1.0
  }

  lemma MulNonneg(a: real, b: real)
    requires a >= 0.0 && b >= 0.0
    ensures a * b >= 0.0
  {
  }

  lemma {:induction false} ProductInUnit(x: real, y: real)
    requires InUnit(x) && InUnit(y)
    ensures InUnit(x * y) && x * y <= y
  {
    MulNonneg(x, y);
    MulNonneg(1.0 - x, y);
    assert (1.0 - x) * y == y - x * y;
  }

  /** The three facts about a product `r` of three levels, stated on the
      named intermediate product `mc` so that no step multiplies unknowns. */
  lemma {:induction false} MixInUnit(m: real, c: real, d: real, mc: real, r: real)
    requires mc == m * c && r == mc * d
    ensures InUnit(m) && InUnit(c) && InUnit(d) ==> InUnit(r) && r <= d
    ensures m == 1.0 && c == 1.0 ==> r == d
    ensures d == 0.0 || m == 0.0 || c == 0.0 ==> r == 0.0
  {
    if InUnit(m) && InUnit(c) && InUnit(d) {
      ProductInUnit(m, c);
      ProductInUnit(mc, d);
    }
    if m == 1.0 && c == 1.0 {
      assert mc == 1.0;
    }
    if m == 0.0 || c == 0.0 {
      assert mc == 0.0;
    }
  }

  /** `calculateVolume(channel, dmVolume)`: the player's master level times
      the player's level for the channel times the level the DM chose. When
      all three are in [0, 1], so is the result, and it never exceeds the
      DM's level; with the player's two levels at 1 the DM's level passes
      through unchanged. */
  function Mix(v: Volumes, k: Key, dmVolume: real): (r: real)
    ensures InUnit(v.master) && InUnit(v.Get(k)) && InUnit(dmVolume) ==>
              InUnit(r) && r <= dmVolume
    ensures v.master == 1.0 && v.Get(k) == 1.0 ==> r == dmVolume
    ensures dmVolume == 0.0 || v.master == 0.0 || v.Get(k) == 0.0 ==> r == 0.0
  {
    var level := v.Get(k);
    var mc := v.master * level;
    var r := mc * dmVolume;
    MixInUnit(v.master, level, dmVolume, mc, r);
    r
  }

  /** The content of the `soundboard_player_volumes` storage slot: nothing
      (or an empty string), text that does not parse, or a saved table in
      which each key may be missing. */
  datatype Stored =
    | NotStored
    | Unparsable
    | Saved(master: Option<real>, bgm: Option<real>, ambience: Option<real>, sfx: Option<real>)
  {
    function Lookup(k: Key): Option<real>
      requires Saved?
    {
      match k
      case Master => master
      case Stream(Bgm) => bgm
      case Stream(Ambience) => ambience
      case Effects => sfx
    }
  }

  /** `savePreferences`: the whole table is written. */
  function Serialized(v: Volumes): (s: Stored)
    ensures s.Saved? && forall k :: s.Lookup(k) == Some(v.Get(k))
  {
    Saved(Some(v.master), Some(v.bgm), Some(v.ambience), Some(v.sfx))
  }

  /** `loadPreferences`: `{ ...volumes, ...saved }`. Every saved key
      overrides the current value, every unsaved key keeps it; when nothing
      is stored or the text does not parse the table is unchanged. */
  function Loaded(v: Volumes, s: Stored): (r: Volumes)
    ensures s.Saved? ==> forall k :: r.Get(k) == s.Lookup(k).GetOr(v.Get(k))
    ensures !s.Saved? ==> r == v
  {
    match s
    case Saved(m, b, a, x) => Volumes(m.GetOr(v.master), b.GetOr(v.bgm), a.GetOr(v.ambience), x.GetOr(v.sfx))
    case _ => v
  }

  /** Loading what was saved restores the saved table, whatever the table
      held before. */
  lemma {:induction false} LoadSavedRoundTrip(saved: Volumes, current: Volumes)
    ensures Loaded(current, Serialized(saved)) == saved
  {
    var r := Loaded(current, Serialized(saved));
    assert r.Get(Master) == saved.master;
    assert r.Get(Stream(Bgm)) == saved.bgm;
    assert r.Get(Stream(Ambience)) == saved.ambience;
    assert r.Get(Effects) == saved.sfx;
  }

  /** The DM level a play message falls back to: 0.5 for music, 0.3 for ambience. */
  function DefaultDmVolume(ch: Channel): real {
    match ch
    case Bgm => 0.5
    case Ambience => 0.3
  }

  /** `applyVolume`: the element's level recomputed from its stored DM level
      (1.0 when none was stored). */
  function Revolume(v: Volumes, k: Key, a: Element): (r: Element)
    ensures r == a.(volume := r.volume)
    ensures r.volume == Mix(v, k, a.dmVolume.GetOr(1.0))
    ensures InUnit(v.master) && InUnit(v.Get(k)) && InUnit(a.dmVolume.GetOr(1.0)) ==> InUnit(r.volume)
  {
    a.(volume := Mix(v, k, a.dmVolume.GetOr(1.0)))
  }

  /** `applyVolume(channel)` on a stream: nothing without an element,
      otherwise only its level changes. */
  function RevolumedStream(v: Volumes, ch: Channel, audio: Option<Element>): (r: Option<Element>)
    ensures r.Some? == audio.Some?
    ensures r.Some? ==> r.value == audio.value.(volume := Mix(v, Stream(ch), audio.value.dmVolume.GetOr(1.0)))
  {
    match audio
    case None => None
    case Some(a) => Some(Revolume(v, Stream(ch), a))
  }

  /** The effects loop of `applyAllVolumes`: every live effect is
      re-volumed and the map keeps its keys. */
  function RevolumedEffects(v: Volumes, sfx: map<real, Element>): (r: map<real, Element>)
    ensures r.Keys == sfx.Keys
    ensures forall id :: id in r ==> r[id] == Revolume(v, Effects, sfx[id])
  {
    map id | id in sfx :: Revolume(v, Effects, sfx[id])
  }

  /** `bgm:play` / `ambience:play` on the channel's element. Without an
      element or a truthy `track` nothing changes. Otherwise the source is
      replaced by `track.url` (which restarts the element at 0), the DM level
      defaults to 0.5 for music and 0.3 for ambience, `loop` defaults to true,
      the position is set only when the message carries one, and playback
      starts if the platform allows it. */
  function Played(v: Volumes, ch: Channel, audio: Option<Element>, data: PlayMessage, allowed: bool): (r: Option<Element>)
    ensures audio.None? || data.track.None? || !data.track.value.Truthy() ==> r == audio
    ensures audio.Some? && data.track.Some? && data.track.value.Truthy() ==>
              var dm := data.volume.GetOr(DefaultDmVolume(ch));
              && r.Some?
              && r.value.src == SrcText(data.track.value.Url())
              && r.value.dmVolume == Some(dm)
              && r.value.volume == Mix(v, Stream(ch), dm)
              && r.value.loop == data.loop.GetOr(true)
              && r.value.currentTime == data.currentTime.GetOr(0.0)
              && r.value.paused == !allowed
  {
    if audio.Some? && data.track.Some? && data.track.value.Truthy() then
      var dm := data.volume.GetOr(DefaultDmVolume(ch));
      var a1 := audio.value.WithSource(SrcText(data.track.value.Url()));
      var a2 := a1.(dmVolume := Some(dm), volume := Mix(v, Stream(ch), dm));
      var a3 := a2.(loop := data.loop.GetOr(true));
      var a4 := if data.currentTime.Some? then a3.Seek(data.currentTime.value) else a3;
      Some(a4.Play(allowed))
    else
      audio
  }

  /** `bgm:stop` / `ambience:stop`: pause, rewind and clear the source. */
  function Stopped(audio: Option<Element>): (r: Option<Element>)
    ensures r.Some? == audio.Some?
    ensures r.Some? ==> r.value.paused && r.value.currentTime == 0.0 && r.value.src == ""
    ensures r.Some? ==> r.value.volume == audio.value.volume && r.value.loop == audio.value.loop
    ensures r.Some? ==> r.value == audio.value.(paused := true, currentTime := 0.0, src := "")
  {
    match audio
    case None => None
    case Some(a) => Some(a.Pause().Seek(0.0).WithSource(""))
  }

  /** `bgm:volume` / `ambience:volume`: the DM level is stored and the
      element's level recomputed from it. */
  function DmVolumeSet(v: Volumes, ch: Channel, audio: Option<Element>, dm: real): (r: Option<Element>)
    ensures r.Some? == audio.Some?
    ensures r.Some? ==> r.value == audio.value.(dmVolume := Some(dm), volume := Mix(v, Stream(ch), dm))
  {
    match audio
    case None => None
    case Some(a) => Some(a.(dmVolume := Some(dm), volume := Mix(v, Stream(ch), dm)))
  }

  /** `state:sync` for one channel: applied only when the server's record is
      playing and has a truthy track; then the element takes the track's url,
      the server's level, loop flag and position, and starts. A rejected start
      is only logged. */
  function Resumed(v: Volumes, ch: Channel, audio: Option<Element>, c: ChannelState, allowed: bool): (r: Option<Element>)
    ensures audio.None? || !c.playing || !c.track.Truthy() ==> r == audio
    ensures audio.Some? && c.playing && c.track.Truthy() ==>
              && r.Some?
              && r.value.src == SrcText(c.track.Url())
              && r.value.currentTime == c.currentTime
              && r.value.loop == c.loop
              && r.value.dmVolume == Some(c.volume)
              && r.value.volume == Mix(v, Stream(ch), c.volume)
              && r.value.paused == !allowed
  {
    if audio.Some? && c.playing && c.track.Truthy() then
      var a1 := audio.value.WithSource(SrcText(c.track.Url()));
      var a2 := a1.(dmVolume := Some(c.volume), volume := Mix(v, Stream(ch), c.volume));
      Some(a2.(loop := c.loop).Seek(c.currentTime).Play(allowed))
    else
      audio
  }

  /** Connecting late gives the same element as hearing the live play
      announcement of the same server record. */
  lemma {:induction false} ResumedAgreesWithPlayed(v: Volumes, ch: Channel, audio: Option<Element>, c: ChannelState, allowed: bool)
    requires c.playing
    ensures Resumed(v, ch, audio, c, allowed) == Played(v, ch, audio, c.AsPlayMessage(), allowed)
  {
  }

  /** An `sfx:play` message: `url` and `volume` may be absent. */
  datatype SfxMessage = SfxMessage(url: Option<string>, volume: Option<real>)

  /** `sfx:play`: no element without a message or a truthy url; otherwise a
      new element (`new Audio(url)`) at the DM's level (default 1.0), started
      if the platform allows it. */
  function SfxStarted(v: Volumes, msg: Option<SfxMessage>, allowed: bool): (r: Option<Element>)
    ensures r.Some? <==> msg.Some? && TruthyText(msg.value.url)
    ensures r.Some? ==>
              && r.value.src == msg.value.url.value
              && r.value.dmVolume == Some(msg.value.volume.GetOr(1.0))
              && r.value.volume == Mix(v, Effects, msg.value.volume.GetOr(1.0))
              && r.value.currentTime == 0.0
              && r.value.paused == !allowed
  {
    if msg.Some? && TruthyText(msg.value.url) then
      var dm := msg.value.volume.GetOr(1.0);
      var created := Element(msg.value.url.value, true, 0.0, 0.0, false, 1.0, None);
      Some(created.(dmVolume := Some(dm), volume := Mix(v, Effects, dm)).Play(allowed))
    else
      None
  }

  /** Of `setVolume`'s effect on live audio, the step after the table is
      updated and saved. */
  datatype Applied = Applied(elements: PerChannel<Option<Element>>, sfx: map<real, Element>) | Threw

  /** That step AS WRITTEN: the master key re-volumes everything; any other
      key calls `applyVolume(key)`, which for "sfx" finds the Map of live
      effects (truthy), reads its `dataset` (undefined) and throws a
      TypeError, so no effect is re-volumed. */
  function ApplyAfterSetAsWritten(v: Volumes, k: Key, els: PerChannel<Option<Element>>, sfx: map<real, Element>): (r: Applied)
    ensures r.Threw? <==> k == Effects
    ensures k == Master ==> r.sfx == RevolumedEffects(v, sfx)
    ensures k == Master ==>
              r.elements == PerChannel(RevolumedStream(v, Bgm, els.bgm), RevolumedStream(v, Ambience, els.ambience))
    ensures k.Stream? ==> r.sfx == sfx && r.elements.Get(k.ch) == RevolumedStream(v, k.ch, els.Get(k.ch))
  {
    match k
    case Master =>
      Applied(PerChannel(RevolumedStream(v, Bgm, els.bgm), RevolumedStream(v, Ambience, els.ambience)),
              RevolumedEffects(v, sfx))
    case Stream(ch) => Applied(els.Set(ch, RevolumedStream(v, ch, els.Get(ch))), sfx)
    case Effects => Threw
  }

  /** Moving the effects slider throws, whatever is playing. */
  lemma EffectsSliderThrowsAsWritten(v: Volumes, els: PerChannel<Option<Element>>, sfx: map<real, Element>)
    ensures ApplyAfterSetAsWritten(v, Effects, els, sfx) == Threw
  {
  }

  /** That step as intended: the changed key's audio is re-volumed, the
      effects key re-volumes every live effect, and nothing else moves. */
  function ApplyAfterSet(v: Volumes, k: Key, els: PerChannel<Option<Element>>, sfx: map<real, Element>): (r: Applied)
    ensures r.Applied?
    ensures k == Effects ==> r.elements == els && r.sfx == RevolumedEffects(v, sfx)
    ensures k == Master ==>
              r.elements == PerChannel(RevolumedStream(v, Bgm, els.bgm), RevolumedStream(v, Ambience, els.ambience))
              && r.sfx == RevolumedEffects(v, sfx)
    ensures k.Stream? ==> r.sfx == sfx && r.elements.Get(k.ch) == RevolumedStream(v, k.ch, els.Get(k.ch))
    ensures k.Stream? ==> r.elements.Get(if k.ch == Bgm then Ambience else Bgm) == els.Get(if k.ch == Bgm then Ambience else Bgm)
    ensures k != Effects ==> r == ApplyAfterSetAsWritten(v, k, els, sfx)
  {
    match k
    case Effects => Applied(els, RevolumedEffects(v, sfx))
    case _ => ApplyAfterSetAsWritten(v, k, els, sfx)
  }

  /** `PlayerVolumeControl`: the player's volume table, its saved copy, the
      two stream elements, the live effects keyed by their random id, and the
      channels whose rejected `play()` waits for a click. */
  class PlayerVolumeControl {
    var volumes: Volumes
    var saved: Stored
    var audioElements: PerChannel<Option<Element>>
    var sfx: map<real, Element>
    var retries: seq<Channel>

    /** The constructor loads the saved preferences over the defaults. */
    constructor (stored: Stored)
      ensures volumes == Loaded(DEFAULTS, stored) && saved == stored
      ensures audioElements == PerChannel(None, None) && sfx == map[] && retries == []
    {
      volumes := DEFAULTS;
      saved := stored;
      audioElements := PerChannel(None, None);
      sfx := map[];
      retries := [];
      new;
      LoadPreferences();
    }

    method LoadPreferences()
      modifies this`volumes
      ensures volumes == Loaded(old(volumes), saved)
    {
      if saved.Saved? {
        volumes := Loaded(volumes, saved);
      }
    }

    function CalculateVolume(k: Key, dmVolume: real): (r: real)
      reads this
      ensures InUnit(volumes.master) && InUnit(volumes.Get(k)) && InUnit(dmVolume) ==> InUnit(r)
    {
      Mix(volumes, k, dmVolume)
    }

    /** Re-volumes the live audio after `volumes` changed at key `k`. */
    method ApplyChange(k: Key)
      modifies this`audioElements, this`sfx
      ensures var r := ApplyAfterSet(volumes, k, old(audioElements), old(sfx));
              audioElements == r.elements && sfx == r.sfx
    {
      match k {
        case Master =>
          audioElements := PerChannel(RevolumedStream(volumes, Bgm, audioElements.bgm),
                                      RevolumedStream(volumes, Ambience, audioElements.ambience));
          sfx := RevolumedEffects(volumes, sfx);
        case Stream(ch) =>
          audioElements := audioElements.Set(ch, RevolumedStream(volumes, ch, audioElements.Get(ch)));
        case Effects =>
          sfx := RevolumedEffects(volumes, sfx);
      }
    }

    /** `setVolume`: one entry of the table changes, the table is saved and
      the live audio re-volumed. */
    method SetVolume(k: Key, value: real)
      modifies this
      ensures volumes == old(volumes).Set(k, value)
      ensures saved == Serialized(volumes)
      ensures var r := ApplyAfterSet(volumes, k, old(audioElements), old(sfx));
              audioElements == r.elements && sfx == r.sfx
      ensures retries == old(retries)
    {
      volumes := volumes.Set(k, value);
      saved := Serialized(volumes);
      ApplyChange(k);
    }

    /** `resetVolumes`: back to the defaults, saved and applied; a second
      reset finds nothing to change in the table. */
    method ResetVolumes()
      modifies this
      ensures volumes == DEFAULTS && saved == Serialized(DEFAULTS)
      ensures var r := ApplyAfterSet(DEFAULTS, Master, old(audioElements), old(sfx));
              audioElements == r.elements && sfx == r.sfx
      ensures retries == old(retries)
    {
      volumes := DEFAULTS;
      saved := Serialized(volumes);
      ApplyChange(Master);
    }

    /** `bgm:play` / `ambience:play`. The element is looked up in the page
      (`found`) only while the channel has none; a rejected start leaves a
      click retry. */
    method OnPlay(ch: Channel, data: PlayMessage, found: Option<Element>, allowed: bool)
      modifies this`audioElements, this`retries
      ensures var audio := if old(audioElements.Get(ch)).Some? then old(audioElements.Get(ch)) else found;
              audioElements == old(audioElements).Set(ch, Played(volumes, ch, audio, data, allowed))
      ensures var audio := if old(audioElements.Get(ch)).Some? then old(audioElements.Get(ch)) else found;
              var started := audio.Some? && data.track.Some? && data.track.value.Truthy();
              retries == old(retries) + (if started && !allowed then [ch] else [])
    {
      if audioElements.Get(ch).None? {
        audioElements := audioElements.Set(ch, found);
      }
      var audio := audioElements.Get(ch);
      if audio.Some? && data.track.Some? && data.track.value.Truthy() {
        audioElements := audioElements.Set(ch, Played(volumes, ch, audio, data, allowed));
        if !allowed {
          retries := retries + [ch];
        }
      }
    }

    method OnPause(ch: Channel)
      modifies this`audioElements
      ensures audioElements == old(audioElements).Set(ch, match old(audioElements.Get(ch))
                                                          case None => None
                                                          case Some(a) => Some(a.Pause()))
    {
      match audioElements.Get(ch) {
        case None =>
        case Some(a) => audioElements := audioElements.Set(ch, Some(a.Pause()));
      }
    }

    method OnStop(ch: Channel)
      modifies this`audioElements
      ensures audioElements == old(audioElements).Set(ch, Stopped(old(audioElements.Get(ch))))
    {
      audioElements := audioElements.Set(ch, Stopped(audioElements.Get(ch)));
    }

    method OnVolume(ch: Channel, dm: real)
      modifies this`audioElements
      ensures audioElements == old(audioElements).Set(ch, DmVolumeSet(volumes, ch, old(audioElements.Get(ch)), dm))
    {
      audioElements := audioElements.Set(ch, DmVolumeSet(volumes, ch, audioElements.Get(ch), dm));
    }

    /** `bgm:seek` (the ambience channel has no seek message). */
    method OnBgmSeek(t: real)
      modifies this`audioElements
      ensures audioElements == old(audioElements).(bgm := match old(audioElements.bgm)
                                                         case None => None
                                                         case Some(a) => Some(a.Seek(t)))
    {
      match audioElements.bgm {
        case None =>
        case Some(a) => audioElements := audioElements.(bgm := Some(a.Seek(t)));
      }
    }

    /** `sfx:play` under the id drawn for it (`Date.now() + Math.random()`):
      without a url nothing changes, otherwise exactly that key is added. */
    method OnSfxPlay(msg: Option<SfxMessage>, id: real, allowed: bool)
      modifies this`sfx
      ensures var e := SfxStarted(volumes, msg, allowed);
              sfx == if e.Some? then old(sfx)[id := e.value] else old(sfx)
    {
      var e := SfxStarted(volumes, msg, allowed);
      if e.Some? {
        sfx := sfx[id := e.value];
      }
    }

    /** The `ended` listener of an effect removes its key. */
    method OnSfxEnded(id: real)
      modifies this`sfx
      ensures sfx == old(sfx) - {id}
    {
      sfx := sfx - {id};
    }

    /** `master:stop`: both streams stopped, every live effect paused and
      rewound (returned, as the map forgets them) and the map emptied. */
    method OnMasterStop() returns (silenced: map<real, Element>)
      modifies this`audioElements, this`sfx
      ensures audioElements == PerChannel(Stopped(old(audioElements.bgm)), Stopped(old(audioElements.ambience)))
      ensures sfx == map[]
      ensures silenced.Keys == old(sfx).Keys
      ensures forall id :: id in silenced ==> silenced[id] == old(sfx)[id].Pause().Seek(0.0)
    {
      audioElements := PerChannel(Stopped(audioElements.bgm), Stopped(audioElements.ambience));
      silenced := map id | id in sfx :: sfx[id].Pause().Seek(0.0);
      sfx := map[];
    }

    /** `state:sync`: each channel whose record is playing with a track is
      applied, looking its element up in the page (`found`) if needed. */
    method OnStateSync(state: PerChannel<Option<ChannelState>>, found: PerChannel<Option<Element>>, allowed: bool)
      modifies this`audioElements
      ensures forall ch :: audioElements.Get(ch) == ResumedChannel(volumes, ch, old(audioElements.Get(ch)), found.Get(ch), state.Get(ch), allowed)
    {
      audioElements := PerChannel(
        ResumedChannel(volumes, Bgm, audioElements.bgm, found.bgm, state.bgm, allowed),
        ResumedChannel(volumes, Ambience, audioElements.ambience, found.ambience, state.ambience, allowed));
    }

    /** A click runs every waiting retry once (`{ once: true }`): each
      retried channel's element is started again. */
    method OnClick(allowed: bool)
      modifies this`audioElements, this`retries
      ensures retries == []
      ensures audioElements == RetriedAll(old(audioElements), old(retries), allowed)
    {
      var i := 0;
      while i < |retries|
        invariant 0 <= i <= |retries|
        invariant retries == old(retries)
        invariant audioElements == RetriedAll(old(audioElements), retries[..i], allowed)
      {
        assert retries[..i + 1][..i] == retries[..i];
        audioElements := RetriedOne(audioElements, retries[i], allowed);
        i := i + 1;
      }
      assert retries[..i] == retries;
      retries := [];
    }
  }

  /** One channel of `state:sync`: the page lookup happens only when the
      record qualifies. */
  function ResumedChannel(v: Volumes, ch: Channel, current: Option<Element>, found: Option<Element>,
                          c: Option<ChannelState>, allowed: bool): (r: Option<Element>)
    ensures c.None? || !c.value.playing || !c.value.track.Truthy() ==> r == current
  {
    if c.Some? && c.value.playing && c.value.track.Truthy() then
      Resumed(v, ch, if current.Some? then current else found, c.value, allowed)
    else
      current
  }

  /** One retry listener: the channel's element, if any, is started where
      it stands. */
  function RetriedOne(els: PerChannel<Option<Element>>, ch: Channel, allowed: bool): (r: PerChannel<Option<Element>>)
    ensures forall c :: c != ch ==> r.Get(c) == els.Get(c)
    ensures r.Get(ch).Some? == els.Get(ch).Some?
    ensures els.Get(ch).Some? ==> r.Get(ch).value == els.Get(ch).value.(paused := els.Get(ch).value.paused && !allowed)
  {
    match els.Get(ch)
    case None => els
    case Some(a) => els.Set(ch, Some(a.Play(allowed)))
  }

  /** The retries in the order their listeners were registered. */
  function RetriedAll(els: PerChannel<Option<Element>>, pending: seq<Channel>, allowed: bool): (r: PerChannel<Option<Element>>)
    ensures forall c :: c !in pending ==> r.Get(c) == els.Get(c)
  {
    if pending == [] then els
    else RetriedOne(RetriedAll(els, pending[..|pending| - 1], allowed), pending[|pending| - 1], allowed)
  }

  /** A click the platform accepts starts every channel that waited for it,
      at the position it had. */
  lemma {:induction false} ClickStartsWaiting(els: PerChannel<Option<Element>>, pending: seq<Channel>, ch: Channel)
    requires ch in pending && els.Get(ch).Some?
    ensures var r := RetriedAll(els, pending, true);
            r.Get(ch).Some? && !r.Get(ch).value.paused
            && r.Get(ch).value.currentTime == els.Get(ch).value.currentTime
            && r.Get(ch).value.src == els.Get(ch).value.src
  {
    var last := pending[|pending| - 1];
    var init := pending[..|pending| - 1];
    RetriedAllKeepsPosition(els, init, true);
    if ch != last {
      assert ch in init;
      ClickStartsWaiting(els, init, ch);
    }
  }

  lemma {:induction false} RetriedAllKeepsPosition(els: PerChannel<Option<Element>>, pending: seq<Channel>, allowed: bool)
    ensures forall c :: RetriedAll(els, pending, allowed).Get(c).Some? == els.Get(c).Some?
    ensures forall c :: els.Get(c).Some? ==>
              RetriedAll(els, pending, allowed).Get(c).value.currentTime == els.Get(c).value.currentTime
              && RetriedAll(els, pending, allowed).Get(c).value.src == els.Get(c).value.src
  {
    if pending != [] {
      RetriedAllKeepsPosition(els, pending[..|pending| - 1], allowed);
    }
  }
}
