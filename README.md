# Soundboard playback sync, modelled in Dafny

The soundboard lets a DM play background music (bgm), ambience and one-shot
sound effects (sfx) to a group of players' browsers. The model covers four
parts of it.

- **The leader/follower sync protocol.** This is `MusicSyncSystem`, in both of its copies.
  - The DM's instance samples its two audio elements and broadcasts the samples with a timestamp.
  - A player's instance projects each received entry forward by the transit time and records the projection.
  - The player then starts or hard-seeks its element. Every second it checks that the element has not drifted more than 0.5 s from where the projection says it should be.
- **The session server's state.**
  - The authoritative per-channel playback record and its transitions.
  - The registry of connected sockets.
  - The handoff a socket receives when it registers, with positions projected by the time since the track started.
  - The role gating of the sync relay.
  - The pure text helpers of the upload and delete routes.
- **The player's volume control.** This is the player's own three-factor mixer (master × channel × DM level), with its saved preferences. It includes the socket handlers' effects on the player's two stream elements and on its map of live sound effects.
- **Cross-component properties.** These are in `Protocol`.

Modelling conventions:

- **Time.** `now` is always an `int` number of milliseconds, passed in. Positions are `real` seconds.
- **Audio elements.** An audio element is a value (`Playback.Element`). Assigning its source runs the media load algorithm: playback stops and the position returns to 0.
- **Outcome of `play()`.** This is a `bool` parameter. A rejected start leaves the element paused. In the sync system and in the volume control's play handlers it also leaves a pending click retry.
- **Stateful objects.** Each one is a class whose methods change its fields step by step, as the source does, except where a Findings row corrects the source (the volume control's effects slider). Every method is proved to produce the value of a transition function, and the properties are lemmas about those functions.

The two copies of `MusicSyncSystem` are modelled by one class with a `copy` constant. They differ in one place only: how an entry's source URL is found.

The files are:

- `playback.dfy`: shared vocabulary.
- `sync.dfy`: `MusicSync`.
- `server.dfy`: `SessionServer`.
- `uploads.dfy`: `Uploads`.
- `player_volume.dfy`: `PlayerVolume`.
- `protocol.dfy`: `Protocol`.

Two behaviours of the code are kept as written:

- **The pause branch of `syncAudio` cannot be reached.** An entry that is not playing returns early, so a player is never paused by a broadcast.
- **The server's `state:sync` handoff is ignored by `MusicSyncSystem`.** The handoff carries `playing`/`track`, but the sync instance reads `isPlaying`/`src`. Only the volume control applies the handoff.

## Model

| member | source | states |
|---|---|---|
| Playback.Element.WithSource | src/music-sync-system.js:195-198 | assigning a source stops the element at position 0 and keeps its loop flag and levels |
| Playback.Element.Play | src/music-sync-system.js:227-237 | a start leaves the element paused exactly when it was paused and the platform refused; position and source are kept |
| Playback.ChannelState.AsEntry | src/server.js:187-190 | a server record read as a sync entry has no `isPlaying` and no `src` |
| MusicSync.Sample | src/music-sync-system.js:113-125 | null without an element; otherwise `isPlaying` is `!paused` and position, source, loop and level are the element's; likewise in the served copy, src/public/music-sync-system.js:141-153 |
| MusicSync.SnapshotOf | src/music-sync-system.js:101-110 | one timestamp, and each channel's sample |
| MusicSync.SourceUrl | src/music-sync-system.js:187 | a found URL is non-empty; `src` wins when set; no track gives no URL |
| MusicSync.SourceUrlCopiesDiffer | src/public/music-sync-system.js:219 | the copies find different URLs exactly for an empty `src` with a non-empty string `track`, which only the served copy accepts |
| MusicSync.Leveled | src/music-sync-system.js:218-224 | with the mixer and a stored DM level, the level is the mix of that DM level; otherwise the entry's level, when it has one, becomes both the level and the stored DM level; otherwise nothing changes; the mixed level is in [0,1] and at most the DM level when all factors are; source, play state, position, loop and duration are untouched |
| MusicSync.SyncStep | src/music-sync-system.js:173-252 | a skipped entry changes nothing and leaves no retry; otherwise: the record is replaced by {playing, target, now}; the source becomes the URL; loop is taken from the entry if present; a paused or restarted element starts at the target; a rejected start leaves a retry holding that target; an element already playing the URL stays put within 0.5 s and is seeked exactly to the target beyond it; the element ends within 0.5 s of the target; its level and stored DM level are those of the volume step (`Leveled`) and its duration is kept; likewise in the served copy, src/public/music-sync-system.js:201-304 |
| MusicSync.ChannelSynced | src/music-sync-system.js:206-215 | one channel's sync writes that channel's element and record and leaves the other channel's untouched |
| MusicSync.Received | src/music-sync-system.js:153-170 | a DM instance ignores broadcasts |
| MusicSync.ReceivedPerChannel | src/music-sync-system.js:160-169 | each channel present is synced from its own old state with latency `now - timestamp`; a channel absent keeps element and record |
| MusicSync.NotPlayingMessageChangesNothing | src/music-sync-system.js:181-184 | a message whose entries are all not playing changes nothing, so the pause branch never runs |
| MusicSync.SyncTwiceNoSecondSeek | src/music-sync-system.js:244-251 | applying the same entry twice at the same instant gives the same record, position, play state and source as applying it once |
| MusicSync.LateBroadcastScenario | src/music-sync-system.js:206-207 | a DM at 3.0 s heard 150 ms late by a player at 1.0 s moves the player to 3.15 s |
| MusicSync.Corrected | src/music-sync-system.js:255-276 | a channel moves only when it has an element and a playing record and is more than 0.5 s from `target + elapsed`; it then lands exactly there and is always within 0.5 s afterwards |
| MusicSync.DriftChecked | src/public/music-sync-system.js:307-328 | the DM never corrects; each channel is corrected independently; records and retries are never touched |
| MusicSync.NoCorrectionRightAfterSync | src/music-sync-system.js:210-215 | a drift check at the instant of a sync moves nothing |
| MusicSync.DriftGrowsOnlyByRateError | src/music-sync-system.js:264-273 | after a check, the next check finds the element off by at most 0.5 s plus the difference between its own advance and the elapsed time |
| MusicSync.Clicked | src/music-sync-system.js:233-236 | a click consumes every retry and leaves the records alone |
| MusicSync.RejectedStartResumesOnClick | src/music-sync-system.js:227-237 | after a rejected start, an accepted click starts the channel at the target captured when the start was refused, with the synced source |
| MusicSync.RetriedAllKeepsElements | src/music-sync-system.js:233-236 | retries never add or drop an element |
| MusicSync.Retried | src/music-sync-system.js:233-236 | one retry listener seeks the channel's element, if it still has one, to the captured target and starts it when allowed, keeping its source; the other channel is untouched |
| MusicSync.RetriedAll | src/music-sync-system.js:233-236 | the listeners run in registration order; a channel with no pending retry is untouched |
| MusicSync.MusicSyncSystem.constructor | src/music-sync-system.js:5-41 | no elements, both records idle, no timers, no retries |
| MusicSync.MusicSyncSystem.Init | src/music-sync-system.js:44-57 | attaches the elements and starts the broadcast timer for the DM or the drift timer for a player |
| MusicSync.MusicSyncSystem.GetState | src/music-sync-system.js:113-140 | `getBGMState`/`getAmbienceState` are the channel's sample |
| MusicSync.MusicSyncSystem.BroadcastSync | src/music-sync-system.js:101-110 | the message has one entry per present element, reporting its play state, position and source |
| MusicSync.MusicSyncSystem.OnSyncRequest | src/music-sync-system.js:83-87 | only the DM answers a request, with a broadcast |
| MusicSync.MusicSyncSystem.SyncAudio | src/music-sync-system.js:173-252 | the step-by-step handler yields exactly `ChannelSynced`; likewise in the served copy, src/public/music-sync-system.js:201-304 |
| MusicSync.MusicSyncSystem.HandleSyncBroadcast | src/music-sync-system.js:153-170 | yields exactly `Received` |
| MusicSync.MusicSyncSystem.OnStateSync | src/music-sync-system.js:67-80 | a `state:sync` is a broadcast stamped with its arrival time, so zero latency; likewise in the served copy, src/public/music-sync-system.js:67-108 |
| MusicSync.MusicSyncSystem.CheckDrift | src/music-sync-system.js:255-276 | the loop over both channels yields exactly `DriftChecked`; likewise in the served copy, src/public/music-sync-system.js:307-328 |
| MusicSync.MusicSyncSystem.OnClick | src/music-sync-system.js:233-236 | every pending retry runs once, in order, and none is left |
| MusicSync.MusicSyncSystem.Stop | src/music-sync-system.js:285-297 | both timers are cleared |
| MusicSync.MusicSyncSystem.Destroy | src/music-sync-system.js:325-332 | timers cleared, elements dropped, both records back to not playing with zeroed times; likewise in the served copy, src/public/music-sync-system.js:377-384 |
| SessionServer.Fresh | src/server.js:73-77 | no track, not playing, at 0, looping, no start time, the given level |
| SessionServer.Started | src/server.js:214-217 | the message's fields override the record's, then playing from `now` |
| SessionServer.Paused | src/server.js:219-222 | only `playing` changes |
| SessionServer.Reset | src/server.js:224-227 | a stop keeps only the level |
| SessionServer.Positioned | src/server.js:246-249 | a position report sets the position and restarts the clock, nothing else |
| SessionServer.Projected | src/server.js:192-202 | a playing record with a start time is advanced by the time since; any other passes through unchanged |
| SessionServer.Handoff | src/server.js:186-205 | each channel of the handoff is its record projected |
| SessionServer.JoinAfterPlay | src/server.js:214-217 | joining `elapsed` ms after a play gives the play position plus `elapsed` |
| SessionServer.JoinAfterTimeUpdate | src/server.js:273-276 | after a position report, a joiner gets it advanced while playing and unadvanced once paused |
| SessionServer.StoppedChannelPassesThrough | src/server.js:262-265 | a stopped channel is handed out as the fresh record |
| SessionServer.Registered | src/server.js:178-184 | the socket's role is recorded and every other socket keeps its role; "dm" takes the DM slot and leaves the players; any other role joins the players and leaves the slot |
| SessionServer.Disconnected | src/server.js:338-343 | the socket's role goes and every other socket keeps its role; a "dm" socket empties the slot; any other socket leaves the players |
| SessionServer.CensusOf | src/server.js:207-210 | whether a DM is present and the number of players |
| SessionServer.RegisterThenDisconnect | src/server.js:338-347 | register then disconnect of a new socket restores the registry (for "dm", when the slot was empty) |
| SessionServer.PlayerCountTracksSockets | src/server.js:344-347 | a player's registration adds one to the count and its disconnection removes it |
| SessionServer.SupersededDmDisconnectEmptiesSlot | src/server.js:322-340 | a replaced DM still has its broadcasts relayed, and its disconnect empties the slot although the new DM is connected |
| SessionServer.RelaysBroadcast | src/server.js:322-328 | a broadcast is relayed exactly when the sender's recorded role is "dm"; the DM slot is not consulted, and an unregistered socket is never relayed |
| SessionServer.RequestTarget | src/server.js:330-336 | a request goes to the DM slot's socket exactly when the slot holds one |
| SessionServer.RelayFollowsRoles | src/server.js:322-328 | a player's broadcast is never relayed; a registered DM's is, and requests reach it |
| SessionServer.Server.constructor | src/server.js:73-79 | initial record (levels 0.5 and 0.3) and an empty registry |
| SessionServer.Server.Register | src/server.js:178-211 | registers the socket, returns the projected handoff and the census, leaves the playback record alone |
| SessionServer.Server.Disconnect | src/server.js:338-349 | unregisters the socket and returns the census |
| SessionServer.Server.Play | src/server.js:214-255 | bgm or ambience play: the channel becomes `Started`, the other is untouched; the announcement is the new record |
| SessionServer.Server.Pause | src/server.js:219-260 | the channel becomes `Paused`, the other is untouched; ambience likewise |
| SessionServer.Server.Stop | src/server.js:224-265 | the channel becomes `Reset`, the other is untouched; ambience likewise |
| SessionServer.Server.SetVolume | src/server.js:229-270 | only the channel's level changes; ambience likewise |
| SessionServer.Server.BgmSeek | src/server.js:234-238 | bgm takes the position and the clock restarts |
| SessionServer.Server.BgmLoop | src/server.js:240-243 | only bgm's loop flag changes |
| SessionServer.Server.TimeUpdate | src/server.js:246-276 | the channel becomes `Positioned`, the other is untouched; ambience likewise |
| SessionServer.Server.MasterStop | src/server.js:293-297 | both channels reset, each keeping its level |
| SessionServer.Server.RelaySync | src/server.js:322-328 | relayed exactly when the sender registered as "dm" |
| SessionServer.Server.ForwardSyncRequest | src/server.js:330-336 | forwarded exactly when a DM is registered |
| Uploads.Sanitize | src/server.js:42 | same length; only `[A-Za-z0-9._-]`; safe characters kept, others become `_` |
| Uploads.SanitizeIdempotent | src/server.js:42 | sanitising twice is sanitising once |
| Uploads.DecimalString | src/server.js:43 | the timestamp text is non-empty, all digits, and spells the timestamp |
| Uploads.UploadName | src/server.js:41-44 | the stored name's leading digit run spells the upload time and is followed by `-` and the sanitised original name |
| Uploads.UploadNameIsSafe | src/server.js:41-44 | the stored name is the original's length plus the prefix and only safe characters |
| Uploads.Extname | src/server.js:49 | empty exactly when the last component (trailing slashes ignored) is `..` or has no `.` after its first character; otherwise the suffix of that component from its last `.`, with a non-empty stem before it and no other `.` or `/` |
| Uploads.FileFilter | src/server.js:47-51 | an accepted name's last component is a non-empty stem followed by one of the six extensions in some letter case |
| Uploads.AllowedExtensionAccepted | src/server.js:47-51 | a non-empty base plus one of the six extensions in any case passes the filter with that extension |
| Uploads.BareExtensionRejected | src/server.js:47-51 | a bare `.mp3` (hidden file) is rejected |
| Uploads.NoDotRejected | src/server.js:47-51 | a name without `.` is rejected |
| Uploads.StripTimestamp | src/server.js:94 | a leading run of digits followed by `-` is removed whenever there is one; otherwise the name is unchanged |
| Uploads.StripExt | src/server.js:94 | a last `.` followed by at least one character is removed with what follows; a name without `.` or ending in `.` is unchanged |
| Uploads.Spaces | src/server.js:94 | underscores become spaces, nothing else changes |
| Uploads.DisplayName | src/server.js:94 | the listing name is no longer than the stored name; what it is for an upload is stated by `DisplayNameOfUpload` |
| Uploads.StripExtSanitize | src/server.js:94 | stripping the extension commutes with sanitising |
| Uploads.DisplayNameOfUpload | src/server.js:94 | the listing name of an upload is the uploader's name without extension, unsafe characters and underscores shown as spaces |
| Uploads.CategoryCheckAsWritten | src/server.js:155-159 | the three categories are accepted; every inherited name throws; every other name is rejected with 400 |
| Uploads.CategoryCheckAdmitsInheritedNames | src/server.js:157 | "constructor" passes the written check, not the intended one |
| Uploads.CategoryCheck | src/server.js:155-159 | exactly bgm, ambience and sfx are accepted, and nothing throws |
| Uploads.CategoryChecksAgree | src/server.js:157 | the checks differ only on inherited names |
| PlayerVolume.Volumes.Set | src/player-volume-control.js:146-147 | only the named entry changes |
| PlayerVolume.Mix | src/player-volume-control.js:182-184 | in [0,1] and at most the DM level when all factors are; the DM level at unit master and channel; 0 when any factor is 0 |
| PlayerVolume.Serialized | src/player-volume-control.js:46-48 | every key is saved |
| PlayerVolume.Loaded | src/player-volume-control.js:34-42 | saved keys override, unsaved keys are kept; nothing or a parse error leaves the table as it was |
| PlayerVolume.LoadSavedRoundTrip | src/player-volume-control.js:34-48 | loading what was saved restores it whatever the current table |
| PlayerVolume.Revolume | src/player-volume-control.js:187-194 | only the level changes; it is the mix of the stored DM level, 1.0 when none is stored, and lies in [0,1] when the factors do |
| PlayerVolume.RevolumedStream | src/player-volume-control.js:187-194 | `applyVolume` on a stream: nothing without an element, otherwise only its level changes, to the mix of its stored DM level (1.0 when none) |
| PlayerVolume.RevolumedEffects | src/player-volume-control.js:200-204 | every live effect is re-volumed, none added or dropped |
| PlayerVolume.Played | src/player-volume-control.js:218-235 | also ambience (283-300): without element or track nothing changes; otherwise source from `track.url`, DM level default 0.5 (0.3), loop default true, position only if given (else 0 after the reload), started if allowed |
| PlayerVolume.Stopped | src/player-volume-control.js:254-260 | paused, at 0, no source; everything else (levels, stored DM level, loop, duration) kept |
| PlayerVolume.DmVolumeSet | src/player-volume-control.js:262-267 | the DM level is stored and the mix recomputed |
| PlayerVolume.Resumed | src/player-volume-control.js:386-396 | applied only for a playing record with a track: its url, level, loop and position, started if allowed |
| PlayerVolume.ResumedAgreesWithPlayed | src/player-volume-control.js:401-411 | a late joiner gets the element a live listener got from the same record |
| PlayerVolume.ResumedChannel | src/player-volume-control.js:382-414 | a channel without a playing record with a track is left alone |
| PlayerVolume.SfxStarted | src/player-volume-control.js:334-359 | an effect exists exactly for a message with a url; it plays from 0 at the mixed level |
| PlayerVolume.ApplyAfterSetAsWritten | src/player-volume-control.js:146-160 | the effects key throws; master re-volumes both stream elements and every effect; a channel key re-volumes that channel's element and leaves the effects |
| PlayerVolume.EffectsSliderThrowsAsWritten | src/player-volume-control.js:187-193 | the effects slider throws, whatever is playing |
| PlayerVolume.ApplyAfterSet | src/player-volume-control.js:151-156 | never throws; the effects key re-volumes live effects only; master re-volumes both stream elements and every effect; a channel key re-volumes that channel's element and leaves the other channel and the effects; otherwise as written |
| PlayerVolume.ClickStartsWaiting | src/player-volume-control.js:238-244 | an accepted click starts every waiting channel where it stood |
| PlayerVolume.RetriedAllKeepsPosition | src/player-volume-control.js:241-243 | retries keep elements, positions and sources |
| PlayerVolume.RetriedOne | src/player-volume-control.js:241-243 | one retry listener starts the channel's element where it stands when allowed and changes nothing else |
| PlayerVolume.RetriedAll | src/player-volume-control.js:238-244 | the listeners run in registration order; a channel that is not waiting is untouched |
| PlayerVolume.PlayerVolumeControl.constructor | src/player-volume-control.js:5-31 | defaults overlaid with saved preferences; no elements, no effects |
| PlayerVolume.PlayerVolumeControl.LoadPreferences | src/player-volume-control.js:34-43 | the table becomes `Loaded` |
| PlayerVolume.PlayerVolumeControl.CalculateVolume | src/player-volume-control.js:182-184 | in [0,1] when all factors are |
| PlayerVolume.PlayerVolumeControl.ApplyChange | src/player-volume-control.js:151-156 | live audio becomes `ApplyAfterSet`, the corrected re-volume (see Left out for the effects key) |
| PlayerVolume.PlayerVolumeControl.SetVolume | src/player-volume-control.js:146-160 | one entry changes and the table is saved; live audio becomes `ApplyAfterSet`, the corrected re-volume (see Left out for the effects key) |
| PlayerVolume.PlayerVolumeControl.ResetVolumes | src/player-volume-control.js:163-179 | the table becomes {0.7, 1, 1, 1} whatever it was, saved and applied |
| PlayerVolume.PlayerVolumeControl.OnPlay | src/player-volume-control.js:210-246 | the element is looked up if missing, becomes `Played`; a rejected start queues a click retry |
| PlayerVolume.PlayerVolumeControl.OnPause | src/player-volume-control.js:248-252 | the element is paused |
| PlayerVolume.PlayerVolumeControl.OnStop | src/player-volume-control.js:254-260 | the element becomes `Stopped` |
| PlayerVolume.PlayerVolumeControl.OnVolume | src/player-volume-control.js:262-267 | the element becomes `DmVolumeSet` |
| PlayerVolume.PlayerVolumeControl.OnBgmSeek | src/player-volume-control.js:269-273 | bgm takes the position |
| PlayerVolume.PlayerVolumeControl.OnSfxPlay | src/player-volume-control.js:334-359 | one entry added under the id exactly when an effect starts |
| PlayerVolume.PlayerVolumeControl.OnSfxEnded | src/player-volume-control.js:354-356 | the entry is deleted |
| PlayerVolume.PlayerVolumeControl.OnMasterStop | src/player-volume-control.js:362-379 | both channels stopped, every effect paused at 0 and the map emptied |
| PlayerVolume.PlayerVolumeControl.OnStateSync | src/player-volume-control.js:382-414 | each channel becomes `ResumedChannel` |
| PlayerVolume.PlayerVolumeControl.OnClick | src/player-volume-control.js:238-244 | every waiting channel is started once, none left waiting |
| Protocol.HandoffIgnoredByMusicSync | src/server.js:186-205 | the sync instance's `state:sync` handler leaves every element and record as it was, whatever the server plays |
| Protocol.LateJoinerIsElapsedAhead | src/server.js:192-196 | a player joining `elapsed` ms after a play gets the live listeners' track, level and play state, `elapsed` ms further on |
| Protocol.FollowerConvergesOnLeader | src/music-sync-system.js:153-170 | a follower applying a DM sample takes the DM's source, ends within 0.5 s of the DM's projected position, records that projection, and plays if allowed |

## Left out

- Socket.IO transport, emits and timers. Messages are method calls. Timers are two flags (`broadcasting`, `checking`); the periodic calls themselves are the caller's. A second `init` starting a second interval is not modelled.
- `requestSync` and `getStats` (an emit and a formatted debug report), logging, and the UI: sliders, displays and styles.
- The `fade:in`/`fade:out` and `sfx:play` relays and the `player:volume:*` log handlers. They change no state.
- Express, multer and fs plumbing: routes, size limits, the upload response, `/api/state`, directory reads, deletion itself, and the `path.join` of the delete route's file name.
- `localStorage` I/O: the saved preferences are a `Stored` value. JSON with non-numeric values is not modelled.
- URL resolution of `audio.src`. The element's source compares equal to the text it was given.
- IEEE floating point, NaN, `parseFloat` and the `dataset` string round trip. Levels and positions are reals.
- Clamping of positions to a track's duration, and wrapping of looped tracks.
- `path.extname` is the POSIX variant.
- Uploads.LowerAscii: lower-cases ASCII letters only. No non-ASCII character lower-cases to a letter of the six extensions, so the filter is unaffected.
- MusicSync.MusicSyncSystem.OnClick: a retry acts on the channel's current element. The source's listener holds the element it was registered for, which differs after `destroy` or a new `init`.
- Uploads.DisplayName: its own contract is only a length bound; what it computes for an upload is stated by `DisplayNameOfUpload`.
- PlayerVolume.PlayerVolumeControl.SetVolume: for the effects key the class follows the corrected `ApplyAfterSet` (live effects re-volumed); the source throws a TypeError after saving and skips the `player:volume:sfx` emit, which only `ApplyAfterSetAsWritten` models.
- MusicSync.SyncStep: a level outside [0, 1] is stored as any real and the step completes. In the browser, assigning such a level to an element throws (src/music-sync-system.js:219-221, and the volume control's assignments at src/player-volume-control.js:193-408). A `syncAudio` whose level step would throw therefore stops in the source after the source and the record are written, without starting the element or queuing a retry; the model starts it or queues the retry. The volume control's handlers likewise store such a level where the source throws, and `Loaded` and `SetVolume` accept any real.
- PlayerVolume.PlayerVolumeControl.ApplyChange: for the effects key it re-volumes live effects as the corrected `ApplyAfterSet` does, where the source throws.
- Uploads.Sanitize: works on Unicode scalar values; the source's regex has no `u` flag and replaces UTF-16 code units, so a character outside the Basic Multilingual Plane becomes `__` there and `_` here, and "same length" counts code units there and scalars here.
- PlayerVolume.SfxStarted: the effect's duration is not modelled (0).
- The server's `playbackState.sfx` array is never read or written after creation. Fields of a play message other than track, volume, loop and position are not modelled.

## Findings

| source | as written | input that shows it | evidently intended | confidence | as-written member | corrected member |
|---|---|---|---|---|---|---|
| src/server.js:157 | `AUDIO_DIRS[category]` is also truthy for names every object inherits | `DELETE /api/tracks/constructor/a.mp3`: the check passes, `path.join` throws on a function, and the answer is a server error instead of 400 "Invalid category" | only bgm, ambience and sfx pass | high; not executed | Uploads.CategoryCheckAsWritten | Uploads.CategoryCheck |
| src/player-volume-control.js:155 | `applyVolume('sfx')` takes the Map of live effects for an element and reads its `dataset` | moving the SFX slider at any time, even with no effect live (an empty Map is truthy): TypeError; live effects keep their old level and the `player:volume:sfx` emit is skipped | the SFX level applied to every live effect | high; not executed | PlayerVolume.ApplyAfterSetAsWritten | PlayerVolume.ApplyAfterSet |
