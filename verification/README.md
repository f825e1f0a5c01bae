# Verified model of the audio router's stateful components

This project models the parts of the PipeWire audio router and its receivers whose correctness depends on state, loops and
interleavings, and proves what they are for. `dafny verify dfyconfig.toml` checks all of it.

- **Voice ducking.** `VoiceDuck` is the protocol between Home Assistant and the routing daemon as a step machine: a
  coroutine suspended at an await is a task, requests travel on their own and may be served after their sender gave up.
  `VoiceDuckLease` bounds every hold by when somebody last talked, `VoiceDuckMemory` follows what Home Assistant remembers
  of hold ids, `VoiceDuckHold` bounds a hold by its own satellite, `VoiceDuckRestart` shows exactly where that ends, and
  `VoiceDuckBookkeeping` says what the map of holds means, `VoiceDuckWalk` what the walks over it come to. `VoiceDucker` is
  the object whose stretches between awaits take those steps, `DuckMixer` the daemon's per-output lists that carry the
  leases, `VoiceTargets` the choice of outputs.
- **Song cache.** `RangedDownload` is the download loop against any server; `AudioCache` the accounting and eviction over
  every interleaving, `AudioCacheProgress` what gets done over them; `SongScan` what is made of the directory at start;
  `SongCache` the object over the files.
- **Silence instrument.** `Silence` defines silence over a whole block history and proves the online tracker equal to it.
  `Capture` covers re-framing, the ring and its polling clients, `CaptureThread` the capture thread against target
  changes, `Binding` the respawn and adoption rules.
- **Receiver playback.** `ResolverRun`, `Resolver` and `ResolverObject` (resolution and its caches), `PlayRetry` (the retry
  of a play request over them), `LocalQueue`, `PlayLimit`, and `Mpv`, `MpvDelivery`, `MpvRespawn` and `MpvClient`
  (the player's socket).
- **Caches and codecs.** `Jsc` and `JscBulk` (the resident challenge solver), `Catalogue` and `History` over `Recency`, and
  `CookieJar` with `CookieReading`. `LineFraming`, `InsertionMap`, `Sequences` and `Wrappers` are shared.

Objects that change their fields are classes whose methods are proved against functions on values; runs and interleavings
are step machines over those values.

## What does not hold

Some properties the code is meant to have fail in corners. The code is modelled as it is, and each corner has a witness and
the condition under which it is met.

- A restarted daemon counts hold ids from 1 again, so an id still remembered for one satellite can come to name another's
  hold, which is then renewed on its account (`VoiceDuckRestart.RestartCanBreakTheLease`). In any run, a hold is bounded by
  its own satellite unless it was threatened at birth (`VoiceDuckHold.LeaseBound`), and, as long as a request takes less
  than half a lease, it can outlive that bound if and only if it was (`VoiceDuckRestart.ThreatIsExact`). Some satellite of
  the house bounds it in any case (`VoiceDuckLease.HouseLeaseBound`). Whose hold is whose gets confused if and only if its
  start was a mix-up (`VoiceDuckRestart.MixUpsAreExact`).
- A server that sends a part and then the whole song, naming no length, gets a file published that is not the song
  (`RangedDownload.LateWholeIsPublished`; exactly then: `RangedDownload.PublishedIsTheSong`).
- A song just added is evicted at once if and only if entries stamped later than it leave no room, which takes a
  modification time in the future (`AudioCache.AddedSurvives`).
- Two files with one id at start leave the first of them uncounted (`SongScan.TwoFilesOneId`): the songs on disk amount
  to the total if and only if every file hidden that way is empty (`SongCache.Songs.Init`, `SongScan.NothingShadowed`).
- A reader of the old target can slip through between the locked part of a target change and its restart flag, and show
  its audio under the new name (`CaptureThread.ReaderCanSlip`, `CaptureThread.SlippedAudioIsShown`; exactly then:
  `CaptureThread.SafeUnlessItSlips`), until the target changes again (`CaptureThread.NoForeignAudio`).
- A node picked by hand in the middle of an unbound stretch inherits the stretch (`Binding.PickedNodeIsReplaced`). It has
  a grace time of its own if and only if the target was last changed that long ago (`Binding.GraceIsOwnUnlessPicked`).
- A player that dies before its socket appears leaves its `start` waiting, and two connections can then share one buffer
  (`MpvRespawn.EarlyDeathTanglesTheStreams`): exactly when one is made while another is there
  (`MpvRespawn.StaysSingle`). After a start that overlaps another, a caller can be told what no connection carried,
  although each carries only replies of its own (`MpvRespawn.OverlapForgesAReply`).
- A player marked for the entry point whose source is evicted is never asked for again until the worker is restarted
  (`Jsc.StuckIsReachable`, `Jsc.StuckStays`; exactly then: `Jsc.CachedAgreesWithUncached`).
- A reply with a malformed entry after a good one makes the bulk solver answer requests twice
  (`JscBulk.AnsweredExactlyOnce`).
- The comment in `resolver.js` restarts the daemon only once the whole ladder has produced unplayable URLs; the code does
  so once any attempt has and none played (`ResolverRun.RestartsBeforeTheWholeLadder`).
- A retry can load the very URL that failed, resolved the same way or another (`PlayRetry.BrokenUrlIsRepeated`): if and
  only if there is no copy to fall back on and the new resolve answers the same (`PlayRetry.RetryTakesAnotherRoute`).
- A retry whose command is refused costs the next request for that video its own (`PlayRetry.RefusedRetryCostsTheNext`).
- The queue ends early if and only if, at its last track, the way to the rest is lost, the fetch fails, or the page brings
  nothing new (`LocalQueue.EndsEarly`, `LocalQueue.RepeatedPageEndsTheList`).
- An installer's name with a line break can put a row into the jar (`CookieJar.BrokenNameAddsItsRow`; exactly when it
  matters: `CookieJar.PrintedParsesBack`).

## Assumptions

- A request is answered within a fixed delay or counts as failed, a scheduled coroutine starts within it, and the daemon's
  lease enforcer runs at least once per sweep. Clocks move forward where a statement says so. Times are integers.
- The contract of a song server is that of section 14 of RFC 9110, stated as `RangedDownload.Honest`.
- The solver core obeys `Jsc.Lawful`: solving from a preprocessed player is solving from the player it was made of.

## Model

| member | source | states |
|---|---|---|
| `VoiceDuckLease.HouseLeaseBound` | custom_components/pipewire_audio_router/voice_duck.py:151-208 | In every run over all interleavings of satellite states, toggles, reloads, renew ticks, requests, answers, losses, timeouts and daemon restarts: each live hold, tracked or leaked, expires at most TTL plus two request delays after some satellite last talked, and the daemon drops it at most one sweep later. |
| `VoiceDuckLease.SilentHouseIsLoud` | custom_components/pipewire_audio_router/voice_duck.py:29-31 | A house in which nobody talked for longer than lease, delays and sweep has no hold left. |
| `VoiceDuckLease.StepKeepsInv` | custom_components/pipewire_audio_router/voice_duck.py:133-203 | Every step of the protocol keeps the invariant behind the two rows above. |
| `VoiceDuckMemory.StepInherits` | custom_components/pipewire_audio_router/voice_duck.py:133-203 | Over any step but a daemon restart, an id is tracked only if it was tracked or granted, walked only if it was walked or tracked, and asked for only if it was asked for or just came to be walked. |
| `VoiceDuckHold.LiveHoldWasBorn` | pipewire_audio_router/bridge-daemon/src/outputs/overlay_mixer.rs:197-202 | Every live hold was handed out to the start of its owner since the last daemon restart. |
| `VoiceDuckHold.LeaseBound` | custom_components/pipewire_audio_router/voice_duck.py:151-208 | In every run, whatever else was mixed up: a live hold expires at most TTL plus two request delays after the satellite it was started for last talked, unless, right after its start, its id was tracked for another satellite with the renew timer running, still to be walked for one, or in a renewal for one that is on its way and too late for its own. |
| `VoiceDuckHold.SilenceEndsTheDuck` | custom_components/pipewire_audio_router/voice_duck.py:29-31 | Once its satellite has been silent for longer than lease, delays and sweep, such a hold is gone, whatever was lost on the way. |
| `VoiceDuckHold.OnlyOwnHolds` | custom_components/pipewire_audio_router/voice_duck.py:175-203 | In every run: unless its id was still remembered for another satellite when its start was served, nothing is ever tracked, renewed or released under a hold's id for another satellite than its own. |
| `VoiceDuckHold.RememberedIsKnown` | custom_components/pipewire_audio_router/voice_duck.py:175-203 | If the daemon only restarts while nothing is remembered, whatever is remembered for a satellite names a hold that was started for it, and no id is ever mixed up. |
| `VoiceDuckRestart.ThreatIsExact` | custom_components/pipewire_audio_router/voice_duck.py:185-203 | After any run, right after a start is served, with no further restart and no further start: the new hold can come to outlive the bound of its satellite only if it is threatened, and, with requests of less than half a lease, whenever it is. |
| `VoiceDuckRestart.TrackedOutlives` | custom_components/pipewire_audio_router/voice_duck.py:185-203 | With requests of any length: a new hold whose id is tracked for another satellite, while the renew timer runs, can always come to outlive the bound. |
| `VoiceDuckRestart.MixUpsAreExact` | custom_components/pipewire_audio_router/voice_duck.py:185-203 | After any run, serving a start is a mix-up if and only if Home Assistant can come to handle the new hold for another satellite from there, with no further restart and no further start. |
| `VoiceDuckRestart.RestartCanBreakTheLease` | pipewire_audio_router/bridge-daemon/src/outputs/overlay_mixer.rs:197-202 | It happens: a whole run with one restart, at whose end a hold outlives the bound of the satellite it was started for. |
| `VoiceDuckBookkeeping.SilentHoldsAreBeingReleased` | custom_components/pipewire_audio_router/voice_duck.py:133-183 | While running, with the switch driven by its own turn-off: a tracked hold whose satellite is silent always has un-duck work pending. |
| `VoiceDuckBookkeeping.QuiescentTracksOnlyTalkers` | custom_components/pipewire_audio_router/voice_duck.py:133-203 | With no coroutine left to run, only talking satellites are tracked. |
| `VoiceDuckBookkeeping.ForgottenHoldIsNeverRenewed` | custom_components/pipewire_audio_router/voice_duck.py:185-203 | A hold nobody tracks and no coroutine or request remembers keeps its deadline in every later run, restarts and reloads included, until a new hold takes over its id. |
| `VoiceDuckBookkeeping.IdsAreFresh` | pipewire_audio_router/bridge-daemon/src/outputs/overlay_mixer.rs:197-202 | Without a daemon restart no id is ever handed out again. |
| `VoiceDuckBookkeeping.QuiescentSilenceIsFinal` | custom_components/pipewire_audio_router/voice_duck.py:133-203 | With no coroutine and no request left, a hold tracked for nobody is never renewed again, until a new hold takes over its id. |
| `VoiceDuckBookkeeping.ReleasedIsGone` | pipewire_audio_router/bridge-daemon/src/outputs/overlay_mixer.rs:240-253 | Once a release is served its hold is gone, whatever is still on its way for it, until a new hold takes over its id. |
| `VoiceDuckBookkeeping.HeldForItsLease` | pipewire_audio_router/bridge-daemon/src/outputs/overlay_mixer.rs:197-281 | From being handed out or renewed on, a hold is there for the next TTL at least, in every run, unless a release of it is served or the daemon restarts. |
| `VoiceDuckBookkeeping.LostHoldIsStartedAnew` | custom_components/pipewire_audio_router/voice_duck.py:185-203 | The answer to a renewal says whether the daemon knows the hold; the coroutine that learns it does not forgets it and asks for a new one. |
| `VoiceDuckWalk.RenewalsNextRequest` | custom_components/pipewire_audio_router/voice_duck.py:185-196 | From one await to the next a renewal passes over exactly the leading entries that neither talk nor are tracked; the next one is renewed under the id of the snapshot if it talks, and otherwise forgotten and released under the id tracked now; the rest waits. |
| `VoiceDuckWalk.ReleasesNextRequest` | custom_components/pipewire_audio_router/voice_duck.py:169-183 | A release walk passes over exactly the leading satellites that are not tracked, and forgets and releases the next. |
| `VoiceDuckWalk.WalkedIsReleased` | custom_components/pipewire_audio_router/voice_duck.py:151-203 | Over any run: of the satellites tracked when a walk began, once it has come to its end a renewal leaves none tracked that was silent all the while, and a release none for which nothing was started anew. Lost requests and failures on the way do not matter. |
| `VoiceDuckWalk.OffIsOff` | custom_components/pipewire_audio_router/voice_duck.py:133-203 | Over any run: from the switch being turned off until it is turned on, or the ducker loaded anew, nothing more is tracked and no more renewals are sent; what is still granted is given straight back. |
| `VoiceDuckWalk.StoppedIsStopped` | custom_components/pipewire_audio_router/voice_duck.py:120-131 | From a stop on, until the ducker is loaded anew, it does not listen and no renewal is begun. |
| `VoiceDuckWalk.LoadedAnew` | custom_components/pipewire_audio_router/voice_duck.py:29-31 | A ducker loaded anew is on, listens and knows of nothing; leases and requests of the old one go on. |
| `VoiceDuckWalk.ServedAtMostOnce` | custom_components/pipewire_audio_router/voice_duck.py:151-203 | Over any run a request is served at most once, and not at all once it is lost. |
| `VoiceDucker.Ducker.SatelliteChanged` | custom_components/pipewire_audio_router/voice_duck.py:133-149 | A coroutine is started to duck exactly if the satellite is active, the switch is on and nothing is tracked, and one to release exactly if it is not and something is; the step machine takes the same choice. |
| `VoiceDucker.Ducker.Release` | custom_components/pipewire_audio_router/voice_duck.py:175-183 | The id is forgotten before its release is sent, under that id; nothing is sent if nothing is tracked. |
| `VoiceDucker.Ducker.RunUnduck` | custom_components/pipewire_audio_router/voice_duck.py:142-149 | The coroutine a silent satellite is given releases its hold and does nothing else. |
| `VoiceDucker.Ducker.ReleaseFrom` | custom_components/pipewire_audio_router/voice_duck.py:169-173 | The loop from one await to the next passes over exactly the leading satellites that are not tracked, sends the release of the next and waits with the rest of its list. |
| `VoiceDucker.Ducker.RenewFrom` | custom_components/pipewire_audio_router/voice_duck.py:185-196 | The renew loop against its stale snapshot: it passes over exactly the leading entries with nothing to do, sends what is due for the next - a renewal or a release - and waits with the rest, as the machine does. |
| `VoiceDucker.Ducker.NextOf` | custom_components/pipewire_audio_router/voice_duck.py:185-196 | That loop on the fields alone: which entries are passed over, what is sent for the next, and what is forgotten. |
| `VoiceDucker.Ducker.OnStarted` | custom_components/pipewire_audio_router/voice_duck.py:162-167 | A granted hold is tracked if the satellite still talks, and otherwise forgotten and released at once; a start made within a renew walk goes on with it as the row above says. |
| `VoiceDucker.Ducker.OnRenewed` | custom_components/pipewire_audio_router/voice_duck.py:194-203 | A forgotten hold is untracked and started anew if there is anything to duck; otherwise the walk goes on, passing over and sending as above. |
| `VoiceDucker.Ducker.ReleaseAll` | custom_components/pipewire_audio_router/voice_duck.py:169-173 | Switching off starts releasing what is tracked, first entry first. |
| `VoiceTargets.TargetsFor` | custom_components/pipewire_audio_router/voice_duck.py:213-238 | Exactly the outputs of the area, widened group by group in order. |
| `VoiceTargets.WidensToTouchedGroups` | custom_components/pipewire_audio_router/voice_duck.py:230-237 | With disjoint groups the result is the area plus exactly the groups that meet it, whatever their order. |
| `VoiceTargets.OrderMatters` | custom_components/pipewire_audio_router/voice_duck.py:230-237 | With overlapping groups the order matters: a concrete pair of results. |
| `DuckMixer.OverlayMixer.StartDuck` | pipewire_audio_router/bridge-daemon/src/outputs/overlay_mixer.rs:197-218 | A new id, leased until now plus TTL and listed on exactly the targets at the level; everything listed before still is, and nothing else. |
| `DuckMixer.Clamped` | pipewire_audio_router/bridge-daemon/src/outputs/overlay_mixer.rs:197-218 | The level of a hold is the permitted one closest to what was asked for. |
| `DuckMixer.OverlayMixer.RenewDuck` | pipewire_audio_router/bridge-daemon/src/outputs/overlay_mixer.rs:223-235 | True exactly if the hold lives; then its deadline moves on every output, and no output, level or other hold changes. |
| `DuckMixer.OverlayMixer.ReleaseDuck` | pipewire_audio_router/bridge-daemon/src/outputs/overlay_mixer.rs:240-253 | Exactly the listings of the hold go, levels and deadlines of the others stay, and exactly the outputs it was on are reported. |
| `DuckMixer.OverlayMixer.ExpireDucks` | pipewire_audio_router/bridge-daemon/src/outputs/overlay_mixer.rs:259-281 | Exactly the listings past their deadline go, the others stay as they are, and each lease that went is reported once with the outputs it was on. |
| `DuckMixer.OverlayMixer.DuckGain` | pipewire_audio_router/bridge-daemon/src/outputs/overlay_mixer.rs:309-312 | The gain is the lowest level held on the output, and none exactly without a hold. |
| `DuckMixer.RetainedRepresents` | pipewire_audio_router/bridge-daemon/src/outputs/overlay_mixer.rs:245-251 | Filtering the per-output lists keeps exactly the filtered leases, with their deadlines. |
| `DuckMixer.ExtendRepresents` | pipewire_audio_router/bridge-daemon/src/outputs/overlay_mixer.rs:223-235 | Moving the deadline in every list is moving the lease. |
| `RangedDownload.RangeReply` | firmware/pi-ytmusic/receiver/audiocache.js:274-292 | The reply used for a range is the first that is not transient, within three tries; all earlier ones were transient. |
| `RangedDownload.GetRangeRetrying` | firmware/pi-ytmusic/receiver/audiocache.js:274-292 | The retry loop returns that reply and counts its requests. |
| `RangedDownload.LogEnds` | firmware/pi-ytmusic/receiver/audiocache.js:190-237 | The download ends for every sequence of replies: at most one range per byte still allowed and three requests per range; what is published extends what was written and respects the size limit. |
| `RangedDownload.PublishedIsTheSong` | firmware/pi-ytmusic/receiver/audiocache.js:190-237 | Under the server contract what is published is exactly the song, if and only if the last exchange was not a 200 in answer to a later range. |
| `RangedDownload.LateWholeIsPublished` | firmware/pi-ytmusic/receiver/audiocache.js:205-233 | That condition is needed: an honest server and a download that publishes something else. |
| `RangedDownload.ServedSongIsPublished` | firmware/pi-ytmusic/receiver/audiocache.js:190-237 | A song that fits and is served, cut up in any way and with up to two dropped connections or server errors per range, is published whole. |
| `RangedDownload.RangesFollowOneAnother` | firmware/pi-ytmusic/receiver/audiocache.js:190-221 | From any server: ranges of ten MiB, or what is left, without gap or overlap; each but the last got a part that left something to ask for; and a file is published if and only if the last exchange completes it within the limit, never with another size than the one that was named. |
| `RangedDownload.RefusedAtOnce` | firmware/pi-ytmusic/receiver/audiocache.js:274-292 | A refusal costs one request, and nothing is published. |
| `RangedDownload.KnownLengthIsSafe` | firmware/pi-ytmusic/receiver/audiocache.js:190-221 | Where the URL or the answers name the length, an honest server cannot get anything but the song published, and nothing is asked for past its end. |
| `AudioCache.EvictsShortestPrefix` | firmware/pi-ytmusic/receiver/audiocache.js:248-260 | An uninterrupted eviction removes the shortest prefix of the least-recently-used order after which the cache fits. |
| `AudioCache.AddedSurvives` | firmware/pi-ytmusic/receiver/audiocache.js:222-260 | The song just added survives its own eviction if and only if the entries used later than it leave room for it. |
| `AudioCache.AddedStaysUnderAForwardClock` | firmware/pi-ytmusic/receiver/audiocache.js:222-260 | With no modification time in the future the song just added is never evicted for its own sake. |
| `AudioCache.StepKeepsValid` | firmware/pi-ytmusic/receiver/audiocache.js:113-158 | Every step keeps the accounting exact, the cache within its limit outside an eviction and within one file of it inside, and no id both cached and downloading or downloading twice. |
| `AudioCache.AccountingIsExact` | firmware/pi-ytmusic/receiver/audiocache.js:113-260 | The same after every run of lookups, removals, fetches, completed and failed downloads and interrupted evictions. |
| `AudioCache.AddKeepsTheSum` | firmware/pi-ytmusic/receiver/audiocache.js:239-246 | Storing an id again replaces its entry, and the total stays the sum. |
| `AudioCacheProgress.FirstComeFirstServed` | firmware/pi-ytmusic/receiver/audiocache.js:139-158 | Over every interleaving the queue of downloads is what was in it and what was admitted since, in order, less as many from the front as have ended; a request is admitted if and only if it is acceptable, neither cached nor queued, and there is room. |
| `AudioCacheProgress.CompletedThenEvicts` | firmware/pi-ytmusic/receiver/audiocache.js:222-260 | A completed download and its eviction, taken await by await, add its song, do what the eviction as a whole does, and end. |
| `AudioCacheProgress.SurvivesIffNewerLeaveRoom` | firmware/pi-ytmusic/receiver/audiocache.js:248-260 | Least recently used: an entry outlives an eviction if and only if it fits together with everything used after it. |
| `AudioCacheProgress.PlayedStays` | firmware/pi-ytmusic/receiver/audiocache.js:113-122 | A song that was just played is driven out by the next one cached only if the two of them alone are too large. |
| `AudioCacheProgress.NoSongTooLarge` | firmware/pi-ytmusic/receiver/audiocache.js:139-158 | No song over 64 MiB or over the limit is ever kept. |
| `SongCache.Songs.TakeIn` | firmware/pi-ytmusic/receiver/audiocache.js:84-102 | One file found at start is dropped, counted or left alone. |
| `SongCache.Songs.Init` | firmware/pi-ytmusic/receiver/audiocache.js:79-106 | After start the total is the sum of the entries and within the limit, every entry is a file on disk of its size, leftovers and oversized files are gone; the songs left on disk amount to the total and the files hidden by a later one of their id. |
| `SongScan.ScanMissesTheShadowed` | firmware/pi-ytmusic/receiver/audiocache.js:79-106 | For every listing, the songs on disk after the scan are those counted and those hidden by a later file of the same id. |
| `SongScan.NothingShadowed` | firmware/pi-ytmusic/receiver/audiocache.js:79-106 | Nothing is missed if and only if every hidden song is empty. |
| `SongScan.NothingMissedIfOnePerId` | firmware/pi-ytmusic/receiver/audiocache.js:239-246 | With no empty song, nothing is missed if and only if no two songs have one id. |
| `SongScan.TwoFilesOneId` | firmware/pi-ytmusic/receiver/audiocache.js:239-246 | Two files of one song of which only one is counted. |
| `SongScan.OneOfFour` | firmware/pi-ytmusic/receiver/audiocache.js:79-106 | What is found is a leftover, a song to keep, one too large, or none of the cache's business. |
| `SongScan.WordChars` | firmware/pi-ytmusic/receiver/audiocache.js:79-106 | The alphabet of video ids, by code points. |
| `SongCache.Songs.Lookup` | firmware/pi-ytmusic/receiver/audiocache.js:113-122 | The file of a cached id, which becomes the most recently used; everything else stays. |
| `SongCache.Songs.Remove` | firmware/pi-ytmusic/receiver/audiocache.js:125-134 | Entry, size and file go together. |
| `SongCache.Songs.Fetch` | firmware/pi-ytmusic/receiver/audiocache.js:139-158 | An id goes to the end of the chain exactly if it is a video id with an http URL, not cached, not in the chain, and fewer than eight are; otherwise nothing changes. |
| `SongCache.Songs.Evict` | firmware/pi-ytmusic/receiver/audiocache.js:248-260 | The eviction loop over the files does to the entries what the value model says, and deletes what it drops. |
| `SongCache.Songs.Assemble` | firmware/pi-ytmusic/receiver/audiocache.js:196-221 | The loop of ranges writes exactly the bytes of the value model, into a part file of its own. |
| `SongCache.Songs.Publish` | firmware/pi-ytmusic/receiver/audiocache.js:222-230 | The part file becomes the song's file and entry, and the accounting stays exact. |
| `SongCache.Songs.RunDownload` | firmware/pi-ytmusic/receiver/audiocache.js:190-237 | One download: published as an entry with exactly the bytes fetched, or no entry and no part file. |
| `SongCache.SongOrNothing` | firmware/pi-ytmusic/receiver/audiocache.js:190-237 | From an honest server: either the song is cached and its file is exactly the song, if and only if the last exchange was not a 200 to a later range, and always if the URL names its length; or there is no entry and no new file. No part file stays in any case. |
| `Silence.RunsAreTheClosedRuns` | firmware/pi-bridge/bluetooth-testing-app/capture.py:219-260 | The block-by-block runs are exactly the maximal runs of trusted, gap-free, all-zero blocks that are closed, in order. |
| `Silence.OnlyOpenRun` | firmware/pi-bridge/bluetooth-testing-app/capture.py:219-260 | The open run is the one maximal run that reaches the end of the history. |
| `Silence.EpisodesGrow` | firmware/pi-bridge/bluetooth-testing-app/capture.py:255-260 | One more block logs at most the run it closes, if that is long enough. |
| `Silence.SilenceTracker.CheckContinuity` | firmware/pi-bridge/bluetooth-testing-app/capture.py:240-253 | A hole in the data is lost time and a stall, and ends the run without discarding it. |
| `Silence.SilenceTracker.CloseRun` | firmware/pi-bridge/bluetooth-testing-app/capture.py:255-260 | A run long enough is logged once, then forgotten. |
| `Silence.SilenceTracker.Update` | firmware/pi-bridge/bluetooth-testing-app/capture.py:219-238 | After any sequence of updates the streak is the open run, the episodes are the last 50 long closed runs, the stalls the last 50 holes, the counters and the lost time what the definition says. |
| `Silence.SilenceTracker.Streak` | firmware/pi-bridge/bluetooth-testing-app/capture.py:263-265 | The streak is block-derived and never bills, with all episodes ever, more than the silent blocks. |
| `Silence.SilenceIsConserved` | firmware/pi-bridge/bluetooth-testing-app/capture.py:219-260 | Every silent block is in exactly one run, closed or open. |
| `Silence.NeverOverbilled` | firmware/pi-bridge/bluetooth-testing-app/capture.py:219-265 | Episodes plus streak never bill more than the silent blocks measured. |
| `Silence.WallTimeIsAccountedFor` | firmware/pi-bridge/bluetooth-testing-app/capture.py:240-253 | Last block time minus first is the blocks between, plus what was lost, plus the gaps that were tolerated. |
| `Silence.CoverageIsHonest` | firmware/pi-bridge/bluetooth-testing-app/capture.py:240-253 | On a forward clock the difference is at most the allowed gap per block one way and a block length per block the other. |
| `Capture.PeakOf` | firmware/pi-bridge/bluetooth-testing-app/capture.py:151-170 | The largest absolute sample of a block; an odd last byte is no sample. |
| `Capture.SampleIsTwosComplement` | firmware/pi-bridge/bluetooth-testing-app/capture.py:151-170 | A sample is the little-endian two's complement reading of its two bytes. |
| `Capture.SilentIffAllZero` | firmware/pi-bridge/bluetooth-testing-app/capture.py:151-170 | A block is silent exactly when all its samples are zero. |
| `Capture.FramedByPosition` | firmware/pi-bridge/bluetooth-testing-app/capture.py:516-524 | Block k is the k-th fixed-size slice of the byte stream; only a partial last block is held back. |
| `Capture.FramedInPieces` | firmware/pi-bridge/bluetooth-testing-app/capture.py:516-524 | Framing piece by piece is framing the whole stream, for any chunking. |
| `Capture.StreamJoins` | firmware/pi-bridge/bluetooth-testing-app/capture.py:511-524 | The stream is the pieces read, put together, up to the first empty one. |
| `Capture.CaptureRing.Fold` | firmware/pi-bridge/bluetooth-testing-app/capture.py:527-537 | A block of an earlier generation is dropped; any other is kept, counted and handed to the tracker with its trust. |
| `Capture.CaptureRing.Pump` | firmware/pi-bridge/bluetooth-testing-app/capture.py:511-537 | For any chunking, while target and binding stay, the blocks kept are exactly the whole blocks of the stream, and the ring holds the most recent ones since the target changed. |
| `Capture.CaptureRing.SetTarget` | firmware/pi-bridge/bluetooth-testing-app/capture.py:338-352 | The same target changes nothing; another one empties the ring and starts a new generation, while the cursor goes on. |
| `Capture.CaptureRing.SetBinding` | firmware/pi-bridge/bluetooth-testing-app/capture.py:354-372 | A negative verdict within the grace time of a switch is no verdict. |
| `Capture.DistrustedAfterASwitch` | firmware/pi-bridge/bluetooth-testing-app/capture.py:366-371 | After a switch blocks are distrusted exactly while the latest verdict is negative and some verdict since was positive or came after the grace time. |
| `Capture.CaptureRing.Read` | firmware/pi-bridge/bluetooth-testing-app/capture.py:399-416 | The reply is the snapshot of the blocks kept so far. |
| `Capture.PollIsConsecutive` | firmware/pi-bridge/bluetooth-testing-app/capture.py:407-416 | A poll with the previous cursor gets the newest blocks in order, none twice; some are missing exactly when more than a ring-full arrived or the target changed in between, and the reply shows it. |
| `Capture.FirstPoll` | firmware/pi-bridge/bluetooth-testing-app/capture.py:399-416 | A client without a cursor gets every block since the target changed that the ring still holds; one with a cursor ahead of everything gets none. |
| `Capture.NothingTwice` | firmware/pi-bridge/bluetooth-testing-app/capture.py:399-416 | Over any run of blocks, target changes and polls the client's blocks are blocks of the log, in order and without repetition. |
| `Capture.NothingMissed` | firmware/pi-bridge/bluetooth-testing-app/capture.py:399-416 | Polled often enough on one target, it receives every block up to its last poll. |
| `CaptureThread.SafeUnlessItSlips` | firmware/pi-bridge/bluetooth-testing-app/capture.py:471-537 | Each step of the capture thread, of either half of a target change, a restart or a stop keeps a reader that may still fold on the current target, if and only if it is not a reader of the old target looking at the flags before the restart flag is up. |
| `CaptureThread.NoForeignAudio` | firmware/pi-bridge/bluetooth-testing-app/capture.py:338-352 | However they interleave and whatever slipped before: from any change of target on, as long as no reader slips after it, every block in the ring was read by a process spawned for the target it is shown under. |
| `CaptureThread.ChunkIsKept` | firmware/pi-bridge/bluetooth-testing-app/capture.py:511-537 | And nothing is lost: an undisturbed reader puts every whole block of what was left over and the chunk it reads into the ring, in order, under its own node. |
| `CaptureThread.ReaderStartsAgain` | firmware/pi-bridge/bluetooth-testing-app/capture.py:471-511 | Three steps lead from the top of the loop to an undisturbed reader of the target of that moment, with the restart flag down. |
| `CaptureThread.FlagStopsTheReader` | firmware/pi-bridge/bluetooth-testing-app/capture.py:511-516 | Once a flag is up the reader reads no more: the next time it looks, it goes. |
| `CaptureThread.DoneGoesBackToTheTop` | firmware/pi-bridge/bluetooth-testing-app/capture.py:488-537 | A reader that cannot be spawned, whose stream ends, or that holds a block of an earlier target goes back to the top, and nothing of it is kept. |
| `CaptureThread.EveryChangeIsOwedAFlag` | firmware/pi-bridge/bluetooth-testing-app/capture.py:338-352 | Over any run each change of target, and nothing else, starts one generation and is owed one restart flag. |
| `CaptureThread.SlipsOnlyInTheGap` | firmware/pi-bridge/bluetooth-testing-app/capture.py:338-352 | A reader can only slip between the locked part of a target change and its flag; once the flag is up it is turned away before it reads. |
| `CaptureThread.SlippedAudioIsShown` | firmware/pi-bridge/bluetooth-testing-app/capture.py:511-537 | A reader that slips can show its audio under the new target: one block is enough. |
| `CaptureThread.ReaderCanSlip` | firmware/pi-bridge/bluetooth-testing-app/capture.py:471-519 | A run that comes to that. |
| `Binding.RespawnsAfterUnbrokenStretch` | firmware/pi-bridge/bluetooth-testing-app/app.py:83-104 | The reader is replaced exactly at the end of an unbroken stretch of readable, unbound, target-present observations that spans the grace time. |
| `Binding.RespawnsAreApart` | firmware/pi-bridge/bluetooth-testing-app/app.py:83-104 | Two replacements are at least the grace time apart. |
| `Binding.DecidedFaithfully` | firmware/pi-bridge/bluetooth-testing-app/app.py:83-104 | The pure decision keeps the recorded stretch and its due respawns in step with the whole history. |
| `Binding.AdoptsOnlyTowardsPhones` | firmware/pi-bridge/bluetooth-testing-app/app.py:60-80 | Adoption moves only to the first A2DP source in the graph, never away from one that is there, never over a choice by hand, and does not stay on a fallback, unless the first source has no name. |
| `Binding.Watch.RefreshBinding` | firmware/pi-bridge/bluetooth-testing-app/app.py:387-422 | One look: adopt and judge later, or judge and record. The verdict is positive exactly if the target alone feeds the capture; the reader is replaced exactly if it is negative with the target in the graph and the stretch overdue. |
| `Binding.Watch.Pick` | firmware/pi-bridge/bluetooth-testing-app/app.py:261-268 | A choice by hand sets the target and the mode; the stretch so far is kept. |
| `Binding.PickedMidStretch` | firmware/pi-bridge/bluetooth-testing-app/app.py:261-268 | In any watch, the first look after a choice by hand respawns if and only if the chosen node is waiting and the stretch so far, whoever was the target, has lasted the grace time. |
| `Binding.GraceIsOwnUnlessPicked` | firmware/pi-bridge/bluetooth-testing-app/app.py:83-104 | Over any faithful log: a respawned node was itself the target throughout a grace time if and only if the target last changed that long ago. |
| `Binding.PickedNodeIsReplaced` | firmware/pi-bridge/bluetooth-testing-app/app.py:261-268 | A log in which a node picked a moment ago is respawned. |
| `LineFraming.LinesInPieces` | firmware/pi-ytmusic/receiver/mpv.js:210-213 | Splitting the stream piece by piece, holding back the rest, splits the whole stream. |
| `LineFraming.LinesKeepTheStream` | firmware/pi-ytmusic/receiver/mpv.js:210-213 | The lines and the rest put together are the stream, and no line contains a newline. |
| `Mpv.StepSettlesItsOwn` | firmware/pi-ytmusic/receiver/mpv.js:109-126 | One step changes no outcome already reported, and settles a command only by a reply to it, by its own timer, or by the exit of the player. |
| `Mpv.SettledOnce` | firmware/pi-ytmusic/receiver/mpv.js:201-276 | Over every interleaving of chunks, replies, timeouts, exits and respawns: ids are never reused, each command is in flight or settled, and no outcome ever changes. |
| `MpvDelivery.WaitsForItsOwn` | firmware/pi-ytmusic/receiver/mpv.js:201-276 | And each reason settles: a command in flight ends with the first line that answers it, with its error or its data, with its own timer, or with the exit of the player, and otherwise waits; no timer but that of an exit stays behind. |
| `MpvDelivery.StepTells` | firmware/pi-ytmusic/receiver/mpv.js:226-232 | A chunk tells the observers of exactly the lines it completes that change a property registered here, once each and in order, under the registered name; no other step tells them anything. |
| `MpvDelivery.NewsIsLineByLine` | firmware/pi-ytmusic/receiver/mpv.js:226-232 | What the row above calls news is one notice for each such line, in the order of the lines. |
| `MpvDelivery.RunTells` | firmware/pi-ytmusic/receiver/mpv.js:210-256 | Over any run, respawns included, the observers are told exactly that and nothing else. |
| `MpvDelivery.ClosedIsHeardNoMore` | firmware/pi-ytmusic/receiver/mpv.js:201-208 | Nothing a closed connection, or that of a player that died, still sends is read, and what it had begun to send is thrown away. |
| `MpvRespawn.StaysSingle` | firmware/pi-ytmusic/receiver/mpv.js:129-150 | One connection, with exactly its complete lines handled, stays one across a step if and only if the step does not connect while another connection is there. |
| `MpvRespawn.FramingIsExact` | firmware/pi-ytmusic/receiver/mpv.js:201-224 | As long as no connection is made while another is there: however the bytes are cut, exactly the complete lines of the one connection are handled, in order. |
| `MpvRespawn.CalmNeverOverlaps` | firmware/pi-ytmusic/receiver/mpv.js:109-126 | If the player never dies while a start waits for its socket, starts never overlap. |
| `MpvRespawn.AnsweredByItsOwnPlayer` | firmware/pi-ytmusic/receiver/mpv.js:210-256 | If no start is called while an earlier one waits, connections never double, and a reply settles only commands written to the connection it came over. |
| `MpvRespawn.OverlapForgesAReply` | firmware/pi-ytmusic/receiver/mpv.js:116-137 | Otherwise it can go wrong: a start that overlaps another can be continued, with no player dying and every connection carrying only replies to commands written to it, until a caller is told what no connection carried. |
| `MpvRespawn.EveryObservationIsReplayed` | firmware/pi-ytmusic/receiver/mpv.js:283-299 | In any run at all, a connected player has been asked for every observation under its own id, after any number of respawns. |
| `MpvRespawn.EveryStartEndsOnce` | firmware/pi-ytmusic/receiver/mpv.js:109-137 | Over any run the starts still waiting are those made less those that connected or gave up, and connections are numbered as they are made. |
| `MpvRespawn.ChangesReachTheirObserver` | firmware/pi-ytmusic/receiver/mpv.js:228-243 | In any run at all a property change goes to the observer registered under its id, and an id keeps its name for good. |
| `MpvRespawn.EarlyDeathTanglesTheStreams` | firmware/pi-ytmusic/receiver/mpv.js:116-137 | A run in which a player dies before its socket appears: two connections end up attached to one buffer, and a line is handled that neither carried. |
| `MpvClient.Client.OnData` | firmware/pi-ytmusic/receiver/mpv.js:210-256 | The chunk loop takes the client to the machine's next state and tells the observers exactly what the completed lines say. |
| `MpvClient.Client.Command` | firmware/pi-ytmusic/receiver/mpv.js:258-273 | Refused, with nothing written, without a socket; otherwise written to it under a new id, pending and timed. |
| `MpvClient.Client.OnTimeout` | firmware/pi-ytmusic/receiver/mpv.js:264-268 | A timer, stale or not, takes the client to the machine's next state. |
| `MpvClient.Client.OnExit` | firmware/pi-ytmusic/receiver/mpv.js:109-117 | The socket is torn down and everything in flight rejected; timers keep running. |
| `MpvClient.Client.OnConnected` | firmware/pi-ytmusic/receiver/mpv.js:293-299 | Every observation is asked for again, in order. |
| `MpvClient.Client.ObserveProperty` | firmware/pi-ytmusic/receiver/mpv.js:283-291 | A new id for good; asked for at once if a player is there. |
| `Jsc.PlayerWorker.RememberPlayer` | firmware/pi-ytmusic/receiver/jsc_worker.js:133-139 | The youngest players stay, at most four of them. |
| `Jsc.PlayerWorker.SolveMessage` | firmware/pi-ytmusic/receiver/jsc_worker.js:141-213 | One message, one reply: rebuilt, through the entry point, from the player, or a request for code, as the value model the rows below are about says. |
| `Jsc.Daemon.SolveRequests` | firmware/pi-ytmusic/receiver/jsc_resident.py:148-179 | At most two exchanges; what is returned, cached and stored is what the value model says. |
| `Jsc.CachedAgreesWithUncached` | firmware/pi-ytmusic/receiver/jsc_resident.py:148-179 | In every sound state the answer is exactly the uncached one, unless the player is stuck or its code was needed and could not be fetched; the state stays sound. |
| `Jsc.RebuiltAnswers` | firmware/pi-ytmusic/receiver/jsc_worker.js:100-131 | Under the law of the core - the n solver answers n challenges, the sig solver sig challenges, and a throw on any fails the request - solving from rebuilt solvers is solving from the player. |
| `Jsc.EachKindHasItsSolver` | firmware/pi-ytmusic/receiver/jsc_worker.js:116-131 | Under a lawful core whose two solvers differ, a held player answers either kind by its own solver. |
| `Jsc.CachedNeedsNoCode` | firmware/pi-ytmusic/receiver/jsc_resident.py:148-179 | What memory or disk holds is answered without the player's code: the outcome is the same whatever a download would bring. |
| `Jsc.ResultsMatchRequests` | firmware/pi-ytmusic/receiver/jsc_resident.py:148-179 | Whatever the core does, a call that succeeds has one answer for each request. |
| `Jsc.OnlyUnbuildableIsMarked` | firmware/pi-ytmusic/receiver/jsc_worker.js:155-180 | Over any run, only a player whose solvers cannot be built is ever given up on, so only such a one can be stuck. |
| `Jsc.ReachableIsSound` | firmware/pi-ytmusic/receiver/jsc_worker.js:133-213 | After any run of solves and worker restarts memory holds at most four players and everything cached was made of the player it is filed under. |
| `Jsc.StuckIsReachable` | firmware/pi-ytmusic/receiver/jsc_worker.js:133-190 | The exception is real: a lawful core and a run after which a player only fails, because it is marked for the entry point and its source was evicted. |
| `Jsc.StuckStays` | firmware/pi-ytmusic/receiver/jsc_worker.js:133-190 | From then on, until the worker is restarted, the player stays stuck and every call for it fails. |
| `Jsc.TakeLines` | firmware/pi-ytmusic/receiver/jsc_worker.js:244-257 | The worker takes exactly the complete lines off its input, in order. |
| `Jsc.ReadLine` | firmware/pi-ytmusic/receiver/jsc_resident.py:140-146 | The daemon reads up to the first newline and keeps what follows it. |
| `JscBulk.BulkSolve` | firmware/pi-ytmusic/receiver/jsc_resident.py:279-297 | Grouped by player in order of first mention, each group answered as a whole. |
| `JscBulk.SolveGroup` | firmware/pi-ytmusic/receiver/jsc_resident.py:299-332 | Answers are handed out one by one; a reply that chokes half-way turns into the group's errors. |
| `JscBulk.AnsweredExactlyOnce` | firmware/pi-ytmusic/receiver/jsc_resident.py:279-332 | Every request is answered exactly once if and only if no group's reply has a well-formed entry before a malformed one. |
| `JscBulk.AnswersArePaired` | firmware/pi-ytmusic/receiver/jsc_resident.py:318-332 | The k-th request of a player is answered with the k-th entry of its reply. |
| `JscBulk.MisfitsAreErrors` | firmware/pi-ytmusic/receiver/jsc_resident.py:279-332 | A player whose solve failed, or whose reply does not have one entry for each request, has all its requests answered with an error and none with an output. |
| `JscBulk.TwiceIfNot` | firmware/pi-ytmusic/receiver/jsc_resident.py:288-297 | Otherwise the group's first request is answered twice. |
| `ResolverRun.Verify` | firmware/pi-ytmusic/receiver/resolver.js:354-377 | A refusal is final, anything else is asked once more, 200 and 206 pass. |
| `ResolverRun.Walk` | firmware/pi-ytmusic/receiver/resolver.js:405-463 | The two passes come to the first attempt that resolves and verifies, in ladder order. |
| `ResolverRun.StopsAtTheFirst` | firmware/pi-ytmusic/receiver/resolver.js:405-463 | It stops at the first attempt that works, having made exactly those before it; with none it makes them all, and the primary one again after a restart. |
| `ResolverRun.DaemonIsAShortcut` | firmware/pi-ytmusic/receiver/resolver.js:512-532 | With a daemon that answers what a fresh process would, an attempt resolves to just that, whether the daemon runs, cannot be used or is not there; its refusal is believed. |
| `ResolverRun.ResolveIsExhaustive` | firmware/pi-ytmusic/receiver/resolver.js:405-463 | A resolve fails only if every attempt failed; it makes each attempt at most once, the primary once more, and restarts the daemon at most once. |
| `ResolverRun.RestartsBeforeTheWholeLadder` | firmware/pi-ytmusic/receiver/resolver.js:440-458 | The daemon is restarted before the whole ladder was rejected if and only if it runs, nothing played, one attempt was rejected and another resolved nothing. |
| `ResolverRun.OneRejectionRestarts` | firmware/pi-ytmusic/receiver/resolver.js:440-458 | Such a ladder: one rejected URL, and a rest that resolved nothing. |
| `Resolver.StepKeepsValid` | firmware/pi-ytmusic/receiver/resolver.js:182-252 | Every lookup, invalidation, start and end of a resolve keeps the cache verified and bounded, and no id both cached and in flight. |
| `Resolver.EveryUrlIsVerified` | firmware/pi-ytmusic/receiver/resolver.js:182-252 | Over every interleaving a URL handed out from the cache has passed verification. |
| `Resolver.NeverHandedOutStale` | firmware/pi-ytmusic/receiver/resolver.js:182-193 | Over every run a URL is handed out only while more than the margin of its own lifetime is left. |
| `Resolver.RunResultIsVerified` | firmware/pi-ytmusic/receiver/resolver.js:405-500 | What a resolve returns passed verification in that resolve. |
| `Resolver.FirstThatPlaysWins` | firmware/pi-ytmusic/receiver/resolver.js:405-500 | A resolve finds nothing if and only if neither the fast path, if due, nor anything on the ladder, nor the primary client after a restart plays; otherwise it answers what the first of these that plays does, and says whether that was the fast path. |
| `Resolver.ResolvedIsHandedOut` | firmware/pi-ytmusic/receiver/resolver.js:182-249 | A track resolved ahead is handed out to whoever asks before one margin is left of its lifetime, over any run in which it is not handed back and fewer than eight other tracks are stored. |
| `Resolver.NextResolveAvoidsTheFastPath` | firmware/pi-ytmusic/receiver/resolver.js:196-204 | Handing back a fast URL keeps the fast path out of every resolve of that video for half an hour, over any run in which fewer than eight other fast URLs are handed back. |
| `Resolver.OtherResolvesTryTheFastPath` | firmware/pi-ytmusic/receiver/resolver.js:474-484 | And only that: in any run, a resolve of a video not handed back within the last half hour tries the fast path. |
| `ResolverObject.Resolving.PeekUrl` | firmware/pi-ytmusic/receiver/resolver.js:182-193 | A URL still valid, verified; an expired one is dropped. |
| `ResolverObject.Resolving.InvalidateUrl` | firmware/pi-ytmusic/receiver/resolver.js:196-204 | The entry goes; a fast one is remembered as refused, within the bound. |
| `ResolverObject.Resolving.BeginResolve` | firmware/pi-ytmusic/receiver/resolver.js:474-484 | Whether the fast path is tried, and what is forgotten when it is. |
| `ResolverObject.Resolving.LandResolve` | firmware/pi-ytmusic/receiver/resolver.js:405-500 | Fast path, ladder, store: nothing is found if and only if nothing plays, and otherwise the first answer that plays is returned, kept and marked with its way. |
| `ResolverObject.Resolving.StoreUrl` | firmware/pi-ytmusic/receiver/resolver.js:595-603 | The URL is kept with its lifetime, and the oldest entries make room. |
| `PlayRetry.Player.Play` | firmware/pi-ytmusic/receiver/player.js:225-348 | One request with its retry, over the resolver and the song's place in the cache, with a copy that may arrive at any time. |
| `PlayRetry.RetryTakesAnotherRoute` | firmware/pi-ytmusic/receiver/player.js:225-348 | At most two loads; the request succeeds exactly if the last opens; a file is followed by a stream or mpv, a stream by its copy or by what a new resolve answers, a fast URL by one that is not while its refusal lasts; the second URL is the failed one if and only if no copy is there and the new resolve answers the same, and the second route if and only if it also came by it the same way. |
| `PlayRetry.SecondUrlIsFresh` | firmware/pi-ytmusic/receiver/player.js:323-348 | The URL of a second stream was resolved and verified after the first was dropped. |
| `PlayRetry.StreamedIsFetched` | firmware/pi-ytmusic/receiver/player.js:225-348 | After a request that streamed, or found a download under way, the song is on disk or still being fetched, unless a file of it did not play. |
| `PlayRetry.BrokenUrlIsRepeated` | firmware/pi-ytmusic/receiver/player.js:323-348 | A request in which both loads are the same URL, with a fast path and without. |
| `PlayRetry.RefusedRetryCostsTheNext` | firmware/pi-ytmusic/receiver/player.js:297-312 | The next request for the same video goes without its retry if and only if this one was retried and the command of the retry was refused. |
| `LocalQueue.LocalQueue.Append` | firmware/pi-ytmusic/receiver/localqueue.js:93-102 | The list only grows at its end by the tracks it does not have, up to its cap; what plays stays. |
| `LocalQueue.ExtendedIsDistinct` | firmware/pi-ytmusic/receiver/localqueue.js:93-102 | No track twice, if none was before. |
| `LocalQueue.ExtendedKeepsPageOrder` | firmware/pi-ytmusic/receiver/localqueue.js:93-102 | What is added comes from the page, in the page's order. |
| `LocalQueue.ExtendedIsComplete` | firmware/pi-ytmusic/receiver/localqueue.js:93-102 | Every track of the page is in the list, unless it is full. |
| `LocalQueue.PlayableInPlace` | firmware/pi-ytmusic/receiver/localqueue.js:112-128 | Of a page adopted, exactly the tracks with an id stay, in their places. |
| `LocalQueue.LocalQueue.Adopt` | firmware/pi-ytmusic/receiver/localqueue.js:112-128 | The playing track stays current, at its first place in the page, whose tracks become the list, or in front of them if the page does not have it. |
| `LocalQueue.LocalQueue.Advance` | firmware/pi-ytmusic/receiver/localqueue.js:65-71 | The next track, or none at the end, where the index stays. |
| `LocalQueue.LocalQueue.Back` | firmware/pi-ytmusic/receiver/localqueue.js:74-80 | The previous track, or none at the start. |
| `LocalQueue.LocalQueue.Jump` | firmware/pi-ytmusic/receiver/localqueue.js:83-89 | Any track in range. |
| `LocalQueue.LocalQueue.Refill` | firmware/pi-ytmusic/receiver/player.js:595-610 | One fetch when the end is near; one that fails loses the way to the rest. |
| `LocalQueue.LocalQueue.Next` | firmware/pi-ytmusic/receiver/player.js:650-661 | Refill if due, then move on. |
| `LocalQueue.PlaysAContiguousPiece` | firmware/pi-ytmusic/receiver/localqueue.js:59-102 | Whatever is fetched when, and whichever fetch fails, what is played is a contiguous piece of the first page followed by what the later pages add: nothing skipped, and nothing twice if the first page has nothing twice. |
| `LocalQueue.WholeIsDistinct` | firmware/pi-ytmusic/receiver/localqueue.js:93-102 | The whole list has no track twice if and only if the first page has none. |
| `LocalQueue.EndsEarly` | firmware/pi-ytmusic/receiver/player.js:650-661 | A step ends the list before all of it was played if and only if the last track is playing and nothing comes in: the token is lost, the fetch fails, or the page has only tracks already there. |
| `LocalQueue.EndedIsWholeUnlessStarved` | firmware/pi-ytmusic/receiver/player.js:595-661 | Over any run, a list that has ended was played in full if and only if no step was of that kind. |
| `LocalQueue.PlaysTheWholeList` | firmware/pi-ytmusic/receiver/player.js:595-661 | If every page brings something new and fetches succeed, pressing next over and over plays exactly the whole list and then ends. |
| `LocalQueue.EachNextPlaysOneMore` | firmware/pi-ytmusic/receiver/player.js:650-661 | Each next plays one track more until the list ends, whatever comes of the fetches. |
| `LocalQueue.ListEnds` | firmware/pi-ytmusic/receiver/player.js:650-661 | So the list ends. |
| `LocalQueue.RepeatedPageEndsTheList` | firmware/pi-ytmusic/receiver/player.js:650-661 | A page of repeats at the very end does end the list early. |
| `PlayLimit.OneMore` | firmware/pi-ytmusic/receiver/playlimit.js:93-112 | What one more sample or reset does to the played time, from the figures the counter keeps. |
| `PlayLimit.Counter.TakeSample` | firmware/pi-ytmusic/receiver/playlimit.js:93-105 | The counter equals the sum of capped gaps between consecutive playing samples since the last reset or break. |
| `PlayLimit.Counter.StartOver` | firmware/pi-ytmusic/receiver/playlimit.js:108-112 | The count starts from here, and the gap across it does not count. |
| `PlayLimit.Counter.SetMaxMinutes` | firmware/pi-ytmusic/receiver/playlimit.js:80-90 | A value out of range is refused and changes nothing. |
| `PlayLimit.Counter.SampleLimit` | firmware/pi-ytmusic/receiver/player.js:175-182 | A stop exactly when playing and past limit and grace; then the count starts again. |
| `PlayLimit.Counter.SongEnded` | firmware/pi-ytmusic/receiver/player.js:153-173 | At the end of a song the queue stops exactly when the limit is used up; then the count starts again. |
| `PlayLimit.PlayedWithinWallTime` | firmware/pi-ytmusic/receiver/playlimit.js:93-105 | On a forward clock played time never exceeds the wall time since the count began. |
| `PlayLimit.AutoStopBound` | firmware/pi-ytmusic/receiver/player.js:170-198 | A stretch every sample sees as playing is stopped within limit, grace and twice the sampling distance. |
| `Recency.TakeToFront` | firmware/pi-ytmusic/receiver/catalogue.js:61-71 | Forgetting the oldest entries early changes nothing among the newest. |
| `Recency.NewestIsDistinct` | firmware/pi-ytmusic/receiver/catalogue.js:61-71 | A recency list has every entry of its log once. |
| `Recency.NewestIsByLastMention` | firmware/pi-ytmusic/receiver/catalogue.js:61-71 | And in order: what was mentioned later comes first. |
| `Catalogue.Catalogue.Remember` | firmware/pi-ytmusic/receiver/catalogue.js:61-71 | The cache is the last 500 ids by last mention, each with its latest value. |
| `Catalogue.NamedInPlace` | firmware/pi-ytmusic/receiver/catalogue.js:61-71 | Exactly the tracks with an id are mentions, in their places. |
| `Catalogue.LatestIsOfTheLastMention` | firmware/pi-ytmusic/receiver/catalogue.js:61-71 | The value kept is that of the last mention. |
| `Catalogue.Catalogue.BeginHydrate` | firmware/pi-ytmusic/receiver/catalogue.js:77-84 | A batch asks for the first 50 of what is missing, in order of mention: nothing known, nothing on its way, nothing twice; batches in flight are disjoint. |
| `Catalogue.WantedInOrder` | firmware/pi-ytmusic/receiver/catalogue.js:77-84 | What is missing is listed in the order it was first mentioned. |
| `Catalogue.Catalogue.EndHydrate` | firmware/pi-ytmusic/receiver/catalogue.js:85-97 | A batch that ends releases exactly its own ids. |
| `History.PlayHistory.Record` | firmware/pi-ytmusic/receiver/history.js:78-94 | The list is the 25 most recent distinct replayable ids, newest first, with the time of the last play; given fields win, absent ones keep what was known, and the other entries stay as they are. |
| `History.Merged` | firmware/pi-ytmusic/receiver/history.js:78-94 | Field by field: what is given wins, what is absent keeps what was known, and the kind is read off the id if nobody ever said. |
| `History.KnownMeans` | firmware/pi-ytmusic/receiver/history.js:78-94 | What was known of a list are the facts of its entry. |
| `History.OthersInPlace` | firmware/pi-ytmusic/receiver/history.js:78-94 | The other entries all stay, in their order. |
| `History.LastPlayIsOfTheLastMention` | firmware/pi-ytmusic/receiver/history.js:78-94 | The time of an entry is that of the last play of its list. |
| `History.PlayHistory.Describe` | firmware/pi-ytmusic/receiver/history.js:97-105 | Only the named entry's title and picture change. |
| `History.Described` | firmware/pi-ytmusic/receiver/history.js:97-105 | A title or picture that is given replaces the one there; everything else stays. |
| `History.PlayHistory.List` | firmware/pi-ytmusic/receiver/history.js:108-110 | The newest n of everything ever recorded. |
| `CookieJar.ParseJar` | firmware/pi-ytmusic/receiver/cookie_jar.py:57-73 | The seven-column rows of the lines that are neither blank nor comments, http-only ones included. |
| `CookieReading.LineIsRead` | firmware/pi-ytmusic/receiver/cookie_jar.py:57-73 | A line is read as a row if and only if it has seven columns, some character that is no space, and no hash at its start but that of the http-only prefix; either kind of line end will do. |
| `CookieReading.FirstLineThenTheRest` | firmware/pi-ytmusic/receiver/cookie_jar.py:57-73 | A text is its first line, one line end, and the lines of the rest; a carriage return and a newline are one line end. |
| `CookieReading.HttpOnlyIsRead` | firmware/pi-ytmusic/receiver/cookie_jar.py:57-73 | Every seven-column line that starts with that prefix is read as a row. |
| `CookieReading.SplitAtTabs` | firmware/pi-ytmusic/receiver/cookie_jar.py:57-73 | Columns hold no tab, are one more than the tabs, and joined again are the line. |
| `CookieReading.SplitOfJoin` | firmware/pi-ytmusic/receiver/cookie_jar.py:57-87 | Columns without tabs come back from the line they are printed as. |
| `CookieReading.SpacesByCode` | firmware/pi-ytmusic/receiver/cookie_jar.py:57-73 | The characters that count as line ends and as blank, by code points. |
| `CookieJar.PrintedParsesBack` | firmware/pi-ytmusic/receiver/cookie_jar.py:57-87 | For every text, parsing the printed parse gives the parse, if and only if the header itself reads as no rows. |
| `CookieJar.UnbrokenNameIsSafe` | firmware/pi-ytmusic/receiver/cookie_jar.py:76-87 | It does for every installer name without a line break, under any wording whose lines are comments. |
| `CookieJar.WordingIsCommented` | firmware/pi-ytmusic/receiver/cookie_jar.py:82-86 | The wording in use is of that kind. |
| `CookieJar.RoundTrip` | firmware/pi-ytmusic/receiver/cookie_jar.py:57-87 | So every text survives the round trip. |
| `CookieJar.BrokenNameAddsItsRow` | firmware/pi-ytmusic/receiver/cookie_jar.py:76-87 | A name that goes on after a line break adds the row its second line reads as. |
| `CookieJar.BrokenNameExists` | firmware/pi-ytmusic/receiver/cookie_jar.py:76-87 | Such a line exists. |
| `CookieJar.FilteredRoundTrip` | firmware/pi-ytmusic/receiver/cookie_jar.py:90-95 | Filtering commutes with printing and parsing. |
| `CookieReading.KeptMeans` | firmware/pi-ytmusic/receiver/cookie_jar.py:90-95 | Kept are exactly the rows whose domain ends in one of the two sites' names, http-only or not. |
| `CookieJar.VerdictMeaning` | firmware/pi-ytmusic/receiver/cookie_jar.py:130-182 | The jar is good exactly if it holds a cookie of both halves of the login; each refusal says exactly which half is missing, that there is no login, or that only cookies of an anonymous visit are there. |
| `CookieReading.GoodByItsLines` | firmware/pi-ytmusic/receiver/cookie_jar.py:130-234 | A text is judged good if and only if one of its lines is a cookie of each half of the login, of one of the two sites. |
| `CookieReading.AnonymousByItsNames` | firmware/pi-ytmusic/receiver/cookie_jar.py:130-182 | It is judged anonymous if and only if it has cookies of the sites and all go by names that a visit without a login leaves behind. |
| `CookieReading.HttpOnlyLoginIsGood` | firmware/pi-ytmusic/receiver/cookie_jar.py:57-182 | So a jar whose two login halves are http-only is a good one. |
| `CookieReading.ReportsTheEarliest` | firmware/pi-ytmusic/receiver/cookie_jar.py:161-182 | The expiry reported is the earliest among the login cookies of a good jar, session cookies left aside; count, login and rotating cookies are those of the rows. |
| `CookieJar.StoredVerdict` | firmware/pi-ytmusic/receiver/cookie_jar.py:227-234 | The verdict on the jar as stored is the verdict on the text handed in. |

## Left out

- RMS values, sample-rate handling, display names, logging, expiry texts and the sorted list of cookie names: they decide nothing.
- HTTP servers and clients, subprocesses, D-Bus, systemd and the setup scripts: only the contracts the components rely on are modelled.
- File-system errors other than a file that vanished or a failed publication, and the persistence of history and limit.
- Satellite areas and registry lookups: the area of an output is a function; targets are a set, so their sorted order is not modelled.
- The announcement overlays of the mixer and its sample mixing.
- Real threads: each locked section is one step; the kill of the old reader that follows a target change is left out. What the capture hands to the tracker is recorded block by block in `Capture.CaptureRing`, and `Silence.SilenceTracker.Update` is proved for every such sequence; that a new tracker may see one stale block is not modelled.
- Handlers that call back into the mpv client while a line is being handled; a line holding only the literal null, at which the original throws; the socket-path lock.
- A superseded local start: `#playLocalCurrentOrThrow` does not look at its generation again after a refill, so nothing is claimed there. Play requests are modelled one after the other, a refill as one step.
- VoiceDuckRestart.ThreatIsExact: with requests that take half a lease or longer, a threatened hold need not be able to outlive the bound, since its lease may end before the late renewal comes.
- VoiceDuck.Reloaded: a new ducker starts with no coroutines; one of the old ducker's that outlives a reload, acting on the old map, is not modelled.
- SongCache.Songs.Lookup: does not model the file's modification time, which the original also touches.
- RangedDownload.Fetch: a length in the URL that is not a whole number, because the original then compares fractions.
- History.PlayHistory.constructor: starts empty; entries loaded from disk, which may hold an id twice, are not modelled.
- CookieJar.Analyse: the epoch in an expiry column is read by a function parameter; only the earliest durable expiry is modelled.
- Jsc.Lawful: error texts are left aside, an error is an error.
- `LocalQueue.window`, `SilenceTracker.stalled`, `duty` and `coverage`, and the argument lists of the resolver's attempts: easy members.
