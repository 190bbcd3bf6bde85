# AVTransport renderer state, time formatter and player-screen lifecycle

This project models the logic core of a DLNA media renderer in Dafny:

- **The AVTransport service (`MediaRendererService`).** It holds the protocol-visible state variables: `currentURI`, `currentURIMetaData`, `speed`, `currentTransportState` and four `HH:MM:SS` time strings. Its actions `SetAVTransportURI`, `Play`, `Pause`, `Stop`, `GetTransportInfo` and `GetMediaInfo` set or read those variables. A periodic tick (`updatePlaybackStatus`) reconciles them with a snapshot of the playback engine. The transport states are the strings `STOPPED`, `PLAYING` and `PAUSED_PLAYBACK` from the TransportState variable of the UPnP AVTransport:1 service template (section 2.2).
- **`formatTime`.** It turns milliseconds into the zero-padded H+:MM:SS form that AVTransport uses for its duration and time variables. Kotlin's truncating `/` and `%` and Java's `%02d` conversion are modelled explicitly, so the formatter is defined for every integer.
- **The player screen's lifecycle flags (`VideoPlayerActivity`).** These are the start-once guard (`isVideoInitialized`), the background pause/resume flag (`wasPlayingBeforeBackground`), the play/pause toggle and the progress display, which is refreshed only when the duration is known.

## Files

- `options.dfy`: the `Option` type.
- `time_format.dfy`: `formatTime` and a parser for the H+:MM:SS form. It also has the properties that relate the two: field recomposition and bounds, shape and length, round trip, the sub-second default, and the behaviour for negative positions.
- `playback.dfy`: the engine's `PlaybackState` enum and a status `Snapshot`. It also has an abstract `MediaPlayerManager` object that logs every command it receives.
- `renderer.dfy`: the state variables as a value (`Variables`) and the effect of each action (`Apply`, `Run`). It holds lemmas over arbitrary action sequences, and the `MediaRendererService` class, whose fields are updated in place by methods proved against `Apply`.
- `player_activity.dfy`: the `VideoPlayerActivity` class. It holds a nullable player and the two flags. Its object invariant says the player was asked to load and play the screen's URI exactly once once the video is initialized, and never before.

## Where the code differs from what a renderer might be expected to do (the model follows the code)

- **Play with no URI.** A renderer might be expected to stay STOPPED while no URI is set. The code does not: `play` sets `PLAYING` unconditionally, even with an empty URI. `Renderer.PlayWithoutURI` shows this from the defaults.
- **Launches on repeated Play.** A renderer might be expected to start the player at most once per new URI. The service has no such guard: every `play` with a non-empty URI and a live context posts a start of the player screen again (`Renderer.SetURIThenPlay`). The only once-only guard is per screen instance (`isVideoInitialized`), and it is modelled in `PlayerActivity`.
- **InstanceID.** The code never validates `InstanceID`. The actions take it and ignore it, and there is no invalid-instance fault.
- **No change log.** The code has no coalescing change log of its own. `lastChange` is only the text of a library object, so it is not modelled.
- **The tick never runs.** As written, the companion's `serviceInstance` reference is never assigned, and `startStatueUpdateTimer` is never called. `setMediaPlayerManager` has no caller either. So the tick would already return at its first guard (the engine reference is never set), and it never actually runs. The model makes the service and the snapshot explicit parameters of one tick and states what a tick does when both are present.
- **No-ops without a player.** With no player (after `onDestroy`), `onPause`, `togglePlayPause` and `updateProgress` change nothing. But `onResume` still clears `wasPlayingBeforeBackground`, and `surfaceCreated` still sets `isVideoInitialized`. Both contracts say so.

## Model

| member | source | states |
|---|---|---|
| `TimeFormat.Quot` | MediaPlayer/src/main/java/com/max/mediaplayer/Utils.kt:9-11 | Kotlin `/`: the quotient of a positive divisor rounded toward zero: for `a >= 0`, `q*b <= a < q*b + b`; for `a < 0`, `q*b - b < a <= q*b` |
| `TimeFormat.Rem` | MediaPlayer/src/main/java/com/max/mediaplayer/Utils.kt:11-12 | Kotlin `%`: `a == Quot(a, b) * b + r`, with `r` in `[0, b)` for non-negative `a` and in `(-b, 0]` for negative `a` |
| `TimeFormat.Fields` | MediaPlayer/src/main/java/com/max/mediaplayer/Utils.kt:9-12 | `hours*3600 + minutes*60 + seconds` equals `position / 1000` (truncated) for every input; for `position >= 0`, `hours >= 0` and minutes and seconds are in `[0, 60)`; for negative positions every field is in `(-60, 0]` (hours `<= 0`) |
| `TimeFormat.Pad2` | MediaPlayer/src/main/java/com/max/mediaplayer/Utils.kt:13 | Java `%02d`: a non-negative field gives at least two ASCII digits that read back as the field, exactly two below 100; a field of 10 or more has no leading zero; a negative field gives `-` followed by the decimal digits of its magnitude, at least two characters |
| `TimeFormat.FormatTime` | MediaPlayer/src/main/java/com/max/mediaplayer/Utils.kt:8-14 | for `position >= 0`: digits with a colon before each of the last two pairs, at least 8 characters; exactly 8 characters when `position < 360000000` (under 100 hours) |
| `TimeFormat.FormatTimeRoundTrip` | MediaPlayer/src/main/java/com/max/mediaplayer/Utils.kt:9-13 | parsing the three fields of `formatTime(p)` and recombining gives `p / 1000` for every `p >= 0` |
| `TimeFormat.FormatTimeSameSecond` | MediaPlayer/src/main/java/com/max/mediaplayer/Utils.kt:9-13 | two non-negative positions format to the same string if and only if they fall in the same whole second |
| `TimeFormat.FormatTimeBelowOneSecond` | MediaPlayer/src/main/java/com/max/mediaplayer/Utils.kt:9-13 | every position strictly between -1000 and 1000 formats to `"00:00:00"`, the time variables' default (this includes -1) |
| `TimeFormat.FormatTimeWidth` | MediaPlayer/src/main/java/com/max/mediaplayer/Utils.kt:8-13 | every non-negative 32-bit position formats to 8 or 9 characters (hours stay below 1000) |
| `TimeFormat.NegativePositionUnreadable` | MediaPlayer/src/main/java/com/max/mediaplayer/Utils.kt:9-13 | a position of -1000 or less prints a negative field (such as `00:00:-5`), which is not of the H+:MM:SS form |
| `TimeFormat.ReadDecimalOfDecimal` | MediaPlayer/src/main/java/com/max/mediaplayer/Utils.kt:13 | reading back the decimal digits printed for `n` gives `n` |
| `TimeFormat.DecimalLength` | MediaPlayer/src/main/java/com/max/mediaplayer/Utils.kt:13 | a number below 10^k prints in at most k digits |
| `Playback.Launches` | app/src/main/java/com/max/dlna/VideoPlayerActivity.kt:243 | the URIs passed to `setMediaURIAndPlay`, in order: every URI in it was the argument of a logged `setMediaURIAndPlay`, and it is empty if no such command was issued |
| `Playback.LaunchesAppend` | app/src/main/java/com/max/dlna/VideoPlayerActivity.kt:243 | issuing a command adds a launch if and only if it is `setMediaURIAndPlay` |
| `Playback.MediaPlayerManager.constructor` | MediaPlayer/src/main/java/com/max/mediaplayer/MediaPlayerManager.kt:78-91 | position and duration read -1 (what the stubs return) and the command log is empty; the initial STOPPED state is assumed (see Left out) |
| `Playback.MediaPlayerManager.Play` | MediaPlayer/src/main/java/com/max/mediaplayer/MediaPlayerManager.kt:40-42 | the player is PLAYING and the command is logged; position and duration are unchanged |
| `Playback.MediaPlayerManager.Pause` | MediaPlayer/src/main/java/com/max/mediaplayer/MediaPlayerManager.kt:47-49 | the player is PAUSED and the command is logged; position and duration are unchanged |
| `Playback.MediaPlayerManager.SetMediaURIAndPlay` | MediaPlayer/src/main/java/com/max/mediaplayer/MediaPlayerManager.kt:33-35 | the player is PLAYING and the command, with its URI, is logged |
| `Playback.MediaPlayerManager.SetSurface` | app/src/main/java/com/max/dlna/VideoPlayerActivity.kt:239 | the command is logged; state, position and duration are unchanged |
| `Playback.MediaPlayerManager.Release` | MediaPlayer/src/main/java/com/max/mediaplayer/MediaPlayerManager.kt:61-63 | the command is logged; nothing else changes |
| `Playback.MediaPlayerManager.Report` | MediaPlayer/src/main/java/com/max/mediaplayer/MediaPlayerManager.kt:20-27 | the engine's own progress: it sets state, position and duration, and logs no command |
| `Renderer.TransportStateOf` | app/src/main/java/com/max/dlna/MediaRendererService.kt:197-221 | the engine-to-protocol table: it always yields a TransportState value; `PLAYING` if and only if the engine is PLAYING; `PAUSED_PLAYBACK` if and only if it is PAUSED; `STOPPED` if and only if it is STOPPED or ERROR |
| `Renderer.Reconcile` | app/src/main/java/com/max/dlna/MediaRendererService.kt:191-240 | one tick with the engine present: the state is the engine table's value; URI, metadata and speed are kept; the time variables become the snapshot's formatted duration (twice) and position (twice) when `duration > 0`, and are kept otherwise |
| `Renderer.Apply` | app/src/main/java/com/max/dlna/MediaRendererService.kt:68-240 | the effect of one action or tick: it keeps the variables consistent; SetURI forces STOPPED; only SetURI changes URI and metadata (together); only Play changes the speed; only a tick with `duration > 0` changes the time variables |
| `Renderer.LaunchRequest` | app/src/main/java/com/max/dlna/MediaRendererService.kt:94-101 | a launch is posted if and only if the current URI is non-empty and a live context is registered, and it carries that URI |
| `Renderer.RunKeepsConsistent` | app/src/main/java/com/max/dlna/MediaRendererService.kt:56-121 | after any sequence of actions and ticks, the transport state is still one of `STOPPED`, `PLAYING`, `PAUSED_PLAYBACK`; track and media duration are equal; absolute and relative time are equal |
| `Renderer.RunTimesFollowLastTimedSample` | app/src/main/java/com/max/dlna/MediaRendererService.kt:231-240 | after any sequence, the four time variables show the most recent snapshot with `duration > 0` (duration twice, position twice); with no such snapshot they keep their previous values, so they are never reset |
| `Renderer.TimesFromDefaults` | app/src/main/java/com/max/dlna/MediaRendererService.kt:48-63 | from the defaults, the durations are `formatTime` of the last known duration, or of 0 if none is known; `"00:00:00"` is `formatTime(0)` |
| `Renderer.RunSourceFollowsLastSetURI` | app/src/main/java/com/max/dlna/MediaRendererService.kt:75-76 | URI and metadata always come from the same (last) `SetAVTransportURI`; no other action touches them |
| `Renderer.RunSpeedFollowsLastPlay` | app/src/main/java/com/max/dlna/MediaRendererService.kt:92 | the speed is the argument of the last `Play`, or the initial `"1"`; no other action touches it |
| `Renderer.PlayWithoutURI` | app/src/main/java/com/max/dlna/MediaRendererService.kt:90-101 | from the defaults, a lone `Play` leaves the URI empty and the state `PLAYING`, and posts no launch |
| `Renderer.SetURIThenPlay` | app/src/main/java/com/max/dlna/MediaRendererService.kt:75-101 | `SetAVTransportURI(u, m)` then `Play(s)` gives `PLAYING` with `u`, `m` and `s`; the launch carries `u` exactly when `u` is non-empty and the context is live; a second `Play` changes nothing and posts the same launch again |
| `Renderer.MediaRendererService.constructor` | app/src/main/java/com/max/dlna/MediaRendererService.kt:36-63 | every variable starts at its declared default: speed `"1"`, empty URI and metadata, `STOPPED`, times `"00:00:00"` |
| `Renderer.MediaRendererService.SetAVTransportURI` | app/src/main/java/com/max/dlna/MediaRendererService.kt:68-78 | URI and metadata are stored together and the state is forced to `STOPPED` from any prior state; speed and the four times are unchanged |
| `Renderer.MediaRendererService.Play` | app/src/main/java/com/max/dlna/MediaRendererService.kt:83-106 | the state becomes `PLAYING` and the speed becomes the argument, unconditionally; URI, metadata and times are unchanged; the returned launch is the current URI exactly when it is non-empty and the context is live |
| `Renderer.MediaRendererService.Pause` | app/src/main/java/com/max/dlna/MediaRendererService.kt:108-114 | the state becomes `PAUSED_PLAYBACK` from any state; nothing else changes |
| `Renderer.MediaRendererService.Stop` | app/src/main/java/com/max/dlna/MediaRendererService.kt:116-121 | the state becomes `STOPPED` from any state; the URI is kept and nothing else changes |
| `Renderer.MediaRendererService.GetTransportInfo` | app/src/main/java/com/max/dlna/MediaRendererService.kt:126-129 | returns the transport state, which is one of the three values; nothing changes, and the InstanceID plays no part |
| `Renderer.MediaRendererService.GetMediaInfo` | app/src/main/java/com/max/dlna/MediaRendererService.kt:135-138 | returns the current URI; nothing changes, and the InstanceID plays no part |
| `Renderer.MediaRendererService.UpdatePlaybackStatus` | app/src/main/java/com/max/dlna/MediaRendererService.kt:191-241 | with no engine or no service, nothing changes; otherwise the state follows the engine table; if `duration > 0`, track and media duration are `formatTime(duration)` and absolute and relative time are `formatTime(position)`; otherwise all four keep their values; URI, metadata and speed are unchanged |
| `PlayerActivity.ProgressLabel` | app/src/main/java/com/max/dlna/VideoPlayerActivity.kt:227-229 | the label is as long as the two formatted times plus the three-character separator; it is 19 characters when both are non-negative and under 100 hours |
| `PlayerActivity.ProgressLabelReadsBack` | app/src/main/java/com/max/dlna/VideoPlayerActivity.kt:227-229 | the progress label is the formatted position, `" / "`, then the formatted duration; the two parts read back as the whole seconds of each |
| `PlayerActivity.VideoPlayerActivity.OnCreate` | app/src/main/java/com/max/dlna/VideoPlayerActivity.kt:50-61 | the URI comes from the intent (`""` when absent); a fresh player with an empty log; both flags false |
| `PlayerActivity.VideoPlayerActivity.OnResume` | app/src/main/java/com/max/dlna/VideoPlayerActivity.kt:64-72 | `play()` is called only if `wasPlayingBeforeBackground` was set; the flag is false afterwards, even without a player |
| `PlayerActivity.VideoPlayerActivity.OnPause` | app/src/main/java/com/max/dlna/VideoPlayerActivity.kt:87-99 | with a player, the flag becomes "the player was PLAYING", and `pause()` is called in exactly that case; without a player, nothing changes |
| `PlayerActivity.VideoPlayerActivity.OnDestroy` | app/src/main/java/com/max/dlna/VideoPlayerActivity.kt:102-109 | the player, if any, is released, and the reference is dropped |
| `PlayerActivity.VideoPlayerActivity.TogglePlayPause` | app/src/main/java/com/max/dlna/VideoPlayerActivity.kt:200-210 | `pause()` if the player is PLAYING, and `play()` in every other state (STOPPED, PAUSED, ERROR); nothing without a player |
| `PlayerActivity.VideoPlayerActivity.UpdateProgress` | app/src/main/java/com/max/dlna/VideoPlayerActivity.kt:218-232 | only when a player reports `duration > 0`: max = duration, progress = position, text = `formatTime(position) + " / " + formatTime(duration)`; otherwise the display is unchanged |
| `PlayerActivity.VideoPlayerActivity.SurfaceCreated` | app/src/main/java/com/max/dlna/VideoPlayerActivity.kt:235-246 | every call sets the surface; only the first calls `setMediaURIAndPlay(videoUri)`, so the invariant "launched once with the screen's URI exactly when initialized" holds |
| `PlayerActivity.VideoPlayerActivity.LeaveAndReturn` | app/src/main/java/com/max/dlna/VideoPlayerActivity.kt:64-99 | `onPause` then `onResume` leaves the player in the state it was in; it is paused and played again exactly when it was PLAYING |

## Left out

- Timer scheduling of the tick, the main-looper `Handler.post` in `play`, the seek-bar refresh runnable and all thread interleaving are left out. A tick is one atomic call, and the launch in `play` is computed from the URI at the time of the call. In the source, the posted block reads the URI when it runs.
- The `WeakReference` globals are left out. The application context is a `ContextRef` parameter: never registered, collected, or live. The engine and the service are explicit arguments of the tick. The service's own registration and the starting of the timer do not happen in the source, and they are not modelled.
- The `try`/`catch` around the player-screen start in `play`, and the `Intent` that starts the screen, are left out. The model returns the URI that would be launched.
- `lastChange` (the text of a library change-log object) and all logging are left out.
- The `else` branch of the tick's `when` is left out. The engine enum is closed, so the branch cannot be reached, and the model's `match` is exhaustive.
- `Playback.MediaPlayerManager.constructor`: the initial STOPPED state is assumed. MediaPlayerManager.kt has no `getCurrentState`, `setSurface`, `setStateListener` or constructor taking a context. Yet the player screen (VideoPlayerActivity.kt:76, 94, 112-113, 202, 239) and the tick (MediaRendererService.kt:194) call them. The model reads the state from a field and treats `setSurface` as a logged command. The listener callbacks are not modelled.
- `Playback.MediaPlayerManager.Play` is an assumed abstraction, not a translation. The engine's methods are placeholders in the source. The model takes `play`/`setMediaURIAndPlay` to mean PLAYING and `pause` to mean PAUSED, and position and duration are arbitrary engine reports. `stop`, `seekTo` and the listener callbacks are not modelled.
- `TimeFormat.FormatTime` assumes ASCII digits. `Locale.getDefault()` could select other digits.
- View updates in the player screen are left out: button icons, `findViewById`, the seek-bar listener that calls `seekTo`, the back button, and `finish`. So are `surfaceChanged` and `surfaceDestroyed`, which only hand the surface to the player.
