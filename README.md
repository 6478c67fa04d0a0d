# Voice recorder: recorder controller and playback mirror

This project is a Dafny model of the two small state machines of the VoiceRecorder
Android application.

- **The recorder controller** (`RecordViewModel`). A single record/stop toggle owns the
  `MediaRecorder` handle, the `isRecording` flag, the elapsed-time total `timerMillis`, the
  output file name and the folder-access decision made at construction. While recording,
  a timer flow emits clamped millisecond deltas that a collector adds to the total. Pure
  helpers produce:
  - the `yyMMdd_HHmmss.m4a` file name;
  - the storage root for the SDK level;
  - the folder-access decision;
  - the `mm:ss` rendering of the total.
- **The playback mirror** (the lifecycle observer, `Player.Listener`, polling effect and
  action lambdas of `MainActivity`). Three UI values (`isVoicePlaying`, `progress` and
  `voiceDuration`) follow a media browser through a fixed event mapping and a
  once-per-second position poll. Play, stop and seek are forwarded to the browser only
  while its future is done.

Platform parts are modelled abstractly:

- A `MediaRecorder` is a value recording how it was configured, whether `prepare()`
  succeeded, and whether it is started or released.
- The media browser is a numbered connection. What it reports is a `PlayerSnapshot`
  (isPlaying, currentPosition, duration) given as input, and what it is told is a log of
  `Issued` commands.
- `BrowserPresent` is the `browser` getter: a browser exists only while the current
  future is connected.
- The clock is a sequence of readings.
- The SDK level and the platform directories are constructor inputs.
- The filesystem is two booleans: the root exists, and mkdirs succeeds.

Files:

- `Digits.dfy`: two-digit zero-padded numerals.
- `RecordFormats.dfy`: the pure helpers of the recorder.
- `RecordTimer.dfy`: the timer flow loop and what its emissions add up to.
- `Recording.dfy`: the `RecordViewModel` class.
- `Playback.dfy`: the mirror mapping and the `PlaybackMirror` class.
- `Wrappers.dfy`: `Option`.

Behaviours of the code that the model keeps, though a reader might expect otherwise:

- A failing `prepare()` is only logged. `isRecording` still becomes true, and the
  recorder is still started.
- From SDK level 31 on, `startRecordingAudio` builds and starts a second recorder after
  the first. The first is never stopped or released, and the model keeps it in `orphaned`.
- The folder check tests whether the storage root exists, not the `VoiceRecorder`
  folder. `mkdirs` is attempted only when the root is missing.
- `STATE_IDLE` clears the duration but leaves `progress` as it was. Only `STATE_ENDED`
  clears both.
- `onPlayerError` changes no mirrored value. It tells the browser to stop, once per
  registered listener.
- The lifecycle test `targetState == STARTED` is also true for `ON_PAUSE`. So every
  pause queues another sync, and another listener is registered on the browser.
- `formattedTimer` renders minutes of the hour and seconds only. One hour of recording
  shows as `00:00` again.

## Model

| member | source | states |
|---|---|---|
| `RecordFormats.GenerateFileName` | feature/record/src/main/java/com/recorder/feature/record/RecordViewModel.kt:167-175 | The name has 17 characters: six digits, `_` at index 6, six digits, then `.m4a`. Its two-digit fields read back as year mod 100, month, day, hour, minute and second of the reading. |
| `RecordFormats.FileNameDeterminesStamp` | feature/record/src/main/java/com/recorder/feature/record/RecordViewModel.kt:167-175 | Two readings give the same name iff they agree on year mod 100 and on month, day, hour, minute and second. So the name is deterministic, and it loses only the century. |
| `RecordFormats.StoragePath` | feature/record/src/main/java/com/recorder/feature/record/RecordViewModel.kt:198-210 | The recordings directory when the SDK level is at least 31; otherwise the external-storage root. |
| `RecordFormats.AppFolder` | feature/record/src/main/java/com/recorder/feature/record/RecordViewModel.kt:212-216 | `directoryName` is the root, then `/`, then `VoiceRecorder`, position by position. |
| `RecordFormats.AccessDecision` | feature/record/src/main/java/com/recorder/feature/record/RecordViewModel.kt:177-196 | Access is granted iff the root exists or mkdirs succeeds. mkdirs is attempted iff the root is missing. |
| `RecordFormats.FormatTimer` | feature/record/src/main/java/com/recorder/feature/record/RecordViewModel.kt:50-60 | Defined iff 0 <= ms < one day, where `LocalTime.ofNanoOfDay` accepts the value. The text is `mm:ss` with both fields below 60, and 60 * minutes + seconds equals whole seconds mod 3600. |
| `RecordFormats.FormatTimerEqualIff` | feature/record/src/main/java/com/recorder/feature/record/RecordViewModel.kt:50-54 | Two elapsed times within a day render alike iff their whole seconds agree mod one hour. |
| `RecordFormats.FormatTimerBelowOneSecond` | feature/record/src/main/java/com/recorder/feature/record/RecordViewModel.kt:53-54 | Any elapsed time under one second, including the reset total 0, renders as `00:00`. |
| `RecordFormats.InitialTimerTextIsNotMapped` | feature/record/src/main/java/com/recorder/feature/record/RecordViewModel.kt:56-60 | The initial value `00:00:00` is not a value the mapping produces, so the text shows whether the mapping has run yet. |
| `RecordTimer.Elapsed` | feature/record/src/main/java/com/recorder/feature/record/RecordViewModel.kt:96-101 | An emission is `current - start` when positive, else 0. It is never negative. |
| `RecordTimer.TimerFlow` | feature/record/src/main/java/com/recorder/feature/record/RecordViewModel.kt:92-106 | When idle the loop body never runs: nothing is emitted and `startMillis` keeps its first reading. When recording, emission k is the clamped delta from that iteration's start, and the emissions sum to `ElapsedTotal`. |
| `RecordTimer.ElapsedTotalBound` | feature/record/src/main/java/com/recorder/feature/record/RecordViewModel.kt:92-106 | On a non-decreasing clock the accumulated total never exceeds the clock time since the flow started. It equals that time when every restart reading equals the emission reading. |
| `Recording.StartedRecorder` | feature/record/src/main/java/com/recorder/feature/record/RecordViewModel.kt:119-130 | A recorder is configured for microphone, MPEG-4 and AAC with the given output file. It is started whether or not `prepare()` succeeded. |
| `Recording.RecordViewModel.constructor` | feature/record/src/main/java/com/recorder/feature/record/RecordViewModel.kt:56-71 | `canAccessAppFolder` comes from the access decision, and mkdirs is called only on the app folder and only when the root is missing. `directoryName` is the app folder of the SDK's root. The controller starts idle with total 0, and the formatted text holds the initial value `00:00:00`. |
| `Recording.RecordViewModel.OnRecord` | feature/record/src/main/java/com/recorder/feature/record/RecordViewModel.kt:73-90 | Stop branch: the recorder is released, `isRecording` is false and `timerMillis` is exactly 0. Start branch with access: `fileName` is `directoryName/<generated name>`, `isRecording` is true, and prepare failures do not matter. Start branch without access: nothing changes. The folder fields and the formatted text never change. |
| `Recording.RecordViewModel.StartRecordingAudio` | feature/record/src/main/java/com/recorder/feature/record/RecordViewModel.kt:114-155 | With access it sets the file name to `directoryName/<generated name>`, starts the recorders on it, and runs the `onRecord` callback: `isRecording` becomes true and the timer flow restarts. Without access nothing changes. |
| `Recording.RecordViewModel.StartRecorders` | feature/record/src/main/java/com/recorder/feature/record/RecordViewModel.kt:119-144 | The current recorder is started on the path. From SDK level 31 on, a second, context-bound recorder replaces the first, which is added to `orphaned` still started. Below 31 nothing is orphaned. |
| `Recording.RecordViewModel.StopRecordingAudio` | feature/record/src/main/java/com/recorder/feature/record/RecordViewModel.kt:157-165 | The current recorder is stopped and released, and the `onStopRecording` callback runs: `isRecording` becomes false and `timerMillis` exactly 0. |
| `Recording.RecordViewModel.CollectTimer` | feature/record/src/main/java/com/recorder/feature/record/RecordViewModel.kt:65-70 | `timerMillis` never decreases. While recording it grows by exactly the flow's elapsed total. When idle nothing changes, so the total stays 0. |
| `Recording.RecordViewModel.MapFormattedTimer` | feature/record/src/main/java/com/recorder/feature/record/RecordViewModel.kt:53-60 | Within a day the text becomes the `mm:ss` rendering of the total, which differs from the initial value; when idle it is `00:00`. From one day on the text keeps its old value. |
| `Playback.StartedSyncEvents` | app/src/main/java/com/experiment/voicerecorder/MainActivity.kt:106 | The `STARTED` test holds exactly for `ON_START` and `ON_PAUSE`. |
| `Playback.BuildMediaItem` | app/src/main/java/com/experiment/voicerecorder/MainActivity.kt:200-208 | The item's title and media id are the voice's title, its uri is the voice's path, and it is marked playable. |
| `Playback.BuildMediaItemInjective` | app/src/main/java/com/experiment/voicerecorder/MainActivity.kt:200-208 | Two voices give the same item iff they are the same voice, since title and path are both carried. |
| `Playback.AfterPlaybackState` | app/src/main/java/com/experiment/voicerecorder/MainActivity.kt:121-148 | IDLE: playing flag from the player, duration 0, progress kept. ENDED: playing flag from the player, progress 0, duration 0. BUFFERING: no change. READY: duration and position from the player, playing flag kept. |
| `Playback.AfterPlaybackStateIdempotent` | app/src/main/java/com/experiment/voicerecorder/MainActivity.kt:121-148 | Delivering one state change twice with the same player state leaves what delivering it once does. |
| `Playback.ReadyProgressWithinDuration` | app/src/main/java/com/experiment/voicerecorder/MainActivity.kt:140-143 | After READY from a player with 0 <= position <= duration, 0 <= progress <= voiceDuration. |
| `Playback.Synced` | app/src/main/java/com/experiment/voicerecorder/MainActivity.kt:109-111 | The STARTED sync copies isPlaying and currentPosition and leaves the duration. |
| `Playback.PollTick` | app/src/main/java/com/experiment/voicerecorder/MainActivity.kt:187-195 | A tick sets progress to the browser's position only while playing with a browser present. The flag and the duration never change. |
| `Playback.PollTicksInert` | app/src/main/java/com/experiment/voicerecorder/MainActivity.kt:187-195 | When not playing, or with no browser, any number of ticks changes nothing. |
| `Playback.PollTicksFollowPosition` | app/src/main/java/com/experiment/voicerecorder/MainActivity.kt:187-195 | While playing with a browser, a run of ticks leaves progress at the last position read, and nothing else changes. |
| `Playback.PlaybackMirror.constructor` | app/src/main/java/com/experiment/voicerecorder/MainActivity.kt:91-99 | The mirror starts at false, 0 and 0. The first browser future is pending, with no listeners, no commands issued and no browser available. |
| `Playback.PlaybackMirror.OnActivityStart` | app/src/main/java/com/experiment/voicerecorder/MainActivity.kt:233-240 | Following `onStop`, a new future with the next number replaces the released one. It is pending and has no listeners, and no browser is available until it completes. |
| `Playback.PlaybackMirror.OnActivityStop` | app/src/main/java/com/experiment/voicerecorder/MainActivity.kt:242-245 | The future is released. No browser is available afterwards. |
| `Playback.PlaybackMirror.OnLifecycleEvent` | app/src/main/java/com/experiment/voicerecorder/MainActivity.kt:104-111 | A STARTED-target event on a connected browser syncs at once and adds a listener. On a pending future it queues the sync. Any other event changes nothing. |
| `Playback.PlaybackMirror.RunSync` | app/src/main/java/com/experiment/voicerecorder/MainActivity.kt:109-112 | The mirror becomes `Synced`, and one more listener is registered. |
| `Playback.PlaybackMirror.OnConnected` | app/src/main/java/com/experiment/voicerecorder/MainActivity.kt:107-109 | When the future completes, every queued sync runs: the mirror is synced if any was queued, and one listener is registered per queued sync. The browser is available from then on. |
| `Playback.PlaybackMirror.OnPlaybackStateChanged` | app/src/main/java/com/experiment/voicerecorder/MainActivity.kt:121-148 | With a listener registered, the mirror becomes `AfterPlaybackState` of the old one. Otherwise it is unchanged. |
| `Playback.PlaybackMirror.OnIsPlayingChanged` | app/src/main/java/com/experiment/voicerecorder/MainActivity.kt:162-166 | With a listener, `isVoicePlaying` becomes the reported value and nothing else changes. |
| `Playback.PlaybackMirror.OnPlayWhenReadyChanged` | app/src/main/java/com/experiment/voicerecorder/MainActivity.kt:150-160 | With a listener, `isVoicePlaying` becomes the player's `isPlaying`, not `playWhenReady`. Nothing else changes. |
| `Playback.PlaybackMirror.OnPlayerError` | app/src/main/java/com/experiment/voicerecorder/MainActivity.kt:169-173 | One `stop` per listener is issued to the current browser. No mirrored field changes. |
| `Playback.PlaybackMirror.OnPollTick` | app/src/main/java/com/experiment/voicerecorder/MainActivity.kt:187-195 | The mirror becomes `PollTick` of the old one for the current browser's presence. |
| `Playback.PlaybackMirror.OnPlay` | app/src/main/java/com/experiment/voicerecorder/MainActivity.kt:200-213 | With a browser, `setMediaItem` of the built item and then `play` are issued, in that order. Without one, nothing is issued. |
| `Playback.PlaybackMirror.OnStopAction` | app/src/main/java/com/experiment/voicerecorder/MainActivity.kt:214-218 | With a browser, `stop` is issued. Without one, nothing is issued. |
| `Playback.PlaybackMirror.OnProgressChange` | app/src/main/java/com/experiment/voicerecorder/MainActivity.kt:221-225 | With a browser, an absolute `seekTo` of the given position is issued. Without one, nothing is issued. |

## Left out

- Timber logging: it has no effect on state.
- Real time, `delay`, and coroutine and Flow scheduling are not modelled. This covers `flatMapLatest` cancelling the previous timer flow, the restart of `LaunchedEffect` on a key change, and the sharing policy of `stateIn`. Clock readings, timer iterations and poll ticks are explicit inputs or steps.
- `SimpleDateFormat` locale effects: the date comes in as integer fields, rendered with ASCII digits.
- Audio encoding, MPEG-4/AAC muxing, and the internals of `MediaRecorder`, `MediaBrowser`, `SessionToken` and `PlayerService`: platform code that is not part of this model. In particular, a `start()` after a failed `prepare()` is treated as succeeding.
- Recording.RecordViewModel.MapFormattedTimer: an elapsed time of one day or more makes `LocalTime.ofNanoOfDay` throw inside the flow. The model keeps the old text instead of modelling the exception. When the mapping runs is decided by the `stateIn` sharing policy; the model makes it an explicit step.
- `resetTimer`: it is never called. `stopRecordingAudio`'s callback resets the total directly, and that reset is modelled.
- Path normalisation: the source builds the recording path with `File(directoryName, name).path`, which normalises separators. The model joins with `/` and assumes the storage roots are already normalised (not `/`, no repeated or trailing slashes).
- `progress.toFloat()` and `seekTo(currentPosition.toLong())`: seeks take an integer position.
- A failed or cancelled browser future: `isDone` is true for it, so the `browser` getter calls `get()`, which throws. `onPlay`, `onStop` and `onProgressChange` then throw instead of doing nothing, and so does the polling effect when it relaunches on a key change while playing. The model has no failed connection, and it treats a released future (cancelled if still pending, released if connected) as having no browser. So it drops those commands, and no events arrive.
- Listeners left on earlier browsers: those browsers are released, so their events are not modelled.
- The polling effect tests `browser` once when it launches. The model tests it at every tick.
- `onEvents`: it only calls the default implementation.
- `mediaItems`: this list is never used.
- The permission request, edge-to-edge and theming code, `DefaultPreview`, navigation and the permission wrapper: these are UI only.
