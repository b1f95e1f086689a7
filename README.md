# VideoSlicer transport model

VideoSlicer is a small desktop video player. It is an Avalonia window over a
LibVLC media player. Its only original logic is in `MainWindowViewModel`, a
transport state machine between the UI and the player:

- commands: Open File, Play/Pause, Stop, Toggle Mute;
- two property change hooks: volume and position;
- five player notifications: Playing, Paused, Stopped, LengthChanged, TimeChanged;
- a one-second timer that copies the player's position into the seek slider.

This project models that state machine in Dafny and proves what it promises.

- `engine.dfy`, module `Engine`: the media player, reduced to what the view
  model reads (length, position, playing flag) and the record `calls` of every
  call the view model makes on it. The player's volume and mute are the last
  values written to it, read off that record (`LastVolume`, `LastMute`), so the
  model assumes nothing about how the player applies them.
- `clock.dfy`, module `Clock`: the `mm:ss` rendering of a millisecond count,
  its reading back, and the two round trips between them.
- `transport.dfy`, module `Transport`: the view model's state as a value
  (`Mirror`). It has the two icon selectors and one function per command, hook,
  notification and timer tick. An `Event` type and `Run` cover whole sessions.
  The properties are lemmas about these functions.
- `view_model.dfy`, module `ViewModel`: class `MainWindowViewModel`. It has the
  source's fields, and one method per handler that updates them in place. Each
  method's postcondition ties its new state to the matching `Transport` function
  of the old state. `Valid()` is the invariant `Transport.Synced`; every handler
  requires and keeps it.

Each handler therefore appears twice, on purpose. The `Transport` function is
the specification: a value-level definition the lemmas can reason about, and
over which whole event sequences can be run. The method is the in-place update
the source performs, and its postcondition proves it equal to that function.

The generated `[ObservableProperty]` setters are modelled as follows. If the new
value differs from the current one, the setter stores it and then runs the
property's change hook. An equal value does nothing. So the constructor's
`Volume = 50` runs no hook, because 50 is already the default. That is why the
constructor then forwards the volume to the player itself.

The model follows the code in three places where one might expect more:

- The Stop command only tells the player to stop; it changes no view-model
  field. The view shows "stopped at 0" only after the player's Stopped
  notification (`Transport.StopThenStopped`).
- The seek flag `_isUserSeeking` is true only inside the position hook itself.
  So it never stops the timer's copy from going back to the player. A tick that
  changes `Position` seeks the player to the value it just read
  (`Transport.TimerTickSeeksBack`).
- The play button shows the triangle ("play") glyph while playing, and the
  bars ("pause") glyph otherwise, as the source's getter does.

## Model

| member | source | states |
|---|---|---|
| `Clock.TwoDigits` | VideoSlicer/ViewModels/MainWindowViewModel.cs:198 | a number below 100 becomes exactly two digits whose value is that number (zero-padded) |
| `Clock.Format` | VideoSlicer/ViewModels/MainWindowViewModel.cs:198 | the `mm:ss` text of a non-negative count is a well-formed clock text reading minutes*60 + seconds |
| `Clock.MinutesAndSeconds` | VideoSlicer/ViewModels/MainWindowViewModel.cs:203 | the minutes field (wrapping at 60) and seconds field together are the whole seconds modulo one hour |
| `Clock.ReadingOfFormat` | VideoSlicer/ViewModels/MainWindowViewModel.cs:196-204 | the rendered text reads back as the elapsed seconds modulo 3600 |
| `Clock.FormatOfReading` | VideoSlicer/ViewModels/MainWindowViewModel.cs:196-204 | every well-formed clock text is the rendering of the time it reads as (round trip the other way) |
| `Clock.FormatEqual` | VideoSlicer/ViewModels/MainWindowViewModel.cs:196-204 | two counts render equally exactly when they agree to the second modulo one hour |
| `Clock.FormatDropsHours` | VideoSlicer/ViewModels/MainWindowViewModel.cs:196-204 | adding one hour does not change the text |
| `Clock.TwoMinutes` | VideoSlicer/ViewModels/MainWindowViewModel.cs:196-199 | 120000 ms renders as `02:00` |
| `Clock.OneHour` | VideoSlicer/ViewModels/MainWindowViewModel.cs:39-42 | 0 ms renders as the initial `00:00`, and so does 3600000 ms (hours dropped) |
| `Engine.Created` | VideoSlicer/ViewModels/MainWindowViewModel.cs:57 | a new media player has received no calls, so no volume was written to it and it is not muted; it knows no length and is not playing |
| `Transport.PlayButtonIcon` | VideoSlicer/ViewModels/MainWindowViewModel.cs:44-46 | the play button shows one of the two transport glyphs |
| `Transport.VolumeIcon` | VideoSlicer/ViewModels/MainWindowViewModel.cs:48-52 | the volume button shows one of the three volume glyphs |
| `Transport.Initial` | VideoSlicer/ViewModels/MainWindowViewModel.cs:54-71 | after construction the volume is 50, the last volume written to the player is 50 and it received exactly that one call; nothing is loaded, playing or muted; position 0; both texts `00:00`; the invariant holds |
| `Transport.VolumeIconMutedIff` | VideoSlicer/ViewModels/MainWindowViewModel.cs:48-52 | muted glyph if and only if muted or volume 0; every other volume gives the same glyph, as the low and high glyphs are equal |
| `Transport.PlayButtonIconOnlyIsPlaying` | VideoSlicer/ViewModels/MainWindowViewModel.cs:44-46 | the play button glyph depends on the playing flag alone, the play glyph exactly while playing |
| `Transport.SetVolumeForwards` | VideoSlicer/ViewModels/MainWindowViewModel.cs:73-80 | a new volume is stored and forwarded to the player exactly, unclamped, as one call, and no other field changes; an equal volume changes nothing and forwards nothing |
| `Transport.VolumeZeroShowsMuted` | VideoSlicer/ViewModels/MainWindowViewModel.cs:48-80 | setting the volume to 0 leaves `IsMuted` as it was and shows the muted glyph |
| `Transport.SetPositionSeeks` | VideoSlicer/ViewModels/MainWindowViewModel.cs:82-90 | a new position is stored and no other field changes; the player gets one seek to it exactly when the value is new, no seek is under way and the length is positive; the seek flag ends as it began |
| `Transport.PlayPauseCases` | VideoSlicer/ViewModels/MainWindowViewModel.cs:127-139 | without a video nothing changes; with one, only one call is added: pause if the player reports playing, play otherwise |
| `Transport.StopOnlyCalls` | VideoSlicer/ViewModels/MainWindowViewModel.cs:142-145 | Stop changes no view-model field and no player value; it only adds a stop call |
| `Transport.ToggleMuteFlips` | VideoSlicer/ViewModels/MainWindowViewModel.cs:148-156 | the mute flag flips, the last mute written to the player equals the new flag, forwarded as one call; nothing else changes |
| `Transport.ToggleMuteTwice` | VideoSlicer/ViewModels/MainWindowViewModel.cs:148-156 | toggling twice restores the flag and the player's mute and changes nothing else but the two recorded calls |
| `Transport.TimerTickGuarded` | VideoSlicer/ViewModels/MainWindowViewModel.cs:206-212 | a tick copies the player's position only when the length is positive and no seek is under way, changing no other field, and otherwise changes nothing |
| `Transport.TimerTickSeeksBack` | VideoSlicer/ViewModels/MainWindowViewModel.cs:206-212 | between operations a tick that changes the position also seeks the player to the value just read |
| `Transport.NotificationsSetPlaying` | VideoSlicer/ViewModels/MainWindowViewModel.cs:177-194 | Playing sets the playing flag, Paused and Stopped clear it, and nothing else changes; Stopped also sets the position to 0 and seeks the player to 0 exactly when the position was not 0 and the length is positive |
| `Transport.StopThenStopped` | VideoSlicer/ViewModels/MainWindowViewModel.cs:189-194 | a stop followed by the player's Stopped notification leaves the view not playing at position 0 |
| `Transport.TimesRendered` | VideoSlicer/ViewModels/MainWindowViewModel.cs:196-204 | the length and time notifications set the total and current texts to the `mm:ss` rendering, which reads as the seconds modulo one hour |
| `Transport.TwoMinuteVideo` | VideoSlicer/ViewModels/MainWindowViewModel.cs:196-199 | a reported length of 120 s shows a total time of `02:00` |
| `Transport.OpenFileCases` | VideoSlicer/ViewModels/MainWindowViewModel.cs:117-123 | a non-empty pick plays the first file and marks the video loaded, changing nothing else; an empty pick changes nothing |
| `Transport.OnVolumeChanged` | VideoSlicer/ViewModels/MainWindowViewModel.cs:73-80 | the volume hook: one `SetVolume` call with the value; its promises are stated by `SetVolumeForwards` |
| `Transport.SetVolume` | VideoSlicer/ViewModels/MainWindowViewModel.cs:32-33 | the generated `Volume` setter, equality-guarded, running the hook; promises in `SetVolumeForwards`, `VolumeZeroShowsMuted` |
| `Transport.OnPositionChanged` | VideoSlicer/ViewModels/MainWindowViewModel.cs:82-90 | the guarded seek with the flag raised and lowered; promises in `SetPositionSeeks`, `TimerTickSeeksBack` |
| `Transport.SetPosition` | VideoSlicer/ViewModels/MainWindowViewModel.cs:29-30 | the generated `Position` setter, equality-guarded, running the hook; promises in `SetPositionSeeks` |
| `Transport.OpenFile` | VideoSlicer/ViewModels/MainWindowViewModel.cs:117-123 | the Open File command after the pick; promises in `OpenFileCases`, `RunKeepsVideoLoaded` |
| `Transport.PlayPause` | VideoSlicer/ViewModels/MainWindowViewModel.cs:127-139 | the Play/Pause command; promises in `PlayPauseCases`, `NoTransportBeforeOpen` |
| `Transport.Stop` | VideoSlicer/ViewModels/MainWindowViewModel.cs:142-145 | the Stop command; promises in `StopOnlyCalls`, `StopThenStopped` |
| `Transport.ToggleMute` | VideoSlicer/ViewModels/MainWindowViewModel.cs:148-156 | the Toggle Mute command; promises in `ToggleMuteFlips`, `ToggleMuteTwice` |
| `Transport.OnMediaPlayerPlaying` | VideoSlicer/ViewModels/MainWindowViewModel.cs:177-181 | the Playing notification; promises in `NotificationsSetPlaying` |
| `Transport.OnMediaPlayerPaused` | VideoSlicer/ViewModels/MainWindowViewModel.cs:183-187 | the Paused notification; promises in `NotificationsSetPlaying` |
| `Transport.OnMediaPlayerStopped` | VideoSlicer/ViewModels/MainWindowViewModel.cs:189-194 | the Stopped notification; promises in `NotificationsSetPlaying`, `StopThenStopped` |
| `Transport.OnLengthChanged` | VideoSlicer/ViewModels/MainWindowViewModel.cs:196-199 | the LengthChanged notification; promises in `TimesRendered`, `TwoMinuteVideo` |
| `Transport.OnTimeChanged` | VideoSlicer/ViewModels/MainWindowViewModel.cs:201-204 | the TimeChanged notification; promises in `TimesRendered` |
| `Transport.OnPositionTimerElapsed` | VideoSlicer/ViewModels/MainWindowViewModel.cs:206-212 | the timer tick; promises in `TimerTickGuarded`, `TimerTickSeeksBack` |
| `Transport.Step` | VideoSlicer/ViewModels/MainWindowViewModel.cs:54-212 | one handler, command or engine progress as an atomic step; promises in `StepKeepsSynced`, `StepExtendsCalls`, `StepBeforeOpen` |
| `Transport.Run` | VideoSlicer/ViewModels/MainWindowViewModel.cs:54-212 | a sequence of steps; promises in `RunKeepsSynced`, `RunKeepsVideoLoaded`, `RunExtendsCalls`, `NoTransportBeforeOpen` |
| `Transport.StepKeepsSynced` | VideoSlicer/ViewModels/MainWindowViewModel.cs:73-212 | every step keeps the invariant: the last volume written to the player is `Volume`, the last mute written (unmuted if none) is `IsMuted`, no seek under way, both texts well formed |
| `Transport.RunKeepsSynced` | VideoSlicer/ViewModels/MainWindowViewModel.cs:73-212 | the invariant, in particular "the seek flag is false before and after every operation", holds after any sequence of steps |
| `Transport.RunKeepsVideoLoaded` | VideoSlicer/ViewModels/MainWindowViewModel.cs:122 | once a video is loaded it stays loaded through any sequence of steps |
| `Transport.StepExtendsCalls` | VideoSlicer/ViewModels/MainWindowViewModel.cs:73-212 | a step only appends to the player's call record |
| `Transport.RunExtendsCalls` | VideoSlicer/ViewModels/MainWindowViewModel.cs:73-212 | any sequence of steps only appends to the player's call record |
| `Transport.StepBeforeOpen` | VideoSlicer/ViewModels/MainWindowViewModel.cs:129 | without a video, any step other than a file pick loads nothing and sends no play, pause or media call |
| `Transport.NoTransportBeforeOpen` | VideoSlicer/ViewModels/MainWindowViewModel.cs:127-139 | until a file is picked, no play, pause or media call ever reaches the player |
| `ViewModel.MainWindowViewModel.constructor` | VideoSlicer/ViewModels/MainWindowViewModel.cs:54-71 | the new object's state is `Transport.Initial()`, volume 50 forwarded, and it is valid |
| `ViewModel.MainWindowViewModel.OnVolumeChanged` | VideoSlicer/ViewModels/MainWindowViewModel.cs:73-80 | run once the setter has stored the value, the hook forwards it to the player (`Transport.OnVolumeChanged`) and so restores the invariant |
| `ViewModel.MainWindowViewModel.SetVolume` | VideoSlicer/ViewModels/MainWindowViewModel.cs:32-33 | the generated setter: `Transport.SetVolume`; `Volume` is the value; the object is valid afterwards when it was before or when the value was new (the constructor calls it before the first forward) |
| `ViewModel.MainWindowViewModel.OnPositionChanged` | VideoSlicer/ViewModels/MainWindowViewModel.cs:82-90 | the guarded seek with the flag raised and lowered (`Transport.OnPositionChanged`); the flag ends as it began |
| `ViewModel.MainWindowViewModel.SetPosition` | VideoSlicer/ViewModels/MainWindowViewModel.cs:29-30 | the generated setter: `Transport.SetPosition`; `Position` is the value |
| `ViewModel.MainWindowViewModel.OpenFile` | VideoSlicer/ViewModels/MainWindowViewModel.cs:117-123 | `Transport.OpenFile` of the picked list; loaded afterwards exactly when it was before or the list is non-empty; keeps the invariant |
| `ViewModel.MainWindowViewModel.PlayPause` | VideoSlicer/ViewModels/MainWindowViewModel.cs:127-139 | `Transport.PlayPause`; without a video the object is unchanged |
| `ViewModel.MainWindowViewModel.Stop` | VideoSlicer/ViewModels/MainWindowViewModel.cs:142-145 | `Transport.Stop`; may modify only the player, which records one stop call |
| `ViewModel.MainWindowViewModel.ToggleMute` | VideoSlicer/ViewModels/MainWindowViewModel.cs:148-156 | `Transport.ToggleMute`; the flag flips, the player's mute equals it, the invariant is kept |
| `ViewModel.MainWindowViewModel.OnMediaPlayerPlaying` | VideoSlicer/ViewModels/MainWindowViewModel.cs:177-181 | `Transport.OnMediaPlayerPlaying` |
| `ViewModel.MainWindowViewModel.OnMediaPlayerPaused` | VideoSlicer/ViewModels/MainWindowViewModel.cs:183-187 | `Transport.OnMediaPlayerPaused` |
| `ViewModel.MainWindowViewModel.OnMediaPlayerStopped` | VideoSlicer/ViewModels/MainWindowViewModel.cs:189-194 | `Transport.OnMediaPlayerStopped`; not playing, position 0, invariant kept |
| `ViewModel.MainWindowViewModel.OnLengthChanged` | VideoSlicer/ViewModels/MainWindowViewModel.cs:196-199 | `Transport.OnLengthChanged`; invariant kept |
| `ViewModel.MainWindowViewModel.OnTimeChanged` | VideoSlicer/ViewModels/MainWindowViewModel.cs:201-204 | `Transport.OnTimeChanged`; invariant kept |
| `ViewModel.MainWindowViewModel.OnPositionTimerElapsed` | VideoSlicer/ViewModels/MainWindowViewModel.cs:206-212 | `Transport.OnPositionTimerElapsed`; invariant kept |

## Left out

- The LibVLC engine itself (`LibVLC`, `MediaPlayer`, `Media`): decoding, rendering, and when and in what order notifications are raised. The player is a record; its own progress is the `EngineProgress` event.
- The player's reaction to play, pause and stop: these calls are only recorded. Whether playback then starts or stops reaches the view only through the Playing, Paused and Stopped notifications.
- The file picker (`TopLevel`, `StorageProvider.OpenFilePickerAsync`, the extension filter at line 108) and the `await`: the picked list is a parameter of `OpenFile`. "No top-level window" (line 98) and "nothing picked" both change nothing, so both are the empty list.
- Threading: the timer callback and the player's notifications may run on other threads than the UI thread. Each handler is modelled as one atomic step.
- The null checks on `MediaPlayer` (lines 75, 84, 121, 129, 144, 150, 208): the constructor always sets it, and `Dispose` is not modelled, so they always pass and are not modelled.
- Floating point: `Position` and the player's position are `real`; the narrowing `(float)value` at line 87 is not modelled.
- `OnPropertyChanged` notifications and the SVG path texts: glyphs are constants, keeping only that the low and high volume paths are the same text.
- `Clock.Format`: requires a non-negative count. Negative counts and counts too large for a `TimeSpan` (which throw) are not modelled.
- `ToggleFullScreen`, `ExitFullScreen`, `Exit` (lines 158-175): empty commands. `Dispose` (lines 214-219): only releases native resources.
- `App.axaml.cs` and `MainWindow.axaml.cs`: window bootstrap and close glue. They construct the view model and dispose of it.
- A newly created player is taken to be unmuted, which `Engine.LastMute` encodes as "not muted until told otherwise". The state of a newly created player: its length is taken to be -1 (no media) and its position 0; the model does not depend on these values beyond "length not positive".
