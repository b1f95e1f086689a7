/**
  The transport state mirror of the main window's view model, as values: its
  observable state, the icon selectors, one function per command, change hook and
  engine notification, and the properties those functions keep. The class in
  module ViewModel performs the same steps in place and is specified by these
  functions.

  Every generated property setter behaves as follows: when the new value differs
  from the current one it is stored and then the property's change hook (if the
  view model defines one) runs; an equal value changes nothing and runs no hook.
 */
module Transport {
  import Engine
  import Clock

  /** The glyphs the view binds to its buttons, by shape. */
  datatype Glyph = Triangle | Bars | SpeakerCrossed | Speaker

  const PlayIcon: Glyph := Triangle
  const PauseIcon: Glyph := Bars
  const VolumeMutedIcon: Glyph := SpeakerCrossed
  // The source spells out the same path string for the low and the high volume icon.
  const VolumeLowIcon: Glyph := Speaker
  const VolumeHighIcon: Glyph := Speaker

  /**
    The view model's observable fields, the private seek flag, and the media
    player it owns (never null once constructed).
   */
  datatype Mirror = Mirror(
    isVideoLoaded: bool,
    isPlaying: bool,
    position: real,
    volume: int,
    isMuted: bool,
    currentTime: string,
    totalTime: string,
    userSeeking: bool,
    player: Engine.Player)

  /**
    The invariant apart from the volume, which the volume setter breaks for the
    moment between storing the new value and its hook forwarding it: the last
    mute state written to the player is `isMuted`, no seek is under way, and both
    time texts are well formed.
   */
  predicate SyncedButVolume(s: Mirror)
  {
    && Engine.LastMute(s.player.calls) == s.isMuted
    && !s.userSeeking
    && Clock.IsClock(s.currentTime)
    && Clock.IsClock(s.totalTime)
  }

  /** What holds between any two operations: also, the last volume written to the player is `volume`. */
  predicate Synced(s: Mirror)
  {
    && SyncedButVolume(s)
    && Engine.LastVolume(s.player.calls) == Engine.Some(s.volume)
  }

  // ---------------------------------------------------------------- icons

  /** The play/pause button's glyph: the triangle while playing, the bars otherwise. */
  function PlayButtonIcon(s: Mirror): (g: Glyph)
    ensures g == PlayIcon || g == PauseIcon
  {
    if s.isPlaying then PlayIcon else PauseIcon
  }

  /** The volume button's glyph. */
  function VolumeIcon(s: Mirror): (g: Glyph)
    ensures g == VolumeMutedIcon || g == VolumeLowIcon || g == VolumeHighIcon
  {
    if s.isMuted || s.volume == 0 then VolumeMutedIcon
    else if s.volume < 50 then VolumeLowIcon
    else VolumeHighIcon
  }

  // ---------------------------------------------------------------- construction and hooks

  /**
    The state right after construction: the field defaults, then `Volume = 50`,
    which equals the default and so runs no hook, then the explicit forward of the
    volume to the player.
   */
  function Initial(): (s: Mirror)
    ensures Synced(s)
    ensures s.volume == 50 && Engine.LastVolume(s.player.calls) == Engine.Some(50)
    ensures s.player.calls == [Engine.SetVolume(50)]
    ensures !s.isVideoLoaded && !s.isPlaying && !s.isMuted && s.position == 0.0
    ensures s.currentTime == "00:00" && s.totalTime == "00:00"
  {
    Clock.OneHour();
    var defaults := Mirror(false, false, 0.0, 50, false, Clock.Format(0), Clock.Format(0), false, Engine.Created());
    var afterSet := SetVolume(defaults, 50);
    afterSet.(player := Engine.Receive(afterSet.player, Engine.SetVolume(afterSet.volume)))
  }

  /** The volume change hook: forward the new value to the player. */
  function OnVolumeChanged(s: Mirror, value: int): Mirror
  {
    s.(player := Engine.Receive(s.player, Engine.SetVolume(value)))
  }

  /** The generated `Volume` setter. */
  function SetVolume(s: Mirror, value: int): Mirror
  {
    if value == s.volume then s else OnVolumeChanged(s.(volume := value), value)
  }

  /**
    The position change hook: unless a seek is already under way, and provided the
    player knows the media's length, raise the seek flag, seek the player, lower it.
   */
  function OnPositionChanged(s: Mirror, value: real): Mirror
  {
    if !s.userSeeking && s.player.length > 0 then
      var seeking := s.(userSeeking := true);
      var sought := seeking.(player := Engine.Receive(seeking.player, Engine.Seek(value)));
      sought.(userSeeking := false)
    else
      s
  }

  /** The generated `Position` setter. */
  function SetPosition(s: Mirror, value: real): Mirror
  {
    if value == s.position then s else OnPositionChanged(s.(position := value), value)
  }

  // ---------------------------------------------------------------- commands

  /** Open File after the picker returned `files` (empty when nothing was picked). */
  function OpenFile(s: Mirror, files: seq<string>): Mirror
  {
    if |files| > 0 then
      var playing := s.(player := Engine.Receive(s.player, Engine.PlayMedia(files[0])));
      playing.(isVideoLoaded := true)
    else
      s
  }

  /** Play/Pause: nothing without a video; otherwise pause a playing player, play any other. */
  function PlayPause(s: Mirror): Mirror
  {
    if !s.isVideoLoaded then s
    else if s.player.isPlaying then s.(player := Engine.Receive(s.player, Engine.Pause))
    else s.(player := Engine.Receive(s.player, Engine.Play))
  }

  /** Stop: the player is told to stop; the view catches up on the Stopped notification. */
  function Stop(s: Mirror): Mirror
  {
    s.(player := Engine.Receive(s.player, Engine.Stop))
  }

  /** Toggle Mute: flip the mute flag (a setter with no hook), then forward it. */
  function ToggleMute(s: Mirror): Mirror
  {
    var flipped := s.(isMuted := !s.isMuted);
    flipped.(player := Engine.Receive(flipped.player, Engine.SetMute(flipped.isMuted)))
  }

  // ---------------------------------------------------------------- engine notifications

  function OnMediaPlayerPlaying(s: Mirror): Mirror
  {
    s.(isPlaying := true)
  }

  function OnMediaPlayerPaused(s: Mirror): Mirror
  {
    s.(isPlaying := false)
  }

  /** Stopped: not playing, and the position back to 0 through its setter. */
  function OnMediaPlayerStopped(s: Mirror): Mirror
  {
    SetPosition(s.(isPlaying := false), 0.0)
  }

  function OnLengthChanged(s: Mirror, length: nat): Mirror
  {
    s.(totalTime := Clock.Format(length))
  }

  function OnTimeChanged(s: Mirror, time: nat): Mirror
  {
    s.(currentTime := Clock.Format(time))
  }

  /** The one-second timer: copy the player's position in, unless seeking or the length is unknown. */
  function OnPositionTimerElapsed(s: Mirror): Mirror
  {
    if !s.userSeeking && s.player.length > 0 then SetPosition(s, s.player.position) else s
  }

  // ---------------------------------------------------------------- runs

  /** Everything that can happen to the view model, each handled as one atomic step. */
  datatype Event =
    | FilesPicked(files: seq<string>)
    | PlayPausePressed
    | StopPressed
    | MutePressed
    | VolumeSet(volume: int)          // the volume control bound to `Volume`
    | PositionSet(position: real)     // the seek slider bound to `Position`
    | Playing
    | Paused
    | Stopped
    | LengthChanged(length: nat)
    | TimeChanged(time: nat)
    | TimerElapsed
    | EngineProgress(reportedLength: int, reportedPosition: real, playing: bool)   // the player's own doing

  function Step(s: Mirror, e: Event): Mirror
  {
    match e
    case FilesPicked(files) => OpenFile(s, files)
    case PlayPausePressed => PlayPause(s)
    case StopPressed => Stop(s)
    case MutePressed => ToggleMute(s)
    case VolumeSet(v) => SetVolume(s, v)
    case PositionSet(x) => SetPosition(s, x)
    case Playing => OnMediaPlayerPlaying(s)
    case Paused => OnMediaPlayerPaused(s)
    case Stopped => OnMediaPlayerStopped(s)
    case LengthChanged(ms) => OnLengthChanged(s, ms)
    case TimeChanged(ms) => OnTimeChanged(s, ms)
    case TimerElapsed => OnPositionTimerElapsed(s)
    case EngineProgress(len, x, p) => s.(player := Engine.Progress(s.player, len, x, p))
  }

  function Run(s: Mirror, es: seq<Event>): Mirror
    decreases |es|
  {
    if es == [] then s else Run(Step(s, es[0]), es[1..])
  }

  // ---------------------------------------------------------------- properties

  /** The volume glyph is the muted one exactly when muted or at volume 0; any other volume shows the same glyph. */
  lemma VolumeIconMutedIff(s: Mirror)
    ensures VolumeIcon(s) == VolumeMutedIcon <==> s.isMuted || s.volume == 0
    ensures !s.isMuted && s.volume != 0 ==> VolumeIcon(s) == VolumeLowIcon == VolumeHighIcon
  {
  }

  /** The play button glyph depends on the playing flag alone. */
  lemma PlayButtonIconOnlyIsPlaying(s: Mirror, t: Mirror)
    requires s.isPlaying == t.isPlaying
    ensures PlayButtonIcon(s) == PlayButtonIcon(t)
    ensures PlayButtonIcon(s) == PlayIcon <==> s.isPlaying
  {
  }

  /** A volume change forwards exactly the new value, unclamped; an equal value forwards nothing. */
  lemma SetVolumeForwards(s: Mirror, value: int)
    ensures SetVolume(s, value) == s.(volume := value, player := SetVolume(s, value).player)
    ensures SetVolume(s, value).player.(calls := s.player.calls) == s.player
    ensures value != s.volume ==> SetVolume(s, value).player.calls == s.player.calls + [Engine.SetVolume(value)]
    ensures value != s.volume ==> Engine.LastVolume(SetVolume(s, value).player.calls) == Engine.Some(value)
    ensures value == s.volume ==> SetVolume(s, value) == s
  {
  }

  /** Setting the volume to 0 leaves the mute flag alone and shows the muted glyph. */
  lemma VolumeZeroShowsMuted(s: Mirror)
    ensures SetVolume(s, 0).isMuted == s.isMuted
    ensures VolumeIcon(SetVolume(s, 0)) == VolumeMutedIcon
  {
    SetVolumeForwards(s, 0);
  }

  /** A position change seeks the player to it exactly when the guard holds and the value is new. */
  lemma SetPositionSeeks(s: Mirror, value: real)
    ensures SetPosition(s, value) == s.(position := value, player := SetPosition(s, value).player)
    ensures SetPosition(s, value).player.(calls := s.player.calls) ==
      if value != s.position && !s.userSeeking && s.player.length > 0
      then s.player.(position := value)
      else s.player
    ensures SetPosition(s, value).player.calls ==
      if value != s.position && !s.userSeeking && s.player.length > 0
      then s.player.calls + [Engine.Seek(value)]
      else s.player.calls
  {
  }

  /** Without a video Play/Pause is a no-op; with one it sends exactly one pause or play. */
  lemma PlayPauseCases(s: Mirror)
    ensures !s.isVideoLoaded ==> PlayPause(s) == s
    ensures s.isVideoLoaded ==>
      PlayPause(s) == s.(player := PlayPause(s).player) &&
      PlayPause(s).player.(calls := s.player.calls) == s.player &&
      PlayPause(s).player.calls == s.player.calls + [if s.player.isPlaying then Engine.Pause else Engine.Play]
  {
  }

  /** Stop only issues a stop call: no view-model field changes. */
  lemma StopOnlyCalls(s: Mirror)
    ensures Stop(s).(player := s.player) == s
    ensures Stop(s).player.(calls := s.player.calls) == s.player
    ensures Stop(s).player.calls == s.player.calls + [Engine.Stop]
  {
  }

  /** Toggle Mute flips the flag and leaves the player's mute equal to it; nothing else changes. */
  lemma ToggleMuteFlips(s: Mirror)
    ensures ToggleMute(s) == s.(isMuted := !s.isMuted, player := ToggleMute(s).player)
    ensures ToggleMute(s).player.(calls := s.player.calls) == s.player
    ensures Engine.LastMute(ToggleMute(s).player.calls) == ToggleMute(s).isMuted
    ensures ToggleMute(s).player.calls == s.player.calls + [Engine.SetMute(!s.isMuted)]
  {
  }

  /** Toggling twice restores the mute flag and the player's mute, and nothing else moves. */
  lemma {:induction false} ToggleMuteTwice(s: Mirror)
    requires Synced(s)
    ensures ToggleMute(ToggleMute(s)).(player := s.player) == s
    ensures ToggleMute(ToggleMute(s)).player.(calls := s.player.calls) == s.player
    ensures Engine.LastMute(ToggleMute(ToggleMute(s)).player.calls) == Engine.LastMute(s.player.calls)
    ensures ToggleMute(ToggleMute(s)).player.calls == s.player.calls + [Engine.SetMute(!s.isMuted), Engine.SetMute(s.isMuted)]
  {
    ToggleMuteFlips(s);
    ToggleMuteFlips(ToggleMute(s));
  }

  /** The timer tick copies the player's position only under the guard, and otherwise changes nothing. */
  lemma TimerTickGuarded(s: Mirror)
    ensures !s.userSeeking && s.player.length > 0 ==>
      OnPositionTimerElapsed(s) == s.(position := s.player.position, player := OnPositionTimerElapsed(s).player) &&
      OnPositionTimerElapsed(s).player.(calls := s.player.calls) == s.player
    ensures !(!s.userSeeking && s.player.length > 0) ==> OnPositionTimerElapsed(s) == s
  {
  }

  /**
    The seek flag never holds between operations, so it never keeps the tick's copy
    from travelling back: a tick that changes the position seeks the player to the
    very value it just read.
   */
  lemma TimerTickSeeksBack(s: Mirror)
    requires Synced(s) && s.player.length > 0 && s.player.position != s.position
    ensures OnPositionTimerElapsed(s).player.calls == s.player.calls + [Engine.Seek(s.player.position)]
    ensures OnPositionTimerElapsed(s).player.position == s.player.position
  {
  }

  /** Playing, Paused and Stopped set the playing flag; Stopped also rewinds, seeking the player when it knows the length. */
  lemma NotificationsSetPlaying(s: Mirror)
    ensures OnMediaPlayerPlaying(s) == s.(isPlaying := true)
    ensures OnMediaPlayerPaused(s) == s.(isPlaying := false)
    ensures OnMediaPlayerStopped(s) == s.(isPlaying := false, position := 0.0, player := OnMediaPlayerStopped(s).player)
    ensures OnMediaPlayerStopped(s).player.(calls := s.player.calls) ==
      if s.position != 0.0 && !s.userSeeking && s.player.length > 0
      then s.player.(position := 0.0)
      else s.player
    ensures OnMediaPlayerStopped(s).player.calls ==
      if s.position != 0.0 && !s.userSeeking && s.player.length > 0
      then s.player.calls + [Engine.Seek(0.0)]
      else s.player.calls
  {
  }

  /** A stop press followed by the player's Stopped notification leaves the view stopped at position 0. */
  lemma StopThenStopped(s: Mirror)
    ensures !Run(s, [StopPressed, Stopped]).isPlaying
    ensures Run(s, [StopPressed, Stopped]).position == 0.0
  {
    assert Run(s, [StopPressed, Stopped]) == OnMediaPlayerStopped(Stop(s)) by {
      assert [StopPressed, Stopped][1..] == [Stopped];
    }
  }

  /** The length and time notifications render the count as `mm:ss`. */
  lemma TimesRendered(s: Mirror, ms: nat)
    ensures OnLengthChanged(s, ms).totalTime == Clock.Format(ms)
    ensures OnTimeChanged(s, ms).currentTime == Clock.Format(ms)
    ensures Clock.Reading(OnLengthChanged(s, ms).totalTime) == ms / 1000 % 3600
  {
    Clock.ReadingOfFormat(ms);
  }

  /** A 120-second video shows a total time of `02:00` once its length is reported. */
  lemma TwoMinuteVideo(s: Mirror)
    ensures OnLengthChanged(s, 120000).totalTime == "02:00"
  {
    Clock.TwoMinutes();
  }

  /** Picking files plays the first one and marks the video loaded; picking none changes nothing. */
  lemma OpenFileCases(s: Mirror, files: seq<string>)
    ensures |files| == 0 ==> OpenFile(s, files) == s
    ensures |files| > 0 ==> OpenFile(s, files) == s.(isVideoLoaded := true, player := OpenFile(s, files).player)
    ensures |files| > 0 ==> OpenFile(s, files).player.(calls := s.player.calls) == s.player
    ensures |files| > 0 ==> OpenFile(s, files).player.calls == s.player.calls + [Engine.PlayMedia(files[0])]
  {
  }

  /** Every step keeps the invariant. */
  lemma StepKeepsSynced(s: Mirror, e: Event)
    requires Synced(s)
    ensures Synced(Step(s, e))
  {
  }

  /** The invariant holds after any run from a state where it holds, in particular from the initial state. */
  lemma {:induction false} RunKeepsSynced(s: Mirror, es: seq<Event>)
    requires Synced(s)
    ensures Synced(Run(s, es))
    decreases |es|
  {
    if es != [] {
      StepKeepsSynced(s, es[0]);
      RunKeepsSynced(Step(s, es[0]), es[1..]);
    }
  }

  /** No step ever unloads a video. */
  lemma {:induction false} RunKeepsVideoLoaded(s: Mirror, es: seq<Event>)
    requires s.isVideoLoaded
    ensures Run(s, es).isVideoLoaded
    decreases |es|
  {
    if es != [] {
      RunKeepsVideoLoaded(Step(s, es[0]), es[1..]);
    }
  }

  /** A step appends to the player's call record and never takes a call back. */
  lemma StepExtendsCalls(s: Mirror, e: Event)
    ensures s.player.calls <= Step(s, e).player.calls
  {
  }

  /** The player's call record only grows: no run takes back a call. */
  lemma {:induction false} RunExtendsCalls(s: Mirror, es: seq<Event>)
    ensures s.player.calls <= Run(s, es).player.calls
    decreases |es|
  {
    if es != [] {
      var t := Step(s, es[0]);
      StepExtendsCalls(s, es[0]);
      RunExtendsCalls(t, es[1..]);
    }
  }

  /** The calls that start, resume or pause playback. */
  predicate StartsOrPauses(c: Engine.Call)
  {
    c.PlayMedia? || c.Play? || c.Pause?
  }

  /** No call from index `from` on starts or pauses playback. */
  predicate NoTransportFrom(calls: seq<Engine.Call>, from: nat)
  {
    forall i :: from <= i < |calls| ==> !StartsOrPauses(calls[i])
  }

  /** Without a video, a step other than picking files neither loads one nor starts or pauses playback. */
  lemma StepBeforeOpen(s: Mirror, e: Event)
    requires !s.isVideoLoaded && !e.FilesPicked?
    ensures !Step(s, e).isVideoLoaded
    ensures s.player.calls <= Step(s, e).player.calls
    ensures NoTransportFrom(Step(s, e).player.calls, |s.player.calls|)
  {
    var t := Step(s, e);
    match e {
      case PlayPausePressed =>
        assert t == s;
      case StopPressed =>
        StopOnlyCalls(s);
        AppendNoTransport(s.player.calls, [Engine.Stop]);
      case MutePressed =>
        ToggleMuteFlips(s);
        AppendNoTransport(s.player.calls, [Engine.SetMute(!s.isMuted)]);
      case VolumeSet(v) =>
        SetVolumeForwards(s, v);
        AppendNoTransport(s.player.calls, if v != s.volume then [Engine.SetVolume(v)] else []);
      case PositionSet(x) =>
        SetPositionSeeks(s, x);
        AppendNoTransport(s.player.calls, if t.player.calls == s.player.calls then [] else [Engine.Seek(x)]);
      case Stopped =>
        NotificationsSetPlaying(s);
        AppendNoTransport(s.player.calls, if t.player.calls == s.player.calls then [] else [Engine.Seek(0.0)]);
      case TimerElapsed =>
        if !s.userSeeking && s.player.length > 0 {
          SetPositionSeeks(s, s.player.position);
          AppendNoTransport(s.player.calls, if t.player.calls == s.player.calls then [] else [Engine.Seek(s.player.position)]);
        }
      case FilesPicked(_) =>
        assert false;
      case Playing =>
      case Paused =>
      case LengthChanged(_) =>
      case TimeChanged(_) =>
      case EngineProgress(_, _, _) =>
    }
  }

  /** Appending calls none of which starts or pauses playback adds no such call. */
  lemma AppendNoTransport(calls: seq<Engine.Call>, extra: seq<Engine.Call>)
    requires forall i :: 0 <= i < |extra| ==> !StartsOrPauses(extra[i])
    ensures NoTransportFrom(calls + extra, |calls|)
  {
  }

  /** Until a file is picked, no call that starts or pauses playback reaches the player. */
  lemma {:induction false} NoTransportBeforeOpen(s: Mirror, es: seq<Event>)
    requires !s.isVideoLoaded
    requires forall i :: 0 <= i < |es| ==> !es[i].FilesPicked?
    ensures !Run(s, es).isVideoLoaded
    ensures NoTransportFrom(Run(s, es).player.calls, |s.player.calls|)
    decreases |es|
  {
    if es != [] {
      var t := Step(s, es[0]);
      StepBeforeOpen(s, es[0]);
      NoTransportBeforeOpen(t, es[1..]);
      RunExtendsCalls(t, es[1..]);
    }
  }
}
