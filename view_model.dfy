/**
  The main window's view model as an object whose handlers update its fields in
  place. Each method is one command, change hook, notification handler or timer
  tick, taken as an atomic step; its new state is the matching function of
  module Transport applied to the old state.
 */
module ViewModel {
  import Engine
  import Clock
  import Transport

  class MainWindowViewModel {
    var IsVideoLoaded: bool
    var IsPlaying: bool
    var Position: real
    var Volume: int
    var IsMuted: bool
    var CurrentTime: string
    var TotalTime: string
    var isUserSeeking: bool
    var MediaPlayer: Engine.Player

    /** The object's state as a value. */
    ghost function Snapshot(): Transport.Mirror
      reads this
    {
      Transport.Mirror(IsVideoLoaded, IsPlaying, Position, Volume, IsMuted,
                       CurrentTime, TotalTime, isUserSeeking, MediaPlayer)
    }

    ghost predicate Valid()
      reads this
    {
      Transport.Synced(Snapshot())
    }

    constructor ()
      ensures Valid()
      ensures Snapshot() == Transport.Initial()
      ensures Volume == 50 && Engine.LastVolume(MediaPlayer.calls) == Engine.Some(50)
    {
      IsVideoLoaded, IsPlaying, Position := false, false, 0.0;
      Volume, IsMuted := 50, false;
      CurrentTime, TotalTime := "00:00", "00:00";
      isUserSeeking := false;
      MediaPlayer := Engine.Created();
      new;
      Clock.OneHour();
      SetVolume(50);
      MediaPlayer := Engine.Receive(MediaPlayer, Engine.SetVolume(Volume));
    }

    /** The volume change hook, run by the setter once the new value is stored. */
    method OnVolumeChanged(value: int)
      requires Transport.SyncedButVolume(Snapshot()) && Volume == value
      modifies this
      ensures Snapshot() == Transport.OnVolumeChanged(old(Snapshot()), value)
      ensures Valid()
    {
      MediaPlayer := Engine.Receive(MediaPlayer, Engine.SetVolume(value));
    }

    /** The generated `Volume` setter, as the volume control uses it. */
    method SetVolume(value: int)
      requires Transport.SyncedButVolume(Snapshot())
      modifies this
      ensures Snapshot() == Transport.SetVolume(old(Snapshot()), value)
      ensures Volume == value
      ensures Transport.SyncedButVolume(Snapshot())
      ensures old(Valid()) || value != old(Volume) ==> Valid()
    {
      if value != Volume {
        Volume := value;
        OnVolumeChanged(value);
      }
    }

    /** The position change hook, with its seek flag. */
    method OnPositionChanged(value: real)
      requires Valid()
      modifies this
      ensures Snapshot() == Transport.OnPositionChanged(old(Snapshot()), value)
      ensures Valid()
      ensures isUserSeeking == old(isUserSeeking)
    {
      if !isUserSeeking && MediaPlayer.length > 0 {
        isUserSeeking := true;
        MediaPlayer := Engine.Receive(MediaPlayer, Engine.Seek(value));
        isUserSeeking := false;
      }
    }

    /** The generated `Position` setter, as the seek slider and the handlers use it. */
    method SetPosition(value: real)
      requires Valid()
      modifies this
      ensures Snapshot() == Transport.SetPosition(old(Snapshot()), value)
      ensures Valid()
      ensures Position == value
    {
      if value != Position {
        Position := value;
        OnPositionChanged(value);
      }
    }

    /** Open File, given what the picker returned. */
    method OpenFile(files: seq<string>)
      requires Valid()
      modifies this
      ensures Snapshot() == Transport.OpenFile(old(Snapshot()), files)
      ensures Valid()
      ensures IsVideoLoaded == (old(IsVideoLoaded) || |files| > 0)
    {
      if |files| > 0 {
        var file := files[0];
        MediaPlayer := Engine.Receive(MediaPlayer, Engine.PlayMedia(file));
        IsVideoLoaded := true;
      }
    }

    method PlayPause()
      requires Valid()
      modifies this
      ensures Snapshot() == Transport.PlayPause(old(Snapshot()))
      ensures Valid()
      ensures !old(IsVideoLoaded) ==> unchanged(this)
    {
      if !IsVideoLoaded {
        return;
      }
      if MediaPlayer.isPlaying {
        MediaPlayer := Engine.Receive(MediaPlayer, Engine.Pause);
      } else {
        MediaPlayer := Engine.Receive(MediaPlayer, Engine.Play);
      }
    }

    method Stop()
      requires Valid()
      modifies this`MediaPlayer
      ensures Snapshot() == Transport.Stop(old(Snapshot()))
      ensures Valid()
      ensures MediaPlayer.calls == old(MediaPlayer.calls) + [Engine.Stop]
    {
      MediaPlayer := Engine.Receive(MediaPlayer, Engine.Stop);
    }

    method ToggleMute()
      requires Valid()
      modifies this
      ensures Snapshot() == Transport.ToggleMute(old(Snapshot()))
      ensures IsMuted == !old(IsMuted) && Engine.LastMute(MediaPlayer.calls) == IsMuted
      ensures Valid()
    {
      IsMuted := !IsMuted;
      MediaPlayer := Engine.Receive(MediaPlayer, Engine.SetMute(IsMuted));
    }

    method OnMediaPlayerPlaying()
      requires Valid()
      modifies this
      ensures Snapshot() == Transport.OnMediaPlayerPlaying(old(Snapshot()))
      ensures Valid()
    {
      IsPlaying := true;
    }

    method OnMediaPlayerPaused()
      requires Valid()
      modifies this
      ensures Snapshot() == Transport.OnMediaPlayerPaused(old(Snapshot()))
      ensures Valid()
    {
      IsPlaying := false;
    }

    method OnMediaPlayerStopped()
      requires Valid()
      modifies this
      ensures Snapshot() == Transport.OnMediaPlayerStopped(old(Snapshot()))
      ensures !IsPlaying && Position == 0.0
      ensures Valid()
    {
      IsPlaying := false;
      SetPosition(0.0);
    }

    method OnLengthChanged(length: nat)
      requires Valid()
      modifies this
      ensures Snapshot() == Transport.OnLengthChanged(old(Snapshot()), length)
      ensures Valid()
    {
      TotalTime := Clock.Format(length);
    }

    method OnTimeChanged(time: nat)
      requires Valid()
      modifies this
      ensures Snapshot() == Transport.OnTimeChanged(old(Snapshot()), time)
      ensures Valid()
    {
      CurrentTime := Clock.Format(time);
    }

    /** The one-second timer tick. */
    method OnPositionTimerElapsed()
      requires Valid()
      modifies this
      ensures Snapshot() == Transport.OnPositionTimerElapsed(old(Snapshot()))
      ensures Valid()
    {
      if !isUserSeeking && MediaPlayer.length > 0 {
        SetPosition(MediaPlayer.position);
      }
    }
  }

  /** What a caller of the class can rely on, over a short session. */
  method Session(path: string)
  {
    var vm := new MainWindowViewModel();
    assert Transport.VolumeIcon(vm.Snapshot()) == Transport.VolumeHighIcon;
    vm.PlayPause();
    assert vm.MediaPlayer.calls == [Engine.SetVolume(50)];
    vm.SetVolume(0);
    assert !vm.IsMuted && Transport.VolumeIcon(vm.Snapshot()) == Transport.VolumeMutedIcon;
    vm.OpenFile([path]);
    assert vm.IsVideoLoaded;
    assert vm.MediaPlayer.calls == [Engine.SetVolume(50), Engine.SetVolume(0), Engine.PlayMedia(path)];
    vm.ToggleMute();
    vm.ToggleMute();
    assert !vm.IsMuted && !Engine.LastMute(vm.MediaPlayer.calls);
    vm.OnLengthChanged(120000);
    Clock.TwoMinutes();
    assert vm.TotalTime == "02:00";
    vm.Stop();
    vm.OnMediaPlayerStopped();
    assert !vm.IsPlaying && vm.Position == 0.0 && vm.Valid();
  }
}
