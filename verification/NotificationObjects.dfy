/**
 struct nsv_notification as an object that the handlers update in place: the event status, and the
 private record of the implementation of its category. Each method is proved against the functions
 of Implementations.
 */
module NotificationObjects {
  import opened Wrappers
  import opened Categories
  import Impl = Implementations
  import M = Manager

  class NsvNotification {
    const order: Order
    var soundFile: Option<string>
    var volume: int
    var status: Status
    var playing: bool
    var stopped: bool
    var fallback: bool
    var granted: bool
    var policy: bool
    // the implementation's private record
    var playback: bool
    var announced: bool
    var tone: bool
    var timer: bool
    var step: bool
    var volumeStep: nat
    var vibra: bool

    constructor (order: Order, soundFile: Option<string>, volume: int)
      ensures Snapshot() == Notification(order, soundFile, volume, Unknown, false, false, false, false, false, NOTHING)
    {
      this.order, this.soundFile, this.volume := order, soundFile, volume;
      status, playing, stopped, fallback, granted, policy := Unknown, false, false, false, false, false;
      playback, announced, tone, timer, step, volumeStep, vibra := false, false, false, false, false, 0, false;
    }

    function Resources(): Held
      reads this
    {
      Held(playback, announced, tone, timer, step, volumeStep, vibra)
    }

    function Snapshot(): Notification
      reads this
    {
      Notification(order, soundFile, volume, status, playing, stopped, fallback, granted, policy, Resources())
    }

    // ---------------------------------------------------------------- the event status

    method SetStatus(status: Status)
      modifies `status
      ensures Snapshot() == old(Snapshot()).(status := status)
    {
      this.status := status;
    }

    method SetStopped()
      modifies `stopped
      ensures Snapshot() == old(Snapshot()).(stopped := true)
    {
      stopped := true;
    }

    method SetPlaying(granted: bool)
      modifies `status, `granted
      ensures Snapshot() == old(Snapshot()).(status := Playing, granted := granted)
    {
      status := Playing;
      this.granted := granted;
    }

    /** nsv_policy_new. */
    method SetPolicy()
      modifies `policy
      ensures Snapshot() == old(Snapshot()).(policy := true)
    {
      policy := true;
    }

    method SetGranted()
      modifies `granted
      ensures Snapshot() == old(Snapshot()).(granted := true)
    {
      granted := true;
    }

    method SetFallback()
      modifies `soundFile, `fallback
      ensures Snapshot() == old(Snapshot()).(soundFile := order.fallbackFile, fallback := true)
    {
      soundFile := order.fallbackFile;
      fallback := true;
    }

    // ---------------------------------------------------------------- shared steps

    method StartPlayback()
      modifies `playback, `announced
      ensures Resources() == Impl.AddPlayback(old(Resources()))
    {
      playback := true;
      announced := false;
    }

    method StartVibra()
      modifies `vibra
      ensures Resources() == Impl.AddVibra(order, old(Resources()))
    {
      if order.vibraEnabled {
        vibra := true;
      }
    }

    method StopVibra()
      modifies `vibra
      ensures Resources() == Impl.DropVibra(order, old(Resources()))
    {
      if order.vibraEnabled {
        vibra := false;
      }
    }

    /** What the playback has announced goes with it. */
    method StopPlayback()
      modifies `playback, `announced
      ensures Resources() == Impl.DropPlayback(old(Resources()))
    {
      if playback {
        playback := false;
      }
      announced := false;
    }

    // ---------------------------------------------------------------- play

    method RingtonePlay()
      requires order.category.Ringtone?
      modifies `playback, `announced, `tone, `vibra
      ensures Resources() == Impl.Play(order, granted, old(Resources())).0
    {
      if granted {
        if order.soundEnabled {
          StartPlayback();
        } else {
          StartVibra();
        }
      } else {
        tone := true;
      }
    }

    method ClockPlay()
      requires order.category.Clock?
      modifies `playback, `announced, `tone, `timer, `volumeStep
      ensures Resources() == Impl.Play(order, granted, old(Resources())).0
    {
      volumeStep := 0;
      if granted {
        StartPlayback();
      } else {
        tone := true;
        timer := true;
      }
    }

    method CalendarPlay()
      requires order.category.Calendar?
      modifies `playback, `announced, `tone, `timer, `volume
      ensures Resources() == Impl.Play(order, granted, old(Resources())).0
      ensures volume == Impl.PlayVolume(order, granted, old(volume))
    {
      if granted {
        if !order.soundEnabled {
          volume := 0;
        }
        StartPlayback();
      } else if order.soundEnabled {
        tone := true;
        timer := true;
      }
    }

    method EventPlay()
      requires IsMessage(order.category)
      modifies `playback, `announced, `tone, `timer, `vibra
      ensures Resources() == Impl.Play(order, granted, old(Resources())).0
    {
      if !order.soundEnabled {
        StartVibra();
        timer := true;
        return;
      }
      if !granted {
        StartVibra();
        tone := true;
        timer := true;
        return;
      }
      StartPlayback();
    }

    method SystemPlay() returns (ok: bool)
      requires order.category.System?
      modifies `playback, `announced
      ensures Resources() == Impl.Play(order, granted, old(Resources())).0
      ensures ok == Impl.Play(order, granted, old(Resources())).1
    {
      if granted && order.soundEnabled {
        StartPlayback();
        return true;
      }
      return false;
    }

    method CriticalPlay() returns (ok: bool)
      requires order.category.Critical?
      modifies `playback, `announced, `tone, `timer
      ensures Resources() == Impl.Play(order, granted, old(Resources())).0
      ensures ok == Impl.Play(order, granted, old(Resources())).1
    {
      if !order.soundEnabled {
        return false;
      }
      if granted {
        StartPlayback();
      } else {
        tone := true;
        timer := true;
      }
      return true;
    }

    method Play() returns (ok: bool)
      modifies `playback, `announced, `tone, `timer, `step, `volumeStep, `vibra, `volume
      ensures Resources() == Impl.Play(order, granted, old(Resources())).0
      ensures volume == Impl.PlayVolume(order, granted, old(volume))
      ensures ok == Impl.Play(order, granted, old(Resources())).1
    {
      ok := true;
      match order.category
      case Ringtone => RingtonePlay();
      case Clock => ClockPlay();
      case Calendar => CalendarPlay();
      case Sms | Email | Chat | Sound => EventPlay();
      case System => ok := SystemPlay();
      case Critical => ok := CriticalPlay();
    }

    // ---------------------------------------------------------------- stop

    method RingtoneStop()
      requires order.category.Ringtone?
      modifies `playback, `announced, `tone, `vibra
      ensures Resources() == Impl.Stop(order, granted, old(Resources()))
    {
      if granted {
        StopVibra();
        StopPlayback();
      } else {
        tone := false;
      }
    }

    method ClockStop()
      requires order.category.Clock?
      modifies `playback, `announced, `tone, `timer, `step, `vibra
      ensures Resources() == Impl.Stop(order, granted, old(Resources()))
    {
      if step {
        step := false;
      }
      if granted {
        StopVibra();
        StopPlayback();
      } else {
        tone := false;
        if timer {
          timer := false;
        }
      }
    }

    method CalendarStop()
      requires order.category.Calendar?
      modifies `playback, `announced, `tone, `timer, `vibra
      ensures Resources() == Impl.Stop(order, granted, old(Resources()))
    {
      if granted {
        StopVibra();
        StopPlayback();
      } else {
        tone := false;
        if timer {
          timer := false;
        }
      }
    }

    method EventStop()
      requires IsMessage(order.category)
      modifies `playback, `announced, `tone, `timer, `vibra
      ensures Resources() == Impl.Stop(order, granted, old(Resources()))
    {
      if timer {
        timer := false;
      }
      if granted {
        StopVibra();
        StopPlayback();
      } else {
        tone := false;
      }
    }

    method CriticalStop()
      requires order.category.Critical?
      modifies `playback, `announced, `tone
      ensures Resources() == Impl.Stop(order, granted, old(Resources()))
    {
      if granted {
        StopPlayback();
      } else {
        tone := false;
      }
    }

    method Stop()
      modifies `playback, `announced, `tone, `timer, `step, `vibra
      ensures Resources() == Impl.Stop(order, granted, old(Resources()))
    {
      match order.category
      case Ringtone => RingtoneStop();
      case Clock => ClockStop();
      case Calendar => CalendarStop();
      case Sms | Email | Chat | Sound => EventStop();
      case System => StopPlayback();
      case Critical => CriticalStop();
    }

    /** The implementation's stop, if it is playing. */
    method Silence()
      modifies `playing, `playback, `announced, `tone, `timer, `step, `vibra
      ensures Snapshot() == if old(playing) then M.StopRecord(old(Snapshot())) else old(Snapshot())
    {
      if playing {
        Stop();
        playing := false;
      }
    }

    /** The implementation's play, and the flag when it succeeds. */
    method Sound() returns (ok: bool)
      modifies `playing, `volume, `playback, `announced, `tone, `timer, `step, `volumeStep, `vibra
      ensures Snapshot() == M.PlayRecord(old(Snapshot()))
      ensures ok == M.PlaySucceeds(old(Snapshot()))
    {
      ok := Play();
      if ok {
        playing := true;
      }
    }

    // ---------------------------------------------------------------- callbacks

    method OnStarted()
      modifies `announced, `step, `vibra
      ensures Snapshot() == old(Snapshot()).(held := Impl.Started(order, old(Resources())))
    {
      announced := true;
      if !order.category.System? && !order.category.Critical? {
        StartVibra();
      }
      if order.category.Clock? {
        step := true;
      }
    }

    method OnTimer()
      modifies `tone, `timer, `step
      ensures Snapshot() == old(Snapshot()).(held := Impl.TimerFired(order, old(Resources())))
    {
      if order.category.Clock? {
        step := false;
        return;
      }
      if order.category.Calendar? || (IsMessage(order.category) && order.soundEnabled) {
        tone := false;
      }
      timer := false;
    }

    /** done: the notification is to be finished. */
    method OnVolumeTimer() returns (done: bool)
      modifies `playback, `announced, `step, `volumeStep
      ensures Snapshot() == old(Snapshot()).(held := Impl.VolumeStep(old(Resources())).0)
      ensures done == Impl.VolumeStep(old(Resources())).1
    {
      if volumeStep <= 2 {
        volumeStep := volumeStep + 1;
        step := true;
        return false;
      }
      if volumeStep == 3 {
        step := false;
        StopPlayback();
        return true;
      }
      return false;
    }
  }
}
