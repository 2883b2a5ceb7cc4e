/**
 The play, stop and callback bodies of the five category files, as functions on the private record
 they update, and what they must agree with: a table of the resources each mode of play holds.
 */
module Implementations {
  import opened Categories

  // ---------------------------------------------------------------- play and stop

  function AddPlayback(h: Held): Held {
    h.(playback := true, announced := false)
  }

  function DropPlayback(h: Held): Held {
    h.(playback := false, announced := false)
  }

  function AddVibra(o: Order, h: Held): Held {
    if o.vibraEnabled then h.(vibra := true) else h
  }

  function DropVibra(o: Order, h: Held): Held {
    if o.vibraEnabled then h.(vibra := false) else h
  }

  /** play: the private record afterwards, and whether play succeeded. */
  function Play(o: Order, granted: bool, h: Held): (Held, bool) {
    match o.category
    case Ringtone =>
      (if !granted then h.(tone := true) else if o.soundEnabled then AddPlayback(h) else AddVibra(o, h), true)
    case Clock =>
      var h := h.(volumeStep := 0);
      (if granted then AddPlayback(h) else h.(tone := true, timer := true), true)
    case Calendar =>
      (if granted then AddPlayback(h) else if o.soundEnabled then h.(tone := true, timer := true) else h, true)
    case Sms | Email | Chat | Sound =>
      (if !o.soundEnabled then AddVibra(o, h).(timer := true)
       else if !granted then AddVibra(o, h).(tone := true, timer := true)
       else AddPlayback(h), true)
    case System =>
      if granted && o.soundEnabled then (AddPlayback(h), true) else (h, false)
    case Critical =>
      if !o.soundEnabled then (h, false)
      else (if granted then AddPlayback(h) else h.(tone := true, timer := true), true)
  }

  /** A granted calendar alarm with sound disabled plays at volume 0. */
  function PlayVolume(o: Order, granted: bool, volume: int): int {
    if o.category.Calendar? && granted && !o.soundEnabled then 0 else volume
  }

  function Stop(o: Order, granted: bool, h: Held): Held {
    match o.category
    case Ringtone =>
      if granted then DropPlayback(DropVibra(o, h)) else h.(tone := false)
    case Clock =>
      var h := h.(step := false);
      if granted then DropPlayback(DropVibra(o, h)) else h.(tone := false, timer := false)
    case Calendar =>
      if granted then DropPlayback(DropVibra(o, h)) else h.(tone := false, timer := false)
    case Sms | Email | Chat | Sound =>
      var h := h.(timer := false);
      if granted then DropPlayback(DropVibra(o, h)) else h.(tone := false)
    case System =>
      DropPlayback(h)
    case Critical =>
      if granted then DropPlayback(h) else h.(tone := false)
  }

  // ---------------------------------------------------------------- callbacks

  /** "started" from the playback: vibration, and for the clock the first volume timer. */
  function Started(o: Order, h: Held): Held {
    var h := h.(announced := true);
    match o.category
    case System | Critical => h
    case Clock => AddVibra(o, h).(step := true)
    case _ => AddVibra(o, h)
  }

  /**
   The tone or finish timer fires. The clock's callback clears the id of its other timer; the ones
   of the calendar and the messages also stop the tone. All of them finish the notification next.
   */
  function TimerFired(o: Order, h: Held): Held {
    match o.category
    case Clock => h.(step := false)
    case Calendar => h.(timer := false, tone := false)
    case Sms | Email | Chat | Sound => h.(timer := false, tone := if o.soundEnabled then false else h.tone)
    case _ => h.(timer := false)
  }

  /** The clock's volume timer; the second result says that the notification is to be finished. */
  function VolumeStep(h: Held): (Held, bool) {
    if h.volumeStep <= 2 then (h.(volumeStep := h.volumeStep + 1, step := true), false)
    else if h.volumeStep == 3 then (DropPlayback(h.(step := false)), true)
    else (h, false)
  }

  // ---------------------------------------------------------------- what they must agree with

  predicate WantsPlayback(o: Order, granted: bool) {
    granted && (o.soundEnabled || o.category.Clock? || o.category.Calendar?)
  }

  predicate WantsTone(o: Order, granted: bool) {
    !granted && !o.category.System? && (o.soundEnabled || o.category.Ringtone? || o.category.Clock?)
  }

  predicate WantsTimer(o: Order, granted: bool) {
    if IsMessage(o.category) then !(o.soundEnabled && granted)
    else WantsTone(o, granted) && !o.category.Ringtone?
  }

  /**
   Vibration is on: once the playback has announced itself, for messages also in the modes without a
   playback, and for a granted ringtone without sound. System and critical events never vibrate.
   */
  predicate Vibrates(o: Order, granted: bool, h: Held) {
    && o.vibraEnabled && !o.category.System? && !o.category.Critical?
    && (h.announced || (IsMessage(o.category) && !h.playback) || (o.category.Ringtone? && granted && !o.soundEnabled))
  }

  /** The resources of a notification whose play succeeded and that was not stopped since. */
  predicate Sounding(o: Order, granted: bool, h: Held) {
    && h.playback == WantsPlayback(o, granted)
    && h.tone == WantsTone(o, granted)
    && h.timer == WantsTimer(o, granted)
    && (h.announced ==> h.playback)
    && (h.step <==> o.category.Clock? && h.announced)
    && h.volumeStep <= 3
    && (h.vibra <==> Vibrates(o, granted, h))
  }

  /** The only vibration that stop leaves on: a message whose playback was refused. */
  predicate KeepsVibrating(o: Order, granted: bool) {
    o.vibraEnabled && IsMessage(o.category) && !granted
  }

  /** No playback, no tone and no volume timer. */
  predicate Silent(o: Order, granted: bool, h: Held) {
    && !h.playback && !h.announced && !h.tone && !h.step && h.volumeStep <= 3
    && (h.vibra ==> KeepsVibrating(o, granted))
  }

  /** What shutdown may still find: nothing, except the finish timer of a critical notification. */
  predicate Released(o: Order, granted: bool, h: Held) {
    Silent(o, granted, h) && (h.timer ==> o.category.Critical? && WantsTimer(o, granted))
  }

  predicate Resting(o: Order, granted: bool, h: Held) {
    Silent(o, granted, h) && !h.timer
  }

  lemma PlayTakesExactlyItsMode(o: Order, granted: bool, h: Held)
    requires Resting(o, granted, h)
    ensures var (h', ok) := Play(o, granted, h);
            && (ok <==> !(o.category.System? || o.category.Critical?) || (o.soundEnabled && (granted || o.category.Critical?)))
            && (if ok then Sounding(o, granted, h') else h' == h)
            && (o.category.Clock? ==> h'.volumeStep == 0)
  {
  }

  lemma StopReleasesItsMode(o: Order, granted: bool, h: Held)
    requires Sounding(o, granted, h)
    ensures var h' := Stop(o, granted, h);
            && Released(o, granted, h')
            && (h'.timer <==> h.timer && o.category.Critical?)
            && (h'.vibra <==> h.vibra && KeepsVibrating(o, granted))
  {
  }

  /** A stop after the tone timer, or after the clock's last volume step, still releases everything. */
  lemma StopAfterTimer(o: Order, granted: bool, h: Held)
    requires Sounding(o, granted, h) && h.timer
    ensures Resting(o, granted, Stop(o, granted, TimerFired(o, h)))
  {
  }

  lemma StopAfterLastStep(o: Order, granted: bool, h: Held)
    requires Sounding(o, granted, h) && h.step && h.volumeStep == 3
    ensures VolumeStep(h).1 && Resting(o, granted, Stop(o, granted, VolumeStep(h).0))
  {
  }

  /** The timer that has fired is forgotten, except by the clock, which forgets its other timer. */
  lemma FiredTimerIsForgotten(o: Order, h: Held)
    requires h.timer
    ensures TimerFired(o, h).timer <==> o.category.Clock?
    ensures o.category.Clock? ==> !TimerFired(o, h).step
  {
  }

  lemma CallbacksKeepTheMode(o: Order, granted: bool, h: Held)
    requires Sounding(o, granted, h)
    ensures h.playback && !h.announced ==> Sounding(o, granted, Started(o, h))
    ensures h.step && h.volumeStep < 3 ==> Sounding(o, granted, VolumeStep(h).0) && !VolumeStep(h).1
  {
  }
}
