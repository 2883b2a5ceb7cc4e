/**
 The notification record and the table of registered implementations: class, priority and the
 three flag bits of each category.
 */
module Categories {
  import opened Wrappers

  datatype Category = Ringtone | Clock | Calendar | Sms | Email | Chat | Sound | System | Critical

  /** The classes known to the playback manager; each has one owner slot. */
  datatype PolicyClass = RingtoneClass | AlarmClass | EventClass | SystemClass

  datatype Status = Unknown | Initialized | Playing | Stopped

  predicate IsMessage(c: Category) {
    c.Sms? || c.Email? || c.Chat? || c.Sound?
  }

  function ClassOf(c: Category): PolicyClass {
    match c
    case Ringtone => RingtoneClass
    case Clock | Calendar => AlarmClass
    case Sms | Email | Chat | Sound => EventClass
    case System | Critical => SystemClass
  }

  function Priority(c: Category): int {
    match c
    case Ringtone => 100
    case Clock | Calendar => 10
    case Sms | Email | Chat | Sound => 5
    case System | Critical => 1
  }

  /** Flag bit 1: the category also displaces a current notification of its own priority. */
  predicate DisplacesEqual(c: Category) {
    c.Clock? || c.Calendar? || c.System? || c.Critical?
  }

  /** Flag bit 2: the notification ends with the bus connection that asked for it. */
  predicate TracksSender(c: Category) {
    c.Ringtone?
  }

  /** Flag bit 4: with sound disabled the notification starts without asking for permission. */
  predicate SilentSkipsPolicy(c: Category) {
    IsMessage(c) || c.System? || c.Critical?
  }

  /** Only the System class is answered at once; its configured state is NONE. */
  predicate Asynchronous(p: PolicyClass) {
    p != SystemClass
  }

  /** What the private record of an implementation keeps between callbacks. */
  datatype Held = Held(
    playback: bool,   // a playback object exists
    announced: bool,  // that playback has emitted "started"
    tone: bool,       // a knock or notification tone is sounding
    timer: bool,      // a tone or finish timer is armed
    step: bool,       // the clock's volume timer is armed
    volumeStep: nat,
    vibra: bool)

  const NOTHING := Held(false, false, false, false, false, 0, false)

  /** What the caller fixed before the notification was started. */
  datatype Order = Order(
    category: Category,
    soundEnabled: bool,
    vibraEnabled: bool,  // enabled, and a pattern is set
    fallbackFile: Option<string>,
    sender: Option<string>)
  {
    predicate UsesPolicy() {
      soundEnabled || !SilentSkipsPolicy(category)
    }
  }

  datatype Notification = Notification(
    order: Order,
    soundFile: Option<string>,
    volume: int,
    status: Status,
    playing: bool,
    stopped: bool,
    fallback: bool,
    granted: bool,
    policy: bool,        // a policy object was created
    held: Held)
  {
    /** As it leaves nsv_notification_new and initialize. */
    predicate Fresh() {
      status == Unknown && !playing && !stopped && !fallback && !granted && !policy && held == NOTHING
    }

    function Category(): Category {
      order.category
    }

    function Class(): PolicyClass {
      ClassOf(order.category)
    }
  }
}
