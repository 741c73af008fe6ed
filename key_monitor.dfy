/**
 * The two `flagsChanged` monitors installed in `applicationDidFinishLaunching`
 * (GroqDictate/Main.swift): each turns a change of the `fn` key's state into an
 * "FnKeyDown" or "FnKeyUp" notification for the session controller.
 */
module KeyMonitor {
  import opened Wrappers

  /** `NSEvent.keyCode` is a 16-bit unsigned value. */
  type KeyCode = x: int | 0 <= x < 0x1_0000

  /** The virtual key code of the `fn` key. */
  const FnKeyCode: KeyCode := 63

  /** The device-independent members of `NSEvent.ModifierFlags`. */
  datatype ModifierFlag = CapsLock | Shift | Control | Option | Command | NumericPad | Help | Function

  /** A `.flagsChanged` event: which key changed and the modifier flags now held. */
  datatype FlagsChangedEvent = FlagsChangedEvent(keyCode: KeyCode, modifierFlags: set<ModifierFlag>)

  /** The two notification names posted to `NotificationCenter`. */
  datatype Notification = FnKeyDown | FnKeyUp

  /**
   * The notification one monitor posts for an event: only the `fn` key posts,
   * "down" while the `.function` flag is held and "up" once it is released.
   */
  function Classify(e: FlagsChangedEvent): (n: Option<Notification>)
    ensures n.Some? <==> e.keyCode == FnKeyCode
    ensures n == Some(FnKeyDown) <==> e.keyCode == FnKeyCode && Function in e.modifierFlags
    ensures n == Some(FnKeyUp) <==> e.keyCode == FnKeyCode && Function !in e.modifierFlags
  {
    if e.keyCode == FnKeyCode then
      if Function in e.modifierFlags then Some(FnKeyDown) else Some(FnKeyUp)
    else
      None
  }

  /** What the global monitor does with an event sent to another application: post, and nothing else. */
  function GlobalMonitor(e: FlagsChangedEvent): Option<Notification> {
    Classify(e)
  }

  /** What the local monitor does with an event sent to this application. */
  datatype LocalOutcome = LocalOutcome(posted: Option<Notification>, passedOn: Option<FlagsChangedEvent>)

  /**
   * The local monitor posts what the global one would, swallows every `fn` key
   * event (returns nil) and hands every other event on unchanged.
   */
  function LocalMonitor(e: FlagsChangedEvent): (o: LocalOutcome)
    ensures o.posted == GlobalMonitor(e)
    ensures o.passedOn.None? <==> e.keyCode == FnKeyCode
    ensures o.passedOn.Some? ==> o.passedOn.value == e
  {
    if e.keyCode == FnKeyCode then
      LocalOutcome(Classify(e), None)
    else
      LocalOutcome(None, Some(e))
  }

  /**
   * Pressing and releasing `fn` alone posts "down" then "up", whichever monitor
   * sees each event; other modifiers held at the same time do not matter.
   */
  lemma PressThenReleasePostsDownThenUp(held: set<ModifierFlag>)
    ensures GlobalMonitor(FlagsChangedEvent(FnKeyCode, held + {Function})) == Some(FnKeyDown)
    ensures GlobalMonitor(FlagsChangedEvent(FnKeyCode, held - {Function})) == Some(FnKeyUp)
    ensures LocalMonitor(FlagsChangedEvent(FnKeyCode, held + {Function})).posted == Some(FnKeyDown)
    ensures LocalMonitor(FlagsChangedEvent(FnKeyCode, held - {Function})).posted == Some(FnKeyUp)
  {
  }
}
