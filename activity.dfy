/**
 * The activity monitor's pure parts: the idle timeout read from the add-on
 * preferences (`_get_idle_timeout_seconds`), the idle test (`_is_idle`) and the
 * classification of host events in `TST_OT_MonitorActivity.modal`.
 */
module Activity {
  import opened Options

  /** `IDLE_TIMEOUT_DEFAULT` */
  const IdleTimeoutDefault: real := 30.0

  /**
   * `_get_idle_timeout_seconds()`. `pref` is the preference as read from the host:
   * `None` when the add-on's preferences are missing or reading them raised.
   */
  function IdleTimeout(pref: Option<real>): (t: real)
    ensures t >= 0.0
    ensures pref.None? ==> t == IdleTimeoutDefault
    ensures pref.Some? ==> (t == pref.value || (pref.value < 0.0 && t == 0.0))
  {
    match pref
    case None => IdleTimeoutDefault
    case Some(secs) => if secs >= 0.0 then secs else 0.0
  }

  /** `_is_idle(now)` for a given timeout: a timeout of zero or less disables it. */
  predicate IsIdle(now: real, lastInput: real, timeout: real) {
    if timeout <= 0.0 then false else now - lastInput >= timeout
  }

  /** Host event types the handler looks at (Blender's `event.type` names). */
  const WindowActivate: string := "WINDOW_ACTIVATE"
  const WindowDeactivate: string := "WINDOW_DEACTIVATE"
  const Timer: string := "TIMER"

  /** Pointer motion that counts as input whatever `event.value` is. */
  predicate IsPointerMotion(et: string) {
    et in {"MOUSEMOVE", "INBETWEEN_MOUSEMOVE", "TRACKPADPAN", "TRACKPADZOOM"}
  }

  /** Mouse buttons and wheels, which count when pressed, released or clicked. */
  predicate IsButtonOrWheel(et: string) {
    et in {"LEFTMOUSE", "RIGHTMOUSE", "MIDDLEMOUSE", "BUTTON4MOUSE", "BUTTON5MOUSE",
           "WHEELUPMOUSE", "WHEELDOWNMOUSE", "WHEELINMOUSE", "WHEELOUTMOUSE"}
  }

  predicate IsClickValue(ev: string) {
    ev in {"PRESS", "RELEASE", "CLICK", "DOUBLE_CLICK"}
  }

  predicate IsPressOrRelease(ev: string) {
    ev in {"PRESS", "RELEASE"}
  }

  /** Whether `modal` calls `_bump_activity` for an event of type `et` and value `ev`. */
  predicate BumpsInput(et: string, ev: string) {
    || et == WindowActivate
    || IsPointerMotion(et)
    || (IsButtonOrWheel(et) && IsClickValue(ev))
    || (IsPressOrRelease(ev) && et != Timer)
  }

  /** The focus flag after `modal` handled an event of type `et`. */
  function FocusAfter(et: string, focused: bool): (f: bool)
    ensures et == WindowActivate ==> f
    ensures et == WindowDeactivate ==> !f
    ensures et != WindowActivate && et != WindowDeactivate ==> f == focused
  {
    if et == WindowActivate then true
    else if et == WindowDeactivate then false
    else focused
  }
}
