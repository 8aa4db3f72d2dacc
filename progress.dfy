/** Timeline progress: 0 at sunrise, 1 at sunset, negative before sunrise and
    above 1 after sunset. It comes from the wall clock unless a drag gesture on
    the timeline has stored an override, which the end of the gesture discards. */
module Progress {
  import opened Builtins

  /** `Math.PI`, as the decimal JavaScript prints for it. */
  const Pi: real := 3.141592653589793

  /** `(now - sunrise) / (sunset - sunrise)`. The source divides by the raw span
      without a guard, so the span must be nonzero. */
  function DefaultProgress(nowMins: int, sunriseMins: int, sunsetMins: int): (p: real)
    requires sunsetMins != sunriseMins
    ensures p * (sunsetMins - sunriseMins) as real == (nowMins - sunriseMins) as real
  {
    (nowMins - sunriseMins) as real / (sunsetMins - sunriseMins) as real
  }

  /** With sunrise before sunset, the wall-clock progress is negative exactly
      before sunrise, above 1 exactly after sunset, and in [0, 1] in between. */
  lemma DefaultProgressSides(nowMins: int, sunriseMins: int, sunsetMins: int)
    requires sunriseMins < sunsetMins
    ensures DefaultProgress(nowMins, sunriseMins, sunsetMins) < 0.0 <==> nowMins < sunriseMins
    ensures DefaultProgress(nowMins, sunriseMins, sunsetMins) > 1.0 <==> nowMins > sunsetMins
  {
    var p := DefaultProgress(nowMins, sunriseMins, sunsetMins);
    var span := (sunsetMins - sunriseMins) as real;
    assert p * span == (nowMins - sunriseMins) as real;
    assert (p - 1.0) * span == p * span - span;
    MulSign(p, span);
    MulSign(p - 1.0, span);
  }

  /** The pointer angle to progress, after `atan2`: an angle below the horizon
      snaps to the nearer end of the arc, then `(angle + pi) / pi` is clamped to
      [0, 1]. */
  function AngleToProgress(angle: real, dx: real): (p: real)
    ensures 0.0 <= p <= 1.0
    ensures angle > 0.0 ==> p == (if dx < 0.0 then 0.0 else 1.0)
    ensures -Pi <= angle <= 0.0 ==> p * Pi == angle + Pi
  {
    var snapped := if angle > 0.0 then (if dx < 0.0 then -Pi else 0.0) else angle;
    Clamp01((snapped + Pi) / Pi)
  }

  /** Over the upper half-plane a larger angle never gives a smaller progress. */
  lemma AngleToProgressMonotone(a1: real, a2: real, dx1: real, dx2: real)
    requires a1 <= a2 <= 0.0
    ensures AngleToProgress(a1, dx1) <= AngleToProgress(a2, dx2)
  {
  }

  /** The drag-override state: `isDragging` and `dragProgress` (`None` for null). */
  class DragState {
    var isDragging: bool
    var dragProgress: Option<real>

    /** An override is only ever stored during a gesture, and it lies in [0, 1]. */
    ghost predicate Valid()
      reads this
    {
      dragProgress.Some? ==> isDragging && 0.0 <= dragProgress.value <= 1.0
    }

    constructor ()
      ensures Valid() && !isDragging && dragProgress == None
    {
      isDragging := false;
      dragProgress := None;
    }

    /** The effective progress: the override while dragging with a stored value,
        otherwise the wall-clock progress. */
    function Progress(wallClock: real): (p: real)
      reads this
      requires Valid()
      ensures dragProgress.Some? ==> p == dragProgress.value && 0.0 <= p <= 1.0
      ensures dragProgress.None? ==> p == wallClock
    {
      if isDragging && dragProgress != None then dragProgress.value else wallClock
    }

    /** `handleStart`: a gesture begins; no override is stored until the first move. */
    method Start()
      requires Valid()
      modifies this
      ensures Valid() && isDragging && dragProgress == old(dragProgress)
    {
      isDragging := true;
    }

    /** A pointer move: while a gesture is active, the override becomes the
        progress of the pointer angle; otherwise nothing changes. */
    method Move(angle: real, dx: real)
      requires Valid()
      modifies this
      ensures Valid() && isDragging == old(isDragging)
      ensures dragProgress == if old(isDragging) then Some(AngleToProgress(angle, dx)) else old(dragProgress)
    {
      if isDragging {
        dragProgress := Some(AngleToProgress(angle, dx));
      }
    }

    /** `onEnd`: the gesture ends and the override is discarded, so the
        effective progress is the wall-clock progress again. */
    method End()
      requires Valid()
      modifies this
      ensures Valid() && !isDragging && dragProgress == None
      ensures forall wallClock: real :: Progress(wallClock) == wallClock
    {
      isDragging := false;
      dragProgress := None;
    }
  }
}
