/** The seek bar of components/ProgressBar.js: the cursor position clamp, the
    displayed progress, and the drag state machine over `isDragging` and
    `dragPosition`. Its `formatTime` is Clock.FormatTimeOrZero. The layout of
    the bar is an input: `raw` is `((clientX - rect.left) / rect.width) * 100`
    for the cursor event at hand, and `hasRef` says whether the bar is
    mounted. `disabled` and `duration` are the component's props at the time
    of the event. */
module ProgressBar {
  import opened Values

  /** `getPositionFromEvent`: 0 without a mounted bar, else the cursor's
      percentage along the bar clamped to [0, 100]. */
  function Position(hasRef: bool, raw: real): (p: real)
    ensures 0.0 <= p <= 100.0
    ensures !hasRef ==> p == 0.0
    ensures hasRef && 0.0 <= raw <= 100.0 ==> p == raw
    ensures hasRef && raw < 0.0 ==> p == 0.0
    ensures hasRef && raw > 100.0 ==> p == 100.0
  {
    if !hasRef then 0.0 else Clamp(0.0, 100.0, raw)
  }

  /** `duration > 0 ? (currentTime / duration) * 100 : 0`. */
  function Progress(currentTime: real, duration: real): (p: real)
    ensures duration <= 0.0 ==> p == 0.0
    ensures duration > 0.0 ==> p * duration == currentTime * 100.0
  {
    if duration > 0.0 then currentTime / duration * 100.0 else 0.0
  }

  /** A played position within the track shows as a percentage in [0, 100]. */
  lemma ProgressInRange(currentTime: real, duration: real)
    requires 0.0 <= currentTime <= duration
    ensures 0.0 <= Progress(currentTime, duration) <= 100.0
  {
    if duration > 0.0 {
      var p := Progress(currentTime, duration);
      assert p * duration == currentTime * 100.0;
    }
  }

  /** `(position / 100) * duration`: the time a cursor position seeks to. */
  function SeekTime(position: real, duration: real): (t: real)
    ensures t * 100.0 == position * duration
  {
    position / 100.0 * duration
  }

  /** A clamped position seeks inside the track. */
  lemma SeekTimeInRange(position: real, duration: real)
    requires 0.0 <= position <= 100.0 && 0.0 <= duration
    ensures 0.0 <= SeekTime(position, duration) <= duration
  {
    var t := SeekTime(position, duration);
    assert t * 100.0 == position * duration;
    assert position * duration <= 100.0 * duration;
    MulNonNegative(position, duration);
  }

  /** Seeking to a position and reading the progress back gives that position. */
  lemma ProgressOfSeekTime(position: real, duration: real)
    requires duration > 0.0
    ensures Progress(SeekTime(position, duration), duration) == position
  {
    var t := SeekTime(position, duration);
    var p := Progress(t, duration);
    assert t * 100.0 == position * duration;
    assert p * duration == t * 100.0;
    assert p * duration == position * duration;
  }

  /** `displayProgress`: the drag position while dragging, else the progress. */
  function DisplayProgress(isDragging: bool, dragPosition: real, currentTime: real, duration: real): (p: real)
    ensures isDragging ==> p == dragPosition
    ensures !isDragging ==> p == Progress(currentTime, duration)
  {
    if isDragging then dragPosition else Progress(currentTime, duration)
  }

  /** The event that ends a drag: `mouseup`, or `touchend` (the same handler
      is registered for both). */
  datatype Release = MouseRelease | TouchRelease

  /** What `handleMouseUp` asks `onSeek` for once a drag is active, as
      written. `getPositionFromEvent` reads `event.touches[0].clientX` for a
      touch event, and a `touchend` event lists no touches, so with the bar
      mounted the handler throws before it reaches `onSeek`. Unmounted, the
      position is 0 before the touches are read. */
  function ReleaseSeek(release: Release, hasRef: bool, raw: real, duration: real): (seek: Option<real>)
    ensures seek.None? <==> release.TouchRelease? && hasRef
    ensures seek.Some? ==> seek.value * 100.0 == Position(hasRef, raw) * duration
    ensures seek.Some? && 0.0 <= duration ==> 0.0 <= seek.value <= duration
  {
    var position := Position(hasRef, raw);
    if release.TouchRelease? && hasRef then None
    else if 0.0 <= duration then
      SeekTimeInRange(position, duration);
      Some(SeekTime(position, duration))
    else Some(SeekTime(position, duration))
  }

  /** A touch drag over the mounted bar ends without seeking, wherever the
      finger is lifted. */
  lemma TouchDragNeverSeeks(raw: real, duration: real)
    ensures ReleaseSeek(TouchRelease, true, raw, duration) == None
    ensures ReleaseSeek(MouseRelease, true, raw, duration).Some?
  {
  }

  /** The release as evidently intended: the lifted finger's position
      (`changedTouches[0]`) seeks like a mouse release does. */
  function ReleaseSeekCorrected(release: Release, hasRef: bool, raw: real, duration: real): (seek: Option<real>)
    ensures seek.Some?
    ensures seek.value * 100.0 == Position(hasRef, raw) * duration
    ensures 0.0 <= duration ==> 0.0 <= seek.value <= duration
  {
    var position := Position(hasRef, raw);
    if 0.0 <= duration then
      SeekTimeInRange(position, duration);
      Some(SeekTime(position, duration))
    else Some(SeekTime(position, duration))
  }

  /** The correction changes only the touch release over a mounted bar. */
  lemma CorrectionOnlyAffectsTouch(release: Release, hasRef: bool, raw: real, duration: real)
    ensures ReleaseSeekCorrected(release, hasRef, raw, duration) != ReleaseSeek(release, hasRef, raw, duration)
        <==> release.TouchRelease? && hasRef
  {
  }

  /** The component's drag state. */
  class Bar {
    var isDragging: bool
    var dragPosition: real

    /** The drag position is always a clamped cursor position. */
    ghost predicate Valid()
      reads this
    {
      0.0 <= dragPosition <= 100.0
    }

    constructor ()
      ensures Valid() && !isDragging && dragPosition == 0.0
    {
      isDragging := false;
      dragPosition := 0.0;
    }

    /** What the bar shows: always a percentage in [0, 100] for a played
        position within the track. */
    function Display(currentTime: real, duration: real): (p: real)
      reads this
      requires Valid() && 0.0 <= currentTime <= duration
      ensures 0.0 <= p <= 100.0
      ensures isDragging ==> p == dragPosition
    {
      ProgressInRange(currentTime, duration);
      DisplayProgress(isDragging, dragPosition, currentTime, duration)
    }

    /** `handleMouseDown`: ignored when disabled or when the duration is 0;
        otherwise a drag starts at the cursor. */
    method MouseDown(disabled: bool, duration: real, hasRef: bool, raw: real)
      requires Valid()
      modifies this
      ensures Valid()
      ensures disabled || duration == 0.0 ==> unchanged(this)
      ensures !(disabled || duration == 0.0) ==> isDragging && dragPosition == Position(hasRef, raw)
    {
      if disabled || duration == 0.0 {
        return;
      }
      isDragging := true;
      dragPosition := Position(hasRef, raw);
    }

    /** `handleMouseMove`: follows the cursor only while dragging. */
    method MouseMove(hasRef: bool, raw: real)
      requires Valid()
      modifies this`dragPosition
      ensures Valid()
      ensures !old(isDragging) ==> dragPosition == old(dragPosition)
      ensures old(isDragging) ==> dragPosition == Position(hasRef, raw)
    {
      if !isDragging {
        return;
      }
      dragPosition := Position(hasRef, raw);
    }

    /** `handleMouseUp`, for `mouseup` and for `touchend`: a no-op unless
        dragging; otherwise the drag ends and the bar asks to seek to the
        release point (`onSeek`), except that a touch release over the mounted
        bar throws first (ReleaseSeek). The drag position is left as it was. */
    method MouseUp(release: Release, duration: real, hasRef: bool, raw: real) returns (seek: Option<real>)
      requires Valid()
      modifies this`isDragging
      ensures Valid() && !isDragging
      ensures seek.Some? <==> old(isDragging) && !(release.TouchRelease? && hasRef)
      ensures old(isDragging) ==> seek == ReleaseSeek(release, hasRef, raw, duration)
      ensures seek.Some? && duration >= 0.0 ==> 0.0 <= seek.value <= duration
    {
      if !isDragging {
        return None;
      }
      isDragging := false;
      seek := ReleaseSeek(release, hasRef, raw, duration);
    }

    /** `handleClick`: ignored when disabled, when the duration is 0 or while
        dragging; otherwise a seek to the clicked point. Changes no state. */
    method Click(disabled: bool, duration: real, hasRef: bool, raw: real) returns (seek: Option<real>)
      ensures seek.None? <==> disabled || duration == 0.0 || isDragging
      ensures seek.Some? ==> seek.value * 100.0 == Position(hasRef, raw) * duration
      ensures seek.Some? && duration > 0.0 ==> 0.0 <= seek.value <= duration
    {
      if disabled || duration == 0.0 || isDragging {
        return None;
      }
      var position := Position(hasRef, raw);
      if duration > 0.0 {
        SeekTimeInRange(position, duration);
      }
      seek := Some(SeekTime(position, duration));
    }
  }
}
