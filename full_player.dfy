/** The full-screen player of components/FullPlayer.js: click and drag
    seeking over `isDragging` and `tempTime`, the volume slider, the mute
    button and the progress it shows. Its `formatTime` is the unguarded
    Clock.FormatTime. As in ProgressBar, `raw` is the cursor's fraction
    `(clientX - rect.left) / rect.width` along the bar for the event at hand,
    and `hasRef` says whether the bar is mounted; `duration` is the prop. */
module FullPlayer {
  import opened Values
  import opened Tracks

  /** `handleProgressClick`: without a mounted bar or with a falsy duration
      nothing happens; otherwise a seek to `percent * duration`, where the
      percent is not clamped. */
  function ClickSeek(hasRef: bool, duration: Num, raw: real): (seek: Option<real>)
    ensures seek.None? <==> !hasRef || Falsy(duration)
    ensures seek.Some? ==> seek.value == raw * duration.v
  {
    if !hasRef || Falsy(duration) then None else Some(raw * duration.v)
  }

  /** The click seek is not clamped: a cursor past the end of the bar asks
      for a time past the end of the track. */
  lemma ClickSeekIsUnclamped(duration: real)
    requires duration > 0.0
    ensures ClickSeek(true, Finite(duration), 2.0) == Some(2.0 * duration)
    ensures ClickSeek(true, Finite(duration), 2.0).value > duration
  {
  }

  /** The `handleProgressDrag` time: the cursor fraction clamped to [0, 1],
      times the duration. */
  function DragTime(raw: real, duration: real): (t: real)
    requires duration > 0.0
    ensures 0.0 <= t <= duration
    ensures 0.0 <= raw <= 1.0 ==> t == raw * duration
    ensures raw < 0.0 ==> t == 0.0
    ensures raw > 1.0 ==> t == duration
  {
    var percent := Clamp(0.0, 1.0, raw);
    MulNonNegative(percent, duration);
    assert percent * duration <= 1.0 * duration;
    percent * duration
  }

  /** `handleVolumeChange`: nothing without a mounted slider, otherwise the
      cursor fraction clamped to [0, 1] goes to `onVolumeChange`. */
  function SliderVolume(hasRef: bool, raw: real): (v: Option<real>)
    ensures v.None? <==> !hasRef
    ensures v.Some? ==> 0.0 <= v.value <= 1.0
    ensures v.Some? && 0.0 <= raw <= 1.0 ==> v.value == raw
  {
    if !hasRef then None else Some(Clamp(0.0, 1.0, raw))
  }

  /** The mute button: `onVolumeChange(volume > 0 ? 0 : 1)`. */
  function MuteButtonVolume(volume: real): (v: real)
    ensures v == 0.0 <==> volume > 0.0
    ensures v == 1.0 <==> volume <= 0.0
  {
    if volume > 0.0 then 0.0 else 1.0
  }

  /** Pressing the mute button twice restores full volume, not the volume
      the listener had before. */
  lemma MuteButtonTwice(volume: real)
    requires 0.0 < volume < 1.0
    ensures MuteButtonVolume(MuteButtonVolume(volume)) == 1.0 != volume
  {
  }

  /** `progressPercent`: the shown position is `tempTime` while dragging and
      `currentTime` otherwise, as a percentage; 0 when the duration is not
      positive. */
  function ProgressPercent(isDragging: bool, tempTime: real, currentTime: real, duration: real): (p: real)
    ensures duration <= 0.0 ==> p == 0.0
    ensures duration > 0.0 && isDragging ==> p * duration == tempTime * 100.0
    ensures duration > 0.0 && !isDragging ==> p * duration == currentTime * 100.0
  {
    var shown := if isDragging then tempTime else currentTime;
    if duration > 0.0 then shown / duration * 100.0 else 0.0
  }

  /** While dragging, the bar shows a percentage in [0, 100]. */
  lemma DraggedProgressInRange(raw: real, currentTime: real, duration: real)
    requires duration > 0.0
    ensures 0.0 <= ProgressPercent(true, DragTime(raw, duration), currentTime, duration) <= 100.0
  {
    var t := DragTime(raw, duration);
    var p := ProgressPercent(true, t, currentTime, duration);
    assert p * duration == t * 100.0;
    assert t * 100.0 <= duration * 100.0;
  }

  /** `if (!isOpen || !currentTrack) return null`. */
  predicate Renders(isOpen: bool, currentTrack: Option<Track>): (r: bool)
    ensures r ==> currentTrack.Some?
    ensures !isOpen ==> !r
  {
    isOpen && currentTrack.Some?
  }

  /** The component's drag state. */
  class Player {
    var isDragging: bool
    var tempTime: real

    constructor ()
      ensures !isDragging && tempTime == 0.0
    {
      isDragging := false;
      tempTime := 0.0;
    }

    /** `handleProgressMouseDown`: a drag starts, and the press also seeks
        as a click does. `tempTime` keeps its old value. */
    method MouseDown(hasRef: bool, duration: Num, raw: real) returns (seek: Option<real>)
      modifies this`isDragging
      ensures isDragging
      ensures seek == ClickSeek(hasRef, duration, raw)
    {
      isDragging := true;
      seek := ClickSeek(hasRef, duration, raw);
    }

    /** `handleProgressDrag`: ignored unless dragging over a mounted bar with
        a truthy duration; otherwise `tempTime` follows the clamped cursor
        and so stays within the track. */
    method Drag(hasRef: bool, duration: Num, raw: real)
      modifies this`tempTime
      ensures !isDragging || !hasRef || Falsy(duration) ==> tempTime == old(tempTime)
      ensures isDragging && hasRef && duration.Finite? && duration.v > 0.0 ==>
                0.0 <= tempTime <= duration.v && tempTime == DragTime(raw, duration.v)
      ensures isDragging && hasRef && duration.Finite? && duration.v < 0.0 ==>
                tempTime == Clamp(0.0, 1.0, raw) * duration.v
    {
      if !isDragging || !hasRef || Falsy(duration) {
        return;
      }
      if duration.v > 0.0 {
        tempTime := DragTime(raw, duration.v);
      } else {
        tempTime := Clamp(0.0, 1.0, raw) * duration.v;
      }
    }

    /** `handleProgressMouseUp`: only an active drag seeks, to `tempTime`,
        and ends. */
    method MouseUp() returns (seek: Option<real>)
      modifies this`isDragging
      ensures !isDragging
      ensures seek.Some? <==> old(isDragging)
      ensures seek.Some? ==> seek.value == tempTime
    {
      if isDragging {
        seek := Some(tempTime);
        isDragging := false;
      } else {
        seek := None;
      }
    }
  }

  /** A press, a drag over the bar and a release seek to the dragged time,
      which lies within the track. */
  method DragSession(duration: real, down: real, move: real) returns (seek: Option<real>)
    requires duration > 0.0
    ensures seek == Some(DragTime(move, duration))
    ensures 0.0 <= seek.value <= duration
  {
    var player := new Player();
    var _ := player.MouseDown(true, Finite(duration), down);
    player.Drag(true, Finite(duration), move);
    seek := player.MouseUp();
  }
}
