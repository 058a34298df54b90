/**
 * The logic of the full-screen player sheet that does not depend on the UI
 * toolkit: the seek and volume drags, the progress bar, the
 * rounded corners that follow a downward drag, and drag-to-dismiss. Lengths,
 * velocities and times are exact reals.
 */
module ExpandedSheet {
  import opened Audio

  /**
   * `min(max(0, x / width), 1)`: where a drag at `locationX` lies along a
   * bar `trackWidth` wide, as a fraction clamped to [0, 1].
   */
  function DragProgress(locationX: real, trackWidth: real): (p: real)
    requires trackWidth != 0.0
    ensures 0.0 <= p <= 1.0
    ensures 0.0 <= locationX / trackWidth <= 1.0 ==> p == locationX / trackWidth
    ensures locationX / trackWidth < 0.0 ==> p == 0.0
    ensures locationX / trackWidth > 1.0 ==> p == 1.0
  {
    var raw := locationX / trackWidth;
    var low := if raw > 0.0 then raw else 0.0;
    if low < 1.0 then low else 1.0
  }

  /** `max(a, b)` as Swift computes it. */
  function Max(a: real, b: real): real
  {
    if b >= a then b else a
  }

  /**
   * The width of the elapsed part of the progress bar:
   * `max(0, currentTime / max(duration, 1) * trackWidth)`.
   */
  function ElapsedWidth(currentTime: real, duration: real, trackWidth: real): (w: real)
    ensures w >= 0.0
    ensures 0.0 <= currentTime <= duration && 0.0 <= trackWidth ==> w <= trackWidth
  {
    var d := Max(duration, 1.0);
    var raw := currentTime / d * trackWidth;
    if 0.0 <= currentTime <= duration && 0.0 <= trackWidth then
      ScaledFraction(currentTime, d, trackWidth);
      Max(0.0, raw)
    else
      Max(0.0, raw)
  }

  /** A fraction `t / d` of a length, with `t` within `d`, is within the length. */
  lemma ScaledFraction(t: real, d: real, width: real)
    requires 0.0 <= t <= d && d > 0.0 && width >= 0.0
    ensures 0.0 <= t / d * width <= width
  {
    var q := t / d;
    assert q * d == t;
    assert 0.0 <= q <= 1.0;
    assert (1.0 - q) * width >= 0.0;
  }

  /**
   * On a track of at least one second, after a seek drag the elapsed part of
   * the bar ends where the finger is, clamped to the bar.
   */
  lemma SeekDragMovesBar(locationX: real, duration: real, trackWidth: real)
    requires trackWidth > 0.0 && duration >= 1.0
    ensures ElapsedWidth(DragProgress(locationX, trackWidth) * duration, duration, trackWidth)
            == DragProgress(locationX, trackWidth) * trackWidth
    ensures 0.0 <= locationX <= trackWidth ==>
            ElapsedWidth(DragProgress(locationX, trackWidth) * duration, duration, trackWidth) == locationX
  {
    var p := DragProgress(locationX, trackWidth);
    assert Max(duration, 1.0) == duration;
    assert p * duration / duration == p;
    if 0.0 <= locationX <= trackWidth {
      ScaledFraction(locationX, trackWidth, 1.0);
      assert locationX / trackWidth * trackWidth == locationX;
    }
  }

  /** The seek drag: asks the player to seek to the clamped fraction of the duration. */
  method OnSeekDragChanged(audio: AudioManager, locationX: real, trackWidth: real)
    requires trackWidth != 0.0
    modifies audio
    ensures audio.currentTime == DragProgress(locationX, trackWidth) * audio.duration
    ensures audio.duration >= 0.0 ==> 0.0 <= audio.currentTime <= audio.duration
    ensures audio.duration == old(audio.duration) && audio.isPlaying == old(audio.isPlaying)
    ensures audio.player == old(audio.player) && audio.currentTrack == old(audio.currentTrack)
    ensures audio.playlist == old(audio.playlist) && audio.currentTrackIndex == old(audio.currentTrackIndex)
    ensures audio.volume == old(audio.volume)
  {
    var progress := DragProgress(locationX, trackWidth);
    var newTime := progress * audio.duration;
    audio.Seek(newTime);
  }

  /** The volume drag: sets the volume to the clamped fraction. */
  method OnVolumeDragChanged(audio: AudioManager, locationX: real, trackWidth: real)
    requires audio.Valid() && trackWidth != 0.0
    modifies audio
    ensures audio.Valid()
    ensures audio.volume == DragProgress(locationX, trackWidth)
    ensures 0.0 <= audio.volume <= 1.0
    ensures audio.player.Some? <==> old(audio.player).Some?
    ensures audio.player.Some? ==> audio.player.value == old(audio.player).value.(volume := audio.volume)
    ensures audio.currentTime == old(audio.currentTime) && audio.isPlaying == old(audio.isPlaying)
    ensures audio.currentTrack == old(audio.currentTrack) && audio.playlist == old(audio.playlist)
    ensures audio.duration == old(audio.duration) && audio.currentTrackIndex == old(audio.currentTrackIndex)
  {
    var progress := DragProgress(locationX, trackWidth);
    audio.SetVolume(progress);
  }

  /**
   * How round the sheet's corners are while it is dragged down:
   * `max(0, 1 - offsetY / (height / 2))`. Fully round at rest, square once
   * the sheet is pulled half its height.
   */
  function CornerProgress(offsetY: real, height: real): (c: real)
    requires height != 0.0
    ensures c >= 0.0
    ensures offsetY == 0.0 ==> c == 1.0
    ensures height > 0.0 && offsetY >= 0.0 ==> c <= 1.0
    ensures height > 0.0 ==> (c == 0.0 <==> offsetY >= height * 0.5)
  {
    var half := height * 0.5;
    var dragProgress := 1.0 - offsetY / half;
    assert offsetY / half * half == offsetY;
    assert half > 0.0 ==> (offsetY / half >= 1.0 <==> offsetY >= half);
    Max(0.0, dragProgress)
  }

  /**
   * The dismiss rule: the drag plus 0.3 of its velocity passes 40% of the
   * height. A drag past that line dismisses unless flung back up; a drag
   * short of it is kept unless flung down.
   */
  function ShouldDismiss(offsetY: real, velocityY: real, height: real): (dismiss: bool)
    ensures velocityY >= 0.0 && offsetY > height * 0.4 ==> dismiss
    ensures velocityY <= 0.0 && offsetY <= height * 0.4 ==> !dismiss
    ensures velocityY == 0.0 ==> (dismiss <==> offsetY > height * 0.4)
  {
    offsetY + velocityY * 0.3 > height * 0.4
  }

  /** The sheet's own state and its binding to whether it is shown. */
  class Sheet {
    /** The parent's `expandSheet`, bound into the sheet. */
    var expandSheet: bool
    var animateContent: bool
    var offsetY: real

    /** The sheet is never dragged upward. */
    ghost predicate Valid()
      reads this
    {
      offsetY >= 0.0
    }

    /** The sheet as it is inserted: shown, content not yet animated in, not dragged. */
    constructor ()
      ensures Valid() && expandSheet && !animateContent && offsetY == 0.0
    {
      expandSheet := true;
      animateContent := false;
      offsetY := 0.0;
    }

    method OnAppear()
      modifies this
      ensures animateContent
      ensures expandSheet == old(expandSheet) && offsetY == old(offsetY)
    {
      animateContent := true;
    }

    /** Follows a downward drag; an upward drag keeps the sheet in place. */
    method OnDragChanged(translationY: real)
      modifies this
      ensures Valid()
      ensures translationY > 0.0 ==> offsetY == translationY
      ensures translationY <= 0.0 ==> offsetY == 0.0
      ensures expandSheet == old(expandSheet) && animateContent == old(animateContent)
    {
      offsetY := if translationY > 0.0 then translationY else 0.0;
    }

    /**
     * Ends a drag: dismisses the sheet when the rule says so, and in every
     * case snaps the offset back to 0.
     */
    method OnDragEnded(velocityY: real, height: real)
      modifies this
      ensures Valid() && offsetY == 0.0
      ensures ShouldDismiss(old(offsetY), velocityY, height) ==> !expandSheet && !animateContent
      ensures !ShouldDismiss(old(offsetY), velocityY, height) ==>
        expandSheet == old(expandSheet) && animateContent == old(animateContent)
    {
      if ShouldDismiss(offsetY, velocityY, height) {
        expandSheet := false;
        animateContent := false;
        offsetY := 0.0;
      } else {
        offsetY := 0.0;
      }
    }
  }
}
