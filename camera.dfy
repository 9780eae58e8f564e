/** The camera controls every scene shares: zoom buttons and a dragged pitch. */
module Camera {
  import opened Numeric

  /** The "+" button: one step of 0.1 towards the scene's largest zoom `hi`. */
  function ZoomIn(zoom: real, hi: real): (r: real)
    ensures r <= hi
    ensures zoom + 0.1 <= hi ==> r == zoom + 0.1
    ensures zoom + 0.1 > hi ==> r == hi
  {
    Min(hi, zoom + 0.1)
  }

  /** The "−" button: one step of 0.1 towards the scene's smallest zoom `lo`. */
  function ZoomOut(zoom: real, lo: real): (r: real)
    ensures r >= lo
    ensures zoom - 0.1 >= lo ==> r == zoom - 0.1
    ensures zoom - 0.1 < lo ==> r == lo
  {
    Max(lo, zoom - 0.1)
  }

  /** A zoom inside [lo, hi] stays inside it whichever button is pressed, and moves the right way. */
  lemma ZoomStaysInRange(zoom: real, lo: real, hi: real)
    requires lo <= zoom <= hi
    ensures lo <= ZoomIn(zoom, hi) <= hi && zoom <= ZoomIn(zoom, hi)
    ensures lo <= ZoomOut(zoom, lo) <= hi && ZoomOut(zoom, lo) <= zoom
  {
  }

  /** A vertical drag of `dy` pixels tilts the camera by `dy·sensitivity`, clamped to [lo, hi]. */
  function DragPitch(pitch: real, dy: real, sensitivity: real, lo: real, hi: real): (r: real)
    requires lo <= hi
    ensures lo <= r <= hi
    ensures lo <= pitch + dy * sensitivity <= hi ==> r == pitch + dy * sensitivity
  {
    Clamp(lo, hi, pitch + dy * sensitivity)
  }

  /** A horizontal drag of `dx` pixels turns the camera by `dx·sensitivity`, with no clamp. */
  function DragYaw(yaw: real, dx: real, sensitivity: real): (r: real)
    ensures r - yaw == dx * sensitivity
  {
    yaw + dx * sensitivity
  }
}
