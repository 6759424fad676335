/**
 * The record-then-apply resize that every app implements (`set_window_resized`
 * and `resize_surface_if_needed`). A resize is recorded at once and applied to
 * the surface later, when a frame is about to be drawn, so that a burst of
 * resize events during an interactive drag reconfigures the surface at most
 * once per frame instead of once per event, which would flicker.
 */
module DeferredResize {
  import opened Platform

  /**
   * The fields the two operations touch: the logical size, the `size_changed`
   * flag, the surface configuration's dimensions, and how many times
   * `Surface::configure` has been called.
   */
  datatype ResizeState = ResizeState(
    size: PhysicalSize,
    sizeChanged: bool,
    config: SurfaceConfiguration,
    configures: nat)

  /** The surface has the logical size. */
  predicate Matches(config: SurfaceConfiguration, size: PhysicalSize) {
    config.width == size.width && config.height == size.height
  }

  /** The configuration lags the logical size only while a resize is pending. */
  predicate Settled(s: ResizeState) {
    !s.sizeChanged ==> Matches(s.config, s.size)
  }

  /** The state `new` leaves: the surface configured once, at the window's size. */
  function Initial(size: PhysicalSize): (s: ResizeState)
    ensures Settled(s) && !s.sizeChanged && s.size == size && s.configures == 1
  {
    ResizeState(size, false, SurfaceConfiguration(size.width, size.height), 1)
  }

  /** `set_window_resized`: remember a new size; the surface is not touched. */
  function Record(s: ResizeState, newSize: PhysicalSize): (r: ResizeState)
    ensures r.config == s.config && r.configures == s.configures
    ensures r.size == newSize
    ensures newSize == s.size ==> r == s
    ensures r.sizeChanged == (s.sizeChanged || newSize != s.size)
    ensures Settled(s) ==> Settled(r)
  {
    if newSize == s.size then s else s.(size := newSize, sizeChanged := true)
  }

  /** `resize_surface_if_needed`: apply a pending resize, at most once. */
  function Apply(s: ResizeState): (r: ResizeState)
    ensures !r.sizeChanged && r.size == s.size
    ensures s.sizeChanged ==> Matches(r.config, s.size) && r.configures == s.configures + 1
    ensures !s.sizeChanged ==> r == s
    ensures Settled(s) ==> Settled(r)
  {
    if s.sizeChanged then
      s.(config := SurfaceConfiguration(s.size.width, s.size.height),
         configures := s.configures + 1,
         sizeChanged := false)
    else s
  }

  /** A second `resize_surface_if_needed` reconfigures nothing. */
  lemma ApplyIdempotent(s: ResizeState)
    ensures Apply(Apply(s)) == Apply(s)
    ensures Apply(Apply(s)).configures == Apply(s).configures
  {
  }

  /** Every `Resized` event that reaches the app between two frames, in order. */
  function RecordAll(s: ResizeState, sizes: seq<PhysicalSize>): ResizeState
    decreases |sizes|
  {
    if sizes == [] then s else RecordAll(Record(s, sizes[0]), sizes[1..])
  }

  /**
   * A burst of resizes never touches the surface, leaves the last size as the
   * logical size, and raises the flag exactly when some size differs from the
   * starting one (or the flag was already up).
   */
  lemma {:induction false} RecordAllEffect(s: ResizeState, sizes: seq<PhysicalSize>)
    ensures RecordAll(s, sizes).config == s.config
    ensures RecordAll(s, sizes).configures == s.configures
    ensures RecordAll(s, sizes).size == if sizes == [] then s.size else sizes[|sizes| - 1]
    ensures RecordAll(s, sizes).sizeChanged <==>
      (s.sizeChanged || exists i :: 0 <= i < |sizes| && sizes[i] != s.size)
    ensures Settled(s) ==> Settled(RecordAll(s, sizes))
    decreases |sizes|
  {
    if sizes != [] {
      var t := Record(s, sizes[0]);
      var rest := sizes[1..];
      RecordAllEffect(t, rest);
      if sizes[0] == s.size {
        assert t == s;
        if exists i :: 0 <= i < |rest| && rest[i] != s.size {
          var i :| 0 <= i < |rest| && rest[i] != s.size;
          assert sizes[i + 1] == rest[i];
        }
        if exists i :: 0 <= i < |sizes| && sizes[i] != s.size {
          var i :| 0 <= i < |sizes| && sizes[i] != s.size;
          assert i > 0 && rest[i - 1] == sizes[i];
        }
      } else {
        assert t.sizeChanged;
      }
      if |rest| > 0 {
        assert rest[|rest| - 1] == sizes[|sizes| - 1];
      }
    }
  }

  /**
   * A burst of resizes followed by one frame: the surface ends at the last
   * size, and it is configured once if anything was pending and not at all
   * otherwise; a further frame configures nothing.
   */
  lemma BurstThenFrame(s: ResizeState, sizes: seq<PhysicalSize>)
    requires Settled(s)
    ensures var t := Apply(RecordAll(s, sizes));
      && Matches(t.config, if sizes == [] then s.size else sizes[|sizes| - 1])
      && !t.sizeChanged
      && t.configures <= s.configures + 1
      && (t.configures == s.configures + 1 <==>
            (s.sizeChanged || exists i :: 0 <= i < |sizes| && sizes[i] != s.size))
      && Apply(t) == t
  {
    RecordAllEffect(s, sizes);
  }

  /**
   * The flag compares with the last recorded size, not with the surface: a
   * window dragged away and back before the next frame still costs a configure,
   * although the surface ends with the dimensions it had.
   */
  lemma RevertedBurstStillReconfigures(s: ResizeState, other: PhysicalSize)
    requires Settled(s) && !s.sizeChanged && other != s.size
    ensures Apply(RecordAll(s, [other, s.size])).config == s.config
    ensures Apply(RecordAll(s, [other, s.size])).configures == s.configures + 1
  {
    var t1 := Record(s, other);
    var t2 := Record(t1, s.size);
    assert [other, s.size][1..] == [s.size];
    assert RecordAll(t1, [s.size]) == RecordAll(t2, []);
    assert RecordAll(s, [other, s.size]) == t2;
    assert t2.sizeChanged && t2.size == s.size;
  }
}
