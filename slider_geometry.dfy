/** Geometry of the range slider: the layout calibrator (scale and padding
    from the measured track width), the offset re-derivation used on layout,
    and the two drag resolvers that turn a window-space pointer coordinate
    into a handle offset and an integer value, or reject the move.

    Pixel quantities are exact reals; the handle width (`sliderWrapWidth`)
    and the window width are part of the configuration. */
module SliderGeometry {

  datatype Option<T> = None | Some(value: T) {
    /** The value, or `default` when absent (a JavaScript destructuring default). */
    function GetOr(default: T): T {
      if Some? then value else default
    }
  }

  /** The props and environment the geometry reads: `max`, `showLeft`,
      the handle width and the window width. */
  datatype Config = Config(max: int, showLeft: bool, handleWidth: real, windowWidth: real)

  /** What the source's callers guarantee about the configuration. */
  predicate ValidConfig(c: Config) {
    c.max > 0 && c.handleWidth > 0.0
  }

  /** The payload handed to the `onChange` prop. */
  datatype Range = Range(start: int, end: int)

  /** `this.state`: offsets in pixels of the two handles, measured from the
      track's left and right edges, and the logical values. */
  datatype RangeState = RangeState(left: real, right: real, start: int, end: int)

  /** The instance fields written by `onLayout`. */
  datatype Layout = Layout(componentWidth: real, paddingLeft: real, paddingRight: real, scaleWidth: real)

  /** `Math.round`: nearest integer, halves rounded up. */
  function Round(x: real): (r: int)
    ensures x - 0.5 < r as real <= x + 0.5
  {
    (x + 0.5).Floor
  }

  /** The half-open characterisation above pins the rounded value down. */
  lemma RoundUnique(x: real, n: int)
    requires x - 0.5 < n as real <= x + 0.5
    ensures Round(x) == n
  {
  }

  lemma RoundMonotone(x: real, y: real)
    requires x <= y
    ensures Round(x) <= Round(y)
  {
  }

  lemma RoundOfInt(n: int)
    ensures Round(n as real) == n
  {
  }

  /** Number of handles on the track. */
  function HandleCount(showLeft: bool): (k: int)
    ensures 1 <= k <= 2 && (k == 2 <==> showLeft)
  {
    if showLeft then 2 else 1
  }

  /** Pixels taken by the handles: one handle width in single-handle mode,
      two in dual mode. */
  function HandlesWidth(c: Config): real {
    c.handleWidth * HandleCount(c.showLeft) as real
  }

  /** `onLayout`: the track is centred in the window, and the `max` units plus
      the handles fill the measured width exactly. */
  function Calibrate(c: Config, width: real): (ly: Layout)
    requires ValidConfig(c) && width > HandlesWidth(c)
    ensures ly.componentWidth == width
    ensures ly.paddingLeft == ly.paddingRight
    ensures ly.paddingLeft + width + ly.paddingRight == c.windowWidth
    ensures ly.scaleWidth > 0.0
    ensures ly.scaleWidth * c.max as real + HandlesWidth(c) == width
  {
    var padding := (c.windowWidth - width) / 2.0;
    Layout(width, padding, padding, (width - HandlesWidth(c)) / c.max as real)
  }

  /** The layout facts `Calibrate` establishes; they determine the layout
      from its component width (see `CalibratedIsCalibrate`). */
  predicate Calibrated(c: Config, ly: Layout) {
    && ValidConfig(c)
    && ly.paddingLeft == ly.paddingRight
    && ly.paddingLeft + ly.componentWidth + ly.paddingRight == c.windowWidth
    && ly.scaleWidth > 0.0
    && ly.scaleWidth * c.max as real + HandlesWidth(c) == ly.componentWidth
  }

  lemma CalibratedIsCalibrate(c: Config, ly: Layout)
    requires ValidConfig(c) && ly.componentWidth > HandlesWidth(c)
    ensures Calibrated(c, ly) <==> ly == Calibrate(c, ly.componentWidth)
  {
    if Calibrated(c, ly) {
      var m := c.max as real;
      var k := Calibrate(c, ly.componentWidth);
      assert ly.scaleWidth * m == k.scaleWidth * m;
      assert (ly.scaleWidth - k.scaleWidth) * m == 0.0;
    }
  }

  /** `resizePosition`: pixel offsets for given values. Measuring the offsets
      back in units gives the values again. */
  function Resize(c: Config, scale: real, start: int, end: int): (st: RangeState)
    requires scale > 0.0
    ensures st.start == start && st.end == end
    ensures c.max as real - st.right / scale == end as real
    ensures c.showLeft ==> st.left / scale == start as real
    ensures !c.showLeft ==> st.left == 0.0
  {
    RangeState(if c.showLeft then start as real * scale else 0.0, (c.max - end) as real * scale, start, end)
  }

  /** `onDragStart`: `None` is a silent rejection. An accepted move puts the
      start handle under the pointer (in track-local coordinates), keeps the
      end handle, and takes as `start` the nearest integer to the offset in
      units. */
  function ResolveStart(c: Config, ly: Layout, st: RangeState, pageX: real): (r: Option<RangeState>)
    requires ly.scaleWidth > 0.0
    ensures r.None? <==>
              pageX - ly.paddingLeft < 0.0
              || pageX - ly.paddingLeft + st.right + 2.0 * c.handleWidth >= ly.componentWidth
    ensures r.Some? ==>
              && r.value.left + ly.paddingLeft == pageX
              && r.value.right == st.right && r.value.end == st.end
              && r.value.left / ly.scaleWidth - 0.5 < r.value.start as real <= r.value.left / ly.scaleWidth + 0.5
  {
    var left := pageX - ly.paddingLeft;
    var total := left + st.right + c.handleWidth * 2.0;
    if left < 0.0 then None
    else if total >= ly.componentWidth then None
    else Some(st.(left := left, start := Round(left / ly.scaleWidth)))
  }

  /** `onDragEnd`: the mirror image from the window's right edge, with the
      handles' width (one or two) subtracted before scaling. */
  function ResolveEnd(c: Config, ly: Layout, st: RangeState, pageX: real): (r: Option<RangeState>)
    requires ly.scaleWidth > 0.0
    ensures r.None? <==>
              c.windowWidth - pageX - ly.paddingRight < 0.0
              || st.left + (c.windowWidth - pageX - ly.paddingRight) + HandlesWidth(c) >= ly.componentWidth
    ensures r.Some? ==>
              && pageX + r.value.right + ly.paddingRight == c.windowWidth
              && r.value.left == st.left && r.value.start == st.start
              && var raw := (pageX - ly.paddingRight - HandlesWidth(c)) / ly.scaleWidth;
                 raw - 0.5 < r.value.end as real <= raw + 0.5
  {
    var right := c.windowWidth - pageX - ly.paddingRight;
    var handles := HandlesWidth(c);
    var total := st.left + right + handles;
    if right < 0.0 then None
    else if total >= ly.componentWidth then None
    else Some(st.(right := right, end := Round((pageX - ly.paddingRight - handles) / ly.scaleWidth)))
  }

  /** A value pair the slider can show: ordered, within `[0, max]`, and with
      `start` pinned at 0 when there is no start handle. */
  predicate LegalValues(c: Config, start: int, end: int) {
    0 <= start <= end <= c.max && (!c.showLeft ==> start == 0)
  }

  /** The non-crossing invariant: the values are legal, each one is the
      rounded reading of its handle's offset, and the two offsets together
      leave room for the handles (with a calibrated scale, offsets plus
      handles never exceed the track width). */
  predicate Tracks(c: Config, scale: real, st: RangeState)
    requires scale > 0.0
  {
    && LegalValues(c, st.start, st.end)
    && st.left >= 0.0 && st.right >= 0.0
    && st.left + st.right <= scale * c.max as real
    && st.end == Round(c.max as real - st.right / scale)
    && (if c.showLeft then st.start == Round(st.left / scale) else st.left == 0.0)
  }

  /** Re-deriving offsets for legal values establishes the invariant, at any
      scale: a layout change keeps the handles consistent with the range. */
  lemma ResizeTracks(c: Config, scale: real, start: int, end: int)
    requires ValidConfig(c) && scale > 0.0 && LegalValues(c, start, end)
    ensures Tracks(c, scale, Resize(c, scale, start, end))
  {
    var st := Resize(c, scale, start, end);
    RoundOfInt(end);
    RoundOfInt(start);
    assert st.right >= 0.0 by {
      assert (c.max - end) as real >= 0.0;
    }
    assert st.left + st.right <= scale * c.max as real by {
      assert (end - st.start) as real * scale >= 0.0;
    }
  }

  /** An accepted start drag keeps the invariant: the guard `left >= 0` keeps
      `start >= 0`, and the guard on the total width keeps the unrounded
      start strictly below the unrounded end. */
  lemma StartDragKeepsTracks(c: Config, ly: Layout, st: RangeState, pageX: real)
    requires Calibrated(c, ly) && c.showLeft
    requires Tracks(c, ly.scaleWidth, st)
    requires ResolveStart(c, ly, st, pageX).Some?
    ensures Tracks(c, ly.scaleWidth, ResolveStart(c, ly, st, pageX).value)
  {
    var s, m := ly.scaleWidth, c.max as real;
    var left := pageX - ly.paddingLeft;
    assert ResolveStart(c, ly, st, pageX).value == st.(left := left, start := Round(left / s));
    // the width guard, with the handles' width taken off both sides
    assert left + st.right < s * m;
    StartValueBounds(left, st.right, s, c.max);
  }

  /** The unrounded start `left / scale`, with `left >= 0` and
      `left + right < max * scale`, rounds into `[0, round(max - right / scale)]`. */
  lemma StartValueBounds(left: real, right: real, s: real, max: int)
    requires s > 0.0 && left >= 0.0 && left + right < s * max as real
    ensures 0 <= Round(left / s) <= Round(max as real - right / s)
  {
    UnitsBelow(left, right, s, max as real);
    RoundMonotone(left / s, max as real - right / s);
    NonNegativeUnits(left, s);
  }

  /** An accepted end drag keeps the invariant: the guard `right >= 0` keeps
      `end <= max`, and the guard on the total width keeps the unrounded end
      strictly above the unrounded start. */
  lemma EndDragKeepsTracks(c: Config, ly: Layout, st: RangeState, pageX: real)
    requires Calibrated(c, ly)
    requires Tracks(c, ly.scaleWidth, st)
    requires ResolveEnd(c, ly, st, pageX).Some?
    ensures Tracks(c, ly.scaleWidth, ResolveEnd(c, ly, st, pageX).value)
  {
    var s, m := ly.scaleWidth, c.max as real;
    var right := c.windowWidth - pageX - ly.paddingRight;
    var next := ResolveEnd(c, ly, st, pageX).value;
    // the window-space pointer, seen from the track's left edge
    assert pageX - ly.paddingRight - HandlesWidth(c) == s * m - right;
    UnitsFromRight(right, s, m);
    assert next == st.(right := right, end := Round(m - right / s));
    // the guard on the total width
    assert st.left + right < s * m;
    EndValueBounds(st.left, right, s, c.max);
    if !c.showLeft {
      RoundOfInt(0);
    }
  }

  /** The unrounded end `max - right / scale`, with `right >= 0` and
      `left + right < max * scale`, rounds into `[round(left / scale), max]`. */
  lemma EndValueBounds(left: real, right: real, s: real, max: int)
    requires s > 0.0 && right >= 0.0 && left + right < s * max as real
    ensures Round(left / s) <= Round(max as real - right / s) <= max
  {
    var m := max as real;
    NonNegativeUnits(right, s);
    RoundMonotone(m - right / s, m);
    RoundOfInt(max);
    UnitsBelow(left, right, s, m);
    RoundMonotone(left / s, m - right / s);
  }

  lemma UnitsBelow(a: real, b: real, s: real, m: real)
    requires s > 0.0 && a + b < s * m
    ensures a / s < m - b / s
  {
    var q := (a + b) / s;
    assert q * s == a + b;
    assert (m - q) * s > 0.0;
    assert a / s + b / s == q;
  }

  lemma UnitsFromRight(right: real, s: real, m: real)
    requires s > 0.0
    ensures (s * m - right) / s == m - right / s
  {
  }

  lemma NonNegativeUnits(a: real, s: real)
    requires s > 0.0 && a >= 0.0
    ensures a / s >= 0.0
  {
  }

  /** One move event from the gesture layer, for the handle it engaged. */
  datatype Drag = StartDrag(pageX: real) | EndDrag(pageX: real)

  /** One move event: a rejected move leaves the state as it was, and since the
      start handle is only rendered with `showLeft`, a start drag cannot occur
      without it. */
  function Step(c: Config, ly: Layout, st: RangeState, d: Drag): RangeState
    requires ly.scaleWidth > 0.0
  {
    var r := match d
      case StartDrag(x) => if c.showLeft then ResolveStart(c, ly, st, x) else None
      case EndDrag(x) => ResolveEnd(c, ly, st, x);
    if r.Some? then r.value else st
  }

  function ApplyDrags(c: Config, ly: Layout, st: RangeState, drags: seq<Drag>): RangeState
    requires ly.scaleWidth > 0.0
    decreases |drags|
  {
    if drags == [] then st else ApplyDrags(c, ly, Step(c, ly, st, drags[0]), drags[1..])
  }

  /** Every move event, accepted or rejected, keeps the invariant. */
  lemma StepKeepsTracks(c: Config, ly: Layout, st: RangeState, d: Drag)
    requires Calibrated(c, ly) && Tracks(c, ly.scaleWidth, st)
    ensures Tracks(c, ly.scaleWidth, Step(c, ly, st, d))
  {
    match d
    case StartDrag(x) =>
      if c.showLeft && ResolveStart(c, ly, st, x).Some? {
        StartDragKeepsTracks(c, ly, st, x);
      }
    case EndDrag(x) =>
      if ResolveEnd(c, ly, st, x).Some? {
        EndDragKeepsTracks(c, ly, st, x);
      }
  }

  /** Non-crossing: from a consistent state, after any sequence of drag
      events, `0 <= start <= end <= max` and the offsets still read back as
      the values. */
  lemma {:induction false} NonCrossing(c: Config, ly: Layout, st: RangeState, drags: seq<Drag>)
    requires Calibrated(c, ly) && Tracks(c, ly.scaleWidth, st)
    ensures Tracks(c, ly.scaleWidth, ApplyDrags(c, ly, st, drags))
    ensures var fin := ApplyDrags(c, ly, st, drags);
            && 0 <= fin.start <= fin.end <= c.max
            && fin.left + fin.right + HandlesWidth(c) <= ly.componentWidth
    decreases |drags|
  {
    if drags == [] {
      TracksFit(c, ly, st);
    } else {
      StepKeepsTracks(c, ly, st, drags[0]);
      NonCrossing(c, ly, Step(c, ly, st, drags[0]), drags[1..]);
    }
  }

  /** Under a calibrated layout the invariant bounds the values by `max` and
      keeps offsets plus handles within the track. */
  lemma TracksFit(c: Config, ly: Layout, st: RangeState)
    requires Calibrated(c, ly) && Tracks(c, ly.scaleWidth, st)
    ensures 0 <= st.start <= st.end <= c.max
    ensures st.left + st.right + HandlesWidth(c) <= ly.componentWidth
  {
  }

  /** Quantised value, continuous offset: two accepted start drags whose
      offsets fall in the same rounding cell report the same `start` (so the
      same `onChange` payload), while their offsets still follow the pointer. */
  lemma StartDragQuantised(c: Config, ly: Layout, st: RangeState, x1: real, x2: real, n: int)
    requires ly.scaleWidth > 0.0
    requires ResolveStart(c, ly, st, x1).Some? && ResolveStart(c, ly, st, x2).Some?
    requires n as real - 0.5 <= (x1 - ly.paddingLeft) / ly.scaleWidth < n as real + 0.5
    requires n as real - 0.5 <= (x2 - ly.paddingLeft) / ly.scaleWidth < n as real + 0.5
    ensures ResolveStart(c, ly, st, x1).value.start == n == ResolveStart(c, ly, st, x2).value.start
    ensures ResolveStart(c, ly, st, x1).value.left == ResolveStart(c, ly, st, x2).value.left <==> x1 == x2
  {
    RoundUnique((x1 - ly.paddingLeft) / ly.scaleWidth, n);
    RoundUnique((x2 - ly.paddingLeft) / ly.scaleWidth, n);
  }

  /** With `max = 100`, a 300-pixel track, 20-pixel handles and one handle the
      scale is 2.8; a pointer 140 pixels into the track (here the window is 400
      pixels, so 190 in window space) gives `end = round(120 / 2.8) = 43`. */
  lemma SingleHandleEndExample()
    ensures var c := Config(100, false, 20.0, 400.0);
            var ly := Calibrate(c, 300.0);
            ly.scaleWidth == 2.8
            && ResolveEnd(c, ly, Resize(c, ly.scaleWidth, 0, 100), 190.0) == Some(RangeState(0.0, 160.0, 0, 43))
  {
    var c := Config(100, false, 20.0, 400.0);
    var ly := Calibrate(c, 300.0);
    assert ly.scaleWidth == 2.8;
    RoundUnique(120.0 / 2.8, 43);
  }

  /** Dual mode, `max = 10`, a 120-pixel track with 10-pixel handles (scale
      10): dragging the start handle to 50 pixels gives `start = 5`, and then
      an end drag at a position that would give `end = 4` is rejected by the
      crossing check, leaving the state unchanged. */
  lemma DualHandleCrossingExample()
    ensures var c := Config(10, true, 10.0, 120.0);
            var ly := Calibrate(c, 120.0);
            var st0 := Resize(c, ly.scaleWidth, 0, 10);
            var st1 := RangeState(50.0, 0.0, 5, 10);
            && ResolveStart(c, ly, st0, 50.0) == Some(st1)
            && Round((60.0 - ly.paddingRight - HandlesWidth(c)) / ly.scaleWidth) == 4
            && ResolveEnd(c, ly, st1, 60.0) == None
            && ApplyDrags(c, ly, st0, [StartDrag(50.0), EndDrag(60.0)]) == st1
  {
    var c := Config(10, true, 10.0, 120.0);
    var ly := Calibrate(c, 120.0);
    assert ly.scaleWidth == 10.0;
    RoundUnique(50.0 / 10.0, 5);
    RoundUnique(40.0 / 10.0, 4);
    var st0 := Resize(c, ly.scaleWidth, 0, 10);
    var st1 := RangeState(50.0, 0.0, 5, 10);
    assert Step(c, ly, st0, StartDrag(50.0)) == st1;
    assert Step(c, ly, st1, EndDrag(60.0)) == st1;
    assert [StartDrag(50.0), EndDrag(60.0)][1..] == [EndDrag(60.0)];
    assert [EndDrag(60.0)][1..] == [];
  }

  /** The invariant needs `start == 0` without a start handle, and the
      source does not enforce it: `resizePosition` takes a `start` prop in
      single-handle mode too. With `max = 10`, a 110-pixel track and window,
      10-pixel handles (scale 10) and a `start` prop of 3, an end drag at 20
      pixels is accepted and reports `end = 1 < start`. */
  lemma SingleHandleStartPropCrossing()
    ensures var c := Config(10, false, 10.0, 110.0);
            var ly := Calibrate(c, 110.0);
            var st := Resize(c, ly.scaleWidth, 3, 10);
            && !LegalValues(c, st.start, st.end)
            && ResolveEnd(c, ly, st, 20.0) == Some(RangeState(0.0, 90.0, 3, 1))
  {
    var c := Config(10, false, 10.0, 110.0);
    var ly := Calibrate(c, 110.0);
    assert ly.scaleWidth == 10.0 && ly.paddingRight == 0.0;
    RoundUnique(10.0 / 10.0, 1);
  }

  /** The model takes `max` to be an integer. The source's formulas with a
      fractional `max` let an end drag overshoot it: `max = 10.5`, a
      115-pixel track and window and one 10-pixel handle give scale 10, and
      a pointer at 115 passes both guards (`right = 0`, total 10 < 115) yet
      gives `end = round(105 / 10) = 11 > 10.5`. */
  lemma FractionalMaxEndOvershoot()
    ensures var max, width, handle, window, pageX := 10.5, 115.0, 10.0, 115.0, 115.0;
            var scale := (width - handle) / max;
            var padding := (window - width) / 2.0;
            var right := window - pageX - padding;
            && right >= 0.0 && 0.0 + right + handle < width
            && Round((pageX - padding - handle) / scale) == 11
            && 11.0 > max
  {
    assert (115.0 - 10.0) / 10.5 == 10.0;
    RoundUnique(105.0 / 10.0, 11);
  }
}
