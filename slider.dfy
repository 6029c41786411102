/** The `Slider` component as an object: its props, the layout fields that
    `onLayout` assigns, and `this.state`, updated by the layout and drag
    handlers. The visual writes to the handles and the connecting line are
    returned as plain values, and the `onChange` notification as the payload
    that reaches the prop. */
module SliderComponent {
  import opened SliderGeometry

  /** One batch of `setNativeProps` writes: the start handle's `left`, the
      end handle's `right` and the connecting line's `left` and `right`;
      `None` where the batch does not write that property. */
  datatype ViewUpdate = ViewUpdate(
    startLeft: Option<real>, endRight: Option<real>,
    lineLeft: Option<real>, lineRight: Option<real>)

  class Slider {
    // props and environment
    const max: int
    const showLeft: bool
    const hasOnChange: bool
    const sliderWrapWidth: real
    const windowWidth: real
    const propStart: Option<int>
    const propEnd: Option<int>

    // this.state
    var state: RangeState

    // fields assigned by onLayout; undefined until it has run
    var laidOut: bool
    var componentWidth: real
    var paddingLeft: real
    var paddingRight: real
    var scaleWidth: real

    function Props(): Config {
      Config(max, showLeft, sliderWrapWidth, windowWidth)
    }

    function Measured(): Layout
      reads this
    {
      Layout(componentWidth, paddingLeft, paddingRight, scaleWidth)
    }

    /** The configuration is one the geometry accepts, and once layout has
        run the layout fields are the calibration of the measured width. */
    ghost predicate Valid()
      reads this
    {
      ValidConfig(Props()) && (laidOut ==> Calibrated(Props(), Measured()))
    }

    /** Layout has run and the handle offsets agree with the values. */
    ghost predicate Synced()
      reads this
    {
      Valid() && laidOut && Tracks(Props(), scaleWidth, state)
    }

    constructor (max: int, showLeft: bool, hasOnChange: bool, sliderWrapWidth: real,
                 windowWidth: real, propStart: Option<int>, propEnd: Option<int>)
      requires max > 0 && sliderWrapWidth > 0.0
      ensures this.max == max && this.showLeft == showLeft && this.hasOnChange == hasOnChange
      ensures this.sliderWrapWidth == sliderWrapWidth && this.windowWidth == windowWidth
      ensures this.propStart == propStart && this.propEnd == propEnd
      ensures Valid() && !laidOut
      ensures state == RangeState(0.0, 0.0, 0, max)
      ensures LegalValues(Props(), state.start, state.end)
    {
      this.max := max;
      this.showLeft := showLeft;
      this.hasOnChange := hasOnChange;
      this.sliderWrapWidth := sliderWrapWidth;
      this.windowWidth := windowWidth;
      this.propStart := propStart;
      this.propEnd := propEnd;
      state := RangeState(0.0, 0.0, 0, max);
      laidOut := false;
      componentWidth, paddingLeft, paddingRight, scaleWidth := 0.0, 0.0, 0.0, 0.0;
    }

    /** `onChange`: the range reaches the prop exactly when one is given. */
    method OnChange(start: int, end: int) returns (sent: Option<Range>)
      ensures sent.Some? <==> hasOnChange
      ensures sent.Some? ==> sent.value.start == start && sent.value.end == end
    {
      if hasOnChange {
        sent := Some(Range(start, end));
      } else {
        sent := None;
      }
    }

    /** `onLayout`: calibrate for the measured width, then re-derive the
        offsets for the `start`/`end` props, or the current values. */
    method OnLayout(width: real) returns (view: ViewUpdate)
      requires Valid() && width > HandlesWidth(Props())
      modifies this
      ensures Valid() && laidOut
      ensures Measured() == Calibrate(Props(), width)
      ensures state == Resize(Props(), scaleWidth, propStart.GetOr(old(state.start)), propEnd.GetOr(old(state.end)))
      ensures view == ResizeView(state)
      ensures LegalValues(Props(), state.start, state.end) ==> Synced()
    {
      componentWidth := width;
      paddingLeft := (windowWidth - width) / 2.0;
      paddingRight := paddingLeft;
      scaleWidth := (width - (if !showLeft then sliderWrapWidth else sliderWrapWidth * 2.0)) / max as real;
      laidOut := true;
      assert Measured() == Calibrate(Props(), width);
      view := ResizePosition(propStart, propEnd);
    }

    /** A second layout at the same width, as after a re-render that
        measures the same track, changes neither the state nor the writes:
        two layouts amount to one. */
    method LayoutTwiceIsLayoutOnce(width: real) returns (first: ViewUpdate, second: ViewUpdate)
      requires Valid() && width > HandlesWidth(Props())
      modifies this
      ensures Valid() && laidOut && Measured() == Calibrate(Props(), width)
      ensures state == Resize(Props(), scaleWidth, propStart.GetOr(old(state.start)), propEnd.GetOr(old(state.end)))
      ensures second == first && first == ResizeView(state)
    {
      first := OnLayout(width);
      ghost var once := state;
      second := OnLayout(width);
      assert state == once;
    }

    /** The writes `resizePosition` makes for a state. */
    function ResizeView(st: RangeState): ViewUpdate {
      ViewUpdate(
        if showLeft then Some(st.left) else None,
        Some(st.right),
        Some(if showLeft then st.left + sliderWrapWidth else 0.0),
        Some(st.right + sliderWrapWidth))
    }

    /** `resizePosition`: place the handles for the given values, each
        defaulting to the current one. */
    method ResizePosition(start: Option<int>, end: Option<int>) returns (view: ViewUpdate)
      requires Valid() && laidOut
      modifies this`state
      ensures Valid()
      ensures state == Resize(Props(), scaleWidth, start.GetOr(old(state.start)), end.GetOr(old(state.end)))
      ensures view == ResizeView(state)
      ensures LegalValues(Props(), state.start, state.end) ==> Synced()
    {
      var s := start.GetOr(state.start);
      var e := end.GetOr(state.end);
      state := Resize(Props(), scaleWidth, s, e);
      view := ResizeView(state);
      if LegalValues(Props(), s, e) {
        ResizeTracks(Props(), scaleWidth, s, e);
      }
    }

    /** `onDragStart`: a rejected move changes nothing and notifies no one;
        an accepted one becomes the new state, moves the start handle and the
        line's left end, and notifies. Accepted moves keep the handles in
        step with the values. The start handle, the only source of these
        events, is rendered only with `showLeft`. */
    method OnDragStart(pageX: real) returns (view: Option<ViewUpdate>, sent: Option<Range>)
      requires Valid() && laidOut && showLeft
      modifies this`state
      ensures Valid()
      ensures ResolveStart(Props(), Measured(), old(state), pageX).None? ==>
                state == old(state) && view.None? && sent.None?
      ensures ResolveStart(Props(), Measured(), old(state), pageX).Some? ==>
                && state == ResolveStart(Props(), Measured(), old(state), pageX).value
                && view == Some(ViewUpdate(Some(state.left), None, Some(state.left + sliderWrapWidth), None))
                && sent == (if hasOnChange then Some(Range(state.start, state.end)) else None)
      ensures old(Synced()) ==> Synced()
    {
      ghost var before := state;
      ghost var wasSynced := Synced();
      var stateRight := state.right;
      var left := pageX - paddingLeft;
      var total := left + stateRight + sliderWrapWidth * 2.0;
      if left < 0.0 {
        return None, None;
      }
      if total >= componentWidth {
        return None, None;
      }
      var start := Round(left / scaleWidth);
      state := state.(left := left, start := start);
      view := Some(ViewUpdate(Some(left), None, Some(left + sliderWrapWidth), None));
      sent := OnChange(start, state.end);
      if wasSynced {
        StartDragKeepsTracks(Props(), Measured(), before, pageX);
      }
    }

    /** `onDragEnd`: the mirror image for the end handle and the line's right
        end. */
    method OnDragEnd(pageX: real) returns (view: Option<ViewUpdate>, sent: Option<Range>)
      requires Valid() && laidOut
      modifies this`state
      ensures Valid()
      ensures ResolveEnd(Props(), Measured(), old(state), pageX).None? ==>
                state == old(state) && view.None? && sent.None?
      ensures ResolveEnd(Props(), Measured(), old(state), pageX).Some? ==>
                && state == ResolveEnd(Props(), Measured(), old(state), pageX).value
                && view == Some(ViewUpdate(None, Some(state.right), None, Some(state.right + sliderWrapWidth)))
                && sent == (if hasOnChange then Some(Range(state.start, state.end)) else None)
      ensures old(Synced()) ==> Synced()
    {
      ghost var before := state;
      ghost var wasSynced := Synced();
      var stateLeft := state.left;
      var right := windowWidth - pageX - paddingRight;
      var handles := if !showLeft then sliderWrapWidth else sliderWrapWidth * 2.0;
      assert handles == HandlesWidth(Props());
      var total := stateLeft + right + handles;
      if right < 0.0 {
        return None, None;
      }
      if total >= componentWidth {
        return None, None;
      }
      var end := Round((pageX - paddingRight - handles) / scaleWidth);
      assert ResolveEnd(Props(), Measured(), before, pageX) == Some(before.(right := right, end := end));
      state := state.(right := right, end := end);
      view := Some(ViewUpdate(None, Some(right), None, Some(right + sliderWrapWidth)));
      sent := OnChange(state.start, end);
      if wasSynced {
        EndDragKeepsTracks(Props(), Measured(), before, pageX);
      }
    }
  }
}
