# Range slider geometry, modelled in Dafny

This project models the geometry and drag resolution of the `Slider` React
Native component (`src/components/Slider/index.js`). The component is a
track with an end handle and, when `showLeft` is set, a start handle as well.
It turns window-space pointer coordinates into handle offsets and an integer
range `[start, end]`, which it reports through the `onChange` prop.

There are two modules:

- `SliderGeometry` (`slider_geometry.dfy`) holds the pure formulas:
  - `Calibrate` is the layout calibrator of `onLayout`: the padding that
    centres the track in the window, and the pixels-per-unit scale.
  - `Resize` re-derives the handle offsets from the values, as
    `resizePosition` does.
  - `ResolveStart` and `ResolveEnd` are the two drag resolvers. Each returns
    `None` for a silently rejected move.
  - `Round` is JavaScript's `Math.round`.
  - The module also holds the non-crossing invariant `Tracks` and the lemmas
    about it.
- `SliderComponent` (`slider.dfy`) holds the class `Slider`:
  - The props and environment are `const` fields.
  - `this.state` is the `state` field.
  - The fields written by `onLayout` are mutable fields, with `laidOut`
    recording whether layout has run.
  - Each handler is a method with a `modifies` clause. Its `ensures` ties the
    new state to the pure resolver, for both the rejected and the accepted
    branch. It also says that the invariant is kept.

Pixels are exact `real`s. `Math.round(x)` is `(x + 0.5).Floor`: the nearest
integer, with halves rounded up. `max` and the values `start`/`end` are
integers. These are inputs of the model rather than
constants:

- the handle width `sliderWrapWidth`, which comes from a style file;
- the window width, which the source reads from `Dimensions.get('window')`;
- the `start`/`end` props that `onLayout` passes to `resizePosition`.

The `setNativeProps` writes become returned `ViewUpdate` values. The call to
the `onChange` prop becomes the returned payload (`None` when no prop is
given or the move is rejected).

The central result is `NonCrossing`. Take a calibrated layout and begin in a
consistent state. Then after any sequence of start and end drags, accepted
or rejected, `0 <= start <= end <= max` holds. The offsets plus the handles
still fit in the track, and each value is still the rounded reading of its
handle's offset. Three facts carry the proof:

- The end-drag guard `right >= 0` bounds `end` by `max`.
- The start-drag guard `left >= 0` keeps `start >= 0`.
- The `total < componentWidth` guards put the unrounded start strictly below
  the unrounded end. Rounding is monotone, so the rounded values keep their
  order.

The padding cancels out of this argument, so the model does not need the
window to be at least as wide as the track.

Two details of the code that the model keeps:

- The constructor sets `end = max` whether or not the start handle is shown
  (index.js:19).
- A layout with `start == end` puts the offsets plus handles exactly at the
  track width (index.js:35-36), so the pixel bound the invariant keeps is `<=`. After an
  accepted drag the bound is strict.

## Model

| member | source | states |
|---|---|---|
| SliderGeometry.Round | src/components/Slider/index.js:61 | `Math.round`: the result is the integer in the half-open cell `(x - 0.5, x + 0.5]`, so halves round up |
| SliderGeometry.HandleCount | src/components/Slider/index.js:28 | one handle without `showLeft`, two with it |
| SliderGeometry.Calibrate | src/components/Slider/index.js:23-28 | the component width is the measured width; left and right padding are equal and centre the track in the window; the scale is positive and `max` units plus the handles' width fill the track exactly |
| SliderGeometry.CalibratedIsCalibrate | src/components/Slider/index.js:26-28 | the centring and filling facts are exactly the layout `onLayout` computes for that width |
| SliderGeometry.Resize | src/components/Slider/index.js:32-36 | the values are stored as given; the end offset read back in units (`max - right / scale`) is `end`; with a start handle the start offset read back is `start`; without one the start offset is 0 |
| SliderGeometry.ResolveStart | src/components/Slider/index.js:55-65 | rejected exactly when the track-local offset is negative or offset + end offset + two handle widths reaches the component width; when accepted the start handle sits under the pointer, the end offset and `end` are unchanged, and `start` is the nearest integer to the offset in units |
| SliderGeometry.ResolveEnd | src/components/Slider/index.js:75-87 | rejected exactly when the offset from the right edge is negative or start offset + that offset + the handles' width (one or two) reaches the component width; when accepted the end handle sits under the pointer, the start offset and `start` are unchanged, and `end` is the nearest integer to `(pageX - padding - handles) / scale` |
| SliderGeometry.ResizeTracks | src/components/Slider/index.js:32-36 | re-deriving offsets for any legal value pair, at any positive scale, yields a state satisfying the non-crossing invariant |
| SliderGeometry.StartDragKeepsTracks | src/components/Slider/index.js:56-61 | with a start handle, an accepted start drag keeps `0 <= start <= end`, the pixel bound and the offset/value agreement |
| SliderGeometry.StartValueBounds | src/components/Slider/index.js:57-61 | the start-drag guards put `round(left / scale)` in `[0, round(max - right / scale)]` |
| SliderGeometry.EndDragKeepsTracks | src/components/Slider/index.js:76-83 | for an integer `max`, an accepted end drag in either mode keeps `start <= end <= max`, the pixel bound and the offset/value agreement |
| SliderGeometry.EndValueBounds | src/components/Slider/index.js:78-83 | the end-drag guards put `round(max - right / scale)` in `[round(left / scale), max]` |
| SliderGeometry.StepKeepsTracks | src/components/Slider/index.js:107-120 | one move event on either handle (a start drag only reaches the resolver when the start handle is rendered) keeps the invariant, accepted or rejected |
| SliderGeometry.NonCrossing | src/components/Slider/index.js:55-95 | for an integer `max`, after any sequence of drags from a consistent state (which in single-handle mode has `start == 0`): `0 <= start <= end <= max`, offsets plus handles within the component width, and the invariant still holds |
| SliderGeometry.TracksFit | src/components/Slider/index.js:27-28 | under a calibrated layout the invariant bounds the values by `max` and the offsets plus handles by the component width |
| SliderGeometry.StartDragQuantised | src/components/Slider/index.js:61-72 | two accepted start drags whose offsets fall in one rounding cell report the same `start` (so the same `onChange` payload), and their offsets differ exactly when the pointers differ |
| SliderGeometry.SingleHandleEndExample | src/components/Slider/index.js:75-87 | `max = 100`, width 300, handle 20, single mode: the scale is 2.8, and a pointer 140 pixels into the track gives `end = 43` with the end offset 160 |
| SliderGeometry.DualHandleCrossingExample | src/components/Slider/index.js:55-87 | `max = 10`, dual mode, scale 10: a start drag giving `start = 5` is accepted, and an end drag that would give `end = 4` is rejected by the crossing check, leaving the state unchanged |
| SliderGeometry.SingleHandleStartPropCrossing | src/components/Slider/index.js:32-36 | in single-handle mode a `start` prop of 3 is stored by `resizePosition`, outside the invariant, and a later accepted end drag reports `end = 1 < start` |
| SliderGeometry.FractionalMaxEndOvershoot | src/components/Slider/index.js:78-83 | with the source's formulas and a fractional `max = 10.5`, an end drag passes both guards and reports `end = 11 > max` |
| SliderComponent.Slider.constructor | src/components/Slider/index.js:12-21 | initial state `left = 0`, `right = 0`, `start = 0`, `end = max`, a legal value pair; layout not yet run |
| SliderComponent.Slider.OnChange | src/components/Slider/index.js:97-100 | the range reaches the prop exactly when one is given, with the values passed in |
| SliderComponent.Slider.OnLayout | src/components/Slider/index.js:23-30 | the layout fields become the calibration for the width; the state is the re-derivation for the `start`/`end` props or the current values; legal values give a consistent state |
| SliderComponent.Slider.LayoutTwiceIsLayoutOnce | src/components/Slider/index.js:23-36 | two `onLayout` calls at the same width leave the same calibration, the same state and the same writes as one: a repeated layout changes nothing |
| SliderComponent.Slider.ResizePosition | src/components/Slider/index.js:32-53 | the state becomes `Resize` of the given values (defaulting to the current ones), the view writes are the handle and line offsets, and legal values give a consistent state |
| SliderComponent.Slider.OnDragStart | src/components/Slider/index.js:55-73 | a rejected move leaves the state unchanged, writes nothing and notifies no one; an accepted move's new state is `ResolveStart`'s, the handle and line-left writes follow it, and `onChange` receives `{start, end}`; a consistent state stays consistent; called only with `showLeft`, as the start handle exists only then |
| SliderComponent.Slider.OnDragEnd | src/components/Slider/index.js:75-95 | a rejected move leaves the state unchanged, writes nothing and notifies no one; an accepted move's new state is `ResolveEnd`'s, the handle and line-right writes follow it, and `onChange` receives `{start, end}`; a consistent state stays consistent |

## Left out

- `render` and the React component tree (src/components/Slider/index.js:101-124) are view composition. The model keeps only what render implies for the core: the start handle, and so `onDragStart`, exists only with `showLeft` (see `Step`).
- `src/components/Slider/SliderWrap.js` is not part of this model. It is gesture capture through `PanResponder`, a `Popover` overlay and the handle's `Image` (src/components/Slider/SliderWrap.js:34-38), and it only forwards move events. The model takes those events as `pageX` inputs.
- `propTypes` and `defaultProps` are metadata. The defaults (`max = 100`, `showLeft = false`, `showPopover = true`) are not modelled; the constructor takes the props explicitly.
- `Dimensions.get('window')` is platform I/O. The window width is a constructor parameter.
- The style file that defines `sliderWrapWidth` is not part of this model. The handle width is a positive constructor parameter.
- The `setNativeProps` calls and the refs they go through are returned as `ViewUpdate` values rather than performed.
- React's `setState` batching and asynchrony are not modelled: every update takes effect immediately. The reads of `this.state.end` and `this.state.start` in lines 72 and 94 see values the same update does not change, so the order does not matter there.
- The `start`/`end` props are fixed at construction (`propStart`, `propEnd`). Props that change between layouts are not modelled.
- IEEE floating point is not modelled; pixel arithmetic is exact.
- Degenerate configurations are excluded by preconditions. `max == 0` divides by zero (an infinite or `NaN` scale); a track exactly as wide as the handles gives a zero scale; both, and a drag before the first layout, produce `NaN` or `Infinity` in JavaScript. A negative `max` or a track narrower than the handles gives a finite negative scale, on which the source keeps running and reports negative values; the model does not cover that either.
- SliderComponent.Slider.OnDragStart: requires `showLeft`. Without it no start handle is rendered, so no start drag is delivered; if one were, the source's write to the unassigned `startWrap` ref would throw.
- SliderGeometry.NonCrossing: holds only for an integer `max`, `start` and `end`. The source declares `max` as any number, and with a fractional `max` an accepted end drag can report `end > max` (`FractionalMaxEndOvershoot`).
- SliderGeometry.NonCrossing: does not cover a `start` prop in single-handle mode. `resizePosition` stores such a prop although the invariant pins `start` at 0 there, and later end drags can then report `end < start` (`SingleHandleStartPropCrossing`).
- SliderGeometry.EndDragKeepsTracks: holds only for an integer `max`, for the same reason as `NonCrossing`.
