/**
 * One frame of `animate`: the progress from the elapsed/duration ratio, the
 * cubic ease-out, and the options after the frame, given the snapshot taken
 * when the animation started and the target options.
 */
module Animator {
  import opened Wrappers
  import opened JsMath
  import opened Parameters

  /** Math.min(elapsed / duration, 1), given the ratio elapsed / duration. */
  function Progress(ratio: real): (p: real)
    ensures p <= 1.0
    ensures ratio <= 1.0 ==> p == ratio
    ensures ratio >= 1.0 ==> p == 1.0
  {
    Min(ratio, 1.0)
  }

  function Cube(a: real): real {
    a * a * a
  }

  /** The cubic ease-out 1 - (1 - p)^3: 0 at the start, 1 at the end. */
  function EaseOut(p: real): (e: real)
    ensures p == 0.0 ==> e == 0.0
    ensures p == 1.0 ==> e == 1.0
    ensures 0.0 <= p <= 1.0 ==> 0.0 <= e <= 1.0
  {
    var c := 1.0 - p;
    ScaleWithin(c, c);
    ScaleWithin(c, c * c);
    1.0 - Cube(c)
  }

  /** Scaling by a fraction in [0,1] keeps a value between 0 and itself. */
  lemma ScaleWithin(fraction: real, d: real)
    ensures 0.0 <= fraction <= 1.0 ==> Min(0.0, d) <= d * fraction <= Max(0.0, d)
  {
    if 0.0 <= fraction <= 1.0 {
      var rest := 1.0 - fraction;
      assert d * fraction + d * rest == d;
      if d >= 0.0 {
        MulNonNegative(d, fraction);
        MulNonNegative(d, rest);
      } else {
        MulNonNegative(-d, fraction);
        MulNonNegative(-d, rest);
      }
    }
  }

  lemma MulNonNegative(a: real, b: real)
    requires 0.0 <= a && 0.0 <= b
    ensures 0.0 <= a * b
  {
  }

  /** Cubing preserves order. */
  lemma CubeMonotone(a: real, b: real)
    requires a <= b
    ensures Cube(a) <= Cube(b)
  {
    var s := a * a + a * b + b * b;
    assert Cube(b) - Cube(a) == (b - a) * s;
    assert s >= 0.0 by {
      var h := a + b / 2.0;
      assert s == h * h + 3.0 * (b * b) / 4.0;
    }
    assert (b - a) * s >= 0.0;
  }

  /** The easing never goes backwards as progress grows. */
  lemma EaseOutMonotone(p: real, q: real)
    requires p <= q
    ensures EaseOut(p) <= EaseOut(q)
  {
    CubeMonotone(1.0 - q, 1.0 - p);
  }

  /** The eased fraction of the way a frame at this ratio has covered. */
  function Eased(ratio: real): (e: real)
    ensures ratio >= 1.0 ==> e == 1.0
    ensures ratio == 0.0 ==> e == 0.0
    ensures 0.0 <= ratio ==> 0.0 <= e <= 1.0
  {
    EaseOut(Progress(ratio))
  }

  /** start + (end - start) * eased: from start at 0 to end at 1, in between on the way. */
  function Interpolate(start: real, end: real, eased: real): (v: real)
    ensures eased == 0.0 ==> v == start
    ensures eased == 1.0 ==> v == end
  {
    start + (end - start) * eased
  }

  /** With eased progress in [0,1] the interpolated value lies between start and end. */
  lemma InterpolateBetween(start: real, end: real, eased: real)
    requires 0.0 <= eased <= 1.0
    ensures Min(start, end) <= Interpolate(start, end, eased) <= Max(start, end)
  {
    ScaleWithin(eased, end - start);
  }

  /**
   * `startOptions[key] || 0` for an option outside the known names: a stored
   * value is its own start (a stored 0 is 0 either way), an absent name starts at 0.
   */
  function ExtraStart(start: Extras, name: string): (v: real)
    ensures name in start ==> v == start[name]
    ensures name !in start ==> v == 0.0
  {
    if name in start then start[name] else 0.0
  }

  /** The interpolated values of the target's numeric options under other names. */
  function InterpolatedExtras(start: Extras, target: Extras, eased: real): (m: Extras)
    ensures m.Keys == target.Keys
  {
    map name | name in target :: Interpolate(ExtraStart(start, name), target[name], eased)
  }

  /**
   * The options after one frame whose eased progress is `eased`. Numeric
   * target keys are interpolated from the start snapshot; the other target
   * keys are copied; keys the target lacks keep their current value. Every
   * non-numeric option and the set of option names agree with
   * Merge(current, target).
   */
  function Tick(current: Options, start: Options, target: Patch, eased: real): (r: Options)
    ensures r.shape == Merge(current, target).shape
    ensures r.transition == Merge(current, target).transition
    ensures r.customPath == Merge(current, target).customPath
    ensures r.extra.Keys == Merge(current, target).extra.Keys
    ensures target.size.None? ==> r.size == current.size
    ensures target.x.None? ==> r.x == current.x
    ensures target.y.None? ==> r.y == current.y
    ensures target.rotation.None? ==> r.rotation == current.rotation
  {
    Options(
      target.shape.GetOr(current.shape),
      if target.size.Some? then Interpolate(start.size, target.size.value, eased) else current.size,
      if target.x.Some? then Interpolate(start.x, target.x.value, eased) else current.x,
      if target.y.Some? then Interpolate(start.y, target.y.value, eased) else current.y,
      if target.rotation.Some? then Interpolate(start.rotation, target.rotation.value, eased) else current.rotation,
      target.transition.GetOr(current.transition),
      if target.customPath.Some? then target.customPath else current.customPath,
      current.extra + InterpolatedExtras(start.extra, target.extra, eased))
  }

  /** Numeric options the target does not name keep their current value. */
  lemma TickKeepsUntargeted(current: Options, start: Options, target: Patch, eased: real, name: string)
    requires name in current.extra && name !in target.extra
    ensures name in Tick(current, start, target, eased).extra
    ensures Tick(current, start, target, eased).extra[name] == current.extra[name]
  {
  }

  /**
   * The last frame (ratio at least 1) leaves exactly the options that merging
   * the target would: every numeric key equals its target value.
   */
  lemma TickComplete(current: Options, start: Options, target: Patch, ratio: real)
    requires ratio >= 1.0
    ensures Tick(current, start, target, Eased(ratio)) == Merge(current, target)
  {
  }

  /**
   * The first frame (ratio 0, so eased progress 0) puts each numeric target key at its start value,
   * or at 0 when the start snapshot lacks it; non-numeric keys already take
   * their target value.
   */
  lemma TickAtStart(current: Options, start: Options, target: Patch)
    ensures var r := Tick(current, start, target, 0.0);
      && (target.size.Some? ==> r.size == start.size)
      && (target.x.Some? ==> r.x == start.x)
      && (target.y.Some? ==> r.y == start.y)
      && (target.rotation.Some? ==> r.rotation == start.rotation)
      && (target.shape.Some? ==> r.shape == target.shape.value)
      && (forall name :: name in target.extra ==> r.extra[name] == ExtraStart(start.extra, name))
  {
  }

  /** A numeric option absent from the start snapshot is animated from 0. */
  lemma TickMissingStart(current: Options, start: Options, target: Patch, eased: real, name: string)
    requires name in target.extra && name !in start.extra
    ensures Tick(current, start, target, eased).extra[name] == target.extra[name] * eased
  {
  }

  /** From a non-negative ratio on, each interpolated option lies between its start and target. */
  lemma TickBetween(current: Options, start: Options, target: Patch, ratio: real)
    requires 0.0 <= ratio
    ensures var r := Tick(current, start, target, Eased(ratio));
      && (target.size.Some? ==> Min(start.size, target.size.value) <= r.size <= Max(start.size, target.size.value))
      && (target.x.Some? ==> Min(start.x, target.x.value) <= r.x <= Max(start.x, target.x.value))
      && (target.y.Some? ==> Min(start.y, target.y.value) <= r.y <= Max(start.y, target.y.value))
      && (target.rotation.Some? ==> Min(start.rotation, target.rotation.value) <= r.rotation <= Max(start.rotation, target.rotation.value))
    ensures var r := Tick(current, start, target, Eased(ratio));
      forall name :: name in target.extra ==>
        Min(ExtraStart(start.extra, name), target.extra[name]) <= r.extra[name] <= Max(ExtraStart(start.extra, name), target.extra[name])
  {
    var e := Eased(ratio);
    if target.size.Some? { InterpolateBetween(start.size, target.size.value, e); }
    if target.x.Some? { InterpolateBetween(start.x, target.x.value, e); }
    if target.y.Some? { InterpolateBetween(start.y, target.y.value, e); }
    if target.rotation.Some? { InterpolateBetween(start.rotation, target.rotation.value, e); }
    forall name | name in target.extra {
      InterpolateBetween(ExtraStart(start.extra, name), target.extra[name], e);
    }
  }

  /** An option animated upwards never moves down from one frame to a later one. */
  lemma InterpolateMonotone(start: real, end: real, ratio1: real, ratio2: real)
    requires start <= end && ratio1 <= ratio2
    ensures Interpolate(start, end, Eased(ratio1)) <= Interpolate(start, end, Eased(ratio2))
  {
    var e1, e2 := Eased(ratio1), Eased(ratio2);
    EaseOutMonotone(Progress(ratio1), Progress(ratio2));
    MulNonNegative(end - start, e2 - e1);
    assert Interpolate(start, end, e2) - Interpolate(start, end, e1) == (end - start) * (e2 - e1);
  }

  /** Frames at later ratios show a size at least as large when animating the size upwards. */
  lemma TickSizeMonotone(current: Options, start: Options, target: Patch, ratio1: real, ratio2: real)
    requires target.size.Some? && start.size <= target.size.value
    requires ratio1 <= ratio2
    ensures Tick(current, start, target, Eased(ratio1)).size <= Tick(current, start, target, Eased(ratio2)).size
  {
    InterpolateMonotone(start.size, target.size.value, ratio1, ratio2);
  }

  /**
   * Animating size 50 to 100: 50 at the first frame, 93.75 at the eased
   * progress of ratio 0.5 (see EasedSamples), 100 at the end.
   */
  lemma SizeAnimationSample(current: Options, start: Options)
    requires start.size == 50.0
    ensures Tick(current, start, EMPTY_PATCH.(size := Some(100.0)), 0.0).size == 50.0
    ensures Tick(current, start, EMPTY_PATCH.(size := Some(100.0)), 0.875).size == 93.75
    ensures Tick(current, start, EMPTY_PATCH.(size := Some(100.0)), 1.0).size == 100.0
  {
  }

  /** The easing at the start, halfway and at the end of the animation. */
  lemma EasedSamples()
    ensures Eased(0.0) == 0.0
    ensures Eased(0.5) == 0.875
    ensures Eased(1.0) == 1.0
  {
  }
}
