/**
 * The ImageClipper instance: its options, mutated in place by the setters,
 * `set`, `reset`, `preset` and each animation frame. Every mutator returns
 * the boundary generated from the new options, as `updateClip` does; the
 * writes to the element's style are not part of this model.
 */
module Clipper {
  import opened Wrappers
  import opened JsMath
  import opened ShapeGeometry
  import opened Parameters
  import opened Animator

  class ImageClipper {
    var shape: string
    var size: real
    var x: real
    var y: real
    var rotation: real
    var transition: string
    var customPath: Option<string>
    var extra: Extras

    /** The options as one record (what `get` copies out). */
    function Current(): Options
      reads this
    {
      Options(shape, size, x, y, rotation, transition, customPath, extra)
    }

    /** The boundary for the current options. */
    function Boundary(): ClipPath
      reads this
    {
      GenerateClipPath(shape, size, x, y, customPath)
    }

    /** The defaults with the caller's overrides spread over them. */
    constructor (overrides: Patch)
      ensures Current() == Merge(Defaults(), overrides)
    {
      var d := Defaults();
      shape := overrides.shape.GetOr(d.shape);
      size := overrides.size.GetOr(d.size);
      x := overrides.x.GetOr(d.x);
      y := overrides.y.GetOr(d.y);
      rotation := overrides.rotation.GetOr(d.rotation);
      transition := overrides.transition.GetOr(d.transition);
      customPath := overrides.customPath;
      extra := overrides.extra;
    }

    /** getClipPath: the boundary of the current options; changes nothing. */
    method GetClipPath() returns (clip: ClipPath)
      ensures clip == Boundary()
    {
      clip := GenerateClipPath(shape, size, x, y, customPath);
    }

    /** get: a copy of the options. */
    method Get() returns (o: Options)
      ensures o == Current()
    {
      o := Options(shape, size, x, y, rotation, transition, customPath, extra);
    }

    method SetShape(name: string) returns (clip: ClipPath)
      modifies this
      ensures Current() == old(Current()).(shape := name)
      ensures clip == Boundary()
    {
      shape := name;
      clip := Boundary();
    }

    /** The size is stored clamped to [0,100]. */
    method SetSize(value: real) returns (clip: ClipPath)
      modifies this
      ensures Current() == old(Current()).(size := ClampPercent(value))
      ensures 0.0 <= size <= 100.0
      ensures clip == Boundary()
    {
      size := Max(0.0, Min(100.0, value));
      clip := Boundary();
    }

    /** Both coordinates are stored clamped to [0,100]. */
    method SetPosition(newX: real, newY: real) returns (clip: ClipPath)
      modifies this
      ensures Current() == old(Current()).(x := ClampPercent(newX), y := ClampPercent(newY))
      ensures 0.0 <= x <= 100.0 && 0.0 <= y <= 100.0
      ensures clip == Boundary()
    {
      x := Max(0.0, Min(100.0, newX));
      y := Max(0.0, Min(100.0, newY));
      clip := Boundary();
    }

    method SetX(value: real) returns (clip: ClipPath)
      modifies this
      ensures Current() == old(Current()).(x := ClampPercent(value))
      ensures 0.0 <= x <= 100.0
      ensures clip == Boundary()
    {
      x := Max(0.0, Min(100.0, value));
      clip := Boundary();
    }

    method SetY(value: real) returns (clip: ClipPath)
      modifies this
      ensures Current() == old(Current()).(y := ClampPercent(value))
      ensures 0.0 <= y <= 100.0
      ensures clip == Boundary()
    {
      y := Max(0.0, Min(100.0, value));
      clip := Boundary();
    }

    /** The rotation is stored as `value % 360`, which keeps the sign of value. */
    method SetRotation(value: real) returns (clip: ClipPath)
      modifies this
      ensures Current() == old(Current()).(rotation := Rem360(value))
      ensures -360.0 < rotation < 360.0
      ensures clip == Boundary()
    {
      rotation := Rem360(value);
      clip := Boundary();
    }

    /** Stores the path and switches the shape to "custom". */
    method SetCustomPath(path: string) returns (clip: ClipPath)
      modifies this
      ensures Current() == old(Current()).(customPath := Some(path), shape := "custom")
      ensures clip == if path == "" then NONE else Opaque(path)
    {
      customPath := Some(path);
      shape := "custom";
      clip := Boundary();
    }

    /** set: Object.assign of the patch onto the options, with no clamping. */
    method Set(patch: Patch) returns (clip: ClipPath)
      modifies this
      ensures Current() == Merge(old(Current()), patch)
      ensures clip == Boundary()
    {
      Assign(patch);
      clip := Boundary();
    }

    /** The key-by-key copy that `set` performs. */
    method Assign(patch: Patch)
      modifies this
      ensures Current() == Merge(old(Current()), patch)
    {
      shape := patch.shape.GetOr(shape);
      size := patch.size.GetOr(size);
      x := patch.x.GetOr(x);
      y := patch.y.GetOr(y);
      rotation := patch.rotation.GetOr(rotation);
      transition := patch.transition.GetOr(transition);
      customPath := if patch.customPath.Some? then patch.customPath else customPath;
      extra := extra + patch.extra;
    }

    /** reset: a fresh default record; the custom path and any other option are dropped. */
    method Reset() returns (clip: ClipPath)
      modifies this
      ensures Current() == Defaults()
      ensures clip == Circle(50.0, 50.0, 50.0)
    {
      shape, size, x, y, rotation, transition := "circle", 50.0, 50.0, 50.0, 0.0, "0.3s ease";
      customPath := None;
      extra := map[];
      clip := Boundary();
    }

    /** preset: a known name is applied through set; an unknown one changes nothing. */
    method Preset(name: string) returns (clip: ClipPath)
      modifies this
      ensures Current() == if name in PRESET_NAMES then Merge(old(Current()), PresetOf(name).value) else old(Current())
      ensures clip == Boundary()
    {
      var entry := PresetOf(name);
      if entry.Some? {
        clip := Set(entry.value);
      } else {
        clip := Boundary();
      }
    }

    /**
     * One animation frame: for every key of the target, a number is
     * interpolated from the start snapshot with the eased progress and any
     * other value is copied.
     */
    method AnimateStep(start: Options, target: Patch, ratio: real) returns (clip: ClipPath)
      modifies this
      ensures Current() == Tick(old(Current()), start, target, Eased(ratio))
      ensures clip == Boundary()
    {
      var eased := Eased(ratio);
      AnimateKnown(start, target, eased);
      AnimateExtras(start.extra, target.extra, eased);
      clip := Boundary();
    }

    /** The frame's writes to the seven known options. */
    method AnimateKnown(start: Options, target: Patch, eased: real)
      modifies this`shape, this`size, this`x, this`y, this`rotation, this`transition, this`customPath
      ensures Current() == Tick(old(Current()), start, target, eased).(extra := extra)
    {
      shape := target.shape.GetOr(shape);
      size := if target.size.Some? then Interpolate(start.size, target.size.value, eased) else size;
      x := if target.x.Some? then Interpolate(start.x, target.x.value, eased) else x;
      y := if target.y.Some? then Interpolate(start.y, target.y.value, eased) else y;
      rotation := if target.rotation.Some? then Interpolate(start.rotation, target.rotation.value, eased) else rotation;
      transition := target.transition.GetOr(transition);
      customPath := if target.customPath.Some? then target.customPath else customPath;
    }

    /**
     * The frame's writes to numeric options outside the known names, one
     * target key at a time; an option missing from the start counts as 0.
     */
    method AnimateExtras(start: Extras, target: Extras, eased: real)
      modifies this`extra
      ensures extra == old(extra) + InterpolatedExtras(start, target, eased)
    {
      var pending := target.Keys;
      while pending != {}
        invariant pending <= target.Keys
        invariant extra.Keys == old(extra).Keys + (target.Keys - pending)
        invariant forall name :: name in target && name !in pending ==>
          extra[name] == Interpolate(ExtraStart(start, name), target[name], eased)
        invariant forall name :: name in old(extra) && (name !in target || name in pending) ==>
          extra[name] == old(extra)[name]
        decreases pending
      {
        var name :| name in pending;
        extra := extra[name := Interpolate(ExtraStart(start, name), target[name], eased)];
        pending := pending - {name};
      }
    }
  }
}
