/**
 * The clipper's options record, the partial records that `set`, presets and
 * animation targets supply, and the operations on them that do not need an
 * instance: merging, the defaults and the preset table.
 */
module Parameters {
  import opened Wrappers
  import ShapeGeometry

  /** The option names the clipper itself reads or writes. */
  const KNOWN_NAMES: set<string> :=
    {"shape", "size", "x", "y", "rotation", "transition", "customPath"}

  /** Numeric options under any other name (they have no effect on the boundary). */
  type Extras = m: map<string, real> | m.Keys !! KNOWN_NAMES witness map[]

  /** The full options record held by a clipper. */
  datatype Options = Options(
    shape: string,
    size: real,
    x: real,
    y: real,
    rotation: real,
    transition: string,
    customPath: Option<string>,
    extra: Extras)

  /** A partial options object: None means the key is absent. */
  datatype Patch = Patch(
    shape: Option<string>,
    size: Option<real>,
    x: Option<real>,
    y: Option<real>,
    rotation: Option<real>,
    transition: Option<string>,
    customPath: Option<string>,
    extra: Extras)

  /** The patch with no keys. */
  const EMPTY_PATCH: Patch := Patch(None, None, None, None, None, None, None, map[])

  /** The literal default options, used by the constructor and by reset. */
  function Defaults(): (o: Options)
    ensures o.shape == "circle" && o.size == 50.0 && o.x == 50.0 && o.y == 50.0
    ensures o.rotation == 0.0 && o.transition == "0.3s ease"
    ensures o.customPath.None? && o.extra == map[]
  {
    Options("circle", 50.0, 50.0, 50.0, 0.0, "0.3s ease", None, map[])
  }

  /**
   * Object.assign(options, patch): every key the patch has overwrites the
   * option, every other option keeps its value.
   */
  function Merge(o: Options, p: Patch): (r: Options)
    ensures r.shape == p.shape.GetOr(o.shape)
    ensures r.size == p.size.GetOr(o.size)
    ensures r.x == p.x.GetOr(o.x)
    ensures r.y == p.y.GetOr(o.y)
    ensures r.rotation == p.rotation.GetOr(o.rotation)
    ensures r.transition == p.transition.GetOr(o.transition)
    ensures r.customPath == (if p.customPath.Some? then p.customPath else o.customPath)
    ensures r.extra.Keys == o.extra.Keys + p.extra.Keys
  {
    Options(
      p.shape.GetOr(o.shape),
      p.size.GetOr(o.size),
      p.x.GetOr(o.x),
      p.y.GetOr(o.y),
      p.rotation.GetOr(o.rotation),
      p.transition.GetOr(o.transition),
      if p.customPath.Some? then p.customPath else o.customPath,
      o.extra + p.extra)
  }

  /** The other numeric names: the patch's values win, the rest keep their values. */
  lemma MergeExtras(o: Options, p: Patch)
    ensures forall k :: k in p.extra ==> Merge(o, p).extra[k] == p.extra[k]
    ensures forall k :: k in o.extra && k !in p.extra ==> Merge(o, p).extra[k] == o.extra[k]
  {
  }

  /** Merging the empty patch changes nothing. */
  lemma MergeEmpty(o: Options)
    ensures Merge(o, EMPTY_PATCH) == o
  {
  }

  /** Applying the same patch twice is the same as applying it once. */
  lemma MergeIdempotent(o: Options, p: Patch)
    ensures Merge(Merge(o, p), p) == Merge(o, p)
  {
  }

  /** The names the preset table knows. */
  const PRESET_NAMES: set<string> :=
    {"circle", "ellipse", "square", "diamond", "triangle", "hexagon", "star", "heart"}

  /**
   * A patch that sets shape, size, x and y and rotation (centred, unrotated)
   * and no other option.
   */
  predicate PlacesShape(p: Patch) {
    && p.shape.Some? && p.size.Some?
    && p.x == Some(50.0) && p.y == Some(50.0) && p.rotation == Some(0.0)
    && p.transition.None? && p.customPath.None? && p.extra == map[]
  }

  /** A preset entry: shape and size, centred, unrotated. */
  function PresetPatch(shape: string, size: real): Patch {
    Patch(Some(shape), Some(size), Some(50.0), Some(50.0), Some(0.0), None, None, map[])
  }

  /**
   * The preset table. A known name yields a patch that sets exactly shape,
   * size, x, y and rotation (centred and unrotated) and nothing else, and
   * draws the shape of the same name ("square" draws a rectangle); an
   * unknown name yields nothing.
   */
  function PresetOf(name: string): (p: Option<Patch>)
    ensures p.Some? <==> name in PRESET_NAMES
    ensures p.Some? ==> PlacesShape(p.value)
    ensures p.Some? ==> p.value.shape == Some(if name == "square" then "rectangle" else name)
    ensures p.Some? ==> 0.0 <= p.value.size.value <= 100.0
  {
    if name == "circle" then Some(PresetPatch("circle", 45.0))
    else if name == "ellipse" then Some(PresetPatch("ellipse", 60.0))
    else if name == "square" then Some(PresetPatch("rectangle", 70.0))
    else if name == "diamond" then Some(PresetPatch("diamond", 60.0))
    else if name == "triangle" then Some(PresetPatch("triangle", 50.0))
    else if name == "hexagon" then Some(PresetPatch("hexagon", 60.0))
    else if name == "star" then Some(PresetPatch("star", 70.0))
    else if name == "heart" then Some(PresetPatch("heart", 60.0))
    else None
  }

  /** The table has eight entries. */
  lemma PresetCount()
    ensures |PRESET_NAMES| == 8
  {
  }

  /**
   * Applying a known preset sets shape, size, x, y and rotation and keeps
   * transition, customPath and every other option; "square" draws a rectangle
   * and "star" is size 70.
   */
  lemma PresetApplied(o: Options, name: string)
    requires name in PRESET_NAMES
    ensures var r := Merge(o, PresetOf(name).value);
      && r.x == 50.0 && r.y == 50.0 && r.rotation == 0.0
      && r.transition == o.transition && r.customPath == o.customPath && r.extra == o.extra
      && !ShapeGeometry.GenerateClipPath(r.shape, r.size, r.x, r.y, r.customPath).Opaque?
    ensures name == "star" ==> Merge(o, PresetOf(name).value) == o.(shape := "star", size := 70.0, x := 50.0, y := 50.0, rotation := 0.0)
    ensures name == "square" ==> Merge(o, PresetOf(name).value).shape == "rectangle"
  {
  }
}
