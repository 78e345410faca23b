/** draw_tpc: the fixed plane boundaries of the detector, moved into the
    coordinate convention of the data (minirun4 in cm with an offset origin,
    minirun3 in mm), a centre marker, and the anode and cathode patches drawn
    from the same moved boundaries. */
module Tpc {
  import opened Outcomes
  import opened Geometry
  import opened Variants
  import opened Planes

  datatype Point = Point(x: real, y: real, z: real)

  /** Plane boundaries along each axis. */
  datatype Boundaries = Boundaries(xs: seq<real>, ys: seq<real>, zs: seq<real>)

  /** The boundaries before any convention is applied. */
  const NominalXs: seq<real> := [-63.931, -3.069, 3.069, 63.931]
  const NominalYs: seq<real> := [-19.8543, 103.8543]
  const NominalZs: seq<real> := [-64.3163, -2.6837, 2.6837, 64.3163]

  /** The boundaries in a convention: minirun4 lowers y by 268 + 42 and
      raises z by 1300; minirun3 multiplies all three axes by 10. */
  function VariantBoundaries(v: Variant): (b: Boundaries)
    ensures |b.xs| == 4 && |b.ys| == 2 && |b.zs| == 4
    ensures v == Minirun4 ==>
      b.xs == NominalXs &&
      (forall k :: 0 <= k < 2 ==> b.ys[k] == NominalYs[k] - 310.0) &&
      (forall k :: 0 <= k < 4 ==> b.zs[k] == NominalZs[k] + 1300.0)
    ensures v == Minirun3 ==>
      (forall k :: 0 <= k < 4 ==> b.xs[k] == 10.0 * NominalXs[k]) &&
      (forall k :: 0 <= k < 2 ==> b.ys[k] == 10.0 * NominalYs[k]) &&
      (forall k :: 0 <= k < 4 ==> b.zs[k] == 10.0 * NominalZs[k])
  {
    match v
    case Minirun4 => Boundaries(NominalXs, Shift(NominalYs, -(268.0 + 42.0)), Shift(NominalZs, 1300.0))
    case Minirun3 => Boundaries(Scale(NominalXs, 10.0), Scale(NominalYs, 10.0), Scale(NominalZs, 10.0))
  }

  /** The centre marker in a convention. */
  function DetectorCenter(v: Variant): Point
  {
    match v
    case Minirun4 => Point(0.0, -268.0, 1300.0)
    case Minirun3 => Point(0.0, 42.0 * 10.0, 0.0)
  }

  /** What draw_tpc returns: the centre marker, the anode patches and the
      cathode patches. */
  datatype Drawing = Drawing(center: Point, anodes: seq<Patch>, cathodes: seq<Patch>)

  /** draw_tpc(sim_version). A name matching neither convention leaves the
      centre unassigned, and reading it raises. */
  function DrawTpc(simVersion: string): (r: Result<Drawing>)
    ensures r.Err? <==> simVersion != "minirun3" && simVersion != "minirun4"
    ensures r.Err? ==> r.error == Unbound("detector_center")
  {
    match ParseVariant(simVersion)
    case None => Err(Unbound("detector_center"))
    case Some(v) =>
      var b := VariantBoundaries(v);
      Ok(Drawing(DetectorCenter(v), AnodePlanes(b.xs, b.ys, b.zs), CathodePlanes(b.xs, b.ys, b.zs)))
  }

  /** The y boundaries stay in ascending order in both conventions, so the
      patches span from the first to the second. */
  lemma YRange(v: Variant)
    ensures var b := VariantBoundaries(v);
      Min(b.ys) == b.ys[0] && Max(b.ys) == b.ys[1] &&
      (v == Minirun4 ==> b.ys[0] == -329.8543 && b.ys[1] == -206.1457) &&
      (v == Minirun3 ==> b.ys[0] == -198.543 && b.ys[1] == 1038.543)
  {
  }

  /** For either convention: the centre of that convention, 8 anode patches
      and 4 cathode patches. */
  lemma DrawTpcCounts(v: Variant)
    ensures DrawTpc(VersionName(v)).Ok?
    ensures DrawTpc(VersionName(v)).value.center == DetectorCenter(v)
    ensures |DrawTpc(VersionName(v)).value.anodes| == 8
    ensures |DrawTpc(VersionName(v)).value.cathodes| == 4
  {
    var b := VariantBoundaries(v);
    ParseVersionName(v);
    AnodePlanesLayout(b.xs, b.ys, b.zs, 0, 0);
    CathodePlanesLayout(b.xs, b.ys, b.zs, 0, 0);
  }

  /** Anode patch 4 iz + ix of a convention is the plane at that convention's
      x boundary ix, spanning its z boundaries 2 iz and 2 iz + 1 and its two
      y boundaries. */
  lemma DrawTpcAnode(v: Variant, iz: nat, ix: nat)
    requires iz < 2 && ix < 4
    ensures var d := DrawTpc(VersionName(v)); var b := VariantBoundaries(v);
      d.Ok? && 4 * iz + ix < |d.value.anodes| &&
      d.value.anodes[4 * iz + ix] == FlatPatch(b.xs[ix], b.zs[2 * iz], b.zs[2 * iz + 1], b.ys[0], b.ys[1])
  {
    var b := VariantBoundaries(v);
    ParseVersionName(v);
    YRange(v);
    AnodePlanesLayout(b.xs, b.ys, b.zs, iz, ix);
  }

  /** Cathode patch 2 iz + ix of a convention is the plane half-way between
      that convention's x boundaries 2 ix and 2 ix + 1, spanning its z
      boundaries 2 iz and 2 iz + 1 and its two y boundaries. */
  lemma DrawTpcCathode(v: Variant, iz: nat, ix: nat)
    requires iz < 2 && ix < 2
    ensures var d := DrawTpc(VersionName(v)); var b := VariantBoundaries(v);
      d.Ok? && 2 * iz + ix < |d.value.cathodes| &&
      d.value.cathodes[2 * iz + ix]
        == FlatPatch((b.xs[2 * ix] + b.xs[2 * ix + 1]) * 0.5, b.zs[2 * iz], b.zs[2 * iz + 1], b.ys[0], b.ys[1])
  {
    var b := VariantBoundaries(v);
    ParseVersionName(v);
    YRange(v);
    CathodePlanesLayout(b.xs, b.ys, b.zs, iz, ix);
  }

  /** The cathodes sit half-way across the two outer x intervals of the
      nominal boundaries: at x = -33.5 and x = 33.5 in minirun4 and at ten
      times that in minirun3. */
  lemma CathodePositions(v: Variant, iz: nat, ix: nat)
    requires iz < 2 && ix < 2
    ensures var d := DrawTpc(VersionName(v));
      d.Ok? && 2 * iz + ix < |d.value.cathodes| &&
      d.value.cathodes[2 * iz + ix].x.At(0, 0)
        == (if v == Minirun3 then 10.0 else 1.0) * (if ix == 0 then -33.5 else 33.5)
  {
    DrawTpcCathode(v, iz, ix);
  }
}
