/** The anode and cathode plane drawers. Both walk the z boundaries in pairs;
    the anode drawer then takes every x boundary, the cathode drawer every
    pair of x boundaries (drawing the plane half-way between the pair). Each
    step appends one flat patch spanning the z pair and the full y range. */
module Planes {
  import opened Geometry

  /** Position iz * w + ix of n rows of width w laid end to end: it lies in
      the first n - 1 rows when iz < n - 1, and at position ix of the last
      row otherwise. */
  lemma RowMajorIndex<T>(prev: seq<T>, row: seq<T>, n: nat, w: nat, iz: nat, ix: nat)
    requires iz < n && ix < w
    requires |prev| == (n - 1) * w && |row| == w
    ensures iz * w + ix < |prev + row|
    ensures iz < n - 1 ==> iz * w + ix < |prev| && (prev + row)[iz * w + ix] == prev[iz * w + ix]
    ensures iz == n - 1 ==> (prev + row)[iz * w + ix] == row[ix]
  {
    assert (iz + 1) * w <= n * w;
    assert n * w == (n - 1) * w + w;
    if iz < n - 1 {
      assert (iz + 1) * w <= (n - 1) * w;
    }
  }

  // ----- Anode planes -------------------------------------------------------

  /** The anode patch for z pair iz and x boundary ix. */
  function AnodePatch(xs: seq<real>, ys: seq<real>, zs: seq<real>, iz: nat, ix: nat): Patch
    requires 2 * iz + 1 < |zs| && ix < |xs| && |ys| > 0
  {
    FlatPatch(xs[ix], zs[2 * iz], zs[2 * iz + 1], Min(ys), Max(ys))
  }

  /** The patches emitted for z pair iz: one per x boundary, in x order. */
  function AnodeRow(xs: seq<real>, ys: seq<real>, zs: seq<real>, iz: nat): seq<Patch>
    requires 2 * iz + 1 < |zs|
    requires |ys| > 0 || |xs| == 0
  {
    seq(|xs|, ix requires 0 <= ix < |xs| => AnodePatch(xs, ys, zs, iz, ix))
  }

  /** The patches emitted for the first n z pairs. */
  function AnodeRows(xs: seq<real>, ys: seq<real>, zs: seq<real>, n: nat): seq<Patch>
    requires 2 * n <= |zs|
    requires |ys| > 0 || |xs| == 0 || n == 0
  {
    if n == 0 then [] else AnodeRows(xs, ys, zs, n - 1) + AnodeRow(xs, ys, zs, n - 1)
  }

  /** Everything draw_anode_planes returns. The y range is only computed when
      a patch is drawn, so empty y boundaries are harmless with no patch. */
  function AnodePlanes(xs: seq<real>, ys: seq<real>, zs: seq<real>): seq<Patch>
    requires |ys| > 0 || |xs| == 0 || |zs| < 2
  {
    AnodeRows(xs, ys, zs, |zs| / 2)
  }

  lemma {:induction false} AnodeRowsLength(xs: seq<real>, ys: seq<real>, zs: seq<real>, n: nat)
    requires 2 * n <= |zs|
    requires |ys| > 0 || |xs| == 0 || n == 0
    ensures |AnodeRows(xs, ys, zs, n)| == n * |xs|
  {
    if n > 0 {
      AnodeRowsLength(xs, ys, zs, n - 1);
      assert n * |xs| == (n - 1) * |xs| + |xs|;
    }
  }

  lemma {:induction false} AnodeRowsAt(xs: seq<real>, ys: seq<real>, zs: seq<real>, n: nat, iz: nat, ix: nat)
    requires 2 * n <= |zs|
    requires iz < n && ix < |xs|
    requires |ys| > 0
    ensures iz * |xs| + ix < |AnodeRows(xs, ys, zs, n)|
    ensures AnodeRows(xs, ys, zs, n)[iz * |xs| + ix] == AnodePatch(xs, ys, zs, iz, ix)
  {
    var prev, row := AnodeRows(xs, ys, zs, n - 1), AnodeRow(xs, ys, zs, n - 1);
    AnodeRowsLength(xs, ys, zs, n - 1);
    RowMajorIndex(prev, row, n, |xs|, iz, ix);
    if iz < n - 1 {
      AnodeRowsAt(xs, ys, zs, n - 1, iz, ix);
    }
  }

  /** There are (|zs| / 2) * |xs| anode patches, z pair major: patch number
      iz * |xs| + ix is the plane at x boundary ix spanning z pair iz and the
      whole y range. */
  lemma AnodePlanesLayout(xs: seq<real>, ys: seq<real>, zs: seq<real>, iz: nat, ix: nat)
    requires |ys| > 0 || |xs| == 0 || |zs| < 2
    ensures |AnodePlanes(xs, ys, zs)| == (|zs| / 2) * |xs|
    ensures iz < |zs| / 2 && ix < |xs| ==>
      iz * |xs| + ix < |AnodePlanes(xs, ys, zs)| &&
      AnodePlanes(xs, ys, zs)[iz * |xs| + ix]
        == FlatPatch(xs[ix], zs[2 * iz], zs[2 * iz + 1], Min(ys), Max(ys))
  {
    AnodeRowsLength(xs, ys, zs, |zs| / 2);
    if iz < |zs| / 2 && ix < |xs| {
      AnodeRowsAt(xs, ys, zs, |zs| / 2, iz, ix);
    }
  }

  /** draw_anode_planes: nested loops over z pairs and x boundaries, appending
      one patch per step. */
  method DrawAnodePlanes(xs: seq<real>, ys: seq<real>, zs: seq<real>) returns (traces: seq<Patch>)
    requires |ys| > 0 || |xs| == 0 || |zs| < 2
    ensures traces == AnodePlanes(xs, ys, zs)
  {
    traces := [];
    var iz := 0;
    while iz < |zs| / 2
      invariant 0 <= iz <= |zs| / 2
      invariant traces == AnodeRows(xs, ys, zs, iz)
    {
      var ix := 0;
      while ix < |xs|
        invariant 0 <= ix <= |xs|
        invariant traces == AnodeRows(xs, ys, zs, iz) + AnodeRow(xs, ys, zs, iz)[..ix]
      {
        var x := Full(xs[ix]);
        var (z, y) := MeshGrid(Linspace2(zs[2 * iz], zs[2 * iz + 1]), Linspace2(Min(ys), Max(ys)));
        traces := traces + [Patch(x, y, z)];
        ix := ix + 1;
      }
      assert AnodeRow(xs, ys, zs, iz)[..|xs|] == AnodeRow(xs, ys, zs, iz);
      iz := iz + 1;
    }
  }

  // ----- Cathode planes -----------------------------------------------------

  /** The cathode patch for z pair iz and x pair ix: half-way between the two
      x boundaries of the pair. */
  function CathodePatch(xs: seq<real>, ys: seq<real>, zs: seq<real>, iz: nat, ix: nat): Patch
    requires 2 * iz + 1 < |zs| && 2 * ix + 1 < |xs| && |ys| > 0
  {
    FlatPatch((xs[2 * ix] + xs[2 * ix + 1]) * 0.5, zs[2 * iz], zs[2 * iz + 1], Min(ys), Max(ys))
  }

  /** The patches emitted for z pair iz: one per pair of x boundaries. */
  function CathodeRow(xs: seq<real>, ys: seq<real>, zs: seq<real>, iz: nat): seq<Patch>
    requires 2 * iz + 1 < |zs|
    requires |ys| > 0 || |xs| < 2
  {
    seq(|xs| / 2, ix requires 0 <= ix < |xs| / 2 => CathodePatch(xs, ys, zs, iz, ix))
  }

  /** The patches emitted for the first n z pairs. */
  function CathodeRows(xs: seq<real>, ys: seq<real>, zs: seq<real>, n: nat): seq<Patch>
    requires 2 * n <= |zs|
    requires |ys| > 0 || |xs| < 2 || n == 0
  {
    if n == 0 then [] else CathodeRows(xs, ys, zs, n - 1) + CathodeRow(xs, ys, zs, n - 1)
  }

  /** Everything draw_cathode_planes returns. */
  function CathodePlanes(xs: seq<real>, ys: seq<real>, zs: seq<real>): seq<Patch>
    requires |ys| > 0 || |xs| < 2 || |zs| < 2
  {
    CathodeRows(xs, ys, zs, |zs| / 2)
  }

  lemma {:induction false} CathodeRowsLength(xs: seq<real>, ys: seq<real>, zs: seq<real>, n: nat)
    requires 2 * n <= |zs|
    requires |ys| > 0 || |xs| < 2 || n == 0
    ensures |CathodeRows(xs, ys, zs, n)| == n * (|xs| / 2)
  {
    if n > 0 {
      CathodeRowsLength(xs, ys, zs, n - 1);
      assert n * (|xs| / 2) == (n - 1) * (|xs| / 2) + |xs| / 2;
    }
  }

  lemma {:induction false} CathodeRowsAt(xs: seq<real>, ys: seq<real>, zs: seq<real>, n: nat, iz: nat, ix: nat)
    requires 2 * n <= |zs|
    requires iz < n && ix < |xs| / 2
    requires |ys| > 0
    ensures iz * (|xs| / 2) + ix < |CathodeRows(xs, ys, zs, n)|
    ensures CathodeRows(xs, ys, zs, n)[iz * (|xs| / 2) + ix] == CathodePatch(xs, ys, zs, iz, ix)
  {
    var prev, row := CathodeRows(xs, ys, zs, n - 1), CathodeRow(xs, ys, zs, n - 1);
    CathodeRowsLength(xs, ys, zs, n - 1);
    RowMajorIndex(prev, row, n, |xs| / 2, iz, ix);
    if iz < n - 1 {
      CathodeRowsAt(xs, ys, zs, n - 1, iz, ix);
    }
  }

  /** There are (|zs| / 2) * (|xs| / 2) cathode patches, z pair major: patch
      number iz * (|xs| / 2) + ix is the plane half-way between x boundaries
      2 ix and 2 ix + 1, spanning z pair iz and the whole y range. */
  lemma CathodePlanesLayout(xs: seq<real>, ys: seq<real>, zs: seq<real>, iz: nat, ix: nat)
    requires |ys| > 0 || |xs| < 2 || |zs| < 2
    ensures |CathodePlanes(xs, ys, zs)| == (|zs| / 2) * (|xs| / 2)
    ensures iz < |zs| / 2 && ix < |xs| / 2 ==>
      iz * (|xs| / 2) + ix < |CathodePlanes(xs, ys, zs)| &&
      CathodePlanes(xs, ys, zs)[iz * (|xs| / 2) + ix]
        == FlatPatch((xs[2 * ix] + xs[2 * ix + 1]) * 0.5, zs[2 * iz], zs[2 * iz + 1], Min(ys), Max(ys))
  {
    CathodeRowsLength(xs, ys, zs, |zs| / 2);
    if iz < |zs| / 2 && ix < |xs| / 2 {
      CathodeRowsAt(xs, ys, zs, |zs| / 2, iz, ix);
    }
  }

  /** draw_cathode_planes: nested loops over z pairs and x pairs, appending
      one patch per step. */
  method DrawCathodePlanes(xs: seq<real>, ys: seq<real>, zs: seq<real>) returns (traces: seq<Patch>)
    requires |ys| > 0 || |xs| < 2 || |zs| < 2
    ensures traces == CathodePlanes(xs, ys, zs)
  {
    traces := [];
    var iz := 0;
    while iz < |zs| / 2
      invariant 0 <= iz <= |zs| / 2
      invariant traces == CathodeRows(xs, ys, zs, iz)
    {
      var ix := 0;
      while ix < |xs| / 2
        invariant 0 <= ix <= |xs| / 2
        invariant traces == CathodeRows(xs, ys, zs, iz) + CathodeRow(xs, ys, zs, iz)[..ix]
      {
        var (z, y) := MeshGrid(Linspace2(zs[2 * iz], zs[2 * iz + 1]), Linspace2(Min(ys), Max(ys)));
        var x := Full((xs[2 * ix] + xs[2 * ix + 1]) * 0.5);
        traces := traces + [Patch(x, y, z)];
        ix := ix + 1;
      }
      assert CathodeRow(xs, ys, zs, iz)[..|xs| / 2] == CathodeRow(xs, ys, zs, iz);
      iz := iz + 1;
    }
  }
}
