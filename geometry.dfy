/** The array arithmetic the geometry code does with numpy, on reals:
    2x2 meshes, element-wise offsets and scales, minimum and maximum. */
module Geometry {

  /** A 2x2 array of coordinates as handed to a surface trace; `At(i, j)` is
      row i, column j. */
  datatype Grid = Grid(m00: real, m01: real, m10: real, m11: real)
  {
    function At(i: nat, j: nat): real
      requires i < 2 && j < 2
    {
      if i == 0 then (if j == 0 then m00 else m01)
      else (if j == 0 then m10 else m11)
    }
  }

  /** One flat surface patch: the x, y and z coordinate grids of its corners. */
  datatype Patch = Patch(x: Grid, y: Grid, z: Grid)

  /** `np.linspace(a, b, 2)`. */
  function Linspace2(a: real, b: real): seq<real>
  {
    [a, b]
  }

  /** `np.meshgrid(u, v)` for two 2-element vectors: the first grid repeats u
      along each row, the second repeats v down each column. */
  function MeshGrid(u: seq<real>, v: seq<real>): (r: (Grid, Grid))
    requires |u| == 2 && |v| == 2
    ensures forall i: nat, j: nat :: i < 2 && j < 2 ==> r.0.At(i, j) == u[j] && r.1.At(i, j) == v[i]
  {
    (Grid(u[0], u[1], u[0], u[1]), Grid(v[0], v[0], v[1], v[1]))
  }

  /** `c * np.ones((2, 2))`. */
  function Full(c: real): Grid
  {
    Grid(c, c, c, c)
  }

  /** The patch both plane drawers build: the z and y meshes span [z0, z1] and
      [y0, y1], and x is the constant xc. */
  function FlatPatch(xc: real, z0: real, z1: real, y0: real, y1: real): (p: Patch)
    ensures forall i: nat, j: nat :: i < 2 && j < 2 ==>
      p.x.At(i, j) == xc &&
      p.z.At(i, j) == (if j == 0 then z0 else z1) &&
      p.y.At(i, j) == (if i == 0 then y0 else y1)
  {
    var (z, y) := MeshGrid(Linspace2(z0, z1), Linspace2(y0, y1));
    Patch(Full(xc), y, z)
  }

  /** `a.min()` of a numpy array; numpy raises on an empty one. */
  function Min(s: seq<real>): (m: real)
    requires |s| > 0
    ensures m in s
    ensures forall k :: 0 <= k < |s| ==> m <= s[k]
  {
    if |s| == 1 then s[0]
    else
      var rest := Min(s[1..]);
      if s[0] <= rest then s[0] else rest
  }

  /** `a.max()` of a numpy array; numpy raises on an empty one. */
  function Max(s: seq<real>): (m: real)
    requires |s| > 0
    ensures m in s
    ensures forall k :: 0 <= k < |s| ==> s[k] <= m
  {
    if |s| == 1 then s[0]
    else
      var rest := Max(s[1..]);
      if s[0] >= rest then s[0] else rest
  }

  /** `a + d` on a numpy array. */
  function Shift(s: seq<real>, d: real): (r: seq<real>)
    ensures |r| == |s|
    ensures forall k :: 0 <= k < |s| ==> r[k] == s[k] + d
  {
    seq(|s|, k requires 0 <= k < |s| => s[k] + d)
  }

  /** `a * c` on a numpy array. */
  function Scale(s: seq<real>, c: real): (r: seq<real>)
    ensures |r| == |s|
    ensures forall k :: 0 <= k < |s| ==> r[k] == s[k] * c
  {
    seq(|s|, k requires 0 <= k < |s| => s[k] * c)
  }
}
