/** plot_segs: truth segments drawn as one line trace. For each axis the
    trace lists, per segment, its start, its end and a None that breaks the
    line, so that consecutive segments are not joined. minirun3 coordinates
    are multiplied by 10, minirun4 coordinates are used as stored. */
module Segments {
  import opened Outcomes
  import opened Variants

  datatype Axis = X | Y | Z

  /** One truth segment: the `<axis>_start` and `<axis>_end` columns of a
      segment row. */
  datatype Segment = Segment(xStart: real, xEnd: real, yStart: real, yEnd: real, zStart: real, zEnd: real)
  {
    function Start(axis: Axis): real
    {
      match axis
      case X => xStart
      case Y => yStart
      case Z => zStart
    }

    function End(axis: Axis): real
    {
      match axis
      case X => xEnd
      case Y => yEnd
      case Z => zEnd
    }
  }

  /** A list of coordinates where None breaks the drawn line. */
  type LineRun = seq<Option<real>>

  /** The x, y and z lists of one line trace. */
  datatype LineTrace = LineTrace(x: LineRun, y: LineRun, z: LineRun)

  /** A stored coordinate in display units. */
  function InUnits(v: Variant, c: real): real
  {
    match v
    case Minirun4 => c
    case Minirun3 => c * 10.0
  }

  /** The flattened column stack of starts, ends and Nones. */
  function Interleave(segs: seq<Segment>, v: Variant, axis: Axis): (run: LineRun)
    ensures |run| == 3 * |segs|
  {
    if segs == [] then []
    else [Some(InUnits(v, segs[0].Start(axis))), Some(InUnits(v, segs[0].End(axis))), None]
         + Interleave(segs[1..], v, axis)
  }

  /** to_list(axis) inside plot_segs. A name matching neither convention
      leaves the list unassigned, and returning it raises. */
  function ToList(segs: seq<Segment>, simVersion: string, axis: Axis): (r: Result<LineRun>)
    ensures r.Err? <==> simVersion != "minirun3" && simVersion != "minirun4"
    ensures r.Err? ==> r.error == Unbound("nice_array")
    ensures r.Ok? ==> |r.value| == 3 * |segs|
  {
    match ParseVariant(simVersion)
    case None => Err(Unbound("nice_array"))
    case Some(v) => Ok(Interleave(segs, v, axis))
  }

  /** plot_segs(segs, sim_version): the trace of the x, y and z lists. */
  function PlotSegs(segs: seq<Segment>, simVersion: string): (r: Result<LineTrace>)
    ensures r.Err? <==> simVersion != "minirun3" && simVersion != "minirun4"
    ensures r.Err? ==> r.error == Unbound("nice_array")
    ensures r.Ok? ==> |r.value.x| == |r.value.y| == |r.value.z| == 3 * |segs|
  {
    match ToList(segs, simVersion, X)
    case Err(e) => Err(e)
    case Ok(x) =>
      match ToList(segs, simVersion, Y)
      case Err(e) => Err(e)
      case Ok(y) =>
        match ToList(segs, simVersion, Z)
        case Err(e) => Err(e)
        case Ok(z) => Ok(LineTrace(x, y, z))
  }

  /** Entries 3i and 3i+1 are segment i's start and end in display units,
      entry 3i+2 is the break. */
  lemma {:induction false} InterleaveAt(segs: seq<Segment>, v: Variant, axis: Axis, i: nat)
    requires i < |segs|
    ensures Interleave(segs, v, axis)[3 * i] == Some(InUnits(v, segs[i].Start(axis)))
    ensures Interleave(segs, v, axis)[3 * i + 1] == Some(InUnits(v, segs[i].End(axis)))
    ensures Interleave(segs, v, axis)[3 * i + 2] == None
  {
    if i > 0 {
      InterleaveAt(segs[1..], v, axis, i - 1);
    }
  }

  /** An entry is a break exactly at the positions 3i+2; every other entry is
      a coordinate of segment i. */
  lemma InterleaveBreaks(segs: seq<Segment>, v: Variant, axis: Axis, k: nat)
    requires k < 3 * |segs|
    ensures Interleave(segs, v, axis)[k].None? <==> k % 3 == 2
  {
    InterleaveAt(segs, v, axis, k / 3);
  }

  /** Segment i of plot_segs' trace: positions 3i and 3i+1 of the three lists
      are its start and end points (times 10 for minirun3), position 3i+2 is a
      break on every axis. */
  lemma PlotSegsAt(segs: seq<Segment>, v: Variant, i: nat)
    requires i < |segs|
    ensures var r := PlotSegs(segs, VersionName(v));
      r.Ok? &&
      r.value.x[3 * i] == Some(InUnits(v, segs[i].xStart)) &&
      r.value.x[3 * i + 1] == Some(InUnits(v, segs[i].xEnd)) &&
      r.value.y[3 * i] == Some(InUnits(v, segs[i].yStart)) &&
      r.value.y[3 * i + 1] == Some(InUnits(v, segs[i].yEnd)) &&
      r.value.z[3 * i] == Some(InUnits(v, segs[i].zStart)) &&
      r.value.z[3 * i + 1] == Some(InUnits(v, segs[i].zEnd)) &&
      r.value.x[3 * i + 2] == r.value.y[3 * i + 2] == r.value.z[3 * i + 2] == None
  {
    ParseVersionName(v);
    InterleaveAt(segs, v, X, i);
    InterleaveAt(segs, v, Y, i);
    InterleaveAt(segs, v, Z, i);
  }
}
