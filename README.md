# 2x2 event display: geometry and scene bookkeeping

This project models the logic in `display_utils.py` of the 2x2 event display,
a viewer that draws one detector event at a time as a 3D figure. The parts
modelled are the ones that decide what is drawn and where:

- **Truth probing** (`create_3d_figure`). The viewer looks for truth segments
  in the minirun4 table ("mc_truth/segments") first. Only if that lookup
  raises does it try the minirun3 table ("mc_truth/tracks"). The convention
  whose table answered is recorded in `sim_version`.
- **Figure assembly** (`create_3d_figure`). The traces are drawn in this
  order: prompt hits, final hits, the segments when found, the detector
  centre, the anode patches, the cathode patches.
- **Segment interleaving** (`plot_segs` / `to_list`). Each truth segment
  becomes a start, an end and a `None` line break on each axis. minirun3
  coordinates are multiplied by 10.
- **Detector geometry** (`draw_tpc`). The fixed plane boundaries are moved
  into the data's convention: minirun4 shifts y by -310 and z by +1300,
  minirun3 multiplies every axis by 10. A centre marker is set per convention.
- **Plane patches** (`draw_anode_planes`, `draw_cathode_planes`). Nested
  loops append one flat 2x2 surface patch per z-boundary pair and x
  boundary (anodes), or per z-boundary pair and x-boundary pair (cathodes).
- **Colour-stop bracketing** (`get_continuous_color`). The edge cases come
  first. Then a scan finds the first stop at or above the value and the
  stop before it.

Coordinates are Dafny `real`s. The event store is a datatype whose table
lookups are function-valued fields that either raise (`None`) or return
rows. The exceptions the code can end in are modelled as `Err` values:
`ValueError`, `UnboundLocalError` for a local that no branch assigned
(named by the variable), and a failed lookup. The convention stays a
string, as in the code, so a name that matches neither branch can be
modelled.

Modules: `Outcomes` (Option, Result, Error), `Variants`, `Geometry` (numpy's
2x2 meshes, min, max, offset, scale), `Planes`, `Tpc`, `Segments`, `Figure`,
`Colors`, `Light`.

Two failure paths of the code are modelled as errors, not as defaults:
- When neither truth table answers, `create_3d_figure` raises rather than
  drawing the figure without segments: `draw_tpc(sim_version)` is reached
  with `sim_version` unassigned (`Figure.FigureErrors`).
- For a convention name that matches neither branch, `draw_tpc` raises
  rather than drawing untransformed boundaries: `detector_center` is read
  unassigned (`Tpc.DrawTpc`).

## Model

| member | source | states |
|---|---|---|
| `Variants.ParseVariant` | display_utils.py:156-164 | a name selects a branch exactly when it is "minirun3" or "minirun4", and the branch it selects is named by it |
| `Variants.ParseVersionName` | display_utils.py:30-42 | the name recorded for a convention selects that same convention's branches later |
| `Geometry.MeshGrid` | display_utils.py:187-190 | numpy's meshgrid of two 2-vectors: the first grid repeats u along rows, the second repeats v down columns |
| `Geometry.FlatPatch` | display_utils.py:205-209 | the patch has constant x, z corners z0 (column 0) and z1 (column 1), y corners y0 (row 0) and y1 (row 1) |
| `Geometry.Min` | display_utils.py:189 | the minimum is an element of the array and at most every element |
| `Geometry.Max` | display_utils.py:189 | the maximum is an element of the array and at least every element |
| `Geometry.Shift` | display_utils.py:158-159 | adding a constant to an array keeps its length and adds it to every element |
| `Geometry.Scale` | display_utils.py:162-164 | multiplying an array by a constant keeps its length and multiplies every element |
| `Planes.AnodeRowsLength` | display_utils.py:203-204 | after n z pairs the anode list holds n times the number of x boundaries patches |
| `Planes.AnodeRowsAt` | display_utils.py:203-211 | after n z pairs, patch iz * nx + ix is the flat patch at x[ix] over z[2iz]..z[2iz+1] and min(y)..max(y) |
| `Planes.AnodePlanesLayout` | display_utils.py:201-213 | draw_anode_planes returns floor(nz/2) * nx patches, z-pair major, patch (iz, ix) at x[ix] over z pair iz and the full y range |
| `Planes.DrawAnodePlanes` | display_utils.py:201-213 | the nested loops return exactly the anode patch list described above |
| `Planes.CathodeRowsLength` | display_utils.py:185-186 | after n z pairs the cathode list holds n times floor(nx/2) patches |
| `Planes.CathodeRowsAt` | display_utils.py:185-196 | after n z pairs, patch iz * floor(nx/2) + ix is the flat patch at the midpoint of x[2ix], x[2ix+1] over z pair iz and the full y range |
| `Planes.CathodePlanesLayout` | display_utils.py:183-198 | draw_cathode_planes returns floor(nz/2) * floor(nx/2) patches, z-pair major, patch (iz, ix) at the midpoint of x pair ix |
| `Planes.DrawCathodePlanes` | display_utils.py:183-198 | the nested loops return exactly the cathode patch list described above |
| `Tpc.VariantBoundaries` | display_utils.py:153-164 | minirun4: x kept, y minus 310, z plus 1300; minirun3: x, y, z times 10; array lengths 4, 2, 4 |
| `Tpc.DrawTpc` | display_utils.py:152-180 | draw_tpc raises (detector_center unassigned) exactly when the name matches neither convention |
| `Tpc.YRange` | display_utils.py:154-163 | in both conventions the y range is the two boundaries in order: [-329.8543, -206.1457] in minirun4, [-198.543, 1038.543] in minirun3 |
| `Tpc.DrawTpcCounts` | display_utils.py:156-180 | for either convention: the centre is (0, -268, 1300) or (0, 420, 0), with 8 anode and 4 cathode patches |
| `Tpc.DrawTpcAnode` | display_utils.py:174-176 | anode patch 4iz + ix lies at the convention's x[ix], over its z pair iz and its y range |
| `Tpc.DrawTpcCathode` | display_utils.py:177-179 | cathode patch 2iz + ix lies half-way between the convention's x[2ix] and x[2ix+1], over the same z pair and y range as the anodes |
| `Tpc.CathodePositions` | display_utils.py:191-195 | the cathodes sit at x = -33.5 and 33.5 in minirun4, and ten times that in minirun3 |
| `Segments.Interleave` | display_utils.py:132-142 | the flattened per-axis list has 3 entries per segment |
| `Segments.ToList` | display_utils.py:130-143 | to_list raises (nice_array unassigned) exactly for an unknown name, and otherwise returns 3n entries |
| `Segments.PlotSegs` | display_utils.py:129-149 | the x, y and z lists all have length 3n, and an unknown name raises |
| `Segments.InterleaveAt` | display_utils.py:132-142 | entries 3i and 3i+1 are segment i's start and end (times 10 for minirun3), and entry 3i+2 is None |
| `Segments.InterleaveBreaks` | display_utils.py:133-140 | an entry is a line break exactly at positions 3i+2 |
| `Segments.PlotSegsAt` | display_utils.py:145-147 | on all three axes, positions 3i and 3i+1 are segment i's start and end points, and 3i+2 breaks the line |
| `Figure.ProbeTruth` | display_utils.py:22-46 | minirun4 is tried first and minirun3 only if it fails; segments are found exactly when a convention is recorded, and the recorded convention's table is the one that answered |
| `Figure.Surfaces` | display_utils.py:123-124 | each patch becomes one surface trace, in order |
| `Figure.Create3DFigure` | display_utils.py:16-126 | both hit lookups first (a failing prompt lookup is the error), then the truth probe, then draw_tpc(sim_version); a drawn figure starts with the prompt hits, the final hits, the segment lines and the centre marker of the recorded convention |
| `Figure.FigureErrors` | display_utils.py:16-126 | the figure fails exactly when a hit lookup raises or neither truth table answers, and the error is the first failure in program order |
| `Figure.FigureLayout` | display_utils.py:108-124 | a drawn figure has 16 traces: prompt hits, final hits, the probed segments, the convention's centre, then 8 anode and 4 cathode surfaces |
| `Colors.FirstAtOrAbove` | display_utils.py:341-346 | the scan stops at the first stop at or above the value; every stop before it is below the value |
| `Colors.ContinuousColor` | display_utils.py:333-354 | an empty scale raises ValueError; a value <= 0 or a single stop gives the first colour; a value >= 1 gives the last |
| `Colors.GetContinuousColor` | display_utils.py:313-354 | the loop with its break returns what ContinuousColor describes, including the unassigned-low and unassigned-high failures |
| `Colors.IntermediateBracket` | display_utils.py:341-354 | for 0 < value < 1, a colour that is found is the intermediate between the stop before the first stop at or above the value and that stop, at the value's fraction of the way between their cutoffs |
| `Colors.BracketSplitsScale` | display_utils.py:341-346 | for sorted stops, a stop lies below the value exactly when it comes before the high stop: high is the first at or above, low the last below |
| `Colors.FractionInRange` | display_utils.py:349-352 | the interpolation fraction lies in (0, 1] |
| `Colors.UnboundCases` | display_utils.py:341-352 | for 0 < value < 1: low is unassigned exactly when the first cutoff is at or above the value (for sorted stops: when none is below); high is unassigned exactly when every stop is below |
| `Colors.StandardScaleResolves` | display_utils.py:333-352 | a scale whose first cutoff is <= 0 and last cutoff is >= 1 never fails |
| `Light.OpIdDigits` | display_utils.py:258 | the detector id gives back its slot, side and TPC digits, so distinct triples get distinct ids |
| `Light.OpIdOnto` | display_utils.py:258 | every id is the id of its own three digits |

## Left out

- `app.py` is not modelled: the Dash layout, upload widget, session stores and callbacks are UI-framework plumbing. It also imports a function that `display_utils.py` does not define.
- `parse_contents` and the h5flow indexing are not modelled. The HDF5 library is foreign. Lookups are abstract partial functions, and the event count is not modelled.
- Truth lookups return the segment rows directly. The `[0, :, 0, 0]` slice of the joined result is folded into the lookup.
- Plotly trace construction is not modelled: marker, colour-bar, opacity and legend settings are chart configuration. Traces keep only their data and their legend names ("prompt hits", "final hits", "edep segments", "tpc center"); the anode and cathode surfaces have no name in the code.
- The x1000 energy scaling of the hit colours and hover data is left out, because it is a single multiplication used only for display. The `print` logging is left out because it is a side effect.
- `plot_light` is left out except for its detector-id numbering. It depends on a detector object whose geometry is not part of this model, and nothing calls it.
- The interpolated RGB colour of `plotly.colors.find_intermediate_color` stays abstract, because it is a foreign call. The model returns the two colours and the fraction that would be passed.
- Floating-point rounding of the boundary constants and their sums is not modelled. Coordinates are exact reals, and NaN is not represented.
- Event-index navigation (wrap and clamp) is not modelled, because the code shown does not contain it.
- The default argument `sim_version="minirun4"` of `draw_tpc` is not modelled: `Tpc.DrawTpc` always takes the name, because the only caller, `create_3d_figure`, always passes it.
- The ValueError numpy raises from `y_boundaries.min()` on empty y boundaries is not modelled: the requires of `Planes.DrawAnodePlanes`, `Planes.DrawCathodePlanes`, `Planes.AnodePlanes` and `Planes.CathodePlanes` exclude empty y boundaries when a patch would be drawn, because the only caller, `draw_tpc`, always passes two y boundaries.
