/** create_3d_figure: look up one event's hits and truth segments in the
    event store and assemble the traces of its 3D figure in drawing order:
    prompt hits, final hits, truth segments when found, then the detector
    centre, the anode patches and the cathode patches. */
module Figure {
  import opened Outcomes
  import opened Geometry
  import opened Variants
  import opened Segments
  import opened Tpc

  /** One calibrated hit: position and energy. */
  datatype Hit = Hit(x: real, y: real, z: real, e: real)

  /** The two hit tables joined with "charge/events". */
  datatype HitTable = PromptHits | FinalHits

  /** The two truth tables, reached from the prompt hits through
      "charge/packets": "mc_truth/segments" in minirun4 files and
      "mc_truth/tracks" in minirun3 files. */
  datatype TruthTable = SegmentsTable | TracksTable

  /** An opened event file, seen only through its lookups: each either raises
      (None) or yields the rows for event `evid`. A truth lookup yields the
      segment rows that plot_segs is handed. */
  datatype EventStore = EventStore(
    hits: (HitTable, int) -> Option<seq<Hit>>,
    truth: (TruthTable, int) -> Option<seq<Segment>>)

  function HitTablePath(t: HitTable): string
  {
    match t
    case PromptHits => "charge/calib_prompt_hits"
    case FinalHits => "charge/calib_final_hits"
  }

  /** The truth table each convention stores its segments in. */
  function TruthTableOf(v: Variant): TruthTable
  {
    match v
    case Minirun4 => SegmentsTable
    case Minirun3 => TracksTable
  }

  /** What the truth probe leaves behind: the segments (None when no table
      answered) and the convention recorded in `sim_version` (None while the
      variable is still unassigned). */
  datatype Probe = Probe(segs: Option<seq<Segment>>, simVersion: Option<Variant>)

  /** The two nested try blocks: the minirun4 table first, the minirun3
      table only when that raised. */
  function ProbeTruth(store: EventStore, evid: int): (p: Probe)
    ensures p.segs.Some? <==> p.simVersion.Some?
    ensures p.simVersion.Some? ==> p.segs == store.truth(TruthTableOf(p.simVersion.value), evid)
    ensures store.truth(SegmentsTable, evid).Some? ==> p.simVersion == Some(Minirun4)
    ensures p.simVersion == Some(Minirun3) ==> store.truth(SegmentsTable, evid).None?
    ensures p.simVersion.None? <==>
      store.truth(SegmentsTable, evid).None? && store.truth(TracksTable, evid).None?
  {
    match store.truth(SegmentsTable, evid)
    case Some(segs) => Probe(Some(segs), Some(Minirun4))
    case None =>
      match store.truth(TracksTable, evid)
      case Some(segs) => Probe(Some(segs), Some(Minirun3))
      case None => Probe(None, None)
  }

  /** The traces of the figure, with their data and legend names; styling
      is not modelled. */
  datatype Trace =
    | HitCloud(name: string, hits: seq<Hit>)
    | Lines(name: string, trace: LineTrace)
    | CenterMarker(name: string, center: Point)
    | Surface(patch: Patch)

  function Surfaces(ps: seq<Patch>): (ts: seq<Trace>)
    ensures |ts| == |ps|
    ensures forall k :: 0 <= k < |ps| ==> ts[k] == Surface(ps[k])
  {
    seq(|ps|, k requires 0 <= k < |ps| => Surface(ps[k]))
  }

  /** The segment trace plot_segs adds when the probe found segments. */
  function SegmentTraces(probe: Probe): (r: Result<seq<Trace>>)
    requires probe.segs.Some? <==> probe.simVersion.Some?
  {
    if probe.segs.None? then Ok([])
    else
      match PlotSegs(probe.segs.value, VersionName(probe.simVersion.value))
      case Err(e) => Err(e)
      case Ok(t) => Ok([Lines("edep segments", t)])
  }

  /** create_3d_figure(data, evid). The hit lookups raise through; a file
      without either truth table reaches draw_tpc with `sim_version` still
      unassigned, which raises. */
  function Create3DFigure(store: EventStore, evid: int): (r: Result<seq<Trace>>)
    ensures r.Ok? ==>
      store.hits(PromptHits, evid).Some? && store.hits(FinalHits, evid).Some? &&
      ProbeTruth(store, evid).segs.Some? && |r.value| >= 4 &&
      r.value[0] == HitCloud("prompt hits", store.hits(PromptHits, evid).value) &&
      r.value[1] == HitCloud("final hits", store.hits(FinalHits, evid).value) &&
      r.value[2].Lines? && r.value[2].name == "edep segments" &&
      r.value[3] == CenterMarker("tpc center", DetectorCenter(ProbeTruth(store, evid).simVersion.value))
    ensures store.hits(PromptHits, evid).None? ==> r == Err(LookupFailed("charge/calib_prompt_hits"))
  {
    match store.hits(PromptHits, evid)
    case None => Err(LookupFailed(HitTablePath(PromptHits)))
    case Some(prompt) =>
      match store.hits(FinalHits, evid)
      case None => Err(LookupFailed(HitTablePath(FinalHits)))
      case Some(final) =>
        var probe := ProbeTruth(store, evid);
        match SegmentTraces(probe)
        case Err(e) => Err(e)
        case Ok(segTraces) =>
          match probe.simVersion
          case None => Err(Unbound("sim_version"))
          case Some(v) =>
            match DrawTpc(VersionName(v))
            case Err(e) => Err(e)
            case Ok(d) =>
              Ok([HitCloud("prompt hits", prompt), HitCloud("final hits", final)] + segTraces
                 + [CenterMarker("tpc center", d.center)] + Surfaces(d.anodes) + Surfaces(d.cathodes))
  }

  /** The figure fails exactly when a hit lookup raises or neither truth
      table answers, and with the first failure in program order. */
  lemma FigureErrors(store: EventStore, evid: int)
    ensures var r := Create3DFigure(store, evid);
      (r.Err? <==>
        store.hits(PromptHits, evid).None? || store.hits(FinalHits, evid).None? ||
        (store.truth(SegmentsTable, evid).None? && store.truth(TracksTable, evid).None?)) &&
      (store.hits(PromptHits, evid).None? ==> r == Err(LookupFailed("charge/calib_prompt_hits"))) &&
      (store.hits(PromptHits, evid).Some? && store.hits(FinalHits, evid).None? ==>
        r == Err(LookupFailed("charge/calib_final_hits"))) &&
      (r.Err? && store.hits(PromptHits, evid).Some? && store.hits(FinalHits, evid).Some? ==>
        r == Err(Unbound("sim_version")))
  {
  }

  /** A figure that is drawn has 16 traces: the prompt and final hits as
      looked up, the segments of the truth table that answered first (in
      that table's units), the centre of that table's convention, 8 anode
      and 4 cathode patches. */
  lemma FigureLayout(store: EventStore, evid: int)
    requires Create3DFigure(store, evid).Ok?
    ensures var ts := Create3DFigure(store, evid).value;
      var v := if store.truth(SegmentsTable, evid).Some? then Minirun4 else Minirun3;
      var segs := store.truth(TruthTableOf(v), evid);
      var d := DrawTpc(VersionName(v));
      |ts| == 16 && segs.Some? && d.Ok? &&
      |d.value.anodes| == 8 && |d.value.cathodes| == 4 &&
      ts[0] == HitCloud("prompt hits", store.hits(PromptHits, evid).value) &&
      ts[1] == HitCloud("final hits", store.hits(FinalHits, evid).value) &&
      ts[2] == Lines("edep segments", PlotSegs(segs.value, VersionName(v)).value) &&
      ts[3] == CenterMarker("tpc center", DetectorCenter(v)) &&
      (forall k :: 0 <= k < 8 ==> ts[4 + k] == Surface(d.value.anodes[k])) &&
      (forall k :: 0 <= k < 4 ==> ts[12 + k] == Surface(d.value.cathodes[k]))
  {
    var v := ProbeTruth(store, evid).simVersion.value;
    DrawTpcCounts(v);
    var d := DrawTpc(VersionName(v)).value;
    var head := FigureHead(store, evid, v);
    FigureSplits(store, evid, v);
    ConcatLayout(head, d.anodes, d.cathodes);
  }

  /** The four traces before the detector patches, for the convention the
      probe recorded. */
  function FigureHead(store: EventStore, evid: int, v: Variant): seq<Trace>
    requires store.hits(PromptHits, evid).Some? && store.hits(FinalHits, evid).Some?
    requires store.truth(TruthTableOf(v), evid).Some?
  {
    [HitCloud("prompt hits", store.hits(PromptHits, evid).value),
     HitCloud("final hits", store.hits(FinalHits, evid).value),
     Lines("edep segments", PlotSegs(store.truth(TruthTableOf(v), evid).value, VersionName(v)).value),
     CenterMarker("tpc center", DetectorCenter(v))]
  }

  lemma FigureSplits(store: EventStore, evid: int, v: Variant)
    requires Create3DFigure(store, evid).Ok?
    requires ProbeTruth(store, evid).simVersion == Some(v)
    ensures store.hits(PromptHits, evid).Some? && store.hits(FinalHits, evid).Some?
    ensures store.truth(TruthTableOf(v), evid).Some? && DrawTpc(VersionName(v)).Ok?
    ensures var d := DrawTpc(VersionName(v)).value;
      Create3DFigure(store, evid).value
        == FigureHead(store, evid, v) + Surfaces(d.anodes) + Surfaces(d.cathodes)
  {
  }

  /** Positions in the concatenation of four leading traces, 8 anode
      surfaces and 4 cathode surfaces. */
  lemma ConcatLayout(head: seq<Trace>, anodes: seq<Patch>, cathodes: seq<Patch>)
    requires |head| == 4 && |anodes| == 8 && |cathodes| == 4
    ensures var ts := head + Surfaces(anodes) + Surfaces(cathodes);
      |ts| == 16 && ts[..4] == head &&
      (forall k :: 0 <= k < 8 ==> ts[4 + k] == Surface(anodes[k])) &&
      (forall k :: 0 <= k < 4 ==> ts[12 + k] == Surface(cathodes[k]))
  {
  }
}
