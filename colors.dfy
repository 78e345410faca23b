/** get_continuous_color: pick the colour of a value in a continuous colour
    scale, a list of (cutoff, colour) stops. Values at or below 0 and
    single-stop scales take the first colour, values at or above 1 the last;
    otherwise a scan finds the first stop at or above the value and the stop
    before it, and the colour between them is plotly's interpolation, kept
    abstract here as the pair of colours and the fraction of the way from
    one to the other. */
module Colors {
  import opened Outcomes

  datatype Stop<C> = Stop(cutoff: real, color: C)

  /** The colour returned: a stop's own colour, or plotly's intermediate
      colour `fraction` of the way from `low` to `high`. */
  datatype Shade<C> = Exact(color: C) | Intermediate(low: C, high: C, fraction: real)

  /** Cutoffs in non-decreasing order, as plotly's scales have them. */
  predicate Sorted<C>(scale: seq<Stop<C>>)
  {
    forall i, j :: 0 <= i <= j < |scale| ==> scale[i].cutoff <= scale[j].cutoff
  }

  /** The index of the first stop whose cutoff is at or above t (|scale| when
      there is none). */
  function FirstAtOrAbove<C>(scale: seq<Stop<C>>, t: real): (h: nat)
    ensures h <= |scale|
    ensures forall k :: 0 <= k < h ==> scale[k].cutoff < t
    ensures h < |scale| ==> t <= scale[h].cutoff
  {
    if scale == [] then 0
    else if t <= scale[0].cutoff then 0
    else 1 + FirstAtOrAbove(scale[1..], t)
  }

  /** What get_continuous_color(colorscale, intermed) returns or raises. When
      the scan finds no stop below the value, the low colour is read before
      assignment; when it finds no stop at or above, the high colour is. */
  function ContinuousColor<C>(scale: seq<Stop<C>>, t: real): (r: Result<Shade<C>>)
    ensures |scale| == 0 ==> r == Err(ValueError("colorscale must have at least one color"))
    ensures |scale| > 0 && (t <= 0.0 || |scale| == 1) ==> r == Ok(Exact(scale[0].color))
    ensures |scale| > 1 && t >= 1.0 ==> r == Ok(Exact(scale[|scale| - 1].color))
  {
    if |scale| < 1 then Err(ValueError("colorscale must have at least one color"))
    else if t <= 0.0 || |scale| == 1 then Ok(Exact(scale[0].color))
    else if t >= 1.0 then Ok(Exact(scale[|scale| - 1].color))
    else
      var h := FirstAtOrAbove(scale, t);
      if h == 0 then Err(Unbound("low_color"))
      else if h == |scale| then Err(Unbound("high_color"))
      else
        var lo, hi := scale[h - 1], scale[h];
        Ok(Intermediate(lo.color, hi.color, (t - lo.cutoff) / (hi.cutoff - lo.cutoff)))
  }

  /** get_continuous_color: the edge cases, then a scan over the stops that
      remembers the last stop below the value and stops at the first stop at
      or above it. The unassigned low and high locals are None. */
  method GetContinuousColor<C>(scale: seq<Stop<C>>, t: real) returns (r: Result<Shade<C>>)
    ensures r == ContinuousColor(scale, t)
  {
    if |scale| < 1 {
      return Err(ValueError("colorscale must have at least one color"));
    }
    if t <= 0.0 || |scale| == 1 {
      return Ok(Exact(scale[0].color));
    }
    if t >= 1.0 {
      return Ok(Exact(scale[|scale| - 1].color));
    }
    var low: Option<Stop<C>> := None;
    var high: Option<Stop<C>> := None;
    var i := 0;
    while i < |scale|
      invariant 0 <= i <= |scale|
      invariant high.None?
      invariant forall k :: 0 <= k < i ==> scale[k].cutoff < t
      invariant low == if i == 0 then None else Some(scale[i - 1])
    {
      var stop := scale[i];
      if t > stop.cutoff {
        low := Some(stop);
      }
      if t <= stop.cutoff {
        high := Some(stop);
        break;
      }
      i := i + 1;
    }
    assert FirstAtOrAbove(scale, t) == i;
    if low.None? {
      r := Err(Unbound("low_color"));
    } else if high.None? {
      r := Err(Unbound("high_color"));
    } else {
      var lo, hi := low.value, high.value;
      r := Ok(Intermediate(lo.color, hi.color, (t - lo.cutoff) / (hi.cutoff - lo.cutoff)));
    }
  }

  /** For a sorted scale, the scan splits the stops in two: those before the
      high stop are exactly those whose cutoff is below the value. So the high
      stop is the first one at or above the value and the low stop is the
      last one below it. */
  lemma BracketSplitsScale<C>(scale: seq<Stop<C>>, t: real, k: nat)
    requires Sorted(scale)
    requires k < |scale|
    ensures scale[k].cutoff < t <==> k < FirstAtOrAbove(scale, t)
  {
  }

  /** The interpolation fraction always lies in (0, 1], with or without
      sorted stops: the low stop is below the value and the high stop at or
      above it. */
  lemma FractionInRange<C>(scale: seq<Stop<C>>, t: real)
    requires ContinuousColor(scale, t).Ok? && ContinuousColor(scale, t).value.Intermediate?
    ensures 0.0 < ContinuousColor(scale, t).value.fraction <= 1.0
  {
    var h := FirstAtOrAbove(scale, t);
    FractionOfSpan(t - scale[h - 1].cutoff, scale[h].cutoff - scale[h - 1].cutoff);
  }

  /** A positive part of a span, divided by the span, lies in (0, 1]. Kept
      apart because real division is nonlinear arithmetic, which the solver
      settles reliably only in a small context. */
  lemma FractionOfSpan(part: real, span: real)
    requires 0.0 < part <= span
    ensures 0.0 < part / span <= 1.0
  {
  }

  /** A value strictly inside (0, 1) that yields a colour yields plotly's
      intermediate colour between the stop before the first stop at or above
      the value and that stop, at the value's fraction of the way between
      their cutoffs. */
  lemma IntermediateBracket<C>(scale: seq<Stop<C>>, t: real)
    requires |scale| > 1 && 0.0 < t < 1.0 && ContinuousColor(scale, t).Ok?
    ensures exists h :: (0 < h < |scale| &&
      (forall k :: 0 <= k < h ==> scale[k].cutoff < t) && t <= scale[h].cutoff &&
      ContinuousColor(scale, t).value
        == Intermediate(scale[h - 1].color, scale[h].color,
                        (t - scale[h - 1].cutoff) / (scale[h].cutoff - scale[h - 1].cutoff)))
  {
    var h := FirstAtOrAbove(scale, t);
    assert 0 < h < |scale|;
  }

  /** For a value strictly inside (0, 1) and at least two stops, the lookup
      leaves the low colour unassigned exactly when the scan stops at the
      first stop (for a sorted scale: when no stop lies below the value), and
      the high colour exactly when no stop lies at or above the value. */
  lemma UnboundCases<C>(scale: seq<Stop<C>>, t: real)
    requires |scale| >= 2 && 0.0 < t < 1.0
    ensures ContinuousColor(scale, t) == Err(Unbound("low_color")) <==> t <= scale[0].cutoff
    ensures Sorted(scale) ==>
      (ContinuousColor(scale, t) == Err(Unbound("low_color")) <==>
       forall k :: 0 <= k < |scale| ==> t <= scale[k].cutoff)
    ensures ContinuousColor(scale, t) == Err(Unbound("high_color")) <==>
      forall k :: 0 <= k < |scale| ==> scale[k].cutoff < t
  {
  }

  /** A plotly scale, whose first cutoff is 0 and last is 1, always yields a
      colour, whatever the value and whatever the order of the stops in
      between. */
  lemma StandardScaleResolves<C>(scale: seq<Stop<C>>, t: real)
    requires |scale| >= 1
    requires scale[0].cutoff <= 0.0 && scale[|scale| - 1].cutoff >= 1.0
    ensures ContinuousColor(scale, t).Ok?
  {
  }
}
