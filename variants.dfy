/** The two on-disk conventions of the detector data files. The display code
    passes the convention around as a string and compares it with the two
    names; anything else matches neither branch. */
module Variants {
  import opened Outcomes

  datatype Variant = Minirun3 | Minirun4

  /** The string the display code records for a convention. */
  function VersionName(v: Variant): string
  {
    match v
    case Minirun3 => "minirun3"
    case Minirun4 => "minirun4"
  }

  /** The branch a `sim_version == "..."` test selects, or None when no branch
      matches. */
  function ParseVariant(s: string): (r: Option<Variant>)
    ensures r.Some? <==> s == "minirun3" || s == "minirun4"
    ensures r.Some? ==> VersionName(r.value) == s
  {
    if s == "minirun4" then Some(Minirun4)
    else if s == "minirun3" then Some(Minirun3)
    else None
  }

  /** Recording a convention by name and testing the name again selects the
      same convention. */
  lemma ParseVersionName(v: Variant)
    ensures ParseVariant(VersionName(v)) == Some(v)
  {
  }
}
