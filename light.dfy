/** The optical-detector numbering of plot_light: for TPC ix, side iside
    (0 or 1) and light slot ilight (0 to 23), the detector id is a mixed-radix
    number with the slot as lowest digit. */
module Light {

  /** The number of light slots along one side: the length of the fixed y
      position array. */
  const SlotsPerSide: nat := 24

  function OpId(ilight: nat, iside: nat, ix: nat): nat
  {
    ilight + iside * SlotsPerSide + ix * SlotsPerSide * 2
  }

  /** The id determines its three digits, so no two (ix, iside, ilight)
      triples share an id. */
  lemma OpIdDigits(ilight: nat, iside: nat, ix: nat)
    requires ilight < SlotsPerSide && iside < 2
    ensures OpId(ilight, iside, ix) % SlotsPerSide == ilight
    ensures OpId(ilight, iside, ix) / SlotsPerSide % 2 == iside
    ensures OpId(ilight, iside, ix) / (2 * SlotsPerSide) == ix
  {
  }

  /** Every id is the id of its own three digits. */
  lemma OpIdOnto(id: nat)
    ensures OpId(id % SlotsPerSide, id / SlotsPerSide % 2, id / (2 * SlotsPerSide)) == id
  {
  }
}
