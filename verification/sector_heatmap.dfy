/**
 * The sectoral heatmap's table (`sectoral_heatmap`): the day-over-day change
 * of eight fixed sector indices, one record per sector in table order,
 * with a typed-in value for any sector whose fetch fails.
 */
module SectorHeatmap {
  import opened Wrappers
  import opened Rounding
  import opened Series

  /** Sector name and index ticker, in the order of the script's table. */
  const Sectors: seq<(string, string)> := [
    ("NIFTYBANK", "^NSEBANK"),
    ("NIFTYIT", "^CNXIT"),
    ("NIFTYFMCG", "^CNXFMCG"),
    ("NIFTYMETAL", "^CNXMETAL"),
    ("NIFTYAUTO", "^CNXAUTO"),
    ("NIFTYPHARMA", "^CNXPHARMA"),
    ("NIFTYREALTY", "^CNXREALTY"),
    ("NIFTYENERGY", "^CNXENERGY")
  ]

  /** One row of the heatmap's table. */
  datatype SectorRecord = SectorRecord(sector: string, change: real)

  /** The body of the `try`: the rounded change of a fetched close history, or None where the script falls into `except`. */
  function SectorChange(fetched: Option<seq<real>>): (r: Option<real>)
    ensures r.Some? <==> fetched.Some? && |fetched.value| > 1 && Prior(fetched.value) != 0.0
    ensures r.Some? ==>
      IsCents(r.value) && -0.005 <= r.value - PercentChange(fetched.value) <= 0.005
  {
    if fetched.Some? && |fetched.value| > 1 && Prior(fetched.value) != 0.0 then
      Some(Round2(PercentChange(fetched.value)))
    else
      None
  }

  /**
   * `sectoral_heatmap()`. `fetched[i]` is what the data provider returned
   * for the ticker `Sectors[i].1` (None when it raised) and `manual[i]` what
   * the user would type for that sector.
   */
  method SectoralHeatmap(fetched: seq<Option<seq<real>>>, manual: seq<real>) returns (data: seq<SectorRecord>)
    requires |fetched| == |Sectors| && |manual| == |Sectors|
    ensures |data| == 8
    ensures forall i :: 0 <= i < |data| ==> data[i].sector == Sectors[i].0
    ensures forall i :: 0 <= i < |data| ==> data[i].change == SectorChange(fetched[i]).GetOr(manual[i])
  {
    data := [];
    for i := 0 to |Sectors|
      invariant |data| == i
      invariant forall k :: 0 <= k < i ==> data[k] == SectorRecord(Sectors[k].0, SectorChange(fetched[k]).GetOr(manual[k]))
    {
      var name := Sectors[i].0;
      var chg := SectorChange(fetched[i]);
      if chg.Some? {
        data := data + [SectorRecord(name, chg.value)];
      } else {
        data := data + [SectorRecord(name, manual[i])];
      }
    }
  }

  /** The sector names are distinct, so the table indexed by sector has one row per sector. */
  lemma SectorNamesDistinct()
    ensures forall i, j :: 0 <= i < j < |Sectors| ==> Sectors[i].0 != Sectors[j].0
  {
  }
}
