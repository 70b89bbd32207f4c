/** `TOPMAR01`: the topmark symbol, sloping on a floating platform (a buoy
  * or light float found at the same position by the touch pass) and
  * upright otherwise. */
module Topmarks {
  import opened Basics
  import opened Instructions

  /** Symbols on a floating platform, by TOPSHP 1..33 (index 0 unused). */
  const FLOATING: seq<string> := [
    "TMARDEF2",
    "TOPMAR02", "TOPMAR04", "TOPMAR10", "TOPMAR12", "TOPMAR13", "TOPMAR14", "TOPMAR65", "TOPMAR17",
    "TOPMAR16", "TOPMAR08", "TOPMAR07", "TOPMAR14", "TOPMAR05", "TOPMAR06", "TMARDEF2", "TMARDEF2",
    "TMARDEF2", "TOPMAR10", "TOPMAR13", "TOPMAR14", "TOPMAR13", "TOPMAR14", "TOPMAR14", "TOPMAR02",
    "TOPMAR04", "TOPMAR10", "TOPMAR17", "TOPMAR18", "TOPMAR02", "TOPMAR17", "TOPMAR14", "TOPMAR10",
    "TMARDEF2"]

  /** Symbols on a rigid platform, by TOPSHP 1..33 (index 0 unused). */
  const RIGID: seq<string> := [
    "TMARDEF1",
    "TOPMAR22", "TOPMAR24", "TOPMAR30", "TOPMAR32", "TOPMAR33", "TOPMAR34", "TOPMAR85", "TOPMAR86",
    "TOPMAR36", "TOPMAR28", "TOPMAR27", "TOPMAR14", "TOPMAR25", "TOPMAR26", "TOPMAR88", "TOPMAR87",
    "TMARDEF1", "TOPMAR30", "TOPMAR33", "TOPMAR34", "TOPMAR33", "TOPMAR34", "TOPMAR34", "TOPMAR22",
    "TOPMAR24", "TOPMAR30", "TOPMAR86", "TOPMAR89", "TOPMAR22", "TOPMAR86", "TOPMAR14", "TOPMAR30",
    "TMARDEF1"]

  /** The symbol for a TOPSHP value; shapes outside 1..33 get the default. */
  function TopmarkSymbol(topshp: int, floating: bool): (r: string)
    ensures 1 <= topshp <= 33 ==> r == (if floating then FLOATING else RIGID)[topshp]
    ensures !(1 <= topshp <= 33) ==> r == (if floating then "TMARDEF2" else "TMARDEF1")
    ensures |r| == 8 && r[0] == 'T'
  {
    var table := if floating then FLOATING else RIGID;
    if 1 <= topshp <= 33 then table[topshp] else table[0]
  }

  /** `TOPMAR01`: a question mark exactly when TOPSHP is missing; otherwise
    * the symbol of the shape from the table of the platform found, which
    * differs from the other platform's except for shapes 12 and 31. */
  function Topmar01(topshp: Option<int>, floating: bool): (r: seq<Instr>)
    ensures r == [SY("QUESMRK1")] <==> topshp.None?
    ensures topshp.Some? ==> r == [SY(TopmarkSymbol(topshp.value, floating))]
    ensures topshp.Some? ==>
      (r == [SY(TopmarkSymbol(topshp.value, !floating))] <==> topshp.value == 12 || topshp.value == 31)
  {
    if topshp.None? then [SY("QUESMRK1")]
    else
      PlatformsDiffer(topshp.value);
      [SY(TopmarkSymbol(topshp.value, floating))]
  }

  /** The two tables agree only on the shapes drawn the same way on either
    * platform (12 and 31); every other shape tells the platform apart. */
  lemma PlatformsDiffer(topshp: int)
    ensures TopmarkSymbol(topshp, true) == TopmarkSymbol(topshp, false) <==> topshp == 12 || topshp == 31
  {
    if 1 <= topshp <= 16 {
      LowShapesDiffer(topshp);
    } else if 17 <= topshp <= 33 {
      HighShapesDiffer(topshp);
    } else {
      assert "TMARDEF2"[7] != "TMARDEF1"[7];
    }
  }

  /** Shapes 1..16: only 12 is drawn alike on both platforms. */
  lemma LowShapesDiffer(k: int)
    requires 1 <= k <= 16
    ensures FLOATING[k] == RIGID[k] <==> k == 12
  {
    if k != 12 {
      assert FLOATING[k][1] != RIGID[k][1] || FLOATING[k][6] != RIGID[k][6];
    }
  }

  /** Shapes 17..33: only 31 is drawn alike on both platforms. */
  lemma HighShapesDiffer(k: int)
    requires 17 <= k <= 33
    ensures FLOATING[k] == RIGID[k] <==> k == 31
  {
    if k != 31 {
      assert FLOATING[k][6] != RIGID[k][6] || FLOATING[k][7] != RIGID[k][7];
    }
  }

  /** Shapes 15 and 16 have no sloping symbol. */
  lemma NoSlopingSymbolFor15And16()
    ensures TopmarkSymbol(15, true) == "TMARDEF2" && TopmarkSymbol(16, true) == "TMARDEF2"
    ensures TopmarkSymbol(15, false) == "TOPMAR88" && TopmarkSymbol(16, false) == "TOPMAR87"
  {
  }
}
