/** Depth areas: `_SEABED01` colours a seabed area by its depth range and
  * the mariner's contours, and `DEPARE01` applies it to depth and dredged
  * areas. */
module DepthAreas {
  import opened Basics
  import opened Instructions
  import opened Chart
  import Restrictions

  /** The seabed shades, from the intertidal colour to deep water. */
  datatype Shade = DEPIT | DEPVS | DEPMS | DEPMD | DEPDW

  function ShadeName(s: Shade): string {
    match s
    case DEPIT => "DEPIT"
    case DEPVS => "DEPVS"
    case DEPMS => "DEPMS"
    case DEPMD => "DEPMD"
    case DEPDW => "DEPDW"
  }

  /** Position of a shade from shallow (0) to deep (4). */
  function Rank(s: Shade): nat {
    match s
    case DEPIT => 0
    case DEPVS => 1
    case DEPMS => 2
    case DEPMD => 3
    case DEPDW => 4
  }

  /** The area lies wholly deeper than `contour`. */
  predicate Beyond(drval1: real, drval2: real, contour: real) {
    drval1 >= contour && drval2 > contour
  }

  /** The colour `_SEABED01` settles on and whether the area still counts as
    * shallow, following its sequence of overriding tests. */
  function Classify(drval1: real, drval2: real, mp: Params): (Shade, bool) {
    var base := if drval1 >= 0.0 && drval2 > 0.0 then DEPVS else DEPIT;
    if IsOn(mp.twoShades) then
      if Beyond(drval1, drval2, mp.safetyContour) then (DEPDW, false) else (base, true)
    else
      var c1 := if Beyond(drval1, drval2, mp.shallowContour) then DEPMS else base;
      var (c2, shallow2) := if Beyond(drval1, drval2, mp.safetyContour) then (DEPMD, false) else (c1, true);
      if Beyond(drval1, drval2, mp.deepContour) then (DEPDW, false) else (c2, shallow2)
  }

  /** `_SEABED01`: the area colour, then the shallow-water pattern when the
    * mariner asked for it and the area is shallow. */
  function Seabed01(drval1: real, drval2: real, mp: Params): (r: seq<Instr>)
    ensures 1 <= |r| <= 2 && r[0].AC?
    ensures |r| == 2 <==> IsOn(mp.shallowPattern) && Classify(drval1, drval2, mp).1
    ensures |r| == 2 ==> r[1] == AP("DIAMOND1")
  {
    var (shade, shallow) := Classify(drval1, drval2, mp);
    [AC(ShadeName(shade))] + (if IsOn(mp.shallowPattern) && shallow then [AP("DIAMOND1")] else [])
  }

  /** A deeper area never gets a shallower shade: the shade rank grows with
    * both depth limits, whatever the contour settings. */
  lemma SeabedMonotone(d1: real, d2: real, e1: real, e2: real, mp: Params)
    requires d1 <= e1 && d2 <= e2
    ensures Rank(Classify(d1, d2, mp).0) <= Rank(Classify(e1, e2, mp).0)
    ensures !Classify(d1, d2, mp).1 ==> !Classify(e1, e2, mp).1
  {
  }

  /** With two shades, an area is deep water exactly when it lies beyond
    * the safety contour; otherwise it is shallow and gets DEPVS or DEPIT. */
  lemma TwoShades(d1: real, d2: real, mp: Params)
    requires IsOn(mp.twoShades)
    ensures Classify(d1, d2, mp).0 == DEPDW <==> Beyond(d1, d2, mp.safetyContour)
    ensures Classify(d1, d2, mp).1 <==> !Beyond(d1, d2, mp.safetyContour)
    ensures !Beyond(d1, d2, mp.safetyContour) ==>
      Classify(d1, d2, mp).0 == (if d1 >= 0.0 && d2 > 0.0 then DEPVS else DEPIT)
  {
  }

  /** With four shades and contours in their usual order, the shade is the
    * band between consecutive contours the area lies in. */
  lemma FourShadeBands(d1: real, d2: real, mp: Params)
    requires !IsOn(mp.twoShades)
    requires 0.0 <= mp.shallowContour <= mp.safetyContour <= mp.deepContour
    ensures var s := Classify(d1, d2, mp).0;
      (s == DEPDW <==> Beyond(d1, d2, mp.deepContour)) &&
      (s == DEPMD <==> Beyond(d1, d2, mp.safetyContour) && !Beyond(d1, d2, mp.deepContour)) &&
      (s == DEPMS <==> Beyond(d1, d2, mp.shallowContour) && !Beyond(d1, d2, mp.safetyContour)) &&
      (s == DEPVS <==> d1 >= 0.0 && d2 > 0.0 && !Beyond(d1, d2, mp.shallowContour)) &&
      (s == DEPIT <==> !(d1 >= 0.0 && d2 > 0.0))
    ensures Classify(d1, d2, mp).1 <==> !Beyond(d1, d2, mp.safetyContour)
  {
  }

  /** `DEPARE01`: a depth or dredged area, coloured by `_SEABED01` from its
    * depth range moved by the datum offset; a dredged area also gets its
    * fill pattern, a dashed grey boundary and its restriction symbol. */
  function Depare01(name: string, a: Attrs, mp: Params): (r: seq<Instr>)
    ensures |r| >= 1
    ensures var (d1, d2) := DepthRange(a);
      r[0] == AC(ShadeName(Classify(d1 + mp.datumOffset, d2 + mp.datumOffset, mp).0))
    ensures AP("DRGARE01") in r <==> name == "DRGARE"
    ensures var (d1, d2) := DepthRange(a);
      var seabed := Seabed01(d1 + mp.datumOffset, d2 + mp.datumOffset, mp);
      seabed <= r && (name != "DRGARE" ==> r == seabed)
  {
    var (drval1, drval2) := DepthRange(a);
    var seabed := Seabed01(drval1 + mp.datumOffset, drval2 + mp.datumOffset, mp);
    if name == "DRGARE" then
      seabed + [AP("DRGARE01"), LS(DASH, 1, "CHGRF")]
        + (if a.restrn.Some? then Restrictions.Rescsp01(a.restrn.value) else [])
    else seabed
  }

  /** The depth range `DEPARE01` reads: DRVAL1, or -1 when it is missing,
    * and DRVAL2, or DRVAL1 + 0.01 when it is missing. */
  function DepthRange(a: Attrs): (real, real) {
    var drval1 := match Get(a.drval1) case Some(v) => v case None => -1.0;
    var drval2 := match Get(a.drval2) case Some(v) => v case None => drval1 + 0.01;
    (drval1, drval2)
  }

  /** A missing DRVAL1 reads as -1 (drying) and a missing DRVAL2 as a band
    * 0.01 deep below DRVAL1. */
  lemma Depare01Defaults(name: string, a: Attrs, mp: Params)
    ensures Get(a.drval1).None? ==>
      Depare01(name, a, mp) == Depare01(name, a.(drval1 := Val(-1.0)), mp)
    ensures Get(a.drval1).Some? && Get(a.drval2).None? ==>
      Depare01(name, a, mp) == Depare01(name, a.(drval2 := Val(a.drval1.v + 0.01)), mp)
  {
  }

  /** A dredged area is a depth area plus its own fill, boundary and the
    * restriction symbol when it has RESTRN. */
  lemma DredgedArea(a: Attrs, mp: Params)
    ensures var depth := Depare01("DEPARE", a, mp);
      Depare01("DRGARE", a, mp) ==
        depth + [AP("DRGARE01"), LS(DASH, 1, "CHGRF")]
        + (if a.restrn.Some? then Restrictions.Rescsp01(a.restrn.value) else [])
  {
  }

  /** A depth area from 5 m to 8 m with the safety contour at 10 m and the
    * shallow contour at 5 m lies in the medium-shallow band. */
  lemma MediumShallowArea()
    ensures Depare01("DEPARE", NoAttrs.(drval1 := Val(5.0), drval2 := Val(8.0)),
                     Params(10.0, 5.0, 30.0, 10.0, 0.0, 0.0, 0.0, 0.0))
         == [AC("DEPMS")]
  {
  }
}
