/** Underwater hazards: `_DEPVAL01` (the depth of the area under a hazard
  * without a sounding), `_UDWHAZ03` (isolated dangers inside the safe
  * water), `OBSTRN04` (obstructions and underwater rocks) and `WRECKS02`. */
module Hazards {
  import opened Basics
  import opened Instructions
  import opened Chart
  import opened Quality
  import opened Soundings

  // ---- _DEPVAL01 ----

  /** `_DEPVAL01` as the source writes it. The line that would take the
    * linked area's DRVAL1 as the least depth is commented out, so DRVAL1
    * only matters when it lies below `least`. */
  function Depval01AsWritten(link: Geo?, least: real, mp: Params): (r: real)
    ensures link != null && link.name == "UNSARE" ==> r == UNKNOWN_DEPTH
  {
    if link != null && link.name == "UNSARE" then UNKNOWN_DEPTH
    else
      var drval1 := if link != null && Get(link.attrs.drval1).Some? then Get(link.attrs.drval1).value
                    else UNKNOWN_DEPTH;
      var depth := if drval1 != UNKNOWN_DEPTH && least > drval1 then drval1 else least;
      if depth != UNKNOWN_DEPTH then depth + mp.datumOffset else depth
  }

  /** The callers always pass the unknown depth, so the area's DRVAL1 is
    * never used: a hazard over a DEPARE with DRVAL1 = 5 gets no depth. */
  lemma Depval01AsWrittenIgnoresArea(link: Geo, mp: Params)
    requires link.name == "DEPARE" && link.attrs.drval1 == Val(5.0)
    ensures Depval01AsWritten(link, UNKNOWN_DEPTH, mp) == UNKNOWN_DEPTH
    ensures Depval01(link, mp) == 5.0 + mp.datumOffset
  {
  }

  /** `_DEPVAL01` as intended: the DRVAL1 of the linked depth or dredged
    * area, adjusted to the datum; unknown under an unsurveyed area, with
    * no linked area, or when the area has no DRVAL1. */
  function Depval01(link: Geo?, mp: Params): (r: real)
    ensures link == null || link.name == "UNSARE" || Get(link.attrs.drval1).None? ==> r == UNKNOWN_DEPTH
    ensures link != null && link.name != "UNSARE" && link.attrs.drval1.Val? && link.attrs.drval1.v != UNKNOWN_DEPTH
            ==> r == link.attrs.drval1.v + mp.datumOffset
  {
    if link == null || link.name == "UNSARE" then UNKNOWN_DEPTH
    else
      var drval1 := if Get(link.attrs.drval1).Some? then Get(link.attrs.drval1).value else UNKNOWN_DEPTH;
      if drval1 != UNKNOWN_DEPTH then drval1 + mp.datumOffset else UNKNOWN_DEPTH
  }

  // ---- _UDWHAZ03 ----

  /** Whether a hazard of depth `depth` lies in safe water: it is at most
    * the safety contour deep and the linked depth area (or depth line)
    * lies at or beyond the safety contour. */
  predicate InSafeWater(link: Geo?, depth: real, mp: Params) {
    depth <= mp.safetyContour && link != null &&
    if link.kind == Line then
      Get(link.attrs.drval2).Some? && Get(link.attrs.drval2).value + mp.datumOffset > mp.safetyContour
    else
      Get(link.attrs.drval1).Some? && Get(link.attrs.drval1).value + mp.datumOffset >= mp.safetyContour
  }

  predicate DriesOrAwash(watlev: Option<char>) {
    watlev == Some('1') || watlev == Some('2')
  }

  /** `_UDWHAZ03`: a hazard in safe water is raised to the display base
    * (priority 8, isolated-danger symbol on points and areas) and shown at
    * every scale, unless it dries or is awash, in which case it only gets
    * its priority. The display scale is reset in every case. */
  function Udwhaz03(kind: Kind, watlev: Option<char>, link: Geo?, depth: real, mp: Params): (r: Drawn)
    ensures r.instr.Some? <==> InSafeWater(link, depth, mp)
    ensures r.scamin == Infinite <==> InSafeWater(link, depth, mp) && !DriesOrAwash(watlev)
    ensures r.scamin != Loaded
    ensures r.instr.Some? && SY("ISODGR01") in r.instr.value <==> r.scamin == Infinite && kind != Line
  {
    if !InSafeWater(link, depth, mp) then Drawn(None, Reset)
    else if DriesOrAwash(watlev) then Drawn(Some([OP("--D14050")]), Reset)
    else if kind != Line then Drawn(Some([OP("8OD14010"), SY("ISODGR01")]), Infinite)
    else Drawn(Some([OP("8O-14010")]), Infinite)
  }

  /** Shallower hazards are flagged whenever deeper ones are. */
  lemma SafeWaterMonotone(link: Geo?, d: real, e: real, mp: Params)
    requires e <= d && InSafeWater(link, d, mp)
    ensures Udwhaz03(Point, None, link, e, mp) == Drawn(Some([OP("8OD14010"), SY("ISODGR01")]), Infinite)
  {
  }

  // ---- shared pieces ----

  function Value(n: Num): real {
    if Get(n).Some? then Get(n).value else UNKNOWN_DEPTH
  }

  function OrNone(o: Option<seq<Instr>>): seq<Instr> {
    if o.Some? then o.value else []
  }

  function Sounding(a: Attrs, mp: Params): Option<seq<Instr>> {
    if Get(a.valsou).Some? then Some(Sndfrm02(a, Get(a.valsou).value, mp)) else None
  }

  // ---- OBSTRN04 ----

  /** The depth `OBSTRN04` hands to `_UDWHAZ03`: VALSOU; else, for an area,
    * the depth of the area under it; else a default from CATOBS and WATLEV
    * (a foul area is just below the surface, a rock that covers and
    * uncovers or is awash is at the surface, anything else dries). */
  function ObstrnDepth(kind: Kind, a: Attrs, depthLink: Geo?, mp: Params): real {
    if Get(a.valsou).Some? then Get(a.valsou).value
    else
      var least := if kind == Area then Depval01(depthLink, mp) else UNKNOWN_DEPTH;
      if least != UNKNOWN_DEPTH then least
      else if a.catobs == Some('6') then 0.01
      else if a.watlev == Some('5') then 0.0
      else if a.watlev == Some('3') then 0.01
      else -15.0
  }

  /** The point symbol of an obstruction or rock outside safe water and
    * whether its sounding is drawn with it. */
  function ObstrnPointSymbol(name: string, watlev: Option<char>, valsou: real): (string, bool) {
    if valsou != UNKNOWN_DEPTH then
      if valsou <= 20.0 then
        if name == "UWTROC" then
          if watlev == Some('4') || watlev == Some('5') then ("UWTROC04", false) else ("DANGER01", true)
        else
          if DriesOrAwash(watlev) then ("OBSTRN11", false)
          else if watlev == Some('4') || watlev == Some('5') then ("DANGER03", true)
          else ("DANGER01", true)
      else ("DANGER02", false)
    else if name == "UWTROC" then
      if watlev == Some('3') then ("UWTROC03", false) else ("UWTROC04", false)
    else
      if DriesOrAwash(watlev) then ("OBSTRN11", false)
      else if watlev == Some('4') || watlev == Some('5') then ("OBSTRN03", false)
      else ("OBSTRN01", false)
  }

  /** The boundary line of an obstruction line. */
  function ObstrnLine(a: Attrs, hazard: bool): seq<Instr> {
    var valsou := Value(a.valsou);
    if a.quapos.Some? then
      if LowAccuracy(a) then [LC(if hazard then "LOWACC41" else "LOWACC31")] else []
    else if hazard then [LS(DOTT, 2, "CHBLK")]
    else if valsou != UNKNOWN_DEPTH && valsou > 20.0 then [LS(DASH, 2, "CHBLK")]
    else [LS(DOTT, 2, "CHBLK")]
  }

  /** The fill and boundary of an obstruction area with no sounding. */
  function ObstrnAreaFill(a: Attrs): seq<Instr> {
    if a.watlev.None? then [AC("DEPVS"), LS(DOTT, 2, "CHBLK")]
    else if a.watlev == Some('3') && a.catobs == Some('6') then [AC("DEPVS")]
    else if DriesOrAwash(a.watlev) then [AC("CHBRN"), LS(SOLD, 2, "CSTLN")]
    else if a.watlev == Some('4') then [AC("DEPIT"), LS(DASH, 2, "CSTLN")]
    else [AC("DEPVS"), LS(DOTT, 2, "CHBLK")]
  }

  /** `OBSTRN04`. `hazardLink` and `depthLink` are the feature's two touch
    * links (the area for `_UDWHAZ03` and the area for `_DEPVAL01`). */
  function Obstrn04(kind: Kind, name: string, a: Attrs, hazardLink: Geo?, depthLink: Geo?, mp: Params): (r: Drawn)
    ensures r.instr.Some?
  {
    var ud := Udwhaz03(kind, a.watlev, hazardLink, ObstrnDepth(kind, a, depthLink, mp), mp);
    var quapnt := Quapnt01(a);
    var valsou := Value(a.valsou);
    var sounding := Sounding(a, mp);
    var instr :=
      if kind == Point then
        if ud.instr.Some? then ud.instr.value + OrNone(quapnt)
        else
          var (sym, withSounding) := ObstrnPointSymbol(name, a.watlev, valsou);
          [SY(sym)] + (if withSounding then OrNone(sounding) else []) + OrNone(quapnt)
      else if kind == Line then
        ObstrnLine(a, ud.instr.Some?) +
        (if ud.instr.Some? then ud.instr.value
         else if valsou != UNKNOWN_DEPTH && valsou <= 20.0 then OrNone(sounding)
         else [])
      else
        if ud.instr.Some? && SY("ISODGR01") in ud.instr.value then
          [AC("DEPVS"), AP("FOULAR01"), LS(DOTT, 2, "CHBLK")] + ud.instr.value + OrNone(quapnt)
        else if valsou != UNKNOWN_DEPTH then
          [if valsou <= 20.0 then LS(DOTT, 2, "CHBLK") else LS(DASH, 2, "CHGRD")] + OrNone(sounding) + OrNone(quapnt)
        else
          ObstrnAreaFill(a) + OrNone(quapnt);
    Drawn(Some(instr), ud.scamin)
  }

  // ---- WRECKS02 ----

  /** The depth `WRECKS02` hands to `_UDWHAZ03`: VALSOU; else, for an area,
    * the depth of the area under it; else a default from WATLEV, which
    * CATWRK overrides. A WATLEV outside 1..6 leaves the depth unknown, and
    * CATWRK is only looked at when WATLEV is present. */
  function WrecksDepth(kind: Kind, a: Attrs, depthLink: Geo?, mp: Params): real {
    if Get(a.valsou).Some? then Get(a.valsou).value
    else
      var least := if kind == Area then Depval01(depthLink, mp) else UNKNOWN_DEPTH;
      if least != UNKNOWN_DEPTH then least
      else if a.watlev.None? then -15.0
      else
        var byWatlev :=
          if a.watlev.value in "1246" then -15.0
          else if a.watlev.value == '3' then 0.01
          else if a.watlev.value == '5' then 0.0
          else UNKNOWN_DEPTH;
        if a.catwrk == Some('1') then 20.0
        else if a.catwrk == Some('2') then 0.0
        else if a.catwrk == Some('4') || a.catwrk == Some('5') then -15.0
        else byWatlev
  }

  /** The point symbol of a wreck without a sounding. */
  function WreckSymbol(a: Attrs): string {
    var base := if a.catwrk == Some('1') && a.watlev == Some('3') then "WRECKS04" else "WRECKS05";
    if a.catwrk == Some('4') || a.catwrk == Some('5') then "WRECKS01"
    else if a.watlev.Some? && a.watlev.value in "1245" then "WRECKS01"
    else base
  }

  /** The boundary line of a wreck area. */
  function WreckLine(a: Attrs, hazard: bool): Instr {
    var valsou := Value(a.valsou);
    if LowAccuracy(a) then LC("LOWACC41")
    else if hazard then LS(DOTT, 2, "CHBLK")
    else if valsou != UNKNOWN_DEPTH then
      if valsou <= 20.0 then LS(DOTT, 2, "CHBLK") else LS(DASH, 2, "CHBLK")
    else if DriesOrAwash(a.watlev) then LS(SOLD, 2, "CSTLN")
    else if a.watlev == Some('4') then LS(DASH, 2, "CSTLN")
    else LS(DOTT, 2, "CSTLN")
  }

  function WreckFill(watlev: Option<char>): Instr {
    if DriesOrAwash(watlev) then AC("CHBRN")
    else if watlev == Some('4') then AC("DEPIT")
    else AC("DEPVS")
  }

  /** `WRECKS02`: the hazard check of `_UDWHAZ03` sets the display scale,
    * and its instructions are placed among the wreck's own. */
  function Wrecks02(kind: Kind, a: Attrs, hazardLink: Geo?, depthLink: Geo?, mp: Params): (r: Drawn)
    ensures r.instr.Some?
  {
    var ud := Udwhaz03(kind, a.watlev, hazardLink, WrecksDepth(kind, a, depthLink, mp), mp);
    Drawn(Some(WrecksInstr(kind, a, ud.instr, mp)), ud.scamin)
  }

  /** The instructions of `WRECKS02` around the hazard instructions `ud`. */
  function WrecksInstr(kind: Kind, a: Attrs, ud: Option<seq<Instr>>, mp: Params): (r: seq<Instr>)
    ensures |r| >= 1
    ensures ud.Some? && (kind != Point || SY("ISODGR01") in ud.value || Value(a.valsou) != UNKNOWN_DEPTH) ==>
      forall i :: 0 <= i < |ud.value| ==> ud.value[i] in r
    ensures kind == Point && ud.Some? && SY("ISODGR01") in ud.value ==> ud.value <= r
    ensures kind == Point && !(ud.Some? && SY("ISODGR01") in ud.value) ==>
      r[0] == SY(if Value(a.valsou) == UNKNOWN_DEPTH then WreckSymbol(a)
                 else if Value(a.valsou) <= 20.0 then "DANGER01" else "DANGER02")
    ensures kind != Point ==> r[0] == WreckLine(a, ud.Some?)
  {
    var quapnt := Quapnt01(a);
    var valsou := Value(a.valsou);
    var sounding := Sounding(a, mp);
    if kind == Point then
      if ud.Some? && SY("ISODGR01") in ud.value then ud.value + OrNone(quapnt)
      else if valsou != UNKNOWN_DEPTH then
        (if valsou <= 20.0 then [SY("DANGER01")] + OrNone(sounding) else [SY("DANGER02")])
        + OrNone(ud) + OrNone(quapnt)
      else [SY(WreckSymbol(a))] + OrNone(quapnt)
    else
      [WreckLine(a, ud.Some?)] +
      if valsou != UNKNOWN_DEPTH then
        OrNone(ud) + OrNone(quapnt) + (if valsou <= 20.0 then OrNone(sounding) else [])
      else
        [WreckFill(a.watlev)] + OrNone(ud) + OrNone(quapnt)
  }

  // ---- properties ----

  lemma NoIsodgrInSounding(a: Attrs, mp: Params)
    ensures SY("ISODGR01") !in OrNone(Sounding(a, mp))
  {
    if Get(a.valsou).Some? {
      var r := Sndfrm02(a, Get(a.valsou).value, mp);
      forall k | 0 <= k < |r| ensures r[k] != SY("ISODGR01") {
        assert r[k].name[0] == r[k].name[..6][0] == 'S';
      }
    }
  }

  /** On points and areas, an obstruction is shown at every scale exactly
    * when it is drawn with the isolated-danger symbol. */
  lemma ObstrnShownAtAllScalesIffIsolatedDanger(kind: Kind, name: string, a: Attrs,
                                                 hazardLink: Geo?, depthLink: Geo?, mp: Params)
    requires kind != Line
    ensures var r := Obstrn04(kind, name, a, hazardLink, depthLink, mp);
      r.scamin == Infinite <==> SY("ISODGR01") in r.instr.value
  {
    NoIsodgrInSounding(a, mp);
    var ud := Udwhaz03(kind, a.watlev, hazardLink, ObstrnDepth(kind, a, depthLink, mp), mp);
    var rest := OrNone(Quapnt01(a));
    assert SY("ISODGR01") !in rest;
    if kind == Point && ud.instr.None? {
      var (sym, withSounding) := ObstrnPointSymbol(name, a.watlev, Value(a.valsou));
      assert sym != "ISODGR01";
    } else if kind == Area && !(ud.instr.Some? && SY("ISODGR01") in ud.instr.value) {
      assert ud.scamin == Reset;
      assert SY("ISODGR01") !in ObstrnAreaFill(a);
    }
  }

  /** The same holds for wrecks. */
  lemma WrecksShownAtAllScalesIffIsolatedDanger(kind: Kind, a: Attrs,
                                                 hazardLink: Geo?, depthLink: Geo?, mp: Params)
    requires kind != Line
    ensures var r := Wrecks02(kind, a, hazardLink, depthLink, mp);
      r.scamin == Infinite <==> SY("ISODGR01") in r.instr.value
  {
    var ud := Udwhaz03(kind, a.watlev, hazardLink, WrecksDepth(kind, a, depthLink, mp), mp);
    WrecksIsodgrOnlyFromHazard(kind, a, ud.instr, mp);
  }

  /** A wreck point or area carries the isolated-danger symbol only when
    * the hazard check handed it over. */
  lemma WrecksIsodgrOnlyFromHazard(kind: Kind, a: Attrs, ud: Option<seq<Instr>>, mp: Params)
    ensures SY("ISODGR01") in WrecksInstr(kind, a, ud, mp) <==> ud.Some? && SY("ISODGR01") in ud.value
  {
    NoIsodgrInSounding(a, mp);
    assert SY("ISODGR01") !in OrNone(Quapnt01(a));
    if kind == Point {
      WreckPointIsodgr(a, ud, mp);
    } else {
      WreckAreaIsodgr(kind, a, ud, mp);
    }
  }

  lemma WreckPointIsodgr(a: Attrs, ud: Option<seq<Instr>>, mp: Params)
    requires SY("ISODGR01") !in OrNone(Sounding(a, mp)) && SY("ISODGR01") !in OrNone(Quapnt01(a))
    ensures SY("ISODGR01") in WrecksInstr(Point, a, ud, mp) <==> ud.Some? && SY("ISODGR01") in ud.value
  {
    var valsou := Value(a.valsou);
    if !(ud.Some? && SY("ISODGR01") in ud.value) {
      var head := if valsou != UNKNOWN_DEPTH then
                    (if valsou <= 20.0 then [SY("DANGER01")] + OrNone(Sounding(a, mp)) else [SY("DANGER02")]) + OrNone(ud)
                  else [SY(WreckSymbol(a))];
      assert WrecksInstr(Point, a, ud, mp) == head + OrNone(Quapnt01(a));
      assert SY("ISODGR01") !in head;
    }
  }

  lemma WreckAreaIsodgr(kind: Kind, a: Attrs, ud: Option<seq<Instr>>, mp: Params)
    requires kind != Point
    requires SY("ISODGR01") !in OrNone(Sounding(a, mp)) && SY("ISODGR01") !in OrNone(Quapnt01(a))
    ensures SY("ISODGR01") in WrecksInstr(kind, a, ud, mp) <==> ud.Some? && SY("ISODGR01") in ud.value
  {
    var valsou := Value(a.valsou);
    var line := WreckLine(a, ud.Some?);
    assert SY("ISODGR01") != line;
    if valsou != UNKNOWN_DEPTH {
      var tail := if valsou <= 20.0 then OrNone(Sounding(a, mp)) else [];
      assert WrecksInstr(kind, a, ud, mp) == [line] + (OrNone(ud) + OrNone(Quapnt01(a)) + tail);
      assert SY("ISODGR01") !in tail;
    } else {
      assert WrecksInstr(kind, a, ud, mp) == [line] + ([WreckFill(a.watlev)] + OrNone(ud) + OrNone(Quapnt01(a)));
      assert SY("ISODGR01") != WreckFill(a.watlev);
    }
  }

  /** An obstruction in safe water that does not dry is drawn as an
    * isolated danger: on a point the danger symbol alone, on an area the
    * foul-ground fill around it. */
  lemma ObstructionInSafeWater(kind: Kind, name: string, a: Attrs,
                               hazardLink: Geo?, depthLink: Geo?, mp: Params)
    requires kind != Line && !DriesOrAwash(a.watlev)
    requires InSafeWater(hazardLink, ObstrnDepth(kind, a, depthLink, mp), mp)
    ensures var r := Obstrn04(kind, name, a, hazardLink, depthLink, mp);
      r.scamin == Infinite &&
      r.instr.value == (if kind == Point then [] else [AC("DEPVS"), AP("FOULAR01"), LS(DOTT, 2, "CHBLK")])
                       + [OP("8OD14010"), SY("ISODGR01")] + OrNone(Quapnt01(a))
  {
  }

  /** An obstruction point deeper than 20 m and than the safety contour is
    * only marked with the deep-danger symbol. */
  lemma DeepObstructionPoint(name: string, a: Attrs, hazardLink: Geo?, depthLink: Geo?, mp: Params)
    requires a.valsou.Val? && a.valsou.v > 20.0 && a.valsou.v > mp.safetyContour
    ensures Obstrn04(Point, name, a, hazardLink, depthLink, mp)
            == Drawn(Some([SY("DANGER02")] + OrNone(Quapnt01(a))), Reset)
  {
    assert Value(a.valsou) == a.valsou.v;
    assert ObstrnDepth(Point, a, depthLink, mp) == a.valsou.v;
    assert !InSafeWater(hazardLink, a.valsou.v, mp);
    assert ObstrnPointSymbol(name, a.watlev, a.valsou.v) == ("DANGER02", false);
    var q := OrNone(Quapnt01(a));
    assert [SY("DANGER02")] + [] + q == [SY("DANGER02")] + q;
  }

  /** With the corrected `_DEPVAL01`, an area obstruction without VALSOU
    * over a charted depth area takes that area's depth. */
  lemma AreaObstructionTakesAreaDepth(a: Attrs, depthLink: Geo, mp: Params)
    requires a.valsou == Absent
    requires depthLink.name != "UNSARE" && depthLink.attrs.drval1.Val?
    requires depthLink.attrs.drval1.v != UNKNOWN_DEPTH
    requires depthLink.attrs.drval1.v + mp.datumOffset != UNKNOWN_DEPTH
    ensures ObstrnDepth(Area, a, depthLink, mp) == depthLink.attrs.drval1.v + mp.datumOffset
    ensures WrecksDepth(Area, a, depthLink, mp) == depthLink.attrs.drval1.v + mp.datumOffset
  {
  }

  /** The default depths of a wreck without VALSOU: -15 m without WATLEV;
    * 20 m for a non-dangerous wreck (CATWRK 1) when WATLEV is present; and
    * the unknown depth for a WATLEV outside the table with no CATWRK. */
  lemma WreckDefaults(a: Attrs, mp: Params)
    requires a.valsou == Absent
    ensures a.watlev.None? ==> WrecksDepth(Point, a, null, mp) == -15.0
    ensures a.watlev.Some? && a.catwrk == Some('1') ==> WrecksDepth(Point, a, null, mp) == 20.0
    ensures a.watlev == Some('7') && a.catwrk.None? ==> WrecksDepth(Point, a, null, mp) == UNKNOWN_DEPTH
  {
  }
}
