/** Depth contours: `DEPCNT02` and its helper `_DEPCNT02_isSafetyCnt` pick
  * out the safety contour among the depth contours (DEPCNT lines) and the
  * depth-area edges (DEPARE lines). */
module Contours {
  import opened Basics
  import opened Instructions
  import opened Chart
  import opened Quality

  /** A number attribute read with a default when absent. */
  function OrDefault(n: Num, default: real): real {
    if Get(n).Some? then Get(n).value else default
  }

  /** `_DEPCNT02_isSafetyCnt`: a contour deeper than the safety contour is
    * still the safety contour when the depth area the touch pass linked to
    * it starts shallower than the safety contour and the line's own DRVAL2
    * (0 when absent, not adjusted to the datum) reaches it. */
  predicate NextDeeperContour(a: Attrs, link: Geo?, mp: Params) {
    link != null && Get(link.attrs.drval1).Some? &&
    Get(link.attrs.drval1).value + mp.datumOffset < mp.safetyContour &&
    OrDefault(a.drval2, 0.0) >= mp.safetyContour
  }

  /** Whether the line is drawn as the safety contour. A DEPARE line is one
    * when its depth range (DRVAL1 defaulting to 0, DRVAL2 to DRVAL1,
    * both adjusted to the datum) holds the safety contour; a DEPCNT line
    * when its VALDCO (0 when absent, adjusted) equals it. Either deeper
    * kind of line falls back on `NextDeeperContour`. */
  predicate SafetyContour(name: string, a: Attrs, link: Geo?, mp: Params) {
    if name == "DEPARE" then
      var drval1 := OrDefault(a.drval1, 0.0);
      var drval2 := OrDefault(a.drval2, drval1);
      if drval1 + mp.datumOffset <= mp.safetyContour then drval2 + mp.datumOffset >= mp.safetyContour
      else NextDeeperContour(a, link, mp)
    else
      var valdco := OrDefault(a.valdco, 0.0) + mp.datumOffset;
      if valdco == mp.safetyContour then true
      else valdco > mp.safetyContour && NextDeeperContour(a, link, mp)
  }

  /** `DEPCNT02`. The line is solid, or dashed when its position is of low
    * accuracy; the safety contour is wider, in the safety-contour colour,
    * in the display base and shown at every scale. With a QUAPOS of good
    * accuracy no line is chosen and the priority is prepended to nothing,
    * which yields no instruction string at all. */
  function Depcnt02(name: string, a: Attrs, link: Geo?, mp: Params): (r: Drawn)
    ensures var safety := SafetyContour(name, a, link, mp);
      (r.scamin == Infinite <==> safety) && r.scamin != Loaded &&
      (r.instr.Some? <==> a.quapos.None? || LowAccuracy(a)) &&
      (r.instr.Some? ==>
         (|r.instr.value| == 2 && r.instr.value[1].LS? &&
          r.instr.value[0] == OP(if safety then "8OD13010" else "---33020") &&
          r.instr.value[1].colour == (if safety then "DEPSC" else "DEPCN") &&
          r.instr.value[1].width == (if safety then 2 else 1) &&
          (r.instr.value[1].style == DASH <==> LowAccuracy(a))))
  {
    var safety := SafetyContour(name, a, link, mp);
    var line: Option<Instr> :=
      if a.quapos.Some? then
        if LowAccuracy(a) then Some(if safety then LS(DASH, 2, "DEPSC") else LS(DASH, 1, "DEPCN")) else None
      else Some(if safety then LS(SOLD, 2, "DEPSC") else LS(SOLD, 1, "DEPCN"));
    var instr := if line.None? then None
                 else Some([OP(if safety then "8OD13010" else "---33020"), line.value]);
    Drawn(instr, if safety then Infinite else Reset)
  }

  /** A contour shallower than the safety contour is never the safety
    * contour, whatever it touches. */
  lemma ShallowContourIsNotSafety(a: Attrs, link: Geo?, mp: Params)
    requires OrDefault(a.valdco, 0.0) + mp.datumOffset < mp.safetyContour
    ensures !SafetyContour("DEPCNT", a, link, mp)
  {
  }

  /** A depth contour at exactly the safety contour is drawn as the safety
    * contour. */
  lemma ExactContourIsSafety(a: Attrs, link: Geo?, mp: Params)
    requires a.valdco.Val? && a.valdco.v + mp.datumOffset == mp.safetyContour && a.quapos.None?
    ensures Depcnt02("DEPCNT", a, link, mp) == Drawn(Some([OP("8OD13010"), LS(SOLD, 2, "DEPSC")]), Infinite)
  {
  }

  /** A depth-area edge is the safety contour when its range holds the
    * safety contour, whatever it touches. */
  lemma DepthAreaEdgeIsSafety(a: Attrs, link: Geo?, mp: Params)
    requires a.drval1.Val? && a.drval2.Val?
    requires a.drval1.v + mp.datumOffset <= mp.safetyContour <= a.drval2.v + mp.datumOffset
    ensures SafetyContour("DEPARE", a, link, mp)
  {
  }

  /** A deeper contour with no DRVAL2 of its own is the safety contour only
    * when the safety contour is at most 0 m: the fallback compares the
    * missing DRVAL2 as 0. */
  lemma DeeperContourNeedsDrval2(a: Attrs, link: Geo?, mp: Params)
    requires a.drval2 == Absent && OrDefault(a.valdco, 0.0) + mp.datumOffset > mp.safetyContour
    ensures SafetyContour("DEPCNT", a, link, mp) ==> mp.safetyContour <= 0.0
  {
  }
}
