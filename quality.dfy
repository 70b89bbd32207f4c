/** Position quality: `_QUAPNT01` (points), `_QUALIN01` (lines), their
  * dispatcher `QUAPOS01`, and `SLCONS03` (shoreline constructions), which
  * applies the same quality test itself. A QUAPOS from 2 to 9 means the
  * position is not accurately known. */
module Quality {
  import opened Basics
  import opened Instructions
  import opened Chart
  import DepthAreas

  /** QUAPOS is present and says the position is of low accuracy. */
  predicate LowAccuracy(a: Attrs) {
    a.quapos.Some? && 2 <= a.quapos.value < 10
  }

  /** `_QUAPNT01` as the source writes it: the low-accuracy symbol is
    * emitted when the position is accurate, and nothing when it is not. */
  function Quapnt01AsWritten(a: Attrs): (r: Option<seq<Instr>>)
    ensures r.Some? ==> r.value == [SY("LOWACC01")]
  {
    var accurate := !LowAccuracy(a);
    if accurate then Some([SY("LOWACC01")]) else None
  }

  /** The inversion: a point of unknown quality gets the low-accuracy
    * symbol and a point known to be approximate (QUAPOS 4) gets none. */
  lemma Quapnt01AsWrittenInverted(a: Attrs)
    ensures Quapnt01AsWritten(a).Some? <==> !LowAccuracy(a)
    ensures Quapnt01AsWritten(NoAttrs) == Some([SY("LOWACC01")])
    ensures Quapnt01AsWritten(NoAttrs.(quapos := Some(4))) == None
  {
  }

  /** `_QUAPNT01` as intended: the low-accuracy symbol marks exactly the
    * points whose position is of low accuracy. */
  function Quapnt01(a: Attrs): (r: Option<seq<Instr>>)
    ensures r.Some? <==> LowAccuracy(a)
    ensures r.Some? ==> r.value == [SY("LOWACC01")]
  {
    if LowAccuracy(a) then Some([SY("LOWACC01")]) else None
  }

  /** `_QUALIN01`: a line of low accuracy gets the low-accuracy line; one
    * without QUAPOS gets the coastline style (with a radar-conspicuous
    * band for a COALNE whose CONRAD is 1); one with an accurate QUAPOS
    * gets nothing. */
  function Qualin01(name: string, a: Attrs): (r: Option<seq<Instr>>)
    ensures r.Some? <==> a.quapos.None? || LowAccuracy(a)
    ensures LowAccuracy(a) ==> r == Some([LC("LOWACC21")])
    ensures a.quapos.None? && name == "COALNE" && a.conrad == Some('1') ==>
      r == Some([LS(SOLD, 3, "CHMGF"), LS(SOLD, 1, "CSTLN")])
    ensures a.quapos.None? && !(name == "COALNE" && a.conrad == Some('1')) ==>
      r == Some([LS(SOLD, 1, "CSTLN")])
  {
    if a.quapos.Some? then
      if LowAccuracy(a) then Some([LC("LOWACC21")]) else None
    else if name == "COALNE" && a.conrad == Some('1') then
      Some([LS(SOLD, 3, "CHMGF"), LS(SOLD, 1, "CSTLN")])
    else
      Some([LS(SOLD, 1, "CSTLN")])
  }

  /** `QUAPOS01`: lines go to `_QUALIN01`, everything else to `_QUAPNT01`. */
  function Quapos01(kind: Kind, name: string, a: Attrs): (r: Option<seq<Instr>>)
    ensures r.Some? <==> LowAccuracy(a) || (kind == Line && a.quapos.None?)
    ensures LowAccuracy(a) ==> r == Some([if kind == Line then LC("LOWACC21") else SY("LOWACC01")])
    ensures kind == Line && a.quapos.None? ==>
      r == Some(if name == "COALNE" && a.conrad == Some('1') then [LS(SOLD, 3, "CHMGF"), LS(SOLD, 1, "CSTLN")]
                else [LS(SOLD, 1, "CSTLN")])
  {
    if kind == Line then Qualin01(name, a) else Quapnt01(a)
  }

  /** The line style of a shoreline construction with no QUAPOS. */
  function ShorelineStyle(a: Attrs): Instr {
    if a.condtn == Some('1') || a.condtn == Some('2') then LS(DASH, 1, "CSTLN")
    else if a.catslc.Some? && a.catslc.value in {6, 15, 16} then LS(SOLD, 4, "CSTLN")
    else if a.watlev == Some('2') then LS(SOLD, 2, "CSTLN")
    else if a.watlev == Some('3') || a.watlev == Some('4') then LS(DASH, 2, "CSTLN")
    else LS(SOLD, 2, "CSTLN")
  }

  /** `SLCONS03`: a point gets only the low-accuracy symbol; a line or area
    * gets the low-accuracy line or its shoreline style; an area is first
    * coloured by `_SEABED01` from its depth range (a missing limit stays
    * at the unknown-depth value, without the datum offset). */
  function Slcons03(kind: Kind, a: Attrs, mp: Params): (r: Option<seq<Instr>>)
    ensures r.None? <==> kind != Area && !LowAccuracy(a) && (kind == Point || a.quapos.Some?)
    ensures r.Some? ==> |r.value| >= 1
    ensures kind == Area ==> r.Some? && r.value[0].AC?
    ensures LowAccuracy(a) ==>
      r.Some? && r.value[|r.value| - 1] == (if kind == Point then SY("LOWACC01") else LC("LOWACC01"))
  {
    var cmdw: Option<Instr> :=
      if kind == Point then
        (if LowAccuracy(a) then Some(SY("LOWACC01")) else None)
      else if a.quapos.Some? then
        (if LowAccuracy(a) then Some(LC("LOWACC01")) else None)
      else Some(ShorelineStyle(a));
    var seabed: Option<seq<Instr>> :=
      if kind == Area then
        var drval1 := match Get(a.drval1) case Some(v) => v case None => UNKNOWN_DEPTH;
        var drval2 := match Get(a.drval2) case Some(v) => v case None => UNKNOWN_DEPTH;
        var d1 := if drval1 != UNKNOWN_DEPTH then drval1 + mp.datumOffset else drval1;
        var d2 := if drval2 != UNKNOWN_DEPTH then drval2 + mp.datumOffset else drval2;
        Some(DepthAreas.Seabed01(d1, d2, mp))
      else None;
    match (seabed, cmdw)
    case (None, None) => None
    case (None, Some(c)) => Some([c])
    case (Some(s), None) => Some(s)
    case (Some(s), Some(c)) => Some(s + [c])
  }

  /** The shoreline procedure applies the intended point test: for a point
    * it gives exactly what `_QUAPNT01` gives. */
  lemma Slcons03PointIsQuapnt(a: Attrs, mp: Params)
    ensures Slcons03(Point, a, mp) == Quapnt01(a)
  {
  }

  /** A shoreline line always ends in its quality or shoreline style, and
    * draws nothing only when an accurate QUAPOS is given. */
  lemma Slcons03Line(a: Attrs, mp: Params)
    ensures Slcons03(Line, a, mp).None? <==> a.quapos.Some? && !LowAccuracy(a)
    ensures a.quapos.None? ==> Slcons03(Line, a, mp) == Some([ShorelineStyle(a)])
  {
  }

  /** An area is always coloured, and its colour comes first. */
  lemma Slcons03Area(a: Attrs, mp: Params)
    ensures Slcons03(Area, a, mp).Some?
    ensures Slcons03(Area, a, mp).value[0].AC?
  {
  }
}
