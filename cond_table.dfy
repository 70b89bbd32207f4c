/** The jump table of the conditional symbology procedures: the procedure
  * names a look-up table entry can call, the aliases that stand in for
  * later editions of a procedure, the catch-all question mark, and the
  * dispatch that runs a procedure on a feature and stores the display
  * scale and arc flags it sets. */
module CondTable {
  import opened Basics
  import opened Instructions
  import opened Chart
  import DepthAreas
  import Restrictions
  import Quality
  import Soundings
  import Hazards
  import Contours
  import Lights
  import Topmarks
  import CrossReference

  datatype Proc =
    | CLRLIN01 | DATCVR01 | DATCVR02 | DEPARE01 | DEPARE02 | DEPARE03
    | DEPCNT02 | DEPCNT03 | LEGLIN02 | LEGLIN03 | LIGHTS05 | LIGHTS06
    | OBSTRN04 | OBSTRN05 | OBSTRN06 | OWNSHP02 | PASTRK01 | QUAPOS01
    | RESARE02 | RESARE03 | RESTRN01 | SLCONS03 | SOUNDG02 | TOPMAR01
    | VESSEL01 | VESSEL02 | VRMEBL01 | VRMEBL02 | WRECKS02 | WRECKS03
    | WRECKS04 | WRECKS05 | QUESMRK1

  /** The name a look-up table uses for each procedure: its family and
    * its edition digit. */
  function ProcName(p: Proc): (r: string)
    ensures |r| == 8
  {
    Family(p) + [Edition(p)]
  }

  /** The first seven letters of a procedure's name. */
  function Family(p: Proc): (r: string)
    ensures |r| == 7
  {
    match p
    case CLRLIN01 => "CLRLIN0"
    case DATCVR01 | DATCVR02 => "DATCVR0"
    case DEPARE01 | DEPARE02 | DEPARE03 => "DEPARE0"
    case DEPCNT02 | DEPCNT03 => "DEPCNT0"
    case LEGLIN02 | LEGLIN03 => "LEGLIN0"
    case LIGHTS05 | LIGHTS06 => "LIGHTS0"
    case OBSTRN04 | OBSTRN05 | OBSTRN06 => "OBSTRN0"
    case OWNSHP02 => "OWNSHP0"
    case PASTRK01 => "PASTRK0"
    case QUAPOS01 => "QUAPOS0"
    case RESARE02 | RESARE03 => "RESARE0"
    case RESTRN01 => "RESTRN0"
    case SLCONS03 => "SLCONS0"
    case SOUNDG02 => "SOUNDG0"
    case TOPMAR01 => "TOPMAR0"
    case VESSEL01 | VESSEL02 => "VESSEL0"
    case VRMEBL01 | VRMEBL02 => "VRMEBL0"
    case WRECKS02 | WRECKS03 | WRECKS04 | WRECKS05 => "WRECKS0"
    case QUESMRK1 => "QUESMRK"
  }

  /** The last character of a procedure's name: its edition. */
  function Edition(p: Proc): char {
    match p
    case CLRLIN01 | DATCVR01 | DEPARE01 | PASTRK01 | QUAPOS01 | RESTRN01
       | TOPMAR01 | VESSEL01 | VRMEBL01 | QUESMRK1 => '1'
    case DATCVR02 | DEPARE02 | DEPCNT02 | LEGLIN02 | OWNSHP02 | RESARE02
       | SOUNDG02 | VESSEL02 | VRMEBL02 | WRECKS02 => '2'
    case DEPARE03 | DEPCNT03 | LEGLIN03 | SLCONS03 | WRECKS03 | RESARE03 => '3'
    case OBSTRN04 | WRECKS04 => '4'
    case LIGHTS05 | OBSTRN05 | WRECKS05 => '5'
    case LIGHTS06 | OBSTRN06 => '6'
  }

  /** `S52_CS_condTable` in table order; the end marker "########" has no
    * procedure and is left off. */
  const TABLE: seq<Proc> := [
    CLRLIN01, DATCVR01, DATCVR02, DEPARE01, DEPARE02, DEPARE03,
    DEPCNT02, DEPCNT03, LEGLIN02, LEGLIN03, LIGHTS05, LIGHTS06,
    OBSTRN04, OBSTRN05, OBSTRN06, OWNSHP02, PASTRK01, QUAPOS01,
    RESARE02, RESARE03, RESTRN01, SLCONS03, SOUNDG02, TOPMAR01,
    VESSEL01, VESSEL02, VRMEBL01, VRMEBL02, WRECKS02, WRECKS03,
    WRECKS04, WRECKS05, QUESMRK1]

  /** The first entry of `table` named `name`. */
  function Find(name: string, table: seq<Proc>): (r: Option<Proc>)
    ensures r.Some? ==> r.value in table && ProcName(r.value) == name
    ensures r.None? <==> forall k :: 0 <= k < |table| ==> ProcName(table[k]) != name
    decreases |table|
  {
    if table == [] then None
    else if ProcName(table[0]) == name then Some(table[0])
    else Find(name, table[1..])
  }

  /** Looking a procedure up by the name a look-up table gives. */
  function Lookup(name: string): (r: Option<Proc>)
    ensures r.Some? ==> ProcName(r.value) == name
  {
    Find(name, TABLE)
  }

  /** The procedure an entry actually runs: every alias stands in for the
    * procedure of the same family that the source implements. */
  function Canonical(p: Proc): (r: Proc)
  {
    match p
    case DATCVR02 => DATCVR01
    case DEPARE02 | DEPARE03 => DEPARE01
    case DEPCNT03 => DEPCNT02
    case LEGLIN03 => LEGLIN02
    case LIGHTS06 => LIGHTS05
    case OBSTRN05 | OBSTRN06 => OBSTRN04
    case RESARE03 => RESARE02
    case VESSEL02 => VESSEL01
    case VRMEBL02 => VRMEBL01
    case WRECKS03 | WRECKS04 | WRECKS05 => WRECKS02
    case CLRLIN01 | DATCVR01 | DEPARE01 | DEPCNT02 | LEGLIN02 | LIGHTS05 | OBSTRN04
       | OWNSHP02 | PASTRK01 | QUAPOS01 | RESARE02 | RESTRN01 | SLCONS03 | SOUNDG02
       | TOPMAR01 | VESSEL01 | VRMEBL01 | WRECKS02 | QUESMRK1 => p
  }

  /** An alias runs the procedure of its own family with an earlier
    * edition. */
  lemma CanonicalFamily(p: Proc)
    ensures Family(Canonical(p)) == Family(p)
    ensures Canonical(p) == p || Edition(Canonical(p)) < Edition(p)
  {
    match p
    case CLRLIN01 => case DATCVR01 => case DATCVR02 => case DEPARE01 =>
    case DEPARE02 => case DEPARE03 => case DEPCNT02 => case DEPCNT03 =>
    case LEGLIN02 => case LEGLIN03 => case LIGHTS05 => case LIGHTS06 =>
    case OBSTRN04 => case OBSTRN05 => case OBSTRN06 => case OWNSHP02 =>
    case PASTRK01 => case QUAPOS01 => case RESARE02 => case RESARE03 =>
    case RESTRN01 => case SLCONS03 => case SOUNDG02 => case TOPMAR01 =>
    case VESSEL01 => case VESSEL02 => case VRMEBL01 => case VRMEBL02 =>
    case WRECKS02 => case WRECKS03 => case WRECKS04 => case WRECKS05 =>
    case QUESMRK1 =>
  }

  /** The mariner and overlay procedures, which this model leaves out. */
  predicate Overlay(p: Proc) {
    p in {CLRLIN01, DATCVR01, LEGLIN02, OWNSHP02, PASTRK01, VESSEL01, VRMEBL01}
  }

  /** `QUESMRK1`: the question mark of the feature's kind. */
  function Quesmrk1(kind: Kind): (r: seq<Instr>)
    ensures |r| == 1
    ensures kind == Point <==> r[0].SY?
    ensures kind == Line <==> r[0].LC?
    ensures kind == Area <==> r[0].AP?
  {
    match kind
    case Point => [SY("QUESMRK1")]
    case Line => [LC("QUESMRK1")]
    case Area => [AP("QUESMRK1")]
  }

  /** What a (canonical, modelled) procedure draws for `g` given the links
    * `s` the touch pass left on it, and the display scale it leaves. */
  function Draw(p: Proc, g: Geo, s: CrossReference.Slots, mp: Params): (r: Drawn)
    requires !Overlay(p) && Canonical(p) == p
    ensures p in {DEPARE01, LIGHTS05, OBSTRN04, RESARE02, TOPMAR01, WRECKS02, QUESMRK1} ==> r.instr.Some?
    ensures r.scamin != Loaded ==> p in {DEPCNT02, OBSTRN04, WRECKS02}
  {
    match p
    case DEPARE01 => Drawn(Some(DepthAreas.Depare01(g.name, g.attrs, mp)), Loaded)
    case DEPCNT02 => Contours.Depcnt02(g.name, g.attrs, s.depcnt, mp)
    case LIGHTS05 => Drawn(Some(Lights.Lights05Instr(g.attrs, s.lights != null, mp)), Loaded)
    case OBSTRN04 => Hazards.Obstrn04(g.kind, g.name, g.attrs, s.udwhaz, s.depval, mp)
    case QUAPOS01 => Drawn(Quality.Quapos01(g.kind, g.name, g.attrs), Loaded)
    case RESARE02 => Drawn(Some(Restrictions.Resare02(g.attrs, mp)), Loaded)
    case RESTRN01 => Drawn(Restrictions.Restrn01(g.attrs), Loaded)
    case SLCONS03 => Drawn(Quality.Slcons03(g.kind, g.attrs, mp), Loaded)
    case SOUNDG02 => Drawn(Soundings.Soundg02(g, mp), Loaded)
    case TOPMAR01 => Drawn(Some(Topmarks.Topmar01(g.attrs.topshp, s.topmar != null)), Loaded)
    case WRECKS02 => Hazards.Wrecks02(g.kind, g.attrs, s.udwhaz, s.depval, mp)
    case QUESMRK1 => Drawn(Some(Quesmrk1(g.kind)), Loaded)
  }

  /** The display scale a feature has after a procedure that leaves
    * `s`. */
  function ScaminAfter(before: Scamin, s: Scamin): Scamin {
    if s == Loaded then before else s
  }

  /** Runs the procedure of a table entry on `g`: its instructions, with
    * the display scale it sets stored on `g`, and for a light the arc
    * flags of `g` and its touch chain updated. */
  method Run(p: Proc, g: Geo, mp: Params, ghost chain: seq<Geo>) returns (r: Option<seq<Instr>>)
    requires !Overlay(Canonical(p))
    requires Canonical(p) == LIGHTS05 ==> Lights.LightChain(g, chain) && Lights.Distinct(chain) && g !in chain
    modifies g, chain
    ensures r == Draw(Canonical(p), g, old(CrossReference.SlotsOf(g)), mp).instr
    ensures g.scamin == ScaminAfter(old(g.scamin), Draw(Canonical(p), g, old(CrossReference.SlotsOf(g)), mp).scamin)
    ensures unchanged(g`touchTopmar, g`touchLights, g`touchDepcnt, g`touchUdwhaz, g`touchDepval)
    ensures Canonical(p) != LIGHTS05 ==>
              g.arc == old(g.arc) && forall k :: 0 <= k < |chain| && chain[k] != g ==> unchanged(chain[k])
    ensures Canonical(p) == LIGHTS05 ==>
              Lights.LightChain(g, chain) &&
              (forall k :: 0 <= k < |chain| ==> chain[k].scamin == old(chain[k].scamin)) &&
              (Lights.LightClass(g.attrs).SectorLight? && old(g.arc) != ArcYes ==>
                 g.arc == Lights.ArcFold(g.attrs, chain) &&
                 forall k :: 0 <= k < |chain| ==>
                   chain[k].arc == Lights.TouchedFlag(Lights.CmpSector(g.attrs, chain[k].attrs), old(chain[k].arc))) &&
              (!(Lights.LightClass(g.attrs).SectorLight? && old(g.arc) != ArcYes) ==>
                 g.arc == old(g.arc) && forall k :: 0 <= k < |chain| ==> chain[k].arc == old(chain[k].arc))
  {
    var q := Canonical(p);
    if q == LIGHTS05 {
      var instr := Lights.Lights05(g, mp, chain);
      return Some(instr);
    }
    var d := Draw(q, g, CrossReference.SlotsOf(g), mp);
    if d.scamin != Loaded {
      g.scamin := d.scamin;
    }
    r := d.instr;
  }

  // ---- properties of the table ----

  /** Every procedure is found under its own name. */
  lemma LookupRoundTrip(p: Proc)
    ensures Lookup(ProcName(p)) == Some(p)
  {
    InTable(p);
    var q := Lookup(ProcName(p)).value;
    NamesDiffer(p, q);
  }

  /** Every procedure has an entry in the table. */
  lemma InTable(p: Proc)
    ensures p in TABLE
  {
    var k := if p == QUESMRK1 then 32 else ProcIndex(p);
    assert TABLE[k] == p;
  }

  function ProcIndex(p: Proc): nat {
    match p
    case CLRLIN01 => 0 case DATCVR01 => 1 case DATCVR02 => 2 case DEPARE01 => 3
    case DEPARE02 => 4 case DEPARE03 => 5 case DEPCNT02 => 6 case DEPCNT03 => 7
    case LEGLIN02 => 8 case LEGLIN03 => 9 case LIGHTS05 => 10 case LIGHTS06 => 11
    case OBSTRN04 => 12 case OBSTRN05 => 13 case OBSTRN06 => 14 case OWNSHP02 => 15
    case PASTRK01 => 16 case QUAPOS01 => 17 case RESARE02 => 18 case RESARE03 => 19
    case RESTRN01 => 20 case SLCONS03 => 21 case SOUNDG02 => 22 case TOPMAR01 => 23
    case VESSEL01 => 24 case VESSEL02 => 25 case VRMEBL01 => 26 case VRMEBL02 => 27
    case WRECKS02 => 28 case WRECKS03 => 29 case WRECKS04 => 30 case WRECKS05 => 31
    case QUESMRK1 => 32
  }

  /** Distinct procedures have distinct names. */
  lemma NamesDiffer(p: Proc, q: Proc)
    requires ProcName(p) == ProcName(q)
    ensures p == q
  {
    assert ProcName(p)[..7] == Family(p) && ProcName(q)[..7] == Family(q);
    assert ProcName(p)[7] == Edition(p) && ProcName(q)[7] == Edition(q);
    NameKeyInverts(p);
    NameKeyInverts(q);
  }

  /** Reads the procedure back from the letters of its family that tell
    * the families apart, and from its edition. */
  function NameKey(family: string, edition: char): Proc
    requires |family| == 7
  {
    match family[0]
    case 'C' => CLRLIN01
    case 'D' =>
      if family[1] == 'A' then (if edition == '1' then DATCVR01 else DATCVR02)
      else if family[3] == 'C' then (if edition == '2' then DEPCNT02 else DEPCNT03)
      else if edition == '1' then DEPARE01 else if edition == '2' then DEPARE02 else DEPARE03
    case 'L' =>
      if family[1] == 'E' then (if edition == '2' then LEGLIN02 else LEGLIN03)
      else if edition == '5' then LIGHTS05 else LIGHTS06
    case 'O' =>
      if family[1] == 'W' then OWNSHP02
      else if edition == '4' then OBSTRN04 else if edition == '5' then OBSTRN05 else OBSTRN06
    case 'P' => PASTRK01
    case 'Q' => if family[2] == 'A' then QUAPOS01 else QUESMRK1
    case 'R' =>
      if family[3] == 'T' then RESTRN01
      else if edition == '2' then RESARE02 else RESARE03
    case 'S' => if family[1] == 'L' then SLCONS03 else SOUNDG02
    case 'T' => TOPMAR01
    case 'V' =>
      if family[1] == 'E' then (if edition == '1' then VESSEL01 else VESSEL02)
      else if edition == '1' then VRMEBL01 else VRMEBL02
    case _ =>
      if edition == '2' then WRECKS02 else if edition == '3' then WRECKS03
      else if edition == '4' then WRECKS04 else WRECKS05
  }

  /** The letters `NameKey` reads identify every procedure of the table. */
  lemma NameKeyInverts(p: Proc)
    ensures NameKey(Family(p), Edition(p)) == p
  {
    match p
    case CLRLIN01 => case DATCVR01 => case DATCVR02 => case DEPARE01 =>
    case DEPARE02 => case DEPARE03 => case DEPCNT02 => case DEPCNT03 =>
    case LEGLIN02 => case LEGLIN03 => case LIGHTS05 => case LIGHTS06 =>
    case OBSTRN04 => case OBSTRN05 => case OBSTRN06 => case OWNSHP02 =>
    case PASTRK01 => case QUAPOS01 => case RESARE02 => case RESARE03 =>
    case RESTRN01 => case SLCONS03 => case SOUNDG02 => case TOPMAR01 =>
    case VESSEL01 => case VESSEL02 => case VRMEBL01 => case VRMEBL02 =>
    case WRECKS02 => case WRECKS03 => case WRECKS04 => case WRECKS05 =>
    case QUESMRK1 =>
  }
}
