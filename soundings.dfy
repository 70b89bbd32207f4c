/** Soundings: `_SNDFRM02` turns a depth into a row of digit glyphs
  * (SOUNDSxy for depths at or above the safety depth, SOUNDGxy below it),
  * and `SOUNDG02` applies it to a single sounding. */
module Soundings {
  import opened Basics
  import opened CodedList
  import opened Instructions
  import opened Chart
  import Quality

  /** One sounding glyph: its class character and the number after it. The
    * classes '0'..'4' are integer digits (most significant first), '5' the
    * tenths, 'A' the drying-height mark, 'B' the swept-depth mark and 'C'
    * the low-accuracy mark. */
  datatype Glyph = Glyph(cls: char, n: nat)

  function GlyphName(prefix: string, g: Glyph): string {
    prefix + [g.cls] + Decimal(g.n)
  }

  /** The 0.01 nudge away from zero applied before the digits are taken
    * (zero itself is nudged downwards). */
  function Bias(depth: real): real {
    depth + (if depth > 0.0 then 0.01 else -0.01)
  }

  /** The glyphs that spell a (nudged) depth `d`: metres and tenths below
    * 10 m, and below 31 m when there is a fraction; whole metres beyond. */
  function DepthGlyphs(d: real): (r: seq<Glyph>)
    ensures 2 <= |r| <= 5
  {
    var lead := Trunc(d);
    if d < 10.0 then
      var fraction := Trunc(AbsReal((d - lead as real) * 10.0));
      [Glyph('1', AbsInt(lead)), Glyph('5', fraction)] + (if d < 0.0 then [Glyph('A', 1)] else [])
    else if d < 31.0 && d - lead as real != 0.0 then
      var fraction := Trunc((d - lead as real) * 10.0);
      [Glyph('2', lead / 10), Glyph('1', lead % 10), Glyph('5', fraction)]
    else
      WholeRow(lead)
  }

  /** The whole-metre digits of a depth of `lead` metres or more: two to
    * five glyphs, most significant first. */
  function WholeRow(lead: int): (r: seq<Glyph>)
    requires lead >= 10
    ensures 2 <= |r| <= 5
  {
    if lead < 100 then
      [Glyph('1', lead / 10), Glyph('0', lead % 10)]
    else if lead < 1000 then
      var first := lead / 100;
      var second := (lead - first * 100) / 10;
      var third := lead - first * 100 - second * 10;
      [Glyph('2', first), Glyph('1', second), Glyph('0', third)]
    else if lead < 10000 then
      var first := lead / 1000;
      var second := (lead - first * 1000) / 100;
      var third := (lead - first * 1000 - second * 100) / 10;
      var last := lead - first * 1000 - second * 100 - third * 10;
      [Glyph('2', first), Glyph('1', second), Glyph('0', third), Glyph('4', last)]
    else
      var first := lead / 10000;
      var second := (lead - first * 10000) / 1000;
      var third := (lead - first * 10000 - second * 1000) / 100;
      var fourth := (lead - first * 10000 - second * 1000 - third * 100) / 10;
      var last := lead - first * 10000 - second * 1000 - third * 100 - fourth * 10;
      [Glyph('3', first), Glyph('2', second), Glyph('1', third), Glyph('0', fourth), Glyph('4', last)]
  }

  /** The quality glyphs in front of the digits: 'B1' for a swept depth
    * (TECSOU 6); 'C2' for an unreliable sounding (QUASOU 3, 4, 5, 8 or 9,
    * STATUS 18, or a low-accuracy QUAPOS). */
  function QualityGlyphs(a: Attrs): seq<Glyph> {
    var swept := a.tecsou.Some? && HasAny(ParseListSpec(a.tecsou), [6]);
    var doubtful := HasAny(ParseListSpec(a.quasou), [3, 4, 5, 8, 9])
                    || HasAny(ParseListSpec(a.status), [18])
                    || Quality.LowAccuracy(a);
    (if swept then [Glyph('B', 1)] else []) + (if doubtful then [Glyph('C', 2)] else [])
  }

  function Prefix(d: real, mp: Params): string {
    if d <= mp.safetyDepth then "SOUNDS" else "SOUNDG"
  }

  function Symbols(prefix: string, gs: seq<Glyph>): (r: seq<Instr>)
    ensures |r| == |gs|
    ensures forall i :: 0 <= i < |gs| ==> r[i] == SY(GlyphName(prefix, gs[i]))
    ensures forall i :: 0 <= i < |gs| ==>
              (|r[i].name| >= |prefix| + 2 && r[i].name[..|prefix|] == prefix)
    decreases |gs|
  {
    if gs == [] then []
    else
      var name := GlyphName(prefix, gs[0]);
      assert name[..|prefix|] == prefix;
      [SY(name)] + Symbols(prefix, gs[1..])
  }

  /** `_SNDFRM02`: the glyph symbols of a sounding of `depth` metres. */
  function Sndfrm02(a: Attrs, depth: real, mp: Params): (r: seq<Instr>)
    ensures |r| >= 2
    ensures forall k :: 0 <= k < |r| ==>
              (r[k].SY? && |r[k].name| >= 8 &&
               r[k].name[..6] == (if Bias(depth) <= mp.safetyDepth then "SOUNDS" else "SOUNDG"))
  {
    var d := Bias(depth);
    var gs := QualityGlyphs(a) + DepthGlyphs(d);
    assert |gs| >= 2;
    Symbols(Prefix(d, mp), gs)
  }

  /** `SOUNDG02`: only a single sounding point is drawn; a feature that is
    * not a point, has no coordinates or holds several soundings gets
    * nothing. The depth is the third coordinate of the point. */
  function Soundg02(g: Geo, mp: Params): (r: Option<seq<Instr>>)
    ensures r.Some? <==> g.kind == Point && |g.pts| == 1
  {
    if g.kind != Point || |g.pts| == 0 || |g.pts| > 1 then None
    else Some(Sndfrm02(g.attrs, g.pts[0].z, mp))
  }

  // ---- reading a sounding back ----

  /** The integer digits of a glyph row, in order. */
  function IntDigits(gs: seq<Glyph>): seq<nat>
    decreases |gs|
  {
    if gs == [] then []
    else (if gs[0].cls in "01234" then [gs[0].n] else []) + IntDigits(gs[1..])
  }

  /** The tenths a glyph row shows (0 when it shows none). */
  function Tenths(gs: seq<Glyph>): nat
    decreases |gs|
  {
    if gs == [] then 0 else if gs[0].cls == '5' then gs[0].n else Tenths(gs[1..])
  }

  lemma IntDigitsCons(g: Glyph, rest: seq<Glyph>)
    ensures IntDigits([g] + rest) == (if g.cls in "01234" then [g.n] else []) + IntDigits(rest)
  {
    assert ([g] + rest)[1..] == rest;
  }

  lemma TenthsCons(g: Glyph, rest: seq<Glyph>)
    ensures Tenths([g] + rest) == if g.cls == '5' then g.n else Tenths(rest)
  {
    assert ([g] + rest)[1..] == rest;
  }

  /** A row made only of integer digits reads back digit for digit and
    * shows no tenths. */
  lemma {:induction false} DigitRow(gs: seq<Glyph>)
    requires forall k :: 0 <= k < |gs| ==> gs[k].cls in "01234"
    ensures |IntDigits(gs)| == |gs|
    ensures forall k :: 0 <= k < |gs| ==> IntDigits(gs)[k] == gs[k].n
    ensures Tenths(gs) == 0
    decreases |gs|
  {
    if gs != [] {
      DigitRow(gs[1..]);
      IntDigitsCons(gs[0], gs[1..]);
      TenthsCons(gs[0], gs[1..]);
      assert [gs[0]] + gs[1..] == gs;
    }
  }

  /** The rows written to the tenth: integer digits, then the tenths, then
    * possibly the drying mark. */
  lemma TenthsRow(ints: seq<Glyph>, tenths: nat, tail: seq<Glyph>)
    requires forall k :: 0 <= k < |ints| ==> ints[k].cls in "01234"
    requires tail == [] || tail == [Glyph('A', 1)]
    ensures |IntDigits(ints + [Glyph('5', tenths)] + tail)| == |ints|
    ensures forall k :: 0 <= k < |ints| ==> IntDigits(ints + [Glyph('5', tenths)] + tail)[k] == ints[k].n
    ensures Tenths(ints + [Glyph('5', tenths)] + tail) == tenths
    decreases |ints|
  {
    var gs := ints + [Glyph('5', tenths)] + tail;
    if ints == [] {
      assert gs == [Glyph('5', tenths)] + tail;
      IntDigitsCons(Glyph('5', tenths), tail);
      TenthsCons(Glyph('5', tenths), tail);
      if tail != [] {
        IntDigitsCons(Glyph('A', 1), []);
      }
    } else {
      TenthsRow(ints[1..], tenths, tail);
      assert gs == [ints[0]] + (ints[1..] + [Glyph('5', tenths)] + tail);
      IntDigitsCons(ints[0], ints[1..] + [Glyph('5', tenths)] + tail);
      TenthsCons(ints[0], ints[1..] + [Glyph('5', tenths)] + tail);
    }
  }

  /** The number a row of decimal digits spells. */
  function Horner(ds: seq<nat>): nat
    decreases |ds|
  {
    if ds == [] then 0 else Horner(ds[..|ds| - 1]) * 10 + ds[|ds| - 1]
  }

  /** The value a glyph row shows, drying mark aside. */
  function Shown(gs: seq<Glyph>): real {
    Horner(IntDigits(gs)) as real + Tenths(gs) as real / 10.0
  }

  /** Whether the row is written to the tenth of a metre. */
  predicate InTenths(d: real) {
    d < 10.0 || (d < 31.0 && d - Trunc(d) as real != 0.0)
  }

  /** The glyphs spell the size of the nudged depth, cut down to a tenth of
    * a metre where tenths are shown and to a metre elsewhere; the drying
    * mark appears exactly for negative values. */
  lemma DepthGlyphsShowDepth(d: real)
    ensures var gs := DepthGlyphs(d); var step := if InTenths(d) then 0.1 else 1.0;
      Shown(gs) <= AbsReal(d) < Shown(gs) + step
    ensures (Glyph('A', 1) in DepthGlyphs(d)) <==> d < 0.0
  {
    var gs := DepthGlyphs(d);
    var lead := Trunc(d);
    if d < 10.0 {
      var fraction := Trunc(AbsReal((d - lead as real) * 10.0));
      var tail: seq<Glyph> := if d < 0.0 then [Glyph('A', 1)] else [];
      assert gs == [Glyph('1', AbsInt(lead))] + [Glyph('5', fraction)] + tail;
      TenthsRow([Glyph('1', AbsInt(lead))], fraction, tail);
      assert IntDigits(gs) == [AbsInt(lead)];
      assert (Glyph('A', 1) in gs) <==> Glyph('A', 1) in tail;
      assert Horner([AbsInt(lead)]) == AbsInt(lead) by {
        assert [AbsInt(lead)][..0] == [];
      }
    } else if d < 31.0 && d - lead as real != 0.0 {
      var fraction := Trunc((d - lead as real) * 10.0);
      assert gs == [Glyph('2', lead / 10), Glyph('1', lead % 10)] + [Glyph('5', fraction)] + [];
      TenthsRow([Glyph('2', lead / 10), Glyph('1', lead % 10)], fraction, []);
      assert IntDigits(gs) == [lead / 10, lead % 10];
      HornerTwo(lead / 10, lead % 10);
      assert forall k :: 0 <= k < |gs| ==> gs[k].cls != 'A';
    } else {
      IntegerRowSpellsLead(lead);
    }
  }

  lemma HornerTwo(a: nat, b: nat)
    ensures Horner([a, b]) == 10 * a + b
  {
    assert [a, b][..1] == [a];
    assert [a][..0] == [];
    assert Horner([a]) == a;
  }

  /** The whole-metre rows spell the truncated depth exactly. */
  lemma IntegerRowSpellsLead(lead: int)
    requires lead >= 10
    ensures Horner(IntDigits(WholeRow(lead))) == lead
    ensures Tenths(WholeRow(lead)) == 0
    ensures lead < 100000 ==> forall k :: 0 <= k < |IntDigits(WholeRow(lead))| ==> IntDigits(WholeRow(lead))[k] < 10
    ensures Glyph('A', 1) !in WholeRow(lead)
  {
    DigitRow(WholeRow(lead));
    if lead < 100 {
      TwoDigitRow(lead);
    } else if lead < 1000 {
      ThreeDigitRow(lead);
    } else if lead < 10000 {
      FourDigitRow(lead);
    } else {
      FiveDigitRow(lead);
    }
  }

  lemma TwoDigitRow(lead: int)
    requires 10 <= lead < 100
    ensures IntDigits(WholeRow(lead)) == [lead / 10, lead % 10]
    ensures Horner([lead / 10, lead % 10]) == lead
  {
    DigitRow(WholeRow(lead));
    HornerTwo(lead / 10, lead % 10);
  }

  lemma ThreeDigitRow(lead: int)
    requires 100 <= lead < 1000
    ensures var ds := IntDigits(WholeRow(lead)); Horner(ds) == lead && forall k :: 0 <= k < |ds| ==> ds[k] < 10
  {
    DigitRow(WholeRow(lead));
    var first := lead / 100;
    var second := (lead - first * 100) / 10;
    var third := lead - first * 100 - second * 10;
    var ds := [first, second, third];
    assert IntDigits(WholeRow(lead)) == ds;
    assert ds[..2] == [first, second];
    HornerTwo(first, second);
  }

  lemma FourDigitRow(lead: int)
    requires 1000 <= lead < 10000
    ensures var ds := IntDigits(WholeRow(lead)); Horner(ds) == lead && forall k :: 0 <= k < |ds| ==> ds[k] < 10
  {
    DigitRow(WholeRow(lead));
    var first := lead / 1000;
    var second := (lead - first * 1000) / 100;
    var third := (lead - first * 1000 - second * 100) / 10;
    var last := lead - first * 1000 - second * 100 - third * 10;
    var ds := [first, second, third, last];
    assert IntDigits(WholeRow(lead)) == ds;
    assert ds[..3] == [first, second, third];
    assert ds[..3][..2] == [first, second];
    HornerTwo(first, second);
  }

  lemma FiveDigitRow(lead: int)
    requires 10000 <= lead
    ensures var ds := IntDigits(WholeRow(lead));
      Horner(ds) == lead && (lead < 100000 ==> forall k :: 0 <= k < |ds| ==> ds[k] < 10)
  {
    DigitRow(WholeRow(lead));
    var first := lead / 10000;
    var second := (lead - first * 10000) / 1000;
    var third := (lead - first * 10000 - second * 1000) / 100;
    var fourth := (lead - first * 10000 - second * 1000 - third * 100) / 10;
    var last := lead - first * 10000 - second * 1000 - third * 100 - fourth * 10;
    var ds := [first, second, third, fourth, last];
    assert IntDigits(WholeRow(lead)) == ds;
    assert ds[..4] == [first, second, third, fourth];
    assert ds[..4][..3] == [first, second, third];
    assert ds[..4][..3][..2] == [first, second];
    HornerTwo(first, second);
    assert Horner(ds[..4][..3]) == 100 * first + 10 * second + third;
    assert Horner(ds[..4]) == 1000 * first + 100 * second + 10 * third + fourth;
    assert Horner(ds) == lead;
    if lead < 100000 {
      assert first < 10 && second < 10 && third < 10 && fourth < 10 && last < 10;
    }
  }

  /** Every integer digit is a single decimal digit while the depth stays
    * within the five-digit range the glyph set covers, and drying heights
    * stay within ten metres. */
  lemma DigitsAreDecimal(d: real)
    requires -10.0 < d < 100000.0
    ensures forall k :: 0 <= k < |IntDigits(DepthGlyphs(d))| ==> IntDigits(DepthGlyphs(d))[k] < 10
    ensures Tenths(DepthGlyphs(d)) < 10
  {
    var gs := DepthGlyphs(d);
    var lead := Trunc(d);
    if d < 10.0 {
      var fraction := Trunc(AbsReal((d - lead as real) * 10.0));
      var tail: seq<Glyph> := if d < 0.0 then [Glyph('A', 1)] else [];
      assert gs == [Glyph('1', AbsInt(lead))] + [Glyph('5', fraction)] + tail;
      TenthsRow([Glyph('1', AbsInt(lead))], fraction, tail);
    } else if d < 31.0 && d - lead as real != 0.0 {
      var fraction := Trunc((d - lead as real) * 10.0);
      assert gs == [Glyph('2', lead / 10), Glyph('1', lead % 10)] + [Glyph('5', fraction)] + [];
      TenthsRow([Glyph('2', lead / 10), Glyph('1', lead % 10)], fraction, []);
    } else {
      IntegerRowSpellsLead(lead);
    }
  }

  /** A sounding of 7.5 m with the safety depth at 30 m is drawn with the
    * shallow glyphs for 7 and 5 tenths. */
  lemma SevenAndAHalf()
    ensures Sndfrm02(NoAttrs, 7.5, Params(30.0, 2.0, 30.0, 30.0, 0.0, 1.0, 0.0, 1.0))
            == [SY("SOUNDS17"), SY("SOUNDS55")]
  {
    assert Trunc(7.51) == 7;
    assert Trunc(AbsReal((7.51 - 7.0) * 10.0)) == 5;
    assert DepthGlyphs(7.51) == [Glyph('1', 7), Glyph('5', 5)];
    assert Decimal(7) == "7" && Decimal(5) == "5";
    assert ParseListSpec(None) == [];
    assert !HasAny([], [6]) && !HasAny([], [3, 4, 5, 8, 9]) && !HasAny([], [18]);
    assert QualityGlyphs(NoAttrs) == [];
    assert Bias(7.5) == 7.51;
    var gs := [Glyph('1', 7), Glyph('5', 5)];
    assert GlyphName("SOUNDS", gs[0]) == "SOUNDS17";
    assert GlyphName("SOUNDS", gs[1]) == "SOUNDS55";
  }

  /** A depth of exactly zero is nudged below zero and therefore drawn with
    * the drying-height mark. */
  lemma ZeroDepthDries()
    ensures DepthGlyphs(Bias(0.0)) == [Glyph('1', 0), Glyph('5', 0), Glyph('A', 1)]
  {
    assert Bias(0.0) == -0.01;
    assert Trunc(-0.01) == 0;
    assert Trunc(AbsReal((-0.01 - 0.0) * 10.0)) == 0;
  }

  /** The glyph row of a sounding: quality marks first, then the depth; all
    * glyphs share the shallow prefix exactly when the nudged depth is at or
    * above the safety depth. */
  lemma SoundingLayout(a: Attrs, depth: real, mp: Params)
    ensures var r := Sndfrm02(a, depth, mp); var gs := QualityGlyphs(a) + DepthGlyphs(Bias(depth));
      |r| == |gs| &&
      forall k :: 0 <= k < |r| ==>
        r[k] == SY((if Bias(depth) <= mp.safetyDepth then "SOUNDS" else "SOUNDG") + [gs[k].cls] + Decimal(gs[k].n))
  {
  }
}
