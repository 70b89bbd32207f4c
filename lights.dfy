/** Lights: `LIGHTS05` with its helpers `_LIGHTS05_getSYcol` (the flare
  * colour), `_LIGHTS05_cmpSector` (which of two overlapping sectors is the
  * smaller) and `_LITDSN01` (the light description text). */
module Lights {
  import opened Basics
  import opened CodedList
  import opened Instructions
  import opened Chart

  // ---- colours ----

  /** The byte at position `i` of a zero-filled list buffer holding `codes`. */
  function Slot(codes: seq<int>, i: nat): int {
    if i < |codes| then codes[i] else 0
  }

  datatype LightColour = Red | Green | Yellow | OtherColour

  /** The colour class shared by the flare symbol and the sector arc: one
    * colour decides alone (red, then green, then white/yellow/orange); two
    * colours only when one is white and the other red or green; anything
    * else is "other". */
  function ColourClass(colours: seq<int>): LightColour {
    if Slot(colours, 1) == 0 then
      if HasAny(colours, [3]) then Red
      else if HasAny(colours, [4]) then Green
      else if HasAny(colours, [1, 6, 11]) then Yellow
      else OtherColour
    else if Slot(colours, 2) == 0 then
      if HasAny(colours, [1]) && HasAny(colours, [3]) then Red
      else if HasAny(colours, [1]) && HasAny(colours, [4]) then Green
      else OtherColour
    else OtherColour
  }

  /** A colour buffer holding a single colour (or none). */
  predicate OneColour(colours: seq<int>) {
    Slot(colours, 1) == 0
  }

  /** A colour buffer holding exactly two colours, the first non-zero. */
  predicate TwoColours(colours: seq<int>) {
    Slot(colours, 0) != 0 && Slot(colours, 1) != 0 && Slot(colours, 2) == 0
  }

  /** The colour class read off the buffer's first slots: red is a single
    * red (3), or white (1) with red in either order; green likewise with
    * 4; yellow a single white, yellow (6) or orange (11). */
  lemma ColourRule(colours: seq<int>)
    ensures ColourClass(colours) == Red <==>
      (OneColour(colours) && Slot(colours, 0) == 3) ||
      (TwoColours(colours) && {Slot(colours, 0), Slot(colours, 1)} == {1, 3})
    ensures ColourClass(colours) == Green <==>
      (OneColour(colours) && Slot(colours, 0) == 4) ||
      (TwoColours(colours) && {Slot(colours, 0), Slot(colours, 1)} == {1, 4})
    ensures ColourClass(colours) == Yellow <==>
      OneColour(colours) && Slot(colours, 0) in {1, 6, 11}
  {
    var c0, c1 := Slot(colours, 0), Slot(colours, 1);
    if OneColour(colours) {
      forall list: seq<int> ensures HasAny(colours, list) <==> c0 != 0 && InList(c0, list) {
        if colours != [] && colours[0] != 0 {
          assert colours[1..] == [] || colours[1..][0] == 0;
        }
      }
      assert InList(c0, [3]) <==> c0 == 3;
      assert InList(c0, [4]) <==> c0 == 4;
      InListMembership(c0, [1, 6, 11]);
    } else if Slot(colours, 2) == 0 {
      forall list: seq<int> ensures HasAny(colours, list) <==> c0 != 0 && (InList(c0, list) || InList(c1, list)) {
        if colours != [] && colours[0] != 0 {
          var rest := colours[1..];
          assert rest != [] && rest[0] == c1 && c1 != 0;
          assert !HasAny(rest[1..], list) by {
            assert rest[1..] == [] || rest[1..][0] == 0;
          }
          assert HasAny(rest, list) <==> InList(c1, list);
        }
      }
      assert InList(c0, [1]) <==> c0 == 1;
      assert InList(c1, [1]) <==> c1 == 1;
      assert InList(c0, [3]) <==> c0 == 3;
      assert InList(c1, [3]) <==> c1 == 3;
      assert InList(c0, [4]) <==> c0 == 4;
      assert InList(c1, [4]) <==> c1 == 4;
      if c0 != 0 {
        assert {c0, c1} == {1, 3} <==> (c0 == 1 || c1 == 1) && (c0 == 3 || c1 == 3) by {
          if (c0 == 1 || c1 == 1) && (c0 == 3 || c1 == 3) {
            assert c0 in {1, 3} && c1 in {1, 3};
          }
          if {c0, c1} == {1, 3} {
            assert 1 in {c0, c1} && 3 in {c0, c1};
          }
        }
        assert {c0, c1} == {1, 4} <==> (c0 == 1 || c1 == 1) && (c0 == 4 || c1 == 4) by {
          if (c0 == 1 || c1 == 1) && (c0 == 4 || c1 == 4) {
            assert c0 in {1, 4} && c1 in {1, 4};
          }
          if {c0, c1} == {1, 4} {
            assert 1 in {c0, c1} && 4 in {c0, c1};
          }
        }
      }
    }
  }

  /** `_LIGHTS05_getSYcol`: the flare symbol of a colour list, red, green
    * or yellow by the colour rule, LIGHTDEF for anything else. */
  function FlareSymbol(colours: seq<int>): (r: string)
    ensures r == "LIGHTS01" <==>
      (OneColour(colours) && Slot(colours, 0) == 3) ||
      (TwoColours(colours) && {Slot(colours, 0), Slot(colours, 1)} == {1, 3})
    ensures r == "LIGHTS02" <==>
      (OneColour(colours) && Slot(colours, 0) == 4) ||
      (TwoColours(colours) && {Slot(colours, 0), Slot(colours, 1)} == {1, 4})
    ensures r == "LIGHTS03" <==> OneColour(colours) && Slot(colours, 0) in {1, 6, 11}
    ensures r in {"LIGHTS01", "LIGHTS02", "LIGHTS03", "LIGHTDEF"}
  {
    ColourRule(colours);
    match ColourClass(colours)
    case Red => "LIGHTS01"
    case Green => "LIGHTS02"
    case Yellow => "LIGHTS03"
    case OtherColour => "LIGHTDEF"
  }

  /** The sector-arc colour of a colour list; the arc and the flare of a
    * light always agree on its colour. */
  function ArcColour(colours: seq<int>): (r: string)
    ensures r == "LITRD" <==> FlareSymbol(colours) == "LIGHTS01"
    ensures r == "LITGN" <==> FlareSymbol(colours) == "LIGHTS02"
    ensures r == "LITYW" <==> FlareSymbol(colours) == "LIGHTS03"
    ensures r == "CHMGD" <==> FlareSymbol(colours) == "LIGHTDEF"
  {
    match ColourClass(colours)
    case Red => "LITRD"
    case Green => "LITGN"
    case Yellow => "LITYW"
    case OtherColour => "CHMGD"
  }

  /** A white-and-red light is red, whichever colour comes first; three
    * colours are always "other". */
  lemma ColourExamples()
    ensures ColourClass([1, 3]) == Red && ColourClass([3, 1]) == Red
    ensures ColourClass([4]) == Green && ColourClass([11]) == Yellow
    ensures ColourClass([1, 3, 4]) == OtherColour
    ensures ColourClass([12]) == OtherColour
  {
    assert InList(3, [3]) && InList(1, [1]) && InList(4, [4]) && InList(11, [1, 6, 11]);
    assert HasAny([3, 1], [3]) && HasAny([1, 3], [1]);
    assert HasAny([1, 3], [3]) by { assert [1, 3][1..] == [3]; }
    assert HasAny([3, 1], [1]) by { assert [3, 1][1..] == [1]; }
    assert !HasAny([12], [3]) && !HasAny([12], [4]) && !HasAny([12], [1, 6, 11]) by {
      assert [12][1..] == [];
    }
  }

  // ---- sectors ----

  /** The sector of a light as (SECTR1, SECTR2), when both are given. */
  function Sector(a: Attrs): Option<(real, real)> {
    if Get(a.sectr1).Some? && Get(a.sectr2).Some? then Some((Get(a.sectr1).value, Get(a.sectr2).value))
    else None
  }

  /** The angle a sector sweeps clockwise from SECTR1 to SECTR2, a full
    * circle counted as none. */
  function Sweep(s1: real, s2: real): (w: real)
    ensures s1 <= s2 && s2 - s1 < 360.0 ==> w == s2 - s1
  {
    var w := (if s1 > s2 then s2 + 360.0 else s2) - s1;
    if w >= 360.0 then w - 360.0 else w
  }

  /** The overlap test of `_LIGHTS05_cmpSector`: a limit of either sector
    * lies strictly inside the other (measured from either end, to catch
    * sectors across north). */
  predicate SectorsOverlap(a1: real, a2: real, b1: real, b2: real) {
    var aw := Sweep(a1, a2);
    var bw := Sweep(b1, b2);
    (a2 - aw < b1 < a2) || (a2 - aw < b2 < a2) || (a1 < b1 < a1 + aw) || (a1 < b2 < a1 + aw) ||
    (b2 - bw < a1 < b2) || (b2 - bw < a2 < b2) || (b1 < a1 < b1 + bw) || (b1 < a2 < b1 + bw)
  }

  /** `_LIGHTS05_cmpSector`: 1 when the two sectors overlap and A sweeps
    * less than B, -1 when they overlap otherwise, 0 when they do not
    * overlap or one is not a sector light. */
  function CmpSector(a: Attrs, b: Attrs): (r: int)
    ensures r in {-1, 0, 1}
    ensures Sector(a).None? || Sector(b).None? ==> r == 0
    ensures Sector(a).Some? && Sector(b).Some? ==>
      var (a1, a2) := Sector(a).value;
      var (b1, b2) := Sector(b).value;
      (r == 0 <==> !SectorsOverlap(a1, a2, b1, b2)) &&
      (r == 1 <==> SectorsOverlap(a1, a2, b1, b2) && Sweep(a1, a2) < Sweep(b1, b2))
  {
    if Sector(a).None? || Sector(b).None? then 0
    else
      var (a1, a2) := Sector(a).value;
      var (b1, b2) := Sector(b).value;
      if SectorsOverlap(a1, a2, b1, b2) then
        if Sweep(a1, a2) < Sweep(b1, b2) then 1 else -1
      else 0
  }

  /** Overlap is symmetric; with different sweeps the comparison is
    * antisymmetric, and with equal sweeps both orders answer -1. */
  lemma CmpSectorSymmetry(a: Attrs, b: Attrs)
    ensures CmpSector(a, b) == 0 <==> CmpSector(b, a) == 0
    ensures CmpSector(a, b) != 0 && Sweep(Sector(a).value.0, Sector(a).value.1) != Sweep(Sector(b).value.0, Sector(b).value.1)
            ==> CmpSector(a, b) == -CmpSector(b, a)
    ensures CmpSector(a, b) != 0 && Sweep(Sector(a).value.0, Sector(a).value.1) == Sweep(Sector(b).value.0, Sector(b).value.1)
            ==> CmpSector(a, b) == -1 && CmpSector(b, a) == -1
  {
  }

  /** For sectors that do not cross north, the overlap test is the
    * overlap of the two open arcs, except that a sector never overlaps an
    * identical one. */
  lemma PlainSectorsOverlap(a1: real, a2: real, b1: real, b2: real)
    requires 0.0 <= a1 < a2 < 360.0 && 0.0 <= b1 < b2 < 360.0
    ensures SectorsOverlap(a1, a2, b1, b2) <==> a1 < b2 && b1 < a2 && (a1 != b1 || a2 != b2)
  {
    assert Sweep(a1, a2) == a2 - a1 && Sweep(b1, b2) == b2 - b1;
  }

  /** A 30 degree sector inside a 90 degree one: the smaller sector wins. */
  lemma NarrowSectorWins()
    ensures CmpSector(NoAttrs.(sectr1 := Val(0.0), sectr2 := Val(30.0)),
                      NoAttrs.(sectr1 := Val(20.0), sectr2 := Val(110.0))) == 1
    ensures CmpSector(NoAttrs.(sectr1 := Val(20.0), sectr2 := Val(110.0)),
                      NoAttrs.(sectr1 := Val(0.0), sectr2 := Val(30.0))) == -1
  {
  }

  /** Sectors that only share a limit do not overlap. */
  lemma AdjacentSectorsDoNotOverlap()
    ensures CmpSector(NoAttrs.(sectr1 := Val(0.0), sectr2 := Val(90.0)),
                      NoAttrs.(sectr1 := Val(90.0), sectr2 := Val(180.0))) == 0
  {
  }

  // ---- light description ----

  /** The outcome of `_LITDSN01`: a text, or no text (an emergency light). */
  datatype Description = Text(parts: seq<TextPart>) | NoText

  /** The abbreviation of one CATLIT code; codes 0, 3, 4, 12 and 13 have
    * none. */
  function CatlitCodeWord(c: int): Option<string> {
    if c in {0, 3, 4, 12, 13} then None
    else if c == 1 then Some("Dir ")
    else if c == 5 || c == 6 then Some("Aero ")
    else Some("FIXME:CATLIT ")
  }

  /** The CATLIT abbreviation after reading `codes`, starting from `word`. */
  function CatlitWord(codes: seq<int>, word: Option<string>): Option<string>
    decreases |codes|
  {
    if codes == [] then word
    else CatlitWord(codes[1..], if CatlitCodeWord(codes[0]).Some? then CatlitCodeWord(codes[0]) else word)
  }

  /** The last code of the list that has an abbreviation decides it; a list
    * without one leaves the starting word. */
  lemma {:induction false} CatlitLastWins(codes: seq<int>, word: Option<string>)
    ensures (forall i :: 0 <= i < |codes| ==> CatlitCodeWord(codes[i]).None?) ==>
              CatlitWord(codes, word) == word
    ensures forall i :: (0 <= i < |codes| && CatlitCodeWord(codes[i]).Some? &&
                         (forall j :: i < j < |codes| ==> CatlitCodeWord(codes[j]).None?)) ==>
              CatlitWord(codes, word) == CatlitCodeWord(codes[i])
    decreases |codes|
  {
    if codes != [] {
      var next := if CatlitCodeWord(codes[0]).Some? then CatlitCodeWord(codes[0]) else word;
      var rest := codes[1..];
      CatlitLastWins(rest, next);
      assert forall i :: 0 < i < |codes| ==> codes[i] == rest[i - 1];
      if forall i :: 0 <= i < |codes| ==> CatlitCodeWord(codes[i]).None? {
        assert forall i :: 0 <= i < |rest| ==> CatlitCodeWord(rest[i]).None? by {
          forall i | 0 <= i < |rest| ensures CatlitCodeWord(rest[i]).None? {
            assert rest[i] == codes[i + 1];
          }
        }
      }
      forall i | 0 <= i < |codes| && CatlitCodeWord(codes[i]).Some? &&
                 (forall j :: i < j < |codes| ==> CatlitCodeWord(codes[j]).None?)
        ensures CatlitWord(codes, word) == CatlitCodeWord(codes[i])
      {
        if i == 0 {
          forall k | 0 <= k < |rest| ensures CatlitCodeWord(rest[k]).None? {
            assert rest[k] == codes[k + 1];
          }
        } else {
          assert rest[i - 1] == codes[i];
          forall j | i - 1 < j < |rest| ensures CatlitCodeWord(rest[j]).None? {
            assert rest[j] == codes[j + 1];
          }
        }
      }
    }
  }

  function LitchrWord(c: int): string {
    if c == 1 then "F" else if c == 2 then "Fl" else if c == 3 then "LFl"
    else if c == 4 then "Q" else if c == 5 then "VQ" else if c == 6 then "UQ"
    else if c == 7 then "Iso" else if c == 8 then "Oc" else if c == 9 then "IQ"
    else if c == 10 then "IVQ" else if c == 11 then "IUQ" else if c == 12 then "Mo"
    else if c == 13 then "FFl" else if c == 14 then "Fl+LFl" else if c == 15 then "AlOc Fl"
    else if c == 16 then "FLFl" else if c == 17 then "AlOc" else if c == 18 then "AlLFl"
    else if c == 19 then "AlFl" else if c == 20 then "Al" else if c == 25 then "Q+LFl"
    else if c == 26 then "VQ+LFl" else if c == 27 then "UQ+LFl" else if c == 28 then "Al"
    else if c == 29 then "AlF Fl" else "FIXME:LITCHR "
  }

  function ColourWord(c: int): string {
    if c == 1 then "W" else if c == 3 then "R" else if c == 4 then "G"
    else if c == 5 then "Bu" else if c == 6 then "Y" else if c == 9 then "Am"
    else if c == 10 then "Vi" else if c == 11 then "Or" else "FIXME:COLOUR "
  }

  function StatusWord(c: int): string {
    if c == 2 then "occas" else if c == 7 then "temp" else if c == 8 then "priv"
    else if c == 11 then "exting" else "FIXME:STATUS "
  }

  /** `n` copies of a word. */
  function Repeat(w: string, n: nat): (r: string)
    ensures |r| == n * |w|
  {
    if n == 0 then "" else w + Repeat(w, n - 1)
  }

  /** `_LITDSN01`: CATLIT word, LITCHR word (of the first code only),
    * SIGGRP, one colour letter per
    * COLOUR code (always that of the first code) and a space, SIGPER with
    * "s ", HEIGHT with "m " (reformatted to the datum when the offset is
    * not 0), VALNMR with "M" (reformatted when longer than three
    * characters) and the STATUS word; each part only when its attribute is
    * present. */
  function Litdsn01(a: Attrs, mp: Params): (r: Description)
    ensures r == NoText <==> 17 in ParseListSpec(a.catlit)
  {
    if 17 in ParseListSpec(a.catlit) then NoText
    else Text(LitdsnHead(a) + LitdsnTail(a, mp))
  }

  /** The CATLIT, LITCHR, SIGGRP and COLOUR parts of the description. */
  function LitdsnHead(a: Attrs): seq<TextPart> {
    var catlit := ParseListSpec(a.catlit);
    var colours := ParseListSpec(a.colour);
    (if a.catlit.Some? && CatlitWord(catlit, None).Some? then [Lit(CatlitWord(catlit, None).value)] else []) +
    (if a.litchr.Some? then [Lit(LitchrWord(Slot(ParseListSpec(a.litchr), 0)))] else []) +
    (if a.siggrp.Some? then [Lit(a.siggrp.value)] else []) +
    (if a.colour.Some? then [Lit(Repeat(ColourWord(Slot(colours, 0)), |colours|) + " ")] else [])
  }

  /** The SIGPER, HEIGHT, VALNMR and STATUS parts of the description. */
  function LitdsnTail(a: Attrs, mp: Params): seq<TextPart> {
    (if a.sigper.Some? then [Lit(a.sigper.value + "s ")] else []) +
    (if a.height.None? then []
     else if mp.datumOffset != 0.0 then [HeightAdjusted(a.height.value, mp.datumOffset)]
     else [Lit(a.height.value + "m ")]) +
    (if a.valnmr.None? then []
     else if |a.valnmr.value| > 3 then [RangeReformatted(a.valnmr.value), Lit("M")]
     else [Lit(a.valnmr.value + "M")]) +
    (if a.status.Some? then [Lit(StatusWord(Slot(ParseListSpec(a.status), 0)))] else [])
  }

  /** 1 for a present attribute, 0 for an absent one. */
  function Present<T>(o: Option<T>): nat {
    if o.Some? then 1 else 0
  }

  /** The CATLIT abbreviation the description opens with, if any. */
  function CatlitText(a: Attrs): Option<string> {
    if a.catlit.Some? then CatlitWord(ParseListSpec(a.catlit), None) else None
  }

  /** The head of the description: the CATLIT abbreviation, the word of
    * the first LITCHR code, SIGGRP as given, and the first colour's
    * letters once per colour, each only when present. */
  lemma LitdsnHeadParts(a: Attrs)
    ensures var h, k, colours := LitdsnHead(a), Present(CatlitText(a)), ParseListSpec(a.colour);
      |h| == k + Present(a.litchr) + Present(a.siggrp) + Present(a.colour) &&
      (CatlitText(a).Some? ==> h[0] == Lit(CatlitText(a).value)) &&
      (a.litchr.Some? ==> h[k] == Lit(LitchrWord(Slot(ParseListSpec(a.litchr), 0)))) &&
      (a.siggrp.Some? ==> h[k + Present(a.litchr)] == Lit(a.siggrp.value)) &&
      (a.colour.Some? ==> h[k + Present(a.litchr) + Present(a.siggrp)] ==
                          Lit(Repeat(ColourWord(Slot(colours, 0)), |colours|) + " "))
  {
    var catlit := ParseListSpec(a.catlit);
    var colours := ParseListSpec(a.colour);
    var p1 := if a.catlit.Some? && CatlitWord(catlit, None).Some? then [Lit(CatlitWord(catlit, None).value)] else [];
    var p2 := if a.litchr.Some? then [Lit(LitchrWord(Slot(ParseListSpec(a.litchr), 0)))] else [];
    var p3 := if a.siggrp.Some? then [Lit(a.siggrp.value)] else [];
    var p4 := if a.colour.Some? then [Lit(Repeat(ColourWord(Slot(colours, 0)), |colours|) + " ")] else [];
    assert LitdsnHead(a) == p1 + p2 + p3 + p4;
    assert |p1| == Present(CatlitText(a));
  }

  /** The tail of the description: one part each for SIGPER, HEIGHT and
    * STATUS when present, one or two for VALNMR, and the word of the first
    * STATUS code last. */
  lemma LitdsnTailParts(a: Attrs, mp: Params)
    ensures var t := LitdsnTail(a, mp);
      |t| == Present(a.sigper) + Present(a.height) +
             (if a.valnmr.None? then 0 else if |a.valnmr.value| > 3 then 2 else 1) + Present(a.status) &&
      (a.status.Some? ==> t[|t| - 1] == Lit(StatusWord(Slot(ParseListSpec(a.status), 0))))
  {
  }

  /** The light description is its head followed by its tail, so it holds,
    * in the source's order, one part for each attribute present. */
  lemma LitdsnParts(a: Attrs, mp: Params)
    ensures Litdsn01(a, mp).Text? ==>
      var t := Litdsn01(a, mp).parts;
      var colours := ParseListSpec(a.colour);
      var k := Present(CatlitText(a));
      |t| == k + Present(a.litchr) + Present(a.siggrp) + Present(a.colour) + Present(a.sigper) +
             Present(a.height) + (if a.valnmr.None? then 0 else if |a.valnmr.value| > 3 then 2 else 1) +
             Present(a.status) &&
      (CatlitText(a).Some? ==> t[0] == Lit(CatlitText(a).value)) &&
      (a.litchr.Some? ==> t[k] == Lit(LitchrWord(Slot(ParseListSpec(a.litchr), 0)))) &&
      (a.siggrp.Some? ==> t[k + Present(a.litchr)] == Lit(a.siggrp.value)) &&
      (a.colour.Some? ==> t[k + Present(a.litchr) + Present(a.siggrp)] ==
                          Lit(Repeat(ColourWord(Slot(colours, 0)), |colours|) + " ")) &&
      (a.status.Some? ==> t[|t| - 1] == Lit(StatusWord(Slot(ParseListSpec(a.status), 0))))
  {
    if Litdsn01(a, mp).Text? {
      var head, tail := LitdsnHead(a), LitdsnTail(a, mp);
      assert Litdsn01(a, mp).parts == head + tail;
      LitdsnHeadParts(a);
      LitdsnTailParts(a, mp);
    }
  }

  /** The colour letters repeat the first colour: a white-and-red light
    * reads "WW ". */
  lemma ColourLettersRepeatFirst(mp: Params)
    ensures Litdsn01(NoAttrs.(colour := Some("1,3")), mp) == Text([Lit("WW ")])
  {
    ParseListJoin([1, 3]);
    assert Join([1, 3]) == "1,3" by {
      assert Decimal(1) == "1" && Decimal(3) == "3";
    }
    assert ParseListSpec(Some("1,3")) == [1, 3];
    assert ParseListSpec(None) == [];
    assert Slot([1, 3], 0) == 1 && ColourWord(1) == "W";
    assert Repeat("W", 2) == "WW" by {
      assert Repeat("W", 0) == "";
      assert Repeat("W", 1) == "W";
    }
    assert "WW" + " " == "WW ";
    var e: seq<TextPart> := [];
    assert e + e + e + [Lit("WW ")] + e + e + e + e == [Lit("WW ")];
  }

  /** A fixed white light of 15 m and 10 M reads "FW 15m 10M". */
  lemma FixedWhiteLight(mp: Params)
    requires mp.datumOffset == 0.0
    ensures Litdsn01(NoAttrs.(litchr := Some("1"), colour := Some("1"), height := Some("15"), valnmr := Some("10")), mp)
            == Text([Lit("F"), Lit("W "), Lit("15m "), Lit("10M")])
  {
    ParseListJoin([1]);
    assert Join([1]) == "1" by { assert Decimal(1) == "1"; }
    assert ParseListSpec(Some("1")) == [1];
    assert ParseListSpec(None) == [];
    assert Slot([1], 0) == 1 && ColourWord(1) == "W" && LitchrWord(1) == "F";
    assert Repeat("W", 1) == "W" by { assert Repeat("W", 0) == ""; }
    assert |"10"| <= 3;
    assert "W" + " " == "W ";
    assert "15" + "m " == "15m " && "10" + "M" == "10M";
    var e: seq<TextPart> := [];
    assert e + [Lit("F")] + e + [Lit("W ")] + e + [Lit("15m ")] + [Lit("10M")] + e
           == [Lit("F"), Lit("W "), Lit("15m "), Lit("10M")];
  }

  // ---- LIGHTS05 ----

  const TextLow := "3,2,3,'15110',2,0,CHBLK,23"
  const TextHigh := "3,3,3,'15110',2,-1,CHBLK,23"
  const OrientText := "3,3,3,'15110',3,1,CHBLK,23"

  /** The colour list of a light: COLOUR, or magenta when it has none. */
  function Colours(a: Attrs): seq<int> {
    if a.colour.Some? then ParseListSpec(a.colour) else [12]
  }

  /** The kind of light `LIGHTS05` draws. */
  datatype LightKind =
    | Special(symbol: string)   // CATLIT 8/11, or 9: a single symbol
    | Emergency                 // CATLIT 17: nothing
    | Flare                     // no sector: flare symbol and text
    | AllRound                  // a sector under 1 degree or a full circle
    | SectorLight(sweep: real)  // sector legs and an arc

  /** The angle from SECTR1 clockwise to SECTR2 as `LIGHTS05` measures
    * it, before it tells all-round lights apart. */
  function RawSweep(s1: real, s2: real): real {
    if s1 > s2 then s2 - s1 + 360.0 else s2 - s1
  }

  /** The kind of a light: the CATLIT codes 8 or 11, then 9, then 17 take
    * precedence; otherwise a light without both sector limits is a flare,
    * and one with a sweep in [1, 360) is a sector of that sweep. */
  function LightClass(a: Attrs): (k: LightKind)
    ensures var cl := ParseListSpec(a.catlit);
      HasAny(cl, [8, 11]) ==> k == Special("LIGHTS82")
    ensures var cl := ParseListSpec(a.catlit);
      !HasAny(cl, [8, 11]) && HasAny(cl, [9]) ==> k == Special("LIGHTS81")
    ensures var cl := ParseListSpec(a.catlit);
      !HasAny(cl, [8, 11]) && !HasAny(cl, [9]) && HasAny(cl, [17]) ==> k == Emergency
    ensures var cl := ParseListSpec(a.catlit);
      !HasAny(cl, [8, 11]) && !HasAny(cl, [9]) && !HasAny(cl, [17]) ==>
        (k == Flare <==> Sector(a).None?) &&
        (Sector(a).Some? ==>
           var w := RawSweep(Sector(a).value.0, Sector(a).value.1);
           (k.SectorLight? <==> 1.0 <= w && w != 360.0) &&
           (k.SectorLight? ==> k.sweep == w) &&
           (k == AllRound <==> !(1.0 <= w && w != 360.0)))
    ensures k.SectorLight? ==> Sector(a).Some? && 1.0 <= k.sweep && k.sweep != 360.0
  {
    var catlit := ParseListSpec(a.catlit);
    if HasAny(catlit, [8, 11]) then Special("LIGHTS82")
    else if HasAny(catlit, [9]) then Special("LIGHTS81")
    else if HasAny(catlit, [17]) then Emergency
    else if Sector(a).None? then Flare
    else
      var (s1, s2) := Sector(a).value;
      var sweep := RawSweep(s1, s2);
      if sweep < 1.0 || sweep == 360.0 then AllRound else SectorLight(sweep)
  }

  /** A directional light (CATLIT 1 or 16), drawn along ORIENT. */
  predicate Directional(a: Attrs) {
    HasAny(ParseListSpec(a.catlit), [1, 16])
  }

  /** A white, blue or orange flare that shares its position with another
    * light is tilted to 45 degrees. */
  predicate Flare45(a: Attrs, touched: bool) {
    touched && HasAny(Colours(a), [1, 5, 11])
  }

  /** `LIGHTS05`'s instructions. `touched` says whether the touch pass
    * linked another light at the same position. A light without a sector
    * gets its flare at 135 degrees (45 when tilted) and its description
    * placed accordingly, or for a directional light the flare along ORIENT
    * with the bearing text, or a question mark without ORIENT; an
    * all-round light gets its flare at 135 degrees; a sector light its legs
    * and arc. */
  function Lights05Instr(a: Attrs, touched: bool, mp: Params): (r: seq<Instr>)
    ensures LightClass(a).Special? ==> r == [SY(LightClass(a).symbol)]
    ensures LightClass(a) == Emergency ==> r == []
    ensures LightClass(a).SectorLight? ==>
              (|r| >= 2 && r[|r| - 2] == LS(DASH, 1, "CHBLK") &&
               (!HasAny(ParseListSpec(a.litvis), [3, 7, 8]) ==> r[|r| - 1] == AC(ArcColour(Colours(a)))) &&
               (HasAny(ParseListSpec(a.litvis), [3, 7, 8]) ==> r[|r| - 1] == LS(DASH, 1, "CHBLK")))
  {
    var directional := Directional(a);
    var orient := if directional then a.orient else None;
    var head := if orient.Some? then [LS(DASH, 1, "CHBLK")] else [];
    var colours := Colours(a);
    match LightClass(a)
    case Special(symbol) => [SY(symbol)]
    case Emergency => []
    case Flare =>
      var flare45 := Flare45(a, touched);
      var symbol :=
        if directional then
          if orient.Some? then [SYRot(FlareSymbol(colours), orient.value), TE("%03.0lf deg", "ORIENT", OrientText)]
          else [SY("QUESMRK1")]
        else [SYRot(FlareSymbol(colours), if flare45 then " 45" else "135")];
      (match Litdsn01(a, mp)
       case NoText => head + symbol
       case Text(t) => head + symbol + [TX(t, if flare45 then TextHigh else TextLow)])
    case AllRound =>
      var symbol := [SYRot(FlareSymbol(colours), "135")];
      (match Litdsn01(a, mp)
       case NoText => head + symbol
       case Text(t) => head + symbol + [TX(t, TextLow)])
    case SectorLight(_) =>
      var litvis := ParseListSpec(a.litvis);
      var arc := if HasAny(litvis, [3, 7, 8]) then LS(DASH, 1, "CHBLK") else AC(ArcColour(colours));
      head + [LS(DASH, 1, "CHBLK"), arc]
  }

  /** A light without a sector and without a direction: its flare at 135
    * degrees, or at 45 when tilted, then its description, raised for a
    * tilted flare. */
  lemma FlareLight(a: Attrs, touched: bool, mp: Params)
    requires LightClass(a) == Flare && !Directional(a)
    ensures var r := Lights05Instr(a, touched, mp);
      |r| == 1 + (if Litdsn01(a, mp).Text? then 1 else 0) &&
      r[0] == SYRot(FlareSymbol(Colours(a)), if Flare45(a, touched) then " 45" else "135") &&
      (Litdsn01(a, mp).Text? ==>
         r[1] == TX(Litdsn01(a, mp).parts, if Flare45(a, touched) then TextHigh else TextLow))
  {
  }

  /** A directional light without a sector: its leg, its flare along ORIENT
    * and the bearing text, or only a question mark without ORIENT; then its
    * description. */
  lemma DirectionalLight(a: Attrs, touched: bool, mp: Params)
    requires LightClass(a) == Flare && Directional(a)
    ensures var r := Lights05Instr(a, touched, mp);
      a.orient.None? ==>
        |r| == 1 + (if Litdsn01(a, mp).Text? then 1 else 0) && r[0] == SY("QUESMRK1")
    ensures var r := Lights05Instr(a, touched, mp);
      a.orient.Some? ==>
        |r| == 3 + (if Litdsn01(a, mp).Text? then 1 else 0) &&
        r[..3] == [LS(DASH, 1, "CHBLK"), SYRot(FlareSymbol(Colours(a)), a.orient.value),
                   TE("%03.0lf deg", "ORIENT", OrientText)]
  {
  }

  /** An all-round light: the leg of a directional light with ORIENT, its
    * flare at 135 degrees whatever touches it, then its description. */
  lemma AllRoundLight(a: Attrs, touched: bool, mp: Params)
    requires LightClass(a) == AllRound
    ensures var r, h := Lights05Instr(a, touched, mp), if Directional(a) && a.orient.Some? then 1 else 0;
      |r| == h + 1 + (if Litdsn01(a, mp).Text? then 1 else 0) &&
      r[h] == SYRot(FlareSymbol(Colours(a)), "135") &&
      (Litdsn01(a, mp).Text? ==> r[h + 1] == TX(Litdsn01(a, mp).parts, TextLow))
  {
  }

  // ---- the sector-arc flags ----

  /** Whether `chain` is the list of lights reached from `g` through the
    * touch links, in order, ending in a light with no link. */
  predicate LightChain(g: Geo, chain: seq<Geo>)
    reads g, chain
  {
    (chain == [] ==> g.touchLights == null) &&
    (chain != [] ==> g.touchLights == chain[0] && chain[|chain| - 1].touchLights == null) &&
    forall k :: 0 <= k < |chain| - 1 ==> chain[k].touchLights == chain[k + 1]
  }

  predicate Distinct(chain: seq<Geo>) {
    forall i, j :: 0 <= i < j < |chain| ==> chain[i] != chain[j]
  }

  /** The flag of a light after one comparison with a touching light. */
  function AfterCompare(flag: ArcFlag, cmp: int): ArcFlag {
    if cmp == 1 then ArcYes else if cmp == -1 then ArcNo else flag
  }

  /** The flag a light ends with after being compared with `others` in
    * turn, starting from "N". */
  function ArcFold(a: Attrs, others: seq<Geo>): ArcFlag
    decreases |others|
  {
    if others == [] then ArcNo
    else AfterCompare(ArcFold(a, others[..|others| - 1]), CmpSector(a, others[|others| - 1].attrs))
  }

  /** The flag a touching light ends with: "N" when the light is smaller,
    * "Y" when it is larger, unchanged when they do not overlap. */
  function TouchedFlag(cmp: int, flag: ArcFlag): ArcFlag {
    if cmp == 1 then ArcNo else if cmp == -1 then ArcYes else flag
  }

  /** A light extends its arc exactly when some touching light has a larger
    * overlapping sector and no later light in the chain overlaps it. */
  lemma ArcFoldYes(a: Attrs, others: seq<Geo>)
    ensures ArcFold(a, others) == ArcYes <==>
      exists i :: 0 <= i < |others| && CmpSector(a, others[i].attrs) == 1 &&
        forall j :: i < j < |others| ==> CmpSector(a, others[j].attrs) == 0
  {
    if ArcFold(a, others) == ArcYes {
      ArcYesWitness(a, others);
    }
    if exists i :: 0 <= i < |others| && CmpSector(a, others[i].attrs) == 1 &&
         forall j :: i < j < |others| ==> CmpSector(a, others[j].attrs) == 0 {
      var i :| 0 <= i < |others| && CmpSector(a, others[i].attrs) == 1 &&
        forall j :: i < j < |others| ==> CmpSector(a, others[j].attrs) == 0;
      ArcYesFromWitness(a, others, i);
    }
  }

  /** A "Y" flag comes from the last comparison that was not 0, and that
    * one was +1. */
  lemma {:induction false} ArcYesWitness(a: Attrs, others: seq<Geo>)
    requires ArcFold(a, others) == ArcYes
    ensures exists i :: (0 <= i < |others| && CmpSector(a, others[i].attrs) == 1 &&
      forall j :: i < j < |others| ==> CmpSector(a, others[j].attrs) == 0)
    decreases |others|
  {
    var n := |others| - 1;
    var front := others[..n];
    if CmpSector(a, others[n].attrs) != 1 {
      assert CmpSector(a, others[n].attrs) == 0;
      ArcYesWitness(a, front);
      var i :| 0 <= i < |front| && CmpSector(a, front[i].attrs) == 1 &&
        forall j :: i < j < |front| ==> CmpSector(a, front[j].attrs) == 0;
      assert others[i] == front[i];
      forall j | i < j < |others| ensures CmpSector(a, others[j].attrs) == 0 {
        if j < n { assert others[j] == front[j]; }
      }
    }
  }

  /** A +1 comparison followed only by 0s leaves the flag at "Y". */
  lemma {:induction false} ArcYesFromWitness(a: Attrs, others: seq<Geo>, i: nat)
    requires i < |others| && CmpSector(a, others[i].attrs) == 1
    requires forall j :: i < j < |others| ==> CmpSector(a, others[j].attrs) == 0
    ensures ArcFold(a, others) == ArcYes
    decreases |others|
  {
    var n := |others| - 1;
    if i < n {
      var front := others[..n];
      assert front[i] == others[i];
      forall j | i < j < |front| ensures CmpSector(a, front[j].attrs) == 0 {
        assert front[j] == others[j];
      }
      ArcYesFromWitness(a, front, i);
    }
  }

  /** The touch links and SCAMIN of a feature, the state the arc loop
    * leaves alone. */
  function Links(o: Geo): (Geo?, Geo?, Geo?, Geo?, Geo?, Scamin)
    reads o
  {
    (o.touchTopmar, o.touchLights, o.touchDepcnt, o.touchUdwhaz, o.touchDepval, o.scamin)
  }

  /** One round of the arc loop: the smaller of two overlapping sectors
    * gets "Y" and the other "N"; lights that do not overlap keep theirs. */
  method CompareArcs(g: Geo, t: Geo)
    requires g != t
    modifies g, t
    ensures g.arc == AfterCompare(old(g.arc), CmpSector(g.attrs, t.attrs))
    ensures t.arc == TouchedFlag(CmpSector(g.attrs, t.attrs), old(t.arc))
    ensures Links(g) == old(Links(g)) && Links(t) == old(Links(t))
  {
    var cmp := CmpSector(g.attrs, t.attrs);
    if cmp == 1 {
      g.arc := ArcYes;
      t.arc := ArcNo;
    }
    if cmp == -1 {
      g.arc := ArcNo;
      t.arc := ArcYes;
    }
  }

  /** The arc loop of `LIGHTS05`, run when the light's flag is unset or
    * "N": the light starts at "N" and is compared with every light of its
    * touch chain; the smaller sector of an overlapping pair gets "Y" and
    * the other "N". */
  method UpdateArcs(g: Geo, ghost chain: seq<Geo>)
    requires LightChain(g, chain) && Distinct(chain) && g !in chain
    modifies g, chain
    ensures g.arc == ArcFold(g.attrs, chain)
    ensures forall k :: 0 <= k < |chain| ==>
              chain[k].arc == TouchedFlag(CmpSector(g.attrs, chain[k].attrs), old(chain[k].arc))
    ensures LightChain(g, chain)
    ensures Links(g) == old(Links(g))
    ensures forall k :: 0 <= k < |chain| ==> chain[k].scamin == old(chain[k].scamin)
  {
    g.arc := ArcNo;
    var t := g.touchLights;
    ghost var i := 0;
    while t != null
      invariant 0 <= i <= |chain|
      invariant t == (if i < |chain| then chain[i] else null)
      invariant g.arc == ArcFold(g.attrs, chain[..i])
      invariant forall k :: 0 <= k < i ==>
                  chain[k].arc == TouchedFlag(CmpSector(g.attrs, chain[k].attrs), old(chain[k].arc))
      invariant forall k :: i <= k < |chain| ==> chain[k].arc == old(chain[k].arc)
      invariant LightChain(g, chain)
      invariant Links(g) == old(Links(g))
      invariant forall k :: 0 <= k < |chain| ==> chain[k].scamin == old(chain[k].scamin)
      decreases |chain| - i
    {
      CompareArcs(g, t);
      assert chain[..i + 1][..i] == chain[..i];
      t := t.touchLights;
      i := i + 1;
    }
    assert chain[..i] == chain;
  }

  /** `LIGHTS05`: the instructions, and for a sector light whose flag is
    * unset or "N" the arc flags of it and its touch chain. */
  method Lights05(g: Geo, mp: Params, ghost chain: seq<Geo>) returns (r: seq<Instr>)
    requires LightChain(g, chain) && Distinct(chain) && g !in chain
    modifies g, chain
    ensures r == Lights05Instr(g.attrs, g.touchLights != null, mp)
    ensures LightClass(g.attrs).SectorLight? && old(g.arc) != ArcYes ==>
              g.arc == ArcFold(g.attrs, chain) &&
              forall k :: 0 <= k < |chain| ==>
                chain[k].arc == TouchedFlag(CmpSector(g.attrs, chain[k].attrs), old(chain[k].arc))
    ensures !(LightClass(g.attrs).SectorLight? && old(g.arc) != ArcYes) ==>
              g.arc == old(g.arc) && forall k :: 0 <= k < |chain| ==> chain[k].arc == old(chain[k].arc)
    ensures LightChain(g, chain)
    ensures Links(g) == old(Links(g))
    ensures forall k :: 0 <= k < |chain| ==> chain[k].scamin == old(chain[k].scamin)
  {
    r := Lights05Instr(g.attrs, g.touchLights != null, mp);
    if LightClass(g.attrs).SectorLight? && g.arc != ArcYes {
      UpdateArcs(g, chain);
    }
  }
}
