/** Restricted areas: `_RESCSP01` (one symbol for a RESTRN list),
  * `RESTRN01` (its signpost) and `RESARE02` (restricted areas, where
  * CATREA also weighs in). RESTRN groups, most significant first: entry
  * (7, 8, 14), anchoring (1, 2), fishing (3 to 6); 9 to 13 are "other"
  * restrictions. */
module Restrictions {
  import opened Basics
  import opened CodedList
  import opened Instructions
  import opened Chart

  const ENTRY: seq<int> := [7, 8, 14]
  const ANCHORING: seq<int> := [1, 2]
  const FISHING: seq<int> := [3, 4, 5, 6]
  const ANCHORING_OR_FISHING: seq<int> := [1, 2, 3, 4, 5, 6]
  const OTHER: seq<int> := [9, 10, 11, 12, 13]
  /** CATREA categories that count like a further traffic restriction. */
  const CATREA_STRICT: seq<int> := [1, 8, 9, 12, 14, 19, 21, 25]
  /** CATREA categories that count like an "other" restriction. */
  const CATREA_INFO: seq<int> := [4, 5, 6, 7, 10, 18, 20, 22, 23, 24]

  /** The symbol `_RESCSP01` picks for a RESTRN code buffer. */
  function RescspSymbol(restrn: seq<int>): string {
    if HasAny(restrn, ENTRY) then
      if HasAny(restrn, ANCHORING_OR_FISHING) then "ENTRES61"
      else if HasAny(restrn, OTHER) then "ENTRES71"
      else "ENTRES51"
    else if HasAny(restrn, ANCHORING) then
      if HasAny(restrn, FISHING) then "ACHRES61"
      else if HasAny(restrn, OTHER) then "ACHRES71"
      else "ACHRES51"
    else if HasAny(restrn, FISHING) then
      if HasAny(restrn, OTHER) then "FSHRES71" else "FSHRES51"
    else if HasAny(restrn, OTHER) then "INFARE51"
    else "RSRDEF51"
  }

  /** `_RESCSP01`: exactly one symbol for a RESTRN text. */
  function Rescsp01(restrn: string): (r: seq<Instr>)
    ensures |r| == 1 && r[0].SY?
  {
    [SY(RescspSymbol(ParseListSpec(Some(restrn))))]
  }

  /** `RESTRN01`: the restriction symbol, for objects that have RESTRN. */
  function Restrn01(a: Attrs): (r: Option<seq<Instr>>)
    ensures r.Some? <==> a.restrn.Some?
    ensures r.Some? ==> |r.value| == 1
  {
    if a.restrn.Some? then Some(Rescsp01(a.restrn.value)) else None
  }

  /** The boundary of a restricted area: a symbolized line, or a plain
    * dashed magenta line when symbolized boundaries are off. */
  function Boundary(mp: Params, complex: string): Instr {
    if IsOn(mp.symbolizedBoundaries) then LC(complex) else LS(DASH, 2, "CHMGD")
  }

  /** `RESARE02`: display priority (for traffic restrictions), boundary and
    * one symbol for a restricted area. CATREA is read in every branch; see
    * `Resare02AsWritten` for the source's branch without RESTRN. */
  function Resare02(a: Attrs, mp: Params): (r: seq<Instr>)
    ensures 2 <= |r| && |r| == (if r[0].OP? then 3 else 2)
    ensures r[|r| - 2].LC? || r[|r| - 2] == LS(DASH, 2, "CHMGD")
    ensures r[|r| - 1].SY?
  {
    var restrn := ParseListSpec(a.restrn);
    var catrea := ParseListSpec(a.catrea);
    var strict := HasAny(catrea, CATREA_STRICT);
    var info := HasAny(catrea, CATREA_INFO);
    var other := HasAny(restrn, OTHER);
    if a.restrn.Some? then
      if HasAny(restrn, ENTRY) then
        var symb :=
          if HasAny(restrn, ANCHORING_OR_FISHING) || strict then "ENTRES61"
          else if other || info then "ENTRES71"
          else "ENTRES51";
        [OP("6---"), Boundary(mp, "CTYARE51"), SY(symb)]
      else if HasAny(restrn, ANCHORING) then
        var symb :=
          if HasAny(restrn, FISHING) || strict then "ACHRES61"
          else if other || info then "ACHRES71"
          else "ACHRES51";
        [OP("6---"), Boundary(mp, "ACHRES51"), SY(symb)]
      else if HasAny(restrn, FISHING) then
        var symb :=
          if strict then "FSHRES51"
          else if other || info then "FSHRES71"
          else "FSHRES51";
        [OP("6---"), Boundary(mp, "FSHRES51"), SY(symb)]
      else
        [Boundary(mp, "CTYARE51"), SY(if other then "INFARE51" else "RSRDEF51")]
    else
      var symb :=
        if strict then (if info then "CTYARE71" else "CTYARE51")
        else if info then "INFARE71"
        else "RSRDEF51";
      [Boundary(mp, "CTYARE51"), SY(symb)]
  }

  /** `RESARE02` as the source writes it: the CATREA buffer is filled only
    * when RESTRN is present, so without RESTRN it stays empty and the
    * category never counts. */
  function Resare02AsWritten(a: Attrs, mp: Params): (r: seq<Instr>)
    ensures a.restrn.Some? ==> r == Resare02(a, mp)
    ensures a.restrn.None? ==> r == [Boundary(mp, "CTYARE51"), SY("RSRDEF51")]
  {
    if a.restrn.Some? then Resare02(a, mp) else Resare02(a.(catrea := None), mp)
  }

  /** The branch without RESTRN as written: a military area (CATREA 1)
    * gets RSRDEF51, where reading its category gives CTYARE51. */
  lemma Resare02AsWrittenIgnoresCategory(mp: Params)
    ensures var a := NoAttrs.(catrea := Some("1"));
      Resare02AsWritten(a, mp) == [Boundary(mp, "CTYARE51"), SY("RSRDEF51")] &&
      Resare02(a, mp) == [Boundary(mp, "CTYARE51"), SY("CTYARE51")]
  {
    var a := NoAttrs.(catrea := Some("1"));
    assert ParseListSpec(a.catrea) == [1] by { DecodeJoin([1]); assert Join([1]) == "1"; }
  }

  /** Whether a set of codes holds one of a group's. */
  predicate Meets(codes: set<int>, group: set<int>) {
    codes * group != {}
  }

  /** `_strpbrk` against a list without zeros asks whether the buffer's
    * codes meet the group of codes the list holds. */
  lemma HasAnyGroup(s: seq<int>, list: seq<int>, group: set<int>)
    requires forall i :: 0 <= i < |list| ==> list[i] != 0
    requires forall c :: c in group <==> c in list
    ensures HasAny(s, list) <==> Meets(CodeSet(s), group)
  {
    HasAnyCodeSet(s, list);
    if HasAny(s, list) {
      var c :| c in CodeSet(s) && InList(c, list);
      InListMembership(c, list);
      assert c in CodeSet(s) * group;
    }
    if Meets(CodeSet(s), group) {
      var c :| c in CodeSet(s) * group;
      InListMembership(c, list);
    }
  }

  /** The five RESTRN groups `_RESCSP01` tests, as sets of codes. */
  lemma GroupsMeet(restrn: seq<int>)
    ensures HasAny(restrn, ENTRY) <==> Meets(CodeSet(restrn), {7, 8, 14})
    ensures HasAny(restrn, ANCHORING) <==> Meets(CodeSet(restrn), {1, 2})
    ensures HasAny(restrn, FISHING) <==> Meets(CodeSet(restrn), {3, 4, 5, 6})
    ensures HasAny(restrn, ANCHORING_OR_FISHING) <==> Meets(CodeSet(restrn), {1, 2, 3, 4, 5, 6})
    ensures HasAny(restrn, OTHER) <==> Meets(CodeSet(restrn), {9, 10, 11, 12, 13})
  {
    HasAnyGroup(restrn, ENTRY, {7, 8, 14});
    HasAnyGroup(restrn, ANCHORING, {1, 2});
    HasAnyGroup(restrn, FISHING, {3, 4, 5, 6});
    HasAnyGroup(restrn, ANCHORING_OR_FISHING, {1, 2, 3, 4, 5, 6});
    HasAnyGroup(restrn, OTHER, {9, 10, 11, 12, 13});
  }

  /** The whole `_RESCSP01` table over the set of RESTRN codes: the most
    * significant group present picks the symbol family (entry 7, 8, 14;
    * then anchoring 1, 2; then fishing 3 to 6), and the less significant
    * groups present pick the 61 or 71 variant; without any of the three
    * groups, an "other" code 9 to 13 gives INFARE51 and anything else
    * RSRDEF51. */
  lemma RescspPrecedence(restrn: seq<int>)
    ensures var codes, r := CodeSet(restrn), RescspSymbol(restrn);
      Meets(codes, {7, 8, 14}) ==>
        (r == "ENTRES61" <==> Meets(codes, {1, 2, 3, 4, 5, 6})) &&
        (r == "ENTRES71" <==> !Meets(codes, {1, 2, 3, 4, 5, 6}) && Meets(codes, {9, 10, 11, 12, 13})) &&
        (r == "ENTRES51" <==> !Meets(codes, {1, 2, 3, 4, 5, 6}) && !Meets(codes, {9, 10, 11, 12, 13}))
    ensures var codes, r := CodeSet(restrn), RescspSymbol(restrn);
      !Meets(codes, {7, 8, 14}) && Meets(codes, {1, 2}) ==>
        (r == "ACHRES61" <==> Meets(codes, {3, 4, 5, 6})) &&
        (r == "ACHRES71" <==> !Meets(codes, {3, 4, 5, 6}) && Meets(codes, {9, 10, 11, 12, 13})) &&
        (r == "ACHRES51" <==> !Meets(codes, {3, 4, 5, 6}) && !Meets(codes, {9, 10, 11, 12, 13}))
    ensures var codes, r := CodeSet(restrn), RescspSymbol(restrn);
      !Meets(codes, {7, 8, 14}) && !Meets(codes, {1, 2}) && Meets(codes, {3, 4, 5, 6}) ==>
        (r == "FSHRES71" <==> Meets(codes, {9, 10, 11, 12, 13})) &&
        (r == "FSHRES51" <==> !Meets(codes, {9, 10, 11, 12, 13}))
    ensures var codes, r := CodeSet(restrn), RescspSymbol(restrn);
      !Meets(codes, {7, 8, 14}) && !Meets(codes, {1, 2}) && !Meets(codes, {3, 4, 5, 6}) ==>
        (r == "INFARE51" <==> Meets(codes, {9, 10, 11, 12, 13})) &&
        (r == "RSRDEF51" <==> !Meets(codes, {9, 10, 11, 12, 13}))
  {
    GroupsMeet(restrn);
  }

  /** The two CATREA groups `RESARE02` tests, as sets of codes. */
  lemma CategoriesMeet(catrea: seq<int>)
    ensures HasAny(catrea, CATREA_STRICT) <==> Meets(CodeSet(catrea), {1, 8, 9, 12, 14, 19, 21, 25})
    ensures HasAny(catrea, CATREA_INFO) <==> Meets(CodeSet(catrea), {4, 5, 6, 7, 10, 18, 20, 22, 23, 24})
  {
    HasAnyGroup(catrea, CATREA_STRICT, {1, 8, 9, 12, 14, 19, 21, 25});
    HasAnyGroup(catrea, CATREA_INFO, {4, 5, 6, 7, 10, 18, 20, 22, 23, 24});
  }

  /** Whether CATREA names a category that counts like a further traffic
    * restriction. */
  predicate Strict(a: Attrs) {
    Meets(CodeSet(ParseListSpec(a.catrea)), {1, 8, 9, 12, 14, 19, 21, 25})
  }

  /** Whether CATREA names a category that counts like an "other"
    * restriction. */
  predicate Informative(a: Attrs) {
    Meets(CodeSet(ParseListSpec(a.catrea)), {4, 5, 6, 7, 10, 18, 20, 22, 23, 24})
  }

  /** The whole `RESARE02` symbol table over the sets of RESTRN and CATREA
    * codes: the most significant RESTRN group picks the family as in
    * `_RESCSP01`; a strict category counts like a less significant traffic
    * restriction (the 61 variant, except that fishing keeps FSHRES51) and
    * an informative one like an "other" restriction (the 71 variant).
    * With RESTRN but none of its traffic groups, CATREA is not consulted;
    * without RESTRN, CATREA alone picks the symbol. */
  lemma Resare02Symbols(a: Attrs, mp: Params)
    ensures var codes, r := CodeSet(ParseListSpec(a.restrn)), Resare02(a, mp);
      a.restrn.Some? && Meets(codes, {7, 8, 14}) ==>
        (r[|r| - 1] == SY("ENTRES61") <==> Meets(codes, {1, 2, 3, 4, 5, 6}) || Strict(a)) &&
        (r[|r| - 1] == SY("ENTRES71") <==>
           !Meets(codes, {1, 2, 3, 4, 5, 6}) && !Strict(a) && (Meets(codes, {9, 10, 11, 12, 13}) || Informative(a))) &&
        (r[|r| - 1] == SY("ENTRES51") <==>
           !Meets(codes, {1, 2, 3, 4, 5, 6}) && !Strict(a) && !Meets(codes, {9, 10, 11, 12, 13}) && !Informative(a))
    ensures var codes, r := CodeSet(ParseListSpec(a.restrn)), Resare02(a, mp);
      a.restrn.Some? && !Meets(codes, {7, 8, 14}) && Meets(codes, {1, 2}) ==>
        (r[|r| - 1] == SY("ACHRES61") <==> Meets(codes, {3, 4, 5, 6}) || Strict(a)) &&
        (r[|r| - 1] == SY("ACHRES71") <==>
           !Meets(codes, {3, 4, 5, 6}) && !Strict(a) && (Meets(codes, {9, 10, 11, 12, 13}) || Informative(a))) &&
        (r[|r| - 1] == SY("ACHRES51") <==>
           !Meets(codes, {3, 4, 5, 6}) && !Strict(a) && !Meets(codes, {9, 10, 11, 12, 13}) && !Informative(a))
    ensures var codes, r := CodeSet(ParseListSpec(a.restrn)), Resare02(a, mp);
      a.restrn.Some? && !Meets(codes, {7, 8, 14}) && !Meets(codes, {1, 2}) && Meets(codes, {3, 4, 5, 6}) ==>
        (r[|r| - 1] == SY("FSHRES71") <==> !Strict(a) && (Meets(codes, {9, 10, 11, 12, 13}) || Informative(a))) &&
        (r[|r| - 1] == SY("FSHRES51") <==> Strict(a) || (!Meets(codes, {9, 10, 11, 12, 13}) && !Informative(a)))
    ensures var codes, r := CodeSet(ParseListSpec(a.restrn)), Resare02(a, mp);
      a.restrn.Some? && !Meets(codes, {7, 8, 14}) && !Meets(codes, {1, 2}) && !Meets(codes, {3, 4, 5, 6}) ==>
        r == [Boundary(mp, "CTYARE51"), SY(if Meets(codes, {9, 10, 11, 12, 13}) then "INFARE51" else "RSRDEF51")]
    ensures var r := Resare02(a, mp);
      a.restrn.None? ==>
        r[0] == Boundary(mp, "CTYARE51") &&
        (r[1] == SY("CTYARE71") <==> Strict(a) && Informative(a)) &&
        (r[1] == SY("CTYARE51") <==> Strict(a) && !Informative(a)) &&
        (r[1] == SY("INFARE71") <==> !Strict(a) && Informative(a)) &&
        (r[1] == SY("RSRDEF51") <==> !Strict(a) && !Informative(a))
  {
    GroupsMeet(ParseListSpec(a.restrn));
    CategoriesMeet(ParseListSpec(a.catrea));
  }

  /** The symbol depends only on which RESTRN codes are present, not on
    * their order or repetition. */
  lemma RescspOrderFree(r1: seq<int>, r2: seq<int>)
    requires CodeSet(r1) == CodeSet(r2)
    ensures RescspSymbol(r1) == RescspSymbol(r2)
  {
    SameCodes(r1, r2, ENTRY);
    SameCodes(r1, r2, ANCHORING);
    SameCodes(r1, r2, FISHING);
    SameCodes(r1, r2, ANCHORING_OR_FISHING);
    SameCodes(r1, r2, OTHER);
  }

  /** A restricted area without CATREA gets the very symbol `_RESCSP01`
    * gives its RESTRN list; without RESTRN it gets no priority. */
  lemma Resare02AgreesWithRescsp(a: Attrs, mp: Params)
    requires a.catrea.None?
    ensures a.restrn.Some? ==> Resare02(a, mp)[|Resare02(a, mp)| - 1] == Rescsp01(a.restrn.value)[0]
    ensures a.restrn.None? ==> Resare02(a, mp) == [Boundary(mp, "CTYARE51"), SY("RSRDEF51")]
  {
  }

  /** RESARE02 raises the display priority exactly when RESTRN holds a
    * traffic restriction, and draws the boundary as a symbolized line
    * exactly when symbolized boundaries are on. */
  lemma Resare02Priority(a: Attrs, mp: Params)
    ensures var r := Resare02(a, mp);
      (r[0] == OP("6---")) <==>
      (a.restrn.Some? && (HasAny(ParseListSpec(a.restrn), ENTRY) ||
                          HasAny(ParseListSpec(a.restrn), ANCHORING_OR_FISHING)))
    ensures var r := Resare02(a, mp);
      var line := if r[0].OP? then r[1] else r[0];
      line.LC? <==> IsOn(mp.symbolizedBoundaries)
  {
    var restrn := ParseListSpec(a.restrn);
    HasAnyCodeSet(restrn, ANCHORING_OR_FISHING);
    HasAnyCodeSet(restrn, ANCHORING);
    HasAnyCodeSet(restrn, FISHING);
    forall c ensures InList(c, ANCHORING_OR_FISHING) <==> InList(c, ANCHORING) || InList(c, FISHING) {
      InListMembership(c, ANCHORING_OR_FISHING);
      InListMembership(c, ANCHORING);
      InListMembership(c, FISHING);
    }
  }

  /** A fishing restriction in an area whose CATREA is a stricter category
    * keeps the plain fishing symbol, FSHRES51, not a "61" variant. */
  lemma FishingWithStrictCategory(mp: Params)
    ensures Resare02(NoAttrs.(restrn := Some("3"), catrea := Some("1")), mp)
         == [OP("6---"), Boundary(mp, "FSHRES51"), SY("FSHRES51")]
  {
    var a := NoAttrs.(restrn := Some("3"), catrea := Some("1"));
    assert ParseListSpec(a.restrn) == [3] by { DecodeJoin([3]); assert Join([3]) == "3"; }
    assert ParseListSpec(a.catrea) == [1] by { DecodeJoin([1]); assert Join([1]) == "1"; }
  }
}
