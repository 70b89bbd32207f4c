# S-52 conditional symbology, modelled in Dafny

This project models the conditional symbology engine of OpENCview, `S52CS.c`.
The engine implements the conditional symbology procedures of the IHO S-52
Presentation Library (edition 3.2, section 12) over IHO S-57 attribute codes.
Each procedure looks at a chart feature's attributes and at its neighbours,
and yields the drawing instructions that depend on them: a colour fill, a
symbol, a line style, a text. The procedures themselves are pure, but they
update three kinds of state on the feature: the touch links, the display
scale minimum (SCAMIN), and the sector-arc flag.

The model has these parts:

- `Basics`, `Instructions` and `Chart` hold the vocabulary:
  - the source's integer truncation;
  - the drawing instructions, kept as a datatype rather than as the `;`-joined
    text;
  - the feature, a class: its constant attributes and geometry, and its
    mutable touch links, SCAMIN and `_extend_arc_radius` flag;
  - the mariner's parameters.
- `CodedList` covers `_parseList` and `_strpbrk`:
  - `_parseList` is an imperative fill of a 16-slot buffer, proved against a
    decoding function;
  - `_strpbrk` is a scan that stops at the buffer's zero terminator.
- `CrossReference` is the two-pass index of a cell:
  - `S52_CS_add` files features into five lists;
  - `S52_CS_touch` links topmarks to platforms, buoys to lights, lights to
    lights, contours to depth areas, and hazards to the areas around them.

  Every scan loop is proved against a fold over its list, and the folds carry
  the promised properties.
- The procedure modules:
  - `Restrictions`: `_RESCSP01`, `RESARE02`, `RESTRN01`;
  - `DepthAreas`: `_SEABED01`, `DEPARE01`;
  - `Quality`: `_QUAPNT01`, `_QUALIN01`, `QUAPOS01`, `SLCONS03`;
  - `Soundings`: `_SNDFRM02`, `SOUNDG02`;
  - `Hazards`: `_DEPVAL01`, `_UDWHAZ03`, `OBSTRN04`, `WRECKS02`;
  - `Contours`: `_DEPCNT02_isSafetyCnt`, `DEPCNT02`;
  - `Lights`: `_LIGHTS05_getSYcol`, `_LIGHTS05_cmpSector`, `LIGHTS05` and its
    arc loop, `_LITDSN01`;
  - `Topmarks`: `TOPMAR01`.
- `CondTable` is the jump table `S52_CS_condTable`:
  - lookup by name;
  - the alias procedures and the procedure each stands for;
  - `QUESMRK1`;
  - a `Run` method, which calls a procedure on a feature and stores the
    SCAMIN it sets.

Conventions of the model:

- An unknown depth is the source's sentinel, -1000.0.
- Numeric attributes come already decoded, as absent, the empty-number marker,
  or a value. The usual attribute lookup treats the marker as absent; the
  "all" lookup used by the touch pass sees it.
- Single-letter codes are the first character of the attribute text, since
  that is all the source reads.
- Where the source appends to a string or returns `NULL`, the model returns
  `Option<seq<Instr>>`.
- Where a procedure also changes SCAMIN, it returns a `Drawn` value: the
  instructions and the SCAMIN it leaves (`Loaded`, `Reset` or `Infinite`).

## Model

| member | source | states |
|---|---|---|
| Basics.Trunc | S52CS.c:2946-2956 | the C `(int)` cast of a real truncates toward zero: within 1 of its argument and not beyond it |
| Basics.AbsReal | S52CS.c:2946-2956 | `fabs`: non-negative and equal to the value or its negation |
| Basics.AbsInt | S52CS.c:2946-2956 | `abs` of the leading digit: non-negative and equal to the value or its negation |
| Basics.Decimal | S52CS.c:2946-3032 | the decimal spelling of a glyph number: non-empty digits that read back as the number, one digit exactly below 10 |
| Instructions.Render | S52CS.c:2694-2698 | each instruction is one command word: `;`, its two-letter command, then its arguments in parentheses |
| CodedList.RunEnd | S52CS.c:97-99 | skipping digits stops at the first non-digit or at the end, having passed only digits |
| CodedList.FieldAt | S52CS.c:95 | the stored code is the `unsigned char` cast of the field's value, so it lies in 0..255 |
| CodedList.DecodeAt | S52CS.c:88-101 | a non-empty string always yields at least one code |
| CodedList.ParseStep | S52CS.c:88-101 | one round of the fill loop stores the field's code and moves past the comma, or ends at the terminator |
| CodedList.SkipDigits | S52CS.c:97-99 | the digit-skipping loop stops where `RunEnd` says |
| CodedList.ParseList | S52CS.c:77-106 | `_parseList` stores at most 15 codes, exactly the decoded list (empty for a missing or empty text), writes a 0 terminator at the returned count and leaves the rest of the buffer alone |
| CodedList.FillCodes | S52CS.c:88-104 | the fill loop on a non-empty text stores the first min(decoded count, 15) codes of the decoded list and leaves the other slots alone |
| CodedList.StoreField | S52CS.c:92-101 | one round stores the field's code in the next slot, touches no other slot, and hands on the position after the digits together with what the rest decodes to |
| CodedList.RunEndShift | S52CS.c:97-99 | digit runs are found the same way behind any prefix |
| CodedList.DecodeAtShift | S52CS.c:88-101 | decoding a suffix does not depend on what comes before it |
| CodedList.RunOfDecimal | S52CS.c:97-99 | the digit run of a printed code ends where the printed number ends |
| CodedList.DecodeDigits | S52CS.c:88-101 | the printed digits of a code below 256 decode to that one code |
| CodedList.DecodeField | S52CS.c:88-101 | a printed code followed by a comma decodes to itself, and decoding goes on with the rest |
| CodedList.DecodeJoin | S52CS.c:88-101 | decoding a comma-joined list of codes below 256 gives the list back |
| CodedList.ParseListJoin | S52CS.c:77-106 | round trip: `_parseList` of a comma-joined list of 1 to 15 codes below 256 yields those codes |
| CodedList.InListMembership | S52CS.c:62-75 | for a list without zeros, the terminator-bounded membership test is ordinary membership |
| CodedList.HasAnyIff | S52CS.c:62-75 | `_strpbrk` finds a code iff some code before the first zero is in the list |
| CodedList.Strpbrk | S52CS.c:62-75 | the scan returns the position of the first code, before any zero, that is in the list, and returns none iff there is no such code |
| CodedList.HasAnyCodeSet | S52CS.c:62-75 | whether a match is found depends only on the set of codes before the terminator |
| CodedList.SameCodes | S52CS.c:62-75 | two buffers with the same codes answer every `_strpbrk` query alike |
| CodedList.EmptyFieldHidesRest | S52CS.c:88-104 | an empty field stores a 0, which hides every later code from `_strpbrk` ("4,,7" does not match 7) |
| Restrictions.Rescsp01 | S52CS.c:2750-2800 | `_RESCSP01` emits exactly one symbol |
| Restrictions.GroupsMeet | S52CS.c:2759-2797 | each `_strpbrk` test of `_RESCSP01` asks whether the RESTRN codes include one of its group: 7, 8, 14; 1, 2; 3 to 6; 1 to 6; 9 to 13 |
| Restrictions.RescspPrecedence | S52CS.c:2759-2797 | the whole table over the set of RESTRN codes. With 7, 8 or 14: ENTRES61 iff one of 1 to 6 is present, else ENTRES71 iff one of 9 to 13 is, else ENTRES51. Otherwise with 1 or 2: ACHRES61 iff one of 3 to 6, else ACHRES71 iff one of 9 to 13, else ACHRES51. Otherwise with 3 to 6: FSHRES71 iff one of 9 to 13, else FSHRES51. Otherwise INFARE51 iff one of 9 to 13, else RSRDEF51 |
| Restrictions.RescspOrderFree | S52CS.c:2750-2800 | the restriction symbol depends only on the set of RESTRN codes, not on their order |
| Restrictions.Restrn01 | S52CS.c:2716-2748 | RESTRN01 draws one symbol iff RESTRN is present, and nothing otherwise |
| Restrictions.Resare02 | S52CS.c:2548-2701 | RESARE02 draws an optional display priority, then the boundary (a symbolized line or the dashed magenta line), then exactly one symbol |
| Restrictions.Resare02AsWritten | S52CS.c:2573-2692 | as written, the CATREA buffer is filled only when RESTRN is present, so without RESTRN the area always gets RSRDEF51 (see Findings) |
| Restrictions.Resare02AsWrittenIgnoresCategory | S52CS.c:2671-2692 | as written, a military area (CATREA 1) without RESTRN gets RSRDEF51, where the corrected procedure gives CTYARE51 (see Findings) |
| Restrictions.HasAnyGroup | S52CS.c:62-75 | `_strpbrk` against a list without zeros asks whether the buffer's codes meet the group of codes that list holds |
| Restrictions.CategoriesMeet | S52CS.c:2584-2691 | the two CATREA tests of RESARE02 ask whether the codes include one of 1, 8, 9, 12, 14, 19, 21, 25 (strict) or one of 4 to 7, 10, 18, 20, 22 to 24 (informative) |
| Restrictions.Resare02Symbols | S52CS.c:2579-2692 | the whole RESARE02 symbol table over the sets of RESTRN and CATREA codes. With 7, 8 or 14: ENTRES61 iff one of 1 to 6 or a strict category, else ENTRES71 iff one of 9 to 13 or an informative category, else ENTRES51. Otherwise with 1 or 2: ACHRES61, 71, 51 likewise with 3 to 6. Otherwise with 3 to 6: FSHRES71 iff no strict category and one of 9 to 13 or an informative category, else FSHRES51 (a strict category keeps FSHRES51). Otherwise INFARE51 iff one of 9 to 13, else RSRDEF51, whatever CATREA says. Without RESTRN (corrected): CTYARE71 iff strict and informative, CTYARE51 iff strict only, INFARE71 iff informative only, else RSRDEF51 |
| Restrictions.Resare02AgreesWithRescsp | S52CS.c:2548-2701 | with no CATREA, RESARE02 ends with the symbol `_RESCSP01` picks, and without RESTRN it draws the plain boundary and RSRDEF51 |
| Restrictions.Resare02Priority | S52CS.c:2548-2701 | RESARE02 raises the display priority (`OP(6---)`) exactly for entry, anchoring or fishing restrictions, and draws a symbolized boundary exactly when that mariner switch is on |
| Restrictions.FishingWithStrictCategory | S52CS.c:2633-2654 | a fishing restriction in a category-1 area draws the FSHRES51 boundary and symbol at raised priority |
| DepthAreas.Seabed01 | S52CS.c:2802-2855 | `_SEABED01` draws one area colour, followed by the DIAMOND1 pattern exactly when the shallow-pattern switch is on and the area is not deeper than the safety contour |
| DepthAreas.SeabedMonotone | S52CS.c:2814-2854 | a deeper area never gets a shallower shade, and it loses the shallow pattern if a shallower one did |
| DepthAreas.TwoShades | S52CS.c:2814-2854 | in two-shade mode DEPDW is chosen exactly when DRVAL1 >= safety contour and DRVAL2 > safety contour, and DIAMOND1 applies exactly otherwise |
| DepthAreas.FourShadeBands | S52CS.c:2814-2854 | in four-shade mode with ordered contours, each of the five shades is chosen exactly in its depth band |
| DepthAreas.Depare01 | S52CS.c:781-826 | DEPARE01 draws `_SEABED01` of its depth range moved by the datum offset (its shade, then DIAMOND1 for a shallow area when that switch is on); a depth area draws exactly that, and a dredged area draws it followed by more, with the DRGARE01 pattern exactly for a dredged area |
| DepthAreas.Depare01Defaults | S52CS.c:781-826 | DEPARE01 reads a missing DRVAL1 as -1 and a missing DRVAL2 as DRVAL1 + 0.01 |
| DepthAreas.DredgedArea | S52CS.c:810-823 | a dredged area draws the depth-area shade, then the DRGARE01 pattern and dashed boundary, then any restriction symbol |
| DepthAreas.MediumShallowArea | S52CS.c:781-826 | a 5 to 8 m area with shallow contour 5 and safety contour 10 is filled DEPMS |
| Quality.Quapnt01AsWritten | S52CS.c:2434-2456 | as written, the only output `_QUAPNT01` can give is the LOWACC01 symbol |
| Quality.Quapnt01AsWrittenInverted | S52CS.c:2440-2453 | as written, LOWACC01 is drawn exactly when the position is accurate (see Findings) |
| Quality.Quapnt01 | S52CS.c:2434-2456 | corrected: LOWACC01 is drawn exactly when QUAPOS is in 2..9 |
| Quality.Qualin01 | S52CS.c:2378-2432 | `_QUALIN01` draws something exactly when QUAPOS is absent or low-accuracy; an inaccurate line gets LC(LOWACC21); a line without QUAPOS gets LS(SOLD,3,CHMGF) then LS(SOLD,1,CSTLN) when it is a COALNE with CONRAD 1, and LS(SOLD,1,CSTLN) otherwise |
| Quality.Quapos01 | S52CS.c:2360-2376 | QUAPOS01 draws exactly for a low-accuracy position, or for a line without QUAPOS; a low-accuracy line gets LC(LOWACC21) and any other low-accuracy feature SY(LOWACC01), through the corrected `_QUAPNT01`; a line without QUAPOS gets `_QUALIN01`'s coastline style: LS(SOLD,3,CHMGF) then LS(SOLD,1,CSTLN) for a COALNE with CONRAD 1, and LS(SOLD,1,CSTLN) otherwise |
| Quality.Slcons03 | S52CS.c:2458-2546 | SLCONS03 draws nothing exactly for a point of accurate or unknown position or a line with an accurate QUAPOS; an area always starts with a colour fill; a low-accuracy feature ends with the LOWACC01 symbol (point) or line |
| Quality.Slcons03PointIsQuapnt | S52CS.c:2472-2476 | a shoreline point draws what `_QUAPNT01` draws |
| Quality.Slcons03Line | S52CS.c:2476-2506 | a shoreline line draws nothing exactly when its position is accurate, and without QUAPOS it draws the style chosen from CONDTN, CATSLC, WATLEV |
| Quality.Slcons03Area | S52CS.c:2508-2543 | a shoreline area always draws, starting with a colour fill |
| Soundings.WholeRow | S52CS.c:2979-3032 | from 10 m up, a depth is spelled by two to five whole-metre glyphs |
| Soundings.DepthGlyphs | S52CS.c:2946-3032 | every depth is spelled by two to five glyphs |
| Soundings.Symbols | S52CS.c:2940-3032 | each glyph becomes one symbol named by the prefix, the glyph class and its number |
| Soundings.Sndfrm02 | S52CS.c:2914-3032 | at least two symbols, all SOUNDS when the biased depth is at most the safety depth and SOUNDG otherwise |
| Soundings.SoundingLayout | S52CS.c:2914-3032 | the symbols are the quality glyphs, then the depth glyphs, each spelled with the chosen prefix |
| Soundings.Soundg02 | S52CS.c:2857-2886 | SOUNDG02 draws only for a point feature with exactly one sounding |
| Soundings.IntDigitsCons | S52CS.c:2946-3032 | the integer digits of a row are read glyph by glyph |
| Soundings.TenthsCons | S52CS.c:2946-2975 | the tenths digit is the first class-5 glyph |
| Soundings.DigitRow | S52CS.c:2981-3032 | a row of integer-class glyphs spells their numbers and has no tenths |
| Soundings.TenthsRow | S52CS.c:2946-2975 | a row with a tenths glyph and an optional A1 spells its integer digits and that tenth |
| Soundings.DepthGlyphsShowDepth | S52CS.c:2946-3032 | the glyphs show the depth's magnitude to within one tenth (below 10 m, or below 31 m with a fraction) or one metre, and the A1 glyph appears exactly for negative depths |
| Soundings.HornerTwo | S52CS.c:2981-2989 | two digits read as 10·a + b |
| Soundings.IntegerRowSpellsLead | S52CS.c:2981-3032 | from 10 m up, the whole-metre row spells the truncated depth with decimal digits (up to 99999), without tenths or A1 |
| Soundings.TwoDigitRow | S52CS.c:2981-2989 | from 10 to 99 m the two digits are the tens and units |
| Soundings.ThreeDigitRow | S52CS.c:2991-3001 | from 100 to 999 m the three digits d2, d1, d0 satisfy 100·d2 + 10·d1 + d0 = the truncated depth |
| Soundings.FourDigitRow | S52CS.c:3003-3015 | from 1000 to 9999 m the four digits spell the truncated depth |
| Soundings.FiveDigitRow | S52CS.c:3017-3032 | from 10000 m the five rows spell the truncated depth, with decimal digits below 100000 |
| Soundings.DigitsAreDecimal | S52CS.c:2946-3032 | between -10 and 100000 every glyph number is a single decimal digit |
| Soundings.SevenAndAHalf | S52CS.c:2914-2958 | 7.5 m under a 30 m safety depth draws SOUNDS17 and SOUNDS55 |
| Soundings.ZeroDepthDries | S52CS.c:2914-2958 | a zero sounding is biased below zero and so draws the drying A1 glyph |
| Hazards.Depval01AsWritten | S52CS.c:1035-1086 | as written, an unsurveyed area gives the unknown depth |
| Hazards.Depval01AsWrittenIgnoresArea | S52CS.c:1061-1085 | as written, a depth area with DRVAL1 5 leaves the unknown depth; the corrected version gives 5 plus the datum offset (see Findings) |
| Hazards.Depval01 | S52CS.c:1035-1086 | corrected: the least depth is the linked area's DRVAL1 plus the datum offset, and unknown without an area, over an unsurveyed area, or without DRVAL1 |
| Hazards.Udwhaz03 | S52CS.c:3174-3279 | always resets SCAMIN; draws exactly when the depth is at most the safety contour over safe water; then SCAMIN is infinite unless WATLEV is 1 or 2; ISODGR01 is drawn exactly for such a non-line danger |
| Hazards.SafeWaterMonotone | S52CS.c:3189-3271 | a shallower hazard over the same safe water is still an isolated danger |
| Hazards.Obstrn04 | S52CS.c:1854-2185 | OBSTRN04 always returns an instruction list (possibly empty) |
| Hazards.NoIsodgrInSounding | S52CS.c:1854-2185 | the sounding part never contains the isolated-danger symbol |
| Hazards.ObstrnShownAtAllScalesIffIsolatedDanger | S52CS.c:1854-2185 | for points and areas, an obstruction is shown at all scales exactly when it draws ISODGR01 |
| Hazards.ObstructionInSafeWater | S52CS.c:1925-2110 | a non-drying obstruction over safe water draws the isolated-danger symbol (over the foul-area fill for an area) and the quality symbol, at all scales |
| Hazards.DeepObstructionPoint | S52CS.c:1927-2030 | a point obstruction with VALSOU above 20 m and above the safety contour draws DANGER02 with a reset SCAMIN |
| Hazards.AreaObstructionTakesAreaDepth | S52CS.c:1871-1923 | with the corrected `_DEPVAL01` (see Findings), an area obstruction or wreck without VALSOU takes the least depth of the area it lies in |
| Hazards.Wrecks02 | S52CS.c:3475-3712 | WRECKS02 always returns an instruction list (possibly empty) |
| Hazards.WrecksInstr | S52CS.c:3553-3705 | every hazard instruction appears in the wreck's output, except on a point with unknown VALSOU and no isolated danger, where the source drops them; with ISODGR01 a point starts with the hazard instructions; otherwise a point starts with DANGER01 (VALSOU <= 20), DANGER02 (deeper) or its wreck symbol (unknown VALSOU), and a line or area starts with its boundary |
| Hazards.WrecksShownAtAllScalesIffIsolatedDanger | S52CS.c:3475-3712 | for points and areas, a wreck is shown at all scales exactly when it draws ISODGR01 |
| Hazards.WrecksIsodgrOnlyFromHazard | S52CS.c:3553-3705 | the wreck's own instructions hold ISODGR01 exactly when the hazard instructions they wrap do |
| Hazards.WreckPointIsodgr | S52CS.c:3555-3621 | on a wreck point, ISODGR01 appears only from the hazard instructions |
| Hazards.WreckAreaIsodgr | S52CS.c:3623-3705 | on a wreck area, the boundary, fill, quality and sounding instructions never add ISODGR01 |
| Hazards.WreckDefaults | S52CS.c:3503-3547 | a wreck without VALSOU is given depth -15 without WATLEV and 20 for CATWRK 1, and keeps the unknown depth for a WATLEV outside the table |
| Contours.Depcnt02 | S52CS.c:921-1020 | resets SCAMIN, and makes it infinite exactly for a safety contour; draws exactly when QUAPOS is absent or low-accuracy; the draw is OP(8OD13010) with a 2-wide DEPSC line for a safety contour and OP(---33020) with a 1-wide DEPCN line otherwise, dashed exactly for low accuracy |
| Contours.ShallowContourIsNotSafety | S52CS.c:961-977 | a contour shallower than the safety contour is never the safety contour |
| Contours.ExactContourIsSafety | S52CS.c:921-1009 | a contour whose VALDCO plus offset equals the safety contour is drawn as the safety contour at all scales |
| Contours.DepthAreaEdgeIsSafety | S52CS.c:944-959 | a depth-area line whose offset range spans the safety contour is a safety contour |
| Contours.DeeperContourNeedsDrval2 | S52CS.c:886-912 | without DRVAL2 (read as 0, un-offset), a deeper contour is a safety contour only if the safety contour is at most 0 |
| Lights.ColourRule | S52CS.c:1184-1209 | the colour class read off the buffer: red iff a single colour 3, or two colours that are 1 and 3 in either order; green likewise with 4; yellow iff a single colour 1, 6 or 11 |
| Lights.FlareSymbol | S52CS.c:1184-1209 | `_LIGHTS05_getSYcol`: LIGHTS01 iff a single colour 3 or the two colours 1 and 3; LIGHTS02 iff a single 4 or the two colours 1 and 4; LIGHTS03 iff a single 1, 6 or 11; LIGHTDEF otherwise |
| Lights.ArcColour | S52CS.c:1483-1502 | the sector arc colour is red, green, yellow or CHMGD exactly when the flare symbol of the same colour list is LIGHTS01, LIGHTS02, LIGHTS03 or LIGHTDEF: arc and flare always agree |
| Lights.ColourExamples | S52CS.c:1184-1209 | white with red counts as red in either order; green alone is green, orange alone yellow; three colours or magenta alone are other |
| Lights.Sweep | S52CS.c:1241-1253 | the sweep of an ordered sector under 360 degrees is its width |
| Lights.CmpSector | S52CS.c:1211-1288 | `_LIGHTS05_cmpSector` returns only -1, 0 or +1; 0 when either light lacks SECTR1 or SECTR2; for two sectors, 0 iff they do not overlap and +1 iff they overlap and A sweeps less than B |
| Lights.PlainSectorsOverlap | S52CS.c:1240-1277 | for sectors that do not cross north, the overlap test holds iff the open arcs meet and the sectors are not identical |
| Lights.CmpSectorSymmetry | S52CS.c:1211-1288 | overlap is symmetric; with different sweeps the answers are opposite; with equal sweeps both sides get -1 |
| Lights.NarrowSectorWins | S52CS.c:1255-1287 | of two overlapping sectors, the narrower gets +1 |
| Lights.AdjacentSectorsDoNotOverlap | S52CS.c:1255-1287 | sectors that only share an edge do not overlap |
| Lights.Repeat | S52CS.c:1711-1756 | a repeated word has the repeated length |
| Lights.Litdsn01 | S52CS.c:1526-1849 | `_LITDSN01` gives no text exactly when CATLIT holds 17 |
| Lights.CatlitLastWins | S52CS.c:1556-1621 | the CATLIT abbreviation is that of the last code that has one; without such a code there is none |
| Lights.LitdsnHeadParts | S52CS.c:1556-1756 | the description opens with the CATLIT abbreviation, the word of the first LITCHR code, SIGGRP as given and the first colour's letters once per colour, each exactly when present |
| Lights.LitdsnTailParts | S52CS.c:1758-1848 | SIGPER, HEIGHT and STATUS add one part each when present, VALNMR one or two, and the first STATUS code's word comes last |
| Lights.LitdsnParts | S52CS.c:1526-1849 | the description holds one part per attribute present, in the source's order, with the CATLIT, LITCHR, SIGGRP, COLOUR and STATUS parts as stated |
| Lights.ColourLettersRepeatFirst | S52CS.c:1711-1756 | the colour loop spells the first colour for each colour listed: COLOUR 1,3 reads "WW" |
| Lights.FixedWhiteLight | S52CS.c:1526-1849 | a fixed white light of height 15 and range 10 reads "F", "W ", "15m ", "10M" |
| Lights.LightClass | S52CS.c:1332-1433 | CATLIT 8 or 11 gives the special symbol LIGHTS82; otherwise CATLIT 9 gives LIGHTS81; otherwise CATLIT 17 gives an emergency light that draws nothing; otherwise a light is a flare exactly when SECTR1 or SECTR2 is missing, and with both it is a sector light, with that sweep, exactly when its sweep from SECTR1 to SECTR2 is at least 1 degree and not 360, and all-round otherwise |
| Lights.Lights05Instr | S52CS.c:1291-1510 | a special light draws its one symbol, an emergency light nothing, and a sector light ends with the dashed leg line and then its arc: the faint-light dashed line when LITVIS is 3, 7 or 8, and otherwise the arc in `ArcColour` of its colours |
| Lights.FlareLight | S52CS.c:1375-1411 | a light with no sector and no direction draws `_LIGHTS05_getSYcol`'s flare at 135 degrees, or at 45 when another light touches it and it has colour 1, 5 or 11, then its description raised or not to match |
| Lights.DirectionalLight | S52CS.c:1351-1411 | a directional light with no sector draws its leg, its flare along ORIENT and the bearing text, or only a question mark without ORIENT |
| Lights.AllRoundLight | S52CS.c:1413-1433 | an all-round light draws its flare at 135 degrees whatever touches it, after the leg of a directional light with ORIENT, then its description |
| Lights.ArcFoldYes | S52CS.c:1440-1458 | after the arc loop a light's flag is Y exactly when some touching light's comparison was +1 and all later ones 0 |
| Lights.ArcYesWitness | S52CS.c:1440-1458 | a Y flag after the arc loop comes from a +1 comparison followed only by non-overlapping lights |
| Lights.ArcYesFromWitness | S52CS.c:1440-1458 | a +1 comparison followed only by non-overlapping lights leaves the flag at Y |
| Lights.CompareArcs | S52CS.c:1446-1457 | one comparison: the smaller of two overlapping sectors gets Y and the other N, and no touch link and no SCAMIN of either changes |
| Lights.UpdateArcs | S52CS.c:1439-1458 | the loop leaves the light's flag as the fold over its touch chain, sets every touching light's flag from its comparison, changes no touch link of the light, keeps the chain of light links as it was, and changes no SCAMIN |
| Lights.Lights05 | S52CS.c:1291-1510 | LIGHTS05 returns its instructions and, for a sector light whose flag is unset or N, runs the arc loop; otherwise no flag changes |
| Topmarks.TopmarkSymbol | S52CS.c:3075-3170 | a TOPSHP in 1..33 takes its entry from the floating or rigid table; outside it falls back to TMARDEF2 on a floating platform and TMARDEF1 otherwise; every symbol is an eight-letter T name |
| Topmarks.Topmar01 | S52CS.c:3037-3172 | TOPMAR01 draws the question mark exactly when TOPSHP is missing; otherwise the shape's symbol from the table of the platform found, which differs from the other platform's exactly unless the shape is 12 or 31 |
| Topmarks.PlatformsDiffer | S52CS.c:3075-3170 | the floating and rigid symbols differ for every shape except 12 and 31 |
| Topmarks.LowShapesDiffer | S52CS.c:3075-3165 | among shapes 1 to 16 only shape 12 has the same symbol on both platforms |
| Topmarks.HighShapesDiffer | S52CS.c:3075-3165 | among shapes 17 to 33 only shape 31 has the same symbol on both platforms |
| Topmarks.NoSlopingSymbolFor15And16 | S52CS.c:3075-3170 | shapes 15 and 16 have no sloping symbol and fall back to TMARDEF2 when floating |
| CrossReference.FirstOverlap | S52CS.c:227-283 | the first feature of a list at an overlapping extent, and none exactly when none overlaps |
| CrossReference.FirstLaterLight | S52CS.c:289-318 | the first light with a greater id at an overlapping extent, and none exactly when there is no such light |
| CrossReference.CellIndex.constructor | S52CS.c:113-127 | a new index has five empty lists |
| CrossReference.CellIndex.Add | S52CS.c:151-214 | platforms go only to the topmark list and lights only to the light list; depth and dredged areas and lines go to the hazard list, their areas also to the contour list; depth areas, lines and unsurveyed areas go to the least-depth list; the list invariant is kept |
| CrossReference.CellIndex.Touch | S52CS.c:216-623 | the feature's links become exactly `TouchResult` of its old links; a buoy links the first light at its position back to itself; no other light changes |
| CrossReference.TouchResult | S52CS.c:216-623 | a changed topmark link was empty and is an overlapping platform; a changed light link was empty and is a later overlapping light; a changed contour link is a candidate area with DRVAL1; a changed hazard link offers a depth; other features keep their links |
| CrossReference.FindFirstOverlap | S52CS.c:227-283 | the topmark and buoy scans find the first overlapping feature |
| CrossReference.FindLaterLight | S52CS.c:289-318 | the light scan stops at the first later light at the same position |
| CrossReference.ScanContours | S52CS.c:320-423 | the contour scan computes the contour fold |
| CrossReference.ScanHazardDepths | S52CS.c:425-519 | the hazard scan computes the hazard fold |
| CrossReference.ScanLeastDepth | S52CS.c:521-620 | the least-depth scan computes the least-depth fold, stopping at an unsurveyed area (where GLib's default build aborts instead; see Left out) |
| CrossReference.FirstOverlapExtend | S52CS.c:227-255 | looking one feature further keeps the first overlap found |
| CrossReference.FirstLaterLightExtend | S52CS.c:289-318 | looking one light further keeps the first later light found |
| CrossReference.FirstLaterLightAt | S52CS.c:300-310 | a qualifying light found after none is the first of the whole list |
| CrossReference.FirstOverlapSplit | S52CS.c:227-255 | the first overlapping feature of two lists joined is the first of the first list, if any |
| CrossReference.FirstLaterLightSplit | S52CS.c:289-318 | the first later light of two lists joined is the first of the first list, if any |
| CrossReference.DepvalStopped | S52CS.c:583-590 | once an unsurveyed area stops the least-depth scan, the rest of the list changes nothing |
| CrossReference.HazardScanLinks | S52CS.c:439-512 | the hazard link, once changed, is a touching feature offering the depth tracked, which is the deepest depth any touching feature offers |
| CrossReference.DepvalScanLinks | S52CS.c:533-612 | the least-depth link stays empty only if no feature touches; an unsurveyed area stops the scan exactly when one touches, and the first touching one is linked |
| CrossReference.ContourScanLinkIn | S52CS.c:376-421 | a changed contour link is a touching candidate area with DRVAL1 |
| CrossReference.ContourScanLinks | S52CS.c:346-421 | a contour is linked only to a strictly deeper area than its own known depth; that area's DRVAL1 is the depth tracked, the deepest of all touching candidates |
| CondTable.ProcName | S52CS.c:3778-3818 | every table name has eight characters: a seven-letter family and an edition digit |
| CondTable.Family | S52CS.c:3778-3818 | every family part has seven letters |
| CondTable.Find | S52CS.c:3778-3818 | a table search finds an entry of that name, and none exactly when no entry has it |
| CondTable.Lookup | S52CS.c:3778-3818 | a procedure looked up by name carries that name |
| CondTable.LookupRoundTrip | S52CS.c:3778-3818 | every procedure is found under its own name |
| CondTable.InTable | S52CS.c:3778-3818 | every procedure has an entry in the table |
| CondTable.NamesDiffer | S52CS.c:3778-3818 | no two procedures share a name |
| CondTable.NameKeyInverts | S52CS.c:3778-3818 | a procedure is determined by a few letters of its family and by its edition |
| CondTable.CanonicalFamily | S52CS.c:3714-3751 | an alias runs the procedure of its own family with an earlier edition, and every other entry runs itself |
| CondTable.Quesmrk1 | S52CS.c:3753-3768 | QUESMRK1 draws one question mark: a symbol for a point, a line for a line, a pattern for an area |
| CondTable.Draw | S52CS.c:3778-3818 | DEPARE01, LIGHTS05, OBSTRN04, RESARE02, TOPMAR01, WRECKS02 and QUESMRK1 always return instructions, and only DEPCNT02, OBSTRN04 and WRECKS02 change SCAMIN |
| CondTable.Run | S52CS.c:3778-3818 | running a table entry gives what its canonical procedure draws from the feature's touch links, and stores the SCAMIN the procedure sets; no touch link of the feature changes; outside LIGHTS05 no arc flag and nothing in the chain changes; for LIGHTS05 the chain stays linked as before with its SCAMIN values, and the flags change as the arc loop sets them |

## Left out

- `S52_CS_init` and `S52_CS_done` only allocate and free the lists; a new `CellIndex` stands in for them.
- `PRINTF` diagnostics and the one-time `silent` flags are not modelled.
- `g_assert(0)` is modelled as built with `G_DISABLE_ASSERT`, where it does nothing. With GLib's default it aborts the program, and these sites are reachable on ordinary charts:
  - S52CS.c:248, a second topmark on the same object, in the touch pass;
  - S52CS.c:312, a second light linking to the same light, in the touch pass;
  - S52CS.c:587, a hazard over an UNSARE area. `CrossReference.ScanLeastDepth` links the area and stops the scan;
  - S52CS.c:1075, in `_DEPVAL01`. It fires only when the test takes a real DRVAL1, which never happens as written (see Findings); the corrected `Hazards.Depval01` continues with that depth;
  - S52CS.c:1631, a LITCHR with more than one code. `Lights.LitdsnHeadParts` continues with its first code.

  The asserts of `SOUNDG02` (S52CS.c:2869, 2875, 2881) and of `_QUALIN01` (S52CS.c:2405) are followed by `return NULL` or an early return, so without the abort both builds return the same result there. The sites at S52CS.c:118 (allocation failure), 720 (`DATCVR01`) and 3410 (`VESSEL01`) are outside this model, 884 is commented out, and 2131 is compiled only with `S52_DEBUG`.
- The geometry code is not part of this model: `S57_cmpGeoExt`, `S57_isPtInSet`, `S57_isPtOnLine`, `S57_isPtInArea` and `S57_getGeoData`.
  - Extent comparison is modelled as overlap of bounding boxes.
  - The three point tests are functions each feature carries.
  - Geometry lookup fails exactly when the feature has no points.
- `S52_atof`, `S52_atoi` and the mariner parameter store `S52_MP_get` are not modelled. Attributes arrive decoded and parameters arrive as a record.
- `printf` formatting of HEIGHT and VALNMR in `_LITDSN01` is not modelled. The model keeps the attribute text and, for HEIGHT, the datum offset to apply.
- Floating-point rounding is not modelled. Depths are reals, and the ±0.01 sounding bias is exact.
- The mariner and overlay procedures are left out, because they are constant overlay text with little logic: `CLRLIN01`, `DATCVR01` (and `DATCVR02`), `LEGLIN02` (and `LEGLIN03`), `OWNSHP02`, `PASTRK01`, `VESSEL01` (and `VESSEL02`), `VRMEBL01` (and `VRMEBL02`). `CondTable.Run` requires an entry outside this set.
- `_DEPVAL02` is not modelled: nothing in the table calls it.
- CondTable.Run: for LIGHTS05 it asks for the light's touch chain as a ghost list without repeats. The source walks the links without checking for a cycle.
- CrossReference.ContourScanLinks: the "deepest candidate" part assumes no candidate's DRVAL1 equals the -1000 sentinel, because the source treats such a value as unknown and re-seeds.
- CrossReference.CellIndex.Touch: requires the list invariant that `Add` keeps, so that a buoy is never itself in the light list.
- Hazards.Obstrn04: the contract promises only that an instruction list (possibly empty) is returned. The symbol choices are stated by the lemmas about it (`ObstrnShownAtAllScalesIffIsolatedDanger`, `ObstructionInSafeWater`, `DeepObstructionPoint`, `AreaObstructionTakesAreaDepth`).
- Hazards.Wrecks02: as for `Obstrn04`; the lemmas `WrecksShownAtAllScalesIffIsolatedDanger`, `WrecksIsodgrOnlyFromHazard`, `AreaObstructionTakesAreaDepth` and `WreckDefaults` carry the content.
- Lights.Litdsn01: its own contract states only when there is no text; the parts of the text are stated by `LitdsnParts`, `LitdsnHeadParts`, `LitdsnTailParts` and `CatlitLastWins`. The formatting of HEIGHT and VALNMR is not modelled (see above).
- Lights.Lights05Instr: its own contract covers special, emergency and sector lights. The flare, directional and all-round outputs are stated by the lemmas `FlareLight`, `DirectionalLight` and `AllRoundLight` about its result.
- `OBSTRN04`, `WRECKS02` and `QUAPOS01` draw the point-quality symbol through the corrected `_QUAPNT01` (see Findings). `SLCONS03` has its own point test, which already agrees with the corrected rule (`Slcons03PointIsQuapnt`).
- `OBSTRN04` and `WRECKS02` take their least depth from the corrected `_DEPVAL01` (see Findings).
- `RESARE02` reads CATREA also when RESTRN is absent, as its branch for that case tests it; as written that branch sees an empty buffer (see Findings, `Resare02AsWritten`).
- AreaObstructionTakesAreaDepth: stated for the corrected `_DEPVAL01`. As written, `_DEPVAL01` never takes the area's DRVAL1, so the source gives the unknown depth here (`Depval01AsWrittenIgnoresArea`).
- CodedList.FieldAt: reads a list field as its run of decimal digits, modulo 256. `S52_atoi` is not part of this model; if it reads a leading blank or sign as `atoi` does, a field such as " 3" or "-1" gives 3 or 255 there, where the model gives 0.
- Creating a feature (`S57_geo`) is not part of this model; `Chart.Geo`'s constructor stands for it, with no links, the loaded SCAMIN and no arc flag.
- CondTable.Run: for LIGHTS05 it promises that the chain's light links (`LightChain`) and SCAMIN values stay. It does not state that the chain's other touch links stay, because framing every link of every chain member made the arc loop's proof too costly.

## Findings

| source | as written | input that shows it | evidently intended | confidence | as-written member | corrected member |
|---|---|---|---|---|---|---|
| S52CS.c:2441-2454 | `_QUAPNT01` draws LOWACC01 when QUAPOS is absent or accurate, and nothing when it is in 2..9 | a point with QUAPOS 4 (approximate) gets no symbol; one without QUAPOS gets LOWACC01 | LOWACC01 marks exactly the low-accuracy positions, as `_QUALIN01` does for lines | not executed | Quality.Quapnt01AsWrittenInverted | Quality.Quapnt01 |
| S52CS.c:2573-2692 | RESARE02 fills the CATREA buffer only inside the branch for a present RESTRN, so the branch without RESTRN tests an empty buffer and always picks RSRDEF51 | a restricted area without RESTRN and with CATREA 1 (military area) gets RSRDEF51 | without RESTRN, CATREA picks CTYARE51, CTYARE71, INFARE71 or RSRDEF51, as that branch's own tests read it | not executed | Restrictions.Resare02AsWrittenIgnoresCategory | Restrictions.Resare02 |
| S52CS.c:1061-1085 | `_DEPVAL01` starts from the unknown depth -1000 and takes DRVAL1 only when it is smaller than that, so a real DRVAL1 is never used | an area obstruction without VALSOU over a depth area with DRVAL1 5 gets the unknown depth, then the WATLEV default | the least depth is the DRVAL1 of the area the hazard lies in | not executed | Hazards.Depval01AsWrittenIgnoresArea | Hazards.Depval01 |

Other behaviours of the source are reproduced as written:

- DEPCNT02 draws nothing for a contour with an accurate QUAPOS.
- `_DEPCNT02_isSafetyCnt` compares DRVAL2 without the datum offset, and reads it as 0 when absent.
- `_LITDSN01` repeats the first colour's letters once for each colour listed.
- A zero sounding is biased to -0.01 and draws the drying glyph.
- In the contour scan, the first touching area only seeds the depth tracked and is never linked.
- In the least-depth scan, the on-line test is made but its answer is ignored. The first touching area is linked whatever its DRVAL1, and later ones replace it when their DRVAL1 is at least the tracked one.
- Equal sector sweeps compare as -1 both ways.
- CATLIT 17 anywhere in the list suppresses the light text, while LIGHTS05's search stops at an empty field.
