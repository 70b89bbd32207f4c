/** The two-pass cross-reference of a cell: `S52_CS_add` files every
  * feature of interest in one of five lists, and `S52_CS_touch` then links
  * a feature to the feature of those lists it "touches" (same position or
  * extent, point inside), for the procedures that need a neighbour:
  * topmark to platform, buoy to light, light to the next light at the
  * same place, contour to depth area, hazard to the area around it. */
module CrossReference {
  import opened Basics
  import opened Chart

  // ---- what each list holds ----

  /** A floating platform: light float, light vessel or any buoy. */
  predicate IsPlatform(name: string) {
    name == "LITFLT" || name == "LITVES" || (|name| >= 3 && name[..3] == "BOY")
  }

  predicate IsDepthArea(name: string) {
    name == "DEPARE" || name == "DRGARE"
  }

  predicate IsDepthValue(name: string) {
    name == "DEPARE" || name == "UNSARE"
  }

  predicate IsHazard(name: string) {
    name == "OBSTRN" || name == "UWTROC" || name == "WRECKS"
  }

  // ---- the scans, as functions of the list scanned ----

  /** The first feature of `list` whose extent overlaps `ext`. */
  function FirstOverlap(ext: Extent, list: seq<Geo>): (r: Geo?)
    ensures r != null ==> r in list && Overlap(ext, r.ext)
    ensures r == null <==> forall k :: 0 <= k < |list| ==> !Overlap(ext, list[k].ext)
    ensures r != null ==> exists i :: (0 <= i < |list| && list[i] == r &&
      forall j :: 0 <= j < i ==> !Overlap(ext, list[j].ext))
    decreases |list|
  {
    if list == [] then null
    else if Overlap(ext, list[0].ext) then list[0]
    else FirstOverlap(ext, list[1..])
  }

  /** The first light of `list` with a greater id than `id` at an
    * overlapping extent. */
  function FirstLaterLight(id: nat, ext: Extent, list: seq<Geo>): (r: Geo?)
    ensures r != null ==> r in list && r.id > id && Overlap(ext, r.ext)
    ensures r == null <==> forall k :: 0 <= k < |list| ==> !(list[k].id > id && Overlap(ext, list[k].ext))
    ensures r != null ==> exists i :: (0 <= i < |list| && list[i] == r &&
      forall j :: 0 <= j < i ==> !(list[j].id > id && Overlap(ext, list[j].ext)))
    decreases |list|
  {
    if list == [] then null
    else if list[0].id > id && Overlap(ext, list[0].ext) then list[0]
    else FirstLaterLight(id, ext, list[1..])
  }

  /** Whether a depth area is a candidate for a contour at (x, y). */
  predicate ContourCandidate(g: Geo, x: real, y: real, c: Geo) {
    c.id != g.id && SameExtent(g, c) && c.inSet(x, y) && Get(c.attrs.drval1).Some?
  }

  /** The contour scan after `list`: the depth tracked (the line's own
    * depth, or the first candidate's when the line's is unknown) and the
    * area linked, which is replaced by every candidate strictly deeper
    * than the depth tracked so far. */
  function ContourScan(g: Geo, x: real, y: real, start: real, link: Geo?, list: seq<Geo>): (real, Geo?)
    decreases |list|
  {
    if list == [] then (start, link)
    else
      var (depth, l) := ContourScan(g, x, y, start, link, list[..|list| - 1]);
      var c := list[|list| - 1];
      if !ContourCandidate(g, x, y, c) then (depth, l)
      else
        var d := Get(c.attrs.drval1).value;
        if depth == UNKNOWN_DEPTH then (d, l)
        else if d > depth then (d, c)
        else (depth, l)
  }

  /** Whether the hazard `g` touches the group-1 area or line `c`: a point
    * lies on the line or in the area, a line or area has its point in
    * `c`'s point set. */
  predicate HazardTouches(g: Geo, x: real, y: real, c: Geo) {
    SameExtent(g, c) &&
    if g.kind == Point then (if c.kind == Line then c.onLine(x, y) else c.inArea(x, y))
    else c.inSet(x, y)
  }

  /** The depth a touching group-1 feature offers: DRVAL2 of a line,
    * DRVAL1 of an area. */
  function OfferedDepth(c: Geo): Option<real> {
    if c.kind == Line then Get(c.attrs.drval2) else Get(c.attrs.drval1)
  }

  /** The hazard scan after `list`: the deepest depth offered so far
    * (starting from the unknown depth) and the feature offering it. */
  function HazardScan(g: Geo, x: real, y: real, link: Geo?, list: seq<Geo>): (real, Geo?)
    decreases |list|
  {
    if list == [] then (UNKNOWN_DEPTH, link)
    else
      var (depth, l) := HazardScan(g, x, y, link, list[..|list| - 1]);
      var c := list[|list| - 1];
      if HazardTouches(g, x, y, c) && OfferedDepth(c).Some? && OfferedDepth(c).value > depth
      then (OfferedDepth(c).value, c)
      else (depth, l)
  }

  /** Whether the hazard `g` touches a least-depth candidate `c`. For a
    * point the on-line test is made but its answer is not used: only the
    * in-area test counts, lines included. */
  predicate DepvalTouches(g: Geo, x: real, y: real, c: Geo) {
    SameExtent(g, c) &&
    if g.kind == Point then c.inArea(x, y) else c.inSet(x, y)
  }

  /** The state of the least-depth scan: the depth tracked (None for the
    * initial infinity), the area linked, and whether an unsurveyed area
    * stopped the scan. */
  datatype DepvalState = DepvalState(least: Option<real>, link: Geo?, stopped: bool)

  /** One step of the least-depth scan. An unsurveyed area is linked and
    * ends the scan; the first other touching feature is linked whatever
    * its DRVAL1; after that a feature with DRVAL1 is linked when its
    * DRVAL1 is at least the one tracked. */
  function DepvalStep(g: Geo, x: real, y: real, s: DepvalState, c: Geo): DepvalState {
    if s.stopped || !DepvalTouches(g, x, y, c) then s
    else if c.name == "UNSARE" then DepvalState(s.least, c, true)
    else if s.link == null then DepvalState(s.least, c, false)
    else if Get(c.attrs.drval1).None? then s
    else
      var d := Get(c.attrs.drval1).value;
      if s.least.Some? && d < s.least.value then s
      else DepvalState(Some(d), c, false)
  }

  function DepvalScan(g: Geo, x: real, y: real, link: Geo?, list: seq<Geo>): DepvalState
    decreases |list|
  {
    if list == [] then DepvalState(None, link, false)
    else DepvalStep(g, x, y, DepvalScan(g, x, y, link, list[..|list| - 1]), list[|list| - 1])
  }

  /** The point of a hazard the least-depth scan tests: the second vertex
    * when the feature has more than two, else the first. */
  function DepvalPoint(pts: seq<Pt>): Pt
    requires pts != []
  {
    if |pts| > 2 then pts[1] else pts[0]
  }

  // ---- the index ----

  class CellIndex {
    var topmarList: seq<Geo>
    var lightsList: seq<Geo>
    var udwhazList: seq<Geo>
    var depcntList: seq<Geo>
    var depvalList: seq<Geo>

    /** Every list holds only the features `Add` files there. */
    predicate Valid()
      reads this
    {
      (forall k :: 0 <= k < |topmarList| ==> IsPlatform(topmarList[k].name)) &&
      (forall k :: 0 <= k < |lightsList| ==> lightsList[k].name == "LIGHTS") &&
      (forall k :: 0 <= k < |udwhazList| ==> IsDepthArea(udwhazList[k].name)) &&
      (forall k :: 0 <= k < |depcntList| ==> IsDepthArea(depcntList[k].name) && depcntList[k].kind == Area) &&
      (forall k :: 0 <= k < |depvalList| ==> IsDepthValue(depvalList[k].name))
    }

    constructor ()
      ensures Valid()
      ensures topmarList == [] && lightsList == [] && udwhazList == [] && depcntList == [] && depvalList == []
    {
      topmarList := [];
      lightsList := [];
      udwhazList := [];
      depcntList := [];
      depvalList := [];
    }

    /** `S52_CS_add`: platforms go to the topmark list and lights to the
      * light list (and nowhere else); depth and dredged areas and depth
      * lines to the hazard list, their areas also to the contour list;
      * depth areas, depth lines and unsurveyed areas to the least-depth
      * list. */
    method Add(g: Geo)
      requires Valid()
      modifies this
      ensures Valid()
      ensures topmarList == old(topmarList) + (if IsPlatform(g.name) then [g] else [])
      ensures lightsList == old(lightsList) + (if !IsPlatform(g.name) && g.name == "LIGHTS" then [g] else [])
      ensures udwhazList == old(udwhazList) + (if IsDepthArea(g.name) then [g] else [])
      ensures depcntList == old(depcntList) + (if IsDepthArea(g.name) && g.kind == Area then [g] else [])
      ensures depvalList == old(depvalList) + (if IsDepthValue(g.name) then [g] else [])
    {
      if IsPlatform(g.name) {
        assert g.name[0] in "LB";
        topmarList := topmarList + [g];
        return;
      }
      if g.name == "LIGHTS" {
        lightsList := lightsList + [g];
        return;
      }
      if IsDepthArea(g.name) {
        udwhazList := udwhazList + [g];
        if g.kind == Area {
          depcntList := depcntList + [g];
        }
      }
      if IsDepthValue(g.name) {
        depvalList := depvalList + [g];
      }
    }

    /** `S52_CS_touch`: fills the link slots of `g` from the lists (a
      * buoy instead links the first light at its position back to
      * itself). */
    method Touch(g: Geo)
      requires Valid()
      modifies g, lightsList
      ensures SlotsOf(g) == TouchResult(g, old(SlotsOf(g)), topmarList, lightsList, depcntList, udwhazList, depvalList)
      ensures g.scamin == old(g.scamin) && g.arc == old(g.arc)
      ensures g.name == "BOYLAT" && FirstOverlap(g.ext, lightsList) != null ==>
        var l := FirstOverlap(g.ext, lightsList);
        SlotsOf(l) == old(SlotsOf(l)).(lights := g) && l.scamin == old(l.scamin) && l.arc == old(l.arc)
      ensures forall k :: (0 <= k < |lightsList| && lightsList[k] != g &&
        (g.name != "BOYLAT" || lightsList[k] != FirstOverlap(g.ext, lightsList))) ==> unchanged(lightsList[k])
    {
      if g.name == "TOPMAR" {
        var other := FindFirstOverlap(g.ext, topmarList);
        if g.touchTopmar == null {
          g.touchTopmar := other;
        }
        return;
      }
      if g.name == "BOYLAT" {
        var light := FindFirstOverlap(g.ext, lightsList);
        if light != null {
          assert light.name == "LIGHTS";
          light.touchLights := g;
        }
        return;
      }
      if g.name == "LIGHTS" {
        if g.touchLights == null {
          g.touchLights := FindLaterLight(g.id, g.ext, lightsList);
        }
        return;
      }
      if IsContourLine(g) {
        var own := LineDepth(g);
        if own.Absent? || g.pts == [] {
          return;
        }
        var start := if own.Val? then own.v else UNKNOWN_DEPTH;
        var _, link := ScanContours(g, g.pts[0].x, g.pts[0].y, start, g.touchDepcnt, depcntList);
        g.touchDepcnt := link;
        return;
      }
      if IsHazard(g.name) && g.pts != [] {
        var _, deepest := ScanHazardDepths(g, g.pts[0].x, g.pts[0].y, g.touchUdwhaz, udwhazList);
        g.touchUdwhaz := deepest;
        var p := DepvalPoint(g.pts);
        var least := ScanLeastDepth(g, p.x, p.y, g.touchDepval, depvalList);
        g.touchDepval := least.link;
      }
    }
  }

  /** The five link slots of a feature. */
  datatype Slots = Slots(topmar: Geo?, lights: Geo?, depcnt: Geo?, udwhaz: Geo?, depval: Geo?)

  function SlotsOf(g: Geo): Slots
    reads g
  {
    Slots(g.touchTopmar, g.touchLights, g.touchDepcnt, g.touchUdwhaz, g.touchDepval)
  }

  /** A depth contour, or the line of a depth area. */
  predicate IsContourLine(g: Geo) {
    g.name == "DEPCNT" || (g.name == "DEPARE" && g.kind == Line)
  }

  /** The line's own depth: VALDCO of a contour, DRVAL1 of a depth-area
    * line, read with the empty marker visible. */
  function LineDepth(g: Geo): Num {
    if g.name == "DEPCNT" then g.attrs.valdco else g.attrs.drval1
  }

  /** The slots `S52_CS_touch` leaves on `g`, given the slots `s` it had.
    * A feature without points (no geometry) keeps its slots. */
  function TouchResult(g: Geo, s: Slots, topmar: seq<Geo>, lights: seq<Geo>, depcnt: seq<Geo>,
                       udwhaz: seq<Geo>, depval: seq<Geo>): (r: Slots)
    ensures r.topmar != s.topmar ==> s.topmar == null && r.topmar in topmar && Overlap(g.ext, r.topmar.ext)
    ensures r.lights != s.lights ==> (s.lights == null && r.lights in lights && r.lights.id > g.id &&
      Overlap(g.ext, r.lights.ext))
    ensures r.depcnt != s.depcnt ==> r.depcnt in depcnt && r.depcnt.id != g.id && Get(r.depcnt.attrs.drval1).Some?
    ensures r.udwhaz != s.udwhaz ==> r.udwhaz in udwhaz && OfferedDepth(r.udwhaz).Some?
    ensures r.depval != s.depval ==> r.depval in depval
    ensures !(g.name == "TOPMAR" || g.name == "LIGHTS" || IsContourLine(g) || IsHazard(g.name)) ==> r == s
  {
    if g.name == "TOPMAR" then
      s.(topmar := if s.topmar != null then s.topmar else FirstOverlap(g.ext, topmar))
    else if g.name == "BOYLAT" then s
    else if g.name == "LIGHTS" then
      s.(lights := if s.lights != null then s.lights else FirstLaterLight(g.id, g.ext, lights))
    else if IsContourLine(g) then
      if LineDepth(g).Absent? || g.pts == [] then s
      else
        var start := if LineDepth(g).Val? then LineDepth(g).v else UNKNOWN_DEPTH;
        ContourScanLinkIn(g, g.pts[0].x, g.pts[0].y, start, s.depcnt, depcnt);
        s.(depcnt := ContourScan(g, g.pts[0].x, g.pts[0].y, start, s.depcnt, depcnt).1)
    else if IsHazard(g.name) && g.pts != [] then
      var p := DepvalPoint(g.pts);
      HazardScanLinks(g, g.pts[0].x, g.pts[0].y, s.udwhaz, udwhaz);
      DepvalScanLinks(g, p.x, p.y, s.depval, depval);
      s.(udwhaz := HazardScan(g, g.pts[0].x, g.pts[0].y, s.udwhaz, udwhaz).1,
         depval := DepvalScan(g, p.x, p.y, s.depval, depval).link)
    else s
  }

  // ---- the scans as loops ----

  /** The topmark scan (and the buoy's light scan, which stops at the same
    * first match). */
  method FindFirstOverlap(ext: Extent, list: seq<Geo>) returns (r: Geo?)
    ensures r == FirstOverlap(ext, list)
  {
    r := null;
    var i := 0;
    while i < |list|
      invariant 0 <= i <= |list|
      invariant r == FirstOverlap(ext, list[..i])
    {
      FirstOverlapExtend(ext, list, i);
      if Overlap(ext, list[i].ext) && r == null {
        r := list[i];
      }
      i := i + 1;
    }
    assert list[..i] == list;
  }

  /** The light scan: the first later light at the same position. */
  method FindLaterLight(id: nat, ext: Extent, list: seq<Geo>) returns (r: Geo?)
    ensures r == FirstLaterLight(id, ext, list)
  {
    r := null;
    var i := 0;
    while i < |list|
      invariant 0 <= i <= |list|
      invariant r == null && FirstLaterLight(id, ext, list[..i]) == null
    {
      FirstLaterLightExtend(id, ext, list, i);
      if list[i].id > id && Overlap(ext, list[i].ext) {
        FirstLaterLightAt(id, ext, list, i);
        return list[i];
      }
      i := i + 1;
    }
    assert list[..i] == list;
  }

  /** The contour scan. */
  method ScanContours(g: Geo, x: real, y: real, start: real, link: Geo?, list: seq<Geo>)
    returns (depth: real, l: Geo?)
    ensures (depth, l) == ContourScan(g, x, y, start, link, list)
  {
    depth, l := start, link;
    var i := 0;
    while i < |list|
      invariant 0 <= i <= |list|
      invariant (depth, l) == ContourScan(g, x, y, start, link, list[..i])
    {
      var c := list[i];
      assert list[..i + 1][..i] == list[..i];
      if c.id != g.id && SameExtent(g, c) && c.inSet(x, y) && Get(c.attrs.drval1).Some? {
        var d := Get(c.attrs.drval1).value;
        if depth == UNKNOWN_DEPTH {
          depth := d;
        } else if d > depth {
          depth, l := d, c;
        }
      }
      i := i + 1;
    }
    assert list[..i] == list;
  }

  /** The hazard scan for the deepest group-1 feature under a hazard. */
  method ScanHazardDepths(g: Geo, x: real, y: real, link: Geo?, list: seq<Geo>)
    returns (depth: real, l: Geo?)
    ensures (depth, l) == HazardScan(g, x, y, link, list)
  {
    depth, l := UNKNOWN_DEPTH, link;
    var i := 0;
    while i < |list|
      invariant 0 <= i <= |list|
      invariant (depth, l) == HazardScan(g, x, y, link, list[..i])
    {
      var c := list[i];
      assert list[..i + 1][..i] == list[..i];
      if HazardTouches(g, x, y, c) {
        var offered := if c.kind == Line then Get(c.attrs.drval2) else Get(c.attrs.drval1);
        if offered.Some? && offered.value > depth {
          depth, l := offered.value, c;
        }
      }
      i := i + 1;
    }
    assert list[..i] == list;
  }

  /** The least-depth scan under a hazard. */
  method ScanLeastDepth(g: Geo, x: real, y: real, link: Geo?, list: seq<Geo>) returns (s: DepvalState)
    ensures s == DepvalScan(g, x, y, link, list)
  {
    var least: Option<real> := None;
    var l := link;
    var i := 0;
    while i < |list|
      invariant 0 <= i <= |list|
      invariant DepvalScan(g, x, y, link, list[..i]) == DepvalState(least, l, false)
    {
      var c := list[i];
      assert list[..i + 1][..i] == list[..i];
      if DepvalTouches(g, x, y, c) {
        if c.name == "UNSARE" {
          l := c;
          DepvalStopped(g, x, y, link, list, i + 1);
          assert list[..i + 1] + list[i + 1..] == list;
          return DepvalState(least, l, true);
        }
        if l == null {
          l := c;
        } else if Get(c.attrs.drval1).Some? {
          var d := Get(c.attrs.drval1).value;
          if least.None? || d >= least.value {
            least, l := Some(d), c;
          }
        }
      }
      i := i + 1;
    }
    assert list[..i] == list;
    return DepvalState(least, l, false);
  }

  // ---- lemmas about the scans ----

  /** Looking one element further keeps the first overlap found so far. */
  lemma FirstOverlapExtend(ext: Extent, list: seq<Geo>, i: nat)
    requires i < |list|
    ensures FirstOverlap(ext, list[..i + 1]) ==
      (if FirstOverlap(ext, list[..i]) != null then FirstOverlap(ext, list[..i])
       else if Overlap(ext, list[i].ext) then list[i] else null)
  {
    assert list[..i + 1] == list[..i] + [list[i]];
    assert [list[i]][1..] == [];
    FirstOverlapSplit(ext, list[..i], [list[i]]);
  }

  /** The first overlap of a concatenation is found in its first part if
    * there is one there. */
  lemma {:induction false} FirstOverlapSplit(ext: Extent, a: seq<Geo>, b: seq<Geo>)
    ensures FirstOverlap(ext, a + b) ==
      (if FirstOverlap(ext, a) != null then FirstOverlap(ext, a) else FirstOverlap(ext, b))
    decreases |a|
  {
    if a != [] {
      assert (a + b)[1..] == a[1..] + b;
      FirstOverlapSplit(ext, a[1..], b);
    } else {
      assert a + b == b;
    }
  }

  lemma FirstLaterLightExtend(id: nat, ext: Extent, list: seq<Geo>, i: nat)
    requires i < |list|
    ensures FirstLaterLight(id, ext, list[..i + 1]) ==
      (if FirstLaterLight(id, ext, list[..i]) != null then FirstLaterLight(id, ext, list[..i])
       else if list[i].id > id && Overlap(ext, list[i].ext) then list[i] else null)
  {
    assert list[..i + 1] == list[..i] + [list[i]];
    assert [list[i]][1..] == [];
    FirstLaterLightSplit(id, ext, list[..i], [list[i]]);
  }

  /** The first qualifying light found at `i` is the first of the whole list. */
  lemma FirstLaterLightAt(id: nat, ext: Extent, list: seq<Geo>, i: nat)
    requires i < |list| && list[i].id > id && Overlap(ext, list[i].ext)
    requires FirstLaterLight(id, ext, list[..i]) == null
    ensures FirstLaterLight(id, ext, list) == list[i]
  {
    FirstLaterLightSplit(id, ext, list[..i], list[i..]);
    assert list[..i] + list[i..] == list;
  }

  lemma {:induction false} FirstLaterLightSplit(id: nat, ext: Extent, a: seq<Geo>, b: seq<Geo>)
    ensures FirstLaterLight(id, ext, a + b) ==
      (if FirstLaterLight(id, ext, a) != null then FirstLaterLight(id, ext, a) else FirstLaterLight(id, ext, b))
    decreases |a|
  {
    if a != [] {
      assert (a + b)[1..] == a[1..] + b;
      FirstLaterLightSplit(id, ext, a[1..], b);
    } else {
      assert a + b == b;
    }
  }

  /** Once an unsurveyed area stops the least-depth scan, the rest of the
    * list changes nothing. */
  lemma {:induction false} DepvalStopped(g: Geo, x: real, y: real, link: Geo?, list: seq<Geo>, i: nat)
    requires i <= |list|
    requires DepvalScan(g, x, y, link, list[..i]).stopped
    ensures DepvalScan(g, x, y, link, list) == DepvalScan(g, x, y, link, list[..i])
    decreases |list| - i
  {
    if i < |list| {
      assert list[..i + 1][..i] == list[..i];
      DepvalStopped(g, x, y, link, list, i + 1);
    } else {
      assert list[..i] == list;
    }
  }

  /** A hazard's deepest-area link, once changed, is a touching feature of
    * the list offering exactly the depth tracked, and that depth is at
    * least the depth every touching feature offers. */
  lemma {:induction false} HazardScanLinks(g: Geo, x: real, y: real, link: Geo?, list: seq<Geo>)
    ensures var (depth, l) := HazardScan(g, x, y, link, list);
      depth >= UNKNOWN_DEPTH &&
      (depth == UNKNOWN_DEPTH ==> l == link) &&
      (depth > UNKNOWN_DEPTH ==> l in list && HazardTouches(g, x, y, l) && OfferedDepth(l) == Some(depth)) &&
      (forall k :: 0 <= k < |list| && HazardTouches(g, x, y, list[k]) && OfferedDepth(list[k]).Some? ==>
         OfferedDepth(list[k]).value <= depth)
    decreases |list|
  {
    if list != [] {
      var init := list[..|list| - 1];
      HazardScanLinks(g, x, y, link, init);
      forall k | 0 <= k < |list| - 1
        ensures list[k] == init[k]
      {
      }
    }
  }

  /** The least-depth link is null only when it was and no feature of the
    * list touches the hazard; an unsurveyed area stops the scan, and the
    * first touching one is the area linked. */
  lemma {:induction false} DepvalScanLinks(g: Geo, x: real, y: real, link: Geo?, list: seq<Geo>)
    ensures var s := DepvalScan(g, x, y, link, list);
      (s.link == null <==> link == null && forall k :: 0 <= k < |list| ==> !DepvalTouches(g, x, y, list[k])) &&
      (s.link != link ==> s.link in list) &&
      (s.stopped <==> exists k :: 0 <= k < |list| && DepvalTouches(g, x, y, list[k]) && list[k].name == "UNSARE") &&
      (forall k :: (0 <= k < |list| && DepvalTouches(g, x, y, list[k]) && list[k].name == "UNSARE" &&
         (forall j :: 0 <= j < k ==> !(DepvalTouches(g, x, y, list[j]) && list[j].name == "UNSARE"))) ==>
         s.link == list[k])
    decreases |list|
  {
    if list != [] {
      var init := list[..|list| - 1];
      DepvalScanLinks(g, x, y, link, init);
      forall k | 0 <= k < |list| - 1
        ensures list[k] == init[k]
      {
      }
    }
  }

  /** A changed contour link is a candidate area of the list. */
  lemma {:induction false} ContourScanLinkIn(g: Geo, x: real, y: real, start: real, link: Geo?, list: seq<Geo>)
    ensures var l := ContourScan(g, x, y, start, link, list).1;
      l != link ==> l in list && ContourCandidate(g, x, y, l)
    decreases |list|
  {
    if list != [] {
      ContourScanLinkIn(g, x, y, start, link, list[..|list| - 1]);
    }
  }

  /** The contour link, once changed, is a candidate area of the list whose
    * DRVAL1 is the depth tracked, strictly deeper than the line's own
    * known depth, and at least as deep as every candidate's DRVAL1. */
  lemma {:induction false} ContourScanLinks(g: Geo, x: real, y: real, start: real, link: Geo?, list: seq<Geo>)
    requires forall k :: 0 <= k < |list| && ContourCandidate(g, x, y, list[k]) ==>
      Get(list[k].attrs.drval1).value != UNKNOWN_DEPTH
    ensures var (depth, l) := ContourScan(g, x, y, start, link, list);
      (depth == UNKNOWN_DEPTH ==> (start == UNKNOWN_DEPTH && l == link &&
         forall k :: 0 <= k < |list| ==> !ContourCandidate(g, x, y, list[k]))) &&
      (start != UNKNOWN_DEPTH ==> depth >= start) &&
      (l != link ==> (l in list && ContourCandidate(g, x, y, l) && Get(l.attrs.drval1) == Some(depth) &&
         (start != UNKNOWN_DEPTH ==> depth > start))) &&
      (depth != UNKNOWN_DEPTH ==> forall k :: 0 <= k < |list| && ContourCandidate(g, x, y, list[k]) ==>
         Get(list[k].attrs.drval1).value <= depth)
    decreases |list|
  {
    if list != [] {
      var init := list[..|list| - 1];
      forall k | 0 <= k < |list| - 1
        ensures list[k] == init[k]
      {
      }
      ContourScanLinks(g, x, y, start, link, init);
    }
  }
}
