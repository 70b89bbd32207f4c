/** The chart objects the procedures look at: an S-57 feature with its
  * decoded attributes, its geometry and the per-feature state the
  * procedures and the touch pass update (touch links, display scale and
  * the sector-arc flag), plus the mariner's parameters. */
module Chart {
  import opened Basics
  import opened Instructions

  /** The depth sentinel of the source: "no depth known". */
  const UNKNOWN_DEPTH: real := -1000.0

  datatype Kind = Point | Line | Area

  /** A numeric attribute as stored: absent, present with the empty-number
    * marker, or a value. */
  datatype Num = Absent | Empty | Val(v: real)

  /** The usual attribute lookup, where the empty-number marker reads as absent. */
  function Get(n: Num): (r: Option<real>)
    ensures r.Some? <==> n.Val?
    ensures r.Some? ==> r.value == n.v
  {
    if n.Val? then Some(n.v) else None
  }

  /** The attributes the procedures read. Numbers come decoded; the
    * single-letter codes (WATLEV, CATOBS, CATWRK, CONDTN, CONRAD) are the
    * first character of the attribute text, since that is all the source
    * looks at; coded lists and free texts stay text. */
  datatype Attrs = Attrs(
    drval1: Num, drval2: Num, valdco: Num, valsou: Num, sectr1: Num, sectr2: Num,
    quapos: Option<int>, catslc: Option<int>, topshp: Option<int>,
    watlev: Option<char>, catobs: Option<char>, catwrk: Option<char>,
    condtn: Option<char>, conrad: Option<char>,
    restrn: Option<string>, catrea: Option<string>, catlit: Option<string>,
    colour: Option<string>, litchr: Option<string>, litvis: Option<string>,
    status: Option<string>, quasou: Option<string>, tecsou: Option<string>,
    orient: Option<string>, siggrp: Option<string>, sigper: Option<string>,
    height: Option<string>, valnmr: Option<string>)

  const NoAttrs := Attrs(
    Absent, Absent, Absent, Absent, Absent, Absent,
    None, None, None,
    None, None, None, None, None,
    None, None, None, None, None, None, None, None, None,
    None, None, None, None, None)

  /** A bounding box. */
  datatype Extent = Extent(xmin: real, ymin: real, xmax: real, ymax: real)

  /** Whether two bounding boxes share a point. */
  predicate Overlap(a: Extent, b: Extent) {
    a.xmin <= b.xmax && b.xmin <= a.xmax && a.ymin <= b.ymax && b.ymin <= a.ymax
  }

  datatype Pt = Pt(x: real, y: real, z: real)

  /** The display-scale minimum of a feature: as loaded, reset, or forced so
    * that the feature shows at every scale. */
  datatype Scamin = Loaded | Reset | Infinite

  /** What a procedure that also sets the display scale hands back: its
    * instructions (None when it produces no string at all) and the SCAMIN
    * it leaves on the feature. */
  datatype Drawn = Drawn(instr: Option<seq<Instr>>, scamin: Scamin)

  /** The `_extend_arc_radius` attribute a sector light keeps: unset, "Y" or "N". */
  datatype ArcFlag = ArcUnset | ArcYes | ArcNo

  /** The mariner's parameters the procedures read. The three switches are
    * numbers like the others and count as on when their integer part is 1. */
  datatype Params = Params(
    safetyContour: real, shallowContour: real, deepContour: real,
    safetyDepth: real, datumOffset: real,
    twoShades: real, shallowPattern: real, symbolizedBoundaries: real)

  predicate IsOn(v: real) {
    Trunc(v) == 1
  }

  /** One chart feature. The three point tests stand for the geometry code,
    * which is not part of this model: whether a point lies in the feature's
    * point set, on its line, or in its area. */
  class Geo {
    const id: nat
    const name: string
    const kind: Kind
    const attrs: Attrs
    const ext: Extent
    const pts: seq<Pt>
    const inSet: (real, real) -> bool
    const onLine: (real, real) -> bool
    const inArea: (real, real) -> bool

    var touchTopmar: Geo?
    var touchLights: Geo?
    var touchDepcnt: Geo?
    var touchUdwhaz: Geo?
    var touchDepval: Geo?
    var scamin: Scamin
    var arc: ArcFlag

    constructor (id: nat, name: string, kind: Kind, attrs: Attrs, ext: Extent, pts: seq<Pt>,
                 inSet: (real, real) -> bool, onLine: (real, real) -> bool, inArea: (real, real) -> bool)
      ensures this.id == id && this.name == name && this.kind == kind && this.attrs == attrs
      ensures this.ext == ext && this.pts == pts
      ensures this.inSet == inSet && this.onLine == onLine && this.inArea == inArea
      ensures touchTopmar == null && touchLights == null && touchDepcnt == null
      ensures touchUdwhaz == null && touchDepval == null
      ensures scamin == Loaded && arc == ArcUnset
    {
      this.id := id;
      this.name := name;
      this.kind := kind;
      this.attrs := attrs;
      this.ext := ext;
      this.pts := pts;
      this.inSet := inSet;
      this.onLine := onLine;
      this.inArea := inArea;
      touchTopmar := null;
      touchLights := null;
      touchDepcnt := null;
      touchUdwhaz := null;
      touchDepval := null;
      scamin := Loaded;
      arc := ArcUnset;
    }
  }

  /** `S57_cmpGeoExt`: the two features' extents overlap. */
  predicate SameExtent(a: Geo, b: Geo) {
    Overlap(a.ext, b.ext)
  }
}
