/** inkbridge-convert/src/virtual_spread.rs over the reals: one page's mapping into a two-page spread. */
module Spread {
  import opened Affines
  import opened Wrappers

  const TOLERANCE: real := 0.000000000001

  const MAX_PAGE_INDEX: nat := 0x7FFF_FFFF

  datatype Side = Left | Right

  datatype Rect = Rect(left: real, bottom: real, right: real, top: real) {
    predicate Positive() {
      left < right && bottom < top
    }

    function Width(): real {
      right - left
    }

    function Height(): real {
      top - bottom
    }
  }

  datatype Size = Size(width: real, height: real)

  /** A page's record in the sidecar. */
  datatype PageRecord = PageRecord(
    sourcePage: nat, sourceNumber: Option<nat>, virtualPage: nat, virtualNumber: Option<nat>, side: string,
    rotation: nat, sourceBox: Rect, normalizedBox: Rect, slot: Rect, destination: Rect, scale: real,
    transform: AffineTransform)

  /** A page's accepted mapping. */
  datatype PageMapping = PageMapping(
    sourcePage: nat, virtualPage: nat, side: Side, rotation: nat, sourceBox: Rect, normalizedBox: Rect, slot: Rect,
    destination: Rect, scale: real, forward: AffineTransform)

  predicate QuarterTurn(rotation: nat) {
    rotation in {0, 90, 180, 270}
  }

  predicate Within(a: real, b: real) {
    Abs(a - b) <= TOLERANCE
  }

  predicate RectWithin(a: Rect, b: Rect) {
    Within(a.left, b.left) && Within(a.bottom, b.bottom) && Within(a.right, b.right) && Within(a.top, b.top)
  }

  predicate Normalized(p: AffinePoint) {
    0.0 <= p.x <= 1.0 && 0.0 <= p.y <= 1.0
  }

  // ---------------------------------------------------------------- points

  predicate Sound(m: PageMapping) {
    QuarterTurn(m.rotation) && m.sourceBox.Positive()
  }

  function CanonicalToOriginal(m: PageMapping, p: AffinePoint): AffinePoint
    requires Sound(m)
  {
    var box, w, h := m.sourceBox, m.sourceBox.Width(), m.sourceBox.Height();
    if m.rotation == 0 then AffinePoint(box.left + p.x * w, box.top - p.y * h)
    else if m.rotation == 90 then AffinePoint(box.left + p.y * w, box.bottom + p.x * h)
    else if m.rotation == 180 then AffinePoint(box.right - p.x * w, box.bottom + p.y * h)
    else AffinePoint(box.right - p.y * w, box.top - p.x * h)
  }

  function OriginalToCanonical(m: PageMapping, p: AffinePoint): AffinePoint
    requires Sound(m)
  {
    var box, w, h := m.sourceBox, m.sourceBox.Width(), m.sourceBox.Height();
    if m.rotation == 0 then AffinePoint((p.x - box.left) / w, (box.top - p.y) / h)
    else if m.rotation == 90 then AffinePoint((p.y - box.bottom) / h, (p.x - box.left) / w)
    else if m.rotation == 180 then AffinePoint((box.right - p.x) / w, (p.y - box.bottom) / h)
    else AffinePoint((box.top - p.y) / h, (box.right - p.x) / w)
  }

  function CanonicalToSpread(m: PageMapping, p: AffinePoint): Result<AffinePoint, string>
    requires Sound(m)
  {
    if !Normalized(p) then Failure("outside normalized bounds")
    else Success(m.forward.Apply(CanonicalToOriginal(m, p)))
  }

  /** A coordinate moved to an edge it is within tolerance of. */
  function Snap(v: real): real {
    if Abs(v) <= TOLERANCE then 0.0 else if Abs(v - 1.0) <= TOLERANCE then 1.0 else v
  }

  function Clamp(v: real): Result<real, string> {
    if !(-TOLERANCE <= v <= 1.0 + TOLERANCE) then Failure("inverse outside normalized bounds") else Success(Snap(v))
  }

  function ClampPoint(p: AffinePoint): Result<AffinePoint, string> {
    var x :- Clamp(p.x);
    var y :- Clamp(p.y);
    Success(AffinePoint(x, y))
  }

  function SpreadToCanonical(m: PageMapping, p: AffinePoint): Result<AffinePoint, string>
    requires Sound(m)
  {
    var inverse :- m.forward.Inverse();
    var canonical :- ClampPoint(OriginalToCanonical(m, inverse.Apply(p)));
    var reproduced :- CanonicalToSpread(m, canonical);
    if !Within(reproduced.x, p.x) || !Within(reproduced.y, p.y) then Failure("inverse round trip exceeded tolerance")
    else Success(canonical)
  }

  // ---------------------------------------------------------------- accepting a mapping

  /** Where a source page belongs: right to left, with the cover alone on the right when it is separate. */
  predicate PlacementMatches(sourcePage: nat, virtualPage: nat, side: Side, cover: bool) {
    if cover && sourcePage == 0 then virtualPage == 0 && side == Right
    else
      var first := if cover then 1 else 0;
      if sourcePage < first then false
      else
        var offset := sourcePage - first;
        virtualPage == first + offset / 2 && side == if offset % 2 == 0 then Right else Left
  }

  function Next(index: nat): nat {
    if index >= 0xFFFF_FFFF then 0xFFFF_FFFF else index + 1
  }

  predicate NumbersAgree(page: PageRecord) {
    && (page.sourceNumber.Some? ==> page.sourceNumber.value == Next(page.sourcePage))
    && (page.virtualNumber.Some? ==> page.virtualNumber.value == Next(page.virtualPage))
  }

  function SideName(side: Side): string {
    if side == Left then "left" else "right"
  }

  function SideNamed(name: string): Option<Side> {
    if name == "left" then Some(Left) else if name == "right" then Some(Right) else None
  }

  predicate DimensionsAgree(page: PageRecord) {
    var w, h := page.sourceBox.Width(), page.sourceBox.Height();
    var upright := page.rotation == 0 || page.rotation == 180;
    && Within(page.normalizedBox.Width(), if upright then w else h)
    && Within(page.normalizedBox.Height(), if upright then h else w)
  }

  predicate GeometryValid(size: Size, gutter: real) {
    size.width > 0.0 && size.height > 0.0 && 0.0 <= gutter < size.width
  }

  function SlotWidth(size: Size, gutter: real): real {
    (size.width - gutter) / 2.0
  }

  function ExpectedSlot(side: Side, size: Size, gutter: real): Rect {
    if side == Left then Rect(0.0, 0.0, SlotWidth(size, gutter), size.height)
    else Rect(SlotWidth(size, gutter) + gutter, 0.0, size.width, size.height)
  }

  /** The largest scale at which the page fits its slot. */
  function ExpectedScale(page: PageRecord, size: Size, gutter: real): real
    requires page.normalizedBox.Positive()
  {
    Min(SlotWidth(size, gutter) / page.normalizedBox.Width(), size.height / page.normalizedBox.Height())
  }

  /** A rectangle of the given size centred in the slot that begins at `left`. */
  function Centred(left: real, slotWidth: real, slotHeight: real, width: real, height: real): Rect {
    Rect(left + (slotWidth - width) / 2.0, (slotHeight - height) / 2.0,
         left + (slotWidth + width) / 2.0, (slotHeight + height) / 2.0)
  }

  /** The page at its scale, centred in its slot. */
  function Fit(page: PageRecord, side: Side, size: Size, gutter: real): Rect {
    Centred(ExpectedSlot(side, size, gutter).left, SlotWidth(size, gutter), size.height,
            page.normalizedBox.Width() * page.scale, page.normalizedBox.Height() * page.scale)
  }

  predicate OrientationExact(page: PageRecord) {
    var s, t := page.scale, page.transform;
    if page.rotation == 0 then t.a == s && t.b == 0.0 && t.c == 0.0 && t.d == s
    else if page.rotation == 90 then t.a == 0.0 && t.b == -s && t.c == s && t.d == 0.0
    else if page.rotation == 180 then t.a == -s && t.b == 0.0 && t.c == 0.0 && t.d == -s
    else t.a == 0.0 && t.b == s && t.c == -s && t.d == 0.0
  }

  function Corners(m: PageMapping): seq<AffinePoint> {
    [m.forward.Apply(AffinePoint(m.sourceBox.left, m.sourceBox.bottom)),
     m.forward.Apply(AffinePoint(m.sourceBox.left, m.sourceBox.top)),
     m.forward.Apply(AffinePoint(m.sourceBox.right, m.sourceBox.bottom)),
     m.forward.Apply(AffinePoint(m.sourceBox.right, m.sourceBox.top))]
  }

  function Least(a: real, b: real, c: real, d: real): real {
    Min(Min(Min(a, b), c), d)
  }

  function Greatest(a: real, b: real, c: real, d: real): real {
    Max(Max(Max(a, b), c), d)
  }

  function TransformedBounds(m: PageMapping): Rect {
    Bounding(Corners(m))
  }

  function Bounding(c: seq<AffinePoint>): Rect
    requires |c| == 4
  {
    Rect(Least(c[0].x, c[1].x, c[2].x, c[3].x), Least(c[0].y, c[1].y, c[2].y, c[3].y),
         Greatest(c[0].x, c[1].x, c[2].x, c[3].x), Greatest(c[0].y, c[1].y, c[2].y, c[3].y))
  }

  function Parsed(page: PageRecord, side: Side): PageMapping {
    PageMapping(page.sourcePage, page.virtualPage, side, page.rotation, page.sourceBox, page.normalizedBox, page.slot,
                page.destination, page.scale, page.transform)
  }

  const PROBES: seq<AffinePoint> := [
    AffinePoint(0.0, 0.0), AffinePoint(1.0, 0.0), AffinePoint(0.0, 1.0), AffinePoint(1.0, 1.0), AffinePoint(0.5, 0.5),
    AffinePoint(0.123456789, 0.876543211)]

  /** The mapping takes each probe to the spread and back to within tolerance. */
  function CheckProbes(m: PageMapping, probes: seq<AffinePoint>): Result<(), string>
    requires Sound(m)
  {
    if probes == [] then Success(())
    else
      var spread :- CanonicalToSpread(m, probes[0]);
      var recovered :- SpreadToCanonical(m, spread);
      if !Within(recovered.x, probes[0].x) || !Within(recovered.y, probes[0].y) then Failure("round trip is unstable")
      else CheckProbes(m, probes[1..])
  }

  function CheckPlacement(page: PageRecord, cover: bool): Result<Side, string> {
    if page.sourcePage > MAX_PAGE_INDEX || page.virtualPage > MAX_PAGE_INDEX then Failure("index exceeds int32")
    else if !NumbersAgree(page) then Failure("display page number disagrees with index")
    else if SideNamed(page.side).None? then Failure("side must be left or right")
    else if !PlacementMatches(page.sourcePage, page.virtualPage, SideNamed(page.side).value, cover) then
      Failure("placement disagrees with cover parity")
    else Success(SideNamed(page.side).value)
  }

  function CheckGeometry(page: PageRecord, side: Side, size: Size, gutter: real): Result<(), string> {
    if !QuarterTurn(page.rotation) then Failure("rotation is not a quarter turn")
    else if !(page.sourceBox.Positive() && page.normalizedBox.Positive() && page.slot.Positive() && page.destination.Positive()) then
      Failure("not a positive rectangle")
    else if page.scale <= 0.0 then Failure("scale must be positive")
    else if !DimensionsAgree(page) then Failure("normalized dimensions disagree with rotation")
    else if !RectWithin(page.slot, ExpectedSlot(side, size, gutter)) then Failure("slot is not the declared half")
    else if !Within(page.scale, ExpectedScale(page, size, gutter)) then Failure("scale is not the uniform slot fit")
    else if !RectWithin(page.destination, Fit(page, side, size, gutter)) then Failure("destination is not centred")
    else if !OrientationExact(page) then Failure("skew, reflection or wrong rotation")
    else Success(())
  }

  function ValidateMapping(page: PageRecord, cover: bool, size: Size, gutter: real): Result<PageMapping, string> {
    var side :- CheckPlacement(page, cover);
    var checked :- CheckGeometry(page, side, size, gutter);
    var inverse :- page.transform.Inverse();
    var m := Parsed(page, side);
    if !RectWithin(TransformedBounds(m), page.destination) then Failure("corners do not bound destination")
    else
      var probed :- CheckProbes(m, PROBES);
      Success(m)
  }

  // ---------------------------------------------------------------- the inverse is exact

  /** What an accepted mapping guarantees about its transform. */
  ghost predicate Oriented(m: PageMapping) {
    && Sound(m) && m.scale > 0.0
    && var s, t := m.scale, m.forward;
    if m.rotation == 0 then t.a == s && t.b == 0.0 && t.c == 0.0 && t.d == s
    else if m.rotation == 90 then t.a == 0.0 && t.b == -s && t.c == s && t.d == 0.0
    else if m.rotation == 180 then t.a == -s && t.b == 0.0 && t.c == 0.0 && t.d == -s
    else t.a == 0.0 && t.b == s && t.c == -s && t.d == 0.0
  }

  /** A quarter turn by a positive scale always has an inverse. */
  lemma OrientedInvertible(m: PageMapping)
    requires Oriented(m)
    ensures m.forward.Inverse().Success?
  {
    var s := m.scale;
    assert m.forward.LinearScale() == s;
    assert s / s == 1.0 && -s / s == -1.0 && 0.0 / s == 0.0;
  }

  lemma Undone(base: real, v: real, w: real)
    requires w > 0.0
    ensures (base + v * w - base) / w == v && (base - (base - v * w)) / w == v
  {
    assert v * w / w == v;
  }

  lemma OriginalRoundTrip(m: PageMapping, p: AffinePoint)
    requires Sound(m)
    ensures OriginalToCanonical(m, CanonicalToOriginal(m, p)) == p
  {
    var box, turned := m.sourceBox, m.rotation in {90, 270};
    var u, v := if turned then p.y else p.x, if turned then p.x else p.y;
    Undone(if m.rotation in {0, 90} then box.left else box.right, u, box.Width());
    Undone(if m.rotation in {90, 180} then box.bottom else box.top, v, box.Height());
  }

  // ---------------------------------------------------------------- where points land

  /** The point of `r` at the given fractions of its width from the left and of its height from the top. */
  function Interpolated(r: Rect, p: AffinePoint): AffinePoint {
    AffinePoint(r.left + p.x * r.Width(), r.top - p.y * r.Height())
  }

  lemma Ordered(s: real, a: real, b: real)
    requires s > 0.0 && a < b
    ensures s * a < s * b && -s * b < -s * a
  {
  }

  /** The forward transform of an accepted mapping, without the terms its zeros remove. */
  function Turned(m: PageMapping, x: real, y: real): AffinePoint {
    Placed(m, m.scale * x, m.scale * y)
  }

  /** A quarter turn of (x, y) and the transform's offsets. */
  function Placed(m: PageMapping, x: real, y: real): AffinePoint {
    var e, f := m.forward.e, m.forward.f;
    if m.rotation == 0 then AffinePoint(x + e, y + f)
    else if m.rotation == 90 then AffinePoint(y + e, -x + f)
    else if m.rotation == 180 then AffinePoint(-x + e, -y + f)
    else AffinePoint(-y + e, x + f)
  }

  lemma Turns(m: PageMapping, x: real, y: real)
    requires Oriented(m)
    ensures m.forward.Apply(AffinePoint(x, y)) == Turned(m, x, y)
  {
    var t, s := m.forward, m.scale;
    if m.rotation in {0, 180} {
      var k := if m.rotation == 0 then s else -s;
      FirstOnly(t.a, t.c, k, x, y);
      FirstOnly(t.d, t.b, k, y, x);
    } else {
      var k := if m.rotation == 90 then s else -s;
      FirstOnly(t.c, t.a, k, y, x);
      FirstOnly(t.b, t.d, -k, x, y);
    }
    Negated(s, x);
    Negated(s, y);
  }

  lemma FirstOnly(a: real, c: real, k: real, x: real, y: real)
    requires a == k && c == 0.0
    ensures a * x + c * y == k * x
  {
    Substituted(a, k, x);
    Substituted(c, 0.0, y);
  }

  /** Multiplication as a function, so that equal factors give equal products. */
  function Times(a: real, b: real): real {
    a * b
  }

  lemma Substituted(a: real, k: real, x: real)
    requires a == k
    ensures a * x == k * x
  {
    assert Times(a, x) == Times(k, x);
  }

  lemma Negated(s: real, x: real)
    ensures -s * x == -(s * x)
  {
  }

  /** The bounds of the transformed page, whose lower left corner is canonical (0, 1) and upper right (1, 0). */
  function Bounds(m: PageMapping): Rect {
    var s, box := m.scale, m.sourceBox;
    PlacedBounds(m, s * box.left, s * box.bottom, s * box.right, s * box.top)
  }

  function PlacedBounds(m: PageMapping, l: real, b: real, r: real, t: real): Rect {
    var e, f := m.forward.e, m.forward.f;
    if m.rotation == 0 then Rect(l + e, b + f, r + e, t + f)
    else if m.rotation == 90 then Rect(b + e, -r + f, t + e, -l + f)
    else if m.rotation == 180 then Rect(-r + e, -t + f, -l + e, -b + f)
    else Rect(-t + e, l + f, -b + e, r + f)
  }

  function TurnedCorners(m: PageMapping): seq<AffinePoint> {
    var box := m.sourceBox;
    [Turned(m, box.left, box.bottom), Turned(m, box.left, box.top),
     Turned(m, box.right, box.bottom), Turned(m, box.right, box.top)]
  }

  lemma CornersTurn(m: PageMapping)
    requires Oriented(m)
    ensures Corners(m) == TurnedCorners(m)
  {
    var box := m.sourceBox;
    Turns(m, box.left, box.bottom);
    Turns(m, box.left, box.top);
    Turns(m, box.right, box.bottom);
    Turns(m, box.right, box.top);
  }

  lemma TurnedBounded(m: PageMapping, l: real, b: real, r: real, t: real, c: seq<AffinePoint>)
    requires QuarterTurn(m.rotation) && l < r && b < t
    requires c == [Placed(m, l, b), Placed(m, l, t), Placed(m, r, b), Placed(m, r, t)]
    ensures Bounding(c) == PlacedBounds(m, l, b, r, t) && PlacedBounds(m, l, b, r, t).Positive()
  {
    Bounded(c, PlacedBounds(m, l, b, r, t));
  }

  lemma Products(s: real, a: real, b: real) returns (x: real, y: real)
    requires s > 0.0 && a < b
    ensures x == s * a && y == s * b && x < y
  {
    x, y := s * a, s * b;
    Ordered(s, a, b);
  }

  /** The page's edges, scaled. */
  ghost predicate Edges(m: PageMapping, l: real, b: real, r: real, t: real) {
    l == m.scale * m.sourceBox.left && b == m.scale * m.sourceBox.bottom
    && r == m.scale * m.sourceBox.right && t == m.scale * m.sourceBox.top
  }

  lemma CornersNamed(m: PageMapping, l: real, b: real, r: real, t: real)
    requires Edges(m, l, b, r, t)
    ensures TurnedCorners(m) == [Placed(m, l, b), Placed(m, l, t), Placed(m, r, b), Placed(m, r, t)]
  {
    var box := m.sourceBox;
    assert Turned(m, box.left, box.bottom) == Placed(m, l, b) && Turned(m, box.left, box.top) == Placed(m, l, t);
    assert Turned(m, box.right, box.bottom) == Placed(m, r, b) && Turned(m, box.right, box.top) == Placed(m, r, t);
  }

  lemma BoundsNamed(m: PageMapping, l: real, b: real, r: real, t: real)
    requires Edges(m, l, b, r, t)
    ensures Bounds(m) == PlacedBounds(m, l, b, r, t)
  {
  }

  lemma ScaledEdges(m: PageMapping) returns (l: real, b: real, r: real, t: real)
    requires m.scale > 0.0 && m.sourceBox.Positive()
    ensures Edges(m, l, b, r, t) && l < r && b < t
  {
    l, r := Products(m.scale, m.sourceBox.left, m.sourceBox.right);
    b, t := Products(m.scale, m.sourceBox.bottom, m.sourceBox.top);
  }

  lemma BoundsAre(m: PageMapping)
    requires Oriented(m)
    ensures TransformedBounds(m) == Bounds(m) && Bounds(m).Positive()
  {
    CornersTurn(m);
    var l, b, r, t := ScaledEdges(m);
    CornersNamed(m, l, b, r, t);
    BoundsNamed(m, l, b, r, t);
    TurnedBounded(m, l, b, r, t, TurnedCorners(m));
  }

  /** Opposite corners span the bounds. */
  lemma Bounded(c: seq<AffinePoint>, r: Rect)
    requires |c| == 4 && r.Positive()
    requires forall i :: 0 <= i < 4 ==> r.left <= c[i].x <= r.right && r.bottom <= c[i].y <= r.top
    requires (c[0].x == r.left && c[3].x == r.right) || (c[0].x == r.right && c[3].x == r.left)
    requires (c[0].y == r.bottom && c[3].y == r.top) || (c[0].y == r.top && c[3].y == r.bottom)
    ensures Bounding(c) == r
  {
    assert r.left <= c[1].x <= r.right && r.bottom <= c[1].y <= r.top;
    assert r.left <= c[2].x <= r.right && r.bottom <= c[2].y <= r.top;
  }

  lemma Along(s: real, a: real, b: real, v: real, x: real, y: real, o: real)
    requires x == s * a && y == s * b
    ensures o == a + v * (b - a) ==> s * o == x + v * (y - x)
    ensures o == b - v * (b - a) ==> s * o == y - v * (y - x)
  {
  }

  /** The scaled source point of a canonical one, in terms of the scaled edges. */
  function ScaledOriginal(rotation: nat, p: AffinePoint, l: real, b: real, r: real, t: real): AffinePoint {
    if rotation == 0 then AffinePoint(l + p.x * (r - l), t - p.y * (t - b))
    else if rotation == 90 then AffinePoint(l + p.y * (r - l), b + p.x * (t - b))
    else if rotation == 180 then AffinePoint(r - p.x * (r - l), b + p.y * (t - b))
    else AffinePoint(r - p.y * (r - l), t - p.x * (t - b))
  }

  lemma OriginalScales(m: PageMapping, p: AffinePoint, l: real, b: real, r: real, t: real)
    requires Sound(m) && Edges(m, l, b, r, t)
    ensures var o, q := CanonicalToOriginal(m, p), ScaledOriginal(m.rotation, p, l, b, r, t);
            m.scale * o.x == q.x && m.scale * o.y == q.y
  {
    AcrossScales(m, p, l, b, r, t);
    UpScales(m, p, l, b, r, t);
  }

  lemma AcrossScales(m: PageMapping, p: AffinePoint, l: real, b: real, r: real, t: real)
    requires Sound(m) && Edges(m, l, b, r, t)
    ensures m.scale * CanonicalToOriginal(m, p).x == ScaledOriginal(m.rotation, p, l, b, r, t).x
  {
    var v := if m.rotation in {90, 270} then p.y else p.x;
    Along(m.scale, m.sourceBox.left, m.sourceBox.right, v, l, r, CanonicalToOriginal(m, p).x);
  }

  lemma UpScales(m: PageMapping, p: AffinePoint, l: real, b: real, r: real, t: real)
    requires Sound(m) && Edges(m, l, b, r, t)
    ensures m.scale * CanonicalToOriginal(m, p).y == ScaledOriginal(m.rotation, p, l, b, r, t).y
  {
    var v := if m.rotation in {90, 270} then p.x else p.y;
    Along(m.scale, m.sourceBox.bottom, m.sourceBox.top, v, b, t, CanonicalToOriginal(m, p).y);
  }

  lemma PlacedSize(m: PageMapping, l: real, b: real, r: real, t: real)
    requires QuarterTurn(m.rotation)
    ensures var bounds, turned := PlacedBounds(m, l, b, r, t), m.rotation in {90, 270};
            bounds.Width() == (if turned then t - b else r - l) && bounds.Height() == (if turned then r - l else t - b)
  {
  }

  lemma PlacedInterpolates(m: PageMapping, p: AffinePoint, l: real, b: real, r: real, t: real)
    requires QuarterTurn(m.rotation)
    ensures var o := ScaledOriginal(m.rotation, p, l, b, r, t);
            Placed(m, o.x, o.y) == Interpolated(PlacedBounds(m, l, b, r, t), p)
  {
    PlacedAcross(m, p, l, b, r, t);
    PlacedUp(m, p, l, b, r, t);
  }

  lemma PlacedAcross(m: PageMapping, p: AffinePoint, l: real, b: real, r: real, t: real)
    requires QuarterTurn(m.rotation)
    ensures var o := ScaledOriginal(m.rotation, p, l, b, r, t);
            Placed(m, o.x, o.y).x == Interpolated(PlacedBounds(m, l, b, r, t), p).x
  {
    PlacedSize(m, l, b, r, t);
  }

  lemma PlacedUp(m: PageMapping, p: AffinePoint, l: real, b: real, r: real, t: real)
    requires QuarterTurn(m.rotation)
    ensures var o := ScaledOriginal(m.rotation, p, l, b, r, t);
            Placed(m, o.x, o.y).y == Interpolated(PlacedBounds(m, l, b, r, t), p).y
  {
    PlacedSize(m, l, b, r, t);
  }

  lemma SpreadPoint(m: PageMapping, p: AffinePoint, q: AffinePoint)
    requires Oriented(m)
    requires var o := CanonicalToOriginal(m, p); m.scale * o.x == q.x && m.scale * o.y == q.y
    ensures m.forward.Apply(CanonicalToOriginal(m, p)) == Placed(m, q.x, q.y)
  {
    var o := CanonicalToOriginal(m, p);
    Turns(m, o.x, o.y);
    assert Turned(m, o.x, o.y) == Placed(m, q.x, q.y);
  }

  lemma Proportional(m: PageMapping, p: AffinePoint)
    requires Oriented(m)
    ensures m.forward.Apply(CanonicalToOriginal(m, p)) == Interpolated(TransformedBounds(m), p)
  {
    var l, b, r, t := ScaledEdges(m);
    OriginalScales(m, p, l, b, r, t);
    SpreadPoint(m, p, ScaledOriginal(m.rotation, p, l, b, r, t));
    PlacedInterpolates(m, p, l, b, r, t);
    BoundsNamed(m, l, b, r, t);
    BoundsAre(m);
  }

  /** Whatever the rotation, the page appears upright and unreflected: its top left corner goes to the top left of
      the bounds, and every other point in proportion. */
  lemma Upright(m: PageMapping, p: AffinePoint)
    requires Oriented(m) && Normalized(p)
    ensures CanonicalToSpread(m, p) == Success(Interpolated(TransformedBounds(m), p))
  {
    Proportional(m, p);
  }

  // ---------------------------------------------------------------- the way back

  /** The exact preimage of the point at the fractions `p` of the bounds is `p`. */
  lemma ExactPreimage(m: PageMapping, p: AffinePoint)
    requires Oriented(m)
    ensures m.forward.Inverse().Success?
    ensures OriginalToCanonical(m, m.forward.Inverse().value.Apply(Interpolated(TransformedBounds(m), p))) == p
  {
    OrientedInvertible(m);
    Proportional(m, p);
    InverseUndoes(m.forward, CanonicalToOriginal(m, p));
    OriginalRoundTrip(m, p);
  }

  predicate InRange(v: real) {
    -TOLERANCE <= v <= 1.0 + TOLERANCE
  }

  function Snapped(p: AffinePoint): AffinePoint {
    AffinePoint(Snap(p.x), Snap(p.y))
  }

  /** How far, on the spread, snapping a coordinate moves the point. */
  function Shift(v: real, extent: real): real {
    Abs(Snap(v) - v) * extent
  }

  lemma SnapNormalizes(p: AffinePoint)
    requires InRange(p.x) && InRange(p.y)
    ensures Normalized(Snapped(p)) && ClampPoint(p) == Success(Snapped(p))
  {
  }

  lemma ClampRefuses(p: AffinePoint)
    requires !(InRange(p.x) && InRange(p.y))
    ensures ClampPoint(p).Failure?
  {
  }

  lemma ShiftMeasured(r: Rect, p: AffinePoint)
    requires r.Positive()
    ensures Abs(Interpolated(r, Snapped(p)).x - Interpolated(r, p).x) == Shift(p.x, r.Width())
    ensures Abs(Interpolated(r, Snapped(p)).y - Interpolated(r, p).y) == Shift(p.y, r.Height())
  {
    Across(r.left, Snap(p.x), p.x, r.Width());
    Down(r.top, Snap(p.y), p.y, r.Height());
  }

  lemma Across(base: real, u: real, v: real, w: real)
    requires w > 0.0
    ensures Abs(base + u * w - (base + v * w)) == Abs(u - v) * w
  {
    Distance(u, v, w);
  }

  lemma Down(base: real, u: real, v: real, w: real)
    requires w > 0.0
    ensures Abs(base - u * w - (base - v * w)) == Abs(u - v) * w
  {
    Distance(v, u, w);
    assert Abs(u - v) == Abs(v - u);
  }

  lemma Distance(u: real, v: real, w: real)
    requires w > 0.0
    ensures Abs(u * w - v * w) == Abs(u - v) * w
  {
    if u < v {
      ProductNonNegative(v - u, w);
      assert (v - u) * w == v * w - u * w;
    } else {
      ProductNonNegative(u - v, w);
      assert (u - v) * w == u * w - v * w;
    }
  }

  /** What the inverse returns at any point of the spread, written as fractions `p` of the bounds: the fractions
      snapped to the page's edges, unless they lie outside the page or snapping would move the point too far. */
  lemma InverseOutcome(m: PageMapping, p: AffinePoint)
    requires Oriented(m)
    ensures var bounds := TransformedBounds(m);
            var r := SpreadToCanonical(m, Interpolated(bounds, p));
            if InRange(p.x) && InRange(p.y) && Shift(p.x, bounds.Width()) <= TOLERANCE && Shift(p.y, bounds.Height()) <= TOLERANCE
            then r == Success(Snapped(p))
            else r.Failure?
  {
    ExactPreimage(m, p);
    BoundsAre(m);
    if InRange(p.x) && InRange(p.y) {
      SnapNormalizes(p);
      Upright(m, Snapped(p));
      ShiftMeasured(TransformedBounds(m), p);
    } else {
      ClampRefuses(p);
    }
  }

  lemma Fraction(v: real, extent: real) returns (f: real)
    requires extent > 0.0
    ensures f * extent == v
  {
    f := v / extent;
    Divided(v, extent);
  }

  /** Every point of the spread is at some fractions of the bounds. */
  lemma EveryPointInterpolated(r: Rect, q: AffinePoint) returns (p: AffinePoint)
    requires r.Positive()
    ensures q == Interpolated(r, p)
  {
    var x := Fraction(q.x - r.left, r.Width());
    var y := Fraction(r.top - q.y, r.Height());
    p := AffinePoint(x, y);
  }

  /** At an edge, or clear of both edges. */
  predicate Settled(v: real) {
    v == 0.0 || v == 1.0 || (Abs(v) > TOLERANCE && Abs(v - 1.0) > TOLERANCE)
  }

  /** A canonical point survives the trip to the spread and back exactly when each coordinate is settled. */
  lemma RecoveredExactly(m: PageMapping, p: AffinePoint)
    requires Oriented(m) && Normalized(p)
    ensures CanonicalToSpread(m, p).Success?
    ensures SpreadToCanonical(m, CanonicalToSpread(m, p).value) == Success(p) <==> Settled(p.x) && Settled(p.y)
  {
    Upright(m, p);
    InverseOutcome(m, p);
    SettledStays(p.x);
    SettledStays(p.y);
    if Snapped(p) == p {
      NoShift(p.x, TransformedBounds(m).Width());
      NoShift(p.y, TransformedBounds(m).Height());
    }
  }

  lemma SettledStays(v: real)
    ensures Settled(v) <==> Snap(v) == v
  {
  }

  lemma NoShift(v: real, extent: real)
    requires Snap(v) == v
    ensures Shift(v, extent) == 0.0
  {
  }

  // ---------------------------------------------------------------- accepted mappings

  /** The probes at the end of validation cannot fail: each of them is settled. */
  lemma {:induction false} ProbesPass(m: PageMapping, probes: seq<AffinePoint>)
    requires Oriented(m)
    requires forall i :: 0 <= i < |probes| ==> Normalized(probes[i]) && Settled(probes[i].x) && Settled(probes[i].y)
    ensures CheckProbes(m, probes).Success?
    decreases |probes|
  {
    if probes != [] {
      RecoveredExactly(m, probes[0]);
      ProbesPass(m, probes[1..]);
    }
  }

  /** A mapping is accepted exactly when its placement, its geometry and its corners are right; the singularity check
      and the six probes never decide. */
  lemma AcceptedExactly(page: PageRecord, cover: bool, size: Size, gutter: real)
    ensures var side := CheckPlacement(page, cover);
            ValidateMapping(page, cover, size, gutter).Success? <==>
            side.Success? && CheckGeometry(page, side.value, size, gutter).Success?
            && RectWithin(TransformedBounds(Parsed(page, side.value)), page.destination)
  {
    var side := CheckPlacement(page, cover);
    if side.Success? && CheckGeometry(page, side.value, size, gutter).Success? {
      OrientedInvertible(Parsed(page, side.value));
      ProbesSettled();
      ProbesPass(Parsed(page, side.value), PROBES);
    }
  }

  lemma ProbesSettled()
    ensures forall i :: 0 <= i < |PROBES| ==> Normalized(PROBES[i]) && Settled(PROBES[i].x) && Settled(PROBES[i].y)
  {
  }

  lemma AcceptedOriented(page: PageRecord, cover: bool, size: Size, gutter: real)
    requires ValidateMapping(page, cover, size, gutter).Success?
    ensures Oriented(ValidateMapping(page, cover, size, gutter).value)
  {
  }

  /** Rectangles within `t` of each other put the same fractions within `t`, from the left or from the top. */
  lemma FromLeftClose(a: real, b: real, c: real, d: real, v: real, t: real)
    requires Abs(a - c) <= t && Abs(b - d) <= t && 0.0 <= v <= 1.0
    ensures Abs(a + v * (b - a) - (c + v * (d - c))) <= t
  {
    var p, q, vp, vq := Differences(a, b, c, d, v, t);
    Weighted(v, p, t, vp, v * t);
    Weighted(v, q, t, vq, v * t);
  }

  lemma FromTopClose(a: real, b: real, c: real, d: real, v: real, t: real)
    requires Abs(a - c) <= t && Abs(b - d) <= t && 0.0 <= v <= 1.0
    ensures Abs(b - v * (b - a) - (d - v * (d - c))) <= t
  {
    var p, q, vp, vq := Differences(a, b, c, d, v, t);
    Weighted(v, p, t, vp, v * t);
    Weighted(v, q, t, vq, v * t);
  }

  lemma Differences(a: real, b: real, c: real, d: real, v: real, t: real) returns (p: real, q: real, vp: real, vq: real)
    requires Abs(a - c) <= t && Abs(b - d) <= t
    ensures -t <= p <= t && -t <= q <= t && vp == v * p && vq == v * q
    ensures a + v * (b - a) - (c + v * (d - c)) == p - vp + vq
    ensures b - v * (b - a) - (d - v * (d - c)) == q - vq + vp
  {
    p, q := a - c, b - d;
    vp, vq := v * p, v * q;
  }

  /** A value within `t` of zero, times `v` and times 1 - `v`. */
  lemma Weighted(v: real, p: real, t: real, vp: real, vt: real)
    requires 0.0 <= v <= 1.0 && -t <= p <= t && vp == v * p && vt == v * t
    ensures -vt <= vp <= vt && -(t - vt) <= p - vp <= t - vt
  {
    Monotone(v, p, t);
    Monotone(v, -t, p);
    ProductNonNegative(1.0 - v, t - p);
    ProductNonNegative(1.0 - v, t + p);
    assert (1.0 - v) * (t - p) == t - vt - (p - vp);
    assert (1.0 - v) * (t + p) == t - vt + (p - vp);
  }

  lemma Monotone(v: real, a: real, b: real)
    requires v >= 0.0 && a <= b
    ensures v * a <= v * b
  {
    ProductNonNegative(v, b - a);
  }

  ghost predicate RectClose(r: Rect, s: Rect, t: real) {
    Abs(r.left - s.left) <= t && Abs(r.bottom - s.bottom) <= t && Abs(r.right - s.right) <= t && Abs(r.top - s.top) <= t
  }

  lemma InterpolationClose(r: Rect, s: Rect, p: AffinePoint, t: real)
    requires RectClose(r, s, t) && Normalized(p)
    ensures Abs(Interpolated(r, p).x - Interpolated(s, p).x) <= t
    ensures Abs(Interpolated(r, p).y - Interpolated(s, p).y) <= t
  {
    AcrossClose(r, s, p, t);
    UpClose(r, s, p, t);
  }

  lemma AcrossClose(r: Rect, s: Rect, p: AffinePoint, t: real)
    requires RectClose(r, s, t) && Normalized(p)
    ensures Abs(Interpolated(r, p).x - Interpolated(s, p).x) <= t
  {
    assert r.Width() == r.right - r.left && s.Width() == s.right - s.left;
    FromLeftClose(r.left, r.right, s.left, s.right, p.x, t);
  }

  lemma UpClose(r: Rect, s: Rect, p: AffinePoint, t: real)
    requires RectClose(r, s, t) && Normalized(p)
    ensures Abs(Interpolated(r, p).y - Interpolated(s, p).y) <= t
  {
    assert r.Height() == r.top - r.bottom && s.Height() == s.top - s.bottom;
    FromTopClose(r.bottom, r.top, s.bottom, s.top, p.y, t);
  }

  lemma CloseTwice(a: Rect, b: Rect, c: Rect)
    requires RectWithin(a, b) && RectWithin(b, c)
    ensures RectClose(a, c, 2.0 * TOLERANCE)
  {
  }

  lemma AcceptedClose(page: PageRecord, cover: bool, size: Size, gutter: real)
    requires ValidateMapping(page, cover, size, gutter).Success?
    ensures var m := ValidateMapping(page, cover, size, gutter).value;
            RectWithin(TransformedBounds(m), page.destination) && RectWithin(page.destination, Fit(page, m.side, size, gutter))
  {
  }

  /** Every canonical point of an accepted mapping lands within twice the tolerance of the same point of the page
      centred in its slot. */
  lemma LandsInFit(page: PageRecord, cover: bool, size: Size, gutter: real, p: AffinePoint)
    requires ValidateMapping(page, cover, size, gutter).Success? && Normalized(p)
    ensures var m := ValidateMapping(page, cover, size, gutter).value;
            && CanonicalToSpread(m, p).Success?
            && var q, ideal := CanonicalToSpread(m, p).value, Interpolated(Fit(page, m.side, size, gutter), p);
            Abs(q.x - ideal.x) <= 2.0 * TOLERANCE && Abs(q.y - ideal.y) <= 2.0 * TOLERANCE
  {
    AcceptedOriented(page, cover, size, gutter);
    AcceptedClose(page, cover, size, gutter);
    var m := ValidateMapping(page, cover, size, gutter).value;
    Upright(m, p);
    CloseTwice(TransformedBounds(m), page.destination, Fit(page, m.side, size, gutter));
    InterpolationClose(TransformedBounds(m), Fit(page, m.side, size, gutter), p, 2.0 * TOLERANCE);
  }

  /** How far beyond its slot an accepted page of this extent can reach on each side. */
  function Slack(extent: real): real {
    2.0 * TOLERANCE + extent * TOLERANCE / 2.0
  }

  lemma FitsSlot(page: PageRecord, side: Side, size: Size, gutter: real)
    requires GeometryValid(size, gutter) && page.normalizedBox.Positive()
    requires Within(page.scale, ExpectedScale(page, size, gutter))
    ensures page.normalizedBox.Width() * page.scale <= SlotWidth(size, gutter) + page.normalizedBox.Width() * TOLERANCE
    ensures page.normalizedBox.Height() * page.scale <= size.height + page.normalizedBox.Height() * TOLERANCE
  {
    ScaledFits(page.normalizedBox.Width(), page.scale, SlotWidth(size, gutter));
    ScaledFits(page.normalizedBox.Height(), page.scale, size.height);
  }

  lemma ScaledFits(extent: real, scale: real, room: real)
    requires extent > 0.0 && scale <= room / extent + TOLERANCE
    ensures extent * scale <= room + extent * TOLERANCE
  {
    Divided(room, extent);
    var fits := room / extent;
    assert extent * scale <= extent * (fits + TOLERANCE);
  }

  /** A fraction of an interval stays in it. */
  lemma FractionInside(a: real, b: real, v: real)
    requires a <= b && 0.0 <= v <= 1.0
    ensures a <= a + v * (b - a) <= b && a <= b - v * (b - a) <= b
  {
    ProductNonNegative(v, b - a);
    ProductNonNegative(1.0 - v, b - a);
    assert (1.0 - v) * (b - a) == b - a - v * (b - a);
  }

  ghost predicate InsideBy(q: AffinePoint, slot: Rect, across: real, up: real) {
    slot.left - across <= q.x <= slot.right + across && slot.bottom - up <= q.y <= slot.top + up
  }

  lemma FitInside(page: PageRecord, side: Side, size: Size, gutter: real, p: AffinePoint)
    requires GeometryValid(size, gutter) && page.normalizedBox.Positive() && page.scale > 0.0
    requires Within(page.scale, ExpectedScale(page, size, gutter)) && Normalized(p)
    ensures InsideBy(Interpolated(Fit(page, side, size, gutter), p), ExpectedSlot(side, size, gutter),
                     page.normalizedBox.Width() * TOLERANCE / 2.0, page.normalizedBox.Height() * TOLERANCE / 2.0)
  {
    FitsSlot(page, side, size, gutter);
    ProductNonNegative(page.normalizedBox.Width(), page.scale);
    ProductNonNegative(page.normalizedBox.Height(), page.scale);
    CentredInside(ExpectedSlot(side, size, gutter).left, SlotWidth(size, gutter), size.height,
                  page.normalizedBox.Width() * page.scale, page.normalizedBox.Height() * page.scale,
                  page.normalizedBox.Width() * TOLERANCE, page.normalizedBox.Height() * TOLERANCE, p);
  }

  lemma CentredInside(left: real, slotWidth: real, slotHeight: real, width: real, height: real, dx: real, dy: real, p: AffinePoint)
    requires 0.0 <= width <= slotWidth + dx && 0.0 <= height <= slotHeight + dy && Normalized(p)
    ensures InsideBy(Interpolated(Centred(left, slotWidth, slotHeight, width, height), p),
                     Rect(left, 0.0, left + slotWidth, slotHeight), dx / 2.0, dy / 2.0)
  {
    var fit := Centred(left, slotWidth, slotHeight, width, height);
    FractionInside(fit.left, fit.right, p.x);
    FractionInside(fit.bottom, fit.top, p.y);
  }

  lemma AcceptedScale(page: PageRecord, cover: bool, size: Size, gutter: real)
    requires ValidateMapping(page, cover, size, gutter).Success?
    ensures page.normalizedBox.Positive() && page.scale > 0.0 && Within(page.scale, ExpectedScale(page, size, gutter))
  {
  }

  /** An accepted page stays in its own half of the spread. */
  lemma StaysInSlot(page: PageRecord, cover: bool, size: Size, gutter: real, p: AffinePoint)
    requires GeometryValid(size, gutter)
    requires ValidateMapping(page, cover, size, gutter).Success? && Normalized(p)
    ensures var m := ValidateMapping(page, cover, size, gutter).value;
            && CanonicalToSpread(m, p).Success?
            && InsideBy(CanonicalToSpread(m, p).value, ExpectedSlot(m.side, size, gutter),
                        Slack(page.normalizedBox.Width()), Slack(page.normalizedBox.Height()))
  {
    LandsInFit(page, cover, size, gutter, p);
    AcceptedScale(page, cover, size, gutter);
    FitInside(page, ValidateMapping(page, cover, size, gutter).value.side, size, gutter, p);
  }

  lemma ProductNonNegative(a: real, b: real)
    requires a >= 0.0 && b >= 0.0
    ensures a * b >= 0.0
  {
  }

  /** Facing pages do not meet: the gutter between them survives up to both slacks. */
  lemma FacingPagesApart(left: PageRecord, right: PageRecord, cover: bool, size: Size, gutter: real, p: AffinePoint, q: AffinePoint)
    requires GeometryValid(size, gutter) && Normalized(p) && Normalized(q)
    requires ValidateMapping(left, cover, size, gutter).Success? && ValidateMapping(right, cover, size, gutter).Success?
    requires left.side == "left" && right.side == "right"
    ensures var m, n := ValidateMapping(left, cover, size, gutter).value, ValidateMapping(right, cover, size, gutter).value;
            && CanonicalToSpread(m, p).Success? && CanonicalToSpread(n, q).Success?
            && CanonicalToSpread(n, q).value.x - CanonicalToSpread(m, p).value.x
               >= gutter - Slack(left.normalizedBox.Width()) - Slack(right.normalizedBox.Width())
  {
    StaysInSlot(left, cover, size, gutter, p);
    StaysInSlot(right, cover, size, gutter, q);
  }

  // ---------------------------------------------------------------- a point that does not come back

  /** An accepted page four units wide. */
  function WidePage(): PageRecord {
    PageRecord(0, None, 0, None, "right", 0, Rect(0.0, 0.0, 4.0, 4.0), Rect(0.0, 0.0, 4.0, 4.0), Rect(4.0, 0.0, 8.0, 4.0),
               Rect(4.0, 0.0, 8.0, 4.0), 1.0, AffineTransform(1.0, 0.0, 0.0, 1.0, 4.0, 0.0))
  }

  lemma WidePageAccepted() returns (m: PageMapping)
    ensures ValidateMapping(WidePage(), false, Size(8.0, 4.0), 0.0) == Success(m)
    ensures Oriented(m) && TransformedBounds(m).Width() == 4.0
  {
    m := Parsed(WidePage(), Right);
    BoundsAre(m);
    AcceptedExactly(WidePage(), false, Size(8.0, 4.0), 0.0);
  }

  /** A canonical point half a tolerance from the edge of that page: the forward map accepts it, and the inverse
      refuses what the forward map returned. */
  lemma NearEdgeRefused() returns (m: PageMapping, p: AffinePoint)
    ensures Oriented(m) && CanonicalToSpread(m, p).Success? && SpreadToCanonical(m, CanonicalToSpread(m, p).value).Failure?
    ensures ValidateMapping(WidePage(), false, Size(8.0, 4.0), 0.0) == Success(m)
  {
    m := WidePageAccepted();
    p := RefusedAt(m, TOLERANCE / 2.0, 4.0);
  }

  lemma RefusedAt(m: PageMapping, v: real, extent: real) returns (p: AffinePoint)
    requires Oriented(m) && TransformedBounds(m).Width() == extent && 0.0 < v <= TOLERANCE < v * extent
    ensures CanonicalToSpread(m, p).Success? && SpreadToCanonical(m, CanonicalToSpread(m, p).value).Failure?
  {
    p := AffinePoint(v, 0.5);
    NearEdgeShift(v, extent);
    Upright(m, p);
    InverseOutcome(m, p);
  }

  lemma NearEdgeShift(v: real, extent: real)
    requires 0.0 < v <= TOLERANCE < v * extent
    ensures Shift(v, extent) > TOLERANCE
  {
    assert Abs(Snap(v) - v) == v;
  }
}
