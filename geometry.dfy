/**
 * The value semantics of a box: an axis-aligned rectangle held as four
 * offsets from one origin. `bottom` and `right` are offsets from that same
 * origin, not lengths, so a box may be inverted (`right < left`) and every
 * measurement stays defined. Coordinates are exact reals.
 *
 * Every in-place transform of the mutable `Box` class (module BoxUtil) is
 * specified by the function here that computes the resulting rectangle.
 */
module Geometry {

  datatype Option<T> = None | Some(value: T)
  {
    function GetOr(default: T): T {
      match this
      case None => default
      case Some(v) => v
    }
  }

  /** The eight names a point of a box can be addressed by: four edges, four corners. */
  datatype EdgeOrCorner =
    | Top | Left | Bottom | Right
    | TopLeft | TopRight | BottomLeft | BottomRight
  {
    /** The string the source uses for this designator in its EDGE and CORNER tables. */
    function Name(): string {
      match this
      case Top => "top"
      case Left => "left"
      case Bottom => "bottom"
      case Right => "right"
      case TopLeft => "top left"
      case TopRight => "top right"
      case BottomLeft => "bottom left"
      case BottomRight => "bottom right"
    }

    /** The designator a string names; `None` for a string outside the eight names. */
    static function Parse(name: string): (d: Option<EdgeOrCorner>)
      ensures d.Some? ==> d.value.Name() == name
      ensures forall e: EdgeOrCorner {:trigger e.Name()} :: e.Name() == name ==> d == Some(e)
    {
      if name == "top" then Some(Top)
      else if name == "left" then Some(Left)
      else if name == "bottom" then Some(Bottom)
      else if name == "right" then Some(Right)
      else if name == "top left" then Some(TopLeft)
      else if name == "top right" then Some(TopRight)
      else if name == "bottom left" then Some(BottomLeft)
      else if name == "bottom right" then Some(BottomRight)
      else None
    }

    /** Which of the left edge, the middle or the right edge the point lies on. */
    function Column(): Anchor {
      if Left? || TopLeft? || BottomLeft? then Start
      else if Top? || Bottom? then Middle
      else End
    }

    /** Which of the top edge, the middle or the bottom edge the point lies on. */
    function Row(): Anchor {
      if Top? || TopLeft? || TopRight? then Start
      else if Left? || Right? then Middle
      else End
    }
  }

  /** A position along one axis of a box: its low side, its centre or its high side. */
  datatype Anchor = Start | Middle | End

  /** The coordinate of `anchor` on the segment from `lo` to `hi`. */
  function Along(lo: real, hi: real, anchor: Anchor): real {
    match anchor
    case Start => lo
    case Middle => (lo + hi) / 2.0
    case End => hi
  }

  /** A point, or a translation vector, as an `[x, y]` pair. */
  datatype Point = Point(x: real, y: real)

  /**
   * An object with optional `top`, `right`, `bottom` and `left` numbers.
   * The constructor reads a missing side as 0; `constrain` and `crop` read a
   * missing side as no bound at all (minus or plus infinity).
   */
  datatype Sides = Sides(top: Option<real>, right: Option<real>, bottom: Option<real>, left: Option<real>)

  const NoSides: Sides := Sides(None, None, None, None)

  /** `Math.max(x, bound)` where an absent bound is minus infinity. */
  function Raise(x: real, bound: Option<real>): real {
    match bound
    case None => x
    case Some(b) => if x < b then b else x
  }

  /** `Math.min(x, bound)` where an absent bound is plus infinity. */
  function Lower(x: real, bound: Option<real>): real {
    match bound
    case None => x
    case Some(b) => if b < x then b else x
  }

  predicate AtLeast(x: real, bound: Option<real>) {
    bound.None? || bound.value <= x
  }

  predicate AtMost(x: real, bound: Option<real>) {
    bound.None? || x <= bound.value
  }

  /**
   * Whether a segment of the given extent can lie between the two bounds:
   * always when a bound is missing.
   */
  predicate FitsBetween(extent: real, lo: Option<real>, hi: Option<real>) {
    lo.None? || hi.None? || extent <= hi.value - lo.value
  }

  /**
   * The shift `constrain` applies along one axis to the segment `[lo, hi]`:
   * first just enough to bring `lo` up to `minBound`, then just enough to
   * bring the shifted `hi` down to `maxBound`. The second step is taken last,
   * so when the segment is longer than the gap between the bounds, it ends
   * flush with `maxBound` and below `minBound`.
   */
  function Slide(lo: real, hi: real, minBound: Option<real>, maxBound: Option<real>): (shift: real)
    ensures AtMost(hi + shift, maxBound)
    ensures AtLeast(lo, minBound) && AtMost(hi, maxBound) ==> shift == 0.0
    ensures AtLeast(lo + shift, minBound) <==> FitsBetween(hi - lo, minBound, maxBound)
    ensures !FitsBetween(hi - lo, minBound, maxBound) ==>
              hi + shift == maxBound.value && lo + shift < minBound.value
    ensures !AtLeast(lo, minBound) && FitsBetween(hi - lo, minBound, maxBound) ==>
              lo + shift == minBound.value
    ensures AtLeast(lo, minBound) && !AtMost(hi, maxBound) ==> hi + shift == maxBound.value
  {
    var up := Raise(lo, minBound) - lo;
    up + (Lower(hi + up, maxBound) - (hi + up))
  }

  /** A box's four offsets: the whole state of a `Box`. */
  datatype Rect = Rect(top: real, left: real, bottom: real, right: real)
  {
    /** A box built from a configuration object; every missing side is 0. */
    static function FromSides(config: Sides): (r: Rect)
      ensures config == NoSides ==> r == Rect(0.0, 0.0, 0.0, 0.0)
      ensures config.top.Some? ==> r.top == config.top.value
      ensures config.left.Some? ==> r.left == config.left.value
      ensures config.bottom.Some? ==> r.bottom == config.bottom.value
      ensures config.right.Some? ==> r.right == config.right.value
      ensures config.top.None? ==> r.top == 0.0
      ensures config.left.None? ==> r.left == 0.0
      ensures config.bottom.None? ==> r.bottom == 0.0
      ensures config.right.None? ==> r.right == 0.0
    {
      Rect(config.top.GetOr(0.0), config.left.GetOr(0.0), config.bottom.GetOr(0.0), config.right.GetOr(0.0))
    }

    /** Width, negative for an inverted box (no clamping). */
    function Width(): (w: real)
      ensures left + w == right
      ensures w < 0.0 <==> right < left
    {
      right - left
    }

    /** Height, negative for an inverted box (no clamping). */
    function Height(): (h: real)
      ensures top + h == bottom
      ensures h < 0.0 <==> bottom < top
    {
      bottom - top
    }

    /** Horizontal centre. */
    function MidX(): (m: real)
      ensures m - left == right - m
      ensures left <= right ==> left <= m <= right
    {
      left + Width() / 2.0
    }

    /** Vertical centre. */
    function MidY(): (m: real)
      ensures m - top == bottom - m
      ensures top <= bottom ==> top <= m <= bottom
    {
      top + Height() / 2.0
    }

    /** The point at an edge's middle or at a corner. */
    function PointAt(at: EdgeOrCorner): (p: Point)
      ensures p == Point(Along(left, right, at.Column()), Along(top, bottom, at.Row()))
    {
      match at
      case Top => Point(MidX(), top)
      case Left => Point(left, MidY())
      case Bottom => Point(MidX(), bottom)
      case Right => Point(right, MidY())
      case TopLeft => Point(left, top)
      case TopRight => Point(right, top)
      case BottomLeft => Point(left, bottom)
      case BottomRight => Point(right, bottom)
    }

    /** Whether `other` could fit inside this box: a comparison of sizes only. */
    predicate CanContain(other: Rect): (c: bool)
      ensures c <==> Encloses(other.PointedTo(TopLeft, PointAt(TopLeft)))
    {
      Width() >= other.Width() && Height() >= other.Height()
    }

    /** Whether `inner` lies within this box, edge by edge. */
    predicate Encloses(inner: Rect) {
      top <= inner.top && left <= inner.left && inner.bottom <= bottom && inner.right <= right
    }

    /** Whether every given side of `bounds` is respected. */
    predicate Within(bounds: Sides) {
      AtLeast(top, bounds.top) && AtLeast(left, bounds.left)
      && AtMost(bottom, bounds.bottom) && AtMost(right, bounds.right)
    }

    /** The box as constraining sides. */
    function AsSides(): (s: Sides)
      ensures forall inner: Rect {:trigger inner.Within(s)} :: inner.Within(s) <==> Encloses(inner)
    {
      Sides(Some(top), Some(right), Some(bottom), Some(left))
    }

    /** Moves every side outward by `amount` (inward when it is negative). */
    function Grown(amount: real): (r: Rect)
      ensures r.Width() == Width() + 2.0 * amount && r.Height() == Height() + 2.0 * amount
      ensures r.MidX() == MidX() && r.MidY() == MidY()
      ensures amount >= 0.0 ==> r.Encloses(this)
    {
      Rect(top - amount, left - amount, bottom + amount, right + amount)
    }

    /** Moves every side inward by `amount`: undoes `Grown(amount)`. */
    function Shrunk(amount: real): (r: Rect)
      ensures r.Width() == Width() - 2.0 * amount && r.Height() == Height() - 2.0 * amount
      ensures r.MidX() == MidX() && r.MidY() == MidY()
      ensures r.Grown(amount) == this
    {
      Rect(top + amount, left + amount, bottom - amount, right - amount)
    }

    /** Shifts the whole box by the vector `delta`. */
    function Translated(delta: Point): (r: Rect)
      ensures r.Width() == Width() && r.Height() == Height()
      ensures r.MidX() == MidX() + delta.x && r.MidY() == MidY() + delta.y
    {
      Rect(top + delta.y, left + delta.x, bottom + delta.y, right + delta.x)
    }

    /** Shifts the whole box so that its point `at` lands on `to`. */
    function PointedTo(at: EdgeOrCorner, to: Point): (r: Rect)
      ensures r.PointAt(at) == to
      ensures r.Width() == Width() && r.Height() == Height()
    {
      var from := PointAt(at);
      Translated(Point(to.x - from.x, to.y - from.y))
    }

    /**
     * Shifts the box, without resizing it, to bring it inside the given
     * bounds as far as it can; see `Slide` for the order of the steps.
     */
    function Constrained(bounds: Sides): (r: Rect)
      ensures r.Width() == Width() && r.Height() == Height()
      ensures r.left - left == Slide(left, right, bounds.left, bounds.right)
      ensures r.top - top == Slide(top, bottom, bounds.top, bounds.bottom)
      ensures AtMost(r.bottom, bounds.bottom) && AtMost(r.right, bounds.right)
      ensures Within(bounds) ==> r == this
      ensures AtLeast(r.top, bounds.top) <==> FitsBetween(Height(), bounds.top, bounds.bottom)
      ensures AtLeast(r.left, bounds.left) <==> FitsBetween(Width(), bounds.left, bounds.right)
    {
      Translated(Point(Slide(left, right, bounds.left, bounds.right),
                       Slide(top, bottom, bounds.top, bounds.bottom)))
    }

    /** Pulls each side in to its bound when it lies beyond it. */
    function Cropped(bounds: Sides): (r: Rect)
      ensures r.Within(bounds)
      ensures Encloses(r)
      ensures bounds.top.None? ==> r.top == top
      ensures bounds.left.None? ==> r.left == left
      ensures bounds.bottom.None? ==> r.bottom == bottom
      ensures bounds.right.None? ==> r.right == right
      ensures r.Width() <= Width() && r.Height() <= Height()
    {
      Rect(Raise(top, bounds.top), Raise(left, bounds.left), Lower(bottom, bounds.bottom), Lower(right, bounds.right))
    }

    /** The rectangle one chained call leaves behind. */
    function Apply(t: Transform): Rect {
      match t
      case Grow(amount) => Grown(amount)
      case Shrink(amount) => Shrunk(amount)
      case Translate(delta) => Translated(delta)
      case PointTo(at, to) => PointedTo(at, to)
      case Constrain(bounds) => Constrained(bounds)
      case Crop(bounds) => Cropped(bounds)
    }
  }

  /** One call of a transform; every transform returns the box, so calls chain. */
  datatype Transform =
    | Grow(amount: real)
    | Shrink(amount: real)
    | Translate(delta: Point)
    | PointTo(at: EdgeOrCorner, to: Point)
    | Constrain(bounds: Sides)
    | Crop(bounds: Sides)
  {
    /** Transforms that move the box without resizing it. */
    predicate IsRigid() {
      Translate? || PointTo? || Constrain?
    }

    /** Transforms whose effect does not depend on where the box is. */
    predicate IsInvertible() {
      Grow? || Shrink? || Translate?
    }

    function Inverse(): (u: Transform)
      requires IsInvertible()
      ensures u.IsInvertible()
    {
      match this
      case Grow(amount) => Shrink(amount)
      case Shrink(amount) => Grow(amount)
      case Translate(delta) => Translate(Point(-delta.x, -delta.y))
    }
  }

  /** Each designator's name parses back to that designator. */
  lemma ParseName(at: EdgeOrCorner)
    ensures EdgeOrCorner.Parse(at.Name()) == Some(at)
  {
  }

  /** Applying an invertible transform and then its inverse restores the box. */
  lemma InverseUndoes(t: Transform, r: Rect)
    requires t.IsInvertible()
    ensures r.Apply(t).Apply(t.Inverse()) == r
  {
  }

  /** The rectangle left by a chain of calls `box.t0(..).t1(..)...`. */
  function Chain(r: Rect, ts: seq<Transform>): Rect
    decreases |ts|
  {
    if ts == [] then r else Chain(r.Apply(ts[0]), ts[1..])
  }

  /** The chain of calls that undoes a chain of invertible calls, last call first. */
  function Undo(ts: seq<Transform>): (us: seq<Transform>)
    requires forall i :: 0 <= i < |ts| ==> ts[i].IsInvertible()
    ensures |us| == |ts|
    ensures forall i :: 0 <= i < |us| ==> us[i].IsInvertible()
    decreases |ts|
  {
    if ts == [] then [] else Undo(ts[1..]) + [ts[0].Inverse()]
  }

  // ---------------------------------------------------------------------
  // Properties relating several operations
  // ---------------------------------------------------------------------

  /** `grow` then `shrink` by the same amount, in either order, restores the box. */
  lemma GrowShrinkRoundTrip(r: Rect, amount: real)
    ensures r.Grown(amount).Shrunk(amount) == r
    ensures r.Shrunk(amount).Grown(amount) == r
  {
  }

  /** Translating by a vector and then by its opposite restores the box. */
  lemma TranslateRoundTrip(r: Rect, delta: Point)
    ensures r.Translated(delta).Translated(Point(-delta.x, -delta.y)) == r
  {
  }

  /** Translating moves every edge and corner point by the same vector. */
  lemma TranslateMovesEveryPoint(r: Rect, delta: Point, at: EdgeOrCorner)
    ensures r.Translated(delta).PointAt(at) == Point(r.PointAt(at).x + delta.x, r.PointAt(at).y + delta.y)
  {
  }

  /** Pointing the box at where a point already is leaves it unchanged. */
  lemma PointToCurrentPoint(r: Rect, at: EdgeOrCorner)
    ensures r.PointedTo(at, r.PointAt(at)) == r
  {
  }

  /**
   * `canContain` is exactly "some translation of the other box fits inside
   * this one": position plays no part.
   */
  lemma CanContainIffFitsSomewhere(r: Rect, other: Rect)
    ensures r.CanContain(other) <==> exists delta: Point {:trigger other.Translated(delta)} :: r.Encloses(other.Translated(delta))
  {
    if r.CanContain(other) {
      var delta := Point(r.left - other.left, r.top - other.top);
      assert r.Encloses(other.Translated(delta));
    }
    if exists delta: Point {:trigger other.Translated(delta)} :: r.Encloses(other.Translated(delta)) {
      var delta: Point :| r.Encloses(other.Translated(delta));
      assert other.Translated(delta).Width() == other.Width();
    }
  }

  /** `canContain` is reflexive and transitive. */
  lemma CanContainPreorder(a: Rect, b: Rect, c: Rect)
    ensures a.CanContain(a)
    ensures a.CanContain(b) && b.CanContain(c) ==> a.CanContain(c)
  {
  }

  /** A box constrained to a box that can contain it ends up inside that box. */
  lemma ConstrainIntoContainer(r: Rect, container: Rect)
    requires container.CanContain(r)
    ensures container.Encloses(r.Constrained(container.AsSides()))
  {
    var s := r.Constrained(container.AsSides());
    assert s.Within(container.AsSides());
  }

  /** Constraining twice by the same bounds is constraining once. */
  lemma ConstrainIdempotent(r: Rect, bounds: Sides)
    ensures r.Constrained(bounds).Constrained(bounds) == r.Constrained(bounds)
  {
  }

  /**
   * On an axis where the box is larger than the bounds, the bottom (right)
   * bound wins: the box ends flush with it and past the top (left) bound.
   */
  lemma ConstrainOversizedFavoursBottomRight(r: Rect, bounds: Sides)
    ensures !FitsBetween(r.Height(), bounds.top, bounds.bottom) ==>
              r.Constrained(bounds).bottom == bounds.bottom.value
              && r.Constrained(bounds).top < bounds.top.value
    ensures !FitsBetween(r.Width(), bounds.left, bounds.right) ==>
              r.Constrained(bounds).right == bounds.right.value
              && r.Constrained(bounds).left < bounds.left.value
  {
  }

  /** Cropping twice by the same bounds is cropping once. */
  lemma CropIdempotent(r: Rect, bounds: Sides)
    ensures r.Cropped(bounds).Cropped(bounds) == r.Cropped(bounds)
  {
  }

  /** Cropping yields the largest box inside both the box and the bounds. */
  lemma CropIsIntersection(r: Rect, bounds: Sides, inner: Rect)
    ensures r.Cropped(bounds).Encloses(inner) <==> r.Encloses(inner) && inner.Within(bounds)
  {
  }

  /** Splitting a chain of calls in two: the second part continues from the first. */
  lemma {:induction false} ChainAppend(r: Rect, ts: seq<Transform>, us: seq<Transform>)
    ensures Chain(r, ts + us) == Chain(Chain(r, ts), us)
    decreases |ts|
  {
    if ts == [] {
      assert ts + us == us;
    } else {
      assert (ts + us)[0] == ts[0];
      assert (ts + us)[1..] == ts[1..] + us;
      ChainAppend(r.Apply(ts[0]), ts[1..], us);
    }
  }

  /** A chain of `translate`, `pointTo` and `constrain` calls keeps width and height. */
  lemma {:induction false} RigidChainKeepsSize(r: Rect, ts: seq<Transform>)
    requires forall i :: 0 <= i < |ts| ==> ts[i].IsRigid()
    ensures Chain(r, ts).Width() == r.Width() && Chain(r, ts).Height() == r.Height()
    decreases |ts|
  {
    if ts != [] {
      assert ts[0].IsRigid();
      RigidChainKeepsSize(r.Apply(ts[0]), ts[1..]);
    }
  }

  /**
   * A chain of `grow`, `shrink` and `translate` calls followed by the inverse
   * calls in reverse order restores the box.
   */
  lemma {:induction false} UndoRestores(r: Rect, ts: seq<Transform>)
    requires forall i :: 0 <= i < |ts| ==> ts[i].IsInvertible()
    ensures Chain(Chain(r, ts), Undo(ts)) == r
    decreases |ts|
  {
    if ts != [] {
      var t, rest := ts[0], ts[1..];
      var moved := r.Apply(t);
      assert Chain(r, ts) == Chain(moved, rest);
      ChainAppend(Chain(moved, rest), Undo(rest), [t.Inverse()]);
      UndoRestores(moved, rest);
      InverseUndoes(t, r);
      assert Chain(moved, [t.Inverse()]) == moved.Apply(t.Inverse());
    }
  }
}
