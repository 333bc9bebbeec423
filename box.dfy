/**
 * The mutable box utility: a `Box` object holding `top`, `left`, `bottom`
 * and `right`, all offsets from one origin. Measurements read the fields;
 * transforms update the four fields in place and return the same object so
 * that calls chain. Each transform is proved to leave exactly the rectangle
 * that its specification function in module Geometry computes.
 */
module BoxUtil {

  import opened Geometry

  class Box {
    var top: real
    var left: real
    var bottom: real
    var right: real

    /** The four offsets as a value. */
    function Value(): (r: Rect)
      reads this
    {
      Rect(top, left, bottom, right)
    }

    /** Builds a box from a configuration object; each missing side is 0. */
    constructor (config: Sides)
      ensures Value() == Rect.FromSides(config)
    {
      top := config.top.GetOr(0.0);
      left := config.left.GetOr(0.0);
      bottom := config.bottom.GetOr(0.0);
      right := config.right.GetOr(0.0);
    }

    /** A new box, distinct from this one, with the same four offsets. */
    method Clone() returns (copy: Box)
      ensures fresh(copy)
      ensures copy.Value() == Value()
    {
      copy := new Box(Sides(Some(top), Some(right), Some(bottom), Some(left)));
    }

    function Width(): (w: real)
      reads this
    {
      Value().Width()
    }

    function Height(): (h: real)
      reads this
    {
      Value().Height()
    }

    function MidX(): (m: real)
      reads this
    {
      Value().MidX()
    }

    function MidY(): (m: real)
      reads this
    {
      Value().MidY()
    }

    function PointAt(at: EdgeOrCorner): (p: Point)
      reads this
    {
      Value().PointAt(at)
    }

    function CanContain(other: Box): (c: bool)
      reads this, other
    {
      Value().CanContain(other.Value())
    }

    method Grow(amount: real) returns (self: Box)
      modifies this
      ensures self == this
      ensures Value() == old(Value()).Grown(amount)
      ensures Width() == old(Width()) + 2.0 * amount && Height() == old(Height()) + 2.0 * amount
    {
      top := top - amount;
      left := left - amount;
      bottom := bottom + amount;
      right := right + amount;
      self := this;
    }

    method Shrink(amount: real) returns (self: Box)
      modifies this
      ensures self == this
      ensures Value() == old(Value()).Shrunk(amount)
      ensures Width() == old(Width()) - 2.0 * amount && Height() == old(Height()) - 2.0 * amount
    {
      top := top + amount;
      left := left + amount;
      bottom := bottom - amount;
      right := right - amount;
      self := this;
    }

    method Translate(delta: Point) returns (self: Box)
      modifies this
      ensures self == this
      ensures Value() == old(Value()).Translated(delta)
      ensures Width() == old(Width()) && Height() == old(Height())
    {
      top := top + delta.y;
      left := left + delta.x;
      bottom := bottom + delta.y;
      right := right + delta.x;
      self := this;
    }

    /** Translates the box so that its point `at` lands on `to`. */
    method PointTo(at: EdgeOrCorner, to: Point) returns (self: Box)
      modifies this
      ensures self == this
      ensures Value() == old(Value()).PointedTo(at, to)
      ensures PointAt(at) == to
      ensures Width() == old(Width()) && Height() == old(Height())
    {
      var from := PointAt(at);
      self := Translate(Point(to.x - from.x, to.y - from.y));
    }

    /**
     * Shifts the box inside the bounds, one side after another: top, left,
     * bottom, right. Each shift is computed from the fields as the previous
     * steps left them and is applied to the opposite side too.
     */
    method Constrain(bounds: Sides) returns (self: Box)
      modifies this
      ensures self == this
      ensures Value() == old(Value()).Constrained(bounds)
      ensures Width() == old(Width()) && Height() == old(Height())
      ensures AtMost(bottom, bounds.bottom) && AtMost(right, bounds.right)
      ensures old(Value()).Within(bounds) ==> Value() == old(Value())
    {
      var topShift := Raise(top, bounds.top) - top;
      top := top + topShift;
      bottom := bottom + topShift;

      var leftShift := Raise(left, bounds.left) - left;
      left := left + leftShift;
      right := right + leftShift;

      var bottomShift := Lower(bottom, bounds.bottom) - bottom;
      bottom := bottom + bottomShift;
      top := top + bottomShift;

      var rightShift := Lower(right, bounds.right) - right;
      right := right + rightShift;
      left := left + rightShift;
      self := this;
    }

    /** Pulls each side in to its bound when it lies beyond it. */
    method Crop(bounds: Sides) returns (self: Box)
      modifies this
      ensures self == this
      ensures Value() == old(Value()).Cropped(bounds)
      ensures Value().Within(bounds) && old(Value()).Encloses(Value())
    {
      top := Raise(top, bounds.top);
      left := Raise(left, bounds.left);
      bottom := Lower(bottom, bounds.bottom);
      right := Lower(right, bounds.right);
      self := this;
    }
  }

  /** Growing a clone leaves the original as it was. */
  method GrowClone(box: Box, amount: real) returns (copy: Box)
    ensures fresh(copy) && copy != box
    ensures unchanged(box)
    ensures copy.Value() == box.Value().Grown(amount)
  {
    copy := box.Clone();
    var _ := copy.Grow(amount);
  }

  /** Translating the original after cloning it leaves the clone as it was. */
  method TranslateAfterClone(box: Box, delta: Point) returns (copy: Box)
    modifies box
    ensures fresh(copy)
    ensures copy.Value() == old(box.Value())
    ensures box.Value() == old(box.Value()).Translated(delta)
  {
    copy := box.Clone();
    var _ := box.Translate(delta);
  }

  /** A chained call `box.grow(amount).translate(delta)` acts as the chain of both. */
  method GrowThenTranslate(box: Box, amount: real, delta: Point) returns (self: Box)
    modifies box
    ensures self == box
    ensures box.Value() == Chain(old(box.Value()), [Transform.Grow(amount), Transform.Translate(delta)])
  {
    ghost var start := box.Value();
    ghost var ts := [Transform.Grow(amount), Transform.Translate(delta)];
    self := box.Grow(amount);
    self := self.Translate(delta);
    assert ts[1..][1..] == [];
    assert Chain(start, ts) == Chain(start.Grown(amount), ts[1..]);
    assert Chain(start.Grown(amount), ts[1..]) == Chain(start.Grown(amount).Translated(delta), []);
  }
}
