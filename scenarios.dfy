/**
 * The unit-test scenarios of the box utility, stated on the value model:
 * the box at top=50, left=50, bottom=100, right=100 and what each
 * operation makes of it.
 */
module BoxScenarios {

  import opened Geometry

  /** The box at top=50, left=50, bottom=100, right=100. */
  const Fifty: Rect := Rect(50.0, 50.0, 100.0, 100.0)

  /** Every side missing from the configuration, or all of them, reads as 0. */
  lemma ConstructorDefaults()
    ensures Rect.FromSides(NoSides) == Rect(0.0, 0.0, 0.0, 0.0)
    ensures Rect.FromSides(Sides(Some(50.0), Some(100.0), Some(100.0), Some(50.0))) == Fifty
    ensures Rect.FromSides(Sides(Some(50.0), None, None, None)) == Rect(50.0, 0.0, 0.0, 0.0)
  {
  }

  lemma FiftyBoxMeasurements()
    ensures Fifty.Width() == 50.0 && Fifty.Height() == 50.0
    ensures Fifty.MidX() == 75.0 && Fifty.MidY() == 75.0
    ensures Fifty.PointAt(TopLeft) == Point(50.0, 50.0) && Fifty.PointAt(TopRight) == Point(100.0, 50.0)
    ensures Fifty.PointAt(BottomLeft) == Point(50.0, 100.0) && Fifty.PointAt(BottomRight) == Point(100.0, 100.0)
    ensures Fifty.PointAt(Top) == Point(75.0, 50.0) && Fifty.PointAt(Left) == Point(50.0, 75.0)
    ensures Fifty.PointAt(Bottom) == Point(75.0, 100.0) && Fifty.PointAt(Right) == Point(100.0, 75.0)
    ensures Fifty.CanContain(Fifty)
    ensures Fifty.CanContain(Rect(60.0, 60.0, 90.0, 90.0)) && !Fifty.CanContain(Rect(40.0, 40.0, 110.0, 110.0))
  {
  }

  lemma FiftyBoxGrowShrinkTranslate()
    ensures Fifty.Grown(10.0) == Rect(40.0, 40.0, 110.0, 110.0)
    ensures Fifty.Shrunk(10.0) == Rect(60.0, 60.0, 90.0, 90.0)
    ensures Fifty.Translated(Point(10.0, 10.0)) == Rect(60.0, 60.0, 110.0, 110.0)
  {
  }

  lemma FiftyBoxPointToTop()
    ensures Fifty.PointedTo(Top, Point(100.0, 100.0)) == Rect(100.0, 75.0, 150.0, 125.0)
  {
  }

  lemma FiftyBoxPointToBottomLeft()
    ensures Fifty.PointedTo(BottomLeft, Point(100.0, 100.0)) == Rect(50.0, 100.0, 100.0, 150.0)
  {
    assert Fifty.PointAt(BottomLeft) == Point(50.0, 100.0);
  }

  lemma FiftyBoxConstrainTop()
    ensures Fifty.Constrained(Sides(Some(70.0), None, None, None)) == Rect(70.0, 50.0, 120.0, 100.0)
  {
    assert Slide(50.0, 100.0, None, None) == 0.0;
    assert Slide(50.0, 100.0, Some(70.0), None) == 20.0;
  }

  lemma FiftyBoxConstrainRight()
    ensures Fifty.Constrained(Sides(None, Some(80.0), None, None)) == Rect(50.0, 30.0, 100.0, 80.0)
  {
    assert Slide(50.0, 100.0, None, None) == 0.0;
    assert Slide(50.0, 100.0, None, Some(80.0)) == -20.0;
  }

  lemma FiftyBoxConstrainLeft()
    ensures Fifty.Constrained(Sides(None, None, None, Some(70.0))) == Rect(50.0, 70.0, 100.0, 120.0)
  {
    assert Slide(50.0, 100.0, None, None) == 0.0;
    assert Slide(50.0, 100.0, Some(70.0), None) == 20.0;
  }

  lemma FiftyBoxConstrainBottom()
    ensures Fifty.Constrained(Sides(None, None, Some(80.0), None)) == Rect(30.0, 50.0, 80.0, 100.0)
  {
    assert Slide(50.0, 100.0, None, None) == 0.0;
    assert Slide(50.0, 100.0, None, Some(80.0)) == -20.0;
  }

  /** A box larger than the bounds ends up flush with the bottom and right bounds. */
  lemma FiftyBoxConstrainOversized()
    ensures Fifty.Constrained(Sides(Some(70.0), Some(80.0), Some(80.0), Some(70.0))) == Rect(30.0, 30.0, 80.0, 80.0)
  {
    assert Slide(50.0, 100.0, Some(70.0), Some(80.0)) == -20.0;
  }

  lemma FiftyBoxCrop()
    ensures Fifty.Cropped(Sides(Some(70.0), Some(80.0), Some(80.0), Some(70.0))) == Rect(70.0, 70.0, 80.0, 80.0)
  {
  }
}
