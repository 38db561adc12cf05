/** What iou promises: symmetry, self-overlap 1, disjoint boxes 0, the exact
    condition for its division by zero, the [0, 1] bound, and that for two
    centre-anchored boxes one inside the other it is the ratio of their
    areas. */
module IouProperties {
  import opened Results
  import opened PyNum
  import opened Boxes
  import opened Scoring

  lemma MulMono(a: real, b: real, c: real, d: real)
    requires 0.0 <= a <= c && 0.0 <= b <= d
    ensures a * b <= c * d
  {
    assert a * b <= c * b;
    assert c * b <= c * d;
  }

  /** A positive overlap on both axes is at most the product of the two
      sizes. */
  lemma IntersectionAtMost(tb: real, lr: real, w: real, h: real)
    requires tb <= w && lr <= h && 0.0 <= w && 0.0 <= h
    ensures 0.0 <= Intersection(tb, lr) <= w * h
  {
    if tb > 0.0 && lr > 0.0 {
      MulMono(tb, lr, w, h);
      MulMono(0.0, 0.0, tb, lr);
    } else {
      MulMono(0.0, 0.0, w, h);
    }
  }

  lemma QuotientInUnit(i: real, d: real)
    requires 0.0 <= i <= d && d > 0.0
    ensures 0.0 <= i / d <= 1.0
  {
    assert i / d * d == i;
  }

  lemma IntProductAsReal(x: int, y: int)
    ensures (x * y) as real == (x as real) * (y as real)
  {
  }

  lemma OverlapCommutes(c1: int, s1: int, c2: int, s2: int)
    ensures CentreOverlap(c1, s1, c2, s2) == CentreOverlap(c2, s2, c1, s1)
  {
  }

  /** iou(a, b) == iou(b, a) on the truncated lists. */
  lemma IouSymmetric(b1: seq<int>, b2: seq<int>)
    ensures IouOf(b1, b2) == IouOf(b2, b1)
  {
    if |b1| >= 4 && |b2| >= 4 {
      OverlapCommutes(b1[0], b1[2], b2[0], b2[2]);
      OverlapCommutes(b1[1], b1[3], b2[1], b2[3]);
    }
  }

  /** iou(a, b) == iou(b, a) on the caller's lists. */
  lemma IouResultSymmetric(s1: seq<Num>, s2: seq<Num>)
    ensures IouResult(s1, s2) == IouResult(s2, s1)
  {
    IouSymmetric(Truncated(Sanitized(s1)), Truncated(Sanitized(s2)));
  }

  /** Boxes that do not overlap on one axis score 0, unless both have area 0
      and the division fails. */
  lemma IouDisjoint(b1: seq<int>, b2: seq<int>)
    requires |b1| >= 4 && |b2| >= 4
    requires CentreOverlap(b1[0], b1[2], b2[0], b2[2]) <= 0.0
             || CentreOverlap(b1[1], b1[3], b2[1], b2[3]) <= 0.0
    ensures IouOf(b1, b2) == if Area(b1) + Area(b2) == 0 then Err(ZeroDivisionError) else Ok(0.0)
  {
    var d := Area(b1) as real + Area(b2) as real - 0.0;
    if d != 0.0 {
      assert 0.0 / d == 0.0;
    }
  }

  /** A box with truncated width and height at least 1 scores 1 against
      itself. */
  lemma IouSelf(b: seq<int>)
    requires |b| >= 4 && b[2] >= 1 && b[3] >= 1
    ensures IouOf(b, b) == Ok(1.0)
  {
    var w, h := b[2] as real, b[3] as real;
    assert CentreOverlap(b[0], b[2], b[0], b[2]) == w;
    assert CentreOverlap(b[1], b[3], b[1], b[3]) == h;
    IntProductAsReal(b[2], b[3]);
    MulMono(1.0, 1.0, w, h);
    var a := w * h;
    assert Intersection(w, h) == a;
    assert Area(b) as real == a;
    assert a / a == 1.0;
  }

  /** On the caller's lists: a box at least one pixel wide and high scores 1
      against itself. */
  lemma IouResultSelf(s: seq<Num>)
    requires |s| >= 4 && s[2].Val? && s[3].Val? && s[2].r >= 1.0 && s[3].r >= 1.0
    ensures IouResult(s, s) == Ok(1.0)
  {
    IouSelf(Truncated(Sanitized(s)));
  }

  /** Truncation makes a box narrower than one pixel empty, so scoring it
      against itself divides by zero. */
  lemma SubPixelBoxDividesByZero()
    ensures IouResult([Val(3.0), Val(4.0), Val(0.5), Val(0.5)], [Val(3.0), Val(4.0), Val(0.5), Val(0.5)])
            == Err(ZeroDivisionError)
  {
    var t := Truncated(Sanitized([Val(3.0), Val(4.0), Val(0.5), Val(0.5)]));
    assert t[2] == 0 && t[3] == 0;
    IouZeroDenominator(t, t);
  }

  /** The overlap of two intervals is at most the narrower one. */
  lemma OverlapAtMostWidth(c1: int, s1: int, c2: int, s2: int)
    ensures CentreOverlap(c1, s1, c2, s2) <= s1 as real
    ensures CentreOverlap(c1, s1, c2, s2) <= s2 as real
  {
  }

  /** For boxes of non-negative size the intersection lies between 0 and the
      smaller area. */
  lemma IntersectionBounds(b1: seq<int>, b2: seq<int>)
    requires |b1| >= 4 && |b2| >= 4
    requires b1[2] >= 0 && b1[3] >= 0 && b2[2] >= 0 && b2[3] >= 0
    ensures var i := Intersection(CentreOverlap(b1[0], b1[2], b2[0], b2[2]),
                                  CentreOverlap(b1[1], b1[3], b2[1], b2[3]));
            0.0 <= i && i <= Area(b1) as real && i <= Area(b2) as real
  {
    var tb := CentreOverlap(b1[0], b1[2], b2[0], b2[2]);
    var lr := CentreOverlap(b1[1], b1[3], b2[1], b2[3]);
    OverlapAtMostWidth(b1[0], b1[2], b2[0], b2[2]);
    OverlapAtMostWidth(b1[1], b1[3], b2[1], b2[3]);
    IntProductAsReal(b1[2], b1[3]);
    IntProductAsReal(b2[2], b2[3]);
    IntersectionAtMost(tb, lr, b1[2] as real, b1[3] as real);
    IntersectionAtMost(tb, lr, b2[2] as real, b2[3] as real);
  }

  /** For boxes of non-negative size, iou divides by zero exactly when both
      areas are zero. */
  lemma IouZeroDenominator(b1: seq<int>, b2: seq<int>)
    requires |b1| >= 4 && |b2| >= 4
    requires b1[2] >= 0 && b1[3] >= 0 && b2[2] >= 0 && b2[3] >= 0
    ensures IouOf(b1, b2) == Err(ZeroDivisionError) <==> Area(b1) == 0 && Area(b2) == 0
  {
    IntersectionBounds(b1, b2);
  }

  /** For boxes of non-negative size, not both of area zero, the score lies
      in [0, 1]. */
  lemma IouInUnitInterval(b1: seq<int>, b2: seq<int>)
    requires |b1| >= 4 && |b2| >= 4
    requires b1[2] >= 0 && b1[3] >= 0 && b2[2] >= 0 && b2[3] >= 0
    requires Area(b1) != 0 || Area(b2) != 0
    ensures IouOf(b1, b2).Ok?
    ensures 0.0 <= IouOf(b1, b2).value <= 1.0
  {
    IntersectionBounds(b1, b2);
    var i := Intersection(CentreOverlap(b1[0], b1[2], b2[0], b2[2]),
                          CentreOverlap(b1[1], b1[3], b2[1], b2[3]));
    var d := Area(b1) as real + Area(b2) as real - i;
    assert d > 0.0 && 0.0 <= i <= d;
    QuotientInUnit(i, d);
  }

  /** Read as centre-anchored boxes, iou is right: a box inside another
      scores the ratio of the two areas. */
  lemma IouContained(b1: seq<int>, b2: seq<int>)
    requires |b1| >= 4 && |b2| >= 4
    requires b1[2] >= 1 && b1[3] >= 1
    requires b2[0] as real - 0.5 * (b2[2] as real) <= b1[0] as real - 0.5 * (b1[2] as real)
    requires b1[0] as real + 0.5 * (b1[2] as real) <= b2[0] as real + 0.5 * (b2[2] as real)
    requires b2[1] as real - 0.5 * (b2[3] as real) <= b1[1] as real - 0.5 * (b1[3] as real)
    requires b1[1] as real + 0.5 * (b1[3] as real) <= b2[1] as real + 0.5 * (b2[3] as real)
    ensures IouOf(b1, b2) == Ok(Area(b1) as real / Area(b2) as real)
  {
    var w, h := b1[2] as real, b1[3] as real;
    assert CentreOverlap(b1[0], b1[2], b2[0], b2[2]) == w;
    assert CentreOverlap(b1[1], b1[3], b2[1], b2[3]) == h;
    IntProductAsReal(b1[2], b1[3]);
    MulMono(1.0, 1.0, w, h);
    assert Intersection(w, h) == Area(b1) as real;
  }

  /** A worked example: a centre box (50, 50, 20, 20) moved to
      its corner is the ground-truth box (40, 40, 20, 20), so it scores 1. */
  lemma CalIouExample()
    ensures CalIouResult(FromInts([50, 50, 20, 20]), FromInts([40, 40, 20, 20])) == Ok(1.0)
  {
    var shifted := ShiftedToCorner(FromInts([50, 50, 20, 20]));
    assert shifted == FromInts([40, 40, 20, 20]);
    var t := Truncated(Sanitized(shifted));
    TruncOfInt(40);
    TruncOfInt(20);
    assert t == [40, 40, 20, 20];
    IouSelf(t);
  }
}
