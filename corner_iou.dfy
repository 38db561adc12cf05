/** cal_rolo_IOU and cal_yolo_IOU move the candidate box from its centre to
    its top-left corner so that it is anchored like the ground truth, but
    iou then reads [0] and [1] of both boxes as centres. Each box is thereby
    shifted by half of its own size, so two boxes of different sizes are
    compared at the wrong places. This module gives the intended score, the
    IoU of two corner-anchored boxes, proves it right, and exhibits a pair of
    boxes on which the wrappers as written score differently. */
module CornerIou {
  import opened Results
  import opened PyNum
  import opened Boxes
  import opened Scoring
  import IouProperties

  /** The overlap of the intervals [x1, x1 + s1] and [x2, x2 + s2]. */
  function CornerOverlap(x1: int, s1: int, x2: int, s2: int): real {
    Min(x1 as real + s1 as real, x2 as real + s2 as real) - Max(x1 as real, x2 as real)
  }

  /** IoU of two truncated corner-anchored boxes [x, y, w, h]. */
  function CornerIouOf(b1: seq<int>, b2: seq<int>): (r: Result<real>)
    ensures r == Err(IndexError) <==> |b1| < 4 || |b2| < 4
  {
    if |b1| < 4 || |b2| < 4 then Err(IndexError)
    else
      var tb := CornerOverlap(b1[0], b1[2], b2[0], b2[2]);
      var lr := CornerOverlap(b1[1], b1[3], b2[1], b2[3]);
      Ratio(Intersection(tb, lr), Area(b1), Area(b2))
  }

  /** The wrappers with the corner-anchored IoU: what they are meant to
      return for a centre-anchored candidate and a corner-anchored ground
      truth. */
  function CalIouCorrected(location: seq<Num>, gtLocation: seq<Num>): (r: Result<real>)
    ensures r == Err(IndexError) <==> |location| < 4 || |gtLocation| < 4
  {
    if |location| < 4 then Err(IndexError)
    else CornerIouOf(Truncated(Sanitized(ShiftedToCorner(location))), Truncated(Sanitized(gtLocation)))
  }

  /** The corrected score is symmetric. */
  lemma CornerIouSymmetric(b1: seq<int>, b2: seq<int>)
    ensures CornerIouOf(b1, b2) == CornerIouOf(b2, b1)
  {
  }

  /** A corner box inside another scores the ratio of the two areas. */
  lemma CornerIouContained(b1: seq<int>, b2: seq<int>)
    requires |b1| >= 4 && |b2| >= 4
    requires b1[2] >= 1 && b1[3] >= 1
    requires b2[0] <= b1[0] && b1[0] + b1[2] <= b2[0] + b2[2]
    requires b2[1] <= b1[1] && b1[1] + b1[3] <= b2[1] + b2[3]
    ensures CornerIouOf(b1, b2) == Ok(Area(b1) as real / Area(b2) as real)
  {
    var w, h := b1[2] as real, b1[3] as real;
    assert CornerOverlap(b1[0], b1[2], b2[0], b2[2]) == w;
    assert CornerOverlap(b1[1], b1[3], b2[1], b2[3]) == h;
    IouProperties.IntProductAsReal(b1[2], b1[3]);
    IouProperties.MulMono(1.0, 1.0, w, h);
    assert Intersection(w, h) == Area(b1) as real;
  }

  /** Corner boxes apart on one axis score 0 (unless both areas are 0). */
  lemma CornerIouDisjoint(b1: seq<int>, b2: seq<int>)
    requires |b1| >= 4 && |b2| >= 4
    requires b1[0] + b1[2] <= b2[0] || b2[0] + b2[2] <= b1[0]
             || b1[1] + b1[3] <= b2[1] || b2[1] + b2[3] <= b1[1]
    ensures CornerIouOf(b1, b2) == if Area(b1) + Area(b2) == 0 then Err(ZeroDivisionError) else Ok(0.0)
  {
    var d := Area(b1) as real + Area(b2) as real - 0.0;
    if d != 0.0 {
      assert 0.0 / d == 0.0;
    }
  }

  /** The two readings agree on boxes of equal width and equal height, which
      is why the ground-truth and candidate boxes of one size do not show
      the difference. */
  lemma IouAgreesOnEqualSizes(b1: seq<int>, b2: seq<int>)
    requires |b1| >= 4 && |b2| >= 4
    requires b1[2] == b2[2] && b1[3] == b2[3]
    ensures IouOf(b1, b2) == CornerIouOf(b1, b2)
  {
    assert CentreOverlap(b1[0], b1[2], b2[0], b2[2]) == CornerOverlap(b1[0], b1[2], b2[0], b2[2]);
    assert CentreOverlap(b1[1], b1[3], b2[1], b2[3]) == CornerOverlap(b1[1], b1[3], b2[1], b2[3]);
  }

  /** The wrappers as written: a candidate centred at (30, 30) of size 20 by
      20 covers [20, 40] x [20, 40], inside the ground-truth box [0, 40] x
      [0, 40], so the intended score is 400 / 1600. The wrappers return
      100 / 1900. */
  lemma WrapperMisreadsCornerBoxes()
    ensures CalIouResult(FromInts([30, 30, 20, 20]), FromInts([0, 0, 40, 40])) == Ok(1.0 / 19.0)
    ensures CalIouCorrected(FromInts([30, 30, 20, 20]), FromInts([0, 0, 40, 40])) == Ok(1.0 / 4.0)
  {
    var shifted := ShiftedToCorner(FromInts([30, 30, 20, 20]));
    assert shifted == FromInts([20, 20, 20, 20]);
    TruncOfInt(0);
    TruncOfInt(20);
    TruncOfInt(40);
    var t1 := Truncated(Sanitized(shifted));
    var t2 := Truncated(Sanitized(FromInts([0, 0, 40, 40])));
    assert t1 == [20, 20, 20, 20];
    assert t2 == [0, 0, 40, 40];
    assert CentreOverlap(20, 20, 0, 40) == 10.0;
    assert IouOf(t1, t2) == Ok(100.0 / 1900.0);
    CornerIouContained(t1, t2);
  }
}
