/** The IoU evaluator of ObjectTracking/ROLO_utils.py: iou and its two
    wrappers cal_rolo_IOU and cal_yolo_IOU. iou sanitises both caller lists
    in place, truncates fresh copies to integers and computes the ratio of
    overlap to union, reading [0] and [1] as the centre of the box and [2]
    and [3] as its width and height. The wrappers first move the centre of
    the candidate box to its top-left corner, in place. */
module Scoring {
  import opened Results
  import opened PyNum
  import opened Boxes

  /** list(map(int, box)) on a list without NaN. */
  function Truncated(s: seq<Num>): (t: seq<int>)
    requires forall i :: 0 <= i < |s| ==> s[i].Val?
    ensures |t| == |s|
  {
    seq(|s|, i requires 0 <= i < |s| => Trunc(s[i].r))
  }

  function Min(a: real, b: real): real {
    if a <= b then a else b
  }

  function Max(a: real, b: real): real {
    if a >= b then a else b
  }

  /** The length of the overlap of the intervals centred at c1 and c2 with
      widths s1 and s2 (negative when they are apart): tb for the x/w pair,
      lr for the y/h pair. */
  function CentreOverlap(c1: int, s1: int, c2: int, s2: int): real {
    Min(c1 as real + 0.5 * (s1 as real), c2 as real + 0.5 * (s2 as real))
    - Max(c1 as real - 0.5 * (s1 as real), c2 as real - 0.5 * (s2 as real))
  }

  /** The intersection term: zero when either overlap is not positive. */
  function Intersection(tb: real, lr: real): real {
    if tb <= 0.0 || lr <= 0.0 then 0.0 else tb * lr
  }

  /** w * h of a truncated box. */
  function Area(b: seq<int>): int
    requires |b| >= 4
  {
    b[2] * b[3]
  }

  /** intersection / (area1 + area2 - intersection), or the division error. */
  function Ratio(intersection: real, area1: int, area2: int): Result<real> {
    var denominator := area1 as real + area2 as real - intersection;
    if denominator == 0.0 then Err(ZeroDivisionError) else Ok(intersection / denominator)
  }

  /** The arithmetic of iou on the truncated lists. */
  function IouOf(b1: seq<int>, b2: seq<int>): (r: Result<real>)
    ensures r == Err(IndexError) <==> |b1| < 4 || |b2| < 4
  {
    if |b1| < 4 || |b2| < 4 then Err(IndexError)
    else
      var tb := CentreOverlap(b1[0], b1[2], b2[0], b2[2]);
      var lr := CentreOverlap(b1[1], b1[3], b2[1], b2[3]);
      Ratio(Intersection(tb, lr), Area(b1), Area(b2))
  }

  /** What iou returns for the two lists the caller passes. */
  function IouResult(s1: seq<Num>, s2: seq<Num>): (r: Result<real>)
    ensures r == Err(IndexError) <==> |s1| < 4 || |s2| < 4
  {
    IouOf(Truncated(Sanitized(s1)), Truncated(Sanitized(s2)))
  }

  /** iou(box1, box2). Both lists are NaN-sanitised in place (also when they
      are the same list); the truncation works on fresh lists, so the caller's
      lists keep their fractional parts. */
  method Iou(box1: array<Num>, box2: array<Num>) returns (r: Result<real>)
    modifies box1, box2
    ensures box1[..] == Sanitized(old(box1[..]))
    ensures box2[..] == Sanitized(old(box2[..]))
    ensures r == IouResult(old(box1[..]), old(box2[..]))
  {
    ValidateBox(box1);
    ValidateBox(box2);
    if box1 == box2 {
      assert Sanitized(Sanitized(old(box1[..]))) == Sanitized(old(box1[..]));
    }
    var b1 := Truncated(box1[..]);
    var b2 := Truncated(box2[..]);
    r := IouOf(b1, b2);
  }

  // ---------------------------------------------------------------------
  // The wrappers

  /** location after its first two lines: [0] -= [2]/2, then [1] -= [3]/2.
      Python reads [0] and [2] before writing [0], and [1] and [3] before
      writing [1], so a list of three has only [0] moved when IndexError is
      raised, and a shorter one is not changed. */
  function ShiftedToCorner(s: seq<Num>): (r: seq<Num>)
    ensures |r| == |s|
    ensures forall i :: 2 <= i < |s| ==> r[i] == s[i]
  {
    if |s| < 3 then s
    else
      var s1 := s[0 := Minus(s[0], Half(s[2]))];
      if |s| < 4 then s1 else s1[1 := Minus(s1[1], Half(s1[3]))]
  }

  /** The first two lines of cal_rolo_IOU and cal_yolo_IOU; ok is false
      where Python raises IndexError. */
  method ShiftToCorner(location: array<Num>) returns (ok: bool)
    modifies location
    ensures ok == (location.Length >= 4)
    ensures location[..] == ShiftedToCorner(old(location[..]))
  {
    if location.Length < 3 {
      return false;
    }
    location[0] := Minus(location[0], Half(location[2]));
    if location.Length < 4 {
      return false;
    }
    location[1] := Minus(location[1], Half(location[3]));
    return true;
  }

  /** What the wrappers return for a location list and the ground-truth list
      as it is when iou is called. */
  function CalIouResult(location: seq<Num>, gtLocation: seq<Num>): (r: Result<real>)
    ensures r == Err(IndexError) <==> |location| < 4 || |gtLocation| < 4
  {
    if |location| < 4 then Err(IndexError)
    else IouResult(ShiftedToCorner(location), gtLocation)
  }

  /** cal_rolo_IOU(location, gt_location): the tracker's centre box against the
      ground truth. location ends up moved to its corner and sanitised,
      gt_location sanitised. When the two are the same list, iou sees the
      moved list twice. */
  method CalRoloIou(location: array<Num>, gtLocation: array<Num>) returns (r: Result<real>)
    modifies location, gtLocation
    ensures r == CalIouResult(old(location[..]),
                              if gtLocation == location then ShiftedToCorner(old(location[..]))
                              else old(gtLocation[..]))
    ensures location.Length < 4 ==> location[..] == ShiftedToCorner(old(location[..]))
    ensures location.Length >= 4 ==> location[..] == Sanitized(ShiftedToCorner(old(location[..])))
    ensures gtLocation != location ==>
              gtLocation[..] == if location.Length < 4 then old(gtLocation[..]) else Sanitized(old(gtLocation[..]))
  {
    var ok := ShiftToCorner(location);
    if !ok {
      return Err(IndexError);
    }
    r := Iou(location, gtLocation);
  }

  /** cal_yolo_IOU(location, gt_location): the detector's centre box against
      the ground truth; the same code as cal_rolo_IOU. */
  method CalYoloIou(location: array<Num>, gtLocation: array<Num>) returns (r: Result<real>)
    modifies location, gtLocation
    ensures r == CalIouResult(old(location[..]),
                              if gtLocation == location then ShiftedToCorner(old(location[..]))
                              else old(gtLocation[..]))
    ensures location.Length < 4 ==> location[..] == ShiftedToCorner(old(location[..]))
    ensures location.Length >= 4 ==> location[..] == Sanitized(ShiftedToCorner(old(location[..])))
    ensures gtLocation != location ==>
              gtLocation[..] == if location.Length < 4 then old(gtLocation[..]) else Sanitized(old(gtLocation[..]))
  {
    var ok := ShiftToCorner(location);
    if !ok {
      return Err(IndexError);
    }
    r := Iou(location, gtLocation);
  }
}
