/** The two in-place box updates of ObjectTracking/ROLO_utils.py:
    locations_normal (relative box to pixels) and validate_box (NaN to 0).
    A box is a Python list of numbers, modelled as an array of Num. */
module Boxes {
  import opened Results
  import opened PyNum

  // ---------------------------------------------------------------------
  // locations_normal

  /** The list after locations_normal: elements 0 and 2 times wid, elements
      1 and 3 times ht, the rest untouched. On a list shorter than four the
      elements before the missing one have already been scaled when
      IndexError is raised, so the same description covers that case. */
  function Normalized(wid: real, ht: real, s: seq<Num>): (r: seq<Num>)
    ensures |r| == |s|
  {
    seq(|s|, i requires 0 <= i < |s| =>
      if i == 0 || i == 2 then Scale(s[i], wid)
      else if i == 1 || i == 3 then Scale(s[i], ht)
      else s[i])
  }

  /** locations_normal(wid, ht, locations): rescales the list in place and
      returns the same list object; IndexError when it has fewer than four
      elements. */
  method LocationsNormal(wid: real, ht: real, locations: array<Num>) returns (r: Result<array<Num>>)
    modifies locations
    ensures locations[..] == Normalized(wid, ht, old(locations[..]))
    ensures r == if locations.Length >= 4 then Ok(locations) else Err(IndexError)
  {
    if locations.Length < 1 { return Err(IndexError); }
    locations[0] := Scale(locations[0], wid);
    if locations.Length < 2 { return Err(IndexError); }
    locations[1] := Scale(locations[1], ht);
    if locations.Length < 3 { return Err(IndexError); }
    locations[2] := Scale(locations[2], wid);
    if locations.Length < 4 { return Err(IndexError); }
    locations[3] := Scale(locations[3], ht);
    return Ok(locations);
  }

  // ---------------------------------------------------------------------
  // validate_box

  function SanitizeNum(x: Num): Num {
    if x.NaN? then Val(0.0) else x
  }

  /** The list after validate_box. */
  function Sanitized(s: seq<Num>): (r: seq<Num>)
    ensures |r| == |s|
    ensures forall i :: 0 <= i < |r| ==> r[i].Val?
  {
    seq(|s|, i requires 0 <= i < |s| => SanitizeNum(s[i]))
  }

  /** validate_box(box): overwrites every NaN element with 0, in place. */
  method ValidateBox(box: array<Num>)
    modifies box
    ensures box[..] == Sanitized(old(box[..]))
  {
    for i := 0 to box.Length
      invariant forall k :: 0 <= k < i ==> box[k] == SanitizeNum(old(box[k]))
      invariant forall k :: i <= k < box.Length ==> box[k] == old(box[k])
    {
      if box[i].NaN? {
        box[i] := Val(0.0);
      }
    }
  }
}
