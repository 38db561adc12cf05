/** Reading a ground-truth box from the lines of a ground-truth file
    (ObjectTracking/ROLO_utils.py, load_dataset_gt and find_gt_location).
    A line holds x, y, w, h separated by tabs or, failing that, by commas. */
module GroundTruth {
  import opened Results
  import opened PyStr

  /** load_dataset_gt without the file read: the file's text split on '\n'
      (a trailing line break leaves a trailing empty line). */
  function LoadDatasetGt(content: string): (lines: seq<string>)
    ensures |lines| >= 1
  {
    Split(content, '\n')
  }

  /** The fields of a line: the tab split, or the comma split when the tab
      split has fewer than four fields. */
  function GtFields(line: string): (fields: seq<string>)
    ensures |fields| >= 1
  {
    var elems := Split(line, '\t');
    if |elems| < 4 then Split(line, ',') else elems
  }

  /** [int(f) for f in fields], evaluated left to right: the first field that
      is not an integer literal raises ValueError. */
  function ParseFields(fields: seq<string>): (r: Result<seq<int>>)
    ensures r.Ok? ==> |r.value| == |fields|
  {
    if fields == [] then Ok([])
    else
      match ParseInt(fields[0])
      case None => Err(ValueError(fields[0]))
      case Some(v) =>
        var rest := ParseFields(fields[1..]);
        if rest.Err? then Err(rest.error) else Ok([v] + rest.value)
  }

  /** All fields parse exactly when the conversion succeeds, and then each
      integer is int() of its field. */
  lemma {:induction false} ParseFieldsOk(fields: seq<string>)
    ensures ParseFields(fields).Ok? <==> forall k :: 0 <= k < |fields| ==> ParseInt(fields[k]).Some?
    ensures ParseFields(fields).Ok? ==>
              forall k :: 0 <= k < |fields| ==> ParseInt(fields[k]) == Some(ParseFields(fields).value[k])
    decreases |fields|
  {
    if fields != [] {
      ParseFieldsOk(fields[1..]);
      assert forall k :: 1 <= k < |fields| ==> fields[k] == fields[1..][k - 1];
    }
  }

  /** A failing conversion reports the first field that is not an integer. */
  lemma {:induction false} ParseFieldsFirstError(fields: seq<string>)
    requires ParseFields(fields).Err?
    ensures exists j :: 0 <= j < |fields| && ParseFields(fields).error == ValueError(fields[j])
                        && ParseInt(fields[j]).None?
                        && forall k :: 0 <= k < j ==> ParseInt(fields[k]).Some?
    decreases |fields|
  {
    if ParseInt(fields[0]).Some? {
      ParseFieldsFirstError(fields[1..]);
      var j :| 0 <= j < |fields[1..]| && ParseFields(fields[1..]).error == ValueError(fields[1..][j])
               && ParseInt(fields[1..][j]).None?
               && forall k :: 0 <= k < j ==> ParseInt(fields[1..][k]).Some?;
      assert fields[j + 1] == fields[1..][j];
      assert forall k :: 1 <= k < j + 1 ==> fields[k] == fields[1..][k - 1];
    }
  }

  /** find_gt_location(lines, id): the box [x, y, w, h] of line id. Python's
      negative indices are not modelled (id is a nat). */
  function FindGtLocation(lines: seq<string>, id: nat): (r: Result<seq<int>>)
    ensures r.Ok? ==> |r.value| == 4
  {
    if id >= |lines| then Err(IndexError)
    else
      var elems := GtFields(lines[id]);
      if |elems| < 4 then Err(IndexError)
      else ParseFields(elems[..4])
  }
}
