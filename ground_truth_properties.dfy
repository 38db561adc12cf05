/** What find_gt_location promises: when it fails and how, which separator it
    uses, that fields after the fourth do not matter, and that it reads back
    the boxes of both line formats of the ground-truth files. */
module GroundTruthProperties {
  import opened Results
  import opened PyStr
  import opened GroundTruth

  /** The decimal text of each component of a box. */
  function Fields(box: seq<int>): seq<string> {
    seq(|box|, i requires 0 <= i < |box| => IntToString(box[i]))
  }

  /** A ground-truth line as the annotation files write it: the components
      of the box in decimal, joined by the separator. */
  function FormatGtLine(box: seq<int>, sep: char): string
    requires |box| >= 1
  {
    Join(Fields(box), sep)
  }

  /** Success means the line exists and its first four fields are integer
      literals, and then the box holds their values. */
  lemma FindGtLocationOk(lines: seq<string>, id: nat)
    ensures FindGtLocation(lines, id).Ok? <==>
              (id < |lines| && |GtFields(lines[id])| >= 4
               && forall k :: 0 <= k < 4 ==> ParseInt(GtFields(lines[id])[k]).Some?)
    ensures FindGtLocation(lines, id).Ok? ==>
              |FindGtLocation(lines, id).value| == 4
              && forall k :: 0 <= k < 4 ==>
                   ParseInt(GtFields(lines[id])[k]) == Some(FindGtLocation(lines, id).value[k])
  {
    if id < |lines| && |GtFields(lines[id])| >= 4 {
      var all := GtFields(lines[id]);
      var fields := all[..4];
      assert FindGtLocation(lines, id) == ParseFields(fields);
      ParseFieldsOk(fields);
      assert forall k :: 0 <= k < 4 ==> fields[k] == all[k];
    }
  }

  /** IndexError exactly when the line is missing or has fewer than four
      fields even after the comma fallback. */
  lemma FindGtLocationIndexError(lines: seq<string>, id: nat)
    ensures FindGtLocation(lines, id) == Err(IndexError) <==>
              (id >= |lines| || |GtFields(lines[id])| < 4)
  {
    if id < |lines| && |GtFields(lines[id])| >= 4 {
      var fields := GtFields(lines[id])[..4];
      assert FindGtLocation(lines, id) == ParseFields(fields);
      if ParseFields(fields).Err? {
        ParseFieldsFirstError(fields);
      }
    }
  }

  /** Any other failure is the ValueError of the first of the four fields
      that is not an integer literal. */
  lemma FindGtLocationValueError(lines: seq<string>, id: nat)
    requires id < |lines| && |GtFields(lines[id])| >= 4
    requires FindGtLocation(lines, id).Err?
    ensures exists j :: 0 <= j < 4 && FindGtLocation(lines, id) == Err(ValueError(GtFields(lines[id])[j]))
                        && ParseInt(GtFields(lines[id])[j]).None?
                        && forall k :: 0 <= k < j ==> ParseInt(GtFields(lines[id])[k]).Some?
  {
    var all := GtFields(lines[id]);
    var fields := all[..4];
    assert FindGtLocation(lines, id) == ParseFields(fields);
    ParseFieldsFirstError(fields);
    var j :| 0 <= j < 4 && ParseFields(fields).error == ValueError(fields[j])
             && ParseInt(fields[j]).None?
             && forall k :: 0 <= k < j ==> ParseInt(fields[k]).Some?;
    assert fields[j] == all[j];
    assert forall k :: 0 <= k < j ==> fields[k] == all[k];
  }

  /** The comma split is used only when the tab split has fewer than four
      fields, that is when the line holds fewer than three tabs. */
  lemma GtFieldsSeparator(line: string)
    ensures GtFields(line) == if Count(line, '\t') >= 3 then Split(line, '\t') else Split(line, ',')
  {
  }

  /** Fields after the fourth tab-separated one are ignored. */
  lemma FindGtLocationIgnoresExtraTabFields(lines: seq<string>, id: nat, extra: string)
    requires id < |lines|
    requires |Split(lines[id], '\t')| >= 4
    ensures FindGtLocation(lines[id := lines[id] + ['\t'] + extra], id) == FindGtLocation(lines, id)
  {
    var line := lines[id];
    SplitAppend(line, extra, '\t');
    var longer := Split(line + ['\t'] + extra, '\t');
    assert longer[..4] == Split(line, '\t')[..4];
  }

  /** Fields after the fourth comma-separated one are ignored, as long as the
      longer line still holds fewer than three tabs. */
  lemma FindGtLocationIgnoresExtraCommaFields(lines: seq<string>, id: nat, extra: string)
    requires id < |lines|
    requires Count(lines[id], '\t') + Count(extra, '\t') < 3
    requires |Split(lines[id], ',')| >= 4
    ensures FindGtLocation(lines[id := lines[id] + [','] + extra], id) == FindGtLocation(lines, id)
  {
    var line := lines[id];
    CountAppend(line, [','], '\t');
    CountAppend(line + [','], extra, '\t');
    SplitAppend(line, extra, ',');
    var longer := Split(line + [','] + extra, ',');
    assert longer[..4] == Split(line, ',')[..4];
  }

  /** int() of the decimal text of each integer gives back the integers. */
  lemma ParseFieldsInverse(box: seq<int>)
    ensures ParseFields(Fields(box)) == Ok(box)
  {
    var f := Fields(box);
    forall k | 0 <= k < |f| ensures ParseInt(f[k]) == Some(box[k]) {
      ParseIntToString(box[k]);
    }
    ParseFieldsOk(f);
    assert ParseFields(f).Ok?;
    var v := ParseFields(f).value;
    assert |v| == |box|;
    assert forall k :: 0 <= k < |box| ==> Some(v[k]) == ParseInt(f[k]) == Some(box[k]);
    assert v == box;
  }

  /** find_gt_location reads back every box written in either format. */
  lemma FindGtLocationRoundTrip(box: seq<int>, sep: char)
    requires |box| == 4
    requires sep == '\t' || sep == ','
    ensures FindGtLocation([FormatGtLine(box, sep)], 0) == Ok(box)
  {
    var fields := Fields(box);
    forall i | 0 <= i < 4 ensures '\t' !in fields[i] && ',' !in fields[i] {
      IntToStringChars(box[i]);
    }
    SplitJoin(fields, sep);
    if sep == ',' {
      JoinNoSep(fields, '\t', ',');
      SplitNoSep(FormatGtLine(box, sep), '\t');
    }
    assert fields[..4] == fields;
    ParseFieldsInverse(box);
  }

  /** "Format 2" ground truth: tab-separated. */
  lemma TabSeparatedLine()
    ensures FindGtLocation(["10\t20\t30\t40"], 0) == Ok([10, 20, 30, 40])
  {
    assert DigitsOf(10) == "10" && DigitsOf(20) == "20" && DigitsOf(30) == "30" && DigitsOf(40) == "40";
    assert Fields([10, 20, 30, 40]) == ["10", "20", "30", "40"];
    assert FormatGtLine([10, 20, 30, 40], '\t') == "10\t20\t30\t40";
    FindGtLocationRoundTrip([10, 20, 30, 40], '\t');
  }

  /** "Format 1" ground truth: comma-separated. */
  lemma CommaSeparatedLine()
    ensures FindGtLocation(["10,20,30,40"], 0) == Ok([10, 20, 30, 40])
  {
    assert DigitsOf(10) == "10" && DigitsOf(20) == "20" && DigitsOf(30) == "30" && DigitsOf(40) == "40";
    assert Fields([10, 20, 30, 40]) == ["10", "20", "30", "40"];
    assert FormatGtLine([10, 20, 30, 40], ',') == "10,20,30,40";
    FindGtLocationRoundTrip([10, 20, 30, 40], ',');
  }

  /** Integer fields that int() reads alike convert alike. */
  lemma {:induction false} ParseFieldsAlike(a: seq<string>, b: seq<string>)
    requires |a| == |b|
    requires forall k :: 0 <= k < |a| ==> ParseInt(a[k]).Some? && ParseInt(a[k]) == ParseInt(b[k])
    ensures ParseFields(a) == ParseFields(b)
    decreases |a|
  {
    if a != [] {
      assert forall k :: 0 <= k < |a| - 1 ==> a[1..][k] == a[k + 1] && b[1..][k] == b[k + 1];
      ParseFieldsAlike(a[1..], b[1..]);
      assert ParseInt(a[0]) == ParseInt(b[0]);
    }
  }

  lemma CarriageReturnFields(box: seq<int>, sep: char)
    requires |box| == 4
    requires sep == '\t' || sep == ','
    ensures GtFields(FormatGtLine(box, sep) + "\r") == Fields(box)[3 := Fields(box)[3] + "\r"]
  {
    var fields := Fields(box);
    var fields' := fields[3 := fields[3] + "\r"];
    forall i | 0 <= i < 4 ensures '\t' !in fields'[i] && ',' !in fields'[i] {
      IntToStringChars(box[i]);
    }
    JoinExtendLast(fields, sep, "\r");
    SplitJoin(fields', sep);
    if sep == ',' {
      JoinNoSep(fields', '\t', ',');
      SplitNoSep(Join(fields', sep), '\t');
    }
  }

  /** A stray '\r' at the end of the last field is stripped by int().
      Lines read through load_dataset_gt hold none, since Python's
      universal-newline read turns every '\r' line break into '\n'. */
  lemma CarriageReturnIgnored(box: seq<int>, sep: char)
    requires |box| == 4
    requires sep == '\t' || sep == ','
    ensures FindGtLocation([FormatGtLine(box, sep) + "\r"], 0) == Ok(box)
  {
    var fields := Fields(box);
    var fields' := fields[3 := fields[3] + "\r"];
    CarriageReturnFields(box, sep);
    assert fields'[..4] == fields';
    forall k | 0 <= k < 4
      ensures ParseInt(fields'[k]).Some? && ParseInt(fields'[k]) == ParseInt(fields[k])
    {
      ParseIntToString(box[k]);
      if k == 3 {
        ParseIntTrailingSpace(fields[3], "\r");
      }
    }
    ParseFieldsAlike(fields', fields);
    ParseFieldsInverse(box);
  }

  /** Tabs take precedence: a line with three tabs is never re-split on
      commas, so a comma inside a field makes int() fail on that field. */
  lemma TabsTakePrecedence()
    ensures FindGtLocation(["1,2\t3\t4\t5"], 0) == Err(ValueError("1,2"))
  {
    var fields := ["1,2", "3", "4", "5"];
    assert "1,2\t3\t4\t5" == Join(fields, '\t');
    SplitJoin(fields, '\t');
    assert GtFields("1,2\t3\t4\t5") == fields;
    CommaIsNotAnInteger();
  }

  lemma CommaIsNotAnInteger()
    ensures ParseInt("1,2") == None
  {
    assert StripLeft("1,2") == "1,2";
    assert StripRight("1,2") == "1,2";
    assert !IsDigit("1,2"[1]);
  }

  /** A file ending in a line break yields a trailing empty line, which
      find_gt_location rejects with IndexError. */
  lemma TrailingEmptyLine(content: string)
    ensures LoadDatasetGt(content + "\n") == LoadDatasetGt(content) + [""]
    ensures FindGtLocation(LoadDatasetGt(content + "\n"), |LoadDatasetGt(content)|) == Err(IndexError)
  {
    TrailingSeparator(content, '\n');
    SplitNoSep("", '\t');
    SplitNoSep("", ',');
  }
}
