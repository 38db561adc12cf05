/** The two string operations of Python that ground-truth parsing relies on:
    str.split with an explicit one-character separator, and int() applied to
    a string (whitespace stripped, optional sign, decimal digits with single
    underscores between them). */
module PyStr {
  import opened Results

  /** Number of occurrences of c in s. */
  function Count(s: string, c: char): nat {
    if s == [] then 0 else (if s[0] == c then 1 else 0) + Count(s[1..], c)
  }

  /** s.split(sep): the pieces between separators, empty pieces kept. */
  function Split(s: string, sep: char): (r: seq<string>)
    ensures |r| == Count(s, sep) + 1
    ensures forall i :: 0 <= i < |r| ==> sep !in r[i]
    decreases |s|
  {
    if s == [] then [""]
    else if s[0] == sep then [""] + Split(s[1..], sep)
    else
      var rest := Split(s[1..], sep);
      [[s[0]] + rest[0]] + rest[1..]
  }

  /** sep.join(pieces), the inverse of Split. */
  function Join(pieces: seq<string>, sep: char): string
    requires |pieces| >= 1
  {
    if |pieces| == 1 then pieces[0] else pieces[0] + [sep] + Join(pieces[1..], sep)
  }

  lemma {:induction false} CountAppend(a: string, b: string, c: char)
    ensures Count(a + b, c) == Count(a, c) + Count(b, c)
  {
    if a != [] {
      assert (a + b)[1..] == a[1..] + b;
      CountAppend(a[1..], b, c);
    } else {
      assert a + b == b;
    }
  }

  /** Joining the pieces of a split gives back the string. */
  lemma {:induction false} JoinSplit(s: string, sep: char)
    ensures Join(Split(s, sep), sep) == s
    decreases |s|
  {
    if s != [] {
      JoinSplit(s[1..], sep);
      var rest := Split(s[1..], sep);
      if s[0] != sep {
        if |rest| == 1 {
          assert Join(Split(s, sep), sep) == [s[0]] + rest[0];
        } else {
          var r := Split(s, sep);
          assert r[1..] == rest[1..];
          assert Join(r, sep) == [s[0]] + rest[0] + [sep] + Join(rest[1..], sep);
        }
        assert s == [s[0]] + s[1..];
      } else {
        assert s == [sep] + s[1..];
      }
    }
  }

  /** A separator splits a string into the pieces of its two sides. */
  lemma {:induction false} SplitAppend(a: string, b: string, sep: char)
    ensures Split(a + [sep] + b, sep) == Split(a, sep) + Split(b, sep)
    decreases |a|
  {
    var s := a + [sep] + b;
    if a == [] {
      assert s[1..] == b;
    } else {
      assert s[1..] == a[1..] + [sep] + b;
      SplitAppend(a[1..], b, sep);
    }
  }

  /** A string without the separator is a single piece. */
  lemma {:induction false} SplitNoSep(s: string, sep: char)
    requires sep !in s
    ensures Split(s, sep) == [s]
    decreases |s|
  {
    if s != [] {
      assert sep !in s[1..] by { assert forall i :: 0 <= i < |s[1..]| ==> s[1..][i] == s[i + 1]; }
      SplitNoSep(s[1..], sep);
      assert s == [s[0]] + s[1..];
    }
  }

  /** Splitting a join gives back the pieces, when no piece holds the separator. */
  lemma {:induction false} SplitJoin(pieces: seq<string>, sep: char)
    requires |pieces| >= 1
    requires forall i :: 0 <= i < |pieces| ==> sep !in pieces[i]
    ensures Split(Join(pieces, sep), sep) == pieces
    decreases |pieces|
  {
    if |pieces| == 1 {
      SplitNoSep(pieces[0], sep);
    } else {
      SplitNoSep(pieces[0], sep);
      SplitJoin(pieces[1..], sep);
      SplitAppend(pieces[0], Join(pieces[1..], sep), sep);
      assert pieces == [pieces[0]] + pieces[1..];
    }
  }

  /** A character other than the separator that no piece holds is not in
      the join either. */
  lemma {:induction false} JoinNoSep(pieces: seq<string>, c: char, sep: char)
    requires |pieces| >= 1 && c != sep
    requires forall i :: 0 <= i < |pieces| ==> c !in pieces[i]
    ensures c !in Join(pieces, sep)
    decreases |pieces|
  {
    if |pieces| > 1 {
      JoinNoSep(pieces[1..], c, sep);
    }
  }

  /** Text appended to the last piece ends up at the end of the join. */
  lemma {:induction false} JoinExtendLast(pieces: seq<string>, sep: char, tail: string)
    requires |pieces| >= 1
    ensures Join(pieces[|pieces| - 1 := pieces[|pieces| - 1] + tail], sep) == Join(pieces, sep) + tail
    decreases |pieces|
  {
    var longer := pieces[|pieces| - 1 := pieces[|pieces| - 1] + tail];
    if |pieces| > 1 {
      JoinExtendLast(pieces[1..], sep, tail);
      assert longer[1..] == pieces[1..][|pieces| - 2 := pieces[|pieces| - 1] + tail];
    }
  }

  /** A trailing separator yields a trailing empty piece. */
  lemma TrailingSeparator(s: string, sep: char)
    ensures Split(s + [sep], sep) == Split(s, sep) + [""]
  {
    SplitAppend(s, "", sep);
    assert s + [sep] + "" == s + [sep];
  }

  // ---------------------------------------------------------------------
  // int(str)

  /** The characters int() strips from both ends of its argument: the ASCII
      whitespace space and '\t' to '\r', and the non-ASCII whitespace, which
      int() reads as spaces. The separators U+001C to U+001F are whitespace
      to str.isspace() but not to int(). */
  predicate IsSpace(c: char) {
    c == ' ' || ('\t' <= c <= '\r')
    || c == '\U{85}' || c == '\U{A0}' || c == '\U{1680}'
    || ('\U{2000}' <= c <= '\U{200A}') || c == '\U{2028}' || c == '\U{2029}'
    || c == '\U{202F}' || c == '\U{205F}' || c == '\U{3000}'
  }

  predicate IsDigit(c: char) {
    '0' <= c <= '9'
  }

  function StripLeft(s: string): string {
    if s != [] && IsSpace(s[0]) then StripLeft(s[1..]) else s
  }

  function StripRight(s: string): string {
    if s != [] && IsSpace(s[|s| - 1]) then StripRight(s[..|s| - 1]) else s
  }

  /** s.strip() */
  function Strip(s: string): string {
    StripRight(StripLeft(s))
  }

  /** A digit run as int() accepts it: digits, with single underscores
      allowed only between two digits. */
  predicate ValidDigits(d: string) {
    |d| >= 1 && IsDigit(d[0]) && IsDigit(d[|d| - 1]) && DigitsOrUnderscores(d)
    && NoDoubleUnderscore(d)
  }

  predicate NoDoubleUnderscore(d: string) {
    |d| < 2 || (!(d[0] == '_' && d[1] == '_') && NoDoubleUnderscore(d[1..]))
  }

  /** A run of digits alone has no double underscore. */
  lemma {:induction false} DigitsHaveNoDoubleUnderscore(d: string)
    requires forall i :: 0 <= i < |d| ==> IsDigit(d[i])
    ensures NoDoubleUnderscore(d)
    decreases |d|
  {
    if |d| >= 2 {
      DigitsHaveNoDoubleUnderscore(d[1..]);
    }
  }

  predicate DigitsOrUnderscores(d: string) {
    forall i :: 0 <= i < |d| ==> IsDigit(d[i]) || d[i] == '_'
  }

  /** The decimal value of a digit run, underscores ignored. */
  function DecimalValue(d: string): nat
    requires DigitsOrUnderscores(d)
  {
    if d == [] then 0
    else
      var last := d[|d| - 1];
      if last == '_' then DecimalValue(d[..|d| - 1])
      else DecimalValue(d[..|d| - 1]) * 10 + (last as int - '0' as int)
  }

  /** int(s): None stands for the ValueError that int() raises. */
  function ParseInt(s: string): (r: Option<int>)
  {
    var t := Strip(s);
    var negative := |t| > 0 && t[0] == '-';
    var digits := if |t| > 0 && (t[0] == '+' || t[0] == '-') then t[1..] else t;
    if ValidDigits(digits) then
      var magnitude: int := DecimalValue(digits);
      Some(if negative then -magnitude else magnitude)
    else None
  }

  // ---------------------------------------------------------------------
  // str(n), the reference that int() inverts

  function DigitChar(k: nat): char
    requires k < 10
  {
    ('0' as int + k) as char
  }

  /** The decimal digits of n, most significant first. */
  function DigitsOf(n: nat): (d: string)
    ensures |d| >= 1
    decreases n
  {
    if n < 10 then [DigitChar(n)] else DigitsOf(n / 10) + [DigitChar(n % 10)]
  }

  /** str(n) */
  function IntToString(n: int): string {
    if n < 0 then "-" + DigitsOf(-n) else DigitsOf(n)
  }

  lemma {:induction false} DigitsOfValid(n: nat)
    ensures forall i :: 0 <= i < |DigitsOf(n)| ==> IsDigit(DigitsOf(n)[i])
    ensures ValidDigits(DigitsOf(n))
    ensures DecimalValue(DigitsOf(n)) == n
    decreases n
  {
    var d := DigitsOf(n);
    if n >= 10 {
      DigitsOfValid(n / 10);
      assert d[..|d| - 1] == DigitsOf(n / 10);
    }
    DigitsHaveNoDoubleUnderscore(d);
  }

  /** int(str(n)) == n */
  lemma ParseIntToString(n: int)
    ensures ParseInt(IntToString(n)) == Some(n)
  {
    var m := if n < 0 then -n else n;
    DigitsOfValid(m);
    var s := IntToString(n);
    assert !IsSpace(s[0]);
    assert !IsSpace(s[|s| - 1]);
    assert StripLeft(s) == s;
    assert StripRight(s) == s;
    if n < 0 {
      assert s[1..] == DigitsOf(m);
    }
  }

  /** str(n) holds only digits and a leading minus sign. */
  lemma IntToStringChars(n: int)
    ensures forall i :: 0 <= i < |IntToString(n)| ==> IntToString(n)[i] == '-' || IsDigit(IntToString(n)[i])
  {
    DigitsOfValid(if n < 0 then -n else n);
  }

  /** Trailing whitespace (a stray '\r', say) does not
      change what int() returns. */
  lemma ParseIntTrailingSpace(s: string, w: string)
    requires forall i :: 0 <= i < |w| ==> IsSpace(w[i])
    ensures ParseInt(s + w) == ParseInt(s)
  {
    StripLeftAppend(s, w);
    StripRightSpaces(StripLeft(s), w);
    if StripLeft(s) == [] {
      StripRightSpaces([], w);
      assert StripLeft(w) == [] by { StripLeftSpaces(w); }
    }
  }

  /** int() does not strip the information separators U+001C to U+001F:
      int("5\x1c") raises ValueError. */
  lemma InformationSeparatorNotStripped()
    ensures ParseInt("5\U{1C}") == None
    ensures ParseInt("5\U{1F}") == None
  {
    assert StripRight("5\U{1C}") == "5\U{1C}";
    assert StripRight("5\U{1F}") == "5\U{1F}";
  }

  lemma {:induction false} StripLeftSpaces(w: string)
    requires forall i :: 0 <= i < |w| ==> IsSpace(w[i])
    ensures StripLeft(w) == []
    decreases |w|
  {
    if w != [] {
      StripLeftSpaces(w[1..]);
    }
  }

  lemma {:induction false} StripLeftAppend(s: string, w: string)
    ensures StripLeft(s + w) == if StripLeft(s) == [] then StripLeft(w) else StripLeft(s) + w
    decreases |s|
  {
    if s == [] {
      assert s + w == w;
    } else {
      assert (s + w)[0] == s[0];
      if IsSpace(s[0]) {
        assert (s + w)[1..] == s[1..] + w;
        StripLeftAppend(s[1..], w);
      }
    }
  }

  lemma {:induction false} StripRightSpaces(s: string, w: string)
    requires forall i :: 0 <= i < |w| ==> IsSpace(w[i])
    ensures StripRight(s + w) == StripRight(s)
    decreases |w|
  {
    if w == [] {
      assert s + w == s;
    } else {
      var u := s + w;
      assert u[..|u| - 1] == s + w[..|w| - 1];
      StripRightSpaces(s, w[..|w| - 1]);
    }
  }
}
