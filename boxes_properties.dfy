/** What locations_normal and validate_box promise about the list they
    update. */
module BoxesProperties {
  import opened PyNum
  import opened Boxes

  /** Dividing by the image size undoes locations_normal. */
  lemma {:induction false} NormalizedInverse(wid: real, ht: real, s: seq<Num>)
    requires wid != 0.0 && ht != 0.0
    ensures Normalized(1.0 / wid, 1.0 / ht, Normalized(wid, ht, s)) == s
  {
    var back := Normalized(1.0 / wid, 1.0 / ht, Normalized(wid, ht, s));
    forall i | 0 <= i < |s| ensures back[i] == s[i] {
      ScaleInverse(s[i], wid);
      ScaleInverse(s[i], ht);
    }
  }

  /** locations_normal keeps the length and every element after the fourth. */
  lemma NormalizedKeepsTail(wid: real, ht: real, s: seq<Num>)
    ensures |Normalized(wid, ht, s)| == |s|
    ensures forall i :: 4 <= i < |s| ==> Normalized(wid, ht, s)[i] == s[i]
  {
  }

  /** A NaN component stays NaN; locations_normal does not sanitise. */
  lemma NormalizedKeepsNaN(wid: real, ht: real, s: seq<Num>)
    ensures forall i :: 0 <= i < |s| && s[i].NaN? ==> Normalized(wid, ht, s)[i].NaN?
  {
  }

  /** A relative box (0.5, 0.5, 0.2, 0.1) in a 100 by 200 image. */
  lemma NormalizedExample()
    ensures Normalized(100.0, 200.0, [Val(0.5), Val(0.5), Val(0.2), Val(0.1)])
            == [Val(50.0), Val(100.0), Val(20.0), Val(20.0)]
  {
  }

  /** validate_box puts 0 where there was NaN and leaves every other element
      as it was. */
  lemma SanitizedPointwise(s: seq<Num>)
    ensures |Sanitized(s)| == |s|
    ensures forall i :: 0 <= i < |s| ==> (s[i].NaN? ==> Sanitized(s)[i] == Val(0.0))
    ensures forall i :: 0 <= i < |s| ==> (s[i].Val? ==> Sanitized(s)[i] == s[i])
  {
  }

  /** validate_box twice is validate_box once. */
  lemma SanitizedIdempotent(s: seq<Num>)
    ensures Sanitized(Sanitized(s)) == Sanitized(s)
  {
  }

  /** A list without NaN is left as it is. */
  lemma SanitizedNoNaN(s: seq<Num>)
    requires forall i :: 0 <= i < |s| ==> s[i].Val?
    ensures Sanitized(s) == s
  {
  }
}
