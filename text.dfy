/** The string tests the classifier applies to metric names and label
    fingerprints, and the byte-wise ordering Rust uses to sort `String`s. */
module Text {

  /** `str::starts_with` */
  predicate StartsWith(s: string, prefix: string) {
    |prefix| <= |s| && s[..|prefix|] == prefix
  }

  /** `str::ends_with` */
  predicate EndsWith(s: string, suffix: string) {
    |suffix| <= |s| && s[|s| - |suffix|..] == suffix
  }

  /** `fragment` occurs in `s` starting at position `i`. */
  predicate OccursAt(s: string, fragment: string, i: int) {
    0 <= i <= |s| - |fragment| && s[i..i + |fragment|] == fragment
  }

  /** `str::contains`: `fragment` occurs somewhere in `s`. */
  predicate Contains(s: string, fragment: string) {
    exists i | 0 <= i <= |s| :: OccursAt(s, fragment, i)
  }

  /** Every character of a contained fragment is a character of the string;
      used to show that a fragment is NOT contained. */
  lemma ContainedCharacters(s: string, fragment: string)
    ensures Contains(s, fragment) ==> forall k :: 0 <= k < |fragment| ==> fragment[k] in s
  {
    if Contains(s, fragment) {
      var i :| 0 <= i <= |s| && OccursAt(s, fragment, i);
      forall k | 0 <= k < |fragment|
        ensures fragment[k] in s
      {
        assert s[i..i + |fragment|][k] == s[i + k];
      }
    }
  }

  /** Containment is transitive: a fragment of a fragment is a fragment. */
  lemma ContainsTransitive(s: string, middle: string, fragment: string)
    requires Contains(s, middle) && Contains(middle, fragment)
    ensures Contains(s, fragment)
  {
    var i :| 0 <= i <= |s| && OccursAt(s, middle, i);
    var j :| 0 <= j <= |middle| && OccursAt(middle, fragment, j);
    forall k | 0 <= k < |fragment|
      ensures s[i + j + k] == fragment[k]
    {
      assert s[i..i + |middle|][j + k] == middle[j + k];
      assert middle[j..j + |fragment|][k] == middle[j + k];
    }
    assert s[i + j..i + j + |fragment|] == fragment;
    assert OccursAt(s, fragment, i + j);
  }

  /** A string contains each piece of a concatenation it equals. */
  lemma ContainsPieces(a: string, b: string)
    ensures Contains(a + b, a) && Contains(a + b, b)
  {
    assert OccursAt(a + b, a, 0);
    assert OccursAt(a + b, b, |a|);
  }

  /** Rust's `Ord` for `String`: lexicographic over the characters (UTF-8
      byte order and code-point order agree), a proper prefix sorting first. */
  predicate LessOrEqual(a: string, b: string) {
    |a| == 0 || (|b| > 0 && (a[0] < b[0] || (a[0] == b[0] && LessOrEqual(a[1..], b[1..]))))
  }

  lemma {:induction false} LessOrEqualReflexive(a: string)
    ensures LessOrEqual(a, a)
  {
    if |a| > 0 {
      LessOrEqualReflexive(a[1..]);
    }
  }

  lemma {:induction false} LessOrEqualTotal(a: string, b: string)
    ensures LessOrEqual(a, b) || LessOrEqual(b, a)
  {
    if |a| > 0 && |b| > 0 && a[0] == b[0] {
      LessOrEqualTotal(a[1..], b[1..]);
    }
  }

  lemma {:induction false} LessOrEqualAntisymmetric(a: string, b: string)
    requires LessOrEqual(a, b) && LessOrEqual(b, a)
    ensures a == b
  {
    if |a| > 0 && |b| > 0 {
      LessOrEqualAntisymmetric(a[1..], b[1..]);
      assert a == [a[0]] + a[1..];
      assert b == [b[0]] + b[1..];
    }
  }

  lemma {:induction false} LessOrEqualTransitive(a: string, b: string, c: string)
    requires LessOrEqual(a, b) && LessOrEqual(b, c)
    ensures LessOrEqual(a, c)
  {
    if |a| > 0 && a[0] == b[0] && b[0] == c[0] {
      LessOrEqualTransitive(a[1..], b[1..], c[1..]);
    }
  }
}
