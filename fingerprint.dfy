/** The label fingerprint (src/lib.rs lines 82-89): the values of a sample's
    label map, sorted, joined with `_`, and prefixed with `_` when the joined
    text is not empty. */
module Fingerprints {
  import opened Text

  /** Ascending under Rust's `String` order. */
  predicate Sorted(s: seq<string>) {
    forall i, j :: 0 <= i < j < |s| ==> LessOrEqual(s[i], s[j])
  }

  lemma SortedPrepend(x: string, s: seq<string>)
    requires Sorted(s)
    requires forall k :: 0 <= k < |s| ==> LessOrEqual(x, s[k])
    ensures Sorted([x] + s)
  {
    forall i, j | 0 <= i < j < |[x] + s|
      ensures LessOrEqual(([x] + s)[i], ([x] + s)[j])
    {
      if i > 0 {
        assert ([x] + s)[i] == s[i - 1];
      }
    }
  }

  /** Inserts one value into a sorted sequence, keeping it sorted. */
  function Insert(x: string, s: seq<string>): (r: seq<string>)
    requires Sorted(s)
    ensures Sorted(r)
    ensures multiset(r) == multiset(s) + multiset{x}
  {
    if s == [] then
      [x]
    else if LessOrEqual(x, s[0]) then
      assert forall k :: 0 <= k < |s| ==> LessOrEqual(x, s[k]) by {
        forall k | 0 <= k < |s| ensures LessOrEqual(x, s[k]) {
          if k > 0 { LessOrEqualTransitive(x, s[0], s[k]); }
        }
      }
      SortedPrepend(x, s);
      [x] + s
    else
      assert s == [s[0]] + s[1..];
      var rest := Insert(x, s[1..]);
      assert forall k :: 0 <= k < |rest| ==> LessOrEqual(s[0], rest[k]) by {
        forall k | 0 <= k < |rest| ensures LessOrEqual(s[0], rest[k]) {
          assert rest[k] in multiset(rest);
          if rest[k] == x {
            LessOrEqualTotal(x, s[0]);
          } else {
            assert rest[k] in s[1..];
          }
        }
      }
      SortedPrepend(s[0], rest);
      [s[0]] + rest
  }

  /** Sorts label values; stands for `Vec::sort` on `Vec<String>`. Any two
      correct sorts agree (SortedUnique), so insertion sort is as good a
      model as Rust's merge sort. */
  function Sort(s: seq<string>): (r: seq<string>)
    ensures Sorted(r)
    ensures multiset(r) == multiset(s)
  {
    if s == [] then
      []
    else
      assert s == [s[0]] + s[1..];
      Insert(s[0], Sort(s[1..]))
  }

  /** Two sorted arrangements of one multiset start with the same element. */
  lemma SortedHeads(a: seq<string>, b: seq<string>)
    requires Sorted(a) && Sorted(b) && a != []
    requires multiset(a) == multiset(b)
    ensures b != [] && a[0] == b[0]
  {
    assert a[0] in multiset(b);
    assert b[0] in multiset(a);
    var j :| 0 <= j < |b| && b[j] == a[0];
    var i :| 0 <= i < |a| && a[i] == b[0];
    if j == 0 { LessOrEqualReflexive(b[0]); }
    if i == 0 { LessOrEqualReflexive(a[0]); }
    LessOrEqualAntisymmetric(a[0], b[0]);
  }

  /** A multiset has exactly one sorted arrangement. */
  lemma {:induction false} SortedUnique(a: seq<string>, b: seq<string>)
    requires Sorted(a) && Sorted(b)
    requires multiset(a) == multiset(b)
    ensures a == b
  {
    if a != [] {
      SortedHeads(a, b);
      assert a == [a[0]] + a[1..];
      assert b == [b[0]] + b[1..];
      assert multiset(a[1..]) == multiset(a) - multiset{a[0]};
      assert multiset(b[1..]) == multiset(b) - multiset{b[0]};
      SortedUnique(a[1..], b[1..]);
    }
  }

  /** `[String]::join(sep)`. */
  function Join(parts: seq<string>, sep: string): string {
    if |parts| == 0 then ""
    else if |parts| == 1 then parts[0]
    else parts[0] + sep + Join(parts[1..], sep)
  }

  lemma {:induction false} JoinContainsParts(parts: seq<string>, sep: string)
    ensures forall k :: 0 <= k < |parts| ==> Contains(Join(parts, sep), parts[k])
  {
    if |parts| == 1 {
      ContainsPieces(parts[0], "");
      assert parts[0] + "" == parts[0];
    } else if |parts| > 1 {
      var tail := Join(parts[1..], sep);
      JoinContainsParts(parts[1..], sep);
      assert Join(parts, sep) == parts[0] + (sep + tail);
      ContainsPieces(parts[0], sep + tail);
      ContainsPieces(parts[0] + sep, tail);
      assert Join(parts, sep) == (parts[0] + sep) + tail;
      forall k | 1 <= k < |parts|
        ensures Contains(Join(parts, sep), parts[k])
      {
        assert parts[1..][k - 1] == parts[k];
        ContainsTransitive(Join(parts, sep), tail, parts[k]);
      }
    }
  }

  /** The canonical fingerprint of a sample's label values. */
  function Fingerprint(values: seq<string>): (r: string)
    ensures values == [] ==> r == ""
    ensures r != "" ==> r[0] == '_'
  {
    var joined := Join(Sort(values), "_");
    if |joined| > 0 then "_" + joined else joined
  }

  /** The fingerprint does not depend on the order in which the label map
      yields its values. */
  lemma FingerprintIgnoresOrder(a: seq<string>, b: seq<string>)
    requires multiset(a) == multiset(b)
    ensures Fingerprint(a) == Fingerprint(b)
  {
    SortedUnique(Sort(a), Sort(b));
  }

  /** For values already in order the fingerprint is their `_`-join, with a
      leading `_` exactly when that join is not empty. */
  lemma FingerprintOfSorted(values: seq<string>)
    requires Sorted(values)
    ensures var joined := Join(values, "_");
      Fingerprint(values) == if joined == "" then "" else "_" + joined
  {
    SortedUnique(Sort(values), values);
  }

  /** The fingerprint of label values in any order is the `_`-join of
      their sorted arrangement, with a leading `_` exactly when that join
      is not empty. */
  lemma FingerprintOfAnyOrder(values: seq<string>, sorted: seq<string>)
    requires Sorted(sorted) && multiset(sorted) == multiset(values)
    ensures var joined := Join(sorted, "_");
      Fingerprint(values) == if joined == "" then "" else "_" + joined
  {
    FingerprintIgnoresOrder(values, sorted);
    FingerprintOfSorted(sorted);
  }

  /** Every label value occurs inside the fingerprint. */
  lemma FingerprintContainsValues(values: seq<string>)
    ensures forall v :: v in values ==> Contains(Fingerprint(values), v)
  {
    var sorted := Sort(values);
    var joined := Join(sorted, "_");
    JoinContainsParts(sorted, "_");
    forall v | v in values
      ensures Contains(Fingerprint(values), v)
    {
      assert v in multiset(sorted);
      var k :| 0 <= k < |sorted| && sorted[k] == v;
      if |joined| > 0 {
        ContainsPieces("_", joined);
        ContainsTransitive("_" + joined, joined, v);
      }
    }
  }
}
