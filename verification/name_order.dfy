/** Ordering records by name, as `sorted { $0.name < $1.name }` does. Swift
    compares strings lexicographically; here characters are compared by
    code point (Unicode canonical equivalence is not modelled). */
module NameOrder {
  import opened PatientRecord

  /** Swift's `String <`: strict lexicographic order. */
  predicate NameLess(a: string, b: string)
  {
    if |a| == 0 then |b| > 0
    else if |b| == 0 then false
    else if a[0] != b[0] then a[0] < b[0]
    else NameLess(a[1..], b[1..])
  }

  /** `a <= b` in the same order. */
  predicate NameAtMost(a: string, b: string)
  {
    !NameLess(b, a)
  }

  lemma {:induction false} NameLessIrreflexive(a: string)
    ensures !NameLess(a, a)
  {
    if |a| > 0 {
      NameLessIrreflexive(a[1..]);
    }
  }

  lemma {:induction false} NameLessTransitive(a: string, b: string, c: string)
    requires NameLess(a, b) && NameLess(b, c)
    ensures NameLess(a, c)
  {
    if |a| > 0 && |b| > 0 && |c| > 0 && a[0] == b[0] && b[0] == c[0] {
      NameLessTransitive(a[1..], b[1..], c[1..]);
    }
  }

  lemma NameLessAsymmetric(a: string, b: string)
    requires NameLess(a, b)
    ensures !NameLess(b, a)
  {
    if NameLess(b, a) {
      NameLessTransitive(a, b, a);
      NameLessIrreflexive(a);
    }
  }

  /** Any two distinct names are ordered one way or the other. */
  lemma {:induction false} NameLessTotal(a: string, b: string)
    ensures a == b || NameLess(a, b) || NameLess(b, a)
  {
    if |a| > 0 && |b| > 0 && a[0] == b[0] {
      NameLessTotal(a[1..], b[1..]);
      if a[1..] == b[1..] {
        assert a == [a[0]] + a[1..] && b == [b[0]] + b[1..];
      }
    }
  }

  /** `NameAtMost` is transitive. */
  lemma NameAtMostTransitive(a: string, b: string, c: string)
    requires NameAtMost(a, b) && NameAtMost(b, c)
    ensures NameAtMost(a, c)
  {
    if NameLess(c, a) {
      NameLessTotal(a, b);
      if NameLess(a, b) {
        NameLessTransitive(c, a, b);
      }
    }
  }

  /** The records appear in non-decreasing name order. */
  ghost predicate SortedByName(ps: seq<PatientData>)
  {
    forall i, j :: 0 <= i < j < |ps| ==> NameAtMost(ps[i].name, ps[j].name)
  }

  /** `p` sorts no later than every record of `ps`. */
  ghost predicate AtMostAll(p: PatientData, ps: seq<PatientData>)
  {
    forall x :: x in ps ==> NameAtMost(p.name, x.name)
  }

  /** The tail of a sorted list is sorted and bounded below by its head. */
  lemma SortedTail(ps: seq<PatientData>)
    requires SortedByName(ps) && |ps| > 0
    ensures SortedByName(ps[1..])
    ensures AtMostAll(ps[0], ps[1..])
  {
    forall x | x in ps[1..] ensures NameAtMost(ps[0].name, x.name) {
      var k :| 0 <= k < |ps[1..]| && ps[1..][k] == x;
      assert ps[k + 1] == x;
    }
  }

  /** Prepending a lower bound keeps a list sorted. */
  lemma ConsSorted(x: PatientData, ys: seq<PatientData>)
    requires AtMostAll(x, ys) && SortedByName(ys)
    ensures SortedByName([x] + ys)
  {
    forall i, j | 0 <= i < j < |[x] + ys|
      ensures NameAtMost(([x] + ys)[i].name, ([x] + ys)[j].name)
    {
      if i == 0 {
        assert ([x] + ys)[j] == ys[j - 1];
        assert ys[j - 1] in ys;
      } else {
        assert ([x] + ys)[i] == ys[i - 1] && ([x] + ys)[j] == ys[j - 1];
      }
    }
  }

  /** A bound below the head of a sorted list bounds the whole list. */
  lemma BelowHeadBelowAll(p: PatientData, ps: seq<PatientData>)
    requires SortedByName(ps) && |ps| > 0
    requires NameAtMost(p.name, ps[0].name)
    ensures AtMostAll(p, ps)
  {
    forall x | x in ps ensures NameAtMost(p.name, x.name) {
      var k :| 0 <= k < |ps| && ps[k] == x;
      if k > 0 {
        NameAtMostTransitive(p.name, ps[0].name, x.name);
      }
    }
  }

  /** A bound on a list and on one extra record bounds any rearrangement of
      the two together. */
  lemma BoundSurvivesInsert(h: PatientData, p: PatientData, ys: seq<PatientData>, r: seq<PatientData>)
    requires AtMostAll(h, ys) && NameAtMost(h.name, p.name)
    requires multiset(r) == multiset(ys) + multiset{p}
    ensures AtMostAll(h, r)
  {
    forall x | x in r ensures NameAtMost(h.name, x.name) {
      assert x in multiset(r);
      if x != p {
        assert x in multiset(ys);
      }
    }
  }

  /** Inserts `p` into a name-sorted list, before the first record whose
      name is not smaller. */
  function InsertByName(p: PatientData, ps: seq<PatientData>): (r: seq<PatientData>)
    requires SortedByName(ps)
    ensures SortedByName(r)
    ensures multiset(r) == multiset(ps) + multiset{p}
    ensures |r| == |ps| + 1
  {
    if |ps| == 0 then [p]
    else if NameAtMost(p.name, ps[0].name) then
      BelowHeadBelowAll(p, ps);
      ConsSorted(p, ps);
      [p] + ps
    else
      SortedTail(ps);
      var rest := InsertByName(p, ps[1..]);
      NameLessAsymmetric(ps[0].name, p.name);
      BoundSurvivesInsert(ps[0], p, ps[1..], rest);
      ConsSorted(ps[0], rest);
      assert ps == [ps[0]] + ps[1..];
      [ps[0]] + rest
  }

  /** Insertion sort by name: a name-sorted permutation of `ps`. */
  function SortByName(ps: seq<PatientData>): (r: seq<PatientData>)
    ensures SortedByName(r)
    ensures multiset(r) == multiset(ps)
    ensures |r| == |ps|
  {
    if |ps| == 0 then []
    else
      assert ps == [ps[0]] + ps[1..];
      InsertByName(ps[0], SortByName(ps[1..]))
  }
}
