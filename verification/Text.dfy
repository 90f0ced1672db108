/** The byte order std::string, std::set and std::map use, and sets listed in that order. */
module Text {

  predicate Less(a: string, b: string) {
    if |b| == 0 then false
    else if |a| == 0 then true
    else a[0] < b[0] || (a[0] == b[0] && Less(a[1..], b[1..]))
  }

  lemma {:induction false} LessTransitive(a: string, b: string, c: string)
    requires Less(a, b) && Less(b, c)
    ensures Less(a, c)
  {
    if |a| > 0 && a[0] == b[0] == c[0] {
      LessTransitive(a[1..], b[1..], c[1..]);
    }
  }

  lemma {:induction false} LessTrichotomy(a: string, b: string)
    ensures a == b ==> !Less(a, b)
    ensures a != b ==> Less(a, b) != Less(b, a)
  {
    if |a| > 0 && |b| > 0 {
      LessTrichotomy(a[1..], b[1..]);
      assert a == [a[0]] + a[1..] && b == [b[0]] + b[1..];
    }
  }

  predicate IsLeast(x: string, s: set<string>) {
    x in s && forall y :: y in s && y != x ==> Less(x, y)
  }

  lemma {:induction false} HasLeast(s: set<string>) returns (least: string)
    requires s != {}
    ensures IsLeast(least, s)
  {
    var x :| x in s;
    if s == {x} { return x; }
    var m := HasLeast(s - {x});
    LessTrichotomy(x, m);
    least := if Less(x, m) then x else m;
    forall y | y in s && y != least
      ensures Less(least, y)
    {
      if least == x && y != m { LessTransitive(x, m, y); }
    }
  }

  lemma LeastUnique(s: set<string>, x: string, x': string)
    requires IsLeast(x, s) && IsLeast(x', s)
    ensures x == x'
  {
    LessTrichotomy(x, x');
  }

  function Least(s: set<string>): (x: string)
    requires s != {}
    ensures IsLeast(x, s)
  {
    assert exists x :: IsLeast(x, s) by { var l := HasLeast(s); }
    assert forall x, x' :: IsLeast(x, s) && IsLeast(x', s) ==> x == x' by {
      forall x, x' | IsLeast(x, s) && IsLeast(x', s) ensures x == x' { LeastUnique(s, x, x'); }
    }
    var x :| IsLeast(x, s);
    x
  }

  /** The order an iteration over a std::set (or the keys of a std::map) visits its members in. */
  function Sorted(s: set<string>): (r: seq<string>)
    ensures forall x :: x in r <==> x in s
    ensures |r| == |s|
  {
    if s == {} then [] else var x := Least(s); [x] + Sorted(s - {x})
  }

  predicate Increasing(r: seq<string>) {
    forall i, j :: 0 <= i < j < |r| ==> Less(r[i], r[j])
  }

  lemma {:induction false} SortedDistinct(s: set<string>)
    ensures Increasing(Sorted(s))
    ensures forall i, j :: 0 <= i < j < |Sorted(s)| ==> Sorted(s)[i] != Sorted(s)[j]
  {
    if s == {} {
    } else {
      var x := Least(s);
      SortedDistinct(s - {x});
      forall i, j | 0 <= i < j < |Sorted(s)|
        ensures Less(Sorted(s)[i], Sorted(s)[j]) && Sorted(s)[i] != Sorted(s)[j]
      {
        if i == 0 { assert Sorted(s)[j] in Sorted(s - {x}); }
      }
    }
  }

  /** Listing a set in order is the only increasing listing of it. */
  lemma {:induction false} IncreasingIsSorted(r: seq<string>, s: set<string>)
    requires Increasing(r) && forall x :: x in r <==> x in s
    ensures r == Sorted(s)
  {
    if r == [] {
      assert s == {};
    } else {
      assert IsLeast(r[0], s);
      LeastUnique(s, r[0], Least(s));
      forall x | x in r[1..] ensures x != r[0] { LessTrichotomy(x, r[0]); }
      assert r == [r[0]] + r[1..];
      assert forall x :: x in r[1..] <==> x in s - {r[0]};
      IncreasingIsSorted(r[1..], s - {r[0]});
    }
  }

  function Filter(r: seq<string>, keep: set<string>): seq<string> {
    if r == [] then []
    else
      var init, last := r[..|r| - 1], r[|r| - 1];
      if last in keep then Filter(init, keep) + [last] else Filter(init, keep)
  }

  lemma {:induction false} FilterMembers(r: seq<string>, keep: set<string>)
    ensures forall x :: x in Filter(r, keep) <==> x in r && x in keep
  {
    if r == [] {
    } else {
      FilterMembers(r[..|r| - 1], keep);
      assert r == r[..|r| - 1] + [r[|r| - 1]];
    }
  }

  lemma {:induction false} FilterIncreasing(r: seq<string>, keep: set<string>)
    requires Increasing(r)
    ensures Increasing(Filter(r, keep))
  {
    if r == [] {
    } else {
      var init := r[..|r| - 1];
      FilterIncreasing(init, keep);
      FilterMembers(init, keep);
      forall i, j | 0 <= i < j < |Filter(r, keep)|
        ensures Less(Filter(r, keep)[i], Filter(r, keep)[j])
      {
        assert Filter(init, keep)[i] in init;
      }
    }
  }

  /** Keeping part of a sorted listing lists that part. */
  lemma FilterSorted(s: set<string>, keep: set<string>)
    ensures Filter(Sorted(s), keep) == Sorted(s * keep)
  {
    SortedDistinct(s);
    FilterMembers(Sorted(s), keep);
    FilterIncreasing(Sorted(s), keep);
    IncreasingIsSorted(Filter(Sorted(s), keep), s * keep);
  }

  lemma {:induction false} SubsetSize<T>(a: set<T>, b: set<T>)
    requires a <= b
    ensures |a| <= |b|
  {
    if a == {} {
    } else {
      var x :| x in a;
      SubsetSize(a - {x}, b - {x});
    }
  }
}
