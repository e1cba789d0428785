/** Python's order on strings, and `sorted` on a set of them. */
module SortedText {
  import opened PyText

  /** Lexicographic by code point. */
  predicate Less(a: string, b: string) {
    |b| != 0 && (|a| == 0 || a[0] < b[0] || (a[0] == b[0] && Less(a[1..], b[1..])))
  }

  lemma {:induction false} LessTotal(a: string, b: string)
    ensures Less(a, b) || Less(b, a) || a == b
    ensures !(Less(a, b) && Less(b, a)) && !Less(a, a)
  {
    if |a| != 0 {
      LessTotal(a[1..], a[1..]);
      if |b| != 0 && a[0] == b[0] {
        LessTotal(a[1..], b[1..]);
        assert a == [a[0]] + a[1..] && b == [b[0]] + b[1..];
      }
    }
  }

  lemma {:induction false} LessTransitive(a: string, b: string, c: string)
    requires Less(a, b) && Less(b, c)
    ensures Less(a, c)
  {
    if |a| != 0 && a[0] == b[0] && b[0] == c[0] {
      LessTransitive(a[1..], b[1..], c[1..]);
    }
  }

  ghost predicate Sorted(xs: seq<string>) {
    forall i, j :: 0 <= i < j < |xs| ==> Less(xs[i], xs[j])
  }

  /** A strictly sorted list is determined by its members. */
  lemma {:induction false} SortedUnique(xs: seq<string>, ys: seq<string>)
    requires Sorted(xs) && Sorted(ys) && forall x :: x in xs <==> x in ys
    ensures xs == ys
  {
    assert |xs| > 0 ==> xs[0] in ys;
    assert |ys| > 0 ==> ys[0] in xs;
    if |xs| > 0 && |ys| > 0 {
      LessTotal(xs[0], ys[0]);
      assert xs[0] == ys[0];
      forall x ensures x in xs[1..] <==> x in ys[1..] {
        LessTotal(xs[0], xs[0]);
        assert x in xs <==> x == xs[0] || x in xs[1..];
        assert x in ys <==> x == ys[0] || x in ys[1..];
      }
      SortedUnique(xs[1..], ys[1..]);
    }
  }

  function Insert(xs: seq<string>, x: string): seq<string> {
    if |xs| == 0 || Less(x, xs[0]) then [x] + xs
    else if xs[0] == x then xs
    else [xs[0]] + Insert(xs[1..], x)
  }

  lemma {:induction false} InsertSorts(xs: seq<string>, x: string)
    requires Sorted(xs)
    ensures Sorted(Insert(xs, x)) && forall y :: y in Insert(xs, x) <==> y == x || y in xs
  {
    if |xs| != 0 {
      LessTotal(x, xs[0]);
      assert forall y :: y in xs <==> y == xs[0] || y in xs[1..];
      if Less(x, xs[0]) {
        forall i | 1 <= i < |xs| ensures Less(x, xs[i]) { LessTransitive(x, xs[0], xs[i]); }
      } else if xs[0] != x {
        InsertSorts(xs[1..], x);
        var rest := Insert(xs[1..], x);
        forall i | 0 <= i < |rest| ensures Less(xs[0], rest[i]) { assert rest[i] in rest; }
      }
    }
  }

  /** `sorted(s)` */
  ghost function SortedOf(s: set<string>): (r: seq<string>)
    ensures Sorted(r) && forall x :: x in r <==> x in s
  {
    if s == {} then []
    else
      var x := AnyOf(s);
      InsertSorts(SortedOf(s - {x}), x);
      Insert(SortedOf(s - {x}), x)
  }

  method SortedList(s: set<string>) returns (r: seq<string>)
    ensures r == SortedOf(s)
  {
    r := [];
    var left := s;
    while left != {}
      invariant left <= s && Sorted(r) && forall x :: x in r <==> x in s - left
      decreases |left|
    {
      var x :| x in left;
      InsertSorts(r, x);
      r, left := Insert(r, x), left - {x};
    }
    SortedUnique(r, SortedOf(s));
  }
}
