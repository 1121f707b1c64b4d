/** Small shared vocabulary: an optional value and counting/filtering over sequences. */
module Base {

  /** A JavaScript value that may be `undefined`. */
  datatype Option<+T> = None | Some(value: T) {
    function GetOr(default: T): T {
      match this
      case Some(v) => v
      case None => default
    }
  }

  /** Number of elements of `s` that satisfy `p`, counted from the back so that appending is easy to reason about. */
  function CountWhere<T>(s: seq<T>, p: T -> bool): (n: nat)
    ensures n <= |s|
    ensures n == 0 <==> forall i :: 0 <= i < |s| ==> !p(s[i])
  {
    if |s| == 0 then 0
    else CountWhere(s[..|s| - 1], p) + (if p(s[|s| - 1]) then 1 else 0)
  }

  lemma CountWhereAppend<T>(s: seq<T>, x: T, p: T -> bool)
    ensures CountWhere(s + [x], p) == CountWhere(s, p) + (if p(x) then 1 else 0)
  {
    assert (s + [x])[..|s|] == s;
  }

  lemma {:induction false} CountWhereConcat<T>(a: seq<T>, b: seq<T>, p: T -> bool)
    ensures CountWhere(a + b, p) == CountWhere(a, p) + CountWhere(b, p)
    decreases |b|
  {
    if |b| == 0 {
      assert a + b == a;
    } else {
      var b' := b[..|b| - 1];
      assert a + b == (a + b') + [b[|b| - 1]];
      assert b == b' + [b[|b| - 1]];
      CountWhereAppend(a + b', b[|b| - 1], p);
      CountWhereAppend(b', b[|b| - 1], p);
      CountWhereConcat(a, b', p);
    }
  }

  /** Counting is monotone in the predicate. */
  lemma {:induction false} CountWhereMono<T>(s: seq<T>, p: T -> bool, q: T -> bool)
    requires forall i :: 0 <= i < |s| ==> p(s[i]) ==> q(s[i])
    ensures CountWhere(s, p) <= CountWhere(s, q)
    decreases |s|
  {
    if |s| > 0 {
      CountWhereMono(s[..|s| - 1], p, q);
    }
  }

  /** The positions of `s` whose element satisfies `p`. */
  ghost function PositionsWhere<T>(s: seq<T>, p: T -> bool): set<int> {
    set i | 0 <= i < |s| && p(s[i])
  }

  /** The count equals the size of the set of positions that satisfy `p`. */
  lemma {:induction false} CountWhereIsIndexCount<T>(s: seq<T>, p: T -> bool)
    ensures CountWhere(s, p) == |PositionsWhere(s, p)|
    decreases |s|
  {
    if |s| > 0 {
      var s' := s[..|s| - 1];
      CountWhereIsIndexCount(s', p);
      var before := PositionsWhere(s', p);
      var after := PositionsWhere(s, p);
      if p(s[|s| - 1]) {
        assert after == before + {|s| - 1};
      } else {
        assert after == before;
      }
    }
  }

  /** The elements of `s` that satisfy `p`, in their original order. */
  function Filter<T>(s: seq<T>, p: T -> bool): (r: seq<T>)
    ensures |r| == CountWhere(s, p)
    ensures forall i :: 0 <= i < |r| ==> p(r[i]) && r[i] in s
    ensures forall i :: 0 <= i < |s| && p(s[i]) ==> s[i] in r
  {
    if |s| == 0 then []
    else Filter(s[..|s| - 1], p) + (if p(s[|s| - 1]) then [s[|s| - 1]] else [])
  }

  /** Filtering with a predicate that holds everywhere is the identity. */
  lemma {:induction false} FilterAll<T>(s: seq<T>, p: T -> bool)
    requires forall i :: 0 <= i < |s| ==> p(s[i])
    ensures Filter(s, p) == s
    decreases |s|
  {
    if |s| > 0 {
      FilterAll(s[..|s| - 1], p);
      assert s[..|s| - 1] + [s[|s| - 1]] == s;
    }
  }

  /** The distinct elements of `s` in order of first occurrence, as `[...new Set(s)]` yields them. */
  function Distinct<T(==)>(s: seq<T>): (r: seq<T>)
    ensures |r| <= |s|
    ensures forall i :: 0 <= i < |r| ==> r[i] in s
    ensures forall i :: 0 <= i < |s| ==> s[i] in r
    ensures forall i, j :: 0 <= i < j < |r| ==> r[i] != r[j]
  {
    if |s| == 0 then []
    else
      var prefix := Distinct(s[..|s| - 1]);
      if s[|s| - 1] in prefix then prefix else prefix + [s[|s| - 1]]
  }

  /** Filtering distributes over concatenation. */
  lemma {:induction false} FilterConcat<T>(a: seq<T>, b: seq<T>, p: T -> bool)
    ensures Filter(a + b, p) == Filter(a, p) + Filter(b, p)
    decreases |b|
  {
    if |b| == 0 {
      assert a + b == a;
    } else {
      var b' := b[..|b| - 1];
      assert (a + b)[..|a + b| - 1] == a + b';
      FilterConcat(a, b', p);
    }
  }

  /** `r` can be obtained from `s` by deleting elements: it keeps their relative order. */
  predicate SubsequenceOf<T(==)>(r: seq<T>, s: seq<T>)
    decreases |s|
  {
    || |r| == 0
    || (|s| > 0 && (|| (r[|r| - 1] == s[|s| - 1] && SubsequenceOf(r[..|r| - 1], s[..|s| - 1]))
                    || SubsequenceOf(r, s[..|s| - 1])))
  }

  /** A filter keeps the order of what it keeps. */
  lemma {:induction false} FilterIsSubsequence<T>(s: seq<T>, p: T -> bool)
    ensures SubsequenceOf(Filter(s, p), s)
    decreases |s|
  {
    if |s| > 0 {
      var s' := s[..|s| - 1];
      FilterIsSubsequence(s', p);
      var r := Filter(s, p);
      if p(s[|s| - 1]) {
        assert r == Filter(s', p) + [s[|s| - 1]];
        assert r[..|r| - 1] == Filter(s', p);
        assert r[|r| - 1] == s[|s| - 1];
      } else {
        assert r == Filter(s', p);
      }
    }
  }

  /** The set of values occurring in `s`. */
  ghost function Elements<T>(s: seq<T>): set<T> {
    set x | x in s
  }

  lemma ElementsSnoc<T>(s: seq<T>)
    requires |s| > 0
    ensures Elements(s) == Elements(s[..|s| - 1]) + {s[|s| - 1]}
  {
    assert s == s[..|s| - 1] + [s[|s| - 1]];
  }

  /** `[...new Set(s)].length` is the number of different values in `s`. */
  lemma {:induction false} DistinctCountsElements<T>(s: seq<T>)
    ensures |Distinct(s)| == |Elements(s)|
    decreases |s|
  {
    if |s| > 0 {
      var s' := s[..|s| - 1];
      var x := s[|s| - 1];
      var d := Distinct(s');
      DistinctCountsElements(s');
      ElementsSnoc(s);
      if x in d {
        assert Distinct(s) == d;
        var i :| 0 <= i < |d| && d[i] == x;
        assert x in Elements(s');
        assert Elements(s) == Elements(s');
      } else {
        assert Distinct(s) == d + [x];
        assert x !in Elements(s');
      }
    }
  }
}
