/**
 * Shared vocabulary: an Option for the optional fields and absent lookups of
 * the storefront, and the sequence operations the stores and pages build on
 * (Array.prototype.filter, find, some, and the `[...new Set(xs)]` idiom).
 */
module Common {

  datatype Option<T> = None | Some(value: T)

  /** Array.prototype.filter: the elements that satisfy `keep`, in order. */
  function Filter<T>(s: seq<T>, keep: T -> bool): (r: seq<T>)
    ensures |r| <= |s|
    ensures forall x :: x in r ==> x in s && keep(x)
  {
    if s == [] then [] else (if keep(s[0]) then [s[0]] else []) + Filter(s[1..], keep)
  }

  /** Each value occurs in the filtered list exactly as often as in the input when it is kept, and never otherwise. */
  lemma {:induction false} FilterCount<T>(s: seq<T>, keep: T -> bool, x: T)
    ensures multiset(Filter(s, keep))[x] == if keep(x) then multiset(s)[x] else 0
  {
    if s != [] {
      FilterCount(s[1..], keep, x);
      assert s == [s[0]] + s[1..];
    }
  }

  /** Filtering a list with a given head decides the head and filters the rest. */
  lemma FilterCons<T>(x: T, s: seq<T>, keep: T -> bool)
    ensures Filter([x] + s, keep) == (if keep(x) then [x] else []) + Filter(s, keep)
  {
    assert ([x] + s)[1..] == s;
  }

  /** Filtering a list whose every element is kept changes nothing (an absent key is a no-op). */
  lemma {:induction false} FilterKeepsAll<T>(s: seq<T>, keep: T -> bool)
    requires forall i :: 0 <= i < |s| ==> keep(s[i])
    ensures Filter(s, keep) == s
  {
    if s != [] {
      FilterKeepsAll(s[1..], keep);
    }
  }

  /** Filtering distributes over concatenation, so it keeps the relative order of what it keeps. */
  lemma {:induction false} FilterAppend<T>(s: seq<T>, t: seq<T>, keep: T -> bool)
    ensures Filter(s + t, keep) == Filter(s, keep) + Filter(t, keep)
  {
    if s == [] {
      assert s + t == t;
    } else {
      assert (s + t)[1..] == s[1..] + t;
      FilterAppend(s[1..], t, keep);
    }
  }

  /** Two successive filters are one filter by the conjunction. */
  lemma {:induction false} FilterFilter<T>(s: seq<T>, f: T -> bool, g: T -> bool, fg: T -> bool)
    requires forall x :: fg(x) == (f(x) && g(x))
    ensures Filter(Filter(s, f), g) == Filter(s, fg)
  {
    if s != [] {
      FilterFilter(s[1..], f, g, fg);
      if f(s[0]) {
        assert Filter(s, f) == [s[0]] + Filter(s[1..], f);
        assert Filter(s, f)[1..] == Filter(s[1..], f);
      } else {
        assert Filter(s, f) == Filter(s[1..], f);
      }
    }
  }

  /** Every element that passes the test is kept. */
  lemma {:induction false} FilterComplete<T>(s: seq<T>, keep: T -> bool)
    ensures forall i :: 0 <= i < |s| && keep(s[i]) ==> s[i] in Filter(s, keep)
  {
    if s != [] {
      FilterComplete(s[1..], keep);
      forall i | 1 <= i < |s| && keep(s[i]) ensures s[i] in Filter(s, keep) {
        assert s[1..][i - 1] == s[i];
      }
    }
  }

  /** Filtering with a test that keeps nothing gives the empty list. */
  lemma {:induction false} FilterKeepsNone<T>(s: seq<T>, keep: T -> bool)
    requires forall i :: 0 <= i < |s| ==> !keep(s[i])
    ensures Filter(s, keep) == []
  {
    if s != [] {
      FilterKeepsNone(s[1..], keep);
    }
  }

  /** Two tests that agree everywhere filter alike. */
  lemma {:induction false} FilterSameTest<T>(s: seq<T>, f: T -> bool, g: T -> bool)
    requires forall x :: f(x) == g(x)
    ensures Filter(s, f) == Filter(s, g)
  {
    if s != [] {
      FilterSameTest(s[1..], f, g);
    }
  }

  /** Array.prototype.some. */
  predicate Any<T>(s: seq<T>, test: T -> bool)
  {
    exists i :: 0 <= i < |s| && test(s[i])
  }

  /** Array.prototype.find: the first element that satisfies `test`, or none. */
  function Find<T(==)>(s: seq<T>, test: T -> bool): (r: Option<T>)
    ensures r.None? <==> !Any(s, test)
    ensures r.Some? ==> exists i :: 0 <= i < |s| && s[i] == r.value && test(s[i]) &&
                                    forall j :: 0 <= j < i ==> !test(s[j])
  {
    if s == [] then None
    else if test(s[0]) then Some(s[0])
    else
      var r := Find(s[1..], test);
      assert r.Some? ==> exists i :: 0 <= i < |s| - 1 && s[1..][i] == r.value && test(s[1..][i]) &&
                                     forall j :: 0 <= j < i ==> !test(s[1..][j]);
      assert Any(s[1..], test) ==> Any(s, test) by {
        if Any(s[1..], test) {
          var i :| 0 <= i < |s| - 1 && test(s[1..][i]);
          assert test(s[i + 1]);
        }
      }
      assert Any(s, test) ==> Any(s[1..], test) by {
        if Any(s, test) {
          var i :| 0 <= i < |s| && test(s[i]);
          assert i != 0;
          assert test(s[1..][i - 1]);
        }
      }
      if r.Some? then
        var i :| 0 <= i < |s| - 1 && s[1..][i] == r.value && test(s[1..][i]) &&
                 forall j :: 0 <= j < i ==> !test(s[1..][j]);
        assert s[i + 1] == r.value && forall j :: 0 <= j < i + 1 ==> !test(s[j]);
        r
      else r
  }

  /** Array.prototype.slice(0, n) for n >= 0. */
  function Take<T>(s: seq<T>, n: nat): (r: seq<T>)
    ensures |r| <= n && |r| <= |s|
    ensures |s| <= n ==> r == s
    ensures |s| > n ==> |r| == n
    ensures forall i :: 0 <= i < |r| ==> r[i] == s[i]
  {
    if |s| <= n then s else s[..n]
  }

  predicate NoDups<T(==)>(s: seq<T>)
  {
    forall i, j :: 0 <= i < j < |s| ==> s[i] != s[j]
  }

  /** Position of the first occurrence of x in s. */
  function FirstIndex<T(==)>(s: seq<T>, x: T): (k: nat)
    requires x in s
    ensures k < |s| && s[k] == x
    ensures forall j :: 0 <= j < k ==> s[j] != x
  {
    if s[0] == x then 0 else 1 + FirstIndex(s[1..], x)
  }

  lemma {:induction false} FirstIndexExtend<T>(s: seq<T>, y: T, x: T)
    requires x in s
    ensures FirstIndex(s + [y], x) == FirstIndex(s, x)
  {
    if s[0] != x {
      assert (s + [y])[1..] == s[1..] + [y];
      FirstIndexExtend(s[1..], y, x);
    }
  }

  /**
   * `[...new Set(s)]`: every value of s once, in the order of first occurrence
   * (a JavaScript Set iterates in insertion order).
   */
  function Distinct<T(==)>(s: seq<T>): (r: seq<T>)
    ensures NoDups(r)
    ensures forall i :: 0 <= i < |r| ==> r[i] in s
    ensures forall i :: 0 <= i < |s| ==> s[i] in r
  {
    if s == [] then []
    else
      var init, last := s[..|s| - 1], s[|s| - 1];
      assert s == init + [last];
      var r0 := Distinct(init);
      if last in r0 then r0 else r0 + [last]
  }

  /** The values appear in the order in which they first occur in the input. */
  lemma {:induction false} DistinctFirstOccurrenceOrder<T>(s: seq<T>)
    ensures forall i, j :: 0 <= i < j < |Distinct(s)| ==>
              FirstIndex(s, Distinct(s)[i]) < FirstIndex(s, Distinct(s)[j])
  {
    if s != [] {
      var init, last := s[..|s| - 1], s[|s| - 1];
      assert s == init + [last];
      DistinctFirstOccurrenceOrder(init);
      var r0 := Distinct(init);
      forall x | x in init ensures FirstIndex(s, x) == FirstIndex(init, x) {
        FirstIndexExtend(init, last, x);
      }
      if last !in r0 {
        assert last !in init;
        assert FirstIndex(s, last) == |s| - 1;
        forall i | 0 <= i < |r0| ensures FirstIndex(s, r0[i]) < |s| - 1 {
          assert r0[i] in init;
        }
      }
    }
  }

  /** The first distinct value is the first value of a non-empty input. */
  lemma {:induction false} DistinctHead<T>(s: seq<T>)
    requires |s| > 0
    ensures |Distinct(s)| > 0 && Distinct(s)[0] == s[0]
  {
    var init, last := s[..|s| - 1], s[|s| - 1];
    if |init| > 0 {
      DistinctHead(init);
      assert init[0] == s[0];
    } else {
      assert Distinct(init) == [];
    }
  }

  /** Math.min on two integers. */
  function Min(a: int, b: int): int
  {
    if a <= b then a else b
  }

  /** Math.max on two integers. */
  function Max(a: int, b: int): int
  {
    if a >= b then a else b
  }

  /** JavaScript truthiness of a `string | null` value: present and not empty. */
  predicate Truthy(s: Option<string>)
  {
    s.Some? && s.value != ""
  }
}
