/**
 * `verMap` of copr-pkgs-update.py and the ordering Python gives the tuples
 * it builds: a dotted version becomes one integer per `.`-separated
 * component, and tuples compare lexicographically, a proper prefix being
 * the smaller.
 */
module Versions {
  import opened Wrappers
  import opened Text

  /** `int()` of every component, or `None` where some `int()` raises. */
  function ParseAll(parts: seq<string>): (r: Option<seq<int>>)
    ensures r.Some? ==> |r.value| == |parts|
    ensures r.Some? ==> forall i :: 0 <= i < |parts| ==>
                          ParseDecimal(parts[i]).Some? && r.value[i] == ParseDecimal(parts[i]).value
    ensures r.None? ==> exists i :: 0 <= i < |parts| && ParseDecimal(parts[i]).None?
  {
    if parts == [] then Some([])
    else
      var head, tail := ParseDecimal(parts[0]), ParseAll(parts[1..]);
      if head.None? then None
      else if tail.None? then
        var i :| 0 <= i < |parts[1..]| && ParseDecimal(parts[1..][i]).None?;
        assert parts[i + 1] == parts[1..][i];
        None
      else
        assert forall i :: 1 <= i < |parts| ==> parts[i] == parts[1..][i - 1];
        Some([head.value as int] + tail.value)
  }

  /** `verMap(v)`: the empty tuple for an empty string, else `tuple(map(int, v.split('.')))`. */
  function VerMap(v: string): (r: Option<seq<int>>)
    ensures v == [] ==> r == Some([])
    ensures v != [] && r.Some? ==> |r.value| == |Split(v, '.')|
  {
    if v == [] then Some([]) else ParseAll(Split(v, '.'))
  }

  /** Python's `a < b` on tuples of ints. */
  predicate TupleLess(a: seq<int>, b: seq<int>)
    decreases |a|
  {
    if a == [] then b != []
    else if b == [] then false
    else a[0] < b[0] || (a[0] == b[0] && TupleLess(a[1..], b[1..]))
  }

  /** A proper prefix is smaller. */
  lemma {:induction false} PrefixIsLess(a: seq<int>, b: seq<int>)
    requires |a| < |b| && a == b[..|a|]
    ensures TupleLess(a, b) && !TupleLess(b, a)
    decreases |a|
  {
    if a != [] {
      assert a[1..] == b[1..][..|a| - 1];
      PrefixIsLess(a[1..], b[1..]);
    }
  }

  /** Tuple order is irreflexive. */
  lemma {:induction false} LessIrreflexive(a: seq<int>)
    ensures !TupleLess(a, a)
    decreases |a|
  {
    if a != [] { LessIrreflexive(a[1..]); }
  }

  /** Tuple order is asymmetric. */
  lemma {:induction false} LessAsymmetric(a: seq<int>, b: seq<int>)
    requires TupleLess(a, b)
    ensures !TupleLess(b, a)
    decreases |a|
  {
    if a != [] && b != [] && a[0] == b[0] { LessAsymmetric(a[1..], b[1..]); }
  }

  /** Tuple order is transitive. */
  lemma {:induction false} LessTransitive(a: seq<int>, b: seq<int>, c: seq<int>)
    requires TupleLess(a, b) && TupleLess(b, c)
    ensures TupleLess(a, c)
    decreases |a|
  {
    if a != [] && a[0] == b[0] && b[0] == c[0] {
      LessTransitive(a[1..], b[1..], c[1..]);
    }
  }

  /** Any two different tuples are ordered one way or the other. */
  lemma {:induction false} LessTotal(a: seq<int>, b: seq<int>)
    requires a != b
    ensures TupleLess(a, b) || TupleLess(b, a)
    decreases |a|
  {
    if a != [] && b != [] && a[0] == b[0] {
      assert a == [a[0]] + a[1..] && b == [b[0]] + b[1..];
      LessTotal(a[1..], b[1..]);
    }
  }

  /** The three-way comparison of two dotted versions that both parse. */
  datatype Ordering = Less | Equal | Greater

  function Compare(a: seq<int>, b: seq<int>): (r: Ordering)
    ensures r == Equal <==> a == b
  {
    if TupleLess(a, b) then (LessIrreflexive(a); Less)
    else if TupleLess(b, a) then (LessIrreflexive(a); Greater)
    else NeitherLess(a, b); Equal
  }

  lemma NeitherLess(a: seq<int>, b: seq<int>)
    requires !TupleLess(a, b) && !TupleLess(b, a)
    ensures a == b
  {
    if a != b { LessTotal(a, b); }
  }

  /** Comparing the other way round flips the answer. */
  lemma CompareFlips(a: seq<int>, b: seq<int>)
    ensures Compare(a, b) == Greater <==> Compare(b, a) == Less
    ensures Compare(a, a) == Equal
  {
    if TupleLess(a, b) { LessAsymmetric(a, b); }
    if TupleLess(b, a) { LessAsymmetric(b, a); }
  }

  /** A two-component version maps to the pair of its components' values. */
  lemma TwoComponents(x: string, y: string)
    requires x != [] && y != [] && AllDigits(x) && AllDigits(y)
    ensures VerMap(x + "." + y) == Some([DecimalValue(x) as int, DecimalValue(y) as int])
  {
    SplitTwo(x, y);
    var dx, dy := DecimalValue(x) as int, DecimalValue(y) as int;
    assert ParseAll([]) == Some([]);
    ParseCons(y, []);
    assert [y] + [] == [y] && [dy] + [] == [dy];
    assert ParseAll([y]) == Some([dy]);
    ParseCons(x, [y]);
    assert [x] + [y] == [x, y];
    assert ParseAll([x, y]) == Some([dx] + [dy]);
    assert [dx] + [dy] == [dx, dy];
  }

  lemma SplitTwo(x: string, y: string)
    requires AllDigits(x) && AllDigits(y)
    ensures x + "." + y != [] && Split(x + "." + y, '.') == [x, y]
  {
    assert '.' !in x && '.' !in y;
    SplitAtSeparator(x, '.', y);
    SplitNoSeparator(y, '.');
    assert x + "." + y == x + ['.'] + y;
  }

  lemma ParseCons(a: string, rest: seq<string>)
    requires a != [] && AllDigits(a) && ParseAll(rest).Some?
    ensures ParseAll([a] + rest) == Some([DecimalValue(a) as int] + ParseAll(rest).value)
  {
    assert ([a] + rest)[1..] == rest;
  }

  /** `1.0` and `1.00` map to the same tuple. */
  lemma VerMapExamples(a: string, b: string)
    requires a == "1.0" && b == "1.00"
    ensures VerMap(a) == VerMap(b) == Some([1, 0])
  {
    TwoComponents("1", "0");
    TwoComponents("1", "00");
    assert "1" + "." + "0" == a && "1" + "." + "00" == b;
    assert DecimalValue("00") == 0 by { assert "00"[..1] == "0"; }
  }

  /** `1.2` is below `1.2.1` and `2.2.9` below `2.3.0`. */
  lemma TupleOrderExamples()
    ensures TupleLess([1, 2], [1, 2, 1])
    ensures TupleLess([2, 2, 9], [2, 3, 0])
  {
    assert [1, 2] == [1, 2, 1][..2];
    PrefixIsLess([1, 2], [1, 2, 1]);
  }
}
