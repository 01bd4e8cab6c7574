/**
 * The shape shared by the main loops of both update scripts: packages are
 * looked at in list order, each one's outcome may depend on how many CUDA
 * builds were submitted before it, the counter grows by what each package
 * adds, and the first outcome that ends the run (a crash, `exit(-1)`, a
 * hang) stops the loop.
 *
 * `decide(k, c)` is the outcome for package `k` when the counter is `c`,
 * `bump(k, c)` what that package adds to the counter and `stop(o)` whether
 * the run ends after outcome `o`.
 */
module Runs {
  /** The outcomes of a run, in package order, and the final counter. */
  datatype Run<O> = Run(outs: seq<O>, counter: int)

  /** The run over `pkgs` starting with counter `c`. */
  function RunWith<K, O>(decide: (K, int) -> O, bump: (K, int) -> int, stop: O -> bool,
                         pkgs: seq<K>, c: int): (r: Run<O>)
    ensures |r.outs| <= |pkgs|
    decreases |pkgs|
  {
    if pkgs == [] then Run([], c)
    else
      var o := decide(pkgs[0], c);
      var c2 := c + bump(pkgs[0], c);
      if stop(o) then Run([o], c2)
      else
        var rest := RunWith(decide, bump, stop, pkgs[1..], c2);
        Run([o] + rest.outs, rest.counter)
  }

  /** The outcomes `outs` followed by the run `r`. */
  function Then<O>(outs: seq<O>, r: Run<O>): (s: Run<O>)
    ensures |s.outs| == |outs| + |r.outs|
    ensures s.outs[..|outs|] == outs && s.outs[|outs|..] == r.outs && s.counter == r.counter
  {
    Run(outs + r.outs, r.counter)
  }

  /**
   * One more package processed: when the run so far is `outs` followed by
   * the run from package `i` on, it is `outs` and package `i`'s outcome,
   * followed by the run from package `i + 1` on unless that outcome ends it.
   */
  lemma RunJoin<K, O>(decide: (K, int) -> O, bump: (K, int) -> int, stop: O -> bool,
                      pkgs: seq<K>, c0: int, i: nat, outs: seq<O>, c: int)
    requires i < |pkgs|
    requires RunWith(decide, bump, stop, pkgs, c0) == Then(outs, RunWith(decide, bump, stop, pkgs[i..], c))
    ensures var o := decide(pkgs[i], c);
      var c2 := c + bump(pkgs[i], c);
      (stop(o) ==> RunWith(decide, bump, stop, pkgs, c0) == Run(outs + [o], c2)) &&
      (!stop(o) ==> RunWith(decide, bump, stop, pkgs, c0) ==
                    Then(outs + [o], RunWith(decide, bump, stop, pkgs[i + 1..], c2)))
  {
    var o := decide(pkgs[i], c);
    var c2 := c + bump(pkgs[i], c);
    assert pkgs[i..][0] == pkgs[i] && pkgs[i..][1..] == pkgs[i + 1..];
    if !stop(o) {
      var rest := RunWith(decide, bump, stop, pkgs[i + 1..], c2);
      assert outs + ([o] + rest.outs) == (outs + [o]) + rest.outs;
    }
  }

  /** The sum of `weight(pkgs[j], outs[j])` over the outcomes. */
  function Weighed<K, O>(weight: (K, O) -> int, pkgs: seq<K>, outs: seq<O>): int
    requires |outs| <= |pkgs|
    decreases |outs|
  {
    if outs == [] then 0
    else weight(pkgs[0], outs[0]) + Weighed(weight, pkgs[1..], outs[1..])
  }

  /**
   * The run stops right after the first outcome that ends it and nowhere
   * else, and, when each package adds `weight` of its outcome, the final
   * counter is the start plus the weights of all outcomes.
   */
  lemma {:induction false} RunCounter<K, O>(decide: (K, int) -> O, bump: (K, int) -> int, stop: O -> bool,
                                            weight: (K, O) -> int, pkgs: seq<K>, c: int)
    requires forall k, n :: bump(k, n) == weight(k, decide(k, n))
    ensures var r := RunWith(decide, bump, stop, pkgs, c);
      r.counter == c + Weighed(weight, pkgs, r.outs) &&
      (forall i :: 0 <= i < |r.outs| - 1 ==> !stop(r.outs[i])) &&
      (|r.outs| < |pkgs| ==> |r.outs| > 0 && stop(r.outs[|r.outs| - 1]))
    decreases |pkgs|
  {
    if pkgs != [] {
      var o := decide(pkgs[0], c);
      var c2 := c + bump(pkgs[0], c);
      if !stop(o) {
        RunCounter(decide, bump, stop, weight, pkgs[1..], c2);
        var rest := RunWith(decide, bump, stop, pkgs[1..], c2);
        assert ([o] + rest.outs)[1..] == rest.outs;
      }
    }
  }

  /** When no package can take the counter past `limit`, neither can the run. */
  lemma {:induction false} RunBound<K, O>(decide: (K, int) -> O, bump: (K, int) -> int, stop: O -> bool,
                                          limit: int, pkgs: seq<K>, c: int)
    requires c <= limit
    requires forall k, n :: n <= limit ==> n + bump(k, n) <= limit
    ensures RunWith(decide, bump, stop, pkgs, c).counter <= limit
    decreases |pkgs|
  {
    if pkgs != [] {
      var c2 := c + bump(pkgs[0], c);
      if !stop(decide(pkgs[0], c)) {
        RunBound(decide, bump, stop, limit, pkgs[1..], c2);
      }
    }
  }
}
