/**
 * The build targets both update scripts hand to `copr build`: the chroots
 * of the package's latest build that are still enabled in the project, in
 * their original order, each followed by its `--fork` rename when the
 * fork applies to it.
 */
module Builds {
  import opened Wrappers
  import opened Text

  /** `--fork <from> <into>`: `fork_from` and `fork_into`. */
  datatype Fork = Fork(from: string, into: string)

  /** `fork_into` is truthy. */
  predicate Forking(fork: Option<Fork>) { fork.Some? && fork.value.into != [] }

  /** `any(pat in s for s in chroots)`. */
  predicate AnyContains(chroots: seq<string>, pat: string)
  {
    exists s :: s in chroots && Contains(s, pat)
  }

  /** The fork applies to `chroot`, whose latest-build list is `latest`. */
  predicate ForksInto(chroot: string, latest: seq<string>, fork: Option<Fork>)
  {
    Forking(fork) && Contains(chroot, fork.value.from) && !AnyContains(latest, fork.value.into)
  }

  /** What one chroot of the latest build adds to `builders`. */
  function Targets(chroot: string, latest: seq<string>, enabled: seq<string>, fork: Option<Fork>): seq<string>
  {
    if chroot !in enabled then []
    else if ForksInto(chroot, latest, fork) then [chroot, ReplaceAll(chroot, fork.value.from, fork.value.into)]
    else [chroot]
  }

  /** `builders` after the loop has visited the chroots `cs` of `latest`. */
  function BuildersOf(cs: seq<string>, latest: seq<string>, enabled: seq<string>, fork: Option<Fork>): seq<string>
    decreases |cs|
  {
    if cs == [] then []
    else BuildersOf(cs[..|cs| - 1], latest, enabled, fork) + Targets(cs[|cs| - 1], latest, enabled, fork)
  }

  /** The enabled chroots of `cs`, in order. */
  function EnabledOnly(cs: seq<string>, enabled: seq<string>): (r: seq<string>)
    ensures forall c :: c in r <==> c in cs && c in enabled
    decreases |cs|
  {
    if cs == [] then []
    else
      var init := cs[..|cs| - 1];
      assert cs == init + [cs[|cs| - 1]];
      EnabledOnly(init, enabled) + (if cs[|cs| - 1] in enabled then [cs[|cs| - 1]] else [])
  }

  /** The `builders` loop. */
  method Builders(latest: seq<string>, enabled: seq<string>, fork: Option<Fork>) returns (builders: seq<string>)
    ensures builders == BuildersOf(latest, latest, enabled, fork)
  {
    builders := [];
    var i := 0;
    while i < |latest|
      invariant 0 <= i <= |latest|
      invariant builders == BuildersOf(latest[..i], latest, enabled, fork)
    {
      var chroot := latest[i];
      assert latest[..i + 1][..i] == latest[..i];
      if chroot in enabled {
        builders := builders + [chroot];
        if Forking(fork) && Contains(chroot, fork.value.from) {
          if !AnyContains(latest, fork.value.into) {
            builders := builders + [ReplaceAll(chroot, fork.value.from, fork.value.into)];
          }
        }
      }
      i := i + 1;
    }
    assert latest[..i] == latest;
  }

  // ---------------------------------------------------------------------
  // Properties

  /**
   * Every target is an enabled chroot of the latest build, or the fork
   * rename of one that contains `fork_from`.
   */
  lemma {:induction false} TargetsComeFromEnabled(cs: seq<string>, latest: seq<string>, enabled: seq<string>, fork: Option<Fork>)
    ensures forall b :: b in BuildersOf(cs, latest, enabled, fork) ==>
      (b in cs && b in enabled) ||
      (exists c :: c in cs && c in enabled && ForksInto(c, latest, fork) &&
                   b == ReplaceAll(c, fork.value.from, fork.value.into))
    decreases |cs|
  {
    if cs != [] {
      var init, last := cs[..|cs| - 1], cs[|cs| - 1];
      assert cs == init + [last];
      TargetsComeFromEnabled(init, latest, enabled, fork);
    }
  }

  /** A chroot of the latest build that the project no longer enables is never a target. */
  lemma InactiveNeverBuilt(latest: seq<string>, enabled: seq<string>, fork: Option<Fork>, c: string)
    requires c in latest && c !in enabled
    ensures c !in BuildersOf(latest, latest, enabled, fork)
  {
    TargetsComeFromEnabled(latest, latest, enabled, fork);
    forall e | e in latest && e in enabled && ForksInto(e, latest, fork)
      ensures c != ReplaceAll(e, fork.value.from, fork.value.into)
    {
      ReplaceAllShowsReplacement(e, fork.value.from, fork.value.into);
    }
  }

  /** Every enabled chroot of the latest build is a target. */
  lemma {:induction false} EnabledAlwaysBuilt(cs: seq<string>, latest: seq<string>, enabled: seq<string>, fork: Option<Fork>, c: string)
    requires c in cs && c in enabled
    ensures c in BuildersOf(cs, latest, enabled, fork)
    decreases |cs|
  {
    var init, last := cs[..|cs| - 1], cs[|cs| - 1];
    assert cs == init + [last];
    if c != last {
      EnabledAlwaysBuilt(init, latest, enabled, fork, c);
    }
  }

  /**
   * Without `--fork`, or when some chroot of the latest build (even an
   * inactive one) already contains `fork_into`, the targets are exactly the
   * enabled chroots in their original order.
   */
  lemma {:induction false} NoForkIsFilter(cs: seq<string>, latest: seq<string>, enabled: seq<string>, fork: Option<Fork>)
    requires !Forking(fork) || AnyContains(latest, fork.value.into)
    ensures BuildersOf(cs, latest, enabled, fork) == EnabledOnly(cs, enabled)
    decreases |cs|
  {
    if cs != [] {
      NoForkIsFilter(cs[..|cs| - 1], latest, enabled, fork);
    }
  }

  /** `x` is immediately followed by `y` somewhere in `b`. */
  predicate Adjacent(b: seq<string>, x: string, y: string)
  {
    exists k :: 0 <= k < |b| - 1 && b[k] == x && b[k + 1] == y
  }

  /** An enabled chroot the fork applies to is followed at once by its rename. */
  lemma {:induction false} ForkFollows(cs: seq<string>, latest: seq<string>, enabled: seq<string>, fork: Option<Fork>, i: nat)
    requires i < |cs| && cs[i] in enabled && ForksInto(cs[i], latest, fork)
    ensures Adjacent(BuildersOf(cs, latest, enabled, fork), cs[i], ReplaceAll(cs[i], fork.value.from, fork.value.into))
    decreases |cs|
  {
    var init, last := cs[..|cs| - 1], cs[|cs| - 1];
    var pre := BuildersOf(init, latest, enabled, fork);
    var all := BuildersOf(cs, latest, enabled, fork);
    assert all == pre + Targets(last, latest, enabled, fork);
    if i == |cs| - 1 {
      assert all[|pre|] == cs[i];
      assert all[|pre| + 1] == ReplaceAll(cs[i], fork.value.from, fork.value.into);
    } else {
      assert init[i] == cs[i];
      ForkFollows(init, latest, enabled, fork, i);
      var k :| 0 <= k < |pre| - 1 && pre[k] == cs[i] &&
               pre[k + 1] == ReplaceAll(cs[i], fork.value.from, fork.value.into);
      assert all[k] == pre[k] && all[k + 1] == pre[k + 1];
    }
  }
}
