/**
 * Where the version candidates of `gitCheckVersion` come from, in both
 * scripts: the `git describe` retry loop of copr-pkgs-update.py and the
 * newest-first walk over the repository's tags, each script with its own
 * per-package exclusion rules.
 *
 * The git commands themselves are not modelled: the output of the n-th
 * `git describe` run (after n deepening fetches) and the tag list sorted
 * oldest first are inputs.
 */
module Candidates {
  import opened Wrappers
  import opened Text
  import opened Tags

  /** The version a lookup settles on. */
  datatype Scan =
    | Found(tag: string)  // a tag was extracted
    | NotFound            // the lookup ends with `None`
    | Crashed             // Python raises (an `int()` or an index on empty output)
    | Hangs               // `tagExtract` never returns

  /** A `tagExtract` answer as a lookup result. */
  function FromExtraction(e: Extraction): (r: Scan)
    ensures r.Found? <==> e.Tag?
    ensures r.Found? ==> r.tag == e.value
    ensures r.Hangs? <==> e.Spins?
    ensures !r.Crashed?
  {
    match e
    case Tag(t) => Found(t)
    case NoTag => NotFound
    case Spins => Hangs
  }

  /**
   * A newest-first walk over per-tag outcomes (oldest first), where
   * `NotFound` means the walk goes on to the next older tag: the newest
   * outcome that stops it, or `NotFound` when none does.
   */
  function Newest(outs: seq<Scan>): Scan
    decreases |outs|
  {
    if outs == [] then NotFound
    else
      var n := |outs| - 1;
      if outs[n] == NotFound then Newest(outs[..n]) else outs[n]
  }

  /**
   * The walk finds nothing iff every outcome is `NotFound`; otherwise it
   * answers some outcome all of whose newer ones are `NotFound`.
   */
  lemma {:induction false} NewestSpec(outs: seq<Scan>)
    ensures Newest(outs) == NotFound <==> forall j :: 0 <= j < |outs| ==> outs[j] == NotFound
    ensures Newest(outs) != NotFound ==>
      exists i :: 0 <= i < |outs| && outs[i] == Newest(outs) &&
                  forall j :: i < j < |outs| ==> outs[j] == NotFound
    decreases |outs|
  {
    if outs != [] {
      var n := |outs| - 1;
      if outs[n] == NotFound {
        NewestSpec(outs[..n]);
        assert forall j :: 0 <= j < n ==> outs[..n][j] == outs[j];
        if Newest(outs) != NotFound {
          var i :| 0 <= i < n && outs[..n][i] == Newest(outs) &&
                   forall j :: i < j < n ==> outs[..n][j] == NotFound;
          assert outs[i] == Newest(outs);
        }
      } else {
        assert outs[n] == Newest(outs);
      }
    }
  }

  /** One step of the walk: the tag at `i - 1` stops it or hands over to the older ones. */
  lemma NewestStep(outs: seq<Scan>, i: nat)
    requires 0 < i <= |outs|
    ensures Newest(outs[..i]) == if outs[i - 1] == NotFound then Newest(outs[..i - 1]) else outs[i - 1]
  {
    assert outs[..i][..i - 1] == outs[..i - 1];
  }

  // ---------------------------------------------------------------------
  // The `git describe` loop of copr-pkgs-update.py

  /** `maxcount`: the number of failing `describe` runs tolerated. */
  const MaxDescribe: nat := 16

  /** The first run below `MaxDescribe`, from `k` on, whose `describe` succeeds (or `MaxDescribe`). */
  function FirstSuccess(describe: nat -> Option<string>, k: nat): (r: nat)
    requires k <= MaxDescribe
    ensures k <= r <= MaxDescribe
    ensures r < MaxDescribe ==> describe(r).Some?
    ensures forall j :: k <= j < r ==> describe(j).None?
    decreases MaxDescribe - k
  {
    if k == MaxDescribe || describe(k).Some? then k else FirstSuccess(describe, k + 1)
  }

  /** `tagExtract(entry[0])` of a successful `describe` output. */
  function LogVersion(out: string): (r: Scan)
    ensures r.Crashed? <==> FirstWord(out).None?
    ensures r.Found? ==> FirstWord(out).Some? && Canonical(FirstWord(out).value) == Tag(r.tag)
  {
    match FirstWord(out)
    case None => Crashed
    case Some(w) => FromExtraction(Canonical(w))
  }

  /** How the loop ended: `logvers`, how many `describe` runs and how many `--deepen 100` fetches. */
  datatype DescribeRun = DescribeRun(logvers: Scan, runs: nat, deepens: nat)

  /** The loop's outcome when run `n` prints `describe(n)` (`None`: a non-zero exit status). */
  function Describe(describe: nat -> Option<string>): (r: DescribeRun)
    ensures r.runs <= MaxDescribe && r.deepens <= MaxDescribe
    ensures forall j :: 0 <= j < r.deepens ==> describe(j).None?
    ensures r.deepens == MaxDescribe <==> forall j :: 0 <= j < MaxDescribe ==> describe(j).None?
    ensures r.deepens == MaxDescribe ==> r.runs == MaxDescribe && r.logvers == NotFound
    ensures r.deepens < MaxDescribe ==>
      r.runs == r.deepens + 1 && describe(r.deepens).Some? && r.logvers == LogVersion(describe(r.deepens).value)
  {
    var k := FirstSuccess(describe, 0);
    if k == MaxDescribe then DescribeRun(NotFound, MaxDescribe, MaxDescribe)
    else DescribeRun(LogVersion(describe(k).value), k + 1, k)
  }

  /** The `while` loop over `maxcount`. */
  method DescribeLoop(describe: nat -> Option<string>) returns (logvers: Scan, runs: nat, deepens: nat)
    ensures DescribeRun(logvers, runs, deepens) == Describe(describe)
  {
    logvers, runs, deepens := NotFound, 0, 0;
    var maxcount := MaxDescribe;
    while true
      invariant 0 <= maxcount <= MaxDescribe
      invariant runs == deepens == MaxDescribe - maxcount
      invariant logvers == NotFound
      invariant forall j :: 0 <= j < runs ==> describe(j).None?
      decreases maxcount
    {
      if maxcount == 0 { break; }
      var out := describe(runs);
      runs := runs + 1;
      if out.None? {
        maxcount := maxcount - 1;
        deepens := deepens + 1;
      } else {
        assert FirstSuccess(describe, 0) == deepens;
        var entry := FirstWord(out.value);
        if entry.None? {
          logvers := Crashed;
        } else {
          var e := TagExtract(entry.value);
          logvers := FromExtraction(e);
        }
        return;
      }
    }
    assert FirstSuccess(describe, 0) == MaxDescribe;
  }

  // ---------------------------------------------------------------------
  // The tag walk of copr-pkgs-update.py

  /** What the exclusion rules make of one tag. */
  datatype Verdict =
    | Skip                // `continue`
    | Fails               // an `int()` or index in a rule raises
    | Try(vers: string)   // hand this (possibly shortened) tag to `tagExtract`

  /** `int(s) < bound`, or `None` when `int(s)` raises. */
  function Below(s: string, bound: nat): (r: Option<bool>)
    ensures r.Some? <==> s != [] && AllDigits(s)
    ensures r.Some? ==> (r.value <==> DecimalValue(s) < bound)
  {
    match ParseDecimal(s)
    case None => None
    case Some(n) => Some(n < bound)
  }

  /** `re.sub('[a-z,A-Z]', '', s)`. */
  function DropLetterClass(s: string): (r: string)
    ensures forall c :: c in r <==> c in s && !InLetterClass(c)
    decreases |s|
  {
    if s == [] then []
    else (if InLetterClass(s[0]) then [] else [s[0]]) + DropLetterClass(s[1..])
  }

  /** `re.findall('[a-z;A-Z]', vers)` is non-empty. */
  predicate HasLetterOrSemicolon(s: string) { exists c :: c in s && (IsAsciiLetter(c) || c == ';') }

  /** The exclusion rule `int(<piece>) < bound`: skip, go on, or raise. */
  function IntRule(piece: Option<string>, bound: nat): Option<Verdict>
  {
    if piece.None? then Some(Fails)
    else match Below(piece.value, bound)
      case None => Some(Fails)
      case Some(true) => Some(Skip)
      case Some(false) => None
  }

  /** The blacklist of copr-pkgs-update.py, in source order; the first rule that fires decides. */
  function FilterA(pkg: string, vers: string): (r: Verdict)
    ensures Contains(pkg, "gklib") || Contains(pkg, "nextpnr") ==> r == Skip
    ensures r.Try? ==> r.vers <= vers
    ensures r.Try? && !Contains(pkg, "xbyak") ==> r.vers == vers
  {
    var parts := Split(vers, '.');
    var second := if |parts| >= 2 then Some(parts[1]) else None;
    if Contains(pkg, "gklib") then Skip
    else if Contains(pkg, "nextpnr") then Skip
    else if Contains(pkg, "bladerf") && '_' in vers then Skip
    else if Contains(pkg, "limesuite") && '-' in vers then Skip
    else if Contains(pkg, "onednn") && Contains(vers, "graph") then Skip
    else if Contains(pkg, "gnuradio") && IntRule(second, 11).Some? then IntRule(second, 11).value
    else if Contains(pkg, "torch") && '.' !in vers then Skip
    else if Contains(pkg, "libxsmm") && HasLetterOrSemicolon(vers) then Skip
    else if Contains(pkg, "mxnet") && IntRule(Some(parts[0]), 2).Some? then IntRule(Some(parts[0]), 2).value
    else if Contains(pkg, "optuna") && IntRule(Some(DropLetterClass(parts[0])), 3).Some? then
      IntRule(Some(DropLetterClass(parts[0])), 3).value
    else if Contains(pkg, "xbyak") && |vers| > 5 then Try(vers[..5])
    else Try(vers)
  }

  /** What one tag does to the walk of copr-pkgs-update.py (`NotFound`: go on to the next older tag). */
  function TagOutcomeA(pkg: string, vers: string): (r: Scan)
    ensures r.Found? ==> FilterA(pkg, vers).Try? && Canonical(FilterA(pkg, vers).vers) == Tag(r.tag)
    ensures r.Hangs? ==> FilterA(pkg, vers).Try? && Canonical(FilterA(pkg, vers).vers) == Spins
  {
    match FilterA(pkg, vers)
    case Skip => NotFound
    case Fails => Crashed
    case Try(v) => FromExtraction(Canonical(v))
  }

  /** The per-tag outcomes of copr-pkgs-update.py's walk, oldest tag first. */
  function OutcomesA(pkg: string, tags: seq<string>): (r: seq<Scan>)
    ensures |r| == |tags| && forall i :: 0 <= i < |tags| ==> r[i] == TagOutcomeA(pkg, tags[i])
  {
    seq(|tags|, i requires 0 <= i < |tags| => TagOutcomeA(pkg, tags[i]))
  }

  /** `tagvers` after the walk of copr-pkgs-update.py over `tags` (oldest first). */
  function WalkA(pkg: string, tags: seq<string>): Scan
  {
    Newest(OutcomesA(pkg, tags))
  }

  /** One pass of the loop body of copr-pkgs-update.py's walk. */
  method TagStepA(pkg: string, vers: string) returns (out: Scan)
    ensures out == TagOutcomeA(pkg, vers)
  {
    var verdict := FilterA(pkg, vers);
    if verdict.Skip? { return NotFound; }
    if verdict.Fails? { return Crashed; }
    var e := TagExtract(verdict.vers);
    return FromExtraction(e);
  }

  /** The `for ... in enumerate(reversed(results))` loop of copr-pkgs-update.py. */
  method WalkALoop(pkg: string, tags: seq<string>) returns (tagvers: Scan)
    ensures tagvers == WalkA(pkg, tags)
  {
    ghost var outs := OutcomesA(pkg, tags);
    assert WalkA(pkg, tags) == Newest(outs);
    assert outs[..|tags|] == outs;
    tagvers := NotFound;
    var i := |tags|;
    while i > 0
      invariant 0 <= i <= |tags| == |outs|
      invariant Newest(outs) == Newest(outs[..i])
      invariant tagvers == NotFound
    {
      NewestStep(outs, i);
      var out := TagStepA(pkg, tags[i - 1]);
      assert out == outs[i - 1];
      if out != NotFound {
        tagvers := out;
        break;
      }
      i := i - 1;
    }
    assert outs[..0] == [];
  }


  // ---------------------------------------------------------------------
  // The tag walk of update-copr-pkgs.py

  /** The blacklist of update-copr-pkgs.py: the tag is skipped. */
  predicate SkippedB(pkg: string, vers: string)
  {
    || Contains(pkg, "gcc")
    || Contains(pkg, "gklib")
    || (Contains(pkg, "bladerf") && '_' in vers)
    || (Contains(pkg, "limesuite") && '-' in vers)
    || (Contains(pkg, "onednn") && Contains(vers, "graph"))
    || (Contains(pkg, "gdb") && Contains(vers, "binutils"))
    || (Contains(pkg, "binutils") && Contains(vers, "gdb"))
    || (Contains(pkg, "newlib") && Contains(vers, "snapshot"))
    || (Contains(pkg, "newlib") && !Contains(vers, "newlib"))
  }

  /**
   * Drop one trailing `.`: the result is `t` or `t` short of its last
   * character, and ends in `.` only when `t` ended in `..`.
   */
  function TrimLastDot(t: string): (r: string)
    requires t != []
    ensures r <= t && |t| - 1 <= |r|
    ensures r != [] && r[|r| - 1] == '.' ==> |t| >= 2 && t[|t| - 2] == '.' && t[|t| - 1] == '.'
    ensures t[|t| - 1] == '.' ==> r == t[..|t| - 1]
    ensures t[|t| - 1] != '.' ==> r == t
  {
    if t[|t| - 1] == '.' then t[..|t| - 1] else t
  }

  /** `commitvers` for one tag: delimit, `tagExtract`, trim one trailing dot. */
  function CommitVers(vers: string): (r: Scan)
    ensures !r.Crashed?
    ensures r.Found? ==> HasDigit(r.tag)
  {
    match Extract(Delimit(vers), '-')
    case Tag(t) =>
      assert HasDigit(TrimLastDot(t)) by {
        var c :| c in t && IsDigit(c);
        var k :| 0 <= k < |t| && t[k] == c;
        assert k < |t| - 1 || t[|t| - 1] != '.';
        assert TrimLastDot(t)[k] == c;
      }
      Found(TrimLastDot(t))
    case NoTag => NotFound
    case Spins => Hangs
  }

  /** What one tag does to the walk of update-copr-pkgs.py (`NotFound`: go on to the next older tag). */
  function TagOutcomeB(pkg: string, vers: string): (r: Scan)
    ensures !r.Crashed?
    ensures r != NotFound ==> !SkippedB(pkg, vers) && r == CommitVers(vers)
  {
    if SkippedB(pkg, vers) then NotFound else CommitVers(vers)
  }

  /** The per-tag outcomes of update-copr-pkgs.py's walk, oldest tag first. */
  function OutcomesB(pkg: string, tags: seq<string>): (r: seq<Scan>)
    ensures |r| == |tags| && forall i :: 0 <= i < |tags| ==> r[i] == TagOutcomeB(pkg, tags[i])
  {
    seq(|tags|, i requires 0 <= i < |tags| => TagOutcomeB(pkg, tags[i]))
  }

  /** `commitvers` after the walk of update-copr-pkgs.py over `tags` (oldest first). */
  function WalkB(pkg: string, tags: seq<string>): Scan
  {
    Newest(OutcomesB(pkg, tags))
  }

  /** One pass of the loop body of update-copr-pkgs.py's walk. */
  method TagStepB(pkg: string, vers: string) returns (out: Scan)
    ensures out == TagOutcomeB(pkg, vers)
  {
    if SkippedB(pkg, vers) { return NotFound; }
    var e := ExtractLoop(Delimit(vers), '-');
    if e.Tag? { return Found(TrimLastDot(e.value)); }
    if e.Spins? { return Hangs; }
    return NotFound;
  }

  /** The `for ... in enumerate(reversed(results))` loop of update-copr-pkgs.py. */
  method WalkBLoop(pkg: string, tags: seq<string>) returns (commitvers: Scan)
    ensures commitvers == WalkB(pkg, tags)
  {
    ghost var outs := OutcomesB(pkg, tags);
    assert WalkB(pkg, tags) == Newest(outs);
    assert outs[..|tags|] == outs;
    commitvers := NotFound;
    var i := |tags|;
    while i > 0
      invariant 0 <= i <= |tags| == |outs|
      invariant Newest(outs) == Newest(outs[..i])
      invariant commitvers == NotFound
    {
      NewestStep(outs, i);
      var out := TagStepB(pkg, tags[i - 1]);
      assert out == outs[i - 1];
      if out != NotFound {
        commitvers := out;
        break;
      }
      i := i - 1;
    }
    assert outs[..0] == [];
  }

  // ---------------------------------------------------------------------
  // Properties

  /**
   * copr-pkgs-update.py settles on the newest tag that passes the
   * blacklist and yields a tag; every newer tag was skipped or yielded
   * nothing. It finds nothing iff every tag is passed over.
   */
  lemma WalkANewest(pkg: string, tags: seq<string>)
    ensures WalkA(pkg, tags) == NotFound <==> forall j :: 0 <= j < |tags| ==> TagOutcomeA(pkg, tags[j]) == NotFound
    ensures WalkA(pkg, tags).Found? ==>
      exists i :: (0 <= i < |tags| && FilterA(pkg, tags[i]).Try? &&
                   Canonical(FilterA(pkg, tags[i]).vers) == Tag(WalkA(pkg, tags).tag) &&
                   forall j :: i < j < |tags| ==> TagOutcomeA(pkg, tags[j]) == NotFound)
  {
    var outs := OutcomesA(pkg, tags);
    NewestSpec(outs);
    if WalkA(pkg, tags).Found? {
      var i :| 0 <= i < |outs| && outs[i] == WalkA(pkg, tags) && forall j :: i < j < |outs| ==> outs[j] == NotFound;
      assert TagOutcomeA(pkg, tags[i]).Found?;
    }
  }

  /** `gklib` and `nextpnr` packages never take a version from their tags. */
  lemma {:induction false} WalkASkipsAll(pkg: string, tags: seq<string>)
    requires Contains(pkg, "gklib") || Contains(pkg, "nextpnr")
    ensures WalkA(pkg, tags) == NotFound
  {
    forall j | 0 <= j < |tags| ensures TagOutcomeA(pkg, tags[j]) == NotFound {
      assert FilterA(pkg, tags[j]) == Skip;
    }
    WalkANewest(pkg, tags);
  }

  /** A tag found by copr-pkgs-update.py's walk holds a digit and no ASCII letter, `-`, `+`, `,` or `_`. */
  lemma WalkAShape(pkg: string, tags: seq<string>)
    ensures WalkA(pkg, tags).Found? ==>
      var t := WalkA(pkg, tags).tag;
      HasDigit(t) && forall c :: c in t ==> !IsAsciiLetter(c) && c !in "-+,_"
  {
    WalkANewest(pkg, tags);
    if WalkA(pkg, tags).Found? {
      var i :| 0 <= i < |tags| && FilterA(pkg, tags[i]).Try? &&
               Canonical(FilterA(pkg, tags[i]).vers) == Tag(WalkA(pkg, tags).tag);
      CanonicalShape(FilterA(pkg, tags[i]).vers);
    }
  }

  /**
   * Outside `xbyak` (whose tags are cut to 5 characters first), tags that
   * all hold a digit never make the walk of copr-pkgs-update.py hang.
   */
  lemma WalkANoHang(pkg: string, tags: seq<string>)
    requires !Contains(pkg, "xbyak")
    requires forall j :: 0 <= j < |tags| ==> HasDigit(tags[j])
    ensures WalkA(pkg, tags) != Hangs
  {
    var outs := OutcomesA(pkg, tags);
    forall j | 0 <= j < |tags| ensures outs[j] != Hangs {
      if FilterA(pkg, tags[j]).Try? {
        DigitTerminates(tags[j]);
      }
    }
    NewestSpec(outs);
  }

  /**
   * update-copr-pkgs.py settles on the newest tag that passes the
   * blacklist and yields a tag (or hangs on it); every newer tag was
   * skipped or yielded nothing.
   */
  lemma WalkBNewest(pkg: string, tags: seq<string>)
    ensures WalkB(pkg, tags) == NotFound <==> forall j :: 0 <= j < |tags| ==> TagOutcomeB(pkg, tags[j]) == NotFound
    ensures WalkB(pkg, tags) != NotFound ==>
      exists i :: (0 <= i < |tags| && !SkippedB(pkg, tags[i]) &&
                   CommitVers(tags[i]) == WalkB(pkg, tags) &&
                   forall j :: i < j < |tags| ==> TagOutcomeB(pkg, tags[j]) == NotFound)
  {
    var outs := OutcomesB(pkg, tags);
    NewestSpec(outs);
    if WalkB(pkg, tags) != NotFound {
      var i :| 0 <= i < |outs| && outs[i] == WalkB(pkg, tags) && forall j :: i < j < |outs| ==> outs[j] == NotFound;
      assert TagOutcomeB(pkg, tags[i]) != NotFound;
    }
  }

  /** `gcc` and `gklib` packages never take a version from their tags. */
  lemma {:induction false} WalkBSkipsAll(pkg: string, tags: seq<string>)
    requires Contains(pkg, "gcc") || Contains(pkg, "gklib")
    ensures WalkB(pkg, tags) == NotFound
  {
    forall j | 0 <= j < |tags| ensures TagOutcomeB(pkg, tags[j]) == NotFound {
      assert SkippedB(pkg, tags[j]);
    }
    WalkBNewest(pkg, tags);
  }

  /**
   * A tag found by update-copr-pkgs.py's walk holds a digit and no ASCII
   * letter, `-`, `+`, `,` or `_`.
   */
  lemma WalkBShape(pkg: string, tags: seq<string>)
    ensures WalkB(pkg, tags).Found? ==>
      var t := WalkB(pkg, tags).tag;
      HasDigit(t) && forall c :: c in t ==> !IsAsciiLetter(c) && c !in "-+,_"
  {
    WalkBNewest(pkg, tags);
    if WalkB(pkg, tags).Found? {
      var i :| 0 <= i < |tags| && !SkippedB(pkg, tags[i]) && CommitVers(tags[i]) == WalkB(pkg, tags);
      CommitVersShape(tags[i]);
    }
  }

  /** A `commitvers` holds no ASCII letter, `-`, `+`, `,` or `_`. */
  lemma CommitVersShape(vers: string)
    ensures CommitVers(vers).Found? ==> forall c :: c in CommitVers(vers).tag ==> !IsAsciiLetter(c) && c !in "-+,_"
  {
    DelimitedShape(vers);
    var e := Extract(Delimit(vers), '-');
    if e.Tag? {
      forall c | c in TrimLastDot(e.value) ensures c in e.value {
        var k :| 0 <= k < |TrimLastDot(e.value)| && TrimLastDot(e.value)[k] == c;
        assert e.value[k] == c;
      }
    }
  }

  /** Tags that all hold a digit never make the walk of update-copr-pkgs.py hang. */
  lemma WalkBNoHang(pkg: string, tags: seq<string>)
    requires forall j :: 0 <= j < |tags| ==> HasDigit(tags[j])
    ensures WalkB(pkg, tags) != Hangs
  {
    var outs := OutcomesB(pkg, tags);
    forall j | 0 <= j < |tags| ensures outs[j] != Hangs {
      DigitTerminates(tags[j]);
    }
    NewestSpec(outs);
  }
}
