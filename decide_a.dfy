/**
 * The per-package decision of copr-pkgs-update.py's main loop: the gate
 * chain, the slot-0 identity check with the `pkgvers` revision counter,
 * the CUDA throttle, the per-slot version lookup with its regression
 * guard, and finally the planned spec edits and build targets.
 *
 * Everything the script asks the outside world for is an input here: the
 * command-line options (`Policy`), the COPR package record and spec text
 * (`PackageA`), and for each source slot what `git ls-remote`, the
 * commit-date query, `git describe` and `git tag` printed (`SlotA`).
 */
module CoprPkgsUpdate {
  import opened Wrappers
  import opened Text
  import opened Tags
  import opened Versions
  import opened Patch
  import opened Builds
  import C = Candidates
  import opened Runs

  /** The command-line options and the project's enabled chroots. */
  datatype Policy = Policy(
    only: Option<string>,     // the optional package-name argument
    force: bool,              // --force
    rebuild: bool,            // --rebuild
    minDays: int,             // --mindays, 7 by default
    cudaBuilds: int,          // --cudabuilds, -1 (no limit) by default
    cuMaj: Option<int>,       // --cudaver major, None by default
    cuMin: Option<int>,       // --cudaver minor, None by default
    fork: Option<Fork>,       // --fork
    enabled: seq<string>,     // the project's enabled chroots
    now: int)                 // `int(time.time())`

  /**
   * What the script found out about one source slot `i`: the `sctags{i}` and
   * `schash{i}` values of the spec, the latest upstream tag and branch head
   * (`None` where that lookup failed), the output of the commit-date queries
   * of the hash and the tag clone, and, for the version lookup of slot 0,
   * the `git describe` oracle and the tag list sorted oldest first.
   */
  datatype SlotA = SlotA(
    sctags: Option<string>,
    schash: Option<string>,
    newtag: Option<string>,
    newhash: Option<string>,
    hashDateOut: string,
    tagDateOut: string,
    describe: nat -> Option<string>,
    tags: seq<string>)

  /** One entry of the COPR package list, with its spec and slots resolved. */
  datatype PackageA = PackageA(
    name: string,
    state: string,              // state of the latest build
    version: string,            // version of the latest build's source package
    submittedOn: int,
    spec: Option<string>,       // `gitCoprSpec`, None when the fetch failed
    latestChroots: seq<string>, // chroots of the latest build
    fetchFailed: bool,          // the last `git ls-remote` exit code was not 0
    slots: seq<SlotA>)

  /** What happens to one package. */
  datatype OutcomeA =
    | Filtered                // not the package named on the command line
    | Unversioned             // UNVERSIONED
    | Held                    // an unfinished build holds the queue
    | TooFresh                // SKIP: built fewer than `mindays` days ago
    | NoSpec                  // ERROR getting the spec
    | Unmanaged               // UNMANAGED: no `pkgvers`
    | Locked                  // LOCKED: a `lockver` is set
    | FetchError              // ERROR fetching the repository
    | UpToDate                // SKIP: hash or tag already latest
    | Throttled               // SKIP: CUDA build limit reached
    | Submitted(edits: seq<Edit>, builders: seq<string>)
    | Crash                   // Python raises: the run dies
    | Fatal                   // `exit(-1)`
    | Regressing              // `exit(1)`: version decreasing
    | Hangs                   // `tagExtract` never returns

  /** Outcomes after which no further package is looked at. */
  predicate Terminal(o: OutcomeA) { o.Crash? || o.Fatal? || o.Regressing? || o.Hangs? }

  // ---------------------------------------------------------------------
  // The gates

  const PkgversMarker: string := "%global pkgvers "
  const LockverMarker: string := "%global lockver "
  const VersionMarker: string := "Version: "
  const CudaMajMarker: string := "%global vcu_maj "
  const CudaMinMarker: string := "%global vcu_min "

  /** What the spec says once every gate has passed. */
  datatype Facts = Facts(pkgrel: Option<string>, pkgver: nat, marked: bool)

  datatype Screening = Skip(out: OutcomeA) | Proceed(facts: Facts)

  /** The date stamp `version.split('-')[1].split('.')[0]`, or None where the index raises. */
  function Stamp(version: string): (r: Option<string>)
    ensures r.Some? <==> '-' in version
  {
    var parts := Split(version, '-');
    SplitHasSecond(version, '-');
    if |parts| < 2 then None else Some(Split(parts[1], '.')[0])
  }

  /** The gate chain of the main loop, first match wins, and the spec fields read after it. */
  function ScreenA(p: Policy, k: PackageA): (r: Screening)
    ensures r.Proceed? ==> Truthy(k.spec) && k.state == "succeeded"
    ensures r.Skip? ==> r.out in {Filtered, Crash, Unversioned, Held, TooFresh, NoSpec, Unmanaged, Locked}
    ensures r == Skip(TooFresh) <==>
      (!Truthy(p.only) || k.name == p.only.value) &&
      Stamp(k.version).Some? && |Stamp(k.version).value| == 8 && k.state == "succeeded" &&
      (p.now - k.submittedOn) / 86400 < p.minDays && !(p.force || p.rebuild)
  {
    if Truthy(p.only) && k.name != p.only.value then Skip(Filtered)
    else if Stamp(k.version).None? then Skip(Crash)
    else if |Stamp(k.version).value| != 8 then Skip(Unversioned)
    else if k.state != "succeeded" then Skip(Held)
    else if (p.now - k.submittedOn) / 86400 < p.minDays && !(p.force || p.rebuild) then Skip(TooFresh)
    else if !Truthy(k.spec) then Skip(NoSpec)
    else
      var spec := k.spec.value;
      var pkgvers := FindField(spec, PkgversMarker);
      if pkgvers.None? then Skip(Unmanaged)
      else if FindField(spec, LockverMarker).Some? then Skip(Locked)
      else
        var version := FindField(spec, VersionMarker);
        var rel := if version.Some? then FirstWord(version.value) else None;
        var pkgver := ParseDecimal(pkgvers.value);
        if rel.None? || pkgver.None? then Skip(Crash)
        else
          Proceed(Facts(if '(' in rel.value then None else rel, pkgver.value,
                        FindField(spec, CudaMajMarker).Some? || FindField(spec, CudaMinMarker).Some?))
  }

  /** The package carries a `vcu_maj` or `vcu_min` marker and passed the gates. */
  predicate MarkedA(p: Policy, k: PackageA)
  {
    ScreenA(p, k).Proceed? && ScreenA(p, k).facts.marked
  }

  // ---------------------------------------------------------------------
  // Slot-0 identity and the throttle

  /** Slot 0's new hash equals `schash0`, or its new tag equals `sctags0`. */
  predicate SlotZeroCurrent(slots: seq<SlotA>)
  {
    |slots| > 0 &&
    ((Truthy(slots[0].newhash) && slots[0].schash == slots[0].newhash) ||
     (Truthy(slots[0].newtag) && slots[0].sctags == slots[0].newtag))
  }

  /** The new `pkgvers`, or None when the package is skipped as up to date. */
  function Revision(p: Policy, pkgver: nat, slots: seq<SlotA>): Option<nat>
  {
    if SlotZeroCurrent(slots) then
      if p.rebuild then Some(pkgver + 1)
      else if p.force then Some(pkgver)
      else None
    else Some(0)
  }

  /** The CUDA build limit stops this package. */
  predicate ThrottledA(p: Policy, marked: bool, cudaBuild: int)
  {
    !(p.force || p.rebuild) && marked && p.cudaBuilds != -1 && cudaBuild >= p.cudaBuilds
  }

  // ---------------------------------------------------------------------
  // The version choice for slot 0

  /** `verMap(c) > verMap(rel)`, or None where an `int()` raises. */
  function Newer(c: string, rel: string): Option<bool>
  {
    var a, b := VerMap(c), VerMap(rel);
    if a.None? || b.None? then None else Some(TupleLess(b.value, a.value))
  }

  /** `verMap(c) < verMap(rel)`, both sides parsing. */
  predicate Older(c: string, rel: string)
  {
    VerMap(c).Some? && VerMap(rel).Some? && TupleLess(VerMap(c).value, VerMap(rel).value)
  }

  /** The candidate is absent, or present and not greater than `rel`. */
  predicate NotNewer(c: Option<string>, rel: string)
  {
    !Truthy(c) || Newer(c.value, rel) == Some(false)
  }

  datatype Choice = Advance(vers: string) | Keep | Regress | BadVersion

  /** The `if logvers ... elif tagvers ... else` chain deciding `newvers[0]`. */
  function ChooseA(logvers: Option<string>, tagvers: Option<string>, rel: string): Choice
  {
    var logUp := if Truthy(logvers) then Newer(logvers.value, rel) else Some(false);
    if logUp.None? then BadVersion
    else if logUp.value then Advance(logvers.value)
    else
      var tagUp := if Truthy(tagvers) then Newer(tagvers.value, rel) else Some(false);
      if tagUp.None? then BadVersion
      else if tagUp.value then Advance(tagvers.value)
      else if logvers == Some(rel) || tagvers == Some(rel) then Keep
      else if !Truthy(logvers) && !Truthy(tagvers) then Keep
      else if (Truthy(logvers) && Older(logvers.value, rel)) || (Truthy(tagvers) && Older(tagvers.value, rel)) then Regress
      else Keep
  }

  // ---------------------------------------------------------------------
  // The per-slot loop

  /** What `gitCheckVersion` hands back, or how it ends the run. */
  datatype Check = Checked(logvers: Option<string>, tagvers: Option<string>, date: string) | Aborted(out: OutcomeA)

  /** A lookup result as a candidate version, or how it ends the run. */
  function Settle(s: C.Scan): (r: Option<Option<string>>)
  {
    match s
    case Found(t) => Some(Some(t))
    case NotFound => Some(None)
    case Crashed => None
    case Hangs => None
  }

  function Failure(s: C.Scan): OutcomeA
  {
    if s.Hangs? then Hangs else Crash
  }

  /** `gitCheckVersion(pkgname, ..., dover)`. */
  function GitCheckA(name: string, dateOut: string, dover: bool,
                     describe: nat -> Option<string>, tags: seq<string>): (r: Check)
    ensures r.Aborted? ==> Terminal(r.out)
  {
    var date := FirstWord(dateOut);
    if date.None? then Aborted(Fatal)
    else if !dover then Checked(None, None, date.value)
    else
      var log := C.Describe(describe).logvers;
      if Settle(log).None? then Aborted(Failure(log))
      else
        var tag := C.WalkA(name, tags);
        if Settle(tag).None? then Aborted(Failure(tag))
        else Checked(Settle(log).value, Settle(tag).value, date.value)
  }

  /** `tagvers = tagExtract(newtag)` after the tag lookup. */
  function TagCheckA(c: Check, newtag: string): (r: Check)
    ensures c.Aborted? ==> r == c
    ensures r.Aborted? && !c.Aborted? ==> r.out == Hangs
  {
    if c.Aborted? then c
    else match Canonical(newtag)
      case Spins => Aborted(Hangs)
      case NoTag => Checked(None, None, c.date)
      case Tag(t) => Checked(None, Some(t), c.date)
  }

  /** One pass of the slot loop: the slot's date and `newvers[i]`, or how the run ends. */
  datatype StepA = Next(date: string, vers: Option<string>) | Stop(out: OutcomeA)

  /** What the hash and the tag lookup of slot `i` hand to the version choice. */
  function SlotCheckA(name: string, pkgrel: Option<string>, i: nat, s: SlotA): (r: Check)
    ensures r.Aborted? ==> Terminal(r.out)
  {
    var viaHash :=
      if Truthy(s.newhash) then GitCheckA(name, s.hashDateOut, i == 0 && pkgrel.Some?, s.describe, s.tags)
      else Checked(None, None, []);
    if viaHash.Aborted? || !Truthy(s.newtag) then viaHash
    else TagCheckA(GitCheckA(name, s.tagDateOut, false, s.describe, s.tags), s.newtag.value)
  }

  /** The version choice of slot 0 as a slot-loop step. */
  function ChoiceStep(date: string, choice: Choice): StepA
  {
    match choice
    case Advance(v) => Next(date, Some(v))
    case Keep => Next(date, None)
    case Regress => Stop(Regressing)
    case BadVersion => Stop(Crash)
  }

  function SlotStepA(name: string, pkgrel: Option<string>, i: nat, s: SlotA): (r: StepA)
    ensures r.Stop? ==> Terminal(r.out)
    ensures r.Next? && r.vers.Some? ==>
      (i == 0 && pkgrel.Some? && SlotCheckA(name, pkgrel, i, s).Checked? &&
       ChooseA(SlotCheckA(name, pkgrel, i, s).logvers, SlotCheckA(name, pkgrel, i, s).tagvers, pkgrel.value) == Advance(r.vers.value))
  {
    if !Truthy(s.newhash) && !Truthy(s.newtag) then Stop(Fatal)
    else
      var c := SlotCheckA(name, pkgrel, i, s);
      if c.Aborted? then Stop(c.out)
      else if i == 0 && pkgrel.Some? then ChoiceStep(c.date, ChooseA(c.logvers, c.tagvers, pkgrel.value))
      else Next(c.date, None)
  }

  /** The lists `newdate` and `newvers` after the whole slot loop, or how it ended the run. */
  datatype SlotsRun = Dates(dates: seq<string>, vers: seq<Option<string>>) | Halt(out: OutcomeA)

  /** The steps of every slot, in slot order. */
  function Steps(name: string, pkgrel: Option<string>, slots: seq<SlotA>): (r: seq<StepA>)
    ensures |r| == |slots| && forall i :: 0 <= i < |slots| ==> r[i] == SlotStepA(name, pkgrel, i, slots[i])
  {
    seq(|slots|, i requires 0 <= i < |slots| => SlotStepA(name, pkgrel, i, slots[i]))
  }

  /** Running the steps in order: the first `Stop` ends the loop. */
  function Collect(steps: seq<StepA>): (r: SlotsRun)
    ensures r.Dates? ==> |r.dates| == |r.vers| == |steps|
    ensures r.Dates? ==> forall i :: 0 <= i < |steps| ==> steps[i] == Next(r.dates[i], r.vers[i])
    ensures r.Halt? ==> exists i :: 0 <= i < |steps| && steps[i] == Stop(r.out)
    decreases |steps|
  {
    if steps == [] then Dates([], [])
    else
      var n := |steps| - 1;
      var init := Collect(steps[..n]);
      if init.Halt? then
        var i :| 0 <= i < n && steps[..n][i] == Stop(init.out);
        assert steps[i] == Stop(init.out);
        init
      else if steps[n].Stop? then Halt(steps[n].out)
      else
        assert forall i :: 0 <= i < n ==> steps[..n][i] == steps[i];
        Dates(init.dates + [steps[n].date], init.vers + [steps[n].vers])
  }

  function SlotsOf(name: string, pkgrel: Option<string>, slots: seq<SlotA>): (r: SlotsRun)
    ensures r.Dates? ==> |r.dates| == |r.vers| == |slots|
    ensures r.Dates? ==> forall i :: 0 <= i < |slots| ==> SlotStepA(name, pkgrel, i, slots[i]) == Next(r.dates[i], r.vers[i])
    ensures r.Halt? ==> Terminal(r.out)
  {
    Collect(Steps(name, pkgrel, slots))
  }

  /** `newhash` as `buildNewSRPM` receives it. */
  function NewHashes(slots: seq<SlotA>): (r: seq<Option<string>>)
    ensures |r| == |slots| && forall i :: 0 <= i < |slots| ==> r[i] == slots[i].newhash
  {
    seq(|slots|, i requires 0 <= i < |slots| => slots[i].newhash)
  }

  /** `newtags` as `buildNewSRPM` receives it. */
  function NewTags(slots: seq<SlotA>): (r: seq<Option<string>>)
    ensures |r| == |slots| && forall i :: 0 <= i < |slots| ==> r[i] == slots[i].newtag
  {
    seq(|slots|, i requires 0 <= i < |slots| => slots[i].newtag)
  }

  /** From the slot loop to the build submission. */
  function FinishA(p: Policy, k: PackageA, pkgrel: Option<string>, pkgver: nat): (r: OutcomeA)
    ensures r.Submitted? || Terminal(r)
  {
    match SlotsOf(k.name, pkgrel, k.slots)
    case Halt(o) => o
    case Dates(ds, vs) =>
      if |vs| == 0 then Crash
      else Submitted(PlanA(vs[0], pkgver, ds, NewHashes(k.slots), NewTags(k.slots), p.cuMaj, p.cuMin),
                     BuildersOf(k.latestChroots, k.latestChroots, p.enabled, p.fork))
  }

  /** The main loop once the gates have passed. */
  function AfterScreenA(p: Policy, k: PackageA, f: Facts, cudaBuild: int): (r: OutcomeA)
    ensures r.Submitted? || Terminal(r) || r in {FetchError, UpToDate, Throttled}
    ensures r == UpToDate <==> !k.fetchFailed && SlotZeroCurrent(k.slots) && !p.force && !p.rebuild
    ensures r == Throttled <==>
      !k.fetchFailed && Revision(p, f.pkgver, k.slots).Some? && ThrottledA(p, f.marked, cudaBuild)
    ensures r.Submitted? ==>
      !k.fetchFailed && Revision(p, f.pkgver, k.slots).Some? && !ThrottledA(p, f.marked, cudaBuild) &&
      r == FinishA(p, k, f.pkgrel, Revision(p, f.pkgver, k.slots).value)
  {
    if k.fetchFailed then FetchError
    else
      var rev := Revision(p, f.pkgver, k.slots);
      if rev.None? then UpToDate
      else if ThrottledA(p, f.marked, cudaBuild) then Throttled
      else FinishA(p, k, f.pkgrel, rev.value)
  }

  /** What the main loop does with package `k` when `cudaBuild` CUDA builds were submitted before. */
  function DecideA(p: Policy, k: PackageA, cudaBuild: int): OutcomeA
  {
    match ScreenA(p, k)
    case Skip(o) => o
    case Proceed(f) => AfterScreenA(p, k, f, cudaBuild)
  }

  /** How much package `k` adds to `cuda_build`. */
  function Bump(p: Policy, k: PackageA, cudaBuild: int): (r: nat)
    ensures r <= 1
  {
    if DecideA(p, k, cudaBuild).Submitted? && MarkedA(p, k) then 1 else 0
  }

  /** The main loop's decision for a package, given the CUDA counter. */
  function DeciderA(p: Policy): (PackageA, int) -> OutcomeA
  {
    (k: PackageA, c: int) => DecideA(p, k, c)
  }

  /** What a package adds to the CUDA counter, given the counter. */
  function BumperA(p: Policy): (PackageA, int) -> int
  {
    (k: PackageA, c: int) => Bump(p, k, c)
  }

  /** The outcomes of the main loop over `pkgs` and the final CUDA counter. */
  function RunOf(p: Policy, pkgs: seq<PackageA>, cudaBuild: int): Run<OutcomeA>
  {
    RunWith(DeciderA(p), BumperA(p), Terminal, pkgs, cudaBuild)
  }

  // ---------------------------------------------------------------------
  // The main loop, step by step

  /** `gitCheckVersion`, with the script's own loops for `describe` and the tag walk. */
  method GitCheckWorkA(name: string, dateOut: string, dover: bool,
                       describe: nat -> Option<string>, tags: seq<string>) returns (c: Check)
    ensures c == GitCheckA(name, dateOut, dover, describe, tags)
  {
    var date := FirstWord(dateOut);
    if date.None? { return Aborted(Fatal); }
    if !dover { return Checked(None, None, date.value); }
    var log, _, _ := C.DescribeLoop(describe);
    if Settle(log).None? { return Aborted(Failure(log)); }
    var tag := C.WalkALoop(name, tags);
    if Settle(tag).None? { return Aborted(Failure(tag)); }
    return Checked(Settle(log).value, Settle(tag).value, date.value);
  }

  /** The lookups of one slot: by hash, then by tag, the tag overriding. */
  method SlotCheckWorkA(name: string, pkgrel: Option<string>, i: nat, s: SlotA) returns (c: Check)
    ensures c == SlotCheckA(name, pkgrel, i, s)
  {
    c := Checked(None, None, []);
    if Truthy(s.newhash) {
      c := GitCheckWorkA(name, s.hashDateOut, i == 0 && pkgrel.Some?, s.describe, s.tags);
      if c.Aborted? { return; }
    }
    if Truthy(s.newtag) {
      c := GitCheckWorkA(name, s.tagDateOut, false, s.describe, s.tags);
      if c.Aborted? { return; }
      var e := TagExtract(s.newtag.value);
      c := if e.Spins? then Aborted(Hangs) else Checked(None, AsOption(e), c.date);
    }
  }

  /** The body of the slot loop. */
  method SlotWorkA(name: string, pkgrel: Option<string>, i: nat, s: SlotA) returns (r: StepA)
    ensures r == SlotStepA(name, pkgrel, i, s)
  {
    if !Truthy(s.newhash) && !Truthy(s.newtag) {
      return Stop(Fatal);
    }
    var c := SlotCheckWorkA(name, pkgrel, i, s);
    if c.Aborted? { return Stop(c.out); }
    if i == 0 && pkgrel.Some? {
      var choice := ChooseA(c.logvers, c.tagvers, pkgrel.value);
      return ChoiceStep(c.date, choice);
    }
    return Next(c.date, None);
  }

  /** Once the loop stops, more steps stop it the same way. */
  lemma {:induction false} HaltSticks(steps: seq<StepA>, n: nat)
    requires n <= |steps| && Collect(steps[..n]).Halt?
    ensures Collect(steps) == Collect(steps[..n])
    decreases |steps| - n
  {
    if n < |steps| {
      assert steps[..n + 1][..n] == steps[..n];
      HaltSticks(steps, n + 1);
    } else {
      assert steps[..n] == steps;
    }
  }

  /** The `for i in range(0, len(screpo))` loop. */
  method SlotLoopA(name: string, pkgrel: Option<string>, slots: seq<SlotA>)
    returns (halt: Option<OutcomeA>, newdate: seq<string>, newvers: seq<Option<string>>)
    ensures halt.Some? ==> SlotsOf(name, pkgrel, slots) == Halt(halt.value)
    ensures halt.None? ==> SlotsOf(name, pkgrel, slots) == Dates(newdate, newvers)
  {
    ghost var steps := Steps(name, pkgrel, slots);
    halt, newdate, newvers := None, [], [];
    var i := 0;
    while i < |slots|
      invariant 0 <= i <= |slots|
      invariant Collect(steps[..i]) == Dates(newdate, newvers)
    {
      var step := SlotWorkA(name, pkgrel, i, slots[i]);
      CollectOneMore(steps, i, newdate, newvers);
      if step.Stop? {
        HaltSticks(steps, i + 1);
        return Some(step.out), newdate, newvers;
      }
      newdate := newdate + [step.date];
      newvers := newvers + [step.vers];
      i := i + 1;
    }
    assert steps[..i] == steps;
  }

  /** One more step: a `Stop` halts the loop with its outcome, a `Next` appends its date and version. */
  lemma CollectOneMore(steps: seq<StepA>, i: nat, dates: seq<string>, vers: seq<Option<string>>)
    requires i < |steps| && Collect(steps[..i]) == Dates(dates, vers)
    ensures steps[i].Stop? ==> Collect(steps[..i + 1]) == Halt(steps[i].out)
    ensures steps[i].Next? ==> Collect(steps[..i + 1]) == Dates(dates + [steps[i].date], vers + [steps[i].vers])
  {
    assert steps[..i + 1][..i] == steps[..i];
  }

  /** The slot loop, `buildNewSRPM` and the `builders` loop. */
  method FinishWorkA(p: Policy, k: PackageA, pkgrel: Option<string>, pkgver: nat) returns (out: OutcomeA)
    ensures out == FinishA(p, k, pkgrel, pkgver)
  {
    var halt, newdate, newvers := SlotLoopA(k.name, pkgrel, k.slots);
    if halt.Some? { return halt.value; }
    if |newvers| == 0 { return Crash; }
    var edits := BuildEditsA(newvers[0], pkgver, newdate, NewHashes(k.slots), NewTags(k.slots), p.cuMaj, p.cuMin);
    var builders := Builders(k.latestChroots, p.enabled, p.fork);
    out := Submitted(edits, builders);
  }

  /** The `pkgvers` revision, imperatively as the script computes it. */
  method ReviseA(p: Policy, pkgver: nat, slots: seq<SlotA>) returns (rev: Option<nat>)
    ensures rev == Revision(p, pkgver, slots)
  {
    var n := pkgver;
    if SlotZeroCurrent(slots) {
      if p.rebuild {
        n := n + 1;
      } else if p.force {
      } else {
        return None;
      }
    } else {
      n := 0;
    }
    return Some(n);
  }

  /** The main loop body once the gates have passed. */
  method AfterScreenWorkA(p: Policy, k: PackageA, f: Facts, cudaBuild: int) returns (out: OutcomeA)
    ensures out == AfterScreenA(p, k, f, cudaBuild)
  {
    if k.fetchFailed { return FetchError; }
    var rev := ReviseA(p, f.pkgver, k.slots);
    if rev.None? { return UpToDate; }
    if ThrottledA(p, f.marked, cudaBuild) { return Throttled; }
    out := FinishWorkA(p, k, f.pkgrel, rev.value);
  }

  /** The run-wide state of the main loop: the options and the CUDA build counter. */
  class RunA {
    const policy: Policy
    var cudaBuild: int

    constructor(p: Policy)
      ensures policy == p && cudaBuild == 0
    {
      policy := p;
      cudaBuild := 0;
    }

    /** The body of `for pkg in pkglist`. */
    method Process(k: PackageA) returns (out: OutcomeA)
      modifies this
      ensures out == DecideA(policy, k, old(cudaBuild))
      ensures cudaBuild == old(cudaBuild) + Bump(policy, k, old(cudaBuild))
    {
      var screen := ScreenA(policy, k);
      if screen.Skip? {
        return screen.out;
      }
      out := AfterScreenWorkA(policy, k, screen.facts, cudaBuild);
      if out.Submitted? && screen.facts.marked {
        cudaBuild := cudaBuild + 1;
      }
    }

    /** The whole `for pkg in pkglist` loop, up to the first outcome that ends the run. */
    method ProcessAll(pkgs: seq<PackageA>) returns (outs: seq<OutcomeA>)
      modifies this
      ensures Run(outs, cudaBuild) == RunOf(policy, pkgs, old(cudaBuild))
    {
      outs := [];
      var i := 0;
      while i < |pkgs|
        invariant 0 <= i <= |pkgs|
        invariant RunOf(policy, pkgs, old(cudaBuild)) == Then(outs, RunOf(policy, pkgs[i..], cudaBuild))
      {
        ghost var before := cudaBuild;
        var out := Process(pkgs[i]);
        RunJoin(DeciderA(policy), BumperA(policy), Terminal, pkgs, old(cudaBuild), i, outs, before);
        assert DeciderA(policy)(pkgs[i], before) == out;
        assert before + BumperA(policy)(pkgs[i], before) == cudaBuild;
        outs := outs + [out];
        if Terminal(out) {
          return;
        }
        i := i + 1;
      }
      assert pkgs[i..] == [] && outs + [] == outs;
    }
  }

  // ---------------------------------------------------------------------
  // Properties of the slot loop

  /**
   * Slot `i` ends the run iff it has neither a new hash nor a new tag
   * (`exit(-1)`), one of its lookups ends the run, or it is slot 0 of a
   * spec with a release and the version choice regresses or cannot compare
   * the versions; "version decreasing" comes from the regression guard
   * alone.
   */
  lemma SlotStopsA(name: string, pkgrel: Option<string>, i: nat, s: SlotA)
    ensures var r, c := SlotStepA(name, pkgrel, i, s), SlotCheckA(name, pkgrel, i, s);
      (!Truthy(s.newhash) && !Truthy(s.newtag) ==> r == Stop(Fatal)) &&
      (r.Stop? <==>
         (!Truthy(s.newhash) && !Truthy(s.newtag)) || c.Aborted? ||
         (i == 0 && pkgrel.Some? && ChooseA(c.logvers, c.tagvers, pkgrel.value) in {Regress, BadVersion})) &&
      (r == Stop(Regressing) <==>
         (Truthy(s.newhash) || Truthy(s.newtag)) && c.Checked? &&
         i == 0 && pkgrel.Some? && ChooseA(c.logvers, c.tagvers, pkgrel.value) == Regress)
  {
  }

  // ---------------------------------------------------------------------
  // Properties of the version choice

  /**
   * `newvers[0]` is `logvers` when that is greater than the recorded
   * version, else `tagvers` when that is greater; nothing else is ever
   * chosen.
   */
  lemma AdvanceIff(logvers: Option<string>, tagvers: Option<string>, rel: string, v: string)
    ensures ChooseA(logvers, tagvers, rel) == Advance(v) <==>
      (Truthy(logvers) && logvers.value == v && Newer(v, rel) == Some(true)) ||
      (NotNewer(logvers, rel) && Truthy(tagvers) && tagvers.value == v && Newer(v, rel) == Some(true))
  {
  }

  /** A chosen version is strictly greater than the recorded one. */
  lemma AdvanceRises(logvers: Option<string>, tagvers: Option<string>, rel: string)
    requires ChooseA(logvers, tagvers, rel).Advance?
    ensures var v := ChooseA(logvers, tagvers, rel).vers;
      VerMap(v).Some? && VerMap(rel).Some? && TupleLess(VerMap(rel).value, VerMap(v).value) &&
      !TupleLess(VerMap(v).value, VerMap(rel).value)
  {
    var v := ChooseA(logvers, tagvers, rel).vers;
    LessAsymmetric(VerMap(rel).value, VerMap(v).value);
  }

  /** A `describe` version below the recorded one does not block a greater tag version. */
  lemma TagFallback(logvers: string, tagvers: string, rel: string)
    requires logvers != [] && Older(logvers, rel)
    requires tagvers != [] && Newer(tagvers, rel) == Some(true)
    ensures ChooseA(Some(logvers), Some(tagvers), rel) == Advance(tagvers)
  {
    LessAsymmetric(VerMap(logvers).value, VerMap(rel).value);
  }

  /**
   * The run aborts with "version decreasing" iff no candidate is greater,
   * neither equals the recorded version as a string, and some present
   * candidate is strictly smaller.
   */
  lemma RegressIff(logvers: Option<string>, tagvers: Option<string>, rel: string)
    ensures ChooseA(logvers, tagvers, rel) == Regress <==>
      NotNewer(logvers, rel) && NotNewer(tagvers, rel) &&
      logvers != Some(rel) && tagvers != Some(rel) &&
      ((Truthy(logvers) && Older(logvers.value, rel)) || (Truthy(tagvers) && Older(tagvers.value, rel)))
  {
  }

  /** A candidate equal to the recorded version never makes the run abort. */
  lemma RecordedNeverRegresses(tagvers: Option<string>, rel: string)
    requires rel != [] && VerMap(rel).Some?
    ensures ChooseA(Some(rel), tagvers, rel) != Regress
    ensures ChooseA(Some(rel), tagvers, rel).Advance? ==> tagvers == Some(ChooseA(Some(rel), tagvers, rel).vers)
  {
    LessIrreflexive(VerMap(rel).value);
  }

  // ---------------------------------------------------------------------
  // Properties of the decision

  /** `--force` or `--rebuild` overrides the age gate, the identity skip and the CUDA throttle. */
  lemma OverridesA(p: Policy, k: PackageA, cudaBuild: int)
    requires p.force || p.rebuild
    ensures DecideA(p, k, cudaBuild) !in {TooFresh, UpToDate, Throttled}
  {
    match ScreenA(p, k)
    case Skip(o) =>
    case Proceed(f) =>
  }

  /**
   * The age gate fires iff the filter passes, the version carries an
   * 8-character date stamp, the latest build succeeded, fewer than
   * `mindays` whole days passed and neither override is given.
   */
  lemma TooFreshIffA(p: Policy, k: PackageA, cudaBuild: int)
    ensures DecideA(p, k, cudaBuild) == TooFresh <==>
      (!Truthy(p.only) || k.name == p.only.value) &&
      Stamp(k.version).Some? && |Stamp(k.version).value| == 8 && k.state == "succeeded" &&
      (p.now - k.submittedOn) / 86400 < p.minDays && !(p.force || p.rebuild)
  {
    match ScreenA(p, k)
    case Skip(o) =>
    case Proceed(f) =>
  }

  /** A package is skipped as up to date iff slot 0 is current and neither override is given. */
  lemma UpToDateIffA(p: Policy, k: PackageA, cudaBuild: int)
    ensures DecideA(p, k, cudaBuild) == UpToDate <==>
      ScreenA(p, k).Proceed? && !k.fetchFailed && SlotZeroCurrent(k.slots) && !p.force && !p.rebuild
  {
    match ScreenA(p, k)
    case Skip(o) =>
    case Proceed(f) =>
  }

  /** Slots after slot 0 never decide the revision. */
  lemma RevisionReadsSlotZero(p: Policy, pkgver: nat, slots: seq<SlotA>, more: seq<SlotA>)
    requires |slots| > 0
    ensures Revision(p, pkgver, slots + more) == Revision(p, pkgver, slots)
  {
    assert (slots + more)[0] == slots[0];
  }

  /** The CUDA throttle stops exactly the marked packages that reach it with the counter at the limit. */
  lemma ThrottledIffA(p: Policy, k: PackageA, cudaBuild: int)
    ensures DecideA(p, k, cudaBuild) == Throttled <==>
      ScreenA(p, k).Proceed? && !k.fetchFailed && Revision(p, ScreenA(p, k).facts.pkgver, k.slots).Some? &&
      !(p.force || p.rebuild) && ScreenA(p, k).facts.marked && p.cudaBuilds != -1 && cudaBuild >= p.cudaBuilds
  {
    match ScreenA(p, k)
    case Skip(o) =>
    case Proceed(f) =>
  }

  /** A submitted package passed every gate, was not current or was overridden, and was not throttled. */
  lemma SubmittedStagesA(p: Policy, k: PackageA, cudaBuild: int)
    requires DecideA(p, k, cudaBuild).Submitted?
    ensures ScreenA(p, k).Proceed? && !k.fetchFailed
    ensures var f := ScreenA(p, k).facts;
      Revision(p, f.pkgver, k.slots).Some? && !ThrottledA(p, f.marked, cudaBuild) &&
      DecideA(p, k, cudaBuild) == FinishA(p, k, f.pkgrel, Revision(p, f.pkgver, k.slots).value)
  {
    match ScreenA(p, k)
    case Skip(o) =>
    case Proceed(f) =>
  }

  /**
   * A submitted build rewrites `pkgvers` to the revision: the old one plus 1
   * under `--rebuild`, the old one under `--force` when slot 0 is current,
   * 0 when it is not.
   */
  lemma SubmittedRevisionA(p: Policy, k: PackageA, cudaBuild: int)
    requires DecideA(p, k, cudaBuild).Submitted?
    ensures ScreenA(p, k).Proceed?
    ensures var was := ScreenA(p, k).facts.pkgver;
      var n := if !SlotZeroCurrent(k.slots) then 0 else if p.rebuild then was + 1 else was;
      SetGlobal("pkgvers", NatToString(n)) in DecideA(p, k, cudaBuild).edits &&
      forall e :: e in DecideA(p, k, cudaBuild).edits && e.prefix == GlobalPrefix("pkgvers") ==>
        e == SetGlobal("pkgvers", NatToString(n))
  {
    SubmittedStagesA(p, k, cudaBuild);
    var f := ScreenA(p, k).facts;
    var n := Revision(p, f.pkgver, k.slots).value;
    var run := SlotsOf(k.name, f.pkgrel, k.slots);
    assert run.Dates? && |run.vers| > 0;
    PlanAPkgvers(run.vers[0], n, run.dates, NewHashes(k.slots), NewTags(k.slots), p.cuMaj, p.cuMin);
  }

  /** The only Version edit of a plan is its first. */
  lemma PlanAVersionOnlyFirst(e: Edit, newvers0: Option<string>, pkgver: nat, newdate: seq<string>,
                              newhash: seq<Option<string>>, newtags: seq<Option<string>>,
                              cuMaj: Option<int>, cuMin: Option<int>)
    requires e in PlanA(newvers0, pkgver, newdate, newhash, newtags, cuMaj, cuMin) && e.prefix == "Version:"
    ensures Truthy(newvers0) && e == VersionEdit(newvers0.value)
  {
    InPlanA(e, newvers0, pkgver, newdate, newhash, newtags, cuMaj, cuMin);
    PlanAVersion(newvers0, pkgver, newdate, newhash, newtags, cuMaj, cuMin);
  }

  /**
   * The regression guard: a submitted build rewrites the Version line only
   * when the spec records a version (no `(` in it), and only to a strictly
   * greater one.
   */
  lemma VersionOnlyRisesA(p: Policy, k: PackageA, cudaBuild: int, e: Edit)
    requires DecideA(p, k, cudaBuild).Submitted?
    requires e in DecideA(p, k, cudaBuild).edits && e.prefix == "Version:"
    ensures ScreenA(p, k).Proceed? && ScreenA(p, k).facts.pkgrel.Some?
    ensures var rel := ScreenA(p, k).facts.pkgrel.value;
      exists v :: e == VersionEdit(v) && VerMap(v).Some? && VerMap(rel).Some? &&
                  TupleLess(VerMap(rel).value, VerMap(v).value)
  {
    SubmittedStagesA(p, k, cudaBuild);
    var f := ScreenA(p, k).facts;
    var n := Revision(p, f.pkgver, k.slots).value;
    var run := SlotsOf(k.name, f.pkgrel, k.slots);
    assert run.Dates? && |run.vers| > 0;
    PlanAVersionOnlyFirst(e, run.vers[0], n, run.dates, NewHashes(k.slots), NewTags(k.slots), p.cuMaj, p.cuMin);
    var step := SlotStepA(k.name, f.pkgrel, 0, k.slots[0]);
    assert step == Next(run.dates[0], run.vers[0]);
    var c := SlotCheckA(k.name, f.pkgrel, 0, k.slots[0]);
    AdvanceRises(c.logvers, c.tagvers, f.pkgrel.value);
  }

  /** A submitted build goes to the enabled latest-build chroots and their fork renames. */
  lemma SubmittedBuildersA(p: Policy, k: PackageA, cudaBuild: int)
    requires DecideA(p, k, cudaBuild).Submitted?
    ensures DecideA(p, k, cudaBuild).builders == BuildersOf(k.latestChroots, k.latestChroots, p.enabled, p.fork)
  {
    SubmittedStagesA(p, k, cudaBuild);
  }

  // ---------------------------------------------------------------------
  // Properties of a whole run

  /** What a package adds to the CUDA counter: one when it is submitted and marked. */
  function SubmittedMarkedA(p: Policy): (PackageA, OutcomeA) -> int
  {
    (k: PackageA, o: OutcomeA) => if o.Submitted? && MarkedA(p, k) then 1 else 0
  }

  /**
   * `cuda_build` rises by exactly one per submitted marked package; the run
   * stops right after the first outcome that ends it and nowhere else.
   */
  lemma RunCounterA(p: Policy, pkgs: seq<PackageA>, cudaBuild: int)
    ensures var r := RunOf(p, pkgs, cudaBuild);
      r.counter == cudaBuild + Weighed(SubmittedMarkedA(p), pkgs, r.outs) &&
      (forall i :: 0 <= i < |r.outs| - 1 ==> !Terminal(r.outs[i])) &&
      (|r.outs| < |pkgs| ==> |r.outs| > 0 && Terminal(r.outs[|r.outs| - 1]))
  {
    RunCounter(DeciderA(p), BumperA(p), Terminal, SubmittedMarkedA(p), pkgs, cudaBuild);
  }

  /** A marked package is only submitted below the limit. */
  lemma BoundStepA(p: Policy, k: PackageA, cudaBuild: int)
    requires !(p.force || p.rebuild) && p.cudaBuilds != -1 && cudaBuild <= p.cudaBuilds
    ensures cudaBuild + Bump(p, k, cudaBuild) <= p.cudaBuilds
  {
    if DecideA(p, k, cudaBuild).Submitted? {
      SubmittedStagesA(p, k, cudaBuild);
    }
  }

  /**
   * Without `--force`/`--rebuild` and with a limit set, a run that starts at
   * or below the limit never submits CUDA builds past it.
   */
  lemma ThrottleBoundA(p: Policy, pkgs: seq<PackageA>, cudaBuild: int)
    requires !(p.force || p.rebuild) && p.cudaBuilds != -1 && cudaBuild <= p.cudaBuilds
    ensures RunOf(p, pkgs, cudaBuild).counter <= p.cudaBuilds
  {
    forall k: PackageA, n: int | n <= p.cudaBuilds ensures n + BumperA(p)(k, n) <= p.cudaBuilds {
      BoundStepA(p, k, n);
    }
    RunBound(DeciderA(p), BumperA(p), Terminal, p.cudaBuilds, pkgs, cudaBuild);
  }
}
