/**
 * The per-package decision of update-copr-pkgs.py's main loop: the gate
 * chain, slot discovery from the spec's `%global` fields, the slot-0
 * up-to-date check, the CUDA throttle, the per-slot commit-date lookup
 * with the tag walk of slot 0, and finally the planned spec edits and
 * build targets. Unlike copr-pkgs-update.py there is no `--force` or
 * `--rebuild`, no tag-based slot and no guard against a decreasing
 * version.
 *
 * What the script asks the outside world for is an input: the options
 * (`PolicyB`), the COPR package record and spec text, and per slot index
 * what `git ls-remote` and the commit-date query printed (`PackageB`).
 */
module UpdateCoprPkgs {
  import opened Wrappers
  import opened Text
  import opened Patch
  import opened Builds
  import C = Candidates
  import opened Runs

  /** The command-line options and the project's enabled chroots. */
  datatype PolicyB = PolicyB(
    only: Option<string>,     // the optional package-name argument
    minDays: int,             // --mindays, 7 by default
    cudaBuilds: int,          // --cudabuilds, 1 by default
    cuMaj: Option<int>,       // --cudaver major, None by default
    cuMin: Option<int>,       // --cudaver minor, None by default
    fork: Option<Fork>,       // --fork
    enabled: seq<string>,     // the project's enabled chroots
    now: int)                 // `int(time.time())`

  /** One entry of the COPR package list with what the script looks up for it. */
  datatype PackageB = PackageB(
    name: string,
    state: string,              // state of the latest build
    version: string,            // version of the latest build's source package
    submittedOn: int,
    spec: Option<string>,       // `httpRequest` of the spec, None on an HTTP error
    latestChroots: seq<string>, // chroots of the latest build
    remote: nat -> string,      // what `git ls-remote --ref --head` prints for slot i
    dateOut: nat -> string,     // what the commit-date query prints for slot i
    tags: seq<string>)          // `git tag --sort=creatordate` of slot 0's clone

  /** What happens to one package. */
  datatype OutcomeB =
    | Filtered                // not the package named on the command line
    | Pinned                  // PINNED: not built from git
    | Held                    // an unfinished build holds the queue
    | TooFresh                // SKIP: built fewer than `mindays` days ago
    | NoSpec                  // ERROR getting the spec
    | Unmanaged               // UNMANAGED: no `pkgvers`
    | Locked                  // LOCKED: a `lockver` is set
    | UpToDate                // SKIP: already latest
    | Throttled               // SKIP: CUDA build limit reached
    | Submitted(edits: seq<Edit>, builders: seq<string>)
    | Crash                   // Python raises: the run dies
    | Fatal                   // `exit(-1)`
    | Hangs                   // `tagExtract` never returns

  /** Outcomes after which no further package is looked at. */
  predicate Terminal(o: OutcomeB) { o.Crash? || o.Fatal? || o.Hangs? }

  // ---------------------------------------------------------------------
  // The gates

  const PkgversMarker: string := "%global pkgvers "
  const LockverMarker: string := "%global lockver "
  const VersionMarker: string := "Version: "
  const CudaMajMarker: string := "%global vcu_maj "
  const CudaMinMarker: string := "%global vcu_min "

  datatype Screening = Skip(out: OutcomeB) | Proceed(spec: string, marked: bool)

  /** The gate chain of the main loop, first match wins, and the spec fields read after it. */
  function ScreenB(p: PolicyB, k: PackageB): (r: Screening)
    ensures r.Proceed? ==> k.spec == Some(r.spec) && r.spec != []
    ensures r.Skip? ==> r.out in {Filtered, Pinned, Held, TooFresh, NoSpec, Unmanaged, Locked, Crash}
    ensures r == Skip(TooFresh) <==>
      (!Truthy(p.only) || k.name == p.only.value) && Contains(k.version, ".git") &&
      k.state == "succeeded" && (p.now - k.submittedOn) / 86400 < p.minDays
  {
    if Truthy(p.only) && k.name != p.only.value then Skip(Filtered)
    else if !Contains(k.version, ".git") then Skip(Pinned)
    else if k.state != "succeeded" then Skip(Held)
    else if (p.now - k.submittedOn) / 86400 < p.minDays then Skip(TooFresh)
    else if !Truthy(k.spec) then Skip(NoSpec)
    else
      var spec := k.spec.value;
      if FindField(spec, PkgversMarker).None? then Skip(Unmanaged)
      else if FindField(spec, LockverMarker).Some? then Skip(Locked)
      else
        var version := FindField(spec, VersionMarker);
        if version.None? || FirstWord(version.value).None? then Skip(Crash)
        else Proceed(spec, FindField(spec, CudaMajMarker).Some? || FindField(spec, CudaMinMarker).Some?)
  }

  /** The package carries a `vcu_maj` or `vcu_min` marker and passed the gates. */
  predicate MarkedB(p: PolicyB, k: PackageB)
  {
    ScreenB(p, k).Proceed? && ScreenB(p, k).marked
  }

  // ---------------------------------------------------------------------
  // Slot discovery

  /** The spec's `source{i}`, `scdate{i}`, `schash{i}` and `branch{i}`. */
  datatype Source = Source(repo: string, date: string, hash: string, branch: string)

  /** The maximum number of slots: `range(10)`. */
  const MaxSlots: nat := 10

  /** `re.findall('%global <field><i> (.+)', spec)[0]`. */
  function SlotField(spec: string, field: string, i: nat): Option<string>
  {
    FindField(spec, GlobalPrefix(field) + NatToString(i) + " ")
  }

  /** Slot `i` of the spec, when all four of its fields are there. */
  function SourceAt(spec: string, i: nat): Option<Source>
  {
    var repo, date, hash, branch :=
      SlotField(spec, "source", i), SlotField(spec, "scdate", i), SlotField(spec, "schash", i), SlotField(spec, "branch", i);
    if repo.None? || date.None? || hash.None? || branch.None? then None
    else Some(Source(repo.value, date.value, hash.value, branch.value))
  }

  /** The lookup the discovery loop does for each index. */
  function SourceLookup(spec: string): nat -> Option<Source>
  {
    (i: nat) => SourceAt(spec, i)
  }

  /** The slots `at` yields from index `i` on, up to the first missing one. */
  function SourcesFrom(at: nat -> Option<Source>, i: nat): (r: seq<Source>)
    requires i <= MaxSlots
    ensures |r| <= MaxSlots - i
    decreases MaxSlots - i
  {
    if i == MaxSlots then []
    else match at(i)
      case None => []
      case Some(s) => [s] + SourcesFrom(at, i + 1)
  }

  /** The slots the discovery loop finds. */
  function Sources(spec: string): seq<Source>
  {
    SourcesFrom(SourceLookup(spec), 0)
  }

  /**
   * Slot `n` after the last complete one has its `source{n}` line: the
   * discovery loop appended it to `screpo` before the missing field broke
   * the loop, so `screpo` is one longer than `branch` and `newhash`.
   */
  predicate PartialB(spec: string)
  {
    |Sources(spec)| < MaxSlots && SlotField(spec, "source", |Sources(spec)|).Some?
  }

  /** `out(i).split()[0]` for each slot index `i`, None where Python raises `IndexError`. */
  function Words(out: nat -> string): nat -> Option<string>
  {
    (i: nat) => FirstWord(out(i))
  }

  /** `words(0)`, ..., `words(n - 1)`, or None when one of them is missing. */
  function FirstWords(words: nat -> Option<string>, n: nat): (r: Option<seq<string>>)
    ensures r.Some? ==> |r.value| == n
    decreases n
  {
    if n == 0 then Some([])
    else
      var init := FirstWords(words, n - 1);
      if init.None? then None
      else match words(n - 1)
        case None => None
        case Some(w) => Some(init.value + [w])
  }

  // ---------------------------------------------------------------------
  // After discovery

  /** The CUDA build limit stops this package. */
  predicate ThrottledB(p: PolicyB, marked: bool, cudaBuild: int)
  {
    marked && cudaBuild >= p.cudaBuilds
  }

  /** The slot loop's `newdate` and `newvers[0]`, or how it ended the run. */
  datatype SlotsRun = Dates(dates: seq<string>, vers0: Option<string>) | Halt(out: OutcomeB)

  /** A tag-walk result as `newvers[0]`, or how it ends the run. */
  function WalkStep(w: C.Scan): (r: SlotsRun)
  {
    match w
    case Found(t) => Dates([], Some(t))
    case NotFound => Dates([], None)
    case Crashed => Halt(Crash)
    case Hangs => Halt(Hangs)
  }

  /** The `for i in range(0, len(screpo))` loop over `n` slots. */
  function SlotsB(name: string, tags: seq<string>, dates: nat -> Option<string>, n: nat): (r: SlotsRun)
    requires n > 0
    ensures r.Dates? ==> FirstWords(dates, n) == Some(r.dates)
    ensures r.Dates? ==> WalkStep(C.WalkB(name, tags)) == Dates([], r.vers0)
  {
    if dates(0).None? then Halt(Fatal)
    else
      var w := WalkStep(C.WalkB(name, tags));
      if w.Halt? then w
      else match FirstWords(dates, n)
        case None => Halt(Fatal)
        case Some(ds) => Dates(ds, w.vers0)
  }

  /**
   * From the slot loop to the build submission. With a `partial` slot
   * after the complete ones, the loop runs `len(screpo)` passes and the
   * last one raises `IndexError` on `branch[i]`.
   */
  function FinishB(p: PolicyB, k: PackageB, hashes: seq<string>, partial: bool): (r: OutcomeB)
    requires |hashes| > 0
    ensures r.Submitted? || Terminal(r)
  {
    match SlotsB(k.name, k.tags, Words(k.dateOut), |hashes|)
    case Halt(o) => if Terminal(o) then o else Crash
    case Dates(ds, v0) =>
      if partial then Crash
      else Submitted(PlanB(v0, ds, hashes, p.cuMaj, p.cuMin),
                BuildersOf(k.latestChroots, k.latestChroots, p.enabled, p.fork))
  }

  /** The main loop once the gates have passed. */
  function AfterScreenB(p: PolicyB, k: PackageB, spec: string, marked: bool, cudaBuild: int): (r: OutcomeB)
    ensures r.Submitted? || Terminal(r) || r in {UpToDate, Throttled}
    ensures var hashes := FirstWords(Words(k.remote), |Sources(spec)|);
      (r == UpToDate <==> hashes.Some? && |Sources(spec)| > 0 && Sources(spec)[0].hash == hashes.value[0]) &&
      (r == Throttled <==> hashes.Some? && |Sources(spec)| > 0 && Sources(spec)[0].hash != hashes.value[0] &&
                           ThrottledB(p, marked, cudaBuild)) &&
      (r.Submitted? ==> hashes.Some? && |Sources(spec)| > 0 && Sources(spec)[0].hash != hashes.value[0] &&
                        !ThrottledB(p, marked, cudaBuild) && r == FinishB(p, k, hashes.value, PartialB(spec)))
  {
    var sources := Sources(spec);
    var hashes := FirstWords(Words(k.remote), |sources|);
    if hashes.None? || |sources| == 0 then Crash
    else if sources[0].hash == hashes.value[0] then UpToDate
    else if ThrottledB(p, marked, cudaBuild) then Throttled
    else FinishB(p, k, hashes.value, PartialB(spec))
  }

  /** What the main loop does with package `k` when `cudaBuild` CUDA builds were submitted before. */
  function DecideB(p: PolicyB, k: PackageB, cudaBuild: int): OutcomeB
  {
    match ScreenB(p, k)
    case Skip(o) => o
    case Proceed(spec, marked) => AfterScreenB(p, k, spec, marked, cudaBuild)
  }

  /** How much package `k` adds to `cuda_build`. */
  function BumpB(p: PolicyB, k: PackageB, cudaBuild: int): (r: nat)
    ensures r <= 1
  {
    if DecideB(p, k, cudaBuild).Submitted? && MarkedB(p, k) then 1 else 0
  }

  /** The main loop's decision for a package, given the CUDA counter. */
  function DeciderB(p: PolicyB): (PackageB, int) -> OutcomeB
  {
    (k: PackageB, c: int) => DecideB(p, k, c)
  }

  /** What a package adds to the CUDA counter, given the counter. */
  function BumperB(p: PolicyB): (PackageB, int) -> int
  {
    (k: PackageB, c: int) => BumpB(p, k, c)
  }

  /** The outcomes of the main loop over `pkgs` and the final CUDA counter. */
  function RunOfB(p: PolicyB, pkgs: seq<PackageB>, cudaBuild: int): Run<OutcomeB>
  {
    RunWith(DeciderB(p), BumperB(p), Terminal, pkgs, cudaBuild)
  }

  // ---------------------------------------------------------------------
  // The main loop, step by step

  /**
   * The discovery loop `for i in range(10)`: read the four fields of slot
   * `i`, stop at the first slot missing one, and take the first word of
   * `git ls-remote` for each slot found (`crashed` when there is none).
   */
  method DiscoverB(at: nat -> Option<Source>, heads: nat -> Option<string>)
    returns (sources: seq<Source>, newhash: seq<string>, crashed: bool)
    ensures crashed <==> FirstWords(heads, |SourcesFrom(at, 0)|).None?
    ensures !crashed ==> sources == SourcesFrom(at, 0) && FirstWords(heads, |sources|) == Some(newhash)
  {
    sources, newhash, crashed := [], [], false;
    var i := 0;
    while i < MaxSlots && !crashed
      invariant 0 <= i <= MaxSlots && |sources| == i
      invariant forall j :: 0 <= j < i ==> at(j) == Some(sources[j])
      invariant crashed ==> FirstWords(heads, i).None?
      invariant !crashed ==> FirstWords(heads, i) == Some(newhash)
    {
      var source := at(i);
      if source.None? {
        break;
      }
      sources := sources + [source.value];
      var word := heads(i);
      if word.None? {
        crashed := true;
      } else {
        newhash := newhash + [word.value];
      }
      i := i + 1;
    }
    SourcesFromPrefix(at, sources, 0);
    if crashed {
      FirstWordsNoneSticks(heads, i, |SourcesFrom(at, 0)|);
    }
  }

  /**
   * Slots `i ..` of `sources` are what `at` yields from index `i` on; if the
   * next index yields nothing (or is 10), they are all of them.
   */
  lemma {:induction false} SourcesFromPrefix(at: nat -> Option<Source>, sources: seq<Source>, i: nat)
    requires i <= |sources| <= MaxSlots
    requires forall j :: i <= j < |sources| ==> at(j) == Some(sources[j])
    ensures |SourcesFrom(at, i)| >= |sources| - i
    ensures (|sources| == MaxSlots || at(|sources|).None?) ==> SourcesFrom(at, i) == sources[i..]
    decreases |sources| - i
  {
    if i < |sources| {
      SourcesFromPrefix(at, sources, i + 1);
      assert sources[i..] == [sources[i]] + sources[i + 1..];
    }
  }

  /** A missing word stays missing when more words are read. */
  lemma {:induction false} FirstWordsNoneSticks(words: nat -> Option<string>, n: nat, m: nat)
    requires n <= m && FirstWords(words, n).None?
    ensures FirstWords(words, m).None?
    decreases m
  {
    if n < m {
      FirstWordsNoneSticks(words, n, m - 1);
    }
  }

  /** `FirstWords` holds every word in order, and fails iff one of them is missing. */
  lemma {:induction false} FirstWordsSpec(words: nat -> Option<string>, n: nat)
    ensures var r := FirstWords(words, n);
      (r.Some? ==> forall j :: 0 <= j < n ==> words(j) == Some(r.value[j])) &&
      (r.None? <==> exists j :: 0 <= j < n && words(j).None?)
    decreases n
  {
    if n > 0 {
      FirstWordsSpec(words, n - 1);
      var r := FirstWords(words, n);
      if r.Some? {
        var init := FirstWords(words, n - 1).value;
        assert r.value == init + [words(n - 1).value];
        forall j | 0 <= j < n ensures words(j) == Some(r.value[j]) {
          if j < n - 1 {
            assert r.value[j] == init[j];
          }
        }
      }
    }
  }

  /** The per-slot loop: commit dates, and the tag walk for slot 0. */
  method SlotLoopB(name: string, tags: seq<string>, dates: nat -> Option<string>, n: nat) returns (r: SlotsRun)
    requires n > 0
    ensures r == SlotsB(name, tags, dates, n)
  {
    var newdate: seq<string> := [];
    var vers0: Option<string> := None;
    var i := 0;
    while i < n
      invariant 0 <= i <= n
      invariant FirstWords(dates, i) == Some(newdate)
      invariant i > 0 ==> dates(0).Some? && WalkStep(C.WalkB(name, tags)) == Dates([], vers0)
    {
      var date := dates(i);
      if date.None? {
        FirstWordsNoneSticks(dates, i + 1, n);
        return Halt(Fatal);
      }
      if i == 0 {
        var w := C.WalkBLoop(name, tags);
        var step := WalkStep(w);
        if step.Halt? {
          return step;
        }
        vers0 := step.vers0;
      }
      newdate := newdate + [date.value];
      i := i + 1;
    }
    return Dates(newdate, vers0);
  }

  /** The slot loop, `buildNewSRPM` and the `builders` loop. */
  method FinishWorkB(p: PolicyB, k: PackageB, hashes: seq<string>, partial: bool) returns (out: OutcomeB)
    requires |hashes| > 0
    ensures out == FinishB(p, k, hashes, partial)
  {
    var run := SlotLoopB(k.name, k.tags, Words(k.dateOut), |hashes|);
    if run.Halt? {
      return if Terminal(run.out) then run.out else Crash;
    }
    if partial {
      return Crash;
    }
    var edits := BuildEditsB(run.vers0, run.dates, hashes, p.cuMaj, p.cuMin);
    var builders := Builders(k.latestChroots, p.enabled, p.fork);
    out := Submitted(edits, builders);
  }

  /** The main loop body once the gates have passed. */
  method AfterScreenWorkB(p: PolicyB, k: PackageB, spec: string, marked: bool, cudaBuild: int)
    returns (out: OutcomeB)
    ensures out == AfterScreenB(p, k, spec, marked, cudaBuild)
  {
    var sources, newhash, crashed := DiscoverB(SourceLookup(spec), Words(k.remote));
    if crashed || |sources| == 0 { return Crash; }
    if sources[0].hash == newhash[0] { return UpToDate; }
    if ThrottledB(p, marked, cudaBuild) { return Throttled; }
    var partial := |sources| < MaxSlots && SlotField(spec, "source", |sources|).Some?;
    out := FinishWorkB(p, k, newhash, partial);
  }

  /** The run-wide state of the main loop: the options and the CUDA build counter. */
  class RunnerB {
    const policy: PolicyB
    var cudaBuild: int

    constructor(p: PolicyB)
      ensures policy == p && cudaBuild == 0
    {
      policy := p;
      cudaBuild := 0;
    }

    /** The body of `for pkg in pkglist`. */
    method Process(k: PackageB) returns (out: OutcomeB)
      modifies this
      ensures out == DecideB(policy, k, old(cudaBuild))
      ensures cudaBuild == old(cudaBuild) + BumpB(policy, k, old(cudaBuild))
    {
      var screen := ScreenB(policy, k);
      if screen.Skip? {
        return screen.out;
      }
      out := AfterScreenWorkB(policy, k, screen.spec, screen.marked, cudaBuild);
      if out.Submitted? && screen.marked {
        cudaBuild := cudaBuild + 1;
      }
    }

    /** The whole `for pkg in pkglist` loop, up to the first outcome that ends the run. */
    method ProcessAll(pkgs: seq<PackageB>) returns (outs: seq<OutcomeB>)
      modifies this
      ensures Run(outs, cudaBuild) == RunOfB(policy, pkgs, old(cudaBuild))
    {
      outs := [];
      var i := 0;
      while i < |pkgs|
        invariant 0 <= i <= |pkgs|
        invariant RunOfB(policy, pkgs, old(cudaBuild)) == Then(outs, RunOfB(policy, pkgs[i..], cudaBuild))
      {
        ghost var before := cudaBuild;
        var out := Process(pkgs[i]);
        RunJoin(DeciderB(policy), BumperB(policy), Terminal, pkgs, old(cudaBuild), i, outs, before);
        assert DeciderB(policy)(pkgs[i], before) == out;
        assert before + BumperB(policy)(pkgs[i], before) == cudaBuild;
        outs := outs + [out];
        if Terminal(out) {
          return;
        }
        i := i + 1;
      }
      assert pkgs[i..] == [] && outs + [] == outs;
    }
  }

  // ---------------------------------------------------------------------
  // Properties

  /**
   * Slot discovery reads slots 0, 1, ... in order and stops at the first
   * one `at` does not yield: every slot found is what `at` yields for its
   * index, and below 10 slots the next index yields nothing.
   */
  lemma {:induction false} SourcesFromComplete(at: nat -> Option<Source>, i: nat)
    requires i <= MaxSlots
    ensures var s := SourcesFrom(at, i);
      (forall j :: 0 <= j < |s| ==> at(i + j) == Some(s[j])) &&
      (i + |s| < MaxSlots ==> at(i + |s|).None?)
    decreases MaxSlots - i
  {
    if i < MaxSlots && at(i).Some? {
      SourcesFromComplete(at, i + 1);
      var s := SourcesFrom(at, i);
      var rest := SourcesFrom(at, i + 1);
      assert s == [at(i).value] + rest;
      forall j | 0 <= j < |s| ensures at(i + j) == Some(s[j]) {
        if j > 0 {
          assert s[j] == rest[j - 1];
          assert i + j == (i + 1) + (j - 1);
        }
      }
    }
  }

  /** The slots found are slots `0 .. n - 1` of the spec, each complete, with `n` at most 10. */
  lemma SourcesComplete(spec: string)
    ensures |Sources(spec)| <= MaxSlots
    ensures forall j :: 0 <= j < |Sources(spec)| ==> SourceAt(spec, j) == Some(Sources(spec)[j])
  {
    var at, s := SourceLookup(spec), Sources(spec);
    SourcesFromComplete(at, 0);
    forall j | 0 <= j < |s| ensures SourceAt(spec, j) == Some(s[j]) {
      assert at(0 + j) == Some(s[j]);
    }
  }

  /** Below 10 slots, slot `n` after the last one found is missing one of its four fields. */
  lemma SourcesStop(spec: string)
    ensures |Sources(spec)| < MaxSlots ==> SourceAt(spec, |Sources(spec)|).None?
  {
    var at, s := SourceLookup(spec), Sources(spec);
    SourcesFromComplete(at, 0);
    if |s| < MaxSlots {
      assert at(0 + |s|).None?;
    }
  }

  /**
   * The age gate fires iff the filter passes, the version comes from git,
   * the latest build succeeded and fewer than `mindays` whole days passed;
   * nothing overrides it.
   */
  lemma TooFreshIffB(p: PolicyB, k: PackageB, cudaBuild: int)
    ensures DecideB(p, k, cudaBuild) == TooFresh <==>
      (!Truthy(p.only) || k.name == p.only.value) && Contains(k.version, ".git") &&
      k.state == "succeeded" && (p.now - k.submittedOn) / 86400 < p.minDays
  {
    match ScreenB(p, k)
    case Skip(o) =>
    case Proceed(spec, marked) =>
  }

  /**
   * A package is skipped as up to date iff its branch heads all resolved and
   * slot 0's new hash equals `schash0`; new heads of other slots alone never
   * trigger a build.
   */
  lemma UpToDateIffB(p: PolicyB, k: PackageB, cudaBuild: int)
    ensures DecideB(p, k, cudaBuild) == UpToDate <==>
      ScreenB(p, k).Proceed? &&
      var spec := ScreenB(p, k).spec;
      var hashes := FirstWords(Words(k.remote), |Sources(spec)|);
      hashes.Some? && |Sources(spec)| > 0 && Sources(spec)[0].hash == hashes.value[0]
  {
    match ScreenB(p, k)
    case Skip(o) =>
    case Proceed(spec, marked) =>
  }

  /** The CUDA throttle stops exactly the marked, changed packages that reach it with the counter at the limit. */
  lemma ThrottledIffB(p: PolicyB, k: PackageB, cudaBuild: int)
    ensures DecideB(p, k, cudaBuild) == Throttled <==>
      ScreenB(p, k).Proceed? &&
      var spec := ScreenB(p, k).spec;
      var hashes := FirstWords(Words(k.remote), |Sources(spec)|);
      hashes.Some? && |Sources(spec)| > 0 && Sources(spec)[0].hash != hashes.value[0] &&
      ScreenB(p, k).marked && cudaBuild >= p.cudaBuilds
  {
    match ScreenB(p, k)
    case Skip(o) =>
    case Proceed(spec, marked) =>
  }

  /** A submitted package passed every gate, changed in slot 0 and was not throttled. */
  lemma SubmittedStagesB(p: PolicyB, k: PackageB, cudaBuild: int)
    requires DecideB(p, k, cudaBuild).Submitted?
    ensures ScreenB(p, k).Proceed?
    ensures var spec := ScreenB(p, k).spec;
      var hashes := FirstWords(Words(k.remote), |Sources(spec)|);
      hashes.Some? && |Sources(spec)| > 0 && Sources(spec)[0].hash != hashes.value[0] &&
      !ThrottledB(p, ScreenB(p, k).marked, cudaBuild) && !PartialB(spec) &&
      DecideB(p, k, cudaBuild) == FinishB(p, k, hashes.value, false)
  {
    match ScreenB(p, k)
    case Skip(o) =>
    case Proceed(spec, marked) =>
  }

  /**
   * A spec whose first incomplete slot has its `source` line is never
   * submitted: once past the up-to-date check and the throttle, the run
   * ends in the slot loop or raises `IndexError` on that slot's `branch[i]`.
   */
  lemma PartialCrashesB(p: PolicyB, k: PackageB, cudaBuild: int)
    requires ScreenB(p, k).Proceed? && PartialB(ScreenB(p, k).spec)
    ensures !DecideB(p, k, cudaBuild).Submitted?
    ensures var spec := ScreenB(p, k).spec;
      var hashes := FirstWords(Words(k.remote), |Sources(spec)|);
      hashes.Some? && |Sources(spec)| > 0 && Sources(spec)[0].hash != hashes.value[0] &&
      !ThrottledB(p, ScreenB(p, k).marked, cudaBuild) &&
      SlotsB(k.name, k.tags, Words(k.dateOut), |Sources(spec)|).Dates? ==>
        DecideB(p, k, cudaBuild) == Crash
  {
    if DecideB(p, k, cudaBuild).Submitted? {
      SubmittedStagesB(p, k, cudaBuild);
    }
  }

  /**
   * The slot loop ends the run iff a commit date is missing (`exit(-1)`)
   * or slot 0's tag walk raises or never returns; slot 0's date is read
   * before the walk, later slots' dates after it.
   */
  lemma SlotsHaltB(name: string, tags: seq<string>, dates: nat -> Option<string>, n: nat)
    requires n > 0
    ensures var r, w := SlotsB(name, tags, dates, n), WalkStep(C.WalkB(name, tags));
      (r.Halt? <==> FirstWords(dates, n).None? || w.Halt?) &&
      (r == Halt(Fatal) <==> FirstWords(dates, n).None? && (dates(0).None? || !w.Halt?)) &&
      (r.Halt? && r.out != Fatal ==> r == w && r.out in {Crash, Hangs})
  {
    if dates(0).None? {
      FirstWordsNoneSticks(dates, 1, n);
    }
  }

  /**
   * No regression guard: a submitted build rewrites the Version line iff
   * the tag walk of slot 0 found a tag, and then to that tag.
   */
  lemma VersionFollowsTagB(p: PolicyB, k: PackageB, cudaBuild: int)
    requires DecideB(p, k, cudaBuild).Submitted?
    ensures var edits := DecideB(p, k, cudaBuild).edits;
      var w := C.WalkB(k.name, k.tags);
      ((exists e :: e in edits && e.prefix == "Version:") <==> w.Found?) &&
      (w.Found? ==> edits[0] == VersionEdit(w.tag))
  {
    SubmittedStagesB(p, k, cudaBuild);
    FinishVersionB(p, k, FirstWords(Words(k.remote), |Sources(ScreenB(p, k).spec)|).value);
  }

  lemma FinishVersionB(p: PolicyB, k: PackageB, hashes: seq<string>)
    requires |hashes| > 0 && FinishB(p, k, hashes, false).Submitted?
    ensures var edits := FinishB(p, k, hashes, false).edits;
      var w := C.WalkB(k.name, k.tags);
      ((exists e :: e in edits && e.prefix == "Version:") <==> w.Found?) &&
      (w.Found? ==> edits[0] == VersionEdit(w.tag))
  {
    var run := SlotsB(k.name, k.tags, Words(k.dateOut), |hashes|);
    PlanBVersion(run.vers0, run.dates, hashes, p.cuMaj, p.cuMin);
    var w := C.WalkB(k.name, k.tags);
    if w.Found? {
      C.WalkBShape(k.name, k.tags);
      assert w.tag != [];
    }
  }

  /**
   * A submitted build writes, per slot found, `pkgvers` 0, the slot's
   * commit date cut to 8 characters and its new branch head, and writes
   * nothing else on those slot lines.
   */
  lemma SubmittedSlotsB(p: PolicyB, k: PackageB, cudaBuild: int)
    requires DecideB(p, k, cudaBuild).Submitted?
    ensures ScreenB(p, k).Proceed?
    ensures var n, edits := |Sources(ScreenB(p, k).spec)|, DecideB(p, k, cudaBuild).edits;
      var hashes := FirstWords(Words(k.remote), n);
      var dates := FirstWords(Words(k.dateOut), n);
      hashes.Some? && dates.Some? &&
      forall i :: 0 <= i < n ==>
        SetGlobal("pkgvers", "0") in edits &&
        SetGlobal(SlotName("scdate", i), Take8(dates.value[i])) in edits &&
        SetGlobal(SlotName("schash", i), hashes.value[i]) in edits &&
        (forall e :: e in edits && e.prefix == GlobalPrefix(SlotName("scdate", i)) ==>
           e == SetGlobal(SlotName("scdate", i), Take8(dates.value[i]))) &&
        (forall e :: e in edits && e.prefix == GlobalPrefix(SlotName("schash", i)) ==>
           e == SetGlobal(SlotName("schash", i), hashes.value[i]))
  {
    SubmittedStagesB(p, k, cudaBuild);
    var spec := ScreenB(p, k).spec;
    var hashes := FirstWords(Words(k.remote), |Sources(spec)|).value;
    var run := SlotsB(k.name, k.tags, Words(k.dateOut), |hashes|);
    assert run.Dates?;
    forall i | 0 <= i < |hashes| {
      PlanBSlots(run.vers0, run.dates, hashes, p.cuMaj, p.cuMin, i);
    }
  }

  /** A submitted build goes to the enabled latest-build chroots and their fork renames. */
  lemma SubmittedBuildersB(p: PolicyB, k: PackageB, cudaBuild: int)
    requires DecideB(p, k, cudaBuild).Submitted?
    ensures DecideB(p, k, cudaBuild).builders == BuildersOf(k.latestChroots, k.latestChroots, p.enabled, p.fork)
  {
    SubmittedStagesB(p, k, cudaBuild);
  }

  /** What a package adds to the CUDA counter: one when it is submitted and marked. */
  function SubmittedMarkedB(p: PolicyB): (PackageB, OutcomeB) -> int
  {
    (k: PackageB, o: OutcomeB) => if o.Submitted? && MarkedB(p, k) then 1 else 0
  }

  /**
   * `cuda_build` rises by exactly one per submitted marked package; the run
   * stops right after the first outcome that ends it and nowhere else.
   */
  lemma RunCounterB(p: PolicyB, pkgs: seq<PackageB>, cudaBuild: int)
    ensures var r := RunOfB(p, pkgs, cudaBuild);
      r.counter == cudaBuild + Weighed(SubmittedMarkedB(p), pkgs, r.outs) &&
      (forall i :: 0 <= i < |r.outs| - 1 ==> !Terminal(r.outs[i])) &&
      (|r.outs| < |pkgs| ==> |r.outs| > 0 && Terminal(r.outs[|r.outs| - 1]))
  {
    RunCounter(DeciderB(p), BumperB(p), Terminal, SubmittedMarkedB(p), pkgs, cudaBuild);
  }

  /** A marked package is only submitted below the limit. */
  lemma BoundStepB(p: PolicyB, k: PackageB, cudaBuild: int)
    requires cudaBuild <= p.cudaBuilds
    ensures cudaBuild + BumpB(p, k, cudaBuild) <= p.cudaBuilds
  {
    if DecideB(p, k, cudaBuild).Submitted? {
      SubmittedStagesB(p, k, cudaBuild);
    }
  }

  /**
   * A run that starts at or below the limit never submits CUDA builds past it.
   */
  lemma ThrottleBoundB(p: PolicyB, pkgs: seq<PackageB>, cudaBuild: int)
    requires cudaBuild <= p.cudaBuilds
    ensures RunOfB(p, pkgs, cudaBuild).counter <= p.cudaBuilds
  {
    forall k: PackageB, n: int | n <= p.cudaBuilds ensures n + BumperB(p)(k, n) <= p.cudaBuilds {
      BoundStepB(p, k, n);
    }
    RunBound(DeciderB(p), BumperB(p), Terminal, p.cudaBuilds, pkgs, cudaBuild);
  }
}
