# COPR package updater: a Dafny model of the update decision

Two Python scripts keep a COPR project's packages in step with their upstream git repositories:

- `copr-pkgs-update.py`, called "A" below;
- `update-copr-pkgs.py`, called "B" below.

For every package of the project, each script:

1. reads the spec file's `%global` fields;
2. asks git for the newest hash or tag of every source slot;
3. decides whether the package must be rebuilt, and with which version;
4. plans the `sed` edits of the spec;
5. picks the chroots the build is submitted to.

A run-wide counter caps how many CUDA builds one run submits.

This project models that decision engine once every answer of git, COPR and HTTP is given as plain input. It proves what the scripts promise about it. The modules follow the scripts' structure:

- `Text` (text.dfy) holds the pieces of Python string behaviour the scripts rely on:
  - `str.split(sep)` and `str.split()[0]`;
  - `str.replace` (every occurrence, left to right);
  - the character class `[a-z,A-Z]`, which also matches `,`;
  - `re.findall('<marker>(.+)', spec)[0]`;
  - `int()` on decimal digits, and `'%i'`.
- `Tags` (tags.dfy) models `tagExtract`.
  - `Extract` is its `while True` loop as a function, and `ExtractLoop` is the loop itself.
  - `Canonical` is A's variant, with delimiting and `tagNormal`.
  - The loop does not return for inputs such as `v-`. Such inputs reduce to delimiters only and spin forever, and the model names that outcome `Spins`.
  - Termination is proved for every input holding a digit.
- `Versions` (versions.dfy) models `verMap` and Python's lexicographic tuple order.
- `Candidates` (candidates.dfy) models the version lookups in `gitCheckVersion`:
  - the bounded `describe`-then-deepen loop of A, with a success oracle per attempt;
  - the newest-to-oldest tag walks of A and B with their per-package exclusion rules.
- `Patch` (patch.dfy) models the planned edits of `buildNewSRPM` of A and B. Each edit is a line prefix and the line that replaces it.
- `Builds` (builds.dfy) models the `builders` loop, including the `--fork` expansion.
- `Runs` (runs.dfy) models the shape shared by both main loops:
  - packages are handled in list order;
  - the counter persists from one package to the next;
  - the first outcome that ends the process stops the run.
- `CoprPkgsUpdate` (decide_a.dfy) models A's main loop:
  - the gates;
  - the slot-0 identity check and the `pkgvers` revision under `--force`/`--rebuild`;
  - the CUDA throttle;
  - the slot loop with its regression guard (`exit(1)`);
  - the class `RunA`, whose `cudaBuild` field is updated once per package.
- `UpdateCoprPkgs` (decide_b.dfy) models the same for B:
  - slot discovery from the spec;
  - the slot-0 up-to-date check;
  - the throttle;
  - the slot loop;
  - the class `RunnerB`.

Every way the scripts end the process is an outcome value:

- Python raising (`IndexError`, `ValueError` from `int()`) is `Crash`;
- `exit(-1)` is `Fatal`;
- A's `exit(1)` on a decreasing version is `Regressing`;
- a `tagExtract` that never returns is `Hangs`.

The clock (`int(time.time())`), the command-line options and the project's enabled chroots are fields of a policy record.

Two details of the code shape the model:

- **`tagNormal` is not idempotent.** It trims at most one dot from each end (copr-pkgs-update.py:117-123), so `..1..` gives `.1.`, and canonicalising `.1.` again gives `1` (`Tags.DoubleDotExample`).
- **Digit-free segments.** `v.replace(t, '')` deletes every occurrence of the first digit-free segment, not only the first one (copr-pkgs-update.py:136).

## Model

| member | source | states |
|---|---|---|
| Text.FirstLetterClass | copr-pkgs-update.py:138-141 | the sub-delimiter `m[0]` is a character of the segment that `[a-z,A-Z]` matches and is not a digit |
| Text.FirstLetterClassAt | copr-pkgs-update.py:138-141 | `m[0]` is the first character of the segment matched by `[a-z,A-Z]`: if `s[k]` matches and nothing before it does, it is `s[k]` |
| Text.Split | copr-pkgs-update.py:131 | `str.split(d)` always yields at least one piece |
| Text.SplitNoSeparator | copr-pkgs-update.py:131 | splitting a string without the separator yields that string alone |
| Text.SplitAtSeparator | copr-pkgs-update.py:131 | splitting `x + d + y` with `d` not in `x` yields `x` followed by the pieces of `y` |
| Text.SplitHasSecond | copr-pkgs-update.py:368 | `split(d)[1]` exists exactly when `d` occurs in the string, so the `IndexError` of the unversioned test happens iff there is no `-` |
| Text.Run | copr-pkgs-update.py:131 | the run before the first separator is a separator-free prefix, ended by the separator or the end of the string |
| Text.SplitHeadIsRun | copr-pkgs-update.py:131 | the first piece of `split(d)` is the run before the first separator |
| Text.FirstSegment | copr-pkgs-update.py:131-133 | the first non-empty piece is separator-free, occurs in the string, invents no character, is the whole string when the separator is absent, and is empty exactly when the string is made only of separators |
| Text.FirstSegmentOfSplit | copr-pkgs-update.py:131-133 | the first non-empty piece of the list `split(d)` is the piece `FirstSegment` names |
| Text.InsertEverywhere | copr-pkgs-update.py:573 | `s.replace('', rep)` starts with `rep` (its whole shape is in `InsertEverywhereLength` and `InsertEverywhereAt`) |
| Text.InsertEverywhereLength | copr-pkgs-update.py:573 | `s.replace('', rep)` is one more copy of `rep` than `s` has characters, placed around them: its length is `n * (m + 1) + m` for `n` characters and `m` characters of `rep`, and it ends with `rep` |
| Text.InsertEverywhereAt | copr-pkgs-update.py:573 | in `s.replace('', rep)` the `k`-th character of `s` sits right after the `k`-th copy of `rep`, at offset `k * (m + 1) + m` for a `rep` of `m` characters |
| Text.RemoveAllFacts | copr-pkgs-update.py:136 | deleting every occurrence of a non-empty piece never lengthens the string, shortens it when the piece occurs, keeps every character outside the piece and invents none |
| Text.ReplaceAllShowsReplacement | copr-pkgs-update.py:573 | after `chroot.replace(fork_from, fork_into)` of an occurring `fork_from`, the result contains `fork_into` |
| Text.FindFrom | copr-pkgs-update.py:392 | the search for the marker finds its first match at or after `i` (a marker followed by a non-newline character), or proves there is none |
| Text.TakeLine | copr-pkgs-update.py:392 | `(.+)` captures a newline-free prefix ending at a newline or at the end of the text |
| Text.FindFieldSpec | copr-pkgs-update.py:392-414 | `re.findall('<marker>(.+)', spec)[0]` is absent iff the marker never matches; otherwise it is the non-empty, newline-free rest of the line after the first match |
| Text.Word | copr-pkgs-update.py:406 | the word read is a whitespace-free prefix |
| Text.FirstWord | copr-pkgs-update.py:406 | `str.split()[0]` raises iff the string is all whitespace; otherwise it is a non-empty whitespace-free word of the string |
| Text.DigitChar | copr-pkgs-update.py:300 | the digit printed for `n < 10` is a digit whose value is `n` |
| Text.NatToString | copr-pkgs-update.py:300 | `'%i' % pkgver` of a natural number is a non-empty string of digits |
| Text.ParsePrinted | copr-pkgs-update.py:407 | `int()` of the printed `pkgvers` gives the number back |
| Text.NatToStringInjective | copr-pkgs-update.py:300 | two revisions printing the same text are equal |
| Tags.Extract | copr-pkgs-update.py:128-142 | the loop never spins on input holding a digit; a tag holds a digit, only characters of the input and nothing `[a-z,A-Z]` matches; it holds no `-` when `-` is the delimiter or the input has none |
| Tags.ExtractLoop | copr-pkgs-update.py:128-142 | the `while True` loop rebinding `v` and `d` yields `Extract` of its input: the script's answer, or `Spins` where the script loops forever |
| Tags.DropStep | copr-pkgs-update.py:133-136 | a pass whose first piece has no digit strictly shortens `v` and leaves the loop's answer unchanged |
| Tags.MixedStep | copr-pkgs-update.py:138-141 | a pass whose first piece mixes digits and letters continues inside that piece, with its first letter as delimiter |
| Tags.FinalStep | copr-pkgs-update.py:142 | a pass whose first piece has digits and no letter answers that piece |
| Tags.TagNormal | copr-pkgs-update.py:117-123 | trimming keeps a digit and invents nothing, removes at most one character from each end, leaves dot-free ends alone, and leaves a dot at an end only when that end held two |
| Tags.DelimitClears | copr-pkgs-update.py:126 | after `re.sub('[+,_]', '.', v)` no `+`, `,` or `_` is left, the only character brought in is `.`, nothing moves, a non-dot character is kept iff it is none of the three, and a string free of them is unchanged |
| Tags.TagExtract | copr-pkgs-update.py:115-144 | the imperative `tagExtract` of A computes `Canonical` of its input |
| Tags.CanonicalShape | copr-pkgs-update.py:115-144 | a tag A extracts holds a digit and no ASCII letter, `-`, `+`, `,` or `_`, and each of its characters is in the raw tag or is `.` |
| Tags.DelimitedShape | copr-pkgs-update.py:126-142 | after delimiting, the extracted tag holds no ASCII letter, `-`, `+`, `,` or `_`, and each of its characters is in the raw tag or is `.` |
| Tags.PlainShape | update-copr-pkgs.py:99-117 | a tag B's `tagExtract` returns holds a digit and no ASCII letter, `,` or `-` |
| Tags.DigitTerminates | copr-pkgs-update.py:128-142 | neither variant spins on input holding a digit |
| Tags.DashSuffixSpins | update-copr-pkgs.py:101-117 | `tagExtract("v-")` never returns |
| Tags.ReleaseCandidateExample | copr-pkgs-update.py:115-144 | `v2.14.0_rc1` canonicalises to `2.14.0` |
| Tags.ExampleNormal | copr-pkgs-update.py:117-123 | `tagNormal` of `2.14.0.` is `2.14.0` |
| Tags.ExampleDelimit | copr-pkgs-update.py:126 | `v2.14.0_rc1` delimits to `v2.14.0.rc1` |
| Tags.ExamplePassOne | copr-pkgs-update.py:131-141 | the first pass over `v2.14.0.rc1` continues inside it with delimiter `v` |
| Tags.ExamplePassTwo | copr-pkgs-update.py:131-141 | the second pass continues inside `2.14.0.rc1` with delimiter `r` |
| Tags.ExampleSecondPiece | copr-pkgs-update.py:131-133 | the first non-empty piece of `v2.14.0.rc1` split on `v` is `2.14.0.rc1` |
| Tags.ExampleSecondDelimiter | copr-pkgs-update.py:138-141 | the first letter of `2.14.0.rc1` is `r` |
| Tags.ExamplePassThree | copr-pkgs-update.py:131-142 | the third pass answers `2.14.0.` |
| Tags.DoubleDotExample | copr-pkgs-update.py:117-123 | `..1..` canonicalises to `.1.`, which canonicalises to `1`: canonicalising is not idempotent |
| Tags.DotWrapped | copr-pkgs-update.py:115-144 | a digits-and-dots tag wrapped in one dot on each side canonicalises to the tag itself |
| Tags.DigitsAndDots | copr-pkgs-update.py:126-142 | a string of digits and dots holding a digit is left alone by delimiting and by every extraction pass |
| Tags.DelimitKeeps | copr-pkgs-update.py:126 | delimiting leaves a string of digits and dots unchanged |
| Tags.ExtractKeeps | copr-pkgs-update.py:128-142 | the loop answers a digits-and-dots string holding a digit with itself, for any non-digit, non-dot delimiter |
| Versions.ParseAll | copr-pkgs-update.py:113 | `map(int, parts)` succeeds with one number per part, each that part's value, or fails because some part is not a number |
| Versions.VerMap | copr-pkgs-update.py:111-113 | the empty version maps to the empty tuple; any other maps to one number per `.`-component |
| Versions.PrefixIsLess | copr-pkgs-update.py:533 | a proper prefix of a tuple compares less than the tuple |
| Versions.LessIrreflexive | copr-pkgs-update.py:533 | no tuple is less than itself |
| Versions.LessAsymmetric | copr-pkgs-update.py:533 | `a < b` excludes `b < a` |
| Versions.LessTransitive | copr-pkgs-update.py:533 | tuple order is transitive |
| Versions.LessTotal | copr-pkgs-update.py:533 | distinct tuples are ordered one way or the other |
| Versions.Compare | copr-pkgs-update.py:533-548 | the three-way comparison says equal exactly when the tuples are equal |
| Versions.NeitherLess | copr-pkgs-update.py:533-548 | tuples where neither is less than the other are equal |
| Versions.CompareFlips | copr-pkgs-update.py:533-548 | `a` is greater than `b` exactly when `b` is less than `a`, and every tuple equals itself |
| Versions.TwoComponents | copr-pkgs-update.py:111-113 | `x.y` for digit strings `x`, `y` maps to the pair of their values |
| Versions.SplitTwo | copr-pkgs-update.py:113 | `"x.y".split('.')` for dot-free `x`, `y` is `[x, y]` |
| Versions.ParseCons | copr-pkgs-update.py:113 | parsing a number in front of parsable parts puts its value in front |
| Versions.VerMapExamples | copr-pkgs-update.py:111-113 | `1.0` and `1.00` both map to `(1, 0)` |
| Versions.TupleOrderExamples | copr-pkgs-update.py:533 | `(1, 2) < (1, 2, 1)` and `(2, 2, 9) < (2, 3, 0)` |
| Candidates.NewestSpec | copr-pkgs-update.py:249-266 | the walk finds nothing iff every tag yields nothing; otherwise its result is some tag's outcome, and every newer tag yields nothing |
| Candidates.NewestStep | copr-pkgs-update.py:249-266 | one more (newer) tag either yields nothing and hands over to the older tags, or decides the walk |
| Candidates.FirstSuccess | copr-pkgs-update.py:226-239 | the first successful `describe` attempt from `k` on, every earlier attempt having failed, or `maxcount` when none succeeds |
| Candidates.LogVersion | copr-pkgs-update.py:236-238 | `tagExtract(entry[0])` crashes iff the output has no word, and a found version is the canonical tag of the first word |
| Candidates.Describe | copr-pkgs-update.py:226-239 | at most 16 `describe` runs; every deepen follows a failure; 16 failures leave `logvers` None; otherwise `logvers` comes from the first success, after exactly as many runs |
| Candidates.DescribeLoop | copr-pkgs-update.py:226-239 | the `maxcount` loop returns `Describe`'s `logvers` and its counts of runs and deepens |
| Candidates.Below | copr-pkgs-update.py:257-261 | `int(s) < bound` raises iff `s` is not a non-empty digit string; otherwise it tells whether the value is below the bound |
| Candidates.DropLetterClass | copr-pkgs-update.py:261 | `re.sub('[a-z,A-Z]', '', s)` keeps exactly the characters outside the class |
| Candidates.FilterA | copr-pkgs-update.py:251-262 | `gklib` and `nextpnr` skip every tag; a tag tried is a prefix of the tag, and the whole tag unless the package is `xbyak` |
| Candidates.TagOutcomeA | copr-pkgs-update.py:251-266 | a found or hanging outcome belongs to a tag the blacklist let through, with the canonical form of what it tried |
| Candidates.TagStepA | copr-pkgs-update.py:251-266 | one pass of A's walk computes that tag's outcome |
| Candidates.WalkALoop | copr-pkgs-update.py:249-266 | the imperative walk over `reversed(results)` computes `WalkA` |
| Candidates.WalkANewest | copr-pkgs-update.py:249-266 | A's walk finds nothing iff no tag yields anything; a found version is the canonical form of a tag the blacklist let through, and every newer tag yields nothing |
| Candidates.WalkASkipsAll | copr-pkgs-update.py:252-253 | `gklib` and `nextpnr` never take a version from their tags |
| Candidates.WalkAShape | copr-pkgs-update.py:249-266 | a tag version A finds holds a digit and no ASCII letter, `-`, `+`, `,` or `_` |
| Candidates.WalkANoHang | copr-pkgs-update.py:249-266 | when every tag holds a digit (and the package is not `xbyak`), A's walk does not hang |
| Candidates.TrimLastDot | update-copr-pkgs.py:190-191 | the result is `t` or `t` short of its last character, and it ends in `.` only when `t` ended in `..` |
| Candidates.CommitVers | update-copr-pkgs.py:182-193 | delimiting, extracting and trimming never crash, and a found version holds a digit |
| Candidates.TagOutcomeB | update-copr-pkgs.py:171-196 | B's per-tag outcome never crashes, and any answer comes from a tag the blacklist let through |
| Candidates.TagStepB | update-copr-pkgs.py:171-196 | one pass of B's walk computes that tag's outcome |
| Candidates.WalkBLoop | update-copr-pkgs.py:169-196 | the imperative walk over `reversed(results)` computes `WalkB` |
| Candidates.WalkBNewest | update-copr-pkgs.py:169-196 | B's walk finds nothing iff no tag yields anything; otherwise the result is `commitvers` of a tag the blacklist let through, and every newer tag yields nothing |
| Candidates.WalkBSkipsAll | update-copr-pkgs.py:172-173 | `gcc` and `gklib` never take a version from their tags |
| Candidates.WalkBShape | update-copr-pkgs.py:182-193 | a `commitvers` B's walk finds holds a digit and no ASCII letter, `-`, `+`, `,` or `_` |
| Candidates.CommitVersShape | update-copr-pkgs.py:182-193 | `commitvers` of one tag holds no ASCII letter, `-`, `+`, `,` or `_` |
| Candidates.WalkBNoHang | update-copr-pkgs.py:169-196 | when every tag holds a digit, B's walk does not hang |
| Builds.EnabledOnly | copr-pkgs-update.py:568-570 | exactly the chroots that are in both the latest build and the project |
| Builds.Builders | copr-pkgs-update.py:567-576 | the `builders` loop computes `BuildersOf` of the latest build's chroots |
| Builds.TargetsComeFromEnabled | copr-pkgs-update.py:567-576 | every target is an enabled latest-build chroot or the fork rename of one the fork applies to |
| Builds.InactiveNeverBuilt | copr-pkgs-update.py:575-576 | a latest-build chroot the project does not enable is never a target |
| Builds.EnabledAlwaysBuilt | copr-pkgs-update.py:569-570 | every enabled latest-build chroot is a target |
| Builds.NoForkIsFilter | copr-pkgs-update.py:571-572 | without `--fork`, or when some latest-build chroot already contains `fork_into`, the targets are exactly the enabled chroots in order |
| Builds.ForkFollows | copr-pkgs-update.py:571-573 | an enabled chroot the fork applies to is followed at once by its renamed copy |
| Patch.SetGlobal | copr-pkgs-update.py:300 | the edit of `%global <name>` addresses the lines starting with `%global <name>` |
| Patch.Take8 | copr-pkgs-update.py:303 | `s[0:8]` is a prefix of `s` of length `min(8, len(s))` |
| Patch.EscapeSlash | copr-pkgs-update.py:311 | escaping never shortens a tag and leaves a slash-free tag unchanged |
| Patch.EscapeRoundTrip | copr-pkgs-update.py:311 | what sed writes for the escaped tag is the tag itself |
| Patch.PresentEdits | copr-pkgs-update.py:305-311 | every edit sets `<field>{j}` to the value of a slot `j` whose value is truthy |
| Patch.Escaped | copr-pkgs-update.py:309-311 | escaping keeps which slots have a truthy tag, and sed turns each escaped tag back into the tag itself |
| Patch.DateLoop | copr-pkgs-update.py:302-303 | the `scdate` loop computes `DateEdits` |
| Patch.HashLoop | copr-pkgs-update.py:305-307 | the `schash` loop computes the hash edits |
| Patch.TagLoop | copr-pkgs-update.py:309-311 | the `sctags` loop computes the escaped tag edits |
| Patch.BuildEditsA | copr-pkgs-update.py:297-317 | A's `buildNewSRPM` issues the edit plan `PlanA`, in order |
| Patch.SlotEditsB | update-copr-pkgs.py:212-215 | three edits per slot |
| Patch.SlotEditsBAt | update-copr-pkgs.py:212-215 | slot `i`'s three edits are `pkgvers` to 0, `scdate{i}` to the date's first 8 characters, `schash{i}` to the new hash |
| Patch.InSlotEditsB | update-copr-pkgs.py:212-215 | every slot edit is the `pkgvers` reset or addresses a `scdate` or `schash` line |
| Patch.SlotEditOfB | update-copr-pkgs.py:212-215 | a slot-loop edit of a `scdate` (`schash`) line is the date (hash) edit of one slot `j`, with that slot's value |
| Patch.SlotLoopB | update-copr-pkgs.py:212-215 | B's slot loop computes `SlotEditsB` |
| Patch.BuildEditsB | update-copr-pkgs.py:209-221 | B's `buildNewSRPM` issues the edit plan `PlanB`, in order |
| Patch.SetGlobalUnder | copr-pkgs-update.py:300-317 | the edit of `%global <name>` addresses `<field>` lines when `<field>` is a prefix of `<name>` |
| Patch.UnderAt | copr-pkgs-update.py:300-317 | an edit under `<field>` has `<field>`'s characters right after `%global ` |
| Patch.Exclusive | copr-pkgs-update.py:300-317 | no edit addresses two fields that differ at a common position |
| Patch.VersionNotUnder | copr-pkgs-update.py:297-298 | the `Version:` edit addresses no `%global` line |
| Patch.VersionLineUnderNothing | copr-pkgs-update.py:297-298 | an edit of the `Version:` line is under no `%global` field |
| Patch.ExactlyUnder | copr-pkgs-update.py:300 | an edit of `%global <name>` is under `<name>` |
| Patch.SlotPrefixIff | copr-pkgs-update.py:302-311 | the line prefixes of `<field>{i}` and `<field>{j}` agree iff `i == j` |
| Patch.DateEditsUnder | copr-pkgs-update.py:302-303 | every date edit addresses a `scdate` line |
| Patch.PresentEditsUnder | copr-pkgs-update.py:305-311 | every hash or tag edit addresses a line of its own field |
| Patch.PresentEditsOfSlot | copr-pkgs-update.py:305-311 | slot `i`'s line is edited iff its value is truthy, and then to that value |
| Patch.PresentContains | copr-pkgs-update.py:305-311 | a truthy value of slot `i` is written to `<field>{i}` |
| Patch.InPlanA | copr-pkgs-update.py:297-317 | every edit of A's plan is the `Version:` edit for a truthy `newvers[0]`, the `pkgvers` edit, or a date, hash, tag or CUDA edit under its own field |
| Patch.PlanAVersion | copr-pkgs-update.py:297-298 | A's plan touches `Version:` iff `newvers[0]` is truthy, and then first, to that version |
| Patch.PlanAPkgvers | copr-pkgs-update.py:300 | A's plan always sets `pkgvers`, and only to the printed revision, which parses back to the revision |
| Patch.PlanADate | copr-pkgs-update.py:302-303 | A's plan sets `scdate{i}` of every slot, and only to the first 8 characters of that slot's date |
| Patch.PlanAHash | copr-pkgs-update.py:305-307 | A's plan touches `schash{i}` iff slot `i`'s new hash is truthy, and then sets it to that hash |
| Patch.PlanATag | copr-pkgs-update.py:309-311 | A's plan touches `sctags{i}` iff slot `i`'s new tag is truthy, and then sets it to the escaped tag, which sed writes as the tag itself |
| Patch.PlanACuda | copr-pkgs-update.py:313-317 | A's plan touches `vcu_maj` iff the major CUDA option is given, and `vcu_min` iff the minor one is |
| Patch.SlotFieldsApart | copr-pkgs-update.py:302-317 | a `scdate`, `schash` or `sctags` edit addresses no other field and is not the `Version:` edit |
| Patch.OtherFieldsApart | copr-pkgs-update.py:300-317 | a `pkgvers`, `vcu_maj` or `vcu_min` edit addresses no other field and is not the `Version:` edit |
| Patch.InPlanB | update-copr-pkgs.py:209-221 | every edit of B's plan is the `Version:` edit for a truthy `newvers[0]`, the `pkgvers` reset, a slot-loop edit of a `scdate` or `schash` line, or a CUDA edit under its own field |
| Patch.PlanBVersion | update-copr-pkgs.py:209-210 | B's plan touches `Version:` iff `newvers[0]` is truthy, and then first, to that version |
| Patch.PlanBSlots | update-copr-pkgs.py:212-215 | B's plan resets `pkgvers` to 0 and writes `scdate{i}` (first 8 characters of the new date) and `schash{i}` (the new head) for every slot, and no other value on those lines |
| Patch.PlanBPkgversZero | update-copr-pkgs.py:213 | every `pkgvers` edit of B's plan sets it to 0 |
| Patch.PlanBCuda | update-copr-pkgs.py:217-221 | B's plan touches `vcu_maj` (`vcu_min`) iff the option is given and not 0 |
| Runs.RunWith | copr-pkgs-update.py:352-583 | a run has at most one outcome per package |
| Runs.RunJoin | copr-pkgs-update.py:354-583 | one more package appends its outcome and counter bump, and the run stops there iff that outcome ends it |
| Runs.RunCounter | copr-pkgs-update.py:352-583 | the final counter is the start plus what every outcome adds; no outcome before the last ends the run; a run shorter than the list ends on an outcome that ends it |
| Runs.RunBound | copr-pkgs-update.py:499-583 | when no package can take the counter past a limit, neither can the run |
| CoprPkgsUpdate.Stamp | copr-pkgs-update.py:368 | `version.split('-')[1]` exists iff the version holds a `-` |
| CoprPkgsUpdate.ScreenA | copr-pkgs-update.py:356-414 | a package passing the gates has a spec and a finished build; a skipped one gets a gate's outcome; it is skipped as too fresh iff it passes the earlier gates, is younger than `mindays` whole days, and neither `--force` nor `--rebuild` is given |
| CoprPkgsUpdate.GitCheckA | copr-pkgs-update.py:199-270 | `gitCheckVersion` either hands back its candidates and date or ends the run |
| CoprPkgsUpdate.TagCheckA | copr-pkgs-update.py:522-524 | an earlier abort stands, and the tag lookup can only add a hang |
| CoprPkgsUpdate.SlotCheckA | copr-pkgs-update.py:520-524 | a slot's lookups either hand back candidates or end the run |
| CoprPkgsUpdate.SlotStepA | copr-pkgs-update.py:513-555 | a slot stops the run only with a terminal outcome, and sets `newvers[i]` only for slot 0 with a recorded version, to the choice's advanced version; when it stops is `SlotStopsA` |
| CoprPkgsUpdate.SlotStopsA | copr-pkgs-update.py:513-555 | a slot with neither new hash nor new tag exits with -1; a slot stops the run iff that, or a lookup aborts, or slot 0's choice regresses or cannot compare; "version decreasing" comes only from a regressing choice |
| CoprPkgsUpdate.Collect | copr-pkgs-update.py:513-561 | when no step stops, one date and version per step, in order; otherwise the halt is some step's stop |
| CoprPkgsUpdate.SlotsOf | copr-pkgs-update.py:513-561 | the slot loop yields each slot's date and version in order, or halts with a terminal outcome |
| CoprPkgsUpdate.HaltSticks | copr-pkgs-update.py:513-561 | once the slot loop has halted, later slots do not change its result |
| CoprPkgsUpdate.CollectOneMore | copr-pkgs-update.py:513-561 | one more slot either halts the loop with its outcome or appends its date and version |
| CoprPkgsUpdate.SlotLoopA | copr-pkgs-update.py:513-561 | the imperative slot loop returns `SlotsOf`'s halt, or its dates and versions |
| CoprPkgsUpdate.GitCheckWorkA | copr-pkgs-update.py:199-270 | the imperative `gitCheckVersion` computes `GitCheckA` |
| CoprPkgsUpdate.SlotCheckWorkA | copr-pkgs-update.py:520-524 | the imperative lookups of one slot compute `SlotCheckA` |
| CoprPkgsUpdate.SlotWorkA | copr-pkgs-update.py:515-555 | the imperative loop body computes `SlotStepA` |
| CoprPkgsUpdate.FinishA | copr-pkgs-update.py:513-580 | after the gates, the slot loop ends in a submission or a terminal outcome |
| CoprPkgsUpdate.FinishWorkA | copr-pkgs-update.py:513-580 | the imperative slot loop, edit plan and builders loop compute `FinishA` |
| CoprPkgsUpdate.ReviseA | copr-pkgs-update.py:487-497 | the imperative revision update computes `Revision` |
| CoprPkgsUpdate.AfterScreenA | copr-pkgs-update.py:483-580 | skipped as up to date iff the fetch succeeded, slot 0 is current and neither flag is given; throttled iff a revision exists and the throttle applies; a submission comes only from `FinishA` with the new revision |
| CoprPkgsUpdate.AfterScreenWorkA | copr-pkgs-update.py:483-580 | the imperative loop body after the gates computes `AfterScreenA` |
| CoprPkgsUpdate.Bump | copr-pkgs-update.py:583 | a package adds at most 1 to `cuda_build` |
| CoprPkgsUpdate.RunA.constructor | copr-pkgs-update.py:352 | the run starts with `cuda_build = 0` |
| CoprPkgsUpdate.RunA.Process | copr-pkgs-update.py:354-583 | one package's outcome is `DecideA` at the current counter, and the counter rises by exactly `Bump` |
| CoprPkgsUpdate.RunA.ProcessAll | copr-pkgs-update.py:352-583 | the outcomes and final counter of the `for pkg in pkglist` loop are the run `RunOf` |
| CoprPkgsUpdate.AdvanceIff | copr-pkgs-update.py:533-540 | `newvers[0]` becomes `v` iff `logvers` is `v` and greater than the recorded version, or `logvers` is not greater and `tagvers` is `v` and greater |
| CoprPkgsUpdate.AdvanceRises | copr-pkgs-update.py:533-540 | an advanced version is strictly greater than the recorded one |
| CoprPkgsUpdate.TagFallback | copr-pkgs-update.py:537-540 | a smaller `logvers` with a greater `tagvers` still advances, via the tag |
| CoprPkgsUpdate.RegressIff | copr-pkgs-update.py:533-555 | `exit(1)` happens iff no candidate is greater, neither equals the recorded version as text, and some present candidate is strictly smaller |
| CoprPkgsUpdate.RecordedNeverRegresses | copr-pkgs-update.py:542 | a `logvers` equal to the recorded version never aborts, and then only a greater `tagvers` can advance |
| CoprPkgsUpdate.OverridesA | copr-pkgs-update.py:381 | with `--force` or `--rebuild` a package is never too fresh, up to date or throttled |
| CoprPkgsUpdate.TooFreshIffA | copr-pkgs-update.py:377-383 | a package is skipped as too fresh iff it passes the earlier gates, is younger than `mindays` floor-divided days, and no override is given |
| CoprPkgsUpdate.UpToDateIffA | copr-pkgs-update.py:487-495 | skipped as up to date iff it passes the gates, the fetch succeeded, slot 0's new hash or tag equals the recorded one, and neither flag is given |
| CoprPkgsUpdate.RevisionReadsSlotZero | copr-pkgs-update.py:487-497 | slots after slot 0 never change the revision decision |
| CoprPkgsUpdate.ThrottledIffA | copr-pkgs-update.py:499-503 | throttled iff it reaches the throttle, neither flag is given, it carries a CUDA marker, `cudabuilds != -1` and `cuda_build >= cudabuilds` |
| CoprPkgsUpdate.SubmittedStagesA | copr-pkgs-update.py:483-564 | a submitted package passed every gate and fetch, got a revision, was not throttled, and its submission is `FinishA` |
| CoprPkgsUpdate.SubmittedRevisionA | copr-pkgs-update.py:487-497 | a submission sets `pkgvers` to 0 when slot 0 changed, else to the old value plus 1 under `--rebuild` or the old value under `--force`, and to nothing else |
| CoprPkgsUpdate.PlanAVersionOnlyFirst | copr-pkgs-update.py:297-298 | a `Version:` edit in A's plan is the edit for a truthy `newvers[0]` |
| CoprPkgsUpdate.VersionOnlyRisesA | copr-pkgs-update.py:529-555 | a submitted `Version:` edit only raises the recorded version, in `verMap` order |
| CoprPkgsUpdate.SubmittedBuildersA | copr-pkgs-update.py:567-576 | a submission goes to the enabled latest-build chroots with their fork renames |
| CoprPkgsUpdate.RunCounterA | copr-pkgs-update.py:583 | `cuda_build` rises by exactly one per submitted marked package, forced ones included, and the run stops only at its first terminal outcome |
| CoprPkgsUpdate.BoundStepA | copr-pkgs-update.py:499-503 | without an override and with a limit, no package takes the counter past `cudabuilds` |
| CoprPkgsUpdate.ThrottleBoundA | copr-pkgs-update.py:499-503 | without an override and with a limit, a whole run never submits more marked packages than `cudabuilds` |
| UpdateCoprPkgs.ScreenB | update-copr-pkgs.py:260-314 | a package passing the gates has a non-empty spec; a skipped one gets a gate's outcome; it is too fresh iff it passes the earlier gates and is younger than `mindays` days, with no override |
| UpdateCoprPkgs.SourcesFrom | update-copr-pkgs.py:326-335 | discovery reads at most the 10 slots `range(10)` allows |
| UpdateCoprPkgs.SourcesFromPrefix | update-copr-pkgs.py:326-335 | complete slots found from `i` on, ended by a missing slot or the 10th, are exactly what discovery returns |
| UpdateCoprPkgs.SourcesFromComplete | update-copr-pkgs.py:326-335 | every slot discovery returns is complete, and the slot after the last one is missing below 10 |
| UpdateCoprPkgs.SourcesComplete | update-copr-pkgs.py:326-335 | the slots found are the spec's slots `0 .. n-1`, each complete, with `n` at most 10 |
| UpdateCoprPkgs.SourcesStop | update-copr-pkgs.py:326-335 | below 10 slots, slot `n` after the last one found is missing one of its four fields |
| UpdateCoprPkgs.FirstWords | update-copr-pkgs.py:340 | reading `n` words gives `n` words when it succeeds |
| UpdateCoprPkgs.FirstWordsNoneSticks | update-copr-pkgs.py:340 | a missing word stays missing when more slots are read |
| UpdateCoprPkgs.FirstWordsSpec | update-copr-pkgs.py:340 | the words read are each slot's word in order, and reading fails iff some slot has none |
| UpdateCoprPkgs.DiscoverB | update-copr-pkgs.py:326-340 | the discovery loop crashes iff some found slot has no upstream hash; otherwise it returns the spec's slots and one hash each |
| UpdateCoprPkgs.SlotsB | update-copr-pkgs.py:356-369 | the slot loop's dates are each slot's commit-date word, and `newvers[0]` is the settled tag walk of slot 0; when it halts is `SlotsHaltB` |
| UpdateCoprPkgs.SlotLoopB | update-copr-pkgs.py:356-369 | the imperative slot loop computes `SlotsB` |
| UpdateCoprPkgs.FinishB | update-copr-pkgs.py:356-387 | the slot loop ends in a submission or a terminal outcome; with a partial slot after the complete ones it never submits |
| UpdateCoprPkgs.FinishWorkB | update-copr-pkgs.py:356-387 | the imperative slot loop, edit plan and builders loop compute `FinishB` |
| UpdateCoprPkgs.AfterScreenB | update-copr-pkgs.py:326-387 | up to date iff all hashes are read and slot 0's equals `schash0`; throttled iff slot 0 changed and the throttle applies; otherwise `FinishB`, told whether a partial slot follows the complete ones, or a crash |
| UpdateCoprPkgs.AfterScreenWorkB | update-copr-pkgs.py:342-387 | the imperative loop body after the gates computes `AfterScreenB` |
| UpdateCoprPkgs.BumpB | update-copr-pkgs.py:390 | a package adds at most 1 to `cuda_build` |
| UpdateCoprPkgs.RunnerB.constructor | update-copr-pkgs.py:256 | the run starts with `cuda_build = 0` |
| UpdateCoprPkgs.RunnerB.Process | update-copr-pkgs.py:258-390 | one package's outcome is `DecideB` at the current counter, and the counter rises by exactly `BumpB` |
| UpdateCoprPkgs.RunnerB.ProcessAll | update-copr-pkgs.py:256-390 | the outcomes and final counter of the `for pkg in pkglist` loop are the run `RunOfB` |
| UpdateCoprPkgs.TooFreshIffB | update-copr-pkgs.py:280-286 | a package is skipped as too fresh iff it passes the earlier gates and is younger than `mindays` floor-divided days |
| UpdateCoprPkgs.UpToDateIffB | update-copr-pkgs.py:342-345 | skipped as up to date iff it passes the gates, every slot's hash is read, and slot 0's new hash equals `schash0`; other slots play no part |
| UpdateCoprPkgs.ThrottledIffB | update-copr-pkgs.py:349-353 | throttled iff slot 0 changed, the package carries a CUDA marker and `cuda_build >= cudabuilds` |
| UpdateCoprPkgs.SubmittedStagesB | update-copr-pkgs.py:326-372 | a submitted package passed every gate, slot 0 changed, it was not throttled, no partial slot follows the complete ones, and its submission is `FinishB` |
| UpdateCoprPkgs.PartialCrashesB | update-copr-pkgs.py:328-359 | a spec whose first incomplete slot has its `source` line is never submitted; past the up-to-date check and the throttle, a slot loop that does not halt ends in a crash on `branch[i]` |
| UpdateCoprPkgs.SlotsHaltB | update-copr-pkgs.py:141-200 | the slot loop ends the run iff a commit date is missing or slot 0's tag walk halts; a missing date gives `exit(-1)` unless the walk halted first, and any other halt is the walk's crash or hang |
| UpdateCoprPkgs.VersionFollowsTagB | update-copr-pkgs.py:359-361 | a submission touches `Version:` iff slot 0's tag walk found a version, and then first, to that version, with no regression guard |
| UpdateCoprPkgs.FinishVersionB | update-copr-pkgs.py:209-210 | the edit plan behind a submission touches `Version:` iff the tag walk found a version, and then first, to that version |
| UpdateCoprPkgs.SubmittedSlotsB | update-copr-pkgs.py:212-215 | a submission resets `pkgvers` to 0 and writes every slot's date prefix and new hash, and no other value on those slot lines |
| UpdateCoprPkgs.SubmittedBuildersB | update-copr-pkgs.py:374-383 | a submission goes to the enabled latest-build chroots with their fork renames |
| UpdateCoprPkgs.RunCounterB | update-copr-pkgs.py:390 | `cuda_build` rises by exactly one per submitted marked package, and the run stops only at its first terminal outcome |
| UpdateCoprPkgs.BoundStepB | update-copr-pkgs.py:349-353 | no package takes the counter past `cudabuilds` |
| UpdateCoprPkgs.ThrottleBoundB | update-copr-pkgs.py:349-353 | a whole run never submits more marked packages than `cudabuilds` |

## Definitions

These functions model script behaviour directly and carry no contract of their own. The members named beside each state what they do.

| definition | source | stated by |
|---|---|---|
| Text.ReplaceAll | copr-pkgs-update.py:136 | Text.RemoveAllFacts, Text.ReplaceAllShowsReplacement, Text.InsertEverywhereLength, Text.InsertEverywhereAt |
| Text.FindField | copr-pkgs-update.py:392-414 | Text.FindFieldSpec |
| Text.ParseDecimal | copr-pkgs-update.py:407 | Text.ParsePrinted |
| Versions.TupleLess | copr-pkgs-update.py:533-548 | Versions.PrefixIsLess, Versions.LessIrreflexive, Versions.LessAsymmetric, Versions.LessTransitive, Versions.LessTotal, Versions.Compare |
| Candidates.Newest | copr-pkgs-update.py:249-266 | Candidates.NewestSpec, Candidates.NewestStep |
| Candidates.WalkA | copr-pkgs-update.py:249-266 | Candidates.WalkANewest, Candidates.WalkALoop, Candidates.WalkASkipsAll, Candidates.WalkAShape, Candidates.WalkANoHang |
| Candidates.WalkB | update-copr-pkgs.py:169-196 | Candidates.WalkBNewest, Candidates.WalkBLoop, Candidates.WalkBSkipsAll, Candidates.WalkBShape, Candidates.WalkBNoHang |
| Candidates.SkippedB | update-copr-pkgs.py:172-180 | Candidates.TagOutcomeB, Candidates.WalkBSkipsAll, Candidates.WalkBNewest |
| Candidates.IntRule | copr-pkgs-update.py:256-260 | Candidates.Below, Candidates.FilterA |
| Tags.Canonical | copr-pkgs-update.py:115-144 | Tags.TagExtract, Tags.CanonicalShape, Tags.DoubleDotExample, Tags.DotWrapped |
| Builds.BuildersOf | copr-pkgs-update.py:567-576 | Builds.Builders, Builds.EnabledOnly, Builds.TargetsComeFromEnabled, Builds.InactiveNeverBuilt, Builds.EnabledAlwaysBuilt, Builds.NoForkIsFilter |
| Patch.PlanA | copr-pkgs-update.py:297-317 | Patch.BuildEditsA, Patch.InPlanA, Patch.PlanAVersion, Patch.PlanAPkgvers, Patch.PlanADate, Patch.PlanAHash, Patch.PlanATag, Patch.PlanACuda |
| Patch.PlanB | update-copr-pkgs.py:209-221 | Patch.BuildEditsB, Patch.InPlanB, Patch.PlanBVersion, Patch.PlanBSlots, Patch.PlanBPkgversZero, Patch.PlanBCuda |
| CoprPkgsUpdate.ChooseA | copr-pkgs-update.py:533-555 | CoprPkgsUpdate.AdvanceIff, CoprPkgsUpdate.AdvanceRises, CoprPkgsUpdate.TagFallback, CoprPkgsUpdate.RegressIff, CoprPkgsUpdate.RecordedNeverRegresses |
| CoprPkgsUpdate.Revision | copr-pkgs-update.py:487-497 | CoprPkgsUpdate.ReviseA, CoprPkgsUpdate.RevisionReadsSlotZero, CoprPkgsUpdate.SubmittedRevisionA |
| CoprPkgsUpdate.ThrottledA | copr-pkgs-update.py:499-503 | CoprPkgsUpdate.ThrottledIffA, CoprPkgsUpdate.BoundStepA, CoprPkgsUpdate.ThrottleBoundA |
| CoprPkgsUpdate.DecideA | copr-pkgs-update.py:354-583 | CoprPkgsUpdate.RunA.Process, CoprPkgsUpdate.OverridesA, CoprPkgsUpdate.TooFreshIffA, CoprPkgsUpdate.UpToDateIffA, CoprPkgsUpdate.ThrottledIffA, CoprPkgsUpdate.SubmittedStagesA |
| UpdateCoprPkgs.SourceAt | update-copr-pkgs.py:328-335 | UpdateCoprPkgs.SourcesComplete, UpdateCoprPkgs.SourcesStop |
| UpdateCoprPkgs.Sources | update-copr-pkgs.py:326-335 | UpdateCoprPkgs.SourcesComplete, UpdateCoprPkgs.SourcesStop, UpdateCoprPkgs.DiscoverB |
| UpdateCoprPkgs.PartialB | update-copr-pkgs.py:328-335 | UpdateCoprPkgs.PartialCrashesB, UpdateCoprPkgs.SubmittedStagesB |
| UpdateCoprPkgs.ThrottledB | update-copr-pkgs.py:349-353 | UpdateCoprPkgs.ThrottledIffB, UpdateCoprPkgs.BoundStepB, UpdateCoprPkgs.ThrottleBoundB |
| UpdateCoprPkgs.DecideB | update-copr-pkgs.py:258-390 | UpdateCoprPkgs.RunnerB.Process, UpdateCoprPkgs.TooFreshIffB, UpdateCoprPkgs.UpToDateIffB, UpdateCoprPkgs.ThrottledIffB, UpdateCoprPkgs.SubmittedStagesB |
| Candidates.FromExtraction | copr-pkgs-update.py:264-266 | Candidates.WalkANewest, Candidates.WalkANoHang |
| Candidates.OutcomesA | copr-pkgs-update.py:249-266 | Candidates.WalkANewest, Candidates.WalkALoop |
| Candidates.OutcomesB | update-copr-pkgs.py:169-196 | Candidates.WalkBNewest, Candidates.WalkBLoop |
| Tags.Delimit | copr-pkgs-update.py:126 | Tags.DelimitClears, Tags.DelimitKeeps |
| Patch.DateEdits | copr-pkgs-update.py:302-303 | Patch.PlanADate, Patch.DateLoop |
| Runs.Then | copr-pkgs-update.py:354 | Runs.RunJoin, Runs.RunCounter |
| CoprPkgsUpdate.Steps | copr-pkgs-update.py:513-561 | CoprPkgsUpdate.SlotsOf, CoprPkgsUpdate.SlotStopsA |
| CoprPkgsUpdate.NewHashes | copr-pkgs-update.py:564 | Patch.PlanAHash |
| CoprPkgsUpdate.NewTags | copr-pkgs-update.py:564 | Patch.PlanATag |

## Left out

- Command-line parsing and `helpmsg`. The options are fields of the policy records.
- `git clone`/`fetch`/`ls-remote`/`describe`/`tag`, `httpRequest`, `gitCoprSpec`, the COPR client, `unpackSPEC`, `rpmbuild`, `curl` and `copr build`: these are calls into other programs. Their answers are inputs:
  - the spec text;
  - the tag lists;
  - per-attempt `describe` success;
  - the printed hashes and commit dates;
  - the latest-build record;
  - the enabled chroots.
- The clock, the 30-second `ls-remote` timeouts with `proc.kill()`, and the `rm -rf` clean-ups. The current time is an input, and A's fetch exit status is the input flag `fetchFailed`.
- A's slot discovery loop (copr-pkgs-update.py:431-485) is not executed by the model. Its result is a per-slot record (recorded tag and hash, new tag and hash, command outputs), so the following are not reproduced:
  - the list skew where `screpo` and `scdate` are appended by both branches;
  - `exit_code` keeping only the last fetch's value;
  - the `IndexError` on an empty `schash`/`sctags` at line 487.
- Applying the edits with `sed` is not modelled beyond the `\/` escaping of tags. The plan lists each edit's line prefix and new line. Two consequences follow:
  - `sed`'s own prefix match (`scdate1` also matching `scdate10`) is not reproduced. It needs more than the 10 slots the scripts read.
  - The `SPECPARTS` and `rm -rf %{_builddir}` line deletions of A (lines 294-295) are left out.
- `print` output, the "SELF versioned" display (copr-pkgs-update.py:509-511), and B's use of `pkgrel` only in a message.
- `int()` accepts only a non-empty string of ASCII digits. Python's leniency with signs, surrounding whitespace and `_` separators is not modelled.
- The `TypeError` when reading the tag list fails (`reversed(None)`) is not modelled. The tag list is always a sequence.
- Text.FirstWord: `str.split()` whitespace is limited to the ASCII whitespace characters, not every Unicode space.
- Tags.ExtractLoop: where every piece of `v.split(d)` is empty, the script's `for` loop ends without a `break` and `while True` repeats forever. The method returns `Spins` there instead of looping, and the callers turn `Spins` into the `Hangs` outcome.
- Patch.SlotEditsB: its own contract states only the count of edits. The entries themselves are stated by `Patch.SlotEditsBAt`.
- Runs.RunWith: its own contract bounds only the number of outcomes. The counter and the stopping rule are stated by `Runs.RunCounter`.
