/**
 * The spec-file edits `buildNewSRPM` makes with `sed` before rebuilding
 * the source package. Each `sed -i` call selects the lines that start
 * with a prefix `P` and replaces each of them whole by a line `L`; the
 * model lists those calls, in order, as `Edit(P, L)` values.
 */
module Patch {
  import opened Wrappers
  import opened Text

  /** Every spec line starting with `prefix` becomes `line`. */
  datatype Edit = Edit(prefix: string, line: string)

  /** The padding the scripts put between `Version:` and the version. */
  const VersionPad: string := "        "

  /** The `Version:` edit for version `v`. */
  function VersionEdit(v: string): Edit
  {
    Edit("Version:", "Version:" + VersionPad + v)
  }

  /** The line prefix `%global <name>`. */
  function GlobalPrefix(name: string): string
  {
    "%global " + name
  }

  /** The edit of `%global <name>` to `value`. */
  function SetGlobal(name: string, value: string): (e: Edit)
    ensures e.prefix == GlobalPrefix(name)
  {
    Edit(GlobalPrefix(name), GlobalPrefix(name) + " " + value)
  }

  /** The `%global` name of slot `i`'s field, as `'scdate%i' % i` prints it. */
  function SlotName(field: string, i: nat): string
  {
    field + NatToString(i)
  }

  /** `s[0:8]`. */
  function Take8(s: string): (r: string)
    ensures r <= s
    ensures |r| == if |s| < 8 then |s| else 8
  {
    if |s| <= 8 then s else s[..8]
  }

  /** `s.replace('/', r'\/')`: a backslash before every slash, for sed's `s` command. */
  function EscapeSlash(s: string): (r: string)
    ensures |r| >= |s|
    ensures '/' !in s ==> r == s
    decreases |s|
  {
    if s == [] then []
    else (if s[0] == '/' then "\\/" else [s[0]]) + EscapeSlash(s[1..])
  }

  /** What sed writes for replacement text `r`: `\/` stands for `/`. */
  function SedText(r: string): string
    decreases |r|
  {
    if |r| >= 2 && r[0] == '\\' && r[1] == '/' then "/" + SedText(r[2..])
    else if r == [] then []
    else [r[0]] + SedText(r[1..])
  }

  /** The escaping round-trips: sed writes the tag itself. */
  lemma {:induction false} EscapeRoundTrip(s: string)
    ensures SedText(EscapeSlash(s)) == s
    decreases |s|
  {
    if s != [] {
      EscapeRoundTrip(s[1..]);
      var rest := EscapeSlash(s[1..]);
      if s[0] == '/' {
        assert EscapeSlash(s) == "\\/" + rest;
        assert ("\\/" + rest)[2..] == rest;
      } else {
        assert EscapeSlash(s) == [s[0]] + rest;
        assert ([s[0]] + rest)[1..] == rest;
        if s[0] == '\\' && rest != [] {
          // the next escaped character is never a bare slash
          assert rest[0] == '\\' || rest[0] == s[1];
          assert s[1] == '/' ==> rest[0] == '\\';
        }
      }
    }
  }

  /** Every tag of `tags` round-trips through the escaping, and only the empty tag escapes to nothing. */
  lemma EscapedRoundTrips(tags: seq<Option<string>>)
    ensures forall i :: 0 <= i < |tags| && tags[i].Some? ==>
      SedText(EscapeSlash(tags[i].value)) == tags[i].value && (EscapeSlash(tags[i].value) == [] <==> tags[i].value == [])
  {
    forall i | 0 <= i < |tags| && tags[i].Some?
      ensures SedText(EscapeSlash(tags[i].value)) == tags[i].value && (EscapeSlash(tags[i].value) == [] <==> tags[i].value == [])
    {
      EscapeRoundTrip(tags[i].value);
    }
  }

  // ---------------------------------------------------------------------
  // copr-pkgs-update.py

  /** The `scdate` edits: the first 8 characters of every slot's commit date. */
  function DateEdits(dates: seq<string>): (r: seq<Edit>)
    ensures |r| == |dates|
    ensures forall i :: 0 <= i < |dates| ==> r[i] == SetGlobal(SlotName("scdate", i), Take8(dates[i]))
    decreases |dates|
  {
    if dates == [] then []
    else
      var i := |dates| - 1;
      DateEdits(dates[..i]) + [SetGlobal(SlotName("scdate", i), Take8(dates[i]))]
  }

  /** The `field` edits for the slots whose value is truthy. */
  function PresentEdits(field: string, vals: seq<Option<string>>): (r: seq<Edit>)
    ensures forall e :: e in r ==>
      exists j :: 0 <= j < |vals| && Truthy(vals[j]) && e == SetGlobal(SlotName(field, j), vals[j].value)
    decreases |vals|
  {
    if vals == [] then []
    else
      var i := |vals| - 1;
      var init := PresentEdits(field, vals[..i]);
      assert forall j :: 0 <= j < i ==> vals[..i][j] == vals[j];
      init + (if Truthy(vals[i]) then [SetGlobal(SlotName(field, i), vals[i].value)] else [])
  }

  /**
   * Every new tag with its slashes escaped: a slot's escaped tag is truthy
   * iff its tag is, and sed writes back the tag itself.
   */
  function Escaped(tags: seq<Option<string>>): (r: seq<Option<string>>)
    ensures |r| == |tags|
    ensures forall i :: 0 <= i < |tags| ==>
      r[i] == if tags[i].Some? then Some(EscapeSlash(tags[i].value)) else None
    ensures forall i :: 0 <= i < |tags| ==> (Truthy(r[i]) <==> Truthy(tags[i]))
    ensures forall i :: 0 <= i < |tags| && tags[i].Some? ==> SedText(r[i].value) == tags[i].value
  {
    EscapedRoundTrips(tags);
    seq(|tags|, i requires 0 <= i < |tags| => if tags[i].Some? then Some(EscapeSlash(tags[i].value)) else None)
  }

  /** The `schash` edits: only for slots with a truthy new hash. */
  function HashEdits(hashes: seq<Option<string>>): seq<Edit>
  {
    PresentEdits("schash", hashes)
  }

  /** The `sctags` edits: only for slots with a truthy new tag, slashes escaped. */
  function TagEdits(tags: seq<Option<string>>): seq<Edit>
  {
    PresentEdits("sctags", Escaped(tags))
  }

  /** The `vcu_maj`/`vcu_min` edit when the value is not `None`. */
  function CudaEditA(name: string, v: Option<int>): seq<Edit>
  {
    if v.Some? then [SetGlobal(name, IntToString(v.value))] else []
  }

  /** The edits of copr-pkgs-update.py's `buildNewSRPM`, in call order. */
  function PlanA(newvers0: Option<string>, pkgver: nat, newdate: seq<string>,
                 newhash: seq<Option<string>>, newtags: seq<Option<string>>,
                 cuMaj: Option<int>, cuMin: Option<int>): seq<Edit>
  {
    (if Truthy(newvers0) then [VersionEdit(newvers0.value)] else []) +
    [SetGlobal("pkgvers", NatToString(pkgver))] +
    DateEdits(newdate) + HashEdits(newhash) + TagEdits(newtags) +
    CudaEditA("vcu_maj", cuMaj) + CudaEditA("vcu_min", cuMin)
  }

  /** The `scdate` loop. */
  method DateLoop(newdate: seq<string>) returns (edits: seq<Edit>)
    ensures edits == DateEdits(newdate)
  {
    edits := [];
    for i := 0 to |newdate|
      invariant edits == DateEdits(newdate[..i])
    {
      assert newdate[..i + 1][..i] == newdate[..i];
      edits := edits + [SetGlobal(SlotName("scdate", i), Take8(newdate[i]))];
    }
    assert newdate[..|newdate|] == newdate;
  }

  /** The `schash` loop. */
  method HashLoop(newhash: seq<Option<string>>) returns (edits: seq<Edit>)
    ensures edits == HashEdits(newhash)
  {
    edits := [];
    for i := 0 to |newhash|
      invariant edits == PresentEdits("schash", newhash[..i])
    {
      assert newhash[..i + 1][..i] == newhash[..i];
      if !Truthy(newhash[i]) { continue; }
      edits := edits + [SetGlobal(SlotName("schash", i), newhash[i].value)];
    }
    assert newhash[..|newhash|] == newhash;
  }

  /** The `sctags` loop. */
  method TagLoop(newtags: seq<Option<string>>) returns (edits: seq<Edit>)
    ensures edits == TagEdits(newtags)
  {
    edits := [];
    for i := 0 to |newtags|
      invariant edits == PresentEdits("sctags", Escaped(newtags)[..i])
    {
      assert Escaped(newtags)[..i + 1][..i] == Escaped(newtags)[..i];
      if !Truthy(newtags[i]) { continue; }
      edits := edits + [SetGlobal(SlotName("sctags", i), EscapeSlash(newtags[i].value))];
    }
    assert Escaped(newtags)[..|newtags|] == Escaped(newtags);
  }

  /** The `sed` calls of copr-pkgs-update.py's `buildNewSRPM`. */
  method BuildEditsA(newvers0: Option<string>, pkgver: nat, newdate: seq<string>,
                     newhash: seq<Option<string>>, newtags: seq<Option<string>>,
                     cuMaj: Option<int>, cuMin: Option<int>) returns (edits: seq<Edit>)
    ensures edits == PlanA(newvers0, pkgver, newdate, newhash, newtags, cuMaj, cuMin)
  {
    var version := if Truthy(newvers0) then [VersionEdit(newvers0.value)] else [];
    var dates := DateLoop(newdate);
    var hashes := HashLoop(newhash);
    var tags := TagLoop(newtags);
    var maj := if cuMaj.Some? then [SetGlobal("vcu_maj", IntToString(cuMaj.value))] else [];
    var min := if cuMin.Some? then [SetGlobal("vcu_min", IntToString(cuMin.value))] else [];
    edits := version + [SetGlobal("pkgvers", NatToString(pkgver))] + dates + hashes + tags + maj + min;
  }

  // ---------------------------------------------------------------------
  // update-copr-pkgs.py

  /** Per slot: `pkgvers` back to 0, then the slot's `scdate` and `schash`. */
  function SlotEditsB(newdate: seq<string>, newhash: seq<string>): (r: seq<Edit>)
    requires |newdate| == |newhash|
    ensures |r| == 3 * |newhash|
    decreases |newhash|
  {
    if newhash == [] then []
    else
      var i := |newhash| - 1;
      SlotEditsB(newdate[..i], newhash[..i]) +
      [SetGlobal("pkgvers", "0"),
       SetGlobal(SlotName("scdate", i), Take8(newdate[i])),
       SetGlobal(SlotName("schash", i), newhash[i])]
  }

  /** The `vcu_maj`/`vcu_min` edit when the value is truthy (so never for 0). */
  function CudaEditB(name: string, v: Option<int>): seq<Edit>
  {
    if v.Some? && v.value != 0 then [SetGlobal(name, IntToString(v.value))] else []
  }

  /** The edits of update-copr-pkgs.py's `buildNewSRPM`, in call order. */
  function PlanB(newvers0: Option<string>, newdate: seq<string>, newhash: seq<string>,
                 cuMaj: Option<int>, cuMin: Option<int>): seq<Edit>
    requires |newdate| == |newhash|
  {
    (if Truthy(newvers0) then [VersionEdit(newvers0.value)] else []) +
    SlotEditsB(newdate, newhash) +
    CudaEditB("vcu_maj", cuMaj) + CudaEditB("vcu_min", cuMin)
  }

  /** The per-slot loop. */
  method SlotLoopB(newdate: seq<string>, newhash: seq<string>) returns (edits: seq<Edit>)
    requires |newdate| == |newhash|
    ensures edits == SlotEditsB(newdate, newhash)
  {
    edits := [];
    for i := 0 to |newhash|
      invariant edits == SlotEditsB(newdate[..i], newhash[..i])
    {
      assert newdate[..i + 1][..i] == newdate[..i] && newhash[..i + 1][..i] == newhash[..i];
      edits := edits + [SetGlobal("pkgvers", "0"),
                        SetGlobal(SlotName("scdate", i), Take8(newdate[i])),
                        SetGlobal(SlotName("schash", i), newhash[i])];
    }
    assert newdate[..|newhash|] == newdate && newhash[..|newhash|] == newhash;
  }

  /** The `sed` calls of update-copr-pkgs.py's `buildNewSRPM`. */
  method BuildEditsB(newvers0: Option<string>, newdate: seq<string>, newhash: seq<string>,
                     cuMaj: Option<int>, cuMin: Option<int>) returns (edits: seq<Edit>)
    requires |newdate| == |newhash|
    ensures edits == PlanB(newvers0, newdate, newhash, cuMaj, cuMin)
  {
    var version := if Truthy(newvers0) then [VersionEdit(newvers0.value)] else [];
    var slots := SlotLoopB(newdate, newhash);
    var maj := if cuMaj.Some? && cuMaj.value != 0 then [SetGlobal("vcu_maj", IntToString(cuMaj.value))] else [];
    var min := if cuMin.Some? && cuMin.value != 0 then [SetGlobal("vcu_min", IntToString(cuMin.value))] else [];
    edits := version + slots + maj + min;
  }

  // ---------------------------------------------------------------------
  // Properties

  /** The edit rewrites a `%global` whose name starts with `field`. */
  predicate Under(e: Edit, field: string)
  {
    GlobalPrefix(field) <= e.prefix
  }

  /** Setting `name` is an edit under every leading part of `name`. */
  lemma SetGlobalUnder(name: string, v: string, field: string)
    requires field <= name
    ensures Under(SetGlobal(name, v), field)
  {
    assert GlobalPrefix(name)[..|GlobalPrefix(field)|] == GlobalPrefix(field);
  }

  /** An edit under `f` has `f`'s `k`-th character right after `%global `. */
  lemma UnderAt(e: Edit, f: string, k: nat)
    requires Under(e, f) && k < |f|
    ensures 8 + k < |e.prefix| && e.prefix[8 + k] == f[k]
  {
    assert GlobalPrefix(f)[8 + k] == f[k];
  }

  /** No edit is under two fields that differ at position `k`. */
  lemma Exclusive(e: Edit, f: string, g: string, k: nat)
    requires k < |f| && k < |g| && f[k] != g[k]
    ensures !(Under(e, f) && Under(e, g))
  {
    if Under(e, f) { UnderAt(e, f, k); }
    if Under(e, g) { UnderAt(e, g, k); }
  }

  /** The `Version:` edit is under no `%global`. */
  lemma VersionNotUnder(v: string, field: string)
    ensures !Under(VersionEdit(v), field)
  {
    assert GlobalPrefix(field)[0] == '%' && VersionEdit(v).prefix[0] == 'V';
  }

  /** An edit of the `Version:` line is under no `%global`. */
  lemma VersionLineUnderNothing(e: Edit)
    ensures e.prefix == "Version:" ==> forall f :: !Under(e, f)
  {
    forall f | e.prefix == "Version:" ensures !Under(e, f) {
      assert GlobalPrefix(f)[0] == '%';
    }
  }

  /** An edit setting exactly `%global name` is under `name`. */
  lemma ExactlyUnder(e: Edit, name: string)
    requires e.prefix == GlobalPrefix(name)
    ensures Under(e, name)
  {
  }

  /** Slot prefixes of one field name their slot. */
  lemma SlotPrefixIff(field: string, i: nat, j: nat)
    ensures GlobalPrefix(SlotName(field, i)) == GlobalPrefix(SlotName(field, j)) <==> i == j
  {
    ParsePrinted(i);
    ParsePrinted(j);
    var p := "%global " + field;
    assert GlobalPrefix(SlotName(field, i)) == p + NatToString(i);
    assert GlobalPrefix(SlotName(field, j)) == p + NatToString(j);
    assert (p + NatToString(i))[|p|..] == NatToString(i);
    assert (p + NatToString(j))[|p|..] == NatToString(j);
  }

  /** Every `scdate` edit is under `scdate`. */
  lemma DateEditsUnder(dates: seq<string>)
    ensures forall e :: e in DateEdits(dates) ==> Under(e, "scdate")
  {
    var r := DateEdits(dates);
    forall e | e in r ensures Under(e, "scdate") {
      var j :| 0 <= j < |r| && r[j] == e;
      SetGlobalUnder(SlotName("scdate", j), Take8(dates[j]), "scdate");
    }
  }

  /** Every edit of a per-slot field loop is under that field. */
  lemma PresentEditsUnder(field: string, vals: seq<Option<string>>)
    ensures forall e :: e in PresentEdits(field, vals) ==> Under(e, field)
  {
    forall e | e in PresentEdits(field, vals) ensures Under(e, field) {
      var j :| 0 <= j < |vals| && Truthy(vals[j]) && e == SetGlobal(SlotName(field, j), vals[j].value);
      SetGlobalUnder(SlotName(field, j), vals[j].value, field);
    }
  }

  /**
   * Slot `i` gets a `field` edit exactly when its value is truthy, and that
   * edit writes the value.
   */
  lemma PresentEditsOfSlot(field: string, vals: seq<Option<string>>, i: nat)
    requires i < |vals|
    ensures Truthy(vals[i]) ==> SetGlobal(SlotName(field, i), vals[i].value) in PresentEdits(field, vals)
    ensures forall e :: e in PresentEdits(field, vals) && e.prefix == GlobalPrefix(SlotName(field, i)) ==>
      Truthy(vals[i]) && e == SetGlobal(SlotName(field, i), vals[i].value)
  {
    PresentContains(field, vals, i);
    forall e | e in PresentEdits(field, vals) && e.prefix == GlobalPrefix(SlotName(field, i))
      ensures Truthy(vals[i]) && e == SetGlobal(SlotName(field, i), vals[i].value)
    {
      var j :| 0 <= j < |vals| && Truthy(vals[j]) && e == SetGlobal(SlotName(field, j), vals[j].value);
      SlotPrefixIff(field, i, j);
    }
  }

  lemma {:induction false} PresentContains(field: string, vals: seq<Option<string>>, i: nat)
    requires i < |vals|
    ensures Truthy(vals[i]) ==> SetGlobal(SlotName(field, i), vals[i].value) in PresentEdits(field, vals)
    decreases |vals|
  {
    var n := |vals| - 1;
    if i < n {
      assert vals[..n][i] == vals[i];
      PresentContains(field, vals[..n], i);
    }
  }

  /** Where an edit of `PlanA` comes from, and which field it is under. */
  lemma InPlanA(e: Edit, newvers0: Option<string>, pkgver: nat, newdate: seq<string>,
                newhash: seq<Option<string>>, newtags: seq<Option<string>>,
                cuMaj: Option<int>, cuMin: Option<int>)
    requires e in PlanA(newvers0, pkgver, newdate, newhash, newtags, cuMaj, cuMin)
    ensures || (Truthy(newvers0) && e == VersionEdit(newvers0.value))
            || (e == SetGlobal("pkgvers", NatToString(pkgver)) && Under(e, "pkgvers"))
            || (e in DateEdits(newdate) && Under(e, "scdate"))
            || (e in HashEdits(newhash) && Under(e, "schash"))
            || (e in TagEdits(newtags) && Under(e, "sctags"))
            || (e in CudaEditA("vcu_maj", cuMaj) && Under(e, "vcu_maj"))
            || (e in CudaEditA("vcu_min", cuMin) && Under(e, "vcu_min"))
  {
    DateEditsUnder(newdate);
    PresentEditsUnder("schash", newhash);
    PresentEditsUnder("sctags", Escaped(newtags));
  }

  /** The Version line is rewritten iff `newvers[0]` is truthy, and then first. */
  lemma PlanAVersion(newvers0: Option<string>, pkgver: nat, newdate: seq<string>,
                     newhash: seq<Option<string>>, newtags: seq<Option<string>>,
                     cuMaj: Option<int>, cuMin: Option<int>)
    ensures var plan := PlanA(newvers0, pkgver, newdate, newhash, newtags, cuMaj, cuMin);
      ((exists e :: e in plan && e.prefix == "Version:") <==> Truthy(newvers0)) &&
      (Truthy(newvers0) ==> plan[0] == VersionEdit(newvers0.value))
  {
    var plan := PlanA(newvers0, pkgver, newdate, newhash, newtags, cuMaj, cuMin);
    if Truthy(newvers0) {
      assert plan[0] == VersionEdit(newvers0.value);
    } else {
      forall e | e in plan ensures e.prefix != "Version:" {
        InPlanA(e, newvers0, pkgver, newdate, newhash, newtags, cuMaj, cuMin);
        VersionLineUnderNothing(e);
      }
    }
  }

  /** Slot `i`'s `schash` line is rewritten iff its new hash is truthy, and then to that hash. */
  lemma PlanAHash(newvers0: Option<string>, pkgver: nat, newdate: seq<string>,
                  newhash: seq<Option<string>>, newtags: seq<Option<string>>,
                  cuMaj: Option<int>, cuMin: Option<int>, i: nat)
    requires i < |newhash|
    ensures var plan := PlanA(newvers0, pkgver, newdate, newhash, newtags, cuMaj, cuMin);
      ((exists e :: e in plan && e.prefix == GlobalPrefix(SlotName("schash", i))) <==> Truthy(newhash[i])) &&
      (Truthy(newhash[i]) ==> SetGlobal(SlotName("schash", i), newhash[i].value) in plan)
  {
    var plan := PlanA(newvers0, pkgver, newdate, newhash, newtags, cuMaj, cuMin);
    var name := SlotName("schash", i);
    PresentEditsOfSlot("schash", newhash, i);
    forall e | e in plan && e.prefix == GlobalPrefix(name) ensures e in HashEdits(newhash) {
      SetGlobalUnder(name, "", "schash");
      assert Under(e, "schash");
      InPlanA(e, newvers0, pkgver, newdate, newhash, newtags, cuMaj, cuMin);
      SlotFieldsApart(e, "schash");
    }
  }

  /** An edit under one of the slot fields (`sc…`) is under no other field of the plans. */
  lemma SlotFieldsApart(e: Edit, field: string)
    requires field in {"scdate", "schash", "sctags"} && Under(e, field)
    ensures !Under(e, "pkgvers") && !Under(e, "vcu_maj") && !Under(e, "vcu_min")
    ensures forall v :: e != VersionEdit(v)
    ensures field != "scdate" ==> !Under(e, "scdate")
    ensures field != "schash" ==> !Under(e, "schash")
    ensures field != "sctags" ==> !Under(e, "sctags")
  {
    Exclusive(e, field, "pkgvers", 0);
    Exclusive(e, field, "vcu_maj", 0);
    Exclusive(e, field, "vcu_min", 0);
    if field != "scdate" { Exclusive(e, field, "scdate", 2); }
    if field != "schash" { Exclusive(e, field, "schash", 2); }
    if field != "sctags" { Exclusive(e, field, "sctags", 2); }
    forall v ensures e != VersionEdit(v) {
      VersionNotUnder(v, field);
    }
  }

  /** An edit under `pkgvers`, `vcu_maj` or `vcu_min` is under none of the other plan fields. */
  lemma OtherFieldsApart(e: Edit, field: string)
    requires field in {"pkgvers", "vcu_maj", "vcu_min"} && Under(e, field)
    ensures !Under(e, "scdate") && !Under(e, "schash") && !Under(e, "sctags")
    ensures forall v :: e != VersionEdit(v)
    ensures field != "pkgvers" ==> !Under(e, "pkgvers")
    ensures field != "vcu_maj" ==> !Under(e, "vcu_maj")
    ensures field != "vcu_min" ==> !Under(e, "vcu_min")
  {
    Exclusive(e, field, "scdate", 0);
    Exclusive(e, field, "schash", 0);
    Exclusive(e, field, "sctags", 0);
    if field != "pkgvers" { Exclusive(e, field, "pkgvers", 0); }
    if field == "pkgvers" { Exclusive(e, field, "vcu_maj", 0); Exclusive(e, field, "vcu_min", 0); }
    if field == "vcu_min" { Exclusive(e, field, "vcu_maj", 5); }
    if field == "vcu_maj" { Exclusive(e, field, "vcu_min", 5); }
    forall v ensures e != VersionEdit(v) {
      VersionNotUnder(v, field);
    }
  }

  /**
   * Slot `i`'s `sctags` line is rewritten iff its new tag is truthy, and
   * then with every `/` escaped, which sed turns back into the tag.
   */
  lemma PlanATag(newvers0: Option<string>, pkgver: nat, newdate: seq<string>,
                 newhash: seq<Option<string>>, newtags: seq<Option<string>>,
                 cuMaj: Option<int>, cuMin: Option<int>, i: nat)
    requires i < |newtags|
    ensures var plan := PlanA(newvers0, pkgver, newdate, newhash, newtags, cuMaj, cuMin);
      ((exists e :: e in plan && e.prefix == GlobalPrefix(SlotName("sctags", i))) <==> Truthy(newtags[i])) &&
      (Truthy(newtags[i]) ==>
         SetGlobal(SlotName("sctags", i), EscapeSlash(newtags[i].value)) in plan &&
         SedText(EscapeSlash(newtags[i].value)) == newtags[i].value)
  {
    var plan := PlanA(newvers0, pkgver, newdate, newhash, newtags, cuMaj, cuMin);
    var name := SlotName("sctags", i);
    var esc := Escaped(newtags);
    PresentEditsOfSlot("sctags", esc, i);
    assert Truthy(esc[i]) <==> Truthy(newtags[i]) by {
      if newtags[i].Some? && newtags[i].value == [] { assert EscapeSlash([]) == []; }
    }
    forall e | e in plan && e.prefix == GlobalPrefix(name) ensures e in TagEdits(newtags) {
      SetGlobalUnder(name, "", "sctags");
      assert Under(e, "sctags");
      InPlanA(e, newvers0, pkgver, newdate, newhash, newtags, cuMaj, cuMin);
      SlotFieldsApart(e, "sctags");
    }
    if Truthy(newtags[i]) { EscapeRoundTrip(newtags[i].value); }
  }

  /** Every slot's `scdate` line gets the first 8 characters of its new commit date, and nothing else. */
  lemma PlanADate(newvers0: Option<string>, pkgver: nat, newdate: seq<string>,
                  newhash: seq<Option<string>>, newtags: seq<Option<string>>,
                  cuMaj: Option<int>, cuMin: Option<int>, i: nat)
    requires i < |newdate|
    ensures var plan := PlanA(newvers0, pkgver, newdate, newhash, newtags, cuMaj, cuMin);
      SetGlobal(SlotName("scdate", i), Take8(newdate[i])) in plan &&
      forall e :: e in plan && e.prefix == GlobalPrefix(SlotName("scdate", i)) ==>
        e == SetGlobal(SlotName("scdate", i), Take8(newdate[i]))
  {
    var plan := PlanA(newvers0, pkgver, newdate, newhash, newtags, cuMaj, cuMin);
    var name := SlotName("scdate", i);
    var dates := DateEdits(newdate);
    assert dates[i] in dates;
    forall e | e in plan && e.prefix == GlobalPrefix(name) ensures e == SetGlobal(name, Take8(newdate[i])) {
      SetGlobalUnder(name, "", "scdate");
      assert Under(e, "scdate");
      InPlanA(e, newvers0, pkgver, newdate, newhash, newtags, cuMaj, cuMin);
      SlotFieldsApart(e, "scdate");
      var j :| 0 <= j < |dates| && dates[j] == e;
      SlotPrefixIff("scdate", i, j);
    }
  }

  /** `pkgvers` is always rewritten, to the decimal revision, by exactly one edit. */
  lemma PlanAPkgvers(newvers0: Option<string>, pkgver: nat, newdate: seq<string>,
                     newhash: seq<Option<string>>, newtags: seq<Option<string>>,
                     cuMaj: Option<int>, cuMin: Option<int>)
    ensures var plan := PlanA(newvers0, pkgver, newdate, newhash, newtags, cuMaj, cuMin);
      SetGlobal("pkgvers", NatToString(pkgver)) in plan &&
      (forall e :: e in plan && e.prefix == GlobalPrefix("pkgvers") ==> e == SetGlobal("pkgvers", NatToString(pkgver))) &&
      ParseDecimal(NatToString(pkgver)) == Some(pkgver)
  {
    var plan := PlanA(newvers0, pkgver, newdate, newhash, newtags, cuMaj, cuMin);
    ParsePrinted(pkgver);
    forall e | e in plan && e.prefix == GlobalPrefix("pkgvers") ensures e == SetGlobal("pkgvers", NatToString(pkgver)) {
      ExactlyUnder(e, "pkgvers");
      InPlanA(e, newvers0, pkgver, newdate, newhash, newtags, cuMaj, cuMin);
      OtherFieldsApart(e, "pkgvers");
    }
  }

  /** `vcu_maj` (`vcu_min`) is rewritten iff the option was given. */
  lemma PlanACuda(newvers0: Option<string>, pkgver: nat, newdate: seq<string>,
                  newhash: seq<Option<string>>, newtags: seq<Option<string>>,
                  cuMaj: Option<int>, cuMin: Option<int>)
    ensures var plan := PlanA(newvers0, pkgver, newdate, newhash, newtags, cuMaj, cuMin);
      ((exists e :: e in plan && e.prefix == GlobalPrefix("vcu_maj")) <==> cuMaj.Some?) &&
      ((exists e :: e in plan && e.prefix == GlobalPrefix("vcu_min")) <==> cuMin.Some?)
  {
    var plan := PlanA(newvers0, pkgver, newdate, newhash, newtags, cuMaj, cuMin);
    if cuMaj.Some? { assert SetGlobal("vcu_maj", IntToString(cuMaj.value)) in plan; }
    if cuMin.Some? { assert SetGlobal("vcu_min", IntToString(cuMin.value)) in plan; }
    forall e | e in plan && e.prefix == GlobalPrefix("vcu_maj") ensures cuMaj.Some? {
      ExactlyUnder(e, "vcu_maj");
      InPlanA(e, newvers0, pkgver, newdate, newhash, newtags, cuMaj, cuMin);
      OtherFieldsApart(e, "vcu_maj");
    }
    forall e | e in plan && e.prefix == GlobalPrefix("vcu_min") ensures cuMin.Some? {
      ExactlyUnder(e, "vcu_min");
      InPlanA(e, newvers0, pkgver, newdate, newhash, newtags, cuMaj, cuMin);
      OtherFieldsApart(e, "vcu_min");
    }
  }

  /** Slot `i` contributes the edits at `3 * i`, `3 * i + 1` and `3 * i + 2`. */
  lemma {:induction false} SlotEditsBAt(newdate: seq<string>, newhash: seq<string>, i: nat)
    requires |newdate| == |newhash| && i < |newhash|
    ensures var r := SlotEditsB(newdate, newhash);
      r[3 * i] == SetGlobal("pkgvers", "0") &&
      r[3 * i + 1] == SetGlobal(SlotName("scdate", i), Take8(newdate[i])) &&
      r[3 * i + 2] == SetGlobal(SlotName("schash", i), newhash[i])
    decreases |newhash|
  {
    var n := |newhash| - 1;
    if i < n {
      SlotEditsBAt(newdate[..n], newhash[..n], i);
      assert newdate[..n][i] == newdate[i] && newhash[..n][i] == newhash[i];
    }
  }

  /** Every edit of the slot loop resets the revision to 0 or is under `scdate` or `schash`. */
  lemma {:induction false} InSlotEditsB(e: Edit, newdate: seq<string>, newhash: seq<string>)
    requires |newdate| == |newhash| && e in SlotEditsB(newdate, newhash)
    ensures e == SetGlobal("pkgvers", "0") || Under(e, "scdate") || Under(e, "schash")
    decreases |newhash|
  {
    var n := |newhash| - 1;
    if e in SlotEditsB(newdate[..n], newhash[..n]) {
      InSlotEditsB(e, newdate[..n], newhash[..n]);
    } else {
      SetGlobalUnder(SlotName("scdate", n), Take8(newdate[n]), "scdate");
      SetGlobalUnder(SlotName("schash", n), newhash[n], "schash");
    }
  }

  /** A slot-loop edit under `scdate` (`schash`) is the date (hash) edit of one slot. */
  lemma {:induction false} SlotEditOfB(e: Edit, newdate: seq<string>, newhash: seq<string>)
    requires |newdate| == |newhash| && e in SlotEditsB(newdate, newhash)
    ensures Under(e, "scdate") ==>
      exists j :: 0 <= j < |newhash| && e == SetGlobal(SlotName("scdate", j), Take8(newdate[j]))
    ensures Under(e, "schash") ==>
      exists j :: 0 <= j < |newhash| && e == SetGlobal(SlotName("schash", j), newhash[j])
    decreases |newhash|
  {
    var n := |newhash| - 1;
    var d, h := newdate[..n], newhash[..n];
    if e in SlotEditsB(d, h) {
      SlotEditOfB(e, d, h);
      if Under(e, "scdate") {
        var j :| 0 <= j < n && e == SetGlobal(SlotName("scdate", j), Take8(d[j]));
        assert d[j] == newdate[j];
      }
      if Under(e, "schash") {
        var j :| 0 <= j < n && e == SetGlobal(SlotName("schash", j), h[j]);
        assert h[j] == newhash[j];
      }
    } else {
      SetGlobalUnder(SlotName("scdate", n), Take8(newdate[n]), "scdate");
      SetGlobalUnder(SlotName("schash", n), newhash[n], "schash");
      ExactlyUnder(SetGlobal("pkgvers", "0"), "pkgvers");
      Exclusive(e, "pkgvers", "scdate", 0);
      Exclusive(e, "pkgvers", "schash", 0);
      Exclusive(e, "scdate", "schash", 2);
    }
  }

  /** Where an edit of `PlanB` comes from, and which field it is under. */
  lemma InPlanB(e: Edit, newvers0: Option<string>, newdate: seq<string>, newhash: seq<string>,
                cuMaj: Option<int>, cuMin: Option<int>)
    requires |newdate| == |newhash| && e in PlanB(newvers0, newdate, newhash, cuMaj, cuMin)
    ensures || (Truthy(newvers0) && e == VersionEdit(newvers0.value))
            || (e == SetGlobal("pkgvers", "0") && Under(e, "pkgvers"))
            || (e in SlotEditsB(newdate, newhash) && (Under(e, "scdate") || Under(e, "schash")))
            || (e in CudaEditB("vcu_maj", cuMaj) && Under(e, "vcu_maj"))
            || (e in CudaEditB("vcu_min", cuMin) && Under(e, "vcu_min"))
  {
    if e in SlotEditsB(newdate, newhash) {
      InSlotEditsB(e, newdate, newhash);
    }
  }

  /** The Version line is rewritten iff the slot-0 tag is truthy, and then first. */
  lemma PlanBVersion(newvers0: Option<string>, newdate: seq<string>, newhash: seq<string>,
                     cuMaj: Option<int>, cuMin: Option<int>)
    requires |newdate| == |newhash|
    ensures var plan := PlanB(newvers0, newdate, newhash, cuMaj, cuMin);
      ((exists e :: e in plan && e.prefix == "Version:") <==> Truthy(newvers0)) &&
      (Truthy(newvers0) ==> plan[0] == VersionEdit(newvers0.value))
  {
    var plan := PlanB(newvers0, newdate, newhash, cuMaj, cuMin);
    if Truthy(newvers0) {
      assert plan[0] == VersionEdit(newvers0.value);
    } else {
      forall e | e in plan ensures e.prefix != "Version:" {
        InPlanB(e, newvers0, newdate, newhash, cuMaj, cuMin);
        VersionLineUnderNothing(e);
      }
    }
  }

  /**
   * Every slot gets its `scdate` line rewritten to the first 8 characters
   * of its new commit date and its `schash` line to its new branch head,
   * and to nothing else, and the revision is reset to 0.
   */
  lemma PlanBSlots(newvers0: Option<string>, newdate: seq<string>, newhash: seq<string>,
                   cuMaj: Option<int>, cuMin: Option<int>, i: nat)
    requires |newdate| == |newhash| && i < |newhash|
    ensures var plan := PlanB(newvers0, newdate, newhash, cuMaj, cuMin);
      SetGlobal("pkgvers", "0") in plan &&
      SetGlobal(SlotName("scdate", i), Take8(newdate[i])) in plan &&
      SetGlobal(SlotName("schash", i), newhash[i]) in plan &&
      (forall e :: e in plan && e.prefix == GlobalPrefix(SlotName("scdate", i)) ==>
         e == SetGlobal(SlotName("scdate", i), Take8(newdate[i]))) &&
      (forall e :: e in plan && e.prefix == GlobalPrefix(SlotName("schash", i)) ==>
         e == SetGlobal(SlotName("schash", i), newhash[i]))
  {
    var plan := PlanB(newvers0, newdate, newhash, cuMaj, cuMin);
    var slots := SlotEditsB(newdate, newhash);
    SlotEditsBAt(newdate, newhash, i);
    assert slots[3 * i] in slots && slots[3 * i + 1] in slots && slots[3 * i + 2] in slots;
    var date, hash := SlotName("scdate", i), SlotName("schash", i);
    forall e | e in plan && e.prefix == GlobalPrefix(date) ensures e == SetGlobal(date, Take8(newdate[i])) {
      SetGlobalUnder(date, "", "scdate");
      assert Under(e, "scdate");
      InPlanB(e, newvers0, newdate, newhash, cuMaj, cuMin);
      SlotFieldsApart(e, "scdate");
      SlotEditOfB(e, newdate, newhash);
      var j :| 0 <= j < |newhash| && e == SetGlobal(SlotName("scdate", j), Take8(newdate[j]));
      SlotPrefixIff("scdate", i, j);
    }
    forall e | e in plan && e.prefix == GlobalPrefix(hash) ensures e == SetGlobal(hash, newhash[i]) {
      SetGlobalUnder(hash, "", "schash");
      assert Under(e, "schash");
      InPlanB(e, newvers0, newdate, newhash, cuMaj, cuMin);
      SlotFieldsApart(e, "schash");
      SlotEditOfB(e, newdate, newhash);
      var j :| 0 <= j < |newhash| && e == SetGlobal(SlotName("schash", j), newhash[j]);
      SlotPrefixIff("schash", i, j);
    }
  }

  /** The only revision update is to 0. */
  lemma PlanBPkgversZero(newvers0: Option<string>, newdate: seq<string>, newhash: seq<string>,
                         cuMaj: Option<int>, cuMin: Option<int>)
    requires |newdate| == |newhash|
    ensures forall e :: e in PlanB(newvers0, newdate, newhash, cuMaj, cuMin) && e.prefix == GlobalPrefix("pkgvers") ==>
      e == SetGlobal("pkgvers", "0")
  {
    forall e | e in PlanB(newvers0, newdate, newhash, cuMaj, cuMin) && e.prefix == GlobalPrefix("pkgvers")
      ensures e == SetGlobal("pkgvers", "0")
    {
      ExactlyUnder(e, "pkgvers");
      InPlanB(e, newvers0, newdate, newhash, cuMaj, cuMin);
      OtherFieldsApart(e, "pkgvers");
    }
  }

  /** `vcu_maj` (`vcu_min`) is rewritten iff the option was given and is not 0. */
  lemma PlanBCuda(newvers0: Option<string>, newdate: seq<string>, newhash: seq<string>,
                  cuMaj: Option<int>, cuMin: Option<int>)
    requires |newdate| == |newhash|
    ensures var plan := PlanB(newvers0, newdate, newhash, cuMaj, cuMin);
      ((exists e :: e in plan && e.prefix == GlobalPrefix("vcu_maj")) <==> cuMaj.Some? && cuMaj.value != 0) &&
      ((exists e :: e in plan && e.prefix == GlobalPrefix("vcu_min")) <==> cuMin.Some? && cuMin.value != 0)
  {
    var plan := PlanB(newvers0, newdate, newhash, cuMaj, cuMin);
    if cuMaj.Some? && cuMaj.value != 0 { assert SetGlobal("vcu_maj", IntToString(cuMaj.value)) in plan; }
    if cuMin.Some? && cuMin.value != 0 { assert SetGlobal("vcu_min", IntToString(cuMin.value)) in plan; }
    forall e | e in plan && e.prefix == GlobalPrefix("vcu_maj") ensures cuMaj.Some? && cuMaj.value != 0 {
      ExactlyUnder(e, "vcu_maj");
      InPlanB(e, newvers0, newdate, newhash, cuMaj, cuMin);
      OtherFieldsApart(e, "vcu_maj");
    }
    forall e | e in plan && e.prefix == GlobalPrefix("vcu_min") ensures cuMin.Some? && cuMin.value != 0 {
      ExactlyUnder(e, "vcu_min");
      InPlanB(e, newvers0, newdate, newhash, cuMaj, cuMin);
      OtherFieldsApart(e, "vcu_min");
    }
  }
}
