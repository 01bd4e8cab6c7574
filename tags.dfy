/**
 * The tag canonicaliser `tagExtract` of both update scripts.
 *
 * Both scripts run the same loop: split the working string `v` on the
 * current delimiter `d`, look at the first non-empty piece `t`; when `t`
 * has no digit delete every occurrence of it from `v`; when it mixes
 * digits and characters of `[a-z,A-Z]` continue inside `t` with the first
 * such character as the delimiter; otherwise `t` is the answer.
 * copr-pkgs-update.py first turns `+`, `,` and `_` into `.` and trims one
 * dot from each end of the answer (`tagNormal`); update-copr-pkgs.py does
 * neither.
 *
 * When `v` is non-empty and made only of delimiter characters every piece
 * is empty, no branch fires and the Python loop repeats forever; the model
 * reports that as `Spins`.
 */
module Tags {
  import opened Wrappers
  import opened Text

  datatype Extraction =
    | Tag(value: string)  // the version core found
    | NoTag               // the working string became empty: `None`
    | Spins               // the source loops forever on this input

  /** No character of `s` is `-` unless `-` is still the delimiter. */
  predicate DashFree(v: string, d: char) { d == '-' || '-' !in v }

  /** What the `while True` loop of `tagExtract` yields from working string `v` and delimiter `d`. */
  function Extract(v: string, d: char): (r: Extraction)
    requires !IsDigit(d)
    ensures HasDigit(v) ==> !r.Spins?
    ensures r.Tag? ==> HasDigit(r.value) && forall c :: c in r.value ==> c in v && !InLetterClass(c)
    ensures r.Tag? && DashFree(v, d) ==> '-' !in r.value
    decreases |v|, if d in v then 0 else 1
  {
    if v == [] then NoTag
    else
      var t := FirstSegment(v, d);
      if t == [] then
        Spins
      else if !HasDigit(t) then
        RemoveAllFacts(v, t);
        Extract(ReplaceAll(v, t, []), d)
      else if HasLetterClass(t) then
        Extract(t, FirstLetterClass(t))
      else
        Tag(t)
  }

  /** The loop itself, as both scripts write it (update-copr-pkgs.py calls it with `d = '-'`). */
  method ExtractLoop(v0: string, d0: char) returns (r: Extraction)
    requires !IsDigit(d0)
    ensures r == Extract(v0, d0)
  {
    var v, d := v0, d0;
    while true
      invariant !IsDigit(d)
      invariant Extract(v, d) == Extract(v0, d0)
      decreases |v|, if d in v then 0 else 1
    {
      if v == [] { return NoTag; }
      // the first non-empty piece of v.split(d)
      var t := FirstSegment(v, d);
      if t == [] { return Spins; }
      if !HasDigit(t) {
        DropStep(v, d, t);
        v := ReplaceAll(v, t, []);
      } else if HasLetterClass(t) {
        MixedStep(v, d, t);
        v, d := t, FirstLetterClass(t);
      } else {
        FinalStep(v, d, t);
        return Tag(t);
      }
    }
  }

  /** `re.sub('[+,_]', '.', v)`. */
  function Delimit(s: string): (r: string)
    ensures |r| == |s|
    ensures forall i :: 0 <= i < |s| ==> r[i] == if s[i] in "+,_" then '.' else s[i]
  {
    seq(|s|, i requires 0 <= i < |s| => if s[i] in "+,_" then '.' else s[i])
  }

  /**
   * Delimiting leaves no `+`, `,` or `_`, brings in no character but `.`,
   * moves nothing, and changes nothing in a string free of those three.
   */
  lemma DelimitClears(s: string)
    ensures var r := Delimit(s);
      |r| == |s| && (forall c :: c in r ==> c !in "+,_" && (c in s || c == '.')) &&
      (forall i :: 0 <= i < |s| && s[i] != '.' ==> (r[i] == s[i] <==> s[i] !in "+,_")) &&
      ((forall c :: c in s ==> c !in "+,_") ==> r == s)
  {
    var r := Delimit(s);
    forall c | c in r ensures c !in "+,_" && (c in s || c == '.') {
      var k :| 0 <= k < |r| && r[k] == c;
    }
  }

  /** `tagNormal`: drop one trailing and then one leading `.`. */
  function TagNormal(t: string): (r: string)
    requires HasDigit(t)
    ensures HasDigit(r) && forall c :: c in r ==> c in t
    ensures |t| - 2 <= |r| <= |t|
    ensures t[0] != '.' && t[|t| - 1] != '.' ==> r == t
    ensures r[0] == '.' ==> t[0] == '.' && t[1] == '.'
    ensures r[|r| - 1] == '.' ==> t[|t| - 1] == '.' && t[|t| - 2] == '.'
  {
    var u := if t[|t| - 1] == '.' then t[..|t| - 1] else t;
    assert u <= t;
    assert HasDigit(u) by {
      var c :| c in t && IsDigit(c);
      var k :| 0 <= k < |t| && t[k] == c;
      assert u[k] == c;
    }
    var r := if u[0] == '.' then u[1..] else u;
    assert HasDigit(r) by {
      var c :| c in u && IsDigit(c);
      var k :| 0 <= k < |u| && u[k] == c;
      if u[0] == '.' {
        assert k > 0 && r[k - 1] == c;
      } else {
        assert r[k] == c;
      }
    }
    assert forall c :: c in r ==> c in t by {
      forall c | c in r ensures c in t {
        var k :| 0 <= k < |r| && r[k] == c;
        if u[0] == '.' {
          assert u[k + 1] == c && t[k + 1] == c;
        } else {
          assert u[k] == c && t[k] == c;
        }
      }
    }
    r
  }

  /** `tagExtract` of copr-pkgs-update.py, as a value. */
  function Canonical(raw: string): (r: Extraction)
  {
    match Extract(Delimit(raw), '-')
    case Tag(t) => Tag(TagNormal(t))
    case NoTag => NoTag
    case Spins => Spins
  }

  /** `tagExtract` of copr-pkgs-update.py. */
  method TagExtract(raw: string) returns (r: Extraction)
    ensures r == Canonical(raw)
  {
    var v := Delimit(raw);
    r := ExtractLoop(v, '-');
    if r.Tag? {
      r := Tag(TagNormal(r.value));
    }
  }

  /** The Python truthiness of a `tagExtract` answer (`None` and a hang both count as no tag). */
  function AsOption(e: Extraction): Option<string>
  {
    if e.Tag? then Some(e.value) else None
  }

  // ---------------------------------------------------------------------
  // Properties

  /**
   * A tag found by copr-pkgs-update.py's `tagExtract` holds a digit and
   * no ASCII letter, `-`, `+`, `,` or `_`, and only characters of the raw tag or `.`.
   */
  lemma CanonicalShape(raw: string)
    ensures Canonical(raw).Tag? ==>
      var t := Canonical(raw).value;
      HasDigit(t) &&
      forall c :: c in t ==> !IsAsciiLetter(c) && c !in "-+,_" && (c in raw || c == '.')
  {
    DelimitedShape(raw);
  }

  /**
   * A tag `tagExtract` finds in the delimited raw tag holds no ASCII letter,
   * `-`, `+`, `,` or `_`, and only characters of the raw tag or `.`.
   */
  lemma DelimitedShape(raw: string)
    ensures Extract(Delimit(raw), '-').Tag? ==>
      forall c :: c in Extract(Delimit(raw), '-').value ==> !IsAsciiLetter(c) && c !in "-+,_" && (c in raw || c == '.')
  {
    var v := Delimit(raw);
    if Extract(v, '-').Tag? {
      forall c | c in Extract(v, '-').value ensures !IsAsciiLetter(c) && c !in "-+,_" && (c in raw || c == '.') {
        assert c in v;
        var k :| 0 <= k < |v| && v[k] == c;
        assert c == if raw[k] in "+,_" then '.' else raw[k];
      }
    }
  }

  /** A tag found by update-copr-pkgs.py's `tagExtract` holds a digit and no ASCII letter, `,` or `-`. */
  lemma PlainShape(raw: string)
    ensures Extract(raw, '-').Tag? ==>
      var t := Extract(raw, '-').value;
      HasDigit(t) && forall c :: c in t ==> !IsAsciiLetter(c) && c != ',' && c != '-'
  {
  }

  /** Any raw tag containing a digit makes `tagExtract` terminate (in both scripts). */
  lemma DigitTerminates(raw: string)
    requires HasDigit(raw)
    ensures Canonical(raw) != Spins && Extract(raw, '-') != Spins && Extract(Delimit(raw), '-') != Spins
  {
    var v := Delimit(raw);
    var c :| c in raw && IsDigit(c);
    var k :| 0 <= k < |raw| && raw[k] == c;
    assert v[k] == c;
  }

  /** `v-` reduces to `-` and then loops forever. */
  lemma DashSuffixSpins()
    ensures Extract("v-", '-') == Spins
  {
    assert FirstSegment("v-", '-') == "v";
    assert !HasDigit("v");
    assert ReplaceAll("v-", "v", []) == "-";
    assert FirstSegment("-", '-') == [];
  }

  /**
   * `v2.14.0_rc1` canonicalises to `2.14.0`. The example string is a
   * parameter, so the verifier follows the passes below instead of
   * unfolding the whole computation on a literal.
   */
  lemma ReleaseCandidateExample(raw: string)
    requires raw == "v2.14.0_rc1"
    ensures Canonical(raw) == Tag("2.14.0")
  {
    var v, w, u := "v2.14.0.rc1", "2.14.0.rc1", "2.14.0.";
    ExampleDelimit(raw, v);
    ExamplePassOne(v);
    ExamplePassTwo(v, w);
    ExamplePassThree(w, u);
    ExampleNormal(u);
  }

  lemma ExampleNormal(u: string)
    requires u == "2.14.0."
    ensures HasDigit(u) && TagNormal(u) == "2.14.0"
  {
    assert u[0] in u;
    assert u[..|u| - 1] == "2.14.0";
  }

  lemma ExampleDelimit(raw: string, v: string)
    requires raw == "v2.14.0_rc1" && v == "v2.14.0.rc1"
    ensures Delimit(raw) == v
  {
  }

  lemma ExamplePassOne(v: string)
    requires v == "v2.14.0.rc1"
    ensures Extract(v, '-') == Extract(v, 'v')
  {
    assert '-' !in v && v[1] in v;
    FirstLetterClassAt(v, 0);
    MixedStep(v, '-', v);
  }

  lemma ExamplePassTwo(v: string, w: string)
    requires v == "v2.14.0.rc1" && w == "2.14.0.rc1"
    ensures Extract(v, 'v') == Extract(w, 'r')
  {
    ExampleSecondPiece(v, w);
    ExampleSecondDelimiter(w);
    MixedStep(v, 'v', w);
  }

  lemma ExampleSecondPiece(v: string, w: string)
    requires v == "v2.14.0.rc1" && w == "2.14.0.rc1"
    ensures FirstSegment(v, 'v') == w
  {
    assert v[1..] == w && 'v' !in w;
  }

  lemma ExampleSecondDelimiter(w: string)
    requires w == "2.14.0.rc1"
    ensures HasDigit(w) && HasLetterClass(w) && FirstLetterClass(w) == 'r'
  {
    FirstLetterClassAt(w, 7);
    assert w[0] in w;
  }

  lemma ExamplePassThree(w: string, u: string)
    requires w == "2.14.0.rc1" && u == "2.14.0."
    ensures Extract(w, 'r') == Tag(u)
  {
    assert Run(w, 'r') == u;
    assert FirstSegment(w, 'r') == u;
    assert u[0] in u;
    assert forall k :: 0 <= k < |u| ==> !InLetterClass(u[k]);
    FinalStep(w, 'r', u);
  }

  /** A pass whose first piece has no digit deletes that piece everywhere, which shortens the string. */
  lemma DropStep(v: string, d: char, t: string)
    requires !IsDigit(d) && v != [] && t == FirstSegment(v, d)
    requires t != [] && !HasDigit(t)
    ensures |ReplaceAll(v, t, [])| < |v|
    ensures Extract(v, d) == Extract(ReplaceAll(v, t, []), d)
  {
    RemoveAllFacts(v, t);
  }

  /** A pass whose first piece mixes digits and letters continues inside that piece. */
  lemma MixedStep(v: string, d: char, t: string)
    requires !IsDigit(d) && v != [] && t == FirstSegment(v, d)
    requires HasDigit(t) && HasLetterClass(t)
    ensures Extract(v, d) == Extract(t, FirstLetterClass(t))
  {
  }

  /** A pass whose first piece has digits and no letter answers that piece. */
  lemma FinalStep(v: string, d: char, t: string)
    requires !IsDigit(d) && v != [] && t == FirstSegment(v, d)
    requires HasDigit(t) && !HasLetterClass(t)
    ensures Extract(v, d) == Tag(t)
  {
  }

  /**
   * At most one dot is trimmed from each end, so `..1..` gives `.1.`, whose
   * own canonical form is `1`: canonicalising twice can differ from once.
   */
  lemma DoubleDotExample(a: string, b: string, c: string)
    requires a == "..1.." && b == ".1." && c == "1"
    ensures Canonical(a) == Tag(b)
    ensures Canonical(b) == Tag(c)
  {
    assert a == ['.'] + b + ['.'] && b == ['.'] + c + ['.'];
    assert IsDigit(c[0]) && c[0] in c;
    DotWrapped(c);
    DotWrapped(b);
  }

  /** Dots and digits with one more dot on each side canonicalise to the inner string. */
  lemma DotWrapped(r: string)
    requires HasDigit(r) && forall k :: 0 <= k < |r| ==> r[k] == '.' || IsDigit(r[k])
    ensures var a := ['.'] + r + ['.'];
      Canonical(a) == Tag(r) && HasDigit(a) && forall k :: 0 <= k < |a| ==> a[k] == '.' || IsDigit(a[k])
  {
    var a := ['.'] + r + ['.'];
    assert forall k :: 1 <= k < |a| - 1 ==> a[k] == r[k - 1];
    var c :| c in r && IsDigit(c);
    assert c in a;
    DigitsAndDots(a);
    assert a[..|a| - 1][1..] == r;
  }

  /** A string of dots and digits holding a digit is left alone by `Delimit` and is its own answer. */
  lemma DigitsAndDots(a: string)
    requires forall k :: 0 <= k < |a| ==> a[k] == '.' || IsDigit(a[k])
    requires HasDigit(a)
    ensures Delimit(a) == a
    ensures forall d :: !IsDigit(d) && d != '.' ==> Extract(a, d) == Tag(a)
  {
    DelimitKeeps(a);
    forall d | !IsDigit(d) && d != '.' ensures Extract(a, d) == Tag(a) {
      ExtractKeeps(a, d);
    }
  }

  lemma DelimitKeeps(a: string)
    requires forall k :: 0 <= k < |a| ==> a[k] == '.' || IsDigit(a[k])
    ensures Delimit(a) == a
  {
    assert forall i :: 0 <= i < |a| ==> a[i] !in "+,_";
  }

  lemma ExtractKeeps(a: string, d: char)
    requires !IsDigit(d) && d != '.'
    requires forall k :: 0 <= k < |a| ==> a[k] == '.' || IsDigit(a[k])
    requires HasDigit(a)
    ensures Extract(a, d) == Tag(a)
  {
    assert d !in a;
    assert FirstSegment(a, d) == a;
    assert !HasLetterClass(a) by {
      forall c | c in a ensures !InLetterClass(c) {
        var k :| 0 <= k < |a| && a[k] == c;
      }
    }
  }
}
