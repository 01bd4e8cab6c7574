/** The conventional optional value (Python's `None` or a value). */
module Wrappers {
  datatype Option<+T> = None | Some(value: T)
}

/**
 * The few pieces of Python string behaviour the update scripts rely on:
 * character classes used by their regular expressions, substring tests
 * (`x in s`), `str.split(sep)`, `str.replace(old, new)` (every occurrence),
 * `re.findall('MARKER(.+)', text)[0]`, `str.split()[0]` and `int()` on
 * decimal digits.
 */
module Text {
  import opened Wrappers

  predicate IsDigit(c: char) { '0' <= c <= '9' }

  predicate IsAsciiLetter(c: char) { 'a' <= c <= 'z' || 'A' <= c <= 'Z' }

  /** The regular-expression class `[a-z,A-Z]`: ASCII letters and also the comma. */
  predicate InLetterClass(c: char) { IsAsciiLetter(c) || c == ',' }

  /** `re.findall('[0-9]', s)` is non-empty. */
  predicate HasDigit(s: string) { exists c :: c in s && IsDigit(c) }

  /** `re.findall('[a-z,A-Z]', s)` is non-empty. */
  predicate HasLetterClass(s: string) { exists c :: c in s && InLetterClass(c) }

  /** The first character of `s` in `[a-z,A-Z]` (`m[0]` of the findall). */
  function FirstLetterClass(s: string): (c: char)
    requires HasLetterClass(s)
    ensures c in s && InLetterClass(c) && !IsDigit(c)
  {
    if InLetterClass(s[0]) then s[0] else FirstLetterClass(s[1..])
  }

  /** The first character in the class is the one at the first index holding such a character. */
  lemma {:induction false} FirstLetterClassAt(s: string, k: nat)
    requires k < |s| && InLetterClass(s[k])
    requires forall j :: 0 <= j < k ==> !InLetterClass(s[j])
    ensures HasLetterClass(s) && FirstLetterClass(s) == s[k]
    decreases k
  {
    assert s[k] in s;
    if k > 0 {
      FirstLetterClassAt(s[1..], k - 1);
    }
  }

  /** Python's substring test `t in s`. */
  predicate Contains(s: string, t: string)
    decreases |s|
  {
    t <= s || (|s| > 0 && Contains(s[1..], t))
  }

  /** Python truthiness of an optional string: present and non-empty. */
  predicate Truthy(o: Option<string>) { o.Some? && o.value != [] }

  // ---------------------------------------------------------------------
  // str.split(d) for a one-character separator

  /** Python's `s.split(d)`: the pieces between occurrences of `d`, empty ones included. */
  function Split(s: string, d: char): (r: seq<string>)
    ensures |r| >= 1
    decreases |s|
  {
    if s == [] then [[]]
    else
      var rest := Split(s[1..], d);
      if s[0] == d then [[]] + rest else [[s[0]] + rest[0]] + rest[1..]
  }

  /** Splitting a string free of the separator gives the string itself. */
  lemma {:induction false} SplitNoSeparator(s: string, d: char)
    requires d !in s
    ensures Split(s, d) == [s]
    decreases |s|
  {
    if s != [] {
      assert s[0] in s;
      SplitNoSeparator(s[1..], d);
      assert [s[0]] + s[1..] == s;
    }
  }

  /** A separator after a separator-free prefix ends the first piece. */
  lemma {:induction false} SplitAtSeparator(x: string, d: char, y: string)
    requires d !in x
    ensures Split(x + [d] + y, d) == [x] + Split(y, d)
    decreases |x|
  {
    var s := x + [d] + y;
    if x == [] {
      assert s[1..] == y;
    } else {
      assert s[1..] == x[1..] + [d] + y;
      assert x[0] in x && s[0] == x[0];
      SplitAtSeparator(x[1..], d, y);
      var rest := Split(s[1..], d);
      assert rest == [x[1..]] + Split(y, d);
      assert [x[0]] + x[1..] == x;
    }
  }

  /** `s.split(d)` has a second piece exactly when `d` occurs in `s`. */
  lemma {:induction false} SplitHasSecond(s: string, d: char)
    ensures |Split(s, d)| >= 2 <==> d in s
    decreases |s|
  {
    if s != [] {
      SplitHasSecond(s[1..], d);
      assert d in s <==> s[0] == d || d in s[1..];
    }
  }

  /** The first non-empty element of `segs`, or the empty string when there is none. */
  function FirstNonEmpty(segs: seq<string>): string
  {
    if segs == [] then [] else if segs[0] != [] then segs[0] else FirstNonEmpty(segs[1..])
  }

  /** The longest prefix of `s` free of `d`. */
  function Run(s: string, d: char): (r: string)
    ensures r <= s && d !in r
    ensures |r| < |s| ==> s[|r|] == d
    decreases |s|
  {
    if s == [] || s[0] == d then [] else [s[0]] + Run(s[1..], d)
  }

  /**
   * The first maximal run of characters other than `d`: the segment a
   * `for t in s.split(d)` loop reaches first once it skips empty pieces.
   */
  function FirstSegment(s: string, d: char): (t: string)
    ensures d !in t
    ensures Contains(s, t)
    ensures forall c :: c in t ==> c in s
    ensures d in s ==> |t| < |s|
    ensures d !in s ==> t == s
    ensures t == [] <==> forall c :: c in s ==> c == d
    decreases |s|
  {
    if s == [] then []
    else if s[0] == d then
      var t := FirstSegment(s[1..], d);
      assert forall c :: c in s[1..] ==> c in s;
      assert forall c :: c in s ==> c == d || c in s[1..];
      t
    else
      var t := Run(s, d);
      assert t[0] == s[0] && s[0] in s && s[0] != d;
      assert forall c :: c in t ==> c in s by {
        forall c | c in t ensures c in s {
          var k :| 0 <= k < |t| && t[k] == c;
          assert s[k] == c;
        }
      }
      assert |t| < |s| ==> d in s by {
        if |t| < |s| { assert s[|t|] == d; }
      }
      t
  }

  lemma {:induction false} SplitHeadIsRun(s: string, d: char)
    ensures Split(s, d)[0] == Run(s, d)
    decreases |s|
  {
    if s != [] && s[0] != d { SplitHeadIsRun(s[1..], d); }
  }

  /** The `for t in v.split(d): if not t: continue` loop reaches exactly `FirstSegment(v, d)`. */
  lemma {:induction false} FirstSegmentOfSplit(s: string, d: char)
    ensures FirstNonEmpty(Split(s, d)) == FirstSegment(s, d)
    decreases |s|
  {
    if s == [] {
    } else if s[0] == d {
      FirstSegmentOfSplit(s[1..], d);
      assert Split(s, d) == [[]] + Split(s[1..], d);
      assert Split(s, d)[1..] == Split(s[1..], d);
    } else {
      SplitHeadIsRun(s, d);
    }
  }

  // ---------------------------------------------------------------------
  // str.replace(pat, rep): every occurrence, left to right, non-overlapping

  /** Python's `s.replace("", rep)`: `rep` before every character and at the end. */
  function InsertEverywhere(s: string, rep: string): (r: string)
    ensures rep <= r
    decreases |s|
  {
    if s == [] then rep else rep + [s[0]] + InsertEverywhere(s[1..], rep)
  }

  /** `s.replace("", rep)` holds `|s| + 1` copies of `rep`, the last one ending it. */
  lemma {:induction false} InsertEverywhereLength(s: string, rep: string)
    ensures var r, w := InsertEverywhere(s, rep), |rep| + 1;
      |r| == |s| * w + |rep| && r[|s| * w..] == rep
    decreases |s|
  {
    if s != [] {
      InsertEverywhereLength(s[1..], rep);
      var w := |rep| + 1;
      var r, rest := InsertEverywhere(s, rep), InsertEverywhere(s[1..], rep);
      assert r == (rep + [s[0]]) + rest;
      var o := (|s| - 1) * w;
      assert |s| * w == o + w;
      assert r[o + w..] == rest[o..];
    }
  }

  /** In `s.replace("", rep)`, character `k` of `s` comes right after the `k`-th copy of `rep`. */
  lemma {:induction false} InsertEverywhereAt(s: string, rep: string, k: nat)
    requires k < |s|
    ensures var r, w := InsertEverywhere(s, rep), |rep| + 1;
      k * w + w <= |r| && r[k * w..k * w + |rep|] == rep && r[k * w + |rep|] == s[k]
    decreases |s|
  {
    var w := |rep| + 1;
    var r, rest := InsertEverywhere(s, rep), InsertEverywhere(s[1..], rep);
    assert r == (rep + [s[0]]) + rest;
    if k > 0 {
      InsertEverywhereAt(s[1..], rep, k - 1);
      var o := (k - 1) * w;
      assert k * w == o + w;
      assert r[o + w..o + w + |rep|] == rest[o..o + |rep|];
    }
  }

  /** Python's `s.replace(pat, rep)`. */
  function ReplaceAll(s: string, pat: string, rep: string): string
    decreases |s|
  {
    if pat == [] then InsertEverywhere(s, rep)
    else if pat <= s then rep + ReplaceAll(s[|pat|..], pat, rep)
    else if s == [] then []
    else [s[0]] + ReplaceAll(s[1..], pat, rep)
  }

  /** Deleting every occurrence of `t` never lengthens `s`, keeps every other character, invents none. */
  lemma {:induction false} RemoveAllFacts(s: string, t: string)
    requires t != []
    ensures |ReplaceAll(s, t, [])| <= |s|
    ensures Contains(s, t) ==> |ReplaceAll(s, t, [])| < |s|
    ensures forall c :: c in ReplaceAll(s, t, []) ==> c in s
    ensures forall c :: c in s && c !in t ==> c in ReplaceAll(s, t, [])
    decreases |s|
  {
    var r := ReplaceAll(s, t, []);
    if t <= s {
      var rest := s[|t|..];
      RemoveAllFacts(rest, t);
      assert r == ReplaceAll(rest, t, []);
      forall c | c in s && c !in t ensures c in r {
        var k :| 0 <= k < |s| && s[k] == c;
        if k >= |t| { assert rest[k - |t|] == c; }
      }
      forall c | c in r ensures c in s {
        var k :| 0 <= k < |rest| && rest[k] == c;
        assert s[|t| + k] == c;
      }
    } else if s != [] {
      var rest := s[1..];
      RemoveAllFacts(rest, t);
      assert r == [s[0]] + ReplaceAll(rest, t, []);
      forall c | c in s && c !in t ensures c in r {
        if c != s[0] { assert c in rest; }
      }
      forall c | c in r ensures c in s {
        if c != s[0] { assert c in rest; }
      }
    }
  }

  /** Once `pat` occurs in `s`, the replacement text occurs in `s.replace(pat, rep)`. */
  lemma {:induction false} ReplaceAllShowsReplacement(s: string, pat: string, rep: string)
    requires Contains(s, pat)
    ensures Contains(ReplaceAll(s, pat, rep), rep)
    decreases |s|
  {
    if pat == [] {
      PrefixContained(ReplaceAll(s, pat, rep), rep);
    } else if pat <= s {
      PrefixContained(ReplaceAll(s, pat, rep), rep);
    } else {
      ReplaceAllShowsReplacement(s[1..], pat, rep);
      var r := ReplaceAll(s, pat, rep);
      assert r[1..] == ReplaceAll(s[1..], pat, rep);
    }
  }

  lemma PrefixContained(s: string, t: string)
    requires t <= s
    ensures Contains(s, t)
  {
  }

  // ---------------------------------------------------------------------
  // re.findall('MARKER(.+)', text)[0]

  /** `marker` followed by at least one character other than a newline starts at `i`. */
  predicate MatchesAt(s: string, marker: string, i: nat)
  {
    i + |marker| < |s| && s[i..i + |marker|] == marker && s[i + |marker|] != '\n'
  }

  /** The leftmost match position at or after `i`. */
  function FindFrom(s: string, marker: string, i: nat): (r: Option<nat>)
    requires i <= |s|
    ensures r.Some? ==> i <= r.value < |s| && MatchesAt(s, marker, r.value)
    ensures r.Some? ==> forall j :: i <= j < r.value ==> !MatchesAt(s, marker, j)
    ensures r.None? ==> forall j :: i <= j < |s| ==> !MatchesAt(s, marker, j)
    decreases |s| - i
  {
    if i == |s| then None
    else if MatchesAt(s, marker, i) then Some(i)
    else FindFrom(s, marker, i + 1)
  }

  /** The text up to (not including) the first newline. */
  function TakeLine(s: string): (r: string)
    ensures r <= s && '\n' !in r
    ensures |r| < |s| ==> s[|r|] == '\n'
    decreases |s|
  {
    if s == [] || s[0] == '\n' then [] else [s[0]] + TakeLine(s[1..])
  }

  /**
   * `re.findall(marker + '(.+)', s)[0]` when the list is non-empty: the
   * rest of the line after the first occurrence of `marker` that is
   * followed by at least one more character on its line.
   */
  function FindField(s: string, marker: string): (r: Option<string>)
  {
    match FindFrom(s, marker, 0)
    case None => None
    case Some(i) => Some(TakeLine(s[i + |marker|..]))
  }

  /**
   * `FindField` finds nothing iff no position matches; otherwise it
   * returns a non-empty rest of line, with no newline, after the leftmost
   * match.
   */
  lemma FindFieldSpec(s: string, marker: string)
    ensures var r := FindField(s, marker);
      (r.None? <==> forall j :: 0 <= j < |s| ==> !MatchesAt(s, marker, j)) &&
      (r.Some? ==> |r.value| >= 1 && '\n' !in r.value) &&
      (r.Some? ==> exists i :: 0 <= i < |s| && MatchesAt(s, marker, i) &&
                     (forall j :: 0 <= j < i ==> !MatchesAt(s, marker, j)) &&
                     r.value <= s[i + |marker|..] &&
                     (i + |marker| + |r.value| == |s| || s[i + |marker| + |r.value|] == '\n'))
  {
    match FindFrom(s, marker, 0)
    case None =>
    case Some(i) =>
      var rest := s[i + |marker|..];
      assert rest[0] != '\n';
  }

  // ---------------------------------------------------------------------
  // str.split()[0]

  /** The characters Python's `str.split()` treats as whitespace (ASCII part). */
  predicate IsSpace(c: char)
  {
    c == ' ' || c == '\t' || c == '\n' || c == '\r' || c as int == 11 || c as int == 12
  }

  /** The longest prefix free of whitespace. */
  function Word(s: string): (r: string)
    ensures r <= s && forall c :: c in r ==> !IsSpace(c)
    decreases |s|
  {
    if s == [] || IsSpace(s[0]) then [] else [s[0]] + Word(s[1..])
  }

  /** `s.split()[0]`, or `None` where Python raises `IndexError` (no word at all). */
  function FirstWord(s: string): (r: Option<string>)
    ensures r.Some? ==> r.value != [] && forall c :: c in r.value ==> !IsSpace(c) && c in s
    ensures r.None? <==> forall c :: c in s ==> IsSpace(c)
    decreases |s|
  {
    if s == [] then None
    else if IsSpace(s[0]) then
      var r := FirstWord(s[1..]);
      assert forall c :: c in s ==> IsSpace(c) || c in s[1..];
      r
    else
      var w := Word(s);
      assert forall c :: c in w ==> c in s by {
        forall c | c in w ensures c in s {
          var k :| 0 <= k < |w| && w[k] == c;
          assert s[k] == c;
        }
      }
      assert w[0] == s[0];
      Some(w)
  }

  // ---------------------------------------------------------------------
  // int() on decimal digits and str() of an int

  predicate AllDigits(s: string) { forall c :: c in s ==> IsDigit(c) }

  function DigitValue(c: char): nat requires IsDigit(c) { (c - '0') as nat }

  function DigitChar(n: nat): (c: char)
    requires n < 10
    ensures IsDigit(c) && DigitValue(c) == n
  {
    ('0' as int + n) as char
  }

  /** The value of a string of decimal digits. */
  function DecimalValue(s: string): nat
    requires AllDigits(s)
    decreases |s|
  {
    if s == [] then 0 else DecimalValue(s[..|s| - 1]) * 10 + DigitValue(s[|s| - 1])
  }

  /** `int(s)` for a non-empty string of decimal digits; `None` where the model treats `int()` as raising. */
  function ParseDecimal(s: string): Option<nat>
  {
    if s != [] && AllDigits(s) then Some(DecimalValue(s)) else None
  }

  /** Decimal text of a natural number. */
  function NatToString(n: nat): (s: string)
    ensures s != [] && AllDigits(s)
    decreases n
  {
    if n < 10 then [DigitChar(n)] else NatToString(n / 10) + [DigitChar(n % 10)]
  }

  /** Python's `str(n)` / `'%i' % n` for an int. */
  function IntToString(n: int): string
  {
    if n < 0 then "-" + NatToString(-n) else NatToString(n)
  }

  /** Printing a number and parsing it back gives the number. */
  lemma {:induction false} ParsePrinted(n: nat)
    ensures ParseDecimal(NatToString(n)) == Some(n)
    decreases n
  {
    var s := NatToString(n);
    if n >= 10 {
      ParsePrinted(n / 10);
      assert s[..|s| - 1] == NatToString(n / 10);
      assert DecimalValue(s) == DecimalValue(NatToString(n / 10)) * 10 + n % 10;
    } else {
      assert s[..|s| - 1] == [];
      assert DecimalValue(s) == DecimalValue([]) * 10 + n;
    }
  }

  /** Distinct numbers print differently. */
  lemma NatToStringInjective(m: nat, n: nat)
    requires NatToString(m) == NatToString(n)
    ensures m == n
  {
    ParsePrinted(m);
    ParsePrinted(n);
  }
}
