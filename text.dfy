/**
 * The parts of JavaScript's string API that the front end relies on, with the
 * library's semantics written out: `\s`/`trim()` whitespace, `toLowerCase`,
 * `toUpperCase`, `includes`, `startsWith`, `split` on one character, `parseInt`,
 * `localeCompare`, and the `^\S+@\S+\.\S+$` email pattern.
 * Case mapping is restricted to ASCII letters and `localeCompare` is modelled as
 * code-point lexicographic order.
 */
module Text {
  import opened Optional

  /** The characters matched by `\s` in a regular expression and removed by `trim()`. */
  predicate IsSpace(c: char) {
    || c in {' ', '\t', '\n', '\U{000B}', '\U{000C}', '\r', '\U{00A0}', '\U{1680}'}
    || c in {'\U{2028}', '\U{2029}', '\U{202F}', '\U{205F}', '\U{3000}', '\U{FEFF}'}
    || '\U{2000}' <= c <= '\U{200A}'
  }

  predicate HasNoSpace(s: string) {
    forall i :: 0 <= i < |s| ==> !IsSpace(s[i])
  }

  function Lower(c: char): char {
    if 'A' <= c <= 'Z' then (c as int + 32) as char else c
  }

  function Upper(c: char): char {
    if 'a' <= c <= 'z' then (c as int - 32) as char else c
  }

  /** `toLowerCase()`: the character map applied position by position. */
  function LowerStr(s: string): (r: string)
    ensures |r| == |s|
    ensures forall i :: 0 <= i < |s| ==> r[i] == Lower(s[i])
  {
    if s == [] then [] else [Lower(s[0])] + LowerStr(s[1..])
  }

  /** `toUpperCase()`. */
  function UpperStr(s: string): (r: string)
    ensures |r| == |s|
    ensures forall i :: 0 <= i < |s| ==> r[i] == Upper(s[i])
  {
    if s == [] then [] else [Upper(s[0])] + UpperStr(s[1..])
  }

  /** Lower-casing never creates or removes whitespace. */
  lemma LowerKeepsSpace(c: char)
    ensures IsSpace(Lower(c)) <==> IsSpace(c)
  {
  }

  /** Lower-casing twice is lower-casing once. */
  lemma {:induction false} LowerStrIdempotent(s: string)
    ensures LowerStr(LowerStr(s)) == LowerStr(s)
  {
    var l := LowerStr(s);
    var ll := LowerStr(l);
    assert forall i :: 0 <= i < |s| ==> ll[i] == l[i];
  }

  /** `sub` occurs in `s` starting at index `i`. */
  predicate OccursAt(s: string, sub: string, i: int) {
    0 <= i <= |s| - |sub| && s[i..i + |sub|] == sub
  }

  /** `s.includes(sub)`. */
  predicate Contains(s: string, sub: string) {
    exists i | 0 <= i <= |s| - |sub| :: OccursAt(s, sub, i)
  }

  /** Every string includes the empty string, so an empty query matches everything. */
  lemma ContainsEmpty(s: string)
    ensures Contains(s, "")
  {
    assert OccursAt(s, "", 0);
  }

  /** A non-empty query is never included in the empty string. */
  lemma EmptyContainsOnlyEmpty(sub: string)
    ensures Contains("", sub) <==> sub == ""
  {
    if sub == "" {
      ContainsEmpty("");
    }
  }

  /** `field.toLowerCase().includes(term.toLowerCase())`: the search test of the list pages. */
  predicate IncludesIgnoringCase(field: string, term: string) {
    Contains(LowerStr(field), LowerStr(term))
  }

  /** The empty search term is included in every field. */
  lemma IncludesEmptyTerm(field: string)
    ensures IncludesIgnoringCase(field, "")
  {
    ContainsEmpty(LowerStr(field));
  }

  /** A field always matches itself, whatever its case. */
  lemma IncludesItself(field: string)
    ensures IncludesIgnoringCase(field, field)
  {
    assert OccursAt(LowerStr(field), LowerStr(field), 0);
  }

  /** `s.startsWith(prefix)`. */
  predicate StartsWith(s: string, prefix: string) {
    |prefix| <= |s| && s[..|prefix|] == prefix
  }

  // ----- split / join on one separator character -----

  /** `s.split(sep)` for a one-character separator: never empty, no piece holds `sep`. */
  function Split(s: string, sep: char): (parts: seq<string>)
    ensures |parts| >= 1
    ensures forall k :: 0 <= k < |parts| ==> sep !in parts[k]
  {
    if |s| == 0 then [""]
    else
      var rest := Split(s[1..], sep);
      if s[0] == sep then [""] + rest
      else [[s[0]] + rest[0]] + rest[1..]
  }

  /** `parts.join(sep)`. */
  function Join(parts: seq<string>, sep: char): string
    requires |parts| >= 1
  {
    if |parts| == 1 then parts[0] else parts[0] + [sep] + Join(parts[1..], sep)
  }

  /** A string without the separator is a single piece. */
  lemma {:induction false} SplitWithoutSep(s: string, sep: char)
    requires sep !in s
    ensures Split(s, sep) == [s]
  {
    if |s| > 0 {
      SplitWithoutSep(s[1..], sep);
      assert [s[0]] + s[1..] == s;
    }
  }

  /** Splitting at the first separator: the text before it is the first piece. */
  lemma {:induction false} SplitAtFirst(a: string, b: string, sep: char)
    requires sep !in a
    ensures Split(a + [sep] + b, sep) == [a] + Split(b, sep)
  {
    var s := a + [sep] + b;
    if |a| == 0 {
      assert s[1..] == b;
    } else {
      assert s[1..] == a[1..] + [sep] + b;
      SplitAtFirst(a[1..], b, sep);
      assert [a[0]] + a[1..] == a;
    }
  }

  /** Joining the pieces gives back the string. */
  lemma {:induction false} JoinSplit(s: string, sep: char)
    ensures Join(Split(s, sep), sep) == s
  {
    if |s| > 0 {
      var rest := Split(s[1..], sep);
      JoinSplit(s[1..], sep);
      assert s == [s[0]] + s[1..];
      if s[0] == sep {
        assert Split(s, sep) == [""] + rest;
        assert ([""] + rest)[1..] == rest;
      } else {
        var parts := [[s[0]] + rest[0]] + rest[1..];
        assert Split(s, sep) == parts;
        if |rest| > 1 {
          assert parts[1..] == rest[1..];
          assert Join(rest, sep) == rest[0] + [sep] + Join(rest[1..], sep);
        }
      }
    }
  }

  /** Splitting the joined pieces gives back the pieces, when none holds the separator. */
  lemma {:induction false} SplitJoin(parts: seq<string>, sep: char)
    requires |parts| >= 1
    requires forall k :: 0 <= k < |parts| ==> sep !in parts[k]
    ensures Split(Join(parts, sep), sep) == parts
  {
    if |parts| == 1 {
      SplitWithoutSep(parts[0], sep);
    } else {
      SplitAtFirst(parts[0], Join(parts[1..], sep), sep);
      SplitJoin(parts[1..], sep);
      assert [parts[0]] + parts[1..] == parts;
    }
  }

  /** The number of pieces is one more than the number of separators. */
  lemma {:induction false} SplitCount(s: string, sep: char)
    ensures |Split(s, sep)| == 1 + multiset(s)[sep]
  {
    if |s| > 0 {
      SplitCount(s[1..], sep);
      assert s == [s[0]] + s[1..];
    }
  }

  // ----- trim -----

  function TrimStart(s: string): (r: string)
    ensures |r| <= |s| && r == s[|s| - |r|..]
    ensures r == [] || !IsSpace(r[0])
    ensures forall i :: 0 <= i < |s| - |r| ==> IsSpace(s[i])
  {
    if |s| > 0 && IsSpace(s[0]) then TrimStart(s[1..]) else s
  }

  function TrimEnd(s: string): (r: string)
    ensures |r| <= |s| && r == s[..|r|]
    ensures r == [] || !IsSpace(r[|r| - 1])
    ensures forall i :: |r| <= i < |s| ==> IsSpace(s[i])
  {
    if |s| > 0 && IsSpace(s[|s| - 1]) then TrimEnd(s[..|s| - 1]) else s
  }

  /** `s.trim()`: the longest infix that neither starts nor ends with whitespace. */
  function Trim(s: string): (r: string)
    ensures r == [] || (!IsSpace(r[0]) && !IsSpace(r[|r| - 1]))
  {
    TrimEnd(TrimStart(s))
  }

  /** Trim removes exactly a whitespace prefix and a whitespace suffix. */
  lemma TrimIsInfix(s: string) returns (i: nat, j: nat)
    ensures i <= j <= |s| && Trim(s) == s[i..j]
    ensures forall k :: 0 <= k < i ==> IsSpace(s[k])
    ensures forall k :: j <= k < |s| ==> IsSpace(s[k])
  {
    var t := TrimStart(s);
    var r := TrimEnd(t);
    i := |s| - |t|;
    j := i + |r|;
    SliceOfSlice(s, i, |r|);
    forall k | j <= k < |s|
      ensures IsSpace(s[k])
    {
      assert t[k - i] == s[k];
    }
  }

  /** The first `n` characters after position `i`. */
  lemma SliceOfSlice(s: string, i: nat, n: nat)
    requires i + n <= |s|
    ensures s[i..][..n] == s[i..i + n]
  {
  }

  /** A string that is already trimmed is left alone; so trimming is idempotent. */
  lemma TrimTrimmed(s: string)
    requires s == [] || (!IsSpace(s[0]) && !IsSpace(s[|s| - 1]))
    ensures Trim(s) == s
  {
  }

  lemma TrimIdempotent(s: string)
    ensures Trim(Trim(s)) == Trim(s)
  {
    TrimTrimmed(Trim(s));
  }

  // ----- integers -----

  predicate IsDigit(c: char) {
    '0' <= c <= '9'
  }

  predicate AllDigits(s: string) {
    forall i :: 0 <= i < |s| ==> IsDigit(s[i])
  }

  /** The longest prefix made of decimal digits. */
  function DigitPrefix(s: string): (d: string)
    ensures |d| <= |s| && d == s[..|d|]
    ensures AllDigits(d)
    ensures |d| < |s| ==> !IsDigit(s[|d|])
  {
    if |s| > 0 && IsDigit(s[0]) then [s[0]] + DigitPrefix(s[1..]) else []
  }

  function DigitsValue(d: string): nat
    requires AllDigits(d)
  {
    if |d| == 0 then 0 else DigitsValue(d[..|d| - 1]) * 10 + (d[|d| - 1] as int - '0' as int)
  }

  /**
   * `parseInt(s)` in base ten: leading whitespace is skipped, one sign is
   * accepted, then the longest run of digits is read; no digits is NaN (None).
   */
  function ParseInt(s: string): (r: Option<int>)
    ensures r.None? <==> DigitPrefix(SignStripped(TrimStart(s))) == ""
  {
    var t := TrimStart(s);
    var digits := DigitPrefix(SignStripped(t));
    if |digits| == 0 then None
    else
      var magnitude: int := DigitsValue(digits);
      if |t| > 0 && t[0] == '-' then Some(-magnitude) else Some(magnitude)
  }

  function SignStripped(t: string): string {
    if |t| > 0 && (t[0] == '-' || t[0] == '+') then t[1..] else t
  }

  function DigitChar(d: nat): (c: char)
    requires d < 10
    ensures IsDigit(c) && c as int - '0' as int == d
  {
    ('0' as int + d) as char
  }

  /** `String(n)` for a natural number. */
  function NatToString(n: nat): (s: string)
    ensures |s| >= 1 && AllDigits(s)
  {
    if n < 10 then [DigitChar(n)] else NatToString(n / 10) + [DigitChar(n % 10)]
  }

  /** `String(n)` for an integer. */
  function IntToString(n: int): (s: string)
    ensures |s| >= 1
  {
    if n < 0 then "-" + NatToString(-n) else NatToString(n)
  }

  lemma {:induction false} NatToStringValue(n: nat)
    ensures DigitsValue(NatToString(n)) == n
  {
    if n >= 10 {
      var s := NatToString(n);
      NatToStringValue(n / 10);
      assert s[..|s| - 1] == NatToString(n / 10);
    }
  }

  lemma DigitPrefixOfDigits(s: string)
    requires AllDigits(s)
    ensures DigitPrefix(s) == s
  {
  }

  /** A string that does not start with whitespace has nothing to skip. */
  lemma TrimStartNoSpace(s: string)
    requires s == [] || !IsSpace(s[0])
    ensures TrimStart(s) == s
  {
  }

  lemma DigitOrSignNotSpace(c: char)
    requires c == '-' || IsDigit(c)
    ensures !IsSpace(c)
  {
  }

  /** `parseInt(String(n)) === n`: printing an integer and parsing it back is the identity. */
  lemma IntToStringRoundTrip(n: int)
    ensures ParseInt(IntToString(n)) == Some(n)
  {
    var m: nat := if n < 0 then -n else n;
    var digits := NatToString(m);
    NatToStringValue(m);
    DigitPrefixOfDigits(digits);
    var s := IntToString(n);
    if n < 0 {
      assert s == "-" + digits;
      DigitOrSignNotSpace(s[0]);
      TrimStartNoSpace(s);
      assert SignStripped(s) == digits by {
        assert s[1..] == digits;
      }
    } else {
      assert s == digits;
      DigitOrSignNotSpace(s[0]);
      TrimStartNoSpace(s);
      assert SignStripped(s) == digits;
    }
  }

  // ----- ordering -----

  /** `a.localeCompare(b)`, modelled as code-point lexicographic order. */
  function Compare(a: string, b: string): (r: int)
    ensures -1 <= r <= 1
    ensures r == 0 <==> a == b
  {
    if |a| == 0 && |b| == 0 then 0
    else if |a| == 0 then -1
    else if |b| == 0 then 1
    else if a[0] < b[0] then -1
    else if a[0] > b[0] then 1
    else
      var r := Compare(a[1..], b[1..]);
      assert a == [a[0]] + a[1..] && b == [b[0]] + b[1..];
      r
  }

  lemma {:induction false} CompareAntisymmetric(a: string, b: string)
    ensures Compare(a, b) == -Compare(b, a)
  {
    if |a| > 0 && |b| > 0 && a[0] == b[0] {
      CompareAntisymmetric(a[1..], b[1..]);
    }
  }

  lemma {:induction false} CompareTransitive(a: string, b: string, c: string)
    requires Compare(a, b) <= 0 && Compare(b, c) <= 0
    ensures Compare(a, c) <= 0
  {
    if |a| > 0 && |b| > 0 && |c| > 0 && a[0] == b[0] == c[0] {
      CompareTransitive(a[1..], b[1..], c[1..]);
    }
  }

  /**
   * Code-point lexicographic order stated directly: `a` sorts no later than `b`
   * when it is a prefix of `b`, or is smaller at the first place they differ.
   */
  predicate TextNotAfter(a: string, b: string) {
    StartsWith(b, a) || SmallerAtFirstDifference(a, b)
  }

  predicate SmallerAtFirstDifference(a: string, b: string) {
    exists k :: 0 <= k < |a| && k < |b| && a[..k] == b[..k] && a[k] < b[k]
  }

  /** `Compare` puts `a` first (or ties) exactly when `a` sorts no later than `b`. */
  lemma {:induction false} CompareOrder(a: string, b: string)
    ensures Compare(a, b) <= 0 <==> TextNotAfter(a, b)
  {
    if |a| == 0 {
      assert a == b[..0];
    } else if |b| == 0 {
    } else if a[0] < b[0] {
      assert a[..0] == b[..0];
    } else if a[0] > b[0] {
      NotAfterHeads(a, b);
    } else {
      CompareOrder(a[1..], b[1..]);
      StartsWithTails(a, b);
      DifferenceDropHead(a, b);
      DifferenceAddHead(a, b);
    }
  }

  lemma NotAfterHeads(a: string, b: string)
    requires |a| > 0 && |b| > 0
    ensures TextNotAfter(a, b) ==> a[0] <= b[0]
  {
    if StartsWith(b, a) {
      assert a[0] == b[..|a|][0];
    } else if SmallerAtFirstDifference(a, b) {
      var k :| 0 <= k < |a| && k < |b| && a[..k] == b[..k] && a[k] < b[k];
      if k > 0 {
        assert a[0] == a[..k][0] && b[0] == b[..k][0];
      }
    }
  }

  lemma StartsWithTails(a: string, b: string)
    requires |a| > 0 && |b| > 0 && a[0] == b[0]
    ensures StartsWith(b, a) <==> StartsWith(b[1..], a[1..])
  {
    if |a| <= |b| {
      assert a == [a[0]] + a[1..];
      assert b[..|a|] == [b[0]] + b[1..][..|a| - 1];
    }
  }

  lemma DifferenceDropHead(a: string, b: string)
    requires |a| > 0 && |b| > 0 && a[0] == b[0]
    ensures SmallerAtFirstDifference(a, b) ==> SmallerAtFirstDifference(a[1..], b[1..])
  {
    if SmallerAtFirstDifference(a, b) {
      var k :| 0 <= k < |a| && k < |b| && a[..k] == b[..k] && a[k] < b[k];
      assert k > 0;
      assert a[1..][..k - 1] == a[..k][1..] && b[1..][..k - 1] == b[..k][1..];
      assert a[1..][k - 1] == a[k] && b[1..][k - 1] == b[k];
    }
  }

  lemma DifferenceAddHead(a: string, b: string)
    requires |a| > 0 && |b| > 0 && a[0] == b[0]
    ensures SmallerAtFirstDifference(a[1..], b[1..]) ==> SmallerAtFirstDifference(a, b)
  {
    if SmallerAtFirstDifference(a[1..], b[1..]) {
      var a', b' := a[1..], b[1..];
      var k :| 0 <= k < |a'| && k < |b'| && a'[..k] == b'[..k] && a'[k] < b'[k];
      assert a[..k + 1] == [a[0]] + a'[..k] && b[..k + 1] == [b[0]] + b'[..k];
      assert a[k + 1] == a'[k] && b[k + 1] == b'[k];
    }
  }

  // ----- the email pattern -----

  /**
   * `/^\S+@\S+\.\S+$/.test(s)`: no whitespace anywhere, and an `@` with at least
   * one character before it, followed (after at least one character) by a `.`
   * with at least one character after it.
   */
  predicate MatchesEmailPattern(s: string) {
    && HasNoSpace(s)
    && exists i, j :: 0 < i && i + 1 < j < |s| - 1 && s[i] == '@' && s[j] == '.'
  }

  lemma EmailExamples()
    ensures MatchesEmailPattern("a@b.c")
    ensures !MatchesEmailPattern("a@b.")
    ensures !MatchesEmailPattern("@b.c")
    ensures !MatchesEmailPattern("a@.c")
    ensures !MatchesEmailPattern("a @b.c")
  {
    var s := "a@b.c";
    assert s[1] == '@' && s[3] == '.';
    assert " "[0] == ' ';
    assert "a @b.c"[1] == ' ';
  }
}
