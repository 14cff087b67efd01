/** The parts of Go's `strings`, `unicode` and `strconv` packages that the
    modelled code calls, over strings as sequences of characters.  Case
    mapping is ASCII-only; white space is the Unicode White_Space set that
    `unicode.IsSpace` recognises. */
module GoStrings {
  import opened Wrappers

  // ---------------------------------------------------------------- case

  predicate IsUpper(c: char) { 'A' <= c <= 'Z' }

  function LowerChar(c: char): char
  {
    if IsUpper(c) then (c as int + 32) as char else c
  }

  /** strings.ToLower, restricted to ASCII letters. */
  function ToLower(s: string): (r: string)
    ensures |r| == |s|
    ensures forall i :: 0 <= i < |s| ==> r[i] == LowerChar(s[i])
  {
    if s == [] then [] else [LowerChar(s[0])] + ToLower(s[1..])
  }

  lemma ToLowerNoUpper(s: string)
    ensures forall i :: 0 <= i < |s| ==> !IsUpper(ToLower(s)[i])
  {
  }

  /** A string without upper-case letters is its own lower-case form. */
  lemma ToLowerKeepsLower(s: string)
    requires forall i :: 0 <= i < |s| ==> !IsUpper(s[i])
    ensures ToLower(s) == s
  {
    assert forall i :: 0 <= i < |s| ==> ToLower(s)[i] == s[i];
  }

  lemma ToLowerIdempotent(s: string)
    ensures ToLower(ToLower(s)) == ToLower(s)
  {
  }

  // ------------------------------------------------------------ white space

  /** unicode.IsSpace: the Unicode White_Space property. */
  predicate IsSpace(c: char)
  {
    ('\U{0009}' <= c <= '\U{000D}') || c == ' ' || c == '\U{0085}' || c == '\U{00A0}'
    || c == '\U{1680}' || ('\U{2000}' <= c <= '\U{200A}') || c == '\U{2028}' || c == '\U{2029}'
    || c == '\U{202F}' || c == '\U{205F}' || c == '\U{3000}'
  }

  function TrimLeftSpace(s: string): (r: string)
    ensures |r| <= |s| && r == s[|s| - |r|..]
    ensures r == [] || !IsSpace(r[0])
    ensures forall i :: 0 <= i < |s| - |r| ==> IsSpace(s[i])
  {
    if s != [] && IsSpace(s[0]) then
      var r := TrimLeftSpace(s[1..]);
      assert forall i :: 1 <= i < |s| - |r| ==> s[i] == s[1..][i - 1];
      r
    else s
  }

  function TrimRightSpace(s: string): (r: string)
    ensures |r| <= |s| && r == s[..|r|]
    ensures r == [] || !IsSpace(r[|r| - 1])
    ensures forall i :: |r| <= i < |s| ==> IsSpace(s[i])
  {
    if s != [] && IsSpace(s[|s| - 1]) then
      var r := TrimRightSpace(s[..|s| - 1]);
      assert forall i :: |r| <= i < |s| - 1 ==> s[i] == s[..|s| - 1][i];
      r
    else s
  }

  /** strings.TrimSpace. */
  function TrimSpace(s: string): (r: string)
    ensures r == [] || (!IsSpace(r[0]) && !IsSpace(r[|r| - 1]))
  {
    TrimRightSpace(TrimLeftSpace(s))
  }

  /** TrimSpace keeps one slice of s and drops only white space around
      it. */
  lemma TrimSpaceFramed(s: string)
    ensures exists i: nat :: SpaceFramed(s, i, TrimSpace(s))
  {
    var l := TrimLeftSpace(s);
    var r := TrimRightSpace(l);
    assert TrimSpace(s) == r;
    var i := |s| - |l|;
    assert r == s[i..i + |r|];
    forall k | i + |r| <= k < |s|
      ensures IsSpace(s[k])
    {
      assert s[k] == l[k - i];
    }
    assert SpaceFramed(s, i, r);
  }

  /** r is the slice of s starting at i, and everything in s before and
      after that slice is white space. */
  predicate SpaceFramed(s: string, i: nat, r: string)
  {
    i + |r| <= |s| && r == s[i..i + |r|]
    && (forall k :: 0 <= k < i ==> IsSpace(s[k]))
    && (forall k :: i + |r| <= k < |s| ==> IsSpace(s[k]))
  }

  /** Trimming a string that neither starts nor ends with white space
      changes nothing. */
  lemma TrimSpaceOfTrimmed(s: string)
    requires s == [] || (!IsSpace(s[0]) && !IsSpace(s[|s| - 1]))
    ensures TrimSpace(s) == s
  {
    assert TrimLeftSpace(s) == s;
  }

  /** Lower-casing neither creates nor removes white space. */
  lemma LowerKeepsSpace(s: string)
    ensures forall i :: 0 <= i < |s| ==> (IsSpace(ToLower(s)[i]) <==> IsSpace(s[i]))
  {
  }

  /** A string is blank when it holds nothing but white space. */
  predicate IsBlank(s: string)
  {
    forall i :: 0 <= i < |s| ==> IsSpace(s[i])
  }

  lemma {:induction false} TrimSpaceEmptyIffBlank(s: string)
    ensures TrimSpace(s) == [] <==> IsBlank(s)
  {
    var l := TrimLeftSpace(s);
    assert l != [] ==> l[0] == s[|s| - |l|];
    if !IsBlank(s) {
      var k :| 0 <= k < |s| && !IsSpace(s[k]);
      assert |s| - |l| <= k;
      var c := l[k - (|s| - |l|)];
      assert c == s[k];
      assert TrimRightSpace(l) == [] ==> IsSpace(c);
    }
  }

  /** strings.Trim(s, cutset) for a cutset of one character. */
  function TrimChar(s: string, c: char): (r: string)
    ensures |r| <= |s|
    ensures r == [] || (r[0] != c && r[|r| - 1] != c)
    ensures c !in s ==> r == s
  {
    TrimCharRight(TrimCharLeft(s, c), c)
  }

  /** TrimChar keeps one slice of s and drops only copies of c around
      it. */
  lemma TrimCharFramed(s: string, c: char)
    ensures exists i: nat :: CharFramed(s, c, i, TrimChar(s, c))
  {
    var l := TrimCharLeft(s, c);
    var r := TrimCharRight(l, c);
    assert TrimChar(s, c) == r;
    var i := |s| - |l|;
    assert forall k :: i + |r| <= k < |s| ==> s[k] == l[k - i];
    assert r == s[i..i + |r|];
    assert CharFramed(s, c, i, r);
  }

  /** r is the slice of s starting at i, and everything in s before and
      after that slice is the character c. */
  predicate CharFramed(s: string, c: char, i: nat, r: string)
  {
    i + |r| <= |s| && r == s[i..i + |r|]
    && (forall k :: 0 <= k < i ==> s[k] == c)
    && (forall k :: i + |r| <= k < |s| ==> s[k] == c)
  }

  function TrimCharLeft(s: string, c: char): (r: string)
    ensures |r| <= |s| && r == s[|s| - |r|..]
    ensures r == [] || r[0] != c
    ensures c !in s ==> r == s
    ensures forall k :: 0 <= k < |s| - |r| ==> s[k] == c
  {
    if s != [] && s[0] == c then
      var r := TrimCharLeft(s[1..], c);
      assert forall k :: 1 <= k < |s| - |r| ==> s[k] == s[1..][k - 1];
      r
    else s
  }

  function TrimCharRight(s: string, c: char): (r: string)
    ensures |r| <= |s| && r == s[..|r|]
    ensures r == [] || r[|r| - 1] != c
    ensures c !in s ==> r == s
    ensures forall k :: |r| <= k < |s| ==> s[k] == c
  {
    if s != [] && s[|s| - 1] == c then
      var r := TrimCharRight(s[..|s| - 1], c);
      assert forall k :: |r| <= k < |s| - 1 ==> s[k] == s[..|s| - 1][k];
      r
    else s
  }

  // ------------------------------------------------------ prefixes, search

  predicate HasPrefix(s: string, p: string)
  {
    |p| <= |s| && s[..|p|] == p
  }

  /** strings.TrimPrefix: drop p once if s starts with it. */
  function TrimPrefix(s: string, p: string): (r: string)
    ensures HasPrefix(s, p) ==> s == p + r
    ensures !HasPrefix(s, p) ==> r == s
  {
    if HasPrefix(s, p) then s[|p|..] else s
  }

  predicate HasSuffix(s: string, p: string)
  {
    |p| <= |s| && s[|s| - |p|..] == p
  }

  /** strings.TrimSuffix. */
  function TrimSuffix(s: string, p: string): (r: string)
    ensures HasSuffix(s, p) ==> s == r + p
    ensures !HasSuffix(s, p) ==> r == s
  {
    if HasSuffix(s, p) then s[..|s| - |p|] else s
  }

  /** strings.Contains. */
  predicate Contains(s: string, sub: string)
    decreases |s|
  {
    HasPrefix(s, sub) || (s != [] && Contains(s[1..], sub))
  }

  /** strings.ContainsAny. */
  predicate ContainsAny(s: string, chars: string)
  {
    exists i :: 0 <= i < |s| && s[i] in chars
  }

  /** strings.Index for a one-character separator, or |s| when absent. */
  function IndexOf(s: string, c: char): (r: nat)
    ensures r <= |s|
    ensures r < |s| ==> s[r] == c
    ensures c !in s[..r]
    ensures r == |s| <==> c !in s
  {
    if s == [] then 0
    else if s[0] == c then 0
    else 1 + IndexOf(s[1..], c)
  }

  /** strings.ReplaceAll(s, string(from), string(to)) for single characters. */
  function ReplaceChar(s: string, from: char, to: char): (r: string)
    ensures |r| == |s|
    ensures forall i :: 0 <= i < |s| ==> r[i] == if s[i] == from then to else s[i]
  {
    if s == [] then [] else [if s[0] == from then to else s[0]] + ReplaceChar(s[1..], from, to)
  }
  /** Replacing a character the string does not hold changes nothing. */
  lemma ReplaceAbsent(s: string, from: char, to: char)
    requires from !in s
    ensures ReplaceChar(s, from, to) == s
  {
    assert forall i :: 0 <= i < |s| ==> ReplaceChar(s, from, to)[i] == s[i];
  }


  // ------------------------------------------------------------ split/join

  /** strings.Split(s, string(sep)): the pieces between separators; never
      empty, and `Split("", sep) == [""]`. */
  function Split(s: string, sep: char): (r: seq<string>)
    ensures |r| >= 1
  {
    if s == [] then [""]
    else if s[0] == sep then [""] + Split(s[1..], sep)
    else
      var rest := Split(s[1..], sep);
      [[s[0]] + rest[0]] + rest[1..]
  }

  /** strings.Join. */
  function Join(parts: seq<string>, sep: string): string
  {
    if parts == [] then ""
    else if |parts| == 1 then parts[0]
    else parts[0] + sep + Join(parts[1..], sep)
  }

  /** Joining a list whose first piece is extended at the front extends
      the join at the front. */
  lemma JoinExtendHead(c: char, parts: seq<string>, sep: string)
    requires parts != []
    ensures Join([[c] + parts[0]] + parts[1..], sep) == [c] + Join(parts, sep)
  {
    var q := [[c] + parts[0]] + parts[1..];
    assert q[1..] == parts[1..];
    if |parts| > 1 {
      assert Join(q, sep) == ([c] + parts[0]) + sep + Join(parts[1..], sep);
    }
  }

  lemma {:induction false} JoinSplit(s: string, sep: char)
    ensures Join(Split(s, sep), [sep]) == s
  {
    if s != [] {
      var rest := Split(s[1..], sep);
      JoinSplit(s[1..], sep);
      if s[0] == sep {
        assert Split(s, sep) == [""] + rest;
        assert ([""] + rest)[1..] == rest;
        assert Join([""] + rest, [sep]) == "" + [sep] + Join(rest, [sep]);
      } else {
        JoinExtendHead(s[0], rest, [sep]);
      }
      assert s == [s[0]] + s[1..];
    }
  }

  /** Splitting at the first separator. */
  lemma {:induction false} SplitAtFirst(a: string, sep: char, rest: string)
    requires sep !in a
    ensures Split(a + [sep] + rest, sep) == [a] + Split(rest, sep)
  {
    if a == [] {
      assert a + [sep] + rest == [sep] + rest;
    } else {
      SplitAtFirst(a[1..], sep, rest);
      assert a + [sep] + rest == [a[0]] + (a[1..] + [sep] + rest);
      assert a == [a[0]] + a[1..];
    }
  }

  lemma {:induction false} SplitNoSep(a: string, sep: char)
    requires sep !in a
    ensures Split(a, sep) == [a]
  {
    if a != [] {
      SplitNoSep(a[1..], sep);
      assert a == [a[0]] + a[1..];
    }
  }

  lemma {:induction false} SplitJoin(parts: seq<string>, sep: char)
    requires |parts| >= 1
    requires forall i :: 0 <= i < |parts| ==> sep !in parts[i]
    ensures Split(Join(parts, [sep]), sep) == parts
  {
    if |parts| == 1 {
      SplitNoSep(parts[0], sep);
    } else {
      SplitJoin(parts[1..], sep);
      SplitAtFirst(parts[0], sep, Join(parts[1..], [sep]));
      assert parts == [parts[0]] + parts[1..];
    }
  }

  // ------------------------------------------------------------ ordering

  /** Go's `<` on strings: lexicographic on characters. */
  predicate Less(a: string, b: string)
  {
    if a == [] then b != []
    else if b == [] then false
    else if a[0] != b[0] then a[0] < b[0]
    else Less(a[1..], b[1..])
  }

  lemma {:induction false} LessIrreflexive(a: string)
    ensures !Less(a, a)
  {
    if a != [] { LessIrreflexive(a[1..]); }
  }

  lemma {:induction false} LessAsymmetric(a: string, b: string)
    ensures Less(a, b) ==> !Less(b, a)
  {
    if a != [] && b != [] && a[0] == b[0] { LessAsymmetric(a[1..], b[1..]); }
  }

  lemma {:induction false} LessTotal(a: string, b: string)
    ensures a == b || Less(a, b) || Less(b, a)
  {
    if a != [] && b != [] && a[0] == b[0] {
      LessTotal(a[1..], b[1..]);
      if a[1..] == b[1..] {
        assert a == [a[0]] + a[1..] && b == [b[0]] + b[1..];
      }
    }
  }

  // ------------------------------------------------------------ numbers

  function DigitChar(d: nat): char
    requires d < 10
  {
    ('0' as int + d) as char
  }

  /** strconv.Itoa for non-negative numbers. */
  function NatToString(n: nat): (r: string)
    ensures |r| >= 1
    ensures forall i :: 0 <= i < |r| ==> '0' <= r[i] <= '9'
  {
    if n < 10 then [DigitChar(n)] else NatToString(n / 10) + [DigitChar(n % 10)]
  }

  predicate IsDigit(c: char) { '0' <= c <= '9' }

  predicate AllDigits(s: string) { forall i :: 0 <= i < |s| ==> IsDigit(s[i]) }

  /** The value of a string of decimal digits. */
  function DigitsValue(s: string): nat
    requires AllDigits(s)
  {
    if s == [] then 0 else DigitsValue(s[..|s| - 1]) * 10 + (s[|s| - 1] as int - '0' as int)
  }

  const MinInt64: int := -0x8000_0000_0000_0000
  const MaxInt64: int := 0x7FFF_FFFF_FFFF_FFFF

  /** Atoi's syntax: an optional sign, then at least one decimal digit. */
  predicate AtoiSyntax(s: string)
  {
    var digits := if s != [] && (s[0] == '+' || s[0] == '-') then s[1..] else s;
    digits != [] && AllDigits(digits)
  }

  /** The value a string of Atoi's syntax denotes, without any bound. */
  function SignedValue(s: string): int
    requires AtoiSyntax(s)
  {
    if s[0] == '+' || s[0] == '-' then
      var m: int := DigitsValue(s[1..]);
      if s[0] == '-' then 0 - m else m
    else DigitsValue(s)
  }

  /** strconv.Atoi: its syntax, within the 64-bit range; anything else is an
      error. */
  function Atoi(s: string): (r: Option<int>)
    ensures r.Some? ==> MinInt64 <= r.value <= MaxInt64
    ensures r.Some? <==> AtoiSyntax(s) && MinInt64 <= SignedValue(s) <= MaxInt64
    ensures s == "" ==> r.None?
  {
    if !AtoiSyntax(s) then None
    else
      var v := SignedValue(s);
      if MinInt64 <= v <= MaxInt64 then Some(v) else None
  }

  const MaxUint64: int := 0xFFFF_FFFF_FFFF_FFFF

  /** What strconv's base-10 digit loop makes of the text after the sign. */
  datatype Scan = BadDigit | Overflow | Digits(value: nat)

  /** The digit loop of strconv.ParseUint: digits are read left to right
      into the accumulator n; a non-digit stops the loop with a syntax
      error, and a step past 2^64 - 1 stops it with a range error whatever
      the characters still unread. */
  function ScanDigits(d: string, n: nat): Scan
  {
    if d == [] then Digits(n)
    else if !IsDigit(d[0]) then BadDigit
    else
      var m := n * 10 + (d[0] as int - '0' as int);
      if m > MaxUint64 then Overflow else ScanDigits(d[1..], m)
  }

  /** The text after an optional leading sign. */
  function Unsigned(s: string): (r: string)
    ensures r == s || (s != [] && r == s[1..])
  {
    if s != [] && (s[0] == '+' || s[0] == '-') then s[1..] else s
  }

  /** The length of the run of digits at the start of d. */
  function DigitRun(d: string): (k: nat)
    ensures k <= |d| && AllDigits(d[..k])
    ensures k < |d| ==> !IsDigit(d[k])
  {
    if d == [] || !IsDigit(d[0]) then 0
    else
      var k := 1 + DigitRun(d[1..]);
      assert forall i :: 1 <= i < k ==> d[..k][i] == d[1..][..k - 1][i - 1];
      k
  }

  /** The value of the digits a string starts with, after its sign. */
  function LeadingValue(s: string): nat
  {
    var d := Unsigned(s);
    DigitsValue(d[..DigitRun(d)])
  }

  /** The number `n, _ := strconv.Atoi(s)` leaves in n: 0 after a syntax
      error, the nearest 64-bit bound after a range error.  A range error
      is raised as soon as the digits read exceed 2^64 - 1, so a long
      enough digit run is clamped even when a non-digit follows it. */
  function AtoiValue(s: string): (r: int)
    ensures MinInt64 <= r <= MaxInt64
    ensures Atoi(s).Some? ==> r == Atoi(s).value
    ensures AtoiSyntax(s) && SignedValue(s) > MaxInt64 ==> r == MaxInt64
    ensures AtoiSyntax(s) && SignedValue(s) < MinInt64 ==> r == MinInt64
    ensures LeadingValue(s) > MaxUint64 ==> r == if s[0] == '-' then MinInt64 else MaxInt64
    ensures !AtoiSyntax(s) && LeadingValue(s) <= MaxUint64 ==> r == 0
  {
    var d := Unsigned(s);
    var neg := s != [] && s[0] == '-';
    ScanDigitsRun(d, 0);
    assert DigitRun(d) == |d| ==> d[..DigitRun(d)] == d;
    AccDigitsValue(d[..DigitRun(d)]);
    if d == [] then 0
    else
      match ScanDigits(d, 0)
      case BadDigit => 0
      case Overflow => if neg then MinInt64 else MaxInt64
      case Digits(u) =>
        if neg then (if u > -MinInt64 then MinInt64 else 0 - u)
        else (if u > MaxInt64 then MaxInt64 else u)
  }

  /** The value of the digits p appended to the number n. */
  function AccValue(n: nat, p: string): nat
    requires AllDigits(p)
  {
    if p == [] then n else AccValue(n, p[..|p| - 1]) * 10 + (p[|p| - 1] as int - '0' as int)
  }

  lemma {:induction false} AccDigitsValue(p: string)
    requires AllDigits(p)
    ensures AccValue(0, p) == DigitsValue(p)
  {
    if p != [] { AccDigitsValue(p[..|p| - 1]); }
  }

  /** Appending digits never makes a number smaller. */
  lemma {:induction false} AccGrows(n: nat, p: string)
    requires AllDigits(p)
    ensures AccValue(n, p) >= n
  {
    if p != [] { AccGrows(n, p[..|p| - 1]); }
  }

  /** Reading the first digit into the accumulator first. */
  lemma {:induction false} AccFirst(n: nat, p: string)
    requires p != [] && AllDigits(p)
    ensures AccValue(n, p) == AccValue(n * 10 + (p[0] as int - '0' as int), p[1..])
  {
    if |p| > 1 {
      var q := p[..|p| - 1];
      AccFirst(n, q);
      assert q[1..] == p[1..][..|p[1..]| - 1];
    }
  }

  /** The loop of ScanDigits, described by the whole digit run: it
      overflows exactly when the run's value does, and otherwise fails
      exactly when a non-digit follows the run. */
  lemma {:induction false} ScanDigitsRun(d: string, n: nat)
    requires n <= MaxUint64
    ensures var k := DigitRun(d); var v := AccValue(n, d[..k]);
      && (v > MaxUint64 ==> ScanDigits(d, n) == Overflow)
      && (v <= MaxUint64 && k < |d| ==> ScanDigits(d, n) == BadDigit)
      && (v <= MaxUint64 && k == |d| ==> ScanDigits(d, n) == Digits(v))
  {
    var k := DigitRun(d);
    if d != [] && IsDigit(d[0]) {
      var m := n * 10 + (d[0] as int - '0' as int);
      var rest := d[1..];
      assert d[..k][1..] == rest[..DigitRun(rest)];
      AccFirst(n, d[..k]);
      if m > MaxUint64 {
        AccGrows(m, rest[..DigitRun(rest)]);
      } else {
        ScanDigitsRun(rest, m);
        if k == |d| { assert d[..k] == d; assert rest[..DigitRun(rest)] == rest; }
      }
    }
  }

  /** The run of digits at the start of digits + junk is exactly the
      digits when the junk starts with a non-digit. */
  lemma {:induction false} DigitRunBeforeJunk(digits: string, junk: string)
    requires AllDigits(digits) && junk != [] && !IsDigit(junk[0])
    ensures DigitRun(digits + junk) == |digits|
    decreases |digits|
  {
    if digits != [] {
      assert (digits + junk)[1..] == digits[1..] + junk;
      DigitRunBeforeJunk(digits[1..], junk);
    }
  }

  /** Go clamps a digit run past 2^64 - 1 even when junk follows it, and
      reads a shorter run followed by junk as 0. */
  lemma AtoiValueBeforeJunk(digits: string, junk: string)
    requires digits != [] && AllDigits(digits) && junk != [] && !IsDigit(junk[0])
    ensures DigitsValue(digits) > MaxUint64 ==> AtoiValue(digits + junk) == MaxInt64
    ensures DigitsValue(digits) > MaxUint64 ==> AtoiValue("-" + digits + junk) == MinInt64
    ensures DigitsValue(digits) <= MaxUint64 ==> AtoiValue(digits + junk) == 0
  {
    var s := digits + junk;
    DigitRunBeforeJunk(digits, junk);
    assert s[..|digits|] == digits;
    assert IsDigit(s[0]) && Unsigned(s) == s;
    var t := "-" + digits + junk;
    assert Unsigned(t) == s;
    assert !IsDigit(s[|digits|]);
  }

  lemma {:induction false} DigitsValueNatToString(n: nat)
    ensures AllDigits(NatToString(n)) && DigitsValue(NatToString(n)) == n
  {
    var s := NatToString(n);
    if n >= 10 {
      DigitsValueNatToString(n / 10);
      assert s[..|s| - 1] == NatToString(n / 10);
    }
  }

  /** Atoi reads back what Itoa writes. */
  lemma AtoiNatToString(n: nat)
    requires n <= MaxInt64
    ensures Atoi(NatToString(n)) == Some(n)
  {
    DigitsValueNatToString(n);
    var s := NatToString(n);
    assert '0' <= s[0] <= '9';
  }
}
