/**
  The string operations of Go's standard library that the bot relies on, restated over
  `seq<char>`: trimming (strings.TrimSpace, strings.Trim), splitting (strings.Split,
  strings.SplitN with a limit of 2), single-character replacement (strings.ReplaceAll) and
  decimal integers (strconv.ParseInt / strconv.Atoi with base 10 and 64 bits, and
  strconv.FormatInt / fmt's %d).
*/
module Text {
  import opened Options

  /** The characters unicode.IsSpace accepts, which strings.TrimSpace removes at both ends. */
  const Whitespace: set<char> := {
    '\t', '\n', '\U{000B}', '\U{000C}', '\r', ' ', '\U{0085}', '\U{00A0}', '\U{1680}',
    '\U{2000}', '\U{2001}', '\U{2002}', '\U{2003}', '\U{2004}', '\U{2005}', '\U{2006}',
    '\U{2007}', '\U{2008}', '\U{2009}', '\U{200A}', '\U{2028}', '\U{2029}', '\U{202F}',
    '\U{205F}', '\U{3000}'
  }

  /** Every character of `s` belongs to `cut`. */
  predicate AllIn(s: string, cut: set<char>) {
    forall k :: 0 <= k < |s| ==> s[k] in cut
  }

  /** `s` neither starts nor ends with a character of `cut`. */
  predicate Bare(s: string, cut: set<char>) {
    s == [] || (s[0] !in cut && s[|s| - 1] !in cut)
  }

  /** strings.Trim(s, cutset): removes every leading and trailing character that is in `cut`. */
  function Trim(s: string, cut: set<char>): (r: string)
    ensures Bare(r, cut)
    ensures |r| <= |s|
    decreases |s|
  {
    if |s| > 0 && s[0] in cut then Trim(s[1..], cut)
    else if |s| > 0 && s[|s| - 1] in cut then Trim(s[..|s| - 1], cut)
    else s
  }

  /** strings.TrimSpace. */
  function TrimSpace(s: string): string {
    Trim(s, Whitespace)
  }

  /**
    Trim is characterised by its result: whatever is framed by characters of `cut` on both
    sides, and neither starts nor ends with one, is what Trim returns.
  */
  lemma {:induction false} TrimFramed(p: string, m: string, q: string, cut: set<char>)
    requires AllIn(p, cut) && AllIn(q, cut) && Bare(m, cut)
    ensures Trim(p + m + q, cut) == m
    decreases |p| + |q|
  {
    var s := p + m + q;
    if |p| > 0 {
      assert s[0] == p[0];
      assert s[1..] == p[1..] + m + q;
      TrimFramed(p[1..], m, q, cut);
    } else if |q| > 0 {
      if |m| > 0 {
        assert s[0] == m[0];
        assert s[|s| - 1] == q[|q| - 1];
        assert s[..|s| - 1] == p + m + q[..|q| - 1];
        TrimFramed(p, m, q[..|q| - 1], cut);
      } else {
        assert s == q;
        assert s[0] in cut;
        assert s[1..] == p + m + q[1..];
        TrimFramed(p, m, q[1..], cut);
      }
    } else {
      assert s == m;
    }
  }

  /** Trimming a bare string changes nothing. */
  lemma TrimBare(s: string, cut: set<char>)
    requires Bare(s, cut)
    ensures Trim(s, cut) == s
  {
    TrimFramed([], s, [], cut);
    assert [] + s + [] == s;
  }

  /** Trimming twice is trimming once. */
  lemma TrimIdempotent(s: string, cut: set<char>)
    ensures Trim(Trim(s, cut), cut) == Trim(s, cut)
  {
    TrimBare(Trim(s, cut), cut);
  }

  /** The index of the first occurrence of `c` in `s`, as strings.Index with a one-character needle. */
  function IndexOf(s: string, c: char): (r: Option<nat>)
    ensures r.None? <==> c !in s
    ensures r.Some? ==> r.value < |s| && s[r.value] == c && c !in s[..r.value]
  {
    if |s| == 0 then None
    else if s[0] == c then Some(0)
    else match IndexOf(s[1..], c)
      case None => None
      case Some(i) =>
        assert s[..i + 1] == [s[0]] + s[1..][..i];
        Some(i + 1)
  }

  /** The first occurrence of `c` in `a + [c] + b` is the one after `a` when `a` has none. */
  lemma {:induction false} IndexOfAfter(a: string, c: char, b: string)
    requires c !in a
    ensures IndexOf(a + [c] + b, c) == Some(|a|)
  {
    if a != [] {
      assert (a + [c] + b)[1..] == a[1..] + [c] + b;
      IndexOfAfter(a[1..], c, b);
    }
  }

  /**
    strings.SplitN(s, sep, 2) for a one-character separator: `Some((before, after))` at the
    first separator, `None` when there is none (SplitN then yields the one part `s`).
  */
  function Cut(s: string, sep: char): (r: Option<(string, string)>)
    ensures r.None? <==> sep !in s
    ensures r.Some? ==> s == r.value.0 + [sep] + r.value.1 && sep !in r.value.0
  {
    match IndexOf(s, sep)
    case None => None
    case Some(i) =>
      assert s == s[..i] + [sep] + s[i + 1..];
      Some((s[..i], s[i + 1..]))
  }

  /** Cutting at the first separator recovers the parts when the first part has none. */
  lemma CutAfter(a: string, sep: char, b: string)
    requires sep !in a
    ensures Cut(a + [sep] + b, sep) == Some((a, b))
  {
    IndexOfAfter(a, sep, b);
    var s := a + [sep] + b;
    assert s[..|a|] == a;
    assert s[|a| + 1..] == b;
  }

  /** strings.Split(s, sep) for a one-character separator: always at least one part, none holding `sep`. */
  function Split(s: string, sep: char): (parts: seq<string>)
    ensures |parts| >= 1
    ensures forall k :: 0 <= k < |parts| ==> sep !in parts[k]
    decreases |s|
  {
    match Cut(s, sep)
    case None => [s]
    case Some((a, b)) => [a] + Split(b, sep)
  }

  /** strings.Join(parts, sep): the inverse of Split. */
  function Join(parts: seq<string>, sep: char): string
    requires |parts| >= 1
  {
    if |parts| == 1 then parts[0] else parts[0] + [sep] + Join(parts[1..], sep)
  }

  /** Joining the parts of a split gives back the string. */
  lemma {:induction false} JoinSplit(s: string, sep: char)
    ensures Join(Split(s, sep), sep) == s
    decreases |s|
  {
    match Cut(s, sep)
    case None =>
    case Some((a, b)) =>
      JoinSplit(b, sep);
      assert Split(s, sep)[1..] == Split(b, sep);
  }

  /** Splitting a join gives back the parts, provided no part holds the separator. */
  lemma {:induction false} SplitJoin(parts: seq<string>, sep: char)
    requires |parts| >= 1
    requires forall k :: 0 <= k < |parts| ==> sep !in parts[k]
    ensures Split(Join(parts, sep), sep) == parts
  {
    if |parts| == 1 {
      assert Cut(parts[0], sep).None?;
    } else {
      SplitJoin(parts[1..], sep);
      CutAfter(parts[0], sep, Join(parts[1..], sep));
      assert parts == [parts[0]] + parts[1..];
    }
  }

  /** Concatenation regroups freely. */
  lemma ConcatAssoc<T>(a: seq<T>, b: seq<T>, c: seq<T>)
    ensures a + (b + c) == a + b + c
  {
  }

  /** Dropping the first part of a concatenation leaves the second. */
  lemma DropPrefix<T>(a: seq<T>, b: seq<T>)
    ensures (a + b)[|a|..] == b && (a + b)[..|a|] == a
  {
  }

  /** A prefix one longer is the prefix and the next element. */
  lemma PrefixStep<T>(s: seq<T>, i: nat)
    requires i < |s|
    ensures s[..i + 1] == s[..i] + [s[i]]
  {
  }

  /** A slice of a suffix is a slice of the whole. */
  lemma SliceOfSuffix<T>(s: seq<T>, a: nat, b: nat, c: nat, lo: nat, hi: nat)
    requires a <= |s| && b <= c <= |s| - a
    requires lo == a + b && hi == a + c
    ensures s[a..][b..c] == s[lo..hi]
  {
  }

  /** strings.ReplaceAll(s, [c], rep): every occurrence of the character `c` becomes `rep`. */
  function ReplaceAll(s: string, c: char, rep: string): string {
    if s == [] then [] else (if s[0] == c then rep else [s[0]]) + ReplaceAll(s[1..], c, rep)
  }

  /** Replacing a single character distributes over concatenation. */
  lemma {:induction false} ReplaceAllAppend(a: string, b: string, c: char, rep: string)
    ensures ReplaceAll(a + b, c, rep) == ReplaceAll(a, c, rep) + ReplaceAll(b, c, rep)
  {
    if a != [] {
      assert (a + b)[0] == a[0];
      assert (a + b)[1..] == a[1..] + b;
      ReplaceAllAppend(a[1..], b, c, rep);
    } else {
      assert a + b == b;
    }
  }

  // ---------------------------------------------------------------------------
  // Decimal integers

  predicate IsDigit(c: char) {
    '0' <= c <= '9'
  }

  predicate AllDigits(s: string) {
    forall k :: 0 <= k < |s| ==> IsDigit(s[k])
  }

  function DigitChar(d: nat): (c: char)
    requires d < 10
    ensures IsDigit(c)
  {
    ['0', '1', '2', '3', '4', '5', '6', '7', '8', '9'][d]
  }

  function DigitValue(c: char): (d: nat)
    requires IsDigit(c)
    ensures d < 10
  {
    c as int - '0' as int
  }

  lemma DigitCharValue(d: nat)
    requires d < 10
    ensures DigitValue(DigitChar(d)) == d
  {
  }

  /** The value of a string of decimal digits, most significant first. */
  function DecimalValue(s: string): nat
    requires AllDigits(s)
  {
    if s == [] then 0 else DecimalValue(s[..|s| - 1]) * 10 + DigitValue(s[|s| - 1])
  }

  /** The shortest decimal spelling of `n`, as strconv.FormatUint. */
  function NatToDecimal(n: nat): (r: string)
    ensures |r| >= 1 && AllDigits(r)
  {
    if n < 10 then [DigitChar(n)] else NatToDecimal(n / 10) + [DigitChar(n % 10)]
  }

  /** Reading back a decimal spelling gives the number. */
  lemma {:induction false} DecimalRoundTrip(n: nat)
    ensures DecimalValue(NatToDecimal(n)) == n
  {
    var r := NatToDecimal(n);
    if n < 10 {
      DigitCharValue(n);
    } else {
      DecimalRoundTrip(n / 10);
      DigitCharValue(n % 10);
      assert r[..|r| - 1] == NatToDecimal(n / 10);
    }
  }

  const MinInt64: int := -0x8000_0000_0000_0000
  const MaxInt64: int := 0x7fff_ffff_ffff_ffff

  predicate IsInt64(n: int) {
    MinInt64 <= n <= MaxInt64
  }

  /** strconv.FormatInt(n, 10), also what fmt prints for %d. */
  function FormatInt(n: int): (r: string)
    ensures |r| >= 1
  {
    if n < 0 then "-" + NatToDecimal(-n) else NatToDecimal(n)
  }

  /**
    strconv.ParseInt(s, 10, 64) (and strconv.Atoi on a 64-bit platform): an optional sign, then
    one or more decimal digits; `None` for an empty or malformed string and for a value outside
    the 64-bit range.
  */
  function ParseInt64(s: string): (r: Option<int>)
    ensures r.Some? ==> IsInt64(r.value)
  {
    var signed := |s| > 0 && (s[0] == '+' || s[0] == '-');
    var body := if signed then s[1..] else s;
    if body == [] || !AllDigits(body) then None
    else
      var n: int := if signed && s[0] == '-' then -(DecimalValue(body) as int) else DecimalValue(body);
      if IsInt64(n) then Some(n) else None
  }

  /**
    The value strconv.ParseInt(s, 10, 64) returns when the caller drops its error: 0 for a
    string that is not an optionally signed run of decimal digits, the value itself when it
    fits in 64 bits, and the nearest 64-bit bound when it does not.
  */
  function ParseIntValue(s: string): (n: int)
    ensures IsInt64(n)
    ensures ParseInt64(s).Some? ==> n == ParseInt64(s).value
  {
    var signed := |s| > 0 && (s[0] == '+' || s[0] == '-');
    var body := if signed then s[1..] else s;
    if body == [] || !AllDigits(body) then 0
    else
      var v: int := if signed && s[0] == '-' then -(DecimalValue(body) as int) else DecimalValue(body);
      if v > MaxInt64 then MaxInt64 else if v < MinInt64 then MinInt64 else v
  }

  /**
    With its error dropped, ParseInt gives 0 exactly for a malformed string, and a bound of
    the 64-bit range for a well-formed one that does not fit.
  */
  lemma ParseIntValueCases(s: string)
    ensures ParseInt64(s).None? ==> ParseIntValue(s) == 0 || ParseIntValue(s) == MaxInt64 || ParseIntValue(s) == MinInt64
  {
  }

  /** A run of digits too large for 64 bits is read, with the error dropped, as the largest int64. */
  lemma ParseIntValueClamps(s: string)
    requires s != [] && AllDigits(s) && DecimalValue(s) > MaxInt64
    ensures ParseInt64(s).None? && ParseIntValue(s) == MaxInt64
  {
    assert s[0] != '+' && s[0] != '-';
  }

  /** Parsing what FormatInt printed gives back every 64-bit integer. */
  lemma ParseFormat(n: int)
    requires IsInt64(n)
    ensures ParseInt64(FormatInt(n)) == Some(n)
  {
    if n < 0 {
      ParseFormatNegative(n);
    } else {
      ParseFormatNatural(n);
    }
  }

  /** ParseFormat for the negative numbers: the sign, then the spelling of the magnitude. */
  lemma ParseFormatNegative(n: int)
    requires MinInt64 <= n < 0
    ensures ParseInt64(FormatInt(n)) == Some(n)
  {
    DecimalRoundTrip(-n);
    ParseNegated(NatToDecimal(-n));
  }

  /** A minus sign before a run of digits parses to the negated value when that fits in 64 bits. */
  lemma ParseNegated(body: string)
    requires body != [] && AllDigits(body) && DecimalValue(body) <= -MinInt64
    ensures ParseInt64("-" + body) == Some(-(DecimalValue(body) as int))
  {
    var s := "-" + body;
    assert s[0] == '-' && s[1..] == body;
  }

  /** ParseFormat for the numbers without a sign. */
  lemma ParseFormatNatural(n: int)
    requires 0 <= n <= MaxInt64
    ensures ParseInt64(FormatInt(n)) == Some(n)
  {
    var s := FormatInt(n);
    DecimalRoundTrip(n);
    assert s == NatToDecimal(n) && s[0] != '+' && s[0] != '-';
  }

  /** A string of digits only parses to its value exactly when that value fits in 64 bits. */
  lemma ParseDigits(s: string)
    requires s != [] && AllDigits(s)
    ensures ParseInt64(s) == (if DecimalValue(s) <= MaxInt64 then Some(DecimalValue(s)) else None)
  {
    assert s[0] != '+' && s[0] != '-';
  }
}
