/** The Python string operations the core relies on, stated over `string` (a sequence of
    characters): `strip()`, `lower()`, `replace(' ', '_')`, `split('@')[0]`, `c * n`,
    `', '.join(xs)` with its inverse `split(', ')`, and the decimal rendering of a
    counter inside an f-string. */
module Text {

  import opened Wrappers

  /** Python's `str.isspace()`: the ASCII separators and the Unicode space characters. */
  predicate IsSpace(c: char)
  {
    ('\t' <= c <= '\r') || ('\U{001C}' <= c <= ' ') || c == '\U{0085}' || c == '\U{00A0}' ||
    c == '\U{1680}' || ('\U{2000}' <= c <= '\U{200A}') || c == '\U{2028}' || c == '\U{2029}' ||
    c == '\U{202F}' || c == '\U{205F}' || c == '\U{3000}'
  }

  predicate AllSpace(s: string)
  {
    forall k :: 0 <= k < |s| ==> IsSpace(s[k])
  }

  /** `s.lstrip()`: the longest suffix of `s` that does not start with whitespace. */
  function TrimStart(s: string): (r: string)
    ensures |r| <= |s| && r == s[|s| - |r|..]
    ensures AllSpace(s[..|s| - |r|])
    ensures r == [] || !IsSpace(r[0])
  {
    if s != [] && IsSpace(s[0]) then
      var r := TrimStart(s[1..]);
      assert s[..|s| - |r|] == [s[0]] + s[1..][..|s| - 1 - |r|];
      AllSpaceConcat([s[0]], s[1..][..|s| - 1 - |r|]);
      r
    else s
  }

  /** `s.rstrip()`: the longest prefix of `s` that does not end with whitespace. */
  function TrimEnd(s: string): (r: string)
    ensures |r| <= |s| && r == s[..|r|]
    ensures AllSpace(s[|r|..])
    ensures r == [] || !IsSpace(r[|r| - 1])
  {
    if s != [] && IsSpace(s[|s| - 1]) then
      var r := TrimEnd(s[..|s| - 1]);
      assert s[|r|..] == s[..|s| - 1][|r|..] + [s[|s| - 1]];
      AllSpaceConcat(s[..|s| - 1][|r|..], [s[|s| - 1]]);
      r
    else s
  }

  /** `s.strip()`: `s` without its leading and trailing whitespace. */
  function Strip(s: string): (r: string)
    ensures exists i :: 0 <= i <= |s| - |r| && r == s[i..i + |r|] &&
                        AllSpace(s[..i]) && AllSpace(s[i + |r|..])
    ensures r == [] || (!IsSpace(r[0]) && !IsSpace(r[|r| - 1]))
  {
    var t := TrimStart(s);
    var r := TrimEnd(t);
    TrimmedSlice(s, |s| - |t|, r);
    r
  }

  /** A prefix `r` of the suffix `s[i..]` is the slice `s[i..i + |r|]`, and what follows it
      in the suffix is what follows it in `s`. */
  lemma TrimmedSlice(s: string, i: nat, r: string)
    requires i <= |s| && |r| <= |s| - i && r == s[i..][..|r|]
    requires AllSpace(s[..i]) && AllSpace(s[i..][|r|..])
    ensures 0 <= i <= |s| - |r| && r == s[i..i + |r|] && AllSpace(s[..i]) && AllSpace(s[i + |r|..])
  {
    assert s[i..][|r|..] == s[i + |r|..];
  }

  /** Stripping gives the empty string exactly when the input is all whitespace. */
  lemma StripEmptyIffAllSpace(s: string)
    ensures Strip(s) == [] <==> AllSpace(s)
  {
    var t := TrimStart(s);
    if AllSpace(s) {
      TrimStartOfSpaces(s);
    }
    if TrimEnd(t) == [] {
      assert t[0..] == t;
      assert s == s[..|s| - |t|] + t;
      AllSpaceConcat(s[..|s| - |t|], t);
    }
  }

  lemma AllSpaceConcat(a: string, b: string)
    requires AllSpace(a) && AllSpace(b)
    ensures AllSpace(a + b)
  {
    forall k | 0 <= k < |a + b| ensures IsSpace((a + b)[k]) {
      if k < |a| { assert (a + b)[k] == a[k]; } else { assert (a + b)[k] == b[k - |a|]; }
    }
  }

  /** A string of whitespace is trimmed away entirely. */
  lemma {:induction false} TrimStartOfSpaces(s: string)
    requires AllSpace(s)
    ensures TrimStart(s) == []
  {
    if s != [] {
      assert AllSpace(s[1..]) by {
        forall k | 0 <= k < |s| - 1 ensures IsSpace(s[1..][k]) {
          assert s[1..][k] == s[k + 1];
        }
      }
      TrimStartOfSpaces(s[1..]);
    }
  }

  /** A string with no whitespace at either end is its own stripped form. */
  lemma StripTidy(s: string)
    requires s != [] && !IsSpace(s[0]) && !IsSpace(s[|s| - 1])
    ensures Strip(s) == s
  {
  }

  /** Python's `str.lower()` on one character; only ASCII letters are mapped. */
  function LowerChar(c: char): char
  {
    if 'A' <= c <= 'Z' then (c as int + 32) as char else c
  }

  function Lower(s: string): (r: string)
    ensures |r| == |s|
    ensures forall k :: 0 <= k < |s| ==> r[k] == LowerChar(s[k])
  {
    seq(|s|, k requires 0 <= k < |s| => LowerChar(s[k]))
  }

  /** `s.replace(from, to)` for single characters. */
  function ReplaceChar(s: string, from: char, to: char): (r: string)
    ensures |r| == |s|
    ensures forall k :: 0 <= k < |s| ==> r[k] == if s[k] == from then to else s[k]
  {
    seq(|s|, k requires 0 <= k < |s| => if s[k] == from then to else s[k])
  }

  /** `s.split(c)[0]`: the part of `s` before the first occurrence of `c`. */
  function PrefixBefore(s: string, c: char): (r: string)
    ensures |r| <= |s| && r == s[..|r|]
    ensures c !in r
    ensures |r| < |s| ==> s[|r|] == c
  {
    if s == [] || s[0] == c then [] else [s[0]] + PrefixBefore(s[1..], c)
  }

  /** Splitting `x + [c] + y` at its first `c` gives back `x` when `x` holds no `c`. */
  lemma {:induction false} PrefixBeforeFirst(x: string, y: string, c: char)
    requires c !in x
    ensures PrefixBefore(x + [c] + y, c) == x
  {
    var s := x + [c] + y;
    if x != [] {
      assert s[0] == x[0] != c;
      assert s[1..] == x[1..] + [c] + y;
      PrefixBeforeFirst(x[1..], y, c);
    }
  }

  /** Python's `c * n`: `n` copies of `c`, and the empty string when `n <= 0`. */
  function Repeat(c: char, n: int): (r: string)
    ensures |r| == if n <= 0 then 0 else n
    ensures forall k :: 0 <= k < |r| ==> r[k] == c
    decreases n
  {
    if n <= 0 then [] else [c] + Repeat(c, n - 1)
  }

  /** The separator the admin pages put between list items. */
  const ListSeparator: string := ", "

  /** `x` holds no occurrence of `", "`. */
  predicate NoSeparator(x: string)
  {
    forall k :: 0 <= k < |x| - 1 ==> !(x[k] == ',' && x[k + 1] == ' ')
  }

  /** `', '.join(xs)`. */
  function Join(xs: seq<string>): (r: string)
  {
    if |xs| == 0 then []
    else if |xs| == 1 then xs[0]
    else xs[0] + ListSeparator + Join(xs[1..])
  }

  /** The index of the first `", "` in `s`, if any (Python's `s.find(', ')`). */
  function FindSeparator(s: string): (r: Option<nat>)
    ensures r.Some? ==> r.value + 1 < |s| && s[r.value] == ',' && s[r.value + 1] == ' ' &&
                        NoSeparator(s[..r.value + 1])
    ensures r.None? ==> NoSeparator(s)
  {
    if |s| < 2 then None
    else if s[0] == ',' && s[1] == ' ' then Some(0)
    else match FindSeparator(s[1..])
      case None => None
      case Some(i) => Some(i + 1)
  }

  /** `s.split(', ')`. */
  function Split(s: string): (r: seq<string>)
    ensures |r| >= 1
    decreases |s|
  {
    match FindSeparator(s)
    case None => [s]
    case Some(i) => [s[..i]] + Split(s[i + 2..])
  }

  /** A string without `", "` is found to have none. */
  lemma {:induction false} FindSeparatorNone(x: string)
    requires NoSeparator(x)
    ensures FindSeparator(x) == None
  {
    if |x| >= 2 {
      assert !(x[0] == ',' && x[1] == ' ');
      FindSeparatorNone(x[1..]);
    }
  }

  /** In `x + ", " + rest`, with no separator inside `x`, the first separator follows `x`. */
  lemma {:induction false} FindSeparatorAfter(x: string, rest: string)
    requires NoSeparator(x)
    ensures FindSeparator(x + ListSeparator + rest) == Some(|x|)
  {
    var s := x + ListSeparator + rest;
    if x != [] {
      assert !(s[0] == ',' && s[1] == ' ');
      assert s[1..] == x[1..] + ListSeparator + rest;
      FindSeparatorAfter(x[1..], rest);
    }
  }

  /** Splitting a joined, non-empty list on `", "` gives the list back, provided no item
      itself contains `", "`. */
  lemma {:induction false} SplitJoin(xs: seq<string>)
    requires |xs| >= 1
    requires forall k :: 0 <= k < |xs| ==> NoSeparator(xs[k])
    ensures Split(Join(xs)) == xs
  {
    if |xs| == 1 {
      FindSeparatorNone(xs[0]);
    } else {
      var rest := Join(xs[1..]);
      var s := xs[0] + ListSeparator + rest;
      assert Join(xs) == s;
      FindSeparatorAfter(xs[0], rest);
      assert s[..|xs[0]|] == xs[0];
      assert s[|xs[0]| + 2..] == rest;
      assert Split(s) == [xs[0]] + Split(rest);
      assert forall k :: 0 <= k < |xs| - 1 ==> xs[1..][k] == xs[k + 1];
      SplitJoin(xs[1..]);
      assert xs == [xs[0]] + xs[1..];
    }
  }

  function DigitChar(d: nat): char
    requires d < 10
  {
    ('0' as int + d) as char
  }

  predicate IsDigits(s: string)
  {
    forall k :: 0 <= k < |s| ==> '0' <= s[k] <= '9'
  }

  /** The decimal rendering of a natural number, as `f"{n}"` gives it. */
  function Decimal(n: nat): (r: string)
    ensures r != [] && IsDigits(r)
    ensures r[0] == '0' <==> n == 0
    decreases n
  {
    if n < 10 then [DigitChar(n)] else Decimal(n / 10) + [DigitChar(n % 10)]
  }

  /** Reading a string of digits as a decimal number. */
  function ParseDecimal(s: string): nat
    requires IsDigits(s)
  {
    if s == [] then 0 else 10 * ParseDecimal(s[..|s| - 1]) + (s[|s| - 1] as int - '0' as int)
  }

  /** Reading back the decimal rendering of `n` gives `n`. */
  lemma {:induction false} ParseDecimalOfDecimal(n: nat)
    ensures ParseDecimal(Decimal(n)) == n
    decreases n
  {
    var s := Decimal(n);
    if n >= 10 {
      assert s[..|s| - 1] == Decimal(n / 10);
      ParseDecimalOfDecimal(n / 10);
    }
  }

  /** Distinct numbers have distinct decimal renderings. */
  lemma DecimalInjective(m: nat, n: nat)
    requires Decimal(m) == Decimal(n)
    ensures m == n
  {
    ParseDecimalOfDecimal(m);
    ParseDecimalOfDecimal(n);
  }
}
