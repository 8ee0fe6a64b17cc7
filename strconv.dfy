/**
 * The pieces of Go's standard library that the signalling code leans on for
 * text: `fmt`'s `%d` rendering of integers, `strconv.Atoi`, and
 * `strings.Split` with a one-character separator.
 */
module Strconv {
  import opened Wrappers

  /** Bounds of Go's 64-bit `int`, the result type of `strconv.Atoi`. */
  const MinInt64: int := -0x8000_0000_0000_0000
  const MaxInt64: int := 0x7fff_ffff_ffff_ffff

  /** Bases used here: decimal (`%d`, `Atoi`, IPv4 octets) and hexadecimal (IPv6 groups). */
  type Base = b: nat | b == 10 || b == 16 witness 10

  /** Value of a digit character (hex letters in either case); 16 for any other character. */
  function DigitValue(c: char): (d: nat)
    ensures d <= 16
  {
    if '0' <= c <= '9' then c as int - '0' as int
    else if 'a' <= c <= 'f' then c as int - 'a' as int + 10
    else if 'A' <= c <= 'F' then c as int - 'A' as int + 10
    else 16
  }

  predicate AllDigits(s: string, base: Base) {
    forall i :: 0 <= i < |s| ==> DigitValue(s[i]) < base
  }

  /** The lower-case character of a digit, as `fmt` prints it. */
  function DigitChar(d: nat): (c: char)
    requires d < 16
    ensures DigitValue(c) == d
  {
    if d < 10 then ('0' as int + d) as char else ('a' as int + d - 10) as char
  }

  /**
   * Multiplication and division by the base, spelled out per base so that
   * the solver only ever sees multiplication and division by a constant.
   */
  function Times(p: nat, base: Base): nat {
    if base == 10 then p * 10 else p * 16
  }

  function Quot(n: nat, base: Base): nat {
    if base == 10 then n / 10 else n / 16
  }

  function Rem(n: nat, base: Base): (r: nat)
    ensures r < base
  {
    if base == 10 then n % 10 else n % 16
  }

  /** `n` written in `base` without leading zeros (`%d`, `%x`). */
  function Format(n: nat, base: Base): (s: string)
    ensures |s| >= 1 && AllDigits(s, base)
    ensures n > 0 ==> DigitValue(s[0]) != 0
    ensures |s| == 1 <==> n < base
    decreases n
  {
    if n < base then [DigitChar(n)] else Format(Quot(n, base), base) + [DigitChar(Rem(n, base))]
  }

  /** The value of a digit string, accumulated left to right. */
  function Parse(s: string, base: Base): nat
    requires AllDigits(s, base)
  {
    if s == [] then 0 else Times(Parse(s[..|s| - 1], base), base) + DigitValue(s[|s| - 1])
  }

  lemma ParseSnoc(p: string, c: char, base: Base)
    requires AllDigits(p, base) && DigitValue(c) < base
    ensures AllDigits(p + [c], base)
    ensures Parse(p + [c], base) == Times(Parse(p, base), base) + DigitValue(c)
  {
    assert (p + [c])[..|p|] == p;
  }

  /** Reading back what `Format` wrote gives the number. */
  lemma {:induction false} ParseFormat(n: nat, base: Base)
    ensures Parse(Format(n, base), base) == n
  {
    if n >= base {
      var q, r := Quot(n, base), Rem(n, base);
      FormatSnoc(n, base);
      ParseSnoc(Format(q, base), DigitChar(r), base);
      ParseFormat(q, base);
      QuotRem(n, base);
    } else {
      assert Format(n, base) == [] + [DigitChar(n)];
      ParseSnoc([], DigitChar(n), base);
    }
  }

  lemma FormatSnoc(n: nat, base: Base)
    requires n >= base
    ensures Format(n, base) == Format(Quot(n, base), base) + [DigitChar(Rem(n, base))]
  {
  }

  lemma QuotRem(n: nat, base: Base)
    ensures Times(Quot(n, base), base) + Rem(n, base) == n
  {
  }

  function Pow(base: nat, k: nat): nat {
    if k == 0 then 1 else base * Pow(base, k - 1)
  }

  /** A number below base^k needs at most k digits. */
  lemma {:induction false} FormatLength(n: nat, base: Base, k: nat)
    requires 1 <= k && n < Pow(base, k)
    ensures |Format(n, base)| <= k
  {
    if n >= base {
      assert Pow(base, 1) == base;
      assert Quot(n, base) < Pow(base, k - 1);
      FormatLength(Quot(n, base), base, k - 1);
    }
  }

  /** Go's `%d`: a minus sign for negative numbers, then the decimal digits. */
  function FormatInt(i: int): (s: string)
    ensures |s| >= 1 && (s[0] == '-' <==> i < 0)
  {
    if i < 0 then "-" + Format(-i, 10) else Format(i, 10)
  }

  /**
   * Go's `strconv.Atoi` (base 10, bit size 64): an optional `+` or `-`, then
   * at least one decimal digit and nothing else; out-of-range values fail.
   */
  function Atoi(s: string): (r: Option<int>)
    ensures r.Some? ==> MinInt64 <= r.value <= MaxInt64
    ensures r.Some? ==> |s| >= 1 && ' ' !in s
  {
    var signed := |s| > 0 && (s[0] == '+' || s[0] == '-');
    var digits := if signed then s[1..] else s;
    if |digits| == 0 || !AllDigits(digits, 10) then None
    else
      assert s == (if signed then [s[0]] else []) + digits;
      var v: int := if signed && s[0] == '-' then -(Parse(digits, 10) as int) else Parse(digits, 10);
      if MinInt64 <= v <= MaxInt64 then Some(v) else None
  }

  /** `Atoi` reads back every 64-bit integer that `%d` prints. */
  lemma AtoiFormatInt(i: int)
    requires MinInt64 <= i <= MaxInt64
    ensures Atoi(FormatInt(i)) == Some(i)
  {
    if i < 0 {
      AtoiNegative(-i);
    } else {
      AtoiUnsigned(i);
    }
  }

  lemma AtoiUnsigned(n: nat)
    requires n <= MaxInt64
    ensures Atoi(Format(n, 10)) == Some(n)
  {
    var d := Format(n, 10);
    ParseFormat(n, 10);
    assert DigitValue(d[0]) < 10;
  }

  lemma AtoiNegative(n: nat)
    requires n <= -MinInt64
    ensures Atoi("-" + Format(n, 10)) == Some(-(n as int))
  {
    var d := Format(n, 10);
    ParseFormat(n, 10);
    assert ("-" + d)[1..] == d;
  }

  /**
   * Go's `strings.Split(s, string(sep))`: the pieces between separators,
   * so n separators give n + 1 fields, and "" gives [""].
   */
  function Split(s: string, sep: char): (fields: seq<string>)
    ensures |fields| >= 1
    decreases |s|
  {
    if s == [] then [""]
    else if s[0] == sep then [""] + Split(s[1..], sep)
    else
      var rest := Split(s[1..], sep);
      [[s[0]] + rest[0]] + rest[1..]
  }

  /** `strings.Join`, the inverse of `Split`. */
  function Join(fields: seq<string>, sep: char): string
    requires |fields| >= 1
  {
    if |fields| == 1 then fields[0] else fields[0] + [sep] + Join(fields[1..], sep)
  }

  /** Joining the fields of a split gives back the original string. */
  lemma {:induction false} JoinSplit(s: string, sep: char)
    ensures Join(Split(s, sep), sep) == s
  {
    if s != [] {
      JoinSplit(s[1..], sep);
      if s[0] != sep {
        var rest := Split(s[1..], sep);
        if |rest| > 1 {
          assert Join(rest, sep) == rest[0] + [sep] + Join(rest[1..], sep);
          assert ([[s[0]] + rest[0]] + rest[1..])[1..] == rest[1..];
        }
      }
    }
  }

  /** No field of a split contains the separator. */
  lemma {:induction false} SplitFieldsFree(s: string, sep: char)
    ensures forall f :: f in Split(s, sep) ==> sep !in f
  {
    if s != [] {
      SplitFieldsFree(s[1..], sep);
      if s[0] != sep {
        var rest := Split(s[1..], sep);
        assert rest[0] in rest;
        forall f | f in Split(s, sep) ensures sep !in f {
          if f != [s[0]] + rest[0] {
            assert f in rest[1..];
          }
        }
      }
    }
  }

  /** A string without the separator is a single field. */
  lemma {:induction false} SplitNoSep(a: string, sep: char)
    requires sep !in a
    ensures Split(a, sep) == [a]
  {
    if a != [] {
      assert a[0] != sep && sep !in a[1..];
      SplitNoSep(a[1..], sep);
      assert [a[0]] + a[1..] == a;
    }
  }

  /** A separator-free prefix followed by the separator splits off as one field. */
  lemma {:induction false} SplitCons(a: string, b: string, sep: char)
    requires sep !in a
    ensures Split(a + [sep] + b, sep) == [a] + Split(b, sep)
  {
    if a == [] {
      assert a + [sep] + b == [sep] + b;
      assert ([sep] + b)[1..] == b;
    } else {
      assert (a + [sep] + b)[1..] == a[1..] + [sep] + b;
      SplitCons(a[1..], b, sep);
      assert [a[0]] + a[1..] == a;
    }
  }

  /** Splitting a join of separator-free fields gives back the fields. */
  lemma {:induction false} SplitJoin(fields: seq<string>, sep: char)
    requires |fields| >= 1
    requires forall f :: f in fields ==> sep !in f
    ensures Split(Join(fields, sep), sep) == fields
  {
    if |fields| == 1 {
      SplitNoSep(fields[0], sep);
    } else {
      assert fields[0] in fields;
      SplitCons(fields[0], Join(fields[1..], sep), sep);
      forall f | f in fields[1..] ensures sep !in f {
        assert f in fields;
      }
      SplitJoin(fields[1..], sep);
    }
  }
}
