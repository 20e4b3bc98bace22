/** String helpers the pipeline relies on: decimal rendering of counters
    (Python's `str(int)` inside f-strings), `sep.join(parts)`, and the
    `{company}` substitution performed by `str.format(company=...)`. */
module Text {

  /** The decimal digit characters, indexed by their value. */
  const Digits: string := "0123456789"

  predicate IsDigit(c: char) {
    '0' <= c <= '9'
  }

  function DigitChar(d: nat): (c: char)
    requires d < 10
    ensures IsDigit(c) && c as int - '0' as int == d
  {
    Digits[d]
  }

  /** Decimal rendering of a natural number, no leading zeros. */
  function NatToString(n: nat): (s: string)
    decreases n
  {
    if n < 10 then [DigitChar(n)] else NatToString(n / 10) + [DigitChar(n % 10)]
  }

  predicate AllDigits(s: string) {
    forall i :: 0 <= i < |s| ==> IsDigit(s[i])
  }

  /** Reads back a string of decimal digits. */
  function ParseNat(s: string): (n: nat)
    requires AllDigits(s)
    decreases |s|
  {
    if s == [] then 0
    else 10 * ParseNat(s[..|s| - 1]) + (s[|s| - 1] as int - '0' as int)
  }

  /** The rendering is a non-empty digit string that reads back as the number. */
  lemma {:induction false} NatToStringRoundTrip(n: nat)
    ensures |NatToString(n)| > 0 && AllDigits(NatToString(n))
    ensures ParseNat(NatToString(n)) == n
    decreases n
  {
    if n >= 10 {
      NatToStringRoundTrip(n / 10);
      var s := NatToString(n);
      assert s[..|s| - 1] == NatToString(n / 10);
    }
  }

  /** Distinct numbers render as distinct strings. */
  lemma NatToStringInjective(a: nat, b: nat)
    requires NatToString(a) == NatToString(b)
    ensures a == b
  {
    NatToStringRoundTrip(a);
    NatToStringRoundTrip(b);
  }

  /** `sep.join(parts)`. */
  function Join(parts: seq<string>, sep: string): string
    decreases |parts|
  {
    if parts == [] then ""
    else if |parts| == 1 then parts[0]
    else parts[0] + sep + Join(parts[1..], sep)
  }

  /** Joining one more part appends the separator and that part. */
  lemma {:induction false} JoinSnoc(parts: seq<string>, p: string, sep: string)
    requires parts != []
    ensures Join(parts + [p], sep) == Join(parts, sep) + sep + p
    decreases |parts|
  {
    var longer := parts + [p];
    if |parts| == 1 {
      assert longer[1..] == [p];
    } else {
      assert longer[1..] == parts[1..] + [p];
      JoinSnoc(parts[1..], p, sep);
    }
  }

  /** The only replacement field the prompt templates use. */
  const Placeholder: string := "{company}"

  /** `template.format(company=value)` restricted to the `{company}` field:
      every occurrence, scanned left to right, is replaced by `value`. */
  function Format(template: string, value: string): (r: string)
    decreases |template|
  {
    if template == [] then ""
    else if Placeholder <= template then value + Format(template[|Placeholder|..], value)
    else [template[0]] + Format(template[1..], value)
  }

  /** Text free of the brace passes through the substitution unchanged. */
  lemma {:induction false} FormatLiteralPrefix(lit: string, rest: string, value: string)
    requires '{' !in lit
    ensures Format(lit + rest, value) == lit + Format(rest, value)
    decreases |lit|
  {
    if lit != [] {
      var t := lit + rest;
      assert t[0] == lit[0];
      assert !(Placeholder <= t) by {
        assert Placeholder[0] == '{';
      }
      assert t[1..] == lit[1..] + rest;
      FormatLiteralPrefix(lit[1..], rest, value);
    } else {
      assert lit + rest == rest;
    }
  }

  lemma Regroup(a: string, b: string, c: string, d: string)
    ensures a + (b + (c + d)) == a + b + c + d
  {
  }

  /** Filling a placeholder-separated text followed by anything fills the
      pieces first, then carries on with the rest. */
  lemma {:induction false} FormatJoinThen(pieces: seq<string>, rest: string, value: string)
    requires pieces != []
    requires forall i :: 0 <= i < |pieces| ==> '{' !in pieces[i]
    ensures Format(Join(pieces, Placeholder) + rest, value) == Join(pieces, value) + Format(rest, value)
    decreases |pieces|
  {
    if |pieces| == 1 {
      FormatLiteralPrefix(pieces[0], rest, value);
    } else {
      var later := pieces[1..];
      var t := Placeholder + (Join(later, Placeholder) + rest);
      assert Join(pieces, Placeholder) + rest == pieces[0] + t;
      FormatLiteralPrefix(pieces[0], t, value);
      assert Placeholder <= t;
      assert t[|Placeholder|..] == Join(later, Placeholder) + rest;
      FormatJoinThen(later, rest, value);
      assert Format(t, value) == value + (Join(later, value) + Format(rest, value));
      assert Join(pieces, value) == pieces[0] + value + Join(later, value);
      Regroup(pieces[0], value, Join(later, value), Format(rest, value));
    }
  }

  /** A template written as brace-free pieces separated by `{company}` is
      filled by putting `value` between those same pieces: every placeholder
      is replaced and nothing else changes. */
  lemma FormatFillsEveryPlaceholder(pieces: seq<string>, value: string)
    requires forall i :: 0 <= i < |pieces| ==> '{' !in pieces[i]
    ensures Format(Join(pieces, Placeholder), value) == Join(pieces, value)
  {
    if pieces != [] {
      FormatJoinThen(pieces, "", value);
      assert Join(pieces, Placeholder) + "" == Join(pieces, Placeholder);
    }
  }
}
