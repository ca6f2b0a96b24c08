/**
 * The string operations the handlers and the router are built from:
 * Go's strings.TrimSpace, HasPrefix/HasSuffix, TrimPrefix/TrimSuffix, and
 * strconv.Atoi on the platform's 64-bit int, and the decimal spelling a
 * template prints an int with. Strings are sequences of Unicode scalar
 * values; Go's byte-level handling of invalid UTF-8 is not modelled.
 */
module Text {
  import opened Wrappers

  const MinInt64: int := -0x8000_0000_0000_0000
  const MaxInt64: int := 0x7FFF_FFFF_FFFF_FFFF

  /** unicode.IsSpace: the Latin-1 spaces, and above Latin-1 the White_Space property. */
  predicate IsSpace(c: char)
  {
    || c == ' ' || c == '\t' || c == '\n' || c == '\r' || c == '\U{000B}' || c == '\U{000C}'
    || c == '\U{0085}' || c == '\U{00A0}' || c == '\U{1680}'
    || ('\U{2000}' <= c <= '\U{200A}')
    || c == '\U{2028}' || c == '\U{2029}' || c == '\U{202F}' || c == '\U{205F}' || c == '\U{3000}'
  }

  predicate AllSpace(s: string)
  {
    forall i :: 0 <= i < |s| ==> IsSpace(s[i])
  }

  /**
   * strings.TrimSpace: drops white space from both ends. The result is empty
   * exactly when `s` is all white space.
   */
  function TrimSpace(s: string): (r: string)
    ensures |r| <= |s|
    ensures r == [] <==> AllSpace(s)
    ensures r != [] ==> !IsSpace(r[0]) && !IsSpace(r[|r| - 1])
  {
    if |s| > 0 && IsSpace(s[0]) then
      assert AllSpace(s) <==> AllSpace(s[1..]) by {
        assert forall i :: 0 < i < |s| ==> s[i] == s[1..][i - 1];
      }
      TrimSpace(s[1..])
    else if |s| > 0 && IsSpace(s[|s| - 1]) then
      TrimSpace(s[..|s| - 1])
    else s
  }

  /**
   * TrimSpace recovers the text between any white-space padding: this pins
   * the function down completely, and makes it idempotent.
   */
  lemma {:induction false} TrimSpaceOfPadded(lead: string, core: string, trail: string)
    requires AllSpace(lead) && AllSpace(trail)
    requires core == [] || (!IsSpace(core[0]) && !IsSpace(core[|core| - 1]))
    ensures TrimSpace(lead + core + trail) == core
    decreases |lead| + |trail|
  {
    var s := lead + core + trail;
    if lead != [] {
      assert s[0] == lead[0];
      assert s[1..] == lead[1..] + core + trail;
      TrimSpaceOfPadded(lead[1..], core, trail);
    } else if core == [] && trail != [] {
      assert s == trail;
      assert s[1..] == [] + [] + trail[1..];
      TrimSpaceOfPadded([], [], trail[1..]);
    } else if trail != [] {
      assert s[0] == core[0];
      assert s[|s| - 1] == trail[|trail| - 1];
      assert s[..|s| - 1] == [] + core + trail[..|trail| - 1];
      TrimSpaceOfPadded([], core, trail[..|trail| - 1]);
    } else {
      assert s == core;
    }
  }

  lemma TrimSpaceIdempotent(s: string)
    ensures TrimSpace(TrimSpace(s)) == TrimSpace(s)
  {
    var t := TrimSpace(s);
    assert [] + t + [] == t;
    TrimSpaceOfPadded([], t, []);
  }

  predicate HasPrefix(s: string, prefix: string)
  {
    |prefix| <= |s| && s[..|prefix|] == prefix
  }

  predicate HasSuffix(s: string, suffix: string)
  {
    |suffix| <= |s| && s[|s| - |suffix|..] == suffix
  }

  /** strings.TrimPrefix: removes one leading `prefix` if there is one. */
  function TrimPrefix(s: string, prefix: string): (r: string)
    ensures HasPrefix(s, prefix) ==> prefix + r == s
    ensures !HasPrefix(s, prefix) ==> r == s
  {
    if HasPrefix(s, prefix) then s[|prefix|..] else s
  }

  /** strings.TrimSuffix: removes one trailing `suffix` if there is one. */
  function TrimSuffix(s: string, suffix: string): (r: string)
    ensures HasSuffix(s, suffix) ==> r + suffix == s
    ensures !HasSuffix(s, suffix) ==> r == s
  {
    if HasSuffix(s, suffix) then s[..|s| - |suffix|] else s
  }

  lemma TrimPrefixOfJoin(prefix: string, rest: string)
    ensures HasPrefix(prefix + rest, prefix)
    ensures TrimPrefix(prefix + rest, prefix) == rest
  {
    assert (prefix + rest)[..|prefix|] == prefix;
  }

  lemma TrimSuffixOfJoin(rest: string, suffix: string)
    ensures HasSuffix(rest + suffix, suffix)
    ensures TrimSuffix(rest + suffix, suffix) == rest
  {
    assert (rest + suffix)[|rest|..] == suffix;
  }

  predicate IsDigit(c: char)
  {
    '0' <= c <= '9'
  }

  predicate AllDigits(s: string)
  {
    forall i :: 0 <= i < |s| ==> IsDigit(s[i])
  }

  /** The value of a string of decimal digits, most significant digit first. */
  function DigitsValue(s: string): nat
    requires AllDigits(s)
  {
    if s == [] then 0 else 10 * DigitsValue(s[..|s| - 1]) + (s[|s| - 1] as int - '0' as int)
  }

  /** What strconv.Atoi accepts before looking at the range: an optional sign, then at least one digit. */
  predicate IntSyntax(s: string)
  {
    if |s| > 0 && (s[0] == '+' || s[0] == '-') then |s| > 1 && AllDigits(s[1..])
    else |s| > 0 && AllDigits(s)
  }

  /** The value an int literal denotes: its digits, negated after a '-'. */
  function IntValue(s: string): int
    requires IntSyntax(s)
  {
    if s[0] == '-' then -(DigitsValue(s[1..]) as int)
    else if s[0] == '+' then DigitsValue(s[1..])
    else DigitsValue(s)
  }

  /**
   * strconv.Atoi on a 64-bit platform: an optional '+' or '-', then one or
   * more decimal digits (leading zeros allowed, no underscores), whose value
   * must fit in 64 bits. Go tells a syntax error from a range error; every
   * caller here only asks whether there was an error, so both are None.
   */
  function Atoi(s: string): (r: Option<int>)
    ensures r.Some? <==> IntSyntax(s) && MinInt64 <= IntValue(s) <= MaxInt64
    ensures r.Some? ==> r.value == IntValue(s)
    ensures r.Some? ==> IsDigit(s[|s| - 1])
  {
    var signed := |s| > 0 && (s[0] == '+' || s[0] == '-');
    var digits := if signed then s[1..] else s;
    if |digits| == 0 || !AllDigits(digits) then None
    else
      var magnitude := DigitsValue(digits);
      var v: int := if signed && s[0] == '-' then -(magnitude as int) else magnitude;
      if MinInt64 <= v <= MaxInt64 then Some(v) else None
  }

  function DigitChar(d: nat): (c: char)
    requires d < 10
  {
    ('0' as int + d) as char
  }

  /** The canonical decimal spelling of a natural number: no sign, no leading zero. */
  function NatDigits(n: nat): (s: string)
    ensures |s| > 0 && AllDigits(s) && DigitsValue(s) == n
    ensures s[0] == '0' ==> n == 0
  {
    if n < 10 then [DigitChar(n)]
    else
      var s := NatDigits(n / 10) + [DigitChar(n % 10)];
      assert s[..|s| - 1] == NatDigits(n / 10);
      s
  }

  /** The decimal spelling with which a template prints `{{.ID}}`. */
  function Itoa(n: int): (s: string)
    ensures |s| > 0 && (IsDigit(s[0]) || s[0] == '-')
    ensures forall i :: 0 < i < |s| ==> IsDigit(s[i])
  {
    if n < 0 then "-" + NatDigits(-n) else NatDigits(n)
  }

  /** Atoi reads back every 64-bit int that Itoa prints. */
  lemma AtoiItoa(n: int)
    requires MinInt64 <= n <= MaxInt64
    ensures Atoi(Itoa(n)) == Some(n)
  {
    if n < 0 {
      assert Itoa(n)[1..] == NatDigits(-n);
    }
  }
}
