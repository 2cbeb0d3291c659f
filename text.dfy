/**
 * The pieces of Rust's standard library that the relay depends on, written out
 * as functions: 64-bit integers, decimal formatting (`Display` for integers),
 * `str::parse::<i64>`, `str::lines`, `str::trim` and `str::strip_prefix`.
 */
module Text {
  import opened Wrappers

  const I64Min: int := -0x8000_0000_0000_0000
  const I64Max: int := 0x7FFF_FFFF_FFFF_FFFF

  /** Rust's `i64`: chat identifiers and the members of an `IdsSet`. */
  type Int64 = x: int | -0x8000_0000_0000_0000 <= x <= 0x7FFF_FFFF_FFFF_FFFF

  // ---------------------------------------------------------------------------
  // Decimal digits

  predicate IsDigit(c: char) {
    '0' <= c <= '9'
  }

  predicate AllDigits(s: string) {
    forall k :: 0 <= k < |s| ==> IsDigit(s[k])
  }

  function DigitChar(d: nat): (c: char)
    requires d < 10
    ensures IsDigit(c) && (c as int) - ('0' as int) == d
  {
    ((('0' as int) + d) as char)
  }

  /** The number a string of decimal digits denotes, most significant digit first. */
  function DigitsValue(s: string): nat
    requires AllDigits(s)
  {
    if s == [] then 0
    else 10 * DigitsValue(s[..|s| - 1]) + ((s[|s| - 1] as int) - ('0' as int))
  }

  /** The decimal digits of `n`, without leading zeros. */
  function ShowNat(n: nat): (r: string)
    ensures r != [] && AllDigits(r)
    ensures DigitsValue(r) == n
    ensures r[0] == '0' ==> n == 0
  {
    if n < 10 then [DigitChar(n)]
    else
      var p := ShowNat(n / 10);
      var r := p + [DigitChar(n % 10)];
      assert r[..|r| - 1] == p;
      r
  }

  /** `x.to_string()` for an integer: a minus sign for negative numbers, then the digits. */
  function ShowInt(x: int): (r: string)
    ensures r != []
    ensures r[0] == '-' <==> x < 0
    ensures forall k :: 0 <= k < |r| ==> r[k] != '\n'
  {
    if x < 0 then "-" + ShowNat(-x) else ShowNat(x)
  }

  /**
   * `s.parse::<i64>()`: an optional `+` or `-`, then at least one decimal digit,
   * denoting a number in the 64-bit range; anything else is an error (`None`).
   */
  function ParseI64(s: string): (r: Option<Int64>)
    ensures r.Some? ==> s != [] && (r.value < 0 ==> s[0] == '-')
  {
    if s == [] then None
    else
      var digits := if s[0] == '-' || s[0] == '+' then s[1..] else s;
      if digits == [] || !AllDigits(digits) then None
      else
        var v: int := if s[0] == '-' then -(DigitsValue(digits) as int) else DigitsValue(digits);
        if I64Min <= v <= I64Max then Some(v) else None
  }

  /** Parsing the decimal form of a 64-bit integer gives that integer back. */
  lemma ParseShow(x: Int64)
    ensures ParseI64(ShowInt(x)) == Some(x)
  {
    if x < 0 {
      ParseNegative(ShowNat(-(x as int)));
    } else {
      ParseNonNegative(ShowNat(x));
    }
  }

  lemma ParseNegative(d: string)
    requires d != [] && AllDigits(d) && I64Min <= -(DigitsValue(d) as int)
    ensures ParseI64("-" + d) == Some(-(DigitsValue(d) as int))
  {
    var s := "-" + d;
    assert s[0] == '-' && s[1..] == d;
  }

  lemma ParseNonNegative(d: string)
    requires d != [] && AllDigits(d) && DigitsValue(d) <= I64Max
    ensures ParseI64(d) == Some(DigitsValue(d))
  {
    assert IsDigit(d[0]);
  }

  /** Distinct 64-bit integers have distinct decimal forms. */
  lemma ShowInjective(x: Int64, y: Int64)
    requires x != y
    ensures ShowInt(x) != ShowInt(y)
  {
    ParseShow(x);
    ParseShow(y);
  }

  // ---------------------------------------------------------------------------
  // Lines

  /** The index of the first `'\n'` in `s`, or `|s|` when there is none. */
  function NewlineIndex(s: string): (i: nat)
    ensures i <= |s|
    ensures i < |s| ==> s[i] == '\n'
    ensures forall k :: 0 <= k < i ==> s[k] != '\n'
  {
    if s == [] || s[0] == '\n' then 0 else 1 + NewlineIndex(s[1..])
  }

  /**
   * `s.lines()`: the pieces of `s` between line feeds, where a final line feed
   * does not start another (empty) line.
   */
  function Lines(s: string): (ls: seq<string>)
    ensures forall k :: 0 <= k < |ls| ==> '\n' !in ls[k]
    decreases |s|
  {
    if s == [] then []
    else
      var i := NewlineIndex(s);
      if i == |s| then [s] else [s[..i]] + Lines(s[i + 1..])
  }

  /** The lines joined back together, each followed by a line feed. */
  function Terminated(ls: seq<string>): string {
    if ls == [] then "" else ls[0] + "\n" + Terminated(ls[1..])
  }

  lemma {:induction false} TerminatedSnoc(ls: seq<string>, l: string)
    ensures Terminated(ls + [l]) == Terminated(ls) + l + "\n"
  {
    if ls == [] {
      assert ls + [l] == [l];
    } else {
      assert (ls + [l])[1..] == ls[1..] + [l];
      TerminatedSnoc(ls[1..], l);
    }
  }

  /** Splitting text made of line-feed-terminated lines gives those lines back. */
  lemma {:induction false} LinesOfTerminated(ls: seq<string>)
    requires forall k :: 0 <= k < |ls| ==> '\n' !in ls[k]
    ensures Lines(Terminated(ls)) == ls
  {
    if ls != [] {
      var s := Terminated(ls);
      var rest := Terminated(ls[1..]);
      assert s == ls[0] + "\n" + rest;
      assert '\n' !in ls[0];
      assert s[|ls[0]|] == '\n';
      NewlineIndexOf(ls[0], rest);
      assert s[..|ls[0]|] == ls[0];
      assert s[|ls[0]| + 1..] == rest;
      LinesOfTerminated(ls[1..]);
    }
  }

  lemma NewlineIndexOf(l: string, rest: string)
    requires '\n' !in l
    ensures NewlineIndex(l + "\n" + rest) == |l|
  {
    var s := l + "\n" + rest;
    assert s[|l|] == '\n';
    assert forall k :: 0 <= k < |l| ==> s[k] == l[k];
  }

  /** A text is the part before a line feed, the line feed and the part after it. */
  lemma SplitAtNewline(s: string, i: nat)
    requires i < |s| && s[i] == '\n'
    ensures s == s[..i] + "\n" + s[i + 1..]
  {
    var t := s[..i] + "\n" + s[i + 1..];
    forall k | 0 <= k < |s| ensures t[k] == s[k] {
      if k < i {
        assert t[k] == s[..i][k];
      } else if k > i {
        assert t[k] == s[i + 1..][k - i - 1];
      }
    }
  }

  /** Joining the lines of `s` gives `s` back, with a final line feed added if it had none. */
  lemma {:induction false} TerminatedOfLines(s: string)
    ensures Terminated(Lines(s)) == if s == [] || s[|s| - 1] == '\n' then s else s + "\n"
    decreases |s|
  {
    if s != [] {
      var i := NewlineIndex(s);
      if i == |s| {
        assert Lines(s) == [s];
        assert Terminated([s]) == s + "\n" + Terminated([]);
      } else {
        var rest := s[i + 1..];
        var ls := Lines(rest);
        assert Lines(s) == [s[..i]] + ls;
        assert ([s[..i]] + ls)[1..] == ls;
        assert Terminated(Lines(s)) == s[..i] + "\n" + Terminated(ls);
        TerminatedOfLines(rest);
        SplitAtNewline(s, i);
        if rest != [] {
          assert rest[|rest| - 1] == s[|s| - 1];
        }
      }
    }
  }

  // ---------------------------------------------------------------------------
  // Trimming and prefixes

  /** `char::is_whitespace`: the characters with the Unicode White_Space property. */
  predicate IsWhitespace(c: char) {
    || c == ' '
    || '\t' <= c <= '\r'
    || c == '\U{85}' || c == '\U{A0}' || c == '\U{1680}'
    || '\U{2000}' <= c <= '\U{200A}'
    || c == '\U{2028}' || c == '\U{2029}' || c == '\U{202F}' || c == '\U{205F}' || c == '\U{3000}'
  }

  /** `str::trim_start`: `s` without its leading whitespace. */
  function TrimStart(s: string): (r: string)
    ensures |r| <= |s| && r == s[|s| - |r|..]
    ensures r != [] ==> !IsWhitespace(r[0])
    ensures forall k :: 0 <= k < |s| - |r| ==> IsWhitespace(s[k])
  {
    if s != [] && IsWhitespace(s[0]) then TrimStart(s[1..]) else s
  }

  /** `str::trim_end`: `s` without its trailing whitespace. */
  function TrimEnd(s: string): (r: string)
    ensures |r| <= |s| && r == s[..|r|]
    ensures r != [] ==> !IsWhitespace(r[|r| - 1])
    ensures forall k :: |r| <= k < |s| ==> IsWhitespace(s[k])
  {
    if s != [] && IsWhitespace(s[|s| - 1]) then TrimEnd(s[..|s| - 1]) else s
  }

  /** Every character of `s` outside `s[i..j]` is whitespace. */
  predicate WhitespaceOutside(s: string, i: nat, j: nat)
    requires i <= j <= |s|
  {
    (forall k :: 0 <= k < i ==> IsWhitespace(s[k])) && (forall k :: j <= k < |s| ==> IsWhitespace(s[k]))
  }

  /** `str::trim`: `s` without leading and trailing whitespace. */
  function Trim(s: string): (r: string)
    ensures r == [] || (!IsWhitespace(r[0]) && !IsWhitespace(r[|r| - 1]))
    ensures |r| <= |s|
    ensures exists i: nat, j: nat :: i <= j <= |s| && r == s[i..j] && WhitespaceOutside(s, i, j)
  {
    var t := TrimStart(s);
    var r := TrimEnd(t);
    TrimInfix(s, t, r);
    r
  }

  /**
   * Dropping leading whitespace from `s` to get `t`, then trailing whitespace from
   * `t` to get `r`, leaves an infix of `s` with only whitespace outside it.
   */
  lemma TrimInfix(s: string, t: string, r: string)
    requires |t| <= |s| && t == s[|s| - |t|..] && forall k :: 0 <= k < |s| - |t| ==> IsWhitespace(s[k])
    requires |r| <= |t| && r == t[..|r|] && forall k :: |r| <= k < |t| ==> IsWhitespace(t[k])
    ensures var i := |s| - |t|; i + |r| <= |s| && r == s[i..i + |r|] && WhitespaceOutside(s, i, i + |r|)
  {
    var i := |s| - |t|;
    var j := i + |r|;
    forall k | 0 <= k < |r| ensures r[k] == s[i + k] {
      assert r[k] == t[k] && t[k] == s[i + k];
    }
    assert r == s[i..j];
    forall k | j <= k < |s| ensures IsWhitespace(s[k]) {
      assert s[k] == t[k - i];
    }
  }

  /** A string that neither starts nor ends with whitespace is its own trim. */
  lemma TrimNoop(s: string)
    requires s == [] || (!IsWhitespace(s[0]) && !IsWhitespace(s[|s| - 1]))
    ensures Trim(s) == s
  {
  }

  /** `s.strip_prefix(p)`: what follows `p` when `s` starts with `p`. */
  function StripPrefix(s: string, p: string): (r: Option<string>)
    ensures r.Some? ==> s == p + r.value
    ensures r.None? ==> forall rest :: s != p + rest
  {
    if |p| <= |s| && s[..|p|] == p then Some(s[|p|..])
    else
      assert forall rest :: (p + rest)[..|p|] == p;
      None
  }
}
