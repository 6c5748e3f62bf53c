/**
 * The JavaScript primitives the caption code relies on, over mathematical
 * reals: the `??` and `||` operators on optional numbers, truthiness of an
 * optional string, `String.prototype.trim`, `Math.round`, `Math.floor`,
 * `Math.min` and `Math.max`.
 */
module Js {
  import opened Wrappers

  /** `x ?? d`: only a missing value (null or undefined) is replaced. */
  function Nullish(x: Option<real>, d: real): real {
    match x
    case Some(v) => v
    case None => d
  }

  /** `x || d` on a number: a missing value and 0 are both falsy. */
  function Or(x: Option<real>, d: real): real {
    if TruthyNumber(x) then x.value else d
  }

  /** A number is truthy when present and non-zero. */
  predicate TruthyNumber(x: Option<real>) {
    x.Some? && x.value != 0.0
  }

  /** A string is truthy when present and non-empty. */
  predicate Truthy(s: Option<string>) {
    s.Some? && s.value != ""
  }

  function Min(a: real, b: real): real {
    if a <= b then a else b
  }

  function Max(a: real, b: real): real {
    if a >= b then a else b
  }

  /** `Math.round`: rounds half-way cases towards positive infinity. */
  function MathRound(x: real): int {
    (x + 0.5).Floor
  }

  /** `Math.round(x * 10) / 10`: rounding to one decimal place. */
  function Round1(x: real): real {
    MathRound(x * 10.0) as real / 10.0
  }

  /**
   * The characters `trim` removes: the ECMAScript WhiteSpace and
   * LineTerminator code points, with the space separators U+2000 to U+200A
   * listed one by one.
   */
  const Whitespace: set<char> := {
    '\t', '\n', '\U{000B}', '\U{000C}', '\r', ' ', '\U{00A0}', '\U{1680}',
    '\U{2000}', '\U{2001}', '\U{2002}', '\U{2003}', '\U{2004}', '\U{2005}',
    '\U{2006}', '\U{2007}', '\U{2008}', '\U{2009}', '\U{200A}',
    '\U{2028}', '\U{2029}', '\U{202F}', '\U{205F}', '\U{3000}', '\U{FEFF}'
  }

  /** Whether `trim` removes `c`. */
  predicate IsWhitespace(c: char) {
    c in Whitespace
  }

  /**
   * Drops leading whitespace. Its postcondition is kept to the length bound
   * so that code mentioning `trim` does not carry the quantified facts;
   * `TrimStartSpec` states what the result is.
   */
  function TrimStart(s: string): (r: string)
    ensures |r| <= |s|
  {
    if s != [] && IsWhitespace(s[0]) then TrimStart(s[1..]) else s
  }

  /** Drops trailing whitespace; `TrimEndSpec` states what the result is. */
  function TrimEnd(s: string): (r: string)
    ensures |r| <= |s|
  {
    if s != [] && IsWhitespace(s[|s| - 1]) then TrimEnd(s[..|s| - 1]) else s
  }

  /** `s.trim()`: leading, then trailing whitespace removed; `TrimSpec` states what the result is. */
  function Trim(s: string): (r: string)
    ensures |r| <= |s|
  {
    TrimEnd(TrimStart(s))
  }

  /** The suffix that starts at the first non-blank character. */
  lemma {:induction false} TrimStartSpec(s: string)
    ensures var r := TrimStart(s);
      && r == s[|s| - |r|..]
      && (forall i | 0 <= i < |s| - |r| :: IsWhitespace(s[i]))
      && (r == [] || !IsWhitespace(r[0]))
    decreases |s|
  {
    if s != [] && IsWhitespace(s[0]) {
      TrimStartSpec(s[1..]);
    }
  }

  /** The prefix that ends at the last non-blank character. */
  lemma {:induction false} TrimEndSpec(s: string)
    ensures var r := TrimEnd(s);
      && r == s[..|r|]
      && (forall i | |r| <= i < |s| :: IsWhitespace(s[i]))
      && (r == [] || !IsWhitespace(r[|r| - 1]))
    decreases |s|
  {
    if s != [] && IsWhitespace(s[|s| - 1]) {
      TrimEndSpec(s[..|s| - 1]);
    }
  }

  /**
   * `s.trim()` is the infix of `s` that is left once the whitespace at both
   * ends is removed: everything before and after it is whitespace.
   */
  lemma TrimInfix(s: string)
    ensures var r := Trim(s); var k := |s| - |TrimStart(s)|;
      && k + |r| <= |s|
      && r == s[k..k + |r|]
      && (forall i | 0 <= i < k :: IsWhitespace(s[i]))
      && (forall i | k + |r| <= i < |s| :: IsWhitespace(s[i]))
  {
    var t := TrimStart(s);
    var k := |s| - |t|;
    var r := TrimEnd(t);
    TrimStartSpec(s);
    TrimEndSpec(t);
    PrefixOfSuffix(s, k, |r|);
    BlankTailOfSuffix(s, k, |r|);
  }

  /** A prefix of a suffix is an infix. */
  lemma PrefixOfSuffix<T>(s: seq<T>, k: nat, m: nat)
    requires k + m <= |s|
    ensures s[k..][..m] == s[k..k + m]
  {
  }

  /** Whitespace at the tail of a suffix of `s` is whitespace at the tail of `s`. */
  lemma BlankTailOfSuffix(s: string, k: nat, m: nat)
    requires k + m <= |s|
    requires forall j | m <= j < |s| - k :: IsWhitespace(s[k..][j])
    ensures forall i | k + m <= i < |s| :: IsWhitespace(s[i])
  {
    forall i | k + m <= i < |s|
      ensures IsWhitespace(s[i])
    {
      assert s[i] == s[k..][i - k];
    }
  }

  /**
   * The result of `s.trim()` is an infix of `s` with no whitespace at
   * either end, and it is empty exactly when `s` is blank.
   */
  lemma TrimSpec(s: string)
    ensures var r := Trim(s); var k := |s| - |TrimStart(s)|;
      && k + |r| <= |s|
      && r == s[k..k + |r|]
      && (forall i | 0 <= i < k :: IsWhitespace(s[i]))
      && (forall i | k + |r| <= i < |s| :: IsWhitespace(s[i]))
      && (r == [] || (!IsWhitespace(r[0]) && !IsWhitespace(r[|r| - 1])))
      && (r == [] <==> forall i | 0 <= i < |s| :: IsWhitespace(s[i]))
  {
    var t := TrimStart(s);
    TrimInfix(s);
    TrimStartSpec(s);
    TrimEndSpec(t);
    var k := |s| - |t|;
    var r := Trim(s);
    if r != [] {
      assert s[k] == r[0];
    }
  }

  /** Trimming twice is trimming once. */
  lemma TrimIdempotent(s: string)
    ensures Trim(Trim(s)) == Trim(s)
  {
    var r := Trim(s);
    TrimSpec(s);
    TrimUnchanged(r);
  }

  /** A string without whitespace at either end is its own trim. */
  lemma TrimUnchanged(s: string)
    requires s == [] || (!IsWhitespace(s[0]) && !IsWhitespace(s[|s| - 1]))
    ensures Trim(s) == s
  {
    assert TrimStart(s) == s;
    assert TrimEnd(s) == s;
  }

  /** Rounding to one decimal moves a value by at most 0.05 (half-way cases go up). */
  lemma Round1Within(x: real)
    ensures -0.05 < Round1(x) - x <= 0.05
  {
    var f := (x * 10.0 + 0.5).Floor;
    assert f as real <= x * 10.0 + 0.5 < f as real + 1.0;
  }

  /** Rounding to one decimal is monotone: it never reverses the order of two values. */
  lemma Round1Monotone(x: real, y: real)
    requires x <= y
    ensures Round1(x) <= Round1(y)
  {
    var fx := MathRound(x * 10.0);
    var fy := MathRound(y * 10.0);
    assert fx as real <= x * 10.0 + 0.5;
    assert y * 10.0 + 0.5 < fy as real + 1.0;
    assert fx <= fy;
  }

  /** Adding whole seconds commutes with rounding: `Round1(x + n) == Round1(x) + n`. */
  lemma Round1Shift(x: real, n: int)
    ensures Round1(x + n as real) == Round1(x) + n as real
  {
    var f := (x * 10.0 + 0.5).Floor;
    var g := ((x + n as real) * 10.0 + 0.5).Floor;
    assert f as real <= x * 10.0 + 0.5 < f as real + 1.0;
    assert g as real <= x * 10.0 + 10.0 * n as real + 0.5 < g as real + 1.0;
    assert g == f + 10 * n;
  }

  /** A value already rounded to one decimal is left unchanged by rounding again. */
  lemma Round1Idempotent(x: real)
    ensures Round1(Round1(x)) == Round1(x)
  {
    var f := (x * 10.0 + 0.5).Floor;
    assert Round1(x) * 10.0 == f as real;
    assert (f as real + 0.5).Floor == f;
  }
}
