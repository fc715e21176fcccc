/** The handful of Java library behaviours the two compaction plugins lean on:
    Integer.parseInt, Integer.toString, Boolean.parseBoolean,
    String.split with a one-character delimiter and String.toUpperCase.
    A Java `null` is `None`; an exception the library would throw is `None`
    as well where the caller turns it into its own error. */
module JavaLang {

  datatype Option<+T> = None | Some(value: T)

  datatype Result<+T, +E> = Ok(value: T) | Err(error: E)

  /** The range of a Java `int`. */
  const IntMin: int := -0x8000_0000
  const IntMax: int := 0x7fff_ffff

  predicate IsDigit(c: char) { '0' <= c <= '9' }

  predicate AllDigits(s: string) { forall i :: 0 <= i < |s| ==> IsDigit(s[i]) }

  function DigitValue(c: char): (d: nat)
    requires IsDigit(c)
    ensures d < 10
  {
    c as int - '0' as int
  }

  function DigitChar(d: nat): (c: char)
    requires d < 10
    ensures IsDigit(c) && DigitValue(c) == d
  {
    ('0' as int + d) as char
  }

  /** The number a run of decimal digits denotes, most significant digit first. */
  function DigitsValue(s: string): nat
    requires AllDigits(s)
  {
    if s == [] then 0 else 10 * DigitsValue(s[..|s| - 1]) + DigitValue(s[|s| - 1])
  }

  /** Integer.toString(n) for a non-negative n: its decimal digits without a leading zero. */
  function Decimal(n: nat): (s: string)
    ensures s != [] && AllDigits(s)
    ensures DigitsValue(s) == n
    ensures |s| > 1 ==> s[0] != '0'
    decreases n
  {
    if n < 10 then [DigitChar(n)]
    else
      var s := Decimal(n / 10) + [DigitChar(n % 10)];
      assert s[..|s| - 1] == Decimal(n / 10);
      s
  }

  /** Integer.parseInt(s): an optional '+' or '-' sign and at least one decimal
      digit, denoting a value within the `int` range; anything else (a null
      argument included) makes Java throw NumberFormatException, here `None`. */
  function ParseInt(s: Option<string>): (r: Option<int>)
    ensures s.None? ==> r.None?
    ensures r.Some? ==> IntMin <= r.value <= IntMax
    ensures r.Some? ==>
      var t := s.value;
      var u := if t != [] && t[0] in "+-" then t[1..] else t;
      u != [] && AllDigits(u) && r.value == (if t[0] == '-' then -(DigitsValue(u) as int) else DigitsValue(u) as int)
    ensures (s.Some? &&
             var t := s.value;
             var u := if t != [] && t[0] in "+-" then t[1..] else t;
             u != [] && AllDigits(u) &&
             IntMin <= (if t[0] == '-' then -(DigitsValue(u) as int) else DigitsValue(u) as int) <= IntMax)
      ==> r.Some?
  {
    if s.None? then None
    else
      var t := s.value;
      var signed := |t| > 0 && (t[0] == '-' || t[0] == '+');
      var digits := if signed then t[1..] else t;
      if digits == [] || !AllDigits(digits) then None
      else
        var v: int := if signed && t[0] == '-' then -(DigitsValue(digits) as int) else DigitsValue(digits);
        if IntMin <= v <= IntMax then Some(v) else None
  }

  /** parseInt reads back what Integer.toString writes, for every `int` value. */
  lemma ParseIntDecimal(n: int)
    requires IntMin <= n <= IntMax
    ensures n >= 0 ==> ParseInt(Some(Decimal(n))) == Some(n)
    ensures n < 0 ==> ParseInt(Some("-" + Decimal(-n))) == Some(n)
  {
    if n < 0 {
      var t := "-" + Decimal(-n);
      assert t[1..] == Decimal(-n);
    }
  }

  function ToUpperChar(c: char): char
  {
    if 'a' <= c <= 'z' then (c as int - 32) as char else c
  }

  function ToLowerChar(c: char): char
  {
    if 'A' <= c <= 'Z' then (c as int + 32) as char else c
  }

  /** String.toUpperCase on the ASCII letters. */
  function ToUpperCase(s: string): (u: string)
    ensures |u| == |s|
    ensures forall i :: 0 <= i < |s| ==> ('a' <= s[i] <= 'z' <==> 'A' <= u[i] <= 'Z' && u[i] != s[i])
    ensures forall i :: 0 <= i < |s| ==> !('a' <= u[i] <= 'z') && ToLowerChar(u[i]) == ToLowerChar(s[i])
  {
    seq(|s|, i requires 0 <= i < |s| => ToUpperChar(s[i]))
  }

  /** Text without lower-case letters is its own upper case. */
  lemma UpperCaseKeeps(s: string)
    requires forall i :: 0 <= i < |s| ==> !('a' <= s[i] <= 'z')
    ensures ToUpperCase(s) == s
  {
  }

  /** String.equalsIgnoreCase, for ASCII text. */
  predicate EqualsIgnoreCase(a: string, b: string)
  {
    |a| == |b| && forall i :: 0 <= i < |a| ==> ToLowerChar(a[i]) == ToLowerChar(b[i])
  }

  /** Upper-casing s gives a text t without lower-case letters exactly when
      s equals t ignoring case. */
  lemma UpperCaseMatches(s: string, t: string)
    requires forall i :: 0 <= i < |t| ==> !('a' <= t[i] <= 'z')
    ensures ToUpperCase(s) == t <==> EqualsIgnoreCase(s, t)
  {
    if EqualsIgnoreCase(s, t) {
      forall i | 0 <= i < |s| ensures ToUpperCase(s)[i] == t[i] {
        assert ToLowerChar(s[i]) == ToLowerChar(t[i]);
      }
    }
  }

  /** Boolean.parseBoolean(s): true exactly when s is not null and spells
      "true" in any mix of letter cases; never an error. */
  function ParseBoolean(s: Option<string>): (b: bool)
    ensures b <==> (s.Some? && |s.value| == 4 && s.value[0] in "tT" && s.value[1] in "rR" &&
                    s.value[2] in "uU" && s.value[3] in "eE")
  {
    s.Some? && EqualsIgnoreCase(s.value, "true")
  }

  /** Joins pieces back together with d between neighbours. */
  function Join(parts: seq<string>, d: char): string
    requires |parts| >= 1
  {
    if |parts| == 1 then parts[0] else Join(parts[..|parts| - 1], d) + [d] + parts[|parts| - 1]
  }

  /** The pieces of s between occurrences of d, one more than d occurs. */
  function Fields(s: string, d: char): (r: seq<string>)
    ensures |r| >= 1
  {
    if s == [] then [[]]
    else
      var init := Fields(s[..|s| - 1], d);
      var c := s[|s| - 1];
      if c == d then init + [[]]
      else init[..|init| - 1] + [init[|init| - 1] + [c]]
  }

  /** Joining with the delimiter again: a new empty piece adds one delimiter. */
  lemma JoinEmptyPiece(parts: seq<string>, d: char)
    requires |parts| >= 1
    ensures Join(parts + [[]], d) == Join(parts, d) + [d]
  {
    assert (parts + [[]])[..|parts|] == parts;
  }

  /** Joining with the delimiter again: extending the last piece extends the text. */
  lemma JoinExtendLast(parts: seq<string>, c: char, d: char)
    requires |parts| >= 1
    ensures Join(parts[..|parts| - 1] + [parts[|parts| - 1] + [c]], d) == Join(parts, d) + [c]
  {
    var r := parts[..|parts| - 1] + [parts[|parts| - 1] + [c]];
    assert r[..|r| - 1] == parts[..|parts| - 1];
  }

  /** No piece holds the delimiter, and joining the pieces with it gives s back. */
  lemma {:induction false} FieldsJoin(s: string, d: char)
    ensures forall i :: 0 <= i < |Fields(s, d)| ==> d !in Fields(s, d)[i]
    ensures Join(Fields(s, d), d) == s
  {
    if s != [] {
      var init, c := s[..|s| - 1], s[|s| - 1];
      assert s == init + [c];
      FieldsJoin(init, d);
      var f := Fields(init, d);
      if c == d {
        JoinEmptyPiece(f, d);
      } else {
        JoinExtendLast(f, c, d);
        var r := Fields(s, d);
        assert r == f[..|f| - 1] + [f[|f| - 1] + [c]];
        forall i | 0 <= i < |r| ensures d !in r[i] {
          if i < |f| - 1 {
            assert r[i] == f[i];
          } else {
            assert r[i] == f[|f| - 1] + [c];
          }
        }
      }
    }
  }

  /** A string without the delimiter is a single piece. */
  lemma {:induction false} FieldsWithoutDelimiter(s: string, d: char)
    requires d !in s
    ensures Fields(s, d) == [s]
  {
    if s != [] {
      FieldsWithoutDelimiter(s[..|s| - 1], d);
      assert s[..|s| - 1] + [s[|s| - 1]] == s;
    }
  }

  /** One more character either ends the last piece with it or, being the
      delimiter, starts an empty piece. */
  lemma FieldsSnoc(s: string, c: char, d: char)
    ensures Fields(s + [c], d) == if c == d then Fields(s, d) + [[]]
      else Fields(s, d)[..|Fields(s, d)| - 1] + [Fields(s, d)[|Fields(s, d)| - 1] + [c]]
  {
    assert s + [c] != [];
    assert (s + [c])[..|s + [c]| - 1] == s;
  }

  /** The pieces on either side of one delimiter are the pieces of each side. */
  lemma {:induction false} FieldsAround(a: string, d: char, b: string)
    ensures Fields(a + [d] + b, d) == Fields(a, d) + Fields(b, d)
  {
    if b == [] {
      assert a + [d] + b == a + [d];
      FieldsSnoc(a, d, d);
    } else {
      var b', c := b[..|b| - 1], b[|b| - 1];
      FieldsAround(a, d, b');
      assert a + [d] + b == (a + [d] + b') + [c];
      assert b == b' + [c];
      FieldsSnoc(a + [d] + b', c, d);
      FieldsSnoc(b', c, d);
      var fa, fb := Fields(a, d), Fields(b', d);
      if c == d {
        assert (fa + fb) + [[]] == fa + (fb + [[]]);
      } else {
        ReplaceLast(fa, fb, fb[|fb| - 1] + [c]);
      }
    }
  }

  lemma ReplaceLast<T>(xs: seq<T>, ys: seq<T>, e: T)
    requires ys != []
    ensures (xs + ys)[..|xs + ys| - 1] + [e] == xs + (ys[..|ys| - 1] + [e])
  {
  }

  /** Drops the empty pieces at the end (String.split with limit 0). */
  function DropTrailingEmpty(parts: seq<string>): (r: seq<string>)
    ensures r <= parts
    ensures r == [] || r[|r| - 1] != []
    ensures forall i :: |r| <= i < |parts| ==> parts[i] == []
  {
    if parts == [] || parts[|parts| - 1] != [] then parts
    else DropTrailingEmpty(parts[..|parts| - 1])
  }

  /** s.split(d) for a delimiter that is not a regular-expression metacharacter:
      the whole string when d does not occur, otherwise the pieces between
      delimiters with the trailing empty ones removed. */
  function Split(s: string, d: char): (r: seq<string>)
    ensures forall i :: 0 <= i < |r| ==> d !in r[i]
    ensures d !in s ==> r == [s]
    ensures d in s ==> r == [] || r[|r| - 1] != []
    ensures d in s ==> r <= Fields(s, d) && forall i :: |r| <= i < |Fields(s, d)| ==> Fields(s, d)[i] == []
  {
    FieldsJoin(s, d);
    if d !in s then [s] else DropTrailingEmpty(Fields(s, d))
  }

  /** Two delimited pieces split into those two pieces. */
  lemma SplitTwo(a: string, d: char, b: string)
    requires d !in a && d !in b && b != []
    ensures Split(a + [d] + b, d) == [a, b]
  {
    var s := a + [d] + b;
    assert d in s by { assert s[|a|] == d; }
    FieldsAround(a, d, b);
    FieldsWithoutDelimiter(a, d);
    FieldsWithoutDelimiter(b, d);
    assert Fields(s, d) == [a, b];
    assert DropTrailingEmpty([a, b]) == [a, b];
  }

  /** A trailing delimiter adds no piece. */
  lemma SplitTrailing(a: string, d: char, b: string)
    requires d !in a && d !in b && b != []
    ensures Split(a + [d] + b + [d], d) == [a, b]
  {
    var s := a + [d] + (b + [d] + []);
    assert a + [d] + b + [d] == s;
    assert d in s by { assert s[|a|] == d; }
    FieldsAround(b, d, []);
    FieldsAround(a, d, b + [d] + []);
    FieldsWithoutDelimiter(a, d);
    FieldsWithoutDelimiter(b, d);
    assert Fields([], d) == [[]];
    var f := Fields(s, d);
    assert f == [a, b, []];
    assert f[..2] == [a, b];
    assert DropTrailingEmpty(f) == DropTrailingEmpty([a, b]);
    assert DropTrailingEmpty([a, b]) == [a, b];
  }
}
