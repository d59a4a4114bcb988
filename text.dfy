/**
 * The JavaScript string primitives the core relies on: the `\s` class (which is also what
 * `String.prototype.trim` removes), line terminators (what `.` refuses), `trim`, `split('\n')`,
 * `join`, `includes`, `parseInt` on a run of decimal digits and the decimal rendering of a
 * non-negative integer (`${n}`).
 */
module Text {

  /** JavaScript's LineTerminator: the characters `.` does not match. */
  predicate IsLineTerminator(c: char) {
    c == '\n' || c == '\r' || c == '\U{2028}' || c == '\U{2029}'
  }

  /** JavaScript's `\s` class (WhiteSpace plus LineTerminator). */
  predicate IsWhitespace(c: char) {
    || c == '\t' || c == '\n' || c == '\U{000B}' || c == '\U{000C}' || c == '\r' || c == ' '
    || c == '\U{00A0}' || c == '\U{1680}' || ('\U{2000}' <= c <= '\U{200A}')
    || c == '\U{2028}' || c == '\U{2029}' || c == '\U{202F}' || c == '\U{205F}'
    || c == '\U{3000}' || c == '\U{FEFF}'
  }

  /** JavaScript's `\d` class: ASCII digits only. */
  predicate IsDigit(c: char) {
    '0' <= c <= '9'
  }

  predicate AllDigits(s: string) {
    forall i :: 0 <= i < |s| ==> IsDigit(s[i])
  }

  /** A string that `trim` leaves as it is. */
  predicate Trimmed(s: string) {
    s == [] || (!IsWhitespace(s[0]) && !IsWhitespace(s[|s| - 1]))
  }

  // ---------------------------------------------------------------- trim

  /** `trimStart`: drops the leading whitespace, keeps a suffix of `s`. */
  function TrimStart(s: string): (r: string)
    ensures |r| <= |s| && r == s[|s| - |r|..]
    ensures r == [] || !IsWhitespace(r[0])
    ensures forall i :: 0 <= i < |s| - |r| ==> IsWhitespace(s[i])
  {
    if s != [] && IsWhitespace(s[0]) then TrimStart(s[1..]) else s
  }

  /** `trimEnd`: drops the trailing whitespace, keeps a prefix of `s`. */
  function TrimEnd(s: string): (r: string)
    ensures |r| <= |s| && r == s[..|r|]
    ensures r == [] || !IsWhitespace(r[|r| - 1])
    ensures forall i :: |r| <= i < |s| ==> IsWhitespace(s[i])
  {
    if s != [] && IsWhitespace(s[|s| - 1]) then TrimEnd(s[..|s| - 1]) else s
  }

  /**
   * `trim`: the slice of `s` between its leading and trailing whitespace. The result is
   * trimmed, it is empty exactly when `s` is all whitespace, and a trimmed string is its own
   * trim.
   */
  function Trim(s: string): (r: string)
    ensures Trimmed(r)
    ensures |r| <= |TrimStart(s)| && r == TrimStart(s)[..|r|]
    ensures r == [] <==> forall i :: 0 <= i < |s| ==> IsWhitespace(s[i])
    ensures Trimmed(s) ==> r == s
  {
    var t := TrimStart(s);
    var r := TrimEnd(t);
    assert r != [] ==> r[0] == t[0] && !IsWhitespace(r[0]);
    TrimEmptyIff(s);
    TrimIdentity(s);
    r
  }

  lemma TrimEmptyIff(s: string)
    ensures TrimEnd(TrimStart(s)) == [] <==> forall i :: 0 <= i < |s| ==> IsWhitespace(s[i])
  {
    var t := TrimStart(s);
    var a := |s| - |t|;
    if TrimEnd(t) == [] {
    } else {
      assert t[0] == s[a];
    }
  }

  lemma TrimIdentity(s: string)
    ensures Trimmed(s) ==> TrimEnd(TrimStart(s)) == s
  {
    if Trimmed(s) && s != [] {
      var t := TrimStart(s);
      assert t == s;
      var r := TrimEnd(t);
      assert |r| == |t|;
    }
  }

  /** Dropping leading whitespace first does not change `trim`. */
  lemma TrimAfterTrimStart(s: string)
    ensures Trim(TrimStart(s)) == Trim(s)
  {
    var t := TrimStart(s);
    assert TrimStart(t) == t;
  }

  /** Every character of `Trim(s)` is a character of `s`. */
  lemma TrimChars(s: string, c: char)
    requires c in Trim(s)
    ensures c in s
  {
    var t := TrimStart(s);
    assert c in t;
    assert t == s[|s| - |t|..];
  }

  // ---------------------------------------------------------------- split and join

  /** `xs.join(sep)`. */
  function Join(xs: seq<string>, sep: string): (r: string)
  {
    if |xs| == 0 then ""
    else if |xs| == 1 then xs[0]
    else xs[0] + sep + Join(xs[1..], sep)
  }

  /** `s.split(sep)` for a one-character separator: always at least one piece, none holds `sep`. */
  function Split(s: string, sep: char): (r: seq<string>)
    ensures |r| >= 1
    ensures forall i :: 0 <= i < |r| ==> sep !in r[i]
    ensures Join(r, [sep]) == s
  {
    if s == [] then [""]
    else
      var rest := Split(s[1..], sep);
      if s[0] == sep then
        [""] + rest
      else
        var r := [[s[0]] + rest[0]] + rest[1..];
        assert Join(r, [sep]) == [s[0]] + Join(rest, [sep]) by {
          if |rest| >= 2 {
            assert rest[1..][1..] == rest[2..];
          }
        }
        assert s == [s[0]] + s[1..];
        r
  }

  /** A piece without the separator, followed by the separator, splits off as one piece. */
  lemma {:induction false} SplitPiece(a: string, sep: char, t: string)
    requires sep !in a
    ensures Split(a + [sep] + t, sep) == [a] + Split(t, sep)
  {
    if a != [] {
      assert (a + [sep] + t)[1..] == a[1..] + [sep] + t;
      SplitPiece(a[1..], sep, t);
      assert [a[0]] + a[1..] == a;
    } else {
      assert (a + [sep] + t)[1..] == t;
    }
  }

  /** A string without the separator splits into itself. */
  lemma {:induction false} SplitNone(a: string, sep: char)
    requires sep !in a
    ensures Split(a, sep) == [a]
  {
    if a != [] {
      SplitNone(a[1..], sep);
      assert [a[0]] + a[1..] == a;
    }
  }

  /** `split` undoes `join` when no piece holds the separator. */
  lemma {:induction false} SplitJoin(xs: seq<string>, sep: char)
    requires |xs| >= 1
    requires forall i :: 0 <= i < |xs| ==> sep !in xs[i]
    ensures Split(Join(xs, [sep]), sep) == xs
  {
    if |xs| == 1 {
      SplitNone(xs[0], sep);
    } else {
      SplitPiece(xs[0], sep, Join(xs[1..], [sep]));
      SplitJoin(xs[1..], sep);
    }
  }

  /** Joining at a cut point: the two halves with one separator between them. */
  lemma {:induction false} JoinAt(xs: seq<string>, sep: string, k: nat)
    requires 0 < k < |xs|
    ensures Join(xs, sep) == Join(xs[..k], sep) + sep + Join(xs[k..], sep)
  {
    if k == 1 {
      assert xs[..1] == [xs[0]];
    } else {
      JoinAt(xs[1..], sep, k - 1);
      assert xs[1..][..k - 1] == xs[1..k];
      assert xs[1..][k - 1..] == xs[k..];
      assert xs[..k][1..] == xs[1..k];
    }
  }

  // ---------------------------------------------------------------- includes

  /** `s.includes(t)`, as a scan from position `i`. */
  predicate IncludesFrom(s: string, t: string, i: nat)
    decreases |s| - i
  {
    i + |t| <= |s| && (s[i..i + |t|] == t || IncludesFrom(s, t, i + 1))
  }

  /** `s.includes(t)`. */
  predicate Includes(s: string, t: string) {
    IncludesFrom(s, t, 0)
  }

  /** A string includes every piece it is built from. */
  lemma IncludesPart(a: string, t: string, b: string)
    ensures Includes(a + t + b, t)
  {
    IncludesBefore(a + t + b, t, |a|, 0);
  }

  /** A scan that starts at or before an occurrence finds it. */
  lemma {:induction false} IncludesBefore(s: string, t: string, k: nat, i: nat)
    requires i <= k && k + |t| <= |s| && s[k..k + |t|] == t
    ensures IncludesFrom(s, t, i)
    decreases k - i
  {
    if i < k {
      IncludesBefore(s, t, k, i + 1);
    }
  }

  /** An occurrence found by the scan from `i`. */
  lemma {:induction false} IncludesAt(s: string, t: string, i: nat) returns (k: nat)
    requires IncludesFrom(s, t, i)
    ensures i <= k && k + |t| <= |s| && s[k..k + |t|] == t
    decreases |s| - i
  {
    if s[i..i + |t|] == t {
      k := i;
    } else {
      k := IncludesAt(s, t, i + 1);
    }
  }

  /** Inclusion is transitive. */
  lemma IncludesTrans(s: string, t: string, u: string)
    requires Includes(s, t) && Includes(t, u)
    ensures Includes(s, u)
  {
    var i := IncludesAt(s, t, 0);
    var j := IncludesAt(t, u, 0);
    forall m | 0 <= m < |u| ensures s[i + j + m] == u[m] {
      assert s[i + j + m] == s[i..i + |t|][j + m] == t[j + m];
    }
    assert s[i + j..i + j + |u|] == u;
    IncludesBefore(s, u, i + j, 0);
  }

  /** No `x` immediately followed by `y` anywhere in `s`. */
  predicate NoPair(s: string, x: char, y: char) {
    forall k :: 0 <= k < |s| - 1 ==> !(s[k] == x && s[k + 1] == y)
  }

  lemma NoPairConcat(a: string, b: string, x: char, y: char)
    requires NoPair(a, x, y) && NoPair(b, x, y)
    requires a != [] && b != [] ==> !(a[|a| - 1] == x && b[0] == y)
    ensures NoPair(a + b, x, y)
  {
    var s := a + b;
    forall k | 0 <= k < |s| - 1 ensures !(s[k] == x && s[k + 1] == y) {
      if k + 1 < |a| {
        assert s[k] == a[k] && s[k + 1] == a[k + 1];
      } else if k >= |a| {
        assert s[k] == b[k - |a|] && s[k + 1] == b[k + 1 - |a|];
      }
    }
  }

  /** A string lacking two adjacent characters of `t` does not include `t`. */
  lemma NoPairExcludes(s: string, t: string, j: nat)
    requires j + 1 < |t| && NoPair(s, t[j], t[j + 1])
    ensures !Includes(s, t)
  {
    if Includes(s, t) {
      var k := IncludesAt(s, t, 0);
    }
  }

  // ---------------------------------------------------------------- decimal numbers

  function DigitChar(d: nat): (c: char)
    requires d < 10
    ensures IsDigit(c)
  {
    ['0', '1', '2', '3', '4', '5', '6', '7', '8', '9'][d]
  }

  function DigitValue(c: char): (d: nat)
    requires IsDigit(c)
    ensures d < 10 && DigitChar(d) == c
  {
    (c as int - '0' as int)
  }

  /** `parseInt` of a run of decimal digits: its decimal value (exact, on unbounded naturals). */
  function ParseDigits(ds: string): (n: nat)
    requires AllDigits(ds)
  {
    if ds == [] then 0 else 10 * ParseDigits(ds[..|ds| - 1]) + DigitValue(ds[|ds| - 1])
  }

  /** `${n}` for a non-negative integer: its decimal digits, without leading zeros. */
  function NatToString(n: nat): (s: string)
    ensures |s| >= 1 && AllDigits(s)
    ensures |s| > 1 ==> s[0] != '0'
  {
    if n < 10 then [DigitChar(n)] else NatToString(n / 10) + [DigitChar(n % 10)]
  }

  /** Rendering a number and parsing it back gives the number. */
  lemma {:induction false} ParseNatToString(n: nat)
    ensures ParseDigits(NatToString(n)) == n
  {
    if n >= 10 {
      var s := NatToString(n);
      assert s[..|s| - 1] == NatToString(n / 10);
      ParseNatToString(n / 10);
    }
  }

  /** Distinct numbers render differently. */
  lemma NatToStringInjective(m: nat, n: nat)
    requires NatToString(m) == NatToString(n)
    ensures m == n
  {
    ParseNatToString(m);
    ParseNatToString(n);
  }
}
