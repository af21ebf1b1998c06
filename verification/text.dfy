/**
 * The string building the source does with template literals: decimal
 * rendering of naturals (`${n}`), strings of quantities such as "2h 5m",
 * `String.prototype.split` on one character, and character (code-point)
 * order on strings, which agrees with the code-unit order of
 * `Array.prototype.sort` on the platform names. Each rendering has a reader that
 * inverts it.
 */
module Text {
  import opened Optional

  predicate IsDigit(c: char) {
    '0' <= c <= '9'
  }

  predicate AllDigits(s: string) {
    forall i :: 0 <= i < |s| ==> IsDigit(s[i])
  }

  function DigitChar(d: nat): (c: char)
    requires d < 10
    ensures IsDigit(c)
    ensures c as int - '0' as int == d
  {
    ('0' as int + d) as char
  }

  /**
   * `${n}` for a natural number: its decimal digits, without leading zeros.
   * This agrees with JavaScript only below 2^53, where numbers are exact doubles.
   */
  function NatToString(n: nat): (s: string)
    ensures |s| >= 1 && AllDigits(s)
    ensures s[0] == '0' ==> n == 0
    decreases n
  {
    if n < 10 then [DigitChar(n)] else NatToString(n / 10) + [DigitChar(n % 10)]
  }

  /** The value of a string of decimal digits. */
  function ParseDigits(s: string): nat
    requires AllDigits(s)
  {
    if s == [] then 0 else ParseDigits(s[..|s| - 1]) * 10 + (s[|s| - 1] as int - '0' as int)
  }

  lemma {:induction false} ParseNatToString(n: nat)
    ensures ParseDigits(NatToString(n)) == n
    decreases n
  {
    var s := NatToString(n);
    if n < 10 {
      assert s[..|s| - 1] == [];
    } else {
      assert s[..|s| - 1] == NatToString(n / 10);
      ParseNatToString(n / 10);
    }
  }

  /** The length of the longest prefix of `s` made of digits. */
  function LeadingDigits(s: string): (k: nat)
    ensures k <= |s|
    ensures forall i :: 0 <= i < k ==> IsDigit(s[i])
    ensures k < |s| ==> !IsDigit(s[k])
  {
    if s == [] || !IsDigit(s[0]) then 0 else 1 + LeadingDigits(s[1..])
  }

  lemma LeadingDigitsOf(x: string, t: string)
    requires AllDigits(x)
    requires t == [] || !IsDigit(t[0])
    ensures LeadingDigits(x + t) == |x|
  {
    assert forall i :: 0 <= i < |x| ==> (x + t)[i] == x[i];
    assert t != [] ==> (x + t)[|x|] == t[0];
  }

  /** One field of a displayed time span, such as `5h`: an amount and its unit letter. */
  datatype Quantity = Quantity(amount: nat, unit: char)

  predicate IsUnit(c: char) {
    !IsDigit(c) && c != ' '
  }

  function Show(q: Quantity): string {
    NatToString(q.amount) + [q.unit]
  }

  /** Quantities separated by single spaces, as in "3d 4h". */
  function JoinQuantities(qs: seq<Quantity>): string {
    if qs == [] then ""
    else if |qs| == 1 then Show(qs[0])
    else Show(qs[0]) + " " + JoinQuantities(qs[1..])
  }

  /** Reads back a string of quantities; `None` when the string is not of that shape. */
  function ParseQuantities(s: string): Option<seq<Quantity>>
    decreases |s|
  {
    var k := LeadingDigits(s);
    if k == 0 || k == |s| || !IsUnit(s[k]) then None
    else
      var q := Quantity(ParseDigits(s[..k]), s[k]);
      var tail := s[k + 1..];
      if tail == [] then Some([q])
      else if tail[0] != ' ' then None
      else match ParseQuantities(tail[1..])
        case None => None
        case Some(qs) => Some([q] + qs)
  }

  /** One reading step: a field written as digits and a unit, then the end of the text or a space and the rest. */
  lemma ParseQuantitiesStep(digits: string, u: char, rest: string)
    requires |digits| >= 1 && AllDigits(digits) && IsUnit(u)
    requires rest == [] || rest[0] == ' '
    ensures var q := Quantity(ParseDigits(digits), u);
      ParseQuantities(digits + [u] + rest) ==
        if rest == [] then Some([q])
        else match ParseQuantities(rest[1..])
          case None => None
          case Some(qs) => Some([q] + qs)
  {
    var s := digits + [u] + rest;
    assert s == digits + ([u] + rest);
    LeadingDigitsOf(digits, [u] + rest);
    var k := LeadingDigits(s);
    assert k == |digits| && k < |s| && s[k] == u;
    assert s[..k] == digits;
    assert s[k + 1..] == rest;
  }

  /** Rendering a non-empty list of quantities loses nothing: the reader gets the list back. */
  lemma {:induction false} ParseJoinQuantities(qs: seq<Quantity>)
    requires |qs| >= 1
    requires forall q :: q in qs ==> IsUnit(q.unit)
    ensures ParseQuantities(JoinQuantities(qs)) == Some(qs)
  {
    var q := qs[0];
    var digits := NatToString(q.amount);
    ParseNatToString(q.amount);
    assert Quantity(ParseDigits(digits), q.unit) == q;
    var s := JoinQuantities(qs);
    if |qs| == 1 {
      assert s == digits + [q.unit] + "";
      ParseQuantitiesStep(digits, q.unit, "");
      assert qs == [q];
    } else {
      var tail := qs[1..];
      var rest := " " + JoinQuantities(tail);
      assert s == digits + [q.unit] + rest;
      assert forall x :: x in tail ==> x in qs;
      ParseJoinQuantities(tail);
      assert rest[1..] == JoinQuantities(tail);
      ParseQuantitiesStep(digits, q.unit, rest);
      assert [q] + tail == qs;
    }
  }

  /**
   * `s.split(sep)`: the pieces between occurrences of `sep`; never empty. The
   * first piece is the text before the first `sep`, the whole string when it
   * has none.
   */
  function Split(s: string, sep: char): (parts: seq<string>)
    ensures |parts| >= 1
    ensures forall i :: 0 <= i < |parts| ==> sep !in parts[i]
    ensures |parts| == 1 <==> sep !in s
    ensures |parts[0]| <= |s| && parts[0] == s[..|parts[0]|]
    ensures |parts[0]| < |s| ==> s[|parts[0]|] == sep
  {
    if s == [] then [""]
    else
      var rest := Split(s[1..], sep);
      if s[0] == sep then [""] + rest
      else
        assert forall i :: 1 <= i < |rest| ==> rest[i] == rest[1..][i - 1];
        assert [s[0]] + s[1..][..|rest[0]|] == s[..|rest[0]| + 1];
        [[s[0]] + rest[0]] + rest[1..]
  }

  /** `parts.join(sep)`. */
  function Join(parts: seq<string>, sep: char): string
    requires |parts| >= 1
  {
    if |parts| == 1 then parts[0] else parts[0] + [sep] + Join(parts[1..], sep)
  }

  /** Splitting loses nothing: joining the pieces back gives the original string. */
  lemma {:induction false} JoinSplit(s: string, sep: char)
    ensures Join(Split(s, sep), sep) == s
  {
    if s != [] {
      JoinSplit(s[1..], sep);
      var rest := Split(s[1..], sep);
      if s[0] == sep {
        assert ([""] + rest)[1..] == rest;
      } else {
        var parts := [[s[0]] + rest[0]] + rest[1..];
        if |rest| > 1 {
          assert parts[1..] == rest[1..];
        }
      }
    }
  }

  /** The piece before the first separator is found in the separator-free prefix. */
  lemma {:induction false} SplitAtFirstSep(x: string, sep: char, y: string)
    requires sep !in x
    ensures Split(x + [sep] + y, sep) == [x] + Split(y, sep)
  {
    if x == [] {
      assert x + [sep] + y == [sep] + y;
      assert ([sep] + y)[1..] == y;
    } else {
      assert (x + [sep] + y)[1..] == x[1..] + [sep] + y;
      SplitAtFirstSep(x[1..], sep, y);
      assert [x[0]] + x[1..] == x;
    }
  }

  /** What follows a separator never changes the first piece. */
  lemma {:induction false} SplitFirstPiece(x: string, sep: char, y: string)
    ensures Split(x + [sep] + y, sep)[0] == Split(x, sep)[0]
  {
    if x == [] {
      assert x + [sep] + y == [sep] + y;
      assert ([sep] + y)[1..] == y;
    } else {
      assert (x + [sep] + y)[1..] == x[1..] + [sep] + y;
      SplitFirstPiece(x[1..], sep, y);
    }
  }

  /**
   * Lexicographic comparison by character (code point). It agrees with the
   * UTF-16 code-unit order of `Array.prototype.sort` on strings without
   * characters above U+FFFF, such as the platform names.
   */
  predicate LexLess(a: string, b: string) {
    if b == [] then false
    else if a == [] then true
    else if a[0] != b[0] then a[0] < b[0]
    else LexLess(a[1..], b[1..])
  }

  lemma {:induction false} LexLessAsymmetric(a: string, b: string)
    ensures LexLess(a, b) ==> !LexLess(b, a)
  {
    if a != [] && b != [] && a[0] == b[0] {
      LexLessAsymmetric(a[1..], b[1..]);
    }
  }

  /** A common prefix does not decide the order. */
  lemma {:induction false} LexLessCommonPrefix(p: string, a: string, b: string)
    ensures LexLess(p + a, p + b) == LexLess(a, b)
  {
    if p != [] {
      assert (p + a)[1..] == p[1..] + a;
      assert (p + b)[1..] == p[1..] + b;
      LexLessCommonPrefix(p[1..], a, b);
    } else {
      assert p + a == a && p + b == b;
    }
  }
}
