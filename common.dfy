/** Small shared vocabulary: optional values, error-or-value results, and the
    string operations that the JavaScript and Java code relies on (trimming,
    prefix tests, decimal rendering of integers). */
module Common {

  /** A value that may be absent: Java's null / Optional, JavaScript's null or undefined. */
  datatype Option<+T> = None | Some(value: T) {
    function GetOr(default: T): T {
      match this
      case Some(v) => v
      case None => default
    }
  }

  /** A returned value or a thrown exception. */
  datatype Result<+T, +E> = Ok(value: T) | Err(error: E)

  // ---------------------------------------------------------------------------
  // JavaScript's String.prototype.trim and startsWith
  // ---------------------------------------------------------------------------

  /** The white-space and line-terminator characters that trim() and
      parseInt skip: tab, vertical tab, form feed, the byte-order mark,
      every space separator of Unicode category Zs, and the four line
      terminators. */
  predicate IsWhitespace(c: char) {
    c == '\t' || c == '\U{0B}' || c == '\U{0C}' || c == '\U{FEFF}'
    || IsSpaceSeparator(c)
    || c == '\n' || c == '\r' || c == '\U{2028}' || c == '\U{2029}'
  }

  /** Unicode category Zs. */
  predicate IsSpaceSeparator(c: char) {
    c == ' ' || c == '\U{A0}' || c == '\U{1680}' || '\U{2000}' <= c <= '\U{200A}'
    || c == '\U{202F}' || c == '\U{205F}' || c == '\U{3000}'
  }

  function TrimStart(s: string): (r: string)
    ensures |r| <= |s| && r == s[|s| - |r|..]
    ensures r == [] || !IsWhitespace(r[0])
    ensures forall i :: 0 <= i < |s| - |r| ==> IsWhitespace(s[i])
  {
    if s != [] && IsWhitespace(s[0]) then TrimStart(s[1..]) else s
  }

  /** A string that starts with something other than white space is its
      own trimStart. */
  lemma TrimStartUnpadded(s: string)
    requires s != [] && ('0' <= s[0] <= '9' || s[0] == '-' || s[0] == '+')
    ensures TrimStart(s) == s
  {
    SignsAndDigitsAreNotWhitespace(s[0]);
  }

  lemma SignsAndDigitsAreNotWhitespace(c: char)
    requires '0' <= c <= '9' || c == '-' || c == '+'
    ensures !IsWhitespace(c)
  {
  }

  function TrimEnd(s: string): (r: string)
    ensures |r| <= |s| && r == s[..|r|]
    ensures r == [] || !IsWhitespace(r[|r| - 1])
    ensures forall i :: |r| <= i < |s| ==> IsWhitespace(s[i])
  {
    if s != [] && IsWhitespace(s[|s| - 1]) then TrimEnd(s[..|s| - 1]) else s
  }

  /** s.trim(): s without its leading and trailing white space. */
  function Trim(s: string): string {
    TrimEnd(TrimStart(s))
  }

  /** trim() removes white space from both ends and nothing else: the result
      is empty exactly when the whole string is white space, and otherwise
      it starts and ends with a character that is not. */
  lemma TrimShape(s: string)
    ensures var r := Trim(s);
      && |r| <= |s|
      && (r == [] || (!IsWhitespace(r[0]) && !IsWhitespace(r[|r| - 1])))
      && (r == [] <==> forall i :: 0 <= i < |s| ==> IsWhitespace(s[i]))
  {
    var t := TrimStart(s);
    assert TrimEnd(t) == [] ==> t == [];
  }

  /** s.startsWith(p) */
  predicate StartsWith(s: string, p: string) {
    |p| <= |s| && s[..|p|] == p
  }

  // ---------------------------------------------------------------------------
  // Decimal rendering of integers (Java's string concatenation of an int or
  // long, JavaScript's template literal of a number)
  // ---------------------------------------------------------------------------

  function DigitChar(d: nat): (c: char)
    requires d < 10
    ensures '0' <= c <= '9'
  {
    "0123456789"[d]
  }

  function NatToString(n: nat): (s: string)
    ensures |s| >= 1
    ensures forall i :: 0 <= i < |s| ==> '0' <= s[i] <= '9'
    decreases n
  {
    if n < 10 then [DigitChar(n)] else NatToString(n / 10) + [DigitChar(n % 10)]
  }

  /** Integer.toString / Long.toString: an optional minus sign and the digits. */
  function IntToString(n: int): (s: string)
    ensures |s| >= 1
    ensures forall i :: 0 <= i < |s| ==> s[i] == '-' || '0' <= s[i] <= '9'
  {
    if n < 0 then "-" + NatToString(-n) else NatToString(n)
  }

  lemma DigitCharInjective(a: nat, b: nat)
    requires a < 10 && b < 10 && DigitChar(a) == DigitChar(b)
    ensures a == b
  {
  }

  /** A single digit exactly for the numbers below ten. */
  lemma NatToStringSingleDigit(n: nat)
    ensures |NatToString(n)| == 1 <==> n < 10
  {
    if n >= 10 {
      assert |NatToString(n)| == |NatToString(n / 10)| + 1;
    }
  }

  /** Distinct naturals have distinct decimal renderings. */
  lemma {:induction false} NatToStringInjective(a: nat, b: nat)
    requires NatToString(a) == NatToString(b)
    ensures a == b
    decreases a
  {
    NatToStringSingleDigit(a);
    NatToStringSingleDigit(b);
    var sa, sb := NatToString(a), NatToString(b);
    if a < 10 {
      assert b < 10;
      DigitCharInjective(a, b);
    } else {
      assert b >= 10;
      var pa, pb := NatToString(a / 10), NatToString(b / 10);
      assert sa == pa + [DigitChar(a % 10)];
      assert sb == pb + [DigitChar(b % 10)];
      assert pa == sa[..|sa| - 1] && pb == sb[..|sb| - 1];
      NatToStringInjective(a / 10, b / 10);
      assert sa[|sa| - 1] == DigitChar(a % 10) && sb[|sb| - 1] == DigitChar(b % 10);
      DigitCharInjective(a % 10, b % 10);
    }
  }

  /** The rendering starts with a minus sign exactly for negative numbers. */
  lemma IntToStringSign(n: int)
    ensures IntToString(n)[0] == '-' <==> n < 0
  {
    if n >= 0 {
      assert '0' <= NatToString(n)[0] <= '9';
    }
  }

  /** Equal renderings have the same sign. */
  lemma SignsAgree(a: int, b: int)
    requires IntToString(a) == IntToString(b)
    ensures a < 0 <==> b < 0
  {
    IntToStringSign(a);
    IntToStringSign(b);
  }

  /** Past its minus sign, a negative integer's rendering is its magnitude's digits. */
  lemma MinusDropped(a: int)
    requires a < 0
    ensures IntToString(a)[1..] == NatToString(-a)
  {
    assert ("-" + NatToString(-a))[1..] == NatToString(-a);
  }

  /** Equal renderings of two negative integers have equal digits. */
  lemma NegativeDigitsEqual(a: int, b: int)
    requires a < 0 && b < 0 && IntToString(a) == IntToString(b)
    ensures NatToString(-a) == NatToString(-b)
  {
    MinusDropped(a);
    MinusDropped(b);
  }

  lemma NegativeInjective(a: int, b: int)
    requires a < 0 && b < 0 && IntToString(a) == IntToString(b)
    ensures a == b
  {
    NegativeDigitsEqual(a, b);
    NatToStringInjective(-a, -b);
  }

  lemma NonNegativeInjective(a: int, b: int)
    requires a >= 0 && b >= 0 && IntToString(a) == IntToString(b)
    ensures a == b
  {
    NatToStringInjective(a, b);
  }

  /** Distinct integers have distinct decimal renderings. */
  lemma IntToStringInjective(a: int, b: int)
    requires IntToString(a) == IntToString(b)
    ensures a == b
  {
    SignsAgree(a, b);
    if a < 0 {
      NegativeInjective(a, b);
    } else {
      NonNegativeInjective(a, b);
    }
  }
}
