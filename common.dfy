/** Shared vocabulary of the model: optional values, the outcome of a remote call the model
    does not execute, service results, and the few JavaScript string built-ins the services
    rely on (String.prototype.trim, decimal rendering of an integer, reversed row order). */
module Common {

  /** A value that may be absent: SQL NULL, a missing GraphQL argument, or `undefined`. */
  datatype Option<+T> = None | Some(value: T)

  /** What a remote call (a gateway) answered: a value, or any failure of the call. */
  datatype Outcome<+T> = Ok(value: T) | Err

  /** The result of a resolver: its value, or the error it throws. */
  datatype Result<+T, +E> = Success(value: T) | Failure(error: E)

  /** The characters ECMAScript's `trim` removes: WhiteSpace and LineTerminator code points. */
  predicate IsJsWhitespace(c: char)
  {
    c == '\t' || c == '\n' || c == '\U{000B}' || c == '\U{000C}' || c == '\r' || c == ' '
    || c == '\U{00A0}' || c == '\U{1680}' || ('\U{2000}' <= c <= '\U{200A}')
    || c == '\U{2028}' || c == '\U{2029}' || c == '\U{202F}' || c == '\U{205F}'
    || c == '\U{3000}' || c == '\U{FEFF}'
  }

  predicate AllWhitespace(s: string)
  {
    forall i | 0 <= i < |s| :: IsJsWhitespace(s[i])
  }

  /** Drops leading whitespace. */
  function TrimStart(s: string): (r: string)
    ensures |r| <= |s| && r == s[|s| - |r|..]
    ensures r == [] || !IsJsWhitespace(r[0])
  {
    if |s| > 0 && IsJsWhitespace(s[0]) then TrimStart(s[1..]) else s
  }

  /** Drops trailing whitespace. */
  function TrimEnd(s: string): (r: string)
    ensures |r| <= |s| && r == s[..|r|]
    ensures r == [] || !IsJsWhitespace(r[|r| - 1])
  {
    if |s| > 0 && IsJsWhitespace(s[|s| - 1]) then TrimEnd(s[..|s| - 1]) else s
  }

  /** `s.trim()` */
  function Trim(s: string): string
  {
    TrimEnd(TrimStart(s))
  }

  /** `!s.trim()`, i.e. `s.trim() === ''` */
  predicate IsBlank(s: string)
  {
    Trim(s) == ""
  }

  lemma {:induction false} TrimStartEmptyIff(s: string)
    ensures TrimStart(s) == [] <==> AllWhitespace(s)
  {
    if |s| > 0 && IsJsWhitespace(s[0]) {
      TrimStartEmptyIff(s[1..]);
      assert AllWhitespace(s[1..]) ==> AllWhitespace(s) by {
        if AllWhitespace(s[1..]) {
          forall i | 0 <= i < |s| ensures IsJsWhitespace(s[i]) {
            if i > 0 { assert s[i] == s[1..][i - 1]; }
          }
        }
      }
    }
  }

  /** A string is blank for `trim` exactly when every character of it is whitespace. */
  lemma BlankIffAllWhitespace(s: string)
    ensures IsBlank(s) <==> AllWhitespace(s)
  {
    TrimStartEmptyIff(s);
    var t := TrimStart(s);
    assert t == [] || TrimEnd(t) != [] by {
      if t != [] && TrimEnd(t) == [] {
        TrimEndOfNonWhitespaceStart(t);
      }
    }
  }

  lemma {:induction false} TrimEndOfNonWhitespaceStart(t: string)
    requires t != [] && !IsJsWhitespace(t[0])
    ensures TrimEnd(t) != []
  {
    if |t| > 1 && IsJsWhitespace(t[|t| - 1]) {
      TrimEndOfNonWhitespaceStart(t[..|t| - 1]);
    }
  }

  /** The decimal digit character of `d`. */
  function DigitChar(d: nat): (c: char)
    requires d < 10
    ensures '0' <= c <= '9'
  {
    (48 + d) as char
  }

  /** `String(n)` for a non-negative integer: its decimal digits, most significant first. */
  function NatToString(n: nat): (r: string)
    ensures |r| > 0
    ensures forall i | 0 <= i < |r| :: '0' <= r[i] <= '9'
  {
    if n < 10 then [DigitChar(n)] else NatToString(n / 10) + [DigitChar(n % 10)]
  }

  /** Different numbers render differently. */
  lemma {:induction false} NatToStringInjective(a: nat, b: nat)
    requires NatToString(a) == NatToString(b)
    ensures a == b
  {
    var ra, rb := NatToString(a), NatToString(b);
    if a >= 10 && b >= 10 {
      assert ra[..|ra| - 1] == NatToString(a / 10);
      assert rb[..|rb| - 1] == NatToString(b / 10);
      NatToStringInjective(a / 10, b / 10);
      assert DigitChar(a % 10) == ra[|ra| - 1] == rb[|rb| - 1] == DigitChar(b % 10);
    }
  }

  /** The rows of `s` in the opposite order (a table listed newest first). */
  function Reverse<T>(s: seq<T>): (r: seq<T>)
    ensures |r| == |s|
    ensures forall i | 0 <= i < |s| :: r[i] == s[|s| - 1 - i]
  {
    if s == [] then [] else Reverse(s[1..]) + [s[0]]
  }
}
