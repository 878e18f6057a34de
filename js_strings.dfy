/**
 * The few JavaScript string operations the client depends on: `String.prototype.trim`,
 * the `length` property (UTF-16 code units) and `slice(0, n)`.
 */
module JsStrings {
  import opened Common

  /** ECMAScript WhiteSpace and LineTerminator code points: exactly what `trim` strips. */
  predicate IsWhiteSpace(c: char) {
    || c == '\t' || c == '\U{000B}' || c == '\U{000C}' || c == ' ' || c == '\U{00A0}' || c == '\U{FEFF}'
    || c == '\n' || c == '\r' || c == '\U{2028}' || c == '\U{2029}'
    || c == '\U{1680}' || ('\U{2000}' <= c <= '\U{200A}') || c == '\U{202F}' || c == '\U{205F}' || c == '\U{3000}'
  }

  /** Drops leading white space; the result is a suffix of `s`. */
  function TrimStart(s: string): (t: string)
    ensures |t| <= |s| && t == s[|s| - |t|..]
    ensures t == [] || !IsWhiteSpace(t[0])
    ensures forall i | 0 <= i < |s| - |t| :: IsWhiteSpace(s[i])
  {
    if s != [] && IsWhiteSpace(s[0]) then TrimStart(s[1..]) else s
  }

  /** Drops trailing white space; the result is a prefix of `s`. */
  function TrimEnd(s: string): (t: string)
    ensures |t| <= |s| && t == s[..|t|]
    ensures t == [] || !IsWhiteSpace(t[|t| - 1])
    ensures forall i | |t| <= i < |s| :: IsWhiteSpace(s[i])
  {
    if s != [] && IsWhiteSpace(s[|s| - 1]) then TrimEnd(s[..|s| - 1]) else s
  }

  /** `s.trim()` */
  function Trim(s: string): string {
    TrimEnd(TrimStart(s))
  }

  /** Where the trimmed text starts inside `s`. */
  function Lead(s: string): nat {
    |s| - |TrimStart(s)|
  }

  /** The trimmed text sits at `Lead(s)` inside `s`. */
  lemma TrimPosition(s: string)
    ensures Lead(s) + |Trim(s)| <= |s| && Trim(s) == s[Lead(s)..Lead(s) + |Trim(s)|]
  {
    var u := TrimStart(s);
    SliceOfSuffix(s, Lead(s), |TrimEnd(u)|);
  }

  lemma SliceOfSuffix(s: string, lead: nat, m: nat)
    requires lead + m <= |s|
    ensures s[lead..][..m] == s[lead..lead + m]
  {
  }

  /**
   * `trim` keeps one contiguous run of `s`, cut out only white space around it,
   * and leaves no white space at either end.
   */
  lemma TrimIsMaximalInfix(s: string)
    ensures Lead(s) + |Trim(s)| <= |s| && Trim(s) == s[Lead(s)..Lead(s) + |Trim(s)|]
    ensures forall i | 0 <= i < Lead(s) :: IsWhiteSpace(s[i])
    ensures forall i | Lead(s) + |Trim(s)| <= i < |s| :: IsWhiteSpace(s[i])
    ensures Trim(s) == [] || (!IsWhiteSpace(Trim(s)[0]) && !IsWhiteSpace(Trim(s)[|Trim(s)| - 1]))
  {
    TrimPosition(s);
    var lead := Lead(s);
    var u := TrimStart(s);
    var t := TrimEnd(u);
    assert u == s[lead..];
    forall i | lead + |t| <= i < |s|
      ensures IsWhiteSpace(s[i])
    {
      assert s[i] == u[i - lead];
    }
    if t != [] {
      assert t[0] == u[0];
    }
  }

  /** The trimmed reference is empty exactly when the input held nothing but white space. */
  lemma TrimEmptyIffBlank(s: string)
    ensures Trim(s) == "" <==> forall i | 0 <= i < |s| :: IsWhiteSpace(s[i])
  {
    TrimIsMaximalInfix(s);
    if Trim(s) != "" {
      assert !IsWhiteSpace(s[Lead(s)]) by {
        assert Trim(s)[0] == s[Lead(s)];
      }
    }
  }

  /** Trimming twice is trimming once: the handler that trims on every keystroke is stable. */
  lemma TrimIdempotent(s: string)
    ensures Trim(Trim(s)) == Trim(s)
  {
    var t := Trim(s);
    TrimIsMaximalInfix(s);
    assert TrimStart(t) == t;
    assert TrimEnd(t) == t;
  }

  /** The value of `s.length`: one code unit per character, two for a character outside the BMP. */
  function Utf16Length(s: string): (n: nat)
    ensures |s| <= n <= 2 * |s|
  {
    if s == [] then 0
    else Utf16Length(s[..|s| - 1]) + (if s[|s| - 1] as int >= 0x1_0000 then 2 else 1)
  }

  /** For text inside the Basic Multilingual Plane, `length` is the number of characters. */
  lemma {:induction false} Utf16LengthOfBmpText(s: string)
    requires forall i | 0 <= i < |s| :: s[i] as int < 0x1_0000
    ensures Utf16Length(s) == |s|
  {
    if s != [] {
      Utf16LengthOfBmpText(s[..|s| - 1]);
    }
  }

  /**
   * `s.slice(0, n)` for a non-negative `n`, counted in characters. JavaScript counts UTF-16
   * code units; the two agree on text inside the Basic Multilingual Plane, which an ISO
   * timestamp is (see `SlicePrefixOfBmpText`).
   */
  function SlicePrefix(s: string, n: nat): (t: string)
    ensures |t| == Min(n, |s|) && t == s[..|t|]
  {
    if |s| <= n then s else s[..n]
  }

  /** On BMP text, cutting `n` characters is cutting `n` UTF-16 code units. */
  lemma SlicePrefixOfBmpText(s: string, n: nat)
    requires forall i | 0 <= i < |s| :: s[i] as int < 0x1_0000
    ensures Utf16Length(SlicePrefix(s, n)) == Min(n, Utf16Length(s))
  {
    var t := SlicePrefix(s, n);
    Utf16LengthOfBmpText(s);
    assert forall i | 0 <= i < |t| :: t[i] == s[i];
    Utf16LengthOfBmpText(t);
  }
}
