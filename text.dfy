/**
 * The string operations behind the address checks: JavaScript's `String.prototype.trim`
 * and `.length`, which counts UTF-16 code units rather than characters.
 */
module Text {

  /**
   * The code points `trim` removes: ECMAScript WhiteSpace (tab, vertical tab, form feed,
   * space, no-break space, zero-width no-break space and the Unicode space separators)
   * and LineTerminator (line feed, carriage return, line and paragraph separators).
   */
  predicate IsWhitespace(c: char)
    ensures c == ' ' || c == '\t' || c == '\n' || c == '\r' ==> IsWhitespace(c)
    ensures IsWhitespace(c) ==> !('0' <= c <= '9' || 'A' <= c <= 'Z' || 'a' <= c <= 'z')
  {
    var n := c as int;
    n == 0x09 || n == 0x0A || n == 0x0B || n == 0x0C || n == 0x0D || n == 0x20
    || n == 0xA0 || n == 0x1680 || (0x2000 <= n <= 0x200A) || n == 0x2028 || n == 0x2029
    || n == 0x202F || n == 0x205F || n == 0x3000 || n == 0xFEFF
  }

  /** `s` with its leading whitespace removed. */
  function TrimStart(s: string): (r: string)
    ensures |r| <= |s| && r == s[|s| - |r|..]
    ensures forall i :: 0 <= i < |s| - |r| ==> IsWhitespace(s[i])
    ensures |r| > 0 ==> !IsWhitespace(r[0])
  {
    if |s| > 0 && IsWhitespace(s[0]) then TrimStart(s[1..]) else s
  }

  /** `s` with its trailing whitespace removed. */
  function TrimEnd(s: string): (r: string)
    ensures |r| <= |s| && r == s[..|r|]
    ensures forall i :: |r| <= i < |s| ==> IsWhitespace(s[i])
    ensures |r| > 0 ==> !IsWhitespace(r[|r| - 1])
  {
    if |s| > 0 && IsWhitespace(s[|s| - 1]) then TrimEnd(s[..|s| - 1]) else s
  }

  /** `s.trim()`: neither begins nor ends with whitespace (see TrimSlice for what it keeps). */
  function Trim(s: string): (r: string)
    ensures |r| <= |s|
    ensures |r| > 0 ==> !IsWhitespace(r[0]) && !IsWhitespace(r[|r| - 1])
  {
    TrimEnd(TrimStart(s))
  }

  /**
   * What `trim` keeps: one contiguous slice of `s`, and only whitespace lies before
   * and after it.
   */
  lemma TrimSlice(s: string)
    ensures var r, start := Trim(s), |s| - |TrimStart(s)|;
      start + |r| <= |s| && r == s[start..start + |r|]
      && (forall i :: 0 <= i < start ==> IsWhitespace(s[i]))
      && (forall i :: start + |r| <= i < |s| ==> IsWhitespace(s[i]))
  {
    var t := TrimStart(s);
    var r := TrimEnd(t);
    var start := |s| - |t|;
    assert t == s[start..];
    assert r == t[..|r|];
    forall i | start + |r| <= i < |s| ensures IsWhitespace(s[i]) {
      assert s[i] == t[i - start];
    }
  }

  /** Trimming a trimmed string changes nothing. */
  lemma TrimIdempotent(s: string)
    ensures Trim(Trim(s)) == Trim(s)
  {
    var r := Trim(s);
    if |r| > 0 {
      assert TrimStart(r) == r;
      assert TrimEnd(r) == r;
    }
  }

  /** A string made only of whitespace trims to the empty string. */
  lemma TrimAllWhitespace(s: string)
    requires forall i :: 0 <= i < |s| ==> IsWhitespace(s[i])
    ensures Trim(s) == ""
  {
    TrimSlice(s);
  }

  /** JavaScript's `.length`: code points above U+FFFF take two UTF-16 code units. */
  function Utf16Length(s: string): (n: nat)
    ensures |s| <= n <= 2 * |s|
    ensures (forall i :: 0 <= i < |s| ==> s[i] as int <= 0xFFFF) ==> n == |s|
  {
    if s == [] then 0 else (if s[0] as int > 0xFFFF then 2 else 1) + Utf16Length(s[1..])
  }

  /**
   * The rejection rule shared by the page's `geocode` and the geocode route:
   * `!q || q.trim().length < 3`. The emptiness test adds nothing to the length test.
   */
  predicate QueryTooShort(q: string)
    ensures QueryTooShort(q) <==> Utf16Length(Trim(q)) < 3
  {
    q == "" || Utf16Length(Trim(q)) < 3
  }

  /** Whitespace-only input, and any input of at most one character, is refused. */
  lemma {:induction false} ShortQueriesRefused(q: string)
    requires |q| <= 1 || forall i :: 0 <= i < |q| ==> IsWhitespace(q[i])
    ensures QueryTooShort(q)
  {
    if |q| > 1 {
      TrimAllWhitespace(q);
    }
  }

  /** Three characters of the Basic Multilingual Plane with no whitespace at the ends pass. */
  lemma {:induction false} ThreeCharactersAccepted(q: string)
    requires |q| == 3 && !IsWhitespace(q[0]) && !IsWhitespace(q[2])
    ensures !QueryTooShort(q)
  {
    assert TrimStart(q) == q;
    assert TrimEnd(q) == q;
    assert Utf16Length(Trim(q)) >= |Trim(q)|;
  }
}
