/** Shared vocabulary: the outcome of an operation that may throw, and the two
    JavaScript string operations the core relies on (`trim` and `toUpperCase`). */
module Base {

  /** The value an operation returns, or the error it would throw. */
  datatype Result<+T, +E> = Ok(value: T) | Err(error: E)

  /** A value that may be missing (`null` or `undefined`). */
  datatype Option<+T> = None | Some(value: T)

  /** The outcome of a validator that returns nothing or throws. */
  datatype Outcome<+E> = Pass | Fail(error: E)

  /** The characters `String.prototype.trim` removes: ECMAScript WhiteSpace
      (tab, vertical tab, form feed, space, no-break space, byte-order mark and
      the Unicode space separators) and LineTerminator. */
  predicate IsSpace(c: char)
  {
    || c == '\t' || c == '\n' || c == '\U{000B}' || c == '\U{000C}' || c == '\r'
    || c == ' ' || c == '\U{00A0}' || c == '\U{1680}'
    || ('\U{2000}' <= c <= '\U{200A}')
    || c == '\U{2028}' || c == '\U{2029}' || c == '\U{202F}' || c == '\U{205F}'
    || c == '\U{3000}' || c == '\U{FEFF}'
  }

  function TrimStart(s: string): (r: string)
    ensures |r| <= |s| && r == s[|s| - |r|..]
    ensures r == [] || !IsSpace(r[0])
    ensures forall i :: 0 <= i < |s| - |r| ==> IsSpace(s[i])
  {
    if s != [] && IsSpace(s[0]) then TrimStart(s[1..]) else s
  }

  function TrimEnd(s: string): (r: string)
    ensures |r| <= |s| && r == s[..|r|]
    ensures r == [] || !IsSpace(r[|r| - 1])
    ensures forall i :: |r| <= i < |s| ==> IsSpace(s[i])
  {
    if s != [] && IsSpace(s[|s| - 1]) then TrimEnd(s[..|s| - 1]) else s
  }

  /** `s.trim()`: `s` without its leading and trailing white space. */
  function Trim(s: string): (r: string)
  {
    TrimEnd(TrimStart(s))
  }

  /** The validators' test `!text || text.trim().length === 0`, stated as
      "every character is white space" (see `BlankIffTrimEmpty`). */
  predicate IsBlank(s: string)
  {
    forall i :: 0 <= i < |s| ==> IsSpace(s[i])
  }

  /** A string is blank exactly when trimming leaves nothing of it. */
  lemma BlankIffTrimEmpty(s: string)
    ensures IsBlank(s) <==> Trim(s) == ""
  {
    var t := TrimStart(s);
    if t != [] {
      assert TrimEnd(t) != [] by {
        assert !IsSpace(t[0]);
      }
      assert !IsSpace(s[|s| - |t|]);
    }
  }

  /** Trimming removes only white space: a string that neither starts nor ends
      with white space is its own trim. */
  lemma TrimUnchanged(s: string)
    requires s == [] || (!IsSpace(s[0]) && !IsSpace(s[|s| - 1]))
    ensures Trim(s) == s
  {
  }

  /** Trimming is idempotent, and a trimmed string that is not blank is itself
      not blank. */
  lemma TrimIdempotent(s: string)
    ensures Trim(Trim(s)) == Trim(s)
  {
    var t := Trim(s);
    if t != [] {
      var u := TrimStart(s);
      assert t == u[..|t|];
      assert !IsSpace(t[0]);
      TrimUnchanged(t);
    }
  }

  /** Trimming neither makes a string blank nor makes a blank one visible. */
  lemma TrimKeepsBlankness(s: string)
    ensures IsBlank(Trim(s)) <==> IsBlank(s)
  {
    BlankIffTrimEmpty(s);
    var t := Trim(s);
    if t != [] {
      var u := TrimStart(s);
      assert t == u[..|t|];
      assert !IsSpace(t[0]);
    }
  }

  /** `toUpperCase` on one character, for the ASCII letters. */
  function UpperChar(c: char): (r: char)
    ensures !('a' <= r <= 'z')
    ensures 'a' <= c <= 'z' || r == c
    ensures 'a' <= c <= 'z' ==> r == "ABCDEFGHIJKLMNOPQRSTUVWXYZ"[c as int - 'a' as int]
  {
    if 'a' <= c <= 'z' then (c as int - 32) as char else c
  }

  /** `s.toUpperCase()`, character by character. */
  function Upper(s: string): (r: string)
    ensures |r| == |s|
    ensures forall i :: 0 <= i < |s| ==> r[i] == UpperChar(s[i])
  {
    if s == [] then [] else [UpperChar(s[0])] + Upper(s[1..])
  }

  predicate HasNoLowerCase(s: string)
  {
    forall i :: 0 <= i < |s| ==> !('a' <= s[i] <= 'z')
  }

  /** Upper-casing changes nothing in a string without lower-case letters; in
      particular upper-casing is idempotent. */
  lemma UpperUnchanged(s: string)
    requires HasNoLowerCase(s)
    ensures Upper(s) == s
  {
    assert forall i :: 0 <= i < |s| ==> Upper(s)[i] == s[i];
  }

  lemma UpperIdempotent(s: string)
    ensures Upper(Upper(s)) == Upper(s)
  {
    UpperUnchanged(Upper(s));
  }

  /** A string that neither starts nor ends with white space and has no
      lower-case letter is its own `trim().toUpperCase()`. */
  lemma NormalizeUnchanged(s: string)
    requires s == [] || (!IsSpace(s[0]) && !IsSpace(s[|s| - 1]))
    requires HasNoLowerCase(s)
    ensures Upper(Trim(s)) == s
  {
    TrimUnchanged(s);
    UpperUnchanged(s);
  }

  /** Upper-casing preserves white space, so it commutes with `trim`. */
  lemma UpperKeepsSpace(c: char)
    ensures IsSpace(UpperChar(c)) <==> IsSpace(c)
  {
  }

  /** Five different positions among five are all of them. */
  lemma Cover(a: int, b: int, c: int, d: int, e: int, x: int)
    requires 0 <= a < 5 && 0 <= b < 5 && 0 <= c < 5 && 0 <= d < 5 && 0 <= e < 5
    requires a != b && a != c && a != d && a != e && b != c && b != d && b != e
    requires c != d && c != e && d != e
    requires 0 <= x < 5
    ensures x == a || x == b || x == c || x == d || x == e
  {
  }
}
