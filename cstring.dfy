/** The C string primitives the command parsers rely on: NUL termination,
    ASCII case folding (`tolower`), `strcmp`, `strcasecmp` and `strncmp`. */
module CString {

  const NUL: char := '\0'

  /** The C string stored in a buffer: its characters up to the first NUL. */
  function CStr(s: seq<char>): (r: seq<char>)
    ensures |r| <= |s| && r == s[..|r|]
    ensures NUL !in r
    ensures |r| < |s| ==> s[|r|] == NUL
  {
    if s == [] then []
    else if s[0] == NUL then []
    else [s[0]] + CStr(s[1..])
  }

  /** `tolower` in the C locale: only 'A'..'Z' change. */
  function Lower(c: char): char
  {
    if 'A' <= c <= 'Z' then (c as int + 32) as char else c
  }

  /** A string with every character passed through `tolower`. */
  function Fold(s: seq<char>): (r: seq<char>)
  {
    seq(|s|, i requires 0 <= i < |s| => Lower(s[i]))
  }

  /** A buffer without NUL bytes is its own C string. */
  lemma CStrOfNulFree(s: seq<char>)
    requires NUL !in s
    ensures CStr(s) == s
  {
  }

  /** `strcmp(a, b) == 0` for NUL-terminated buffers. */
  predicate StrEq(a: seq<char>, b: seq<char>)
  {
    CStr(a) == CStr(b)
  }

  /** `strcasecmp(a, b) == 0`: equal after folding each character, up to the terminator. */
  predicate StrCaseEq(a: seq<char>, b: seq<char>)
  {
    Fold(CStr(a)) == Fold(CStr(b))
  }

  /** The character at index i of a buffer, reading the terminator past its end. */
  function At(s: seq<char>, i: nat): char
  {
    if i < |s| then s[i] else NUL
  }

  function Rest(s: seq<char>): seq<char>
  {
    if s == [] then [] else s[1..]
  }

  /** `strncmp(a, b, n) == 0`: the first n characters agree, stopping early at a
      shared terminator. */
  predicate StrNEq(a: seq<char>, b: seq<char>, n: nat)
    decreases n
  {
    n == 0 || (At(a, 0) == At(b, 0) && (At(a, 0) == NUL || StrNEq(Rest(a), Rest(b), n - 1)))
  }

  /** For a buffer a without NUL bytes compared over its whole length against a
      NUL-free literal, `strncmp` succeeds exactly when a is a prefix of the
      literal. */
  lemma {:induction false} StrNEqIsPrefix(a: seq<char>, lit: seq<char>)
    requires NUL !in a && NUL !in lit
    ensures StrNEq(a, lit, |a|) <==> |a| <= |lit| && a == lit[..|a|]
  {
    if a == [] {
    } else if lit == [] {
      assert At(lit, 0) == NUL && At(a, 0) == a[0] && a[0] in a;
    } else {
      assert At(a, 0) == a[0] && a[0] in a;
      assert NUL !in Rest(a) by { assert forall c :: c in Rest(a) ==> c in a; }
      assert NUL !in Rest(lit) by { assert forall c :: c in Rest(lit) ==> c in lit; }
      StrNEqIsPrefix(Rest(a), Rest(lit));
      assert a == [a[0]] + Rest(a);
      if |a| <= |lit| {
        assert lit[..|a|] == [lit[0]] + Rest(lit)[..|a| - 1];
      }
    }
  }
}
