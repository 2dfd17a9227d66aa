/**
 * Text normalisation applied to what the operator types: Python's `str.strip()`
 * (both ends, the whitespace of `str.isspace`) and `str.upper()` (restricted to
 * ASCII letters here).
 */
module Texto {

  /** The characters Python's `str.isspace()` accepts, which `str.strip()` removes. */
  predicate EsEspacio(c: char)
  {
    c == ' ' || ('\t' <= c <= '\r') || ('\U{1c}' <= c <= '\U{1f}') ||
    c == '\U{85}' || c == '\U{a0}' || c == '\U{1680}' ||
    ('\U{2000}' <= c <= '\U{200a}') || c == '\U{2028}' || c == '\U{2029}' ||
    c == '\U{202f}' || c == '\U{205f}' || c == '\U{3000}'
  }

  /** `s.lstrip()`: the suffix of `s` that is left once its leading whitespace is gone. */
  function QuitarInicio(s: string): (r: string)
    ensures |r| <= |s| && r == s[|s| - |r|..]
    ensures forall i :: 0 <= i < |s| - |r| ==> EsEspacio(s[i])
    ensures r != [] ==> !EsEspacio(r[0])
  {
    if s != [] && EsEspacio(s[0]) then QuitarInicio(s[1..]) else s
  }

  /** `s.rstrip()`: the prefix of `s` that is left once its trailing whitespace is gone. */
  function QuitarFinal(s: string): (r: string)
    ensures |r| <= |s| && r == s[..|r|]
    ensures forall i :: |r| <= i < |s| ==> EsEspacio(s[i])
    ensures r != [] ==> !EsEspacio(r[|r| - 1])
  {
    if s != [] && EsEspacio(s[|s| - 1]) then QuitarFinal(s[..|s| - 1]) else s
  }

  /**
   * `s.strip()`. The result is empty exactly when `s` holds nothing but
   * whitespace, which is what the entry form's emptiness test relies on.
   */
  function Strip(s: string): (r: string)
    ensures var t := QuitarInicio(s);
      |r| <= |t| && r == t[..|r|] && forall i :: |r| <= i < |t| ==> EsEspacio(t[i])
    ensures r == [] <==> forall i :: 0 <= i < |s| ==> EsEspacio(s[i])
    ensures r != [] ==> !EsEspacio(r[0]) && !EsEspacio(r[|r| - 1])
  {
    RestoVacio(s);
    QuitarFinal(QuitarInicio(s))
  }

  /** Nothing survives both trims only when every character was whitespace. */
  lemma RestoVacio(s: string)
    ensures QuitarFinal(QuitarInicio(s)) == [] ==> forall i :: 0 <= i < |s| ==> EsEspacio(s[i])
  {
    var t := QuitarInicio(s);
    if QuitarFinal(t) == [] && t != [] {
      assert false;
    }
  }

  lemma {:induction false} StripIdempotente(s: string)
    ensures Strip(Strip(s)) == Strip(s)
  {
    var r := Strip(s);
    if r != [] {
      assert QuitarInicio(r) == r;
      assert QuitarFinal(r) == r;
    }
  }

  /** A string that neither starts nor ends with whitespace is its own strip. */
  lemma StripSinBordes(s: string)
    requires s != [] ==> !EsEspacio(s[0]) && !EsEspacio(s[|s| - 1])
    ensures Strip(s) == s
  {
    assert QuitarInicio(s) == s;
    assert QuitarFinal(s) == s;
  }

  /** Blanks typed around such a string are stripped away. */
  lemma StripRelleno(s: string)
    requires s != [] && !EsEspacio(s[0]) && !EsEspacio(s[|s| - 1])
    ensures Strip([' '] + s + [' ']) == s
  {
    var w := [' '] + s + [' '];
    assert w[1..] == s + [' '];
    assert QuitarInicio(s + [' ']) == s + [' '];
    assert (s + [' '])[..|s|] == s;
    assert QuitarFinal(s + [' ']) == QuitarFinal(s) == s;
  }

  /** Python's `str.upper()` on one character, for the ASCII letters. */
  function Mayuscula(c: char): char
  {
    if 'a' <= c <= 'z' then (c as int - 32) as char else c
  }

  /** `s.upper()`: same length, no lower-case ASCII letter left, every other character kept. */
  function Upper(s: string): (r: string)
    ensures |r| == |s|
    ensures forall i :: 0 <= i < |r| ==> !('a' <= r[i] <= 'z')
    ensures forall i :: 0 <= i < |s| && !('a' <= s[i] <= 'z') ==> r[i] == s[i]
    ensures forall i :: 0 <= i < |s| && 'a' <= s[i] <= 'z' ==> r[i] as int == s[i] as int - 32
  {
    seq(|s|, i requires 0 <= i < |s| => Mayuscula(s[i]))
  }

  lemma UpperIdempotente(s: string)
    ensures Upper(Upper(s)) == Upper(s)
  {
  }
}
