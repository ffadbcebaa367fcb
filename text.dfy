/** The Python string methods the handlers rely on: `strip`, `split` with no
    argument, `lower`, `replace` of one character, and `os.path.splitext`. */
module Text {

  /** `str.isspace` for one character: the characters CPython treats as
      whitespace when it strips or splits a string. */
  predicate IsSpace(c: char)
  {
    c == ' ' || ('\t' <= c <= '\r') || ('\U{1C}' <= c <= '\U{1F}')
    || c == '\U{85}' || c == '\U{A0}' || c == '\U{1680}'
    || ('\U{2000}' <= c <= '\U{200A}') || c == '\U{2028}' || c == '\U{2029}'
    || c == '\U{202F}' || c == '\U{205F}' || c == '\U{3000}'
  }

  function TrimLeft(s: string): (r: string)
    ensures |r| <= |s| && r == s[|s| - |r|..]
    ensures r != [] ==> !IsSpace(r[0])
    ensures forall i :: 0 <= i < |s| - |r| ==> IsSpace(s[i])
  {
    if s != [] && IsSpace(s[0]) then TrimLeft(s[1..]) else s
  }

  function TrimRight(s: string): (r: string)
    ensures |r| <= |s| && r == s[..|r|]
    ensures r != [] ==> !IsSpace(r[|r| - 1])
    ensures forall i :: |r| <= i < |s| ==> IsSpace(s[i])
  {
    if s != [] && IsSpace(s[|s| - 1]) then TrimRight(s[..|s| - 1]) else s
  }

  /** `s.strip()`: the input without leading and trailing whitespace. */
  function Strip(s: string): (r: string)
  {
    TrimRight(TrimLeft(s))
  }

  lemma StripIsEmptyIffAllSpace(s: string)
    ensures Strip(s) == [] <==> forall i :: 0 <= i < |s| ==> IsSpace(s[i])
  {
    var l := TrimLeft(s);
    if l != [] {
      assert !IsSpace(TrimRight(l)[0]);
    }
  }

  /** The longest prefix of `s` that contains no whitespace. */
  function TakeWord(s: string): (w: string)
    ensures |w| <= |s| && w == s[..|w|]
    ensures forall i :: 0 <= i < |w| ==> !IsSpace(w[i])
    ensures |w| < |s| ==> IsSpace(s[|w|])
  {
    if s == [] || IsSpace(s[0]) then [] else [s[0]] + TakeWord(s[1..])
  }

  /** `s.split()`: the maximal runs of non-whitespace characters, in order. */
  function Words(s: string): (ws: seq<string>)
    ensures forall i :: 0 <= i < |ws| ==> ws[i] != [] && forall k :: 0 <= k < |ws[i]| ==> !IsSpace(ws[i][k])
    decreases |s|
  {
    var t := TrimLeft(s);
    if t == [] then []
    else
      var w := TakeWord(t);
      PalabraNoVacia(t);
      var resto := Words(t[|w|..]);
      PalabrasConcat(w, resto);
      [w] + resto
  }

  /** Putting a word in front of a list of words gives a list of words. */
  lemma PalabrasConcat(w: string, resto: seq<string>)
    requires w != [] && forall k :: 0 <= k < |w| ==> !IsSpace(w[k])
    requires forall i :: 0 <= i < |resto| ==> resto[i] != [] && forall k :: 0 <= k < |resto[i]| ==> !IsSpace(resto[i][k])
    ensures var ws := [w] + resto;
            forall i :: 0 <= i < |ws| ==> ws[i] != [] && forall k :: 0 <= k < |ws[i]| ==> !IsSpace(ws[i][k])
  {
    var ws := [w] + resto;
    forall i | 0 <= i < |ws| ensures ws[i] != [] && forall k :: 0 <= k < |ws[i]| ==> !IsSpace(ws[i][k]) {
      if i == 0 { assert ws[i] == w; } else { assert ws[i] == resto[i - 1]; }
    }
  }

  /** A text that starts with a non-blank character starts with a word. */
  lemma PalabraNoVacia(t: string)
    requires t != [] && !IsSpace(t[0])
    ensures TakeWord(t) != []
  {
    assert TakeWord(t) == [t[0]] + TakeWord(t[1..]);
  }

  /** `c.lower()` for the letters of ASCII and Latin-1 (which holds every
      accented capital of Spanish); every other character is its own
      lower case here. */
  function LowerChar(c: char): (d: char)
  {
    if 'A' <= c <= 'Z' || ('\U{C0}' <= c <= '\U{DE}' && c != '\U{D7}')
    then (c as int + 32) as char else c
  }

  function Lower(s: string): (r: string)
    ensures |r| == |s| && forall i :: 0 <= i < |s| ==> r[i] == LowerChar(s[i])
  {
    if s == [] then [] else [LowerChar(s[0])] + Lower(s[1..])
  }

  lemma LowerCharIdempotent(c: char)
    ensures LowerChar(LowerChar(c)) == LowerChar(c)
  {
  }

  lemma LowerIdempotent(s: string)
    ensures Lower(Lower(s)) == Lower(s)
  {
    forall i | 0 <= i < |s| ensures Lower(Lower(s))[i] == Lower(s)[i] {
      LowerCharIdempotent(s[i]);
    }
  }

  /** `s.replace(a, b)` for single characters. */
  function ReplaceChar(s: string, a: char, b: char): (r: string)
    ensures |r| == |s|
    ensures forall i :: 0 <= i < |s| ==> r[i] == if s[i] == a then b else s[i]
  {
    if s == [] then [] else [if s[0] == a then b else s[0]] + ReplaceChar(s[1..], a, b)
  }

  /** `s.rfind(c)`: the last index holding `c`, or -1. */
  function RFind(s: string, c: char): (k: int)
    ensures -1 <= k < |s|
    ensures k >= 0 ==> s[k] == c
    ensures forall i :: k < i < |s| ==> s[i] != c
  {
    if s == [] then -1 else if s[|s| - 1] == c then |s| - 1 else RFind(s[..|s| - 1], c)
  }

  /** `os.path.splitext(p)` on POSIX: the extension starts at the last dot of
      the last path component, unless every character of that component
      before the dot is itself a dot (".bashrc" has no extension). */
  function SplitExt(p: string): (parts: (string, string))
  {
    var sepIndex := RFind(p, '/');
    var dotIndex := RFind(p, '.');
    if dotIndex > sepIndex && exists k :: sepIndex + 1 <= k < dotIndex && p[k] != '.'
    then (p[..dotIndex], p[dotIndex..])
    else (p, [])
  }

  /** Splitting loses nothing, and a non-empty extension is a dot followed by
      characters that are neither dots nor slashes. */
  lemma SplitExtShape(p: string)
    ensures SplitExt(p).0 + SplitExt(p).1 == p
    ensures var e := SplitExt(p).1;
            e == [] || (e[0] == '.' && forall i :: 1 <= i < |e| ==> e[i] != '.' && e[i] != '/')
    ensures SplitExt(p).1 != [] ==> SplitExt(p).0 != [] && SplitExt(p).0[|SplitExt(p).0| - 1] != '/'
  {
    var sepIndex := RFind(p, '/');
    var dotIndex := RFind(p, '.');
    if dotIndex > sepIndex && exists k :: sepIndex + 1 <= k < dotIndex && p[k] != '.' {
      var e := p[dotIndex..];
      forall i | 1 <= i < |e| ensures e[i] != '.' && e[i] != '/' {
        assert e[i] == p[dotIndex + i];
      }
      assert p[..dotIndex] + p[dotIndex..] == p;
    }
  }

  /** `sep.join(xs)`. */
  function Join(sep: string, xs: seq<string>): string
  {
    if xs == [] then [] else if |xs| == 1 then xs[0] else xs[0] + sep + Join(sep, xs[1..])
  }

  /** `str(n)` for a natural number: its decimal digits. */
  function NatToString(n: nat): (s: string)
    ensures |s| >= 1 && forall i :: 0 <= i < |s| ==> '0' <= s[i] <= '9'
  {
    if n < 10 then [('0' as int + n) as char]
    else NatToString(n / 10) + [('0' as int + n % 10) as char]
  }
}
