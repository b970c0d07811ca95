/**
 * The few Python string and list primitives the converter relies on, with
 * Python's own semantics: `str.isspace`, `strip`/`lstrip`/`rstrip` with and
 * without a character set, `split` on one character, `join`, the substring
 * test `in`, and slicing `s[a:b]` with clamping and negative indices.
 */
module PyStr {

  /** `c.isspace()` in Python 3: the Unicode whitespace characters. */
  predicate IsSpace(c: char) {
    c == ' ' || ('\t' <= c <= '\r') || ('\U{1c}' <= c <= '\U{1f}')
    || c == '\U{85}' || c == '\U{a0}' || c == '\U{1680}'
    || ('\U{2000}' <= c <= '\U{200a}') || c == '\U{2028}' || c == '\U{2029}'
    || c == '\U{202f}' || c == '\U{205f}' || c == '\U{3000}'
  }

  /** The `chars` argument of `strip`/`lstrip`/`rstrip`: omitted (whitespace), or the characters of a string. */
  datatype Chars = Whitespace | OneOf(chars: string)

  predicate Drops(cs: Chars, c: char) {
    match cs
    case Whitespace => IsSpace(c)
    case OneOf(chars) => c in chars
  }

  /** `s.lstrip(chars)`. */
  function LStrip(s: string, cs: Chars): (r: string)
    ensures |r| <= |s| && r == s[|s| - |r|..]
    ensures forall i :: 0 <= i < |s| - |r| ==> Drops(cs, s[i])
    ensures r != [] ==> !Drops(cs, r[0])
  {
    if s != [] && Drops(cs, s[0]) then LStrip(s[1..], cs) else s
  }

  /** `s.rstrip(chars)`. */
  function RStrip(s: string, cs: Chars): (r: string)
    ensures |r| <= |s| && r == s[..|r|]
    ensures forall i :: |r| <= i < |s| ==> Drops(cs, s[i])
    ensures r != [] ==> !Drops(cs, r[|r| - 1])
  {
    if s != [] && Drops(cs, s[|s| - 1]) then RStrip(s[..|s| - 1], cs) else s
  }

  /** `s.strip(chars)`: the longest inner slice that neither starts nor ends with a dropped character. */
  function Strip(s: string, cs: Chars): (r: string)
    ensures |r| <= |s|
    ensures r != [] ==> !Drops(cs, r[0]) && !Drops(cs, r[|r| - 1])
    ensures |LStrip(s, cs)| >= |r| && r == s[|s| - |LStrip(s, cs)|..][..|r|]
  {
    RStrip(LStrip(s, cs), cs)
  }

  /** `s.strip()` and `s.lstrip()` with no argument strip whitespace. */
  function StripWs(s: string): string { Strip(s, Whitespace) }
  function LStripWs(s: string): string { LStrip(s, Whitespace) }

  /** Index of the first occurrence of `c` in `s`. */
  function IndexOf(s: string, c: char): (k: nat)
    requires c in s
    ensures k < |s| && s[k] == c && c !in s[..k]
  {
    if s[0] == c then 0 else
      assert c in s[1..] by { var j :| 0 <= j < |s| && s[j] == c; assert s[1..][j - 1] == c; }
      var k := 1 + IndexOf(s[1..], c);
      assert s[..k] == [s[0]] + s[1..][..k - 1];
      k
  }

  /** `sep.join(parts)`. */
  function Join(parts: seq<string>, sep: string): string {
    if parts == [] then ""
    else if |parts| == 1 then parts[0]
    else parts[0] + sep + Join(parts[1..], sep)
  }

  /** `"".join(parts)`. */
  function Concat(parts: seq<string>): string {
    if parts == [] then "" else parts[0] + Concat(parts[1..])
  }

  /** `s.split(sep)` for a one-character separator: the pieces between the separators. */
  function Split(s: string, sep: char): (r: seq<string>)
    ensures |r| >= 1
    decreases |s|
  {
    if sep !in s then [s]
    else
      var k := IndexOf(s, sep);
      [s[..k]] + Split(s[k + 1..], sep)
  }

  /** Joining the pieces with the separator gives back the string, and no piece holds the separator. */
  lemma {:induction false} SplitJoin(s: string, sep: char)
    ensures Join(Split(s, sep), [sep]) == s
    ensures forall i :: 0 <= i < |Split(s, sep)| ==> sep !in Split(s, sep)[i]
    decreases |s|
  {
    if sep in s {
      var k := IndexOf(s, sep);
      SplitJoin(s[k + 1..], sep);
      assert s == s[..k] + [sep] + s[k + 1..];
    }
  }

  /** The first piece of a split is the text before the first separator, or the whole string. */
  lemma {:induction false} SplitHead(s: string, sep: char, k: nat)
    requires k <= |s| && sep !in s[..k] && (k == |s| || s[k] == sep)
    ensures Split(s, sep)[0] == s[..k]
  {
    if k < |s| {
      IndexOfFirst(s, sep, k);
    } else {
      assert s[..k] == s;
    }
  }

  /** After the first separator, the pieces are those of the rest of the string. */
  lemma SplitTail(s: string, sep: char)
    requires sep in s
    ensures Split(s, sep)[1..] == Split(s[IndexOf(s, sep) + 1..], sep)
  {
  }

  /** The second piece of a split is the text between the first separator and the next one (or the end). */
  lemma SplitSecond(s: string, sep: char, k: nat, m: nat)
    requires k < |s| && s[k] == sep && sep !in s[..k]
    requires k + 1 + m <= |s| && sep !in s[k + 1..k + 1 + m] && (k + 1 + m == |s| || s[k + 1 + m] == sep)
    ensures |Split(s, sep)| >= 2 && Split(s, sep)[1] == s[k + 1..k + 1 + m]
  {
    IndexOfFirst(s, sep, k);
    var rest := s[k + 1..];
    assert rest[..m] == s[k + 1..k + 1 + m];
    SplitHead(rest, sep, m);
  }

  /** `SplitHead` with the absence of the separator stated position by position. */
  lemma FirstPiece(s: string, sep: char, k: nat)
    requires k <= |s| && (forall i :: 0 <= i < k ==> s[i] != sep) && (k == |s| || s[k] == sep)
    ensures Split(s, sep)[0] == s[..k]
  {
    assert sep !in s[..k] by {
      forall i | 0 <= i < k ensures s[..k][i] != sep {
        assert s[..k][i] == s[i];
      }
    }
    SplitHead(s, sep, k);
  }

  /** For a string opening with the separator, the second piece runs up to the next separator `f` (or the end). */
  lemma SecondPiece(s: string, sep: char, f: nat)
    requires 0 < f <= |s| && s[0] == sep
    requires forall i :: 1 <= i < f ==> s[i] != sep
    requires f < |s| ==> s[f] == sep
    ensures sep in s && |Split(s, sep)| >= 2 && Split(s, sep)[1] == s[1..f]
  {
    assert s[..0] == [];
    assert sep !in s[1..f] by {
      forall i | 0 <= i < f - 1 ensures s[1..f][i] != sep {
        assert s[1..f][i] == s[i + 1];
      }
    }
    SplitSecond(s, sep, 0, f - 1);
  }

  /** A string holding the separator splits into at least two pieces, the first being the text before it. */
  lemma {:induction false} SplitAtFirst(s: string, sep: char)
    requires sep in s
    ensures |Split(s, sep)| >= 2
    ensures Split(s, sep)[0] == s[..IndexOf(s, sep)]
  {
  }

  /** Splitting a string with one more separator at its end adds one empty piece. */
  lemma {:induction false} SplitSnoc(s: string, sep: char)
    ensures Split(s + [sep], sep) == Split(s, sep) + [""]
    decreases |s|
  {
    var t := s + [sep];
    if sep !in s {
      IndexOfFirst(t, sep, |s|);
      assert t[|s| + 1..] == [];
    } else {
      var k := IndexOf(s, sep);
      assert t[..k] == s[..k];
      IndexOfFirst(t, sep, k);
      assert t[k + 1..] == s[k + 1..] + [sep];
      SplitSnoc(s[k + 1..], sep);
    }
  }

  /** The first position holding `c` is the one `IndexOf` finds. */
  lemma IndexOfFirst(s: string, c: char, k: nat)
    requires k < |s| && s[k] == c && c !in s[..k]
    ensures IndexOf(s, c) == k
  {
  }

  /** Stripping an already stripped string changes nothing. */
  lemma StripIdempotent(s: string, cs: Chars)
    ensures Strip(Strip(s, cs), cs) == Strip(s, cs)
  {
  }

  /** `sub in s` for strings. */
  predicate Contains(s: string, sub: string)
    decreases |s|
  {
    |sub| <= |s| && (s[..|sub|] == sub || Contains(s[1..], sub))
  }

  /** The index Python's slicing uses for bound `a` of a sequence of length `n`. */
  function ClampIndex(a: int, n: nat): (k: nat)
    ensures k <= n
    ensures 0 <= a <= n ==> k == a
  {
    if a < 0 then (if a + n < 0 then 0 else a + n) else if a > n then n else a
  }

  /** `s[a:b]` in Python: bounds are clamped, negative ones count from the end, and `b <= a` gives an empty slice. */
  function Slice<T>(s: seq<T>, a: int, b: int): (r: seq<T>)
    ensures 0 <= a <= b <= |s| ==> r == s[a..b]
    ensures 0 <= b <= a ==> r == []
    ensures |r| <= |s|
  {
    var i := ClampIndex(a, |s|);
    var j := ClampIndex(b, |s|);
    if i < j then s[i..j] else []
  }
}
