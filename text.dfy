/**
 * Python's `str` methods that the core uses: strip/lstrip, split on one
 * character, join, lower (ASCII), substring search and `os.path.splitext`.
 */
module Text {

  /** The characters `str.isspace()` accepts (and `\s` matches in a `str` pattern). */
  predicate IsSpace(c: char) {
    || c == ' '
    || '\t' <= c <= '\r'
    || '\U{1C}' <= c <= '\U{1F}'
    || c == '\U{85}' || c == '\U{A0}' || c == '\U{1680}'
    || '\U{2000}' <= c <= '\U{200A}'
    || c == '\U{2028}' || c == '\U{2029}' || c == '\U{202F}' || c == '\U{205F}' || c == '\U{3000}'
  }

  /** Every character is whitespace (so `not s.strip()` holds). */
  predicate IsBlank(s: string) {
    forall i | 0 <= i < |s| :: IsSpace(s[i])
  }

  /** The end of the run of whitespace that starts at i. */
  function SpaceEnd(s: string, i: nat): (j: nat)
    requires i <= |s|
    ensures i <= j <= |s|
    ensures forall k | i <= k < j :: IsSpace(s[k])
    ensures j < |s| ==> !IsSpace(s[j])
    decreases |s| - i
  {
    if i < |s| && IsSpace(s[i]) then SpaceEnd(s, i + 1) else i
  }

  /** The start of the run of whitespace that ends at j. */
  function SpaceStart(s: string, j: nat): (i: nat)
    requires j <= |s|
    ensures i <= j
    ensures forall k | i <= k < j :: IsSpace(s[k])
    ensures i > 0 ==> !IsSpace(s[i - 1])
  {
    if j > 0 && IsSpace(s[j - 1]) then SpaceStart(s, j - 1) else j
  }

  /** `s.lstrip()`: the suffix left after dropping leading whitespace. */
  function LStrip(s: string): (r: string)
    ensures |r| <= |s| && r == s[|s| - |r|..]
    ensures forall i | 0 <= i < |s| - |r| :: IsSpace(s[i])
    ensures r != [] ==> !IsSpace(r[0])
  {
    s[SpaceEnd(s, 0)..]
  }

  /** `s.rstrip()`: the prefix left after dropping trailing whitespace. */
  function RStrip(s: string): (r: string)
    ensures |r| <= |s| && r == s[..|r|]
    ensures forall i | |r| <= i < |s| :: IsSpace(s[i])
    ensures r != [] ==> !IsSpace(r[|r| - 1])
  {
    s[..SpaceStart(s, |s|)]
  }

  /** `s.strip()` */
  function Strip(s: string): string {
    RStrip(LStrip(s))
  }

  /** Where `s.strip()` starts inside `s`. */
  function StripStart(s: string): nat {
    |s| - |LStrip(s)|
  }

  /**
   * `s.strip()` is the contiguous piece of `s` that starts at StripStart(s), everything
   * around it is whitespace, and it neither starts nor ends with whitespace.
   */
  lemma StripIsPiece(s: string)
    ensures StripStart(s) + |Strip(s)| <= |s|
    ensures Strip(s) == s[StripStart(s)..StripStart(s) + |Strip(s)|]
    ensures IsBlank(s[..StripStart(s)]) && IsBlank(s[StripStart(s) + |Strip(s)|..])
    ensures Strip(s) != [] ==> !IsSpace(Strip(s)[0]) && !IsSpace(Strip(s)[|Strip(s)| - 1])
  {
    PieceOfStrips(s, LStrip(s), Strip(s), StripStart(s));
  }

  /** StripIsPiece, for the left strip `l`, the full strip `r` and the start `k`. */
  lemma PieceOfStrips(s: string, l: string, r: string, k: nat)
    requires l == LStrip(s) && r == RStrip(l) && k == |s| - |l|
    ensures k + |r| <= |s|
    ensures r == s[k..k + |r|]
    ensures IsBlank(s[..k]) && IsBlank(s[k + |r|..])
    ensures r != [] ==> !IsSpace(r[0]) && !IsSpace(r[|r| - 1])
  {
    PieceOfTrims(s, l, r, k);
  }

  /** The same, from what LStrip and RStrip promise about `l` and `r`. */
  lemma PieceOfTrims(s: string, l: string, r: string, k: nat)
    requires |l| <= |s| && l == s[|s| - |l|..] && k == |s| - |l|
    requires forall i | 0 <= i < k :: IsSpace(s[i])
    requires l != [] ==> !IsSpace(l[0])
    requires |r| <= |l| && r == l[..|r|]
    requires forall i | |r| <= i < |l| :: IsSpace(l[i])
    requires r != [] ==> !IsSpace(r[|r| - 1])
    ensures k + |r| <= |s|
    ensures r == s[k..k + |r|]
    ensures IsBlank(s[..k]) && IsBlank(s[k + |r|..])
    ensures r != [] ==> !IsSpace(r[0]) && !IsSpace(r[|r| - 1])
  {
    assert r == s[k..k + |r|];
    forall i | 0 <= i < k ensures s[..k][i] == s[i] { }
    forall i | k + |r| <= i < |s| ensures s[i] == l[i - k] { }
    if r != [] {
      assert l[0] == r[0];
    }
  }

  /** `not s.strip()` holds exactly when `s` is all whitespace. */
  lemma StripEmptyIffBlank(s: string)
    ensures Strip(s) == [] <==> IsBlank(s)
  {
    StripIsPiece(s);
    var k := StripStart(s);
    var l := LStrip(s);
    if Strip(s) == [] {
      assert l[0..] == l;
      assert s[..k] == s;
    } else {
      assert !IsSpace(s[k]);
    }
  }

  /** A string that does not start or end with whitespace is its own strip. */
  lemma StripTrimmed(s: string)
    requires s != [] ==> !IsSpace(s[0]) && !IsSpace(s[|s| - 1])
    ensures Strip(s) == s
  {
  }

  /** `s.lstrip(chars)` for an explicit character set. */
  function LStripChars(s: string, chars: set<char>): (r: string)
    ensures |r| <= |s| && r == s[|s| - |r|..]
    ensures forall i | 0 <= i < |s| - |r| :: s[i] in chars
    ensures r != [] ==> r[0] !in chars
  {
    if s != [] && s[0] in chars then LStripChars(s[1..], chars) else s
  }

  /** `sub` occurs in `s` starting at index i. */
  predicate OccursAt(s: string, sub: string, i: nat) {
    i + |sub| <= |s| && s[i..i + |sub|] == sub
  }

  /** `sub in s` for strings. */
  predicate Contains(s: string, sub: string) {
    exists i | 0 <= i <= |s| - |sub| :: OccursAt(s, sub, i)
  }

  /** A string lacking the first character of `sub` does not contain `sub`. */
  lemma NotContainsFirst(s: string, sub: string)
    requires sub != [] && sub[0] !in s
    ensures !Contains(s, sub)
  {
    forall i | 0 <= i <= |s| - |sub| ensures !OccursAt(s, sub, i) {
      assert i < |s| && s[i] != sub[0];
    }
  }

  /** Number of occurrences of a character. */
  function Count(s: string, c: char): nat {
    if s == [] then 0 else (if s[0] == c then 1 else 0) + Count(s[1..], c)
  }

  /** `s.split(sep)` for a one-character separator (empty pieces are kept). */
  function Split(s: string, sep: char): (parts: seq<string>)
    ensures |parts| == Count(s, sep) + 1
    ensures forall i | 0 <= i < |parts| :: sep !in parts[i]
  {
    if s == [] then [""]
    else
      var rest := Split(s[1..], sep);
      if s[0] == sep then [""] + rest else [[s[0]] + rest[0]] + rest[1..]
  }

  /** `sep.join(parts)` */
  function Join(parts: seq<string>, sep: string): string {
    if parts == [] then ""
    else if |parts| == 1 then parts[0]
    else parts[0] + sep + Join(parts[1..], sep)
  }

  /** A join begins with its first part. */
  lemma JoinStartsWithFirst(parts: seq<string>, sep: string)
    requires parts != []
    ensures parts[0] <= Join(parts, sep)
  {
  }

  /** Joining the pieces of a split with the separator gives the string back. */
  lemma {:induction false} JoinSplit(s: string, sep: char)
    ensures Join(Split(s, sep), [sep]) == s
  {
    if s != [] {
      var rest := Split(s[1..], sep);
      JoinSplit(s[1..], sep);
      if s[0] != sep {
        if |rest| == 1 {
          assert Split(s, sep) == [[s[0]] + rest[0]];
        } else {
          assert Split(s, sep) == [[s[0]] + rest[0]] + rest[1..];
          assert Join(rest, [sep]) == rest[0] + [sep] + Join(rest[1..], [sep]);
          assert Split(s, sep)[1..] == rest[1..];
        }
      } else {
        assert Split(s, sep) == [""] + rest;
        assert (["" ] + rest)[1..] == rest;
      }
    }
  }

  /** ASCII case folding, the part of `str.lower()` that file extensions need. */
  function LowerChar(c: char): char {
    if 'A' <= c <= 'Z' then (c as int + 32) as char else c
  }

  /** `s.lower()` restricted to ASCII letters. */
  function Lower(s: string): (r: string)
    ensures |r| == |s|
    ensures forall i | 0 <= i < |s| :: r[i] == LowerChar(s[i])
  {
    seq(|s|, i requires 0 <= i < |s| => LowerChar(s[i]))
  }

  /** Lower-casing leaves a string without capital letters unchanged. */
  lemma LowerKeeps(s: string)
    requires forall i | 0 <= i < |s| :: !('A' <= s[i] <= 'Z')
    ensures Lower(s) == s
  {
    assert forall i | 0 <= i < |s| :: Lower(s)[i] == s[i];
  }

  /** `s.rfind(c)`: the last index holding `c`, or -1. */
  function RFind(s: string, c: char): (k: int)
    ensures -1 <= k < |s|
    ensures k >= 0 ==> s[k] == c
    ensures forall j | k < j < |s| :: s[j] != c
  {
    if s == [] then -1
    else if s[|s| - 1] == c then |s| - 1
    else RFind(s[..|s| - 1], c)
  }

  /**
   * The extension part of POSIX `os.path.splitext(p)`: from the last dot of the
   * final path component, provided that component has a non-dot character before it.
   */
  function Extension(p: string): string {
    var sepIndex := RFind(p, '/');
    var dotIndex := RFind(p, '.');
    if dotIndex > sepIndex && exists j | sepIndex + 1 <= j < dotIndex :: p[j] != '.'
    then p[dotIndex..]
    else ""
  }

  /**
   * A name whose last component is `stem + "." + ext` (the stem holding some character that
   * is not a dot, the ext holding no dot or slash) has extension `"." + ext`.
   */
  lemma ExtensionOf(dir: string, stem: string, ext: string, j: nat)
    requires '/' !in stem && '/' !in ext && '.' !in ext
    requires j < |stem| && stem[j] != '.'
    ensures Extension(dir + stem + "." + ext) == "." + ext
  {
    var p := dir + stem + "." + ext;
    var dot := |dir| + |stem|;
    forall i | dot < i < |p| ensures p[i] == ext[i - dot - 1] { }
    forall i | |dir| <= i < dot ensures p[i] == stem[i - |dir|] { }
    assert p[dot..] == "." + ext;
    ExtensionAt(p, dot, |dir| + j);
  }

  /**
   * The extension is the tail from `dot`, when `dot` holds the last dot, no slash follows
   * position k, and k (before `dot`) holds a character that is not a dot.
   */
  lemma ExtensionAt(p: string, dot: nat, k: nat)
    requires k < dot < |p| && p[dot] == '.' && p[k] != '.'
    requires forall i | dot < i < |p| :: p[i] != '.'
    requires forall i | k <= i < |p| :: p[i] != '/'
    ensures Extension(p) == p[dot..]
  {
    RFindIs(p, '.', dot);
    var sep := RFind(p, '/');
    assert sep < k;
  }

  /** RFind returns the given index when the character sits there and nowhere after it. */
  lemma {:induction false} RFindIs(s: string, c: char, k: nat)
    requires k < |s| && s[k] == c
    requires forall i | k < i < |s| :: s[i] != c
    ensures RFind(s, c) == k
  {
    if s[|s| - 1] != c {
      RFindIs(s[..|s| - 1], c, k);
    }
  }
}
