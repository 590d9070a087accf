/**
 * The string primitives the scorer and the taggers rely on, over Unicode code
 * points (`string` is `seq<char>`):
 *   - `Lower`        Python's `str.lower()`, for ASCII and the Latin-1 letters;
 *   - `StripAccents` canonical decomposition (NFD) followed by dropping every
 *                    non-spacing mark (general category Mn), for the same letters
 *                    and the combining diacritical marks U+0300..U+036F;
 *   - `Split`        Python's `str.split()` with no argument: runs of
 *                    whitespace separate tokens and no token is empty;
 *   - `Join`         Python's `' '.join(...)`.
 */
module Text {

  /** The code points Python's `str.isspace()` accepts (and `str.split()` splits on). */
  predicate IsSpace(c: char) {
    || c == ' ' || c == '\t' || c == '\n' || c == '\r'
    || c == '\U{000B}' || c == '\U{000C}'
    || ('\U{001C}' <= c <= '\U{001F}')
    || c == '\U{0085}' || c == '\U{00A0}' || c == '\U{1680}'
    || ('\U{2000}' <= c <= '\U{200A}')
    || c == '\U{2028}' || c == '\U{2029}' || c == '\U{202F}' || c == '\U{205F}' || c == '\U{3000}'
  }

  /** Combining diacritical marks (all of general category Mn). */
  predicate IsCombiningMark(c: char) {
    '\U{0300}' <= c <= '\U{036F}'
  }

  /** Lower-casing of one code point: ASCII and Latin-1 capitals (U+00D7 is not a letter). */
  function LowerChar(c: char): (r: char)
    ensures IsSpace(r) <==> IsSpace(c)
    ensures IsCombiningMark(r) <==> IsCombiningMark(c)
    ensures !('A' <= r <= 'Z')
  {
    if 'A' <= c <= 'Z' then (c as int + 32) as char
    else if '\U{00C0}' <= c <= '\U{00DE}' && c != '\U{00D7}' then (c as int + 32) as char
    else c
  }

  /** The base letter left after NFD and dropping the marks, for the Latin-1 letters that decompose. */
  function BaseChar(c: char): (r: char)
    ensures IsSpace(r) <==> IsSpace(c)
    ensures IsCombiningMark(r) <==> IsCombiningMark(c)
  {
    if '\U{00E0}' <= c <= '\U{00E5}' then 'a'
    else if c == '\U{00E7}' then 'c'
    else if '\U{00E8}' <= c <= '\U{00EB}' then 'e'
    else if '\U{00EC}' <= c <= '\U{00EF}' then 'i'
    else if c == '\U{00F1}' then 'n'
    else if '\U{00F2}' <= c <= '\U{00F6}' then 'o'
    else if '\U{00F9}' <= c <= '\U{00FC}' then 'u'
    else if c == '\U{00FD}' || c == '\U{00FF}' then 'y'
    else if '\U{00C0}' <= c <= '\U{00C5}' then 'A'
    else if c == '\U{00C7}' then 'C'
    else if '\U{00C8}' <= c <= '\U{00CB}' then 'E'
    else if '\U{00CC}' <= c <= '\U{00CF}' then 'I'
    else if c == '\U{00D1}' then 'N'
    else if '\U{00D2}' <= c <= '\U{00D6}' then 'O'
    else if '\U{00D9}' <= c <= '\U{00DC}' then 'U'
    else if c == '\U{00DD}' then 'Y'
    else c
  }

  /** `s.lower()` */
  function Lower(s: string): (r: string)
    ensures |r| == |s|
    ensures forall i :: 0 <= i < |s| ==> r[i] == LowerChar(s[i])
  {
    seq(|s|, i requires 0 <= i < |s| => LowerChar(s[i]))
  }

  /** `''.join(c for c in unicodedata.normalize('NFD', s) if unicodedata.category(c) != 'Mn')` */
  function StripAccents(s: string): (r: string)
    ensures |r| <= |s|
  {
    if s == [] then []
    else if IsCombiningMark(s[0]) then StripAccents(s[1..])
    else [BaseChar(s[0])] + StripAccents(s[1..])
  }

  /** What lower-casing followed by accent stripping makes of one code point that is not a mark. */
  function FoldChar(c: char): char {
    BaseChar(LowerChar(c))
  }

  /** A code point that lower-casing and accent stripping leave as it is. */
  predicate IsFolded(c: char) {
    !IsCombiningMark(c) && FoldChar(c) == c
  }

  lemma FoldCharIsFolded(c: char)
    requires !IsCombiningMark(c)
    ensures IsFolded(FoldChar(c))
  {
  }

  /** A token of `str.split()`: non-empty, no whitespace. */
  predicate IsWord(w: string) {
    |w| > 0 && forall i :: 0 <= i < |w| ==> !IsSpace(w[i])
  }

  /** A token made only of folded code points. */
  predicate IsFoldedWord(w: string) {
    IsWord(w) && forall i :: 0 <= i < |w| ==> IsFolded(w[i])
  }

  predicate AllFolded(s: string) {
    forall i :: 0 <= i < |s| ==> IsFolded(s[i])
  }

  /** The length of the run of non-whitespace code points that starts `s`. */
  function WordLen(s: string): (n: nat)
    requires s != [] && !IsSpace(s[0])
    ensures 1 <= n <= |s|
    ensures forall i :: 0 <= i < n ==> !IsSpace(s[i])
    ensures n < |s| ==> IsSpace(s[n])
  {
    if |s| == 1 || IsSpace(s[1]) then 1 else 1 + WordLen(s[1..])
  }

  /** `s.split()` */
  function Split(s: string): (r: seq<string>)
    ensures forall k :: 0 <= k < |r| ==> IsWord(r[k])
  {
    if s == [] then []
    else if IsSpace(s[0]) then Split(s[1..])
    else
      var n := WordLen(s);
      [s[..n]] + Split(s[n..])
  }

  /** `' '.join(ws)` */
  function Join(ws: seq<string>): string {
    if |ws| == 0 then []
    else if |ws| == 1 then ws[0]
    else ws[0] + [' '] + Join(ws[1..])
  }

  /** Applies `f` to every code point. */
  function MapChars(f: char -> char, s: string): (r: string)
    ensures |r| == |s|
    ensures forall i :: 0 <= i < |s| ==> r[i] == f(s[i])
  {
    seq(|s|, i requires 0 <= i < |s| => f(s[i]))
  }

  /** Applies `f` to every code point of every token. */
  function MapTokens(f: char -> char, ws: seq<string>): (r: seq<string>)
    ensures |r| == |ws|
    ensures forall k :: 0 <= k < |ws| ==> r[k] == MapChars(f, ws[k])
  {
    seq(|ws|, k requires 0 <= k < |ws| => MapChars(f, ws[k]))
  }

  predicate KeepsSpaces(f: char -> char) {
    forall c :: IsSpace(f(c)) <==> IsSpace(c)
  }

  lemma {:induction false} WordLenMapChars(f: char -> char, s: string)
    requires KeepsSpaces(f)
    requires s != [] && !IsSpace(s[0])
    ensures WordLen(MapChars(f, s)) == WordLen(s)
  {
    var m := MapChars(f, s);
    if |s| == 1 || IsSpace(s[1]) {
    } else {
      assert m[1..] == MapChars(f, s[1..]);
      WordLenMapChars(f, s[1..]);
    }
  }

  /** Splitting commutes with any code-point map that neither creates nor removes whitespace. */
  lemma {:induction false} SplitMapChars(f: char -> char, s: string)
    requires KeepsSpaces(f)
    ensures Split(MapChars(f, s)) == MapTokens(f, Split(s))
    decreases |s|
  {
    var m := MapChars(f, s);
    if s == [] {
    } else if IsSpace(s[0]) {
      assert m[1..] == MapChars(f, s[1..]);
      SplitMapChars(f, s[1..]);
    } else {
      var n := WordLen(s);
      WordLenMapChars(f, s);
      assert m[..n] == MapChars(f, s[..n]);
      assert m[n..] == MapChars(f, s[n..]);
      SplitMapChars(f, s[n..]);
    }
  }

  /** Without marks to drop, accent stripping is a code-point map. */
  lemma {:induction false} StripAccentsIsMap(s: string)
    requires forall i :: 0 <= i < |s| ==> !IsCombiningMark(s[i])
    ensures StripAccents(s) == MapChars(BaseChar, s)
  {
    if s != [] {
      StripAccentsIsMap(s[1..]);
    }
  }

  /** Accent stripping of a lower-cased string leaves only folded code points. */
  lemma {:induction false} StripLowerFolded(s: string)
    requires forall i :: 0 <= i < |s| ==> LowerChar(s[i]) == s[i]
    ensures AllFolded(StripAccents(s))
  {
    if s != [] {
      StripLowerFolded(s[1..]);
      if !IsCombiningMark(s[0]) {
        FoldCharIsFolded(s[0]);
      }
    }
  }

  /** Lower-casing and accent stripping leave a folded string alone. */
  lemma {:induction false} FoldFixesFolded(s: string)
    requires AllFolded(s)
    ensures StripAccents(Lower(s)) == s
  {
    if s != [] {
      assert Lower(s)[1..] == Lower(s[1..]);
      FoldFixesFolded(s[1..]);
    }
  }

  lemma {:induction false} WordLenAppend(w: string, rest: string)
    requires IsWord(w)
    requires rest == [] || IsSpace(rest[0])
    ensures WordLen(w + rest) == |w|
  {
    if |w| > 1 {
      assert (w + rest)[1..] == w[1..] + rest;
      WordLenAppend(w[1..], rest);
    }
  }

  /** Splitting what `' '.join` produced gives the tokens back. */
  lemma {:induction false} SplitJoin(ws: seq<string>)
    requires forall k :: 0 <= k < |ws| ==> IsWord(ws[k])
    ensures Split(Join(ws)) == ws
  {
    if |ws| == 1 {
      WordLenAppend(ws[0], []);
      assert ws[0] + [] == ws[0];
      assert ws[0][|ws[0]|..] == [];
    } else if |ws| > 1 {
      var s := Join(ws);
      var rest := [' '] + Join(ws[1..]);
      assert s == ws[0] + rest;
      WordLenAppend(ws[0], rest);
      assert s[..|ws[0]|] == ws[0];
      assert s[|ws[0]|..] == rest;
      assert rest[1..] == Join(ws[1..]);
      SplitJoin(ws[1..]);
    }
  }

  /** Every code point of a joined string comes from a token or is the separator. */
  lemma {:induction false} JoinFolded(ws: seq<string>)
    requires forall k :: 0 <= k < |ws| ==> IsFoldedWord(ws[k])
    ensures AllFolded(Join(ws))
  {
    if |ws| > 1 {
      JoinFolded(ws[1..]);
    }
  }

  /** Every token of a string is a contiguous piece of it. */
  lemma {:induction false} SplitPieces(s: string, k: nat, c: char)
    requires k < |Split(s)|
    requires c in Split(s)[k]
    ensures c in s
    decreases |s|
  {
    if IsSpace(s[0]) {
      SplitPieces(s[1..], k, c);
    } else if k > 0 {
      var n := WordLen(s);
      SplitPieces(s[n..], k - 1, c);
    }
  }
}
