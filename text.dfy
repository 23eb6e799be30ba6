/** String handling the engine relies on: JavaScript's `trim`, `split`,
    `join`, `includes`, `toLowerCase`, the `/\s+/` tokeniser and the
    insertion-ordered de-duplication that `Array.from(new Set(...))` gives.
    Strings are sequences of characters; one character stands for one
    UTF-16 code unit of the source. */
module Text {

  /** The characters JavaScript treats as white space or line terminators
      (`trim`, `\s`, `parseInt`). */
  predicate IsSpace(c: char) {
    c == ' ' || ('\U{9}' <= c <= '\U{D}') || c == '\U{A0}' || c == '\U{1680}'
    || ('\U{2000}' <= c <= '\U{200A}') || c == '\U{2028}' || c == '\U{2029}'
    || c == '\U{202F}' || c == '\U{205F}' || c == '\U{3000}' || c == '\U{FEFF}'
  }

  /** The first position at or after i that does not hold white space. */
  function ContentStart(s: string, i: nat): (n: nat)
    requires i <= |s|
    ensures i <= n <= |s|
    ensures n < |s| ==> !IsSpace(s[n])
    decreases |s| - i
  {
    if i < |s| && IsSpace(s[i]) then ContentStart(s, i + 1) else i
  }

  /** The last position at or before j that follows no white space. */
  function ContentEnd(s: string, j: nat): (n: nat)
    requires j <= |s|
    ensures n <= j
    ensures n > 0 ==> !IsSpace(s[n - 1])
  {
    if j > 0 && IsSpace(s[j - 1]) then ContentEnd(s, j - 1) else j
  }

  /** `String.prototype.trimStart`. */
  function TrimStart(s: string): (r: string)
    ensures |r| <= |s|
    ensures r != [] ==> !IsSpace(r[0])
  {
    s[ContentStart(s, 0)..]
  }

  /** `String.prototype.trimEnd`. */
  function TrimEnd(s: string): (r: string)
    ensures |r| <= |s|
    ensures r != [] ==> !IsSpace(r[|r| - 1])
  {
    s[..ContentEnd(s, |s|)]
  }

  /** `String.prototype.trim`. */
  function Trim(s: string): (r: string)
    ensures |r| <= |s|
    ensures r != [] ==> !IsSpace(r[0]) && !IsSpace(r[|r| - 1])
  {
    TrimEnd(TrimStart(s))
  }

  /** A string with no white space at either end is its own trim. */
  lemma TrimOfTrimmed(s: string)
    requires s != [] ==> !IsSpace(s[0]) && !IsSpace(s[|s| - 1])
    ensures Trim(s) == s
  {
  }

  /** `list.join(sep)`. */
  function Join(xs: seq<string>, sep: string): (r: string)
    ensures xs == [] ==> r == ""
    ensures |xs| == 1 ==> r == xs[0]
  {
    if xs == [] then ""
    else if |xs| == 1 then xs[0]
    else Join(xs[..|xs| - 1], sep) + sep + xs[|xs| - 1]
  }

  /** `s.split(c)` for a one-character separator: always at least one piece. */
  function Split(s: string, c: char): (r: seq<string>)
    ensures |r| >= 1
    ensures forall i :: 0 <= i < |r| ==> c !in r[i]
  {
    if s == [] then [""]
    else
      var rest := Split(s[1..], c);
      if s[0] == c then [""] + rest else [[s[0]] + rest[0]] + rest[1..]
  }

  /** `s.split(/\s+/)` followed by `.filter(Boolean)`: the maximal runs of
      non-space characters. */
  function Words(s: string): (r: seq<string>)
    ensures forall i :: 0 <= i < |r| ==> r[i] != "" && forall k :: 0 <= k < |r[i]| ==> !IsSpace(r[i][k])
  {
    if s == [] then []
    else if IsSpace(s[0]) then Words(s[1..])
    else
      var rest := Words(s[1..]);
      if |s| > 1 && !IsSpace(s[1]) && rest != [] then [[s[0]] + rest[0]] + rest[1..]
      else [[s[0]]] + rest
  }

  /** `.filter(Boolean)` on a list of strings. */
  function NonEmpty(xs: seq<string>): (r: seq<string>)
    ensures |r| <= |xs|
    ensures forall i :: 0 <= i < |r| ==> r[i] != "" && r[i] in xs
    ensures forall x :: x in xs && x != "" ==> x in r
  {
    if xs == [] then []
    else
      var rest := NonEmpty(xs[..|xs| - 1]);
      if xs[|xs| - 1] == "" then rest else rest + [xs[|xs| - 1]]
  }

  /** Number of occurrences of c in s. */
  function CountChar(s: string, c: char): (n: nat)
    ensures n <= |s|
  {
    if s == [] then 0 else CountChar(s[1..], c) + (if s[0] == c then 1 else 0)
  }

  /** `s.replace(/c/g, "")` for a single character c. */
  function DropChar(s: string, c: char): (r: string)
    ensures c !in r
    ensures |r| == |s| - CountChar(s, c)
  {
    if s == [] then [] else (if s[0] == c then [] else [s[0]]) + DropChar(s[1..], c)
  }

  /** `hay.includes(needle)`: needle ends hay or occurs in hay without its
      last character. */
  function Contains(hay: string, needle: string): bool
  {
    |needle| <= |hay| && (hay[|hay| - |needle|..] == needle || (hay != [] && Contains(hay[..|hay| - 1], needle)))
  }

  /** An occurrence at a known offset is found. */
  lemma {:induction false} ContainsAt(hay: string, needle: string, i: nat)
    requires i + |needle| <= |hay| && hay[i..i + |needle|] == needle
    ensures Contains(hay, needle)
  {
    if i + |needle| < |hay| {
      assert hay[..|hay| - 1][i..i + |needle|] == needle;
      ContainsAt(hay[..|hay| - 1], needle, i);
    }
  }

  /** `toLowerCase`, on the ASCII letters (the only letters whose case the
      engine's vocabulary can differ in). */
  function LowerChar(c: char): char {
    if 'A' <= c <= 'Z' then (c as int + 32) as char else c
  }

  function Lower(s: string): (r: string)
    ensures |r| == |s|
    ensures forall i :: 0 <= i < |s| ==> r[i] == LowerChar(s[i])
  {
    seq(|s|, i requires 0 <= i < |s| => LowerChar(s[i]))
  }

  /** The punctuation and symbol characters `toKey` strips from the ends of
      a token: ASCII punctuation and symbols and the common CJK marks. */
  predicate IsPunctOrSymbol(c: char) {
    ('!' <= c <= '/') || (':' <= c <= '@') || ('[' <= c <= '`') || ('{' <= c <= '~')
    || ('\U{3001}' <= c <= '\U{3003}') || ('\U{3008}' <= c <= '\U{3011}')
    || c == '\U{30FB}' || c == '\U{FF01}' || c == '\U{FF1F}' || c == '\U{FF0C}' || c == '\U{FF0E}'
  }

  predicate IsStripped(c: char) { IsSpace(c) || IsPunctOrSymbol(c) }

  function StripStart(s: string): (r: string)
    ensures |r| <= |s|
  {
    if s != [] && IsStripped(s[0]) then StripStart(s[1..]) else s
  }

  function StripEnd(s: string): (r: string)
    ensures |r| <= |s|
  {
    if s != [] && IsStripped(s[|s| - 1]) then StripEnd(s[..|s| - 1]) else s
  }

  /** `toKey`: the case-folded token without leading or trailing white space,
      punctuation or symbols. Two tokens are "the same word" when their keys
      are equal. */
  function ToKey(s: string): string {
    StripEnd(StripStart(Lower(s)))
  }

  /** `Array.from(new Set(xs))`: first occurrences, in order. */
  function Dedupe(xs: seq<string>): (r: seq<string>)
    ensures |r| <= |xs|
    ensures forall i, j :: 0 <= i < j < |r| ==> r[i] != r[j]
    ensures forall x :: x in r <==> x in xs
  {
    if xs == [] then []
    else
      var d := Dedupe(xs[..|xs| - 1]);
      if xs[|xs| - 1] in d then d else d + [xs[|xs| - 1]]
  }

  function TrimAll(xs: seq<string>): (r: seq<string>)
    ensures |r| == |xs|
    ensures forall i :: 0 <= i < |xs| ==> r[i] == Trim(xs[i])
  {
    seq(|xs|, i requires 0 <= i < |xs| => Trim(xs[i]))
  }

  /** `words.map(w => w.trim()).filter(Boolean)`. */
  function NormalizeWords(words: seq<string>): (r: seq<string>)
    ensures |r| <= |words|
    ensures forall i :: 0 <= i < |r| ==> r[i] != "" && !IsSpace(r[i][0]) && !IsSpace(r[i][|r[i]| - 1])
    ensures forall w :: w in words && Trim(w) != "" ==> Trim(w) in r
    ensures forall x :: x in r ==> x in TrimAll(words)
  {
    var trimmed := TrimAll(words);
    assert forall w :: w in words ==> Trim(w) in trimmed;
    assert forall x :: x in trimmed && x != "" ==> !IsSpace(x[0]) && !IsSpace(x[|x| - 1]);
    NonEmpty(trimmed)
  }

  /** `uniqueWords` / `uniqueList`: trimmed, non-empty, first occurrences. */
  function UniqueWords(words: seq<string>): (r: seq<string>)
    ensures forall i, j :: 0 <= i < j < |r| ==> r[i] != r[j]
    ensures forall x :: x in r <==> x in NormalizeWords(words)
  {
    Dedupe(NormalizeWords(words))
  }

  /** A word that is already trimmed and non-empty survives in the pool. */
  lemma UniqueWordsKeeps(words: seq<string>, w: string)
    requires w in words && w != "" && !IsSpace(w[0]) && !IsSpace(w[|w| - 1])
    ensures w in UniqueWords(words)
  {
    TrimOfTrimmed(w);
  }

  /** Decimal digits of n, as `String(n)` writes a non-negative integer. */
  function NatToString(n: nat): (r: string)
    ensures r != []
    ensures forall i :: 0 <= i < |r| ==> '0' <= r[i] <= '9'
    decreases n
  {
    var d := ['0' + (n % 10) as char];
    if n < 10 then d else NatToString(n / 10) + d
  }
}
