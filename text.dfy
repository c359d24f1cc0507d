/**
 * The string operations the dashboard relies on, restricted to what the model needs:
 * ASCII lower-casing (`toLowerCase`), `includes`/`indexOf`, `split`, `join`, `trim`
 * and the decimal rendering of a non-negative integer in a template literal.
 */
module Text {

  // ---------------------------------------------------------------- lower case

  /** `toLowerCase` on one character, for the ASCII letters only. */
  function LowerChar(c: char): char {
    if 'A' <= c <= 'Z' then (c as int + 32) as char else c
  }

  function Lower(s: string): (r: string)
    ensures |r| == |s|
    ensures forall i :: 0 <= i < |s| ==> r[i] == LowerChar(s[i])
  {
    seq(|s|, i requires 0 <= i < |s| => LowerChar(s[i]))
  }

  // ----------------------------------------------------------- search: indexOf

  /** `sub` occurs in `s` starting at position `i`. */
  predicate OccursAt(s: string, sub: string, i: int) {
    0 <= i && i + |sub| <= |s| && s[i..i + |sub|] == sub
  }

  /** `s.indexOf(sub)`: the first position where `sub` occurs, or -1. */
  function IndexOf(s: string, sub: string): (r: int)
    ensures -1 <= r <= |s|
    ensures r >= 0 ==> OccursAt(s, sub, r)
    ensures r >= 0 ==> forall i :: 0 <= i < r ==> !OccursAt(s, sub, i)
    ensures r == -1 ==> forall i :: !OccursAt(s, sub, i)
    decreases |s|
  {
    if |s| < |sub| then -1
    else if s[..|sub|] == sub then 0
    else
      var k := IndexOf(s[1..], sub);
      assert forall i :: 1 <= i ==> (OccursAt(s, sub, i) <==> OccursAt(s[1..], sub, i - 1)) by {
        forall i | 1 <= i ensures OccursAt(s, sub, i) <==> OccursAt(s[1..], sub, i - 1) {
          if i + |sub| <= |s| {
            assert s[1..][i - 1..i - 1 + |sub|] == s[i..i + |sub|];
          }
        }
      }
      if k < 0 then -1 else k + 1
  }

  /** `s.includes(sub)`. */
  predicate Includes(s: string, sub: string) {
    IndexOf(s, sub) >= 0
  }

  lemma IncludesIff(s: string, sub: string)
    ensures Includes(s, sub) <==> exists i :: OccursAt(s, sub, i)
  {
  }

  /** Every string includes the empty string: an empty search box matches everything. */
  lemma IncludesEmpty(s: string)
    ensures Includes(s, "")
  {
    assert OccursAt(s, "", 0);
  }

  // ------------------------------------------------------------ split and join

  /** `s.split(sep)` for a non-empty separator string. */
  function Split(s: string, sep: string): (parts: seq<string>)
    requires sep != ""
    ensures |parts| >= 1
    decreases |s|
  {
    var i := IndexOf(s, sep);
    if i < 0 then [s] else [s[..i]] + Split(s[i + |sep|..], sep)
  }

  /** The text before the first occurrence of `sep` that `IndexOf` finds, or all of it. */
  function BeforeFirst(s: string, sep: string): (p: string)
    ensures |p| <= |s| && s[..|p|] == p
  {
    s[..if Includes(s, sep) then IndexOf(s, sep) else |s|]
  }

  /** The first piece of a split: everything before the first separator, or the whole string. */
  lemma SplitFirst(s: string, sep: string)
    requires sep != ""
    ensures IndexOf(s, sep) < 0 ==> Split(s, sep)[0] == s
    ensures IndexOf(s, sep) >= 0 ==> Split(s, sep)[0] == s[..IndexOf(s, sep)]
  {
  }

  /**
   * The first piece of a split is a prefix free of the separator, and it ends where
   * the string ends or where a separator starts.
   */
  lemma SplitFirstPiece(s: string, sep: string)
    requires sep != ""
    ensures var p := Split(s, sep)[0];
      |p| <= |s| && s[..|p|] == p && !Includes(p, sep)
      && (|p| == |s| || OccursAt(s, sep, |p|))
  {
    SplitFirst(s, sep);
    var p := Split(s, sep)[0];
    var k := IndexOf(s, sep);
    forall q | 0 <= q ensures !OccursAt(p, sep, q) {
      if OccursAt(p, sep, q) {
        assert s[q..q + |sep|] == p[q..q + |sep|];
        assert OccursAt(s, sep, q);
      }
    }
  }

  /** A piece free of a string stays free of it, and an occurrence stays, when the text grows behind. */
  lemma OccursInPrefix(s: string, n: nat, sub: string, i: int)
    requires n <= |s| && OccursAt(s[..n], sub, i)
    ensures OccursAt(s, sub, i)
  {
    assert s[i..i + |sub|] == s[..n][i..i + |sub|];
  }

  /**
   * The second piece of a split exists when the separator occurs, and is the first
   * piece of what follows the first separator.
   */
  lemma SplitSecond(s: string, sep: string)
    requires sep != "" && IndexOf(s, sep) >= 0
    ensures |Split(s, sep)| >= 2
    ensures Split(s, sep)[1] == Split(s[IndexOf(s, sep) + |sep|..], sep)[0]
  {
    SplitAtFirst(s, sep);
  }

  /** Where the separator occurs, a split is the piece before it followed by the split of what follows. */
  lemma SplitAtFirst(s: string, sep: string)
    requires sep != "" && IndexOf(s, sep) >= 0
    ensures Split(s, sep) == [s[..IndexOf(s, sep)]] + Split(s[IndexOf(s, sep) + |sep|..], sep)
  {
  }

  /** `parts.join(sep)`. */
  function Join(parts: seq<string>, sep: string): string {
    if |parts| == 0 then ""
    else if |parts| == 1 then parts[0]
    else parts[0] + sep + Join(parts[1..], sep)
  }

  /** A joined list starts with its first element. */
  lemma {:induction false} JoinStartsWithFirst(parts: seq<string>, sep: string)
    requires |parts| > 0
    ensures |parts[0]| <= |Join(parts, sep)|
    ensures Join(parts, sep)[..|parts[0]|] == parts[0]
  {
    if |parts| > 1 {
      var rest := sep + Join(parts[1..], sep);
      assert Join(parts, sep) == parts[0] + rest;
    }
  }

  /**
   * Splitting at a one-character separator undoes joining with it, provided no
   * part contains the separator: the pieces come back exactly, in order.
   */
  lemma {:induction false} SplitJoin(parts: seq<string>, c: char)
    requires |parts| >= 1
    requires forall k :: 0 <= k < |parts| ==> c !in parts[k]
    ensures Split(Join(parts, [c]), [c]) == parts
  {
    var s := Join(parts, [c]);
    var p := parts[0];
    assert forall i :: 0 <= i < |p| ==> !OccursAt(s, [c], i) by {
      JoinStartsWithFirst(parts, [c]);
      forall i | 0 <= i < |p| ensures !OccursAt(s, [c], i) {
        assert s[i] == s[..|p|][i] == p[i];
        assert p[i] != c;
      }
    }
    if |parts| == 1 {
      assert s == p;
      assert IndexOf(s, [c]) == -1;
    } else {
      var rest := Join(parts[1..], [c]);
      assert s == p + [c] + rest;
      assert OccursAt(s, [c], |p|) by { assert s[|p|..|p| + 1] == [c]; }
      assert IndexOf(s, [c]) == |p|;
      assert s[..|p|] == p;
      assert s[|p| + 1..] == rest;
      SplitAtFirst(s, [c]);
      SplitJoin(parts[1..], c);
      assert [p] + parts[1..] == parts;
    }
  }

  // -------------------------------------------------------------------- length

  /** The UTF-16 code units of a character: a surrogate pair above U+FFFF, one unit otherwise. */
  function CodeUnits(c: char): nat {
    if c as int > 0xFFFF then 2 else 1
  }

  /**
   * `s.length`: the number of UTF-16 code units. It is at least the number of
   * characters and at most twice it, and equals it when every character lies in the
   * Basic Multilingual Plane.
   */
  function Utf16Length(s: string): (n: nat)
    ensures |s| <= n <= 2 * |s|
    ensures (forall i :: 0 <= i < |s| ==> s[i] as int <= 0xFFFF) ==> n == |s|
  {
    if s == [] then 0 else CodeUnits(s[0]) + Utf16Length(s[1..])
  }

  /** Two emoji are two characters but four code units. */
  lemma TwoEmojiAreFourUnits()
    ensures |"\U{1F600}\U{1F600}"| == 2 && Utf16Length("\U{1F600}\U{1F600}") == 4
  {
    assert "\U{1F600}\U{1F600}"[1..] == "\U{1F600}";
    assert "\U{1F600}"[1..] == "";
  }

  // ---------------------------------------------------------------------- trim

  /**
   * The characters `trim` removes: ECMAScript's WhiteSpace (tab, vertical tab, form
   * feed, the byte-order mark and the space separators of Unicode category Zs) and
   * LineTerminator (line feed, carriage return, line and paragraph separators).
   */
  predicate IsWhitespace(c: char) {
    c == ' ' || c == '\t' || c == '\n' || c == '\r' || c == '\U{B}' || c == '\U{C}'
    || c == '\U{A0}' || c == '\U{1680}' || ('\U{2000}' <= c <= '\U{200A}')
    || c == '\U{2028}' || c == '\U{2029}' || c == '\U{202F}' || c == '\U{205F}'
    || c == '\U{3000}' || c == '\U{FEFF}'
  }

  function TrimStart(s: string): (r: string)
    ensures |r| <= |s| && r == s[|s| - |r|..]
    ensures r == "" || !IsWhitespace(r[0])
    ensures forall i :: 0 <= i < |s| - |r| ==> IsWhitespace(s[i])
  {
    if s != "" && IsWhitespace(s[0]) then TrimStart(s[1..]) else s
  }

  function TrimEnd(s: string): (r: string)
    ensures |r| <= |s| && r == s[..|r|]
    ensures r == "" || !IsWhitespace(r[|r| - 1])
    ensures forall i :: |r| <= i < |s| ==> IsWhitespace(s[i])
  {
    if s != "" && IsWhitespace(s[|s| - 1]) then TrimEnd(s[..|s| - 1]) else s
  }

  /** `s.trim()`. */
  function Trim(s: string): string {
    TrimEnd(TrimStart(s))
  }

  /** `!s.trim()`: nothing but whitespace. */
  predicate IsBlank(s: string) {
    Trim(s) == ""
  }

  lemma BlankIffAllWhitespace(s: string)
    ensures IsBlank(s) <==> forall i :: 0 <= i < |s| ==> IsWhitespace(s[i])
  {
    var t := TrimStart(s);
    if IsBlank(s) {
      assert t == "";
    } else {
      var r := Trim(s);
      assert r[0] == t[0] == s[|s| - |t|];
    }
  }

  // ------------------------------------------------------- decimal rendering

  predicate IsDigit(c: char) {
    '0' <= c <= '9'
  }

  function DigitChar(d: nat): (c: char)
    requires d < 10
    ensures IsDigit(c) && c as int - '0' as int == d
  {
    ('0' as int + d) as char
  }

  /** The decimal digits JavaScript prints for a non-negative integer in a template literal. */
  function NatToString(n: nat): (r: string)
    ensures |r| >= 1
    ensures forall i :: 0 <= i < |r| ==> IsDigit(r[i])
  {
    if n < 10 then [DigitChar(n)] else NatToString(n / 10) + [DigitChar(n % 10)]
  }

  /** The number a string of decimal digits denotes. */
  function DigitsValue(s: string): nat
    requires forall i :: 0 <= i < |s| ==> IsDigit(s[i])
  {
    if s == "" then 0
    else
      var last := s[|s| - 1];
      assert IsDigit(last);
      DigitsValue(s[..|s| - 1]) * 10 + (last as int - '0' as int)
  }

  /** Reading the rendered digits back gives the number: the rendering is lossless. */
  lemma {:induction false} NatToStringRoundTrip(n: nat)
    ensures DigitsValue(NatToString(n)) == n
  {
    if n >= 10 {
      var r := NatToString(n);
      assert r[..|r| - 1] == NatToString(n / 10);
      NatToStringRoundTrip(n / 10);
    }
  }

  /** Different numbers render differently. */
  lemma NatToStringInjective(m: nat, n: nat)
    requires NatToString(m) == NatToString(n)
    ensures m == n
  {
    NatToStringRoundTrip(m);
    NatToStringRoundTrip(n);
  }
}
