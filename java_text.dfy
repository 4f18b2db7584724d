/** The pieces of the Java platform's string handling that the transform relies on:
    Character.isWhitespace, String.equalsIgnoreCase, String.split(","), String.trim and
    the grammar accepted by Double.parseDouble. */
module JavaText {

  /** Character.isWhitespace: the Unicode space, line and paragraph separators other than
      the no-break spaces U+00A0, U+2007 and U+202F, plus the ASCII controls
      TAB, LF, VT, FF, CR and U+001C..U+001F. */
  predicate IsWhitespace(c: char) {
    || c == ' ' || c == '\t' || c == '\n' || c == '\U{B}' || c == '\U{C}' || c == '\r'
    || ('\U{1C}' <= c <= '\U{1F}')
    || c == '\U{1680}'
    || ('\U{2000}' <= c <= '\U{2006}') || ('\U{2008}' <= c <= '\U{200A}')
    || c == '\U{2028}' || c == '\U{2029}' || c == '\U{205F}' || c == '\U{3000}'
  }

  /** The three characters that the tokenizer turns into tokens of their own. */
  predicate IsPunct(c: char) {
    c == '(' || c == ')' || c == ','
  }

  function ToLowerAscii(c: char): char {
    if 'A' <= c <= 'Z' then (c as int + 32) as char else c
  }

  /** String.equalsIgnoreCase, with ASCII case folding. */
  predicate EqualsIgnoreCase(a: string, b: string) {
    |a| == |b| && forall i :: 0 <= i < |a| ==> ToLowerAscii(a[i]) == ToLowerAscii(b[i])
  }

  // ---------------------------------------------------------------------------
  // String.split(",")

  /** All the comma-separated pieces of s, empty ones included; always one more piece than
      s has commas. */
  function Pieces(s: string): (r: seq<string>)
    ensures |r| >= 1
    ensures forall i :: 0 <= i < |r| ==> ',' !in r[i]
  {
    if s == [] then [""]
    else
      var tail := Pieces(s[1..]);
      if s[0] == ',' then [""] + tail else [[s[0]] + tail[0]] + tail[1..]
  }

  function DropTrailingEmpty(ps: seq<string>): (r: seq<string>)
    ensures |r| <= |ps| && r == ps[..|r|]
    ensures r != [] ==> r[|r| - 1] != ""
    ensures forall i :: |r| <= i < |ps| ==> ps[i] == ""
  {
    if ps == [] then []
    else if ps[|ps| - 1] == "" then DropTrailingEmpty(ps[..|ps| - 1])
    else ps
  }

  /** String.split(","): when s has no comma the result is [s] (even for the empty string);
      otherwise the pieces with the trailing empty ones removed. */
  function Split(s: string): seq<string> {
    if ',' !in s then [s] else DropTrailingEmpty(Pieces(s))
  }

  function JoinCommas(ps: seq<string>): string {
    if ps == [] then "" else if |ps| == 1 then ps[0] else ps[0] + "," + JoinCommas(ps[1..])
  }

  function StripTrailingCommas(s: string): string {
    if s != [] && s[|s| - 1] == ',' then StripTrailingCommas(s[..|s| - 1]) else s
  }

  // ---------------------------------------------------------------------------
  // Double.parseDouble

  /** String.trim: drops leading and trailing characters at or below U+0020. */
  function Trim(s: string): (r: string)
    ensures |r| <= |s|
  {
    if s != [] && s[0] <= ' ' then Trim(s[1..])
    else if s != [] && s[|s| - 1] <= ' ' then Trim(s[..|s| - 1])
    else s
  }

  predicate IsDigit(c: char) { '0' <= c <= '9' }

  predicate IsHexDigit(c: char) { IsDigit(c) || 'a' <= c <= 'f' || 'A' <= c <= 'F' }

  /** The first index at or after i that does not hold a decimal digit. */
  function DigitsEnd(s: string, i: nat): (k: nat)
    requires i <= |s|
    ensures i <= k <= |s|
    decreases |s| - i
  {
    if i < |s| && IsDigit(s[i]) then DigitsEnd(s, i + 1) else i
  }

  function HexDigitsEnd(s: string, i: nat): (k: nat)
    requires i <= |s|
    ensures i <= k <= |s|
    decreases |s| - i
  {
    if i < |s| && IsHexDigit(s[i]) then HexDigitsEnd(s, i + 1) else i
  }

  /** True when s[i..] is empty or one float-type suffix f, F, d or D. */
  predicate SuffixOnly(s: string, i: nat)
    requires i <= |s|
  {
    i == |s| || (i == |s| - 1 && (s[i] == 'f' || s[i] == 'F' || s[i] == 'd' || s[i] == 'D'))
  }

  /** A signed exponent "[+-]?digits+" starting at i followed only by an optional suffix. */
  predicate ExponentTail(s: string, i: nat)
    requires i <= |s|
  {
    var j := if i < |s| && (s[i] == '+' || s[i] == '-') then i + 1 else i;
    var k := DigitsEnd(s, j);
    k > j && SuffixOnly(s, k)
  }

  /** Decimal form: digits with at most one point, at least one digit, an optional
      e/E exponent and an optional suffix. */
  predicate DecimalFloat(b: string) {
    var m1 := DigitsEnd(b, 0);
    var dotted := m1 < |b| && b[m1] == '.';
    var m2 := if dotted then DigitsEnd(b, m1 + 1) else m1;
    var digits := if dotted then m1 + (m2 - m1 - 1) else m1;
    digits > 0 &&
    if m2 < |b| && (b[m2] == 'e' || b[m2] == 'E') then ExponentTail(b, m2 + 1)
    else SuffixOnly(b, m2)
  }

  /** Hexadecimal form after "0x": hex digits with at most one point and at least one
      digit, then a mandatory p/P binary exponent and an optional suffix. */
  predicate HexFloat(h: string) {
    var a := HexDigitsEnd(h, 0);
    var dotted := a < |h| && h[a] == '.';
    var m := if dotted then HexDigitsEnd(h, a + 1) else a;
    var digits := if dotted then a + (m - a - 1) else a;
    digits > 0 && m < |h| && (h[m] == 'p' || h[m] == 'P') && ExponentTail(h, m + 1)
  }

  /** Double.parseDouble(s) returns rather than throwing NumberFormatException. */
  predicate ParsesAsDouble(s: string) {
    var t := Trim(s);
    var i := if t != [] && (t[0] == '+' || t[0] == '-') then 1 else 0;
    i < |t| &&
    var b := t[i..];
    if b[0] == 'N' then b == "NaN"
    else if b[0] == 'I' then b == "Infinity"
    else if |b| >= 2 && b[0] == '0' && (b[1] == 'x' || b[1] == 'X') then HexFloat(b[2..])
    else DecimalFloat(b)
  }

  // ---------------------------------------------------------------------------
  // Lemmas

  /** Splitting on commas and joining with commas gives back the input without its
      trailing commas: nothing but trailing empty pieces is ever lost, and no piece holds
      a comma. */
  lemma {:induction false} SplitJoin(s: string)
    ensures JoinCommas(Split(s)) == StripTrailingCommas(s)
    ensures forall i :: 0 <= i < |Split(s)| ==> ',' !in Split(s)[i]
  {
    if ',' !in s {
      if s != [] { assert s[|s| - 1] in s; }
    } else {
      PiecesJoin(s);
      DropJoin(Pieces(s));
    }
  }

  lemma {:induction false} PiecesJoin(s: string)
    ensures JoinCommas(Pieces(s)) == s
  {
    if s != [] {
      var tail := Pieces(s[1..]);
      PiecesJoin(s[1..]);
      if s[0] == ',' {
        assert Pieces(s) == [""] + tail;
        assert JoinCommas(Pieces(s)) == "" + "," + JoinCommas(tail);
      } else {
        var qs := [[s[0]] + tail[0]] + tail[1..];
        assert qs[1..] == tail[1..];
        assert [s[0]] + s[1..] == s;
      }
    }
  }

  lemma {:induction false} JoinSnoc(ps: seq<string>, p: string)
    requires |ps| >= 1
    ensures JoinCommas(ps + [p]) == JoinCommas(ps) + "," + p
  {
    if |ps| > 1 {
      JoinSnoc(ps[1..], p);
      assert (ps + [p])[1..] == ps[1..] + [p];
    }
  }

  /** Joining after dropping the trailing empty pieces is the same as stripping the
      trailing commas those pieces contributed. */
  lemma {:induction false} DropJoin(ps: seq<string>)
    requires |ps| >= 1 && forall i :: 0 <= i < |ps| ==> ',' !in ps[i]
    ensures StripTrailingCommas(JoinCommas(ps)) == JoinCommas(DropTrailingEmpty(ps))
  {
    var init, last := ps[..|ps| - 1], ps[|ps| - 1];
    assert ps == init + [last];
    if last == "" {
      if |ps| > 1 {
        JoinSnoc(init, last);
        var j := JoinCommas(init);
        assert JoinCommas(ps) == j + "," + "" == j + ",";
        assert (j + ",")[..|j + ","| - 1] == j;
        assert StripTrailingCommas(j + ",") == StripTrailingCommas(j);
        DropJoin(init);
        assert DropTrailingEmpty(ps) == DropTrailingEmpty(init);
      } else {
        assert DropTrailingEmpty(ps) == DropTrailingEmpty([]) == [];
      }
    } else {
      if |ps| > 1 { JoinSnoc(init, last); }
      var j := JoinCommas(ps);
      assert j[|j| - 1] == last[|last| - 1];
      assert last[|last| - 1] in last;
    }
  }

  /** Comma-free text in front of s extends the first piece of s. */
  lemma {:induction false} PiecesPrefix(a: string, s: string)
    requires ',' !in a
    ensures Pieces(a + s) == [a + Pieces(s)[0]] + Pieces(s)[1..]
  {
    if a == [] {
      var ps := Pieces(s);
      assert a + s == s && a + ps[0] == ps[0];
      assert [ps[0]] + ps[1..] == ps;
    } else {
      assert (a + s)[0] == a[0];
      assert (a + s)[1..] == a[1..] + s;
      PiecesPrefix(a[1..], s);
      assert [a[0]] + (a[1..] + Pieces(s)[0]) == a + Pieces(s)[0];
    }
  }

  /** Pieces inverts joining with commas when no piece holds a comma. */
  lemma {:induction false} JoinPieces(ps: seq<string>)
    requires |ps| >= 1 && forall i :: 0 <= i < |ps| ==> ',' !in ps[i]
    ensures Pieces(JoinCommas(ps)) == ps
  {
    if |ps| == 1 {
      PiecesPrefix(ps[0], "");
      assert ps[0] + "" == ps[0];
    } else {
      var j := JoinCommas(ps[1..]);
      JoinPieces(ps[1..]);
      assert ("," + j)[1..] == j;
      assert Pieces("," + j) == [""] + ps[1..];
      var tail := Pieces("," + j);
      assert tail[0] == "" && tail[1..] == ps[1..];
      PiecesPrefix(ps[0], "," + j);
      assert ps[0] + "," + j == ps[0] + ("," + j);
      assert ps[0] + "" == ps[0];
      assert [ps[0]] + ps[1..] == ps;
    }
  }

  /** String.split(",") inverts joining two or more comma-free fields, the last of them
      non-empty, with commas. */
  lemma SplitJoinCommas(ps: seq<string>)
    requires |ps| >= 2 && ps[|ps| - 1] != ""
    requires forall i :: 0 <= i < |ps| ==> ',' !in ps[i]
    ensures Split(JoinCommas(ps)) == ps
  {
    var j := JoinCommas(ps);
    assert j == ps[0] + "," + JoinCommas(ps[1..]);
    assert j[|ps[0]|] == ',';
    JoinPieces(ps);
  }
}
