/** The string operations that header parsing uses, on strings of bytes. */
module Text {
  import opened Options

  /** A character that stands for one byte. */
  predicate IsByte(c: char) { c as int < 256 }

  predicate Bytes(s: string) {
    forall i :: 0 <= i < |s| ==> IsByte(s[i])
  }

  predicate Free(s: string, c: char) {
    forall i :: 0 <= i < |s| ==> s[i] != c
  }

  /** Everything before and after the first c; without one, s and nothing. */
  function Cut(s: string, c: char): (r: (string, string, bool))
    ensures Free(r.0, c)
    ensures s == if r.2 then r.0 + [c] + r.1 else r.0
    ensures !r.2 ==> r.1 == ""
  {
    if s == "" then ("", "", false)
    else if s[0] == c then ("", s[1..], true)
    else
      var (before, after, found) := Cut(s[1..], c);
      ([s[0]] + before, after, found)
  }

  function Split(s: string, c: char): (r: seq<string>)
    ensures |r| > 0 && forall i :: 0 <= i < |r| ==> Free(r[i], c)
    decreases |s|
  {
    var (before, after, found) := Cut(s, c);
    if found then [before] + Split(after, c) else [before]
  }

  predicate IsSpace(c: char) { c == ' ' || 9 <= c as int <= 13 }

  function TrimLeft(s: string): (r: string)
    ensures r != "" ==> !IsSpace(r[0])
  {
    if s != "" && IsSpace(s[0]) then TrimLeft(s[1..]) else s
  }

  function TrimRight(s: string): (r: string)
    ensures r <= s
    ensures r != "" ==> !IsSpace(r[|r| - 1])
  {
    if s != "" && IsSpace(s[|s| - 1]) then TrimRight(s[..|s| - 1]) else s
  }

  function TrimSpace(s: string): (r: string)
    ensures r != "" ==> !IsSpace(r[0]) && !IsSpace(r[|r| - 1])
    ensures forall c :: Free(s, c) ==> Free(r, c)
  {
    FreeTrimmed(s);
    TrimRight(TrimLeft(s))
  }

  lemma {:induction false} FreeTrimmed(s: string)
    ensures forall c :: Free(s, c) ==> Free(TrimLeft(s), c)
  {
    if s != "" && IsSpace(s[0]) {
      FreeTrimmed(s[1..]);
    }
  }

  function Lower(s: string): (r: string)
    ensures |r| == |s|
  {
    seq(|s|, i requires 0 <= i < |s| => if 'A' <= s[i] <= 'Z' then (s[i] as int + 32) as char else s[i])
  }

  /** Cutting at a c that is the first one. */
  lemma {:induction false} CutAt(a: string, c: char, b: string)
    requires Free(a, c)
    ensures Cut(a + [c] + b, c) == (a, b, true)
  {
    var s := a + [c] + b;
    if a == "" {
      assert s[1..] == b;
    } else {
      assert s[1..] == a[1..] + [c] + b;
      CutAt(a[1..], c, b);
      assert [s[0]] + a[1..] == a;
    }
  }

  lemma {:induction false} CutNone(a: string, c: char)
    requires Free(a, c)
    ensures Cut(a, c) == (a, "", false)
  {
    if a != "" {
      CutNone(a[1..], c);
    }
  }

  lemma SplitAt(a: string, c: char, b: string)
    requires Free(a, c)
    ensures Split(a + [c] + b, c) == [a] + Split(b, c)
  {
    CutAt(a, c, b);
  }

  lemma SplitNone(a: string, c: char)
    requires Free(a, c)
    ensures Split(a, c) == [a]
  {
    CutNone(a, c);
  }

  lemma TrimNothing(s: string)
    requires s != "" ==> !IsSpace(s[0]) && !IsSpace(s[|s| - 1])
    ensures TrimSpace(s) == s
  {}

  predicate Blank(s: string) {
    forall i :: 0 <= i < |s| ==> IsSpace(s[i])
  }

  lemma {:induction false} TrimLeftBlank(before: string, s: string)
    requires Blank(before)
    ensures TrimLeft(before + s) == TrimLeft(s)
  {
    if before == "" {
      assert before + s == s;
    } else {
      assert (before + s)[1..] == before[1..] + s;
      TrimLeftBlank(before[1..], s);
    }
  }

  lemma {:induction false} TrimRightBlank(s: string, after: string)
    requires Blank(after)
    ensures TrimRight(s + after) == TrimRight(s)
  {
    if after == "" {
      assert s + after == s;
    } else {
      assert (s + after)[..|s + after| - 1] == s + after[..|after| - 1];
      TrimRightBlank(s, after[..|after| - 1]);
    }
  }

  /** Spaces around something that neither begins nor ends with one are all that is trimmed. */
  lemma SpacesAround(before: string, s: string, after: string)
    requires Blank(before) && Blank(after) && s != "" && !IsSpace(s[0]) && !IsSpace(s[|s| - 1])
    ensures TrimSpace(before + s + after) == s
  {
    var t := s + after;
    assert before + s + after == before + t && t[0] == s[0];
    TrimLeftBlank(before, t);
    TrimRightBlank(s, after);
  }

  /** What follows the first '=' is as clean as the whole. */
  lemma CutIsClean(t: string)
    requires Free(t, ';') && (t != "" ==> !IsSpace(t[|t| - 1]))
    ensures var v := Cut(t, '=').1; Free(v, ';') && (v != "" ==> !IsSpace(v[|v| - 1]))
  {
    var (k, v, found) := Cut(t, '=');
    hide Cut, IsSpace;
    if v != "" {
      assert t == k + ['='] + v;
      forall i | 0 <= i < |v|
        ensures v[i] == t[|k| + 1 + i]
      {
      }
    }
  }

  lemma TrimIsClean(s: string)
    requires Free(s, ';')
    ensures var t := TrimSpace(s); Free(t, ';') && (t != "" ==> !IsSpace(t[|t| - 1]))
  {}

  /* ---- Percent-encoding of a query component ---- */

  const HEX := "0123456789ABCDEF"

  predicate Unreserved(c: char) {
    'a' <= c <= 'z' || 'A' <= c <= 'Z' || '0' <= c <= '9' || c == '-' || c == '_' || c == '.' || c == '~'
  }

  function EscapeChar(c: char): string
    requires IsByte(c)
  {
    if Unreserved(c) then [c]
    else if c == ' ' then "+"
    else ['%', HEX[c as int / 16], HEX[c as int % 16]]
  }

  function Escape(s: string): string
    requires Bytes(s)
  {
    if s == "" then "" else EscapeChar(s[0]) + Escape(s[1..])
  }

  function HexValue(c: char): Option<nat> {
    if '0' <= c <= '9' then Some(c as int - '0' as int)
    else if 'a' <= c <= 'f' then Some(c as int - 'a' as int + 10)
    else if 'A' <= c <= 'F' then Some(c as int - 'A' as int + 10)
    else None
  }

  /** None is a malformed escape. */
  function Unescape(s: string): Option<string> {
    if s == "" then Some("")
    else if s[0] == '%' then
      if |s| < 3 || HexValue(s[1]).None? || HexValue(s[2]).None? then None
      else
        var rest := Unescape(s[3..]);
        if rest.None? then None
        else
          assert HexValue(s[1]).value * 16 + HexValue(s[2]).value < 256;
          Some([(HexValue(s[1]).value * 16 + HexValue(s[2]).value) as char] + rest.value)
    else
      var rest := Unescape(s[1..]);
      if rest.None? then None else Some([if s[0] == '+' then ' ' else s[0]] + rest.value)
  }

  predicate IsHex(c: char) { HexValue(c).Some? }

  /** Two hexadecimal digits follow every percent sign. */
  predicate WellEscaped(s: string) {
    forall i :: 0 <= i < |s| && s[i] == '%' ==> i + 2 < |s| && IsHex(s[i + 1]) && IsHex(s[i + 2])
  }

  lemma {:induction false} UnescapesIff(s: string)
    ensures Unescape(s).Some? <==> WellEscaped(s)
    decreases |s|
  {
    hide HexValue;
    if s != "" {
      var n := if s[0] != '%' then 1 else if |s| < 3 then |s| else 3;
      UnescapesIff(s[n..]);
      if s[0] != '%' || (|s| >= 3 && IsHex(s[1]) && IsHex(s[2])) {
        PercentIsNoHex();
        EscapedTail(s, n);
      }
    }
  }

  lemma PercentIsNoHex()
    ensures !IsHex('%')
  {}

  lemma EscapedTail(s: string, n: nat)
    requires n <= |s| && !IsHex('%')
    requires (s != "" && s[0] != '%' && n == 1) || (|s| >= 3 && s[0] == '%' && IsHex(s[1]) && IsHex(s[2]) && n == 3)
    ensures WellEscaped(s) <==> WellEscaped(s[n..])
  {
    hide IsHex;
    if WellEscaped(s[n..]) {
      forall i | 0 <= i < |s| && s[i] == '%'
        ensures i + 2 < |s| && IsHex(s[i + 1]) && IsHex(s[i + 2])
      {
        if i >= n {
          assert s[n..][i - n] == '%';
          assert s[n..][i - n + 1] == s[i + 1] && s[n..][i - n + 2] == s[i + 2];
        }
      }
    }
    if WellEscaped(s) {
      forall i | 0 <= i < |s[n..]| && s[n..][i] == '%'
        ensures i + 2 < |s[n..]| && IsHex(s[n..][i + 1]) && IsHex(s[n..][i + 2])
      {
        assert s[i + n] == '%';
      }
    }
  }

  /** The digits of an escape may be in either case. */
  lemma AnyCaseEscape(x: nat, y: nat, small: bool, smallToo: bool, rest: string)
    requires x < 16 && y < 16 && Unescape(rest).Some?
    ensures var h := ['%', if small then Lower(HEX)[x] else HEX[x], if smallToo then Lower(HEX)[y] else HEX[y]];
            Unescape(h + rest) == Some([(16 * x + y) as char] + Unescape(rest).value)
  {
    hide Unescape, HexValue, Lower;
    SmallDigits(x);
    SmallDigits(y);
    HexDigits(x);
    HexDigits(y);
    UnescapeTriple(if small then Lower(HEX)[x] else HEX[x], if smallToo then Lower(HEX)[y] else HEX[y], x, y, rest);
  }

  lemma SmallDigits(n: nat)
    requires n < 16
    ensures HexValue(Lower(HEX)[n]) == Some(n)
  {}

  lemma HexDigits(n: nat)
    requires n < 16
    ensures HexValue(HEX[n]) == Some(n) && Unreserved(HEX[n])
  {}

  lemma UnescapeOne(c: char, rest: string, u: string)
    requires IsByte(c) && Unescape(rest) == Some(u)
    ensures Unescape(EscapeChar(c) + rest) == Some([c] + u)
  {
    if Unreserved(c) || c == ' ' {
      UnescapePlain(c, rest, u);
    } else {
      UnescapeHex(c, rest, u);
    }
  }

  lemma UnescapePlain(c: char, rest: string, u: string)
    requires IsByte(c) && Unescape(rest) == Some(u) && (Unreserved(c) || c == ' ')
    ensures Unescape(EscapeChar(c) + rest) == Some([c] + u)
  {
    var e := EscapeChar(c);
    var t := e + rest;
    assert |e| == 1 && t[1..] == rest && t[0] == e[0];
  }

  lemma UnescapeHex(c: char, rest: string, u: string)
    requires IsByte(c) && Unescape(rest) == Some(u) && !Unreserved(c) && c != ' '
    ensures Unescape(EscapeChar(c) + rest) == Some([c] + u)
  {
    hide Unescape, Unreserved;
    UnescapePair(c as int / 16, c as int % 16, rest, u);
  }

  lemma UnescapeTriple(a: char, b: char, x: nat, y: nat, rest: string)
    requires HexValue(a) == Some(x) && HexValue(b) == Some(y) && Unescape(rest).Some?
    ensures x < 16 && y < 16 && Unescape(['%', a, b] + rest) == Some([(16 * x + y) as char] + Unescape(rest).value)
  {
    assert x < 16 && y < 16;
    hide HexValue;
    var t := ['%', a, b] + rest;
    assert t[3..] == rest && t[0] == '%' && t[1] == a && t[2] == b;
  }

  lemma UnescapePair(x: nat, y: nat, rest: string, u: string)
    requires x < 16 && y < 16 && Unescape(rest) == Some(u)
    ensures Unescape(['%', HEX[x], HEX[y]] + rest) == Some([(16 * x + y) as char] + u)
  {
    hide Unescape, HexValue, Unreserved;
    HexDigits(x);
    HexDigits(y);
    UnescapeTriple(HEX[x], HEX[y], x, y, rest);
  }

  /** Every byte string survives escaping. */
  lemma {:induction false} EscapeRoundTrip(s: string)
    requires Bytes(s)
    ensures Unescape(Escape(s)) == Some(s)
  {
    hide EscapeChar;
    if s != "" {
      EscapeRoundTrip(s[1..]);
      UnescapeOne(s[0], Escape(s[1..]), s[1..]);
      assert [s[0]] + s[1..] == s;
    }
  }

  /** What comes out contains none of the characters that Refer-To is taken apart at. */
  lemma {:induction false} EscapedIsPlain(s: string)
    requires Bytes(s)
    ensures forall i :: 0 <= i < |Escape(s)| ==> Unreserved(Escape(s)[i]) || Escape(s)[i] == '%' || Escape(s)[i] == '+'
  {
    if s != "" {
      EscapedIsPlain(s[1..]);
      HexDigits(s[0] as int / 16);
      HexDigits(s[0] as int % 16);
    }
  }
}
