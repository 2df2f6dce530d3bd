/** The JavaScript string operations the source calls (`trim`, `toLowerCase`,
    `toUpperCase`, `includes`, `split`, `replace(/\D/g, '')`, `parseInt` and
    number-to-text), on `seq<char>`. Case mapping covers ASCII letters only. */
module JsStrings {
  import opened Seqs

  /** JavaScript's WhiteSpace and LineTerminator characters: what `trim`
      removes and what `\s` matches in a regular expression. */
  predicate IsWhitespace(c: char) {
    c == '\t' || c == '\n' || c == '\U{B}' || c == '\U{C}' || c == '\r' || c == ' ' ||
    c == '\U{A0}' || c == '\U{1680}' || ('\U{2000}' <= c <= '\U{200A}') ||
    c == '\U{2028}' || c == '\U{2029}' || c == '\U{202F}' || c == '\U{205F}' ||
    c == '\U{3000}' || c == '\U{FEFF}'
  }

  predicate IsBlank(s: string) {
    forall i :: 0 <= i < |s| ==> IsWhitespace(s[i])
  }

  /** `trimStart`: drops the leading whitespace and nothing else. */
  function TrimStart(s: string): (r: string)
    ensures |r| <= |s| && r == s[|s| - |r|..]
    ensures forall i :: 0 <= i < |s| - |r| ==> IsWhitespace(s[i])
    ensures r == [] || !IsWhitespace(r[0])
  {
    if s != [] && IsWhitespace(s[0]) then TrimStart(s[1..]) else s
  }

  /** `trimEnd`: drops the trailing whitespace and nothing else. */
  function TrimEnd(s: string): (r: string)
    ensures |r| <= |s| && r == s[..|r|]
    ensures forall i :: |r| <= i < |s| ==> IsWhitespace(s[i])
    ensures r == [] || !IsWhitespace(r[|r| - 1])
  {
    if s != [] && IsWhitespace(s[|s| - 1]) then TrimEnd(s[..|s| - 1]) else s
  }

  /** `trim`: `TrimStart` then `TrimEnd`. */
  function Trim(s: string): (r: string)
    ensures |r| <= |s|
    ensures r == [] || (!IsWhitespace(r[0]) && !IsWhitespace(r[|r| - 1]))
  {
    TrimEnd(TrimStart(s))
  }

  /** `trim` removes only whitespace: the result is an infix of `s` and what
      lies on either side of it is blank. */
  lemma TrimIsInfix(s: string)
    ensures InfixBetweenBlanks(s, |s| - |TrimStart(s)|, Trim(s))
  {
    var t := TrimStart(s);
    BetweenBlanks(s, |s| - |t|, t, TrimEnd(t));
  }

  /** `r` occurs in `s` at `k`, with only whitespace before and after it. */
  predicate InfixBetweenBlanks(s: string, k: int, r: string) {
    0 <= k && k + |r| <= |s| && r == s[k..k + |r|] && IsBlank(s[..k]) && IsBlank(s[k + |r|..])
  }

  /** `r` is a prefix of the suffix `t` of `s` that starts at `k`, with
      whitespace before `t` and after `r`. */
  lemma BetweenBlanks(s: string, k: nat, t: string, r: string)
    requires k + |t| == |s| && t == s[k..] && |r| <= |t| && r == t[..|r|]
    requires forall i :: 0 <= i < k ==> IsWhitespace(s[i])
    requires forall i :: |r| <= i < |t| ==> IsWhitespace(t[i])
    ensures InfixBetweenBlanks(s, k, r)
  {
    BlankSlice(s, 0, k);
    BlankSlice(t, |r|, |t|);
    assert s[k + |r|..] == t[|r|..];
  }

  lemma BlankSlice(s: string, lo: nat, hi: nat)
    requires lo <= hi <= |s|
    requires forall i :: lo <= i < hi ==> IsWhitespace(s[i])
    ensures IsBlank(s[lo..hi])
  {
    forall i | 0 <= i < hi - lo ensures IsWhitespace(s[lo..hi][i]) {
      assert s[lo..hi][i] == s[lo + i];
    }
  }

  /** The trimmed text is empty exactly when `s` is all whitespace. */
  lemma TrimEmptyIffBlank(s: string)
    ensures Trim(s) == [] <==> IsBlank(s)
  {
    var t := TrimStart(s);
    if Trim(s) == [] {
      assert t == [];
    } else if IsBlank(s) {
      assert false;
    }
  }

  /** Trimming twice is trimming once. */
  lemma TrimIdempotent(s: string)
    ensures Trim(Trim(s)) == Trim(s)
  {
    var r := Trim(s);
    assert TrimStart(r) == r;
    assert TrimEnd(r) == r;
  }

  function LowerChar(c: char): char {
    if 'A' <= c <= 'Z' then (c as int + 32) as char else c
  }

  function UpperChar(c: char): char {
    if 'a' <= c <= 'z' then (c as int - 32) as char else c
  }

  /** `toLowerCase` on ASCII letters: the result holds no capital letter and
      differs from `s` only where `s` had one. */
  function ToLower(s: string): (r: string)
    ensures |r| == |s|
    ensures forall i :: 0 <= i < |r| ==> !('A' <= r[i] <= 'Z')
    ensures forall i :: 0 <= i < |r| ==> r[i] == s[i] || ('A' <= s[i] <= 'Z' && r[i] == s[i] + ('a' - 'A'))
  {
    Map(s, LowerChar)
  }

  /** `toUpperCase` on ASCII letters. */
  function ToUpper(s: string): (r: string)
    ensures |r| == |s|
    ensures forall i :: 0 <= i < |r| ==> !('a' <= r[i] <= 'z')
    ensures forall i :: 0 <= i < |r| ==> r[i] == s[i] || ('a' <= s[i] <= 'z' && r[i] == s[i] - ('a' - 'A'))
  {
    Map(s, UpperChar)
  }

  lemma ToLowerIdempotent(s: string)
    ensures ToLower(ToLower(s)) == ToLower(s)
  {
  }

  /** Text without capitals is its own lower case. */
  lemma ToLowerOfLower(s: string)
    requires forall i :: 0 <= i < |s| ==> !('A' <= s[i] <= 'Z')
    ensures ToLower(s) == s
  {
  }

  ghost predicate OccursAt(s: string, t: string, i: int) {
    0 <= i && i + |t| <= |s| && s[i..i + |t|] == t
  }

  /** `String.prototype.includes`: `t` occurs somewhere in `s`. */
  function Contains(s: string, t: string): (b: bool)
    ensures b <==> exists i :: OccursAt(s, t, i)
    decreases |s|
  {
    if |t| > |s| then
      assert forall i :: !OccursAt(s, t, i);
      false
    else if s[..|t|] == t then
      assert OccursAt(s, t, 0);
      true
    else
      var rest := Contains(s[1..], t);
      assert forall i {:trigger OccursAt(s[1..], t, i)} :: OccursAt(s[1..], t, i) ==> OccursAt(s, t, i + 1) by {
        forall i | OccursAt(s[1..], t, i) ensures OccursAt(s, t, i + 1) {
          assert s[1..][i..i + |t|] == s[i + 1..i + 1 + |t|];
        }
      }
      assert forall i :: OccursAt(s, t, i) ==> OccursAt(s[1..], t, i - 1) by {
        forall i | OccursAt(s, t, i) ensures OccursAt(s[1..], t, i - 1) {
          assert i != 0;
          assert s[1..][i - 1..i - 1 + |t|] == s[i..i + |t|];
        }
      }
      rest
  }

  /** `split(sep)` with a one-character separator. */
  function Split(s: string, sep: char): (r: seq<string>)
    ensures |r| >= 1
    ensures forall i :: 0 <= i < |r| ==> sep !in r[i]
  {
    if s == [] then [[]]
    else
      var init := Split(s[..|s| - 1], sep);
      var c := s[|s| - 1];
      if c == sep then init + [[]]
      else init[..|init| - 1] + [init[|init| - 1] + [c]]
  }

  /** `join(sep)`: the inverse of `Split`. */
  function Join(parts: seq<string>, sep: char): string {
    if |parts| == 0 then ""
    else if |parts| == 1 then parts[0]
    else Join(parts[..|parts| - 1], sep) + [sep] + parts[|parts| - 1]
  }

  /** Splitting loses nothing: joining the pieces back gives `s`. */
  lemma {:induction false} JoinSplit(s: string, sep: char)
    ensures Join(Split(s, sep), sep) == s
  {
    if s != [] {
      var init := s[..|s| - 1];
      var parts := Split(init, sep);
      JoinSplit(init, sep);
      if s[|s| - 1] != sep {
        var r := Split(s, sep);
        assert r[..|r| - 1] == parts[..|parts| - 1];
        if |parts| > 1 {
          assert Join(parts, sep) == Join(parts[..|parts| - 1], sep) + [sep] + parts[|parts| - 1];
        }
      } else {
        var r := Split(s, sep);
        assert r[..|r| - 1] == parts;
      }
    }
  }

  /** No piece of a `Split` holds the separator, and only `Split` itself is
      the inverse: splitting a join of separator-free pieces gives them back. */
  lemma {:induction false} SplitJoin(parts: seq<string>, sep: char)
    requires |parts| >= 1
    requires forall i :: 0 <= i < |parts| ==> sep !in parts[i]
    ensures Split(Join(parts, sep), sep) == parts
  {
    if |parts| == 1 {
      SplitPlain(parts[0], sep);
    } else {
      var init, last := parts[..|parts| - 1], parts[|parts| - 1];
      SplitJoin(init, sep);
      assert Join(parts, sep) == Join(init, sep) + [sep] + last;
      SplitAppendPlain(Join(init, sep), sep, last);
      assert parts == init + [last];
    }
  }

  /** Text without the separator splits into itself. */
  lemma {:induction false} SplitPlain(s: string, sep: char)
    requires sep !in s
    ensures Split(s, sep) == [s]
  {
    if s != [] {
      SplitPlain(s[..|s| - 1], sep);
      assert s[|s| - 1] != sep;
      assert s[..|s| - 1] + [s[|s| - 1]] == s;
    }
  }

  /** Appending a separator and a separator-free piece appends one piece. */
  lemma {:induction false} SplitAppendPlain(s: string, sep: char, t: string)
    requires sep !in t
    ensures Split(s + [sep] + t, sep) == Split(s, sep) + [t]
  {
    if t == [] {
      assert (s + [sep] + t)[..|s|] == s;
    } else {
      var u := s + [sep] + t;
      assert u[..|u| - 1] == s + [sep] + t[..|t| - 1];
      SplitAppendPlain(s, sep, t[..|t| - 1]);
      assert t == t[..|t| - 1] + [t[|t| - 1]];
    }
  }

  /** Splitting at a separator between two texts splits each of them. */
  lemma {:induction false} SplitAppend(a: string, sep: char, b: string)
    ensures Split(a + [sep] + b, sep) == Split(a, sep) + Split(b, sep)
  {
    if b == [] {
      SplitSnoc(a, sep, sep);
      assert a + [sep] + b == a + [sep];
    } else {
      var init, c := b[..|b| - 1], b[|b| - 1];
      assert a + [sep] + b == (a + [sep] + init) + [c];
      assert b == init + [c];
      SplitAppend(a, sep, init);
      SplitSnoc(a + [sep] + init, sep, c);
      SplitSnoc(init, sep, c);
      var x, y := Split(a, sep), Split(init, sep);
      var xy := x + y;
      assert Split(a + [sep] + init, sep) == xy;
      if c == sep {
        assert Split(a + [sep] + b, sep) == xy + [[]];
        assert Split(b, sep) == y + [[]];
      } else {
        ExtendLastPiece(x, y, c);
      }
    }
  }

  /** Extending the last piece of `x + y` extends the last piece of `y`. */
  lemma ExtendLastPiece(x: seq<string>, y: seq<string>, c: char)
    requires |y| >= 1
    ensures var xy := x + y;
            xy[..|xy| - 1] + [xy[|xy| - 1] + [c]] == x + (y[..|y| - 1] + [y[|y| - 1] + [c]])
  {
    var xy := x + y;
    assert xy[..|xy| - 1] == x + y[..|y| - 1];
  }

  /** One more character either starts a new piece or extends the last. */
  lemma SplitSnoc(s: string, sep: char, c: char)
    ensures var r := Split(s, sep);
            Split(s + [c], sep) == if c == sep then r + [[]] else r[..|r| - 1] + [r[|r| - 1] + [c]]
  {
    assert (s + [c])[..|s|] == s;
  }

  predicate IsDigit(c: char) {
    '0' <= c <= '9'
  }

  /** `replace(/\D/g, '')`: the decimal digits of `s`, in order. */
  function Digits(s: string): (r: string)
    ensures forall i :: 0 <= i < |r| ==> IsDigit(r[i])
    ensures |r| <= |s|
  {
    Filter(s, IsDigit)
  }

  lemma DigitsAppend(a: string, b: string)
    ensures Digits(a + b) == Digits(a) + Digits(b)
  {
    FilterAppend(a, b, IsDigit);
  }

  lemma DigitsOfDigits(s: string)
    requires forall i :: 0 <= i < |s| ==> IsDigit(s[i])
    ensures Digits(s) == s
  {
    FilterKeepsAll(s, IsDigit);
  }

  /** Value of a digit string, most significant digit first. */
  function DecimalValue(s: string): nat
    requires forall i :: 0 <= i < |s| ==> IsDigit(s[i])
  {
    if s == [] then 0
    else
      assert IsDigit(s[|s| - 1]);
      DecimalValue(s[..|s| - 1]) * 10 + (s[|s| - 1] as int - '0' as int)
  }

  function DigitChar(d: nat): (c: char)
    requires d < 10
    ensures IsDigit(c) && c as int - '0' as int == d
  {
    ('0' as int + d) as char
  }

  /** A number's decimal text, as template literals and `String(n)` give it. */
  function NatToString(n: nat): (r: string)
    ensures r != []
    ensures forall i :: 0 <= i < |r| ==> IsDigit(r[i])
    ensures r[0] == '0' ==> n == 0
    ensures DecimalValue(r) == n
  {
    if n < 10 then [DigitChar(n)]
    else
      var r := NatToString(n / 10) + [DigitChar(n % 10)];
      assert r[..|r| - 1] == NatToString(n / 10);
      r
  }

  predicate IsHexDigit(c: char) {
    IsDigit(c) || 'a' <= c <= 'f' || 'A' <= c <= 'F'
  }

  function HexDigitValue(c: char): nat
    requires IsHexDigit(c)
  {
    if IsDigit(c) then c as int - '0' as int
    else if 'a' <= c <= 'f' then c as int - 'a' as int + 10
    else c as int - 'A' as int + 10
  }

  function HexValue(s: string): nat
    requires forall i :: 0 <= i < |s| ==> IsHexDigit(s[i])
  {
    if s == [] then 0 else HexValue(s[..|s| - 1]) * 16 + HexDigitValue(s[|s| - 1])
  }

  /** The longest prefix of `s` whose characters all satisfy `p`. */
  function PrefixWhile(s: string, p: char -> bool): (r: string)
    ensures |r| <= |s| && r == s[..|r|]
    ensures forall i :: 0 <= i < |r| ==> p(r[i])
    ensures |r| < |s| ==> !p(s[|r|])
  {
    if s != [] && p(s[0]) then [s[0]] + PrefixWhile(s[1..], p) else []
  }

  /** A JavaScript number that may be `NaN`. */
  datatype Num = Int(value: int) | NaN

  /** `parseInt(s)` with no radix: leading whitespace is skipped, one sign is
      read, a `0x`/`0X` prefix switches to base 16, and the longest run of
      digits that follows is the value; no digit at all gives `NaN`. */
  function ParseInt(s: string): Num {
    var t := TrimStart(s);
    var negative := t != [] && t[0] == '-';
    var u := if t != [] && (t[0] == '-' || t[0] == '+') then t[1..] else t;
    if |u| >= 2 && u[0] == '0' && (u[1] == 'x' || u[1] == 'X') then
      var h := PrefixWhile(u[2..], IsHexDigit);
      if h == [] then NaN
      else Int(if negative then -(HexValue(h) as int) else HexValue(h))
    else
      var d := PrefixWhile(u, IsDigit);
      if d == [] then NaN
      else Int(if negative then -(DecimalValue(d) as int) else DecimalValue(d))
  }

  /** `parseInt` reads back the decimal text of every natural number. */
  lemma ParseIntOfNatToString(n: nat)
    ensures ParseInt(NatToString(n)) == Int(n)
  {
    ParseIntOfNatToStringThen(n, []);
    assert NatToString(n) + [] == NatToString(n);
  }

  /** Text with no digit at all parses to `NaN`; the empty age field is one. */
  lemma ParseIntNoDigits(s: string)
    requires forall i :: 0 <= i < |s| ==> !IsHexDigit(s[i])
    ensures ParseInt(s) == NaN
  {
  }

  /** `parseInt` stops at the first character that cannot continue a
      number, so a count followed by a word reads back as the count. */
  lemma ParseIntOfNatToStringThen(n: nat, rest: string)
    requires rest == [] || (!IsHexDigit(rest[0]) && rest[0] != 'x' && rest[0] != 'X')
    ensures ParseInt(NatToString(n) + rest) == Int(n)
  {
    var s := NatToString(n);
    assert s[0] == '0' ==> |s| == 1;
    ParseIntOfDigitsThen(s, rest);
  }

  lemma ParseIntOfDigitsThen(s: string, rest: string)
    requires s != [] && forall i :: 0 <= i < |s| ==> IsDigit(s[i])
    requires s[0] == '0' ==> |s| == 1
    requires rest == [] || (!IsHexDigit(rest[0]) && rest[0] != 'x' && rest[0] != 'X')
    ensures ParseInt(s + rest) == Int(DecimalValue(s))
  {
    var t := s + rest;
    assert t[0] == s[0];
    TrimStartNoBlank(t);
    assert !(|t| >= 2 && t[0] == '0' && (t[1] == 'x' || t[1] == 'X')) by {
      if |t| >= 2 && t[0] == '0' {
        assert t[1] == rest[0];
      }
    }
    PrefixWhileThen(s, rest);
  }

  lemma TrimStartNoBlank(s: string)
    requires s != [] && !IsWhitespace(s[0])
    ensures TrimStart(s) == s
  {
  }

  lemma {:induction false} PrefixWhileThen(s: string, rest: string)
    requires forall i :: 0 <= i < |s| ==> IsDigit(s[i])
    requires rest == [] || !IsDigit(rest[0])
    ensures PrefixWhile(s + rest, IsDigit) == s
  {
    if s != [] {
      PrefixWhileThen(s[1..], rest);
      assert (s + rest)[1..] == s[1..] + rest;
    }
  }
}
