/**
 * The string handling the interpreter relies on: `string.Split(' ', ...,
 * StringSplitOptions.RemoveEmptyEntries)`, `string.IsNullOrWhiteSpace`,
 * `int.TryParse` and `StringComparison.OrdinalIgnoreCase`.
 */
module Text {
  import opened Wrappers

  const MinInt32: int := -0x8000_0000
  const MaxInt32: int := 0x7FFF_FFFF

  /** `char.IsWhiteSpace`: the Unicode space separators, line and paragraph separators, and U+0009..U+000D, U+0085. */
  predicate IsWhiteSpace(c: char)
  {
    || c == ' ' || '\t' <= c <= '\r' || c == '\U{0085}' || c == '\U{00A0}' || c == '\U{1680}'
    || '\U{2000}' <= c <= '\U{200A}' || c == '\U{2028}' || c == '\U{2029}' || c == '\U{202F}'
    || c == '\U{205F}' || c == '\U{3000}'
  }

  /** `string.IsNullOrWhiteSpace` on a non-null string: empty, or whitespace only. */
  predicate IsBlank(s: string)
  {
    forall i :: 0 <= i < |s| ==> IsWhiteSpace(s[i])
  }

  /** `string.IsNullOrWhiteSpace` on a nullable string. */
  predicate IsNullOrWhiteSpace(s: Option<string>)
  {
    s.None? || IsBlank(s.value)
  }

  // ---------------------------------------------------------------------------
  // Splitting on the space character

  /** Drops the leading ' ' characters (only U+0020: the separator of every split). */
  function SkipSpaces(s: string): (r: string)
    ensures |r| <= |s|
    ensures r == [] || r[0] != ' '
  {
    if s != [] && s[0] == ' ' then SkipSpaces(s[1..]) else s
  }

  /** What SkipSpaces leaves is a suffix of its input. */
  lemma {:induction false} SkipSpacesSuffix(s: string)
    ensures SkipSpaces(s) == s[|s| - |SkipSpaces(s)|..]
  {
    if s != [] && s[0] == ' ' {
      SkipSpacesSuffix(s[1..]);
    }
  }

  /** The longest prefix of `s` without a ' '. */
  function Word(s: string): (w: string)
    ensures |w| <= |s|
  {
    if s == [] || s[0] == ' ' then [] else [s[0]] + Word(s[1..])
  }

  /** Word gives a prefix of its input without a space, ended by a space or by the end of the input. */
  lemma {:induction false} WordPrefix(s: string)
    ensures var w := Word(s);
            && w == s[..|w|] && ' ' !in w && (|w| == |s| || s[|w|] == ' ')
  {
    if s != [] && s[0] != ' ' {
      WordPrefix(s[1..]);
      assert s == [s[0]] + s[1..];
    }
  }

  /** `s.Split(' ', StringSplitOptions.RemoveEmptyEntries)`. */
  function Tokens(s: string): seq<string>
    decreases |s|
  {
    var t := SkipSpaces(s);
    if t == [] then []
    else
      var w := Word(t);
      [w] + Tokens(t[|w|..])
  }

  /**
   * `commandLine.Split(' ', 2, StringSplitOptions.RemoveEmptyEntries)` as used by
   * ParseCommandLine: the first word, and the rest of the line after the spaces that
   * follow it (empty when there is no rest).
   */
  function ParseCommandLine(line: string): (r: (string, string))
  {
    var t := SkipSpaces(line);
    var cmd := Word(t);
    (cmd, SkipSpaces(t[|cmd|..]))
  }

  /** A non-empty string without a space: what each token is. */
  predicate IsWord(w: string)
  {
    w != [] && ' ' !in w
  }

  /** Words joined by single spaces: the inverse of Tokens on well-formed words. */
  function JoinWords(ws: seq<string>): string
  {
    if ws == [] then [] else if |ws| == 1 then ws[0] else ws[0] + [' '] + JoinWords(ws[1..])
  }

  lemma SkipSpacesIdempotent(s: string)
    ensures SkipSpaces(SkipSpaces(s)) == SkipSpaces(s)
  {
  }

  /** Leading spaces never change the tokens. */
  lemma TokensSkipSpaces(s: string)
    ensures Tokens(SkipSpaces(s)) == Tokens(s)
  {
    SkipSpacesIdempotent(s);
  }

  lemma {:induction false} WordOfWord(w: string, rest: string)
    requires ' ' !in w
    requires rest == [] || rest[0] == ' '
    ensures Word(w + rest) == w
  {
    if w != [] {
      assert (w + rest)[0] == w[0] && (w + rest)[1..] == w[1..] + rest;
      WordOfWord(w[1..], rest);
    } else {
      assert w + rest == rest;
    }
  }

  lemma TokensWordThen(w: string, rest: string)
    requires IsWord(w)
    requires rest == [] || rest[0] == ' '
    ensures Tokens(w + rest) == [w] + Tokens(rest)
  {
    var s := w + rest;
    assert s[0] == w[0];
    assert SkipSpaces(s) == s;
    WordOfWord(w, rest);
    assert s[|w|..] == rest;
  }

  lemma TokensLeadingSpace(j: string)
    ensures Tokens([' '] + j) == Tokens(j)
  {
    assert ([' '] + j)[1..] == j;
    assert SkipSpaces([' '] + j) == SkipSpaces(j);
    TokensSkipSpaces([' '] + j);
    TokensSkipSpaces(j);
  }

  lemma TokensSingleWord(w: string)
    requires IsWord(w)
    ensures Tokens(JoinWords([w])) == [w]
  {
    TokensWordThen(w, []);
    assert w + [] == w;
  }

  lemma TokensJoinCons(ws: seq<string>)
    requires |ws| >= 2 && IsWord(ws[0])
    requires Tokens(JoinWords(ws[1..])) == ws[1..]
    ensures Tokens(JoinWords(ws)) == ws
  {
    var w, tail := ws[0], ws[1..];
    var j := JoinWords(tail);
    assert JoinWords(ws) == w + ([' '] + j);
    TokensWordThen(w, [' '] + j);
    TokensLeadingSpace(j);
    assert ws == [w] + tail;
  }

  /** Splitting words joined by single spaces gives the words back. */
  lemma {:induction false} TokensJoinWords(ws: seq<string>)
    requires forall k :: 0 <= k < |ws| ==> IsWord(ws[k])
    ensures Tokens(JoinWords(ws)) == ws
  {
    if ws == [] {
      assert Tokens([]) == [];
    } else if |ws| == 1 {
      assert IsWord(ws[0]);
      TokensSingleWord(ws[0]);
      assert ws == [ws[0]];
    } else {
      var tail := ws[1..];
      assert Tokens(JoinWords(tail)) == tail by {
        assert forall k :: 0 <= k < |tail| ==> tail[k] == ws[k + 1];
        TokensJoinWords(tail);
      }
      assert IsWord(ws[0]);
      TokensJoinCons(ws);
    }
  }

  /**
   * The command word is the first token of the line, the argument string is an
   * unsplit suffix of the line, and splitting it gives exactly the remaining tokens.
   */
  lemma CommandLineSplit(line: string)
    ensures var r := ParseCommandLine(line);
            var ts := Tokens(line);
            && (ts == [] ==> r.0 == [] && r.1 == [])
            && (ts != [] ==> r.0 == ts[0] && Tokens(r.1) == ts[1..])
            && |r.1| <= |line| && r.1 == line[|line| - |r.1|..]
  {
    var t := SkipSpaces(line);
    var cmd := Word(t);
    var rest := t[|cmd|..];
    var args := SkipSpaces(rest);
    assert ParseCommandLine(line) == (cmd, args);
    if t != [] {
      assert Tokens(line) == [cmd] + Tokens(rest);
      TokensSkipSpaces(rest);
    }
    ArgumentsAreSuffix(line);
  }

  lemma SuffixOfSuffix(a: string, b: string, c: string)
    requires |b| <= |a| && b == a[|a| - |b|..]
    requires |c| <= |b| && c == b[|b| - |c|..]
    ensures c == a[|a| - |c|..]
  {
    assert forall k :: 0 <= k < |c| ==> c[k] == b[|b| - |c| + k] == a[|a| - |c| + k];
  }

  /** The argument string is what is left of the line at its end. */
  lemma ArgumentsAreSuffix(line: string)
    ensures var args := ParseCommandLine(line).1;
            |args| <= |line| && args == line[|line| - |args|..]
  {
    var t := SkipSpaces(line);
    var n := |Word(t)|;
    var rest := t[n..];
    var args := SkipSpaces(rest);
    assert ParseCommandLine(line).1 == args;
    SkipSpacesSuffix(line);
    SkipSpacesSuffix(rest);
    assert |rest| == |t| - n;
    SuffixOfSuffix(t, rest, args);
    SuffixOfSuffix(line, t, args);
  }

  /** Every slice of a blank string is blank. */
  lemma BlankSlice(s: string, a: nat, b: nat)
    requires IsBlank(s) && a <= b <= |s|
    ensures IsBlank(s[a..b])
  {
    forall i | 0 <= i < b - a
      ensures IsWhiteSpace(s[a..b][i])
    {
      assert s[a..b][i] == s[a + i];
    }
  }

  /** A blank line has a blank command word. */
  lemma BlankLineBlankCommand(line: string)
    requires IsBlank(line)
    ensures IsBlank(ParseCommandLine(line).0)
  {
    var t := SkipSpaces(line);
    var cmd := Word(t);
    var off := |line| - |t|;
    assert ParseCommandLine(line).0 == cmd;
    SkipSpacesSuffix(line);
    WordPrefix(t);
    assert t == line[off..];
    BlankSlice(line, off, |line|);
    BlankSlice(t, 0, |cmd|);
    assert cmd == t[0..|cmd|];
  }

  // ---------------------------------------------------------------------------
  // int.TryParse (NumberStyles.Integer)

  /** The white space that number parsing ignores around a number: U+0009..U+000D and U+0020. */
  predicate IsNumberWhite(c: char)
  {
    c == ' ' || '\t' <= c <= '\r'
  }

  function TrimNumberWhite(s: string): (r: string)
    ensures |r| <= |s|
    decreases |s|
  {
    if s != [] && IsNumberWhite(s[0]) then TrimNumberWhite(s[1..])
    else if s != [] && IsNumberWhite(s[|s| - 1]) then TrimNumberWhite(s[..|s| - 1])
    else s
  }

  predicate IsDigit(c: char)
  {
    '0' <= c <= '9'
  }

  predicate AllDigits(s: string)
  {
    forall i :: 0 <= i < |s| ==> IsDigit(s[i])
  }

  /** The decimal value of a digit string, most significant digit first. */
  function DigitsValue(ds: string): nat
    requires AllDigits(ds)
  {
    if ds == [] then 0 else 10 * DigitsValue(ds[..|ds| - 1]) + (ds[|ds| - 1] as int - '0' as int)
  }

  /**
   * `int.TryParse(s, out v)`: optional surrounding white space, an optional sign, one
   * or more ASCII digits, and a value that fits in 32 bits; None where it returns false.
   */
  function ParseInt32(s: string): (r: Option<int>)
    ensures r.Some? ==> MinInt32 <= r.value <= MaxInt32
  {
    var t := TrimNumberWhite(s);
    if t == [] then None
    else
      var negative := t[0] == '-';
      var digits := if t[0] == '-' || t[0] == '+' then t[1..] else t;
      if digits == [] || !AllDigits(digits) then None
      else
        var v: int := if negative then -(DigitsValue(digits) as int) else DigitsValue(digits);
        if MinInt32 <= v <= MaxInt32 then Some(v) else None
  }

  function DigitChar(d: nat): char
    requires d < 10
  {
    ('0' as int + d) as char
  }

  /** Decimal digits of a natural number, without leading zeros. */
  function ShowNat(n: nat): (s: string)
    ensures s != [] && AllDigits(s)
  {
    if n < 10 then [DigitChar(n)] else ShowNat(n / 10) + [DigitChar(n % 10)]
  }

  /** `int.ToString()` in the invariant culture. */
  function ShowInt(n: int): string
  {
    if n < 0 then ['-'] + ShowNat(-n) else ShowNat(n)
  }

  lemma {:induction false} DigitsValueShowNat(n: nat)
    ensures DigitsValue(ShowNat(n)) == n
  {
    var s := ShowNat(n);
    if n >= 10 {
      DigitsValueShowNat(n / 10);
      assert s[..|s| - 1] == ShowNat(n / 10);
    }
  }

  lemma TrimNoWhite(s: string)
    requires s != [] && !IsNumberWhite(s[0]) && !IsNumberWhite(s[|s| - 1])
    ensures TrimNumberWhite(s) == s
  {
  }

  /** int.TryParse reads back what ToString writes, for every 32-bit value. */
  lemma ParseShowInt(n: int)
    requires MinInt32 <= n <= MaxInt32
    ensures ParseInt32(ShowInt(n)) == Some(n)
  {
    var s := ShowInt(n);
    if n < 0 {
      DigitsValueShowNat(-n);
      assert s[1..] == ShowNat(-n);
      assert s[|s| - 1] == ShowNat(-n)[|ShowNat(-n)| - 1];
    } else {
      DigitsValueShowNat(n);
    }
    TrimNoWhite(s);
  }

  // ---------------------------------------------------------------------------
  // StringComparison.OrdinalIgnoreCase

  /** Upper-case mapping, restricted to ASCII letters. */
  function FoldCase(c: char): char
  {
    if 'a' <= c <= 'z' then (c as int - 32) as char else c
  }

  /** `a.Equals(b, StringComparison.OrdinalIgnoreCase)`. */
  predicate EqualsIgnoreCase(a: string, b: string)
  {
    |a| == |b| && forall i :: 0 <= i < |a| ==> FoldCase(a[i]) == FoldCase(b[i])
  }
}
