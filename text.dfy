/**
 * The pieces of Go's `strings`, `strconv` and `fmt` packages that the logger
 * relies on, as functions on `string` (a sequence of characters, one per byte),
 * and the ANSI "select graphic rendition" escapes it uses for colour.
 */
module Text {

  /** ESC, the control character that opens an ANSI escape sequence. */
  const Esc: char := 27 as char

  // ---------------------------------------------------------------------
  // Decimal numerals: fmt's `%d` of a non-negative int and its inverse.
  // ---------------------------------------------------------------------

  predicate IsDigit(c: char) {
    '0' <= c <= '9'
  }

  function DigitChar(d: nat): (c: char)
    requires d < 10
    ensures IsDigit(c)
  {
    (48 + d) as char
  }

  function DigitValue(c: char): (d: nat)
    requires IsDigit(c)
    ensures d < 10
  {
    c as int - 48
  }

  predicate AllDigits(s: string) {
    forall i :: 0 <= i < |s| ==> IsDigit(s[i])
  }

  /** The decimal numeral of `n`, as `%d` prints it: digits only, no leading zero. */
  function Decimal(n: nat): (s: string)
    ensures 1 <= |s| && AllDigits(s)
    ensures s[0] == '0' ==> n == 0
    decreases n
  {
    if n < 10 then [DigitChar(n)] else Decimal(n / 10) + [DigitChar(n % 10)]
  }

  /** The number a numeral denotes (strconv.Atoi on digits). */
  function Value(s: string): (n: nat)
    requires AllDigits(s)
  {
    if s == [] then 0 else 10 * Value(s[..|s| - 1]) + DigitValue(s[|s| - 1])
  }

  /** Reading back a rendered line number gives the number. */
  lemma {:induction false} ValueOfDecimal(n: nat)
    ensures Value(Decimal(n)) == n
    decreases n
  {
    var s := Decimal(n);
    if n >= 10 {
      ValueOfDecimal(n / 10);
      assert s[..|s| - 1] == Decimal(n / 10);
    }
  }

  /** Distinct line numbers render differently. */
  lemma DecimalInjective(m: nat, n: nat)
    requires Decimal(m) == Decimal(n)
    ensures m == n
  {
    ValueOfDecimal(m);
    ValueOfDecimal(n);
  }

  // ---------------------------------------------------------------------
  // strings.Split with a one-character separator, and its inverse.
  // ---------------------------------------------------------------------

  /** strings.Split(s, [sep]): the pieces between occurrences of `sep`. */
  function SplitOn(s: string, sep: char): (parts: seq<string>)
    ensures |parts| >= 1
    ensures sep in s <==> |parts| >= 2
    ensures forall i :: 0 <= i < |parts| ==> sep !in parts[i]
    decreases |s|
  {
    if s == [] then [[]]
    else
      var tail := SplitOn(s[1..], sep);
      assert sep in s <==> s[0] == sep || sep in s[1..] by {
        assert s == [s[0]] + s[1..];
      }
      PrependPiece(s[0], tail, sep)
  }

  /** The pieces of `[c] + s` from the pieces of `s`: a separator opens an empty first piece, any other character joins the first piece. */
  function PrependPiece(c: char, parts: seq<string>, sep: char): seq<string>
    requires |parts| >= 1
  {
    if c == sep then [[]] + parts else [[c] + parts[0]] + parts[1..]
  }

  /** Prepending a character only touches the first piece. */
  lemma PrependPieceAppend(c: char, parts: seq<string>, more: seq<string>, sep: char)
    requires |parts| >= 1
    ensures PrependPiece(c, parts + more, sep) == PrependPiece(c, parts, sep) + more
  {
    if c != sep {
      assert (parts + more)[1..] == parts[1..] + more;
    }
  }

  /** strings.Join(parts, [sep]). */
  function JoinOn(parts: seq<string>, sep: char): (s: string)
    requires |parts| >= 1
    decreases |parts|
  {
    if |parts| == 1 then parts[0] else parts[0] + [sep] + JoinOn(parts[1..], sep)
  }

  /** Splitting loses nothing: joining the pieces gives the string back. */
  lemma {:induction false} JoinSplitOn(s: string, sep: char)
    ensures JoinOn(SplitOn(s, sep), sep) == s
    decreases |s|
  {
    if s != [] {
      JoinSplitOn(s[1..], sep);
      JoinSplitOnCons(s[0], s[1..], sep);
      assert [s[0]] + s[1..] == s;
    }
  }

  /** The inductive step of JoinSplitOn: one more leading character. */
  lemma JoinSplitOnCons(x: char, rest: string, sep: char)
    requires JoinOn(SplitOn(rest, sep), sep) == rest
    ensures JoinOn(SplitOn([x] + rest, sep), sep) == [x] + rest
  {
    var tail := SplitOn(rest, sep);
    assert ([x] + rest)[1..] == rest;
    if x == sep {
      JoinOnEmptyHead(tail, sep);
    } else {
      JoinOnLongerHead(x, tail, sep);
    }
  }

  /** An empty first piece contributes only its separator. */
  lemma JoinOnEmptyHead(tail: seq<string>, sep: char)
    requires |tail| >= 1
    ensures JoinOn([[]] + tail, sep) == [sep] + JoinOn(tail, sep)
  {
    assert ([[]] + tail)[1..] == tail;
  }

  /** A character prepended to the first piece is prepended to the joined string. */
  lemma JoinOnLongerHead(x: char, tail: seq<string>, sep: char)
    requires |tail| >= 1
    ensures JoinOn([[x] + tail[0]] + tail[1..], sep) == [x] + JoinOn(tail, sep)
  {
    var parts := [[x] + tail[0]] + tail[1..];
    if |tail| >= 2 {
      assert parts[1..] == tail[1..];
      assert JoinOn(parts, sep) == ([x] + tail[0]) + [sep] + JoinOn(tail[1..], sep);
    }
  }

  /** A string without the separator is a single piece. */
  lemma {:induction false} SplitOnFree(s: string, sep: char)
    requires sep !in s
    ensures SplitOn(s, sep) == [s]
  {
    var parts := SplitOn(s, sep);
    assert |parts| == 1;
    JoinSplitOn(s, sep);
  }

  /** Splitting at one occurrence of the separator splits the pieces there. */
  lemma {:induction false} SplitOnAt(a: string, b: string, sep: char)
    ensures SplitOn(a + [sep] + b, sep) == SplitOn(a, sep) + SplitOn(b, sep)
    decreases |a|
  {
    if a == [] {
      assert a + [sep] + b == [sep] + b;
      SplitOnCons(sep, b, sep);
    } else {
      var x, rest := a[0], a[1..];
      assert a == [x] + rest;
      assert a + [sep] + b == [x] + (rest + [sep] + b);
      SplitOnAt(rest, b, sep);
      SplitOnAtStep(x, rest, rest + [sep] + b, SplitOn(b, sep), sep);
    }
  }

  /** The inductive step of SplitOnAt: one more leading character on both sides. */
  lemma SplitOnAtStep(x: char, a: string, r: string, u: seq<string>, sep: char)
    requires SplitOn(r, sep) == SplitOn(a, sep) + u
    ensures SplitOn([x] + r, sep) == SplitOn([x] + a, sep) + u
  {
    SplitOnCons(x, r, sep);
    SplitOnCons(x, a, sep);
    PrependPieceAppend(x, SplitOn(a, sep), u, sep);
  }

  /** Split of a string by its first character. */
  lemma SplitOnCons(x: char, rest: string, sep: char)
    ensures SplitOn([x] + rest, sep) == PrependPiece(x, SplitOn(rest, sep), sep)
  {
    assert ([x] + rest)[1..] == rest;
  }

  // ---------------------------------------------------------------------
  // ANSI "select graphic rendition" escapes (ESC '[' parameters 'm').
  // ---------------------------------------------------------------------

  predicate IsSgrParam(c: char) {
    IsDigit(c) || c == ';'
  }

  predicate AllSgrParams(s: string) {
    forall i :: 0 <= i < |s| ==> IsSgrParam(s[i])
  }

  /** The escape sequence that selects the rendition `params` ("0" resets, "34" is blue). */
  function Sgr(params: string): (escape: string)
    ensures |escape| == |params| + 3 && escape[0] == Esc
  {
    [Esc] + "[" + params + "m"
  }

  /** The first index at or after `i` that does not hold a parameter character. */
  function ParamEnd(s: string, i: nat): (j: nat)
    requires i <= |s|
    ensures i <= j <= |s|
    decreases |s| - i
  {
    if i < |s| && IsSgrParam(s[i]) then ParamEnd(s, i + 1) else i
  }

  /** The length of the escape sequence that starts `s`, 0 when none does. */
  function SgrLength(s: string): (k: nat)
    ensures k <= |s|
  {
    if 2 <= |s| && s[0] == Esc && s[1] == '[' then
      var j := ParamEnd(s, 2);
      if j < |s| && s[j] == 'm' then j + 1 else 0
    else 0
  }

  /** What a terminal shows of `s`: `s` with every rendition escape removed. */
  function StripSgr(s: string): (shown: string)
    decreases |s|
  {
    if s == [] then []
    else if SgrLength(s) > 0 then StripSgr(s[SgrLength(s)..])
    else [s[0]] + StripSgr(s[1..])
  }

  lemma {:induction false} ParamEndAt(s: string, i: nat, j: nat)
    requires i <= j < |s|
    requires forall k :: i <= k < j ==> IsSgrParam(s[k])
    requires !IsSgrParam(s[j])
    ensures ParamEnd(s, i) == j
    decreases j - i
  {
    if i < j {
      ParamEndAt(s, i + 1, j);
    }
  }

  /** A rendition escape at the head is invisible. */
  lemma StripSgrHead(params: string, rest: string)
    requires AllSgrParams(params)
    ensures StripSgr(Sgr(params) + rest) == StripSgr(rest)
  {
    var s := Sgr(params) + rest;
    var n := |params|;
    assert forall k :: 2 <= k < 2 + n ==> s[k] == params[k - 2];
    assert s[2 + n] == 'm';
    ParamEndAt(s, 2, 2 + n);
    assert s[SgrLength(s)..] == rest;
  }

  /** Text without ESC is shown as it is. */
  lemma {:induction false} StripSgrPlain(plain: string, rest: string)
    requires Esc !in plain
    ensures StripSgr(plain + rest) == plain + StripSgr(rest)
    decreases |plain|
  {
    var s := plain + rest;
    if plain == [] {
      assert s == rest;
    } else {
      assert s[0] == plain[0];
      assert SgrLength(s) == 0;
      assert s[1..] == plain[1..] + rest;
      StripSgrPlain(plain[1..], rest);
    }
  }
}
