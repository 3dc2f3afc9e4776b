/**
 * String helpers with the semantics of the Python and JavaScript built-ins
 * the system relies on: whitespace splitting and stripping, slicing with an
 * ellipsis, ASCII case mapping, substring and prefix tests, decimal
 * rendering with zero padding, and Python's `int()` on text.
 */
module Text {
  import opened Wrappers

  // ---------------------------------------------------------------------
  // Whitespace, split, join and strip (Python `str.split()`/`str.strip()`)
  // ---------------------------------------------------------------------

  /** Python's `str.isspace` for one character. */
  predicate IsSpace(c: char)
  {
    var n := c as int;
    (9 <= n <= 13) || (28 <= n <= 32) || n == 0x85 || n == 0xa0 || n == 0x1680
    || (0x2000 <= n <= 0x200a) || n == 0x2028 || n == 0x2029 || n == 0x202f
    || n == 0x205f || n == 0x3000
  }

  predicate AllSpace(s: string)
  {
    forall i :: 0 <= i < |s| ==> IsSpace(s[i])
  }

  predicate NoSpace(s: string)
  {
    forall i :: 0 <= i < |s| ==> !IsSpace(s[i])
  }

  /** Drops leading whitespace. */
  function TrimLeft(s: string): (r: string)
    ensures |r| <= |s| && r == s[|s| - |r|..]
    ensures r == [] || !IsSpace(r[0])
  {
    if s == [] then s
    else if IsSpace(s[0]) then TrimLeft(s[1..])
    else s
  }

  /** What `TrimLeft` drops is whitespace. */
  lemma {:induction false} TrimLeftDropsSpace(s: string)
    ensures AllSpace(s[..|s| - |TrimLeft(s)|])
  {
    if s != [] && IsSpace(s[0]) {
      var r := TrimLeft(s[1..]);
      TrimLeftDropsSpace(s[1..]);
      assert s[1..][..|s[1..]| - |r|] == s[1..|s| - |r|];
    }
  }

  /** Drops trailing whitespace. */
  function TrimRight(s: string): (r: string)
    ensures |r| <= |s| && r == s[..|r|]
    ensures r == [] || !IsSpace(r[|r| - 1])
  {
    if s == [] then s
    else if IsSpace(s[|s| - 1]) then TrimRight(s[..|s| - 1])
    else s
  }

  /** What `TrimRight` drops is whitespace. */
  lemma {:induction false} TrimRightDropsSpace(s: string)
    ensures AllSpace(s[|TrimRight(s)|..])
  {
    if s != [] && IsSpace(s[|s| - 1]) {
      var r := TrimRight(s[..|s| - 1]);
      TrimRightDropsSpace(s[..|s| - 1]);
      assert s[..|s| - 1][|r|..] + [s[|s| - 1]] == s[|r|..];
    }
  }

  /** Python's `str.strip()` with no argument. */
  function Strip(s: string): (r: string)
  {
    TrimRight(TrimLeft(s))
  }

  lemma StripShape(s: string)
    ensures var r := Strip(s);
      (r == [] || (!IsSpace(r[0]) && !IsSpace(r[|r| - 1])))
      && (exists i, j :: 0 <= i <= j <= |s| && r == s[i..j]
            && AllSpace(s[..i]) && AllSpace(s[j..]))
  {
    var t := TrimLeft(s);
    var r := TrimRight(t);
    TrimLeftDropsSpace(s);
    TrimRightDropsSpace(t);
    var i := |s| - |t|;
    var j := i + |r|;
    assert r == s[i..j];
    assert AllSpace(s[j..]) by {
      assert s[j..] == t[|r|..];
    }
    if r != [] {
      assert r[0] == t[0];
    }
  }

  /** The strip of a text begins and ends with a character that is not whitespace. */
  lemma StripEnds(s: string)
    ensures Strip(s) == [] || (!IsSpace(Strip(s)[0]) && !IsSpace(Strip(s)[|Strip(s)| - 1]))
  {
    StripShape(s);
  }

  /** A string without outer whitespace is its own strip. */
  lemma StripNoOuterSpace(s: string)
    requires s == [] || (!IsSpace(s[0]) && !IsSpace(s[|s| - 1]))
    ensures Strip(s) == s
  {
  }

  /** Stripping twice is stripping once. */
  lemma StripIdempotent(s: string)
    ensures Strip(Strip(s)) == Strip(s)
  {
    StripEnds(s);
    StripNoOuterSpace(Strip(s));
  }

  /** `f"{first} {last}".strip()`, the full-name rule for people. */
  function SpacedName(first: string, last: string): (r: string)
    ensures r == [] || (!IsSpace(r[0]) && !IsSpace(r[|r| - 1]))
  {
    StripEnds(first + " " + last);
    Strip(first + " " + last)
  }

  /** Two names without outer whitespace are joined by exactly one space. */
  lemma SpacedNameClean(first: string, last: string)
    requires first != [] && !IsSpace(first[0])
    requires last != [] && !IsSpace(last[|last| - 1])
    ensures SpacedName(first, last) == first + " " + last
  {
    var s := first + " " + last;
    assert s[0] == first[0] && s[|s| - 1] == last[|last| - 1];
    StripNoOuterSpace(s);
  }

  /** With no last name the first name stands alone, without the separator. */
  lemma SpacedNameFirstOnly(first: string)
    requires first != [] && !IsSpace(first[0]) && !IsSpace(first[|first| - 1])
    ensures SpacedName(first, "") == first
  {
    var s := first + " " + "";
    assert TrimLeft(s) == s;
    assert s[..|s| - 1] == first;
    assert TrimRight(s) == TrimRight(first);
  }

  /** Two empty names give the empty name. */
  lemma SpacedNameEmpty()
    ensures SpacedName("", "") == ""
  {
    assert TrimLeft(" ") == TrimLeft(" "[1..]);
  }

  /** Length of the leading run of non-whitespace characters. */
  function TokenLength(s: string): (k: nat)
    ensures k <= |s|
    ensures NoSpace(s[..k])
    ensures k < |s| ==> IsSpace(s[k])
  {
    if s == [] || IsSpace(s[0]) then 0
    else
      var k := TokenLength(s[1..]);
      assert s[..k + 1] == [s[0]] + s[1..][..k];
      k + 1
  }

  /** Python's `str.split()` with no argument: the maximal runs of non-whitespace. */
  function Words(s: string): (ws: seq<string>)
    ensures forall i :: 0 <= i < |ws| ==> ws[i] != [] && NoSpace(ws[i])
    decreases |s|
  {
    var t := TrimLeft(s);
    if t == [] then []
    else
      var k := TokenLength(t);
      assert k >= 1;
      [t[..k]] + Words(t[k..])
  }

  /** A text has no words exactly when it is all whitespace. */
  lemma WordsEmpty(s: string)
    ensures Words(s) == [] <==> AllSpace(s)
  {
    var t := TrimLeft(s);
    TrimLeftDropsSpace(s);
    if t == [] {
      assert s[..|s|] == s;
    } else {
      assert s[|s| - |t|] == t[0];
    }
  }

  /** `sep.join(parts)`. */
  function Join(sep: string, parts: seq<string>): (r: string)
  {
    if |parts| == 0 then ""
    else if |parts| == 1 then parts[0]
    else parts[0] + sep + Join(sep, parts[1..])
  }

  lemma {:induction false} JoinSingleSpaceWords(w: string)
    requires w != [] && NoSpace(w)
    ensures Words(w) == [w]
  {
    assert TrimLeft(w) == w;
    TokenLengthOfWord(w, "");
    assert w + "" == w;
    assert w[|w|..] == [];
  }

  /** Splitting the words back apart after joining them with single spaces gives the same words. */
  lemma {:induction false} WordsOfJoin(ws: seq<string>)
    requires forall i :: 0 <= i < |ws| ==> ws[i] != [] && NoSpace(ws[i])
    ensures Words(Join(" ", ws)) == ws
  {
    if |ws| == 0 {
    } else if |ws| == 1 {
      JoinSingleSpaceWords(ws[0]);
    } else {
      WordsOfJoin(ws[1..]);
      WordsOfJoinStep(ws);
    }
  }

  /** The inductive step of `WordsOfJoin`: one more word in front. */
  lemma WordsOfJoinStep(ws: seq<string>)
    requires |ws| >= 2 && ws[0] != [] && NoSpace(ws[0])
    requires Words(Join(" ", ws[1..])) == ws[1..]
    ensures Words(Join(" ", ws)) == ws
  {
    var tail := Join(" ", ws[1..]);
    JoinCons(ws);
    WordsOfWordThenSpace(ws[0], tail);
    assert ws == [ws[0]] + ws[1..];
  }

  lemma JoinCons(ws: seq<string>)
    requires |ws| >= 2
    ensures Join(" ", ws) == ws[0] + (" " + Join(" ", ws[1..]))
  {
  }

  /** A word followed by a space and more text splits off as the first word. */
  lemma WordsOfWordThenSpace(w: string, tail: string)
    requires w != [] && NoSpace(w)
    ensures Words(w + (" " + tail)) == [w] + Words(tail)
  {
    var s := w + (" " + tail);
    assert TrimLeft(s) == s;
    var k := TokenLength(s);
    TokenLengthOfWord(w, " " + tail);
    assert s[..k] == w;
    assert s[k..] == " " + tail;
    WordsSkipsSpace(" " + tail);
    assert (" " + tail)[1..] == tail;
  }

  lemma TokenLengthOfWord(w: string, rest: string)
    requires NoSpace(w)
    requires rest == [] || IsSpace(rest[0])
    ensures TokenLength(w + rest) == |w|
    decreases |w|
  {
    if w != [] {
      assert (w + rest)[1..] == w[1..] + rest;
      TokenLengthOfWord(w[1..], rest);
    } else {
      assert w + rest == rest;
    }
  }

  lemma WordsSkipsSpace(s: string)
    requires s != [] && IsSpace(s[0])
    ensures Words(s) == Words(s[1..])
  {
    assert TrimLeft(s) == TrimLeft(s[1..]);
  }

  // ---------------------------------------------------------------------
  // Slicing and previews
  // ---------------------------------------------------------------------

  /** `s[:n] + '...' if len(s) > n else s`, the admin preview rule. */
  function Preview(s: string, n: nat): (r: string)
    ensures |s| <= n ==> r == s
    ensures |s| > n ==> |r| == n + 3 && r[..n] == s[..n] && r[n..] == "..."
  {
    if |s| > n then s[..n] + "..." else s
  }

  /** Python's `s[:n]`. */
  function Take(s: string, n: nat): (r: string)
    ensures |r| == if |s| <= n then |s| else n
    ensures r <= s
  {
    if |s| <= n then s else s[..n]
  }

  // ---------------------------------------------------------------------
  // Case mapping, prefix and substring tests
  // ---------------------------------------------------------------------

  function LowerChar(c: char): char
  {
    if 'A' <= c <= 'Z' then (c as int + 32) as char else c
  }

  function UpperChar(c: char): char
  {
    if 'a' <= c <= 'z' then (c as int - 32) as char else c
  }

  /** ASCII `toLowerCase()` / `lower()`. */
  function Lower(s: string): (r: string)
    ensures |r| == |s|
    ensures forall i :: 0 <= i < |s| ==> r[i] == LowerChar(s[i])
  {
    seq(|s|, i requires 0 <= i < |s| => LowerChar(s[i]))
  }

  /** ASCII `upper()`. */
  function Upper(s: string): (r: string)
    ensures |r| == |s|
    ensures forall i :: 0 <= i < |s| ==> r[i] == UpperChar(s[i])
  {
    seq(|s|, i requires 0 <= i < |s| => UpperChar(s[i]))
  }

  lemma LowerIdempotent(s: string)
    ensures Lower(Lower(s)) == Lower(s)
  {
  }

  /** JavaScript `startsWith`. */
  predicate StartsWith(s: string, prefix: string)
  {
    prefix <= s
  }

  /** JavaScript `includes` / Python `in` on strings: `sub` occurs somewhere in `s`. */
  predicate Contains(s: string, sub: string)
    decreases |s|
  {
    sub <= s || (s != [] && Contains(s[1..], sub))
  }

  /** `sub` occurs in `s` starting at index `i`. */
  predicate OccursAt(s: string, sub: string, i: nat)
  {
    i + |sub| <= |s| && s[i..i + |sub|] == sub
  }

  /** Every occurrence found by `Contains` is at some position ... */
  lemma {:induction false} ContainsHasPosition(s: string, sub: string) returns (i: nat)
    requires Contains(s, sub)
    ensures OccursAt(s, sub, i)
    decreases |s|
  {
    if sub <= s {
      i := 0;
    } else {
      var j := ContainsHasPosition(s[1..], sub);
      assert s[1..][j..j + |sub|] == s[j + 1..j + 1 + |sub|];
      i := j + 1;
    }
  }

  /** ... and every position where `sub` occurs is found by `Contains`. */
  lemma {:induction false} PositionGivesContains(s: string, sub: string, i: nat)
    requires OccursAt(s, sub, i)
    ensures Contains(s, sub)
    decreases i
  {
    if i > 0 {
      assert s[1..][i - 1..i - 1 + |sub|] == s[i..i + |sub|];
      PositionGivesContains(s[1..], sub, i - 1);
    }
  }

  // ---------------------------------------------------------------------
  // Decimal rendering and parsing
  // ---------------------------------------------------------------------

  predicate IsDigit(c: char) { '0' <= c <= '9' }

  function DigitChar(d: nat): char
    requires d < 10
  {
    ('0' as int + d) as char
  }

  /** The value of a decimal digit character (0 for any other character). */
  function DigitValue(c: char): nat
  {
    if IsDigit(c) then c as int - '0' as int else 0
  }

  /** `str(n)` for a natural number. */
  function NatToString(n: nat): (r: string)
    ensures r != [] && forall i :: 0 <= i < |r| ==> IsDigit(r[i])
  {
    if n < 10 then [DigitChar(n)] else NatToString(n / 10) + [DigitChar(n % 10)]
  }

  /** `str(n)` for any integer. */
  function IntToString(n: int): (r: string)
  {
    if n < 0 then "-" + NatToString(-n) else NatToString(n)
  }

  function Zeros(n: nat): (r: string)
    ensures |r| == n && forall i :: 0 <= i < n ==> r[i] == '0'
  {
    if n == 0 then "" else "0" + Zeros(n - 1)
  }

  /** Python's `f"{n:0Wd}"` for a natural number: left-padded with zeros to width `w`. */
  function PadNat(n: nat, w: nat): (r: string)
    ensures |r| == if |NatToString(n)| < w then w else |NatToString(n)|
    ensures r[|r| - |NatToString(n)|..] == NatToString(n)
    ensures forall i :: 0 <= i < |r| - |NatToString(n)| ==> r[i] == '0'
  {
    var d := NatToString(n);
    if |d| < w then Zeros(w - |d|) + d else d
  }

  /** The value of a run of decimal digits. */
  function DigitsValue(s: string): nat
  {
    if s == [] then 0 else DigitsValue(s[..|s| - 1]) * 10 + DigitValue(s[|s| - 1])
  }

  lemma {:induction false} DigitsValueOfNatToString(n: nat)
    ensures DigitsValue(NatToString(n)) == n
  {
    var r := NatToString(n);
    if n >= 10 {
      DigitsValueOfNatToString(n / 10);
      assert r[..|r| - 1] == NatToString(n / 10);
    }
  }

  /**
   * Python's integer literal body: one or more digits, where a single
   * underscore may separate two digits (`1_000`).
   */
  predicate IsDigitGroup(s: string)
  {
    s != [] && IsDigit(s[0]) && GroupTail(s[1..])
  }

  /** What may follow a digit inside a group. */
  predicate GroupTail(s: string)
    decreases |s|
  {
    s == []
    || (IsDigit(s[0]) && GroupTail(s[1..]))
    || (|s| >= 2 && s[0] == '_' && IsDigit(s[1]) && GroupTail(s[2..]))
  }

  /** The digits of a group with the underscores removed. */
  function StripUnderscores(s: string): (r: string)
  {
    if s == [] then ""
    else if s[0] == '_' then StripUnderscores(s[1..])
    else [s[0]] + StripUnderscores(s[1..])
  }

  lemma {:induction false} DigitsGroupTail(s: string)
    requires forall i :: 0 <= i < |s| ==> IsDigit(s[i])
    ensures GroupTail(s) && StripUnderscores(s) == s
  {
    if s != [] {
      DigitsGroupTail(s[1..]);
    }
  }

  /** A non-empty run of digits is a group, and removing underscores leaves it unchanged. */
  lemma DigitsAreGroup(s: string)
    requires s != [] && forall i :: 0 <= i < |s| ==> IsDigit(s[i])
    ensures IsDigitGroup(s) && StripUnderscores(s) == s
  {
    DigitsGroupTail(s[1..]);
  }

  /**
   * Python's `int(text)` in base 10: surrounding whitespace is ignored, an
   * optional sign is allowed, and anything else raises ValueError (None).
   */
  function ParseInt(text: string): (r: Option<int>)
  {
    ParseSigned(Strip(text))
  }

  /** An optionally signed digit group, with no surrounding whitespace. */
  predicate SignedLiteral(t: string)
  {
    IsDigitGroup(t) || (|t| > 0 && (t[0] == '-' || t[0] == '+') && IsDigitGroup(t[1..]))
  }

  function ParseSigned(t: string): (r: Option<int>)
  {
    if |t| > 0 && (t[0] == '-' || t[0] == '+') then
      if IsDigitGroup(t[1..]) then
        var v: int := DigitsValue(StripUnderscores(t[1..]));
        Some(if t[0] == '-' then -v else v)
      else None
    else if IsDigitGroup(t) then Some(DigitsValue(StripUnderscores(t)))
    else None
  }

  lemma DigitsAreNotSpace(s: string)
    requires forall i :: 0 <= i < |s| ==> IsDigit(s[i])
    ensures NoSpace(s)
  {
  }

  // A negative literal is described below by its sign and its tail rather
  // than as a concatenation: that keeps these proofs small.

  lemma StripDigits(d: string)
    requires d != [] && forall i :: 0 <= i < |d| ==> IsDigit(d[i])
    ensures Strip(d) == d
  {
    DigitsAreNotSpace(d);
    StripNoOuterSpace(d);
  }

  lemma StripNegDigits(d: string, t: string)
    requires d != [] && forall i :: 0 <= i < |d| ==> IsDigit(d[i])
    requires |t| == |d| + 1 && t[0] == '-' && t[1..] == d
    ensures Strip(t) == t
  {
    assert t[|t| - 1] == d[|d| - 1];
    StripNoOuterSpace(t);
  }

  lemma ParseIntOfStripped(t: string)
    requires Strip(t) == t
    ensures ParseInt(t) == ParseSigned(t)
  {
  }

  lemma ParseSignedUnsigned(t: string)
    requires IsDigitGroup(t)
    ensures ParseSigned(t) == Some(DigitsValue(StripUnderscores(t)))
  {
  }

  lemma ParseSignedNegative(t: string)
    requires |t| > 0 && t[0] == '-' && IsDigitGroup(t[1..])
    ensures ParseSigned(t) == Some(-(DigitsValue(StripUnderscores(t[1..])) as int))
  {
  }

  /** `int()` reads a run of digits as its value ... */
  lemma ParseIntDigits(d: string)
    requires d != [] && forall i :: 0 <= i < |d| ==> IsDigit(d[i])
    ensures ParseInt(d) == Some(DigitsValue(d))
  {
    StripDigits(d);
    ParseIntOfStripped(d);
    DigitsAreGroup(d);
    ParseSignedUnsigned(d);
  }

  /** A minus sign followed by digits is a negative literal ... */
  lemma SignedNegDigits(d: string, t: string)
    requires d != [] && forall i :: 0 <= i < |d| ==> IsDigit(d[i])
    requires |t| == |d| + 1 && t[0] == '-' && t[1..] == d
    ensures ParseSigned(t) == Some(-(DigitsValue(d) as int))
  {
    DigitsAreGroup(d);
    ParseSignedNegative(t);
  }

  /** ... which `int()` reads as the negated value. */
  lemma ParseIntNegDigits(d: string, t: string)
    requires d != [] && forall i :: 0 <= i < |d| ==> IsDigit(d[i])
    requires |t| == |d| + 1 && t[0] == '-' && t[1..] == d
    ensures ParseInt(t) == Some(-(DigitsValue(d) as int))
  {
    StripNegDigits(d, t);
    ParseIntOfStripped(t);
    SignedNegDigits(d, t);
  }

  /** `int(str(n)) == n`. */
  lemma ParseIntOfIntToString(n: int)
    ensures ParseInt(IntToString(n)) == Some(n)
  {
    var m: nat := if n < 0 then -n else n;
    var d := NatToString(m);
    var t := IntToString(n);
    DigitsValueOfNatToString(m);
    if n < 0 {
      assert t[1..] == d;
      ParseIntNegDigits(d, t);
    } else {
      ParseIntDigits(d);
    }
  }
}
