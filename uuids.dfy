// The textual form of UUIDs. Every `UUIDField` of the backend, the
// serializer fields of the REST layer as much as the model fields behind
// `Model.objects.get(id=...)`, turns its input into a UUID with Python's
// `uuid.UUID(text)`, so a text names a row exactly when it parses, and it
// names the row whose canonical spelling it parses to. Stored ids are kept in
// that canonical spelling: 32 lower-case hex digits hyphenated 8-4-4-4-12.

module Uuids {
  import opened Wrappers
  import opened Text

  predicate IsHexDigit(c: char)
  {
    '0' <= c <= '9' || 'a' <= c <= 'f' || 'A' <= c <= 'F'
  }

  predicate IsLowerHex(c: char)
  {
    '0' <= c <= '9' || 'a' <= c <= 'f'
  }

  /** The positions the canonical spelling gives to its hyphens. */
  predicate IsHyphenPosition(i: int)
  {
    i == 8 || i == 13 || i == 18 || i == 23
  }

  /** The canonical spelling `str(uuid)`. */
  predicate IsCanonical(c: string)
  {
    |c| == 36
    && (forall i :: 0 <= i < 36 && IsHyphenPosition(i) ==> c[i] == '-')
    && (forall i :: 0 <= i < 36 && !IsHyphenPosition(i) ==> IsLowerHex(c[i]))
  }

  /** The 8-4-4-4-12 hyphenated spelling in either case, which the
      serializer fields accept besides the canonical one. */
  predicate IsHyphenated(c: string)
  {
    |c| == 36
    && (forall i :: 0 <= i < 36 && IsHyphenPosition(i) ==> c[i] == '-')
    && (forall i :: 0 <= i < 36 && !IsHyphenPosition(i) ==> IsHexDigit(c[i]))
  }

  /** Python's `s.replace(pat, "")`: occurrences are removed left to right
      and the text after each removal is not searched again. */
  function RemoveAll(s: string, pat: string): (r: string)
    requires pat != []
    ensures |r| <= |s|
    decreases |s|
  {
    if |s| < |pat| then s
    else if s[..|pat|] == pat then RemoveAll(s[|pat|..], pat)
    else [s[0]] + RemoveAll(s[1..], pat)
  }

  /** Python's `s.replace(c, "")` for a single character. */
  function RemoveChar(s: string, c: char): (r: string)
    ensures |r| <= |s|
  {
    if s == [] then []
    else (if s[0] == c then [] else [s[0]]) + RemoveChar(s[1..], c)
  }

  function TrimLeftBraces(s: string): (r: string)
    ensures |r| <= |s|
  {
    if s != [] && (s[0] == '{' || s[0] == '}') then TrimLeftBraces(s[1..]) else s
  }

  function TrimRightBraces(s: string): (r: string)
    ensures |r| <= |s|
  {
    if s != [] && (s[|s| - 1] == '{' || s[|s| - 1] == '}') then TrimRightBraces(s[..|s| - 1]) else s
  }

  /** Python's `s.strip('{}')`. */
  function StripBraces(s: string): (r: string)
    ensures |r| <= |s|
  {
    TrimRightBraces(TrimLeftBraces(s))
  }

  /** Hex digits, each `_` between two of them. */
  predicate HexGroupTail(s: string)
    decreases |s|
  {
    s == []
    || (IsHexDigit(s[0]) && HexGroupTail(s[1..]))
    || (|s| >= 2 && s[0] == '_' && IsHexDigit(s[1]) && HexGroupTail(s[2..]))
  }

  /** A literal `int(v, 16)` reads once its prefix is gone. */
  predicate IsHexGroup(s: string)
  {
    s != [] && IsHexDigit(s[0]) && HexGroupTail(s[1..])
  }

  /** What the underscores of a hex group leave is hex digits. */
  lemma {:induction false} HexGroupTailDigits(s: string)
    requires HexGroupTail(s)
    ensures |StripUnderscores(s)| <= |s|
    ensures forall i :: 0 <= i < |StripUnderscores(s)| ==> IsHexDigit(StripUnderscores(s)[i])
    decreases |s|
  {
    if s == [] {
    } else if IsHexDigit(s[0]) && HexGroupTail(s[1..]) {
      HexGroupTailDigits(s[1..]);
    } else {
      HexGroupTailDigits(s[2..]);
      assert s[1..][1..] == s[2..];
    }
  }

  /** What `int(t, 16)` reads as digits once `t` is stripped: an optional
      `+`, then an optional `0x` or `0X` that may be followed by one `_`, are
      dropped. The texts given here have lost their hyphens, so the `-` sign
      does not arise. */
  function DropSignAndPrefix(t: string): (v: string)
    ensures |v| <= |t|
  {
    var u := if |t| > 0 && t[0] == '+' then t[1..] else t;
    if |u| >= 2 && u[0] == '0' && (u[1] == 'x' || u[1] == 'X') then
      (if |u| >= 3 && u[2] == '_' then u[3..] else u[2..])
    else u
  }

  /** The digits a hex group stands for, lower-cased. */
  lemma HexGroupDigits(v: string)
    requires IsHexGroup(v)
    ensures var d := Lower(StripUnderscores(v));
      0 < |d| <= |v| && forall i :: 0 <= i < |d| ==> IsLowerHex(d[i])
  {
    HexGroupTailDigits(v[1..]);
    assert StripUnderscores(v) == [v[0]] + StripUnderscores(v[1..]);
  }

  /** The digits `int(h, 16)` reads from `h`, lower-cased and without
      underscores, or None where it raises `ValueError`: outer whitespace
      and the sign and prefix go, and a hex group must remain. */
  function HexDigitsOf(h: string): (r: Option<string>)
    ensures r.Some? ==> 0 < |r.value| <= |h|
    ensures r.Some? ==> forall i :: 0 <= i < |r.value| ==> IsLowerHex(r.value[i])
  {
    var v := DropSignAndPrefix(Strip(h));
    if IsHexGroup(v) then
      HexGroupDigits(v);
      Some(Lower(StripUnderscores(v)))
    else None
  }

  function Hyphenate(d: string): (c: string)
    requires |d| == 32
    ensures |c| == 36
  {
    d[..8] + "-" + d[8..12] + "-" + d[12..16] + "-" + d[16..20] + "-" + d[20..]
  }

  /** Where each character of `Hyphenate(d)` comes from. */
  lemma HyphenateAt(d: string, i: int)
    requires |d| == 32 && 0 <= i < 36
    ensures IsHyphenPosition(i) ==> Hyphenate(d)[i] == '-'
    ensures 0 <= i < 8 ==> Hyphenate(d)[i] == d[i]
    ensures 8 < i < 13 ==> Hyphenate(d)[i] == d[i - 1]
    ensures 13 < i < 18 ==> Hyphenate(d)[i] == d[i - 2]
    ensures 18 < i < 23 ==> Hyphenate(d)[i] == d[i - 3]
    ensures 23 < i ==> Hyphenate(d)[i] == d[i - 4]
  {
  }

  /** 32 lower-case hex digits, hyphenated, are a canonical spelling. */
  lemma HyphenateCanonical(p: string)
    requires |p| == 32 && forall k :: 0 <= k < 32 ==> IsLowerHex(p[k])
    ensures IsCanonical(Hyphenate(p))
  {
    forall i | 0 <= i < 36 {
      HyphenateAt(p, i);
    }
  }

  /** The canonical spelling of the UUID with the given digits. */
  function Spelled(d: string): (c: string)
    requires 0 < |d| <= 32 && forall i :: 0 <= i < |d| ==> IsLowerHex(d[i])
    ensures IsCanonical(c)
  {
    var p := Zeros(32 - |d|) + d;
    assert forall k :: 0 <= k < 32 ==> IsLowerHex(p[k]) by {
      forall k | 0 <= k < 32
        ensures IsLowerHex(p[k])
      {
        if k < 32 - |d| {
          assert p[k] == '0';
        } else {
          assert p[k] == d[k - (32 - |d|)];
        }
      }
    }
    HyphenateCanonical(p);
    Hyphenate(p)
  }

  /** `str(uuid.UUID(s))`, or None where the constructor raises
      `ValueError`: `urn:` and `uuid:` are removed, then outer braces, then
      every hyphen; 32 characters must remain, and they must be a base-16
      literal, whose value is written back as 32 digits. */
  function ParseUuid(s: string): (r: Option<string>)
    ensures r.Some? ==> IsCanonical(r.value)
  {
    var h := RemoveChar(StripBraces(RemoveAll(RemoveAll(s, "urn:"), "uuid:")), '-');
    if |h| != 32 then None
    else match HexDigitsOf(h)
      case None => None
      case Some(d) => Some(Spelled(d))
  }

  lemma {:induction false} RemoveAllWithout(s: string, pat: string, k: nat)
    requires pat != [] && k < |pat|
    requires forall i :: 0 <= i < |s| ==> s[i] != pat[k]
    ensures RemoveAll(s, pat) == s
    decreases |s|
  {
    if |s| >= |pat| {
      assert s[..|pat|][k] == s[k];
      RemoveAllWithout(s[1..], pat, k);
      assert s == [s[0]] + s[1..];
    }
  }

  lemma {:induction false} RemoveCharWithout(s: string, c: char)
    requires forall i :: 0 <= i < |s| ==> s[i] != c
    ensures RemoveChar(s, c) == s
  {
    if s != [] {
      RemoveCharWithout(s[1..], c);
      assert s == [s[0]] + s[1..];
    }
  }

  lemma {:induction false} RemoveCharAppend(a: string, b: string, c: char)
    ensures RemoveChar(a + b, c) == RemoveChar(a, c) + RemoveChar(b, c)
  {
    if a == [] {
      assert a + b == b;
    } else {
      var head := if a[0] == c then [] else [a[0]];
      assert (a + b)[0] == a[0];
      assert (a + b)[1..] == a[1..] + b;
      calc {
        RemoveChar(a + b, c);
        head + RemoveChar(a[1..] + b, c);
        { RemoveCharAppend(a[1..], b, c); }
        head + (RemoveChar(a[1..], c) + RemoveChar(b, c));
        (head + RemoveChar(a[1..], c)) + RemoveChar(b, c);
      }
    }
  }

  lemma {:induction false} HexGroupOfDigits(s: string)
    requires forall i :: 0 <= i < |s| ==> IsHexDigit(s[i])
    ensures HexGroupTail(s)
    ensures StripUnderscores(s) == s
  {
    if s != [] {
      HexGroupOfDigits(s[1..]);
      assert s == [s[0]] + s[1..];
    }
  }

  /** The hex digits of a hyphenated spelling. */
  function Digits(s: string): (d: string)
    requires |s| == 36
    ensures |d| == 32
  {
    s[..8] + s[9..13] + s[14..18] + s[19..23] + s[24..]
  }

  /** A hyphenated spelling has nothing for `replace` and `strip('{}')`
      to remove. */
  lemma HyphenatedHasNoMarkers(s: string)
    requires IsHyphenated(s)
    ensures StripBraces(RemoveAll(RemoveAll(s, "urn:"), "uuid:")) == s
  {
    assert forall i :: 0 <= i < |s| ==> s[i] != ':' && s[i] != '{' && s[i] != '}' by {
      forall i | 0 <= i < |s|
        ensures s[i] != ':' && s[i] != '{' && s[i] != '}'
      {
        if IsHyphenPosition(i) {
          assert s[i] == '-';
        } else {
          assert IsHexDigit(s[i]);
        }
      }
    }
    RemoveAllWithout(s, "urn:", 3);
    RemoveAllWithout(s, "uuid:", 4);
    assert TrimLeftBraces(s) == s;
  }

  predicate NoHyphen(s: string)
  {
    forall i :: 0 <= i < |s| ==> s[i] != '-'
  }

  /** A run of digit positions of a hyphenated spelling holds no hyphen. */
  lemma HexRunWithoutHyphen(s: string, lo: int, hi: int)
    requires IsHyphenated(s) && 0 <= lo <= hi <= 36
    requires forall i :: lo <= i < hi ==> !IsHyphenPosition(i)
    ensures NoHyphen(s[lo..hi])
  {
    forall i | 0 <= i < hi - lo
      ensures s[lo..hi][i] != '-'
    {
      assert s[lo..hi][i] == s[lo + i];
      assert IsHexDigit(s[lo + i]);
    }
  }

  /** Removing hyphens from a hyphen-free text, a hyphen and the rest. */
  lemma RemoveHyphenAfter(a: string, rest: string)
    requires NoHyphen(a)
    ensures RemoveChar(a + ("-" + rest), '-') == a + RemoveChar(rest, '-')
  {
    RemoveCharWithout(a, '-');
    RemoveCharAppend(a, "-" + rest, '-');
    assert ("-" + rest)[0] == '-' && ("-" + rest)[1..] == rest;
  }

  /** Removing the hyphens between five hyphen-free runs joins the runs. */
  lemma RemoveHyphensBetween(a: string, b: string, c: string, d: string, e: string)
    requires NoHyphen(a) && NoHyphen(b) && NoHyphen(c) && NoHyphen(d) && NoHyphen(e)
    ensures RemoveChar(a + ("-" + (b + ("-" + (c + ("-" + (d + ("-" + e))))))), '-') == a + (b + (c + (d + e)))
  {
    RemoveCharWithout(e, '-');
    RemoveHyphenAfter(d, e);
    RemoveHyphenAfter(c, d + ("-" + e));
    RemoveHyphenAfter(b, c + ("-" + (d + ("-" + e))));
    RemoveHyphenAfter(a, b + ("-" + (c + ("-" + (d + ("-" + e))))));
  }

  /** Where each character of `Digits(s)` comes from. */
  lemma DigitsAt(s: string, i: int)
    requires |s| == 36 && 0 <= i < 32
    ensures 0 <= i < 8 ==> Digits(s)[i] == s[i]
    ensures 8 <= i < 12 ==> Digits(s)[i] == s[i + 1]
    ensures 12 <= i < 16 ==> Digits(s)[i] == s[i + 2]
    ensures 16 <= i < 20 ==> Digits(s)[i] == s[i + 3]
    ensures 20 <= i ==> Digits(s)[i] == s[i + 4]
  {
  }

  /** The digits of a hyphenated spelling are hex digits. */
  lemma DigitsAreHex(s: string)
    requires IsHyphenated(s)
    ensures forall i :: 0 <= i < 32 ==> IsHexDigit(Digits(s)[i])
  {
    forall i | 0 <= i < 32
      ensures IsHexDigit(Digits(s)[i])
    {
      DigitsAt(s, i);
      var j := if i < 8 then i else if i < 12 then i + 1 else if i < 16 then i + 2
               else if i < 20 then i + 3 else i + 4;
      assert !IsHyphenPosition(j) && Digits(s)[i] == s[j];
    }
  }

  /** Removing the hyphens of a hyphenated spelling leaves its digits. */
  lemma DehyphenateHyphenated(s: string)
    requires IsHyphenated(s)
    ensures RemoveChar(s, '-') == Digits(s)
  {
    HexRunWithoutHyphen(s, 0, 8);
    HexRunWithoutHyphen(s, 9, 13);
    HexRunWithoutHyphen(s, 14, 18);
    HexRunWithoutHyphen(s, 19, 23);
    HexRunWithoutHyphen(s, 24, 36);
    assert IsHyphenPosition(8) && IsHyphenPosition(13) && IsHyphenPosition(18) && IsHyphenPosition(23);
    assert s[24..36] == s[24..];
    DehyphenateRuns(s);
  }

  /** The text from `lo` splits at the hyphen at `i`. */
  lemma SplitAtHyphen(s: string, lo: int, i: int)
    requires 0 <= lo <= i < |s| && s[i] == '-'
    ensures s[lo..] == s[lo..i] + ("-" + s[i + 1..])
  {
  }

  /** Five hyphen-free runs of 8, 4, 4, 4 and 12 characters, joined by hyphens, lose their hyphens. */
  lemma DehyphenateRuns(s: string)
    requires |s| == 36 && s[8] == '-' && s[13] == '-' && s[18] == '-' && s[23] == '-'
    requires NoHyphen(s[..8]) && NoHyphen(s[9..13]) && NoHyphen(s[14..18]) && NoHyphen(s[19..23]) && NoHyphen(s[24..])
    ensures RemoveChar(s, '-') == Digits(s)
  {
    SplitAtHyphen(s, 0, 8);
    SplitAtHyphen(s, 9, 13);
    SplitAtHyphen(s, 14, 18);
    SplitAtHyphen(s, 19, 23);
    assert s[0..] == s && s[0..8] == s[..8];
    RemoveHyphensBetween(s[..8], s[9..13], s[14..18], s[19..23], s[24..]);
    assert Digits(s) == s[..8] + (s[9..13] + (s[14..18] + (s[19..23] + s[24..])));
  }

  /** 32 hex digits are read by `int(h, 16)` as they stand. */
  lemma HexDigitsOfDigits(d: string)
    requires |d| == 32 && forall i :: 0 <= i < 32 ==> IsHexDigit(d[i])
    ensures HexDigitsOf(d) == Some(Lower(d))
  {
    assert !IsSpace(d[0]) && !IsSpace(d[31]);
    StripNoOuterSpace(d);
    assert d[0] != '+' && d[1] != 'x' && d[1] != 'X';
    assert DropSignAndPrefix(d) == d;
    HexGroupOfDigits(d[1..]);
    assert StripUnderscores(d) == [d[0]] + StripUnderscores(d[1..]);
    assert d == [d[0]] + d[1..];
  }

  /** Lower-casing commutes with taking the digits and hyphenating them. */
  lemma HyphenateLowerDigits(s: string)
    requires IsHyphenated(s)
    ensures Hyphenate(Lower(Digits(s))) == Lower(s)
  {
    var h := Hyphenate(Lower(Digits(s)));
    forall i | 0 <= i < 36
      ensures h[i] == Lower(s)[i]
    {
      HyphenateAt(Lower(Digits(s)), i);
    }
  }

  /** The 8-4-4-4-12 spelling in either case names the UUID whose
      canonical spelling is its lower-case form. */
  lemma ParseHyphenated(s: string)
    requires IsHyphenated(s)
    ensures ParseUuid(s) == Some(Lower(s))
  {
    HyphenatedHasNoMarkers(s);
    DehyphenateHyphenated(s);
    DigitsAreHex(s);
    HexDigitsOfDigits(Digits(s));
    HyphenateLowerDigits(s);
    assert Zeros(0) + Lower(Digits(s)) == Lower(Digits(s));
  }

  /** A canonical spelling parses to itself. */
  lemma CanonicalRoundTrip(c: string)
    requires IsCanonical(c)
    ensures ParseUuid(c) == Some(c)
  {
    ParseHyphenated(c);
    assert Lower(c) == c;
  }

  /** Writing a parsed id back and parsing it again gives the same id. */
  lemma ParseUuidIdempotent(s: string)
    ensures ParseUuid(s).Some? ==> ParseUuid(ParseUuid(s).value) == ParseUuid(s)
  {
    if ParseUuid(s).Some? {
      CanonicalRoundTrip(ParseUuid(s).value);
    }
  }

  /** The upper-case spelling of a UUID names the same one. */
  lemma UpperCaseNamesSame(c: string)
    requires IsCanonical(c)
    ensures ParseUuid(Upper(c)) == Some(c)
  {
    var u := Upper(c);
    assert IsHyphenated(u) by {
      forall i | 0 <= i < 36
        ensures IsHyphenPosition(i) ==> u[i] == '-'
        ensures !IsHyphenPosition(i) ==> IsHexDigit(u[i])
      {
        assert u[i] == UpperChar(c[i]);
      }
    }
    assert Lower(u) == c by {
      forall i | 0 <= i < 36
        ensures Lower(u)[i] == c[i]
      {
        assert u[i] == UpperChar(c[i]);
      }
    }
    ParseHyphenated(u);
    assert Lower(u) == c;
  }
}
