/** The few Python `str` operations the monitor relies on, written out over
    `seq<char>`: `strip()`, `lstrip(c)`, `lower()`, `upper()`, `startswith`,
    the slices `s[:n]` and `s[-n:]`, `sep.join(parts)`, `str(int)` and the
    thousands grouping of `format(x, ',')`. */
module PyStr {

  /** CPython's `str.isspace()`: the characters `strip()` with no argument removes. */
  predicate IsSpace(c: char) {
    c == ' ' || ('\t' <= c <= '\r') || ('\U{1C}' <= c <= '\U{1F}')
    || c == '\U{85}' || c == '\U{A0}' || c == '\U{1680}'
    || ('\U{2000}' <= c <= '\U{200A}') || c == '\U{2028}' || c == '\U{2029}'
    || c == '\U{202F}' || c == '\U{205F}' || c == '\U{3000}'
  }

  /** Number of leading characters of `s` that satisfy `IsSpace`. */
  function LeadingSpaces(s: string): (n: nat)
    ensures n <= |s|
    ensures forall k :: 0 <= k < n ==> IsSpace(s[k])
    ensures n < |s| ==> !IsSpace(s[n])
  {
    if s == [] || !IsSpace(s[0]) then 0 else 1 + LeadingSpaces(s[1..])
  }

  /** Number of trailing characters of `s` that satisfy `IsSpace`. */
  function TrailingSpaces(s: string): (n: nat)
    ensures n <= |s|
    ensures forall k :: |s| - n <= k < |s| ==> IsSpace(s[k])
    ensures n < |s| ==> !IsSpace(s[|s| - 1 - n])
  {
    if s == [] || !IsSpace(s[|s| - 1]) then 0 else 1 + TrailingSpaces(s[..|s| - 1])
  }

  /** `s.strip()`: the longest slice of `s` that neither starts nor ends with
      whitespace, obtained by removing only whitespace from both ends. */
  function Strip(s: string): (r: string)
    ensures |r| <= |s|
    ensures r != [] ==> !IsSpace(r[0]) && !IsSpace(r[|r| - 1])
    ensures LeadingSpaces(s) + |r| <= |s|
    ensures r == s[LeadingSpaces(s)..LeadingSpaces(s) + |r|]
    ensures forall k :: LeadingSpaces(s) + |r| <= k < |s| ==> IsSpace(s[k])
  {
    var lead := LeadingSpaces(s);
    var rest := s[lead..];
    var trail := TrailingSpaces(rest);
    var r := rest[..|rest| - trail];
    assert r == s[lead..lead + |r|];
    r
  }

  /** `s.lstrip(c)`: `s` without its leading run of `c`. */
  function LStripChar(s: string, c: char): (r: string)
    ensures |r| <= |s| && r == s[|s| - |r|..]
    ensures forall k :: 0 <= k < |s| - |r| ==> s[k] == c
    ensures r != [] ==> r[0] != c
  {
    if s == [] || s[0] != c then s else LStripChar(s[1..], c)
  }

  function LowerChar(c: char): char {
    if 'A' <= c <= 'Z' then (c as int + 32) as char else c
  }

  function UpperChar(c: char): char {
    if 'a' <= c <= 'z' then (c as int - 32) as char else c
  }

  /** `s.lower()`, restricted to the ASCII letters. */
  function Lower(s: string): (r: string)
    ensures |r| == |s|
    ensures forall k :: 0 <= k < |s| ==> !('A' <= r[k] <= 'Z')
    // each upper-case letter becomes its lower-case letter, every other character stays
    ensures forall k :: 0 <= k < |s| ==>
              if 'A' <= s[k] <= 'Z' then r[k] as int == s[k] as int + 32 else r[k] == s[k]
  {
    seq(|s|, k requires 0 <= k < |s| => LowerChar(s[k]))
  }

  /** `s.upper()`, restricted to the ASCII letters. */
  function Upper(s: string): (r: string)
    ensures |r| == |s|
    ensures forall k :: 0 <= k < |s| ==> !('a' <= r[k] <= 'z')
    // each lower-case letter becomes its upper-case letter, every other character stays
    ensures forall k :: 0 <= k < |s| ==>
              if 'a' <= s[k] <= 'z' then r[k] as int == s[k] as int - 32 else r[k] == s[k]
  {
    seq(|s|, k requires 0 <= k < |s| => UpperChar(s[k]))
  }

  /** Lower-casing forgets ASCII case: a text and its upper-cased form give
      the same key, so two `coinType`s that differ only in case are one token. */
  lemma LowerUpper(s: string)
    ensures Lower(Upper(s)) == Lower(s)
  {
    forall k | 0 <= k < |s| ensures Lower(Upper(s))[k] == Lower(s)[k] {
      assert Upper(s)[k] == UpperChar(s[k]);
    }
  }

  /** Upper-casing forgets ASCII case in the same way. */
  lemma UpperLower(s: string)
    ensures Upper(Lower(s)) == Upper(s)
  {
    forall k | 0 <= k < |s| ensures Upper(Lower(s))[k] == Upper(s)[k] {
      assert Lower(s)[k] == LowerChar(s[k]);
    }
  }

  /** Lower-casing twice is lower-casing once: `save_posted_token` and
      `is_token_posted` lower a key that the caller already lowered. */
  lemma LowerIdempotent(s: string)
    ensures Lower(Lower(s)) == Lower(s)
  {
    forall k | 0 <= k < |s| ensures Lower(Lower(s))[k] == Lower(s)[k] {
      assert Lower(s)[k] == LowerChar(s[k]);
    }
  }

  predicate StartsWith(s: string, prefix: string) {
    |prefix| <= |s| && s[..|prefix|] == prefix
  }

  predicate EndsWith(s: string, suffix: string) {
    |suffix| <= |s| && s[|s| - |suffix|..] == suffix
  }

  function Min(a: nat, b: nat): nat { if a <= b then a else b }

  /** `s[:n]`: the first `n` elements, or all of `s` when it is shorter. */
  function Take<T>(s: seq<T>, n: nat): (r: seq<T>)
    ensures |r| == Min(n, |s|) && r == s[..|r|]
  {
    s[..Min(n, |s|)]
  }

  /** `s[-n:]` for `n > 0`: the last `n` elements, or all of `s` when it is shorter. */
  function TakeLast<T>(s: seq<T>, n: nat): (r: seq<T>)
    ensures |r| == Min(n, |s|) && r == s[|s| - |r|..]
  {
    s[|s| - Min(n, |s|)..]
  }

  /** `sep.join(parts)`. */
  function Join(parts: seq<string>, sep: string): string {
    if parts == [] then ""
    else if |parts| == 1 then parts[0]
    else parts[0] + sep + Join(parts[1..], sep)
  }

  predicate IsDigit(c: char) { '0' <= c <= '9' }

  function DigitChar(d: nat): char
    requires d < 10
  {
    ('0' as int + d) as char
  }

  function DigitValue(c: char): nat
    requires IsDigit(c)
  {
    c as int - '0' as int
  }

  /** The decimal digits of `n`, most significant first, with no leading zeros. */
  function Digits(n: nat): (r: string)
    ensures r != [] && forall k :: 0 <= k < |r| ==> IsDigit(r[k])
    ensures |r| > 1 ==> r[0] != '0'
  {
    if n < 10 then [DigitChar(n)] else Digits(n / 10) + [DigitChar(n % 10)]
  }

  /** The number a digit string denotes. */
  function DecimalValue(ds: string): nat
    requires forall k :: 0 <= k < |ds| ==> IsDigit(ds[k])
  {
    if ds == [] then 0 else DecimalValue(ds[..|ds| - 1]) * 10 + DigitValue(ds[|ds| - 1])
  }

  /** `Digits` is a faithful rendering: reading the digits back gives `n`. */
  lemma {:induction false} DigitsRoundTrip(n: nat)
    ensures DecimalValue(Digits(n)) == n
  {
    if n >= 10 {
      DigitsRoundTrip(n / 10);
      var ds := Digits(n);
      assert ds[..|ds| - 1] == Digits(n / 10);
    }
  }

  /** `str(i)` for a Python int. */
  function IntToStr(i: int): string {
    if i < 0 then "-" + Digits(-i) else Digits(i)
  }

  /** Commas inserted between groups of three characters, counted from the right. */
  function Group(ds: string): string
    decreases |ds|
  {
    if |ds| <= 3 then ds else Group(ds[..|ds| - 3]) + "," + ds[|ds| - 3..]
  }

  /** `s` with every comma removed. */
  function Ungroup(s: string): (r: string)
    ensures |r| <= |s|
  {
    if s == [] then [] else (if s[0] == ',' then [] else [s[0]]) + Ungroup(s[1..])
  }

  lemma {:induction false} UngroupAppend(a: string, b: string)
    ensures Ungroup(a + b) == Ungroup(a) + Ungroup(b)
  {
    if a != [] {
      var head := if a[0] == ',' then [] else [a[0]];
      assert (a + b)[0] == a[0] && (a + b)[1..] == a[1..] + b;
      UngroupAppend(a[1..], b);
      assert Ungroup(a + b) == head + (Ungroup(a[1..]) + Ungroup(b));
      assert Ungroup(a) == head + Ungroup(a[1..]);
    } else {
      assert a + b == b;
    }
  }

  lemma {:induction false} UngroupNoCommas(s: string)
    requires forall k :: 0 <= k < |s| ==> s[k] != ','
    ensures Ungroup(s) == s
  {
    if s != [] {
      UngroupNoCommas(s[1..]);
    }
  }

  /** Removing commas drops the one that joins two groups. */
  lemma UngroupJoin(a: string, b: string)
    ensures Ungroup(a + "," + b) == Ungroup(a) + Ungroup(b)
  {
    assert Ungroup(",") == [] by {
      assert ","[1..] == [];
    }
    UngroupAppend(a + ",", b);
    UngroupAppend(a, ",");
  }

  /** Grouping only inserts commas: removing them gives back a comma-free input. */
  lemma {:induction false} UngroupGroup(ds: string)
    requires forall k :: 0 <= k < |ds| ==> ds[k] != ','
    ensures Ungroup(Group(ds)) == ds
    decreases |ds|
  {
    if |ds| <= 3 {
      UngroupNoCommas(ds);
    } else {
      var front, back := ds[..|ds| - 3], ds[|ds| - 3..];
      assert Group(ds) == Group(front) + "," + back;
      forall k | 0 <= k < |front| ensures front[k] != ',' {
        assert front[k] == ds[k];
      }
      forall k | 0 <= k < |back| ensures back[k] != ',' {
        assert back[k] == ds[|ds| - 3 + k];
      }
      UngroupGroup(front);
      UngroupNoCommas(back);
      UngroupJoin(Group(front), back);
      assert front + back == ds;
    }
  }

  /** Commas stand exactly at every fourth place counted from the right end:
      after the last three characters, then after every three before them. */
  predicate CommaPlaced(g: string) {
    forall k :: 0 <= k < |g| ==> (g[k] == ',' <==> (|g| - k) % 4 == 0)
  }

  /** `g` is `ds` written in comma groups: the first group has one to three
      characters and every later group exactly three. */
  predicate WellGrouped(g: string, ds: string) {
    Ungroup(g) == ds && CommaPlaced(g) && (g != [] ==> g[0] != ',')
  }

  /** A comma and one more group of three, appended to a text whose
      commas are placed, keep them placed. */
  lemma CommaPlacedJoin(g: string, back: string)
    requires CommaPlaced(g) && |back| == 3 && forall k :: 0 <= k < 3 ==> back[k] != ','
    ensures CommaPlaced(g + "," + back)
  {
    var r := g + "," + back;
    forall k | 0 <= k < |r| ensures r[k] == ',' <==> (|r| - k) % 4 == 0 {
      if k < |g| {
        assert r[k] == g[k];
        assert |r| - k == (|g| - k) + 4;
      } else if k > |g| {
        assert r[k] == back[k - |g| - 1];
      }
    }
  }

  /** Where `Group` puts its commas, and how long the result is. */
  lemma {:induction false} GroupPlacesCommas(ds: string)
    requires forall k :: 0 <= k < |ds| ==> ds[k] != ','
    ensures CommaPlaced(Group(ds))
    ensures ds != [] ==> Group(ds)[0] == ds[0]
    ensures |Group(ds)| == |ds| + (if ds == [] then 0 else (|ds| - 1) / 3)
    decreases |ds|
  {
    if |ds| > 3 {
      var front, back := ds[..|ds| - 3], ds[|ds| - 3..];
      assert forall k :: 0 <= k < |front| ==> front[k] == ds[k];
      assert forall k :: 0 <= k < 3 ==> back[k] == ds[|ds| - 3 + k];
      GroupPlacesCommas(front);
      assert Group(ds) == Group(front) + "," + back;
      CommaPlacedJoin(Group(front), back);
      assert (|ds| - 1) / 3 == (|front| - 1) / 3 + 1;
    }
  }

  /** `Group` writes a comma-free text in comma groups. */
  lemma GroupWellGrouped(ds: string)
    requires forall k :: 0 <= k < |ds| ==> ds[k] != ','
    ensures WellGrouped(Group(ds), ds)
  {
    GroupPlacesCommas(ds);
    UngroupGroup(ds);
  }

  /** `format(i, ',')` for a Python int: the sign, then the digits in comma groups. */
  function GroupInt(i: int): (r: string)
    ensures Ungroup(r) == IntToStr(i)
    ensures r != [] && (r[0] == '-' <==> i < 0)
  {
    var sign := if i < 0 then "-" else "";
    var ds := if i < 0 then Digits(-i) else Digits(i);
    UngroupGroup(ds);
    UngroupAppend(sign, Group(ds));
    UngroupNoCommas(sign);
    sign + Group(ds)
  }

  /** After the sign, `format(i, ',')` is the digits of `i` in comma groups:
      where the commas go, not only that removing them gives `str(i)`. */
  lemma GroupIntWellGrouped(i: int)
    ensures var r := GroupInt(i);
            WellGrouped(if i < 0 then r[1..] else r, if i < 0 then Digits(-i) else Digits(i))
  {
    var ds := if i < 0 then Digits(-i) else Digits(i);
    GroupWellGrouped(ds);
    var sign := if i < 0 then "-" else "";
    assert GroupInt(i) == sign + Group(ds);
    assert (sign + Group(ds))[|sign|..] == Group(ds);
  }

  /** Length of the leading run of digits of `s`. */
  function LeadingDigits(s: string): (n: nat)
    ensures n <= |s| && forall k :: 0 <= k < n ==> IsDigit(s[k])
  {
    if s == [] || !IsDigit(s[0]) then 0 else 1 + LeadingDigits(s[1..])
  }

  /** Grouping a comma-free middle part leaves the comma-free reading unchanged. */
  lemma UngroupSplice(pre: string, ds: string, tail: string)
    requires forall k :: 0 <= k < |pre| ==> pre[k] != ','
    requires forall k :: 0 <= k < |ds| ==> ds[k] != ','
    ensures Ungroup(pre + Group(ds) + tail) == Ungroup(pre + ds + tail)
  {
    UngroupGroup(ds);
    UngroupNoCommas(ds);
    UngroupAppend(pre + Group(ds), tail);
    UngroupAppend(pre, Group(ds));
    UngroupAppend(pre + ds, tail);
    UngroupAppend(pre, ds);
  }

  /** `format(x, ',')` for a Python float given its `repr` text: the leading
      run of integer digits (after an optional minus sign) is grouped; the
      fraction, an exponent, `inf` and `nan` are kept as they are. */
  function GroupFloatRepr(repr: string): (r: string)
    ensures Ungroup(r) == Ungroup(repr)
  {
    var signLen := SignLength(repr);
    var pre, rest := repr[..signLen], repr[signLen..];
    var n := LeadingDigits(rest);
    var ds, tail := rest[..n], rest[n..];
    UngroupSplice(pre, ds, tail);
    assert repr == pre + ds + tail;
    pre + Group(ds) + tail
  }

  /** The sign and the text after the integer digits are kept, and the
      integer digits are written in comma groups. */
  lemma GroupFloatReprGrouped(repr: string)
    ensures var r := GroupFloatRepr(repr);
            var sl := SignLength(repr);
            var n := LeadingDigits(repr[sl..]);
            var tail := repr[sl + n..];
            && sl + |tail| <= |r|
            && r[..sl] == repr[..sl] && r[|r| - |tail|..] == tail
            && WellGrouped(r[sl..|r| - |tail|], repr[sl..sl + n])
  {
    var sl := SignLength(repr);
    var pre, rest := repr[..sl], repr[sl..];
    var n := LeadingDigits(rest);
    var ds, tail := rest[..n], rest[n..];
    assert ds == repr[sl..sl + n] && tail == repr[sl + n..] && pre == repr[..sl];
    assert forall k :: 0 <= k < |ds| ==> ds[k] != ',';
    assert GroupFloatRepr(repr) == pre + Group(ds) + tail;
    SpliceGrouped(pre, ds, tail);
  }

  /** A comma-free middle part grouped between two kept parts. */
  lemma SpliceGrouped(pre: string, ds: string, tail: string)
    requires forall k :: 0 <= k < |ds| ==> ds[k] != ','
    ensures var r := pre + Group(ds) + tail;
            && r[..|pre|] == pre && r[|r| - |tail|..] == tail
            && WellGrouped(r[|pre|..|r| - |tail|], ds)
  {
    GroupWellGrouped(ds);
    Slices(pre, Group(ds), tail);
  }

  /** The three parts of a concatenation, sliced back out of it. */
  lemma Slices(pre: string, mid: string, tail: string)
    ensures var r := pre + mid + tail;
            && r[..|pre|] == pre && r[|r| - |tail|..] == tail && r[|pre|..|r| - |tail|] == mid
  {
  }

  /** Length of an optional leading minus sign. */
  function SignLength(s: string): (n: nat)
    ensures n <= |s|
  {
    if s != [] && s[0] == '-' then 1 else 0
  }
}
