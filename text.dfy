/** The pieces of Python's `str` behaviour that the validator relies on,
    restricted to what the validator does with them: ASCII digits and their
    values, `str.replace(' ', '')`, `str.strip()`, `str.upper()` and
    zero-padded decimal numerals (`int(...)` on a digit string and
    `strftime`'s `%Y`/`%m`/`%d`). */
module Text {

  // ---------------------------------------------------------------------------
  // Characters
  // ---------------------------------------------------------------------------

  /** An ASCII decimal digit. */
  predicate IsDigit(c: char) {
    '0' <= c <= '9'
  }

  /** Every character of `s` is an ASCII digit. */
  predicate AllDigits(s: string) {
    forall i :: 0 <= i < |s| ==> IsDigit(s[i])
  }

  /** `int(c)` for one ASCII digit. */
  function DigitValue(c: char): (v: nat)
    requires IsDigit(c)
    ensures v < 10
  {
    c as int - '0' as int
  }

  /** The ASCII digit whose value is `v`. */
  function DigitChar(v: nat): (c: char)
    requires v < 10
    ensures IsDigit(c) && DigitValue(c) == v
  {
    ('0' as int + v) as char
  }

  /** Python's `str.isspace()` on a single character: the characters that
      `str.strip()` with no argument removes. */
  predicate IsSpace(c: char) {
    || c == ' ' || c == '\t' || c == '\n' || c == '\r'
    || c == '\U{B}' || c == '\U{C}'
    || ('\U{1C}' <= c <= '\U{1F}')
    || c == '\U{85}' || c == '\U{A0}' || c == '\U{1680}'
    || ('\U{2000}' <= c <= '\U{200A}')
    || c == '\U{2028}' || c == '\U{2029}' || c == '\U{202F}' || c == '\U{205F}'
    || c == '\U{3000}'
  }

  /** Python's `str.upper()` on one character, for the ASCII letters; every
      other character is left as it is (no other character upper-cases to an
      ASCII digit or to 'X', which is all the validator asks of it). */
  function UpperChar(c: char): (u: char)
    ensures 'a' <= c <= 'z' ==> u as int == c as int - 32
    ensures !('a' <= c <= 'z') ==> u == c
    ensures 'a' <= u <= 'z' ==> false
  {
    if 'a' <= c <= 'z' then (c as int - 32) as char else c
  }

  /** `str.upper()` on a whole string, character by character. */
  function Upper(s: string): (u: string)
    ensures |u| == |s|
    ensures forall i :: 0 <= i < |s| ==> u[i] == UpperChar(s[i])
  {
    seq(|s|, i requires 0 <= i < |s| => UpperChar(s[i]))
  }

  // ---------------------------------------------------------------------------
  // Removing spaces and stripping whitespace
  // ---------------------------------------------------------------------------

  /** `s.replace(' ', '')`: the characters of `s` other than the ASCII space,
      in their order. */
  function RemoveSpaces(s: string): (r: string)
    ensures ' ' !in r
    ensures |r| <= |s|
  {
    if s == [] then []
    else if s[0] == ' ' then RemoveSpaces(s[1..])
    else [s[0]] + RemoveSpaces(s[1..])
  }

  /** Removing spaces keeps every other character, as often as it occurs. */
  lemma {:induction false} RemoveSpacesKeepsOthers(s: string, c: char)
    requires c != ' '
    ensures multiset(RemoveSpaces(s))[c] == multiset(s)[c]
  {
    if s != [] {
      assert s == [s[0]] + s[1..];
      RemoveSpacesKeepsOthers(s[1..], c);
    }
  }

  /** Removing spaces distributes over concatenation. */
  lemma {:induction false} RemoveSpacesAppend(a: string, b: string)
    ensures RemoveSpaces(a + b) == RemoveSpaces(a) + RemoveSpaces(b)
  {
    if a == [] {
      assert a + b == b;
    } else {
      assert (a + b)[0] == a[0];
      assert (a + b)[1..] == a[1..] + b;
      RemoveSpacesAppend(a[1..], b);
    }
  }

  /** A string without spaces is left unchanged. */
  lemma {:induction false} RemoveSpacesNoSpace(s: string)
    requires ' ' !in s
    ensures RemoveSpaces(s) == s
  {
    if s != [] {
      assert s[0] in s;
      assert forall c :: c in s[1..] ==> c in s;
      RemoveSpacesNoSpace(s[1..]);
    }
  }

  /** `s.lstrip()`: `s` without its leading whitespace. */
  function StripStart(s: string): (r: string)
    ensures |r| <= |s| && r == s[|s| - |r|..]
    ensures r == [] || !IsSpace(r[0])
    ensures forall i :: 0 <= i < |s| - |r| ==> IsSpace(s[i])
  {
    if s != [] && IsSpace(s[0]) then StripStart(s[1..]) else s
  }

  /** `s.rstrip()`: `s` without its trailing whitespace. */
  function StripEnd(s: string): (r: string)
    ensures |r| <= |s| && r == s[..|r|]
    ensures r == [] || !IsSpace(r[|r| - 1])
    ensures forall i :: |r| <= i < |s| ==> IsSpace(s[i])
  {
    if s != [] && IsSpace(s[|s| - 1]) then StripEnd(s[..|s| - 1]) else s
  }

  /** `r` is the piece of `s` that starts at `k`, and everything of `s`
      outside that piece is whitespace. */
  predicate IsTrimmedSlice(s: string, r: string, k: nat) {
    && k + |r| <= |s| && r == s[k..k + |r|]
    && (forall i :: 0 <= i < k ==> IsSpace(s[i]))
    && (forall i :: k + |r| <= i < |s| ==> IsSpace(s[i]))
  }

  /** `s.strip()`: `s` without leading and trailing whitespace; neither end
      of the result is whitespace. */
  function Strip(s: string): (r: string)
    ensures |r| <= |s|
    ensures r == [] || (!IsSpace(r[0]) && !IsSpace(r[|r| - 1]))
  {
    StripEnd(StripStart(s))
  }

  /** The stripped string is a contiguous piece of `s`, and everything cut
      off is whitespace. */
  lemma StripIsTrimmedSlice(s: string)
    ensures exists k: nat :: IsTrimmedSlice(s, Strip(s), k)
  {
    var t := StripStart(s);
    assert IsTrimmedSlice(s, Strip(s), |s| - |t|);
  }

  /** Stripping a string that has no whitespace at either end changes nothing. */
  lemma StripStripped(s: string)
    requires s == [] || (!IsSpace(s[0]) && !IsSpace(s[|s| - 1]))
    ensures Strip(s) == s
  {
  }

  /** Stripping adds no character: one absent from `s` is absent from the
      result. */
  lemma {:induction false} StripStartKeepsAbsent(s: string, c: char)
    requires c !in s
    ensures c !in StripStart(s)
  {
    if s != [] && IsSpace(s[0]) {
      assert s == [s[0]] + s[1..];
      StripStartKeepsAbsent(s[1..], c);
    }
  }

  lemma {:induction false} StripEndKeepsAbsent(s: string, c: char)
    requires c !in s
    ensures c !in StripEnd(s)
  {
    if s != [] && IsSpace(s[|s| - 1]) {
      assert s == s[..|s| - 1] + [s[|s| - 1]];
      StripEndKeepsAbsent(s[..|s| - 1], c);
    }
  }

  lemma StripKeepsAbsent(s: string, c: char)
    requires c !in s
    ensures c !in Strip(s)
  {
    StripStartKeepsAbsent(s, c);
    StripEndKeepsAbsent(StripStart(s), c);
  }

  /** `s` with the character `c` inserted before position `i`. */
  function InsertAt(s: string, i: nat, c: char): (r: string)
    requires i <= |s|
    ensures |r| == |s| + 1 && r[i] == c
    ensures r[..i] == s[..i] && r[i + 1..] == s[i..]
  {
    s[..i] + [c] + s[i..]
  }

  /** Inserting a space anywhere does not change what `replace(' ', '')` gives. */
  lemma {:induction false} RemoveSpacesIgnoresInsertedSpace(s: string, i: nat)
    requires i <= |s|
    ensures RemoveSpaces(InsertAt(s, i, ' ')) == RemoveSpaces(s)
  {
    assert InsertAt(s, i, ' ') == s[..i] + ([' '] + s[i..]);
    RemoveSpacesAppend(s[..i], [' '] + s[i..]);
    assert ([' '] + s[i..])[1..] == s[i..];
    assert s == s[..i] + s[i..];
    RemoveSpacesAppend(s[..i], s[i..]);
  }

  // ---------------------------------------------------------------------------
  // Decimal numerals
  // ---------------------------------------------------------------------------

  /** 10^n. */
  function Pow10(n: nat): (p: nat)
    ensures p >= 1
  {
    if n == 0 then 1 else 10 * Pow10(n - 1)
  }

  /** `int(s)` for a string of ASCII digits (leading zeros allowed, the empty
      string read as 0). */
  function NumberValue(s: string): (n: nat)
    requires AllDigits(s)
    ensures n < Pow10(|s|)
  {
    if s == [] then 0
    else NumberValue(s[..|s| - 1]) * 10 + DigitValue(s[|s| - 1])
  }

  /** The decimal numeral of `n`, zero-padded on the left to `width`
      characters, as `%0<width>d` prints it. */
  function Decimal(n: nat, width: nat): (s: string)
    requires n < Pow10(width)
    ensures |s| == width && AllDigits(s)
  {
    if width == 0 then []
    else Decimal(n / 10, width - 1) + [DigitChar(n % 10)]
  }

  /** Reading a numeral back gives the number that was printed. */
  lemma {:induction false} NumberValueOfDecimal(n: nat, width: nat)
    requires n < Pow10(width)
    ensures NumberValue(Decimal(n, width)) == n
  {
    if width > 0 {
      var s := Decimal(n, width);
      assert s[..|s| - 1] == Decimal(n / 10, width - 1);
      NumberValueOfDecimal(n / 10, width - 1);
    }
  }

  /** Printing the value of a digit string at its own width gives the string
      back, leading zeros included. */
  lemma {:induction false} DecimalOfNumberValue(s: string)
    requires AllDigits(s)
    ensures Decimal(NumberValue(s), |s|) == s
  {
    if s != [] {
      var init := s[..|s| - 1];
      var n := NumberValue(s);
      assert n / 10 == NumberValue(init);
      assert n % 10 == DigitValue(s[|s| - 1]);
      DecimalOfNumberValue(init);
      assert s == init + [s[|s| - 1]];
    }
  }
}
