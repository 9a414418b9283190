/** String helpers shared by the model: decimal rendering of integers, Swift's
    `Int(String)` parser, Foundation's whitespace trimming and `joined(separator:)`. */
module Text {
  import opened Wrappers

  const Int64Min: int := -0x8000_0000_0000_0000
  const Int64Max: int := 0x7FFF_FFFF_FFFF_FFFF

  predicate IsDigit(c: char) { '0' <= c <= '9' }

  predicate AllDigits(s: string) { forall i :: 0 <= i < |s| ==> IsDigit(s[i]) }

  function DigitChar(d: nat): (c: char)
    requires d < 10
    ensures IsDigit(c) && c as int - '0' as int == d
  {
    ['0', '1', '2', '3', '4', '5', '6', '7', '8', '9'][d]
  }

  /** The value of a string of decimal digits, most significant first. */
  function DigitsValue(s: string): nat
    requires AllDigits(s)
  {
    if |s| == 0 then 0 else DigitsValue(s[..|s| - 1]) * 10 + (s[|s| - 1] as int - '0' as int)
  }

  /** Decimal rendering of a natural number, as Swift's string interpolation prints it. */
  function NatToString(n: nat): (s: string)
    ensures |s| >= 1 && AllDigits(s)
    ensures s[0] == '0' ==> n == 0
    decreases n
  {
    if n < 10 then [DigitChar(n)] else NatToString(n / 10) + [DigitChar(n % 10)]
  }

  /** Decimal rendering of an integer, with a leading '-' when negative. */
  function IntToString(i: int): (s: string)
    ensures |s| >= 1
    ensures (s[0] == '-') <==> i < 0
  {
    if i < 0 then "-" + NatToString(-i) else NatToString(i)
  }

  lemma {:induction false} DigitsOfNatToString(n: nat)
    ensures DigitsValue(NatToString(n)) == n
    decreases n
  {
    if n >= 10 {
      var s := NatToString(n);
      assert s[..|s| - 1] == NatToString(n / 10);
      DigitsOfNatToString(n / 10);
    }
  }

  predicate IsSign(c: char) { c == '+' || c == '-' }

  /** The length of the optional sign in front of the digits. */
  function SignLength(s: string): (n: nat)
    ensures n <= |s| && (n == 1 <==> |s| > 0 && IsSign(s[0]))
  {
    if |s| > 0 && IsSign(s[0]) then 1 else 0
  }

  /** Swift's `Int(_: String)` for radix 10: an optional '+' or '-', then one or more
      ASCII digits and nothing else, and the value must fit in a 64-bit `Int`. */
  function ParseInt(s: string): (r: Option<int>)
    ensures r.Some? <==>
      && SignLength(s) < |s| && AllDigits(s[SignLength(s)..])
      && (if s[0] == '-' then DigitsValue(s[1..]) <= -Int64Min else DigitsValue(s[SignLength(s)..]) <= Int64Max)
    ensures r.Some? ==> r.value == if s[0] == '-' then -(DigitsValue(s[1..]) as int) else DigitsValue(s[SignLength(s)..])
    ensures r.Some? ==> Int64Min <= r.value <= Int64Max
  {
    var digits := s[SignLength(s)..];
    if |digits| == 0 || !AllDigits(digits) then None
    else
      var v: int := if s[0] == '-' then -(DigitsValue(digits) as int) else DigitsValue(digits);
      if Int64Min <= v <= Int64Max then Some(v) else None
  }

  /** A leading zero adds nothing to a digit string's value. */
  lemma {:induction false} DigitsValueLeadingZero(d: string)
    requires AllDigits(d)
    ensures AllDigits("0" + d) && DigitsValue("0" + d) == DigitsValue(d)
    decreases |d|
  {
    var z := "0" + d;
    if d != [] {
      assert z[..|z| - 1] == "0" + d[..|d| - 1];
      assert z[|z| - 1] == d[|d| - 1];
      DigitsValueLeadingZero(d[..|d| - 1]);
    } else {
      assert z[..|z| - 1] == [];
    }
  }

  /** Leading zeros are accepted and ignored: "007" parses as "7" does, and a piece
      that does not parse still does not parse with a zero in front. */
  lemma ParseIntLeadingZero(s: string)
    requires s != [] && !IsSign(s[0])
    ensures ParseInt("0" + s) == ParseInt(s)
  {
    assert ("0" + s)[1..] == s;
    if AllDigits(s) {
      DigitsValueLeadingZero(s);
    } else {
      var k :| 0 <= k < |s| && !IsDigit(s[k]);
      assert ("0" + s)[k + 1] == s[k];
    }
  }

  /** A '+' in front changes nothing. */
  lemma ParseIntPlusSign(s: string)
    requires s == [] || !IsSign(s[0])
    ensures ParseInt("+" + s) == ParseInt(s)
  {
    assert ("+" + s)[1..] == s;
  }

  /** A '-' in front negates whatever parses. */
  lemma ParseIntMinusSign(s: string)
    requires s == [] || !IsSign(s[0])
    ensures ParseInt(s).Some? ==> ParseInt("-" + s) == Some(-ParseInt(s).value)
  {
    assert ("-" + s)[1..] == s;
  }

  /** Parsing the rendering of any 64-bit integer gives that integer back. */
  lemma ParseIntToString(i: int)
    requires Int64Min <= i <= Int64Max
    ensures ParseInt(IntToString(i)) == Some(i)
  {
    var t := IntToString(i);
    if i < 0 {
      var d := NatToString(-i);
      DigitsOfNatToString(-i);
      assert t == "-" + d && t[0] == '-';
      assert SignLength(t) == 1 && t[1..] == d;
    } else {
      var d := NatToString(i);
      DigitsOfNatToString(i);
      assert t == d && IsDigit(t[0]);
      assert SignLength(t) == 0 && t[0..] == d;
    }
  }

  /** Foundation's `CharacterSet.whitespacesAndNewlines`: general category Z*,
      U+0009 to U+000D and U+0085. */
  predicate IsWhitespace(c: char) {
    ('\U{9}' <= c <= '\U{D}') || c == ' ' || c == '\U{85}' || c == '\U{A0}' || c == '\U{1680}' ||
    ('\U{2000}' <= c <= '\U{200A}') || c == '\U{2028}' || c == '\U{2029}' ||
    c == '\U{202F}' || c == '\U{205F}' || c == '\U{3000}'
  }

  predicate AllWhitespace(s: string) { forall i :: 0 <= i < |s| ==> IsWhitespace(s[i]) }

  /** Drops leading whitespace: the result is a suffix of `s` and what was dropped is whitespace. */
  function TrimStart(s: string): (r: string)
    ensures |r| <= |s| && r == s[|s| - |r|..]
    ensures forall k :: 0 <= k < |s| - |r| ==> IsWhitespace(s[k])
    ensures r == [] || !IsWhitespace(r[0])
  {
    if |s| > 0 && IsWhitespace(s[0]) then TrimStart(s[1..]) else s
  }

  /** Drops trailing whitespace: the result is a prefix of `s` and what was dropped is whitespace. */
  function TrimEnd(s: string): (r: string)
    ensures |r| <= |s| && r == s[..|r|]
    ensures forall k :: |r| <= k < |s| ==> IsWhitespace(s[k])
    ensures r == [] || !IsWhitespace(r[|r| - 1])
  {
    if |s| > 0 && IsWhitespace(s[|s| - 1]) then TrimEnd(s[..|s| - 1]) else s
  }

  /** `trimmingCharacters(in: .whitespacesAndNewlines)`. */
  function Trim(s: string): (r: string)
    ensures |r| <= |s|
    ensures s == [] || (!IsWhitespace(s[0]) && !IsWhitespace(s[|s| - 1])) ==> r == s
  {
    TrimEnd(TrimStart(s))
  }

  /** A prefix `r` of a suffix `t` of `s` sits in `s` where `t` starts, and when `r` leaves
      only whitespace of `t`, it leaves only whitespace of `s`. */
  lemma PrefixOfSuffix(s: string, t: string, r: string)
    requires |t| <= |s| && t == s[|s| - |t|..]
    requires |r| <= |t| && r == t[..|r|]
    requires forall k :: |r| <= k < |t| ==> IsWhitespace(t[k])
    ensures s[|s| - |t|..|s| - |t| + |r|] == r
    ensures forall k :: |s| - |t| + |r| <= k < |s| ==> IsWhitespace(s[k])
  {
    forall k | |s| - |t| + |r| <= k < |s|
      ensures IsWhitespace(s[k])
    {
      assert s[k] == t[k - (|s| - |t|)];
    }
  }

  /** Where the trimmed string starts in the original. */
  function TrimOffset(s: string): nat
  {
    |s| - |TrimStart(s)|
  }

  /** The trimmed string sits in the original at `TrimOffset(s)`, with only whitespace after it. */
  lemma TrimSitsAtOffset(s: string)
    ensures TrimOffset(s) + |Trim(s)| <= |s| && Trim(s) == s[TrimOffset(s)..TrimOffset(s) + |Trim(s)|]
    ensures forall k :: TrimOffset(s) + |Trim(s)| <= k < |s| ==> IsWhitespace(s[k])
  {
    PrefixOfSuffix(s, TrimStart(s), Trim(s));
  }

  /** Neither end of a non-empty trimmed string is whitespace. */
  lemma TrimEndsNotWhitespace(s: string)
    ensures Trim(s) == [] || (!IsWhitespace(Trim(s)[0]) && !IsWhitespace(Trim(s)[|Trim(s)| - 1]))
  {
    var t := TrimStart(s);
    assert Trim(s) == [] || Trim(s)[0] == t[0];
  }

  /** The trimmed string is an infix of the original, only whitespace was cut on either
      side, and neither end of the result is whitespace. */
  lemma TrimIsInfix(s: string) returns (i: nat)
    ensures i + |Trim(s)| <= |s| && Trim(s) == s[i..i + |Trim(s)|]
    ensures forall k :: 0 <= k < i ==> IsWhitespace(s[k])
    ensures forall k :: i + |Trim(s)| <= k < |s| ==> IsWhitespace(s[k])
    ensures Trim(s) == [] || (!IsWhitespace(Trim(s)[0]) && !IsWhitespace(Trim(s)[|Trim(s)| - 1]))
  {
    i := TrimOffset(s);
    TrimSitsAtOffset(s);
    TrimEndsNotWhitespace(s);
  }

  /** Trimming yields "" exactly when the string is all whitespace. */
  lemma TrimEmptyIffWhitespace(s: string)
    ensures Trim(s) == [] <==> AllWhitespace(s)
  {
    var i := TrimIsInfix(s);
    if Trim(s) != [] {
      assert !IsWhitespace(s[i]);
    }
  }

  /** Trimming twice is trimming once. */
  lemma TrimIdempotent(s: string)
    ensures Trim(Trim(s)) == Trim(s)
  {
    var r := Trim(s);
    var _ := TrimIsInfix(s);
    assert TrimStart(r) == r;
    assert TrimEnd(r) == r;
  }

  /** `parts.joined(separator: sep)`. */
  function Join(parts: seq<string>, sep: string): (r: string)
    ensures |parts| > 0 ==> parts[0] <= r
    decreases |parts|
  {
    if |parts| == 0 then "" else if |parts| == 1 then parts[0] else parts[0] + sep + Join(parts[1..], sep)
  }

  function TotalLength(parts: seq<string>): nat
  {
    if |parts| == 0 then 0 else |parts[0]| + TotalLength(parts[1..])
  }

  /** The joined string holds every part and one separator between each two neighbours. */
  lemma {:induction false} JoinLength(parts: seq<string>, sep: string)
    requires |parts| > 0
    ensures |Join(parts, sep)| == TotalLength(parts) + (|parts| - 1) * |sep|
    decreases |parts|
  {
    if |parts| > 1 {
      JoinLength(parts[1..], sep);
    }
  }

  /** Joining puts the first part at the front and, after a separator, the join of the rest. */
  lemma JoinCons(p: string, rest: seq<string>, sep: string)
    requires |rest| > 0
    ensures Join([p] + rest, sep) == p + sep + Join(rest, sep)
  {
    assert ([p] + rest)[1..] == rest;
  }
}
