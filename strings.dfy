/** The pieces of Go's `strings` and `strconv` packages that the mutation
    engine relies on, over strings of characters. */
module Strings {
  import opened Wrappers

  predicate IsDigit(ch: char) {
    '0' <= ch <= '9'
  }

  /** Every character is an ASCII decimal digit (the empty string included). */
  predicate AllDigits(s: string) {
    forall i :: 0 <= i < |s| ==> IsDigit(s[i])
  }

  /** `\d+`: a non-empty run of ASCII decimal digits. */
  predicate IsDigits(s: string) {
    |s| > 0 && AllDigits(s)
  }

  /** A numeral never contains a '-'. */
  lemma DigitsHaveNoHyphen(s: string)
    requires AllDigits(s)
    ensures '-' !in s
  {
    forall i | 0 <= i < |s| ensures s[i] != '-' {
      assert IsDigit(s[i]);
    }
  }

  function DigitValue(ch: char): (d: nat)
    requires IsDigit(ch)
    ensures d < 10
  {
    ch as int - '0' as int
  }

  function DigitChar(d: nat): (ch: char)
    requires d < 10
    ensures IsDigit(ch) && DigitValue(ch) == d
  {
    ('0' as int + d) as char
  }

  /** The value of a decimal numeral, most significant digit first. */
  function DigitsValue(s: string): nat
    requires AllDigits(s)
    decreases |s|
  {
    if s == [] then 0 else DigitsValue(s[..|s| - 1]) * 10 + DigitValue(s[|s| - 1])
  }

  /** A numeral without leading zeros: "0" itself, or one starting with 1-9. */
  predicate IsCanonical(s: string) {
    IsDigits(s) && (s[0] != '0' || s == "0")
  }

  /** The shortest decimal numeral of `n`. */
  function NatToString(n: nat): (r: string)
    ensures IsCanonical(r)
    ensures r == "0" <==> n == 0
    decreases n
  {
    if n < 10 then [DigitChar(n)] else NatToString(n / 10) + [DigitChar(n % 10)]
  }

  lemma {:induction false} NatToStringValue(n: nat)
    ensures DigitsValue(NatToString(n)) == n
    decreases n
  {
    if n >= 10 {
      var s := NatToString(n / 10);
      var t := s + [DigitChar(n % 10)];
      assert t[..|t| - 1] == s;
      NatToStringValue(n / 10);
    }
  }

  /** A numeral that starts with a non-zero digit is worth at least 1. */
  lemma {:induction false} LeadingDigitPositive(s: string)
    requires IsDigits(s) && s[0] != '0'
    ensures DigitsValue(s) >= 1
    decreases |s|
  {
    if |s| > 1 {
      LeadingDigitPositive(s[..|s| - 1]);
    }
  }

  /** A value has only one numeral without leading zeros, and it is the one
      NatToString writes. */
  lemma {:induction false} CanonicalUnique(s: string)
    requires IsCanonical(s)
    ensures s == NatToString(DigitsValue(s))
    decreases |s|
  {
    var n := DigitsValue(s);
    if |s| == 1 {
      assert s[..0] == [];
      assert n == DigitsValue(s[..0]) * 10 + DigitValue(s[0]) == DigitValue(s[0]);
      assert s == [DigitChar(n)];
    } else {
      var init := s[..|s| - 1];
      assert init[0] == s[0] != '0';
      LeadingDigitPositive(init);
      CanonicalUnique(init);
      assert n / 10 == DigitsValue(init) && n % 10 == DigitValue(s[|s| - 1]);
      assert s == init + [DigitChar(n % 10)];
    }
  }

  /** `strconv.Itoa`: decimal text of an integer, with a leading '-' when negative. */
  function Itoa(i: int): (r: string)
    ensures i >= 0 ==> IsCanonical(r) && DigitsValue(r) == i
    ensures i < 0 ==> |r| >= 2 && r[0] == '-' && IsCanonical(r[1..]) && DigitsValue(r[1..]) == -i
  {
    if i < 0 then
      var t := NatToString(-i);
      NatToStringValue(-i);
      assert ("-" + t)[1..] == t;
      "-" + t
    else
      NatToStringValue(i);
      NatToString(i)
  }

  /** A sign followed by a numeral: Atoi's signed form. */
  predicate IsSignedDigits(s: string) {
    |s| > 0 && (s[0] == '+' || s[0] == '-') && IsDigits(s[1..])
  }

  /** `strconv.Atoi` without its overflow check: an optional sign followed by
      one or more decimal digits; anything else is a syntax error (None). */
  function Atoi(s: string): (r: Option<int>)
    ensures r.Some? <==> IsDigits(s) || IsSignedDigits(s)
    ensures IsDigits(s) ==> r == Some(DigitsValue(s))
    ensures IsSignedDigits(s) && s[0] == '+' ==> r == Some(DigitsValue(s[1..]))
    ensures IsSignedDigits(s) && s[0] == '-' ==> r == Some(-(DigitsValue(s[1..]) as int))
  {
    if s == [] then None
    else if s[0] == '+' || s[0] == '-' then
      if IsDigits(s[1..]) then
        Some(if s[0] == '-' then -(DigitsValue(s[1..]) as int) else DigitsValue(s[1..]))
      else None
    else if IsDigits(s) then Some(DigitsValue(s))
    else None
  }

  /** `n, _ := strconv.Atoi(s)`: a syntax error is discarded and reads as 0. */
  function AtoiOrZero(s: string): (n: int)
    ensures !IsDigits(s) && !IsSignedDigits(s) ==> n == 0
    ensures IsDigits(s) ==> n == DigitsValue(s)
    ensures IsSignedDigits(s) && s[0] == '+' ==> n == DigitsValue(s[1..])
    ensures IsSignedDigits(s) && s[0] == '-' ==> n == -(DigitsValue(s[1..]) as int)
  {
    Atoi(s).GetOr(0)
  }

  /** Itoa and Atoi are inverse: the text Itoa writes reads back as the same integer. */
  lemma AtoiItoa(i: int)
    ensures Atoi(Itoa(i)) == Some(i)
  {
    if i < 0 {
      var t := NatToString(-i);
      assert ("-" + t)[1..] == t;
      NatToStringValue(-i);
    } else {
      NatToStringValue(i);
    }
  }

  lemma DigitsAtoi(s: string)
    requires IsDigits(s)
    ensures Atoi(s) == Some(DigitsValue(s)) && AtoiOrZero(s) == DigitsValue(s)
  {
  }

  /** Without a '-' anywhere, whatever Atoi makes of the text is never negative. */
  lemma AtoiOrZeroNonNegative(s: string)
    requires '-' !in s
    ensures AtoiOrZero(s) >= 0
  {
    if s != [] {
      assert s[0] in s;
    }
  }

  /** `strings.Index` for a single character: the first position of `c`, or -1. */
  function IndexOf(s: string, c: char): (r: int)
    ensures -1 <= r < |s|
    ensures r == -1 <==> c !in s
    ensures r >= 0 ==> s[r] == c && forall j :: 0 <= j < r ==> s[j] != c
    decreases |s|
  {
    if s == [] then -1
    else if s[0] == c then 0
    else
      var j := IndexOf(s[1..], c);
      if j == -1 then -1 else j + 1
  }

  /** `strings.LastIndex` for a single character: the last position of `c`, or -1. */
  function LastIndexOf(s: string, c: char): (r: int)
    ensures -1 <= r < |s|
    ensures r == -1 <==> c !in s
    ensures r >= 0 ==> s[r] == c && forall j :: r < j < |s| ==> s[j] != c
    decreases |s|
  {
    if s == [] then -1
    else if s[|s| - 1] == c then |s| - 1
    else
      var init := s[..|s| - 1];
      assert s == init + [s[|s| - 1]];
      LastIndexOf(init, c)
  }

  /** Cutting at the last `c` leaves a tail free of `c`. */
  lemma SplitAtLastIndex(s: string, c: char)
    requires c in s
    ensures var i := LastIndexOf(s, c);
            s == s[..i] + [c] + s[i + 1..] && c !in s[i + 1..]
  {
    var i := LastIndexOf(s, c);
    var tail := s[i + 1..];
    forall j | 0 <= j < |tail| ensures tail[j] != c {
      assert tail[j] == s[i + 1 + j];
    }
    assert s == s[..i] + [c] + tail;
  }

  /** The last `c` of `head + [c] + tail` is the one after `head` when `tail` has none. */
  lemma {:induction false} LastIndexOfBefore(head: string, c: char, tail: string)
    requires c !in tail
    ensures LastIndexOf(head + [c] + tail, c) == |head|
    decreases |tail|
  {
    var s := head + [c] + tail;
    if tail == [] {
      assert s[|s| - 1] == c;
    } else {
      var init := tail[..|tail| - 1];
      assert tail[|tail| - 1] in tail;
      assert s[|s| - 1] == tail[|tail| - 1];
      assert s[..|s| - 1] == head + [c] + init;
      assert c !in init by {
        forall j | 0 <= j < |init| ensures init[j] != c {
          assert init[j] == tail[j];
        }
      }
      LastIndexOfBefore(head, c, init);
    }
  }

  /** `strings.HasPrefix`. */
  predicate HasPrefix(s: string, prefix: string): (r: bool)
    ensures r <==> prefix <= s
  {
    |prefix| <= |s| && s[..|prefix|] == prefix
  }

  /** `strings.TrimPrefix`: drops `prefix` when `s` starts with it. */
  function TrimPrefix(s: string, prefix: string): (r: string)
    ensures HasPrefix(s, prefix) ==> prefix + r == s
    ensures !HasPrefix(s, prefix) ==> r == s
  {
    if HasPrefix(s, prefix) then s[|prefix|..] else s
  }

  /** Glues `parts` together with one `sep` between neighbours; inverse of Split. */
  function Join(parts: seq<string>, sep: char): string
    decreases |parts|
  {
    if |parts| == 0 then ""
    else if |parts| == 1 then parts[0]
    else parts[0] + [sep] + Join(parts[1..], sep)
  }

  /** `strings.Split` on a one-character separator: the pieces between
      successive occurrences of `sep` (a single piece when there is none). */
  function Split(s: string, sep: char): (r: seq<string>)
    ensures |r| >= 1
    ensures Join(r, sep) == s
    ensures forall k :: 0 <= k < |r| ==> sep !in r[k]
    decreases |s|
  {
    var i := IndexOf(s, sep);
    if i == -1 then [s]
    else
      var rest := Split(s[i + 1..], sep);
      assert ([s[..i]] + rest)[1..] == rest;
      assert s == s[..i] + [sep] + s[i + 1..];
      [s[..i]] + rest
  }

  /** The first separator of `head + [sep] + tail` is the one after `head` when `head` has none. */
  lemma IndexOfAfter(head: string, sep: char, tail: string)
    requires sep !in head
    ensures IndexOf(head + [sep] + tail, sep) == |head|
  {
    var s := head + [sep] + tail;
    var i := IndexOf(s, sep);
    assert s[|head|] == sep;
    assert forall j :: 0 <= j < |head| ==> s[j] == head[j];
  }

  /** Splitting a join of separator-free pieces gives the pieces back. */
  lemma {:induction false} SplitJoin(parts: seq<string>, sep: char)
    requires |parts| >= 1
    requires forall k :: 0 <= k < |parts| ==> sep !in parts[k]
    ensures Split(Join(parts, sep), sep) == parts
    decreases |parts|
  {
    if |parts| > 1 {
      var head, rest := parts[0], parts[1..];
      var tail := Join(rest, sep);
      var s := head + [sep] + tail;
      assert Join(parts, sep) == s;
      IndexOfAfter(head, sep, tail);
      assert s[..|head|] == head;
      assert s[|head| + 1..] == tail;
      SplitJoin(rest, sep);
      assert Split(s, sep) == [head] + Split(tail, sep);
      assert parts == [head] + rest;
    }
  }
}
