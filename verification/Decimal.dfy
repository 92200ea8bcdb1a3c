/** Decimal text: printing with "%u" and reading back with `str_to_num`
    (src/util.c). Message files are named by their identifier in this form. */
module Decimal {
  import opened Types

  predicate IsDigit(c: char) { '0' <= c <= '9' }

  predicate IsSpace(c: char) { c == ' ' || '\t' <= c <= '\r' }

  function DigitValue(c: char): int
    requires IsDigit(c)
  {
    c as int - '0' as int
  }

  function DigitChar(d: int): (c: char)
    requires 0 <= d < 10
    ensures IsDigit(c) && DigitValue(c) == d
  {
    ('0' as int + d) as char
  }

  /** `sprintf(..., "%u", n)`. */
  function Print(n: nat): (s: string)
    ensures |s| > 0
  {
    if n < 10 then [DigitChar(n)] else Print(n / 10) + [DigitChar(n % 10)]
  }

  ghost predicate AllDigits(s: string) { forall i :: 0 <= i < |s| ==> IsDigit(s[i]) }

  /** The length of the longest run of digits at the front of `s`. */
  function DigitRun(s: string): (k: nat)
    ensures k <= |s| && AllDigits(s[..k])
    ensures k < |s| ==> !IsDigit(s[k])
  {
    if s == "" || !IsDigit(s[0]) then 0 else
      var k := DigitRun(s[1..]);
      assert forall i :: 1 <= i < k + 1 ==> s[i] == s[1..][..k][i - 1];
      k + 1
  }

  function Value(s: string): nat
    requires AllDigits(s)
  {
    if s == "" then 0 else 10 * Value(s[..|s| - 1]) + DigitValue(s[|s| - 1])
  }

  function SkipSpaces(s: string): string {
    if s != "" && IsSpace(s[0]) then SkipSpaces(s[1..]) else s
  }

  /** `strtol(s, &end, 10)` with a 64-bit `long`, followed by the checks of
      `str_to_num`: no value for an empty string, for no digits (`end == s`)
      or when `errno` reports a value out of range. Anything after the digits
      is ignored. */
  function StrToLong(s: string): Option<int> {
    var t := SkipSpaces(s);
    var signed := t != "" && (t[0] == '-' || t[0] == '+');
    var digits := if signed then t[1..] else t;
    var k := DigitRun(digits);
    if k == 0 then None else
      var magnitude: int := Value(digits[..k]);
      var v: int := if signed && t[0] == '-' then -magnitude else magnitude;
      if -0x8000_0000_0000_0000 <= v < 0x8000_0000_0000_0000 then Some(v) else None
  }

  /** The C conversion of a `long` to `unsigned int`. */
  function ToUint(v: int): (id: MsgId)
    ensures 0 <= v < 0x1_0000_0000 ==> id == v
  {
    v % 0x1_0000_0000
  }

  /** `str_to_num(s, &n, UINT)`: the `long` truncated to 32 bits. */
  function StrToUint(s: string): Option<MsgId> {
    match StrToLong(s)
    case None => None
    case Some(v) => Some(ToUint(v))
  }

  /** `str_to_num(s, &n, INT)` followed by the cast to `uint16_t`. */
  function StrToPort(s: string): Option<int> {
    match StrToLong(s)
    case None => None
    case Some(v) => Some(v % 0x1_0000)
  }

  lemma {:induction false} PrintDigits(n: nat)
    ensures AllDigits(Print(n)) && Value(Print(n)) == n
  {
    if n >= 10 {
      PrintDigits(n / 10);
      var s := Print(n);
      assert s[..|s| - 1] == Print(n / 10);
    } else {
      assert Print(n)[..0] == "";
    }
  }

  lemma {:induction false} DigitRunAll(s: string)
    requires AllDigits(s)
    ensures DigitRun(s) == |s|
  {
    if s != "" {
      DigitRunAll(s[1..]);
    }
  }

  lemma ReadPrinted(n: nat)
    ensures StrToLong(Print(n)) == if n < 0x8000_0000_0000_0000 then Some(n) else None
  {
    var s := Print(n);
    PrintDigits(n);
    DigitRunAll(s);
    assert IsDigit(s[0]);
    assert SkipSpaces(s) == s;
    assert s[..|s|] == s;
  }

  lemma {:induction false} SkipBlanks(blanks: string, text: string)
    requires forall i :: 0 <= i < |blanks| ==> IsSpace(blanks[i])
    requires text == "" || !IsSpace(text[0])
    ensures SkipSpaces(blanks + text) == text
  {
    if blanks == "" {
      assert blanks + text == text;
    } else {
      assert (blanks + text)[1..] == blanks[1..] + text;
      SkipBlanks(blanks[1..], text);
    }
  }

  lemma {:induction false} DigitRunStops(digits: string, tail: string)
    requires AllDigits(digits) && (tail == "" || !IsDigit(tail[0]))
    ensures DigitRun(digits + tail) == |digits|
  {
    if digits == "" {
      assert digits + tail == tail;
    } else {
      assert (digits + tail)[1..] == digits[1..] + tail;
      DigitRunStops(digits[1..], tail);
    }
  }

  /** What `str_to_num` makes of any text with digits: blanks, a sign, the
      number, and anything that goes on with no digit. */
  lemma ReadSpelled(blanks: string, sign: string, n: nat, tail: string)
    requires forall i :: 0 <= i < |blanks| ==> blanks[i] in " \t\n\U{0B}\U{0C}\r"
    requires sign in ["", "+", "-"] && (tail == "" || !('0' <= tail[0] <= '9'))
    ensures var m: int := n;
            var v := if sign == "-" then -m else m;
            StrToLong(blanks + (sign + (Print(n) + tail)))
            == if -0x8000_0000_0000_0000 <= v <= 0x7fff_ffff_ffff_ffff then Some(v) else None
  {
    var number := Print(n) + tail;
    NumberAhead(n, tail);
    SkipBlanks(blanks, sign + number);
    if sign == "" {
      assert sign + number == number;
    } else {
      assert (sign + number)[1..] == number;
    }
  }

  lemma NumberAhead(n: nat, tail: string)
    requires tail == "" || !IsDigit(tail[0])
    ensures var number := Print(n) + tail;
            && number != "" && IsDigit(number[0])
            && DigitRun(number) == |Print(n)| > 0 && number[..|Print(n)|] == Print(n)
            && AllDigits(Print(n)) && Value(Print(n)) == n
  {
    PrintDigits(n);
    assert IsDigit(Print(n)[0]);
    DigitRunStops(Print(n), tail);
  }

  /** A text without digits after its blanks and sign has no value. */
  lemma NoDigitsNoValue(blanks: string, sign: string, tail: string)
    requires forall i :: 0 <= i < |blanks| ==> blanks[i] in " \t\n\U{0B}\U{0C}\r"
    requires sign in ["", "+", "-"] && (tail == "" || !('0' <= tail[0] <= '9'))
    requires sign == "" ==> tail == "" || tail[0] !in " \t\n\U{0B}\U{0C}\r+-"
    ensures StrToLong(blanks + (sign + tail)) == None
  {
    SkipBlanks(blanks, sign + tail);
    if sign == "" {
      assert sign + tail == tail;
    } else {
      assert (sign + tail)[1..] == tail;
    }
    DigitRunStops("", tail);
    assert "" + tail == tail;
  }

  /** A client's port text is stored as that port; a number out of range is
      reduced to 16 bits, as the cast to `uint16_t` does. */
  lemma PortRead(s: string, v: int)
    requires StrToLong(s) == Some(v)
    ensures StrToPort(s).Some? && 0 <= StrToPort(s).value <= 65535 && (v - StrToPort(s).value) % 65536 == 0
    ensures 0 <= v <= 65535 ==> StrToPort(s) == Some(v)
  {
  }

  lemma PrintedPortRead(p: nat)
    requires p < 65536
    ensures StrToPort(Print(p)) == Some(p)
  {
    ReadPrinted(p);
    PortRead(Print(p), p);
  }

  lemma UintOfLong(s: string, v: int)
    requires StrToLong(s) == Some(v)
    ensures StrToUint(s) == Some(ToUint(v)) && (v - ToUint(v)) % 4294967296 == 0
  {
  }

  /** Reading back a printed identifier gives the identifier. */
  lemma PrintThenRead(id: MsgId)
    ensures StrToUint(Print(id)) == Some(id)
  {
    ReadPrinted(id);
    UintOfLong(Print(id), id);
  }

  /** Distinct identifiers have distinct file names. */
  lemma PrintInjective(a: MsgId, b: MsgId)
    requires Print(a) == Print(b)
    ensures a == b
  {
    PrintThenRead(a);
    PrintThenRead(b);
  }

  function Pow10(k: nat): nat { if k == 0 then 1 else 10 * Pow10(k - 1) }

  /** A name has at most k digits exactly for the numbers below 10^k. */
  lemma {:induction false} PrintLength(n: nat, k: nat)
    requires k > 0
    ensures |Print(n)| <= k <==> n < Pow10(k)
  {
    if k == 1 {
      assert Pow10(1) == 10;
    } else if n < 10 {
      Pow10Grows(k);
    } else {
      PrintLength(n / 10, k - 1);
      assert Pow10(k) == 10 * Pow10(k - 1);
    }
  }

  lemma {:induction false} Pow10Grows(k: nat)
    requires k > 0
    ensures Pow10(k) >= 10
  {
    if k > 1 { Pow10Grows(k - 1); }
  }

  lemma IdNameFits(id: MsgId)
    ensures |Print(id)| <= MSG_ID_MAX_STR_SIZE
    ensures |Print(id)| == MSG_ID_MAX_STR_SIZE <==> id >= 1_000_000_000
  {
    PrintLength(id, 10);
    PrintLength(id, 9);
    assert Pow10(5) == 100_000;
    assert Pow10(9) == 1_000_000_000;
    assert Pow10(10) == 10_000_000_000;
  }

  lemma {:induction false} DigitsHaveNoSlash(n: nat)
    ensures '/' !in Print(n) && '\0' !in Print(n) && '\n' !in Print(n)
    ensures Print(n) != "." && Print(n) != ".."
  {
    PrintDigits(n);
    assert IsDigit(Print(n)[0]);
  }
}
