/** The console task (source/pasco2_terminal_ui_task.c): the line editor that
    fills the `value` buffer, the parsing and validation of what was typed,
    and the dispatch of one keystroke. */
module TerminalUi {
  import opened Board
  import Pasco2Task

  /** Capacity of the console's `value` buffer. */
  const IFX_PASCO2_VALUE_MAXLENGTH: int := 256
  /** Valid measurement periods, in seconds. */
  const XENSIV_PASCO2_MEAS_RATE_MIN: int := 5
  const XENSIV_PASCO2_MEAS_RATE_MAX: int := 4095
  /** Range of C's `long` on the 32-bit target. */
  const LONG_MIN: int := -0x8000_0000
  const LONG_MAX: int := 0x7FFF_FFFF

  /** isspace in the C locale: space, tab, newline, vertical tab, form feed
      and carriage return. */
  predicate IsSpace(c: char) {
    c == ' ' || '\t' <= c <= '\r'
  }

  // ---------------------------------------------------------------------------
  // The line editor
  // ---------------------------------------------------------------------------

  /** The bytes the line editor takes from the stream when it may take up to
      `budget` of them: it stops after a carriage return. */
  function ReadChars(rx: nat -> char, pos: nat, budget: nat): (r: seq<char>)
    ensures |r| <= budget
    ensures |r| < budget ==> |r| > 0 && r[|r| - 1] == '\r'
    decreases budget
  {
    if budget == 0 then []
    else if At(rx, pos) == '\r' then ['\r']
    else [At(rx, pos)] + ReadChars(rx, pos + 1, budget - 1)
  }

  /** `r` is the stream from position `pos` on. */
  predicate FromStream(r: seq<char>, rx: nat -> char, pos: nat) {
    forall k :: 0 <= k < |r| ==> r[k] == At(rx, pos + k)
  }

  /** No carriage return before the last byte of `r`. */
  predicate NoEarlyReturn(r: seq<char>) {
    forall k :: 0 <= k < |r| - 1 ==> r[k] != '\r'
  }

  /** What the line editor takes is the stream from `pos` on, in order, with
      no carriage return before its last byte. */
  lemma {:induction false} ReadCharsFromStream(rx: nat -> char, pos: nat, budget: nat)
    ensures FromStream(ReadChars(rx, pos, budget), rx, pos)
    ensures NoEarlyReturn(ReadChars(rx, pos, budget))
    decreases budget
  {
    if budget > 0 && At(rx, pos) != '\r' {
      ReadCharsFromStream(rx, pos + 1, budget - 1);
      var t := ReadChars(rx, pos + 1, budget - 1);
      var r := ReadChars(rx, pos, budget);
      assert r == [At(rx, pos)] + t;
      forall k | 1 <= k < |r|
        ensures r[k] == At(rx, pos + k) && (k < |r| - 1 ==> r[k] != '\r')
      {
        var j := k - 1;
        assert r[k] == t[j];
        assert t[j] == At(rx, pos + 1 + j);
        assert j < |t| - 1 ==> t[j] != '\r';
      }
    }
  }

  /** Before a carriage return, one more byte of budget takes one more
      byte. */
  lemma {:induction false} ReadCharsExtend(rx: nat -> char, pos: nat, budget: nat)
    requires var r := ReadChars(rx, pos, budget); r == [] || r[|r| - 1] != '\r'
    ensures ReadChars(rx, pos, budget + 1) == ReadChars(rx, pos, budget) + [At(rx, pos + budget)]
    decreases budget
  {
    if budget > 0 {
      var c0, t := At(rx, pos), ReadChars(rx, pos + 1, budget - 1);
      assert c0 != '\r' && ReadChars(rx, pos, budget) == [c0] + t;
      ReadCharsExtend(rx, pos + 1, budget - 1);
      assert ReadChars(rx, pos + 1, budget) == t + [At(rx, pos + budget)];
      assert ReadChars(rx, pos, budget + 1) == [c0] + (t + [At(rx, pos + budget)]);
    }
  }

  /** Once a carriage return was taken, or the budget is used up, a larger
      budget takes nothing more. */
  lemma {:induction false} ReadCharsDone(rx: nat -> char, pos: nat, budget: nat, got: seq<char>)
    requires got == ReadChars(rx, pos, |got|) && |got| <= budget
    requires |got| == budget || (got != [] && got[|got| - 1] == '\r')
    ensures ReadChars(rx, pos, budget) == got
    decreases |got|
  {
    if |got| < budget {
      if At(rx, pos) != '\r' {
        ReadCharsDone(rx, pos + 1, budget - 1, got[1..]);
      }
    }
  }

  /** The four properties of ReadChars's contract determine it. */
  lemma {:induction false} ReadCharsUnique(rx: nat -> char, pos: nat, budget: nat, s: seq<char>)
    requires |s| <= budget
    requires FromStream(s, rx, pos) && NoEarlyReturn(s)
    requires |s| == budget || (|s| > 0 && s[|s| - 1] == '\r')
    ensures s == ReadChars(rx, pos, budget)
  {
    var r := ReadChars(rx, pos, budget);
    ReadCharsFromStream(rx, pos, budget);
    assert forall k :: 0 <= k < |s| && k < |r| ==> s[k] == r[k];
  }

  /** The characters kept from a received line: all but the whitespace, in
      order. */
  function StripSpace(s: seq<char>): (r: seq<char>)
    ensures |r| <= |s|
  {
    if s == [] then []
    else
      var last := s[|s| - 1];
      assert s == s[..|s| - 1] + [last];
      StripSpace(s[..|s| - 1]) + (if IsSpace(last) then [] else [last])
  }

  /** No whitespace is kept. */
  lemma {:induction false} StripSpaceNoBlank(s: seq<char>)
    ensures forall k :: 0 <= k < |StripSpace(s)| ==> !IsSpace(StripSpace(s)[k])
  {
    if s != [] {
      var s', last := s[..|s| - 1], s[|s| - 1];
      StripSpaceNoBlank(s');
      var tail := if IsSpace(last) then [] else [last];
      assert StripSpace(s) == StripSpace(s') + tail;
    }
  }

  /** Stripping drops no other character: each non-blank one occurs as often
      as in the received bytes. */
  lemma {:induction false} StripSpaceKeepsOthers(s: seq<char>, c: char)
    requires !IsSpace(c)
    ensures multiset(StripSpace(s))[c] == multiset(s)[c]
  {
    if s != [] {
      var s', last := s[..|s| - 1], s[|s| - 1];
      var tail := if IsSpace(last) then [] else [last];
      StripSpaceKeepsOthers(s', c);
      assert s == s' + [last];
      assert StripSpace(s) == StripSpace(s') + tail;
      assert multiset(s) == multiset(s') + multiset([last]);
      assert multiset(StripSpace(s)) == multiset(StripSpace(s')) + multiset(tail);
    }
  }

  /** Stripping is applied piece by piece, so it keeps the order of what is
      kept. */
  lemma {:induction false} StripSpaceAppend(a: seq<char>, b: seq<char>)
    ensures StripSpace(a + b) == StripSpace(a) + StripSpace(b)
    decreases |b|
  {
    if b == [] {
      assert a + b == a;
    } else {
      var b', last := b[..|b| - 1], b[|b| - 1];
      var tail := if IsSpace(last) then [] else [last];
      assert (a + b)[..|a + b| - 1] == a + b';
      assert (a + b)[|a + b| - 1] == last;
      assert StripSpace(a + b) == StripSpace(a + b') + tail;
      assert StripSpace(b) == StripSpace(b') + tail;
      StripSpaceAppend(a, b');
    }
  }

  lemma {:induction false} StripSpaceNoSpace(s: seq<char>)
    requires forall k :: 0 <= k < |s| ==> !IsSpace(s[k])
    ensures StripSpace(s) == s
  {
    if s != [] {
      StripSpaceNoSpace(s[..|s| - 1]);
      assert s == s[..|s| - 1] + [s[|s| - 1]];
    }
  }

  /** The echo of each received byte. */
  function Echoes(s: seq<char>): (r: seq<Out>)
    ensures |r| == |s|
  {
    if s == [] then [] else Echoes(s[..|s| - 1]) + [Echo(s[|s| - 1])]
  }

  /** The echo is the received bytes, one for one, in order. */
  lemma {:induction false} EchoesEach(s: seq<char>)
    ensures forall k :: 0 <= k < |s| ==> Echoes(s)[k] == Echo(s[k])
  {
    if s != [] {
      EchoesEach(s[..|s| - 1]);
    }
  }

  /** terminal_ui_readline: read up to `maxlength - 1` bytes, stopping after a
      carriage return, echo each, keep the non-blank ones in `line`, then
      echo a newline and terminate the kept text with a NUL. Every write to
      `line` is below `maxlength`. */
  method Readline(uart: Uart, line: array<char>, maxlength: int)
    requires maxlength <= line.Length
    modifies uart, line
    ensures maxlength <= 0 ==>
      uart.rxPos == old(uart.rxPos) && uart.tx == old(uart.tx) && line[..] == old(line[..])
    ensures maxlength > 0 ==>
      var got := ReadChars(uart.rx, old(uart.rxPos), maxlength - 1);
      var kept := StripSpace(got);
      && |kept| < maxlength
      && uart.rxPos == old(uart.rxPos) + |got|
      && uart.tx == old(uart.tx) + Echoes(got) + [Echo('\n')]
      && line[..] == kept + ['\0'] + old(line[..])[|kept| + 1..]
  {
    if maxlength <= 0 {
      return;
    }
    ghost var start := uart.rxPos;
    var i := ReceiveLine(uart, line, maxlength);
    ghost var got := ReadChars(uart.rx, start, maxlength - 1);
    uart.Putc('\n');
    line[i] := '\0';
    assert line[..] == line[..i] + [line[i]] + line[i + 1..];
  }

  /** The receive loop of terminal_ui_readline: it ends after a carriage
      return or once `maxlength - 1` bytes were taken; `i` is then the number
      of bytes kept in `line`. */
  method ReceiveLine(uart: Uart, line: array<char>, maxlength: int) returns (i: nat)
    requires 0 < maxlength <= line.Length
    modifies uart, line
    ensures
      var got := ReadChars(uart.rx, old(uart.rxPos), maxlength - 1);
      && i == |StripSpace(got)| < maxlength
      && uart.rxPos == old(uart.rxPos) + |got|
      && uart.tx == old(uart.tx) + Echoes(got)
      && line[..i] == StripSpace(got)
      && forall k :: i <= k < line.Length ==> line[k] == old(line[k])
  {
    ghost var start := uart.rxPos;
    ghost var got: seq<char> := [];
    i := 0;
    var rxValue: char := '\0';
    var left := maxlength;
    while rxValue != '\r' && left > 1
      invariant 1 <= left <= maxlength && |got| == maxlength - left
      invariant uart.rxPos == start + |got|
      invariant got == ReadChars(uart.rx, start, |got|)
      invariant rxValue == if got == [] then '\0' else got[|got| - 1]
      invariant i == |StripSpace(got)| && line[..i] == StripSpace(got)
      invariant forall k :: i <= k < line.Length ==> line[k] == old(line[k])
      invariant uart.tx == old(uart.tx) + Echoes(got)
      decreases left
    {
      left := left - 1;
      ghost var next := At(uart.rx, uart.rxPos);
      assert ReadChars(uart.rx, start, |got| + 1) == got + [next] by {
        ReadCharsExtend(uart.rx, start, |got|);
      }
      rxValue, i := TakeByte(uart, line, i, got);
      AppendOne(got, rxValue);
      Pasco2Task.Associative(old(uart.tx), Echoes(got), [Echo(rxValue)]);
      got := got + [rxValue];
    }
    assert got == ReadChars(uart.rx, start, maxlength - 1) by {
      assert |got| == maxlength - 1 || (got != [] && got[|got| - 1] == '\r');
      ReadCharsDone(uart.rx, start, maxlength - 1, got);
    }
  }

  /** One pass of the receive loop: take a byte, echo it, and store it at
      `line[i]` unless it is whitespace. */
  method TakeByte(uart: Uart, line: array<char>, i: nat, ghost got: seq<char>) returns (c: char, j: nat)
    requires i == |StripSpace(got)| < line.Length && line[..i] == StripSpace(got)
    modifies uart`rxPos, uart`tx, line
    ensures c == At(uart.rx, old(uart.rxPos)) && uart.rxPos == old(uart.rxPos) + 1
    ensures uart.tx == old(uart.tx) + [Echo(c)]
    ensures j == |StripSpace(got + [c])| && line[..j] == StripSpace(got + [c])
    ensures forall k :: j <= k < line.Length ==> line[k] == old(line[k])
  {
    c := uart.Getc();
    uart.Putc(c);
    AppendOne(got, c);
    j := i;
    if IsSpace(c) {
      return;
    }
    line[j] := c;
    j := j + 1;
  }

  /** How stripping and echoing grow with one more received byte. */
  lemma AppendOne(got: seq<char>, c: char)
    ensures StripSpace(got + [c]) == StripSpace(got) + (if IsSpace(c) then [] else [c])
    ensures Echoes(got + [c]) == Echoes(got) + [Echo(c)]
  {
    assert (got + [c])[..|got|] == got;
  }

  // ---------------------------------------------------------------------------
  // C strings and strtol
  // ---------------------------------------------------------------------------

  /** The C string a buffer holds: everything before its first NUL. */
  function CStr(buf: seq<char>): (r: seq<char>)
    ensures |r| <= |buf| && r == buf[..|r|]
    ensures forall k :: 0 <= k < |r| ==> r[k] != '\0'
    ensures |r| < |buf| ==> buf[|r|] == '\0'
  {
    if buf == [] || buf[0] == '\0' then [] else [buf[0]] + CStr(buf[1..])
  }

  /** A NUL written after `s` ends the C string there, whatever follows. */
  lemma {:induction false} CStrTerminated(s: seq<char>, rest: seq<char>)
    ensures CStr(s + ['\0'] + rest) == CStr(s)
  {
    if s != [] && s[0] != '\0' {
      assert (s + ['\0'] + rest)[1..] == s[1..] + ['\0'] + rest;
      CStrTerminated(s[1..], rest);
    }
  }

  /** The line a branch sees after readline took the bytes `got`: what the
      line editor keeps of them, read back as a C string. */
  function KeptLine(got: seq<char>): seq<char> {
    CStr(StripSpace(got))
  }

  predicate IsDigit(c: char) {
    '0' <= c <= '9'
  }

  function DigitValue(c: char): (d: nat)
    requires IsDigit(c)
    ensures d < 10
  {
    c as int - '0' as int
  }

  predicate AllDigits(d: seq<char>) {
    forall k :: 0 <= k < |d| ==> IsDigit(d[k])
  }

  /** The number a string of decimal digits denotes. */
  function DigitsValue(d: seq<char>): nat
    requires AllDigits(d)
  {
    if d == [] then 0 else DigitsValue(d[..|d| - 1]) * 10 + DigitValue(d[|d| - 1])
  }

  /** How many decimal digits `s` starts with. */
  function LeadingDigits(s: seq<char>): (n: nat)
    ensures n <= |s|
    ensures AllDigits(s[..n])
    ensures n < |s| ==> !IsDigit(s[n])
  {
    if s == [] || !IsDigit(s[0]) then 0
    else
      var n := 1 + LeadingDigits(s[1..]);
      assert s[..n] == [s[0]] + s[1..][..n - 1];
      n
  }

  /** `s` without its leading whitespace. */
  function SkipSpace(s: seq<char>): seq<char> {
    if s == [] || !IsSpace(s[0]) then s else SkipSpace(s[1..])
  }

  /** What is left is a suffix of `s` that starts with a non-blank byte. */
  lemma {:induction false} SkipSpaceSuffix(s: seq<char>)
    ensures var r := SkipSpace(s);
      && |r| <= |s| && r == s[|s| - |r|..]
      && (r != [] ==> !IsSpace(r[0]))
  {
    if s != [] && IsSpace(s[0]) {
      SkipSpaceSuffix(s[1..]);
      assert s[1..][|s| - 1 - |SkipSpace(s)|..] == s[|s| - |SkipSpace(s)|..];
    }
  }

  /** What strtol(s, &end, 10) gives: the value, and whether `end` moved past
      the start of `s`. */
  datatype Parsed = Parsed(value: int, consumed: bool)

  function SaturateLong(v: int): (r: int)
    ensures LONG_MIN <= r <= LONG_MAX
    ensures LONG_MIN <= v <= LONG_MAX ==> r == v
  {
    if v > LONG_MAX then LONG_MAX else if v < LONG_MIN then LONG_MIN else v
  }

  /** strtol in base 10 on the C string `s`: leading whitespace, an optional
      sign, then the longest run of decimal digits; no digits means nothing
      is consumed and the value is 0; out-of-range values saturate. */
  function ParseLong(s: seq<char>): (r: Parsed)
    ensures LONG_MIN <= r.value <= LONG_MAX
    ensures !r.consumed ==> r.value == 0
  {
    var t := SkipSpace(s);
    var signed := t != [] && (t[0] == '-' || t[0] == '+');
    var u := if signed then t[1..] else t;
    var n := LeadingDigits(u);
    if n == 0 then Parsed(0, false)
    else
      var magnitude := DigitsValue(u[..n]);
      Parsed(SaturateLong(if signed && t[0] == '-' then -(magnitude as int) else magnitude), true)
  }

  /** A line without any digit has no leading number. */
  lemma NoDigitNoNumber(s: seq<char>)
    requires forall k :: 0 <= k < |s| ==> !IsDigit(s[k])
    ensures ParseLong(s) == Parsed(0, false)
  {
    var t := SkipSpace(s);
    SkipSpaceSuffix(s);
    var signed := t != [] && (t[0] == '-' || t[0] == '+');
    var u := if signed then t[1..] else t;
    if u != [] {
      assert u[0] == s[|s| - |u|];
    }
  }

  /** Skipping whitespace stops at the first non-blank byte. */
  lemma {:induction false} SkipSpaceBlanks(blanks: seq<char>, t: seq<char>)
    requires forall k :: 0 <= k < |blanks| ==> IsSpace(blanks[k])
    requires t == [] || !IsSpace(t[0])
    ensures SkipSpace(blanks + t) == t
  {
    if blanks != [] {
      assert (blanks + t)[1..] == blanks[1..] + t;
      SkipSpaceBlanks(blanks[1..], t);
    } else {
      assert blanks + t == t;
    }
  }

  /** The digit run ends at the first byte that is not a digit. */
  lemma {:induction false} LeadingDigitsOf(d: seq<char>, rest: seq<char>)
    requires AllDigits(d)
    requires rest == [] || !IsDigit(rest[0])
    ensures LeadingDigits(d + rest) == |d|
  {
    if d != [] {
      assert (d + rest)[0] == d[0];
      assert (d + rest)[1..] == d[1..] + rest;
      LeadingDigitsOf(d[1..], rest);
    } else {
      assert d + rest == rest;
    }
  }

  /** strtol on a line that starts, after blanks and an optional sign, with
      digits: it consumes the digits, whatever follows them, and the value is
      their number with the sign applied, saturated to `long`. */
  lemma ParseLeadingNumber(blanks: seq<char>, sign: seq<char>, d: seq<char>, rest: seq<char>)
    requires forall k :: 0 <= k < |blanks| ==> IsSpace(blanks[k])
    requires |sign| <= 1 && (sign != [] ==> sign[0] == '-' || sign[0] == '+')
    requires d != [] && AllDigits(d)
    requires rest == [] || !IsDigit(rest[0])
    ensures var negative := sign != [] && sign[0] == '-';
      ParseLong(blanks + sign + d + rest)
        == Parsed(SaturateLong(if negative then -(DigitsValue(d) as int) else DigitsValue(d)), true)
  {
    var t := sign + d + rest;
    assert blanks + sign + d + rest == blanks + t;
    assert SkipSpace(blanks + t) == t by {
      assert t[0] == if sign == [] then d[0] else sign[0];
      SkipSpaceBlanks(blanks, t);
    }
    ParseAfterBlanks(blanks + t, sign, d, rest);
  }

  /** ParseLeadingNumber once the blanks are skipped. */
  lemma ParseAfterBlanks(s: seq<char>, sign: seq<char>, d: seq<char>, rest: seq<char>)
    requires |sign| <= 1 && (sign != [] ==> sign[0] == '-' || sign[0] == '+')
    requires d != [] && AllDigits(d)
    requires rest == [] || !IsDigit(rest[0])
    requires SkipSpace(s) == sign + d + rest
    ensures var negative := sign != [] && sign[0] == '-';
      ParseLong(s) == Parsed(SaturateLong(if negative then -(DigitsValue(d) as int) else DigitsValue(d)), true)
  {
    SignThenDigits(sign, d, rest);
  }

  /** How strtol splits `sign + d + rest` after the blanks: the sign, then
      exactly the digits of `d`. */
  lemma SignThenDigits(sign: seq<char>, d: seq<char>, rest: seq<char>)
    requires |sign| <= 1 && (sign != [] ==> sign[0] == '-' || sign[0] == '+')
    requires d != [] && AllDigits(d)
    requires rest == [] || !IsDigit(rest[0])
    ensures var t, u := sign + d + rest, d + rest;
      var signed := t != [] && (t[0] == '-' || t[0] == '+');
      && signed == (sign != [])
      && (if signed then t[1..] else t) == u
      && (signed && t[0] == '-' <==> sign != [] && sign[0] == '-')
      && LeadingDigits(u) == |d| && u[..|d|] == d
  {
    var t, u := sign + d + rest, d + rest;
    LeadingDigitsOf(d, rest);
    if sign == [] {
      assert t == u && t[0] == d[0];
    } else {
      assert t[0] == sign[0] && t[1..] == u;
    }
  }

  /** strtol on a line whose first byte after blanks and an optional sign is
      not a digit consumes nothing (`value == end`) and gives 0. */
  lemma NoLeadingNumber(blanks: seq<char>, sign: seq<char>, rest: seq<char>)
    requires forall k :: 0 <= k < |blanks| ==> IsSpace(blanks[k])
    requires |sign| <= 1 && (sign != [] ==> sign[0] == '-' || sign[0] == '+')
    requires rest == [] || !IsDigit(rest[0])
    requires sign == [] && rest != [] ==> !IsSpace(rest[0]) && rest[0] != '-' && rest[0] != '+'
    ensures ParseLong(blanks + sign + rest) == Parsed(0, false)
  {
    var t := sign + rest;
    assert blanks + sign + rest == blanks + t;
    if t != [] {
      assert t[0] == if sign == [] then rest[0] else sign[0];
    }
    SkipSpaceBlanks(blanks, t);
    assert sign != [] ==> t[1..] == rest;
  }

  /** The decimal spelling of `n`, as printf's %d writes it. */
  function Decimal(n: nat): (r: seq<char>)
    ensures r != [] && AllDigits(r)
  {
    if n < 10 then [('0' as int + n) as char]
    else Decimal(n / 10) + [('0' as int + n % 10) as char]
  }

  lemma {:induction false} DecimalValue(n: nat)
    ensures DigitsValue(Decimal(n)) == n
  {
    if n >= 10 {
      DecimalValue(n / 10);
      var d := Decimal(n);
      assert d[..|d| - 1] == Decimal(n / 10);
    }
  }

  /** strtol consumes every decimal %d writes, and its value is the number
      saturated to the range of `long`. */
  lemma ParseDecimalSaturates(n: nat)
    ensures ParseLong(Decimal(n)) == Parsed(SaturateLong(n), true)
  {
    var d := Decimal(n);
    assert SkipSpace(d) == d by {
      assert IsDigit(d[0]);
    }
    assert LeadingDigits(d) == |d| && d[..|d|] == d;
    DecimalValue(n);
  }

  /** The same for a decimal after a minus sign. */
  lemma ParseNegativeDecimalSaturates(n: nat)
    ensures ParseLong(['-'] + Decimal(n)) == Parsed(SaturateLong(-(n as int)), true)
  {
    var s, d := ['-'] + Decimal(n), Decimal(n);
    assert SkipSpace(s) == s;
    assert s[1..] == d;
    assert LeadingDigits(d) == |d|;
    assert d[..|d|] == d;
    DecimalValue(n);
  }

  /** strtol reads back what %d writes, up to the range of `long`. */
  lemma ParseDecimal(n: nat)
    requires n <= LONG_MAX
    ensures ParseLong(Decimal(n)) == Parsed(n, true)
  {
    ParseDecimalSaturates(n);
  }

  lemma ParseNegativeDecimal(n: nat)
    requires n <= -LONG_MIN
    ensures ParseLong(['-'] + Decimal(n)) == Parsed(-(n as int), true)
  {
    ParseNegativeDecimalSaturates(n);
  }

  /** C's conversion of a `long` to uint16_t: reduction modulo 2^16. */
  function ToUint16(v: int): (r: uint16)
    ensures (v - r) % 0x1_0000 == 0
    ensures 0 <= v < 0x1_0000 ==> r == v
  {
    v % 0x1_0000
  }

  // ---------------------------------------------------------------------------
  // The 'p' command: measurement period
  // ---------------------------------------------------------------------------

  datatype OpMode = Idle | Continuous

  /** A configuration call the console makes on the CO2 sensor. */
  datatype ConfigCall = SetMeasurementConfig(mode: OpMode) | SetMeasurementRate(period: uint16)

  /** What the 'p' command decides for the typed line: nothing (no leading
      number), a range error for the truncated value, or the truncated value
      applied, with `ok` when all three configuration calls succeeded. */
  datatype PeriodOutcome = NoNumber | OutOfRange(period: uint16) | Applied(period: uint16, ok: bool)

  function PeriodCommand(line: seq<char>, s1: bv32, s2: bv32, s3: bv32): (r: PeriodOutcome)
    ensures r.NoNumber? <==> !ParseLong(line).consumed
    ensures !r.NoNumber? ==> r.period == ToUint16(ParseLong(line).value)
    ensures r.Applied? <==> !r.NoNumber? && 5 <= r.period <= 4095
    ensures r.Applied? ==> (r.ok <==> s1 == 0 && s2 == 0 && s3 == 0)
  {
    var parsed := ParseLong(line);
    var period := ToUint16(parsed.value);
    if !parsed.consumed then NoNumber
    else if period < XENSIV_PASCO2_MEAS_RATE_MIN || period > XENSIV_PASCO2_MEAS_RATE_MAX then OutOfRange(period)
    else Applied(period, s1 | s2 | s3 == 0)
  }

  /** The calls made on the sensor: the three-step reconfiguration, only when
      the period is accepted, and then unconditionally all three. */
  function ConfigCalls(r: PeriodOutcome): (calls: seq<ConfigCall>)
    ensures calls != [] <==> r.Applied?
    ensures r.Applied? ==>
      && |calls| == 3
      && calls[0] == SetMeasurementConfig(Idle)
      && calls[1] == SetMeasurementRate(r.period)
      && calls[2] == SetMeasurementConfig(Continuous)
  {
    if r.Applied? then
      [SetMeasurementConfig(Idle), SetMeasurementRate(r.period), SetMeasurementConfig(Continuous)]
    else []
  }

  function PeriodMessages(r: PeriodOutcome): seq<Out> {
    match r
    case NoNumber => []
    case OutOfRange(_) => [PeriodRangeError]
    case Applied(period, ok) => [if ok then PeriodSet(period) else PeriodError]
  }

  /** A typed period in the valid range is applied as typed. */
  lemma PeriodInRange(n: nat, s1: bv32, s2: bv32, s3: bv32)
    requires 5 <= n <= 4095
    ensures PeriodCommand(Decimal(n), s1, s2, s3) == Applied(n, s1 | s2 | s3 == 0)
  {
    ParseDecimal(n);
  }

  /** A typed period below 5, or from 4096 up to the 16-bit limit, gets a
      range error and no configuration call. */
  lemma PeriodOutOfRange(n: nat, s1: bv32, s2: bv32, s3: bv32)
    requires n < 5 || 4095 < n < 0x1_0000
    ensures PeriodCommand(Decimal(n), s1, s2, s3) == OutOfRange(n)
    ensures ConfigCalls(PeriodCommand(Decimal(n), s1, s2, s3)) == []
  {
    ParseDecimal(n);
  }

  /** The range check sees the typed period only after its truncation to 16
      bits: a period typed beyond 65535 is judged, and applied, modulo 2^16. */
  lemma PeriodTruncatedBeforeRangeCheck(n: nat, s1: bv32, s2: bv32, s3: bv32)
    requires 0x1_0000 <= n <= LONG_MAX
    ensures PeriodCommand(Decimal(n), s1, s2, s3)
         == if 5 <= n % 0x1_0000 <= 4095 then Applied(n % 0x1_0000, s1 | s2 | s3 == 0)
            else OutOfRange(n % 0x1_0000)
  {
    ParseDecimal(n);
  }

  /** A period typed beyond LONG_MAX is not reduced modulo 2^16: strtol
      saturates it to LONG_MAX first, whose low 16 bits are 65535, so it gets
      the range error and no configuration call. */
  lemma PeriodSaturatesHigh(n: nat, s1: bv32, s2: bv32, s3: bv32)
    requires n > LONG_MAX
    ensures PeriodCommand(Decimal(n), s1, s2, s3) == OutOfRange(0xFFFF)
    ensures ConfigCalls(PeriodCommand(Decimal(n), s1, s2, s3)) == []
  {
    ParseDecimalSaturates(n);
  }

  /** So typing 4294967301, which is 5 modulo 2^16, gives the range error. */
  lemma PeriodSaturatesExample(s1: bv32, s2: bv32, s3: bv32)
    ensures PeriodCommand(Decimal(4294967301), s1, s2, s3) == OutOfRange(0xFFFF)
  {
    PeriodSaturatesHigh(4294967301, s1, s2, s3);
  }

  /** So typing 65541 sets the measurement period to 5 instead of giving a
      range error. */
  lemma PeriodWrapsExample(s1: bv32, s2: bv32, s3: bv32)
    ensures PeriodCommand(Decimal(65541), s1, s2, s3) == Applied(5, s1 | s2 | s3 == 0)
  {
    PeriodTruncatedBeforeRangeCheck(65541, s1, s2, s3);
  }

  /** A negative period wraps the same way: it is judged, and applied,
      modulo 2^16. */
  lemma PeriodNegativeWraps(n: nat, s1: bv32, s2: bv32, s3: bv32)
    requires 0 < n <= -LONG_MIN
    ensures var p := (-(n as int)) % 0x1_0000;
      PeriodCommand(['-'] + Decimal(n), s1, s2, s3)
         == if 5 <= p <= 4095 then Applied(p, s1 | s2 | s3 == 0) else OutOfRange(p)
  {
    var line, p := ['-'] + Decimal(n), (-(n as int)) % 0x1_0000;
    ParseNegativeDecimal(n);
    assert ParseLong(line).consumed && ParseLong(line).value == -(n as int);
    assert ToUint16(-(n as int)) == p;
    var r := PeriodCommand(line, s1, s2, s3);
    assert !r.NoNumber? && r.period == p;
    if 5 <= p <= 4095 {
      assert r.Applied?;
    } else {
      assert r.OutOfRange?;
    }
  }

  /** A period typed below LONG_MIN saturates to LONG_MIN, whose low 16 bits
      are 0, so it gets the range error and no configuration call. */
  lemma PeriodSaturatesLow(n: nat, s1: bv32, s2: bv32, s3: bv32)
    requires n > -LONG_MIN
    ensures PeriodCommand(['-'] + Decimal(n), s1, s2, s3) == OutOfRange(0)
    ensures ConfigCalls(PeriodCommand(['-'] + Decimal(n), s1, s2, s3)) == []
  {
    ParseNegativeDecimalSaturates(n);
  }

  /** So typing -65531 sets the measurement period to 5. */
  lemma NegativePeriodWrapsExample(s1: bv32, s2: bv32, s3: bv32)
    ensures PeriodCommand(['-'] + Decimal(65531), s1, s2, s3) == Applied(5, s1 | s2 | s3 == 0)
  {
    assert (-65531) % 0x1_0000 == 5;
    PeriodNegativeWraps(65531, s1, s2, s3);
  }

  // ---------------------------------------------------------------------------
  // The 'i' command and the flags after a keystroke
  // ---------------------------------------------------------------------------

  /** The answer to the y/n question: only the one-character lines "y" and
      "n" are answers. */
  function DiagAnswer(line: seq<char>): Option<bool> {
    if |line| != 1 || (line[0] != 'y' && line[0] != 'n') then None else Some(line[0] == 'y')
  }

  /** "y" means on, "n" means off, and every other line is rejected. */
  lemma DiagAnswerMeaning(line: seq<char>)
    ensures DiagAnswer(line) == Some(true) <==> line == ['y']
    ensures DiagAnswer(line) == Some(false) <==> line == ['n']
    ensures DiagAnswer(line) == None <==> line != ['y'] && line != ['n']
  {
  }

  function DiagMessages(r: Option<bool>): seq<Out> {
    match r
    case None => [InputError]
    case Some(enable) => [if enable then LoggingEnabled else LoggingDisabled]
  }

  datatype Flags = Flags(logInternal: bool, displayPpm: bool)

  /** The shared flags after the console handled key `key` with typed line
      `line`: display goes off at the start of handling and back on at the
      end, except when a bad y/n answer cuts the handling short. */
  function KeyFlags(key: char, line: seq<char>, logInternal: bool): (after: Flags)
    ensures after.displayPpm <==> !(key == 'i' && DiagAnswer(line).None?)
    ensures after.logInternal ==
      if key == 'i' && DiagAnswer(line).Some? then line == ['y'] else logInternal
  {
    if key == 'i' then
      match DiagAnswer(line)
      case None => Flags(logInternal, false)
      case Some(enable) => Flags(enable, true)
    else Flags(logInternal, true)
  }

  /** A bad y/n answer ("yes", say) leaves diagnostics as they were and the
      ppm display off, so a completed acquisition cycle then prints nothing. */
  lemma BadAnswerSilencesLoop(line: seq<char>, before: Flags, c: Pasco2Task.ReadClass, status: Option<bv8>)
    requires line != ['y'] && line != ['n']
    ensures KeyFlags('i', line, before.logInternal) == Flags(before.logInternal, false)
    ensures Pasco2Task.CycleReport(c, status, before.logInternal, false) == []
  {
    Pasco2Task.SilentWhenDisplayOff(c, status, before.logInternal);
  }

  /** One handled keystroke, with the line typed after it (empty for keys
      that read none). */
  datatype Command = Command(key: char, line: seq<char>)

  /** The flags after handling the keystrokes `cmds` in turn. Without an
      'i' among them, diagnostics stay as they were. */
  function RunCommands(cmds: seq<Command>, flags: Flags): (r: Flags)
    ensures cmds == [] ==> r == flags
    ensures (forall k :: 0 <= k < |cmds| ==> cmds[k].key != 'i') ==> r.logInternal == flags.logInternal
    decreases |cmds|
  {
    if cmds == [] then flags else RunCommands(cmds[1..], KeyFlags(cmds[0].key, cmds[0].line, flags.logInternal))
  }

  lemma {:induction false} RunCommandsSnoc(cmds: seq<Command>, c: Command, flags: Flags)
    ensures RunCommands(cmds + [c], flags) == KeyFlags(c.key, c.line, RunCommands(cmds, flags).logInternal)
    decreases |cmds|
  {
    if cmds != [] {
      assert (cmds + [c])[1..] == cmds[1..] + [c];
      RunCommandsSnoc(cmds[1..], c, KeyFlags(cmds[0].key, cmds[0].line, flags.logInternal));
    }
  }

  /** The diagnostics setting chosen by the last accepted y/n answer, if any. */
  function LastDiagChoice(cmds: seq<Command>, initial: bool): bool
    decreases |cmds|
  {
    if cmds == [] then initial
    else
      var c := cmds[|cmds| - 1];
      if c.key == 'i' && DiagAnswer(c.line).Some? then DiagAnswer(c.line).value
      else LastDiagChoice(cmds[..|cmds| - 1], initial)
  }

  /** After any run of keystrokes, diagnostics are whatever the last accepted
      y/n answer chose, and the ppm display is on exactly when the last key
      was not an `i` with a bad answer. */
  lemma {:induction false} FlagsAfterCommands(cmds: seq<Command>, flags: Flags)
    ensures RunCommands(cmds, flags).logInternal == LastDiagChoice(cmds, flags.logInternal)
    ensures cmds != [] ==>
      var last := cmds[|cmds| - 1];
      RunCommands(cmds, flags).displayPpm <==> !(last.key == 'i' && last.line != ['y'] && last.line != ['n'])
    decreases |cmds|
  {
    if cmds != [] {
      var init, last := cmds[..|cmds| - 1], cmds[|cmds| - 1];
      assert cmds == init + [last];
      RunCommandsSnoc(init, last, flags);
      FlagsAfterCommands(init, flags);
    }
  }

  /** Answering "n" twice leaves the same flags as answering it once. */
  lemma RepeatedNoIsIdempotent(flags: Flags)
    ensures RunCommands([Command('i', ['n']), Command('i', ['n'])], flags)
         == RunCommands([Command('i', ['n'])], flags)
    ensures !RunCommands([Command('i', ['n'])], flags).logInternal
    ensures RunCommands([Command('i', ['n'])], flags).displayPpm
  {
  }

  /** Each 'i' answered "n" prints the prompt, the echo and the confirmation
      that logging is off, makes no configuration call, and leaves logging off
      and the display on, whatever the flags were: repeating it adds nothing
      but one more confirmation. */
  lemma AnswerNoOutput(got: seq<char>, logInternal: bool, s1: bv32, s2: bv32, s3: bv32)
    requires KeptLine(got) == ['n']
    ensures KeyTranscript('i', got, s1, s2, s3) == [DiagPrompt] + Echoes(got) + [Echo('\n'), LoggingDisabled]
    ensures KeyCalls('i', KeptLine(got), s1, s2, s3) == []
    ensures KeyFlags('i', KeptLine(got), logInternal) == Flags(false, true)
  {
  }

  // ---------------------------------------------------------------------------
  // One keystroke of the console task
  // ---------------------------------------------------------------------------

  /** The line the console sees after a prompt, when the bytes typed from
      `pos` on are the receive stream. */
  function TypedLine(rx: nat -> char, pos: nat): seq<char> {
    KeptLine(ReadChars(rx, pos, IFX_PASCO2_VALUE_MAXLENGTH - 1))
  }

  /** Typing a short line without blanks or NULs and pressing return gives
      exactly that line. */
  lemma TypedLineExact(rx: nat -> char, pos: nat, s: seq<char>)
    requires |s| < IFX_PASCO2_VALUE_MAXLENGTH - 1
    requires forall k :: 0 <= k < |s| ==> At(rx, pos + k) == s[k] && !IsSpace(s[k]) && s[k] != '\0'
    requires At(rx, pos + |s|) == '\r'
    ensures TypedLine(rx, pos) == s
  {
    var got := s + ['\r'];
    ReadCharsUnique(rx, pos, IFX_PASCO2_VALUE_MAXLENGTH - 1, got);
    StripSpaceAppend(s, ['\r']);
    StripSpaceNoSpace(s);
    assert StripSpace(['\r']) == [];
    assert StripSpace(got) == s;
    CStrTerminated(s, []);
    assert s + ['\0'] + [] == s + ['\0'];
    assert CStr(s + ['\0']) == s;
  }

  /** Typing "p", then "60" and return, sets the measurement period to 60. */
  lemma PeriodSixtyScenario(rx: nat -> char, pos: nat)
    requires At(rx, pos) == '6' && At(rx, pos + 1) == '0' && At(rx, pos + 2) == '\r'
    ensures PeriodCommand(TypedLine(rx, pos), 0, 0, 0) == Applied(60, true)
  {
    assert Decimal(60) == ['6', '0'];
    TypedLineExact(rx, pos, ['6', '0']);
    PeriodInRange(60, 0, 0, 0);
  }

  /** The bytes the line editor takes from `pos` on after key `key`: a
      line for 'p' and 'i', nothing for the other keys. */
  function LineBytes(key: char, rx: nat -> char, pos: nat): seq<char> {
    if key == 'p' || key == 'i' then ReadChars(rx, pos, IFX_PASCO2_VALUE_MAXLENGTH - 1) else []
  }

  /** What the 'p' branch writes: the prompt, the echo of the typed bytes
      and the outcome message. */
  function PeriodTranscript(got: seq<char>, s1: bv32, s2: bv32, s3: bv32): seq<Out> {
    [PeriodPrompt] + Echoes(got) + [Echo('\n')] + PeriodMessages(PeriodCommand(KeptLine(got), s1, s2, s3))
  }

  /** What the 'i' branch writes: the prompt, the echo of the typed bytes
      and the confirmation or input error. */
  function DiagTranscript(got: seq<char>): seq<Out> {
    [DiagPrompt] + Echoes(got) + [Echo('\n')] + DiagMessages(DiagAnswer(KeptLine(got)))
  }

  /** The configuration calls made while handling key `key` with typed line
      `line`. */
  function KeyCalls(key: char, line: seq<char>, s1: bv32, s2: bv32, s3: bv32): (calls: seq<ConfigCall>)
    ensures calls != [] ==> key == 'p'
  {
    if key == 'p' then ConfigCalls(PeriodCommand(line, s1, s2, s3)) else []
  }

  /** Everything the console writes while handling key `key`, given the
      bytes `got` the line editor took for it. */
  function KeyTranscript(key: char, got: seq<char>, s1: bv32, s2: bv32, s3: bv32): seq<Out> {
    if key == '?' then [Menu]
    else if key == 'p' then PeriodTranscript(got, s1, s2, s3)
    else if key == 'i' then DiagTranscript(got)
    else [Hint]
  }

  /** The 'p' dialog prints its prompt, echoes every typed byte and a
      newline, then at most one message: exactly one when a number was
      typed, none otherwise. */
  lemma PeriodTranscriptShape(got: seq<char>, s1: bv32, s2: bv32, s3: bv32)
    ensures var t := PeriodTranscript(got, s1, s2, s3);
      && |got| + 2 <= |t| <= |got| + 3
      && t[0] == PeriodPrompt && t[1..|got| + 1] == Echoes(got) && t[|got| + 1] == Echo('\n')
      && (|t| == |got| + 3 <==> ParseLong(KeptLine(got)).consumed)
  {
    var echo, msgs := Echoes(got), PeriodMessages(PeriodCommand(KeptLine(got), s1, s2, s3));
    var t := [PeriodPrompt] + echo + [Echo('\n')] + msgs;
    assert |msgs| == 1 <==> ParseLong(KeptLine(got)).consumed;
    assert t[1..|got| + 1] == echo;
  }

  /** The 'i' dialog prints its prompt, echoes every typed byte and a
      newline, then exactly one message: the input error exactly when the
      answer is rejected. */
  lemma DiagTranscriptShape(got: seq<char>)
    ensures var t := DiagTranscript(got);
      && |t| == |got| + 3
      && t[0] == DiagPrompt && t[1..|got| + 1] == Echoes(got) && t[|got| + 1] == Echo('\n')
      && (t[|got| + 2] == InputError <==> DiagAnswer(KeptLine(got)).None?)
  {
    var echo, msgs := Echoes(got), DiagMessages(DiagAnswer(KeptLine(got)));
    var t := [DiagPrompt] + echo + [Echo('\n')] + msgs;
    assert t[1..|got| + 1] == echo;
  }

  /** Every key prints something; a key other than 'p' and 'i' prints one
      message and reads no line, and 'p' and 'i' echo the typed line after
      their prompt. */
  lemma KeyTranscriptShape(key: char, got: seq<char>, s1: bv32, s2: bv32, s3: bv32)
    ensures var t := KeyTranscript(key, got, s1, s2, s3);
      && t != []
      && (key != 'p' && key != 'i' ==> |t| == 1)
      && (key == 'p' || key == 'i' ==> |got| + 2 <= |t| && t[1..|got| + 1] == Echoes(got))
  {
    if key == 'p' {
      PeriodTranscriptShape(got, s1, s2, s3);
    } else if key == 'i' {
      DiagTranscriptShape(got);
    }
  }

  /** Regrouping a dialog's output: prompt, echo, newline, then messages.
      Dafny knows this; it is stated as a lemma only so that the dialog
      methods which need it stay cheap to verify. */
  lemma TranscriptAssoc(before: seq<Out>, prompt: Out, echo: seq<Out>, msgs: seq<Out>)
    ensures before + [prompt] + echo + [Echo('\n')] + msgs == before + ([prompt] + echo + [Echo('\n')] + msgs)
  {
  }

  /** The console task: its line buffer, the UART, and the acquisition task
      whose flags it sets. */
  class TerminalUiTask {
    const uart: Uart
    const sensorTask: Pasco2Task.SensorTask
    const value: array<char>

    ghost predicate Valid() {
      sensorTask.uart == uart && value.Length == IFX_PASCO2_VALUE_MAXLENGTH
    }

    /** Task start: allocate the buffer and print the menu. */
    constructor (uart: Uart, sensorTask: Pasco2Task.SensorTask)
      requires sensorTask.uart == uart
      modifies uart`tx
      ensures Valid() && this.uart == uart && this.sensorTask == sensorTask && fresh(value)
      ensures uart.tx == old(uart.tx) + [Menu]
    {
      this.uart := uart;
      this.sensorTask := sensorTask;
      value := new char[IFX_PASCO2_VALUE_MAXLENGTH];
      new;
      uart.Print(Menu);
    }

    /** One pass of the task loop once a key arrived. `s1`, `s2`, `s3` are
        what the three configuration calls return should they be made. */
    method HandleKey(s1: bv32, s2: bv32, s3: bv32) returns (calls: seq<ConfigCall>)
      requires Valid()
      modifies uart, sensorTask, value
      ensures sensorTask.warningLed == old(sensorTask.warningLed)
      ensures
        var key := At(uart.rx, old(uart.rxPos));
        var got := LineBytes(key, uart.rx, old(uart.rxPos) + 1);
        var line := KeptLine(got);
        && uart.rxPos == old(uart.rxPos) + 1 + |got|
        && Flags(sensorTask.logInternal, sensorTask.displayPpm)
           == KeyFlags(key, line, old(sensorTask.logInternal))
        && calls == KeyCalls(key, line, s1, s2, s3)
        && uart.tx == old(uart.tx) + KeyTranscript(key, got, s1, s2, s3)
    {
      var rxValue := uart.Getc();
      calls := HandleKeyValue(rxValue, s1, s2, s3);
    }

    /** The handling of a received key: the ppm display is switched off, the
        key is dispatched, and the display is switched back on unless a bad
        y/n answer `continue`s past that. */
    method HandleKeyValue(key: char, s1: bv32, s2: bv32, s3: bv32) returns (calls: seq<ConfigCall>)
      requires Valid()
      modifies uart, sensorTask`logInternal, sensorTask`displayPpm, value
      ensures
        var got := LineBytes(key, uart.rx, old(uart.rxPos));
        var line := KeptLine(got);
        && uart.rxPos == old(uart.rxPos) + |got|
        && Flags(sensorTask.logInternal, sensorTask.displayPpm) == KeyFlags(key, line, old(sensorTask.logInternal))
        && calls == KeyCalls(key, line, s1, s2, s3)
        && uart.tx == old(uart.tx) + KeyTranscript(key, got, s1, s2, s3)
    {
      sensorTask.DisplayPpm(false);
      var accepted;
      calls, accepted := Dispatch(key, s1, s2, s3);
      if accepted {
        sensorTask.DisplayPpm(true);
      }
    }

    /** The switch on the key: the menu, the 'p' and 'i' dialogs, or the
        hint. `accepted` is false when the handling ends at the `continue`
        after a bad y/n answer. */
    method Dispatch(key: char, s1: bv32, s2: bv32, s3: bv32) returns (calls: seq<ConfigCall>, accepted: bool)
      requires Valid()
      modifies uart, value, sensorTask`logInternal
      ensures
        var got := LineBytes(key, uart.rx, old(uart.rxPos));
        var line := KeptLine(got);
        && uart.rxPos == old(uart.rxPos) + |got|
        && Flags(sensorTask.logInternal, accepted) == KeyFlags(key, line, old(sensorTask.logInternal))
        && calls == KeyCalls(key, line, s1, s2, s3)
        && uart.tx == old(uart.tx) + KeyTranscript(key, got, s1, s2, s3)
    {
      calls, accepted := [], true;
      if key == '?' {
        uart.Print(Menu);
      } else if key == 'p' {
        calls := PeriodDialog(s1, s2, s3);
      } else if key == 'i' {
        accepted := DiagDialog();
      } else {
        uart.Print(Hint);
      }
    }

    /** Print a prompt, then terminal_ui_readline on the `value` buffer;
        `line` is the C string left there: the kept bytes up to the first NUL
        among them. */
    method Ask(prompt: Out) returns (line: seq<char>)
      requires Valid()
      modifies uart, value
      ensures
        var got := ReadChars(uart.rx, old(uart.rxPos), IFX_PASCO2_VALUE_MAXLENGTH - 1);
        && uart.rxPos == old(uart.rxPos) + |got|
        && uart.tx == old(uart.tx) + [prompt] + Echoes(got) + [Echo('\n')]
        && line == KeptLine(got)
    {
      uart.Print(prompt);
      ghost var kept := StripSpace(ReadChars(uart.rx, uart.rxPos, IFX_PASCO2_VALUE_MAXLENGTH - 1));
      Readline(uart, value, IFX_PASCO2_VALUE_MAXLENGTH);
      CStrTerminated(kept, value[|kept| + 1..]);
      line := CStr(value[..]);
    }

    /** The 'p' branch: prompt, read a line, and act on its leading number. */
    method PeriodDialog(s1: bv32, s2: bv32, s3: bv32) returns (calls: seq<ConfigCall>)
      requires Valid()
      modifies uart, value
      ensures
        var got := ReadChars(uart.rx, old(uart.rxPos), IFX_PASCO2_VALUE_MAXLENGTH - 1);
        var r := PeriodCommand(KeptLine(got), s1, s2, s3);
        && uart.rxPos == old(uart.rxPos) + |got|
        && calls == ConfigCalls(r)
        && uart.tx == old(uart.tx) + PeriodTranscript(got, s1, s2, s3)
    {
      ghost var got := ReadChars(uart.rx, uart.rxPos, IFX_PASCO2_VALUE_MAXLENGTH - 1);
      var line := Ask(PeriodPrompt);
      calls := ApplyPeriod(line, s1, s2, s3);
      TranscriptAssoc(old(uart.tx), PeriodPrompt, Echoes(got), PeriodMessages(PeriodCommand(line, s1, s2, s3)));
    }

    /** strtol on the typed line, the cast to uint16_t, the range check and,
        for an accepted period, the three configuration calls, all made
        whatever each returns, with success reported only when none failed. */
    method ApplyPeriod(line: seq<char>, s1: bv32, s2: bv32, s3: bv32) returns (calls: seq<ConfigCall>)
      modifies uart`tx
      ensures calls == ConfigCalls(PeriodCommand(line, s1, s2, s3))
      ensures uart.tx == old(uart.tx) + PeriodMessages(PeriodCommand(line, s1, s2, s3))
    {
      calls := [];
      var parsed := ParseLong(line);
      var measurementPeriod := ToUint16(parsed.value);
      if parsed.consumed {
        if measurementPeriod < XENSIV_PASCO2_MEAS_RATE_MIN || measurementPeriod > XENSIV_PASCO2_MEAS_RATE_MAX {
          uart.Print(PeriodRangeError);
        } else {
          calls := Reconfigure(measurementPeriod, s1, s2, s3);
        }
      }
    }

    /** Switch the sensor to idle, set the period and switch it back to
        continuous mode: all three calls are made whatever each returns, and
        success is reported only when none of them failed. */
    method Reconfigure(period: uint16, s1: bv32, s2: bv32, s3: bv32) returns (calls: seq<ConfigCall>)
      modifies uart`tx
      ensures calls == [SetMeasurementConfig(Idle), SetMeasurementRate(period), SetMeasurementConfig(Continuous)]
      ensures uart.tx == old(uart.tx) + [if s1 == 0 && s2 == 0 && s3 == 0 then PeriodSet(period) else PeriodError]
    {
      calls := [SetMeasurementConfig(Idle)];
      var status := s1;
      calls := calls + [SetMeasurementRate(period)];
      status := status | s2;
      calls := calls + [SetMeasurementConfig(Continuous)];
      status := status | s3;
      if status == 0 {
        uart.Print(PeriodSet(period));
      } else {
        uart.Print(PeriodError);
      }
    }

    /** The 'i' branch: prompt, read a line, and accept only "y" or "n";
        `accepted` is false when the handling stops at the input error. */
    method DiagDialog() returns (accepted: bool)
      requires Valid()
      modifies uart, value, sensorTask`logInternal
      ensures
        var got := ReadChars(uart.rx, old(uart.rxPos), IFX_PASCO2_VALUE_MAXLENGTH - 1);
        var answer := DiagAnswer(KeptLine(got));
        && uart.rxPos == old(uart.rxPos) + |got|
        && accepted == answer.Some?
        && sensorTask.logInternal == (if accepted then answer.value else old(sensorTask.logInternal))
        && uart.tx == old(uart.tx) + DiagTranscript(got)
    {
      ghost var got := ReadChars(uart.rx, uart.rxPos, IFX_PASCO2_VALUE_MAXLENGTH - 1);
      var line := Ask(DiagPrompt);
      accepted := ApplyAnswer(line);
      TranscriptAssoc(old(uart.tx), DiagPrompt, Echoes(got), DiagMessages(DiagAnswer(line)));
    }

    /** The check on the answer held in `value` (its strlen must be 1 and its
        first byte 'y' or 'n') and, for an accepted answer, the switch of
        the acquisition task's diagnostics. */
    method ApplyAnswer(line: seq<char>) returns (accepted: bool)
      requires Valid()
      modifies uart`tx, sensorTask`logInternal
      ensures accepted == DiagAnswer(line).Some?
      ensures sensorTask.logInternal == (if accepted then DiagAnswer(line).value else old(sensorTask.logInternal))
      ensures uart.tx == old(uart.tx) + DiagMessages(DiagAnswer(line))
    {
      if |line| != 1 || (line[0] != 'y' && line[0] != 'n') {
        uart.Print(InputError);
        return false;
      }
      sensorTask.EnableInternalLogging(line[0] == 'y');
      accepted := true;
    }
  }
}
