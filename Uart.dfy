/** The telemetry serialiser of cnc_ll_uart.c. The transmitter is an oracle:
    every byte handed to cncUSART_putChar is appended to the port's output,
    and the flag putChar returns for the n-th byte of the port's life is
    `txOk(n)`. Strings are byte buffers read up to their first NUL. */
module Uart {
  import opened Common

  // uart_data_t (cnc_ll_uart.h:20-28)
  const DATA_LOG: nat := 0x01
  const FORMAT_TAB: nat := 0x02
  const FORMAT_SPACE: nat := 0x04
  const FORMAT_LF: nat := 0x08
  const FORMAT_BS: nat := 0x10

  /** BASH_SIZE (cnc_ll_uart.c:7): the buffer send2Bash builds in. */
  const BASH_SIZE: nat := 80
  /** The size of the number buffer of the sendData functions. */
  const TMP_SIZE: nat := 10

  const NUL: byte := 0x00
  const TAB: byte := 0x09
  const LF: byte := 0x0A
  const CR: byte := 0x0D
  const ESC: byte := 0x1B
  const SPACE: byte := 0x20
  const MINUS: byte := 0x2D
  const DOT: byte := 0x2E
  const SLASH: byte := 0x2F
  const DIGIT_0: byte := 0x30

  // The SGR sequences of ECMA-48 section 8.3.117 the display format uses
  // (cnc_ll_uart.h:32, 34, 39, 41). The erase-line command is spelled with a
  // lower-case `k` in the source and is kept that way.
  const EraseLine: seq<byte> := [ESC, 0x5B, 0x6B]                  // ESC [ k
  const Normal: seq<byte> := [ESC, 0x5B, 0x30, 0x6D]               // ESC [ 0 m
  const Red: seq<byte> := [ESC, 0x5B, 0x30, 0x3B, 0x33, 0x31, 0x6D]  // ESC [ 0 ; 3 1 m
  const Green: seq<byte> := [ESC, 0x5B, 0x30, 0x3B, 0x33, 0x32, 0x6D] // ESC [ 0 ; 3 2 m

  predicate NoNul(s: seq<byte>)
  {
    forall i :: 0 <= i < |s| ==> s[i] != NUL
  }

  lemma SgrNoNul()
    ensures NoNul(EraseLine) && NoNul(Normal) && NoNul(Red) && NoNul(Green)
  {
  }

  // ---------------------------------------------------------------------------
  // Strings and decimal text

  /** What a bounded string send reads from buffer s with limit count: the
      bytes before the first NUL, at most count of them. */
  function Emitted(s: seq<byte>, count: nat): (e: seq<byte>)
    ensures |e| <= count && e <= s && NoNul(e)
    ensures |e| == count || |e| == |s| || s[|e|] == NUL
  {
    if count == 0 || s == [] || s[0] == NUL then [] else [s[0]] + Emitted(s[1..], count - 1)
  }

  /** Emitted is the longest NUL-free prefix within the limit: any prefix
      that stops at the limit, at the end or at a NUL is it. */
  lemma {:induction false} EmittedStopsAt(s: seq<byte>, count: nat, i: nat)
    requires i <= |s| && i <= count && NoNul(s[..i])
    requires i == count || i == |s| || s[i] == NUL
    ensures Emitted(s, count) == s[..i]
  {
    if i > 0 {
      assert s[0] == s[..i][0];
      EmittedStopsAt(s[1..], count - 1, i - 1);
      assert s[1..][..i - 1] == s[..i][1..];
    }
  }

  /** A terminated string within the limit is sent whole. */
  lemma EmittedTerminated(s: seq<byte>, count: nat)
    requires NoNul(s) && |s| <= count
    ensures Emitted(s + [NUL], count) == s
  {
    assert (s + [NUL])[..|s|] == s;
    EmittedStopsAt(s + [NUL], count, |s|);
  }

  /** The number of successful putChar calls among the k attempts that
      start with the port's attempt number `start`. */
  function Successes(txOk: nat -> bool, start: nat, k: nat): (n: nat)
    ensures n <= k
  {
    if k == 0 then 0 else Successes(txOk, start, k - 1) + (if txOk(start + k - 1) then 1 else 0)
  }

  /** The decimal digits of n, most significant first, as itoa writes them. */
  function Digits(n: nat): (d: seq<byte>)
    ensures 1 <= |d|
    ensures forall i :: 0 <= i < |d| ==> DIGIT_0 <= d[i] <= DIGIT_0 + 9
  {
    if n < 10 then [DIGIT_0 + n as byte] else Digits(n / 10) + [DIGIT_0 + (n % 10) as byte]
  }

  /** itoa(v, buf, 10): an optional minus sign, then the digits. */
  function Decimal(v: int): (t: seq<byte>)
    ensures 1 <= |t| && NoNul(t)
  {
    if v < 0 then [MINUS] + Digits(-v) else Digits(v)
  }

  /** Reading digits back. */
  function DigitsValue(d: seq<byte>): int
  {
    if d == [] then 0 else DigitsValue(d[..|d| - 1]) * 10 + d[|d| - 1] as int - DIGIT_0 as int
  }

  function ParseDecimal(t: seq<byte>): int
  {
    if |t| > 0 && t[0] == MINUS then -DigitsValue(t[1..]) else DigitsValue(t)
  }

  lemma {:induction false} DigitsRoundTrip(n: nat)
    ensures DigitsValue(Digits(n)) == n
  {
    if n >= 10 {
      var d := Digits(n);
      DigitsRoundTrip(n / 10);
      assert d[..|d| - 1] == Digits(n / 10);
    }
  }

  /** The decimal text of every integer reads back as that integer. */
  lemma DecimalRoundTrip(v: int)
    ensures ParseDecimal(Decimal(v)) == v
  {
    if v < 0 {
      DigitsRoundTrip(-v);
      assert ([MINUS] + Digits(-v))[1..] == Digits(-v);
    } else {
      DigitsRoundTrip(v);
    }
  }

  function Pow10(k: nat): nat
  {
    if k == 0 then 1 else 10 * Pow10(k - 1)
  }

  lemma {:induction false} DigitsBound(n: nat, k: nat)
    requires 1 <= k && n < Pow10(k)
    ensures |Digits(n)| <= k
  {
    if n >= 10 {
      DigitsBound(n / 10, k - 1);
    }
  }

  /** An int16_t takes at most six bytes, so it fits the ten-byte buffer
      with its terminator; a uint8_t takes at most three digits. */
  lemma DecimalFits(v: int)
    requires IsInt16(v)
    ensures |Decimal(v)| <= 6
  {
    if v < 0 {
      DigitsBound(-v, 5);
    } else {
      DigitsBound(v, 5);
    }
  }

  lemma ByteDigitsFit(b: nat)
    requires b < 256
    ensures |Digits(b)| <= 3
  {
    DigitsBound(b, 3);
  }

  // ---------------------------------------------------------------------------
  // Separators

  /** The separator a sendData function selects; Unset stands for the
      uninitialised local `separator` the pointer is left at. */
  datatype Separator = Tab | Space | Newline | Slash | Unset

  /** The switch on mode & ~0x0001. */
  function SelectSeparator(mode: nat): Separator
  {
    var format := mode - mode % 2;
    if format == FORMAT_TAB then Tab
    else if format == FORMAT_SPACE then Space
    else if format == FORMAT_LF then Newline
    else if format == FORMAT_BS then Slash
    else Unset
  }

  /** The LOG bit never changes the separator, and with it cleared exactly
      the four single format values select one; any other mode (no format
      bit, or more than one) leaves the separator unset. */
  lemma SeparatorChoice(mode: nat)
    ensures SelectSeparator(mode - mode % 2 + DATA_LOG) == SelectSeparator(mode - mode % 2)
    ensures mode % 2 == 0 ==>
              (SelectSeparator(mode) == Tab <==> mode == FORMAT_TAB)
              && (SelectSeparator(mode) == Space <==> mode == FORMAT_SPACE)
              && (SelectSeparator(mode) == Newline <==> mode == FORMAT_LF)
              && (SelectSeparator(mode) == Slash <==> mode == FORMAT_BS)
    ensures SelectSeparator(mode) == Unset <==> mode - mode % 2 !in {FORMAT_TAB, FORMAT_SPACE, FORMAT_LF, FORMAT_BS}
  {
  }

  /** The buffer the separator pointer designates: a one-character literal
      with its terminator, or the byte `stray` in the uninitialised local. */
  function SeparatorBuffer(sep: Separator, stray: byte): (b: seq<byte>)
    ensures 1 <= |b|
  {
    match sep
    case Tab => [TAB, NUL]
    case Space => [SPACE, NUL]
    case Newline => [LF, NUL]
    case Slash => [SLASH, NUL]
    case Unset => [stray]
  }

  /** The bytes putString(pSeparator, 1) sends. */
  function SeparatorBytes(sep: Separator, stray: byte): (b: seq<byte>)
    ensures b == Emitted(SeparatorBuffer(sep, stray), 1)
  {
    match sep
    case Tab => [TAB]
    case Space => [SPACE]
    case Newline => [LF]
    case Slash => [SLASH]
    case Unset => if stray == NUL then [] else [stray]
  }

  // ---------------------------------------------------------------------------
  // The formats

  /** Log format: each field followed by the separator. */
  function Lines<T>(data: seq<T>, field: T -> seq<byte>, sepb: seq<byte>): seq<byte>
  {
    if data == [] then [] else Lines(data[..|data| - 1], field, sepb) + field(data[|data| - 1]) + sepb
  }

  /** The line break the log format ends with unless the separator is a
      line feed. */
  function LogEnd(sep: Separator): seq<byte>
  {
    if sep == Newline then [] else [LF, CR]
  }

  /** cncUSART_sendData_int16 in log mode. */
  function Int16Log(data: seq<int>, sep: Separator, stray: byte): seq<byte>
  {
    Lines(data, Decimal, SeparatorBytes(sep, stray)) + LogEnd(sep)
  }

  /** A float value cast to int16_t: truncation toward zero, saturated to
      int32_t by the FPU, then narrowed. */
  function ToInt16(x: real): (r: int)
    ensures IsInt16(r)
  {
    var t := Trunc(x);
    Wrap16(if t < -0x8000_0000 then -0x8000_0000 else if t > 0x7FFF_FFFF then 0x7FFF_FFFF else t)
  }

  /** One field of the float log format: the int16_t part, a dot, and the
      Dec2Int value stored in the uint8_t `decimal`. */
  function FloatField(x: real, dec2Int: real -> int): seq<byte>
  {
    Decimal(ToInt16(x)) + [DOT] + Digits(WrapU8(dec2Int(x)))
  }

  /** FloatField as a function value, so that every log is built with the
      same field function. */
  function FloatFields(dec2Int: real -> int): real -> seq<byte>
  {
    x => FloatField(x, dec2Int)
  }

  /** cncUSART_sendData_float in log mode. */
  function FloatLog(data: seq<real>, sep: Separator, stray: byte, dec2Int: real -> int): seq<byte>
  {
    Lines(data, FloatFields(dec2Int), SeparatorBytes(sep, stray)) + LogEnd(sep)
  }

  /** The fractional field is the Dec2Int value modulo 256, in at most three
      digits, and the integer field reads back as the int16_t cast. */
  lemma FloatFieldParts(x: real, dec2Int: real -> int)
    ensures var f := FloatField(x, dec2Int);
            var i := Decimal(ToInt16(x));
            f[..|i|] == i && f[|i|] == DOT
            && DigitsValue(f[|i| + 1..]) == dec2Int(x) % 256
            && |f| <= |i| + 4
            && ParseDecimal(f[..|i|]) == ToInt16(x)
  {
    var i := Decimal(ToInt16(x));
    var d := Digits(WrapU8(dec2Int(x)));
    var f := FloatField(x, dec2Int);
    assert f[..|i|] == i && f[|i| + 1..] == d;
    DigitsRoundTrip(WrapU8(dec2Int(x)));
    ByteDigitsFit(WrapU8(dec2Int(x)));
    DecimalRoundTrip(ToInt16(x));
  }

  /** Adding one more field to a log. */
  lemma LinesStep<T>(data: seq<T>, field: T -> seq<byte>, sepb: seq<byte>, i: nat)
    requires i < |data|
    ensures Lines(data[..i + 1], field, sepb) == Lines(data[..i], field, sepb) + (field(data[i]) + sepb)
  {
    assert data[..i + 1][..i] == data[..i];
  }

  /** Display mode: a line feed is replaced by a tab. */
  function DisplaySeparator(sep: Separator): Separator
  {
    if sep == Newline then Tab else sep
  }

  /** One displayed value: green for a non-negative value, red for a
      negative one, then the decimal text and the reset sequence. */
  function Item(v: int): seq<byte>
  {
    (if v >= 0 then Green else Red) + Decimal(v) + Normal
  }

  /** The first k displayed items, each followed by the separator unless it
      is the last of the vector. */
  function DisplayBody(data: seq<int>, sepb: seq<byte>, k: nat): seq<byte>
    requires k <= |data|
  {
    if k == 0 then []
    else DisplayBody(data, sepb, k - 1) + Item(data[k - 1]) + (if k - 1 < |data| - 1 then sepb else [])
  }

  /** The display line opens with send2Bash(EraseLine, "\r"). */
  const DisplayHead: seq<byte> := EraseLine + [CR] + Normal

  /** cncUSART_sendData_int16 in display mode. */
  function Int16Display(data: seq<int>, sep: Separator, stray: byte): seq<byte>
  {
    DisplayHead + DisplayBody(data, SeparatorBytes(DisplaySeparator(sep), stray), |data|)
  }

  /** The items joined by the separator: separators between items only. */
  function Join(items: seq<seq<byte>>, sepb: seq<byte>): seq<byte>
  {
    if items == [] then []
    else if |items| == 1 then items[0]
    else Join(items[..|items| - 1], sepb) + sepb + items[|items| - 1]
  }

  function Items(data: seq<int>): (r: seq<seq<byte>>)
    ensures |r| == |data|
  {
    seq(|data|, i requires 0 <= i < |data| => Item(data[i]))
  }

  /** The display body is the items joined by the separator: no separator
      before the first item or after the last. */
  lemma DisplayIsJoin(data: seq<int>, sepb: seq<byte>)
    ensures DisplayBody(data, sepb, |data|) == Join(Items(data), sepb)
  {
    DisplayPrefix(data, sepb, |data|);
    assert Items(data)[..|data|] == Items(data);
  }

  lemma {:induction false} DisplayPrefix(data: seq<int>, sepb: seq<byte>, k: nat)
    requires k <= |data|
    ensures DisplayBody(data, sepb, k) == Join(Items(data)[..k], sepb) + (if 0 < k < |data| then sepb else [])
  {
    if k > 0 {
      DisplayPrefix(data, sepb, k - 1);
      DisplayPrefixStep(data, sepb, k);
    }
  }

  /** One item more: the separator left after the first k - 1 items is the
      one Join puts before item k. */
  lemma DisplayPrefixStep(data: seq<int>, sepb: seq<byte>, k: nat)
    requires 0 < k <= |data|
    requires DisplayBody(data, sepb, k - 1) == Join(Items(data)[..k - 1], sepb) + (if 1 < k then sepb else [])
    ensures DisplayBody(data, sepb, k) == Join(Items(data)[..k], sepb) + (if k < |data| then sepb else [])
  {
    var items := Items(data);
    var tail := if k < |data| then sepb else [];
    var it := Item(data[k - 1]);
    assert items[k - 1] == it;
    assert DisplayBody(data, sepb, k) == DisplayBody(data, sepb, k - 1) + it + tail;
    JoinStep(items, sepb, k, DisplayBody(data, sepb, k - 1), tail);
  }

  /** Appending item k (and what follows it) to the join of the first
      k - 1 items and the separator after them. */
  lemma JoinStep(items: seq<seq<byte>>, sepb: seq<byte>, k: nat, prev: seq<byte>, tail: seq<byte>)
    requires 0 < k <= |items|
    requires prev == Join(items[..k - 1], sepb) + (if 1 < k then sepb else [])
    ensures prev + items[k - 1] + tail == Join(items[..k], sepb) + tail
  {
    JoinSnoc(items, sepb, k);
    if k == 1 {
      assert prev == [];
    }
  }

  /** Join of the first k items, one item at a time. */
  lemma JoinSnoc(items: seq<seq<byte>>, sepb: seq<byte>, k: nat)
    requires 0 < k <= |items|
    ensures Join(items[..k], sepb) == if k == 1 then items[0] else Join(items[..k - 1], sepb) + sepb + items[k - 1]
  {
    assert items[..k][..k - 1] == items[..k - 1];
  }

  lemma Regroup3<T>(a: seq<T>, b: seq<T>, c: seq<T>)
    ensures (a + b) + c == a + (b + c)
  {
  }

  lemma Regroup<T>(a: seq<T>, b: seq<T>, c: seq<T>, d: seq<T>)
    ensures ((a + b) + c) + d == a + ((b + c) + d)
  {
  }

  // ---------------------------------------------------------------------------
  // Buffer operations

  /** memset(buf, '\0', buf.Length). */
  method MemSet(buf: array<byte>)
    modifies buf
    ensures forall i :: 0 <= i < buf.Length ==> buf[i] == NUL
  {
    var i := 0;
    while i < buf.Length
      invariant 0 <= i <= buf.Length
      invariant forall j :: 0 <= j < i ==> buf[j] == NUL
    {
      buf[i] := NUL;
      i := i + 1;
    }
  }

  /** itoa(v, buf, 10): the text and its terminator at the front of the
      buffer; the bytes after the terminator are untouched. */
  method Itoa(v: int, buf: array<byte>)
    requires |Decimal(v)| < buf.Length
    modifies buf
    ensures buf[..|Decimal(v)|] == Decimal(v) && buf[|Decimal(v)|] == NUL
    ensures buf[|Decimal(v)| + 1..] == old(buf[|Decimal(v)| + 1..])
  {
    var t := Decimal(v);
    var i := 0;
    while i < |t|
      invariant 0 <= i <= |t|
      invariant buf[..i] == t[..i]
      invariant buf[i..] == old(buf[i..])
    {
      buf[i] := t[i];
      i := i + 1;
    }
    buf[|t|] := NUL;
  }

  /** A zero-filled buffer holding the NUL-free string p at its front. */
  ghost predicate HoldsString(buf: array<byte>, p: seq<byte>)
    reads buf
  {
    |p| < buf.Length && buf[..|p|] == p && NoNul(p)
    && forall j :: |p| <= j < buf.Length ==> buf[j] == NUL
  }

  /** strncat(dst, src, n) on a zero-filled buffer that holds the string p:
      the bytes src supplies before its NUL, at most n of them, go after p.
      The source demands that the result and its terminator fit. */
  method StrNCat(dst: array<byte>, src: seq<byte>, n: nat, ghost p: seq<byte>)
    requires HoldsString(dst, p)
    requires n <= |src| || NUL in src
    requires |p| + |Emitted(src, n)| < dst.Length
    modifies dst
    ensures HoldsString(dst, p + Emitted(src, n))
  {
    assert forall j :: 0 <= j < |p| ==> dst[j] != NUL by {
      forall j | 0 <= j < |p|
        ensures dst[j] != NUL
      {
        assert dst[j] == dst[..|p|][j];
      }
    }
    var k := 0;
    while dst[k] != NUL
      invariant 0 <= k <= |p|
      decreases |p| - k
    {
      k := k + 1;
    }
    var i := 0;
    while i < n && i < |src| && src[i] != NUL
      invariant 0 <= i <= n && i <= |src|
      invariant NoNul(src[..i]) && k + i < dst.Length
      invariant dst[..k + i] == p + src[..i]
      invariant forall j :: k + i <= j < dst.Length ==> dst[j] == NUL
    {
      assert src[..i + 1] == src[..i] + [src[i]];
      EmittedLonger(src, n, i);
      dst[k + i] := src[i];
      assert dst[..k + i + 1] == dst[..k + i] + [src[i]];
      i := i + 1;
    }
    EmittedStopsAt(src, n, i);
  }

  /** A NUL-free prefix strictly inside the limit is strictly inside the
      emitted bytes when the next byte is not NUL. */
  lemma {:induction false} EmittedLonger(s: seq<byte>, count: nat, i: nat)
    requires i < count && i < |s| && s[i] != NUL && NoNul(s[..i])
    ensures i < |Emitted(s, count)|
  {
    if i > 0 {
      assert s[0] == s[..i][0];
      assert s[1..][..i - 1] == s[..i][1..];
      EmittedLonger(s[1..], count - 1, i - 1);
    }
  }

  // ---------------------------------------------------------------------------
  // The port

  class Port {
    /** The flag cncUSART_putChar returns for the n-th byte of the port's
        life: 0 on a timeout waiting for TXE or TC. */
    const txOk: nat -> bool
    /** Every byte handed to cncUSART_putChar, oldest first. */
    var out: seq<byte>

    constructor (txOk: nat -> bool)
      ensures this.txOk == txOk && out == []
    {
      this.txOk := txOk;
      out := [];
    }

    /** cncUSART_putChar. */
    method PutChar(ch: byte) returns (ok: bool)
      modifies this`out
      ensures out == old(out) + [ch] && ok == txOk(|old(out)|)
    {
      ok := txOk(|out|);
      out := out + [ch];
    }

    /** cncUSART_putString: nothing for a null pointer or a zero count;
        otherwise the bytes before the first NUL, at most count of them. The
        result counts the successful putChar calls. The source demands a
        string that is terminated or at least count bytes long. */
    method PutString(s: Option<seq<byte>>, count: nat) returns (n: nat)
      requires count < 256
      requires s.Some? ==> count <= |s.value| || NUL in s.value
      modifies this`out
      ensures var e := if s.None? then [] else Emitted(s.value, count);
              out == old(out) + e && n == Successes(txOk, |old(out)|, |e|)
    {
      if s.None? || count == 0 {
        return 0;
      }
      var str := s.value;
      var len := count;
      var i := 0;
      n := 0;
      while i < |str| && str[i] != NUL && len > 0
        invariant i + len == count && i <= |str|
        invariant NoNul(str[..i])
        invariant out == old(out) + str[..i]
        invariant n == Successes(txOk, |old(out)|, i)
      {
        len := len - 1;
        var ok := PutChar(str[i]);
        if ok {
          n := n + 1;
        }
        assert str[..i + 1] == str[..i] + [str[i]];
        i := i + 1;
      }
      EmittedStopsAt(str, count, i);
    }

    /** cncUSART_send2Bash: cmd, str and the reset sequence concatenated in
        an 80-byte buffer and sent; 0 exactly when no byte went out. */
    method Send2Bash(cmd: seq<byte>, str: seq<byte>) returns (r: bool)
      requires NoNul(cmd) && NoNul(str) && |cmd| + |str| + |Normal| < BASH_SIZE
      modifies this`out
      ensures out == old(out) + (cmd + str + Normal)
      ensures r <==> Successes(txOk, |old(out)|, |cmd + str + Normal|) > 0
    {
      var tmp := new byte[BASH_SIZE](_ => NUL);
      EmittedTerminated(cmd, BASH_SIZE);
      StrNCat(tmp, cmd + [NUL], BASH_SIZE, []);
      EmittedTerminated(str, BASH_SIZE);
      StrNCat(tmp, str + [NUL], BASH_SIZE, cmd);
      SgrNoNul();
      EmittedTerminated(Normal, BASH_SIZE);
      StrNCat(tmp, Normal + [NUL], BASH_SIZE, cmd + str);
      ghost var text := cmd + str + Normal;
      assert tmp[..][..|text|] == text;
      EmittedStopsAt(tmp[..], BASH_SIZE, |text|);
      var n := PutString(Some(tmp[..]), BASH_SIZE);
      r := n != 0;
    }

    /** Sends a number buffer that holds the text t with its terminator. */
    method PutText(tmp: array<byte>, ghost t: seq<byte>) returns (n: nat)
      requires tmp.Length == TMP_SIZE && |t| < TMP_SIZE && NoNul(t)
      requires tmp[..|t|] == t && tmp[|t|] == NUL
      modifies this`out
      ensures out == old(out) + t
    {
      assert tmp[..][..|t|] == t;
      EmittedStopsAt(tmp[..], TMP_SIZE, |t|);
      n := PutString(Some(tmp[..]), TMP_SIZE);
    }

    /** putString(pSeparator, 1). */
    method PutSeparator(sep: Separator, stray: byte)
      modifies this`out
      ensures out == old(out) + SeparatorBytes(sep, stray)
    {
      var _ := PutString(Some(SeparatorBuffer(sep, stray)), 1);
    }

    /** The i-th field of the int16 log: the number through the buffer,
        then the separator. */
    method LogInt16Field(data: seq<int>, i: nat, tmp: array<byte>, sep: Separator, stray: byte, ghost o0: seq<byte>)
      requires i < |data| && IsInt16(data[i]) && tmp.Length == TMP_SIZE
      requires out == o0 + Lines(data[..i], Decimal, SeparatorBytes(sep, stray))
      modifies this`out, tmp
      ensures out == o0 + Lines(data[..i + 1], Decimal, SeparatorBytes(sep, stray))
    {
      ghost var sb := SeparatorBytes(sep, stray);
      ghost var lines := Lines(data[..i], Decimal, sb);
      MemSet(tmp);
      DecimalFits(data[i]);
      Itoa(data[i], tmp);
      var _ := PutText(tmp, Decimal(data[i]));
      PutSeparator(sep, stray);
      LinesStep(data, Decimal, sb, i);
      Regroup(o0, lines, Decimal(data[i]), sb);
    }

    /** The line break that closes a log unless the separator is a line
        feed. */
    method PutLogEnd(sep: Separator)
      modifies this`out
      ensures out == old(out) + LogEnd(sep)
    {
      if sep != Newline {
        var _ := PutString(Some([LF, CR, NUL]), 2);
      }
    }

    /** The field loop of the int16 log: every value followed by the
        separator. */
    method LogInt16Fields(data: seq<int>, sep: Separator, stray: byte)
      requires |data| < 256 && forall i :: 0 <= i < |data| ==> IsInt16(data[i])
      modifies this`out
      ensures out == old(out) + Lines(data, Decimal, SeparatorBytes(sep, stray))
    {
      var tmp := new byte[TMP_SIZE];
      ghost var o0 := out;
      var i := 0;
      while i < |data|
        invariant 0 <= i <= |data|
        invariant out == o0 + Lines(data[..i], Decimal, SeparatorBytes(sep, stray))
      {
        LogInt16Field(data, i, tmp, sep, stray, o0);
        i := i + 1;
      }
      assert data[..|data|] == data;
    }

    /** The log branch of cncUSART_sendData_int16. */
    method LogInt16(data: seq<int>, sep: Separator, stray: byte)
      requires |data| < 256 && forall i :: 0 <= i < |data| ==> IsInt16(data[i])
      modifies this`out
      ensures out == old(out) + Int16Log(data, sep, stray)
    {
      ghost var o0 := out;
      LogInt16Fields(data, sep, stray);
      ghost var lines := Lines(data, Decimal, SeparatorBytes(sep, stray));
      PutLogEnd(sep);
      Regroup3(o0, lines, LogEnd(sep));
    }

    /** The i-th displayed value: the number through the buffer, sent
        between its colour and the reset sequence, then the separator
        unless it is the last value. */
    method DisplayItem(data: seq<int>, i: nat, tmp: array<byte>, shown: Separator, stray: byte, ghost o0: seq<byte>)
      requires i < |data| && IsInt16(data[i]) && tmp.Length == TMP_SIZE
      requires out == o0 + DisplayBody(data, SeparatorBytes(shown, stray), i)
      modifies this`out, tmp
      ensures out == o0 + DisplayBody(data, SeparatorBytes(shown, stray), i + 1)
    {
      ghost var sb := SeparatorBytes(shown, stray);
      ghost var body := DisplayBody(data, sb, i);
      var v := data[i];
      MemSet(tmp);
      DecimalFits(v);
      Itoa(v, tmp);
      var t := tmp[..|Decimal(v)|];
      assert t == Decimal(v);
      SgrNoNul();
      if v >= 0 {
        var _ := Send2Bash(Green, t);
      } else {
        var _ := Send2Bash(Red, t);
      }
      ghost var o1 := out;
      assert o1 == (o0 + body) + Item(v);
      ghost var tail := if i < |data| - 1 then sb else [];
      if i < |data| - 1 {
        PutSeparator(shown, stray);
      }
      assert out == o1 + tail;
      assert DisplayBody(data, sb, i + 1) == body + Item(v) + tail;
      Regroup(o0, body, Item(v), tail);
    }

    /** The display branch of cncUSART_sendData_int16. */
    method DisplayInt16(data: seq<int>, sep: Separator, stray: byte)
      requires |data| < 256 && forall i :: 0 <= i < |data| ==> IsInt16(data[i])
      modifies this`out
      ensures out == old(out) + Int16Display(data, sep, stray)
    {
      var shown := DisplaySeparator(sep);
      SgrNoNul();
      var _ := Send2Bash(EraseLine, [CR]);
      assert out == old(out) + DisplayHead;
      DisplayItems(data, shown, stray);
      Regroup3(old(out), DisplayHead, DisplayBody(data, SeparatorBytes(shown, stray), |data|));
    }

    /** The item loop of the int16 display. */
    method DisplayItems(data: seq<int>, shown: Separator, stray: byte)
      requires |data| < 256 && forall i :: 0 <= i < |data| ==> IsInt16(data[i])
      modifies this`out
      ensures out == old(out) + DisplayBody(data, SeparatorBytes(shown, stray), |data|)
    {
      var tmp := new byte[TMP_SIZE];
      ghost var o0 := out;
      var i := 0;
      while i < |data|
        invariant 0 <= i <= |data|
        invariant out == o0 + DisplayBody(data, SeparatorBytes(shown, stray), i)
      {
        DisplayItem(data, i, tmp, shown, stray, o0);
        i := i + 1;
      }
    }

    /** cncUSART_sendData_int16: always returns 1. */
    method SendDataInt16(data: seq<int>, mode: nat, stray: byte) returns (r: nat)
      requires |data| < 256 && forall i :: 0 <= i < |data| ==> IsInt16(data[i])
      modifies this`out
      ensures r == 1
      ensures out == old(out) + if mode % 2 == DATA_LOG then Int16Log(data, SelectSeparator(mode), stray)
                                else Int16Display(data, SelectSeparator(mode), stray)
    {
      var sep := SelectSeparator(mode);
      if mode % 2 == DATA_LOG {
        LogInt16(data, sep, stray);
      } else {
        DisplayInt16(data, sep, stray);
      }
      r := 1;
    }

    /** The log branch of cncUSART_sendData_float, with Dec2Int's float
        arithmetic left to the kernel `dec2Int`. */
    method SendDataFloatLog(data: seq<real>, mode: nat, stray: byte, dec2Int: real -> int) returns (r: nat)
      requires |data| < 256 && mode % 2 == DATA_LOG
      modifies this`out
      ensures r == 1
      ensures out == old(out) + FloatLog(data, SelectSeparator(mode), stray, dec2Int)
    {
      var sep := SelectSeparator(mode);
      ghost var o0 := out;
      LogFloatFields(data, sep, stray, dec2Int);
      ghost var lines := Lines(data, FloatFields(dec2Int), SeparatorBytes(sep, stray));
      PutLogEnd(sep);
      Regroup3(o0, lines, LogEnd(sep));
      r := 1;
    }

    /** The field loop of the float log. */
    method LogFloatFields(data: seq<real>, sep: Separator, stray: byte, dec2Int: real -> int)
      requires |data| < 256
      modifies this`out
      ensures out == old(out) + Lines(data, FloatFields(dec2Int), SeparatorBytes(sep, stray))
    {
      var tmp := new byte[TMP_SIZE];
      ghost var o0 := out;
      ghost var field, sb := FloatFields(dec2Int), SeparatorBytes(sep, stray);
      var i := 0;
      while i < |data|
        invariant 0 <= i <= |data|
        invariant out == o0 + Lines(data[..i], field, sb)
      {
        LogFloatField(data, i, dec2Int, tmp, sep, stray, o0);
        i := i + 1;
      }
      assert data[..|data|] == data;
    }

    /** The i-th field of the float log, then the separator. */
    method LogFloatField(data: seq<real>, i: nat, dec2Int: real -> int, tmp: array<byte>, sep: Separator, stray: byte,
                         ghost o0: seq<byte>)
      requires i < |data| && tmp.Length == TMP_SIZE
      requires out == o0 + Lines(data[..i], FloatFields(dec2Int), SeparatorBytes(sep, stray))
      modifies this`out, tmp
      ensures out == o0 + Lines(data[..i + 1], FloatFields(dec2Int), SeparatorBytes(sep, stray))
    {
      ghost var field := FloatFields(dec2Int);
      ghost var sb := SeparatorBytes(sep, stray);
      ghost var lines := Lines(data[..i], field, sb);
      FloatFieldOut(data[i], dec2Int, tmp);
      PutSeparator(sep, stray);
      LinesStep(data, field, sb, i);
      Regroup(o0, lines, field(data[i]), sb);
    }

    /** One field of the float log: the int16_t part, ".", and the uint8_t
        decimal, each through the number buffer. */
    method FloatFieldOut(x: real, dec2Int: real -> int, tmp: array<byte>)
      requires tmp.Length == TMP_SIZE
      modifies this`out, tmp
      ensures out == old(out) + FloatField(x, dec2Int)
    {
      MemSet(tmp);
      DecimalFits(ToInt16(x));
      Itoa(ToInt16(x), tmp);
      var _ := PutText(tmp, Decimal(ToInt16(x)));
      var _ := PutString(Some([DOT, NUL]), TMP_SIZE);
      var decimal := WrapU8(dec2Int(x));
      ByteDigitsFit(decimal);
      Itoa(decimal, tmp);
      var _ := PutText(tmp, Digits(decimal));
    }
  }
}
