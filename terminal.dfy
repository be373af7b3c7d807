/** The byte frames terminal.py writes down the pipe to the terminal's slave
    process: `encode_run`, `encode_check_stdout` and `encode_print`, built
    from an ASCII tag, two-byte big-endian numbers and NUL-terminated
    arguments, and the window-size frame of `XTermTerminal.resize`. A Python
    string is modelled by its UTF-8 bytes: only the character NUL encodes
    to a zero byte. Each encoder has a reference decoder here and a lemma
    that the decoder gives back what was encoded. */
module PipeProtocol {
  import opened Errors

  newtype byte = x: int | 0 <= x < 256

  type Bytes = seq<byte>

  const NUL: byte := 0
  const NEWLINE: byte := 10

  /** An argument as Python receives it: a `str` (its UTF-8 bytes) or some
      other object. */
  datatype PyArg = Text(bytes: Bytes) | NonText

  predicate NulFree(b: Bytes) {
    NUL !in b
  }

  /** The bytes of an ASCII string. */
  function Ascii(s: string): (r: Bytes)
    requires forall i :: 0 <= i < |s| ==> s[i] as int < 128
    ensures |r| == |s| && forall i :: 0 <= i < |s| ==> r[i] as int == s[i] as int
  {
    seq(|s|, i requires 0 <= i < |s| => s[i] as int as byte)
  }

  const RUN_TAG: Bytes := Ascii("RUN")
  const CHECK_STDOUT_TAG: Bytes := Ascii("CHECK_STDOUT")
  const PRINTSTR_TAG: Bytes := Ascii("PRINTSTR")

  /** `_assert_no_null`: the argument must be a `str` without NUL. */
  function AssertNoNull(a: PyArg): (r: Outcome)
    ensures r == Pass <==> a.Text? && NulFree(a.bytes)
    ensures r.Fail? ==> r.error == AssertionError
  {
    if a.NonText? || NUL in a.bytes then Fail(AssertionError) else Pass
  }

  /** Every argument passes `_assert_no_null`. */
  predicate ValidArgs(args: seq<PyArg>) {
    forall i :: 0 <= i < |args| ==> AssertNoNull(args[i]) == Pass
  }

  function Texts(args: seq<PyArg>): (r: seq<Bytes>)
    requires forall i :: 0 <= i < |args| ==> args[i].Text?
    ensures |r| == |args| && forall i :: 0 <= i < |args| ==> r[i] == args[i].bytes
  {
    seq(|args|, i requires 0 <= i < |args| => args[i].bytes)
  }

  /** Python's `b"\x00".join(parts)`. */
  function Join(parts: seq<Bytes>): Bytes {
    if |parts| == 0 then []
    else if |parts| == 1 then parts[0]
    else parts[0] + [NUL] + Join(parts[1..])
  }

  /** Each part followed by a NUL. */
  function Terminated(parts: seq<Bytes>): Bytes {
    if |parts| == 0 then [] else parts[0] + [NUL] + Terminated(parts[1..])
  }

  /** `_encode_args`: the arguments joined with NUL and closed by one more
      NUL; a non-`str` argument or one holding NUL fails the assertion. */
  function EncodeArgs(args: seq<PyArg>): (r: Result<Bytes>)
    ensures r.Ok? <==> ValidArgs(args)
    ensures r.Err? ==> r.error == AssertionError
    ensures r.Ok? ==> |r.value| > 0 && r.value[|r.value| - 1] == NUL
  {
    if !ValidArgs(args) then Err(AssertionError)
    else Ok(Join(Texts(args)) + [NUL])
  }

  /** `n.to_bytes(2, "big")`: two bytes, most significant first; a negative
      or too large `n` raises `OverflowError`. */
  function ToBytes2(n: int): (r: Result<Bytes>)
    ensures r.Ok? <==> 0 <= n < 0x1_0000
    ensures r.Err? ==> r.error == OverflowError
    ensures r.Ok? ==> |r.value| == 2 && FromBytes2(r.value) == n
  {
    if n < 0 || n >= 0x1_0000 then Err(OverflowError)
    else Ok([(n / 256) as byte, (n % 256) as byte])
  }

  /** The number two big-endian bytes stand for. */
  function FromBytes2(b: Bytes): nat
    requires |b| >= 2
  {
    b[0] as nat * 256 + b[1] as nat
  }

  /** `encode_run`: the tag, the command id, the argument count, the
      arguments and the text, closed by a newline and a NUL. The numbers are
      converted first, then the arguments checked; the text is not checked
      for NUL. */
  function EncodeRun(cmdId: int, args: seq<PyArg>, text: PyArg): (r: Result<Bytes>)
    ensures r.Ok? <==> 0 <= cmdId < 0x1_0000 && |args| < 0x1_0000 && ValidArgs(args) && text.Text?
    ensures !(0 <= cmdId < 0x1_0000) ==> r == Err(OverflowError)
    ensures 0 <= cmdId < 0x1_0000 && |args| >= 0x1_0000 ==> r == Err(OverflowError)
    ensures 0 <= cmdId < 0x1_0000 && |args| < 0x1_0000 && !ValidArgs(args) ==> r == Err(AssertionError)
    ensures 0 <= cmdId < 0x1_0000 && |args| < 0x1_0000 && ValidArgs(args) && text.NonText? ==>
      r == Err(AttributeError)
  {
    var id :- ToBytes2(cmdId);
    var argc :- ToBytes2(|args|);
    var encoded :- EncodeArgs(args);
    if text.NonText? then Err(AttributeError)
    else Ok(RUN_TAG + id + argc + encoded + text.bytes + [NEWLINE, NUL])
  }

  /** `encode_check_stdout`: the tag, the command id, the argument count and
      the arguments, with nothing after them. */
  function EncodeCheckStdout(cmdId: int, args: seq<PyArg>): (r: Result<Bytes>)
    ensures r.Ok? <==> 0 <= cmdId < 0x1_0000 && |args| < 0x1_0000 && ValidArgs(args)
    ensures !(0 <= cmdId < 0x1_0000) ==> r == Err(OverflowError)
    ensures 0 <= cmdId < 0x1_0000 && |args| >= 0x1_0000 ==> r == Err(OverflowError)
    ensures 0 <= cmdId < 0x1_0000 && |args| < 0x1_0000 && !ValidArgs(args) ==> r == Err(AssertionError)
  {
    var id :- ToBytes2(cmdId);
    var argc :- ToBytes2(|args|);
    var encoded :- EncodeArgs(args);
    Ok(CHECK_STDOUT_TAG + id + argc + encoded)
  }

  /** `encode_print`: the tag and the text, closed by a NUL; the text must be
      a `str` without NUL. */
  function EncodePrint(text: PyArg): (r: Result<Bytes>)
    ensures r.Ok? <==> text.Text? && NulFree(text.bytes)
    ensures r.Err? ==> r.error == AssertionError
  {
    if AssertNoNull(text).Fail? then Err(AssertionError)
    else Ok(PRINTSTR_TAG + text.bytes + [NUL])
  }

  // ----- Reference decoders -----

  /** The index of the first NUL, if any. */
  function FirstNul(b: Bytes): (r: Option<nat>)
    ensures r.None? <==> NulFree(b)
    ensures r.Some? ==> r.value < |b| && b[r.value] == NUL && NulFree(b[..r.value])
  {
    if |b| == 0 then None
    else if b[0] == NUL then Some(0)
    else match FirstNul(b[1..])
      case None => None
      case Some(i) =>
        assert b[..i + 1] == [b[0]] + b[1..][..i];
        Some(i + 1)
  }

  /** `n` NUL-terminated parts, and what follows them. */
  function SplitTerminated(b: Bytes, n: nat): Option<(seq<Bytes>, Bytes)>
    decreases n
  {
    if n == 0 then Some(([], b))
    else match FirstNul(b)
      case None => None
      case Some(i) =>
        match SplitTerminated(b[i + 1..], n - 1)
        case None => None
        case Some(split) => Some(([b[..i]] + split.0, split.1))
  }

  /** The arguments region for `argc` arguments, and what follows it: no
      arguments are a lone NUL, otherwise each argument ends with a NUL. */
  function SplitArgs(b: Bytes, argc: nat): Option<(seq<Bytes>, Bytes)> {
    if argc == 0 then
      if |b| > 0 && b[0] == NUL then Some(([], b[1..])) else None
    else SplitTerminated(b, argc)
  }

  /** Reads a `RUN` frame: command id, arguments and text. */
  function DecodeRun(f: Bytes): Option<(nat, seq<Bytes>, Bytes)> {
    if |f| < 7 || f[..3] != RUN_TAG then None
    else match SplitArgs(f[7..], FromBytes2(f[5..7]))
      case None => None
      case Some(split) =>
        var rest := split.1;
        if |rest| < 2 || rest[|rest| - 2..] != [NEWLINE, NUL] then None
        else Some((FromBytes2(f[3..5]), split.0, rest[..|rest| - 2]))
  }

  /** Reads a `CHECK_STDOUT` frame: command id and arguments. */
  function DecodeCheckStdout(f: Bytes): Option<(nat, seq<Bytes>)> {
    if |f| < 16 || f[..12] != CHECK_STDOUT_TAG then None
    else match SplitArgs(f[16..], FromBytes2(f[14..16]))
      case None => None
      case Some(split) =>
        if split.1 != [] then None else Some((FromBytes2(f[12..14]), split.0))
  }

  /** Reads a `PRINTSTR` frame: the text up to the closing NUL. */
  function DecodePrint(f: Bytes): Option<Bytes> {
    if |f| < 9 || f[..8] != PRINTSTR_TAG || f[|f| - 1] != NUL then None
    else Some(f[8..|f| - 1])
  }

  // ----- Round trips -----

  /** A NUL-free part followed by a NUL: its first NUL is the terminator. */
  lemma {:induction false} FirstNulAfter(a: Bytes, tail: Bytes)
    requires NulFree(a)
    ensures FirstNul(a + [NUL] + tail) == Some(|a|)
  {
    if |a| > 0 {
      assert (a + [NUL] + tail)[1..] == a[1..] + [NUL] + tail;
      FirstNulAfter(a[1..], tail);
    }
  }

  /** Joining and closing with a NUL is terminating every part, for one part
      or more. */
  lemma {:induction false} JoinTerminated(parts: seq<Bytes>)
    requires |parts| > 0
    ensures Join(parts) + [NUL] == Terminated(parts)
  {
    if |parts| > 1 {
      JoinTerminated(parts[1..]);
    }
  }

  /** Every part is free of NUL. */
  predicate AllNulFree(parts: seq<Bytes>) {
    forall i :: 0 <= i < |parts| ==> NulFree(parts[i])
  }

  /** Splitting off one NUL-terminated part. */
  lemma SplitTerminatedStep(p: Bytes, rest: Bytes, n: nat, parts: seq<Bytes>, tail: Bytes)
    requires NulFree(p) && SplitTerminated(rest, n) == Some((parts, tail))
    ensures SplitTerminated(p + [NUL] + rest, n + 1) == Some(([p] + parts, tail))
  {
    var b := p + [NUL] + rest;
    FirstNulAfter(p, rest);
    assert b[|p| + 1..] == rest;
    assert b[..|p|] == p;
  }

  /** The parts after the first are NUL-free too. */
  lemma AllNulFreeRest(parts: seq<Bytes>)
    requires AllNulFree(parts) && |parts| > 0
    ensures AllNulFree(parts[1..]) && NulFree(parts[0])
  {
    forall i | 0 <= i < |parts| - 1
      ensures NulFree(parts[1..][i])
    {
      assert parts[1..][i] == parts[i + 1];
    }
  }

  /** The first terminated part, then the rest and what follows. */
  lemma TerminatedFirst(parts: seq<Bytes>, tail: Bytes)
    requires |parts| > 0
    ensures Terminated(parts) + tail == parts[0] + [NUL] + (Terminated(parts[1..]) + tail)
  {
  }

  /** Terminated parts split back one part at a time: if the rest splits
      back, so does the whole. */
  lemma SplitTerminatedCons(parts: seq<Bytes>, tail: Bytes)
    requires |parts| > 0 && NulFree(parts[0])
    requires SplitTerminated(Terminated(parts[1..]) + tail, |parts| - 1) == Some((parts[1..], tail))
    ensures SplitTerminated(Terminated(parts) + tail, |parts|) == Some((parts, tail))
  {
    var first, others := parts[0], parts[1..];
    var rest := Terminated(others) + tail;
    SplitTerminatedStep(first, rest, |others|, others, tail);
    TerminatedFirst(parts, tail);
    assert [first] + others == parts;
  }

  lemma {:induction false} SplitTerminatedRoundTrip(parts: seq<Bytes>, tail: Bytes)
    requires AllNulFree(parts)
    ensures SplitTerminated(Terminated(parts) + tail, |parts|) == Some((parts, tail))
  {
    if |parts| == 0 {
      assert Terminated(parts) + tail == tail;
    } else {
      AllNulFreeRest(parts);
      SplitTerminatedRoundTrip(parts[1..], tail);
      SplitTerminatedCons(parts, tail);
    }
  }

  /** With the argument count known, the arguments region splits back into
      the arguments, whatever follows it. */
  lemma SplitArgsRoundTrip(parts: seq<Bytes>, tail: Bytes)
    requires AllNulFree(parts)
    ensures SplitArgs(Join(parts) + [NUL] + tail, |parts|) == Some((parts, tail))
  {
    if |parts| > 0 {
      JoinTerminated(parts);
      SplitTerminatedRoundTrip(parts, tail);
    } else {
      assert (Join(parts) + [NUL] + tail)[1..] == tail;
    }
  }

  /** No arguments and one empty argument give the same region, a lone NUL:
      only the argument count in the header tells them apart. */
  lemma EmptyArgsAmbiguous()
    ensures EncodeArgs([]) == EncodeArgs([Text([])]) == Ok([NUL])
    ensures EncodeCheckStdout(0, []).Ok? && EncodeCheckStdout(0, [Text([])]).Ok?
    ensures EncodeCheckStdout(0, []).value != EncodeCheckStdout(0, [Text([])]).value
  {
    assert AssertNoNull(Text([])) == Pass;
    assert ValidArgs([Text([])]);
    assert Texts([]) == [] && Texts([Text([])]) == [[]];
    assert Join([[]]) == [];
    assert Join([]) + [NUL] == [NUL];
    assert EncodeCheckStdout(0, []).value[15] == 0;
    assert EncodeCheckStdout(0, [Text([])]).value[15] == 1;
  }

  /** The header and arguments of a frame whose tag is `tag`. */
  lemma HeaderRoundTrip(tag: Bytes, id: Bytes, argc: Bytes, args: seq<PyArg>, tail: Bytes)
    requires |id| == 2 && |argc| == 2 && FromBytes2(argc) == |args|
    requires ValidArgs(args)
    ensures var f := tag + id + argc + EncodeArgs(args).value + tail;
      f[..|tag|] == tag && f[|tag|..|tag| + 2] == id && f[|tag| + 2..|tag| + 4] == argc &&
      SplitArgs(f[|tag| + 4..], FromBytes2(f[|tag| + 2..|tag| + 4])) == Some((Texts(args), tail))
  {
    var texts := Texts(args);
    var f := tag + id + argc + EncodeArgs(args).value + tail;
    assert f[|tag| + 4..] == Join(texts) + [NUL] + tail;
    SplitArgsRoundTrip(texts, tail);
  }

  /** `encode_run` is undone by the reference decoder. */
  lemma RunRoundTrip(cmdId: int, args: seq<PyArg>, text: PyArg)
    requires EncodeRun(cmdId, args, text).Ok?
    ensures DecodeRun(EncodeRun(cmdId, args, text).value) == Some((cmdId as nat, Texts(args), text.bytes))
  {
    var id := ToBytes2(cmdId).value;
    var argc := ToBytes2(|args|).value;
    var tail := text.bytes + [NEWLINE, NUL];
    HeaderRoundTrip(RUN_TAG, id, argc, args, tail);
    var f := RUN_TAG + id + argc + EncodeArgs(args).value + text.bytes + [NEWLINE, NUL];
    assert f == RUN_TAG + id + argc + EncodeArgs(args).value + tail;
    assert tail[|tail| - 2..] == [NEWLINE, NUL] && tail[..|tail| - 2] == text.bytes;
  }

  /** `encode_check_stdout` is undone by the reference decoder. */
  lemma CheckStdoutRoundTrip(cmdId: int, args: seq<PyArg>)
    requires EncodeCheckStdout(cmdId, args).Ok?
    ensures DecodeCheckStdout(EncodeCheckStdout(cmdId, args).value) == Some((cmdId as nat, Texts(args)))
  {
    var id := ToBytes2(cmdId).value;
    var argc := ToBytes2(|args|).value;
    HeaderRoundTrip(CHECK_STDOUT_TAG, id, argc, args, []);
    assert EncodeCheckStdout(cmdId, args).value == CHECK_STDOUT_TAG + id + argc + EncodeArgs(args).value + [];
  }

  /** `encode_print` is undone by the reference decoder, and its only NUL is
      the last byte. */
  lemma PrintRoundTrip(text: PyArg)
    requires EncodePrint(text).Ok?
    ensures DecodePrint(EncodePrint(text).value) == Some(text.bytes)
    ensures var f := EncodePrint(text).value; NulFree(f[..|f| - 1]) && f[|f| - 1] == NUL
  {
    var f := EncodePrint(text).value;
    assert f[8..|f| - 1] == text.bytes;
    assert f[..|f| - 1] == PRINTSTR_TAG + text.bytes;
  }

  // ----- The resize frame -----

  /** The decimal digits of `n`, most significant first. */
  function Digits(n: nat): (r: string)
    ensures |r| > 0 && forall i :: 0 <= i < |r| ==> '0' <= r[i] <= '9'
  {
    if n < 10 then [('0' as int + n) as char]
    else Digits(n / 10) + [('0' as int + n % 10) as char]
  }

  /** Python's `str` of an int. */
  function Decimal(n: int): (r: string)
    ensures DecimalShaped(r)
  {
    if n < 0 then "-" + Digits(-n) else Digits(n)
  }

  predicate IsDigits(s: string) {
    forall i :: 0 <= i < |s| ==> '0' <= s[i] <= '9'
  }

  /** Digits, possibly after a minus sign. */
  predicate DecimalShaped(s: string) {
    |s| > 0 && (s[0] == '-' || '0' <= s[0] <= '9') && IsDigits(s[1..])
  }

  /** Reads decimal digits back into a number. */
  function ParseDigits(s: string): nat
    requires IsDigits(s)
  {
    if |s| == 0 then 0
    else ParseDigits(s[..|s| - 1]) * 10 + (s[|s| - 1] as int - '0' as int)
  }

  /** Reads Python's `str` of an int back. */
  function ParseDecimal(s: string): int
    requires DecimalShaped(s)
  {
    if s[0] == '-' then 0 - ParseDigits(s[1..]) else ParseDigits(s)
  }

  lemma {:induction false} DigitsRoundTrip(n: nat)
    ensures ParseDigits(Digits(n)) == n
  {
    if n >= 10 {
      var d := Digits(n);
      assert d[..|d| - 1] == Digits(n / 10);
      DigitsRoundTrip(n / 10);
    }
  }

  lemma DecimalRoundTrip(n: int)
    ensures ParseDecimal(Decimal(n)) == n
  {
    if n < 0 {
      DigitsRoundTrip(-n);
      assert Decimal(n)[1..] == Digits(-n);
    } else {
      DigitsRoundTrip(n);
    }
  }

  /** Characters that are ASCII and not NUL. */
  predicate Printable(s: string) {
    forall i :: 0 <= i < |s| ==> 0 < s[i] as int < 128
  }

  lemma PrintableConcat(a: string, b: string)
    requires Printable(a) && Printable(b)
    ensures Printable(a + b)
  {
  }

  lemma DecimalPrintable(n: int)
    ensures Printable(Decimal(n))
  {
    var d := Decimal(n);
    forall i | 0 <= i < |d|
      ensures 0 < d[i] as int < 128
    {
      if i > 0 {
        assert d[i] == d[1..][i - 1];
      }
    }
  }

  /** xterm's "resize the window" control sequence: ESC [ 4 ; height ;
      width t. */
  function ResizeSequence(width: int, height: int): (r: string)
    ensures Printable(r)
  {
    DecimalPrintable(height);
    DecimalPrintable(width);
    PrintableConcat("\U{1b}[4;", Decimal(height));
    PrintableConcat("\U{1b}[4;" + Decimal(height), ";");
    PrintableConcat("\U{1b}[4;" + Decimal(height) + ";", Decimal(width));
    PrintableConcat("\U{1b}[4;" + Decimal(height) + ";" + Decimal(width), "t");
    "\U{1b}[4;" + Decimal(height) + ";" + Decimal(width) + "t"
  }

  /** `XTermTerminal.resize`: the bytes written to the pipe, the resize
      sequence sent as a `PRINTSTR` frame. */
  function ResizeFrame(width: int, height: int): (r: Bytes)
    ensures DecodePrint(r) == Some(Ascii(ResizeSequence(width, height)))
  {
    var text := Text(Ascii(ResizeSequence(width, height)));
    assert NulFree(text.bytes);
    PrintRoundTrip(text);
    EncodePrint(text).value
  }

  /** The sizes can be read back from the frame. */
  lemma ResizeFrameSizes(width: int, height: int)
    ensures var s := ResizeSequence(width, height);
      var h := Decimal(height);
      s[..4] == "\U{1b}[4;" && s[4..4 + |h|] == h && s[4 + |h|] == ';' &&
      s[5 + |h|..|s| - 1] == Decimal(width) && s[|s| - 1] == 't' &&
      ParseDecimal(h) == height && ParseDecimal(s[5 + |h|..|s| - 1]) == width
  {
    var h, w := Decimal(height), Decimal(width);
    assert ResizeSequence(width, height) == "\U{1b}[4;" + h + ";" + w + "t";
    SequenceFields("\U{1b}[4;", h, w);
    DecimalRoundTrip(height);
    DecimalRoundTrip(width);
  }

  /** Where the fields of a four-character prefix, `h`, ";", `w` and "t"
      lie. */
  lemma SequenceFields(prefix: string, h: string, w: string)
    requires |prefix| == 4
    ensures var s := prefix + h + ";" + w + "t";
      s[..4] == prefix && s[4..4 + |h|] == h && s[4 + |h|] == ';' &&
      s[5 + |h|..|s| - 1] == w && s[|s| - 1] == 't'
  {
    var s := prefix + h + ";" + w + "t";
    assert s[..4] == prefix;
    assert s[4..4 + |h|] == h;
    assert s[5 + |h|..|s| - 1] == w;
  }
}
