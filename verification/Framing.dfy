/**
 Content-Length framing of the LSP client (internal/lsp/client.go): the header that `writeLoop`
 prints and the byte-level parser of `readFrame`. Each `char` stands for one byte.
 */
module Framing {
  import opened Prelude

  const MAX_HEADER_BYTES := 16384
  const INT64_LIMIT := 0x8000_0000_0000_0000

  datatype FrameError =
    | EndOfInput | TruncatedPayload | HeadersTooLarge | MalformedHeader
    | DuplicateLength | InvalidLength | MissingLength | TooLarge

  datatype Frame = Frame(payload: string, rest: string)

  // ------------------------------------------------------------ text helpers

  predicate IsBlankByte(c: char) { '\t' <= c <= '\r' || c == ' ' }

  function SkipBlank(s: string): (r: string)
    ensures |r| <= |s|
  {
    if s != "" && IsBlankByte(s[0]) then SkipBlank(s[1..]) else s
  }

  function DropBlank(s: string): (r: string)
    ensures |r| <= |s|
  {
    if s != "" && IsBlankByte(s[|s| - 1]) then DropBlank(s[..|s| - 1]) else s
  }

  function Trim(s: string): string { DropBlank(SkipBlank(s)) }

  /** Position of the first `c`, or the length of the text. */
  function IndexOf(s: string, c: char): (i: nat)
    ensures i <= |s| && (i < |s| ==> s[i] == c)
    ensures forall j :: 0 <= j < i ==> s[j] != c
  {
    if s == "" || s[0] == c then 0 else 1 + IndexOf(s[1..], c)
  }

  function Lower(c: char): char {
    if 'A' <= c <= 'Z' then c + 32 as char else c
  }

  predicate EqualFold(a: string, b: string) {
    |a| == |b| && forall i :: 0 <= i < |a| ==> Lower(a[i]) == Lower(b[i])
  }

  predicate IsDigit(c: char) { '0' <= c <= '9' }

  predicate AllDigits(s: string) { forall i :: 0 <= i < |s| ==> IsDigit(s[i]) }

  function Digits(s: string): (n: nat)
    requires AllDigits(s)
  {
    if s == "" then 0
    else 10 * Digits(s[..|s| - 1]) + (s[|s| - 1] as int - '0' as int)
  }

  /** strconv.Atoi on a 64-bit platform */
  function Atoi(s: string): Option<int> {
    var signed := s != "" && (s[0] == '-' || s[0] == '+');
    var digits := if signed then s[1..] else s;
    if digits == "" || !AllDigits(digits) then None
    else
      var magnitude: int := Digits(digits);
      var n := if signed && s[0] == '-' then -magnitude else magnitude;
      if -INT64_LIMIT <= n < INT64_LIMIT then Some(n) else None
  }

  /** The "%d" of a length */
  function Decimal(n: nat): (s: string)
    ensures s != "" && AllDigits(s)
  {
    var last := [('0' as int + n % 10) as char];
    if n < 10 then last else Decimal(n / 10) + last
  }

  // ------------------------------------------------------------ the codec

  const LENGTH_NAME := "Content-Length"

  function Header(length: nat): string {
    LENGTH_NAME + ": " + Decimal(length) + "\r\n" + "\r\n"
  }

  /** One message as `writeLoop` sends it. */
  function Print(payload: string): string {
    Header(|payload|) + payload
  }

  function PrintAll(payloads: seq<string>): string {
    if payloads == [] then "" else Print(payloads[0]) + PrintAll(payloads[1..])
  }

  /** One trimmed header line: None ends the block, otherwise the length known so far. */
  function ParseLine(line: string, length: Option<nat>): Result<Option<Option<nat>>, FrameError> {
    if line == "" then Ok(None)
    else
      var colon := IndexOf(line, ':');
      if colon == |line| then Err(MalformedHeader)
      else if !EqualFold(Trim(line[..colon]), LENGTH_NAME) then Ok(Some(length))
      else if length.Some? then Err(DuplicateLength)
      else match Atoi(Trim(line[colon + 1..]))
        case None => Err(InvalidLength)
        case Some(n) => if n < 0 then Err(InvalidLength) else Ok(Some(Some(n)))
  }

  /** One header line off the front: the length known after it, None at the blank line, and the rest. */
  function HeaderLine(input: string, length: Option<nat>,
      headerBytes: nat): (r: Result<(Option<Option<nat>>, string), FrameError>)
    ensures r.Ok? ==> |r.value.1| < |input|
  {
    var end := IndexOf(input, '\n');
    if end == |input| then Err(EndOfInput)
    else if headerBytes + end + 1 > MAX_HEADER_BYTES then Err(HeadersTooLarge)
    else match ParseLine(Trim(input[..end + 1]), length)
      case Err(e) => Err(e)
      case Ok(next) => Ok((next, input[end + 1..]))
  }

  /** The header block: the announced length, if any, and what follows the blank line. */
  function ParseHeaders(input: string, length: Option<nat>, headerBytes: nat): Result<(Option<nat>, string), FrameError>
    decreases |input|
  {
    match HeaderLine(input, length, headerBytes)
    case Err(e) => Err(e)
    case Ok((None, rest)) => Ok((length, rest))
    case Ok((Some(next), rest)) => ParseHeaders(rest, next, headerBytes + |input| - |rest|)
  }

  /** One frame off the front of the stream: the specification of `readFrame`. */
  function Parse(input: string, maximum: int): Result<Frame, FrameError> {
    match ParseHeaders(input, None, 0)
    case Err(e) => Err(e)
    case Ok((None, _)) => Err(MissingLength)
    case Ok((Some(n), body)) =>
      if n > maximum then Err(TooLarge)
      else if |body| < n then Err(if body == "" then EndOfInput else TruncatedPayload)
      else Ok(Frame(body[..n], body[n..]))
  }

  // ------------------------------------------------------------ round trip

  lemma {:induction false} DigitsOfDecimal(n: nat)
    ensures Digits(Decimal(n)) == n
  {
    if n >= 10 {
      DigitsOfDecimal(n / 10);
      assert Decimal(n)[..|Decimal(n)| - 1] == Decimal(n / 10);
    } else {
      assert Decimal(n)[..|Decimal(n)| - 1] == "";
    }
  }

  function Pow10(k: nat): nat { if k == 0 then 1 else 10 * Pow10(k - 1) }

  lemma {:induction false} DecimalIsShort(n: nat, k: nat, power: nat)
    requires k >= 1 && n < power && power == Pow10(k)
    ensures |Decimal(n)| <= k
    decreases k
  {
    if n >= 10 {
      DecimalIsShort(n / 10, k - 1, Pow10(k - 1));
    }
  }

  lemma AtoiOfDecimal(n: nat)
    requires n < INT64_LIMIT
    ensures Atoi(Decimal(n)) == Some(n)
    ensures |Decimal(n)| <= 20
  {
    DigitsOfDecimal(n);
    assert Pow10(5) == 100000;
    assert Pow10(10) == 100000 * Pow10(5);
    assert Pow10(15) == 100000 * Pow10(10);
    assert Pow10(20) == 100000 * Pow10(15);
    DecimalIsShort(n, 20, Pow10(20));
  }

  lemma IndexIs(s: string, c: char, i: nat)
    requires i < |s| && s[i] == c && forall j :: 0 <= j < i ==> s[j] != c
    ensures IndexOf(s, c) == i
  {
  }

  lemma TrimTight(s: string)
    requires s != "" && !IsBlankByte(s[0]) && !IsBlankByte(s[|s| - 1])
    ensures Trim(s) == s
  {
  }

  lemma TrimLine(line: string)
    requires line != "" && !IsBlankByte(line[0]) && !IsBlankByte(line[|line| - 1])
    ensures Trim(line + "\r\n") == line
  {
    var sent := line + "\r\n";
    assert SkipBlank(sent) == sent;
    assert sent[..|sent| - 1] == line + "\r" && (line + "\r")[..|line|] == line;
    assert DropBlank(sent) == DropBlank(line + "\r") == DropBlank(line) == line;
  }

  lemma TrimSpaced(d: string)
    requires d != "" && !IsBlankByte(d[0]) && !IsBlankByte(d[|d| - 1])
    ensures Trim(" " + d) == d
  {
    assert (" " + d)[1..] == d;
    TrimTight(d);
  }

  lemma ParseLengthLine(n: nat, d: string)
    requires d != "" && !IsBlankByte(d[0]) && !IsBlankByte(d[|d| - 1]) && Atoi(d) == Some(n)
    ensures ParseLine(LENGTH_NAME + ": " + d, None) == Ok(Some(Some(n)))
  {
    hide Atoi, Decimal;
    var line := LENGTH_NAME + ": " + d;
    assert line[..14] == LENGTH_NAME && line[14] == ':' && line[15..] == " " + d;
    assert forall j :: 0 <= j < 14 ==> line[j] == LENGTH_NAME[j] != ':';
    IndexIs(line, ':', 14);
    TrimTight(LENGTH_NAME);
    TrimSpaced(d);
  }

  lemma LengthLine(n: nat)
    requires n < INT64_LIMIT
    ensures Trim(LENGTH_NAME + ": " + Decimal(n) + "\r\n") == LENGTH_NAME + ": " + Decimal(n)
    ensures ParseLine(LENGTH_NAME + ": " + Decimal(n), None) == Ok(Some(Some(n)))
  {
    AtoiOfDecimal(n);
    TrimLine(LENGTH_NAME + ": " + Decimal(n));
    ParseLengthLine(n, Decimal(n));
  }

  lemma NoNewlineInside(n: nat)
    ensures var line := LENGTH_NAME + ": " + Decimal(n) + "\r\n"; forall j :: 0 <= j < |line| - 1 ==> line[j] != '\n'
  {
    var d := Decimal(n);
    var line := LENGTH_NAME + ": " + d + "\r\n";
    forall j | 0 <= j < |line| - 1
      ensures line[j] != '\n'
    {
      if 16 <= j < 16 + |d| {
        assert line[j] == d[j - 16];
      }
    }
  }

  /** A line in front of anything is read as that line. */
  lemma LineFirst(line: string, tail: string, length: Option<nat>, headerBytes: nat)
    requires line != "" && line[|line| - 1] == '\n' && forall j :: 0 <= j < |line| - 1 ==> line[j] != '\n'
    requires headerBytes + |line| <= MAX_HEADER_BYTES
    ensures HeaderLine(line + tail, length, headerBytes) ==
      match ParseLine(Trim(line), length)
      case Err(e) => Err(e)
      case Ok(next) => Ok((next, tail))
  {
    hide ParseLine, Trim;
    var input := line + tail;
    IndexIs(input, '\n', |line| - 1);
    assert input[..|line|] == line && input[|line|..] == tail;
  }

  /** The first header line, read in front of anything. */
  lemma LengthLineFirst(n: nat, tail: string)
    requires n < INT64_LIMIT
    ensures ParseHeaders(LENGTH_NAME + ": " + Decimal(n) + "\r\n" + tail, None, 0) ==
            ParseHeaders(tail, Some(n), |Decimal(n)| + 18)
  {
    hide HeaderLine, ParseLine, Trim, Decimal;
    AtoiOfDecimal(n);
    LengthLine(n);
    NoNewlineInside(n);
    LineFirst(LENGTH_NAME + ": " + Decimal(n) + "\r\n", tail, None, 0);
  }

  lemma HeadersRoundTrip(n: nat, body: string)
    requires n < INT64_LIMIT
    ensures ParseHeaders(LENGTH_NAME + ": " + Decimal(n) + "\r\n" + ("\r\n" + body), None, 0) == Ok((Some(n), body))
  {
    AtoiOfDecimal(n);
    var tail := "\r\n" + body;
    LengthLineFirst(n, tail);
    IndexIs(tail, '\n', 1);
    assert tail[..2] == "\r\n" && tail[2..] == body;
    assert SkipBlank("\r\n") == SkipBlank("\r\n"[1..]) == SkipBlank("\n") == SkipBlank("\n"[1..]) == "";
  }

  /** Reading what was printed gives the payload and exactly the bytes behind it, or refuses the
      payload for its size; a frame is accepted exactly when it is within the limit. */
  lemma FrameRoundTrip(payload: string, rest: string, maximum: int)
    requires |payload| < INT64_LIMIT
    ensures Parse(Print(payload) + rest, maximum) ==
      if |payload| <= maximum then Ok(Frame(payload, rest)) else Err(TooLarge)
  {
    var n := |payload|;
    var line := LENGTH_NAME + ": " + Decimal(n) + "\r\n";
    var body := payload + rest;
    var input := Print(payload) + rest;
    assert input == line + ("\r\n" + body);
    HeadersRoundTrip(n, body);
    assert body[..n] == payload && body[n..] == rest;
  }

  lemma NoLineNoHeaders(input: string, length: Option<nat>, headerBytes: nat)
    requires forall j :: 0 <= j < |input| ==> input[j] != '\n'
    ensures ParseHeaders(input, length, headerBytes) == Err(EndOfInput)
  {
    hide ParseLine;
    assert IndexOf(input, '\n') == |input|;
  }

  lemma CutInLengthLine(n: nat, k: nat)
    requires k < |Decimal(n)| + 18
    ensures ParseHeaders((LENGTH_NAME + ": " + Decimal(n) + "\r\n")[..k], None, 0) == Err(EndOfInput)
  {
    hide ParseHeaders;
    NoNewlineInside(n);
    NoLineNoHeaders((LENGTH_NAME + ": " + Decimal(n) + "\r\n")[..k], None, 0);
  }

  lemma CutInBlankLine(n: nat, k: nat)
    requires n < INT64_LIMIT && k < 2
    ensures ParseHeaders(LENGTH_NAME + ": " + Decimal(n) + "\r\n" + "\r\n"[..k], None, 0) == Err(EndOfInput)
  {
    hide ParseHeaders;
    LengthLineFirst(n, "\r\n"[..k]);
    NoLineNoHeaders("\r\n"[..k], Some(n), |Decimal(n)| + 18);
  }

  /** A connection cut inside a frame is never mistaken for a shorter frame. */
  lemma CutFrameIsDetected(payload: string, k: nat, maximum: int)
    requires |payload| < INT64_LIMIT && |payload| <= maximum && k < |Print(payload)|
    ensures Parse(Print(payload)[..k], maximum) in {Err(EndOfInput), Err(TruncatedPayload)}
  {
    hide ParseHeaders;
    var n := |payload|;
    var line := LENGTH_NAME + ": " + Decimal(n) + "\r\n";
    assert Print(payload) == line + ("\r\n" + payload);
    var cut := Print(payload)[..k];
    if k < |line| {
      assert cut == line[..k];
      CutInLengthLine(n, k);
    } else if k < |line| + 2 {
      assert cut == line + "\r\n"[..k - |line|];
      CutInBlankLine(n, k - |line|);
    } else {
      var part := payload[..k - |line| - 2];
      assert cut == line + ("\r\n" + part);
      HeadersRoundTrip(n, part);
    }
  }

  lemma {:induction false} HeadersConsume(input: string, length: Option<nat>, headerBytes: nat)
    ensures ParseHeaders(input, length, headerBytes).Ok? ==>
        |ParseHeaders(input, length, headerBytes).value.1| < |input|
    decreases |input|
  {
    hide HeaderLine;
    match HeaderLine(input, length, headerBytes)
    case Ok((Some(next), rest)) => HeadersConsume(rest, next, headerBytes + |input| - |rest|);
    case _ =>
  }

  lemma ParseConsumes(input: string, maximum: int)
    ensures Parse(input, maximum).Ok? ==> |Parse(input, maximum).value.rest| < |input|
  {
    HeadersConsume(input, None, 0);
  }

  /** The frames read until the first error, as `readLoop` reads them. */
  function ParseAll(input: string, maximum: int): (seq<string>, FrameError)
    decreases |input|
  {
    match Parse(input, maximum)
    case Err(e) => ([], e)
    case Ok(Frame(payload, rest)) =>
      ParseConsumes(input, maximum);
      var (more, e) := ParseAll(rest, maximum);
      ([payload] + more, e)
  }

  lemma ParseAllStep(input: string, maximum: int, frame: Frame)
    requires Parse(input, maximum) == Ok(frame)
    ensures ParseAll(input, maximum) ==
        ([frame.payload] + ParseAll(frame.rest, maximum).0, ParseAll(frame.rest, maximum).1)
  {
  }

  lemma ParseAllPrinted(payload: string, rest: string, maximum: int)
    requires |payload| <= maximum < INT64_LIMIT
    ensures ParseAll(Print(payload) + rest, maximum) ==
        ([payload] + ParseAll(rest, maximum).0, ParseAll(rest, maximum).1)
  {
    FrameRoundTrip(payload, rest, maximum);
    ParseAllStep(Print(payload) + rest, maximum, Frame(payload, rest));
  }

  /** Any sequence of payloads within the limit, printed one after the other, is read back as the
      same sequence with nothing left over. */
  lemma {:induction false} StreamRoundTrip(payloads: seq<string>, maximum: int)
    requires maximum < INT64_LIMIT && forall p :: p in payloads ==> |p| <= maximum
    ensures ParseAll(PrintAll(payloads), maximum) == (payloads, EndOfInput)
  {
    if payloads == [] {
      assert IndexOf("", '\n') == 0;
    } else {
      var rest := PrintAll(payloads[1..]);
      calc {
        ParseAll(PrintAll(payloads), maximum);
        ParseAll(Print(payloads[0]) + rest, maximum);
        { ParseAllPrinted(payloads[0], rest, maximum); }
        ([payloads[0]] + ParseAll(rest, maximum).0, ParseAll(rest, maximum).1);
        { StreamRoundTrip(payloads[1..], maximum); }
        ([payloads[0]] + payloads[1..], EndOfInput);
        { assert [payloads[0]] + payloads[1..] == payloads; }
        (payloads, EndOfInput);
      }
    }
  }

  // ------------------------------------------------------------ the reader and the writer

  /** One turn of the header loop. */
  lemma HeadersTurn(input: string, length: Option<nat>, headerBytes: nat,
      line: Result<Option<Option<nat>>, FrameError>, rest: string)
    requires match HeaderLine(input, length, headerBytes)
             case Err(e) => line == Err(e)
             case Ok((next, tail)) => line == Ok(next) && rest == tail
    ensures line.Err? ==> ParseHeaders(input, length, headerBytes) == Err(line.error)
    ensures line == Ok(None) ==> ParseHeaders(input, length, headerBytes) == Ok((length, rest))
    ensures line.Ok? && line.value.Some? ==> |rest| < |input|
    ensures line.Ok? && line.value.Some? ==>
      ParseHeaders(input, length, headerBytes) == ParseHeaders(rest, line.value.value, headerBytes + |input| - |rest|)
  {
    hide HeaderLine;
  }

  class FrameReader {
    var input: string

    constructor (input: string)
      ensures this.input == input
    {
      this.input := input;
    }

    /** One header line; None ends the header block. */
    method ReadHeaderLine(line: string, length: Option<nat>) returns (r: Result<Option<Option<nat>>, FrameError>)
      ensures r == ParseLine(line, length)
    {
      if line == "" {
        return Ok(None);
      }
      var colon := IndexOf(line, ':');
      if colon == |line| {
        return Err(MalformedHeader);
      }
      if !EqualFold(Trim(line[..colon]), LENGTH_NAME) {
        return Ok(Some(length));
      }
      if length.Some? {
        return Err(DuplicateLength);
      }
      var n := Atoi(Trim(line[colon + 1..]));
      if n.None? || n.value < 0 {
        return Err(InvalidLength);
      }
      r := Ok(Some(Some(n.value)));
    }

    /** Takes one header line off the stream. */
    method TakeHeaderLine(length: Option<nat>, headerBytes: nat) returns (r: Result<Option<Option<nat>>, FrameError>)
      modifies this
      ensures match HeaderLine(old(input), length, headerBytes)
              case Err(e) => r == Err(e)
              case Ok((next, rest)) => r == Ok(next) && input == rest
    {
      var end := IndexOf(input, '\n');
      if end == |input| {
        return Err(EndOfInput);
      }
      if headerBytes + end + 1 > MAX_HEADER_BYTES {
        return Err(HeadersTooLarge);
      }
      r := ReadHeaderLine(Trim(input[..end + 1]), length);
      input := input[end + 1..];
    }

    /** One turn of the header loop: what is left to parse after it. */
    method NextHeader(length: Option<nat>, headerBytes: nat)
        returns (r: Result<Option<Option<nat>>, FrameError>, taken: nat)
      modifies this
      ensures r.Err? ==> ParseHeaders(old(input), length, headerBytes) == Err(r.error)
      ensures r == Ok(None) ==> ParseHeaders(old(input), length, headerBytes) == Ok((length, input))
      ensures r.Ok? && r.value.Some? ==>
        ParseHeaders(old(input), length, headerBytes) == ParseHeaders(input, r.value.value, taken) &&
            |input| < |old(input)|
    {
      hide HeaderLine;
      var before := |input|;
      r := TakeHeaderLine(length, headerBytes);
      HeadersTurn(old(input), length, headerBytes, r, input);
      taken := if |input| <= before then headerBytes + before - |input| else headerBytes;
    }

    /** The header loop of `readFrame`. */
    method ReadHeaders() returns (r: Result<Option<nat>, FrameError>)
      modifies this
      ensures match ParseHeaders(old(input), None, 0)
              case Ok((length, rest)) => r == Ok(length) && input == rest
              case Err(e) => r == Err(e)
    {
      var contentLength: Option<nat> := None;
      var headerBytes: nat := 0;
      while true
        invariant ParseHeaders(old(input), None, 0) == ParseHeaders(input, contentLength, headerBytes)
        decreases |input|
      {
        var line;
        line, headerBytes := NextHeader(contentLength, headerBytes);
        if line.Err? {
          return Err(line.error);
        }
        if line.value.None? {
          return Ok(contentLength);
        }
        contentLength := line.value.value;
      }
    }

    /** Reads one frame and leaves exactly what follows it; after an error the client stops reading. */
    method ReadFrame(maximum: int) returns (r: Result<string, FrameError>)
      modifies this
      ensures match Parse(old(input), maximum)
              case Ok(frame) => r == Ok(frame.payload) && input == frame.rest
              case Err(e) => r == Err(e)
    {
      var header := ReadHeaders();
      match header
      case Err(e) => r := Err(e);
      case Ok(None) => r := Err(MissingLength);
      case Ok(Some(length)) =>
        if length > maximum {
          return Err(TooLarge);
        }
        if |input| < length {
          return Err(if input == "" then EndOfInput else TruncatedPayload);
        }
        r := Ok(input[..length]);
        input := input[length..];
    }

    /** `readLoop` up to the error that ends it. */
    method ReadAll(maximum: int) returns (payloads: seq<string>, failure: FrameError)
      modifies this
      ensures (payloads, failure) == ParseAll(old(input), maximum)
    {
      payloads := [];
      while true
        invariant ParseAll(old(input), maximum).0 == payloads + ParseAll(input, maximum).0
        invariant ParseAll(old(input), maximum).1 == ParseAll(input, maximum).1
        decreases |input|
      {
        ParseConsumes(input, maximum);
        ghost var before := input;
        var r := ReadFrame(maximum);
        match r {
          case Err(e) =>
            assert ParseAll(before, maximum) == ([], e);
            assert payloads + [] == payloads;
            return payloads, e;
          case Ok(payload) =>
            ParseAllStep(before, maximum, Frame(payload, input));
            assert payloads + ([payload] + ParseAll(input, maximum).0) ==
                payloads + [payload] + ParseAll(input, maximum).0;
            payloads := payloads + [payload];
        }
      }
    }
  }

  lemma PrintStep(payloads: seq<string>, i: nat, sent: string)
    requires i < |payloads|
    ensures sent + Header(|payloads[i]|) + payloads[i] + PrintAll(payloads[i + 1..]) == sent + PrintAll(payloads[i..])
  {
    assert payloads[i..][0] == payloads[i] && payloads[i..][1..] == payloads[i + 1..];
  }

  /** `writeLoop` over the payloads it takes from its queue. */
  method WriteAll(payloads: seq<string>) returns (sent: string)
    ensures sent == PrintAll(payloads)
  {
    sent := "";
    var i := 0;
    while i < |payloads|
      invariant i <= |payloads| && sent + PrintAll(payloads[i..]) == PrintAll(payloads)
    {
      PrintStep(payloads, i, sent);
      sent := sent + Header(|payloads[i]|);
      sent := sent + payloads[i];
      i := i + 1;
    }
  }
}
