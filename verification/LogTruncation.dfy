/**
 The size limit on captured logs (`_complete_logs`, apps/hosting/runtime_worker.py): the
 content is cut at a byte count of its UTF-8 form (section 3 of RFC 3629) and decoded back,
 ignoring whatever the cut broke.
 */
module LogTruncation {
  import opened Wrappers

  /** Unicode scalar values: code points without the surrogates. */
  type Scalar = c: int | 0 <= c < 0xD800 || 0xE000 <= c <= 0x10FFFF
  type Byte = b: int | 0 <= b < 256

  const LIMIT: nat := 262_144

  // ----- encoding -----

  function Continuation(bits: int): Byte
    requires 0 <= bits < 64
  {
    0x80 + bits
  }

  function EncodeOne(c: Scalar): (r: seq<Byte>)
    ensures 1 <= |r| <= 4
  {
    if c < 0x80 then [c]
    else if c < 0x800 then [0xC0 + c / 64, Continuation(c % 64)]
    else if c < 0x10000 then [0xE0 + c / 4096, Continuation(c / 64 % 64), Continuation(c % 64)]
    else [0xF0 + c / 262144, Continuation(c / 4096 % 64), Continuation(c / 64 % 64), Continuation(c % 64)]
  }

  function Encode(text: seq<Scalar>): seq<Byte> {
    if text == [] then [] else EncodeOne(text[0]) + Encode(text[1..])
  }

  // ----- decoding with errors ignored -----

  predicate IsContinuation(b: Byte) {
    0x80 <= b < 0xC0
  }

  function Bits(b: Byte): int {
    b - 0x80
  }

  datatype Decoded = Malformed | Decoded(scalar: Scalar, length: nat)

  /** The code point at the head of a byte sequence, if the head is well formed. */
  function DecodeHead(bytes: seq<Byte>): (r: Decoded)
    requires bytes != []
    ensures r.Decoded? ==> 1 <= r.length <= |bytes|
  {
    var lead: int := bytes[0];
    if lead < 0x80 then Decoded(lead, 1)
    else if 0xC2 <= lead < 0xE0 && |bytes| >= 2 && IsContinuation(bytes[1]) then
      Decoded((lead - 0xC0) * 64 + Bits(bytes[1]), 2)
    else if 0xE0 <= lead < 0xF0 && |bytes| >= 3 && IsContinuation(bytes[1]) && IsContinuation(bytes[2]) then
      var c := (lead - 0xE0) * 4096 + Bits(bytes[1]) * 64 + Bits(bytes[2]);
      if c < 0x800 || 0xD800 <= c < 0xE000 then Malformed else Decoded(c, 3)
    else if 0xF0 <= lead < 0xF5 && |bytes| >= 4
      && IsContinuation(bytes[1]) && IsContinuation(bytes[2]) && IsContinuation(bytes[3]) then
      var c := (lead - 0xF0) * 262144 + Bits(bytes[1]) * 4096 + Bits(bytes[2]) * 64 + Bits(bytes[3]);
      if c < 0x10000 || c > 0x10FFFF then Malformed else Decoded(c, 4)
    else Malformed
  }

  /** `bytes.decode("utf-8", errors="ignore")`: a byte that starts nothing well formed is skipped. */
  function DecodeIgnoring(bytes: seq<Byte>): seq<Scalar>
    decreases |bytes|
  {
    if bytes == [] then []
    else
      match DecodeHead(bytes)
      case Decoded(scalar, length) => [scalar] + DecodeIgnoring(bytes[length..])
      case Malformed => DecodeIgnoring(bytes[1..])
  }

  lemma HeadRoundTrip(c: Scalar, rest: seq<Byte>)
    ensures DecodeHead(EncodeOne(c) + rest) == Decoded(c, |EncodeOne(c)|)
  {
    assert c == c / 64 * 64 + c % 64;
    assert c / 64 == c / 4096 * 64 + c / 64 % 64;
    assert c / 4096 == c / 262144 * 64 + c / 4096 % 64;
  }

  /** A code point cut before its last byte decodes to nothing. */
  lemma BrokenDecodesToNothing(c: Scalar, n: nat)
    requires n < |EncodeOne(c)|
    ensures DecodeIgnoring(EncodeOne(c)[..n]) == []
  {
    var bytes := EncodeOne(c)[..n];
    if n > 0 {
      assert DecodeHead(bytes) == Malformed;
      ContinuationsDecodeToNothing(bytes[1..]);
    }
  }

  lemma {:induction false} ContinuationsDecodeToNothing(bytes: seq<Byte>)
    requires forall i :: 0 <= i < |bytes| ==> IsContinuation(bytes[i])
    ensures DecodeIgnoring(bytes) == []
    decreases |bytes|
  {
    if bytes != [] { ContinuationsDecodeToNothing(bytes[1..]); }
  }

  // ----- the cut -----

  /** How many code points fit whole into a number of bytes. */
  function Fitting(text: seq<Scalar>, limit: nat): (k: nat)
    ensures k <= |text|
  {
    if text == [] || |EncodeOne(text[0])| > limit then 0
    else 1 + Fitting(text[1..], limit - |EncodeOne(text[0])|)
  }

  lemma {:induction false} CutDecodesToFitting(text: seq<Scalar>, limit: nat)
    requires limit <= |Encode(text)|
    ensures DecodeIgnoring(Encode(text)[..limit]) == text[..Fitting(text, limit)]
    decreases |text|
  {
    if text != [] {
      var head, rest := EncodeOne(text[0]), Encode(text[1..]);
      if |head| > limit {
        assert Encode(text)[..limit] == head[..limit];
        BrokenDecodesToNothing(text[0], limit);
      } else {
        var left := limit - |head|;
        assert Encode(text)[..limit] == head + rest[..left];
        HeadRoundTrip(text[0], rest[..left]);
        assert (head + rest[..left])[|head|..] == rest[..left];
        CutDecodesToFitting(text[1..], left);
        assert text[..Fitting(text, limit)] == [text[0]] + text[1..][..Fitting(text[1..], left)];
      }
    }
  }

  /** The fitting prefix stays within the limit, and misses it by less than one code point. */
  lemma {:induction false} FittingIsTight(text: seq<Scalar>, limit: nat)
    ensures
      var used := |Encode(text[..Fitting(text, limit)])|;
      && used <= limit
      && (limit < |Encode(text)| ==> limit - used <= 3 && Fitting(text, limit) < |text|)
      && (limit >= |Encode(text)| ==> Fitting(text, limit) == |text|)
    decreases |text|
  {
    if text != [] {
      var head := EncodeOne(text[0]);
      if |head| <= limit {
        FittingIsTight(text[1..], limit - |head|);
        var prefix := text[..Fitting(text, limit)];
        assert prefix[1..] == text[1..][..Fitting(text[1..], limit - |head|)];
      }
    }
  }

  // ----- captured content -----

  const NEWLINE: Scalar := 10

  /** `"\n".join(lines)`. */
  function Join(lines: seq<seq<Scalar>>): seq<Scalar> {
    if lines == [] then []
    else if |lines| == 1 then lines[0]
    else lines[0] + [NEWLINE] + Join(lines[1..])
  }

  /** The environment's own limit, clamped; `None` stands for a capability that is not an integer. */
  function MaximumBytes(configured: Option<int>): (r: nat)
    ensures 1 <= r <= LIMIT
  {
    if configured.None? then LIMIT
    else if configured.value < 1 then 1
    else if configured.value > LIMIT then LIMIT
    else configured.value
  }

  /** A limit within the clamp is taken as it is, any other by the nearest end, and a missing one by the upper end. */
  lemma LimitIsClamped(configured: Option<int>)
    ensures configured.Some? && 1 <= configured.value <= LIMIT ==> MaximumBytes(configured) == configured.value
    ensures configured.Some? && configured.value < 1 ==> MaximumBytes(configured) == 1
    ensures configured.None? || configured.value > LIMIT ==> MaximumBytes(configured) == LIMIT
  {
  }

  /** Lines stay whole and in order, with one newline between two. */
  lemma {:induction false} JoinConcatenates(first: seq<seq<Scalar>>, second: seq<seq<Scalar>>)
    requires first != [] && second != []
    ensures Join(first + second) == Join(first) + [NEWLINE] + Join(second)
  {
    var both := first + second;
    if |first| == 1 {
      assert both[1..] == second;
    } else {
      assert both[1..] == first[1..] + second;
      JoinConcatenates(first[1..], second);
    }
  }

  lemma JoinOfOne(line: seq<Scalar>)
    ensures Join([line]) == line && Join([]) == []
  {
  }

  datatype Capture = Capture(content: seq<Scalar>, truncated: bool)

  function CaptureLogs(lines: seq<seq<Scalar>>, cutByController: bool, configured: Option<int>): Capture {
    var content := Join(lines);
    var encoded := Encode(content);
    var maximum := MaximumBytes(configured);
    Capture(if |encoded| > maximum then DecodeIgnoring(encoded[..maximum]) else content,
            cutByController || |encoded| > maximum)
  }

  /**
   Stored content is a whole-code-point prefix of what the controller sent, fits the limit,
   misses it by at most three bytes when it was cut, and is complete unless marked truncated.
   */
  lemma CapturedLogsFit(lines: seq<seq<Scalar>>, cutByController: bool, configured: Option<int>)
    ensures
      var capture := CaptureLogs(lines, cutByController, configured);
      var used := |Encode(capture.content)|;
      && capture.content <= Join(lines)
      && used <= MaximumBytes(configured)
      && (capture.content != Join(lines) ==> capture.truncated && MaximumBytes(configured) - used <= 3)
      && (!capture.truncated ==> capture.content == Join(lines))
      && (capture.truncated <==> cutByController || capture.content != Join(lines))
  {
    var content, maximum := Join(lines), MaximumBytes(configured);
    FittingIsTight(content, maximum);
    if |Encode(content)| > maximum { CutDecodesToFitting(content, maximum); }
  }
}
