/**
 Native messages: a payload preceded by its length in four little-endian bytes. How a value is
 rendered as canonical JSON bytes, and how such bytes are parsed back, are parameters.
 */
module Framing {
  import opened Wrappers

  const MAX_NATIVE_MESSAGE := 1024 * 1024

  datatype Error = HeaderInvalid | SizeInvalid | Truncated | PayloadInvalid | ResponseTooLarge | DuplicateKey

  /** What reading one message takes from the input: its outcome and the bytes left. */
  datatype Reading<+V> = Reading(outcome: Result<V, Error>, rest: seq<byte>)

  type uint32 = n: int | 0 <= n < 0x1_0000_0000

  /** struct.pack("<I", n). */
  function Pack(n: uint32): (b: seq<byte>)
    ensures |b| == 4
  {
    [n % 0x100, n / 0x100 % 0x100, n / 0x1_0000 % 0x100, n / 0x100_0000]
  }

  /** struct.unpack("<I", b). */
  function Unpack(b: seq<byte>): uint32
    requires |b| == 4
  {
    var b0: nat, b1: nat, b2: nat, b3: nat := b[0], b[1], b[2], b[3];
    b0 + 0x100 * b1 + 0x1_0000 * b2 + 0x100_0000 * b3
  }

  function Min(a: nat, b: nat): nat {
    if a <= b then a else b
  }

  /** What the writer puts on the stream for one payload. */
  function Frame(p: seq<byte>): seq<byte>
    requires |p| <= MAX_NATIVE_MESSAGE
  {
    Pack(|p|) + p
  }

  function ReadFrame(input: seq<byte>): Reading<seq<byte>> {
    if |input| < 4 then Reading(Failure(HeaderInvalid), [])
    else
      var length, rest := Unpack(input[..4]), input[4..];
      if length == 0 || length > MAX_NATIVE_MESSAGE then Reading(Failure(SizeInvalid), rest)
      else if |rest| < length then Reading(Failure(Truncated), [])
      else Reading(Success(rest[..length]), rest[length..])
  }

  /** One message: a frame whose payload parses. The frame is consumed even when it does not. */
  function ReadMessage<V>(input: seq<byte>, parse: seq<byte> -> Option<V>): Reading<V> {
    var frame := ReadFrame(input);
    match frame.outcome
    case Failure(e) => Reading(Failure(e), frame.rest)
    case Success(payload) =>
      match parse(payload)
      case None => Reading(Failure(PayloadInvalid), frame.rest)
      case Some(value) => Reading(Success(value), frame.rest)
  }

  /** A binary stream; `read` returns fewer bytes than asked only at the end. */
  class ByteStream {
    var bytes: seq<byte>

    constructor (bytes: seq<byte>)
      ensures this.bytes == bytes
    {
      this.bytes := bytes;
    }

    method Read(n: nat) returns (chunk: seq<byte>)
      modifies this
      ensures chunk == old(bytes)[..Min(n, |old(bytes)|)] && bytes == old(bytes)[Min(n, |old(bytes)|)..]
    {
      var taken := Min(n, |bytes|);
      chunk := bytes[..taken];
      bytes := bytes[taken..];
    }

    method Write(chunk: seq<byte>)
      modifies this
      ensures bytes == old(bytes) + chunk
    {
      bytes := bytes + chunk;
    }
  }

  method ReadNativeMessage<V>(stream: ByteStream, parse: seq<byte> -> Option<V>) returns (r: Result<V, Error>)
    modifies stream
    ensures Reading(r, stream.bytes) == ReadMessage(old(stream.bytes), parse)
  {
    var header := stream.Read(4);
    if |header| != 4 {
      return Failure(HeaderInvalid);
    }
    var length := Unpack(header);
    if length <= 0 || length > MAX_NATIVE_MESSAGE {
      return Failure(SizeInvalid);
    }
    var payload := stream.Read(length);
    if |payload| != length {
      return Failure(Truncated);
    }
    match parse(payload) {
      case None => return Failure(PayloadInvalid);
      case Some(value) => return Success(value);
    }
  }

  method WriteNativeMessage<V>(stream: ByteStream, value: V, render: V -> seq<byte>) returns (r: Result<(), Error>)
    modifies stream
    ensures r.Success? <==> |render(value)| <= MAX_NATIVE_MESSAGE
    ensures stream.bytes == if r.Success? then old(stream.bytes) + Frame(render(value)) else old(stream.bytes)
  {
    var raw := render(value);
    if |raw| > MAX_NATIVE_MESSAGE {
      return Failure(ResponseTooLarge);
    }
    stream.Write(Pack(|raw|));
    stream.Write(raw);
    return Success(());
  }

  // ----- The length bytes -----

  lemma UnpackInvertsPack(n: uint32)
    ensures Unpack(Pack(n)) == n
  {
    assert n / 0x100 == n / 0x100 % 0x100 + 0x100 * (n / 0x1_0000);
    assert n / 0x1_0000 == n / 0x1_0000 % 0x100 + 0x100 * (n / 0x100_0000);
  }

  lemma ByteOf(low: byte, high: nat)
    ensures (low + 0x100 * high) % 0x100 == low && (low + 0x100 * high) / 0x100 == high
  {
  }

  lemma PackInvertsUnpack(b: seq<byte>)
    requires |b| == 4
    ensures Pack(Unpack(b)) == b
  {
    var b0: nat, b1: nat, b2: nat, b3: nat := b[0], b[1], b[2], b[3];
    var high := b2 + 0x100 * b3;
    var middle := b1 + 0x100 * high;
    ByteOf(b[0], middle);
    ByteOf(b[1], high);
    ByteOf(b[2], b[3]);
    assert Unpack(b) == b0 + 0x100 * middle;
    assert Unpack(b) / 0x1_0000 == middle / 0x100;
    assert Unpack(b) / 0x100_0000 == high / 0x100;
  }

  /** The four bytes are the length's digits to the base 256, the least first. */
  lemma PackIsLittleEndian(n: uint32)
    ensures var b := Pack(n); b[0] as int + 256 * b[1] as int + 65_536 * b[2] as int + 16_777_216 * b[3] as int == n
  {
    UnpackInvertsPack(n);
  }

  // ----- One frame -----

  function LengthIn(input: seq<byte>): int
    requires |input| >= 4
  {
    input[0] as int + 256 * input[1] as int + 65_536 * input[2] as int + 16_777_216 * input[3] as int
  }

  /** Every refusal of the reader, and where it leaves the stream. */
  lemma ReadRefusals(input: seq<byte>)
    ensures |input| < 4 ==> ReadFrame(input) == Reading(Failure(HeaderInvalid), [])
    ensures |input| >= 4 && !(1 <= LengthIn(input) <= 1_048_576) ==>
              ReadFrame(input) == Reading(Failure(SizeInvalid), input[4..])
    ensures |input| >= 4 && 1 <= LengthIn(input) <= 1_048_576 && |input| - 4 < LengthIn(input) ==>
              ReadFrame(input) == Reading(Failure(Truncated), [])
    ensures |input| >= 4 && 1 <= LengthIn(input) <= |input| - 4 && LengthIn(input) <= 1_048_576 ==>
              ReadFrame(input) == Reading(Success(input[4..4 + LengthIn(input)]), input[4 + LengthIn(input)..])
  {
    if |input| >= 4 {
      var n := LengthIn(input);
      assert Unpack(input[..4]) == n;
      assert 1 <= n <= |input| - 4 ==> input[4..][..n] == input[4..4 + n] && input[4..][n..] == input[4 + n..];
    }
  }

  predicate InBounds(p: seq<byte>) {
    1 <= |p| <= MAX_NATIVE_MESSAGE
  }

  lemma FrameRoundTrip(p: seq<byte>, suffix: seq<byte>)
    requires InBounds(p)
    ensures ReadFrame(Frame(p) + suffix) == Reading(Success(p), suffix)
  {
    UnpackInvertsPack(|p|);
    var input := Frame(p) + suffix;
    assert input[..4] == Pack(|p|);
    assert input[4..] == p + suffix;
  }

  /** Reading succeeds on exactly the inputs that start with a frame, and takes just that frame. */
  lemma ReadSucceedsIffFramed(input: seq<byte>, p: seq<byte>, rest: seq<byte>)
    ensures ReadFrame(input) == Reading(Success(p), rest) <==> InBounds(p) && input == Frame(p) + rest
  {
    if ReadFrame(input) == Reading(Success(p), rest) {
      PackInvertsUnpack(input[..4]);
      assert input == input[..4] + (input[4..][..|p|] + input[4..][|p|..]);
      assert input == Frame(p) + rest;
    }
    if InBounds(p) && input == Frame(p) + rest {
      FrameRoundTrip(p, rest);
    }
  }

  /** Every strict prefix of a frame is refused: a cut header, or a cut payload. */
  lemma StrictPrefixIsRefused(p: seq<byte>, cut: nat)
    requires InBounds(p) && cut < |Frame(p)|
    ensures ReadFrame(Frame(p)[..cut]).outcome == Failure(if cut < 4 then HeaderInvalid else Truncated)
  {
    if cut >= 4 {
      UnpackInvertsPack(|p|);
      assert Frame(p)[..cut][..4] == Pack(|p|);
    }
  }

  /** An empty payload is written without complaint and then refused by the reader. */
  lemma EmptyPayloadDoesNotRoundTrip(suffix: seq<byte>)
    ensures ReadFrame(Frame([]) + suffix) == Reading(Failure(SizeInvalid), suffix)
  {
    UnpackInvertsPack(0);
    var input := Frame([]) + suffix;
    assert input[..4] == Pack(0);
    assert input[4..] == suffix;
  }

  /** A framed payload is consumed whether or not it parses, and one that does not is refused. */
  lemma MessageAnswers<V>(p: seq<byte>, suffix: seq<byte>, parse: seq<byte> -> Option<V>)
    requires InBounds(p)
    ensures parse(p).Some? ==>
              ReadMessage(Frame(p) + suffix, parse) == Reading(Success(parse(p).value), suffix)
    ensures parse(p).None? ==> ReadMessage(Frame(p) + suffix, parse) == Reading(Failure(PayloadInvalid), suffix)
  {
    FrameRoundTrip(p, suffix);
  }

  // ----- Sequences of frames -----

  predicate AllInBounds(ps: seq<seq<byte>>) {
    forall i :: 0 <= i < |ps| ==> InBounds(ps[i])
  }

  /** The bytes left by writing the payloads one after the other. */
  function Frames(ps: seq<seq<byte>>): seq<byte>
    requires AllInBounds(ps)
  {
    if ps == [] then [] else Frame(ps[0]) + Frames(ps[1..])
  }

  /** `n` messages read one after the other: the values and the bytes left, or the first error. */
  function ReadN<V>(input: seq<byte>, n: nat, parse: seq<byte> -> Option<V>): Result<(seq<V>, seq<byte>), Error> {
    if n == 0 then Success(([], input))
    else
      var first := ReadMessage(input, parse);
      var value :- first.outcome;
      var (values, rest) :- ReadN(first.rest, n - 1, parse);
      Success(([value] + values, rest))
  }

  /** Payloads read as the bytes they are. */
  function AsIs(payload: seq<byte>): Option<seq<byte>> {
    Some(payload)
  }

  /** Reading as many payloads as were written returns exactly them and leaves every suffix as it was. */
  lemma FramesRoundTrip(ps: seq<seq<byte>>, suffix: seq<byte>)
    requires AllInBounds(ps)
    ensures ReadN(Frames(ps) + suffix, |ps|, AsIs) == Success((ps, suffix))
  {
    MessagesRoundTrip(ps, ps, AsIs, suffix);
  }

  /** Reading past one written frame is reading what follows it. */
  lemma ReadNPastFrame<V>(p: seq<byte>, v: V, rest: seq<byte>, n: nat, parse: seq<byte> -> Option<V>)
    requires InBounds(p) && parse(p) == Some(v)
    ensures ReadN(Frame(p) + rest, n + 1, parse) ==
            match ReadN(rest, n, parse)
            case Success(read) => Success(([v] + read.0, read.1))
            case Failure(e) => Failure(e)
  {
    FrameRoundTrip(p, rest);
  }

  /** The payload of each value parses back to it. */
  ghost predicate ParsesBack<V>(vs: seq<V>, ps: seq<seq<byte>>, parse: seq<byte> -> Option<V>) {
    |vs| == |ps| && forall i :: 0 <= i < |vs| ==> parse(ps[i]) == Some(vs[i])
  }

  /** The same for values: whatever parses back is read back, for every number of messages and every suffix. */
  lemma {:induction false} MessagesRoundTrip<V>(
    vs: seq<V>, ps: seq<seq<byte>>, parse: seq<byte> -> Option<V>, suffix: seq<byte>)
    requires AllInBounds(ps) && ParsesBack(vs, ps, parse)
    ensures ReadN(Frames(ps) + suffix, |vs|, parse) == Success((vs, suffix))
  {
    if ps == [] {
      assert Frames(ps) + suffix == suffix;
    } else {
      assert Frames(ps) + suffix == Frame(ps[0]) + (Frames(ps[1..]) + suffix);
      MessagesRoundTrip(vs[1..], ps[1..], parse, suffix);
      ReadNPastFrame(ps[0], vs[0], Frames(ps[1..]) + suffix, |vs| - 1, parse);
      assert vs == [vs[0]] + vs[1..];
    }
  }

  /** Cut anywhere, the written bytes no longer yield all the messages. */
  lemma {:induction false} CutFramesFallShort(ps: seq<seq<byte>>, cut: nat)
    requires AllInBounds(ps) && cut < |Frames(ps)|
    ensures ReadN(Frames(ps)[..cut], |ps|, AsIs).Failure?
  {
    var first, rest := Frame(ps[0]), Frames(ps[1..]);
    if cut < |first| {
      assert Frames(ps)[..cut] == first[..cut];
      StrictPrefixIsRefused(ps[0], cut);
    } else {
      assert Frames(ps)[..cut] == first + rest[..cut - |first|];
      CutFramesFallShort(ps[1..], cut - |first|);
      ReadNPastFrame(ps[0], ps[0], rest[..cut - |first|], |ps| - 1, AsIs);
    }
  }

  /** Bytes can be cut into frames and a suffix in one way only. */
  lemma {:induction false} FramesAreUnambiguous(
    ps: seq<seq<byte>>, s: seq<byte>, qs: seq<seq<byte>>, t: seq<byte>)
    requires AllInBounds(ps) && AllInBounds(qs) && |ps| == |qs|
    requires Frames(ps) + s == Frames(qs) + t
    ensures ps == qs && s == t
  {
    if ps == [] {
      assert Frames(ps) + s == s && Frames(qs) + t == t;
    } else {
      assert Frames(ps) + s == Frame(ps[0]) + (Frames(ps[1..]) + s);
      assert Frames(qs) + t == Frame(qs[0]) + (Frames(qs[1..]) + t);
      FrameRoundTrip(ps[0], Frames(ps[1..]) + s);
      FrameRoundTrip(qs[0], Frames(qs[1..]) + t);
      FramesAreUnambiguous(ps[1..], s, qs[1..], t);
      assert ps == [ps[0]] + ps[1..] && qs == [qs[0]] + qs[1..];
    }
  }

  // ----- Objects -----

  /** The hook that builds a JSON object: it refuses a repeated key and drops nothing. */
  method UniqueObject<V>(pairs: seq<(string, V)>) returns (r: Result<map<string, V>, Error>)
    ensures r == Failure(DuplicateKey) || r.Success?
    ensures r.Failure? <==> exists i, j :: 0 <= i < j < |pairs| && pairs[i].0 == pairs[j].0
    ensures r.Success? ==> forall i :: 0 <= i < |pairs| ==> pairs[i].0 in r.value && r.value[pairs[i].0] == pairs[i].1
    ensures r.Success? ==> forall k :: k in r.value ==> exists i :: 0 <= i < |pairs| && pairs[i].0 == k
  {
    var value: map<string, V> := map[];
    for n := 0 to |pairs|
      invariant forall i :: 0 <= i < n ==> pairs[i].0 in value && value[pairs[i].0] == pairs[i].1
      invariant forall k :: k in value ==> exists i :: 0 <= i < n && pairs[i].0 == k
      invariant forall i, j :: 0 <= i < j < n ==> pairs[i].0 != pairs[j].0
    {
      if pairs[n].0 in value {
        return Failure(DuplicateKey);
      }
      value := value[pairs[n].0 := pairs[n].1];
    }
    return Success(value);
  }
}
