/**
  The byte format of the relay: one signed power byte followed by one netlink message whose
  first four bytes hold its own length (struct nlmsghdr, section 2.3.2 of RFC 3549).
 */
module Wire {

  type byte = b: int | 0 <= b < 256

  /** TPower : a signed 8-bit number of dBm. */
  type Power = p: int | -128 <= p <= 127

  /** The largest message accepted by the receiver. */
  const MTU := 2352

  /** sizeof(struct nlmsghdr) */
  const HEADER := 16

  function Max(a: int, b: int): int {
    if a <= b then b else a
  }

  datatype Frame = Frame(power: Power, msg: seq<byte>)

  function PowerByte(p: Power): byte {
    if p < 0 then p + 256 else p
  }

  function BytePower(b: byte): Power {
    if b < 128 then b else b - 256
  }

  /** nlmsg_len, an unsigned 32-bit number stored little end first. */
  function NlmsgLen(header: seq<byte>): nat
    requires 4 <= |header|
  {
    var b0: int, b1: int, b2: int, b3: int := header[0], header[1], header[2], header[3];
    b0 + 0x100 * b1 + 0x1_0000 * b2 + 0x100_0000 * b3
  }

  /** The conversion of a 32-bit unsigned number to `int`. */
  function AsInt(n: nat): int {
    if n < 0x8000_0000 then n else n - 0x1_0000_0000
  }

  predicate WellFormed(f: Frame) {
    HEADER <= |f.msg| <= MTU && NlmsgLen(f.msg) == |f.msg|
  }

  predicate AllWellFormed(fs: seq<Frame>) {
    forall i :: 0 <= i < |fs| ==> WellFormed(fs[i])
  }

  function Encode(f: Frame): seq<byte> {
    [PowerByte(f.power)] + f.msg
  }

  function EncodeAll(fs: seq<Frame>): seq<byte> {
    if fs == [] then [] else Encode(fs[0]) + EncodeAll(fs[1..])
  }

  /** The length announced by the frame at the head of a stream. */
  function Announced(s: seq<byte>): nat
    requires 1 + HEADER <= |s|
  {
    NlmsgLen(s[1..])
  }

  /** The head of the stream is one complete frame of acceptable length. */
  predicate Complete(s: seq<byte>) {
    && 1 + HEADER <= |s|
    && HEADER <= Announced(s) <= MTU
    && 1 + Announced(s) <= |s|
  }

  function HeadFrame(s: seq<byte>): Frame
    requires Complete(s)
  {
    Frame(BytePower(s[0]), s[1..1 + Announced(s)])
  }

  datatype Decoded = Decoded(frames: seq<Frame>, rest: seq<byte>)

  /** The reference decoder: the frames of a stream and the bytes that are left over. */
  function Decode(s: seq<byte>): Decoded
    decreases |s|
  {
    if Complete(s) then
      var d := Decode(s[1 + Announced(s)..]);
      Decoded([HeadFrame(s)] + d.frames, d.rest)
    else
      Decoded([], s)
  }

  /** Every complete header of the stream announces an acceptable length. */
  predicate Honest(s: seq<byte>)
    decreases |s|
  {
    1 + HEADER <= |s| ==>
      && HEADER <= Announced(s) <= MTU
      && (1 + Announced(s) <= |s| ==> Honest(s[1 + Announced(s)..]))
  }

  /** A frame on the wire : its power in two's complement, then its message. */
  lemma EncodeLayout(f: Frame)
    ensures var s := Encode(f);
            |s| == 1 + |f.msg| && (s[0] - f.power) % 256 == 0 && s[1..] == f.msg && BytePower(s[0]) == f.power
  {
  }

  lemma {:induction false} EncodeAllAppend(fs: seq<Frame>, f: Frame)
    ensures EncodeAll(fs + [f]) == EncodeAll(fs) + Encode(f)
  {
    if fs == [] {
      assert [f][1..] == [];
      assert fs + [f] == [f];
    } else {
      EncodeAllAppend(fs[1..], f);
      assert (fs + [f])[1..] == fs[1..] + [f];
    }
  }

  /** An encoded frame in front of any bytes is recognised, whole and unchanged. */
  lemma EncodedHead(f: Frame, tail: seq<byte>)
    requires WellFormed(f)
    ensures var s := Encode(f) + tail;
            && Complete(s) && Announced(s) == |f.msg|
            && HeadFrame(s) == f && s[1 + Announced(s)..] == tail
  {
    var s := Encode(f) + tail;
    assert s[1..] == f.msg + tail;
    assert s[1..1 + |f.msg|] == f.msg;
  }

  /** A strict prefix of an encoded frame decodes to nothing. */
  lemma CutFrameIncomplete(f: Frame, cut: nat)
    requires WellFormed(f) && cut < |Encode(f)|
    ensures !Complete(Encode(f)[..cut])
    ensures Honest(Encode(f)[..cut])
  {
    var s := Encode(f)[..cut];
    if 1 + HEADER <= |s| {
      assert s[1..] == f.msg[..cut - 1];
    }
  }

  lemma DecodeStep(s: seq<byte>)
    requires Complete(s)
    ensures var d := Decode(s[1 + Announced(s)..]);
            Decode(s) == Decoded([HeadFrame(s)] + d.frames, d.rest)
  {
  }

  lemma DecodeFront(f: Frame, tail: seq<byte>)
    requires WellFormed(f)
    ensures Decode(Encode(f) + tail) == Decoded([f] + Decode(tail).frames, Decode(tail).rest)
  {
    EncodedHead(f, tail);
    DecodeStep(Encode(f) + tail);
  }

  lemma {:induction false} DecodeOfEncode(fs: seq<Frame>, tail: seq<byte>)
    requires AllWellFormed(fs) && !Complete(tail)
    ensures Decode(EncodeAll(fs) + tail) == Decoded(fs, tail)
  {
    if fs == [] {
      assert EncodeAll(fs) + tail == tail;
    } else {
      DecodeOfEncode(fs[1..], tail);
      EncodeAllHead(fs, tail);
      DecodeFront(fs[0], EncodeAll(fs[1..]) + tail);
      assert fs == [fs[0]] + fs[1..];
    }
  }

  lemma EncodeAllCons(f: Frame, fs: seq<Frame>, tail: seq<byte>)
    ensures EncodeAll([f] + fs) + tail == Encode(f) + (EncodeAll(fs) + tail)
  {
    assert ([f] + fs)[1..] == fs;
    assert (Encode(f) + EncodeAll(fs)) + tail == Encode(f) + (EncodeAll(fs) + tail);
  }

  lemma EncodeAllHead(fs: seq<Frame>, tail: seq<byte>)
    requires fs != []
    ensures EncodeAll(fs) + tail == Encode(fs[0]) + (EncodeAll(fs[1..]) + tail)
  {
    assert EncodeAll(fs) == Encode(fs[0]) + EncodeAll(fs[1..]);
  }

  lemma EncodeOfHead(s: seq<byte>)
    requires Complete(s)
    ensures WellFormed(HeadFrame(s))
    ensures Encode(HeadFrame(s)) + s[1 + Announced(s)..] == s
  {
    assert HeadFrame(s).msg == s[1..][..Announced(s)];
  }

  /** Decoding loses no byte of any stream and yields acceptable frames only. */
  lemma {:induction false} EncodeOfDecode(s: seq<byte>)
    ensures AllWellFormed(Decode(s).frames) && !Complete(Decode(s).rest)
    ensures EncodeAll(Decode(s).frames) + Decode(s).rest == s
    decreases |s|
  {
    if Complete(s) {
      var later := s[1 + Announced(s)..];
      var f, d := HeadFrame(s), Decode(later);
      EncodeOfDecode(later);
      EncodeOfHead(s);
      DecodeStep(s);
      EncodeAllCons(f, d.frames, d.rest);
    } else {
      assert EncodeAll([]) + s == s;
    }
  }

  lemma {:induction false} HonestEncoding(fs: seq<Frame>, tail: seq<byte>)
    requires AllWellFormed(fs) && Honest(tail)
    ensures Honest(EncodeAll(fs) + tail)
  {
    if fs == [] {
      assert EncodeAll(fs) + tail == tail;
    } else {
      HonestEncoding(fs[1..], tail);
      EncodedHead(fs[0], EncodeAll(fs[1..]) + tail);
      EncodeAllHead(fs, tail);
    }
  }
}
