/**
  One accepted connection as the operating system sees it (src/csocket.cc), and the framing
  functions of src/cwifi.cc that run on top of it.

  What the environment will do is written down in the channel: `incoming` holds the bytes the
  peer will send, `chunks` how many bytes each call of recv may return (0, or no entry left, is
  a failure or an end of file), `sends` how many bytes each call of send may write. `written`
  holds the bytes written so far. `log` and `since` are history: what happened to the
  connection, and how many frames the relay had received when it was accepted.
 */
module Channels {
  import opened Wire

  datatype Event =
    | Got(frame: Frame)
    | Sent(frame: Frame)
    | Broken(frame: Frame, cut: nat)
    | TakenOver
    | Closed

  datatype Channel = Channel(
    incoming: seq<byte>,
    chunks: seq<nat>,
    sends: seq<nat>,
    written: seq<byte>,
    log: seq<Event>,
    since: nat)

  function Min(a: int, b: int): int {
    if a <= b then a else b
  }

  // ---------- reading ----------

  datatype Taken = Taken(data: seq<byte>, chan: Channel)

  /** recv : some bytes, at most `n`; no byte at all is a failure. */
  function Recv(ch: Channel, n: nat): Taken {
    if ch.chunks == [] then
      Taken([], ch)
    else
      var k := Min(ch.chunks[0], Min(n, |ch.incoming|));
      Taken(ch.incoming[..k], ch.(incoming := ch.incoming[k..], chunks := ch.chunks[1..]))
  }

  datatype Filled = Filled(ok: bool, data: seq<byte>, chan: Channel)

  /** The loop of ReadEqualSize : `n` bytes in as many calls of recv as it takes. */
  function ReadExact(ch: Channel, n: int): Filled
    decreases |ch.chunks|
  {
    if n <= 0 then
      Filled(true, [], ch)
    else
      var t := Recv(ch, n);
      if t.data == [] then
        Filled(false, [], t.chan)
      else
        Prepend(t.data, ReadExact(t.chan, n - |t.data|))
  }

  function Prepend(data: seq<byte>, r: Filled): Filled {
    Filled(r.ok, data + r.data, r.chan)
  }

  /** What RecvSignalWithSocket returns, and the first `valread` bytes of its buffer. */
  datatype Reception = Reception(valread: int, power: Power, data: seq<byte>, chan: Channel)

  const SOCKET_ERROR := -1

  function Receive(ch: Channel): Reception {
    var t := Recv(ch, 1);
    if t.data == [] then
      Reception(SOCKET_ERROR, 0, [], t.chan)
    else
      ReceiveMessage(t.chan, BytePower(t.data[0]))
  }

  function ReceiveMessage(ch: Channel, power: Power): Reception {
    var head := ReadExact(ch, HEADER);
    ReadExactLaw(ch, HEADER);
    if !head.ok then
      Reception(SOCKET_ERROR, power, [], head.chan)
    else
      var total := AsInt(NlmsgLen(head.data));
      if total > MTU then
        Reception(SOCKET_ERROR, power, [], head.chan)
      else
        ReceiveBody(head.chan, power, head.data, total)
  }

  function ReceiveBody(ch: Channel, power: Power, header: seq<byte>, total: int): Reception
    requires |header| == HEADER
  {
    var rest := ReadExact(ch, total - HEADER);
    ReadExactLaw(ch, total - HEADER);
    if !rest.ok then
      Reception(SOCKET_ERROR, power, [], rest.chan)
    else
      Reception(total, power, if total > 0 then (header + rest.data)[..total] else [], rest.chan)
  }

  /** Only the receiving half of the channel moved, by exactly the bytes of `data`. */
  predicate Consumed(ch: Channel, data: seq<byte>, ch': Channel) {
    && ch.incoming == data + ch'.incoming
    && ch' == ch.(incoming := ch'.incoming, chunks := ch'.chunks)
  }

  /** recv never fails while bytes are left. */
  predicate Willing(ch: Channel) {
    |ch.incoming| <= |ch.chunks| && forall i :: 0 <= i < |ch.chunks| ==> 0 < ch.chunks[i]
  }

  lemma RecvLaw(ch: Channel, n: nat)
    ensures var t := Recv(ch, n);
            Consumed(ch, t.data, t.chan) && |t.data| <= n
    ensures Willing(ch) && 0 < n && ch.incoming != [] ==>
              Recv(ch, n).data != [] && Willing(Recv(ch, n).chan)
  {
  }

  lemma ConsumedTwice(ch: Channel, d1: seq<byte>, ch1: Channel, d2: seq<byte>, ch2: Channel)
    requires Consumed(ch, d1, ch1) && Consumed(ch1, d2, ch2)
    ensures Consumed(ch, d1 + d2, ch2)
  {
    assert d1 + (d2 + ch2.incoming) == (d1 + d2) + ch2.incoming;
  }

  lemma {:induction false} ReadExactLaw(ch: Channel, n: int)
    ensures var r := ReadExact(ch, n);
            && Consumed(ch, r.data, r.chan)
            && |r.data| <= (if n > 0 then n else 0)
            && (r.ok ==> |r.data| == if n > 0 then n else 0)
    decreases |ch.chunks|
  {
    if n > 0 {
      RecvLaw(ch, n);
      var t := Recv(ch, n);
      if t.data != [] {
        ReadExactLaw(t.chan, n - |t.data|);
        var r := ReadExact(t.chan, n - |t.data|);
        ConsumedTwice(ch, t.data, t.chan, r.data, r.chan);
      }
    }
  }

  /** However recv cuts the stream, a willing peer's next `n` bytes are delivered. */
  lemma {:induction false} ReadExactWilling(ch: Channel, n: int)
    requires Willing(ch) && n <= |ch.incoming|
    ensures var r := ReadExact(ch, n);
            && r.ok && Willing(r.chan)
            && (n > 0 ==> r.data == ch.incoming[..n] && r.chan.incoming == ch.incoming[n..])
    decreases |ch.chunks|
  {
    if n > 0 {
      RecvLaw(ch, n);
      var t := Recv(ch, n);
      ReadExactWilling(t.chan, n - |t.data|);
      ReadExactLaw(ch, n);
      var r := ReadExact(ch, n);
      assert (r.data + r.chan.incoming)[..n] == r.data;
    }
  }

  /** Reception consumes a prefix of the stream, at most one power byte and one MTU of it. */
  lemma ReceiveConsumes(ch: Channel) returns (data: seq<byte>)
    ensures Consumed(ch, data, Receive(ch).chan) && |data| <= 1 + MTU
    ensures Receive(ch).valread > 0 ==>
              && 1 + HEADER <= |data|
              && |Receive(ch).data| == Receive(ch).valread
              && Receive(ch).valread == Announced(data)
              && |data| == 1 + Max(HEADER, Announced(data))
              && Receive(ch).power == BytePower(data[0])
              && Receive(ch).data == data[1..1 + Announced(data)]
  {
    RecvLaw(ch, 1);
    var t := Recv(ch, 1);
    data := t.data;
    if t.data != [] {
      var body := ReceiveMessageConsumes(t.chan, BytePower(t.data[0]));
      ConsumedTwice(ch, t.data, t.chan, body, Receive(ch).chan);
      data := t.data + body;
      assert data[1..] == body;
    }
  }

  lemma ReceiveMessageConsumes(ch: Channel, power: Power) returns (data: seq<byte>)
    ensures var r := ReceiveMessage(ch, power);
            && Consumed(ch, data, r.chan) && |data| <= MTU && r.power == power
            && (r.valread > 0 ==>
                  && HEADER <= |data|
                  && |r.data| == r.valread && r.valread == NlmsgLen(data)
                  && |data| == Max(HEADER, r.valread)
                  && r.data == data[..r.valread])
  {
    ReadExactLaw(ch, HEADER);
    var head := ReadExact(ch, HEADER);
    data := head.data;
    if head.ok && AsInt(NlmsgLen(head.data)) <= MTU {
      var total := AsInt(NlmsgLen(head.data));
      var body := ReceiveBodyConsumes(head.chan, power, head.data, total);
      ConsumedTwice(ch, head.data, head.chan, body, ReceiveMessage(ch, power).chan);
      data := head.data + body;
    }
  }

  lemma ReceiveBodyConsumes(ch: Channel, power: Power, header: seq<byte>, total: int)
    returns (body: seq<byte>)
    requires |header| == HEADER && total <= MTU
    ensures var r := ReceiveBody(ch, power, header, total);
            && Consumed(ch, body, r.chan) && |body| <= MTU - HEADER && r.power == power
            && (r.valread > 0 ==>
                  && r.valread == total
                  && |body| == Max(HEADER, total) - HEADER
                  && r.data == (header + body)[..total])
  {
    ReadExactLaw(ch, total - HEADER);
    body := ReadExact(ch, total - HEADER).data;
  }

  /** From a peer whose headers are acceptable, whatever is received is one whole frame. */
  lemma ReceiveHonest(ch: Channel)
    requires Honest(ch.incoming) && Receive(ch).valread > 0
    ensures var r := Receive(ch); var f := Frame(r.power, r.data);
            && WellFormed(f)
            && ch.incoming == Encode(f) + r.chan.incoming
            && Honest(r.chan.incoming)
  {
    var r := Receive(ch);
    var data := ReceiveConsumes(ch);
    assert ch.incoming[1..] == data[1..] + r.chan.incoming;
    assert Announced(ch.incoming) == Announced(data);
    assert data == Encode(Frame(r.power, r.data));
    assert ch.incoming[1 + Announced(ch.incoming)..] == r.chan.incoming;
  }

  /** One frame of a willing peer is received whatever the chunks, and the next one is in place. */
  lemma ReceiveWilling(ch: Channel, f: Frame, tail: seq<byte>)
    requires Willing(ch) && WellFormed(f) && ch.incoming == Encode(f) + tail
    ensures var r := Receive(ch);
            && r.valread == |f.msg| && r.power == f.power && r.data == f.msg
            && r.chan.incoming == tail && Willing(r.chan)
  {
    RecvLaw(ch, 1);
    var t := Recv(ch, 1);
    assert t.data == [PowerByte(f.power)];
    assert t.chan.incoming == f.msg + tail;
    ReceiveMessageWilling(t.chan, f, tail);
  }

  lemma ReceiveMessageWilling(ch: Channel, f: Frame, tail: seq<byte>)
    requires Willing(ch) && WellFormed(f) && ch.incoming == f.msg + tail
    ensures var r := ReceiveMessage(ch, f.power);
            && r.valread == |f.msg| && r.power == f.power && r.data == f.msg
            && r.chan.incoming == tail && Willing(r.chan)
  {
    ReadExactWilling(ch, HEADER);
    var head := ReadExact(ch, HEADER);
    assert head.data == f.msg[..HEADER];
    assert head.chan.incoming == f.msg[HEADER..] + tail;
    assert NlmsgLen(head.data) == |f.msg|;
    ReceiveBodyWilling(head.chan, f, tail);
  }

  lemma ReceiveBodyWilling(ch: Channel, f: Frame, tail: seq<byte>)
    requires Willing(ch) && WellFormed(f) && ch.incoming == f.msg[HEADER..] + tail
    ensures var r := ReceiveBody(ch, f.power, f.msg[..HEADER], |f.msg|);
            && r.valread == |f.msg| && r.power == f.power && r.data == f.msg
            && r.chan.incoming == tail && Willing(r.chan)
  {
    var n := |f.msg| - HEADER;
    ReadExactWilling(ch, n);
    assert ch.incoming[..n] == f.msg[HEADER..];
    assert ch.incoming[n..] == tail;
    assert f.msg[..HEADER] + f.msg[HEADER..] == f.msg;
  }

  /** What was received, and the channel behind it. */
  datatype Series = Series(frames: seq<Frame>, chan: Channel)

  /** RecvSignalWithSocket called `n` times in a row. */
  function ReceiveMany(ch: Channel, n: nat): Series
    decreases n
  {
    if n == 0 then
      Series([], ch)
    else
      var r := Receive(ch);
      var l := ReceiveMany(r.chan, n - 1);
      Series([Frame(r.power, r.data)] + l.frames, l.chan)
  }

  lemma ManyStep(ch: Channel, f: Frame, next: Channel, n: nat)
    requires Receive(ch) == Reception(|f.msg|, f.power, f.msg, next)
    ensures ReceiveMany(ch, n + 1) == Series([f] + ReceiveMany(next, n).frames, ReceiveMany(next, n).chan)
  {
  }

  lemma ReceiveFirst(ch: Channel, fs: seq<Frame>, tail: seq<byte>) returns (next: Channel)
    requires Willing(ch) && AllWellFormed(fs) && fs != [] && ch.incoming == EncodeAll(fs) + tail
    ensures Willing(next) && next.incoming == EncodeAll(fs[1..]) + tail
    ensures var l := ReceiveMany(next, |fs[1..]|); ReceiveMany(ch, |fs|) == Series([fs[0]] + l.frames, l.chan)
  {
    EncodeAllHead(fs, tail);
    ReceiveWilling(ch, fs[0], EncodeAll(fs[1..]) + tail);
    next := Receive(ch).chan;
    ManyStep(ch, fs[0], next, |fs[1..]|);
  }

  lemma {:induction false} ReceiveFrames(ch: Channel, fs: seq<Frame>, tail: seq<byte>) returns (end: Channel)
    requires Willing(ch) && AllWellFormed(fs) && ch.incoming == EncodeAll(fs) + tail
    ensures ReceiveMany(ch, |fs|) == Series(fs, end) && end.incoming == tail && Willing(end)
    decreases |fs|
  {
    if fs == [] {
      end := ch;
    } else {
      var next := ReceiveFirst(ch, fs, tail);
      end := ReceiveFrames(next, fs[1..], tail);
      assert fs == [fs[0]] + fs[1..];
    }
  }

  /** Framing round trip : every sequence of frames, every way recv may cut the stream, still in step behind it. */
  lemma RoundTrip(ch: Channel, fs: seq<Frame>, tail: seq<byte>)
    requires Willing(ch) && AllWellFormed(fs) && ch.incoming == EncodeAll(fs) + tail
    ensures ReceiveMany(ch, |fs|).frames == fs
    ensures ReceiveMany(ch, |fs|).chan.incoming == tail && Willing(ReceiveMany(ch, |fs|).chan)
  {
    var end := ReceiveFrames(ch, fs, tail);
  }

  /** From a stream that ends inside a frame, however it is cut, nothing is received. */
  lemma NothingFromPart(ch: Channel)
    requires Honest(ch.incoming) && !Complete(ch.incoming)
    ensures Receive(ch).valread <= 0
  {
    if Receive(ch).valread > 0 {
      ReceiveHonest(ch);
      EncodedHead(Frame(Receive(ch).power, Receive(ch).data), Receive(ch).chan.incoming);
    }
  }

  /** The receiver stays in step with the sender exactly when the announced length is in range. */
  lemma InStepExactly(ch: Channel)
    requires Willing(ch) && 1 + 2352 <= |ch.incoming|
    ensures (Receive(ch).valread > 0 && |ch.incoming| - |Receive(ch).chan.incoming| == 1 + Receive(ch).valread)
            <==> 16 <= Announced(ch.incoming) <= 2352
  {
    var n := Announced(ch.incoming);
    if HEADER <= n <= MTU {
      EncodeOfHead(ch.incoming);
      ReceiveWilling(ch, HeadFrame(ch.incoming), ch.incoming[1 + n..]);
    } else if Receive(ch).valread > 0 {
      var data := ReceiveConsumes(ch);
      assert ch.incoming[1..] == data[1..] + Receive(ch).chan.incoming;
      assert Announced(data) == n;
    }
  }

  // ---------- writing ----------

  datatype Put = Put(ok: bool, count: nat, chan: Channel)

  /** send : all the bytes, or a strict prefix of them and an error. */
  function Send(ch: Channel, data: seq<byte>): Put {
    if ch.sends == [] then
      Put(data == [], 0, ch)
    else
      var k := Min(ch.sends[0], |data|);
      Put(k == |data|, k, ch.(sends := ch.sends[1..], written := ch.written + data[..k]))
  }

  /** SendSignalWithSocket : the power, then the message; the outcome goes to the log. */
  function SendSignal(ch: Channel, f: Frame): Put {
    var p := Send(ch, [PowerByte(f.power)]);
    if !p.ok then
      Put(false, 0, Log(p.chan, Broken(f, 0)))
    else
      var m := Send(p.chan, f.msg);
      if m.ok then
        Put(true, 1 + m.count, Log(m.chan, Sent(f)))
      else
        Put(false, 1 + m.count, Log(m.chan, Broken(f, 1 + m.count)))
  }

  function Log(ch: Channel, e: Event): Channel {
    ch.(log := ch.log + [e])
  }

  /** A frame is written whole and logged as sent, or strictly cut and logged as broken. */
  lemma SendSignalLaw(ch: Channel, f: Frame)
    ensures var p := SendSignal(ch, f);
            && p.count <= |Encode(f)|
            && p.ok == (p.count == |Encode(f)|)
            && p.chan.written == ch.written + Encode(f)[..p.count]
            && p.chan.log == ch.log + [if p.ok then Sent(f) else Broken(f, p.count)]
            && p.chan == ch.(sends := p.chan.sends, written := p.chan.written, log := p.chan.log)
  {
    var p := Send(ch, [PowerByte(f.power)]);
    if p.ok {
      var m := Send(p.chan, f.msg);
      assert Encode(f)[..1 + m.count] == [PowerByte(f.power)] + f.msg[..m.count];
      assert p.chan.written == ch.written + [PowerByte(f.power)];
      assert m.chan.written == ch.written + [PowerByte(f.power)] + f.msg[..m.count];
    } else {
      assert Encode(f)[..0] == [];
    }
  }

  /** A frame goes through exactly when the two sends take its power and its whole message. */
  lemma SendSignalExactly(ch: Channel, f: Frame)
    requires f.msg != []
    ensures SendSignal(ch, f).ok <==> 2 <= |ch.sends| && 1 <= ch.sends[0] && |f.msg| <= ch.sends[1]
  {
  }

  // ---------- the history of one connection ----------

  predicate Terminal(e: Event) {
    e.Broken? || e.TakenOver? || e.Closed?
  }

  /** Nothing has ended the connection yet. */
  predicate Live(log: seq<Event>) {
    log == [] || !Terminal(log[|log| - 1])
  }

  /** Only the last event may end the connection : nothing happens to it afterwards. */
  predicate Ordered(log: seq<Event>) {
    forall i :: 0 <= i < |log| - 1 ==> !Terminal(log[i])
  }

  function EventBytes(e: Event): seq<byte> {
    match e
    case Sent(f) => Encode(f)
    case Broken(f, cut) => if cut <= |Encode(f)| then Encode(f)[..cut] else []
    case _ => []
  }

  function LogBytes(log: seq<Event>): seq<byte> {
    if log == [] then [] else LogBytes(log[..|log| - 1]) + EventBytes(log[|log| - 1])
  }

  /** The frames of the log that were written whole. */
  function SentFrames(log: seq<Event>): seq<Frame> {
    if log == [] then []
    else
      var last := log[|log| - 1];
      SentFrames(log[..|log| - 1]) + if last.Sent? then [last.frame] else []
  }

  /** The bytes of the frame that broke the connection, if one did. */
  function PartialBytes(log: seq<Event>): seq<byte> {
    if log != [] && log[|log| - 1].Broken? then EventBytes(log[|log| - 1]) else []
  }

  lemma LogStep(log: seq<Event>, e: Event)
    ensures LogBytes(log + [e]) == LogBytes(log) + EventBytes(e)
    ensures SentFrames(log + [e]) == SentFrames(log) + if e.Sent? then [e.frame] else []
  {
    assert (log + [e])[..|log|] == log;
  }

  /** What was written is whole frames, then at most one partial frame. */
  lemma {:induction false} WrittenShape(log: seq<Event>)
    requires Ordered(log)
    ensures LogBytes(log) == EncodeAll(SentFrames(log)) + PartialBytes(log)
  {
    if log != [] {
      var n := |log| - 1;
      var fs := SentFrames(log[..n]);
      WrittenShape(log[..n]);
      assert LogBytes(log[..n]) == EncodeAll(fs) by {
        assert PartialBytes(log[..n]) == [];
        assert EncodeAll(fs) + [] == EncodeAll(fs);
      }
      if log[n].Sent? {
        EncodeAllAppend(fs, log[n].frame);
        assert PartialBytes(log) == [];
      } else {
        assert SentFrames(log) == fs;
        assert PartialBytes(log) == EventBytes(log[n]);
      }
    }
  }
}
