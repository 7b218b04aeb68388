/** The descriptors of the process and the connections behind them. */
module Nets {
  import opened Channels

  /** `open` maps each open descriptor to the number of its connection, an index in `chans`. */
  datatype Net = Net(chans: seq<Channel>, open: map<nat, nat>)

  predicate Reaches(net: Net, fd: nat) {
    fd in net.open && net.open[fd] < |net.chans|
  }

  function Chan(net: Net, fd: nat): Channel
    requires Reaches(net, fd)
  {
    net.chans[net.open[fd]]
  }

  function WithChan(net: Net, fd: nat, ch: Channel): Net
    requires Reaches(net, fd)
  {
    net.(chans := net.chans[net.open[fd] := ch])
  }

  lemma WithChanTwice(net: Net, fd: nat, a: Channel, b: Channel)
    requires Reaches(net, fd)
    ensures Reaches(WithChan(net, fd, a), fd) && Chan(WithChan(net, fd, a), fd) == a
    ensures WithChan(WithChan(net, fd, a), fd, b) == WithChan(net, fd, b)
    ensures WithChan(net, fd, Chan(net, fd)) == net
  {
  }
}

/** src/csocket.cc and the framing half of src/cwifi.cc, as they run on one connection. */
module Sockets {
  import opened Wire
  import opened Channels
  import opened DynBuffers

  /** CSocket::Send */
  method SendBytes(ch: Channel, data: seq<byte>) returns (ret: int, ch': Channel)
    ensures var p := Send(ch, data);
            ch' == p.chan && ret == if p.ok then |data| else SOCKET_ERROR
  {
    var p := Send(ch, data);
    ch' := p.chan;
    ret := if p.count != |data| then SOCKET_ERROR else p.count;
  }

  /** CWifi::SendSignalWithSocket */
  method SendSignalWithSocket(ch: Channel, power: Power, msg: seq<byte>) returns (ret: int, ch': Channel)
    ensures var p := SendSignal(ch, Frame(power, msg));
            ch' == p.chan && (ret < 0 <==> !p.ok)
  {
    ret, ch' := SendBytes(ch, [PowerByte(power)]);
    if ret > 0 {
      ret, ch' := SendBytes(ch', msg);
    }
    var f, cut := Frame(power, msg), |ch'.written| - |ch.written|;
    ch' := Log(ch', if ret < 0 then Broken(f, cut) else Sent(f));
  }

  /** CSocket::Read, into the buffer `a` from position `off`. */
  method Read(ch: Channel, a: array<byte>, off: nat, size: nat) returns (ret: int, ch': Channel)
    requires off + size <= a.Length
    modifies a
    ensures var t := Recv(ch, size);
            && ch' == t.chan
            && ret == (if t.data == [] then SOCKET_ERROR else |t.data|)
            && |t.data| <= size && a[..off + |t.data|] == old(a[..off]) + t.data
            && a[off + |t.data|..] == old(a[off + |t.data|..])
  {
    RecvLaw(ch, size);
    var t := Recv(ch, size);
    var i := 0;
    while i < |t.data|
      invariant 0 <= i <= |t.data|
      invariant a[..off + i] == old(a[..off]) + t.data[..i]
      invariant a[off + |t.data|..] == old(a[off + |t.data|..])
    {
      a[off + i] := t.data[i];
      i := i + 1;
    }
    ret, ch' := if |t.data| <= 0 then SOCKET_ERROR else |t.data|, t.chan;
  }

  /** CSocket::ReadEqualSize : the bytes already read survive, the others follow them. */
  method ReadEqualSize(ch: Channel, buffer: DynBuffer, alreadyRead: nat, total: int)
    returns (ret: int, ch': Channel)
    requires buffer.Valid() && alreadyRead <= buffer.data.Length
    modifies buffer, buffer.data
    ensures buffer.Valid() && (buffer.data == old(buffer.data) || fresh(buffer.data))
    ensures buffer.data.Length == Max(old(buffer.data.Length), total)
    ensures var r := ReadExact(ch, total - alreadyRead);
            && ch' == r.chan
            && ret == (if r.ok then total else SOCKET_ERROR)
            && (r.ok ==> buffer.data[..Max(alreadyRead, total)] == old(buffer.data[..alreadyRead]) + r.data)
  {
    ghost var head := buffer.data[..alreadyRead];
    buffer.NeededSize(total, alreadyRead != 0);
    assert buffer.data[..alreadyRead] == head;
    assert alreadyRead + Max(total - alreadyRead, 0) == Max(alreadyRead, total);
    var ok;
    ok, ch' := Fill(ch, buffer.data, alreadyRead, total - alreadyRead);
    ret := if ok then total else SOCKET_ERROR;
  }

  /** The loop of ReadEqualSize : the buffer position moves forward by what each Read returns. */
  method Fill(ch: Channel, a: array<byte>, start: nat, size: int) returns (ok: bool, ch': Channel)
    requires start + Max(size, 0) <= a.Length
    modifies a
    ensures var r := ReadExact(ch, size);
            && ch' == r.chan && ok == r.ok
            && (ok ==> a[..start + Max(size, 0)] == old(a[..start]) + r.data)
  {
    var left, off := size, start;
    ghost var got: seq<byte>, head, r0 := [], a[..start], ReadExact(ch, size);
    ch' := ch;
    assert r0.data == [] + r0.data;
    while left > 0
      invariant start <= off && off + Max(left, 0) == start + Max(size, 0)
      invariant a[..off] == head + got
      invariant Filling(r0, got, ch', left)
    {
      ghost var t := Recv(ch', left);
      FillStep(r0, got, ch', left);
      var n;
      n, ch' := Read(ch', a, off, left);
      assert head + (got + t.data) == (head + got) + t.data;
      got := got + t.data;
      if n == SOCKET_ERROR {
        return false, ch';
      }
      left, off := left - n, off + n;
    }
    FillEnd(r0, got, ch', left);
    ok := true;
  }

  /** `got` has been read of the whole reading `r0`; `left` bytes are still to come from `ch`. */
  ghost predicate Filling(r0: Filled, got: seq<byte>, ch: Channel, left: int) {
    r0 == Prepend(got, ReadExact(ch, left))
  }

  lemma FillStep(r0: Filled, got: seq<byte>, ch: Channel, left: nat)
    requires 0 < left && Filling(r0, got, ch, left)
    ensures var t := Recv(ch, left);
            && |t.data| <= left
            && (t.data != [] ==> Filling(r0, got + t.data, t.chan, left - |t.data|))
            && (t.data == [] ==> !r0.ok && r0.chan == t.chan)
  {
    RecvLaw(ch, left);
    var t := Recv(ch, left);
    if t.data != [] {
      PrependTwice(got, t.data, ReadExact(t.chan, left - |t.data|));
    }
  }

  lemma FillEnd(r0: Filled, got: seq<byte>, ch: Channel, left: int)
    requires left <= 0 && Filling(r0, got, ch, left)
    ensures r0 == Filled(true, got, ch)
  {
    assert got + [] == got;
  }

  lemma PrependTwice(d1: seq<byte>, d2: seq<byte>, r: Filled)
    ensures Prepend(d1, Prepend(d2, r)) == Prepend(d1 + d2, r)
  {
    assert d1 + (d2 + r.data) == (d1 + d2) + r.data;
  }

  /** CWifi::RecvSignalWithSocket : the power is a one-byte buffer, the message goes to `buffer`. */
  method RecvSignalWithSocket(ch: Channel, buffer: DynBuffer) returns (valread: int, power: Power, ch': Channel)
    requires buffer.Valid()
    modifies buffer, buffer.data
    ensures buffer.Valid() && (buffer.data == old(buffer.data) || fresh(buffer.data))
    ensures old(buffer.data.Length) <= buffer.data.Length <= Max(old(buffer.data.Length), MTU)
    ensures var r := Receive(ch);
            && valread == r.valread && ch' == r.chan
            && (valread > 0 ==>
                  && power == r.power
                  && valread <= buffer.data.Length && buffer.data[..valread] == r.data)
  {
    var p := new byte[1];
    power := 0;
    valread, ch' := Read(ch, p, 0, 1);
    if valread <= 0 {
      return;
    }
    power := BytePower(p[0]);
    valread, ch' := RecvMessage(ch', buffer, power);
  }

  /** The rest of RecvSignalWithSocket, once the power has been read. */
  method RecvMessage(ch: Channel, buffer: DynBuffer, ghost power: Power) returns (valread: int, ch': Channel)
    requires buffer.Valid()
    modifies buffer, buffer.data
    ensures buffer.Valid() && (buffer.data == old(buffer.data) || fresh(buffer.data))
    ensures old(buffer.data.Length) <= buffer.data.Length <= Max(old(buffer.data.Length), MTU)
    ensures var r := ReceiveMessage(ch, power);
            && valread == r.valread && ch' == r.chan && r.power == power
            && (valread > 0 ==> valread <= buffer.data.Length && buffer.data[..valread] == r.data)
  {
    ReadExactLaw(ch, HEADER);
    ghost var head := ReadExact(ch, HEADER);
    var sizeRead;
    sizeRead, ch' := ReadEqualSize(ch, buffer, 0, HEADER);
    if sizeRead == SOCKET_ERROR {
      return SOCKET_ERROR, ch';
    }
    assert buffer.data[..HEADER] == head.data;
    var sizeTotal := AsInt(NlmsgLen(buffer.data[..HEADER]));
    if sizeTotal > MTU {
      return SOCKET_ERROR, ch';
    }
    valread, ch' := RecvBody(ch', buffer, sizeTotal, power);
  }

  /** The second ReadEqualSize, behind the header. */
  method RecvBody(ch: Channel, buffer: DynBuffer, total: int, ghost power: Power) returns (valread: int, ch': Channel)
    requires buffer.Valid() && total <= MTU
    modifies buffer, buffer.data
    ensures buffer.Valid() && (buffer.data == old(buffer.data) || fresh(buffer.data))
    ensures old(buffer.data.Length) <= buffer.data.Length <= Max(old(buffer.data.Length), MTU)
    ensures var r := ReceiveBody(ch, power, old(buffer.data[..HEADER]), total);
            && valread == r.valread && ch' == r.chan && r.power == power
            && (valread > 0 ==> valread <= buffer.data.Length && buffer.data[..valread] == r.data)
  {
    ghost var header := buffer.data[..HEADER];
    ReadExactLaw(ch, total - HEADER);
    valread, ch' := ReadEqualSize(ch, buffer, HEADER, total);
    if valread > 0 {
      ghost var body := ReadExact(ch, total - HEADER).data;
      assert buffer.data[..valread] == buffer.data[..Max(HEADER, total)][..valread];
    }
  }
}
