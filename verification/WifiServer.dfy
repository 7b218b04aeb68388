/** src/cwifiserver.cc and src/csocketserver.cc as they run : lists changed in place. */
module WifiServers {
  import opened Wire
  import opened Channels
  import opened DynBuffers
  import opened Nets
  import opened Registry
  import opened Radio
  import opened Relay
  import Sockets

  /** The process : its descriptors, the random numbers it will draw, and the two settings. */
  class Host {
    const world: World
    var net: Net
    var draws: seq<nat>
    var loss: bool
    var scale: real

    constructor (world: World, net: Net, draws: seq<nat>, loss: bool)
      ensures this.world == world && this.net == net && this.draws == draws && this.loss == loss && scale == 1.0
    {
      this.world, this.net, this.draws, this.loss, scale := world, net, draws, loss, 1.0;
    }

    /** CWifiServer::SendSignal */
    method SendSignal(fd: nat, power: Power, data: seq<byte>) returns (ret: int)
      modifies this`net
      ensures if !Reaches(old(net), fd) then ret < 0 && net == old(net)
              else var p := Channels.SendSignal(Chan(old(net), fd), Frame(power, data));
                   net == WithChan(old(net), fd, p.chan) && (ret < 0 <==> !p.ok)
    {
      if !Reaches(net, fd) {
        return SOCKET_ERROR;
      }
      var ch;
      ret, ch := Sockets.SendSignalWithSocket(Chan(net, fd), power, data);
      net := WithChan(net, fd, ch);
    }

    /** CWifiServer::RecvSignal; a reception goes to the history of the connection. */
    method RecvSignal(fd: nat, buffer: DynBuffer) returns (valread: int, power: Power)
      requires buffer.Valid()
      modifies this`net, buffer, buffer.data
      ensures buffer.Valid() && (buffer.data == old(buffer.data) || fresh(buffer.data))
      ensures if !Reaches(old(net), fd) then valread < 0 && net == old(net)
              else var r := Receive(Chan(old(net), fd));
                   && valread == r.valread
                   && net == WithChan(old(net), fd, Received(Chan(old(net), fd)))
                   && (valread > 0 ==> power == r.power && valread <= buffer.data.Length && buffer.data[..valread] == r.data)
    {
      if !Reaches(net, fd) {
        return SOCKET_ERROR, 0;
      }
      var ch;
      valread, power, ch := Sockets.RecvSignalWithSocket(Chan(net, fd), buffer);
      if valread > 0 {
        ch := Log(ch, Got(Frame(power, buffer.data[..valread])));
      }
      net := WithChan(net, fd, ch);
    }

    /** CWifi::PacketIsLost : one call of rand(). */
    method IsLost(level: Power) returns (lost: bool)
      modifies this`draws
      ensures lost == PacketIsLost(level, FirstDraw(old(draws))) && draws == NextDraws(old(draws))
    {
      var alea := FirstDraw(draws) % DRAWS + 40;
      draws := NextDraws(draws);
      lost := !(alea > 0 - level);
    }

    /** CInfoSocket::Close */
    method CloseSocket(sock: Sock)
      modifies this`net
      ensures net == CloseFd(old(net), sock)
    {
      if sock.enabled && Reaches(net, sock.fd) {
        net := WithChan(net, sock.fd, Log(Chan(net, sock.fd), Closed));
        net := net.(open := net.open - {sock.fd});
      }
    }
  }

  class WifiServer {
    var socks: seq<Sock>
    var infos: seq<Info>
    var archive: seq<Info>
    var max: nat

    ghost function View(): Server
      reads this
    {
      Server(socks, infos, archive, max)
    }

    /** This server and its host, in place of one side of a whole state. */
    ghost function At(host: Host, rest: State, spy: bool): State
      reads this, host
    {
      WithSide(rest.(net := host.net, draws := host.draws, loss := host.loss, scale := host.scale), spy, View())
    }

    constructor (max: nat)
      ensures View() == Server([], [], [], max)
    {
      socks, infos, archive, this.max := [], [], [], max;
    }

    method DisableClient(i: nat)
      requires i < |socks|
      modifies this`socks
      ensures View() == Disable(old(View()), i)
    {
      socks := socks[i := socks[i].(enabled := false)];
    }

    /** RecoverInfosOfInfoWifiDeconnected : the first record of the queue with this CID is taken out. */
    method RecoverArchived(cid: nat) returns (found: bool, coo: Coord, name: string)
      modifies this`archive
      ensures var a := Find(old(archive), cid, 0);
              && found == (a < |old(archive)|)
              && archive == (if found then Erase(old(archive), a) else old(archive))
              && (found ==> coo == old(archive)[a].coo && name == old(archive)[a].name)
    {
      coo, name := Coord(0, 0, 0), "";
      var i := 0;
      while i < |archive|
        invariant 0 <= i <= |archive| && archive == old(archive)
        invariant Find(archive, cid, i) == Find(archive, cid, 0)
      {
        if archive[i].cid == cid {
          coo, name := archive[i].coo, archive[i].name;
          archive := Erase(archive, i);
          return true, coo, name;
        }
        i := i + 1;
      }
      found := false;
    }

    /** RecoverInfosOfInfoWifi : the first enabled entry with this CID is disabled. */
    method RecoverConnected(host: Host, cid: nat) returns (found: bool, coo: Coord, name: string)
      requires |infos| <= |socks|
      modifies this`socks, host`net
      ensures var e := FindEnabled(old(socks), infos, cid, 0);
              && found == (e < |infos|)
              && socks == (if found then old(socks)[e := old(socks)[e].(enabled := false)] else old(socks))
              && host.net == (if found then LogAt(old(host.net), old(socks)[e].fd, TakenOver) else old(host.net))
              && (found ==> coo == infos[e].coo && name == infos[e].name)
    {
      coo, name := Coord(0, 0, 0), "";
      var i := 0;
      while i < |infos|
        invariant 0 <= i <= |infos| && socks == old(socks) && host.net == old(host.net)
        invariant FindEnabled(socks, infos, cid, i) == FindEnabled(socks, infos, cid, 0)
      {
        if socks[i].enabled {
          if infos[i].cid == cid {
            coo, name := infos[i].coo, infos[i].name;
            host.net := LogAt(host.net, socks[i].fd, TakenOver);
            DisableClient(i);
            return true, coo, name;
          }
        }
        i := i + 1;
      }
      found := false;
    }

    /** AddInfoWifiDeconnected */
    method AddInfoWifiDeconnected(info: Info)
      requires 1 <= max
      modifies this`archive
      ensures archive == Push(old(archive), max, info)
    {
      if |archive| >= max {
        archive := archive[1..];
      }
      archive := archive + [info];
    }

    /** CloseClient : the socket list is shortened first, the info list last. */
    method CloseClient(host: Host, i: nat)
      requires Valid(View()) && i < |socks|
      modifies this, host`net
      ensures View() == Close(old(View()), i) && host.net == CloseFd(old(host.net), old(socks)[i])
    {
      host.CloseSocket(socks[i]);
      socks := Erase(socks, i);
      AddInfoWifiDeconnected(infos[i]);
      infos := Erase(infos, i);
    }

    /** CloseAllClient : always position 0, because the list shifts. */
    method CloseAllClient(host: Host)
      requires Valid(View())
      modifies this, host`net
      ensures View() == CloseAll(old(View())) && host.net == CloseFds(old(host.net), old(socks))
    {
      var nbre := |socks|;
      var i := 0;
      while i < nbre
        invariant 0 <= i <= nbre && |socks| == nbre - i && Valid(View())
        invariant CloseAll(View()) == CloseAll(old(View()))
        invariant CloseFds(host.net, socks) == CloseFds(old(host.net), old(socks))
      {
        assert Erase(socks, 0) == socks[1..];
        CloseClient(host, 0);
        i := i + 1;
      }
    }

    /** GetReferenceOnInfoWifiByCID : the position of the info, or the length of the list. */
    method IndexOfCid(cid: nat) returns (i: nat)
      ensures i == Find(infos, cid, 0)
    {
      i := 0;
      while i < |infos|
        invariant 0 <= i <= |infos| && Find(infos, cid, i) == Find(infos, cid, 0)
      {
        if infos[i].cid == cid {
          return;
        }
        i := i + 1;
      }
    }

    /** GetReferenceOnInfoWifiDeconnectedByCID */
    method IndexOfArchivedCid(cid: nat) returns (i: nat)
      ensures i == Find(archive, cid, 0)
    {
      i := 0;
      while i < |archive|
        invariant 0 <= i <= |archive| && Find(archive, cid, i) == Find(archive, cid, 0)
      {
        if archive[i].cid == cid {
          return;
        }
        i := i + 1;
      }
    }

    /**
      Accept : the socket list is one entry longer than the info list while the infos are
      recovered. `since` is history, the number of frames received so far.
     */
    method Accept(host: Host, a: Arrival, since: nat)
      requires Aligned(View())
      modifies this, host`net
      ensures View() == Registry.Accept(old(View()), a.fd, a.cid, |old(host.net).chans|)
      ensures var e := TakenIndex(old(View()), a.cid); var net := Connected(old(host.net), a, since);
              host.net == if e < |old(infos)| then LogAt(net, old(socks)[e].fd, TakenOver) else net
    {
      var conn := |host.net.chans|;
      host.net := Connected(host.net, a, since);
      socks := socks + [Sock(a.fd, true)];
      FindEnabledShort(old(socks), Sock(a.fd, true), infos, a.cid, 0);
      var coo, name := Coord(0, 0, 0), "";
      var found, coo1, name1 := RecoverArchived(a.cid);
      if !found {
        found, coo1, name1 := RecoverConnected(host, a.cid);
      }
      if found {
        coo, name := coo1, Clip(name1);
      }
      infos := infos + [Info(a.cid, coo, name, conn)];
    }

    // ---------- fan-out ----------

    /** SendSignal, and DisableIt when it fails. */
    method OfferTo(host: Host, i: nat, power: Power, data: seq<byte>, ghost rest: State, ghost spy: bool)
      requires i < |socks|
      modifies this`socks, host`net
      ensures At(host, rest, spy) == Offer(old(At(host, rest, spy)), spy, i, Frame(power, data))
    {
      var ret := host.SendSignal(socks[i].fd, power, data);
      if ret < 0 {
        DisableClient(i);
      }
    }

    /** The body of the loop of SendAllOtherClients for an entry that is not the sender's. */
    method OfferAttenuated(host: Host, i: nat, coo: Coord, power: Power, data: seq<byte>, ghost rest: State, ghost c: Cast)
      requires Aligned(View()) && i < |socks|
      requires c == Cast(c.spy, c.skip, Frame(power, data), Some(coo)) && i != c.skip
      modifies this`socks, host`net, host`draws
      ensures At(host, rest, c.spy) == FanOutAt(host.world, old(At(host, rest, c.spy)), c, i)
    {
      if socks[i].enabled {
        var frequency := host.world.frequency(data);
        var d := Distance(host.world.maths, host.scale, coo, infos[i].coo);
        var level := BoundedPower(power - Attenuation(host.world.maths, d, frequency));
        var lost := false;
        if host.loss {
          lost := host.IsLost(level);
        }
        if !lost {
          OfferTo(host, i, level, data, rest, c.spy);
        }
      }
    }

    method SendAllOtherClients(host: Host, index: nat, power: Power, data: seq<byte>, ghost rest: State, ghost spy: bool)
      requires Aligned(View()) && index < |infos|
      modifies this`socks, host`net, host`draws
      ensures At(host, rest, spy) ==
              FanOut(host.world, old(At(host, rest, spy)), Cast(spy, index, Frame(power, data), Some(infos[index].coo)), 0)
    {
      var coo := infos[index].coo;
      ghost var c := Cast(spy, index, Frame(power, data), Some(coo));
      ghost var s := At(host, rest, spy);
      ghost var end := FanOut(host.world, s, c, 0);
      var i := 0;
      while i < |socks|
        invariant 0 <= i <= |socks| == |infos|
        invariant s == At(host, rest, spy) && FanOut(host.world, s, c, i) == end
      {
        FanOutUnfold(host.world, s, c, i);
        FanOutAtLength(host.world, s, c, i);
        if i != index {
          OfferAttenuated(host, i, coo, power, data, rest, c);
        }
        s := FanOutAt(host.world, s, c, i);
        i := i + 1;
      }
    }

    /** SendAllOtherClientsWithoutLoss; SendAllClientsWithoutLoss is the same loop that skips no one (-1). */
    method SendAllWithoutLoss(host: Host, skip: int, power: Power, data: seq<byte>, ghost rest: State, ghost spy: bool)
      requires Aligned(View())
      modifies this`socks, host`net
      ensures At(host, rest, spy) ==
              FanOut(host.world, old(At(host, rest, spy)), Cast(spy, skip, Frame(power, data), None), 0)
    {
      ghost var c := Cast(spy, skip, Frame(power, data), None);
      ghost var s := At(host, rest, spy);
      ghost var end := FanOut(host.world, s, c, 0);
      var i := 0;
      while i < |socks|
        invariant 0 <= i <= |socks| == |infos|
        invariant s == At(host, rest, spy) && FanOut(host.world, s, c, i) == end
      {
        FanOutUnfold(host.world, s, c, i);
        FanOutAtLength(host.world, s, c, i);
        if i != skip {
          if socks[i].enabled {
            OfferTo(host, i, power, data, rest, spy);
          }
        }
        s := FanOutAt(host.world, s, c, i);
        i := i + 1;
      }
    }
  }
}
