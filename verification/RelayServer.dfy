/** src/vwifi-server.cc as it runs, with the orders of src/cctrlserver.cc. */
module RelayServers {
  import opened Wire
  import opened Channels
  import opened DynBuffers
  import opened Nets
  import opened Registry
  import opened Scheduler
  import opened Relay
  import opened RelayInvariant
  import opened RelayRuns
  import opened WifiServers

  /** The listening descriptors, in the order of vwifi_server. */
  method AddMasters(m: Masters) returns (s: Selector)
    ensures fresh(s) && s.View() == Start(m, false, []).sel
  {
    s := new Selector();
    s.AddNode(m.vhost);
    s.AddNode(m.inet);
    s.AddNode(m.spy);
    s.AddNode(m.ctrl);
  }

  /** The two ends of a reading. */
  lemma VisitReading(w: World, s: State, spy: bool, i: nat)
    requires Sound(s) && i < |Side(s, spy).socks| && Side(s, spy).socks[i].enabled && Side(s, spy).socks[i].fd in s.sel.dup
    ensures var fd := Side(s, spy).socks[i].fd;
            if !Reaches(s.net, fd) then
              Leaves(s, spy, i) && Visit(w, s, spy, i) == Remove(s, spy, i)
            else
              var ch := Chan(s.net, fd);
              var r := Receive(ch);
              if r.valread <= 0 then
                Leaves(s, spy, i) && Visit(w, s, spy, i) == Remove(s.(net := WithChan(s.net, fd, Received(ch))), spy, i)
              else
                !Leaves(s, spy, i) && Visit(w, s, spy, i) == Relayed(w, Heard(s, spy, i), spy, i, Frame(r.power, r.data))
  {
  }

  /** From state `s` and index `i` the loop of ForwardData ends in `end`. */
  ghost predicate Forwarding(w: World, s: State, spy: bool, i: nat, end: State) {
    Sound(s) && i <= |Side(s, spy).socks| && Forward(w, s, spy, i) == end
  }

  lemma ForwardingStep(w: World, s: State, spy: bool, i: nat, end: State)
    requires Forwarding(w, s, spy, i, end) && i < |Side(s, spy).socks|
    ensures var s' := Visit(w, s, spy, i);
            && Forwarding(w, s', spy, if Leaves(s, spy, i) then i else i + 1, end)
            && |Side(s', spy).socks| == |Side(s, spy).socks| - if Leaves(s, spy, i) then 1 else 0
  {
    ForwardUnfold(w, s, spy, i);
    VisitSound(w, s, spy, i);
  }

  class RelayServer {
    const clients: WifiServer
    const spies: WifiServer
    const scheduler: Selector
    const host: Host
    const buffer: DynBuffer
    const masters: Masters
    /** How many frames were received, and which ones. */
    var count: nat
    ghost var heard: seq<Hearing>

    ghost function View(): State
      reads this, clients, spies, scheduler, host
    {
      State(clients.View(), spies.View(), scheduler.View(), host.net, masters, host.loss, host.scale, host.draws, heard)
    }

    ghost predicate Valid()
      reads this, clients, spies, scheduler, host, buffer
    {
      clients != spies && buffer.Valid() && Sound(View()) && count == |heard|
    }

    /** The lists, the settings and the four listening descriptors. */
    constructor (world: World, m: Masters, loss: bool, draws: seq<nat>)
      ensures Valid() && View() == Start(m, loss, draws) && host.world == world
      ensures fresh(clients) && fresh(spies) && fresh(scheduler) && fresh(host) && fresh(buffer) && fresh(buffer.data)
    {
      var s := AddMasters(m);
      clients := new WifiServer(WIFI_MAX_DECONNECTED_CLIENT);
      spies := new WifiServer(1);
      host := new Host(world, Net([], map[]), draws, loss);
      buffer := new DynBuffer();
      scheduler, masters, count, heard := s, m, 0, [];
    }

    function Source(spy: bool): WifiServer {
      if spy then spies else clients
    }

    /** RemoveClient */
    method RemoveClient(spy: bool, i: nat, fd: nat)
      requires Valid() && i < |Source(spy).socks| && fd == Source(spy).socks[i].fd
      modifies clients, spies, scheduler, host`net
      ensures Valid() && View() == Remove(old(View()), spy, i)
    {
      Source(spy).CloseClient(host, i);
      scheduler.DelNode(fd);
    }

    /** The two casts of ForwardData. */
    method Relay(spy: bool, i: nat, power: Power, data: seq<byte>)
      requires Valid() && i < |Source(spy).socks|
      modifies clients`socks, spies`socks, host`net, host`draws
      ensures Valid() && View() == Relayed(host.world, old(View()), spy, i, Frame(power, data))
    {
      ghost var s, f := View(), Frame(power, data);
      ghost var own := OwnCast(s, spy, i, f);
      FanOutShape(host.world, s, own, 0);
      if !spy {
        clients.SendAllOtherClients(host, i, power, data, s, false);
      } else {
        spies.SendAllWithoutLoss(host, i, power, data, s, true);
      }
      assert View() == FanOut(host.world, s, own, 0);
      FanOutShape(host.world, View(), OtherCast(spy, f), 0);
      Source(!spy).SendAllWithoutLoss(host, -1, power, data, View(), !spy);
    }

    /** The body of the loop of ForwardData; `gone` when the entry was erased. */
    method VisitEntry(spy: bool, i: nat) returns (gone: bool)
      requires Valid() && i < |Source(spy).socks|
      modifies this`count, this`heard, clients, spies, scheduler, host`net, host`draws, buffer, buffer.data
      ensures Valid() && (buffer.data == old(buffer.data) || fresh(buffer.data))
      ensures View() == Visit(host.world, old(View()), spy, i) && gone == Leaves(old(View()), spy, i)
    {
      ghost var s := View();
      var fd := Source(spy).socks[i].fd;
      if !Source(spy).socks[i].enabled {
        RemoveClient(spy, i, fd);
        return true;
      }
      var action := scheduler.DescriptorHasAction(fd);
      if !action {
        return false;
      }
      gone := ReadEntry(spy, i, fd);
    }

    /** An enabled entry whose descriptor has an action. */
    method ReadEntry(spy: bool, i: nat, fd: nat) returns (gone: bool)
      requires Valid() && i < |Source(spy).socks| && Source(spy).socks[i] == Sock(fd, true) && fd in scheduler.dup
      modifies this`count, this`heard, clients, spies, scheduler, host`net, host`draws, buffer, buffer.data
      ensures Valid() && (buffer.data == old(buffer.data) || fresh(buffer.data))
      ensures View() == Visit(host.world, old(View()), spy, i) && gone == Leaves(old(View()), spy, i)
    {
      ghost var s := View();
      VisitReading(host.world, s, spy, i);
      var valread, power := host.RecvSignal(fd, buffer);
      if valread <= 0 {
        RemoveClient(spy, i, fd);
        return true;
      }
      ghost var r := Receive(Chan(s.net, fd));
      ghost var h := Hearing(s.net.open[fd], Frame(r.power, r.data));
      assert View().(heard := heard + [h]) == Heard(s, spy, i);
      PassOn(spy, i, power, buffer.data[..valread], h);
      gone := false;
    }

    /** A frame that was received is on the record, then relayed. */
    method PassOn(spy: bool, i: nat, power: Power, data: seq<byte>, ghost h: Hearing)
      requires Valid() && i < |Source(spy).socks|
      modifies this`count, this`heard, clients`socks, spies`socks, host`net, host`draws
      ensures Valid()
      ensures View() == Relayed(host.world, old(View()).(heard := old(heard) + [h]), spy, i, Frame(power, data))
    {
      heard, count := heard + [h], count + 1;
      Relay(spy, i, power, data);
    }

    /** ForwardData */
    method ForwardData(spy: bool)
      requires Valid()
      modifies this`count, this`heard, clients, spies, scheduler, host`net, host`draws, buffer, buffer.data
      ensures Valid() && (buffer.data == old(buffer.data) || fresh(buffer.data))
      ensures View() == Forward(host.world, old(View()), spy, 0)
    {
      ghost var end := Forward(host.world, View(), spy, 0);
      var i := 0;
      while i < |Source(spy).socks|
        invariant Valid() && (buffer.data == old(buffer.data) || fresh(buffer.data))
        invariant i <= |Source(spy).socks| && Forwarding(host.world, View(), spy, i, end)
        decreases |Source(spy).socks| - i
      {
        ForwardingStep(host.world, View(), spy, i, end);
        var gone := VisitEntry(spy, i);
        if !gone {
          i := i + 1;
        }
      }
    }

    /** Accept of one of the servers, and AddNode. */
    method AcceptOn(spy: bool, a: Arrival)
      requires Valid()
      modifies clients, spies, scheduler, host`net
      ensures Valid() && View() == Admit(old(View()), spy, a)
    {
      AdmitSound(View(), spy, a);
      Source(spy).Accept(host, a, count);
      scheduler.AddNode(a.fd);
    }

    /** CCTRLServer::ChangeCoordinate, once its arguments have been read. */
    method ChangeCoordinate(cid: nat, coo: Coord)
      requires Valid()
      modifies clients
      ensures Valid() && View() == Control(old(View()), Move(cid, coo))
    {
      if cid < TCID_GUEST_MIN {
        return;
      }
      var i := clients.IndexOfCid(cid);
      if i < |clients.infos| {
        clients.infos := clients.infos[i := clients.infos[i].(coo := coo)];
        return;
      }
      var a := clients.IndexOfArchivedCid(cid);
      if a < |clients.archive| {
        clients.archive := clients.archive[a := clients.archive[a].(coo := coo)];
        return;
      }
      clients.AddInfoWifiDeconnected(Info(cid, coo, "", -1));
    }

    /** CCTRLServer::SetName, once its arguments have been read. */
    method SetName(cid: nat, name: string)
      requires Valid()
      modifies clients, spies
      ensures Valid() && View() == Control(old(View()), Rename(cid, name))
    {
      if cid < TCID_GUEST_MIN {
        return;
      }
      var i := clients.IndexOfCid(cid);
      if i < |clients.infos| {
        clients.infos := clients.infos[i := clients.infos[i].(name := Clip(name))];
        return;
      }
      var a := clients.IndexOfArchivedCid(cid);
      if a < |clients.archive| {
        clients.archive := clients.archive[a := clients.archive[a].(name := Clip(name))];
        return;
      }
      var j := spies.IndexOfCid(cid);
      if j < |spies.infos| {
        spies.infos := spies.infos[j := spies.infos[j].(name := Clip(name))];
      }
    }

    /** The first half of CloseAllClient : the nodes of one side. */
    method DelNodes(socks: seq<Sock>)
      modifies scheduler
      ensures scheduler.View() == RemovedAll(old(scheduler.View()), socks)
    {
      var i := 0;
      ghost var end := RemovedAll(scheduler.View(), socks);
      assert socks[0..] == socks;
      while i < |socks|
        invariant 0 <= i <= |socks|
        invariant RemovedAll(scheduler.View(), socks[i..]) == end
      {
        assert socks[i..][0] == socks[i] && socks[i..][1..] == socks[i + 1..];
        scheduler.DelNode(socks[i].fd);
        i := i + 1;
      }
    }

    /** The nodes of one side, then its clients. */
    method CloseSide(spy: bool)
      requires Valid()
      modifies clients, spies, scheduler, host`net
      ensures Valid() && View() == RemoveAll(old(View()), spy)
    {
      CloseAllArchive(Source(spy).View());
      DelNodes(Source(spy).socks);
      Source(spy).CloseAllClient(host);
    }

    /** CCTRLServer::CloseAllClient */
    method CloseEverything()
      requires Valid()
      modifies clients, spies, scheduler, host`net
      ensures Valid() && View() == Control(old(View()), CloseAllClient)
    {
      CloseAllUnfold(View());
      CloseSide(false);
      CloseSide(true);
    }

    /** CCTRLServer::ReceiveOrder */
    method ReceiveOrder(o: Order)
      requires Valid()
      modifies clients, spies, scheduler, host
      ensures Valid() && View() == Control(old(View()), o)
    {
      match o {
        case Ask =>
        case Move(cid, coo) => ChangeCoordinate(cid, coo);
        case Rename(cid, name) => SetName(cid, name);
        case PacketLoss(on) => host.loss := on;
        case SetScale(scale) => host.scale := scale;
        case CloseAllClient => CloseEverything();
      }
    }

    /** The accepts of one turn of the event loop. */
    method AcceptAll(e: Input)
      requires Valid()
      modifies clients, spies, scheduler, host`net
      ensures Valid() && View() == AdmitAll(old(View()), e)
    {
      var action := scheduler.DescriptorHasAction(masters.vhost);
      if action {
        AcceptOn(false, e.vhost);
      }
      action := scheduler.DescriptorHasAction(masters.inet);
      if action {
        AcceptOn(false, e.inet);
      }
      action := scheduler.DescriptorHasAction(masters.spy);
      if action {
        AcceptOn(true, e.spy);
      }
    }

    /** One turn of the event loop of vwifi_server. */
    method Turn(e: Input)
      requires Valid()
      modifies this`count, this`heard, clients, spies, scheduler, host, buffer, buffer.data
      ensures Valid() && (buffer.data == old(buffer.data) || fresh(buffer.data))
      ensures View() == Step(host.world, old(View()), e)
    {
      scheduler.Wait(e.ready);
      AcceptAll(e);
      var action := scheduler.DescriptorHasAction(masters.ctrl);
      if action {
        ReceiveOrder(e.order);
      }
      ForwardData(false);
      ForwardData(true);
    }

    /** The event loop, for as many turns as there are inputs. */
    method Loop(es: seq<Input>)
      requires Valid()
      modifies this`count, this`heard, clients, spies, scheduler, host, buffer, buffer.data
      ensures Valid() && View() == Run(host.world, old(View()), es)
    {
      ghost var s := View();
      ghost var end := Run(host.world, s, es);
      var i := 0;
      assert es[0..] == es;
      while i < |es|
        invariant 0 <= i <= |es| && Valid() && (buffer.data == old(buffer.data) || fresh(buffer.data))
        invariant s == View() && Run(host.world, s, es[i..]) == end
      {
        RunSuffix(host.world, s, es, i);
        Turn(es[i]);
        s := View();
        i := i + 1;
      }
    }
  }

  /** vwifi_server : whatever the environment does, the invariant holds when the loop is interrupted. */
  method Serve(world: World, m: Masters, loss: bool, draws: seq<nat>, es: seq<Input>, ghost clean: bool)
    returns (server: RelayServer)
    requires DistinctMasters(m) && AllAdmissible(world, Start(m, loss, draws), es, clean)
    ensures fresh(server) && Inv(server.View(), clean)
    ensures server.View() == Run(world, Start(m, loss, draws), es)
  {
    server := new RelayServer(world, m, loss, draws);
    StartInv(m, loss, draws, clean);
    RunKeeps(world, Start(m, loss, draws), clean, es);
    server.Loop(es);
  }
}
