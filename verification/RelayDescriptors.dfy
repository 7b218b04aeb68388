/**
  Which descriptors stay open. Close skips a disabled socket, so that a connection which was broken
  or taken over keeps its descriptor for good.
 */
module RelayDescriptors {
  import opened Wire
  import opened Channels
  import opened Nets
  import opened Registry
  import opened Scheduler
  import opened Relay
  import opened RelayInvariant
  import opened RelayRuns
  import opened RelayHistory

  predicate Shut(log: seq<Event>) {
    log != [] && log[|log| - 1].Closed?
  }

  predicate IsOpen(net: Net, c: nat) {
    exists fd :: fd in net.open && net.open[fd] == c
  }

  /** The open descriptors are exactly those of the connections whose last event is not their close. */
  predicate OpenOk(net: Net) {
    forall c :: 0 <= c < |net.chans| ==> (IsOpen(net, c) <==> !Shut(net.chans[c].log))
  }

  lemma SetChanOpen(net: Net, fd: nat, ch: Channel)
    requires OpenOk(net) && Reaches(net, fd) && (Shut(ch.log) ==> ch.log == Chan(net, fd).log)
    ensures OpenOk(WithChan(net, fd, ch))
  {
    var net' := WithChan(net, fd, ch);
    forall c | 0 <= c < |net'.chans| ensures IsOpen(net', c) <==> !Shut(net'.chans[c].log) {
      assert IsOpen(net, c) <==> IsOpen(net', c);
      assert IsOpen(net, net.open[fd]);
    }
  }

  // ---------- sending ----------

  lemma OfferOpen(s: State, spy: bool, i: nat, f: Frame)
    requires OpenOk(s.net) && i < |Side(s, spy).socks|
    ensures OpenOk(Offer(s, spy, i, f).net)
  {
    var fd := Side(s, spy).socks[i].fd;
    if Reaches(s.net, fd) {
      SendSignalLaw(Chan(s.net, fd), f);
      SetChanOpen(s.net, fd, SendSignal(Chan(s.net, fd), f).chan);
    }
  }

  lemma FanOutAtOpen(w: World, s: State, c: Cast, i: nat)
    requires OpenOk(s.net) && Aligned(Side(s, c.spy)) && i < |Side(s, c.spy).socks|
    ensures OpenOk(FanOutAt(w, s, c, i).net)
  {
    FanOutAtCases(w, s, c, i);
    OfferOpen(s, c.spy, i, FrameFor(w, s, c, i));
    OfferOpen(s.(draws := NextDraws(s.draws)), c.spy, i, FrameFor(w, s, c, i));
  }

  lemma FanOutOpen(w: World, s: State, c: Cast, i: nat)
    requires OpenOk(s.net) && Aligned(Side(s, c.spy)) && i <= |Side(s, c.spy).socks|
    ensures OpenOk(FanOut(w, s, c, i).net)
  {
    forall t: State, k: nat | OpenOk(t.net) && Aligned(Side(t, c.spy)) && k < |Side(t, c.spy).socks|
      ensures OpenOk(FanOutAt(w, t, c, k).net)
    {
      FanOutAtOpen(w, t, c, k);
    }
    FanOutInduct(w, s, c, i, (t: State) => OpenOk(t.net));
  }

  lemma RelayedOpen(w: World, s: State, spy: bool, i: nat, f: Frame)
    requires OpenOk(s.net) && Sound(s) && i < |Side(s, spy).socks|
    ensures OpenOk(Relayed(w, s, spy, i, f).net)
  {
    FanOutSound(w, s, OwnCast(s, spy, i, f), 0);
    FanOutOpen(w, s, OwnCast(s, spy, i, f), 0);
    FanOutOpen(w, FanOut(w, s, OwnCast(s, spy, i, f), 0), OtherCast(spy, f), 0);
  }

  // ---------- closing ----------

  predicate Injective(net: Net) {
    forall a, b :: a in net.open && b in net.open && a != b ==> net.open[a] != net.open[b]
  }

  /** Closing takes the descriptor from its connection, and from no other. */
  lemma CloseFdOpen(net: Net, sock: Sock)
    requires OpenOk(net) && Injective(net)
    ensures OpenOk(CloseFd(net, sock))
  {
    var net' := CloseFd(net, sock);
    if sock.enabled && Reaches(net, sock.fd) {
      var k := net.open[sock.fd];
      forall c | 0 <= c < |net'.chans| ensures IsOpen(net', c) <==> !Shut(net'.chans[c].log) {
        if c == k {
          assert !IsOpen(net', c);
        } else {
          SameOpen(net, sock.fd, c);
        }
      }
    }
  }

  lemma SameOpen(net: Net, fd: nat, c: nat)
    requires fd in net.open && net.open[fd] != c
    ensures IsOpen(net.(open := net.open - {fd}), c) <==> IsOpen(net, c)
  {
    if IsOpen(net, c) {
      var f :| f in net.open && net.open[f] == c;
      assert f in net.open - {fd};
    }
  }

  lemma RemoveOpen(s: State, spy: bool, i: nat)
    requires OpenOk(s.net) && Injective(s.net) && Valid(Side(s, spy)) && i < |Side(s, spy).socks|
    ensures OpenOk(Remove(s, spy, i).net)
  {
    CloseFdOpen(s.net, Side(s, spy).socks[i]);
  }

  lemma VisitOpen(w: World, s: State, spy: bool, i: nat)
    requires OpenOk(s.net) && Injective(s.net) && Sound(s) && i < |Side(s, spy).socks|
    ensures OpenOk(Visit(w, s, spy, i).net)
  {
    RemoveOpen(s, spy, i);
    var fd := Side(s, spy).socks[i].fd;
    if Reaches(s.net, fd) {
      var ch := Chan(s.net, fd);
      ReceivedHistory(ch);
      SetChanOpen(s.net, fd, Received(ch));
      var s1, f := s.(net := WithChan(s.net, fd, Received(ch))), Frame(Receive(ch).power, Receive(ch).data);
      RemoveOpen(s1, spy, i);
      RelayedOpen(w, s1.(heard := s.heard + [Hearing(s.net.open[fd], f)]), spy, i, f);
    }
  }

  /** The invariant with the descriptors. */
  ghost predicate Held(s: State) {
    Inv(s, false) && OpenOk(s.net)
  }

  lemma HeldInjective(s: State)
    requires Held(s)
    ensures Injective(s.net) && Sound(s)
  {
  }

  lemma VisitHeld(w: World, s: State, spy: bool, i: nat)
    requires Held(s) && i < |Side(s, spy).socks|
    ensures Held(Visit(w, s, spy, i))
  {
    HeldInjective(s);
    VisitKeeps(w, s, false, spy, i);
    VisitOpen(w, s, spy, i);
  }

  lemma ForwardHeld(w: World, s: State, spy: bool)
    requires Held(s)
    ensures Held(Forward(w, s, spy, 0))
  {
    forall t: State, k: nat | Held(t) && k < |Side(t, spy).socks| ensures Held(Visit(w, t, spy, k)) {
      VisitHeld(w, t, spy, k);
    }
    ForwardInduct(w, s, spy, 0, (t: State) => Held(t));
  }

  // ---------- arrivals and orders ----------

  lemma ConnectOpen(s: State, a: Arrival)
    requires OpenOk(s.net) && Fresh(s, a) && NetOk(s.net, false)
    ensures OpenOk(Connect(s, a))
  {
    var net, net' := s.net, Connect(s, a);
    forall c | 0 <= c < |net'.chans| ensures IsOpen(net', c) <==> !Shut(net'.chans[c].log) {
      if c == |net.chans| {
        assert net'.open[a.fd] == c;
      } else {
        ConnectOther(s, a, c);
      }
    }
  }

  lemma ConnectOther(s: State, a: Arrival, c: nat)
    requires Fresh(s, a) && c < |s.net.chans|
    ensures IsOpen(Connect(s, a), c) <==> IsOpen(s.net, c)
  {
    if IsOpen(s.net, c) {
      var f :| f in s.net.open && s.net.open[f] == c;
      assert Connect(s, a).open[f] == c;
    }
    if IsOpen(Connect(s, a), c) {
      var f :| f in Connect(s, a).open && Connect(s, a).open[f] == c;
      assert f in s.net.open && s.net.open[f] == c;
    }
  }

  lemma AdmitHeld(s: State, spy: bool, a: Arrival)
    requires Held(s) && Fresh(s, a)
    ensures Held(Admit(s, spy, a))
  {
    AdmitKeeps(s, false, spy, a);
    ConnectOpen(s, a);
    var srv, net := Side(s, spy), Connect(s, a);
    var e := TakenIndex(srv, a.cid);
    if e < |srv.infos| && Reaches(net, srv.socks[e].fd) {
      SetChanOpen(net, srv.socks[e].fd, Log(Chan(net, srv.socks[e].fd), TakenOver));
    }
  }

  lemma {:induction false} RemoveAllHeld(s: State, spy: bool)
    requires Held(s)
    ensures Held(RemoveAll(s, spy))
    decreases |Side(s, spy).socks|
  {
    if Side(s, spy).socks == [] {
      assert RemoveAll(s, spy) == s;
    } else {
      HeldInjective(s);
      RemoveFirstKeeps(s, false, spy);
      RemoveOpen(s, spy, 0);
      RemoveAllUnfold(s, spy);
      RemoveAllHeld(Remove(s, spy, 0), spy);
    }
  }

  lemma CloseAllHeld(s: State)
    requires Held(s)
    ensures Held(Control(s, CloseAllClient))
  {
    CloseAllUnfold(s);
    RemoveAllHeld(s, false);
    RemoveAllHeld(RemoveAll(s, false), true);
  }

  lemma OrderNet(s: State, o: Order)
    requires Sound(s) && !o.CloseAllClient?
    ensures Control(s, o).net == s.net
  {
  }

  lemma ControlHeld(s: State, o: Order)
    requires Held(s)
    ensures Held(Control(s, o))
  {
    if o.CloseAllClient? {
      CloseAllHeld(s);
    } else {
      HeldInjective(s);
      OrderNet(s, o);
      ControlKeeps(s, false, o);
    }
  }

  lemma AdmitIfHeld(s: State, master: nat, spy: bool, a: Arrival)
    requires Held(s) && Usable(s, master, a, false)
    ensures Held(AdmitIf(s, master, spy, a))
  {
    if master in s.sel.dup {
      AdmitHeld(s, spy, a);
    }
  }

  lemma AdmitAllHeld(s: State, e: Input)
    requires Held(s) && Usable(s, s.masters.vhost, e.vhost, false)
    requires var s1 := AdmitIf(s, s.masters.vhost, false, e.vhost);
             Sound(s1) && Usable(s1, s.masters.inet, e.inet, false) &&
             Usable(AdmitIf(s1, s.masters.inet, false, e.inet), s.masters.spy, e.spy, false)
    ensures Held(AdmitAll(s, e))
  {
    var s1 := AdmitIf(s, s.masters.vhost, false, e.vhost);
    AdmitIfHeld(s, s.masters.vhost, false, e.vhost);
    var s2 := AdmitIf(s1, s.masters.inet, false, e.inet);
    AdmitIfHeld(s1, s.masters.inet, false, e.inet);
    AdmitIfHeld(s2, s.masters.spy, true, e.spy);
  }

  // ---------- turns and runs ----------

  lemma StepHeld(w: World, s: State, e: Input)
    requires Held(s) && Admissible(s, e, false)
    ensures Held(Step(w, s, e))
  {
    var s0 := s.(sel := Awaited(s.sel, e.ready));
    AwaitKeeps(s, false, e.ready);
    AdmitSound(s0, false, e.vhost);
    AdmitAllHeld(s0, e);
    ControlHeld(AdmitAll(s0, e), e.order);
    PrologueSound(s, e);
    ForwardHeld(w, Prologue(s, e), false);
    ForwardHeld(w, Forward(w, Prologue(s, e), false, 0), true);
  }

  lemma {:induction false} RunHeld(w: World, s: State, es: seq<Input>)
    requires Held(s) && AllAdmissible(w, s, es, false)
    ensures Held(Run(w, s, es))
    decreases |es|
  {
    if es != [] {
      StepHeld(w, s, es[0]);
      RunUnfold(w, s, es);
      RunHeld(w, Step(w, s, es[0]), es[1..]);
    }
  }

  /** In every run of the server, a connection has an open descriptor exactly until it is closed. */
  lemma ServerDescriptors(w: World, m: Masters, loss: bool, draws: seq<nat>, es: seq<Input>)
    requires DistinctMasters(m) && AllAdmissible(w, Start(m, loss, draws), es, false)
    ensures OpenOk(Run(w, Start(m, loss, draws), es).net)
  {
    StartInv(m, loss, draws, false);
    RunHeld(w, Start(m, loss, draws), es);
  }

  /** A connection that was broken or taken over is never closed : its descriptor is lost. */
  lemma EndedLeaks(w: World, s: State, es: seq<Input>, k: nat)
    requires Held(s) && AllAdmissible(w, s, es, false) && Ended(s, k) && !Shut(s.net.chans[k].log)
    ensures IsOpen(Run(w, s, es).net, k) && !EnabledFor(Run(w, s, es), k)
  {
    RunHeld(w, s, es);
    EndIsFinal(w, s, es, k);
  }
}
