/** How the history of each connection evolves : it only grows, it ends once, and it starts unread. */
module RelayHistory {
  import opened Wire
  import opened Channels
  import opened Nets
  import opened Registry
  import opened Scheduler
  import opened Relay
  import opened RelayInvariant
  import opened RelayRuns
  import opened RelayFanOut

  predicate Grown(ch: Channel, ch': Channel) {
    ch.log <= ch'.log && ch.written <= ch'.written && ch.since == ch'.since
  }

  predicate SameInput(ch: Channel, ch': Channel) {
    ch.incoming == ch'.incoming && ch.chunks == ch'.chunks
  }

  // ---------- sending ----------

  /** Sending leaves the incoming half of every channel alone. */
  predicate NetSent(net: Net, net': Net) {
    && |net'.chans| == |net.chans|
    && forall k :: 0 <= k < |net.chans| ==> Grown(net.chans[k], net'.chans[k]) && SameInput(net.chans[k], net'.chans[k])
  }

  lemma NetSentTwice(a: Net, b: Net, c: Net)
    requires NetSent(a, b) && NetSent(b, c)
    ensures NetSent(a, c)
  {
    forall k | 0 <= k < |a.chans|
      ensures Grown(a.chans[k], c.chans[k]) && SameInput(a.chans[k], c.chans[k])
    {
      assert Grown(a.chans[k], b.chans[k]) && Grown(b.chans[k], c.chans[k]);
    }
  }

  lemma OfferSent(s: State, spy: bool, i: nat, f: Frame)
    requires i < |Side(s, spy).socks|
    ensures NetSent(s.net, Offer(s, spy, i, f).net)
  {
    var fd := Side(s, spy).socks[i].fd;
    if Reaches(s.net, fd) {
      SendSignalLaw(Chan(s.net, fd), f);
    }
  }

  lemma FanOutAtSent(w: World, s: State, c: Cast, i: nat)
    requires Aligned(Side(s, c.spy)) && i < |Side(s, c.spy).socks|
    ensures NetSent(s.net, FanOutAt(w, s, c, i).net)
  {
    var f := FrameFor(w, s, c, i);
    OfferSent(s, c.spy, i, f);
    OfferSent(s.(draws := NextDraws(s.draws)), c.spy, i, f);
  }

  lemma FanOutSent(w: World, s: State, c: Cast, i: nat)
    requires Aligned(Side(s, c.spy)) && i <= |Side(s, c.spy).socks|
    ensures NetSent(s.net, FanOut(w, s, c, i).net)
  {
    forall t: State, k: nat | NetSent(s.net, t.net) && Aligned(Side(t, c.spy)) && k < |Side(t, c.spy).socks|
      ensures NetSent(s.net, FanOutAt(w, t, c, k).net)
    {
      FanOutAtSent(w, t, c, k);
      NetSentTwice(s.net, t.net, FanOutAt(w, t, c, k).net);
    }
    FanOutInduct(w, s, c, i, (t: State) => NetSent(s.net, t.net));
  }

  lemma RelayedSent(w: World, s: State, spy: bool, i: nat, f: Frame)
    requires Sound(s) && i < |Side(s, spy).socks|
    ensures NetSent(s.net, Relayed(w, s, spy, i, f).net)
  {
    var s1 := FanOut(w, s, OwnCast(s, spy, i, f), 0);
    RelayedUnfold(w, s, spy, i, f);
    FanOutSent(w, s, OwnCast(s, spy, i, f), 0);
    FanOutSent(w, s1, OtherCast(spy, f), 0);
    NetSentTwice(s.net, s1.net, FanOut(w, s1, OtherCast(spy, f), 0).net);
  }

  // ---------- who may be read ----------

  /** No descriptor of connection `k` was reported ready by the last Wait. */
  predicate Unread(s: State, k: nat) {
    forall fd :: fd in s.net.open && s.net.open[fd] == k ==> fd !in s.sel.dup
  }

  /** One operation on connection `k` : its history grows, and it is not read unless it was ready. */
  predicate Evolves(s: State, s': State, k: nat) {
    && k < |s.net.chans| <= |s'.net.chans|
    && Grown(s.net.chans[k], s'.net.chans[k])
    && (Unread(s, k) ==> Unread(s', k) && SameInput(s.net.chans[k], s'.net.chans[k]))
  }

  lemma EvolvesTwice(a: State, b: State, c: State, k: nat)
    requires Evolves(a, b, k) && Evolves(b, c, k)
    ensures Evolves(a, c, k)
  {
  }

  lemma CloseFdEvolves(net: Net, sock: Sock, k: nat)
    requires k < |net.chans|
    ensures var net' := CloseFd(net, sock);
            && |net'.chans| == |net.chans| && Grown(net.chans[k], net'.chans[k]) && SameInput(net.chans[k], net'.chans[k])
            && (forall fd :: fd in net'.open ==> fd in net.open && net'.open[fd] == net.open[fd])
  {
  }

  lemma RemoveEvolves(s: State, spy: bool, i: nat, k: nat)
    requires Valid(Side(s, spy)) && i < |Side(s, spy).socks| && k < |s.net.chans|
    ensures Evolves(s, Remove(s, spy, i), k)
  {
    CloseFdEvolves(s.net, Side(s, spy).socks[i], k);
  }

  /** A read touches the connection that was ready only. */
  lemma ReadEvolves(s: State, spy: bool, i: nat, k: nat)
    requires i < |Side(s, spy).socks| && Reaches(s.net, Side(s, spy).socks[i].fd) && k < |s.net.chans|
    requires Side(s, spy).socks[i].fd in s.sel.dup
    ensures var fd := Side(s, spy).socks[i].fd;
            Evolves(s, s.(net := WithChan(s.net, fd, Received(Chan(s.net, fd)))), k)
  {
    ReceivedHistory(Chan(s.net, Side(s, spy).socks[i].fd));
  }

  lemma RelayedEvolves(w: World, s: State, spy: bool, i: nat, f: Frame, k: nat)
    requires Sound(s) && i < |Side(s, spy).socks| && k < |s.net.chans|
    ensures Evolves(s, Relayed(w, s, spy, i, f), k)
  {
    RelayedSent(w, s, spy, i, f);
    RelayedShape(w, s, spy, i, f);
  }

  lemma VisitEvolves(w: World, s: State, spy: bool, i: nat, k: nat)
    requires Sound(s) && i < |Side(s, spy).socks| && k < |s.net.chans|
    ensures Evolves(s, Visit(w, s, spy, i), k)
  {
    var sock := Side(s, spy).socks[i];
    if !sock.enabled || (sock.fd in s.sel.dup && !Reaches(s.net, sock.fd)) {
      RemoveEvolves(s, spy, i, k);
    } else if sock.fd in s.sel.dup {
      ReadEvolves(s, spy, i, k);
      var s1 := s.(net := WithChan(s.net, sock.fd, Received(Chan(s.net, sock.fd))));
      var r := Receive(Chan(s.net, sock.fd));
      if r.valread <= 0 {
        RemoveEvolves(s1, spy, i, k);
        EvolvesTwice(s, s1, Remove(s1, spy, i), k);
      } else {
        var f := Frame(r.power, r.data);
        var s2 := s1.(heard := s.heard + [Hearing(s.net.open[sock.fd], f)]);
        RelayedEvolves(w, s2, spy, i, f, k);
        assert Evolves(s, s2, k);
        EvolvesTwice(s, s2, Relayed(w, s2, spy, i, f), k);
      }
    }
  }

  lemma ForwardEvolves(w: World, s: State, spy: bool, i: nat, k: nat)
    requires Sound(s) && i <= |Side(s, spy).socks| && k < |s.net.chans|
    ensures Evolves(s, Forward(w, s, spy, i), k)
  {
    forall t: State, j: nat | Evolves(s, t, k) && Sound(t) && j < |Side(t, spy).socks|
      ensures Evolves(s, Visit(w, t, spy, j), k)
    {
      VisitEvolves(w, t, spy, j, k);
      EvolvesTwice(s, t, Visit(w, t, spy, j), k);
    }
    ForwardInduct(w, s, spy, i, (t: State) => Evolves(s, t, k));
  }

  lemma {:induction false} CloseFdsEvolves(net: Net, socks: seq<Sock>, k: nat)
    requires k < |net.chans|
    ensures var net' := CloseFds(net, socks);
            && |net'.chans| == |net.chans| && Grown(net.chans[k], net'.chans[k]) && SameInput(net.chans[k], net'.chans[k])
            && (forall fd :: fd in net'.open ==> fd in net.open && net'.open[fd] == net.open[fd])
    decreases |socks|
  {
    if socks != [] {
      CloseFdEvolves(net, socks[0], k);
      CloseFdsEvolves(CloseFd(net, socks[0]), socks[1..], k);
    }
  }

  lemma {:induction false} RemovedAllDup(sel: Select, socks: seq<Sock>)
    ensures RemovedAll(sel, socks).dup == sel.dup
    decreases |socks|
  {
    if socks != [] {
      RemovedAllDup(Removed(sel, socks[0].fd), socks[1..]);
    }
  }

  lemma RemoveAllEvolves(s: State, spy: bool, k: nat)
    requires Valid(Side(s, spy)) && k < |s.net.chans|
    ensures Evolves(s, RemoveAll(s, spy), k)
  {
    CloseFdsEvolves(s.net, Side(s, spy).socks, k);
    RemovedAllDup(s.sel, Side(s, spy).socks);
  }

  lemma ControlEvolves(s: State, o: Order, k: nat)
    requires Sound(s) && k < |s.net.chans|
    ensures Evolves(s, Control(s, o), k)
  {
    if o.CloseAllClient? {
      var s1 := RemoveAll(s, false);
      CloseAllUnfold(s);
      RemoveAllEvolves(s, false, k);
      RemoveAllEvolves(s1, true, k);
      EvolvesTwice(s, s1, RemoveAll(s1, true), k);
    } else {
      assert Control(s, o).net == s.net && Control(s, o).sel == s.sel;
    }
  }

  // ---------- arrivals ----------

  lemma AdmitEvolves(s: State, spy: bool, a: Arrival, k: nat)
    requires Aligned(Side(s, spy)) && Fresh(s, a) && k < |s.net.chans|
    ensures Evolves(s, Admit(s, spy, a), k)
  {
    assert Connect(s, a).chans[k] == s.net.chans[k];
  }

  /** pselect reports registered descriptors only. */
  predicate Reported(s: State) {
    s.sel.dup <= s.sel.master
  }

  /** A descriptor that accept has just returned was not waited for. */
  lemma AdmitUnread(s: State, spy: bool, a: Arrival)
    requires Inv(s, false) && Fresh(s, a) && Reported(s)
    ensures |Admit(s, spy, a).net.chans| == |s.net.chans| + 1
    ensures Unread(Admit(s, spy, a), |s.net.chans|) && Reported(Admit(s, spy, a))
  {
    FreshNode(s, false, a);
    assert a.fd !in s.sel.dup;
  }

  /** Old connections evolve, new ones are unread. */
  predicate Admitted(s: State, s': State, k: nat) {
    && |s.net.chans| <= |s'.net.chans|
    && (k < |s.net.chans| ==> Evolves(s, s', k))
    && (|s.net.chans| <= k < |s'.net.chans| ==> Unread(s', k))
  }

  lemma AdmittedTwice(a: State, b: State, c: State, k: nat)
    requires Admitted(a, b, k) && Admitted(b, c, k)
    ensures Admitted(a, c, k)
  {
    if k < |a.net.chans| {
      EvolvesTwice(a, b, c, k);
    }
  }

  lemma AdmitIfUnread(s: State, master: nat, spy: bool, a: Arrival, k: nat)
    requires Inv(s, false) && Usable(s, master, a, false) && Reported(s)
    ensures Reported(AdmitIf(s, master, spy, a)) && Admitted(s, AdmitIf(s, master, spy, a), k)
  {
    if master in s.sel.dup {
      AdmitUnread(s, spy, a);
      if k < |s.net.chans| {
        AdmitEvolves(s, spy, a, k);
      }
    }
  }

  lemma AdmitAllUnread(s: State, e: Input, k: nat)
    requires Inv(s, false) && Reported(s)
    requires Usable(s, s.masters.vhost, e.vhost, false)
    requires var s1 := AdmitIf(s, s.masters.vhost, false, e.vhost);
             Sound(s1) && Usable(s1, s.masters.inet, e.inet, false) &&
             Usable(AdmitIf(s1, s.masters.inet, false, e.inet), s.masters.spy, e.spy, false)
    ensures Admitted(s, AdmitAll(s, e), k)
  {
    var s1 := AdmitIf(s, s.masters.vhost, false, e.vhost);
    AdmitIfKeeps(s, false, s.masters.vhost, false, e.vhost);
    AdmitIfUnread(s, s.masters.vhost, false, e.vhost, k);
    var s2 := AdmitIf(s1, s.masters.inet, false, e.inet);
    AdmitIfKeeps(s1, false, s.masters.inet, false, e.inet);
    AdmitIfUnread(s1, s.masters.inet, false, e.inet, k);
    AdmitIfUnread(s2, s.masters.spy, true, e.spy, k);
    AdmittedTwice(s, s1, s2, k);
    AdmittedTwice(s, s2, AdmitAll(s, e), k);
  }

  // ---------- turns and runs ----------

  lemma AfterAdmit(w: World, s: State, e: Input, k: nat)
    requires Sound(s) && k < |AdmitAll(s.(sel := Awaited(s.sel, e.ready)), e).net.chans|
    ensures Evolves(AdmitAll(s.(sel := Awaited(s.sel, e.ready)), e), Step(w, s, e), k)
  {
    var s0 := s.(sel := Awaited(s.sel, e.ready));
    var s1 := AdmitAll(s0, e);
    AdmitAllSound(s0, e);
    PrologueSound(s, e);
    var s2 := Prologue(s, e);
    ControlEvolves(s1, e.order, k);
    var s3 := Forward(w, s2, false, 0);
    ForwardSound(w, s2, false, 0);
    ForwardEvolves(w, s2, false, 0, k);
    ForwardEvolves(w, s3, true, 0, k);
    EvolvesTwice(s1, s2, s3, k);
    EvolvesTwice(s1, s3, Step(w, s, e), k);
  }

  lemma AdmittedUnread(s: State, e: Input, k: nat)
    requires Inv(s, false) && Admissible(s, e, false)
    ensures var s1 := AdmitAll(s.(sel := Awaited(s.sel, e.ready)), e);
            && |s.net.chans| <= |s1.net.chans|
            && (k < |s.net.chans| ==> Grown(s.net.chans[k], s1.net.chans[k]))
            && (|s.net.chans| <= k < |s1.net.chans| ==> Unread(s1, k))
  {
    var s0 := s.(sel := Awaited(s.sel, e.ready));
    AwaitKeeps(s, false, e.ready);
    AdmitSound(s0, false, e.vhost);
    AdmitAllUnread(s0, e, k);
  }

  /**
    Same-turn freshness : a connection accepted in a turn is not read in that turn, even when
    other descriptors are closed in it.
   */
  lemma FreshUnread(w: World, s: State, e: Input, k: nat)
    requires Inv(s, false) && Admissible(s, e, false)
    requires |s.net.chans| <= k < |AdmitAll(s.(sel := Awaited(s.sel, e.ready)), e).net.chans|
    ensures k < |Step(w, s, e).net.chans|
    ensures SameInput(AdmitAll(s.(sel := Awaited(s.sel, e.ready)), e).net.chans[k], Step(w, s, e).net.chans[k])
  {
    AdmittedUnread(s, e, k);
    AfterAdmit(w, s, e, k);
  }

  lemma StepGrown(w: World, s: State, e: Input, k: nat)
    requires Inv(s, false) && Admissible(s, e, false) && k < |s.net.chans|
    ensures k < |Step(w, s, e).net.chans| && Grown(s.net.chans[k], Step(w, s, e).net.chans[k])
  {
    AdmittedUnread(s, e, k);
    AfterAdmit(w, s, e, k);
  }

  lemma {:induction false} RunGrown(w: World, s: State, es: seq<Input>, k: nat)
    requires Inv(s, false) && AllAdmissible(w, s, es, false) && k < |s.net.chans|
    ensures k < |Run(w, s, es).net.chans| && Grown(s.net.chans[k], Run(w, s, es).net.chans[k])
    decreases |es|
  {
    if es != [] {
      StepKeeps(w, s, false, es[0]);
      StepGrown(w, s, es[0], k);
      RunUnfold(w, s, es);
      RunGrown(w, Step(w, s, es[0]), es[1..], k);
    }
  }

  // ---------- the end ----------

  /** Connection `k` has ended, and stays as it is. */
  predicate Ended(s: State, k: nat) {
    k < |s.net.chans| && !Live(s.net.chans[k].log)
  }

  predicate Frozen(s: State, s': State, k: nat) {
    && k < |s.net.chans| && k < |s'.net.chans|
    && s'.net.chans[k].log == s.net.chans[k].log
    && s'.net.chans[k].written == s.net.chans[k].written
    && SameInput(s.net.chans[k], s'.net.chans[k])
  }

  /** What grows from an end without being read is frozen. */
  lemma GrownFrozen(s: State, s': State, k: nat)
    requires Inv(s, false) && Inv(s', false) && Ended(s, k)
    requires k < |s'.net.chans| && Grown(s.net.chans[k], s'.net.chans[k]) && SameInput(s.net.chans[k], s'.net.chans[k])
    ensures Frozen(s, s', k) && Ended(s', k)
  {
    assert ChanOk(s.net.chans[k], false) && ChanOk(s'.net.chans[k], false);
    FinalLog(s.net.chans[k].log, s'.net.chans[k].log);
  }

  /** An entry that is read is enabled, so its connection has not ended. */
  lemma ReadIsLive(s: State, spy: bool, i: nat, k: nat)
    requires Inv(s, false) && i < |Side(s, spy).socks| && Side(s, spy).socks[i].enabled && Ended(s, k)
    ensures Reaches(s.net, Side(s, spy).socks[i].fd) && s.net.open[Side(s, spy).socks[i].fd] != k
  {
    assert EntryOk(s.net, Side(s, spy).socks[i], Side(s, spy).infos[i], false);
  }

  lemma VisitUnread(w: World, s: State, spy: bool, i: nat, k: nat)
    requires Inv(s, false) && i < |Side(s, spy).socks| && Ended(s, k)
    ensures var s' := Visit(w, s, spy, i); k < |s'.net.chans| && SameInput(s.net.chans[k], s'.net.chans[k])
  {
    var sock := Side(s, spy).socks[i];
    CloseFdEvolves(s.net, sock, k);
    if sock.enabled && sock.fd in s.sel.dup {
      ReadIsLive(s, spy, i, k);
      var r := Receive(Chan(s.net, sock.fd));
      var s1 := s.(net := WithChan(s.net, sock.fd, Received(Chan(s.net, sock.fd))));
      var f := Frame(r.power, r.data);
      assert s1.net.chans[k] == s.net.chans[k];
      CloseFdEvolves(s1.net, sock, k);
      RelayedSent(w, s1.(heard := s.heard + [Hearing(s.net.open[sock.fd], f)]), spy, i, f);
    }
  }

  lemma VisitFrozen(w: World, s: State, spy: bool, i: nat, k: nat)
    requires Inv(s, false) && i < |Side(s, spy).socks| && Ended(s, k)
    ensures var s' := Visit(w, s, spy, i); Inv(s', false) && Frozen(s, s', k) && Ended(s', k)
  {
    VisitKeeps(w, s, false, spy, i);
    VisitEvolves(w, s, spy, i, k);
    VisitUnread(w, s, spy, i, k);
    GrownFrozen(s, Visit(w, s, spy, i), k);
  }

  lemma ForwardFrozen(w: World, s: State, spy: bool, i: nat, k: nat)
    requires Inv(s, false) && i <= |Side(s, spy).socks| && Ended(s, k)
    ensures var s' := Forward(w, s, spy, i); Frozen(s, s', k) && Ended(s', k)
  {
    forall t: State, j: nat | Inv(t, false) && Frozen(s, t, k) && Ended(t, k) && j < |Side(t, spy).socks|
      ensures var t' := Visit(w, t, spy, j); Inv(t', false) && Frozen(s, t', k) && Ended(t', k)
    {
      VisitFrozen(w, t, spy, j, k);
    }
    ForwardInduct(w, s, spy, i, (t: State) => Inv(t, false) && Frozen(s, t, k) && Ended(t, k));
  }

  lemma RemoveAllInput(s: State, spy: bool, k: nat)
    requires Valid(Side(s, spy)) && k < |s.net.chans|
    ensures var s' := RemoveAll(s, spy);
            |s'.net.chans| == |s.net.chans| && SameInput(s.net.chans[k], s'.net.chans[k])
  {
    CloseFdsEvolves(s.net, Side(s, spy).socks, k);
  }

  lemma ControlInput(s: State, o: Order, k: nat)
    requires Sound(s) && k < |s.net.chans|
    ensures var s' := Control(s, o);
            |s'.net.chans| == |s.net.chans| && SameInput(s.net.chans[k], s'.net.chans[k])
  {
    if o.CloseAllClient? {
      CloseAllUnfold(s);
      RemoveAllInput(s, false, k);
      RemoveAllInput(RemoveAll(s, false), true, k);
    }
  }

  lemma AdmitIfInput(s: State, master: nat, spy: bool, a: Arrival, k: nat)
    requires Sound(s) && k < |s.net.chans|
    ensures var s' := AdmitIf(s, master, spy, a);
            k < |s'.net.chans| && SameInput(s.net.chans[k], s'.net.chans[k])
  {
    assert Connect(s, a).chans[k] == s.net.chans[k];
  }

  lemma PrologueInput(s: State, e: Input, k: nat)
    requires Sound(s) && k < |s.net.chans|
    ensures var s' := Prologue(s, e);
            k < |s'.net.chans| && SameInput(s.net.chans[k], s'.net.chans[k])
  {
    var s0 := s.(sel := Awaited(s.sel, e.ready));
    AdmitSound(s0, false, e.vhost);
    AdmitIfInput(s0, s.masters.vhost, false, e.vhost, k);
    var s1 := AdmitIf(s0, s.masters.vhost, false, e.vhost);
    AdmitSound(s1, false, e.inet);
    AdmitIfInput(s1, s.masters.inet, false, e.inet, k);
    AdmitIfInput(AdmitIf(s1, s.masters.inet, false, e.inet), s.masters.spy, true, e.spy, k);
    AdmitAllSound(s0, e);
    ControlInput(AdmitAll(s0, e), e.order, k);
  }

  lemma PrologueGrown(s: State, e: Input, k: nat)
    requires Inv(s, false) && Admissible(s, e, false) && k < |s.net.chans|
    ensures k < |Prologue(s, e).net.chans| && Grown(s.net.chans[k], Prologue(s, e).net.chans[k])
  {
    var s0 := s.(sel := Awaited(s.sel, e.ready));
    AdmittedUnread(s, e, k);
    AdmitAllSound(s0, e);
    ControlEvolves(AdmitAll(s0, e), e.order, k);
  }

  lemma StepFrozen(w: World, s: State, e: Input, k: nat)
    requires Inv(s, false) && Admissible(s, e, false) && Ended(s, k)
    ensures Frozen(s, Step(w, s, e), k) && Ended(Step(w, s, e), k)
  {
    var s1 := Prologue(s, e);
    PrologueKeeps(s, false, e);
    PrologueGrown(s, e, k);
    PrologueInput(s, e, k);
    GrownFrozen(s, s1, k);
    ForwardKeeps(w, s1, false, false, 0);
    ForwardFrozen(w, s1, false, 0, k);
    ForwardFrozen(w, Forward(w, s1, false, 0), true, 0, k);
  }

  /**
    The end of a connection is final : once it was broken, taken over or closed, no later turn of
    any run sends it anything, reads from it, or closes it again, and no entry of it is enabled.
   */
  lemma {:induction false} EndIsFinal(w: World, s: State, es: seq<Input>, k: nat)
    requires Inv(s, false) && AllAdmissible(w, s, es, false) && Ended(s, k)
    ensures Frozen(s, Run(w, s, es), k) && !EnabledFor(Run(w, s, es), k)
    decreases |es|
  {
    if es == [] {
      NotEnabled(s, k);
    } else {
      StepKeeps(w, s, false, es[0]);
      StepFrozen(w, s, es[0], k);
      RunUnfold(w, s, es);
      EndIsFinal(w, Step(w, s, es[0]), es[1..], k);
    }
  }

  /** Some enabled entry belongs to connection `k`. */
  predicate EnabledFor(s: State, k: nat) {
    EnabledIn(s.clients, k) || EnabledIn(s.spies, k)
  }

  predicate EnabledIn(srv: Server, k: nat) {
    exists i :: 0 <= i < |srv.socks| && i < |srv.infos| && srv.socks[i].enabled && srv.infos[i].conn == k
  }

  lemma NotEnabled(s: State, k: nat)
    requires Inv(s, false) && Ended(s, k)
    ensures !EnabledFor(s, k)
  {
    forall i | 0 <= i < |s.clients.socks| && s.clients.socks[i].enabled ensures s.clients.infos[i].conn != k {
      ReadIsLive(s, false, i, k);
      assert EntryOk(s.net, s.clients.socks[i], s.clients.infos[i], false);
    }
    forall i | 0 <= i < |s.spies.socks| && s.spies.socks[i].enabled ensures s.spies.infos[i].conn != k {
      ReadIsLive(s, true, i, k);
      assert EntryOk(s.net, s.spies.socks[i], s.spies.infos[i], false);
    }
  }

  lemma FinalLog(log: seq<Event>, log': seq<Event>)
    requires Ordered(log') && log <= log' && !Live(log)
    ensures log == log'
  {
    var last := log'[|log| - 1];
    assert Terminal(last);
  }
}
