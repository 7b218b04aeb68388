/**
  The event loop seen through the registry of one side. Every run of the server is a run of registry
  operations, which is computed from the run itself; so the server's lists obey the laws of the
  queue, and in a run without a CID accepted while an entry carries it they are a map.
 */
module RelayRegistry {
  import opened Wire
  import opened Channels
  import opened Nets
  import opened Registry
  import opened RegistryRuns
  import opened Relay
  import opened RelayRuns
  import M = RegistryMap

  // ---------- sending ----------

  /** Some flags have been cleared, nothing else. */
  predicate Dimmed(a: Server, b: Server) {
    SameEntries(a, b) && forall i :: 0 <= i < |a.socks| && b.socks[i].enabled ==> a.socks[i].enabled
  }

  lemma OfferDims(s: State, spy: bool, i: nat, f: Frame, side: bool)
    requires i < |Side(s, spy).socks|
    ensures Dimmed(Side(s, side), Side(Offer(s, spy, i, f), side))
  {
  }

  lemma FanOutAtDims(w: World, s: State, c: Cast, i: nat, side: bool)
    requires Aligned(Side(s, c.spy)) && i < |Side(s, c.spy).socks|
    ensures Dimmed(Side(s, side), Side(FanOutAt(w, s, c, i), side))
  {
    var f := FrameFor(w, s, c, i);
    OfferDims(s, c.spy, i, f, side);
    OfferDims(s.(draws := NextDraws(s.draws)), c.spy, i, f, side);
  }

  lemma DimmedTwice(a: Server, b: Server, c: Server)
    requires Dimmed(a, b) && Dimmed(b, c)
    ensures Dimmed(a, c)
  {
  }

  lemma FanOutDims(w: World, s: State, c: Cast, i: nat, side: bool)
    requires Aligned(Side(s, c.spy)) && i <= |Side(s, c.spy).socks|
    ensures Dimmed(Side(s, side), Side(FanOut(w, s, c, i), side))
  {
    forall t: State, k: nat | Dimmed(Side(s, side), Side(t, side)) && Aligned(Side(t, c.spy)) && k < |Side(t, c.spy).socks|
      ensures Dimmed(Side(s, side), Side(FanOutAt(w, t, c, k), side))
    {
      FanOutAtDims(w, t, c, k, side);
      DimmedTwice(Side(s, side), Side(t, side), Side(FanOutAt(w, t, c, k), side));
    }
    FanOutInduct(w, s, c, i, (t: State) => Dimmed(Side(s, side), Side(t, side)));
  }

  lemma RelayedDims(w: World, s: State, spy: bool, i: nat, f: Frame, side: bool)
    requires Sound(s) && i < |Side(s, spy).socks|
    ensures Dimmed(Side(s, side), Side(Relayed(w, s, spy, i, f), side))
  {
    var own, other := OwnCast(s, spy, i, f), OtherCast(spy, f);
    var s1 := FanOut(w, s, own, 0);
    FanOutSound(w, s, own, 0);
    FanOutDims(w, s, own, 0, side);
    FanOutDims(w, s1, other, 0, side);
    DimmedTwice(Side(s, side), Side(s1, side), Side(FanOut(w, s1, other, 0), side));
  }

  /** One drop for each flag that has been cleared, from position `i` on. */
  function Drops(a: Server, b: Server, i: nat): seq<M.Op>
    requires |a.socks| == |b.socks| && i <= |a.socks|
    decreases |a.socks| - i
  {
    if i == |a.socks| then []
    else if a.socks[i].enabled == b.socks[i].enabled then Drops(a, b, i + 1)
    else [M.Drop(i)] + Drops(Disable(a, i), b, i + 1)
  }

  lemma {:induction false} DropsTraced(a: Server, b: Server, i: nat)
    requires Valid(a) && Dimmed(a, b) && i <= |a.socks| && forall t :: 0 <= t < i ==> a.socks[t] == b.socks[t]
    ensures Traced(a, Drops(a, b, i), b)
    decreases |a.socks| - i
  {
    if i == |a.socks| {
      assert a.socks == b.socks;
    } else if a.socks[i].enabled == b.socks[i].enabled {
      DropsTraced(a, b, i + 1);
    } else {
      var a' := Disable(a, i);
      DropsTraced(a', b, i + 1);
      TracedOne(a, M.Drop(i));
      TracedThen(a, [M.Drop(i)], a', Drops(a', b, i + 1), b);
    }
  }

  // ---------- ForwardData ----------

  /** The visited entry leaves, or those that could not be sent to are dropped. */
  function VisitOps(w: World, s: State, spy: bool, i: nat, side: bool): seq<M.Op>
    requires Sound(s) && i < |Side(s, spy).socks|
  {
    if Leaves(s, spy, i) then
      if side == spy then [M.Leave(i)] else []
    else
      VisitDims(w, s, spy, i, side);
      Drops(Side(s, side), Side(Visit(w, s, spy, i), side), 0)
  }

  lemma VisitDims(w: World, s: State, spy: bool, i: nat, side: bool)
    requires Sound(s) && i < |Side(s, spy).socks| && !Leaves(s, spy, i)
    ensures Dimmed(Side(s, side), Side(Visit(w, s, spy, i), side))
  {
    var sock := Side(s, spy).socks[i];
    if sock.fd in s.sel.dup {
      var r := Receive(Chan(s.net, sock.fd));
      var s1 := s.(net := WithChan(s.net, sock.fd, Received(Chan(s.net, sock.fd))));
      var f := Frame(r.power, r.data);
      RelayedDims(w, s1.(heard := s.heard + [Hearing(s.net.open[sock.fd], f)]), spy, i, f, side);
    }
  }

  lemma VisitLeaving(w: World, s: State, spy: bool, i: nat, side: bool)
    requires Sound(s) && i < |Side(s, spy).socks| && Leaves(s, spy, i)
    ensures Side(Visit(w, s, spy, i), side) == if side == spy then Close(Side(s, spy), i) else Side(s, side)
  {
  }

  lemma VisitTraced(w: World, s: State, spy: bool, i: nat, side: bool)
    requires Sound(s) && i < |Side(s, spy).socks|
    ensures Traced(Side(s, side), VisitOps(w, s, spy, i, side), Side(Visit(w, s, spy, i), side))
  {
    if Leaves(s, spy, i) {
      VisitLeaving(w, s, spy, i, side);
      if side == spy {
        TracedOne(Side(s, side), M.Leave(i));
      }
    } else {
      VisitDims(w, s, spy, i, side);
      DropsTraced(Side(s, side), Side(Visit(w, s, spy, i), side), 0);
    }
  }

  function ForwardOps(w: World, s: State, spy: bool, i: nat, side: bool): seq<M.Op>
    requires Sound(s) && i <= |Side(s, spy).socks|
    decreases |Side(s, spy).socks| - i
  {
    if i == |Side(s, spy).socks| then []
    else
      VisitSound(w, s, spy, i);
      VisitOps(w, s, spy, i, side)
      + ForwardOps(w, Visit(w, s, spy, i), spy, if Leaves(s, spy, i) then i else i + 1, side)
  }

  /** ForwardData is leaves and drops of the registry, and no others than these. */
  lemma {:induction false} ForwardTraced(w: World, s: State, spy: bool, i: nat, side: bool)
    requires Sound(s) && i <= |Side(s, spy).socks|
    ensures Traced(Side(s, side), ForwardOps(w, s, spy, i, side), Side(Forward(w, s, spy, i), side))
    decreases |Side(s, spy).socks| - i
  {
    if i < |Side(s, spy).socks| {
      var s', i' := Visit(w, s, spy, i), if Leaves(s, spy, i) then i else i + 1;
      VisitSound(w, s, spy, i);
      ForwardUnfold(w, s, spy, i);
      VisitTraced(w, s, spy, i, side);
      ForwardTraced(w, s', spy, i', side);
      TracedThen(Side(s, side), VisitOps(w, s, spy, i, side), Side(s', side),
                 ForwardOps(w, s', spy, i', side), Side(Forward(w, s', spy, i'), side));
    }
  }

  // ---------- accepts and orders ----------

  function AdmitOps(s: State, master: nat, spy: bool, a: Arrival, side: bool): seq<M.Op> {
    if master in s.sel.dup && side == spy then [M.Join(a.fd, a.cid, |s.net.chans|)] else []
  }

  lemma AdmitTraced(s: State, master: nat, spy: bool, a: Arrival, side: bool)
    requires Sound(s)
    ensures Traced(Side(s, side), AdmitOps(s, master, spy, a, side), Side(AdmitIf(s, master, spy, a), side))
  {
    if master in s.sel.dup && side == spy {
      TracedOne(Side(s, side), M.Join(a.fd, a.cid, |s.net.chans|));
    }
  }

  function AdmitAllOps(s: State, e: Input, side: bool): seq<M.Op>
    requires Sound(s)
  {
    AdmitSound(s, false, e.vhost);
    var s1 := AdmitIf(s, s.masters.vhost, false, e.vhost);
    AdmitSound(s1, false, e.inet);
    var s2 := AdmitIf(s1, s.masters.inet, false, e.inet);
    AdmitOps(s, s.masters.vhost, false, e.vhost, side)
    + AdmitOps(s1, s.masters.inet, false, e.inet, side)
    + AdmitOps(s2, s.masters.spy, true, e.spy, side)
  }

  lemma AdmitAllTraced(s: State, e: Input, side: bool)
    requires Sound(s)
    ensures Traced(Side(s, side), AdmitAllOps(s, e, side), Side(AdmitAll(s, e), side))
  {
    AdmitSound(s, false, e.vhost);
    var s1 := AdmitIf(s, s.masters.vhost, false, e.vhost);
    AdmitSound(s1, false, e.inet);
    var s2 := AdmitIf(s1, s.masters.inet, false, e.inet);
    var s3 := AdmitIf(s2, s.masters.spy, true, e.spy);
    AdmitTraced(s, s.masters.vhost, false, e.vhost, side);
    AdmitTraced(s1, s.masters.inet, false, e.inet, side);
    AdmitTraced(s2, s.masters.spy, true, e.spy, side);
    var p, q := AdmitOps(s, s.masters.vhost, false, e.vhost, side), AdmitOps(s1, s.masters.inet, false, e.inet, side);
    TracedThen(Side(s, side), p, Side(s1, side), q, Side(s2, side));
    TracedThen(Side(s, side), p + q, Side(s2, side), AdmitOps(s2, s.masters.spy, true, e.spy, side), Side(s3, side));
  }

  function CloseAllOps(n: nat): seq<M.Op> {
    if n == 0 then [] else [M.Leave(0)] + CloseAllOps(n - 1)
  }

  lemma {:induction false} CloseAllTraced(srv: Server)
    requires Valid(srv)
    ensures Traced(srv, CloseAllOps(|srv.socks|), CloseAll(srv))
    decreases |srv.socks|
  {
    if srv.socks != [] {
      var srv' := Close(srv, 0);
      TracedOne(srv, M.Leave(0));
      CloseAllTraced(srv');
      TracedThen(srv, [M.Leave(0)], srv', CloseAllOps(|srv'.socks|), CloseAll(srv'));
    }
  }

  /** Orders place and name clients, archived clients and connected spies. */
  function ControlOps(s: State, o: Order, side: bool): seq<M.Op> {
    if s.masters.ctrl !in s.sel.dup then []
    else
      match o
      case Move(cid, coo) => if side then [] else [M.Move(cid, coo)]
      case Rename(cid, name) =>
        if side && (Known(s.clients, cid) || Find(s.spies.infos, cid, 0) == |s.spies.infos|) then []
        else [M.Rename(cid, name)]
      case CloseAllClient => CloseAllOps(|Side(s, side).socks|)
      case _ => []
  }

  lemma ControlTraced(s: State, o: Order, side: bool)
    requires Sound(s)
    ensures Traced(Side(s, side), ControlOps(s, o, side), Side(ControlIf(s, o), side))
  {
    if s.masters.ctrl in s.sel.dup {
      match o
      case Move(cid, coo) => TracedOne(Side(s, side), M.Move(cid, coo));
      case Rename(cid, name) => TracedOne(Side(s, side), M.Rename(cid, name));
      case CloseAllClient =>
        CloseAllUnfold(s);
        CloseAllTraced(Side(s, side));
      case _ =>
    }
  }

  // ---------- turns and runs ----------

  function StepOps(w: World, s: State, e: Input, side: bool): seq<M.Op>
    requires Sound(s)
  {
    var s0 := s.(sel := Scheduler.Awaited(s.sel, e.ready));
    AdmitAllSound(s0, e);
    PrologueSound(s, e);
    var s1 := Prologue(s, e);
    ForwardSound(w, s1, false, 0);
    AdmitAllOps(s0, e, side) + ControlOps(AdmitAll(s0, e), e.order, side)
    + (ForwardOps(w, s1, false, 0, side) + ForwardOps(w, Forward(w, s1, false, 0), true, 0, side))
  }

  /** The operations of a run on the registry of one side, in order. */
  function Trace(w: World, s: State, es: seq<Input>, side: bool): seq<M.Op>
    requires Sound(s)
    decreases |es|
  {
    if es == [] then []
    else
      StepSound(w, s, es[0]);
      StepOps(w, s, es[0], side) + Trace(w, Step(w, s, es[0]), es[1..], side)
  }

  lemma PrologueTraced(s: State, e: Input, side: bool)
    requires Sound(s)
    ensures var s0 := s.(sel := Scheduler.Awaited(s.sel, e.ready));
            && Sound(AdmitAll(s0, e))
            && Traced(Side(s, side), AdmitAllOps(s0, e, side) + ControlOps(AdmitAll(s0, e), e.order, side),
                      Side(Prologue(s, e), side))
  {
    var s0 := s.(sel := Scheduler.Awaited(s.sel, e.ready));
    AdmitAllSound(s0, e);
    var s1 := AdmitAll(s0, e);
    AdmitAllTraced(s0, e, side);
    ControlTraced(s1, e.order, side);
    TracedThen(Side(s, side), AdmitAllOps(s0, e, side), Side(s1, side),
               ControlOps(s1, e.order, side), Side(ControlIf(s1, e.order), side));
  }

  lemma ForwardsTraced(w: World, s: State, side: bool)
    requires Sound(s)
    ensures var s1 := Forward(w, s, false, 0);
            && Sound(s1)
            && Traced(Side(s, side), ForwardOps(w, s, false, 0, side) + ForwardOps(w, s1, true, 0, side),
                      Side(Forward(w, s1, true, 0), side))
  {
    var s1 := Forward(w, s, false, 0);
    ForwardSound(w, s, false, 0);
    ForwardTraced(w, s, false, 0, side);
    ForwardTraced(w, s1, true, 0, side);
    TracedThen(Side(s, side), ForwardOps(w, s, false, 0, side), Side(s1, side),
               ForwardOps(w, s1, true, 0, side), Side(Forward(w, s1, true, 0), side));
  }

  lemma StepTraced(w: World, s: State, e: Input, side: bool)
    requires Sound(s)
    ensures Traced(Side(s, side), StepOps(w, s, e, side), Side(Step(w, s, e), side))
  {
    var s0, s1 := s.(sel := Scheduler.Awaited(s.sel, e.ready)), Prologue(s, e);
    PrologueSound(s, e);
    PrologueTraced(s, e, side);
    ForwardsTraced(w, s1, side);
    var s2 := Forward(w, s1, false, 0);
    TracedThen(Side(s, side), AdmitAllOps(s0, e, side) + ControlOps(AdmitAll(s0, e), e.order, side), Side(s1, side),
               ForwardOps(w, s1, false, 0, side) + ForwardOps(w, s2, true, 0, side), Side(Forward(w, s2, true, 0), side));
  }

  /** Every run of the server does to the lists of each side what its trace says. */
  lemma {:induction false} RunTraced(w: World, s: State, es: seq<Input>, side: bool)
    requires Sound(s)
    ensures Traced(Side(s, side), Trace(w, s, es, side), Side(Run(w, s, es), side))
    decreases |es|
  {
    if es != [] {
      var s' := Step(w, s, es[0]);
      StepTraced(w, s, es[0], side);
      RunUnfold(w, s, es);
      RunTraced(w, s', es[1..], side);
      TracedThen(Side(s, side), StepOps(w, s, es[0], side), Side(s', side),
                 Trace(w, s', es[1..], side), Side(Run(w, s', es[1..]), side));
    }
  }

  // ---------- what follows ----------

  /** In every run of the server a record is evicted no earlier than the max-th addition after its own. */
  lemma ServerEvictsLate(w: World, s: State, es: seq<Input>, side: bool, p: nat)
    requires Sound(s) && p < |Side(s, side).archive|
    ensures var srv, ops := Side(s, side), Trace(w, s, es, side);
            && M.Possible(srv, ops)
            && var fate := FateRun(srv.archive, srv.max, p, QueueTrace(srv, ops)); var q := Side(Run(w, s, es), side).archive;
               && |q| <= srv.max
               && (fate.At? ==> fate.position < |q| && SameRecord(q[fate.position], srv.archive[p]))
               && (fate.Evicted? ==> srv.max <= Additions(QueueTrace(srv, ops)) + |srv.archive| - 1 - p)
  {
    RunTraced(w, s, es, side);
    EvictedLate(Side(s, side), Trace(w, s, es, side), p);
  }

  /** In every run of the server at most 15 clients and 1 spy are remembered. */
  lemma ServerRemembers(w: World, m: Masters, loss: bool, draws: seq<nat>, es: seq<Input>)
    ensures var s := Run(w, Start(m, loss, draws), es); |s.clients.archive| <= 15 && |s.spies.archive| <= 1
  {
    var s := Start(m, loss, draws);
    RunTraced(w, s, es, false);
    RunTraced(w, s, es, true);
    ArchiveIsQueue(s.clients, Trace(w, s, es, false));
    ArchiveIsQueue(s.spies, Trace(w, s, es, true));
    QueueBounded(s.clients.archive, s.clients.max, QueueTrace(s.clients, Trace(w, s, es, false)));
    QueueBounded(s.spies.archive, s.spies.max, QueueTrace(s.spies, Trace(w, s, es, true)));
  }

  lemma StartGood(m: Masters, loss: bool, draws: seq<nat>, side: bool, k: nat)
    ensures var srv := Side(Start(m, loss, draws), side); M.Good(srv) && M.Lookup(srv, k).None?
  {
    assert Cids([]) == [];
  }

  /** No CID is accepted on this side while an entry of it carries that CID. */
  predicate CleanRun(w: World, s: State, es: seq<Input>, side: bool)
    requires Sound(s)
  {
    RunTraced(w, s, es, side);
    M.Clean(Side(s, side), Trace(w, s, es, side))
  }

  lemma RunMap(w: World, s: State, es: seq<Input>, side: bool, k: nat)
    requires Sound(s) && M.Good(Side(s, side)) && CleanRun(w, s, es, side)
    ensures var srv, ops := Side(s, side), Trace(w, s, es, side);
            && M.Good(Side(Run(w, s, es), side)) && M.Possible(srv, ops)
            && (M.Spared(srv, ops, k) ==>
                  M.Lookup(Side(Run(w, s, es), side), k) == M.EffectRun(M.Lookup(srv, k), ops, k))
  {
    RunTraced(w, s, es, side);
    M.RunIsMap(Side(s, side), Trace(w, s, es, side), k);
  }

  /**
    Every clean run of the server : all the CIDs it knows on one side, connected or not, are
    distinct, and a CID that no leave or order of the run pushes out of the full queue has the place
    that a plain map would give it after the same accepts and orders.
   */
  lemma ServerIsMap(w: World, m: Masters, loss: bool, draws: seq<nat>, es: seq<Input>, side: bool, k: nat)
    requires CleanRun(w, Start(m, loss, draws), es, side)
    ensures var s0 := Start(m, loss, draws); var s, ops := Run(w, s0, es), Trace(w, s0, es, side);
            && M.Good(Side(s, side)) && M.Possible(Side(s0, side), ops)
            && (M.Spared(Side(s0, side), ops, k) ==> M.Lookup(Side(s, side), k) == M.EffectRun(None, ops, k))
  {
    StartGood(m, loss, draws, side, k);
    RunMap(w, Start(m, loss, draws), es, side, k);
  }

  lemma StartWithin(m: Masters, loss: bool, draws: seq<nat>, side: bool, keys: set<nat>)
    ensures Within(Side(Start(m, loss, draws), side), keys)
  {
    forall k ensures M.Lookup(Side(Start(m, loss, draws), side), k).None? {
      StartGood(m, loss, draws, side, k);
    }
  }

  lemma RunForgetsNothing(w: World, s: State, es: seq<Input>, side: bool, keys: set<nat>, k: nat)
    requires Sound(s) && M.Good(Side(s, side)) && CleanRun(w, s, es, side)
    requires Within(Side(s, side), keys) && |keys| <= Side(s, side).max && AllSpeak(Trace(w, s, es, side), keys)
    ensures M.Lookup(Side(Run(w, s, es), side), k) == M.EffectRun(M.Lookup(Side(s, side), k), Trace(w, s, es, side), k)
  {
    RunTraced(w, s, es, side);
    FewIsMap(Side(s, side), Trace(w, s, es, side), keys, k);
  }

  /** With no more CIDs in a clean run than the queue of the clients has room for, none is ever forgotten. */
  lemma ServerForgetsNothing(w: World, m: Masters, loss: bool, draws: seq<nat>, es: seq<Input>, keys: set<nat>, k: nat)
    requires CleanRun(w, Start(m, loss, draws), es, false) && |keys| <= 15
    requires AllSpeak(Trace(w, Start(m, loss, draws), es, false), keys)
    ensures var s0 := Start(m, loss, draws);
            M.Lookup(Run(w, s0, es).clients, k) == M.EffectRun(None, Trace(w, s0, es, false), k)
  {
    StartGood(m, loss, draws, false, k);
    StartWithin(m, loss, draws, false, keys);
    RunForgetsNothing(w, Start(m, loss, draws), es, false, keys, k);
  }
}
