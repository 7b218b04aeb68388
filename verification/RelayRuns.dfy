/** The invariant over orders, turns of the loop and whole runs, and what follows from it. */
module RelayRuns {
  import opened Wire
  import opened Channels
  import opened Nets
  import opened Registry
  import opened Scheduler
  import opened Relay
  import opened RelayInvariant

  // ---------- orders ----------

  /** The same sockets, and infos that still belong to the same connections. */
  predicate SameConns(srv: Server, srv': Server) {
    && Valid(srv') && srv'.socks == srv.socks && |srv'.infos| == |srv.infos|
    && forall i :: 0 <= i < |srv.infos| ==> srv'.infos[i].conn == srv.infos[i].conn
  }

  lemma SameConnsCarries(srv: Server, srv': Server, c: nat)
    requires SameConns(srv, srv') && Carries(srv, c)
    ensures Carries(srv', c)
  {
    var i :| 0 <= i < |srv.infos| && srv.infos[i].conn == c;
    assert srv'.infos[i].conn == c;
  }

  lemma SameConnsSide(net: Net, srv: Server, srv': Server, clean: bool)
    requires SideOk(net, srv, clean) && SameConns(srv, srv')
    ensures SideOk(net, srv', clean)
  {
    forall i | 0 <= i < |srv'.socks| ensures EntryOk(net, srv'.socks[i], srv'.infos[i], clean) {
      assert EntryOk(net, srv.socks[i], srv.infos[i], clean);
    }
  }

  lemma RewriteKeeps(s: State, clean: bool, spy: bool, srv': Server)
    requires Inv(s, clean) && SameConns(Side(s, spy), srv')
    ensures Inv(WithSide(s, spy, srv'), clean)
  {
    var s' := WithSide(s, spy, srv');
    SameConnsSide(s.net, Side(s, spy), srv', clean);
    assert Owned(s') == Owned(s);
    forall c | 0 <= c < |s'.net.chans| && Live(s'.net.chans[c].log) ensures Carries(s'.clients, c) || Carries(s'.spies, c) {
      assert Carries(s.clients, c) || Carries(s.spies, c);
      if Carries(Side(s, spy), c) {
        SameConnsCarries(Side(s, spy), srv', c);
      }
    }
  }

  lemma SettingsKeep(s: State, clean: bool, loss: bool, scale: real)
    requires Inv(s, clean)
    ensures Inv(s.(loss := loss), clean) && Inv(s.(scale := scale), clean)
  {
    assert Owned(s.(loss := loss)) == Owned(s) == Owned(s.(scale := scale));
    assert forall c :: 0 <= c < |s.net.chans| && Live(s.net.chans[c].log) ==> Carries(s.clients, c) || Carries(s.spies, c);
  }

  /** Deleting all the nodes and then closing all the clients is removing the first client until none is left. */
  lemma RemoveAllUnfold(s: State, spy: bool)
    requires Valid(Side(s, spy)) && Side(s, spy).socks != []
    ensures Valid(Side(Remove(s, spy, 0), spy))
    ensures RemoveAll(s, spy) == RemoveAll(Remove(s, spy, 0), spy)
  {
    assert Erase(Side(s, spy).socks, 0) == Side(s, spy).socks[1..];
  }

  lemma {:induction false} RemoveAllKeeps(s: State, clean: bool, spy: bool)
    requires Inv(s, clean)
    ensures Inv(RemoveAll(s, spy), clean)
    decreases |Side(s, spy).socks|
  {
    var srv := Side(s, spy);
    if srv.socks == [] {
      assert RemoveAll(s, spy) == s;
    } else {
      RemoveFirstKeeps(s, clean, spy);
      RemoveAllUnfold(s, spy);
      RemoveAllKeeps(Remove(s, spy, 0), clean, spy);
    }
  }

  lemma RemoveFirstKeeps(s: State, clean: bool, spy: bool)
    requires Inv(s, clean) && Side(s, spy).socks != []
    ensures Inv(Remove(s, spy, 0), clean)
  {
    EntryReaches(s, clean, spy, 0);
    var fd := Side(s, spy).socks[0].fd;
    WithChanTwice(s.net, fd, Chan(s.net, fd), Chan(s.net, fd));
    RemoveKeeps(s, clean, spy, 0, Chan(s.net, fd));
  }

  lemma MoveKeeps(s: State, clean: bool, cid: nat, coo: Coord)
    requires Inv(s, clean)
    ensures Inv(Control(s, Move(cid, coo)), clean)
  {
    RewriteKeeps(s, clean, false, SetCoordinate(s.clients, cid, coo));
  }

  lemma RenameKeeps(s: State, clean: bool, cid: nat, name: string)
    requires Inv(s, clean)
    ensures Inv(Control(s, Rename(cid, name)), clean)
  {
    if Known(s.clients, cid) {
      RewriteKeeps(s, clean, false, SetName(s.clients, cid, name));
    } else {
      RewriteKeeps(s, clean, true, RenameConnected(s.spies, cid, name));
    }
  }

  lemma ControlKeeps(s: State, clean: bool, o: Order)
    requires Inv(s, clean)
    ensures Inv(Control(s, o), clean)
  {
    match o
    case Ask =>
    case Move(cid, coo) => MoveKeeps(s, clean, cid, coo);
    case Rename(cid, name) => RenameKeeps(s, clean, cid, name);
    case PacketLoss(on) => SettingsKeep(s, clean, on, 0.0);
    case SetScale(scale) => SettingsKeep(s, clean, false, scale);
    case CloseAllClient => CloseAllKeeps(s, clean);
  }

  lemma CloseAllKeeps(s: State, clean: bool)
    requires Inv(s, clean)
    ensures Inv(Control(s, CloseAllClient), clean)
  {
    RemoveAllKeeps(s, clean, false);
    RemoveAllKeeps(RemoveAll(s, false), clean, true);
    CloseAllUnfold(s);
  }

  lemma CloseAllUnfold(s: State)
    requires Sound(s)
    ensures Sound(RemoveAll(s, false)) && Control(s, CloseAllClient) == RemoveAll(RemoveAll(s, false), true)
  {
    CloseAllArchive(s.clients);
  }

  // ---------- turns and runs ----------

  /** If accept is called, it returns a descriptor not in use. */
  predicate Usable(s: State, master: nat, a: Arrival, clean: bool) {
    master in s.sel.dup ==> Fresh(s, a) && (clean ==> Honest(a.incoming))
  }

  predicate Admissible(s: State, e: Input, clean: bool)
    requires Sound(s)
  {
    var s0 := s.(sel := Awaited(s.sel, e.ready));
    var s1 := AdmitIf(s0, s.masters.vhost, false, e.vhost);
    AdmitSound(s0, false, e.vhost);
    var s2 := AdmitIf(s1, s.masters.inet, false, e.inet);
    && Usable(s0, s.masters.vhost, e.vhost, clean)
    && Usable(s1, s.masters.inet, e.inet, clean)
    && Usable(s2, s.masters.spy, e.spy, clean)
  }

  predicate AllAdmissible(w: World, s: State, es: seq<Input>, clean: bool)
    requires Sound(s)
    decreases |es|
  {
    if es == [] then true
    else
      StepSound(w, s, es[0]);
      Admissible(s, es[0], clean) && AllAdmissible(w, Step(w, s, es[0]), es[1..], clean)
  }

  lemma AdmitIfKeeps(s: State, clean: bool, master: nat, spy: bool, a: Arrival)
    requires Inv(s, clean) && Usable(s, master, a, clean)
    ensures Inv(AdmitIf(s, master, spy, a), clean)
  {
    if master in s.sel.dup {
      AdmitKeeps(s, clean, spy, a);
    }
  }

  lemma AwaitKeeps(s: State, clean: bool, ready: set<nat>)
    requires Inv(s, clean)
    ensures Inv(s.(sel := Awaited(s.sel, ready)), clean)
  {
    assert Owned(s.(sel := Awaited(s.sel, ready))) == Owned(s);
    assert forall c :: 0 <= c < |s.net.chans| && Live(s.net.chans[c].log) ==> Carries(s.clients, c) || Carries(s.spies, c);
  }

  lemma AdmitAllKeeps(s: State, clean: bool, e: Input)
    requires Inv(s, clean)
    requires Usable(s, s.masters.vhost, e.vhost, clean)
    requires var s1 := AdmitIf(s, s.masters.vhost, false, e.vhost);
             Sound(s1) && Usable(s1, s.masters.inet, e.inet, clean) &&
             Usable(AdmitIf(s1, s.masters.inet, false, e.inet), s.masters.spy, e.spy, clean)
    ensures Inv(AdmitAll(s, e), clean)
  {
    var s1 := AdmitIf(s, s.masters.vhost, false, e.vhost);
    AdmitIfKeeps(s, clean, s.masters.vhost, false, e.vhost);
    var s2 := AdmitIf(s1, s.masters.inet, false, e.inet);
    AdmitIfKeeps(s1, clean, s.masters.inet, false, e.inet);
    AdmitIfKeeps(s2, clean, s.masters.spy, true, e.spy);
  }

  lemma PrologueKeeps(s: State, clean: bool, e: Input)
    requires Inv(s, clean) && Admissible(s, e, clean)
    ensures Inv(Prologue(s, e), clean)
  {
    var s0 := s.(sel := Awaited(s.sel, e.ready));
    AwaitKeeps(s, clean, e.ready);
    AdmitSound(s0, false, e.vhost);
    AdmitAllKeeps(s0, clean, e);
    ControlKeeps(AdmitAll(s0, e), clean, e.order);
  }

  lemma StepKeeps(w: World, s: State, clean: bool, e: Input)
    requires Inv(s, clean) && Admissible(s, e, clean)
    ensures Inv(Step(w, s, e), clean)
  {
    PrologueKeeps(s, clean, e);
    var s1 := Prologue(s, e);
    ForwardKeeps(w, s1, clean, false, 0);
    ForwardKeeps(w, Forward(w, s1, false, 0), clean, true, 0);
  }

  lemma RunUnfold(w: World, s: State, es: seq<Input>)
    requires Sound(s) && es != []
    ensures Sound(Step(w, s, es[0])) && Run(w, s, es) == Run(w, Step(w, s, es[0]), es[1..])
  {
    StepSound(w, s, es[0]);
  }

  lemma RunSuffix(w: World, s: State, es: seq<Input>, i: nat)
    requires Sound(s) && i < |es|
    ensures Sound(Step(w, s, es[i])) && Run(w, s, es[i..]) == Run(w, Step(w, s, es[i]), es[i + 1..])
  {
    RunUnfold(w, s, es[i..]);
    assert es[i..][0] == es[i] && es[i..][1..] == es[i + 1..];
  }

  /** The invariant at the head of every turn of every run. */
  lemma {:induction false} RunKeeps(w: World, s: State, clean: bool, es: seq<Input>)
    requires Inv(s, clean) && AllAdmissible(w, s, es, clean)
    ensures Inv(Run(w, s, es), clean)
    decreases |es|
  {
    if es != [] {
      StepKeeps(w, s, clean, es[0]);
      RunUnfold(w, s, es);
      RunKeeps(w, Step(w, s, es[0]), clean, es[1..]);
    }
  }

  predicate DistinctMasters(m: Masters) {
    m.vhost != m.inet && m.vhost != m.spy && m.vhost != m.ctrl && m.inet != m.spy && m.inet != m.ctrl && m.spy != m.ctrl
  }

  ghost predicate Holding(sel: Select, bag: multiset<nat>) {
    Agrees(sel) && multiset(sel.nodes) == bag
  }

  lemma AddHolding(sel: Select, bag: multiset<nat>, fd: nat)
    requires Holding(sel, bag) && fd !in bag
    ensures Holding(Added(sel, fd), bag + multiset{fd})
  {
    assert fd !in multiset(sel.nodes);
    AddAgrees(sel, fd);
  }

  lemma AddTwoHolding(sel: Select, bag: multiset<nat>, a: nat, b: nat)
    requires Holding(sel, bag) && a !in bag && b !in bag && a != b
    ensures Holding(Added(Added(sel, a), b), bag + multiset{a} + multiset{b})
  {
    AddHolding(sel, bag, a);
    AddHolding(Added(sel, a), bag + multiset{a}, b);
  }

  lemma StartSelect(m: Masters)
    requires DistinctMasters(m)
    ensures Holding(Start(m, false, []).sel, MasterBag(m))
  {
    var none := Select([], {}, {}, -1);
    var two, bag := Added(Added(none, m.vhost), m.inet), multiset{} + multiset{m.vhost} + multiset{m.inet};
    assert Holding(none, multiset{});
    AddTwoHolding(none, multiset{}, m.vhost, m.inet);
    AddTwoHolding(two, bag, m.spy, m.ctrl);
    assert bag + multiset{m.spy} + multiset{m.ctrl} == MasterBag(m);
  }

  lemma StartInv(m: Masters, loss: bool, draws: seq<nat>, clean: bool)
    requires DistinctMasters(m)
    ensures Inv(Start(m, loss, draws), clean)
  {
    StartSelect(m);
    var s := Start(m, loss, draws);
    assert Fds([]) == [];
    assert Owned(s) == MasterBag(m);
  }

  // ---------- what the invariant says ----------

  lemma {:induction false} SentWellFormed(log: seq<Event>)
    requires LogWellFormed(log)
    ensures AllWellFormed(SentFrames(log))
  {
    if log != [] {
      assert log[|log| - 1].Sent? ==> WellFormed(log[|log| - 1].frame);
      SentWellFormed(log[..|log| - 1]);
    }
  }

  /** What was written to a connection decodes to the frames that were sent whole, in order. */
  lemma WrittenDecodes(ch: Channel)
    requires ChanOk(ch, true)
    ensures AllWellFormed(SentFrames(ch.log))
    ensures ch.written == EncodeAll(SentFrames(ch.log)) + PartialBytes(ch.log)
    ensures Decode(ch.written) == Decoded(SentFrames(ch.log), PartialBytes(ch.log))
  {
    SentWellFormed(ch.log);
    WrittenShape(ch.log);
    PartialIncomplete(ch);
    DecodeOfEncode(SentFrames(ch.log), PartialBytes(ch.log));
  }

  lemma PartialIncomplete(ch: Channel)
    requires ChanOk(ch, true)
    ensures !Complete(PartialBytes(ch.log)) && Honest(PartialBytes(ch.log))
  {
    var n := |ch.log| - 1;
    if n >= 0 && ch.log[n].Broken? {
      CutFrameIncomplete(ch.log[n].frame, ch.log[n].cut);
    }
  }
}
