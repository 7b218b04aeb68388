/**
  The records of the running server can always be listed : in every run their names are at most 12
  characters long with no NUL inside, and spies stay where they are. So it is known, for the lists
  as they are when an order arrives, when the answer to "ls" is read back as it was meant.
 */
module RelayListing {
  import opened Wire
  import opened Channels
  import opened Nets
  import opened Registry
  import opened Relay
  import opened RelayRuns
  import opened RelayRegistry
  import C = ControlList

  /** A record that can be listed; no order moves a spy. */
  predicate Fine(x: Info, spy: bool) {
    C.Sendable(x) && x.cid != 0 && (spy ==> x.coo == Coord(0, 0, 0))
  }

  predicate AllFine(infos: seq<Info>, spy: bool) {
    forall i :: 0 <= i < |infos| ==> Fine(infos[i], spy)
  }

  predicate Tidy(srv: Server, spy: bool) {
    AllFine(srv.infos, spy) && AllFine(srv.archive, spy)
  }

  predicate Printable(s: State) {
    Tidy(s.clients, false) && Tidy(s.spies, true)
  }

  // ---------- the operations of the registry ----------

  lemma ClipText(name: string)
    requires C.IsText(name)
    ensures C.IsText(Clip(name)) && |Clip(name)| <= MAX_SIZE_NAME
  {
  }

  lemma EraseFine(infos: seq<Info>, i: nat, spy: bool)
    requires AllFine(infos, spy) && i < |infos|
    ensures AllFine(Erase(infos, i), spy)
  {
  }

  lemma PushFine(archive: seq<Info>, max: nat, x: Info, spy: bool)
    requires 1 <= max && AllFine(archive, spy) && Fine(x, spy)
    ensures AllFine(Push(archive, max, x), spy)
  {
  }

  lemma CloseTidy(srv: Server, i: nat, spy: bool)
    requires Valid(srv) && Tidy(srv, spy) && i < |srv.socks|
    ensures Tidy(Close(srv, i), spy)
  {
    EraseFine(srv.infos, i, spy);
    PushFine(srv.archive, srv.max, srv.infos[i], spy);
  }

  lemma EnrollTidy(srv: Server, cid: nat, conn: int, coo: Coord, name: string, spy: bool)
    requires Tidy(srv, spy) && Fine(Info(cid, coo, name, conn), spy)
    ensures Tidy(Enroll(srv, cid, conn, coo, name), spy)
  {
  }

  lemma AcceptTidy(srv: Server, fd: nat, cid: nat, conn: int, spy: bool)
    requires Aligned(srv) && Tidy(srv, spy) && 0 < cid < C.U32_LIMIT
    ensures Tidy(Accept(srv, fd, cid, conn), spy)
  {
    var joined := srv.(socks := srv.socks + [Sock(fd, true)]);
    var a, e := Find(srv.archive, cid, 0), FindEnabled(joined.socks, joined.infos, cid, 0);
    if a < |srv.archive| {
      EraseFine(srv.archive, a, spy);
      EnrollTidy(joined.(archive := Erase(srv.archive, a)), cid, conn, srv.archive[a].coo, srv.archive[a].name, spy);
    } else if e < |srv.infos| {
      EnrollTidy(Disable(joined, e), cid, conn, srv.infos[e].coo, srv.infos[e].name, spy);
    } else {
      EnrollTidy(joined, cid, conn, Coord(0, 0, 0), "", spy);
    }
  }

  lemma CloseAllTidy(srv: Server, spy: bool)
    requires Valid(srv) && Tidy(srv, spy)
    ensures Tidy(CloseAll(srv), spy)
  {
    CloseAllArchive(srv);
  }

  lemma MoveTidy(srv: Server, cid: nat, coo: Coord)
    requires Valid(srv) && Tidy(srv, false) && C.Sendable(Info(cid, coo, "", -1))
    ensures Tidy(SetCoordinate(srv, cid, coo), false)
  {
    if TCID_GUEST_MIN <= cid {
      PushFine(srv.archive, srv.max, Info(cid, coo, "", -1), false);
    }
  }

  lemma RenameTidy(srv: Server, cid: nat, name: string, spy: bool)
    requires Tidy(srv, spy) && C.IsText(name)
    ensures Tidy(SetName(srv, cid, name), spy) && Tidy(RenameConnected(srv, cid, name), spy)
  {
    ClipText(name);
  }

  // ---------- the event loop ----------

  lemma RemoveTidy(s: State, spy: bool, i: nat)
    requires Sound(s) && Printable(s) && i < |Side(s, spy).socks|
    ensures Printable(Remove(s, spy, i))
  {
    CloseTidy(Side(s, spy), i, spy);
  }

  lemma ShapeTidy(s: State, s': State)
    requires SameShape(s, s') && Printable(s)
    ensures Printable(s')
  {
  }

  lemma VisitTidy(w: World, s: State, spy: bool, i: nat)
    requires Sound(s) && Printable(s) && i < |Side(s, spy).socks|
    ensures Printable(Visit(w, s, spy, i))
  {
    RemoveTidy(s, spy, i);
    var sock := Side(s, spy).socks[i];
    if sock.enabled && sock.fd in s.sel.dup && Reaches(s.net, sock.fd) {
      var r := Receive(Chan(s.net, sock.fd));
      var s1 := s.(net := WithChan(s.net, sock.fd, Received(Chan(s.net, sock.fd))));
      var f := Frame(r.power, r.data);
      var s2 := s1.(heard := s.heard + [Hearing(s.net.open[sock.fd], f)]);
      RemoveTidy(s1, spy, i);
      RelayedShape(w, s2, spy, i, f);
      ShapeTidy(s2, Relayed(w, s2, spy, i, f));
    }
  }

  lemma ForwardTidy(w: World, s: State, spy: bool, i: nat)
    requires Sound(s) && Printable(s) && i <= |Side(s, spy).socks|
    ensures Printable(Forward(w, s, spy, i))
  {
    forall t: State, k: nat | Printable(t) && Sound(t) && k < |Side(t, spy).socks| ensures Printable(Visit(w, t, spy, k)) {
      VisitTidy(w, t, spy, k);
    }
    ForwardInduct(w, s, spy, i, (t: State) => Printable(t));
  }

  /** What the types of the wire give : a 32-bit CID, which no party has zero for, 32-bit coordinates, a C string. */
  predicate Plain(e: Input) {
    && 0 < e.vhost.cid < C.U32_LIMIT && 0 < e.inet.cid < C.U32_LIMIT && 0 < e.spy.cid < C.U32_LIMIT
    && (e.order.Move? ==> C.Sendable(Info(e.order.cid, e.order.coo, "", -1)))
    && (e.order.Rename? ==> C.IsText(e.order.name))
  }

  lemma AdmitIfTidy(s: State, master: nat, spy: bool, a: Arrival)
    requires Sound(s) && Printable(s) && 0 < a.cid < C.U32_LIMIT
    ensures Printable(AdmitIf(s, master, spy, a))
  {
    AcceptTidy(Side(s, spy), a.fd, a.cid, |s.net.chans|, spy);
  }

  lemma ControlTidy(s: State, o: Order)
    requires Sound(s) && Printable(s)
    requires o.Move? ==> C.Sendable(Info(o.cid, o.coo, "", -1))
    requires o.Rename? ==> C.IsText(o.name)
    ensures Printable(Control(s, o))
  {
    match o
    case Move(cid, coo) => MoveTidy(s.clients, cid, coo);
    case Rename(cid, name) =>
      RenameTidy(s.clients, cid, name, false);
      RenameTidy(s.spies, cid, name, true);
    case CloseAllClient =>
      CloseAllUnfold(s);
      CloseAllTidy(s.clients, false);
      CloseAllTidy(s.spies, true);
    case _ =>
  }

  lemma AdmitAllTidy(s: State, e: Input)
    requires Sound(s) && Printable(s) && Plain(e)
    ensures Printable(AdmitAll(s, e))
  {
    AdmitSound(s, false, e.vhost);
    AdmitIfTidy(s, s.masters.vhost, false, e.vhost);
    var s1 := AdmitIf(s, s.masters.vhost, false, e.vhost);
    AdmitSound(s1, false, e.inet);
    AdmitIfTidy(s1, s.masters.inet, false, e.inet);
    AdmitIfTidy(AdmitIf(s1, s.masters.inet, false, e.inet), s.masters.spy, true, e.spy);
  }

  lemma PrologueTidy(s: State, e: Input)
    requires Sound(s) && Printable(s) && Plain(e)
    ensures Printable(Prologue(s, e))
  {
    var s0 := s.(sel := Scheduler.Awaited(s.sel, e.ready));
    AdmitAllTidy(s0, e);
    AdmitAllSound(s0, e);
    ControlTidy(AdmitAll(s0, e), e.order);
  }

  lemma StepTidy(w: World, s: State, e: Input)
    requires Sound(s) && Printable(s) && Plain(e)
    ensures Printable(Step(w, s, e))
  {
    PrologueSound(s, e);
    PrologueTidy(s, e);
    var s1 := Prologue(s, e);
    ForwardSound(w, s1, false, 0);
    ForwardTidy(w, s1, false, 0);
    ForwardTidy(w, Forward(w, s1, false, 0), true, 0);
  }

  lemma {:induction false} RunTidy(w: World, s: State, es: seq<Input>)
    requires Sound(s) && Printable(s) && forall i :: 0 <= i < |es| ==> Plain(es[i])
    ensures Sound(Run(w, s, es)) && Printable(Run(w, s, es))
    decreases |es|
  {
    if es != [] {
      StepTidy(w, s, es[0]);
      RunUnfold(w, s, es);
      RunTidy(w, Step(w, s, es[0]), es[1..]);
    }
  }

  // ---------- the answer to "ls" ----------

  /** The server when the order of a turn arrives : after its wait and its accepts. */
  function Ordered(s: State, e: Input): State
    requires Sound(s)
  {
    AdmitAll(s.(sel := Scheduler.Awaited(s.sel, e.ready)), e)
  }

  lemma OrderedTidy(w: World, s: State, es: seq<Input>, e: Input)
    requires Sound(s) && Printable(s) && Plain(e) && forall i :: 0 <= i < |es| ==> Plain(es[i])
    ensures Sound(Run(w, s, es)) && Sound(Ordered(Run(w, s, es), e)) && Printable(Ordered(Run(w, s, es), e))
  {
    RunTidy(w, s, es);
    var s0 := Run(w, s, es).(sel := Scheduler.Awaited(Run(w, s, es).sel, e.ready));
    AdmitAllSound(s0, e);
    AdmitAllTidy(s0, e);
  }

  predicate Counted(s: State) {
    |s.spies.infos| < C.U32_LIMIT && |s.clients.infos| < C.U32_LIMIT
  }

  lemma PrintableLists(s: State)
    requires Sound(s) && Printable(s) && Counted(s)
    ensures C.Listable(s.spies) && C.NonZero(s.spies.infos) && C.AtOrigin(s.spies.infos)
    ensures C.Listable(s.clients) && C.NonZero(s.clients.infos)
  {
    assert forall i :: 0 <= i < |s.spies.infos| ==> Fine(s.spies.infos[i], true);
    assert forall i :: 0 <= i < |s.clients.infos| ==> Fine(s.clients.infos[i], false);
  }

  /** In every turn of every run, if no entry is disabled when the order arrives, "ls" is read back exactly. */
  lemma ServerIsListed(w: World, m: Masters, loss: bool, draws: seq<nat>, es: seq<Input>, e: Input, stack: C.Stack)
    requires Plain(e) && forall i :: 0 <= i < |es| ==> Plain(es[i])
    requires var s := Run(w, Start(m, loss, draws), es);
             && Sound(s) && Counted(Ordered(s, e))
             && C.AllEnabled(Ordered(s, e).spies) && C.AllEnabled(Ordered(s, e).clients)
    ensures var s := Ordered(Run(w, Start(m, loss, draws), es), e);
            && C.Listable(s.spies) && C.Listable(s.clients)
            && C.Right(C.RecordReader(stack), s.spies, s.clients, stack)
  {
    OrderedTidy(w, Start(m, loss, draws), es, e);
    var s := Ordered(Run(w, Start(m, loss, draws), es), e);
    PrintableLists(s);
    C.ListRoundTrip(s.spies, s.clients, stack);
  }

  lemma DistinctOfGood(srv: Server)
    requires M.Good(srv)
    ensures C.DistinctCids(srv.infos)
  {
    forall i, j | 0 <= i < j < |srv.infos| ensures srv.infos[i].cid != srv.infos[j].cid {
      assert M.Held(srv)[srv.infos[i].cid] <= 1;
      if srv.infos[i].cid == srv.infos[j].cid {
        M.CountTwo(srv.infos, i, j);
        assert false;
      }
    }
  }

  /** Nor is a CID of this side accepted in the turn of the order while an entry carries it. */
  predicate CleanTurn(s: State, e: Input, side: bool)
    requires Sound(s)
  {
    var s0 := s.(sel := Scheduler.Awaited(s.sel, e.ready));
    AdmitAllTraced(s0, e, side);
    M.Clean(Side(s0, side), AdmitAllOps(s0, e, side))
  }

  lemma OrderedGood(w: World, s: State, es: seq<Input>, e: Input, side: bool)
    requires Sound(s) && M.Good(Side(s, side)) && CleanRun(w, s, es, side)
    requires Sound(Run(w, s, es)) && CleanTurn(Run(w, s, es), e, side)
    ensures M.Good(Side(Ordered(Run(w, s, es), e), side))
  {
    RunMap(w, s, es, side, 0);
    var s1 := Run(w, s, es);
    var s0 := s1.(sel := Scheduler.Awaited(s1.sel, e.ready));
    AdmitAllTraced(s0, e, side);
    M.RunIsMap(Side(s0, side), AdmitAllOps(s0, e, side), 0);
  }

  /** No CID of a spy is accepted while a spy carries it, in the run or in the turn of the order. */
  predicate CleanSpies(w: World, s: State, es: seq<Input>, e: Input)
    requires Sound(s)
  {
    CleanRun(w, s, es, true) && Sound(Run(w, s, es)) && CleanTurn(Run(w, s, es), e, true)
  }

  /** When "ls" is read back right. */
  predicate Listed(s: State)
    requires Aligned(s.clients)
  {
    C.AllEnabled(s.spies) && C.Settled(s.clients, C.LastOf(C.AllEntries(s.spies.infos), C.NOTHING))
  }

  lemma OrderedListedExactly(w: World, s: State, es: seq<Input>, e: Input, stack: C.Stack)
    requires Sound(s) && Printable(s) && M.Good(s.spies)
    requires Plain(e) && (forall i :: 0 <= i < |es| ==> Plain(es[i])) && CleanSpies(w, s, es, e)
    requires Counted(Ordered(Run(w, s, es), e))
    ensures var t := Ordered(Run(w, s, es), e);
            && C.Listable(t.spies) && C.Listable(t.clients)
            && (C.Right(C.RecordReader(stack), t.spies, t.clients, stack) <==> Listed(t))
  {
    OrderedTidy(w, s, es, e);
    OrderedGood(w, s, es, e, true);
    var t := Ordered(Run(w, s, es), e);
    PrintableLists(t);
    DistinctOfGood(t.spies);
    C.ListRightExactly(t.spies, t.clients, stack);
  }

  lemma StartFine(m: Masters, loss: bool, draws: seq<nat>)
    ensures var s := Start(m, loss, draws); Sound(s) && Printable(s) && M.Good(s.spies)
  {
    StartGood(m, loss, draws, true, 0);
  }

  /**
    In every turn of every run with clean spies, whatever becomes of the clients, "ls" is read back
    right if and only if, when the order arrives, no spy is disabled and every client from the first
    disabled one on has the record that is read last.
   */
  lemma ServerListedExactly(w: World, m: Masters, loss: bool, draws: seq<nat>, es: seq<Input>, e: Input, stack: C.Stack)
    requires Plain(e) && (forall i :: 0 <= i < |es| ==> Plain(es[i])) && CleanSpies(w, Start(m, loss, draws), es, e)
    requires Counted(Ordered(Run(w, Start(m, loss, draws), es), e))
    ensures var t := Ordered(Run(w, Start(m, loss, draws), es), e);
            && C.Listable(t.spies) && C.Listable(t.clients)
            && (C.Right(C.RecordReader(stack), t.spies, t.clients, stack) <==> Listed(t))
  {
    StartFine(m, loss, draws);
    OrderedListedExactly(w, Start(m, loss, draws), es, e, stack);
  }
}
