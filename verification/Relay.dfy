/**
  The whole server as one value, and what each part of its event loop does to it
  (src/vwifi-server.cc, the sending half of src/cwifiserver.cc, the orders of
  src/cctrlserver.cc). A descriptor that is not open fails every call, as EBADF does.
 */
module Relay {
  import opened Wire
  import opened Channels
  import opened Nets
  import opened Registry
  import opened Scheduler
  import opened Radio

  /** History : a frame that was received, and from which connection. */
  datatype Hearing = Hearing(conn: nat, frame: Frame)

  /** The listening descriptors. */
  datatype Masters = Masters(vhost: nat, inet: nat, spy: nat, ctrl: nat)

  /** Code outside the model : the mathematical functions, and libnl's reading of the frequency. */
  datatype World = World(maths: Maths, frequency: seq<byte> -> nat)

  datatype State = State(
    clients: Server,
    spies: Server,
    sel: Select,
    net: Net,
    masters: Masters,
    loss: bool,
    scale: real,
    draws: seq<nat>,
    heard: seq<Hearing>)

  function Side(s: State, spy: bool): Server {
    if spy then s.spies else s.clients
  }

  function WithSide(s: State, spy: bool, srv: Server): State {
    if spy then s.(spies := srv) else s.(clients := srv)
  }

  predicate Sound(s: State) {
    Valid(s.clients) && Valid(s.spies)
  }

  // ---------- fan-out ----------

  /** SendSignal to the entry at position `i`, which is disabled when the send fails. */
  function Offer(s: State, spy: bool, i: nat, f: Frame): State
    requires i < |Side(s, spy).socks|
  {
    var fd := Side(s, spy).socks[i].fd;
    if !Reaches(s.net, fd) then
      WithSide(s, spy, Disable(Side(s, spy), i))
    else
      var p := SendSignal(Chan(s.net, fd), f);
      var s1 := s.(net := WithChan(s.net, fd, p.chan));
      if p.ok then s1 else WithSide(s1, spy, Disable(Side(s1, spy), i))
  }

  /** Whom a frame is for : every entry but `skip`, at the original power or attenuated from `from`. */
  datatype Cast = Cast(spy: bool, skip: int, frame: Frame, from: Option<Coord>)

  /** The frame that entry `i` is offered. */
  function FrameFor(w: World, s: State, c: Cast, i: nat): Frame
    requires i < |Side(s, c.spy).infos|
  {
    if c.from.None? then c.frame
    else
      var d := Distance(w.maths, s.scale, c.from.value, Side(s, c.spy).infos[i].coo);
      Frame(Level(w.maths, c.frame.power, d, w.frequency(c.frame.msg)), c.frame.msg)
  }

  /** rand() */
  function FirstDraw(draws: seq<nat>): nat {
    if draws == [] then 0 else draws[0]
  }

  function NextDraws(draws: seq<nat>): seq<nat> {
    if draws == [] then [] else draws[1..]
  }

  /** One turn of the loops of the three SendAll functions; rand is called only when loss is enabled. */
  function FanOutAt(w: World, s: State, c: Cast, i: nat): State
    requires Aligned(Side(s, c.spy)) && i < |Side(s, c.spy).socks|
  {
    if i == c.skip || !Side(s, c.spy).socks[i].enabled then
      s
    else
      var f := FrameFor(w, s, c, i);
      if c.from.None? || !s.loss then
        Offer(s, c.spy, i, f)
      else
        var s1 := s.(draws := NextDraws(s.draws));
        if PacketIsLost(f.power, FirstDraw(s.draws)) then s1 else Offer(s1, c.spy, i, f)
  }

  function FanOut(w: World, s: State, c: Cast, i: nat): State
    requires Aligned(Side(s, c.spy)) && i <= |Side(s, c.spy).socks|
    decreases |Side(s, c.spy).socks| - i
  {
    if i == |Side(s, c.spy).socks| then s else FanOut(w, FanOutAt(w, s, c, i), c, i + 1)
  }

  // ---------- reading ----------

  /** CInfoSocket::Close : an enabled socket only. */
  function CloseFd(net: Net, sock: Sock): Net {
    if !sock.enabled || !Reaches(net, sock.fd) then net
    else
      var n := WithChan(net, sock.fd, Log(Chan(net, sock.fd), Closed));
      n.(open := n.open - {sock.fd})
  }

  /** RemoveClient */
  function Remove(s: State, spy: bool, i: nat): State
    requires Valid(Side(s, spy)) && i < |Side(s, spy).socks|
  {
    var sock := Side(s, spy).socks[i];
    WithSide(s, spy, Close(Side(s, spy), i)).(net := CloseFd(s.net, sock), sel := Removed(s.sel, sock.fd))
  }

  /** What recv leaves behind, with the reception logged when it is a frame. */
  function Received(ch: Channel): Channel {
    var r := Receive(ch);
    if r.valread > 0 then Log(r.chan, Got(Frame(r.power, r.data))) else r.chan
  }

  /** A frame of entry `i` for the others of its own side, attenuated between clients only. */
  function OwnCast(s: State, spy: bool, i: nat, f: Frame): Cast
    requires i < |Side(s, spy).infos|
  {
    Cast(spy, i, f, if spy then None else Some(Side(s, spy).infos[i].coo))
  }

  /** And for the other side. */
  function OtherCast(spy: bool, f: Frame): Cast {
    Cast(!spy, -1, f, None)
  }

  /** The two casts of a frame : the other entries of its own side, then the other side. */
  function Relayed(w: World, s: State, spy: bool, i: nat, f: Frame): State
    requires Sound(s) && i < |Side(s, spy).socks|
  {
    var s1 := FanOut(w, s, OwnCast(s, spy, i, f), 0);
    FanOutSound(w, s, OwnCast(s, spy, i, f), 0);
    FanOut(w, s1, OtherCast(spy, f), 0)
  }

  /** One turn of the loop of ForwardData. */
  function Visit(w: World, s: State, spy: bool, i: nat): State
    requires Sound(s) && i < |Side(s, spy).socks|
  {
    var sock := Side(s, spy).socks[i];
    if !sock.enabled then
      Remove(s, spy, i)
    else if sock.fd !in s.sel.dup then
      s
    else if !Reaches(s.net, sock.fd) then
      Remove(s, spy, i)
    else
      var r := Receive(Chan(s.net, sock.fd));
      var s1 := s.(net := WithChan(s.net, sock.fd, Received(Chan(s.net, sock.fd))));
      if r.valread <= 0 then
        Remove(s1, spy, i)
      else
        var f := Frame(r.power, r.data);
        Relayed(w, s1.(heard := s.heard + [Hearing(s.net.open[sock.fd], f)]), spy, i, f)
  }

  /** The visited entry is erased by this turn of the loop. */
  predicate Leaves(s: State, spy: bool, i: nat)
    requires i < |Side(s, spy).socks|
  {
    var sock := Side(s, spy).socks[i];
    || !sock.enabled
    || (sock.fd in s.sel.dup
        && (!Reaches(s.net, sock.fd) || Receive(Chan(s.net, sock.fd)).valread <= 0))
  }

  /** ForwardData : the index stays put when the entry at it was erased. */
  function Forward(w: World, s: State, spy: bool, i: nat): State
    requires Sound(s) && i <= |Side(s, spy).socks|
    decreases |Side(s, spy).socks| - i
  {
    if i == |Side(s, spy).socks| then s
    else
      VisitSound(w, s, spy, i);
      Forward(w, Visit(w, s, spy, i), spy, if Leaves(s, spy, i) then i else i + 1)
  }

  // ---------- shapes ----------

  predicate SameEntries(a: Server, b: Server) {
    && a.infos == b.infos && a.archive == b.archive && a.max == b.max
    && |a.socks| == |b.socks|
    && forall i :: 0 <= i < |a.socks| ==> a.socks[i].fd == b.socks[i].fd
  }

  /** Only flags, channels and draws may differ. */
  predicate SameShape(s: State, s': State) {
    && SameEntries(s.clients, s'.clients) && SameEntries(s.spies, s'.spies)
    && s'.net.open == s.net.open && |s'.net.chans| == |s.net.chans|
    && s' == s.(clients := s'.clients, spies := s'.spies, net := s'.net, draws := s'.draws)
  }

  lemma OfferShape(s: State, spy: bool, i: nat, f: Frame)
    requires i < |Side(s, spy).socks|
    ensures SameShape(s, Offer(s, spy, i, f))
  {
  }

  lemma FanOutAtShape(w: World, s: State, c: Cast, i: nat)
    requires Aligned(Side(s, c.spy)) && i < |Side(s, c.spy).socks|
    ensures SameShape(s, FanOutAt(w, s, c, i))
  {
    var f := FrameFor(w, s, c, i);
    OfferShape(s, c.spy, i, f);
    OfferShape(s.(draws := NextDraws(s.draws)), c.spy, i, f);
  }

  lemma ShapeTwice(s: State, s1: State, s': State)
    requires SameShape(s, s1) && SameShape(s1, s')
    ensures SameShape(s, s')
  {
  }

  lemma FanOutShape(w: World, s: State, c: Cast, i: nat)
    requires Aligned(Side(s, c.spy)) && i <= |Side(s, c.spy).socks|
    ensures SameShape(s, FanOut(w, s, c, i))
  {
    forall t: State, k: nat | SameShape(s, t) && Aligned(Side(t, c.spy)) && k < |Side(t, c.spy).socks|
      ensures SameShape(s, FanOutAt(w, t, c, k))
    {
      FanOutAtShape(w, t, c, k);
      ShapeTwice(s, t, FanOutAt(w, t, c, k));
    }
    FanOutInduct(w, s, c, i, (t: State) => SameShape(s, t));
  }

  lemma FanOutAtLength(w: World, s: State, c: Cast, i: nat)
    requires Aligned(Side(s, c.spy)) && i < |Side(s, c.spy).socks|
    ensures |Side(FanOutAt(w, s, c, i), c.spy).socks| == |Side(s, c.spy).socks|
  {
  }


  lemma FanOutUnfold(w: World, s: State, c: Cast, i: nat)
    requires Aligned(Side(s, c.spy)) && i < |Side(s, c.spy).socks|
    ensures Aligned(Side(FanOutAt(w, s, c, i), c.spy))
    ensures FanOut(w, s, c, i) == FanOut(w, FanOutAt(w, s, c, i), c, i + 1)
  {
  }

  /** What every turn of the loop keeps, the loop keeps. */
  lemma {:induction false} FanOutInduct(w: World, s: State, c: Cast, i: nat, P: State -> bool)
    requires Aligned(Side(s, c.spy)) && i <= |Side(s, c.spy).socks| && P(s)
    requires forall t: State, k: nat ::
               P(t) && Aligned(Side(t, c.spy)) && k < |Side(t, c.spy).socks| ==> P(FanOutAt(w, t, c, k))
    ensures P(FanOut(w, s, c, i))
    decreases |Side(s, c.spy).socks| - i
  {
    if i < |Side(s, c.spy).socks| {
      FanOutUnfold(w, s, c, i);
      FanOutAtLength(w, s, c, i);
      FanOutInduct(w, FanOutAt(w, s, c, i), c, i + 1, P);
    }
  }

  lemma FanOutSound(w: World, s: State, c: Cast, i: nat)
    requires Sound(s) && i <= |Side(s, c.spy).socks|
    ensures Sound(FanOut(w, s, c, i))
  {
    FanOutShape(w, s, c, i);
  }

  lemma RelayedShape(w: World, s: State, spy: bool, i: nat, f: Frame)
    requires Sound(s) && i < |Side(s, spy).socks|
    ensures SameShape(s, Relayed(w, s, spy, i, f)) && Sound(Relayed(w, s, spy, i, f))
  {
    var s1 := FanOut(w, s, OwnCast(s, spy, i, f), 0);
    FanOutShape(w, s, OwnCast(s, spy, i, f), 0);
    FanOutShape(w, s1, OtherCast(spy, f), 0);
  }

  lemma VisitSound(w: World, s: State, spy: bool, i: nat)
    requires Sound(s) && i < |Side(s, spy).socks|
    ensures Sound(Visit(w, s, spy, i))
    ensures |Side(Visit(w, s, spy, i), spy).socks| == |Side(s, spy).socks| - if Leaves(s, spy, i) then 1 else 0
  {
    var sock := Side(s, spy).socks[i];
    if !Leaves(s, spy, i) && sock.fd in s.sel.dup {
      var r := Receive(Chan(s.net, sock.fd));
      var s1 := s.(net := WithChan(s.net, sock.fd, Received(Chan(s.net, sock.fd))));
      var f := Frame(r.power, r.data);
      RelayedShape(w, s1.(heard := s.heard + [Hearing(s.net.open[sock.fd], f)]), spy, i, f);
    }
  }

  lemma ForwardUnfold(w: World, s: State, spy: bool, i: nat)
    requires Sound(s) && i < |Side(s, spy).socks|
    ensures var s' := Visit(w, s, spy, i); var i' := if Leaves(s, spy, i) then i else i + 1;
            Sound(s') && i' <= |Side(s', spy).socks| && Forward(w, s, spy, i) == Forward(w, s', spy, i')
  {
    VisitSound(w, s, spy, i);
  }

  /** What every visit of the loop keeps, the loop keeps. */
  lemma {:induction false} ForwardInduct(w: World, s: State, spy: bool, i: nat, P: State -> bool)
    requires Sound(s) && i <= |Side(s, spy).socks| && P(s)
    requires forall t: State, k: nat :: P(t) && Sound(t) && k < |Side(t, spy).socks| ==> P(Visit(w, t, spy, k))
    ensures P(Forward(w, s, spy, i))
    decreases |Side(s, spy).socks| - i
  {
    if i < |Side(s, spy).socks| {
      ForwardUnfold(w, s, spy, i);
      VisitSound(w, s, spy, i);
      ForwardInduct(w, Visit(w, s, spy, i), spy, if Leaves(s, spy, i) then i else i + 1, P);
    }
  }

  lemma {:induction false} ForwardSound(w: World, s: State, spy: bool, i: nat)
    requires Sound(s) && i <= |Side(s, spy).socks|
    ensures Sound(Forward(w, s, spy, i))
    decreases |Side(s, spy).socks| - i
  {
    if i < |Side(s, spy).socks| {
      VisitSound(w, s, spy, i);
      ForwardSound(w, Visit(w, s, spy, i), spy, if Leaves(s, spy, i) then i else i + 1);
    }
  }

  // ---------- arrivals and orders ----------

  /** What accept returns, and what the new peer is going to do. */
  datatype Arrival = Arrival(fd: nat, cid: nat, incoming: seq<byte>, chunks: seq<nat>, sends: seq<nat>)

  /** The entry whose place an arrival takes over, or the length of the list. */
  function TakenIndex(srv: Server, cid: nat): (e: nat)
    requires Aligned(srv)
    ensures e <= |srv.infos|
  {
    if Find(srv.archive, cid, 0) < |srv.archive| then |srv.infos|
    else FindEnabled(srv.socks, srv.infos, cid, 0)
  }

  /** The descriptor table with one more connection. */
  function Connect(s: State, a: Arrival): Net {
    Connected(s.net, a, |s.heard|)
  }

  function Connected(net: Net, a: Arrival, since: nat): Net {
    Net(net.chans + [Channel(a.incoming, a.chunks, a.sends, [], [], since)], net.open[a.fd := |net.chans|])
  }

  function LogAt(net: Net, fd: nat, e: Event): Net {
    if Reaches(net, fd) then WithChan(net, fd, Log(Chan(net, fd), e)) else net
  }

  /** CWifiServer::Accept followed by AddNode. */
  function Admit(s: State, spy: bool, a: Arrival): State
    requires Aligned(Side(s, spy))
  {
    var srv := Side(s, spy);
    var e := TakenIndex(srv, a.cid);
    var net := Connect(s, a);
    WithSide(s, spy, Accept(srv, a.fd, a.cid, |s.net.chans|)).(
      net := if e < |srv.infos| then LogAt(net, srv.socks[e].fd, TakenOver) else net,
      sel := Added(s.sel, a.fd))
  }

  datatype Order =
    | Ask                                // list, show, status, distance : nothing changes
    | Move(cid: nat, coo: Coord)
    | Rename(cid: nat, name: string)
    | PacketLoss(on: bool)
    | SetScale(scale: real)
    | CloseAllClient

  /** The spies are renamed among the connected ones only. */
  function RenameConnected(srv: Server, cid: nat, name: string): Server {
    var i := Find(srv.infos, cid, 0);
    if cid < TCID_GUEST_MIN || i == |srv.infos| then srv
    else srv.(infos := srv.infos[i := srv.infos[i].(name := Clip(name))])
  }

  predicate Known(srv: Server, cid: nat) {
    Find(srv.infos, cid, 0) < |srv.infos| || Find(srv.archive, cid, 0) < |srv.archive|
  }

  function RemovedAll(sel: Select, socks: seq<Sock>): Select
    decreases |socks|
  {
    if socks == [] then sel else RemovedAll(Removed(sel, socks[0].fd), socks[1..])
  }

  function CloseFds(net: Net, socks: seq<Sock>): Net
    decreases |socks|
  {
    if socks == [] then net else CloseFds(CloseFd(net, socks[0]), socks[1..])
  }

  /** The nodes are deleted first, then the clients are closed. */
  function RemoveAll(s: State, spy: bool): State
    requires Valid(Side(s, spy))
  {
    var srv := Side(s, spy);
    WithSide(s, spy, CloseAll(srv)).(
      sel := RemovedAll(s.sel, srv.socks),
      net := CloseFds(s.net, srv.socks))
  }

  /** The orders of CCTRLServer::ReceiveOrder. */
  function Control(s: State, o: Order): State
    requires Sound(s)
  {
    match o
    case Ask => s
    case Move(cid, coo) => s.(clients := SetCoordinate(s.clients, cid, coo))
    case Rename(cid, name) =>
      if Known(s.clients, cid) then s.(clients := SetName(s.clients, cid, name))
      else s.(spies := RenameConnected(s.spies, cid, name))
    case PacketLoss(on) => s.(loss := on)
    case SetScale(scale) => s.(scale := scale)
    case CloseAllClient =>
      var s1 := RemoveAll(s, false);
      CloseAllArchive(s.clients);
      RemoveAll(s1, true)
  }

  // ---------- the event loop ----------

  /** One turn : what pselect reports, who is accepted, which order is read. */
  datatype Input = Input(ready: set<nat>, vhost: Arrival, inet: Arrival, spy: Arrival, order: Order)

  function AdmitIf(s: State, master: nat, spy: bool, a: Arrival): State
    requires Sound(s)
  {
    if master in s.sel.dup then Admit(s, spy, a) else s
  }

  function ControlIf(s: State, o: Order): State
    requires Sound(s)
  {
    if s.masters.ctrl in s.sel.dup then Control(s, o) else s
  }

  lemma AdmitSound(s: State, spy: bool, a: Arrival)
    requires Sound(s)
    ensures Sound(Admit(s, spy, a))
  {
    AcceptEntries(Side(s, spy), a.fd, a.cid, |s.net.chans|);
  }

  lemma ControlSound(s: State, o: Order)
    requires Sound(s)
    ensures Sound(Control(s, o))
  {
    if o.CloseAllClient? {
      CloseAllArchive(s.clients);
      CloseAllArchive(s.spies);
    }
  }

  /** The three accepts of one turn. */
  function AdmitAll(s: State, e: Input): State
    requires Sound(s)
  {
    var s1 := AdmitIf(s, s.masters.vhost, false, e.vhost);
    AdmitSound(s, false, e.vhost);
    var s2 := AdmitIf(s1, s.masters.inet, false, e.inet);
    AdmitSound(s1, false, e.inet);
    AdmitIf(s2, s.masters.spy, true, e.spy)
  }

  lemma AdmitAllSound(s: State, e: Input)
    requires Sound(s)
    ensures Sound(AdmitAll(s, e))
  {
    AdmitSound(s, false, e.vhost);
    var s1 := AdmitIf(s, s.masters.vhost, false, e.vhost);
    AdmitSound(s1, false, e.inet);
    var s2 := AdmitIf(s1, s.masters.inet, false, e.inet);
    AdmitSound(s2, true, e.spy);
  }

  /** Wait, the accepts and the order. */
  function Prologue(s: State, e: Input): State
    requires Sound(s)
  {
    var s0 := s.(sel := Awaited(s.sel, e.ready));
    AdmitAllSound(s0, e);
    ControlIf(AdmitAll(s0, e), e.order)
  }

  lemma PrologueSound(s: State, e: Input)
    requires Sound(s)
    ensures Sound(Prologue(s, e))
  {
    var s0 := s.(sel := Awaited(s.sel, e.ready));
    AdmitAllSound(s0, e);
    ControlSound(AdmitAll(s0, e), e.order);
  }

  /** One turn of the event loop of vwifi_server. */
  function Step(w: World, s: State, e: Input): State
    requires Sound(s)
  {
    PrologueSound(s, e);
    var s1 := Prologue(s, e);
    ForwardSound(w, s1, false, 0);
    Forward(w, Forward(w, s1, false, 0), true, 0)
  }

  lemma StepSound(w: World, s: State, e: Input)
    requires Sound(s)
    ensures Sound(Step(w, s, e))
  {
    PrologueSound(s, e);
    var s1 := Prologue(s, e);
    ForwardSound(w, s1, false, 0);
    ForwardSound(w, Forward(w, s1, false, 0), true, 0);
  }

  /** Any number of turns. */
  function Run(w: World, s: State, es: seq<Input>): State
    requires Sound(s)
    decreases |es|
  {
    if es == [] then s
    else
      StepSound(w, s, es[0]);
      Run(w, Step(w, s, es[0]), es[1..])
  }

  const WIFI_MAX_DECONNECTED_CLIENT := 15

  /** The server when its loop begins. */
  function Start(m: Masters, loss: bool, draws: seq<nat>): State {
    var none := Select([], {}, {}, -1);
    State(Server([], [], [], WIFI_MAX_DECONNECTED_CLIENT), Server([], [], [], 1),
          Added(Added(Added(Added(none, m.vhost), m.inet), m.spy), m.ctrl),
          Net([], map[]), m, loss, 1.0, draws, [])
  }
}
