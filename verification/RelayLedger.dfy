/**
  Conservation over whole runs : what a party still connected has been sent is what the relay
  received from everyone else since it was accepted, thinned out for clients if loss is enabled.
 */
module RelayLedger {
  import opened Wire
  import opened Channels
  import opened Nets
  import opened Registry
  import opened Radio
  import opened Scheduler
  import opened Relay
  import opened RelayInvariant
  import opened RelayRuns
  import opened RelayFanOut

  /** The frames received from connections other than `c`, in order. */
  function Others(hs: seq<Hearing>, c: nat): seq<Frame> {
    if hs == [] then []
    else
      var last := hs[|hs| - 1];
      Others(hs[..|hs| - 1], c) + if last.conn == c then [] else [last.frame]
  }

  /** The frames without their powers. */
  function Messages(fs: seq<Frame>): seq<seq<byte>> {
    seq(|fs|, i requires 0 <= i < |fs| => fs[i].msg)
  }

  /** `a` is `b` without some of its elements : in order, none of them twice. */
  predicate Subsequence<T(==)>(a: seq<T>, b: seq<T>)
    decreases |b|
  {
    a == [] ||
    (b != [] &&
     ((a[|a| - 1] == b[|b| - 1] && Subsequence(a[..|a| - 1], b[..|b| - 1])) || Subsequence(a, b[..|b| - 1])))
  }

  /** How closely what was sent follows what is due. */
  datatype Mode =
    | Exact      // all of it, powers included
    | Apart      // all of it, powers apart
    | Thinned    // a part of it, powers apart

  predicate Matches(sent: seq<Frame>, due: seq<Frame>, mode: Mode) {
    match mode
    case Exact => sent == due
    case Apart => Messages(sent) == Messages(due)
    case Thinned => Subsequence(Messages(sent), Messages(due))
  }

  /** What the connection has been sent, against what was received from the others since it was accepted. */
  predicate Balanced(heard: seq<Hearing>, ch: Channel, c: nat, mode: Mode) {
    ch.since <= |heard| && Matches(SentFrames(ch.log), Others(heard[ch.since..], c), mode)
  }

  predicate SideBalanced(s: State, spy: bool, mode: Mode) {
    forall j :: 0 <= j < |Side(s, spy).socks| ==> EntryBalanced(s, Side(s, spy).socks[j], mode)
  }

  predicate EntryBalanced(s: State, sock: Sock, mode: Mode) {
    sock.enabled && Reaches(s.net, sock.fd) ==> Balanced(s.heard, Chan(s.net, sock.fd), s.net.open[sock.fd], mode)
  }

  function ClientMode(quiet: bool): Mode {
    if quiet then Apart else Thinned
  }

  /** The spies get everything, powers included; the clients too, powers apart, as long as loss stays disabled. */
  predicate Ledger(s: State, quiet: bool) {
    SideBalanced(s, true, Exact) && SideBalanced(s, false, ClientMode(quiet)) && (quiet ==> !s.loss)
  }

  // ---------- one frame ----------

  lemma OthersStep(hs: seq<Hearing>, h: Hearing, c: nat)
    ensures Others(hs + [h], c) == Others(hs, c) + if h.conn == c then [] else [h.frame]
  {
    assert (hs + [h])[..|hs|] == hs;
  }

  lemma MessagesAppend(fs: seq<Frame>, f: Frame)
    ensures Messages(fs + [f]) == Messages(fs) + [f.msg]
  {
  }

  lemma SubsequenceSkip<T>(a: seq<T>, b: seq<T>, x: T)
    requires Subsequence(a, b)
    ensures Subsequence(a, b + [x])
  {
    assert (b + [x])[..|b|] == b;
  }

  lemma SubsequenceTake<T>(a: seq<T>, b: seq<T>, x: T)
    requires Subsequence(a, b)
    ensures Subsequence(a + [x], b + [x])
  {
    assert (a + [x])[..|a|] == a && (b + [x])[..|b|] == b;
  }

  /** A frame of its own does not count for its sender. */
  lemma BalancedSender(heard: seq<Hearing>, ch: Channel, ch': Channel, c: nat, f: Frame, mode: Mode)
    requires Balanced(heard, ch, c, mode) && ch'.log == ch.log + [Got(f)] && ch'.since == ch.since
    ensures Balanced(heard + [Hearing(c, f)], ch', c, mode)
  {
    var h := Hearing(c, f);
    assert (heard + [h])[ch.since..] == heard[ch.since..] + [h];
    OthersStep(heard[ch.since..], h, c);
    LogStep(ch.log, Got(f));
    assert SentFrames(ch.log) + [] == SentFrames(ch.log);
    assert Others(heard[ch.since..], c) + [] == Others(heard[ch.since..], c);
  }

  /** A frame of someone else is matched by one frame sent. */
  lemma BalancedOther(heard: seq<Hearing>, ch: Channel, ch': Channel, c: nat, h: Hearing, g: Frame, mode: Mode)
    requires Balanced(heard, ch, c, mode) && ch'.log == ch.log + [Sent(g)] && ch'.since == ch.since
    requires h.conn != c && g.msg == h.frame.msg && (mode.Exact? ==> g == h.frame)
    ensures Balanced(heard + [h], ch', c, mode)
  {
    var sent, due := SentFrames(ch.log), Others(heard[ch.since..], c);
    assert (heard + [h])[ch.since..] == heard[ch.since..] + [h];
    OthersStep(heard[ch.since..], h, c);
    LogStep(ch.log, Sent(g));
    MessagesAppend(sent, g);
    MessagesAppend(due, h.frame);
    if mode.Thinned? {
      SubsequenceTake(Messages(sent), Messages(due), g.msg);
    }
  }

  /** A frame that was lost may be missing where that is allowed. */
  lemma BalancedLost(heard: seq<Hearing>, ch: Channel, c: nat, h: Hearing)
    requires Balanced(heard, ch, c, Thinned)
    ensures Balanced(heard + [h], ch, c, Thinned)
  {
    var due := Others(heard[ch.since..], c);
    assert (heard + [h])[ch.since..] == heard[ch.since..] + [h];
    OthersStep(heard[ch.since..], h, c);
    MessagesAppend(due, h.frame);
    SubsequenceSkip(Messages(SentFrames(ch.log)), Messages(due), h.frame.msg);
    assert due + [] == due;
  }

  /** The entry of a party that is not the sender, before and after the two casts. */
  lemma EntryRelayed(w: World, s: State, sH: State, s': State, c: Cast, j: nat, h: Hearing, mode: Mode)
    requires j < |Side(sH, c.spy).socks| && Aligned(Side(sH, c.spy)) && SameShape(sH, s')
    requires j < |Side(s, c.spy).socks| && Side(sH, c.spy).socks[j] == Side(s, c.spy).socks[j]
    requires Reaches(sH.net, Side(sH, c.spy).socks[j].fd) && Reaches(s.net, Side(s, c.spy).socks[j].fd)
    requires sH.net.open == s.net.open && Chan(sH.net, Side(s, c.spy).socks[j].fd) == Chan(s.net, Side(s, c.spy).socks[j].fd)
    requires sH.heard == s.heard + [h] && h.frame == c.frame && h.conn != ConnAt(s, c.spy, j)
    requires Outcome(w, sH, s', c, 0, j) && j != c.skip
    requires (mode.Exact? ==> c.from.None?) && (mode.Apart? ==> !sH.loss)
    requires EntryBalanced(s, Side(s, c.spy).socks[j], mode)
    ensures EntryBalanced(s', Side(s', c.spy).socks[j], mode)
  {
    var sock := Side(s, c.spy).socks[j];
    if sock.enabled {
      var ch, g := Chan(s.net, sock.fd), FrameFor(w, sH, c, j);
      if c.from.Some? && sH.loss && PacketIsLost(g.power, DrawFor(sH, c, 0, j)) {
        BalancedLost(s.heard, ch, ConnAt(s, c.spy, j), h);
      } else {
        var p := SendSignal(ch, g);
        SendSignalLaw(ch, g);
        if p.ok {
          BalancedOther(s.heard, ch, p.chan, ConnAt(s, c.spy, j), h, g, mode);
        }
      }
    }
  }

  lemma SenderRelayed(w: World, s: State, s': State, spy: bool, i: nat, mode: Mode)
    requires i < |Side(s, spy).socks| && Side(s, spy).socks[i].enabled && Reaches(s.net, Side(s, spy).socks[i].fd)
    requires Receive(Chan(s.net, Side(s, spy).socks[i].fd)).valread > 0
    requires SameShape(Heard(s, spy, i), s') && Untouched(Heard(s, spy, i), s', spy, i)
    requires EntryBalanced(s, Side(s, spy).socks[i], mode)
    ensures EntryBalanced(s', Side(s', spy).socks[i], mode)
  {
    var fd := Side(s, spy).socks[i].fd;
    var ch := Chan(s.net, fd);
    ReceivedHistory(ch);
    BalancedSender(s.heard, ch, Received(ch), s.net.open[fd], Frame(Receive(ch).power, Receive(ch).data), mode);
  }

  /** The channels of the entries that were not read are as they were. */
  lemma HeardElse(s: State, spy: bool, i: nat, side: bool, j: nat)
    requires Inv(s, false) && i < |Side(s, spy).socks| && Reaches(s.net, Side(s, spy).socks[i].fd)
    requires j < |Side(s, side).socks| && (side != spy || i != j)
    ensures Reaches(s.net, Side(s, side).socks[j].fd)
    ensures Chan(Heard(s, spy, i).net, Side(s, side).socks[j].fd) == Chan(s.net, Side(s, side).socks[j].fd)
    ensures ConnAt(s, spy, i) != ConnAt(s, side, j)
  {
    ConnsDiffer(s, spy, i, side, j);
  }

  lemma SideRelayed(w: World, s: State, spy: bool, i: nat, side: bool, j: nat, mode: Mode)
    requires Inv(s, false) && i < |Side(s, spy).socks| && Side(s, spy).socks[i].enabled
    requires Reaches(s.net, Side(s, spy).socks[i].fd) && Receive(Chan(s.net, Side(s, spy).socks[i].fd)).valread > 0
    requires SideBalanced(s, side, mode) && j < |Side(s, side).socks|
    requires (mode.Exact? ==> side) && (mode.Apart? ==> !s.loss)
    ensures var r := Receive(Chan(s.net, Side(s, spy).socks[i].fd)); var f := Frame(r.power, r.data);
            var s' := Relayed(w, Heard(s, spy, i), spy, i, f);
            |Side(s', side).socks| == |Side(s, side).socks| && EntryBalanced(s', Side(s', side).socks[j], mode)
  {
    var ch := Chan(s.net, Side(s, spy).socks[i].fd);
    var f, sH := Frame(Receive(ch).power, Receive(ch).data), Heard(s, spy, i);
    var s' := Relayed(w, sH, spy, i, f);
    HeardInv(s, false, spy, i);
    RelayedExact(w, sH, spy, i, f, side, j);
    assert EntryBalanced(s, Side(s, side).socks[j], mode);
    if side == spy && j == i {
      SenderRelayed(w, s, s', spy, i, mode);
    } else {
      HeardElse(s, spy, i, side, j);
      var c := if side == spy then OwnCast(sH, spy, i, f) else OtherCast(spy, f);
      EntryRelayed(w, s, sH, s', c, j, Hearing(s.net.open[Side(s, spy).socks[i].fd], f), mode);
    }
  }

  // ---------- the other operations ----------

  /** An entry keeps its balance when its channel and the record of receptions are the same. */
  lemma EntrySame(s: State, s': State, sock: Sock, mode: Mode)
    requires EntryBalanced(s, sock, mode) && s'.heard == s.heard
    requires Reaches(s'.net, sock.fd) ==>
               Reaches(s.net, sock.fd) && s'.net.open[sock.fd] == s.net.open[sock.fd]
               && Chan(s'.net, sock.fd) == Chan(s.net, sock.fd)
    ensures EntryBalanced(s', sock, mode)
  {
  }

  lemma RemoveBalanced(s: State, spy: bool, i: nat, ch: Channel, side: bool, mode: Mode)
    requires Inv(s, false) && i < |Side(s, spy).socks| && Reaches(s.net, Side(s, spy).socks[i].fd)
    requires SideBalanced(s, side, mode)
    ensures SideBalanced(Remove(s.(net := WithChan(s.net, Side(s, spy).socks[i].fd, ch)), spy, i), side, mode)
  {
    var s1 := s.(net := WithChan(s.net, Side(s, spy).socks[i].fd, ch));
    var s' := Remove(s1, spy, i);
    RemoveSocks(s1, spy, i, side);
    forall k | 0 <= k < |Side(s, side).socks| && (side == spy ==> k != i)
      ensures EntryBalanced(s', Side(s, side).socks[k], mode)
    {
      OtherBalanced(s, spy, i, ch, side, k, mode);
    }
    LeftBalanced(s', Side(s, side).socks, if side == spy then i else |Side(s, side).socks|, side, mode);
  }

  /** A list balances when every entry it was made from does, but the erased one. */
  lemma LeftBalanced(s: State, socks: seq<Sock>, i: nat, side: bool, mode: Mode)
    requires Side(s, side).socks == if i < |socks| then Erase(socks, i) else socks
    requires forall k :: 0 <= k < |socks| && k != i ==> EntryBalanced(s, socks[k], mode)
    ensures SideBalanced(s, side, mode)
  {
    forall j | 0 <= j < |Side(s, side).socks| ensures EntryBalanced(s, Side(s, side).socks[j], mode) {
      assert Side(s, side).socks[j] == socks[if i <= j then j + 1 else j];
    }
  }

  lemma RemoveSocks(s: State, spy: bool, i: nat, side: bool)
    requires Valid(Side(s, spy)) && i < |Side(s, spy).socks|
    ensures Side(Remove(s, spy, i), side).socks
         == if side == spy then Erase(Side(s, side).socks, i) else Side(s, side).socks
  {
  }

  lemma OtherBalanced(s: State, spy: bool, i: nat, ch: Channel, side: bool, k: nat, mode: Mode)
    requires Inv(s, false) && i < |Side(s, spy).socks| && Reaches(s.net, Side(s, spy).socks[i].fd)
    requires SideBalanced(s, side, mode) && k < |Side(s, side).socks| && (side == spy ==> k != i)
    ensures var s1 := s.(net := WithChan(s.net, Side(s, spy).socks[i].fd, ch));
            EntryBalanced(Remove(s1, spy, i), Side(s, side).socks[k], mode)
  {
    var s1 := s.(net := WithChan(s.net, Side(s, spy).socks[i].fd, ch));
    assert EntryBalanced(s, Side(s, side).socks[k], mode);
    ConnsDiffer(s, spy, i, side, k);
    RemoveElse(s1, spy, i, Side(s, side).socks[k].fd);
    EntrySame(s, Remove(s1, spy, i), Side(s, side).socks[k], mode);
  }

  lemma RemoveElse(s: State, spy: bool, i: nat, fd: nat)
    requires Valid(Side(s, spy)) && i < |Side(s, spy).socks|
    requires Reaches(s.net, Side(s, spy).socks[i].fd) && Reaches(s.net, fd) && s.net.open[fd] != ConnAt(s, spy, i)
    ensures var s' := Remove(s, spy, i);
            Reaches(s'.net, fd) && s'.net.open[fd] == s.net.open[fd] && Chan(s'.net, fd) == Chan(s.net, fd) && s'.heard == s.heard
  {
  }

  lemma RemoveLedger(s: State, quiet: bool, spy: bool, i: nat, ch: Channel)
    requires Inv(s, false) && i < |Side(s, spy).socks| && Reaches(s.net, Side(s, spy).socks[i].fd)
    requires Ledger(s, quiet)
    ensures Ledger(Remove(s.(net := WithChan(s.net, Side(s, spy).socks[i].fd, ch)), spy, i), quiet)
  {
    RemoveBalanced(s, spy, i, ch, true, Exact);
    RemoveBalanced(s, spy, i, ch, false, ClientMode(quiet));
  }

  lemma RelayedLedger(w: World, s: State, quiet: bool, spy: bool, i: nat)
    requires Inv(s, false) && i < |Side(s, spy).socks| && Side(s, spy).socks[i].enabled && Ledger(s, quiet)
    requires Reaches(s.net, Side(s, spy).socks[i].fd) && Receive(Chan(s.net, Side(s, spy).socks[i].fd)).valread > 0
    ensures var r := Receive(Chan(s.net, Side(s, spy).socks[i].fd));
            Ledger(Relayed(w, Heard(s, spy, i), spy, i, Frame(r.power, r.data)), quiet)
  {
    var r := Receive(Chan(s.net, Side(s, spy).socks[i].fd));
    var s' := Relayed(w, Heard(s, spy, i), spy, i, Frame(r.power, r.data));
    RelayedShape(w, Heard(s, spy, i), spy, i, Frame(r.power, r.data));
    forall j | 0 <= j < |s'.spies.socks| ensures EntryBalanced(s', s'.spies.socks[j], Exact) {
      SideRelayed(w, s, spy, i, true, j, Exact);
    }
    forall j | 0 <= j < |s'.clients.socks| ensures EntryBalanced(s', s'.clients.socks[j], ClientMode(quiet)) {
      SideRelayed(w, s, spy, i, false, j, ClientMode(quiet));
    }
  }

  lemma VisitLedger(w: World, s: State, quiet: bool, spy: bool, i: nat)
    requires Inv(s, false) && i < |Side(s, spy).socks| && Ledger(s, quiet)
    ensures Ledger(Visit(w, s, spy, i), quiet)
  {
    var sock := Side(s, spy).socks[i];
    EntryReaches(s, false, spy, i);
    var ch := Chan(s.net, sock.fd);
    WithChanTwice(s.net, sock.fd, ch, ch);
    if !sock.enabled {
      RemoveLedger(s, quiet, spy, i, ch);
    } else if sock.fd in s.sel.dup {
      if Receive(ch).valread <= 0 {
        RemoveLedger(s, quiet, spy, i, Received(ch));
      } else {
        RelayedLedger(w, s, quiet, spy, i);
      }
    }
  }

  lemma ForwardLedger(w: World, s: State, quiet: bool, spy: bool, i: nat)
    requires Inv(s, false) && i <= |Side(s, spy).socks| && Ledger(s, quiet)
    ensures Ledger(Forward(w, s, spy, i), quiet)
  {
    forall t: State, k: nat | Inv(t, false) && Ledger(t, quiet) && k < |Side(t, spy).socks|
      ensures Inv(Visit(w, t, spy, k), false) && Ledger(Visit(w, t, spy, k), quiet)
    {
      VisitKeeps(w, t, false, spy, k);
      VisitLedger(w, t, quiet, spy, k);
    }
    ForwardInduct(w, s, spy, i, (t: State) => Inv(t, false) && Ledger(t, quiet));
  }

  lemma {:induction false} RemoveAllLedger(s: State, quiet: bool, spy: bool)
    requires Inv(s, false) && Ledger(s, quiet)
    ensures Ledger(RemoveAll(s, spy), quiet)
    decreases |Side(s, spy).socks|
  {
    if Side(s, spy).socks == [] {
      assert RemoveAll(s, spy) == s;
    } else {
      EntryReaches(s, false, spy, 0);
      var fd := Side(s, spy).socks[0].fd;
      WithChanTwice(s.net, fd, Chan(s.net, fd), Chan(s.net, fd));
      RemoveLedger(s, quiet, spy, 0, Chan(s.net, fd));
      RemoveFirstKeeps(s, false, spy);
      RemoveAllUnfold(s, spy);
      RemoveAllLedger(Remove(s, spy, 0), quiet, spy);
    }
  }

  /** Orders do not touch channels; loss must not be switched on in a quiet run. */
  lemma ControlLedger(s: State, quiet: bool, o: Order)
    requires Inv(s, false) && Ledger(s, quiet) && (quiet ==> o != PacketLoss(true))
    ensures Ledger(Control(s, o), quiet)
  {
    if o.CloseAllClient? {
      CloseAllLedger(s, quiet);
    } else {
      OrderFrame(s, o);
      SameLedger(s, Control(s, o), quiet);
    }
  }

  lemma CloseAllLedger(s: State, quiet: bool)
    requires Inv(s, false) && Ledger(s, quiet)
    ensures Ledger(Control(s, CloseAllClient), quiet)
  {
    CloseAllUnfold(s);
    RemoveAllKeeps(s, false, false);
    RemoveAllLedger(s, quiet, false);
    RemoveAllLedger(RemoveAll(s, false), quiet, true);
  }

  /** The sockets, the channels and the record of receptions are the same. */
  predicate SameBooks(s: State, s': State) {
    && s'.clients.socks == s.clients.socks && s'.spies.socks == s.spies.socks
    && s'.net == s.net && s'.heard == s.heard
  }

  lemma OrderFrame(s: State, o: Order)
    requires Sound(s) && !o.CloseAllClient?
    ensures SameBooks(s, Control(s, o)) && Control(s, o).loss == if o.PacketLoss? then o.on else s.loss
  {
  }

  lemma SameLedger(s: State, s': State, quiet: bool)
    requires Ledger(s, quiet) && SameBooks(s, s') && (quiet ==> !s'.loss)
    ensures Ledger(s', quiet)
  {
    SettingsBalanced(s, s', true, Exact);
    SettingsBalanced(s, s', false, ClientMode(quiet));
  }

  lemma SettingsBalanced(s: State, s': State, spy: bool, mode: Mode)
    requires SideBalanced(s, spy, mode) && Side(s', spy).socks == Side(s, spy).socks && s'.net == s.net && s'.heard == s.heard
    ensures SideBalanced(s', spy, mode)
  {
    forall j | 0 <= j < |Side(s', spy).socks| ensures EntryBalanced(s', Side(s', spy).socks[j], mode) {
      EntrySame(s, s', Side(s, spy).socks[j], mode);
    }
  }

  // ---------- arrivals ----------

  lemma ConnectElse(s: State, a: Arrival, fd: nat)
    requires Fresh(s, a) && Reaches(s.net, fd)
    ensures Reaches(Connect(s, a), fd) && Connect(s, a).open[fd] == s.net.open[fd]
    ensures Chan(Connect(s, a), fd) == Chan(s.net, fd)
  {
  }

  lemma AdmitElse(s: State, spy: bool, a: Arrival, side: bool, k: nat)
    requires Inv(s, false) && Fresh(s, a) && k < |Side(s, side).socks|
    requires side == spy ==> k != TakenIndex(Side(s, spy), a.cid)
    ensures var s', fd := Admit(s, spy, a), Side(s, side).socks[k].fd;
            && Reaches(s.net, fd) && Reaches(s'.net, fd) && s'.net.open[fd] == s.net.open[fd]
            && Chan(s'.net, fd) == Chan(s.net, fd) && s'.heard == s.heard
  {
    var e, fd := TakenIndex(Side(s, spy), a.cid), Side(s, side).socks[k].fd;
    EntryReaches(s, false, side, k);
    ConnectElse(s, a, fd);
    if e < |Side(s, spy).infos| {
      ConnsDiffer(s, spy, e, side, k);
      ConnectElse(s, a, Side(s, spy).socks[e].fd);
    }
  }

  lemma AdmitNew(s: State, spy: bool, a: Arrival)
    requires Inv(s, false) && Fresh(s, a)
    ensures var s' := Admit(s, spy, a);
            Reaches(s'.net, a.fd) && Chan(s'.net, a.fd) == Channel(a.incoming, a.chunks, a.sends, [], [], |s.heard|)
  {
    var e := TakenIndex(Side(s, spy), a.cid);
    if e < |Side(s, spy).infos| {
      EntryReaches(s, false, spy, e);
      ConnectElse(s, a, Side(s, spy).socks[e].fd);
    }
  }

  lemma AdmitSocks(srv: Server, fd: nat, cid: nat, conn: int)
    requires Valid(srv)
    ensures var e := TakenIndex(srv, cid); var socks := Accept(srv, fd, cid, conn).socks;
            && |socks| == |srv.socks| + 1 && socks[|srv.socks|] == Sock(fd, true)
            && (forall j :: 0 <= j < |srv.socks| && j != e ==> socks[j] == srv.socks[j])
            && (e < |srv.socks| ==> !socks[e].enabled)
  {
    AcceptExtends(srv, fd, cid, conn);
  }

  lemma AdmitBalanced(s: State, spy: bool, a: Arrival, side: bool, mode: Mode)
    requires Inv(s, false) && Fresh(s, a) && SideBalanced(s, side, mode)
    ensures SideBalanced(Admit(s, spy, a), side, mode)
  {
    var s' := Admit(s, spy, a);
    forall j | 0 <= j < |Side(s', side).socks| ensures EntryBalanced(s', Side(s', side).socks[j], mode) {
      if side == spy {
        AdmittedBalanced(s, spy, a, j, mode);
      } else {
        BesideBalanced(s, spy, a, side, j, mode);
      }
    }
  }

  lemma BesideBalanced(s: State, spy: bool, a: Arrival, side: bool, j: nat, mode: Mode)
    requires Inv(s, false) && Fresh(s, a) && SideBalanced(s, side, mode) && j < |Side(s, side).socks|
    requires side == spy ==> j != TakenIndex(Side(s, spy), a.cid)
    ensures EntryBalanced(Admit(s, spy, a), Side(s, side).socks[j], mode)
  {
    AdmitElse(s, spy, a, side, j);
    EntrySame(s, Admit(s, spy, a), Side(s, side).socks[j], mode);
  }

  lemma AdmittedBalanced(s: State, spy: bool, a: Arrival, j: nat, mode: Mode)
    requires Inv(s, false) && Fresh(s, a) && SideBalanced(s, spy, mode) && j < |Side(Admit(s, spy, a), spy).socks|
    ensures EntryBalanced(Admit(s, spy, a), Side(Admit(s, spy, a), spy).socks[j], mode)
  {
    var srv := Side(s, spy);
    AdmitSocks(srv, a.fd, a.cid, |s.net.chans|);
    if j == |srv.socks| {
      AdmitNew(s, spy, a);
    } else if j != TakenIndex(srv, a.cid) {
      BesideBalanced(s, spy, a, spy, j, mode);
    }
  }

  lemma AdmitIfLedger(s: State, quiet: bool, master: nat, spy: bool, a: Arrival)
    requires Inv(s, false) && Usable(s, master, a, false) && Ledger(s, quiet)
    ensures Ledger(AdmitIf(s, master, spy, a), quiet)
  {
    if master in s.sel.dup {
      AdmitBalanced(s, spy, a, true, Exact);
      AdmitBalanced(s, spy, a, false, ClientMode(quiet));
    }
  }

  // ---------- turns and runs ----------

  lemma AdmitAllLedger(s: State, quiet: bool, e: Input)
    requires Inv(s, false) && Ledger(s, quiet)
    requires Usable(s, s.masters.vhost, e.vhost, false)
    requires var s1 := AdmitIf(s, s.masters.vhost, false, e.vhost);
             Sound(s1) && Usable(s1, s.masters.inet, e.inet, false) &&
             Usable(AdmitIf(s1, s.masters.inet, false, e.inet), s.masters.spy, e.spy, false)
    ensures Ledger(AdmitAll(s, e), quiet)
  {
    var s1 := AdmitIf(s, s.masters.vhost, false, e.vhost);
    AdmitIfKeeps(s, false, s.masters.vhost, false, e.vhost);
    AdmitIfLedger(s, quiet, s.masters.vhost, false, e.vhost);
    var s2 := AdmitIf(s1, s.masters.inet, false, e.inet);
    AdmitIfKeeps(s1, false, s.masters.inet, false, e.inet);
    AdmitIfLedger(s1, quiet, s.masters.inet, false, e.inet);
    AdmitIfLedger(s2, quiet, s.masters.spy, true, e.spy);
  }

  lemma AwaitLedger(s: State, quiet: bool, ready: set<nat>)
    requires Ledger(s, quiet)
    ensures Ledger(s.(sel := Awaited(s.sel, ready)), quiet)
  {
    SameLedger(s, s.(sel := Awaited(s.sel, ready)), quiet);
  }

  lemma PrologueLedger(s: State, quiet: bool, e: Input)
    requires Inv(s, false) && Admissible(s, e, false) && Ledger(s, quiet) && (quiet ==> e.order != PacketLoss(true))
    ensures Ledger(Prologue(s, e), quiet)
  {
    var s0 := s.(sel := Awaited(s.sel, e.ready));
    AwaitKeeps(s, false, e.ready);
    AwaitLedger(s, quiet, e.ready);
    AdmitSound(s0, false, e.vhost);
    AdmitAllKeeps(s0, false, e);
    AdmitAllLedger(s0, quiet, e);
    ControlLedger(AdmitAll(s0, e), quiet, e.order);
  }

  lemma StepLedger(w: World, s: State, quiet: bool, e: Input)
    requires Inv(s, false) && Admissible(s, e, false) && Ledger(s, quiet) && (quiet ==> e.order != PacketLoss(true))
    ensures Ledger(Step(w, s, e), quiet)
  {
    PrologueKeeps(s, false, e);
    PrologueLedger(s, quiet, e);
    var s1 := Prologue(s, e);
    ForwardLedger(w, s1, quiet, false, 0);
    ForwardKeeps(w, s1, false, false, 0);
    ForwardLedger(w, Forward(w, s1, false, 0), quiet, true, 0);
  }

  /**
    Conservation over every run, from any state in which it holds : a spy still enabled has been
    sent exactly the frames received from everyone else since it was accepted, in order and at
    their original power; so has every client still enabled, powers apart, in a run in which loss is
    never enabled; and in any run it has been sent a subsequence of them.
   */
  lemma {:induction false} RunLedger(w: World, s: State, quiet: bool, es: seq<Input>)
    requires Inv(s, false) && AllAdmissible(w, s, es, false) && Ledger(s, quiet)
    requires quiet ==> forall i :: 0 <= i < |es| ==> es[i].order != PacketLoss(true)
    ensures Ledger(Run(w, s, es), quiet)
    decreases |es|
  {
    if es != [] {
      StepKeeps(w, s, false, es[0]);
      StepLedger(w, s, quiet, es[0]);
      RunUnfold(w, s, es);
      RunLedger(w, Step(w, s, es[0]), quiet, es[1..]);
    }
  }

  lemma StartLedger(m: Masters, loss: bool, draws: seq<nat>, quiet: bool)
    requires quiet ==> !loss
    ensures Ledger(Start(m, loss, draws), quiet)
  {
  }
}
