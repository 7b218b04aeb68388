/**
  What holds at the head of every turn of the event loop, whatever the peers, the scheduler and
  the control program do. With `clean`, no peer announces a length out of range.
 */
module RelayInvariant {
  import opened Wire
  import opened Channels
  import opened Nets
  import opened Registry
  import opened Scheduler
  import opened Relay

  // ---------- the invariant ----------

  predicate LogWellFormed(log: seq<Event>) {
    forall i :: 0 <= i < |log| && (log[i].Got? || log[i].Sent? || log[i].Broken?) ==> WellFormed(log[i].frame)
  }

  /** A broken frame was not written whole. */
  predicate StrictCuts(log: seq<Event>) {
    forall i :: 0 <= i < |log| && log[i].Broken? ==> log[i].cut < |Encode(log[i].frame)|
  }

  /** Nothing follows the end of a connection, and what was written is what the log says. */
  predicate ChanOk(ch: Channel, clean: bool) {
    && Ordered(ch.log)
    && StrictCuts(ch.log)
    && ch.written == LogBytes(ch.log)
    && (clean ==> LogWellFormed(ch.log))
  }

  /** Different descriptors lead to different connections. */
  predicate NetOk(net: Net, clean: bool) {
    && (forall c :: 0 <= c < |net.chans| ==> ChanOk(net.chans[c], clean))
    && (forall fd :: fd in net.open ==> net.open[fd] < |net.chans|)
    && (forall a, b :: a in net.open && b in net.open && a != b ==> net.open[a] != net.open[b])
  }

  /** A socket and the info at the same position belong to one connection, enabled while it lives. */
  predicate EntryOk(net: Net, sock: Sock, info: Info, clean: bool) {
    && Reaches(net, sock.fd)
    && info.conn == net.open[sock.fd]
    && (sock.enabled <==> Live(Chan(net, sock.fd).log))
    && (clean && sock.enabled ==> Honest(Chan(net, sock.fd).incoming))
  }

  predicate SideOk(net: Net, srv: Server, clean: bool) {
    Valid(srv) && forall i :: 0 <= i < |srv.socks| ==> EntryOk(net, srv.socks[i], srv.infos[i], clean)
  }

  function Fds(socks: seq<Sock>): seq<nat> {
    seq(|socks|, i requires 0 <= i < |socks| => socks[i].fd)
  }

  function MasterBag(m: Masters): multiset<nat> {
    multiset{m.vhost, m.inet, m.spy, m.ctrl}
  }

  /** The masters, the clients and the spies. */
  function Owned(s: State): multiset<nat> {
    MasterBag(s.masters) + multiset(Fds(s.clients.socks)) + multiset(Fds(s.spies.socks))
  }

  /** The scheduler knows these and no others, each once. */
  ghost predicate Registered(s: State) {
    Agrees(s.sel) && multiset(s.sel.nodes) == Owned(s)
  }

  predicate Carries(srv: Server, c: nat) {
    exists i :: 0 <= i < |srv.infos| && srv.infos[i].conn == c
  }

  /** No living connection has been lost from the lists. */
  predicate Tracked(s: State) {
    forall c :: 0 <= c < |s.net.chans| && Live(s.net.chans[c].log) ==> Carries(s.clients, c) || Carries(s.spies, c)
  }

  ghost predicate Inv(s: State, clean: bool) {
    && NetOk(s.net, clean)
    && SideOk(s.net, s.clients, clean) && SideOk(s.net, s.spies, clean)
    && Registered(s)
    && Tracked(s)
  }

  // ---------- one descriptor, one entry ----------

  lemma FdTwice(socks: seq<Sock>, i: nat, j: nat)
    requires i < j < |socks| && socks[i].fd == socks[j].fd
    ensures multiset(Fds(socks))[socks[i].fd] >= 2
  {
    var s := Fds(socks);
    assert s == s[..j] + s[j..];
    assert s[i] in s[..j] && s[j] in s[j..];
  }

  lemma FdOnce(socks: seq<Sock>, i: nat)
    requires i < |socks|
    ensures multiset(Fds(socks))[socks[i].fd] >= 1
  {
    assert Fds(socks)[i] == socks[i].fd;
  }

  predicate Mine(srv: Server, i: nat, fd: nat) {
    forall j :: 0 <= j < |srv.socks| && j != i ==> srv.socks[j].fd != fd
  }

  predicate Foreign(srv: Server, fd: nat) {
    forall j :: 0 <= j < |srv.socks| ==> srv.socks[j].fd != fd
  }

  lemma Unique(s: State, spy: bool, i: nat)
    requires Registered(s) && i < |Side(s, spy).socks|
    ensures var fd := Side(s, spy).socks[i].fd; Mine(Side(s, spy), i, fd) && Foreign(Side(s, !spy), fd)
  {
    var srv, other := Side(s, spy), Side(s, !spy);
    var fd := srv.socks[i].fd;
    assert multiset(s.sel.nodes)[fd] <= 1;
    FdOnce(srv.socks, i);
    forall j | 0 <= j < |srv.socks| && j != i ensures srv.socks[j].fd != fd {
      if srv.socks[j].fd == fd {
        FdTwice(srv.socks, if i < j then i else j, if i < j then j else i);
      }
    }
    forall j | 0 <= j < |other.socks| ensures other.socks[j].fd != fd {
      FdOnce(other.socks, j);
    }
  }

  // ---------- changing one connection ----------

  predicate EventOk(e: Event, clean: bool) {
    && (e.Broken? ==> e.cut < |Encode(e.frame)|)
    && (clean && (e.Got? || e.Sent? || e.Broken?) ==> WellFormed(e.frame))
  }

  /** One more event in the life of a connection, with the bytes it stands for. */
  lemma ChanAppend(ch: Channel, ch': Channel, e: Event, clean: bool)
    requires ChanOk(ch, clean) && Live(ch.log) && EventOk(e, clean)
    requires ch'.log == ch.log + [e] && ch'.written == ch.written + EventBytes(e)
    ensures ChanOk(ch', clean) && Live(ch'.log) == !Terminal(e)
  {
    LogStep(ch.log, e);
    AppendOrdered(ch.log, e, clean);
  }

  lemma AppendOrdered(log: seq<Event>, e: Event, clean: bool)
    requires Ordered(log) && Live(log) && StrictCuts(log) && EventOk(e, clean)
    ensures Ordered(log + [e]) && StrictCuts(log + [e])
    ensures clean && LogWellFormed(log) ==> LogWellFormed(log + [e])
  {
  }

  lemma NetFrame(net: Net, fd: nat, ch: Channel, clean: bool)
    requires NetOk(net, clean) && Reaches(net, fd) && ChanOk(ch, clean)
    ensures NetOk(WithChan(net, fd, ch), clean)
  {
  }

  lemma SideFrame(net: Net, fd: nat, ch: Channel, srv: Server, clean: bool)
    requires NetOk(net, clean) && Reaches(net, fd) && SideOk(net, srv, clean) && Foreign(srv, fd)
    ensures SideOk(WithChan(net, fd, ch), srv, clean)
  {
    forall i | 0 <= i < |srv.socks| ensures EntryOk(WithChan(net, fd, ch), srv.socks[i], srv.infos[i], clean) {
      assert EntryOk(net, srv.socks[i], srv.infos[i], clean);
    }
  }

  /** The lists after an event of entry `i` : its flag is cleared unless the connection goes on. */
  function Flagged(srv: Server, i: nat, on: bool): Server
    requires i < |srv.socks|
  {
    if on then srv else Disable(srv, i)
  }

  lemma SideUpdate(net: Net, srv: Server, i: nat, ch: Channel, on: bool, clean: bool)
    requires NetOk(net, clean) && SideOk(net, srv, clean) && i < |srv.socks| && Mine(srv, i, srv.socks[i].fd)
    requires on == Live(ch.log) && (on ==> srv.socks[i].enabled) && (clean && on ==> Honest(ch.incoming))
    ensures Reaches(net, srv.socks[i].fd) && SideOk(WithChan(net, srv.socks[i].fd, ch), Flagged(srv, i, on), clean)
  {
    var fd := srv.socks[i].fd;
    assert EntryOk(net, srv.socks[i], srv.infos[i], clean);
    var net', srv' := WithChan(net, fd, ch), Flagged(srv, i, on);
    forall j | 0 <= j < |srv'.socks| ensures EntryOk(net', srv'.socks[j], srv'.infos[j], clean) {
      assert EntryOk(net, srv.socks[j], srv.infos[j], clean);
    }
  }

  /** The state with one entry's channel and flag replaced. */
  function SetEntry(s: State, spy: bool, i: nat, ch: Channel, on: bool): State
    requires i < |Side(s, spy).socks| && Reaches(s.net, Side(s, spy).socks[i].fd)
  {
    WithSide(s.(net := WithChan(s.net, Side(s, spy).socks[i].fd, ch)), spy, Flagged(Side(s, spy), i, on))
  }

  lemma FlaggedFds(srv: Server, i: nat, on: bool)
    requires i < |srv.socks|
    ensures Fds(Flagged(srv, i, on).socks) == Fds(srv.socks)
  {
  }

  lemma EntryTracked(s: State, spy: bool, i: nat, ch: Channel, on: bool)
    requires Tracked(s) && i < |Side(s, spy).socks| && Aligned(Side(s, spy))
    requires Reaches(s.net, Side(s, spy).socks[i].fd)
    requires Side(s, spy).infos[i].conn == s.net.open[Side(s, spy).socks[i].fd]
    ensures Tracked(SetEntry(s, spy, i, ch, on))
  {
    var s' := SetEntry(s, spy, i, ch, on);
    assert Carries(Side(s', spy), s.net.open[Side(s, spy).socks[i].fd]);
    forall c | 0 <= c < |s'.net.chans| && Live(s'.net.chans[c].log) ensures Carries(s'.clients, c) || Carries(s'.spies, c) {
      if c != s.net.open[Side(s, spy).socks[i].fd] {
        assert Carries(s.clients, c) || Carries(s.spies, c);
      }
    }
  }

  lemma EntryReaches(s: State, clean: bool, spy: bool, i: nat)
    requires Inv(s, clean) && i < |Side(s, spy).socks|
    ensures EntryOk(s.net, Side(s, spy).socks[i], Side(s, spy).infos[i], clean)
    ensures ChanOk(Chan(s.net, Side(s, spy).socks[i].fd), clean)
  {
  }

  /** Replacing the channel of an enabled entry keeps the invariant when the flag follows its log. */
  lemma EntryKeeps(s: State, clean: bool, spy: bool, i: nat, ch: Channel, on: bool)
    requires Inv(s, clean) && i < |Side(s, spy).socks|
    requires ChanOk(ch, clean) && on == Live(ch.log) && (on ==> Side(s, spy).socks[i].enabled)
    requires clean && on ==> Honest(ch.incoming)
    ensures Reaches(s.net, Side(s, spy).socks[i].fd)
    ensures Inv(SetEntry(s, spy, i, ch, on), clean)
  {
    var srv := Side(s, spy);
    var fd := srv.socks[i].fd;
    EntryReaches(s, clean, spy, i);
    Unique(s, spy, i);
    NetFrame(s.net, fd, ch, clean);
    SideUpdate(s.net, srv, i, ch, on, clean);
    SideFrame(s.net, fd, ch, Side(s, !spy), clean);
    FlaggedFds(srv, i, on);
    EntryTracked(s, spy, i, ch, on);
  }

  // ---------- fan-out ----------

  lemma SendKeepsChan(ch: Channel, f: Frame, clean: bool)
    requires ChanOk(ch, clean) && Live(ch.log) && (clean ==> WellFormed(f))
    ensures var p := SendSignal(ch, f);
            ChanOk(p.chan, clean) && p.ok == Live(p.chan.log) && p.chan.incoming == ch.incoming
  {
    var p := SendSignal(ch, f);
    SendSignalLaw(ch, f);
    SentKeepsChan(ch, p.chan, f, p.count, clean);
  }

  /** What a send writes is what its event says. */
  lemma SentKeepsChan(ch: Channel, ch': Channel, f: Frame, count: nat, clean: bool)
    requires ChanOk(ch, clean) && Live(ch.log) && (clean ==> WellFormed(f)) && count <= |Encode(f)|
    requires ch'.written == ch.written + Encode(f)[..count]
    requires ch'.log == ch.log + [if count == |Encode(f)| then Sent(f) else Broken(f, count)]
    ensures ChanOk(ch', clean) && (count == |Encode(f)| <==> Live(ch'.log))
  {
    var e := if count == |Encode(f)| then Sent(f) else Broken(f, count);
    WholePrefix(Encode(f), count);
    ChanAppend(ch, ch', e, clean);
  }

  lemma WholePrefix(s: seq<byte>, n: nat)
    requires n <= |s|
    ensures n == |s| ==> s[..n] == s
  {
  }

  lemma OfferIsSetEntry(s: State, spy: bool, i: nat, f: Frame)
    requires i < |Side(s, spy).socks| && Reaches(s.net, Side(s, spy).socks[i].fd) && Side(s, spy).socks[i].enabled
    ensures var p := SendSignal(Chan(s.net, Side(s, spy).socks[i].fd), f);
            Offer(s, spy, i, f) == SetEntry(s, spy, i, p.chan, p.ok)
  {
  }

  lemma OfferKeeps(s: State, clean: bool, spy: bool, i: nat, f: Frame)
    requires Inv(s, clean) && i < |Side(s, spy).socks| && Side(s, spy).socks[i].enabled
    requires clean ==> WellFormed(f)
    ensures Inv(Offer(s, spy, i, f), clean)
  {
    EntryReaches(s, clean, spy, i);
    var ch := Chan(s.net, Side(s, spy).socks[i].fd);
    SendKeepsChan(ch, f, clean);
    OfferIsSetEntry(s, spy, i, f);
    EntryKeeps(s, clean, spy, i, SendSignal(ch, f).chan, SendSignal(ch, f).ok);
  }

  lemma DrawKeeps(s: State, clean: bool, draws: seq<nat>)
    requires Inv(s, clean)
    ensures Inv(s.(draws := draws), clean)
  {
    var s' := s.(draws := draws);
    assert Owned(s') == Owned(s);
    assert forall c :: 0 <= c < |s.net.chans| && Live(s.net.chans[c].log) ==> Carries(s.clients, c) || Carries(s.spies, c);
  }

  /** A turn offers nothing, offers at once, or offers after a draw that does not lose the frame. */
  lemma FanOutAtCases(w: World, s: State, c: Cast, i: nat)
    requires Aligned(Side(s, c.spy)) && i < |Side(s, c.spy).socks|
    ensures var s1, f := s.(draws := NextDraws(s.draws)), FrameFor(w, s, c, i); var s' := FanOutAt(w, s, c, i);
            || s' == s
            || s' == s1
            || (Side(s, c.spy).socks[i].enabled && (s' == Offer(s, c.spy, i, f) || s' == Offer(s1, c.spy, i, f)))
  {
  }

  lemma FanOutAtKeeps(w: World, s: State, clean: bool, c: Cast, i: nat)
    requires Inv(s, clean) && i < |Side(s, c.spy).socks| && (clean ==> WellFormed(c.frame))
    ensures Inv(FanOutAt(w, s, c, i), clean)
  {
    var s1, f := s.(draws := NextDraws(s.draws)), FrameFor(w, s, c, i);
    FanOutAtCases(w, s, c, i);
    DrawKeeps(s, clean, NextDraws(s.draws));
    if Side(s, c.spy).socks[i].enabled {
      OfferKeeps(s, clean, c.spy, i, f);
      OfferKeeps(s1, clean, c.spy, i, f);
    }
  }

  lemma FanOutKeeps(w: World, s: State, clean: bool, c: Cast, i: nat)
    requires Inv(s, clean) && i <= |Side(s, c.spy).socks| && (clean ==> WellFormed(c.frame))
    ensures Inv(FanOut(w, s, c, i), clean)
  {
    forall t: State, k: nat | Inv(t, clean) && k < |Side(t, c.spy).socks| ensures Inv(FanOutAt(w, t, c, k), clean) {
      FanOutAtKeeps(w, t, clean, c, k);
    }
    FanOutInduct(w, s, c, i, (t: State) => Inv(t, clean));
  }

  // ---------- removal ----------

  /** The channel of an entry about to be removed may have been read from. */
  predicate SameHistory(ch: Channel, ch': Channel) {
    ch' == ch.(incoming := ch'.incoming, chunks := ch'.chunks)
  }

  lemma EraseFds(socks: seq<Sock>, i: nat)
    requires i < |socks|
    ensures multiset(Fds(Erase(socks, i))) == multiset(Fds(socks)) - multiset{socks[i].fd}
  {
    var s := Fds(socks);
    assert Fds(Erase(socks, i)) == s[..i] + s[i + 1..];
    assert s == s[..i] + [s[i]] + s[i + 1..];
  }

  lemma CloseFdNet(net: Net, sock: Sock, clean: bool)
    requires NetOk(net, clean) && Reaches(net, sock.fd) && (sock.enabled ==> Live(Chan(net, sock.fd).log))
    ensures NetOk(CloseFd(net, sock), clean)
  {
    var ch := Chan(net, sock.fd);
    if sock.enabled {
      assert ch.written == ch.written + [];
      ChanAppend(ch, Log(ch, Closed), Closed, clean);
      NetFrame(net, sock.fd, Log(ch, Closed), clean);
    }
  }

  lemma CloseFdSide(net: Net, sock: Sock, srv: Server, clean: bool)
    requires NetOk(net, clean) && Reaches(net, sock.fd) && SideOk(net, srv, clean) && Foreign(srv, sock.fd)
    ensures SideOk(CloseFd(net, sock), srv, clean)
  {
    var net' := CloseFd(net, sock);
    forall i | 0 <= i < |srv.socks| ensures EntryOk(net', srv.socks[i], srv.infos[i], clean) {
      assert EntryOk(net, srv.socks[i], srv.infos[i], clean);
    }
  }

  /** The entries of a side but one, in the lists that are left. */
  lemma CloseSide(net: Net, srv: Server, i: nat, clean: bool)
    requires SideOk(net, srv, clean) && i < |srv.socks| && Mine(srv, i, srv.socks[i].fd)
    ensures SideOk(net, Close(srv, i), clean) && Foreign(Close(srv, i), srv.socks[i].fd)
  {
    var srv' := Close(srv, i);
    forall j | 0 <= j < |srv'.socks| ensures EntryOk(net, srv'.socks[j], srv'.infos[j], clean) {
      assert EntryOk(net, srv.socks[if j < i then j else j + 1], srv.infos[if j < i then j else j + 1], clean);
    }
  }

  lemma RemoveRegistered(s: State, spy: bool, i: nat)
    requires Registered(s) && Valid(Side(s, spy)) && i < |Side(s, spy).socks|
    ensures Registered(Remove(s, spy, i))
  {
    var socks := Side(s, spy).socks;
    DelAgrees(s.sel, socks[i].fd);
    EraseFds(socks, i);
    FdOnce(socks, i);
  }

  lemma RemoveTracked(s: State, clean: bool, spy: bool, i: nat)
    requires NetOk(s.net, clean) && Tracked(s) && Valid(Side(s, spy)) && i < |Side(s, spy).socks|
    requires var sock := Side(s, spy).socks[i];
             && Reaches(s.net, sock.fd)
             && Side(s, spy).infos[i].conn == s.net.open[sock.fd]
             && (sock.enabled <==> Live(Chan(s.net, sock.fd).log))
    ensures Tracked(Remove(s, spy, i))
  {
    var s', srv := Remove(s, spy, i), Side(s, spy);
    var gone := s.net.open[srv.socks[i].fd];
    assert !Live(s'.net.chans[gone].log);
    forall c | 0 <= c < |s'.net.chans| && Live(s'.net.chans[c].log) ensures Carries(s'.clients, c) || Carries(s'.spies, c) {
      assert c != gone && s'.net.chans[c] == s.net.chans[c];
      if Carries(srv, c) {
        ErasedCarries(srv, i, c);
      } else {
        assert Carries(Side(s, !spy), c);
      }
    }
  }

  lemma ErasedCarries(srv: Server, i: nat, c: nat)
    requires Valid(srv) && i < |srv.socks| && Carries(srv, c) && srv.infos[i].conn != c
    ensures Carries(Close(srv, i), c)
  {
    var j :| 0 <= j < |srv.infos| && srv.infos[j].conn == c;
    assert Close(srv, i).infos[if j < i then j else j - 1].conn == c;
  }

  /** RemoveClient, also right after a failed read of that client. */
  lemma RemoveKeeps(s: State, clean: bool, spy: bool, i: nat, ch: Channel)
    requires Inv(s, clean) && i < |Side(s, spy).socks|
    requires var fd := Side(s, spy).socks[i].fd; Reaches(s.net, fd) && SameHistory(Chan(s.net, fd), ch)
    ensures Inv(Remove(s.(net := WithChan(s.net, Side(s, spy).socks[i].fd, ch)), spy, i), clean)
  {
    var srv, other := Side(s, spy), Side(s, !spy);
    var sock := srv.socks[i];
    EntryReaches(s, clean, spy, i);
    Unique(s, spy, i);
    var net1 := WithChan(s.net, sock.fd, ch);
    var s1 := s.(net := net1);
    NetFrame(s.net, sock.fd, ch, clean);
    CloseSide(s.net, srv, i, clean);
    SideFrame(s.net, sock.fd, ch, Close(srv, i), clean);
    SideFrame(s.net, sock.fd, ch, other, clean);
    CloseFdNet(net1, sock, clean);
    CloseFdSide(net1, sock, Close(srv, i), clean);
    CloseFdSide(net1, sock, other, clean);
    RemoveRegistered(s1, spy, i);
    ReadTracked(s, sock.fd, ch);
    RemoveTracked(s1, clean, spy, i);
  }

  lemma ReadTracked(s: State, fd: nat, ch: Channel)
    requires Tracked(s) && Reaches(s.net, fd) && SameHistory(Chan(s.net, fd), ch)
    ensures Tracked(s.(net := WithChan(s.net, fd, ch)))
  {
    var s1 := s.(net := WithChan(s.net, fd, ch));
    forall c | 0 <= c < |s1.net.chans| && Live(s1.net.chans[c].log) ensures Carries(s1.clients, c) || Carries(s1.spies, c) {
      assert Live(s.net.chans[c].log);
    }
  }

  // ---------- one visit ----------

  lemma HeardKeeps(s: State, clean: bool, heard: seq<Hearing>)
    requires Inv(s, clean)
    ensures Inv(s.(heard := heard), clean)
  {
    var s' := s.(heard := heard);
    assert Owned(s') == Owned(s);
    assert forall c :: 0 <= c < |s.net.chans| && Live(s.net.chans[c].log) ==> Carries(s.clients, c) || Carries(s.spies, c);
  }

  lemma ReceivedHistory(ch: Channel)
    ensures var r := Receive(ch);
            && SameHistory(ch, r.chan)
            && Received(ch) == r.chan.(log := if r.valread > 0 then ch.log + [Got(Frame(r.power, r.data))] else ch.log)
  {
    var data := ReceiveConsumes(ch);
  }

  /** A successful read of a living connection. */
  lemma ReceivedOk(ch: Channel, clean: bool)
    requires ChanOk(ch, clean) && Live(ch.log) && Receive(ch).valread > 0
    requires clean ==> Honest(ch.incoming)
    ensures ChanOk(Received(ch), clean) && Live(Received(ch).log)
    ensures clean ==> Honest(Received(ch).incoming) && WellFormed(Frame(Receive(ch).power, Receive(ch).data))
  {
    var f := Frame(Receive(ch).power, Receive(ch).data);
    ReceivedHistory(ch);
    if clean {
      ReceiveHonest(ch);
    }
    assert ch.written == ch.written + [];
    ChanAppend(ch, Received(ch), Got(f), clean);
  }

  /** The entry has been read : its channel moved on, the frame is on the record. */
  function Heard(s: State, spy: bool, i: nat): State
    requires i < |Side(s, spy).socks| && Reaches(s.net, Side(s, spy).socks[i].fd)
  {
    var fd := Side(s, spy).socks[i].fd;
    var r := Receive(Chan(s.net, fd));
    s.(net := WithChan(s.net, fd, Received(Chan(s.net, fd))),
       heard := s.heard + [Hearing(s.net.open[fd], Frame(r.power, r.data))])
  }

  lemma HeardInv(s: State, clean: bool, spy: bool, i: nat)
    requires Inv(s, clean) && i < |Side(s, spy).socks| && Side(s, spy).socks[i].enabled
    requires Reaches(s.net, Side(s, spy).socks[i].fd) && Receive(Chan(s.net, Side(s, spy).socks[i].fd)).valread > 0
    ensures Inv(Heard(s, spy, i), clean)
    ensures var r := Receive(Chan(s.net, Side(s, spy).socks[i].fd)); clean ==> WellFormed(Frame(r.power, r.data))
  {
    var ch := Chan(s.net, Side(s, spy).socks[i].fd);
    EntryReaches(s, clean, spy, i);
    ReceivedOk(ch, clean);
    EntryKeeps(s, clean, spy, i, Received(ch), true);
    HeardKeeps(SetEntry(s, spy, i, Received(ch), true), clean, Heard(s, spy, i).heard);
    HeardIsSetEntry(s, spy, i);
  }

  lemma HeardIsSetEntry(s: State, spy: bool, i: nat)
    requires i < |Side(s, spy).socks| && Reaches(s.net, Side(s, spy).socks[i].fd) && Side(s, spy).socks[i].enabled
    ensures var ch := Chan(s.net, Side(s, spy).socks[i].fd);
            Heard(s, spy, i) == SetEntry(s, spy, i, Received(ch), true).(heard := Heard(s, spy, i).heard)
  {
  }

  lemma RelayedKeeps(w: World, s: State, clean: bool, spy: bool, i: nat, f: Frame)
    requires Inv(s, clean) && i < |Side(s, spy).socks| && (clean ==> WellFormed(f))
    ensures Inv(Relayed(w, s, spy, i, f), clean)
  {
    var own := OwnCast(s, spy, i, f);
    FanOutKeeps(w, s, clean, own, 0);
    var s1 := FanOut(w, s, own, 0);
    FanOutKeeps(w, s1, clean, OtherCast(spy, f), 0);
  }

  lemma VisitKeeps(w: World, s: State, clean: bool, spy: bool, i: nat)
    requires Inv(s, clean) && i < |Side(s, spy).socks|
    ensures Inv(Visit(w, s, spy, i), clean)
  {
    var sock := Side(s, spy).socks[i];
    EntryReaches(s, clean, spy, i);
    var ch := Chan(s.net, sock.fd);
    WithChanTwice(s.net, sock.fd, ch, ch);
    if !sock.enabled {
      RemoveKeeps(s, clean, spy, i, ch);
    } else if sock.fd in s.sel.dup {
      ReceivedHistory(ch);
      if Receive(ch).valread <= 0 {
        RemoveKeeps(s, clean, spy, i, Received(ch));
      } else {
        HeardInv(s, clean, spy, i);
        RelayedKeeps(w, Heard(s, spy, i), clean, spy, i, Frame(Receive(ch).power, Receive(ch).data));
      }
    }
  }

  lemma ForwardKeeps(w: World, s: State, clean: bool, spy: bool, i: nat)
    requires Inv(s, clean) && i <= |Side(s, spy).socks|
    ensures Inv(Forward(w, s, spy, i), clean)
  {
    forall t: State, k: nat | Inv(t, clean) && k < |Side(t, spy).socks| ensures Inv(Visit(w, t, spy, k), clean) {
      VisitKeeps(w, t, clean, spy, k);
    }
    ForwardInduct(w, s, spy, i, (t: State) => Inv(t, clean));
  }

  // ---------- arrivals ----------

  /** accept returned a descriptor that is not in use. */
  predicate Fresh(s: State, a: Arrival) {
    a.fd !in s.net.open && a.fd !in MasterBag(s.masters)
  }

  lemma FreshNode(s: State, clean: bool, a: Arrival)
    requires Inv(s, clean) && Fresh(s, a)
    ensures a.fd !in s.sel.nodes && Foreign(s.clients, a.fd) && Foreign(s.spies, a.fd)
  {
    ForeignSide(s.net, s.clients, a.fd, clean);
    ForeignSide(s.net, s.spies, a.fd, clean);
    assert a.fd !in Owned(s);
  }

  lemma ForeignSide(net: Net, srv: Server, fd: nat, clean: bool)
    requires SideOk(net, srv, clean) && fd !in net.open
    ensures Foreign(srv, fd) && fd !in Fds(srv.socks)
  {
    assert forall i :: 0 <= i < |srv.socks| ==> EntryOk(net, srv.socks[i], srv.infos[i], clean);
  }

  lemma ConnectNet(s: State, clean: bool, a: Arrival)
    requires NetOk(s.net, clean) && Fresh(s, a)
    ensures NetOk(Connect(s, a), clean)
  {
    var net' := Connect(s, a);
    forall c | 0 <= c < |net'.chans| ensures ChanOk(net'.chans[c], clean) {
      if c < |s.net.chans| {
        assert net'.chans[c] == s.net.chans[c];
      }
    }
  }

  lemma ConnectSide(s: State, clean: bool, a: Arrival, srv: Server)
    requires SideOk(s.net, srv, clean) && Fresh(s, a)
    ensures SideOk(Connect(s, a), srv, clean)
  {
    forall i | 0 <= i < |srv.socks| ensures EntryOk(Connect(s, a), srv.socks[i], srv.infos[i], clean) {
      assert EntryOk(s.net, srv.socks[i], srv.infos[i], clean);
    }
  }

  /** One more entry at the end of both lists. */
  predicate Extends(srv: Server, srv': Server, fd: nat, conn: int) {
    && Valid(srv')
    && srv'.socks == srv.socks + [Sock(fd, true)]
    && |srv'.infos| == |srv.infos| + 1 && srv'.infos[..|srv.infos|] == srv.infos
    && srv'.infos[|srv.infos|].conn == conn
  }

  lemma ExtendSide(s: State, clean: bool, a: Arrival, srv: Server, srv': Server)
    requires SideOk(s.net, srv, clean) && Fresh(s, a) && Extends(srv, srv', a.fd, |s.net.chans|)
    requires clean ==> Honest(a.incoming)
    ensures SideOk(Connect(s, a), srv', clean)
  {
    ConnectSide(s, clean, a, srv);
    forall i | 0 <= i < |srv'.socks| ensures EntryOk(Connect(s, a), srv'.socks[i], srv'.infos[i], clean) {
      if i < |srv.socks| {
        assert EntryOk(Connect(s, a), srv.socks[i], srv.infos[i], clean);
        assert srv'.infos[i] == srv'.infos[..|srv.infos|][i];
      }
    }
  }

  function Extended(s: State, spy: bool, a: Arrival, srv': Server): State {
    WithSide(s, spy, srv').(net := Connect(s, a), sel := Added(s.sel, a.fd))
  }

  lemma ExtendRegistered(s: State, clean: bool, spy: bool, a: Arrival, srv': Server)
    requires Inv(s, clean) && Fresh(s, a) && Extends(Side(s, spy), srv', a.fd, |s.net.chans|)
    ensures Registered(Extended(s, spy, a, srv'))
  {
    FreshNode(s, clean, a);
    AddAgrees(s.sel, a.fd);
    ExtendOwned(s, spy, a, srv');
  }

  lemma ExtendOwned(s: State, spy: bool, a: Arrival, srv': Server)
    requires Extends(Side(s, spy), srv', a.fd, |s.net.chans|)
    ensures Owned(Extended(s, spy, a, srv')) == Owned(s) + multiset{a.fd}
  {
    ExtendFds(Side(s, spy), srv', a.fd, |s.net.chans|);
    BagMoves(MasterBag(s.masters), multiset(Fds(s.clients.socks)), multiset(Fds(s.spies.socks)), multiset{a.fd});
  }

  lemma ExtendFds(srv: Server, srv': Server, fd: nat, conn: int)
    requires Extends(srv, srv', fd, conn)
    ensures multiset(Fds(srv'.socks)) == multiset(Fds(srv.socks)) + multiset{fd}
  {
    FdsSnoc(srv.socks, srv'.socks, fd);
  }

  lemma FdsSnoc(socks: seq<Sock>, socks': seq<Sock>, fd: nat)
    requires |socks'| == |socks| + 1 && socks'[|socks|].fd == fd
    requires forall i :: 0 <= i < |socks| ==> socks'[i].fd == socks[i].fd
    ensures Fds(socks') == Fds(socks) + [fd]
  {
  }

  lemma BagMoves(m: multiset<nat>, a: multiset<nat>, b: multiset<nat>, x: multiset<nat>)
    ensures m + (a + x) + b == m + a + b + x && m + a + (b + x) == m + a + b + x
  {
  }

  lemma CarriesExtended(srv: Server, srv': Server, fd: nat, conn: int, c: nat)
    requires Extends(srv, srv', fd, conn)
    ensures Carries(srv, c) ==> Carries(srv', c)
    ensures conn == c ==> Carries(srv', c)
  {
    if Carries(srv, c) {
      var i :| 0 <= i < |srv.infos| && srv.infos[i].conn == c;
      assert srv'.infos[..|srv.infos|][i].conn == c;
    }
  }

  lemma ExtendTracked(s: State, spy: bool, a: Arrival, srv': Server)
    requires Tracked(s) && Extends(Side(s, spy), srv', a.fd, |s.net.chans|)
    ensures Tracked(Extended(s, spy, a, srv'))
  {
    var s' := Extended(s, spy, a, srv');
    forall c | 0 <= c < |s'.net.chans| && Live(s'.net.chans[c].log) ensures Carries(s'.clients, c) || Carries(s'.spies, c) {
      CarriesExtended(Side(s, spy), srv', a.fd, |s.net.chans|, c);
      if c < |s.net.chans| {
        assert Live(s.net.chans[c].log);
      }
    }
  }

  lemma ExtendKeeps(s: State, clean: bool, spy: bool, a: Arrival, srv': Server)
    requires Inv(s, clean) && Fresh(s, a) && Extends(Side(s, spy), srv', a.fd, |s.net.chans|)
    requires clean ==> Honest(a.incoming)
    ensures Inv(Extended(s, spy, a, srv'), clean)
  {
    ConnectNet(s, clean, a);
    ConnectSide(s, clean, a, Side(s, !spy));
    ExtendSide(s, clean, a, Side(s, spy), srv');
    ExtendRegistered(s, clean, spy, a, srv');
    ExtendTracked(s, spy, a, srv');
  }

  /** The entry whose place is taken, as it is left. */
  function TakenState(s: State, spy: bool, e: nat): State
    requires e < |Side(s, spy).socks| && Reaches(s.net, Side(s, spy).socks[e].fd)
  {
    SetEntry(s, spy, e, Log(Chan(s.net, Side(s, spy).socks[e].fd), TakenOver), false)
  }

  lemma TakenKeeps(s: State, clean: bool, spy: bool, e: nat)
    requires Inv(s, clean) && e < |Side(s, spy).socks| && Side(s, spy).socks[e].enabled
    ensures Reaches(s.net, Side(s, spy).socks[e].fd)
    ensures Inv(TakenState(s, spy, e), clean)
  {
    EntryReaches(s, clean, spy, e);
    var ch := Chan(s.net, Side(s, spy).socks[e].fd);
    assert ch.written == ch.written + [];
    ChanAppend(ch, Log(ch, TakenOver), TakenOver, clean);
    EntryKeeps(s, clean, spy, e, Log(ch, TakenOver), false);
  }

  /** Accept extends the lists, after the flag of a taken-over entry has been cleared. */
  lemma AcceptExtends(srv: Server, fd: nat, cid: nat, conn: int)
    requires Valid(srv)
    ensures var e := TakenIndex(srv, cid); var srv' := Accept(srv, fd, cid, conn);
            && (e < |srv.infos| ==> srv.socks[e].enabled && Extends(Disable(srv, e), srv', fd, conn))
            && (e == |srv.infos| ==> Extends(srv, srv', fd, conn))
  {
    FindEnabledShort(srv.socks, Sock(fd, true), srv.infos, cid, 0);
  }

  /** Accept is : take over, then extend. */
  lemma AdmitSplit(s: State, spy: bool, a: Arrival)
    requires Aligned(Side(s, spy)) && Fresh(s, a)
    ensures var srv := Side(s, spy); var e := TakenIndex(srv, a.cid); var srv' := Accept(srv, a.fd, a.cid, |s.net.chans|);
            Admit(s, spy, a) ==
            if e < |srv.infos| && Reaches(s.net, srv.socks[e].fd) then Extended(TakenState(s, spy, e), spy, a, srv')
            else if e < |srv.infos| then Admit(s, spy, a)
            else Extended(s, spy, a, srv')
  {
    var srv := Side(s, spy);
    var e := TakenIndex(srv, a.cid);
    if e < |srv.infos| && Reaches(s.net, srv.socks[e].fd) {
      var fd := srv.socks[e].fd;
      assert LogAt(Connect(s, a), fd, TakenOver) == Connect(TakenState(s, spy, e), a);
    }
  }

  lemma AdmitKeeps(s: State, clean: bool, spy: bool, a: Arrival)
    requires Inv(s, clean) && Fresh(s, a) && (clean ==> Honest(a.incoming))
    ensures Inv(Admit(s, spy, a), clean)
  {
    var srv := Side(s, spy);
    var e := TakenIndex(srv, a.cid);
    AcceptExtends(srv, a.fd, a.cid, |s.net.chans|);
    AdmitSplit(s, spy, a);
    var srv' := Accept(srv, a.fd, a.cid, |s.net.chans|);
    if e < |srv.infos| {
      TakenKeeps(s, clean, spy, e);
      ExtendKeeps(TakenState(s, spy, e), clean, spy, a, srv');
    } else {
      ExtendKeeps(s, clean, spy, a, srv');
    }
  }
}
