/**
  Exactly what each party is sent over a run, powers included, whatever the loss setting : the frames
  received from the others while it is connected, each at the level it has there, but for those
  that its draws lose.
 */
module RelayDue {
  import opened Wire
  import opened Channels
  import opened Nets
  import opened Registry
  import opened Scheduler
  import opened Radio
  import opened Relay
  import opened RelayInvariant
  import opened RelayRuns
  import opened RelayFanOut
  import opened RelayHistory
  import opened RelayLedger
  import opened RelayTheorems

  // ---------- what is due ----------

  /** What the frame `f` of entry `i` is for entry `j` of a side. */
  function DueFrame(w: World, s: State, spy: bool, i: nat, f: Frame, side: bool, j: nat): seq<Frame>
    requires Sound(s) && i < |Side(s, spy).socks| && j < |Side(s, side).socks|
  {
    var c := if side == spy then OwnCast(s, spy, i, f) else OtherCast(spy, f);
    var g := FrameFor(w, s, c, j);
    if j == c.skip || (c.from.Some? && s.loss && PacketIsLost(g.power, DrawFor(s, c, 0, j))) then [] else [g]
  }

  /** The visit of entry `i` relays a frame. */
  predicate Relays(s: State, spy: bool, i: nat)
    requires i < |Side(s, spy).socks|
  {
    var sock := Side(s, spy).socks[i];
    sock.enabled && sock.fd in s.sel.dup && Reaches(s.net, sock.fd) && Receive(Chan(s.net, sock.fd)).valread > 0
  }

  function FrameOf(s: State, spy: bool, i: nat): Frame
    requires i < |Side(s, spy).socks| && Relays(s, spy, i)
  {
    var r := Receive(Chan(s.net, Side(s, spy).socks[i].fd));
    Frame(r.power, r.data)
  }

  /** The position of the entry of connection `k`, or the length of the list. */
  function PlaceFor(infos: seq<Info>, k: nat, i: nat): (j: nat)
    requires i <= |infos|
    ensures i <= j <= |infos| && (j < |infos| ==> infos[j].conn == k)
    ensures forall l :: i <= l < j ==> infos[l].conn != k
    decreases |infos| - i
  {
    if i == |infos| || infos[i].conn == k then i else PlaceFor(infos, k, i + 1)
  }

  function DueVisit(w: World, s: State, spy: bool, i: nat, k: nat): seq<Frame>
    requires Sound(s) && i < |Side(s, spy).socks|
  {
    var a, b := PlaceFor(s.clients.infos, k, 0), PlaceFor(s.spies.infos, k, 0);
    if !Relays(s, spy, i) then []
    else if a < |s.clients.infos| then DueFrame(w, Heard(s, spy, i), spy, i, FrameOf(s, spy, i), false, a)
    else if b < |s.spies.infos| then DueFrame(w, Heard(s, spy, i), spy, i, FrameOf(s, spy, i), true, b)
    else []
  }

  function DueForward(w: World, s: State, spy: bool, i: nat, k: nat): seq<Frame>
    requires Sound(s) && i <= |Side(s, spy).socks|
    decreases |Side(s, spy).socks| - i
  {
    if i == |Side(s, spy).socks| then []
    else
      VisitSound(w, s, spy, i);
      DueVisit(w, s, spy, i, k)
      + DueForward(w, Visit(w, s, spy, i), spy, if Leaves(s, spy, i) then i else i + 1, k)
  }

  function DueStep(w: World, s: State, e: Input, k: nat): seq<Frame>
    requires Sound(s)
  {
    PrologueSound(s, e);
    var s1 := Prologue(s, e);
    ForwardSound(w, s1, false, 0);
    DueForward(w, s1, false, 0, k) + DueForward(w, Forward(w, s1, false, 0), true, 0, k)
  }

  /** What connection `k` is due over a run. */
  function Due(w: World, s: State, es: seq<Input>, k: nat): seq<Frame>
    requires Sound(s)
    decreases |es|
  {
    if es == [] then []
    else
      StepSound(w, s, es[0]);
      DueStep(w, s, es[0], k) + Due(w, Step(w, s, es[0]), es[1..], k)
  }

  // ---------- what is sent ----------

  /** The history of a connection, empty before it is accepted. */
  function LogOf(s: State, k: nat): seq<Event> {
    if k < |s.net.chans| then s.net.chans[k].log else []
  }

  /** As long as the connection lives, it is sent `due` and nothing else. */
  predicate Pays(s: State, s': State, k: nat, due: seq<Frame>) {
    Live(LogOf(s', k)) ==> Live(LogOf(s, k)) && SentFrames(LogOf(s', k)) == SentFrames(LogOf(s, k)) + due
  }

  lemma PaysTwice(a: State, b: State, c: State, k: nat, p: seq<Frame>, q: seq<Frame>)
    requires Pays(a, b, k, p) && Pays(b, c, k, q)
    ensures Pays(a, c, k, p + q)
  {
    if Live(LogOf(c, k)) {
      var sent := SentFrames(LogOf(a, k));
      assert (sent + p) + q == sent + (p + q);
    }
  }

  /** Nothing happened to the connection, or it has ended. */
  predicate Rests(s: State, s': State, k: nat) {
    Live(LogOf(s', k)) ==> LogOf(s', k) == LogOf(s, k)
  }

  lemma RestsPays(s: State, s': State, k: nat)
    requires Rests(s, s', k)
    ensures Pays(s, s', k, [])
  {
    var sent := SentFrames(LogOf(s, k));
    assert sent + [] == sent;
  }

  lemma RestsTwice(a: State, b: State, c: State, k: nat)
    requires Rests(a, b, k) && Rests(b, c, k)
    ensures Rests(a, c, k)
  {
  }

  // ---------- one visit ----------

  lemma RemoveRests(s: State, spy: bool, i: nat, k: nat)
    requires Valid(Side(s, spy)) && i < |Side(s, spy).socks|
    ensures Rests(s, Remove(s, spy, i), k)
  {
  }

  lemma VisitRests(w: World, s: State, spy: bool, i: nat, k: nat)
    requires Sound(s) && i < |Side(s, spy).socks| && !Relays(s, spy, i)
    ensures Rests(s, Visit(w, s, spy, i), k)
  {
    var sock := Side(s, spy).socks[i];
    RemoveRests(s, spy, i, k);
    if Reaches(s.net, sock.fd) {
      var s1 := s.(net := WithChan(s.net, sock.fd, Received(Chan(s.net, sock.fd))));
      ReceivedHistory(Chan(s.net, sock.fd));
      RemoveRests(s1, spy, i, k);
      if Receive(Chan(s.net, sock.fd)).valread <= 0 {
        assert Rests(s, s1, k);
        RestsTwice(s, s1, Remove(s1, spy, i), k);
      }
    }
  }

  lemma VisitIsRelayed(w: World, s: State, spy: bool, i: nat)
    requires Sound(s) && i < |Side(s, spy).socks| && Relays(s, spy, i)
    ensures Visit(w, s, spy, i) == Relayed(w, Heard(s, spy, i), spy, i, FrameOf(s, spy, i))
  {
  }

  /** The sender's own entry. */
  lemma SenderPays(s: State, s': State, spy: bool, i: nat, k: nat)
    requires i < |Side(s, spy).socks| && Relays(s, spy, i) && s.net.open[Side(s, spy).socks[i].fd] == k
    requires Live(Chan(s.net, Side(s, spy).socks[i].fd).log)
    requires SameShape(Heard(s, spy, i), s') && Untouched(Heard(s, spy, i), s', spy, i)
    ensures Pays(s, s', k, [])
  {
    var ch := Chan(s.net, Side(s, spy).socks[i].fd);
    ReceivedHistory(ch);
    LogStep(ch.log, Got(FrameOf(s, spy, i)));
    assert SentFrames(ch.log) + [] == SentFrames(ch.log);
  }

  /** Any other entry : one frame when it was offered, none when it was lost. */
  lemma OtherPays(w: World, s: State, sH: State, s': State, c: Cast, j: nat, k: nat)
    requires j < |Side(sH, c.spy).socks| && Aligned(Side(sH, c.spy)) && SameShape(sH, s') && j != c.skip
    requires Reaches(sH.net, Side(sH, c.spy).socks[j].fd) && ConnAt(sH, c.spy, j) == k < |s.net.chans|
    requires sH.net.chans[k] == s.net.chans[k]
    requires Outcome(w, sH, s', c, 0, j) && (Side(sH, c.spy).socks[j].enabled <==> Live(s.net.chans[k].log))
    ensures var g := FrameFor(w, sH, c, j);
            Pays(s, s', k, if c.from.Some? && sH.loss && PacketIsLost(g.power, DrawFor(sH, c, 0, j)) then [] else [g])
  {
    var g, ch := FrameFor(w, sH, c, j), s.net.chans[k];
    SendSignalLaw(ch, g);
    LogStep(ch.log, Sent(g));
    assert SentFrames(ch.log) + [] == SentFrames(ch.log);
  }

  lemma EntryPays(w: World, s: State, spy: bool, i: nat, side: bool, j: nat)
    requires Inv(s, false) && i < |Side(s, spy).socks| && Relays(s, spy, i) && j < |Side(s, side).socks|
    ensures Reaches(s.net, Side(s, side).socks[j].fd)
    ensures Pays(s, Visit(w, s, spy, i), ConnAt(s, side, j), DueFrame(w, Heard(s, spy, i), spy, i, FrameOf(s, spy, i), side, j))
  {
    var sH, f := Heard(s, spy, i), FrameOf(s, spy, i);
    var s' := Relayed(w, sH, spy, i, f);
    VisitIsRelayed(w, s, spy, i);
    HeardInv(s, false, spy, i);
    EntryReaches(s, false, side, j);
    RelayedExact(w, sH, spy, i, f, side, j);
    if side == spy && j == i {
      SenderPays(s, s', spy, i, ConnAt(s, side, j));
    } else {
      HeardElse(s, spy, i, side, j);
      OtherPays(w, s, sH, s', if side == spy then OwnCast(sH, spy, i, f) else OtherCast(spy, f), j, ConnAt(s, side, j));
    }
  }

  /** A connection without an entry is due nothing, and does not live. */
  lemma NoEntryPays(s: State, s': State, k: nat)
    requires Inv(s, false) && |s'.net.chans| == |s.net.chans|
    requires PlaceFor(s.clients.infos, k, 0) == |s.clients.infos| && PlaceFor(s.spies.infos, k, 0) == |s.spies.infos|
    requires k < |s.net.chans| ==> Grown(s.net.chans[k], s'.net.chans[k]) && Ordered(s'.net.chans[k].log)
    ensures Pays(s, s', k, [])
  {
    if k < |s.net.chans| {
      assert !Carries(s.clients, k) && !Carries(s.spies, k);
      LiveBefore(s.net.chans[k].log, s'.net.chans[k].log);
    }
  }

  lemma LiveBefore(log: seq<Event>, log': seq<Event>)
    requires log <= log' && Ordered(log')
    ensures Live(log') ==> Live(log)
  {
  }

  lemma PlacePays(w: World, s: State, spy: bool, i: nat, side: bool, j: nat, k: nat)
    requires Inv(s, false) && i < |Side(s, spy).socks| && Relays(s, spy, i)
    requires j < |Side(s, side).infos| && Side(s, side).infos[j].conn == k
    ensures j < |Side(s, side).socks|
    ensures Pays(s, Visit(w, s, spy, i), k, DueFrame(w, Heard(s, spy, i), spy, i, FrameOf(s, spy, i), side, j))
  {
    EntryReaches(s, false, side, j);
    EntryPays(w, s, spy, i, side, j);
  }

  lemma RelayPays(w: World, s: State, spy: bool, i: nat, k: nat)
    requires Inv(s, false) && i < |Side(s, spy).socks| && Relays(s, spy, i)
    ensures Pays(s, Visit(w, s, spy, i), k, DueVisit(w, s, spy, i, k))
  {
    var a, b := PlaceFor(s.clients.infos, k, 0), PlaceFor(s.spies.infos, k, 0);
    if a < |s.clients.infos| {
      PlacePays(w, s, spy, i, false, a, k);
    } else if b < |s.spies.infos| {
      PlacePays(w, s, spy, i, true, b, k);
    } else {
      NobodyPays(w, s, spy, i, k);
    }
  }

  lemma VisitPays(w: World, s: State, spy: bool, i: nat, k: nat)
    requires Inv(s, false) && i < |Side(s, spy).socks|
    ensures Pays(s, Visit(w, s, spy, i), k, DueVisit(w, s, spy, i, k))
  {
    if Relays(s, spy, i) {
      RelayPays(w, s, spy, i, k);
    } else {
      VisitRests(w, s, spy, i, k);
      RestsPays(s, Visit(w, s, spy, i), k);
    }
  }

  lemma NobodyPays(w: World, s: State, spy: bool, i: nat, k: nat)
    requires Inv(s, false) && i < |Side(s, spy).socks| && Relays(s, spy, i)
    requires PlaceFor(s.clients.infos, k, 0) == |s.clients.infos| && PlaceFor(s.spies.infos, k, 0) == |s.spies.infos|
    ensures Pays(s, Visit(w, s, spy, i), k, [])
  {
    var s' := Visit(w, s, spy, i);
    VisitIsRelayed(w, s, spy, i);
    RelayedShape(w, Heard(s, spy, i), spy, i, FrameOf(s, spy, i));
    if k < |s.net.chans| {
      VisitKeeps(w, s, false, spy, i);
      VisitEvolves(w, s, spy, i, k);
      assert ChanOk(s'.net.chans[k], false);
    }
    NoEntryPays(s, s', k);
  }

  // ---------- turns and runs ----------

  lemma DueForwardUnfold(w: World, s: State, spy: bool, i: nat, k: nat)
    requires Sound(s) && i < |Side(s, spy).socks|
    ensures var s', i' := Visit(w, s, spy, i), if Leaves(s, spy, i) then i else i + 1;
            && Sound(s') && i' <= |Side(s', spy).socks| && |Side(s', spy).socks| - i' < |Side(s, spy).socks| - i
            && Forward(w, s, spy, i) == Forward(w, s', spy, i')
            && DueForward(w, s, spy, i, k) == DueVisit(w, s, spy, i, k) + DueForward(w, s', spy, i', k)
  {
    ForwardUnfold(w, s, spy, i);
    VisitSound(w, s, spy, i);
  }

  lemma {:induction false} ForwardPays(w: World, s: State, spy: bool, i: nat, k: nat)
    requires Inv(s, false) && i <= |Side(s, spy).socks|
    ensures Pays(s, Forward(w, s, spy, i), k, DueForward(w, s, spy, i, k))
    decreases |Side(s, spy).socks| - i
  {
    if i == |Side(s, spy).socks| {
      RestsPays(s, s, k);
    } else {
      var s', i' := Visit(w, s, spy, i), if Leaves(s, spy, i) then i else i + 1;
      DueForwardUnfold(w, s, spy, i, k);
      VisitKeeps(w, s, false, spy, i);
      VisitPays(w, s, spy, i, k);
      ForwardPays(w, s', spy, i', k);
      PaysTwice(s, s', Forward(w, s', spy, i'), k, DueVisit(w, s, spy, i, k), DueForward(w, s', spy, i', k));
    }
  }

  lemma LogAtRests(s: State, s': State, a: Arrival, fd: nat, k: nat)
    requires Fresh(s, a) && Reaches(s.net, fd) && s'.net == LogAt(Connect(s, a), fd, TakenOver)
    ensures Rests(s, s', k)
  {
    ConnectElse(s, a, fd);
    LogStep(Chan(s.net, fd).log, TakenOver);
  }

  lemma AdmitRests(s: State, spy: bool, a: Arrival, k: nat)
    requires Inv(s, false) && Fresh(s, a)
    ensures Rests(s, Admit(s, spy, a), k)
  {
    var srv, s' := Side(s, spy), Admit(s, spy, a);
    var e := TakenIndex(srv, a.cid);
    if e < |srv.infos| {
      EntryReaches(s, false, spy, e);
      LogAtRests(s, s', a, srv.socks[e].fd, k);
    } else {
      assert s'.net == Connect(s, a);
    }
  }

  lemma AdmitIfRests(s: State, master: nat, spy: bool, a: Arrival, k: nat)
    requires Inv(s, false) && Usable(s, master, a, false)
    ensures Rests(s, AdmitIf(s, master, spy, a), k)
  {
    if master in s.sel.dup {
      AdmitRests(s, spy, a, k);
    }
  }

  lemma AdmitAllRests(s: State, e: Input, k: nat)
    requires Inv(s, false) && Usable(s, s.masters.vhost, e.vhost, false)
    requires var s1 := AdmitIf(s, s.masters.vhost, false, e.vhost);
             Sound(s1) && Usable(s1, s.masters.inet, e.inet, false) &&
             Usable(AdmitIf(s1, s.masters.inet, false, e.inet), s.masters.spy, e.spy, false)
    ensures Rests(s, AdmitAll(s, e), k)
  {
    var s1 := AdmitIf(s, s.masters.vhost, false, e.vhost);
    AdmitIfRests(s, s.masters.vhost, false, e.vhost, k);
    AdmitIfKeeps(s, false, s.masters.vhost, false, e.vhost);
    var s2 := AdmitIf(s1, s.masters.inet, false, e.inet);
    AdmitIfRests(s1, s.masters.inet, false, e.inet, k);
    AdmitIfKeeps(s1, false, s.masters.inet, false, e.inet);
    AdmitIfRests(s2, s.masters.spy, true, e.spy, k);
    RestsTwice(s, s1, s2, k);
    RestsTwice(s, s2, AdmitAll(s, e), k);
  }

  lemma {:induction false} RemoveAllRests(s: State, spy: bool, k: nat)
    requires Valid(Side(s, spy))
    ensures Rests(s, RemoveAll(s, spy), k)
    decreases |Side(s, spy).socks|
  {
    if Side(s, spy).socks != [] {
      RemoveAllUnfold(s, spy);
      RemoveRests(s, spy, 0, k);
      RemoveAllRests(Remove(s, spy, 0), spy, k);
      RestsTwice(s, Remove(s, spy, 0), RemoveAll(s, spy), k);
    }
  }

  lemma ControlRests(s: State, o: Order, k: nat)
    requires Sound(s)
    ensures Rests(s, Control(s, o), k)
  {
    if o.CloseAllClient? {
      CloseAllUnfold(s);
      RemoveAllRests(s, false, k);
      RemoveAllRests(RemoveAll(s, false), true, k);
      RestsTwice(s, RemoveAll(s, false), Control(s, o), k);
    } else {
      OrderFrame(s, o);
    }
  }

  lemma PrologueRests(s: State, e: Input, k: nat)
    requires Inv(s, false) && Admissible(s, e, false)
    ensures Rests(s, Prologue(s, e), k)
  {
    var s0 := s.(sel := Awaited(s.sel, e.ready));
    AwaitKeeps(s, false, e.ready);
    AdmitSound(s0, false, e.vhost);
    AdmitAllRests(s0, e, k);
    AdmitAllSound(s0, e);
    ControlRests(AdmitAll(s0, e), e.order, k);
    RestsTwice(s0, AdmitAll(s0, e), Prologue(s, e), k);
  }

  lemma ForwardsPay(w: World, s: State, k: nat)
    requires Inv(s, false)
    ensures var s1 := Forward(w, s, false, 0);
            && Sound(s1)
            && Pays(s, Forward(w, s1, true, 0), k, DueForward(w, s, false, 0, k) + DueForward(w, s1, true, 0, k))
  {
    var s1 := Forward(w, s, false, 0);
    ForwardKeeps(w, s, false, false, 0);
    ForwardPays(w, s, false, 0, k);
    ForwardPays(w, s1, true, 0, k);
    PaysTwice(s, s1, Forward(w, s1, true, 0), k, DueForward(w, s, false, 0, k), DueForward(w, s1, true, 0, k));
  }

  lemma StepPays(w: World, s: State, e: Input, k: nat)
    requires Inv(s, false) && Admissible(s, e, false)
    ensures Pays(s, Step(w, s, e), k, DueStep(w, s, e, k))
  {
    PrologueKeeps(s, false, e);
    PrologueRests(s, e, k);
    ForwardsPay(w, Prologue(s, e), k);
    RestsThenPays(s, Prologue(s, e), Step(w, s, e), k, DueStep(w, s, e, k));
  }

  lemma RestsThenPays(a: State, b: State, c: State, k: nat, due: seq<Frame>)
    requires Rests(a, b, k) && Pays(b, c, k, due)
    ensures Pays(a, c, k, due)
  {
  }

  /** Over every run, as long as a connection lives it is sent exactly what it is due. */
  lemma {:induction false} RunPays(w: World, s: State, es: seq<Input>, k: nat)
    requires Inv(s, false) && AllAdmissible(w, s, es, false)
    ensures Pays(s, Run(w, s, es), k, Due(w, s, es, k))
    decreases |es|
  {
    if es == [] {
      RestsPays(s, s, k);
    } else {
      var s' := Step(w, s, es[0]);
      StepKeeps(w, s, false, es[0]);
      StepPays(w, s, es[0], k);
      RunUnfold(w, s, es);
      RunPays(w, s', es[1..], k);
      PaysTwice(s, s', Run(w, s', es[1..]), k, DueStep(w, s, es[0], k), Due(w, s', es[1..], k));
    }
  }

  /** What the peer of an enabled entry can decode after a run from a state without connections. */
  lemma RunHearsExactly(w: World, s: State, es: seq<Input>, side: bool, j: nat)
    requires Inv(s, true) && Inv(s, false) && s.net.chans == [] && AllAdmissible(w, s, es, true)
    requires j < |Side(Run(w, s, es), side).socks| && Side(Run(w, s, es), side).socks[j].enabled
    ensures var t := Run(w, s, es); var fd := Side(t, side).socks[j].fd;
            Reaches(t.net, fd) && Decode(Chan(t.net, fd).written).frames == Due(w, s, es, t.net.open[fd])
  {
    var t := Run(w, s, es);
    AdmissibleWeaken(w, s, es);
    RunKeeps(w, s, true, es);
    EntryReaches(t, true, side, j);
    var fd := Side(t, side).socks[j].fd;
    RunPays(w, s, es, t.net.open[fd]);
    WrittenDecodes(Chan(t.net, fd));
    assert [] + Due(w, s, es, t.net.open[fd]) == Due(w, s, es, t.net.open[fd]);
  }

  /**
    In every run of the server, whatever the loss setting, what a party that is still enabled can
    decode is exactly what it is due : every frame of the others, in order, at its power for a spy,
    at its level for a client, but for those that the client's draws lose.
   */
  lemma ServerHearsExactly(w: World, m: Masters, loss: bool, draws: seq<nat>, es: seq<Input>, side: bool, j: nat)
    requires DistinctMasters(m) && AllAdmissible(w, Start(m, loss, draws), es, true)
    requires var t := Run(w, Start(m, loss, draws), es); j < |Side(t, side).socks| && Side(t, side).socks[j].enabled
    ensures var t := Run(w, Start(m, loss, draws), es); var fd := Side(t, side).socks[j].fd;
            && Reaches(t.net, fd)
            && Decode(Chan(t.net, fd).written).frames == Due(w, Start(m, loss, draws), es, t.net.open[fd])
  {
    StartBooks(m, loss, draws, false);
    RunHearsExactly(w, Start(m, loss, draws), es, side, j);
  }
}
