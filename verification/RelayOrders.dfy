/** What each order does to the whole server, and the settings over a run. */
module RelayOrders {
  import opened Wire
  import opened Channels
  import opened Nets
  import opened Registry
  import opened RegistryLaws
  import opened Scheduler
  import opened Relay
  import opened RelayInvariant
  import opened RelayRuns

  // ---------- one order ----------

  /** The settings obey the orders that set them; those orders change nothing else. */
  lemma OrderSettings(s: State, o: Order)
    requires Sound(s)
    ensures var s' := Control(s, o);
            && s'.scale == (if o.SetScale? then o.scale else s.scale)
            && s'.loss == (if o.PacketLoss? then o.on else s.loss)
            && s'.draws == s.draws && s'.masters == s.masters && s'.heard == s.heard
            && (o.SetScale? || o.PacketLoss? || o.Ask? ==> s'.(scale := s.scale, loss := s.loss) == s)
  {
  }

  predicate Unknown(srv: Server, cid: nat) {
    NoneWith(srv.infos, cid) && NoneWith(srv.archive, cid)
  }

  lemma KnownLaw(srv: Server, cid: nat)
    ensures Known(srv, cid) <==> !Unknown(srv, cid)
  {
    FirstIsFind(srv.infos, cid);
    FirstIsFind(srv.archive, cid);
  }

  /** "set" concerns the clients only. */
  lemma OrderMoves(s: State, cid: nat, coo: Coord)
    requires Sound(s)
    ensures var s' := Control(s, Move(cid, coo));
            s'.clients == SetCoordinate(s.clients, cid, coo) && s' == s.(clients := s'.clients)
  {
  }

  /**
    "setname" concerns the clients when one of them, connected or archived, has the CID; otherwise the
    first connected spy that has it; nobody else, and nobody below the first guest CID.
   */
  lemma OrderRenames(s: State, cid: nat, name: string) returns (kept: string)
    requires Sound(s)
    ensures Cut(name, kept)
    ensures var s' := Control(s, Rename(cid, name));
            && s' == s.(clients := s'.clients, spies := s'.spies)
            && (cid < 3 ==> s' == s)
            && (!Unknown(s.clients, cid) ==> s'.clients == SetName(s.clients, cid, name) && s'.spies == s.spies)
            && (cid >= 3 && Unknown(s.clients, cid) ==>
                  && s'.clients == s.clients && s'.spies == s.spies.(infos := s'.spies.infos)
                  && (forall i: nat :: FirstWith(s.spies.infos, cid, i) ==>
                        Replaced(s.spies.infos, i, s'.spies.infos, s.spies.infos[i].(name := kept)))
                  && (NoneWith(s.spies.infos, cid) ==> s'.spies == s.spies))
  {
    KnownLaw(s.clients, cid);
    FirstIsFind(s.spies.infos, cid);
    kept := Clip(name);
    ClipLaw(name);
  }

  // ---------- what leaves the settings alone ----------

  predicate SameSettings(s: State, s': State) {
    s'.scale == s.scale && s'.loss == s.loss && s'.masters == s.masters
  }

  lemma VisitSettings(w: World, s: State, spy: bool, i: nat)
    requires Sound(s) && i < |Side(s, spy).socks|
    ensures SameSettings(s, Visit(w, s, spy, i))
  {
    var sock := Side(s, spy).socks[i];
    if sock.enabled && sock.fd in s.sel.dup && Reaches(s.net, sock.fd) {
      var r := Receive(Chan(s.net, sock.fd));
      var s1 := s.(net := WithChan(s.net, sock.fd, Received(Chan(s.net, sock.fd))));
      var f := Frame(r.power, r.data);
      RelayedShape(w, s1.(heard := s.heard + [Hearing(s.net.open[sock.fd], f)]), spy, i, f);
    }
  }

  lemma ForwardSettings(w: World, s: State, spy: bool, i: nat)
    requires Sound(s) && i <= |Side(s, spy).socks|
    ensures SameSettings(s, Forward(w, s, spy, i))
  {
    forall t: State, k: nat | SameSettings(s, t) && Sound(t) && k < |Side(t, spy).socks|
      ensures SameSettings(s, Visit(w, t, spy, k))
    {
      VisitSettings(w, t, spy, k);
    }
    ForwardInduct(w, s, spy, i, (t: State) => SameSettings(s, t));
  }

  lemma AdmitAllSettings(s: State, e: Input)
    requires Sound(s)
    ensures SameSettings(s, AdmitAll(s, e)) && AdmitAll(s, e).sel.dup == s.sel.dup
  {
  }

  // ---------- turns and runs ----------

  /** The order of this turn is read, and sets the scale. */
  predicate SetsScale(m: Masters, e: Input) {
    m.ctrl in e.ready && e.order.SetScale?
  }

  predicate SetsLoss(m: Masters, e: Input) {
    m.ctrl in e.ready && e.order.PacketLoss?
  }

  /** The turn `t` is the last one that sets the scale. */
  predicate LastScale(m: Masters, es: seq<Input>, t: nat) {
    t < |es| && SetsScale(m, es[t]) && forall u :: t < u < |es| ==> !SetsScale(m, es[u])
  }

  predicate LastLoss(m: Masters, es: seq<Input>, t: nat) {
    t < |es| && SetsLoss(m, es[t]) && forall u :: t < u < |es| ==> !SetsLoss(m, es[u])
  }

  predicate NeverScale(m: Masters, es: seq<Input>) {
    forall u :: 0 <= u < |es| ==> !SetsScale(m, es[u])
  }

  predicate NeverLoss(m: Masters, es: seq<Input>) {
    forall u :: 0 <= u < |es| ==> !SetsLoss(m, es[u])
  }

  /** The settings after some turns. */
  ghost predicate Settings(m: Masters, scale: real, loss: bool, es: seq<Input>, scale': real, loss': bool) {
    && (forall t: nat :: LastScale(m, es, t) ==> scale' == es[t].order.scale)
    && (NeverScale(m, es) ==> scale' == scale)
    && (forall t: nat :: LastLoss(m, es, t) ==> loss' == es[t].order.on)
    && (NeverLoss(m, es) ==> loss' == loss)
  }

  lemma CtrlRegistered(s: State)
    requires Registered(s)
    ensures s.masters.ctrl in s.sel.master
  {
    assert s.masters.ctrl in multiset(s.sel.nodes);
  }

  lemma PrologueSettings(s: State, e: Input)
    requires Sound(s) && Registered(s)
    ensures var s' := Prologue(s, e);
            && s'.masters == s.masters
            && s'.scale == (if SetsScale(s.masters, e) then e.order.scale else s.scale)
            && s'.loss == (if SetsLoss(s.masters, e) then e.order.on else s.loss)
  {
    var s0 := s.(sel := Awaited(s.sel, e.ready));
    CtrlRegistered(s);
    AdmitAllSettings(s0, e);
    AdmitAllSound(s0, e);
    OrderSettings(AdmitAll(s0, e), e.order);
  }

  lemma StepSettings(w: World, s: State, e: Input)
    requires Sound(s) && Registered(s)
    ensures var s' := Step(w, s, e);
            && s'.masters == s.masters
            && s'.scale == (if SetsScale(s.masters, e) then e.order.scale else s.scale)
            && s'.loss == (if SetsLoss(s.masters, e) then e.order.on else s.loss)
  {
    PrologueSettings(s, e);
    PrologueSound(s, e);
    var s1 := Prologue(s, e);
    ForwardSettings(w, s1, false, 0);
    ForwardSound(w, s1, false, 0);
    ForwardSettings(w, Forward(w, s1, false, 0), true, 0);
  }

  /** A turn in front of some others. */
  lemma SettingsCons(m: Masters, scale: real, loss: bool, es: seq<Input>, scale': real, loss': bool)
    requires es != []
    requires Settings(m, if SetsScale(m, es[0]) then es[0].order.scale else scale,
                      if SetsLoss(m, es[0]) then es[0].order.on else loss, es[1..], scale', loss')
    ensures Settings(m, scale, loss, es, scale', loss')
  {
    assert forall u :: 0 <= u < |es[1..]| ==> es[1..][u] == es[u + 1];
    forall t: nat | LastScale(m, es, t) ensures scale' == es[t].order.scale {
      if t == 0 {
        assert NeverScale(m, es[1..]);
      } else {
        assert LastScale(m, es[1..], t - 1);
      }
    }
    forall t: nat | LastLoss(m, es, t) ensures loss' == es[t].order.on {
      if t == 0 {
        assert NeverLoss(m, es[1..]);
      } else {
        assert LastLoss(m, es[1..], t - 1);
      }
    }
  }

  lemma SettingsNone(m: Masters, scale: real, loss: bool)
    ensures Settings(m, scale, loss, [], scale, loss)
  {
  }

  /** Over every run the scale is that of the last order read that sets it, and so is the loss flag. */
  lemma {:induction false} RunSettings(w: World, s: State, es: seq<Input>)
    requires Inv(s, false) && AllAdmissible(w, s, es, false)
    ensures var t := Run(w, s, es); Settings(s.masters, s.scale, s.loss, es, t.scale, t.loss) && t.masters == s.masters
    decreases |es|
  {
    if es == [] {
      SettingsNone(s.masters, s.scale, s.loss);
    } else {
      StepSettings(w, s, es[0]);
      StepKeeps(w, s, false, es[0]);
      RunUnfold(w, s, es);
      RunSettings(w, Step(w, s, es[0]), es[1..]);
      var t := Run(w, s, es);
      SettingsCons(s.masters, s.scale, s.loss, es, t.scale, t.loss);
    }
  }

  /** The server starts with the scale 1 and the given loss flag. */
  lemma ServerSettings(w: World, m: Masters, loss: bool, draws: seq<nat>, es: seq<Input>)
    requires DistinctMasters(m) && AllAdmissible(w, Start(m, loss, draws), es, false)
    ensures var t := Run(w, Start(m, loss, draws), es); Settings(m, 1.0, loss, es, t.scale, t.loss)
  {
    StartInv(m, loss, draws, false);
    RunSettings(w, Start(m, loss, draws), es);
  }

  // ---------- arrivals ----------

  /** The new entry of a server in any state of any run, clean or not. */
  lemma AdmitPlace(s: State, spy: bool, a: Arrival)
    requires Sound(s)
    ensures var srv, srv' := Side(s, spy), Side(Admit(s, spy, a), spy); var n := |srv.infos|;
            && |srv'.infos| == n + 1 && srv'.infos[..n] == srv.infos
            && srv'.infos[n].cid == a.cid && Recovers(srv, a.cid, srv'.infos[n]) && Takes(srv, a.cid, srv'.archive)
            && Side(Admit(s, spy, a), !spy) == Side(s, !spy)
  {
    AcceptPlace(Side(s, spy), a.fd, a.cid, |s.net.chans|);
  }

  /**
    After any run of the server, a client of which every entry is disabled and no record is archived
    is placed at the origin, without a name, when it is accepted again.
   */
  lemma ServerForgetsBroken(w: World, m: Masters, loss: bool, draws: seq<nat>, es: seq<Input>, spy: bool, a: Arrival)
    requires Sound(Run(w, Start(m, loss, draws), es))
    requires var srv := Side(Run(w, Start(m, loss, draws), es), spy); NoneWith(srv.archive, a.cid) && NoneEnabled(srv, a.cid)
    ensures var s := Run(w, Start(m, loss, draws), es);
            Side(Admit(s, spy, a), spy).infos
            == Side(s, spy).infos + [Info(a.cid, Coord(0, 0, 0), "", |s.net.chans|)]
  {
    var s := Run(w, Start(m, loss, draws), es);
    BrokenForgotten(Side(s, spy), a.fd, a.cid, |s.net.chans|);
  }
}
