/** Three turns of the server after which one CID has two enabled entries. */
module RelayTwoEnabled {
  import opened Registry
  import opened Scheduler
  import opened Relay
  import opened RelayInvariant
  import opened RelayRuns

  // ---------- a turn in which no entry is ready ----------

  /** The disabled entries from `i` on are closed. */
  function Purge(srv: Server, i: nat): Server
    requires Valid(srv) && i <= |srv.socks|
    decreases |srv.socks| - i
  {
    if i == |srv.socks| then srv
    else if srv.socks[i].enabled then Purge(srv, i + 1)
    else Purge(Close(srv, i), i)
  }

  predicate NoneReady(s: State, spy: bool) {
    forall i :: 0 <= i < |Side(s, spy).socks| ==> Side(s, spy).socks[i].fd !in s.sel.dup
  }

  /** Only the lists of one side and the scheduler may have changed, not what was reported ready. */
  predicate Undisturbed(s: State, s': State, spy: bool) {
    && s'.net == s.net && s'.masters == s.masters && s'.sel.dup == s.sel.dup && Side(s', !spy) == Side(s, !spy)
  }

  lemma VisitQuiet(w: World, s: State, spy: bool, i: nat)
    requires Sound(s) && NoneReady(s, spy) && i < |Side(s, spy).socks|
    ensures var s' := Visit(w, s, spy, i); var srv := Side(s, spy);
            && Undisturbed(s, s', spy) && NoneReady(s', spy) && (Leaves(s, spy, i) <==> !srv.socks[i].enabled)
            && Side(s', spy) == if srv.socks[i].enabled then srv else Close(srv, i)
  {
  }

  lemma {:induction false} ForwardQuiet(w: World, s: State, spy: bool, i: nat)
    requires Sound(s) && NoneReady(s, spy) && i <= |Side(s, spy).socks|
    ensures Undisturbed(s, Forward(w, s, spy, i), spy) && Side(Forward(w, s, spy, i), spy) == Purge(Side(s, spy), i)
    decreases |Side(s, spy).socks| - i
  {
    if i < |Side(s, spy).socks| {
      ForwardUnfold(w, s, spy, i);
      VisitSound(w, s, spy, i);
      VisitQuiet(w, s, spy, i);
      ForwardQuiet(w, Visit(w, s, spy, i), spy, if Leaves(s, spy, i) then i else i + 1);
    }
  }

  /** Only the TCP server of the clients is ready. */
  function Accepting(m: Masters, fd: nat, cid: nat): Input {
    var a := Arrival(fd, cid, [], [], []);
    Input({m.inet}, a, a, a, Ask)
  }

  /** What the run below keeps : no spies, descriptors that are no masters. */
  ghost predicate Plain(s: State, m: Masters) {
    && Inv(s, true) && s.masters == m && s.spies.socks == []
    && forall fd :: fd in s.net.open ==> fd != m.inet
  }

  predicate Free(s: State, m: Masters, fd: nat) {
    fd !in s.net.open && fd !in MasterBag(m)
  }

  lemma AwaitInet(s: State, m: Masters)
    requires Plain(s, m)
    ensures Awaited(s.sel, {m.inet}).dup == {m.inet}
  {
    assert m.inet in multiset(s.sel.nodes);
  }

  /** The prologue of such a turn is one accept. */
  lemma PrologueAccepts(s: State, m: Masters, fd: nat, cid: nat)
    requires DistinctMasters(m) && Plain(s, m) && Free(s, m, fd)
    ensures var e := Accepting(m, fd, cid); var s0 := s.(sel := Awaited(s.sel, e.ready));
            Prologue(s, e) == Admit(s0, false, e.inet) && Admissible(s, e, true)
  {
    AwaitInet(s, m);
  }

  lemma AcceptedQuiet(s: State, m: Masters, fd: nat, cid: nat)
    requires DistinctMasters(m) && Plain(s, m) && Free(s, m, fd)
    ensures var e := Accepting(m, fd, cid); var s1 := Prologue(s, e);
            && NoneReady(s1, false) && s1.spies.socks == [] && s1.masters == m
            && s1.net.open == s.net.open[fd := |s.net.chans|] && |s1.net.chans| == |s.net.chans| + 1
  {
    PrologueAccepts(s, m, fd, cid);
    AwaitInet(s, m);
    AcceptExtends(s.clients, fd, cid, |s.net.chans|);
    forall i | 0 <= i < |s.clients.socks| ensures s.clients.socks[i].fd != m.inet {
      EntryReaches(s, true, false, i);
    }
  }

  lemma AcceptTurn(w: World, s: State, m: Masters, fd: nat, cid: nat)
    requires DistinctMasters(m) && Plain(s, m) && Free(s, m, fd)
    ensures var s' := Step(w, s, Accepting(m, fd, cid)); var srv := Accept(s.clients, fd, cid, |s.net.chans|);
            && Admissible(s, Accepting(m, fd, cid), true)
            && Plain(s', m) && Valid(srv) && s'.clients == Purge(srv, 0)
            && s'.net.open.Keys == s.net.open.Keys + {fd} && |s'.net.chans| == |s.net.chans| + 1
  {
    var e := Accepting(m, fd, cid);
    PrologueAccepts(s, m, fd, cid);
    AwaitInet(s, m);
    StepKeeps(w, s, true, e);
    PrologueSound(s, e);
    var s1 := Prologue(s, e);
    PrologueKeeps(s, true, e);
    AcceptedQuiet(s, m, fd, cid);
    ForwardQuiet(w, s1, false, 0);
    ForwardSound(w, s1, false, 0);
    ForwardQuiet(w, Forward(w, s1, false, 0), true, 0);
  }

  // ---------- the run ----------

  lemma {:induction false} PurgeNone(srv: Server, i: nat)
    requires Valid(srv) && i <= |srv.socks| && forall k :: i <= k < |srv.socks| ==> srv.socks[k].enabled
    ensures Purge(srv, i) == srv
    decreases |srv.socks| - i
  {
    if i < |srv.socks| {
      PurgeNone(srv, i + 1);
    }
  }

  lemma PurgeFirst(srv: Server)
    requires Valid(srv) && |srv.socks| == 2 && !srv.socks[0].enabled && srv.socks[1].enabled
    ensures Purge(srv, 0) == Close(srv, 0)
  {
    PurgeNone(Close(srv, 0), 0);
  }

  /** One turn of the run. */
  ghost predicate Turn(w: World, m: Masters, s: State, fd: nat, cid: nat, s': State) {
    && Sound(s) && Admissible(s, Accepting(m, fd, cid), true) && s' == Step(w, s, Accepting(m, fd, cid))
  }

  lemma ThreeTurns(w: World, m: Masters, cid: nat, fds: seq<nat>, s0: State, s1: State, s2: State, s3: State)
    requires |fds| == 3 && Turn(w, m, s0, fds[0], cid, s1) && Turn(w, m, s1, fds[1], cid, s2) && Turn(w, m, s2, fds[2], cid, s3)
    ensures var es := [Accepting(m, fds[0], cid), Accepting(m, fds[1], cid), Accepting(m, fds[2], cid)];
            AllAdmissible(w, s0, es, true) && Run(w, s0, es) == s3
  {
    var e0, e1, e2 := Accepting(m, fds[0], cid), Accepting(m, fds[1], cid), Accepting(m, fds[2], cid);
    assert [e2][1..] == [] && [e1, e2][1..] == [e2] && [e0, e1, e2][1..] == [e1, e2];
    StepSound(w, s2, e2);
    TurnCons(w, s2, e2, [], s3);
    TurnCons(w, s1, e1, [e2], s3);
    TurnCons(w, s0, e0, [e1, e2], s3);
  }

  /** One turn in front of a run. */
  lemma TurnCons(w: World, s: State, e: Input, es: seq<Input>, end: State)
    requires Sound(s) && Admissible(s, e, true) && Sound(Step(w, s, e))
    requires AllAdmissible(w, Step(w, s, e), es, true) && Run(w, Step(w, s, e), es) == end
    ensures AllAdmissible(w, s, [e] + es, true) && Run(w, s, [e] + es) == end
  {
    assert ([e] + es)[0] == e && ([e] + es)[1..] == es;
    RunUnfold(w, s, [e] + es);
  }

  /** The lists of the clients, the number of connections so far, and the descriptors in use. */
  ghost predicate At(s: State, m: Masters, srv: Server, n: nat, used: set<nat>) {
    Plain(s, m) && s.clients == srv && |s.net.chans| == n && s.net.open.Keys == used
  }

  /** What such a turn makes of the lists of the clients. */
  predicate Becomes(srv: Server, fd: nat, cid: nat, n: nat, srv': Server) {
    Aligned(srv) && Valid(Accept(srv, fd, cid, n)) && srv' == Purge(Accept(srv, fd, cid, n), 0)
  }

  lemma OneTurn(w: World, m: Masters, s: State, cid: nat, fd: nat, srv: Server, n: nat, used: set<nat>, srv': Server)
    returns (s': State)
    requires DistinctMasters(m) && At(s, m, srv, n, used) && fd !in used && fd !in MasterBag(m)
    requires Becomes(srv, fd, cid, n, srv')
    ensures Turn(w, m, s, fd, cid, s') && At(s', m, srv', n + 1, used + {fd})
  {
    AcceptTurn(w, s, m, fd, cid);
    s' := Step(w, s, Accepting(m, fd, cid));
  }

  lemma StartAt(m: Masters, loss: bool, draws: seq<nat>)
    requires DistinctMasters(m)
    ensures At(Start(m, loss, draws), m, Start(m, loss, draws).clients, 0, {})
  {
    StartInv(m, loss, draws, true);
  }

  /** Three accepts of one CID, as the lists see them. */
  lemma ThreeLists(c0: Server, cid: nat, fds: seq<nat>) returns (c1: Server, c2: Server, c3: Server)
    requires |fds| == 3 && c0 == Server([], [], [], c0.max) && 1 <= c0.max
    ensures Becomes(c0, fds[0], cid, 0, c1) && Becomes(c1, fds[1], cid, 1, c2) && Becomes(c2, fds[2], cid, 2, c3)
    ensures Aligned(c3) && EnabledCount(c3, cid) == 2
  {
    TwoEnabled(c0, cid, fds[0], fds[1], fds[2]);
    c1 := Accept(c0, fds[0], cid, 0);
    c2 := Close(Accept(c1, fds[1], cid, 1), 0);
    c3 := Accept(c2, fds[2], cid, 2);
    PurgeNone(c1, 0);
    PurgeFirst(Accept(c1, fds[1], cid, 1));
    PurgeNone(c3, 0);
  }

  lemma ThreeStates(w: World, m: Masters, s0: State, cid: nat, fds: seq<nat>, c1: Server, c2: Server, c3: Server)
    returns (s1: State, s2: State, s3: State)
    requires DistinctMasters(m) && |fds| == 3 && fds[0] != fds[1] && fds[0] != fds[2] && fds[1] != fds[2]
    requires fds[0] !in MasterBag(m) && fds[1] !in MasterBag(m) && fds[2] !in MasterBag(m)
    requires At(s0, m, s0.clients, 0, {})
    requires Becomes(s0.clients, fds[0], cid, 0, c1) && Becomes(c1, fds[1], cid, 1, c2) && Becomes(c2, fds[2], cid, 2, c3)
    ensures Turn(w, m, s0, fds[0], cid, s1) && Turn(w, m, s1, fds[1], cid, s2) && Turn(w, m, s2, fds[2], cid, s3)
    ensures s3.clients == c3
  {
    s1 := OneTurn(w, m, s0, cid, fds[0], s0.clients, 0, {}, c1);
    s2 := OneTurn(w, m, s1, cid, fds[1], c1, 1, {} + {fds[0]}, c2);
    s3 := OneTurn(w, m, s2, cid, fds[2], c2, 2, {} + {fds[0]} + {fds[1]}, c3);
  }

  /** Three accepts of one CID on a server without clients. */
  lemma ThreeAccepts(w: World, m: Masters, s0: State, cid: nat, fds: seq<nat>) returns (s3: State)
    requires DistinctMasters(m) && |fds| == 3 && fds[0] != fds[1] && fds[0] != fds[2] && fds[1] != fds[2]
    requires forall i :: 0 <= i < 3 ==> fds[i] !in MasterBag(m)
    requires At(s0, m, s0.clients, 0, {}) && s0.clients == Server([], [], [], s0.clients.max) && 1 <= s0.clients.max
    ensures Aligned(s3.clients) && EnabledCount(s3.clients, cid) == 2
    ensures var es := [Accepting(m, fds[0], cid), Accepting(m, fds[1], cid), Accepting(m, fds[2], cid)];
            AllAdmissible(w, s0, es, true) && Run(w, s0, es) == s3
  {
    var c1, c2, c3 := ThreeLists(s0.clients, cid, fds);
    var s1, s2;
    s1, s2, s3 := ThreeStates(w, m, s0, cid, fds, c1, c2, c3);
    ThreeTurns(w, m, cid, fds, s0, s1, s2, s3);
  }

  /**
    A client that connects three times, its earlier connections being still open, ends up with two
    enabled entries : the record of the taken-over entry, archived when that entry is purged, is
    recovered without disabling the entry that took over.
   */
  lemma ServerTwoEnabled(w: World, m: Masters, loss: bool, draws: seq<nat>, cid: nat, fds: seq<nat>)
    requires DistinctMasters(m) && |fds| == 3 && fds[0] != fds[1] && fds[0] != fds[2] && fds[1] != fds[2]
    requires forall i :: 0 <= i < 3 ==> fds[i] !in MasterBag(m)
    ensures var es := [Accepting(m, fds[0], cid), Accepting(m, fds[1], cid), Accepting(m, fds[2], cid)];
            var s := Run(w, Start(m, loss, draws), es);
            && AllAdmissible(w, Start(m, loss, draws), es, true)
            && Aligned(s.clients) && EnabledCount(s.clients, cid) == 2
  {
    StartAt(m, loss, draws);
    var s3 := ThreeAccepts(w, m, Start(m, loss, draws), cid, fds);
  }
}
