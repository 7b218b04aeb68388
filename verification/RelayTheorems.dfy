/** The main results about the relay, each over every run. */
module RelayTheorems {
  import opened Wire
  import opened Channels
  import opened Nets
  import opened Registry
  import opened Scheduler
  import opened Relay
  import opened RelayInvariant
  import opened RelayRuns
  import opened RelayLedger

  // ---------- ForwardData is a fold ----------

  /** Visit the entry of a descriptor, wherever it is now. */
  function VisitFd(w: World, s: State, spy: bool, fd: nat): State
    requires Sound(s)
  {
    var fds := Fds(Side(s, spy).socks);
    var i := Position(fds, fd, 0);
    if i < |fds| then Visit(w, s, spy, i) else s
  }

  lemma VisitFdSound(w: World, s: State, spy: bool, fd: nat)
    requires Sound(s)
    ensures Sound(VisitFd(w, s, spy, fd))
  {
    var i := Position(Fds(Side(s, spy).socks), fd, 0);
    if i < |Side(s, spy).socks| {
      VisitSound(w, s, spy, i);
    }
  }

  /** Each descriptor of a list once, in the order of the list. */
  function VisitAll(w: World, s: State, spy: bool, fds: seq<nat>): State
    requires Sound(s)
    decreases |fds|
  {
    if fds == [] then s
    else
      VisitFdSound(w, s, spy, fds[0]);
      VisitAll(w, VisitFd(w, s, spy, fds[0]), spy, fds[1..])
  }

  lemma ShapeFds(s: State, s': State, spy: bool)
    requires SameShape(s, s')
    ensures Fds(Side(s', spy).socks) == Fds(Side(s, spy).socks)
  {
  }

  lemma VisitLeaves(w: World, s: State, spy: bool, i: nat)
    requires Sound(s) && i < |Side(s, spy).socks| && Leaves(s, spy, i)
    ensures Side(Visit(w, s, spy, i), spy).socks == Erase(Side(s, spy).socks, i)
  {
  }

  lemma VisitStays(w: World, s: State, spy: bool, i: nat)
    requires Sound(s) && i < |Side(s, spy).socks| && !Leaves(s, spy, i)
    ensures Fds(Side(Visit(w, s, spy, i), spy).socks) == Fds(Side(s, spy).socks)
  {
    var sock := Side(s, spy).socks[i];
    if sock.fd in s.sel.dup {
      var r, sH := Receive(Chan(s.net, sock.fd)), Heard(s, spy, i);
      var s' := Relayed(w, sH, spy, i, Frame(r.power, r.data));
      assert Visit(w, s, spy, i) == s';
      RelayedShape(w, sH, spy, i, Frame(r.power, r.data));
      ShapeFds(sH, s', spy);
    }
  }

  /** A visit erases the visited entry or leaves the list of descriptors as it is. */
  lemma VisitFds(w: World, s: State, spy: bool, i: nat)
    requires Sound(s) && i < |Side(s, spy).socks|
    ensures var fds := Fds(Side(s, spy).socks);
            Fds(Side(Visit(w, s, spy, i), spy).socks) == if Leaves(s, spy, i) then Erase(fds, i) else fds
  {
    if Leaves(s, spy, i) {
      VisitLeaves(w, s, spy, i);
      assert Fds(Erase(Side(s, spy).socks, i)) == Erase(Fds(Side(s, spy).socks), i);
    } else {
      VisitStays(w, s, spy, i);
    }
  }

  /** An entry is erased by its visit exactly when it is disabled, or ready and what is read of it is not positive. */
  lemma VisitErases(w: World, s: State, spy: bool, i: nat)
    requires Sound(s) && i < |Side(s, spy).socks|
    ensures var sock, fds := Side(s, spy).socks[i], Fds(Side(s, spy).socks);
            var fds' := Fds(Side(Visit(w, s, spy, i), spy).socks);
            var failing := sock.fd in s.sel.dup && (Reaches(s.net, sock.fd) ==> Receive(Chan(s.net, sock.fd)).valread <= 0);
            fds' == if !sock.enabled || failing then fds[..i] + fds[i + 1..] else fds
  {
    VisitFds(w, s, spy, i);
  }

  lemma PositionUnique(s: State, spy: bool, i: nat)
    requires Registered(s) && i < |Side(s, spy).socks|
    ensures var fds := Fds(Side(s, spy).socks); Position(fds, fds[i], 0) == i
  {
    Unique(s, spy, i);
    var fds := Fds(Side(s, spy).socks);
    var k := Position(fds, fds[i], 0);
    assert k <= i;
    assert Side(s, spy).socks[k].fd == fds[i];
  }

  lemma VisitAllUnfold(w: World, s: State, spy: bool, i: nat)
    requires Inv(s, false) && i < |Side(s, spy).socks|
    ensures var fds := Fds(Side(s, spy).socks);
            && Sound(Visit(w, s, spy, i))
            && VisitAll(w, s, spy, fds[i..]) == VisitAll(w, Visit(w, s, spy, i), spy, fds[i + 1..])
  {
    var fds := Fds(Side(s, spy).socks);
    PositionUnique(s, spy, i);
    VisitSound(w, s, spy, i);
    assert fds[i..][0] == fds[i] && fds[i..][1..] == fds[i + 1..];
  }

  /** The list after the visit of position `i`, seen from its next position. */
  lemma VisitLists(w: World, t: State, spy: bool, i: nat)
    requires Sound(t) && i < |Side(t, spy).socks|
    ensures var fds := Fds(Side(t, spy).socks); var fds' := Fds(Side(Visit(w, t, spy, i), spy).socks);
            var i' := if Leaves(t, spy, i) then i else i + 1;
            && i' <= |fds'| && fds'[i'..] == fds[i + 1..]
            && fds'[..i'] == fds[..i] + if Leaves(t, spy, i) then [] else [fds[i]]
  {
    VisitFds(w, t, spy, i);
  }

  /** One turn of the loop is one visit of the fold. */
  lemma FoldStep(w: World, s: State, spy: bool, i: nat)
    requires Inv(s, false) && i < |Side(s, spy).socks|
    ensures var s', i' := Visit(w, s, spy, i), if Leaves(s, spy, i) then i else i + 1;
            && Inv(s', false) && i' <= |Side(s', spy).socks| && |Side(s', spy).socks| - i' < |Side(s, spy).socks| - i
            && Forward(w, s, spy, i) == Forward(w, s', spy, i')
            && VisitAll(w, s, spy, Fds(Side(s, spy).socks)[i..]) == VisitAll(w, s', spy, Fds(Side(s', spy).socks)[i'..])
  {
    ForwardUnfold(w, s, spy, i);
    VisitSound(w, s, spy, i);
    VisitKeeps(w, s, false, spy, i);
    VisitLists(w, s, spy, i);
    VisitAllUnfold(w, s, spy, i);
  }

  /**
    ForwardData refines a fold over the list as it was when it began : every client is visited
    exactly once, in order, although the list is erased from while it is walked.
   */
  lemma {:induction false} ForwardIsFold(w: World, s: State, spy: bool, i: nat)
    requires Inv(s, false) && i <= |Side(s, spy).socks|
    ensures Forward(w, s, spy, i) == VisitAll(w, s, spy, Fds(Side(s, spy).socks)[i..])
    decreases |Side(s, spy).socks| - i
  {
    if i < |Side(s, spy).socks| {
      FoldStep(w, s, spy, i);
      ForwardIsFold(w, Visit(w, s, spy, i), spy, if Leaves(s, spy, i) then i else i + 1);
    }
  }

  lemma {:induction false} VisitAllSound(w: World, s: State, spy: bool, fds: seq<nat>)
    requires Sound(s)
    ensures Sound(VisitAll(w, s, spy, fds))
    decreases |fds|
  {
    if fds != [] {
      VisitFdSound(w, s, spy, fds[0]);
      VisitAllSound(w, VisitFd(w, s, spy, fds[0]), spy, fds[1..]);
    }
  }

  lemma {:induction false} VisitAllSnoc(w: World, s: State, spy: bool, fds: seq<nat>, fd: nat)
    requires Sound(s)
    ensures Sound(VisitAll(w, s, spy, fds))
    ensures VisitAll(w, s, spy, fds + [fd]) == VisitFd(w, VisitAll(w, s, spy, fds), spy, fd)
    decreases |fds|
  {
    VisitAllSound(w, s, spy, fds);
    if fds == [] {
      assert [fd][1..] == [] && [] + [fd] == [fd];
    } else {
      VisitFdSound(w, s, spy, fds[0]);
      VisitAllSnoc(w, VisitFd(w, s, spy, fds[0]), spy, fds[1..], fd);
      assert (fds + [fd])[0] == fds[0] && (fds + [fd])[1..] == fds[1..] + [fd];
    }
  }

  /** The entry of a descriptor is disabled, or ready and failing to be read. */
  predicate Failing(s: State, spy: bool, fd: nat) {
    var fds := Fds(Side(s, spy).socks);
    var i := Position(fds, fd, 0);
    i < |fds| && Leaves(s, spy, i)
  }

  /** Those descriptors, from the `j`-th on, that are not failing after the visits of all those before them. */
  function Survivors(w: World, s: State, spy: bool, fds: seq<nat>, j: nat): seq<nat>
    requires Sound(s) && j <= |fds|
    decreases |fds| - j
  {
    if j == |fds| then []
    else (if Failing(VisitAll(w, s, spy, fds[..j]), spy, fds[j]) then [] else [fds[j]]) + Survivors(w, s, spy, fds, j + 1)
  }

  lemma FailingHere(w: World, t: State, spy: bool, i: nat)
    requires Inv(t, false) && i < |Side(t, spy).socks|
    ensures var fd := Side(t, spy).socks[i].fd;
            (Failing(t, spy, fd) <==> Leaves(t, spy, i)) && VisitFd(w, t, spy, fd) == Visit(w, t, spy, i)
  {
    PositionUnique(t, spy, i);
  }

  /** `t` is the state after the visits of the first `j` descriptors, and `i` the index of the loop then. */
  ghost predicate AtTurn(w: World, s: State, spy: bool, fds: seq<nat>, j: nat, t: State, i: nat)
    requires Sound(s) && j <= |fds|
  {
    && t == VisitAll(w, s, spy, fds[..j]) && Inv(t, false)
    && i <= |Side(t, spy).socks| && Fds(Side(t, spy).socks)[i..] == fds[j..]
  }

  lemma TurnHere(w: World, s: State, spy: bool, fds: seq<nat>, j: nat, t: State, i: nat)
    requires Sound(s) && j < |fds| && AtTurn(w, s, spy, fds, j, t, i)
    ensures i < |Side(t, spy).socks| && Side(t, spy).socks[i].fd == fds[j]
  {
    var now := Fds(Side(t, spy).socks);
    assert |now[i..]| == |fds[j..]| && now[i..][0] == fds[j..][0];
  }

  lemma VisitedNext(w: World, s: State, spy: bool, fds: seq<nat>, j: nat, t: State, i: nat)
    requires Sound(s) && j < |fds| && t == VisitAll(w, s, spy, fds[..j])
    requires Inv(t, false) && i < |Side(t, spy).socks| && Side(t, spy).socks[i].fd == fds[j]
    ensures Visit(w, t, spy, i) == VisitAll(w, s, spy, fds[..j + 1])
    ensures Failing(t, spy, fds[j]) <==> Leaves(t, spy, i)
  {
    FailingHere(w, t, spy, i);
    VisitAllNext(w, s, spy, fds, j);
  }

  lemma VisitAllNext(w: World, s: State, spy: bool, fds: seq<nat>, j: nat)
    requires Sound(s) && j < |fds|
    ensures Sound(VisitAll(w, s, spy, fds[..j]))
    ensures VisitAll(w, s, spy, fds[..j + 1]) == VisitFd(w, VisitAll(w, s, spy, fds[..j]), spy, fds[j])
  {
    VisitAllSnoc(w, s, spy, fds[..j], fds[j]);
    assert fds[..j] + [fds[j]] == fds[..j + 1];
  }

  lemma SuffixNext<T>(a: seq<T>, i: nat, b: seq<T>, j: nat)
    requires i < |a| && j < |b| && a[i..] == b[j..]
    ensures a[i + 1..] == b[j + 1..]
  {
    assert a[i + 1..] == a[i..][1..] && b[j + 1..] == b[j..][1..];
  }

  lemma TurnNext(w: World, s: State, spy: bool, fds: seq<nat>, j: nat, t: State, i: nat)
    requires Sound(s) && j < |fds| && AtTurn(w, s, spy, fds, j, t, i) && i < |Side(t, spy).socks|
    ensures AtTurn(w, s, spy, fds, j + 1, Visit(w, t, spy, i), if Leaves(t, spy, i) then i else i + 1)
    ensures Failing(t, spy, fds[j]) <==> Leaves(t, spy, i)
  {
    TurnHere(w, s, spy, fds, j, t, i);
    VisitedNext(w, s, spy, fds, j, t, i);
    VisitKeeps(w, t, false, spy, i);
    VisitLists(w, t, spy, i);
    SuffixNext(Fds(Side(t, spy).socks), i, fds, j);
  }

  lemma {:induction false} SurvivorsFrom(w: World, s: State, spy: bool, fds: seq<nat>, j: nat, t: State, i: nat)
    requires Sound(s) && j <= |fds| && AtTurn(w, s, spy, fds, j, t, i)
    ensures Fds(Side(Forward(w, t, spy, i), spy).socks) == Fds(Side(t, spy).socks)[..i] + Survivors(w, s, spy, fds, j)
    decreases |fds| - j
  {
    var now := Fds(Side(t, spy).socks);
    if j == |fds| {
      assert |now[i..]| == 0 && now[..i] == now;
    } else {
      TurnHere(w, s, spy, fds, j, t, i);
      TurnNext(w, s, spy, fds, j, t, i);
      ForwardUnfold(w, t, spy, i);
      VisitLists(w, t, spy, i);
      var t', i' := Visit(w, t, spy, i), if Leaves(t, spy, i) then i else i + 1;
      SurvivorsFrom(w, s, spy, fds, j + 1, t', i');
      SurvivorsUnfold(w, s, spy, fds, j, now[..i]);
    }
  }

  lemma SurvivorsUnfold(w: World, s: State, spy: bool, fds: seq<nat>, j: nat, before: seq<nat>)
    requires Sound(s) && j < |fds|
    ensures before + Survivors(w, s, spy, fds, j)
         == (before + if Failing(VisitAll(w, s, spy, fds[..j]), spy, fds[j]) then [] else [fds[j]])
            + Survivors(w, s, spy, fds, j + 1)
  {
  }

  lemma FirstTurn(w: World, s: State, spy: bool)
    requires Inv(s, false)
    ensures AtTurn(w, s, spy, Fds(Side(s, spy).socks), 0, s, 0)
  {
    assert Fds(Side(s, spy).socks)[..0] == [];
  }

  lemma NoneBefore(fds: seq<nat>, s: seq<nat>)
    ensures fds[..0] + s == s
  {
  }

  /** After ForwardData exactly the survivors of the list as it was are left, in their old order. */
  lemma ForwardSurvivors(w: World, s: State, spy: bool)
    requires Inv(s, false)
    ensures var fds := Fds(Side(s, spy).socks);
            Fds(Side(Forward(w, s, spy, 0), spy).socks) == Survivors(w, s, spy, fds, 0)
  {
    var fds := Fds(Side(s, spy).socks);
    FirstTurn(w, s, spy);
    SurvivorsFrom(w, s, spy, fds, 0, s, 0);
    NoneBefore(fds, Survivors(w, s, spy, fds, 0));
  }

  // ---------- streams ----------

  /**
    Stream integrity over every run : what was written to a connection is whole frames, then at
    most one partial frame; and whatever way recv cuts it, the peer decodes exactly the frames
    sent whole, in order, and then nothing.
   */
  lemma StreamIntegrity(w: World, s: State, es: seq<Input>, k: nat, peer: Channel)
    requires Inv(s, true) && AllAdmissible(w, s, es, true) && k < |Run(w, s, es).net.chans|
    requires Willing(peer) && peer.incoming == Run(w, s, es).net.chans[k].written
    ensures var ch := Run(w, s, es).net.chans[k];
            && Ordered(ch.log) && AllWellFormed(SentFrames(ch.log))
            && ch.written == EncodeAll(SentFrames(ch.log)) + PartialBytes(ch.log)
            && Decode(ch.written) == Decoded(SentFrames(ch.log), PartialBytes(ch.log))
            && var got := ReceiveMany(peer, |SentFrames(ch.log)|);
               got.frames == SentFrames(ch.log) && Receive(got.chan).valread <= 0
  {
    RunKeeps(w, s, true, es);
    var ch := Run(w, s, es).net.chans[k];
    assert ChanOk(ch, true);
    WrittenDecodes(ch);
    PartialIncomplete(ch);
    RoundTrip(peer, SentFrames(ch.log), PartialBytes(ch.log));
    NothingFromPart(ReceiveMany(peer, |SentFrames(ch.log)|).chan);
  }

  // ---------- conservation, end to end ----------

  lemma {:induction false} AdmissibleWeaken(w: World, s: State, es: seq<Input>)
    requires Sound(s) && AllAdmissible(w, s, es, true)
    ensures AllAdmissible(w, s, es, false)
    decreases |es|
  {
    if es != [] {
      StepSound(w, s, es[0]);
      AdmissibleWeaken(w, Step(w, s, es[0]), es[1..]);
    }
  }

  /** Loss is disabled at the start of a run and never enabled in it. */
  predicate Lossless(loss: bool, es: seq<Input>) {
    !loss && forall i :: 0 <= i < |es| ==> es[i].order != PacketLoss(true)
  }

  /** What the peer of entry `j` can decode, against what everyone else has sent since it was accepted. */
  predicate Hears(s: State, spy: bool, j: nat, mode: Mode)
    requires j < |Side(s, spy).socks|
  {
    var fd := Side(s, spy).socks[j].fd;
    && Reaches(s.net, fd) && Chan(s.net, fd).since <= |s.heard|
    && Matches(Decode(Chan(s.net, fd).written).frames, Others(s.heard[Chan(s.net, fd).since..], s.net.open[fd]), mode)
  }

  lemma EntryHears(s: State, spy: bool, mode: Mode, j: nat)
    requires Inv(s, true) && SideBalanced(s, spy, mode)
    requires j < |Side(s, spy).socks| && Side(s, spy).socks[j].enabled
    ensures Hears(s, spy, j, mode)
  {
    EntryReaches(s, true, spy, j);
    WrittenDecodes(Chan(s.net, Side(s, spy).socks[j].fd));
    assert EntryBalanced(s, Side(s, spy).socks[j], mode);
  }

  /** After any run from a state in which the books are kept. */
  lemma RunHears(w: World, s: State, quiet: bool, es: seq<Input>, spy: bool, j: nat)
    requires Inv(s, true) && Inv(s, false) && Ledger(s, quiet) && AllAdmissible(w, s, es, true)
    requires quiet ==> Lossless(false, es)
    requires j < |Side(Run(w, s, es), spy).socks| && Side(Run(w, s, es), spy).socks[j].enabled
    ensures Hears(Run(w, s, es), spy, j, if spy then Exact else ClientMode(quiet))
  {
    AdmissibleWeaken(w, s, es);
    RunKeeps(w, s, true, es);
    RunLedger(w, s, quiet, es);
    EntryHears(Run(w, s, es), spy, if spy then Exact else ClientMode(quiet), j);
  }

  lemma StartBooks(m: Masters, loss: bool, draws: seq<nat>, quiet: bool)
    requires DistinctMasters(m) && (quiet ==> !loss)
    ensures var s := Start(m, loss, draws); Inv(s, true) && Inv(s, false) && Ledger(s, quiet)
  {
    StartInv(m, loss, draws, true);
    StartInv(m, loss, draws, false);
    StartLedger(m, loss, draws, quiet);
  }

  /**
    In every run of the server, what a spy that is still enabled can decode from its stream is
    exactly the sequence of frames received from all the other parties since it was accepted,
    powers included, whatever was lost on the way to the clients.
   */
  lemma SpyHearsAll(w: World, m: Masters, loss: bool, draws: seq<nat>, es: seq<Input>, j: nat)
    requires DistinctMasters(m) && AllAdmissible(w, Start(m, loss, draws), es, true)
    requires var s := Run(w, Start(m, loss, draws), es); j < |s.spies.socks| && s.spies.socks[j].enabled
    ensures Hears(Run(w, Start(m, loss, draws), es), true, j, Exact)
  {
    StartBooks(m, loss, draws, false);
    RunHears(w, Start(m, loss, draws), false, es, true, j);
  }

  /**
    What a client that is still enabled can decode is the sequence of those frames, powers apart,
    in a run in which loss is never enabled; in every run it is a subsequence of it, in order
    and with nothing twice.
   */
  lemma ClientHears(w: World, m: Masters, loss: bool, draws: seq<nat>, es: seq<Input>, j: nat)
    requires DistinctMasters(m) && AllAdmissible(w, Start(m, loss, draws), es, true)
    requires var s := Run(w, Start(m, loss, draws), es); j < |s.clients.socks| && s.clients.socks[j].enabled
    ensures Hears(Run(w, Start(m, loss, draws), es), false, j, if Lossless(loss, es) then Apart else Thinned)
  {
    StartBooks(m, loss, draws, Lossless(loss, es));
    RunHears(w, Start(m, loss, draws), Lossless(loss, es), es, false, j);
  }

  // ---------- the scheduler ----------

  /** The order to close all clients leaves exactly the listening descriptors registered. */
  lemma CloseAllLeavesMasters(s: State, clean: bool)
    requires Inv(s, clean)
    ensures var s' := Control(s, CloseAllClient);
            && s'.clients.socks == [] && s'.spies.socks == []
            && Agrees(s'.sel) && multiset(s'.sel.nodes) == MasterBag(s.masters)
  {
    CloseAllKeeps(s, clean);
    CloseAllUnfold(s);
    CloseAllArchive(s.clients);
    CloseAllArchive(s.spies);
    assert Fds([]) == [];
  }
}
