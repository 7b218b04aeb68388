/** Exactly who is offered a frame, and what becomes of everyone else. */
module RelayFanOut {
  import opened Wire
  import opened Channels
  import opened Nets
  import opened Registry
  import opened Radio
  import opened Relay
  import opened RelayInvariant

  /** The connection of the entry at position `j`. */
  function ConnAt(s: State, spy: bool, j: nat): (k: nat)
    requires j < |Side(s, spy).socks| && Reaches(s.net, Side(s, spy).socks[j].fd)
    ensures k < |s.net.chans|
  {
    s.net.open[Side(s, spy).socks[j].fd]
  }

  predicate Misses(s: State, spy: bool, i: nat, k: nat) {
    forall j :: i <= j < |Side(s, spy).socks| && Reaches(s.net, Side(s, spy).socks[j].fd) ==> ConnAt(s, spy, j) != k
  }

  /** Two entries, on one side or on both, are two connections. */
  lemma ConnsDiffer(s: State, spy: bool, i: nat, side: bool, j: nat)
    requires Inv(s, false) && i < |Side(s, spy).socks| && j < |Side(s, side).socks| && (side != spy || i != j)
    ensures Reaches(s.net, Side(s, spy).socks[i].fd) && Reaches(s.net, Side(s, side).socks[j].fd)
    ensures ConnAt(s, spy, i) != ConnAt(s, side, j)
  {
    EntryReaches(s, false, spy, i);
    EntryReaches(s, false, side, j);
    Unique(s, spy, i);
  }

  /** The entries of a side are open, aligned, and all different connections. */
  predicate Spread(s: State, spy: bool) {
    var srv := Side(s, spy);
    && Aligned(srv)
    && (forall i :: 0 <= i < |srv.socks| ==> Reaches(s.net, srv.socks[i].fd))
    && (forall i, j :: 0 <= i < j < |srv.socks| ==> s.net.open[srv.socks[i].fd] != s.net.open[srv.socks[j].fd])
  }

  lemma InvSpread(s: State, spy: bool)
    requires Inv(s, false)
    ensures Spread(s, spy)
  {
    var srv := Side(s, spy);
    forall i | 0 <= i < |srv.socks| ensures Reaches(s.net, srv.socks[i].fd) {
      EntryReaches(s, false, spy, i);
    }
    forall i, j | 0 <= i < j < |srv.socks| ensures s.net.open[srv.socks[i].fd] != s.net.open[srv.socks[j].fd] {
      ConnsDiffer(s, spy, i, spy, j);
    }
  }

  lemma ShapeSpread(s: State, s': State, spy: bool)
    requires Spread(s, spy) && SameShape(s, s')
    ensures Spread(s', spy)
  {
  }

  // ---------- one turn ----------

  lemma OfferElse(s: State, spy: bool, i: nat, f: Frame, k: nat)
    requires i < |Side(s, spy).socks| && k < |s.net.chans|
    requires Reaches(s.net, Side(s, spy).socks[i].fd) ==> ConnAt(s, spy, i) != k
    ensures Offer(s, spy, i, f).net.chans[k] == s.net.chans[k]
  {
  }

  lemma FanOutAtElse(w: World, s: State, c: Cast, i: nat, k: nat)
    requires Aligned(Side(s, c.spy)) && i < |Side(s, c.spy).socks| && k < |s.net.chans|
    requires Reaches(s.net, Side(s, c.spy).socks[i].fd) ==> ConnAt(s, c.spy, i) != k
    ensures FanOutAt(w, s, c, i).net.chans[k] == s.net.chans[k]
  {
    var f := FrameFor(w, s, c, i);
    OfferElse(s, c.spy, i, f, k);
    OfferElse(s.(draws := NextDraws(s.draws)), c.spy, i, f, k);
  }

  lemma FanOutAtFlags(w: World, s: State, c: Cast, i: nat, j: nat)
    requires Aligned(Side(s, c.spy)) && i < |Side(s, c.spy).socks| && j < |Side(s, c.spy).socks| && j != i
    ensures var s' := FanOutAt(w, s, c, i);
            && |Side(s', c.spy).socks| == |Side(s, c.spy).socks|
            && Side(s', c.spy).socks[j] == Side(s, c.spy).socks[j]
            && Side(s', !c.spy) == Side(s, !c.spy)
  {
  }

  /** What one entry may come to : nothing, or exactly one SendSignal, its flag following. */
  predicate Untouched(s: State, s': State, spy: bool, j: nat)
    requires j < |Side(s, spy).socks| && SameShape(s, s')
  {
    && Side(s', spy).socks[j] == Side(s, spy).socks[j]
    && (Reaches(s.net, Side(s, spy).socks[j].fd) ==>
          s'.net.chans[ConnAt(s, spy, j)] == s.net.chans[ConnAt(s, spy, j)])
  }

  predicate OfferedOnce(s: State, s': State, spy: bool, j: nat, f: Frame)
    requires j < |Side(s, spy).socks| && SameShape(s, s') && Reaches(s.net, Side(s, spy).socks[j].fd)
  {
    var p := SendSignal(s.net.chans[ConnAt(s, spy, j)], f);
    Side(s', spy).socks[j].enabled == p.ok && s'.net.chans[ConnAt(s, spy, j)] == p.chan
  }

  /** How many entries from `i` on have their turn before `j`. */
  function Turns(socks: seq<Sock>, skip: int, i: nat, j: nat): nat
    requires i <= j <= |socks|
    decreases j - i
  {
    if i == j then 0
    else (if i != skip && socks[i].enabled then 1 else 0) + Turns(socks, skip, i + 1, j)
  }

  /** The value of rand() after `n` calls. */
  function DrawAt(draws: seq<nat>, n: nat): nat {
    if n < |draws| then draws[n] else 0
  }

  /** The draw that decides on entry `j` in a cast that starts at `i`. */
  function DrawFor(s: State, c: Cast, i: nat, j: nat): nat
    requires i <= j <= |Side(s, c.spy).socks|
  {
    DrawAt(s.draws, Turns(Side(s, c.spy).socks, c.skip, i, j))
  }

  /** The outcome for entry `j` of a cast that starts at `i` : exactly one offer, unless it is skipped, disabled or lost. */
  predicate Outcome(w: World, s: State, s': State, c: Cast, i: nat, j: nat)
    requires i <= j < |Side(s, c.spy).socks| && Aligned(Side(s, c.spy)) && SameShape(s, s')
    requires Reaches(s.net, Side(s, c.spy).socks[j].fd)
  {
    var f := FrameFor(w, s, c, j);
    if j == c.skip || !Side(s, c.spy).socks[j].enabled then
      Untouched(s, s', c.spy, j)
    else if c.from.Some? && s.loss && PacketIsLost(f.power, DrawFor(s, c, i, j)) then
      Untouched(s, s', c.spy, j)
    else
      OfferedOnce(s, s', c.spy, j, f)
  }

  lemma {:induction false} TurnsSame(a: seq<Sock>, b: seq<Sock>, skip: int, i: nat, j: nat)
    requires i <= j <= |a| && |a| == |b| && forall t :: i <= t < j ==> a[t] == b[t]
    ensures Turns(a, skip, i, j) == Turns(b, skip, i, j)
    decreases j - i
  {
    if i < j {
      TurnsSame(a, b, skip, i + 1, j);
    }
  }

  /** The turn of an earlier entry takes one draw exactly when it counts. */
  lemma DrawMoves(w: World, s: State, c: Cast, i: nat, j: nat)
    requires Aligned(Side(s, c.spy)) && i < j < |Side(s, c.spy).socks| && c.from.Some? && s.loss
    ensures var s1 := FanOutAt(w, s, c, i);
            |Side(s1, c.spy).socks| == |Side(s, c.spy).socks| && DrawFor(s, c, i, j) == DrawFor(s1, c, i + 1, j)
  {
    var s1 := FanOutAt(w, s, c, i);
    FanOutAtLength(w, s, c, i);
    forall t | i + 1 <= t < j ensures Side(s, c.spy).socks[t] == Side(s1, c.spy).socks[t] {
      FanOutAtFlags(w, s, c, i, t);
    }
    TurnsSame(Side(s, c.spy).socks, Side(s1, c.spy).socks, c.skip, i + 1, j);
    FanOutAtDraws(w, s, c, i);
  }

  lemma FanOutAtDraws(w: World, s: State, c: Cast, i: nat)
    requires Aligned(Side(s, c.spy)) && i < |Side(s, c.spy).socks| && c.from.Some? && s.loss
    ensures FanOutAt(w, s, c, i).draws
         == if i == c.skip || !Side(s, c.spy).socks[i].enabled then s.draws else NextDraws(s.draws)
  {
  }

  lemma FanOutAtOutcome(w: World, s: State, c: Cast, i: nat)
    requires Aligned(Side(s, c.spy)) && i < |Side(s, c.spy).socks| && Reaches(s.net, Side(s, c.spy).socks[i].fd)
    ensures SameShape(s, FanOutAt(w, s, c, i)) && Outcome(w, s, FanOutAt(w, s, c, i), c, i, i)
  {
    FanOutAtShape(w, s, c, i);
  }

  // ---------- the whole loop ----------

  lemma {:induction false} FanOutElse(w: World, s: State, c: Cast, i: nat, k: nat)
    requires Aligned(Side(s, c.spy)) && i <= |Side(s, c.spy).socks| && k < |s.net.chans| && Misses(s, c.spy, i, k)
    ensures |FanOut(w, s, c, i).net.chans| == |s.net.chans| && FanOut(w, s, c, i).net.chans[k] == s.net.chans[k]
    decreases |Side(s, c.spy).socks| - i
  {
    if i < |Side(s, c.spy).socks| {
      FanOutUnfold(w, s, c, i);
      FanOutAtShape(w, s, c, i);
      FanOutAtElse(w, s, c, i, k);
      FanOutElse(w, FanOutAt(w, s, c, i), c, i + 1, k);
    }
  }

  /** The other side's lists, and the flags already passed, stay as they are. */
  lemma {:induction false} FanOutFlags(w: World, s: State, c: Cast, i: nat, j: nat)
    requires Aligned(Side(s, c.spy)) && j < i <= |Side(s, c.spy).socks|
    ensures var s' := FanOut(w, s, c, i);
            |Side(s', c.spy).socks| == |Side(s, c.spy).socks| && Side(s', c.spy).socks[j] == Side(s, c.spy).socks[j]
    decreases |Side(s, c.spy).socks| - i
  {
    if i < |Side(s, c.spy).socks| {
      FanOutUnfold(w, s, c, i);
      FanOutAtFlags(w, s, c, i, j);
      FanOutFlags(w, FanOutAt(w, s, c, i), c, i + 1, j);
    }
  }

  lemma FanOutOtherSide(w: World, s: State, c: Cast, i: nat)
    requires Aligned(Side(s, c.spy)) && i <= |Side(s, c.spy).socks|
    ensures Side(FanOut(w, s, c, i), !c.spy) == Side(s, !c.spy)
  {
    FanOutInduct(w, s, c, i, (t: State) => Side(t, !c.spy) == Side(s, !c.spy));
  }

  /** The turns before that of `j` do not show in its outcome. */
  lemma OutcomeLater(w: World, s: State, s1: State, s': State, c: Cast, i: nat, i1: nat, j: nat)
    requires SameShape(s, s1) && SameShape(s1, s') && Aligned(Side(s, c.spy)) && i <= j && i1 <= j < |Side(s, c.spy).socks|
    requires Reaches(s.net, Side(s, c.spy).socks[j].fd)
    requires Untouched(s, s1, c.spy, j) && Outcome(w, s1, s', c, i1, j)
    requires c.from.Some? && s.loss ==> DrawFor(s, c, i, j) == DrawFor(s1, c, i1, j)
    ensures SameShape(s, s') && Outcome(w, s, s', c, i, j)
  {
    ShapeTwice(s, s1, s');
    assert FrameFor(w, s, c, j) == FrameFor(w, s1, c, j);
  }

  /** Nor do the turns after it. */
  lemma OutcomeHere(w: World, s: State, s1: State, s': State, c: Cast, i: nat, j: nat)
    requires SameShape(s, s1) && SameShape(s1, s') && Aligned(Side(s, c.spy)) && i <= j < |Side(s, c.spy).socks|
    requires Reaches(s.net, Side(s, c.spy).socks[j].fd)
    requires Outcome(w, s, s1, c, i, j) && Untouched(s1, s', c.spy, j)
    ensures SameShape(s, s') && Outcome(w, s, s', c, i, j)
  {
    ShapeTwice(s, s1, s');
  }

  lemma FanOutAtOther(w: World, s: State, c: Cast, i: nat, j: nat)
    requires Spread(s, c.spy) && i < j < |Side(s, c.spy).socks|
    ensures SameShape(s, FanOutAt(w, s, c, i)) && Untouched(s, FanOutAt(w, s, c, i), c.spy, j)
  {
    FanOutAtShape(w, s, c, i);
    FanOutAtElse(w, s, c, i, ConnAt(s, c.spy, j));
    FanOutAtFlags(w, s, c, i, j);
  }

  lemma SpreadMisses(s: State, spy: bool, i: nat)
    requires Spread(s, spy) && i < |Side(s, spy).socks|
    ensures Misses(s, spy, i + 1, ConnAt(s, spy, i))
  {
  }

  lemma FanOutPassed(w: World, s: State, c: Cast, i: nat)
    requires Spread(s, c.spy) && i < |Side(s, c.spy).socks|
    ensures SameShape(s, FanOut(w, s, c, i + 1)) && Untouched(s, FanOut(w, s, c, i + 1), c.spy, i)
  {
    SpreadMisses(s, c.spy, i);
    FanOutShape(w, s, c, i + 1);
    FanOutFlags(w, s, c, i + 1, i);
    FanOutElse(w, s, c, i + 1, ConnAt(s, c.spy, i));
  }

  lemma ExactLater(w: World, s: State, c: Cast, i: nat, j: nat, s': State)
    requires Spread(s, c.spy) && i < j < |Side(s, c.spy).socks|
    requires var s1 := FanOutAt(w, s, c, i);
             Spread(s1, c.spy) && SameShape(s, s1) && SameShape(s1, s') && Outcome(w, s1, s', c, i + 1, j)
    ensures SameShape(s, s') && Outcome(w, s, s', c, i, j)
  {
    FanOutAtOther(w, s, c, i, j);
    if c.from.Some? && s.loss {
      DrawMoves(w, s, c, i, j);
    }
    OutcomeLater(w, s, FanOutAt(w, s, c, i), s', c, i, i + 1, j);
  }

  lemma ExactHere(w: World, s: State, c: Cast, i: nat)
    requires Spread(s, c.spy) && i < |Side(s, c.spy).socks|
    requires var s1 := FanOutAt(w, s, c, i); Spread(s1, c.spy) && SameShape(s, s1)
    ensures var s' := FanOut(w, FanOutAt(w, s, c, i), c, i + 1);
            SameShape(s, s') && Outcome(w, s, s', c, i, i)
  {
    var s1 := FanOutAt(w, s, c, i);
    FanOutAtOutcome(w, s, c, i);
    FanOutPassed(w, s1, c, i);
    OutcomeHere(w, s, s1, FanOut(w, s1, c, i + 1), c, i, i);
  }

  /** Every entry from `i` on is treated exactly once, as if it were alone. */
  lemma {:induction false} FanOutExact(w: World, s: State, c: Cast, i: nat, j: nat)
    requires Spread(s, c.spy) && i <= j < |Side(s, c.spy).socks|
    ensures SameShape(s, FanOut(w, s, c, i)) && Outcome(w, s, FanOut(w, s, c, i), c, i, j)
    decreases |Side(s, c.spy).socks| - i
  {
    var s1 := FanOutAt(w, s, c, i);
    FanOutAtShape(w, s, c, i);
    ShapeSpread(s, s1, c.spy);
    FanOutUnfold(w, s, c, i);
    if i < j {
      FanOutExact(w, s1, c, i + 1, j);
      ExactLater(w, s, c, i, j, FanOut(w, s1, c, i + 1));
    } else {
      ExactHere(w, s, c, i);
    }
  }

  // ---------- both casts of a frame ----------

  /** No entry of one side shares a connection with the other side. */
  predicate Crossed(s: State) {
    forall i, j | 0 <= i < |s.clients.socks| && 0 <= j < |s.spies.socks| ::
      Reaches(s.net, s.clients.socks[i].fd) && Reaches(s.net, s.spies.socks[j].fd)
      ==> s.net.open[s.clients.socks[i].fd] != s.net.open[s.spies.socks[j].fd]
  }

  lemma InvCrossed(s: State)
    requires Inv(s, false)
    ensures Crossed(s)
  {
    forall i, j | 0 <= i < |s.clients.socks| && 0 <= j < |s.spies.socks| &&
      Reaches(s.net, s.clients.socks[i].fd) && Reaches(s.net, s.spies.socks[j].fd)
      ensures s.net.open[s.clients.socks[i].fd] != s.net.open[s.spies.socks[j].fd]
    {
      ConnsDiffer(s, false, i, true, j);
    }
  }

  /** A cast to one side does not touch the other. */
  lemma FanOutAcross(w: World, s: State, c: Cast, j: nat)
    requires Spread(s, c.spy) && Crossed(s) && j < |Side(s, !c.spy).socks|
    ensures SameShape(s, FanOut(w, s, c, 0)) && Untouched(s, FanOut(w, s, c, 0), !c.spy, j)
  {
    FanOutShape(w, s, c, 0);
    FanOutOtherSide(w, s, c, 0);
    if Reaches(s.net, Side(s, !c.spy).socks[j].fd) {
      assert Misses(s, c.spy, 0, ConnAt(s, !c.spy, j));
      FanOutElse(w, s, c, 0, ConnAt(s, !c.spy, j));
    }
  }

  lemma ShapeCrossed(s: State, s': State)
    requires Crossed(s) && SameShape(s, s')
    ensures Crossed(s')
  {
  }

  lemma RelayedUnfold(w: World, s: State, spy: bool, i: nat, f: Frame)
    requires Sound(s) && i < |Side(s, spy).socks|
    ensures var s1 := FanOut(w, s, OwnCast(s, spy, i, f), 0);
            Sound(s1) && Relayed(w, s, spy, i, f) == FanOut(w, s1, OtherCast(spy, f), 0)
  {
    FanOutSound(w, s, OwnCast(s, spy, i, f), 0);
  }

  /**
    Exact fan-out : a received frame is offered exactly once to every enabled entry of both sides
    but its sender's. The spies get it at the original power whatever the loss setting and the
    draws; a client misses it exactly when loss is enabled and the draw of its turn says so. A flag
    is cleared if and only if the send failed.
   */
  lemma RelayedExact(w: World, s: State, spy: bool, i: nat, f: Frame, side: bool, j: nat)
    requires Inv(s, false) && i < |Side(s, spy).socks| && j < |Side(s, side).socks|
    ensures Reaches(s.net, Side(s, side).socks[j].fd)
    ensures SameShape(s, Relayed(w, s, spy, i, f))
    ensures Outcome(w, s, Relayed(w, s, spy, i, f), if side == spy then OwnCast(s, spy, i, f) else OtherCast(spy, f), 0, j)
  {
    var own, other := OwnCast(s, spy, i, f), OtherCast(spy, f);
    InvSpread(s, spy);
    InvSpread(s, !spy);
    InvCrossed(s);
    RelayedUnfold(w, s, spy, i, f);
    var s1 := FanOut(w, s, own, 0);
    FanOutShape(w, s, own, 0);
    ShapeSpread(s, s1, !spy);
    ShapeCrossed(s, s1);
    RelayedTwice(w, s, s1, own, other, side, j);
  }

  lemma RelayedTwice(w: World, s: State, s1: State, own: Cast, other: Cast, side: bool, j: nat)
    requires Spread(s, own.spy) && Spread(s, other.spy) && Crossed(s) && other.spy == !own.spy
    requires s1 == FanOut(w, s, own, 0) && SameShape(s, s1) && Spread(s1, other.spy) && Crossed(s1)
    requires other.from.None? && j < |Side(s, side).socks|
    ensures SameShape(s, FanOut(w, s1, other, 0))
    ensures Outcome(w, s, FanOut(w, s1, other, 0), if side == own.spy then own else other, 0, j)
  {
    var s' := FanOut(w, s1, other, 0);
    FanOutShape(w, s1, other, 0);
    if side == own.spy {
      FanOutExact(w, s, own, 0, j);
      FanOutAcross(w, s1, other, j);
      OutcomeHere(w, s, s1, s', own, 0, j);
    } else {
      FanOutAcross(w, s, own, j);
      FanOutExact(w, s1, other, 0, j);
      OutcomeLater(w, s, s1, s', other, 0, 0, j);
    }
  }
}
