/**
  The level at which a client gets a frame of another one, from the places of the two and the settings
  of the moment; over a run, every visit that relays a frame is such an occasion.
 */
module RelayLevels {
  import opened Wire
  import opened Nets
  import opened Registry
  import opened Radio
  import opened Relay
  import opened RelayInvariant
  import opened RelayRuns
  import opened RelayFanOut
  import opened RelayDue
  import opened RelayOrders

  // ---------- one frame ----------

  /** The enabled clients before `j`, the sender apart. */
  function Earlier(socks: seq<Sock>, i: nat, j: nat): set<nat>
    requires j <= |socks|
  {
    set t: nat | t < j && t != i && socks[t].enabled
  }

  lemma {:induction false} TurnsCount(socks: seq<Sock>, i: nat, l: nat, j: nat)
    requires l <= j <= |socks|
    ensures Turns(socks, i, l, j) == |set t: nat | l <= t < j && t != i && socks[t].enabled|
    decreases j - l
  {
    var s := set t: nat | l <= t < j && t != i && socks[t].enabled;
    if l == j {
      assert s == {};
    } else {
      var s' := set t: nat | l + 1 <= t < j && t != i && socks[t].enabled;
      TurnsCount(socks, i, l + 1, j);
      if l != i && socks[l].enabled {
        assert s == s' + {l};
      } else {
        assert s == s';
      }
    }
  }

  lemma EarlierCount(socks: seq<Sock>, i: nat, j: nat)
    requires j <= |socks|
    ensures Turns(socks, i, 0, j) == |Earlier(socks, i, j)|
  {
    TurnsCount(socks, i, 0, j);
    assert Earlier(socks, i, j) == set t: nat | 0 <= t < j && t != i && socks[t].enabled;
  }

  /** The level between two places : from the distance, the decibels lost on it, and the cut to [-128, -10]. */
  ghost predicate LevelBetween(w: World, scale: real, f: Frame, a: Coord, b: Coord, level: Power) {
    exists r: real, decibels: int ::
      Apart(a, b, r) && Loses(w.maths, scale * r, w.frequency(f.msg), decibels) && Arrives(f.power, decibels, level)
  }

  /** The draw loses a frame of this level. */
  predicate DrawLoses(draw: nat, level: Power) {
    draw % 53 < Clamp(0 - level - 39, 0, 53)
  }

  lemma DrawLosesLaw(draw: nat, level: Power)
    ensures PacketIsLost(level, draw) <==> DrawLoses(draw, level)
  {
    LossDraw(level, draw / 53, draw % 53);
    assert draw == 53 * (draw / 53) + draw % 53;
  }

  /**
    What a frame of client `i` is for another client `j` : the same message at the level between their
    places; or nothing, if loss is enabled and the draw loses it whose number is that of the enabled
    clients before `j`, the sender apart.
   */
  lemma ClientDue(w: World, s: State, i: nat, f: Frame, j: nat) returns (level: Power)
    requires Lawful(w.maths) && Sound(s) && i < |s.clients.socks| && j < |s.clients.socks| && i != j
    ensures LevelBetween(w, s.scale, f, s.clients.infos[i].coo, s.clients.infos[j].coo, level)
    ensures var n := |Earlier(s.clients.socks, i, j)|;
            DueFrame(w, s, false, i, f, false, j)
            == if s.loss && DrawLoses(DrawAt(s.draws, n), level) then [] else [Frame(level, f.msg)]
  {
    level := FrameFor(w, s, OwnCast(s, false, i, f), j).power;
    LevelIsBetween(w, s.scale, f, s.clients.infos[i].coo, s.clients.infos[j].coo);
    EarlierCount(s.clients.socks, i, j);
    DrawLosesLaw(DrawAt(s.draws, |Earlier(s.clients.socks, i, j)|), level);
  }

  lemma LevelIsBetween(w: World, scale: real, f: Frame, a: Coord, b: Coord)
    requires Lawful(w.maths)
    ensures LevelBetween(w, scale, f, a, b, Level(w.maths, f.power, Distance(w.maths, scale, a, b), w.frequency(f.msg)))
  {
    var r, decibels := LevelLaw(w.maths, scale, f.power, a, b, w.frequency(f.msg));
    Between(w, scale, f, a, b, r, decibels, Level(w.maths, f.power, Distance(w.maths, scale, a, b), w.frequency(f.msg)));
  }

  lemma Between(w: World, scale: real, f: Frame, a: Coord, b: Coord, r: real, decibels: int, level: Power)
    requires Apart(a, b, r) && Loses(w.maths, scale * r, w.frequency(f.msg), decibels) && Arrives(f.power, decibels, level)
    ensures LevelBetween(w, scale, f, a, b, level)
  {
  }

  /** What the visit of client `i` is for the connection of client `j`. */
  lemma ClientDueVisit(w: World, s: State, i: nat, j: nat) returns (level: Power)
    requires Lawful(w.maths) && Inv(s, false) && i < |s.clients.socks| && j < |s.clients.socks| && i != j
    requires Relays(s, false, i) && s.clients.infos[j].conn >= 0
    ensures var f := FrameOf(s, false, i);
            && LevelBetween(w, s.scale, f, s.clients.infos[i].coo, s.clients.infos[j].coo, level)
            && DueVisit(w, s, false, i, s.clients.infos[j].conn)
               == if s.loss && DrawLoses(DrawAt(s.draws, |Earlier(s.clients.socks, i, j)|), level) then []
                  else [Frame(level, f.msg)]
  {
    level := ClientDue(w, Heard(s, false, i), i, FrameOf(s, false, i), j);
    PlaceUnique(s, j);
  }

  lemma PlaceUnique(s: State, j: nat)
    requires Inv(s, false) && j < |s.clients.infos| && s.clients.infos[j].conn >= 0
    ensures PlaceFor(s.clients.infos, s.clients.infos[j].conn, 0) == j
  {
    var l := PlaceFor(s.clients.infos, s.clients.infos[j].conn, 0);
    if l != j {
      EntryReaches(s, false, false, l);
      EntryReaches(s, false, false, j);
      ConnsDiffer(s, false, l, false, j);
      assert false;
    }
  }

  /** A frame of a spy, or for a spy, is passed on as it is; a sender gets nothing back. */
  lemma SpyDue(w: World, s: State, spy: bool, i: nat, f: Frame, side: bool, j: nat)
    requires Sound(s) && i < |Side(s, spy).socks| && j < |Side(s, side).socks| && (spy || side)
    ensures DueFrame(w, s, spy, i, f, side, j) == if side == spy && i == j then [] else [f]
  {
  }

  lemma SenderDue(w: World, s: State, i: nat, f: Frame)
    requires Sound(s) && i < |s.clients.socks|
    ensures DueFrame(w, s, false, i, f, false, i) == []
  {
  }

  /** Between equal places nothing is lost but what the bounds cut. */
  lemma SamePlace(w: World, scale: real, f: Frame, a: Coord, level: Power)
    requires LevelBetween(w, scale, f, a, a, level)
    ensures level == Clamp(f.power, -128, -10)
  {
    var r: real, decibels: int :|
      Apart(a, a, r) && Loses(w.maths, scale * r, w.frequency(f.msg), decibels) && Arrives(f.power, decibels, level);
    NoRoot(r);
  }

  // ---------- over a run ----------

  /** A visit of a run : the turn, the entry, and the state it is visited in. */
  datatype Occasion = Occasion(turn: nat, spy: bool, i: nat, s: State)

  predicate Proper(o: Occasion) {
    Sound(o.s) && o.i < |Side(o.s, o.spy).socks|
  }

  predicate AllProper(os: seq<Occasion>) {
    forall n :: 0 <= n < |os| ==> Proper(os[n])
  }

  function ForwardOccasions(w: World, s: State, spy: bool, i: nat, turn: nat): (os: seq<Occasion>)
    requires Sound(s) && i <= |Side(s, spy).socks|
    ensures AllProper(os)
    decreases |Side(s, spy).socks| - i
  {
    if i == |Side(s, spy).socks| then []
    else
      VisitSound(w, s, spy, i);
      [Occasion(turn, spy, i, s)]
      + ForwardOccasions(w, Visit(w, s, spy, i), spy, if Leaves(s, spy, i) then i else i + 1, turn)
  }

  function StepOccasions(w: World, s: State, e: Input, turn: nat): (os: seq<Occasion>)
    requires Sound(s)
    ensures AllProper(os)
  {
    PrologueSound(s, e);
    var s1 := Prologue(s, e);
    ForwardSound(w, s1, false, 0);
    ForwardOccasions(w, s1, false, 0, turn) + ForwardOccasions(w, Forward(w, s1, false, 0), true, 0, turn)
  }

  /** All the visits of a run, in order. */
  function Occasions(w: World, s: State, es: seq<Input>, turn: nat): (os: seq<Occasion>)
    requires Sound(s)
    ensures AllProper(os)
    decreases |es|
  {
    if es == [] then []
    else
      StepSound(w, s, es[0]);
      StepOccasions(w, s, es[0], turn) + Occasions(w, Step(w, s, es[0]), es[1..], turn + 1)
  }

  function Flat(parts: seq<seq<Frame>>): seq<Frame> {
    if parts == [] then [] else parts[0] + Flat(parts[1..])
  }

  lemma FlatCons(part: seq<Frame>, parts: seq<seq<Frame>>)
    ensures Flat([part] + parts) == part + Flat(parts)
  {
    assert ([part] + parts)[1..] == parts;
  }

  lemma {:induction false} FlatAppend(p: seq<seq<Frame>>, q: seq<seq<Frame>>)
    ensures Flat(p + q) == Flat(p) + Flat(q)
    decreases |p|
  {
    if p == [] {
      assert p + q == q;
    } else {
      FlatAppend(p[1..], q);
      FlatCons(p[0], p[1..] + q);
      assert p + q == [p[0]] + (p[1..] + q);
    }
  }

  function Parts(w: World, os: seq<Occasion>, k: nat): seq<seq<Frame>>
    requires AllProper(os)
  {
    seq(|os|, n requires 0 <= n < |os| => DueVisit(w, os[n].s, os[n].spy, os[n].i, k))
  }

  /** What connection `k` is due on these occasions, one after the other. */
  function DueOn(w: World, os: seq<Occasion>, k: nat): seq<Frame>
    requires AllProper(os)
  {
    Flat(Parts(w, os, k))
  }

  lemma DueOnAppend(w: World, p: seq<Occasion>, q: seq<Occasion>, k: nat)
    requires AllProper(p) && AllProper(q)
    ensures DueOn(w, p + q, k) == DueOn(w, p, k) + DueOn(w, q, k)
  {
    PartsAppend(w, p, q, k);
    FlatAppend(Parts(w, p, k), Parts(w, q, k));
  }

  lemma PartsAppend(w: World, p: seq<Occasion>, q: seq<Occasion>, k: nat)
    requires AllProper(p) && AllProper(q)
    ensures Parts(w, p + q, k) == Parts(w, p, k) + Parts(w, q, k)
  {
  }

  lemma {:induction false} ForwardDueOn(w: World, s: State, spy: bool, i: nat, turn: nat, k: nat)
    requires Sound(s) && i <= |Side(s, spy).socks|
    ensures DueForward(w, s, spy, i, k) == DueOn(w, ForwardOccasions(w, s, spy, i, turn), k)
    decreases |Side(s, spy).socks| - i
  {
    if i < |Side(s, spy).socks| {
      var s', i' := Visit(w, s, spy, i), if Leaves(s, spy, i) then i else i + 1;
      DueForwardUnfold(w, s, spy, i, k);
      ForwardDueOn(w, s', spy, i', turn, k);
      DueOnCons(w, Occasion(turn, spy, i, s), ForwardOccasions(w, s', spy, i', turn), k);
    }
  }

  lemma DueOnCons(w: World, o: Occasion, os: seq<Occasion>, k: nat)
    requires Proper(o) && AllProper(os)
    ensures AllProper([o] + os) && DueOn(w, [o] + os, k) == DueVisit(w, o.s, o.spy, o.i, k) + DueOn(w, os, k)
  {
    assert Parts(w, [o] + os, k) == [DueVisit(w, o.s, o.spy, o.i, k)] + Parts(w, os, k);
    FlatCons(DueVisit(w, o.s, o.spy, o.i, k), Parts(w, os, k));
  }

  lemma StepDueOn(w: World, s: State, e: Input, turn: nat, k: nat)
    requires Sound(s)
    ensures DueStep(w, s, e, k) == DueOn(w, StepOccasions(w, s, e, turn), k)
  {
    PrologueSound(s, e);
    var s1 := Prologue(s, e);
    ForwardSound(w, s1, false, 0);
    var s2 := Forward(w, s1, false, 0);
    ForwardDueOn(w, s1, false, 0, turn, k);
    ForwardDueOn(w, s2, true, 0, turn, k);
    DueOnAppend(w, ForwardOccasions(w, s1, false, 0, turn), ForwardOccasions(w, s2, true, 0, turn), k);
  }

  /** What a connection is due over a run is what it is due on its occasions. */
  lemma {:induction false} RunDueOn(w: World, s: State, es: seq<Input>, turn: nat, k: nat)
    requires Sound(s)
    ensures Due(w, s, es, k) == DueOn(w, Occasions(w, s, es, turn), k)
    decreases |es|
  {
    if es != [] {
      var s' := Step(w, s, es[0]);
      StepSound(w, s, es[0]);
      StepDueOn(w, s, es[0], turn, k);
      RunDueOn(w, s', es[1..], turn + 1, k);
      DueOnAppend(w, StepOccasions(w, s, es[0], turn), Occasions(w, s', es[1..], turn + 1), k);
    }
  }

  // ---------- the settings of an occasion ----------

  predicate AllSet(os: seq<Occasion>, turn: nat, scale: real, loss: bool) {
    forall n :: 0 <= n < |os| ==> os[n].turn == turn && os[n].s.scale == scale && os[n].s.loss == loss
  }

  lemma {:induction false} ForwardSet(w: World, s: State, spy: bool, i: nat, turn: nat)
    requires Sound(s) && i <= |Side(s, spy).socks|
    ensures AllSet(ForwardOccasions(w, s, spy, i, turn), turn, s.scale, s.loss)
    decreases |Side(s, spy).socks| - i
  {
    if i < |Side(s, spy).socks| {
      VisitSound(w, s, spy, i);
      VisitSettings(w, s, spy, i);
      ForwardSet(w, Visit(w, s, spy, i), spy, if Leaves(s, spy, i) then i else i + 1, turn);
    }
  }

  lemma StepSet(w: World, s: State, e: Input, turn: nat)
    requires Sound(s) && Registered(s)
    ensures AllSet(StepOccasions(w, s, e, turn), turn, Step(w, s, e).scale, Step(w, s, e).loss)
  {
    PrologueSound(s, e);
    var s1 := Prologue(s, e);
    ForwardSound(w, s1, false, 0);
    ForwardSettings(w, s1, false, 0);
    ForwardSettings(w, Forward(w, s1, false, 0), true, 0);
    ForwardSet(w, s1, false, 0, turn);
    ForwardSet(w, Forward(w, s1, false, 0), true, 0, turn);
  }

  /** An occasion has the settings of the orders read up to its turn. */
  ghost predicate WellSet(m: Masters, scale: real, loss: bool, es: seq<Input>, turn: nat, o: Occasion) {
    turn <= o.turn < turn + |es| && Settings(m, scale, loss, es[..o.turn - turn + 1], o.s.scale, o.s.loss)
  }

  lemma FirstSet(m: Masters, scale: real, loss: bool, es: seq<Input>, turn: nat, o: Occasion)
    requires es != [] && o.turn == turn
    requires o.s.scale == (if SetsScale(m, es[0]) then es[0].order.scale else scale)
    requires o.s.loss == (if SetsLoss(m, es[0]) then es[0].order.on else loss)
    ensures WellSet(m, scale, loss, es, turn, o)
  {
    assert es[..1] == [es[0]];
    SettingsOne(m, scale, loss, es[0]);
  }

  lemma SettingsOne(m: Masters, scale: real, loss: bool, e: Input)
    ensures Settings(m, scale, loss, [e], if SetsScale(m, e) then e.order.scale else scale,
                     if SetsLoss(m, e) then e.order.on else loss)
  {
    var scale', loss' := if SetsScale(m, e) then e.order.scale else scale, if SetsLoss(m, e) then e.order.on else loss;
    SettingsNone(m, scale', loss');
    assert [e][1..] == [];
    SettingsCons(m, scale, loss, [e], scale', loss');
  }

  lemma LaterSet(w: World, s: State, es: seq<Input>, turn: nat, o: Occasion)
    requires Sound(s) && Registered(s) && es != [] && Sound(Step(w, s, es[0]))
    requires var s' := Step(w, s, es[0]); WellSet(s'.masters, s'.scale, s'.loss, es[1..], turn + 1, o)
    ensures WellSet(s.masters, s.scale, s.loss, es, turn, o)
  {
    StepSettings(w, s, es[0]);
    var head := es[..o.turn - turn + 1];
    assert head[1..] == es[1..][..o.turn - (turn + 1) + 1] && head[0] == es[0];
    SettingsCons(s.masters, s.scale, s.loss, head, o.s.scale, o.s.loss);
  }

  lemma StepWellSet(w: World, s: State, es: seq<Input>, turn: nat, o: Occasion)
    requires Sound(s) && Registered(s) && es != [] && o in StepOccasions(w, s, es[0], turn)
    ensures WellSet(s.masters, s.scale, s.loss, es, turn, o)
  {
    StepSet(w, s, es[0], turn);
    StepSettings(w, s, es[0]);
    FirstSet(s.masters, s.scale, s.loss, es, turn, o);
  }

  lemma OccasionSplit(w: World, s: State, es: seq<Input>, turn: nat, o: Occasion)
    requires Sound(s) && o in Occasions(w, s, es, turn)
    ensures es != [] && Sound(Step(w, s, es[0]))
    ensures o in StepOccasions(w, s, es[0], turn) || o in Occasions(w, Step(w, s, es[0]), es[1..], turn + 1)
  {
    if es != [] {
      StepSound(w, s, es[0]);
    }
  }

  lemma {:induction false} RunSet(w: World, s: State, es: seq<Input>, turn: nat, o: Occasion)
    requires Inv(s, false) && AllAdmissible(w, s, es, false) && o in Occasions(w, s, es, turn)
    ensures WellSet(s.masters, s.scale, s.loss, es, turn, o)
    decreases |es|
  {
    OccasionSplit(w, s, es, turn, o);
    if o in StepOccasions(w, s, es[0], turn) {
      StepWellSet(w, s, es, turn, o);
    } else {
      StepKeeps(w, s, false, es[0]);
      RunSet(w, Step(w, s, es[0]), es[1..], turn + 1, o);
      LaterSet(w, s, es, turn, o);
    }
  }

  /**
    In every run of the server, what an enabled party can decode is what it is due on the occasions of
    the run, each of which has the scale and the loss flag of the last orders read by then, the scale
    1 before any.
   */
  lemma ServerOccasions(w: World, m: Masters, loss: bool, draws: seq<nat>, es: seq<Input>, side: bool, j: nat)
    requires DistinctMasters(m) && AllAdmissible(w, Start(m, loss, draws), es, true)
    requires var t := Run(w, Start(m, loss, draws), es); j < |Side(t, side).socks| && Side(t, side).socks[j].enabled
    ensures var s0 := Start(m, loss, draws); var t, os := Run(w, s0, es), Occasions(w, s0, es, 0);
            var fd := Side(t, side).socks[j].fd;
            && Reaches(t.net, fd) && Decode(Chan(t.net, fd).written).frames == DueOn(w, os, t.net.open[fd])
            && forall o :: o in os ==> WellSet(m, 1.0, loss, es, 0, o)
  {
    var s0 := Start(m, loss, draws);
    var t := Run(w, s0, es);
    ServerHearsExactly(w, m, loss, draws, es, side, j);
    RunDueOn(w, s0, es, 0, t.net.open[Side(t, side).socks[j].fd]);
    AllWellSet(w, m, loss, draws, es);
  }

  lemma AllWellSet(w: World, m: Masters, loss: bool, draws: seq<nat>, es: seq<Input>)
    requires DistinctMasters(m) && AllAdmissible(w, Start(m, loss, draws), es, true)
    ensures forall o :: o in Occasions(w, Start(m, loss, draws), es, 0) ==> WellSet(m, 1.0, loss, es, 0, o)
  {
    var s0 := Start(m, loss, draws);
    StartInv(m, loss, draws, false);
    RelayTheorems.AdmissibleWeaken(w, s0, es);
    forall o | o in Occasions(w, s0, es, 0) ensures WellSet(m, 1.0, loss, es, 0, o) {
      RunSet(w, s0, es, 0, o);
    }
  }
}
