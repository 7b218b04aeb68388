/**
  In a clean run, one in which no CID is accepted while an entry still carries it, the two lists
  of a CWifiServer represent one map from CIDs to places.
 */
module RegistryMap {
  import opened Registry

  datatype Op =
    | Join(fd: nat, cid: nat, conn: int)
    | Leave(index: nat)
    | Drop(index: nat)
    | Move(cid: nat, coo: Coord)
    | Rename(cid: nat, name: string)

  function PlaceOf(x: Info): Place {
    Place(x.coo, x.name)
  }

  /** The place of a CID, as the control server looks it up : connected first, then archived. */
  function Lookup(srv: Server, k: nat): Option<Place> {
    var i, a := Find(srv.infos, k, 0), Find(srv.archive, k, 0);
    if i < |srv.infos| then Some(PlaceOf(srv.infos[i]))
    else if a < |srv.archive| then Some(PlaceOf(srv.archive[a]))
    else None
  }

  predicate Legal(srv: Server, op: Op) {
    match op
    case Leave(i) => i < |srv.socks|
    case Drop(i) => i < |srv.socks|
    case _ => true
  }

  /** No entry carries the CID that is accepted. */
  predicate Fit(srv: Server, op: Op) {
    op.Join? ==> Find(srv.infos, op.cid, 0) == |srv.infos|
  }

  function Apply(srv: Server, op: Op): Server
    requires Valid(srv) && Legal(srv, op)
  {
    match op
    case Join(fd, cid, conn) => Accept(srv, fd, cid, conn)
    case Leave(i) => Close(srv, i)
    case Drop(i) => Disable(srv, i)
    case Move(cid, coo) => SetCoordinate(srv, cid, coo)
    case Rename(cid, name) => SetName(srv, cid, name)
  }

  /** What the operation does to the value of key `k` in a map that never forgets. */
  function Effect(v: Option<Place>, op: Op, k: nat): Option<Place> {
    match op
    case Join(_, cid, _) => if cid == k && v.None? then Some(Place(Coord(0, 0, 0), "")) else v
    case Leave(_) => v
    case Drop(_) => v
    case Move(cid, coo) =>
      if cid != k || cid < TCID_GUEST_MIN then v
      else Some(Place(coo, if v.Some? then v.value.name else ""))
    case Rename(cid, name) =>
      if cid != k || cid < TCID_GUEST_MIN || v.None? then v
      else Some(Place(v.value.coo, Clip(name)))
  }

  /** The operation pushes a record to a full queue whose oldest record is that of `k`. */
  predicate Evicts(srv: Server, op: Op, k: nat) {
    && 1 <= srv.max <= |srv.archive| && srv.archive[0].cid == k
    && (op.Leave? || (op.Move? && TCID_GUEST_MIN <= op.cid && Lookup(srv, op.cid).None?))
  }

  /** How often each CID occurs, connected or archived. */
  function Held(srv: Server): multiset<nat> {
    multiset(Cids(srv.infos)) + multiset(Cids(srv.archive))
  }

  ghost predicate Distinct(srv: Server) {
    forall k :: Held(srv)[k] <= 1
  }

  predicate ShortNames(infos: seq<Info>) {
    forall i :: 0 <= i < |infos| ==> |infos[i].name| <= MAX_SIZE_NAME
  }

  ghost predicate Good(srv: Server) {
    Valid(srv) && Distinct(srv) && ShortNames(srv.infos) && ShortNames(srv.archive)
  }

  // ---------- where a key is ----------

  lemma CountTwo(infos: seq<Info>, i: nat, j: nat)
    requires i < j < |infos| && infos[i].cid == infos[j].cid
    ensures multiset(Cids(infos))[infos[i].cid] >= 2
  {
    var s := Cids(infos);
    assert s == s[..j] + s[j..];
    assert s[i] in s[..j] && s[j] in s[j..];
  }

  lemma CountOne(infos: seq<Info>, i: nat)
    requires i < |infos|
    ensures multiset(Cids(infos))[infos[i].cid] >= 1
  {
    assert Cids(infos)[i] == infos[i].cid;
  }

  lemma LookupConnected(srv: Server, i: nat)
    requires Distinct(srv) && i < |srv.infos|
    ensures Lookup(srv, srv.infos[i].cid) == Some(PlaceOf(srv.infos[i]))
  {
    var j := Find(srv.infos, srv.infos[i].cid, 0);
    assert Held(srv)[srv.infos[i].cid] <= 1;
    if j != i {
      CountTwo(srv.infos, j, i);
      assert false;
    }
  }

  lemma LookupArchived(srv: Server, a: nat)
    requires Distinct(srv) && a < |srv.archive|
    ensures Lookup(srv, srv.archive[a].cid) == Some(PlaceOf(srv.archive[a]))
    ensures Find(srv.infos, srv.archive[a].cid, 0) == |srv.infos|
  {
    var k := srv.archive[a].cid;
    CountOne(srv.archive, a);
    assert Held(srv)[k] <= 1;
    var i, j := Find(srv.infos, k, 0), Find(srv.archive, k, 0);
    if i < |srv.infos| {
      CountOne(srv.infos, i);
      assert false;
    }
    if j != a {
      CountTwo(srv.archive, j, a);
      assert false;
    }
  }

  lemma LookupNone(srv: Server, k: nat)
    ensures Held(srv)[k] == 0 <==> Lookup(srv, k).None?
  {
    var i, a := Find(srv.infos, k, 0), Find(srv.archive, k, 0);
    if i < |srv.infos| {
      CountOne(srv.infos, i);
    } else {
      assert k !in Cids(srv.infos);
    }
    if a < |srv.archive| {
      CountOne(srv.archive, a);
    } else {
      assert k !in Cids(srv.archive);
    }
  }

  predicate Holds(srv: Server, x: Info) {
    x in srv.infos || x in srv.archive
  }

  lemma LookupHeld(srv: Server, x: Info)
    requires Distinct(srv) && Holds(srv, x)
    ensures Lookup(srv, x.cid) == Some(PlaceOf(x))
  {
    if x in srv.infos {
      var i :| 0 <= i < |srv.infos| && srv.infos[i] == x;
      LookupConnected(srv, i);
    } else {
      var a :| 0 <= a < |srv.archive| && srv.archive[a] == x;
      LookupArchived(srv, a);
    }
  }

  lemma Holder(srv: Server, k: nat) returns (x: Info)
    requires Lookup(srv, k).Some?
    ensures Holds(srv, x) && x.cid == k && Lookup(srv, k) == Some(PlaceOf(x))
  {
    var i, a := Find(srv.infos, k, 0), Find(srv.archive, k, 0);
    x := if i < |srv.infos| then srv.infos[i] else srv.archive[a];
  }

  lemma EraseIn<T>(s: seq<T>, i: nat, x: T)
    requires i < |s| && x in s && x != s[i]
    ensures x in Erase(s, i)
  {
    var j :| 0 <= j < |s| && s[j] == x;
    if j < i {
      assert Erase(s, i)[j] == x;
    } else {
      assert Erase(s, i)[j - 1] == x;
    }
  }

  lemma PushIn(q: seq<Info>, max: nat, y: Info, x: Info)
    requires 1 <= max && x in q && (|q| >= max ==> x != q[0])
    ensures x in Push(q, max, y)
  {
    if |q| >= max {
      assert q == [q[0]] + q[1..];
    }
  }

  /** No key occurs more often than before. */
  lemma DistinctKept(srv: Server, s': Server)
    requires Distinct(srv) && Held(s') <= Held(srv)
    ensures Distinct(s')
  {
    forall k ensures Held(s')[k] <= 1 {
      assert Held(srv)[k] <= 1;
    }
  }

  // ---------- one operation ----------

  /** Every key of `srv` outside `lost` keeps its record; no key but `added` is new. */
  ghost predicate Moves(srv: Server, s': Server, lost: multiset<nat>, added: multiset<nat>) {
    && Held(s') == Held(srv) - lost + added
    && lost <= Held(srv)
    && forall x :: Holds(srv, x) && x.cid !in lost ==> Holds(s', x)
  }

  /** Records that only moved between the lists are found where they are now. */
  lemma MovesLaw(srv: Server, s': Server, lost: multiset<nat>, added: multiset<nat>, k: nat)
    requires Distinct(srv) && Moves(srv, s', lost, added) && Distinct(s')
    requires k !in added
    ensures Lookup(s', k) == if k in lost then None else Lookup(srv, k)
  {
    LookupNone(srv, k);
    LookupNone(s', k);
    assert Held(srv)[k] <= 1;
    if k !in lost && Lookup(srv, k).Some? {
      var x := Holder(srv, k);
      LookupHeld(s', x);
    }
  }

  /** The head of a full queue is dropped from the count of its CID only. */
  lemma PushHeld(archive: seq<Info>, max: nat, x: Info)
    requires 1 <= max && |archive| <= max
    ensures var q := Push(archive, max, x);
            |q| <= max && multiset(Cids(q)) ==
              (if |archive| < max then multiset(Cids(archive)) else multiset(Cids(archive)) - multiset{archive[0].cid})
              + multiset{x.cid}
  {
    var s := Cids(archive);
    if |archive| < max {
      assert Cids(Push(archive, max, x)) == s + [x.cid];
    } else {
      assert s == [s[0]] + s[1..];
      assert Cids(Push(archive, max, x)) == s[1..] + [x.cid];
    }
  }

  function Lost(srv: Server): multiset<nat>
    requires Valid(srv)
  {
    if |srv.archive| < srv.max then multiset{} else multiset{srv.archive[0].cid}
  }

  lemma LeaveHeld(srv: Server, i: nat)
    requires Valid(srv) && i < |srv.socks|
    ensures Held(Close(srv, i)) == Held(srv) - Lost(srv)
    ensures Lost(srv) <= Held(srv)
  {
    EraseCids(srv.infos, i);
    PushHeld(srv.archive, srv.max, srv.infos[i]);
    if |srv.archive| == srv.max {
      CountOne(srv.archive, 0);
    }
  }

  lemma LeaveMoves(srv: Server, i: nat)
    requires Valid(srv) && i < |srv.socks|
    ensures Moves(srv, Close(srv, i), Lost(srv), multiset{})
  {
    var s' := Close(srv, i);
    LeaveHeld(srv, i);
    forall x | Holds(srv, x) && x.cid !in Lost(srv) ensures Holds(s', x) {
      if x in srv.archive {
        PushIn(srv.archive, srv.max, srv.infos[i], x);
      } else if x != srv.infos[i] {
        EraseIn(srv.infos, i, x);
      }
    }
  }

  lemma LeaveLaw(srv: Server, op: Op, k: nat)
    requires Good(srv) && op.Leave? && Legal(srv, op)
    ensures Good(Apply(srv, op))
    ensures Lookup(Apply(srv, op), k) == if Evicts(srv, op, k) then None else Lookup(srv, k)
  {
    LeaveGood(srv, op.index);
    LeaveMoves(srv, op.index);
    MovesLaw(srv, Close(srv, op.index), Lost(srv), multiset{}, k);
    LostIff(srv, op, k);
  }

  lemma LostIff(srv: Server, op: Op, k: nat)
    requires Valid(srv) && op.Leave?
    ensures k in Lost(srv) <==> Evicts(srv, op, k)
  {
  }

  lemma LeaveGood(srv: Server, i: nat)
    requires Good(srv) && i < |srv.socks|
    ensures Good(Close(srv, i))
  {
    LeaveHeld(srv, i);
    DistinctKept(srv, Close(srv, i));
  }

  lemma JoinShape(srv: Server, fd: nat, cid: nat, conn: int)
    requires Valid(srv) && Find(srv.infos, cid, 0) == |srv.infos|
    ensures var s' := Accept(srv, fd, cid, conn); var a := Find(srv.archive, cid, 0);
            && Valid(s')
            && s'.infos == srv.infos + [Info(cid, s'.infos[|srv.infos|].coo, s'.infos[|srv.infos|].name, conn)]
            && PlaceOf(s'.infos[|srv.infos|]) ==
                 (if a < |srv.archive| then Place(srv.archive[a].coo, Clip(srv.archive[a].name))
                  else Place(Coord(0, 0, 0), ""))
            && s'.archive == (if a < |srv.archive| then Erase(srv.archive, a) else srv.archive)
  {
    assert FindEnabled(srv.socks + [Sock(fd, true)], srv.infos, cid, 0) == |srv.infos|;
  }

  lemma JoinHeld(srv: Server, fd: nat, cid: nat, conn: int)
    requires Valid(srv) && Find(srv.infos, cid, 0) == |srv.infos|
    ensures Held(Accept(srv, fd, cid, conn)) ==
              if Lookup(srv, cid).Some? then Held(srv) else Held(srv) + multiset{cid}
  {
    var s', a := Accept(srv, fd, cid, conn), Find(srv.archive, cid, 0);
    JoinShape(srv, fd, cid, conn);
    assert Cids(s'.infos) == Cids(srv.infos) + [cid];
    if a < |srv.archive| {
      EraseCids(srv.archive, a);
    }
  }

  lemma JoinDistinct(srv: Server, fd: nat, cid: nat, conn: int)
    requires Good(srv) && Find(srv.infos, cid, 0) == |srv.infos|
    ensures Good(Accept(srv, fd, cid, conn))
  {
    JoinShape(srv, fd, cid, conn);
    JoinHeld(srv, fd, cid, conn);
    if Lookup(srv, cid).Some? {
      DistinctKept(srv, Accept(srv, fd, cid, conn));
    } else {
      AddDistinct(srv, Accept(srv, fd, cid, conn), cid);
    }
  }

  lemma JoinLaw(srv: Server, op: Op, k: nat)
    requires Good(srv) && op.Join? && Fit(srv, op)
    ensures Good(Apply(srv, op))
    ensures Lookup(Apply(srv, op), k) == Effect(Lookup(srv, k), op, k)
  {
    var cid := op.cid;
    var s', a := Accept(srv, op.fd, cid, op.conn), Find(srv.archive, cid, 0);
    JoinShape(srv, op.fd, cid, op.conn);
    JoinDistinct(srv, op.fd, cid, op.conn);
    if k == cid {
      LookupConnected(s', |srv.infos|);
    } else {
      JoinOther(srv, op, k);
    }
  }

  lemma JoinOther(srv: Server, op: Op, k: nat)
    requires Good(srv) && op.Join? && Fit(srv, op) && k != op.cid
    ensures Lookup(Apply(srv, op), k) == Lookup(srv, k)
  {
    var s', a := Apply(srv, op), Find(srv.archive, op.cid, 0);
    JoinShape(srv, op.fd, op.cid, op.conn);
    JoinDistinct(srv, op.fd, op.cid, op.conn);
    JoinHeld(srv, op.fd, op.cid, op.conn);
    LookupNone(srv, k);
    LookupNone(s', k);
    if Lookup(srv, k).Some? {
      var x := Holder(srv, k);
      if x !in srv.infos && a < |srv.archive| {
        EraseIn(srv.archive, a, x);
      }
      LookupHeld(s', x);
    }
  }

  /** An order rewrites one record in place, without touching its CID. */
  lemma UpdateCids(infos: seq<Info>, i: nat, x: Info)
    requires i < |infos| && x.cid == infos[i].cid
    ensures Cids(infos[i := x]) == Cids(infos)
  {
  }

  lemma UpdateIn(infos: seq<Info>, i: nat, x: Info, y: Info)
    requires i < |infos| && y in infos && y != infos[i]
    ensures y in infos[i := x]
  {
    var j :| 0 <= j < |infos| && infos[j] == y;
    assert infos[i := x][j] == y;
  }

  /** `srv` with the record found for `cid` replaced by `x`. */
  function Rewrite(srv: Server, cid: nat, x: Info): Server
    requires Lookup(srv, cid).Some?
  {
    var i, a := Find(srv.infos, cid, 0), Find(srv.archive, cid, 0);
    if i < |srv.infos| then srv.(infos := srv.infos[i := x]) else srv.(archive := srv.archive[a := x])
  }

  lemma RewriteGood(srv: Server, cid: nat, x: Info)
    requires Good(srv) && Lookup(srv, cid).Some? && x.cid == cid && |x.name| <= MAX_SIZE_NAME
    ensures Good(Rewrite(srv, cid, x)) && Held(Rewrite(srv, cid, x)) == Held(srv)
    ensures Holds(Rewrite(srv, cid, x), x)
  {
    var i, a := Find(srv.infos, cid, 0), Find(srv.archive, cid, 0);
    if i < |srv.infos| {
      UpdateCids(srv.infos, i, x);
      assert srv.infos[i := x][i] == x;
    } else {
      UpdateCids(srv.archive, a, x);
      assert srv.archive[a := x][a] == x;
    }
    DistinctKept(srv, Rewrite(srv, cid, x));
  }

  lemma RewriteLaw(srv: Server, cid: nat, x: Info, k: nat)
    requires Good(srv) && Lookup(srv, cid).Some? && x.cid == cid && |x.name| <= MAX_SIZE_NAME
    ensures Good(Rewrite(srv, cid, x))
    ensures Lookup(Rewrite(srv, cid, x), k) == if k == cid then Some(PlaceOf(x)) else Lookup(srv, k)
  {
    var s' := Rewrite(srv, cid, x);
    RewriteGood(srv, cid, x);
    if k == cid {
      LookupHeld(s', x);
    } else {
      LookupNone(srv, k);
      LookupNone(s', k);
      if Lookup(srv, k).Some? {
        var y := Holder(srv, k);
        RewriteKeeps(srv, cid, x, y);
        LookupHeld(s', y);
      }
    }
  }

  lemma RewriteKeeps(srv: Server, cid: nat, x: Info, y: Info)
    requires Lookup(srv, cid).Some? && Holds(srv, y) && y.cid != cid
    ensures Holds(Rewrite(srv, cid, x), y)
  {
    var i, a := Find(srv.infos, cid, 0), Find(srv.archive, cid, 0);
    if i < |srv.infos| {
      if y in srv.infos {
        UpdateIn(srv.infos, i, x, y);
      }
    } else if y in srv.archive {
      UpdateIn(srv.archive, a, x, y);
    }
  }

  lemma RenameLaw(srv: Server, op: Op, k: nat)
    requires Good(srv) && op.Rename?
    ensures Good(Apply(srv, op))
    ensures Lookup(Apply(srv, op), k) == Effect(Lookup(srv, k), op, k)
  {
    if TCID_GUEST_MIN <= op.cid && Lookup(srv, op.cid).Some? {
      var x := Found(srv, op.cid).(name := Clip(op.name));
      assert Apply(srv, op) == Rewrite(srv, op.cid, x);
      RewriteLaw(srv, op.cid, x, k);
    }
  }

  function Found(srv: Server, cid: nat): (x: Info)
    requires Lookup(srv, cid).Some?
    ensures Holds(srv, x) && x.cid == cid && Lookup(srv, cid) == Some(PlaceOf(x))
  {
    var i, a := Find(srv.infos, cid, 0), Find(srv.archive, cid, 0);
    if i < |srv.infos| then srv.infos[i] else srv.archive[a]
  }

  lemma MoveLaw(srv: Server, op: Op, k: nat)
    requires Good(srv) && op.Move?
    ensures Good(Apply(srv, op))
    ensures Lookup(Apply(srv, op), k) == if Evicts(srv, op, k) then None else Effect(Lookup(srv, k), op, k)
  {
    if TCID_GUEST_MIN <= op.cid {
      if Lookup(srv, op.cid).Some? {
        var x := Found(srv, op.cid).(coo := op.coo);
        assert Apply(srv, op) == Rewrite(srv, op.cid, x);
        FoundShort(srv, op.cid);
        RewriteLaw(srv, op.cid, x, k);
      } else {
        AddLaw(srv, Info(op.cid, op.coo, "", -1), k);
      }
    }
  }

  lemma FoundShort(srv: Server, cid: nat)
    requires Good(srv) && Lookup(srv, cid).Some?
    ensures |Found(srv, cid).name| <= MAX_SIZE_NAME
  {
  }

  /** A record for an unknown CID goes to the queue. */
  lemma AddLaw(srv: Server, x: Info, k: nat)
    requires Good(srv) && Lookup(srv, x.cid).None? && |x.name| <= MAX_SIZE_NAME
    ensures var s' := srv.(archive := Push(srv.archive, srv.max, x));
            && Good(s')
            && Lookup(s', k) == if k == x.cid then Some(PlaceOf(x)) else if k in Lost(srv) then None else Lookup(srv, k)
  {
    var s' := srv.(archive := Push(srv.archive, srv.max, x));
    AddGood(srv, x);
    AddMoves(srv, x);
    if k == x.cid {
      LookupHeld(s', x);
    } else {
      MovesLaw(srv, s', Lost(srv), multiset{x.cid}, k);
    }
  }

  lemma AddDistinct(srv: Server, s': Server, cid: nat)
    requires Distinct(srv) && Lookup(srv, cid).None? && Held(s') <= Held(srv) + multiset{cid}
    ensures Distinct(s')
  {
    LookupNone(srv, cid);
    forall k ensures Held(s')[k] <= 1 {
      assert Held(srv)[k] <= 1;
    }
  }

  lemma AddHeld(srv: Server, x: Info)
    requires Valid(srv)
    ensures var s' := srv.(archive := Push(srv.archive, srv.max, x));
            Valid(s') && Held(s') == Held(srv) - Lost(srv) + multiset{x.cid} && Lost(srv) <= Held(srv)
  {
    PushHeld(srv.archive, srv.max, x);
    if |srv.archive| == srv.max {
      CountOne(srv.archive, 0);
    }
  }

  lemma AddMoves(srv: Server, x: Info)
    requires Valid(srv)
    ensures var s' := srv.(archive := Push(srv.archive, srv.max, x));
            Moves(srv, s', Lost(srv), multiset{x.cid}) && Holds(s', x)
  {
    var s' := srv.(archive := Push(srv.archive, srv.max, x));
    AddHeld(srv, x);
    forall y | Holds(srv, y) && y.cid !in Lost(srv) ensures Holds(s', y) {
      if y in srv.archive {
        PushIn(srv.archive, srv.max, x, y);
      }
    }
  }

  lemma AddGood(srv: Server, x: Info)
    requires Good(srv) && Lookup(srv, x.cid).None? && |x.name| <= MAX_SIZE_NAME
    ensures Good(srv.(archive := Push(srv.archive, srv.max, x)))
  {
    var s' := srv.(archive := Push(srv.archive, srv.max, x));
    AddHeld(srv, x);
    AddDistinct(srv, s', x.cid);
    assert ShortNames(s'.archive);
  }

  /** One operation of a clean run, seen through the map. */
  lemma StepLaw(srv: Server, op: Op, k: nat)
    requires Good(srv) && Legal(srv, op) && Fit(srv, op)
    ensures Good(Apply(srv, op))
    ensures Lookup(Apply(srv, op), k) == if Evicts(srv, op, k) then None else Effect(Lookup(srv, k), op, k)
  {
    match op
    case Join(_, _, _) => JoinLaw(srv, op, k);
    case Leave(_) => LeaveLaw(srv, op, k);
    case Drop(_) => DistinctKept(srv, Apply(srv, op));
    case Move(_, _) => MoveLaw(srv, op, k);
    case Rename(_, _) => RenameLaw(srv, op, k);
  }

  // ---------- whole runs ----------

  predicate Possible(srv: Server, ops: seq<Op>)
    decreases |ops|
  {
    ops != [] ==>
      && Valid(srv) && Legal(srv, ops[0]) && Possible(Apply(srv, ops[0]), ops[1..])
  }

  /** No CID is accepted while an entry carries it. */
  predicate Clean(srv: Server, ops: seq<Op>)
    requires Possible(srv, ops)
    decreases |ops|
  {
    ops != [] ==> Fit(srv, ops[0]) && Clean(Apply(srv, ops[0]), ops[1..])
  }

  function Run(srv: Server, ops: seq<Op>): Server
    requires Possible(srv, ops)
    decreases |ops|
  {
    if ops == [] then srv else Run(Apply(srv, ops[0]), ops[1..])
  }

  /** No step of the run pushes the record of `k` out of the queue. */
  predicate Spared(srv: Server, ops: seq<Op>, k: nat)
    requires Possible(srv, ops)
    decreases |ops|
  {
    ops != [] ==> !Evicts(srv, ops[0], k) && Spared(Apply(srv, ops[0]), ops[1..], k)
  }

  function EffectRun(v: Option<Place>, ops: seq<Op>, k: nat): Option<Place>
    decreases |ops|
  {
    if ops == [] then v else EffectRun(Effect(v, ops[0], k), ops[1..], k)
  }

  /**
    Every clean run : CIDs stay pairwise distinct over both lists, and a key that is never
    evicted has the value a plain map would have. Joins of known keys, leaves and drops do not
    show in it.
   */
  lemma {:induction false} RunIsMap(srv: Server, ops: seq<Op>, k: nat)
    requires Good(srv) && Possible(srv, ops) && Clean(srv, ops)
    ensures Good(Run(srv, ops))
    ensures Spared(srv, ops, k) ==> Lookup(Run(srv, ops), k) == EffectRun(Lookup(srv, k), ops, k)
    decreases |ops|
  {
    if ops != [] {
      StepLaw(srv, ops[0], k);
      RunIsMap(Apply(srv, ops[0]), ops[1..], k);
    }
  }
}
