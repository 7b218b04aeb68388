/**
  The lists kept by one CWifiServer (src/cwifiserver.cc) : the sockets of the connected parties,
  their infos in a parallel list, and the bounded queue of the infos of those that left.
 */
module Registry {

  datatype Coord = Coord(x: int, y: int, z: int)

  datatype Place = Place(coo: Coord, name: string)

  datatype Option<+T> = None | Some(value: T)

  /** CInfoSocket */
  datatype Sock = Sock(fd: nat, enabled: bool)

  /** CInfoWifi; `conn` is history, the number of the connection it was created for (-1 : none). */
  datatype Info = Info(cid: nat, coo: Coord, name: string, conn: int)

  datatype Server = Server(socks: seq<Sock>, infos: seq<Info>, archive: seq<Info>, max: nat)

  const MAX_SIZE_NAME := 12
  const TCID_GUEST_MIN := 3

  function Erase<T>(s: seq<T>, i: nat): seq<T>
    requires i < |s|
  {
    s[..i] + s[i + 1..]
  }

  /** CInfoWifi::SetName cuts the name. */
  function Clip(name: string): string {
    if |name| > MAX_SIZE_NAME then name[..MAX_SIZE_NAME] else name
  }

  predicate Aligned(srv: Server) {
    |srv.socks| == |srv.infos|
  }

  /** What holds between two operations : parallel lists, and a queue within its capacity. */
  predicate Valid(srv: Server) {
    Aligned(srv) && 1 <= srv.max && |srv.archive| <= srv.max
  }

  // ---------- operations ----------

  /** The first info with this CID, from position `i` on. */
  function Find(infos: seq<Info>, cid: nat, i: nat): (k: nat)
    requires i <= |infos|
    ensures i <= k <= |infos|
    ensures k < |infos| ==> infos[k].cid == cid
    ensures forall j :: i <= j < k ==> infos[j].cid != cid
    decreases |infos| - i
  {
    if i == |infos| || infos[i].cid == cid then i else Find(infos, cid, i + 1)
  }

  /** The first enabled entry with this CID, from position `i` on. */
  function FindEnabled(socks: seq<Sock>, infos: seq<Info>, cid: nat, i: nat): (k: nat)
    requires i <= |infos| <= |socks|
    ensures i <= k <= |infos|
    ensures k < |infos| ==> socks[k].enabled && infos[k].cid == cid
    ensures forall j :: i <= j < k ==> !(socks[j].enabled && infos[j].cid == cid)
    decreases |infos| - i
  {
    if i == |infos| || (socks[i].enabled && infos[i].cid == cid) then i
    else FindEnabled(socks, infos, cid, i + 1)
  }

  function Disable(srv: Server, i: nat): Server
    requires i < |srv.socks|
  {
    srv.(socks := srv.socks[i := srv.socks[i].(enabled := false)])
  }

  function Enroll(srv: Server, cid: nat, conn: int, coo: Coord, name: string): Server {
    srv.(infos := srv.infos + [Info(cid, coo, Clip(name), conn)])
  }

  /** Accept : the socket first, then the info recovered from the queue or from a live entry. */
  function Accept(srv: Server, fd: nat, cid: nat, conn: int): Server
    requires Aligned(srv)
  {
    var joined := srv.(socks := srv.socks + [Sock(fd, true)]);
    var a := Find(srv.archive, cid, 0);
    if a < |srv.archive| then
      var saved := srv.archive[a];
      Enroll(joined.(archive := Erase(srv.archive, a)), cid, conn, saved.coo, saved.name)
    else
      var e := FindEnabled(joined.socks, joined.infos, cid, 0);
      if e < |srv.infos| then
        Enroll(Disable(joined, e), cid, conn, srv.infos[e].coo, srv.infos[e].name)
      else
        Enroll(joined, cid, conn, Coord(0, 0, 0), "")
  }

  /** AddInfoWifiDeconnected : the oldest record makes room. */
  function Push(archive: seq<Info>, max: nat, x: Info): seq<Info>
    requires 1 <= max
  {
    (if |archive| >= max then archive[1..] else archive) + [x]
  }

  /** CloseClient */
  function Close(srv: Server, i: nat): Server
    requires Valid(srv) && i < |srv.socks|
  {
    srv.(socks := Erase(srv.socks, i), infos := Erase(srv.infos, i),
         archive := Push(srv.archive, srv.max, srv.infos[i]))
  }

  /** CloseAllClient : position 0, as many times as there are clients. */
  function CloseAll(srv: Server): Server
    requires Valid(srv)
    decreases |srv.socks|
  {
    if srv.socks == [] then srv else CloseAll(Close(srv, 0))
  }

  /** The order "set" of vwifi-ctrl. */
  function SetCoordinate(srv: Server, cid: nat, coo: Coord): Server
    requires 1 <= srv.max
  {
    if cid < TCID_GUEST_MIN then srv
    else
      var i, a := Find(srv.infos, cid, 0), Find(srv.archive, cid, 0);
      if i < |srv.infos| then
        srv.(infos := srv.infos[i := srv.infos[i].(coo := coo)])
      else if a < |srv.archive| then
        srv.(archive := srv.archive[a := srv.archive[a].(coo := coo)])
      else
        srv.(archive := Push(srv.archive, srv.max, Info(cid, coo, "", -1)))
  }

  /** The order "setname" of vwifi-ctrl, on the lists of one server. */
  function SetName(srv: Server, cid: nat, name: string): Server {
    if cid < TCID_GUEST_MIN then srv
    else
      var i, a := Find(srv.infos, cid, 0), Find(srv.archive, cid, 0);
      if i < |srv.infos| then
        srv.(infos := srv.infos[i := srv.infos[i].(name := Clip(name))])
      else if a < |srv.archive| then
        srv.(archive := srv.archive[a := srv.archive[a].(name := Clip(name))])
      else
        srv
  }

  // ---------- the counting law of Accept ----------

  function Entries(srv: Server): seq<(bool, nat)>
    requires Aligned(srv)
  {
    seq(|srv.infos|, i requires 0 <= i < |srv.infos| => (srv.socks[i].enabled, srv.infos[i].cid))
  }

  function Cids(infos: seq<Info>): seq<nat> {
    seq(|infos|, i requires 0 <= i < |infos| => infos[i].cid)
  }

  function EnabledCount(srv: Server, cid: nat): nat
    requires Aligned(srv)
  {
    multiset(Entries(srv))[(true, cid)]
  }

  function ArchivedCount(srv: Server, cid: nat): nat {
    multiset(Cids(srv.archive))[cid]
  }

  /** Enabled entries and archived records together. */
  function Population(srv: Server, cid: nat): nat
    requires Aligned(srv)
  {
    EnabledCount(srv, cid) + ArchivedCount(srv, cid)
  }

  lemma EraseCids(infos: seq<Info>, a: nat)
    requires a < |infos|
    ensures multiset(Cids(infos)) == multiset(Cids(Erase(infos, a))) + multiset{infos[a].cid}
  {
    var s, n := Cids(infos), |infos|;
    assert Cids(Erase(infos, a)) == s[..a] + s[a + 1..];
    assert s == s[..a] + [s[a]] + s[a + 1..];
  }

  lemma ArchivedIff(srv: Server, cid: nat)
    ensures ArchivedCount(srv, cid) > 0 <==> Find(srv.archive, cid, 0) < |srv.archive|
  {
    var s, a := Cids(srv.archive), Find(srv.archive, cid, 0);
    if a < |srv.archive| {
      assert s[a] == cid;
    } else {
      assert cid !in s;
    }
  }

  lemma EnabledIff(srv: Server, cid: nat)
    requires Aligned(srv)
    ensures EnabledCount(srv, cid) > 0 <==> FindEnabled(srv.socks, srv.infos, cid, 0) < |srv.infos|
  {
    var s, e := Entries(srv), FindEnabled(srv.socks, srv.infos, cid, 0);
    if e < |srv.infos| {
      assert s[e] == (true, cid);
    } else {
      assert (true, cid) !in s;
    }
  }

  /** The search runs while the socket list is one entry longer; the extra entry is never reached. */
  lemma {:induction false} FindEnabledShort(socks: seq<Sock>, extra: Sock, infos: seq<Info>, cid: nat, i: nat)
    requires i <= |infos| == |socks|
    ensures FindEnabled(socks + [extra], infos, cid, i) == FindEnabled(socks, infos, cid, i)
    decreases |infos| - i
  {
    if i < |infos| && !(socks[i].enabled && infos[i].cid == cid) {
      FindEnabledShort(socks, extra, infos, cid, i + 1);
    }
  }

  /** Entries after Accept : at most one entry loses its flag, one enabled entry is added. */
  lemma AcceptEntries(srv: Server, fd: nat, cid: nat, conn: int)
    requires Aligned(srv)
    ensures Aligned(Accept(srv, fd, cid, conn))
    ensures var e := FindEnabled(srv.socks, srv.infos, cid, 0);
            var taken := ArchivedCount(srv, cid) == 0 && e < |srv.infos|;
            Entries(Accept(srv, fd, cid, conn)) ==
            (if taken then Entries(srv)[e := (false, cid)] else Entries(srv)) + [(true, cid)]
  {
    ArchivedIff(srv, cid);
    FindEnabledShort(srv.socks, Sock(fd, true), srv.infos, cid, 0);
  }

  /** Accept(cid) makes the population of cid max(1, population), and moves no other. */
  lemma AcceptCounts(srv: Server, fd: nat, cid: nat, conn: int, other: nat)
    requires Aligned(srv)
    ensures var s' := Accept(srv, fd, cid, conn);
            && Aligned(s')
            && Population(s', cid) == (if Population(srv, cid) == 0 then 1 else Population(srv, cid))
            && (other != cid ==> Population(s', other) == Population(srv, other))
  {
    AcceptEntries(srv, fd, cid, conn);
    ArchivedIff(srv, cid);
    EnabledIff(srv, cid);
    var a := Find(srv.archive, cid, 0);
    if a < |srv.archive| {
      EraseCids(srv.archive, a);
    }
  }

  /** The only enabled entry of a CID that is not archived hands over its flag and its place. */
  lemma TakeOver(srv: Server, fd: nat, cid: nat, conn: int)
    requires Aligned(srv) && ArchivedCount(srv, cid) == 0 && EnabledCount(srv, cid) == 1
    ensures var s' := Accept(srv, fd, cid, conn); var e := FindEnabled(srv.socks, srv.infos, cid, 0);
            && e < |srv.infos|
            && Aligned(s') && EnabledCount(s', cid) == 1
            && !s'.socks[e].enabled
            && s'.infos == srv.infos + [srv.infos[e].(conn := conn, name := Clip(srv.infos[e].name))]
  {
    AcceptEntries(srv, fd, cid, conn);
    ArchivedIff(srv, cid);
    EnabledIff(srv, cid);
    FindEnabledShort(srv.socks, Sock(fd, true), srv.infos, cid, 0);
  }

  /** "At most one enabled entry per CID" survives Accept(cid) exactly when cid is not both enabled and archived. */
  lemma SingleExactly(srv: Server, fd: nat, cid: nat, conn: int)
    requires Aligned(srv) && EnabledCount(srv, cid) <= 1
    ensures Aligned(Accept(srv, fd, cid, conn))
    ensures EnabledCount(Accept(srv, fd, cid, conn), cid) <= 1
            <==> !(EnabledCount(srv, cid) == 1 && ArchivedCount(srv, cid) > 0)
  {
    AcceptEntries(srv, fd, cid, conn);
    EnabledIff(srv, cid);
  }

  /** One CID accepted twice : the second entry takes over the first. */
  lemma TakenOverOnce(empty: Server, cid: nat, f1: nat, f2: nat)
    requires empty == Server([], [], [], empty.max) && 1 <= empty.max
    ensures var s1 := Accept(empty, f1, cid, 0); var s2 := Accept(s1, f2, cid, 1);
            && s1.socks == [Sock(f1, true)] && Valid(s1)
            && s2.socks == [Sock(f1, false), Sock(f2, true)] && Valid(s2)
            && s2.infos[0].cid == cid && s2.infos[1].cid == cid && s2.archive == []
  {
    var s1 := Accept(empty, f1, cid, 0);
    assert s1 == Server([Sock(f1, true)], [Info(cid, Coord(0, 0, 0), "", 0)], [], empty.max);
    assert FindEnabled(s1.socks + [Sock(f2, true)], s1.infos, cid, 0) == 0;
  }

  /** The first entry is purged and accepted again. */
  lemma RecoveredOnce(s2: Server, cid: nat, f2: nat, f3: nat)
    requires Valid(s2) && |s2.socks| == 2 && s2.socks[1] == Sock(f2, true)
    requires s2.infos[0].cid == cid && s2.infos[1].cid == cid && s2.archive == []
    ensures var s4 := Accept(Close(s2, 0), f3, cid, 2);
            s4.socks == [Sock(f2, true), Sock(f3, true)] && Valid(s4) && EnabledCount(s4, cid) == 2
  {
    var s3 := Close(s2, 0);
    assert Cids(s3.archive) == [cid];
    assert Entries(s3) == [(true, cid)];
    AcceptEntries(s3, f3, cid, 2);
  }

  /**
    The excluded state is reachable : a taken-over entry is archived when it is purged, and that
    record is then recovered while the entry that took over is still enabled.
   */
  lemma TwoEnabled(empty: Server, cid: nat, f1: nat, f2: nat, f3: nat)
    requires empty == Server([], [], [], empty.max) && 1 <= empty.max
    ensures var s1 := Accept(empty, f1, cid, 0); var s2 := Accept(s1, f2, cid, 1);
            && s1.socks == [Sock(f1, true)] && Valid(s1)
            && s2.socks == [Sock(f1, false), Sock(f2, true)] && Valid(s2)
            && var s3 := Accept(Close(s2, 0), f3, cid, 2);
               s3.socks == [Sock(f2, true), Sock(f3, true)] && Valid(s3) && EnabledCount(s3, cid) == 2
  {
    TakenOverOnce(empty, cid, f1, f2);
    RecoveredOnce(Accept(Accept(empty, f1, cid, 0), f2, cid, 1), cid, f2, f3);
  }

  // ---------- the queue of the infos that left ----------

  /** A record is added, recovered, or rewritten in place by an order. */
  datatype QueueOp = Add(info: Info) | Take(index: nat) | Set(index: nat, place: Place)

  function QueueStep(q: seq<Info>, max: nat, op: QueueOp): seq<Info>
    requires 1 <= max
  {
    match op
    case Add(x) => Push(q, max, x)
    case Take(i) => if i < |q| then Erase(q, i) else q
    case Set(i, p) => if i < |q| then q[i := q[i].(coo := p.coo, name := p.name)] else q
  }

  function QueueRun(q: seq<Info>, max: nat, ops: seq<QueueOp>): seq<Info>
    requires 1 <= max
    decreases |ops|
  {
    if ops == [] then q else QueueRun(QueueStep(q, max, ops[0]), max, ops[1..])
  }

  datatype Fate = At(position: nat) | Taken | Evicted

  /** Where the record at position `p` is after one operation. */
  function FateStep(q: seq<Info>, max: nat, p: nat, op: QueueOp): Fate {
    match op
    case Add(_) => if |q| < max then At(p) else if p == 0 then Evicted else At(p - 1)
    case Take(i) => if i == p then Taken else if i < p then At(p - 1) else At(p)
    case Set(_, _) => At(p)
  }

  function FateRun(q: seq<Info>, max: nat, p: nat, ops: seq<QueueOp>): Fate
    requires 1 <= max
    decreases |ops|
  {
    if ops == [] then At(p)
    else
      var f := FateStep(q, max, p, ops[0]);
      if f.At? then FateRun(QueueStep(q, max, ops[0]), max, f.position, ops[1..]) else f
  }

  /** The record of the same party, its place and name apart. */
  predicate SameRecord(x: Info, y: Info) {
    x.cid == y.cid && x.conn == y.conn
  }

  function Additions(ops: seq<QueueOp>): nat
    decreases |ops|
  {
    if ops == [] then 0 else (if ops[0].Add? then 1 else 0) + Additions(ops[1..])
  }

  /**
    The queue stays within its capacity, and a record is evicted no earlier than the max-th
    addition after its own, wherever records are taken from the middle or rewritten meanwhile.
   */
  lemma {:induction false} QueueKeeps(q: seq<Info>, max: nat, p: nat, ops: seq<QueueOp>)
    requires 1 <= max && |q| <= max && p < |q|
    ensures |QueueRun(q, max, ops)| <= max
    ensures var f := FateRun(q, max, p, ops);
            && (f.At? ==> f.position < |QueueRun(q, max, ops)| && SameRecord(QueueRun(q, max, ops)[f.position], q[p]))
            && (f.Evicted? ==> max <= Additions(ops) + |q| - 1 - p)
    decreases |ops|
  {
    if ops != [] {
      var q', f := QueueStep(q, max, ops[0]), FateStep(q, max, p, ops[0]);
      if f.At? {
        QueueKeeps(q', max, f.position, ops[1..]);
      } else {
        QueueBounded(q', max, ops[1..]);
      }
    }
  }

  lemma {:induction false} QueueBounded(q: seq<Info>, max: nat, ops: seq<QueueOp>)
    requires 1 <= max && |q| <= max
    ensures |QueueRun(q, max, ops)| <= max
    decreases |ops|
  {
    if ops != [] {
      QueueBounded(QueueStep(q, max, ops[0]), max, ops[1..]);
    }
  }

  /** Without any removal the bound is met : the max-th addition does evict. */
  lemma {:induction false} QueueEvicts(q: seq<Info>, max: nat, p: nat, ops: seq<QueueOp>)
    requires 1 <= max && |q| <= max && p < |q|
    requires forall i :: 0 <= i < |ops| ==> ops[i].Add?
    ensures FateRun(q, max, p, ops).Evicted? <==> max <= |ops| + |q| - 1 - p
    decreases |ops|
  {
    if ops != [] {
      var q', f := QueueStep(q, max, ops[0]), FateStep(q, max, p, ops[0]);
      if f.At? {
        QueueEvicts(q', max, f.position, ops[1..]);
      }
    }
  }

  function Last<T>(s: seq<T>, n: nat): seq<T> {
    if |s| <= n then s else s[|s| - n..]
  }

  lemma PushIsLast(archive: seq<Info>, max: nat, x: Info)
    requires 1 <= max && |archive| <= max
    ensures Push(archive, max, x) == Last(archive + [x], max)
  {
  }

  lemma LastLast<T>(a: seq<T>, b: seq<T>, n: nat)
    ensures Last(Last(a, n) + b, n) == Last(a + b, n)
  {
    if |a| > n {
      var p, l := a[..|a| - n], Last(a, n);
      LastSuffix(p, l + b, n);
      assert p + (l + b) == a + b;
    }
  }

  lemma LastSuffix<T>(p: seq<T>, t: seq<T>, n: nat)
    requires n <= |t|
    ensures Last(p + t, n) == Last(t, n)
  {
  }

  lemma LastCons<T>(a: seq<T>, x: T, rest: seq<T>, all: seq<T>, n: nat)
    requires all == [x] + rest
    ensures Last(Last(a + [x], n) + rest, n) == Last(a + all, n)
  {
    LastLast(a + [x], rest, n);
    assert a + [x] + rest == a + all;
  }

  lemma CloseFirst(srv: Server)
    requires Valid(srv) && srv.socks != []
    ensures Close(srv, 0) == Server(srv.socks[1..], srv.infos[1..], Last(srv.archive + [srv.infos[0]], srv.max), srv.max)
    ensures Valid(Close(srv, 0))
  {
    PushIsLast(srv.archive, srv.max, srv.infos[0]);
    assert Erase(srv.socks, 0) == srv.socks[1..] && Erase(srv.infos, 0) == srv.infos[1..];
  }

  /** CloseAllClient leaves the last max records of the queue followed by the connected ones, in order. */
  lemma {:induction false} CloseAllArchive(srv: Server)
    requires Valid(srv)
    ensures CloseAll(srv) == Server([], [], Last(srv.archive + srv.infos, srv.max), srv.max)
    decreases |srv.socks|
  {
    if srv.socks == [] {
      assert srv.infos == [];
      assert srv.archive + srv.infos == srv.archive;
    } else {
      var s', x := Close(srv, 0), srv.infos[0];
      CloseFirst(srv);
      CloseAllArchive(s');
      LastCons(srv.archive, x, s'.infos, srv.infos, srv.max);
    }
  }
}
