/**
  Runs of the registry : put end to end, seen as runs of the queue of the infos that left, and runs
  over so few CIDs that the queue never has to forget one.
 */
module RegistryRuns {
  import opened Registry
  import opened RegistryMap

  // ---------- runs end to end ----------

  /** `ops` is a run from `a` to `b`. */
  predicate Traced(a: Server, ops: seq<Op>, b: Server) {
    Possible(a, ops) && Run(a, ops) == b
  }

  lemma TracedOne(a: Server, op: Op)
    requires Valid(a) && Legal(a, op)
    ensures Traced(a, [op], Apply(a, op))
  {
    assert [op][1..] == [];
  }

  lemma {:induction false} TracedThen(a: Server, p: seq<Op>, b: Server, q: seq<Op>, c: Server)
    requires Traced(a, p, b) && Traced(b, q, c)
    ensures Traced(a, p + q, c)
    decreases |p|
  {
    if p == [] {
      assert p + q == q;
    } else {
      TracedThen(Apply(a, p[0]), p[1..], b, q, c);
      assert (p + q)[0] == p[0] && (p + q)[1..] == p[1..] + q;
    }
  }

  // ---------- the queue of a run ----------

  /** What an operation does to the queue, if anything. */
  function QueueOpOf(srv: Server, op: Op): Option<QueueOp>
    requires Legal(srv, op) && Aligned(srv)
  {
    match op
    case Join(_, cid, _) =>
      var a := Find(srv.archive, cid, 0);
      if a < |srv.archive| then Some(Take(a)) else None
    case Leave(i) => Some(Add(srv.infos[i]))
    case Drop(_) => None
    case Move(cid, coo) =>
      var a := Find(srv.archive, cid, 0);
      if cid < TCID_GUEST_MIN || Find(srv.infos, cid, 0) < |srv.infos| then None
      else if a < |srv.archive| then Some(Set(a, Place(coo, srv.archive[a].name)))
      else Some(Add(Info(cid, coo, "", -1)))
    case Rename(cid, name) =>
      var a := Find(srv.archive, cid, 0);
      if cid < TCID_GUEST_MIN || Find(srv.infos, cid, 0) < |srv.infos| || a == |srv.archive| then None
      else Some(Set(a, Place(srv.archive[a].coo, Clip(name))))
  }

  function QueueTrace(srv: Server, ops: seq<Op>): seq<QueueOp>
    requires Possible(srv, ops)
    decreases |ops|
  {
    if ops == [] then []
    else
      var o, later := QueueOpOf(srv, ops[0]), QueueTrace(Apply(srv, ops[0]), ops[1..]);
      if o.None? then later else [o.value] + later
  }

  lemma QueueCons(q: seq<Info>, max: nat, op: QueueOp, rest: seq<QueueOp>)
    requires 1 <= max
    ensures QueueRun(q, max, [op] + rest) == QueueRun(QueueStep(q, max, op), max, rest)
  {
    assert ([op] + rest)[1..] == rest;
  }

  lemma ArchiveStep(srv: Server, op: Op)
    requires Valid(srv) && Legal(srv, op)
    ensures var o := QueueOpOf(srv, op);
            Apply(srv, op).archive == if o.None? then srv.archive else QueueStep(srv.archive, srv.max, o.value)
    ensures Apply(srv, op).max == srv.max
  {
  }

  /** The disconnected infos of every run, clean or not, are a run of the queue. */
  lemma {:induction false} ArchiveIsQueue(srv: Server, ops: seq<Op>)
    requires 1 <= srv.max && Possible(srv, ops)
    ensures Run(srv, ops).archive == QueueRun(srv.archive, srv.max, QueueTrace(srv, ops))
    decreases |ops|
  {
    if ops != [] {
      var o, later := QueueOpOf(srv, ops[0]), QueueTrace(Apply(srv, ops[0]), ops[1..]);
      ArchiveStep(srv, ops[0]);
      ArchiveIsQueue(Apply(srv, ops[0]), ops[1..]);
      if o.Some? {
        QueueCons(srv.archive, srv.max, o.value, later);
      }
    }
  }

  /** In every run a record is evicted no earlier than the max-th addition after its own. */
  lemma EvictedLate(srv: Server, ops: seq<Op>, p: nat)
    requires Valid(srv) && Possible(srv, ops) && p < |srv.archive|
    ensures var fate := FateRun(srv.archive, srv.max, p, QueueTrace(srv, ops)); var q := Run(srv, ops).archive;
            && |q| <= srv.max
            && (fate.At? ==> fate.position < |q| && SameRecord(q[fate.position], srv.archive[p]))
            && (fate.Evicted? ==> srv.max <= Additions(QueueTrace(srv, ops)) + |srv.archive| - 1 - p)
  {
    ArchiveIsQueue(srv, ops);
    QueueKeeps(srv.archive, srv.max, p, QueueTrace(srv, ops));
  }

  // ---------- few CIDs ----------

  /** Every known CID is one of `keys`. */
  ghost predicate Within(srv: Server, keys: set<nat>) {
    forall k :: Lookup(srv, k).Some? ==> k in keys
  }

  predicate Speaks(op: Op, keys: set<nat>) {
    match op
    case Join(_, cid, _) => cid in keys
    case Move(cid, _) => cid in keys
    case _ => true
  }

  predicate AllSpeak(ops: seq<Op>, keys: set<nat>) {
    forall i :: 0 <= i < |ops| ==> Speaks(ops[i], keys)
  }

  lemma HeldWithin(srv: Server, keys: set<nat>)
    requires Distinct(srv) && Within(srv, keys)
    ensures Held(srv) <= multiset(keys)
  {
    forall k ensures Held(srv)[k] <= multiset(keys)[k] {
      LookupNone(srv, k);
      assert Held(srv)[k] <= 1;
    }
  }

  lemma SmallerBag(a: multiset<nat>, b: multiset<nat>)
    requires a <= b
    ensures |a| <= |b|
  {
    assert b == a + (b - a);
  }

  lemma HeldSize(srv: Server)
    ensures |Held(srv)| == |srv.infos| + |srv.archive|
  {
  }

  /** With no more CIDs than the queue has room for, nothing is evicted. */
  lemma NotEvicted(srv: Server, op: Op, keys: set<nat>, k: nat)
    requires Good(srv) && Legal(srv, op) && Within(srv, keys) && Speaks(op, keys) && |keys| <= srv.max
    ensures !Evicts(srv, op, k)
  {
    HeldWithin(srv, keys);
    HeldSize(srv);
    if op.Move? && Lookup(srv, op.cid).None? {
      LookupNone(srv, op.cid);
      SmallerBag(Held(srv) + multiset{op.cid}, multiset(keys));
    } else {
      SmallerBag(Held(srv), multiset(keys));
    }
  }

  lemma WithinStep(srv: Server, op: Op, keys: set<nat>)
    requires Good(srv) && Legal(srv, op) && Fit(srv, op) && Within(srv, keys) && Speaks(op, keys)
    ensures Within(Apply(srv, op), keys)
  {
    forall k | Lookup(Apply(srv, op), k).Some? ensures k in keys {
      StepLaw(srv, op, k);
      assert Lookup(srv, k).Some? ==> k in keys;
    }
  }

  lemma {:induction false} AllSpared(srv: Server, ops: seq<Op>, keys: set<nat>, k: nat)
    requires Good(srv) && Possible(srv, ops) && Clean(srv, ops) && Within(srv, keys) && |keys| <= srv.max
    requires AllSpeak(ops, keys)
    ensures Spared(srv, ops, k)
    decreases |ops|
  {
    if ops != [] {
      NotEvicted(srv, ops[0], keys, k);
      WithinStep(srv, ops[0], keys);
      StepLaw(srv, ops[0], k);
      AllSpared(Apply(srv, ops[0]), ops[1..], keys, k);
    }
  }

  /** With no more CIDs than the queue has room for, the registry is the map. */
  lemma FewIsMap(srv: Server, ops: seq<Op>, keys: set<nat>, k: nat)
    requires Good(srv) && Possible(srv, ops) && Clean(srv, ops) && Within(srv, keys) && |keys| <= srv.max
    requires AllSpeak(ops, keys)
    ensures Lookup(Run(srv, ops), k) == EffectRun(Lookup(srv, k), ops, k)
  {
    AllSpared(srv, ops, keys, k);
    RunIsMap(srv, ops, k);
  }
}
