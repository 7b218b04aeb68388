/** The registry of descriptors handed to pselect (src/cselect.cc). */
module Scheduler {
  import opened Wire
  import opened Registry

  datatype Select = Select(nodes: seq<nat>, master: set<nat>, dup: set<nat>, max: int)

  /** The largest descriptor of a list, -1 when it is empty. */
  function MaxOf(nodes: seq<nat>): int {
    if nodes == [] then -1 else Max(MaxOf(nodes[..|nodes| - 1]), nodes[|nodes| - 1])
  }

  function Elements(nodes: seq<nat>): set<nat> {
    set x | x in nodes
  }

  /** Position of the first node equal to `fd`, from `i` on. */
  function Position(nodes: seq<nat>, fd: nat, i: nat): (k: nat)
    requires i <= |nodes|
    ensures i <= k <= |nodes| && (k < |nodes| ==> nodes[k] == fd)
    ensures forall j :: i <= j < k ==> nodes[j] != fd
    decreases |nodes| - i
  {
    if i == |nodes| || nodes[i] == fd then i else Position(nodes, fd, i + 1)
  }

  function Added(s: Select, fd: nat): Select {
    s.(nodes := s.nodes + [fd], master := s.master + {fd}, max := Max(s.max, fd))
  }

  function Removed(s: Select, fd: nat): Select {
    var k := Position(s.nodes, fd, 0);
    if k < |s.nodes| then
      var rest := Erase(s.nodes, k);
      s.(nodes := rest, master := s.master - {fd}, max := MaxOf(rest))
    else
      s.(max := MaxOf(s.nodes))
  }

  /** Wait : pselect leaves in Dup those nodes that are ready. */
  function Awaited(s: Select, ready: set<nat>): Select {
    s.(dup := s.master * ready)
  }

  ghost predicate NoDuplicates(nodes: seq<nat>) {
    forall x :: multiset(nodes)[x] <= 1
  }

  /** The three views of the registered descriptors agree. */
  ghost predicate Agrees(s: Select) {
    NoDuplicates(s.nodes) && s.master == Elements(s.nodes) && s.max == MaxOf(s.nodes)
  }

  lemma {:induction false} MaxOfLaw(nodes: seq<nat>)
    ensures forall i :: 0 <= i < |nodes| ==> nodes[i] <= MaxOf(nodes)
    ensures if nodes == [] then MaxOf(nodes) == -1 else MaxOf(nodes) in nodes
  {
    if nodes != [] {
      MaxOfLaw(nodes[..|nodes| - 1]);
    }
  }

  lemma AddAgrees(s: Select, fd: nat)
    requires Agrees(s) && fd !in s.nodes
    ensures Agrees(Added(s, fd)) && multiset(Added(s, fd).nodes) == multiset(s.nodes) + multiset{fd}
  {
    assert (s.nodes + [fd])[..|s.nodes|] == s.nodes;
  }

  lemma DelAgrees(s: Select, fd: nat)
    requires Agrees(s)
    ensures Agrees(Removed(s, fd)) && multiset(Removed(s, fd).nodes) == multiset(s.nodes) - multiset{fd}
  {
    var k := Position(s.nodes, fd, 0);
    if k < |s.nodes| {
      EraseOnce(s.nodes, k);
      ElementsErased(s.nodes, k);
    } else {
      assert fd !in s.nodes;
    }
  }

  lemma EraseOnce(nodes: seq<nat>, k: nat)
    requires NoDuplicates(nodes) && k < |nodes|
    ensures var rest := Erase(nodes, k);
            multiset(nodes) == multiset(rest) + multiset{nodes[k]} && nodes[k] !in rest && NoDuplicates(rest)
  {
    var rest := Erase(nodes, k);
    assert nodes == nodes[..k] + [nodes[k]] + nodes[k + 1..];
    assert multiset(nodes) == multiset(rest) + multiset{nodes[k]};
    assert multiset(nodes)[nodes[k]] <= 1;
    forall x ensures multiset(rest)[x] <= 1 {
      assert multiset(nodes)[x] <= 1;
    }
  }

  lemma ElementsErased(nodes: seq<nat>, k: nat)
    requires k < |nodes| && nodes[k] !in Erase(nodes, k)
    ensures Elements(Erase(nodes, k)) == Elements(nodes) - {nodes[k]}
  {
    forall x | x in nodes && x != nodes[k] ensures x in Erase(nodes, k) {
      var j :| 0 <= j < |nodes| && nodes[j] == x;
      assert Erase(nodes, k)[if j < k then j else j - 1] == x;
    }
  }

  class Selector {
    var nodes: seq<nat>
    var master: set<nat>
    var dup: set<nat>
    var max: int

    ghost function View(): Select
      reads this
    {
      Select(nodes, master, dup, max)
    }

    constructor ()
      ensures View() == Select([], {}, {}, -1) && Agrees(View())
    {
      nodes, master, dup, max := [], {}, {}, -1;
    }

    method UpdateMaxDescriptor(fd: int)
      modifies this`max
      ensures max == Max(old(max), fd)
    {
      if fd > max {
        max := fd;
      }
    }

    method AddNode(fd: nat)
      modifies this
      ensures View() == Added(old(View()), fd)
    {
      nodes := nodes + [fd];
      master := master + {fd};
      UpdateMaxDescriptor(fd);
    }

    /** The maximum is rebuilt in the same pass that looks for the node. */
    method DelNode(fd: nat)
      modifies this
      ensures View() == Removed(old(View()), fd)
    {
      max := -1;
      var i := 0;
      while i < |nodes|
        invariant nodes == old(nodes) && master == old(master) && dup == old(dup)
        invariant 0 <= i <= |nodes|
        invariant max == MaxOf(nodes[..i])
        invariant Position(nodes, fd, i) == Position(nodes, fd, 0)
      {
        if nodes[i] == fd {
          master := master - {fd};
          SkipMax(i + 1);
          nodes := Erase(nodes, i);
          return;
        }
        UpdateMaxDescriptor(nodes[i]);
        assert nodes[..i + 1][..i] == nodes[..i];
        i := i + 1;
      }
      assert nodes[..i] == nodes;
    }

    /** The inner loop of DelNode : the nodes behind the one that goes. */
    method SkipMax(from: nat)
      requires 1 <= from <= |nodes| && max == MaxOf(nodes[..from - 1])
      modifies this`max
      ensures max == MaxOf(Erase(nodes, from - 1))
    {
      var j := from;
      ghost var rest := Erase(nodes, from - 1);
      assert rest[..from - 1] == nodes[..from - 1];
      while j < |nodes|
        modifies this`max
        invariant from <= j <= |nodes|
        invariant max == MaxOf(rest[..j - 1])
      {
        UpdateMaxDescriptor(nodes[j]);
        assert rest[..j][..j - 1] == rest[..j - 1];
        j := j + 1;
      }
      assert rest[..j - 1] == rest;
    }

    method Wait(ready: set<nat>)
      modifies this`dup
      ensures View() == Awaited(old(View()), ready)
      ensures forall fd :: fd in dup <==> fd in master && fd in ready
    {
      dup := master;
      dup := dup * ready;
    }

    method DescriptorHasAction(fd: nat) returns (b: bool)
      ensures b == (fd in dup)
    {
      b := fd in dup;
    }
  }
}
