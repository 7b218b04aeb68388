/**
  What each operation does to the lists of a CWifiServer whatever they hold : entries may be disabled,
  and a CID may occur more than once.
 */
module RegistryLaws {
  import opened Registry

  /** The info at `i` is the first one with this CID. */
  predicate FirstWith(infos: seq<Info>, cid: nat, i: nat) {
    i < |infos| && infos[i].cid == cid && forall j :: 0 <= j < i ==> infos[j].cid != cid
  }

  predicate NoneWith(infos: seq<Info>, cid: nat) {
    forall j :: 0 <= j < |infos| ==> infos[j].cid != cid
  }

  /** The entry at `e` is the first enabled one with this CID. */
  predicate FirstEnabled(srv: Server, cid: nat, e: nat)
    requires Aligned(srv)
  {
    && e < |srv.infos| && srv.infos[e].cid == cid && srv.socks[e].enabled
    && forall j :: 0 <= j < e && srv.infos[j].cid == cid ==> !srv.socks[j].enabled
  }

  predicate NoneEnabled(srv: Server, cid: nat)
    requires Aligned(srv)
  {
    forall j :: 0 <= j < |srv.infos| && srv.infos[j].cid == cid ==> !srv.socks[j].enabled
  }

  /** A name as it is kept : its first 12 characters. */
  predicate Cut(name: string, kept: string) {
    kept <= name && |kept| == if |name| < 12 then |name| else 12
  }

  lemma ClipLaw(name: string)
    ensures Cut(name, Clip(name))
  {
  }

  // ---------- Accept ----------

  /** The place and the name of the new entry. */
  ghost predicate Recovers(srv: Server, cid: nat, x: Info)
    requires Aligned(srv)
  {
    && (forall a: nat :: FirstWith(srv.archive, cid, a) ==> x.coo == srv.archive[a].coo && Cut(srv.archive[a].name, x.name))
    && (NoneWith(srv.archive, cid) ==>
          && (forall e: nat :: FirstEnabled(srv, cid, e) ==> x.coo == srv.infos[e].coo && Cut(srv.infos[e].name, x.name))
          && (NoneEnabled(srv, cid) ==> x.coo == Coord(0, 0, 0) && x.name == ""))
  }

  /** The queue loses the record that was recovered, if one was. */
  ghost predicate Takes(srv: Server, cid: nat, archive: seq<Info>) {
    && (forall a: nat :: FirstWith(srv.archive, cid, a) ==> archive == srv.archive[..a] + srv.archive[a + 1..])
    && (NoneWith(srv.archive, cid) ==> archive == srv.archive)
  }

  /**
    Accept appends one entry. Its place and name are those of the first archived record of the CID; if
    there is none, of the first enabled entry of the CID; if there is none either, the origin and no
    name, even when a disabled entry of the CID is still listed. No other info changes.
   */
  lemma AcceptPlace(srv: Server, fd: nat, cid: nat, conn: int)
    requires Aligned(srv)
    ensures var s', n := Accept(srv, fd, cid, conn), |srv.infos|;
            && |s'.infos| == n + 1 && s'.infos[..n] == srv.infos
            && s'.infos[n].cid == cid && s'.infos[n].conn == conn
            && Recovers(srv, cid, s'.infos[n]) && Takes(srv, cid, s'.archive)
  {
    var a, e := Find(srv.archive, cid, 0), FindEnabled(srv.socks, srv.infos, cid, 0);
    FirstIsFind(srv.archive, cid);
    EnabledIsFind(srv, cid);
    if a < |srv.archive| {
      AcceptArchived(srv, fd, cid, conn, a);
    } else if e < |srv.infos| {
      AcceptTaken(srv, fd, cid, conn, e);
    } else {
      AcceptUnknown(srv, fd, cid, conn);
    }
  }

  lemma FirstIsFind(infos: seq<Info>, cid: nat)
    ensures forall i: nat :: FirstWith(infos, cid, i) ==> i == Find(infos, cid, 0)
    ensures NoneWith(infos, cid) ==> Find(infos, cid, 0) == |infos|
  {
  }

  lemma EnabledIsFind(srv: Server, cid: nat)
    requires Aligned(srv)
    ensures forall e: nat :: FirstEnabled(srv, cid, e) ==> e == FindEnabled(srv.socks, srv.infos, cid, 0)
    ensures NoneEnabled(srv, cid) ==> FindEnabled(srv.socks, srv.infos, cid, 0) == |srv.infos|
  {
  }

  lemma AcceptArchived(srv: Server, fd: nat, cid: nat, conn: int, a: nat)
    requires Aligned(srv) && a == Find(srv.archive, cid, 0) < |srv.archive|
    ensures var s', n := Accept(srv, fd, cid, conn), |srv.infos|;
            && |s'.infos| == n + 1 && s'.infos[..n] == srv.infos && s'.infos[n].cid == cid && s'.infos[n].conn == conn
            && s'.infos[n].coo == srv.archive[a].coo && Cut(srv.archive[a].name, s'.infos[n].name)
            && s'.archive == srv.archive[..a] + srv.archive[a + 1..]
  {
    ClipLaw(srv.archive[a].name);
  }

  lemma AcceptTaken(srv: Server, fd: nat, cid: nat, conn: int, e: nat)
    requires Aligned(srv) && Find(srv.archive, cid, 0) == |srv.archive|
    requires e == FindEnabled(srv.socks, srv.infos, cid, 0) < |srv.infos|
    ensures var s', n := Accept(srv, fd, cid, conn), |srv.infos|;
            && |s'.infos| == n + 1 && s'.infos[..n] == srv.infos && s'.infos[n].cid == cid && s'.infos[n].conn == conn
            && s'.infos[n].coo == srv.infos[e].coo && Cut(srv.infos[e].name, s'.infos[n].name)
            && s'.archive == srv.archive
  {
    FindEnabledShort(srv.socks, Sock(fd, true), srv.infos, cid, 0);
    ClipLaw(srv.infos[e].name);
  }

  lemma AcceptUnknown(srv: Server, fd: nat, cid: nat, conn: int)
    requires Aligned(srv) && Find(srv.archive, cid, 0) == |srv.archive|
    requires FindEnabled(srv.socks, srv.infos, cid, 0) == |srv.infos|
    ensures var s' := Accept(srv, fd, cid, conn);
            s'.infos == srv.infos + [Info(cid, Coord(0, 0, 0), "", conn)] && s'.archive == srv.archive
  {
    FindEnabledShort(srv.socks, Sock(fd, true), srv.infos, cid, 0);
  }

  /** A client that comes back before its broken entry has been purged has lost its place. */
  lemma BrokenForgotten(srv: Server, fd: nat, cid: nat, conn: int)
    requires Aligned(srv) && NoneWith(srv.archive, cid) && NoneEnabled(srv, cid)
    ensures var s' := Accept(srv, fd, cid, conn);
            s'.infos == srv.infos + [Info(cid, Coord(0, 0, 0), "", conn)] && s'.archive == srv.archive
  {
    AcceptPlace(srv, fd, cid, conn);
    var s', n := Accept(srv, fd, cid, conn), |srv.infos|;
    assert s'.infos == s'.infos[..n] + [s'.infos[n]];
  }

  // ---------- orders ----------

  /** `x` is `y` at another place, or under another name. */
  predicate Replaced(infos: seq<Info>, i: nat, infos': seq<Info>, x: Info)
    requires i < |infos|
  {
    |infos'| == |infos| && infos'[i] == x && forall j :: 0 <= j < |infos| && j != i ==> infos'[j] == infos[j]
  }

  /** "set" places the first client of the CID; else its first archived record; else it adds a record without a name. */
  lemma MovesFirst(srv: Server, cid: nat, coo: Coord)
    requires Valid(srv)
    ensures var s' := SetCoordinate(srv, cid, coo);
            && s'.socks == srv.socks && s'.max == srv.max
            && (cid < 3 ==> s' == srv)
            && (cid >= 3 ==>
                  && (forall i: nat :: FirstWith(srv.infos, cid, i) ==>
                        Replaced(srv.infos, i, s'.infos, srv.infos[i].(coo := coo)) && s'.archive == srv.archive)
                  && (NoneWith(srv.infos, cid) ==>
                        && s'.infos == srv.infos
                        && (forall a: nat :: FirstWith(srv.archive, cid, a) ==>
                              Replaced(srv.archive, a, s'.archive, srv.archive[a].(coo := coo)))
                        && (NoneWith(srv.archive, cid) ==>
                              s'.archive == Last(srv.archive + [Info(cid, coo, "", -1)], srv.max))))
  {
    var i, a := Find(srv.infos, cid, 0), Find(srv.archive, cid, 0);
    FirstIsFind(srv.infos, cid);
    FirstIsFind(srv.archive, cid);
    PushIsLast(srv.archive, srv.max, Info(cid, coo, "", -1));
  }

  /** "setname" names the first client of the CID; else its first archived record. */
  lemma NamesFirst(srv: Server, cid: nat, name: string) returns (kept: string)
    ensures Cut(name, kept)
    ensures var s' := SetName(srv, cid, name);
            && s'.socks == srv.socks && s'.max == srv.max
            && (cid < 3 ==> s' == srv)
            && (cid >= 3 ==>
                  && (forall i: nat :: FirstWith(srv.infos, cid, i) ==>
                        Replaced(srv.infos, i, s'.infos, srv.infos[i].(name := kept)) && s'.archive == srv.archive)
                  && (NoneWith(srv.infos, cid) ==>
                        && s'.infos == srv.infos
                        && (forall a: nat :: FirstWith(srv.archive, cid, a) ==>
                              Replaced(srv.archive, a, s'.archive, srv.archive[a].(name := kept)))
                        && (NoneWith(srv.archive, cid) ==> s' == srv)))
  {
    kept := Clip(name);
    ClipLaw(name);
    FirstIsFind(srv.infos, cid);
    FirstIsFind(srv.archive, cid);
  }
}
