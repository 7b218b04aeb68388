/**
  The answer to the order "ls" : what CCTRLServer::SendList writes (src/cctrlserver.cc) and what
  vwifi-ctrl makes of it (src/vwifi-ctrl.cc). A read takes as many of the bytes it asks for as the
  stream still holds; it fails only when there are none.
 */
module ControlList {
  import opened Wire
  import opened Registry
  import opened Radio

  const U32_LIMIT := 0x1_0000_0000

  // ---------- integers ----------

  function U32(n: nat): (s: seq<byte>)
    requires n < U32_LIMIT
    ensures |s| == 4
  {
    [n % 0x100, n / 0x100 % 0x100, n / 0x1_0000 % 0x100, n / 0x100_0000]
  }

  lemma U32RoundTrip(n: nat)
    requires n < U32_LIMIT
    ensures NlmsgLen(U32(n)) == n
  {
    assert n / 0x1_0000 == n / 0x100 / 0x100 && n / 0x100_0000 == n / 0x1_0000 / 0x100;
  }

  function S32(n: int): (s: seq<byte>)
    requires InInt(n)
    ensures |s| == 4
  {
    U32(if n < 0 then n + U32_LIMIT else n)
  }

  lemma S32RoundTrip(n: int)
    requires InInt(n)
    ensures AsInt(NlmsgLen(S32(n))) == n
  {
    U32RoundTrip(if n < 0 then n + U32_LIMIT else n);
  }

  // ---------- names ----------

  /** A C string : no NUL inside. */
  predicate IsText(name: string) {
    forall i :: 0 <= i < |name| ==> 0 < name[i] as int < 256
  }

  function ToBytes(name: string): (s: seq<byte>)
    requires IsText(name)
    ensures |s| == |name|
  {
    seq(|name|, i requires 0 <= i < |name| => name[i] as int)
  }

  /** The string at the head of a char buffer, up to its first NUL. */
  function CString(s: seq<byte>): string {
    if s == [] || s[0] == 0 then "" else [s[0] as char] + CString(s[1..])
  }

  /** The characters before the first NUL. */
  lemma {:induction false} CStringLaw(s: seq<byte>)
    ensures var c := CString(s);
            && |c| <= |s| && (|c| < |s| ==> s[|c|] == 0)
            && forall i :: 0 <= i < |c| ==> s[i] != 0 && c[i] == s[i] as char
  {
    if s != [] && s[0] != 0 {
      CStringLaw(s[1..]);
    }
  }

  lemma {:induction false} CStringRoundTrip(name: string, rest: seq<byte>)
    requires IsText(name)
    ensures CString(ToBytes(name) + [0] + rest) == name
  {
    if name == "" {
      assert ToBytes(name) + [0] + rest == [0] + rest;
    } else {
      CStringRoundTrip(name[1..], rest);
      assert ToBytes(name) + [0] + rest == [name[0] as int] + (ToBytes(name[1..]) + [0] + rest);
      assert name == [name[0]] + name[1..];
    }
  }

  // ---------- the server's side ----------

  /** What can be written in the fields of one record. */
  predicate Sendable(x: Info) {
    && x.cid < U32_LIMIT
    && InInt(x.coo.x) && InInt(x.coo.y) && InInt(x.coo.z)
    && |x.name| <= MAX_SIZE_NAME && IsText(x.name)
  }

  predicate AllSendable(infos: seq<Info>) {
    forall i :: 0 <= i < |infos| ==> Sendable(infos[i])
  }

  function NameField(name: string): seq<byte>
    requires IsText(name)
  {
    if name == "" then [] else ToBytes(name) + [0]
  }

  /** SendCInfoWifi */
  function Record(x: Info): seq<byte>
    requires Sendable(x)
  {
    U32(x.cid) + S32(x.coo.x) + S32(x.coo.y) + S32(x.coo.z) + U32(|x.name|) + NameField(x.name)
  }

  /** The infos of the enabled entries from `i` on. */
  function Kept(srv: Server, i: nat): (r: seq<Info>)
    requires Aligned(srv) && i <= |srv.infos|
    ensures |r| <= |srv.infos| - i
    ensures AllSendable(srv.infos) ==> AllSendable(r)
    decreases |srv.infos| - i
  {
    if i == |srv.infos| then []
    else if srv.socks[i].enabled then [srv.infos[i]] + Kept(srv, i + 1)
    else Kept(srv, i + 1)
  }

  /** Their records, one after the other, and then `tail`. */
  function Records(xs: seq<Info>, tail: seq<byte>): seq<byte>
    requires AllSendable(xs)
    decreases |xs|
  {
    if xs == [] then tail else Record(xs[0]) + Records(xs[1..], tail)
  }

  predicate Listable(srv: Server) {
    Aligned(srv) && AllSendable(srv.infos) && |srv.infos| < U32_LIMIT
  }

  /** The number of all entries, then the records of the enabled ones. */
  function Listing(srv: Server): seq<byte>
    requires Listable(srv)
  {
    U32(|srv.infos|) + Records(Kept(srv, 0), [])
  }

  /** The half of SendList about one server. */
  method SendSide(srv: Server) returns (out: seq<byte>)
    requires Listable(srv)
    ensures out == Listing(srv)
  {
    var number := |srv.socks|;
    out := U32(number);
    var i := 0;
    while i < number
      invariant 0 <= i <= number && Sent(srv, i, out)
    {
      SentStep(srv, i, out);
      if srv.socks[i].enabled {
        out := out + Record(srv.infos[i]);
      }
      i := i + 1;
    }
    SentEnd(srv, out);
  }

  /** The bytes sent before the turn of entry `i`. */
  ghost predicate Sent(srv: Server, i: nat, out: seq<byte>)
    requires Listable(srv) && i <= |srv.infos|
  {
    out + Records(Kept(srv, i), []) == Listing(srv)
  }

  lemma SentStep(srv: Server, i: nat, out: seq<byte>)
    requires Listable(srv) && i < |srv.infos| && Sent(srv, i, out)
    ensures Sent(srv, i + 1, if srv.socks[i].enabled then out + Record(srv.infos[i]) else out)
  {
    RecordsCons(out, srv.infos[i], Kept(srv, i + 1));
  }

  lemma SentEnd(srv: Server, out: seq<byte>)
    requires Listable(srv) && Sent(srv, |srv.infos|, out)
    ensures out == Listing(srv)
  {
    assert out + [] == out;
  }

  lemma RecordsCons(out: seq<byte>, x: Info, xs: seq<Info>)
    requires Sendable(x) && AllSendable(xs)
    ensures AllSendable([x] + xs) && out + Records([x] + xs, []) == (out + Record(x)) + Records(xs, [])
  {
    assert ([x] + xs)[1..] == xs;
    Associate(out, Record(x), Records(xs, []));
  }

  lemma {:induction false} RecordsTail(xs: seq<Info>, tail: seq<byte>)
    requires AllSendable(xs)
    ensures Records(xs, []) + tail == Records(xs, tail)
    decreases |xs|
  {
    if xs != [] {
      RecordsTail(xs[1..], tail);
      Associate(Record(xs[0]), Records(xs[1..], []), tail);
    }
  }

  /** CCTRLServer::SendList : the spies, then the clients. */
  method SendList(spies: Server, clients: Server) returns (out: seq<byte>)
    requires Listable(spies) && Listable(clients)
    ensures out == Listing(spies) + Listing(clients)
  {
    var a := SendSide(spies);
    var b := SendSide(clients);
    out := a + b;
  }

  // ---------- vwifi-ctrl's side ----------

  /** A record as it is read. */
  datatype Entry = Entry(cid: nat, coo: Coord, name: string)

  function EntryOf(x: Info): Entry {
    Entry(x.cid, x.coo, x.name)
  }

  /** What uninitialised bytes hold, by the length of the stream and the position among them. */
  type Stack = (nat, nat) -> byte

  function Junk(stack: Stack, at: nat, n: nat): (s: seq<byte>)
    ensures |s| == n
  {
    seq(n, i requires 0 <= i < n => stack(at, i))
  }

  datatype Fetched = Fetched(ok: bool, data: seq<byte>, rest: seq<byte>)

  /** CSocket::Read of `n` bytes into a variable : what is missing stays as it was. */
  function Fetch(s: seq<byte>, n: nat, stack: Stack): (r: Fetched)
    ensures r.ok ==> |r.data| == n
  {
    if s == [] then Fetched(false, [], s)
    else if n <= |s| then Fetched(true, s[..n], s[n..])
    else Fetched(true, s + Junk(stack, |s|, n - |s|), [])
  }

  /** A read fails only on an ended stream; otherwise it takes what is there of what it asks for. */
  lemma FetchLaw(s: seq<byte>, n: nat, stack: Stack)
    ensures var f := Fetch(s, n, stack); var k := if n <= |s| then n else |s|;
            && (f.ok <==> s != [])
            && (f.ok ==> |f.data| == n && f.data[..k] == s[..k] && f.rest == s[k..])
  {
  }

  lemma FetchExact(a: seq<byte>, b: seq<byte>, n: nat, stack: Stack)
    requires 0 < n == |a|
    ensures Fetch(a + b, n, stack) == Fetched(true, a, b)
  {
    assert (a + b)[..n] == a && (a + b)[n..] == b;
  }

  /** The local variable `info` of AskList and the bytes not read yet; `ok` is a return value of 0. */
  datatype Got = Got(ok: bool, info: Entry, rest: seq<byte>)

  function CoordOf(s: seq<byte>): Coord
    requires |s| == 12
  {
    Coord(AsInt(NlmsgLen(s[..4])), AsInt(NlmsgLen(s[4..8])), AsInt(NlmsgLen(s[8..])))
  }

  /** The name in the buffer of MAX_SIZE_NAME + 1 bytes that `data` was read into. */
  function NameOf(data: seq<byte>, at: nat, stack: Stack): string
    requires |data| <= MAX_SIZE_NAME + 1
  {
    Clip(CString(data + Junk(stack, at, MAX_SIZE_NAME + 1 - |data|)))
  }

  /** GetCInfoWifi : `info` is set only when nothing failed. */
  function GetRecord(s: seq<byte>, info: Entry, stack: Stack): Got {
    var cid := Fetch(s, 4, stack);
    if !cid.ok then Got(false, info, cid.rest)
    else
      var coo := Fetch(cid.rest, 12, stack);
      if !coo.ok then Got(false, info, coo.rest)
      else GetName(coo.rest, info, NlmsgLen(cid.data), CoordOf(coo.data), stack)
  }

  /** The size of the name, and the name. */
  function GetName(s: seq<byte>, info: Entry, cid: nat, coo: Coord, stack: Stack): Got {
    var length := Fetch(s, 4, stack);
    if !length.ok then Got(false, info, length.rest)
    else
      var size := AsInt(NlmsgLen(length.data));
      if size > MAX_SIZE_NAME then Got(false, info, length.rest)
      else if size <= 0 then Got(true, Entry(cid, coo, ""), length.rest)
      else
        var name := Fetch(length.rest, size + 1, stack);
        if !name.ok then Got(false, info, name.rest)
        else Got(true, Entry(cid, coo, NameOf(name.data, |name.rest|, stack)), name.rest)
  }

  datatype Listed = Listed(entries: seq<Entry>, info: Entry, rest: seq<byte>)

  /** Whatever reads one record. */
  type Reader = (seq<byte>, Entry) -> Got

  function RecordReader(stack: Stack): Reader {
    (s, info) => GetRecord(s, info, stack)
  }

  /** The loop over `number` records; GetCInfoWifi returns 1 for an error, which is not what the loop tests for. */
  function GetRecords(get: Reader, s: seq<byte>, number: nat, info: Entry): Listed
    decreases number
  {
    if number == 0 then Listed([], info, s)
    else
      var g := get(s, info);
      var l := GetRecords(get, g.rest, number - 1, g.info);
      l.(entries := [g.info] + l.entries)
  }

  const NOTHING := Entry(0, Coord(0, 0, 0), "")

  datatype Answer = Failed | Lists(spies: seq<Entry>, clients: seq<Entry>)

  /** AskList, given what reads one record. */
  function Ask(get: Reader, s: seq<byte>, stack: Stack): Answer {
    var number := Fetch(s, 4, stack);
    if !number.ok then Failed
    else AskClients(get, GetRecords(get, number.rest, NlmsgLen(number.data), NOTHING), stack)
  }

  /** Its second half. */
  function AskClients(get: Reader, l: Listed, stack: Stack): Answer {
    var number := Fetch(l.rest, 4, stack);
    if !number.ok then Failed
    else Lists(l.entries, GetRecords(get, number.rest, NlmsgLen(number.data), l.info).entries)
  }

  /** The loop of AskList over one list. */
  method ReadRecords(s: seq<byte>, number: nat, info: Entry, stack: Stack)
    returns (entries: seq<Entry>, last: Entry, rest: seq<byte>)
    ensures Listed(entries, last, rest) == GetRecords(RecordReader(stack), s, number, info)
  {
    entries, last, rest := [], info, s;
    var i := 0;
    ghost var get := RecordReader(stack);
    ghost var end := GetRecords(get, s, number, info);
    PendingStart(get, s, number, info);
    while i < number
      invariant 0 <= i <= number && Pending(get, end, entries, rest, number - i, last)
    {
      PendingRecord(stack, end, entries, rest, number - i, last);
      var g := GetRecord(rest, last, stack);
      last, rest := g.info, g.rest;
      entries := entries + [last];
      i := i + 1;
    }
    PendingEnd(get, end, entries, rest, last);
  }

  /** The loop will end as `end` says, with `n` records still to be read. */
  ghost predicate Pending(get: Reader, end: Listed, entries: seq<Entry>, rest: seq<byte>, n: nat, last: Entry) {
    var l := GetRecords(get, rest, n, last);
    end == Listed(entries + l.entries, l.info, l.rest)
  }

  lemma PendingStart(get: Reader, s: seq<byte>, n: nat, info: Entry)
    ensures Pending(get, GetRecords(get, s, n, info), [], s, n, info)
  {
    assert [] + GetRecords(get, s, n, info).entries == GetRecords(get, s, n, info).entries;
  }

  lemma PendingStep(get: Reader, end: Listed, entries: seq<Entry>, rest: seq<byte>, n: nat, last: Entry)
    requires 0 < n && Pending(get, end, entries, rest, n, last)
    ensures var g := get(rest, last); Pending(get, end, entries + [g.info], g.rest, n - 1, g.info)
  {
    var g := get(rest, last);
    Associate(entries, [g.info], GetRecords(get, g.rest, n - 1, g.info).entries);
  }

  lemma PendingRecord(stack: Stack, end: Listed, entries: seq<Entry>, rest: seq<byte>, n: nat, last: Entry)
    requires 0 < n && Pending(RecordReader(stack), end, entries, rest, n, last)
    ensures var g := GetRecord(rest, last, stack); Pending(RecordReader(stack), end, entries + [g.info], g.rest, n - 1, g.info)
  {
    PendingStep(RecordReader(stack), end, entries, rest, n, last);
  }

  lemma PendingEnd(get: Reader, end: Listed, entries: seq<Entry>, rest: seq<byte>, last: Entry)
    requires Pending(get, end, entries, rest, 0, last)
    ensures end == Listed(entries, last, rest)
  {
    assert entries + [] == entries;
  }

  /** AskList, from the bytes of the connection. */
  method AskList(s: seq<byte>, stack: Stack) returns (answer: Answer)
    ensures answer == Ask(RecordReader(stack), s, stack)
  {
    var number := Fetch(s, 4, stack);
    if !number.ok {
      return Failed;
    }
    var spies, info, rest := ReadRecords(number.rest, NlmsgLen(number.data), NOTHING, stack);
    number := Fetch(rest, 4, stack);
    if !number.ok {
      return Failed;
    }
    var clients, last, end := ReadRecords(number.rest, NlmsgLen(number.data), info, stack);
    answer := Lists(spies, clients);
  }

  // ---------- one record ----------

  function Place12(coo: Coord): (s: seq<byte>)
    requires InInt(coo.x) && InInt(coo.y) && InInt(coo.z)
    ensures |s| == 12
  {
    S32(coo.x) + S32(coo.y) + S32(coo.z)
  }

  lemma CoordRoundTrip(coo: Coord)
    requires InInt(coo.x) && InInt(coo.y) && InInt(coo.z)
    ensures CoordOf(Place12(coo)) == coo
  {
    var s := Place12(coo);
    assert s[..4] == S32(coo.x) && s[4..8] == S32(coo.y) && s[8..] == S32(coo.z);
    S32RoundTrip(coo.x);
    S32RoundTrip(coo.y);
    S32RoundTrip(coo.z);
  }

  lemma NameRoundTrip(name: string, at: nat, stack: Stack)
    requires IsText(name) && |name| <= MAX_SIZE_NAME
    ensures NameOf(ToBytes(name) + [0], at, stack) == name
  {
    CStringRoundTrip(name, Junk(stack, at, MAX_SIZE_NAME - |name|));
  }

  lemma GetNameRoundTrip(x: Info, tail: seq<byte>, info: Entry, stack: Stack)
    requires Sendable(x)
    ensures GetName(U32(|x.name|) + (NameField(x.name) + tail), info, x.cid, x.coo, stack) == Got(true, EntryOf(x), tail)
  {
    var field := NameField(x.name);
    FetchExact(U32(|x.name|), field + tail, 4, stack);
    U32RoundTrip(|x.name|);
    if x.name == "" {
      assert field + tail == tail;
    } else {
      FetchExact(field, tail, |x.name| + 1, stack);
      NameRoundTrip(x.name, |tail|, stack);
    }
  }

  /** A record, field by field. */
  lemma RecordFields(x: Info, tail: seq<byte>)
    requires Sendable(x)
    ensures Record(x) + tail == U32(x.cid) + (Place12(x.coo) + (U32(|x.name|) + (NameField(x.name) + tail)))
  {
    var a, b, c, d := U32(x.cid), Place12(x.coo), U32(|x.name|), NameField(x.name);
    RecordParts(a, S32(x.coo.x), S32(x.coo.y), S32(x.coo.z), c, d, tail);
  }

  lemma RecordParts<T>(a: seq<T>, x: seq<T>, y: seq<T>, z: seq<T>, c: seq<T>, d: seq<T>, tail: seq<T>)
    ensures (a + x + y + z + c + d) + tail == a + ((x + y + z) + (c + (d + tail)))
  {
  }

  /** A record on the wire : four 32-bit numbers, the length of the name, and the name with its NUL unless it is empty. */
  lemma RecordLayout(x: Info)
    requires Sendable(x)
    ensures var s := Record(x);
            && 20 <= |s| && NlmsgLen(s[..4]) == x.cid
            && AsInt(NlmsgLen(s[4..8])) == x.coo.x && AsInt(NlmsgLen(s[8..12])) == x.coo.y && AsInt(NlmsgLen(s[12..16])) == x.coo.z
            && NlmsgLen(s[16..20]) == |x.name|
            && s[20..] == (if x.name == "" then [] else ToBytes(x.name) + [0])
  {
    var s := Record(x);
    assert s[..4] == U32(x.cid) && s[4..8] == S32(x.coo.x) && s[8..12] == S32(x.coo.y) && s[12..16] == S32(x.coo.z);
    assert s[16..20] == U32(|x.name|);
    U32RoundTrip(x.cid);
    U32RoundTrip(|x.name|);
    S32RoundTrip(x.coo.x);
    S32RoundTrip(x.coo.y);
    S32RoundTrip(x.coo.z);
  }

  /** A list on the wire begins with the number of all its entries. */
  lemma ListingLayout(srv: Server)
    requires Listable(srv)
    ensures var s := Listing(srv); 4 <= |s| && NlmsgLen(s[..4]) == |srv.infos| && s[4..] == Records(Kept(srv, 0), [])
  {
    assert Listing(srv)[..4] == U32(|srv.infos|);
    U32RoundTrip(|srv.infos|);
  }

  /**
    When a record is accepted, of a stream that holds its fixed part : if the length of the name is at
    most 12 and, when positive, the stream goes on. What was known before is replaced only then.
   */
  lemma GetRecordExact(s: seq<byte>, info: Entry, stack: Stack)
    requires 20 <= |s|
    ensures var g, size := GetRecord(s, info, stack), AsInt(NlmsgLen(s[16..20]));
            && (g.ok <==> size <= 12 && (size > 0 ==> 20 < |s|))
            && (!g.ok ==> g.info == info)
            && (g.ok ==>
                  && g.info.cid == NlmsgLen(s[..4])
                  && g.info.coo == Coord(AsInt(NlmsgLen(s[4..8])), AsInt(NlmsgLen(s[8..12])), AsInt(NlmsgLen(s[12..16])))
                  && |g.info.name| <= 12 && (size <= 0 ==> g.info.name == ""))
  {
    FixedParts(s);
    var cid, coo := Fetch(s, 4, stack), Fetch(s[4..], 12, stack);
    assert cid == Fetched(true, s[..4], s[4..]) && coo == Fetched(true, s[4..16], s[16..]);
    GetNameExact(s[16..], info, NlmsgLen(s[..4]), CoordOf(s[4..16]), stack);
    assert s[16..][..4] == s[16..20];
  }

  lemma FixedParts(s: seq<byte>)
    requires 20 <= |s|
    ensures s[4..][..12] == s[4..16] && s[4..][12..] == s[16..]
    ensures s[4..16][..4] == s[4..8] && s[4..16][4..8] == s[8..12] && s[4..16][8..] == s[12..16]
  {
  }

  lemma GetNameExact(s: seq<byte>, info: Entry, cid: nat, coo: Coord, stack: Stack)
    requires 4 <= |s|
    ensures var g, size := GetName(s, info, cid, coo, stack), AsInt(NlmsgLen(s[..4]));
            && (g.ok <==> size <= 12 && (size > 0 ==> 4 < |s|))
            && (!g.ok ==> g.info == info)
            && (g.ok ==> g.info.cid == cid && g.info.coo == coo && |g.info.name| <= 12 && (size <= 0 ==> g.info.name == ""))
  {
  }

  lemma RecordRoundTrip(x: Info, tail: seq<byte>, info: Entry, stack: Stack)
    requires Sendable(x)
    ensures GetRecord(Record(x) + tail, info, stack) == Got(true, EntryOf(x), tail)
  {
    var rest := U32(|x.name|) + (NameField(x.name) + tail);
    RecordFields(x, tail);
    FetchExact(U32(x.cid), Place12(x.coo) + rest, 4, stack);
    FetchExact(Place12(x.coo), rest, 12, stack);
    U32RoundTrip(x.cid);
    CoordRoundTrip(x.coo);
    GetNameRoundTrip(x, tail, info, stack);
  }

  // ---------- the list ----------

  function AllEntries(infos: seq<Info>): seq<Entry> {
    seq(|infos|, i requires 0 <= i < |infos| => EntryOf(infos[i]))
  }

  predicate AllEnabled(srv: Server) {
    forall i :: 0 <= i < |srv.socks| ==> srv.socks[i].enabled
  }

  function LastOf(s: seq<Entry>, info: Entry): Entry {
    if s == [] then info else s[|s| - 1]
  }

  /** Reading `number` records from `s` yields `live` and goes on, with `tail`, for the others. */
  predicate Reads(get: Reader, s: seq<byte>, live: seq<Entry>, number: nat, tail: seq<byte>, info: Entry)
    requires |live| <= number
  {
    var more := GetRecords(get, tail, number - |live|, LastOf(live, info));
    GetRecords(get, s, number, info) == Listed(live + more.entries, more.info, more.rest)
  }

  /** One record more at the front. */
  lemma ReadsCons(get: Reader, s: seq<byte>, x: Entry, later: seq<byte>, live: seq<Entry>, number: nat, tail: seq<byte>, info: Entry)
    requires get(s, info) == Got(true, x, later) && |live| < number && Reads(get, later, live, number - 1, tail, x)
    ensures Reads(get, s, [x] + live, number, tail, info)
  {
    var all := [x] + live;
    assert LastOf(all, info) == LastOf(live, x);
    Associate([x], live, GetRecords(get, tail, number - |all|, LastOf(all, info)).entries);
  }

  lemma ReadsEnd(get: Reader, number: nat, tail: seq<byte>, info: Entry)
    ensures Reads(get, [] + tail, [], number, tail, info)
  {
    assert [] + tail == tail;
    assert [] + GetRecords(get, tail, number, info).entries == GetRecords(get, tail, number, info).entries;
  }

  /** The bytes `s` hold exactly the records `entries`, and then `tail`. */
  predicate Yields(get: Reader, s: seq<byte>, entries: seq<Entry>, tail: seq<byte>, info: Entry)
    decreases |entries|
  {
    if entries == [] then s == tail
    else
      var g := get(s, info);
      g.ok && g.info == entries[0] && Yields(get, g.rest, entries[1..], tail, g.info)
  }

  lemma {:induction false} YieldsRead(get: Reader, s: seq<byte>, entries: seq<Entry>, number: nat, tail: seq<byte>, info: Entry)
    requires |entries| <= number && Yields(get, s, entries, tail, info)
    ensures Reads(get, s, entries, number, tail, info)
    decreases |entries|
  {
    if entries == [] {
      ReadsEnd(get, number, tail, info);
      assert [] + tail == tail;
    } else {
      var g := get(s, info);
      YieldsRead(get, g.rest, entries[1..], number - 1, tail, g.info);
      ReadsCons(get, s, g.info, g.rest, entries[1..], number, tail, info);
      assert entries == [g.info] + entries[1..];
    }
  }

  /** The reader gets every record that was written, whatever follows it. */
  ghost predicate Faithful(get: Reader) {
    forall x: Info, tail: seq<byte>, info: Entry ::
      Sendable(x) ==> get(Record(x) + tail, info) == Got(true, EntryOf(x), tail)
  }

  /** And it takes nothing from nothing. */
  ghost predicate Reading(get: Reader) {
    Faithful(get) && forall info: Entry :: get([], info) == Got(false, info, [])
  }

  /** GetCInfoWifi does. */
  lemma ReaderReads(stack: Stack)
    ensures Reading(RecordReader(stack))
  {
    forall x: Info, tail: seq<byte>, info: Entry | Sendable(x)
      ensures RecordReader(stack)(Record(x) + tail, info) == Got(true, EntryOf(x), tail)
    {
      RecordRoundTrip(x, tail, info, stack);
    }
  }

  /** The records of a list are read back, whatever follows them. */
  lemma {:induction false} RecordsRead(get: Reader, xs: seq<Info>, tail: seq<byte>, info: Entry)
    requires Faithful(get) && AllSendable(xs)
    ensures Yields(get, Records(xs, tail), AllEntries(xs), tail, info)
    decreases |xs|
  {
    if xs != [] {
      assert get(Records(xs, tail), info) == Got(true, EntryOf(xs[0]), Records(xs[1..], tail));
      RecordsRead(get, xs[1..], tail, EntryOf(xs[0]));
      assert AllEntries(xs)[1..] == AllEntries(xs[1..]);
    }
  }

  lemma Associate<T>(r: seq<T>, s: seq<T>, t: seq<T>)
    ensures r + (s + t) == (r + s) + t
  {
  }

  /** Nothing is left to read: every further record repeats the last one. */
  function Repeat(info: Entry, n: nat): (r: seq<Entry>)
    ensures |r| == n && forall i :: 0 <= i < n ==> r[i] == info
  {
    seq(n, _ => info)
  }

  lemma {:induction false} NothingLeft(get: Reader, number: nat, info: Entry)
    requires get([], info) == Got(false, info, [])
    ensures GetRecords(get, [], number, info) == Listed(Repeat(info, number), info, [])
  {
    if 0 < number {
      NothingLeft(get, number - 1, info);
      assert Repeat(info, number) == [info] + Repeat(info, number - 1);
    }
  }

  lemma {:induction false} AllKept(srv: Server, i: nat)
    requires Aligned(srv) && AllEnabled(srv) && i <= |srv.infos|
    ensures Kept(srv, i) == srv.infos[i..]
    decreases |srv.infos| - i
  {
    if i < |srv.infos| {
      AllKept(srv, i + 1);
    }
  }

  /** The records of the enabled entries. */
  function Live(srv: Server): seq<Entry>
    requires Aligned(srv)
  {
    AllEntries(Kept(srv, 0))
  }

  lemma LiveOfEnabled(srv: Server)
    requires Aligned(srv) && AllEnabled(srv)
    ensures Live(srv) == AllEntries(srv.infos)
  {
    AllKept(srv, 0);
    assert srv.infos[0..] == srv.infos;
  }

  /** One list of the answer : its count, then what is read of its records. */
  lemma SideRead(get: Reader, srv: Server, tail: seq<byte>, info: Entry, stack: Stack)
    requires Reading(get) && Listable(srv)
    ensures var f := Fetch(Listing(srv) + tail, 4, stack);
            && f.ok && NlmsgLen(f.data) == |srv.infos|
            && Reads(get, f.rest, Live(srv), |srv.infos|, tail, info)
  {
    var count, kept := U32(|srv.infos|), Kept(srv, 0);
    Associate(count, Records(kept, []), tail);
    RecordsTail(kept, tail);
    FetchExact(count, Records(kept, tail), 4, stack);
    U32RoundTrip(|srv.infos|);
    RecordsRead(get, kept, tail, info);
    YieldsRead(get, Records(kept, tail), Live(srv), |srv.infos|, tail, info);
  }

  /**
    What vwifi-ctrl reads of any two lists : the enabled spies, one more record out of the bytes of
    the clients for each disabled spy, and the clients out of what is left then.
   */
  lemma ListExact(get: Reader, spies: Server, clients: Server, stack: Stack)
    requires Reading(get) && Listable(spies) && Listable(clients)
    ensures var live := Live(spies);
            var more := GetRecords(get, Listing(clients), |spies.infos| - |live|, LastOf(live, NOTHING));
            Ask(get, Listing(spies) + Listing(clients), stack)
            == AskClients(get, Listed(live + more.entries, more.info, more.rest), stack)
  {
    SideRead(get, spies, Listing(clients), NOTHING, stack);
  }

  /** What is read of the last list : its enabled entries, then one repetition for each disabled one. */
  function LastRead(srv: Server, info: Entry): seq<Entry>
    requires Aligned(srv)
  {
    var live := Live(srv);
    live + Repeat(LastOf(live, info), |srv.infos| - |live|)
  }

  lemma ReadsAll(get: Reader, s: seq<byte>, live: seq<Entry>, number: nat, info: Entry)
    requires Reading(get) && |live| <= number && Reads(get, s, live, number, [], info)
    ensures GetRecords(get, s, number, info).entries == live + Repeat(LastOf(live, info), number - |live|)
  {
    NothingLeft(get, number - |live|, LastOf(live, info));
  }

  lemma LastSideRead(get: Reader, srv: Server, entries: seq<Entry>, info: Entry, stack: Stack)
    requires Reading(get) && Listable(srv)
    ensures AskClients(get, Listed(entries, info, Listing(srv)), stack) == Lists(entries, LastRead(srv, info))
  {
    SideRead(get, srv, [], info, stack);
    assert Listing(srv) + [] == Listing(srv);
    ReadsAll(get, Fetch(Listing(srv), 4, stack).rest, Live(srv), |srv.infos|, info);
  }

  /** With no disabled spy : all spies, then the enabled clients, then the last record again for each disabled client. */
  lemma ListOfClients(get: Reader, spies: Server, clients: Server, stack: Stack)
    requires Reading(get) && Listable(spies) && AllEnabled(spies) && Listable(clients)
    ensures var entries := AllEntries(spies.infos);
            Ask(get, Listing(spies) + Listing(clients), stack) == Lists(entries, LastRead(clients, LastOf(entries, NOTHING)))
  {
    var entries := AllEntries(spies.infos);
    LiveOfEnabled(spies);
    ListExact(get, spies, clients, stack);
    assert entries + [] == entries;
    LastSideRead(get, clients, entries, LastOf(entries, NOTHING), stack);
  }

  // ---------- when the answer is right ----------

  predicate DistinctCids(infos: seq<Info>) {
    forall i, j :: 0 <= i < j < |infos| ==> infos[i].cid != infos[j].cid
  }

  predicate NonZero(infos: seq<Info>) {
    forall i :: 0 <= i < |infos| ==> infos[i].cid != 0
  }

  predicate AtOrigin(infos: seq<Info>) {
    forall i :: 0 <= i < |infos| ==> infos[i].coo == Coord(0, 0, 0)
  }

  lemma {:induction false} KeptCount(srv: Server, i: nat, k: nat)
    requires Aligned(srv) && i <= k < |srv.infos| && !srv.socks[k].enabled
    ensures |Kept(srv, i)| < |srv.infos| - i
    decreases k - i
  {
    if i < k {
      KeptCount(srv, i + 1, k);
    }
  }

  lemma {:induction false} KeptNonZero(srv: Server, i: nat)
    requires Aligned(srv) && NonZero(srv.infos) && i <= |srv.infos|
    ensures NonZero(Kept(srv, i))
    decreases |srv.infos| - i
  {
    if i < |srv.infos| {
      KeptNonZero(srv, i + 1);
    }
  }

  /** The first record read out of the bytes of a whole list fails, or takes a CID for its x. */
  ghost predicate Skewed(get: Reader, s: seq<byte>) {
    forall info: Entry :: get(s, info).info == info || get(s, info).info.coo.x != 0
  }

  lemma ReaderSkewed(srv: Server, stack: Stack)
    requires Listable(srv) && NonZero(srv.infos)
    ensures Skewed(RecordReader(stack), Listing(srv))
  {
    forall info: Entry
      ensures var g := RecordReader(stack)(Listing(srv), info); g.info == info || g.info.coo.x != 0
    {
      FirstMisread(srv, info, stack);
    }
  }

  lemma FirstMisread(srv: Server, info: Entry, stack: Stack)
    requires Listable(srv) && NonZero(srv.infos)
    ensures var g := GetRecord(Listing(srv), info, stack); g.info == info || g.info.coo.x != 0
  {
    var kept := Kept(srv, 0);
    BehindCount(U32(|srv.infos|), Records(kept, []), info, stack);
    if kept != [] {
      KeptNonZero(srv, 0);
      FirstCoord(kept, stack);
    }
  }

  lemma BehindCount(count: seq<byte>, s: seq<byte>, info: Entry, stack: Stack)
    requires |count| == 4
    ensures var g, f := GetRecord(count + s, info, stack), Fetch(s, 12, stack);
            g.info == info || (f.ok && g.info.coo == CoordOf(f.data))
  {
    FetchExact(count, s, 4, stack);
  }

  lemma FirstCoord(xs: seq<Info>, stack: Stack)
    requires AllSendable(xs) && NonZero(xs) && xs != []
    ensures var f := Fetch(Records(xs, []), 12, stack); f.ok && CoordOf(f.data).x != 0
  {
    var x, later := xs[0], Records(xs[1..], []);
    RecordFields(x, later);
    FetchHead(U32(x.cid), Place12(x.coo) + (U32(|x.name|) + (NameField(x.name) + later)), stack);
    U32RoundTrip(x.cid);
  }

  lemma FetchHead(a: seq<byte>, b: seq<byte>, stack: Stack)
    requires |a| == 4 && 8 <= |b|
    ensures var f := Fetch(a + b, 12, stack); f.ok && f.data[..4] == a
  {
    assert (a + b)[..12][..4] == a;
  }

  lemma FirstRead(get: Reader, s: seq<byte>, number: nat, info: Entry)
    requires 0 < number
    ensures var l := GetRecords(get, s, number, info); l.entries != [] && l.entries[0] == get(s, info).info
  {
  }

  lemma AskSpies(get: Reader, l: Listed, stack: Stack)
    ensures AskClients(get, l, stack).Failed? || AskClients(get, l, stack).spies == l.entries
  {
  }

  lemma LiveShort(srv: Server)
    requires Aligned(srv) && !AllEnabled(srv)
    ensures |Live(srv)| < |srv.infos|
  {
    var j :| 0 <= j < |srv.socks| && !srv.socks[j].enabled;
    KeptCount(srv, 0, j);
  }

  lemma SkewedSpies(get: Reader, infos: seq<Info>, live: seq<Entry>, s: seq<byte>)
    requires DistinctCids(infos) && NonZero(infos) && AtOrigin(infos) && |live| < |infos| && Skewed(get, s)
    ensures live + GetRecords(get, s, |infos| - |live|, LastOf(live, NOTHING)).entries != AllEntries(infos)
  {
    var n, last := |infos| - |live|, LastOf(live, NOTHING);
    FirstRead(get, s, n, last);
    NotNext(infos, live, GetRecords(get, s, n, last).entries);
  }

  /** Spies that lie at the origin, as no order moves them, are never read back right when one of them is disabled. */
  lemma SpyMisread(get: Reader, spies: Server, clients: Server, stack: Stack)
    requires Reading(get) && Listable(spies) && DistinctCids(spies.infos) && NonZero(spies.infos) && AtOrigin(spies.infos)
    requires Listable(clients) && Skewed(get, Listing(clients)) && !AllEnabled(spies)
    ensures var a := Ask(get, Listing(spies) + Listing(clients), stack); a.Failed? || a.spies != AllEntries(spies.infos)
  {
    LiveShort(spies);
    SpiesRead(get, spies, clients, stack);
    SkewedSpies(get, spies.infos, Live(spies), Listing(clients));
  }

  /** What is read of the spies of any two lists, if anything is. */
  lemma SpiesRead(get: Reader, spies: Server, clients: Server, stack: Stack)
    requires Reading(get) && Listable(spies) && Listable(clients)
    ensures var a, live := Ask(get, Listing(spies) + Listing(clients), stack), Live(spies);
            a.Failed? ||
            a.spies == live + GetRecords(get, Listing(clients), |spies.infos| - |live|, LastOf(live, NOTHING)).entries
  {
    var live := Live(spies);
    var more := GetRecords(get, Listing(clients), |spies.infos| - |live|, LastOf(live, NOTHING));
    ListExact(get, spies, clients, stack);
    AskSpies(get, Listed(live + more.entries, more.info, more.rest), stack);
  }

  lemma NotNext(infos: seq<Info>, live: seq<Entry>, more: seq<Entry>)
    requires DistinctCids(infos) && NonZero(infos) && AtOrigin(infos) && |live| < |infos| && more != []
    requires more[0] == LastOf(live, NOTHING) || more[0].coo.x != 0
    ensures live + more != AllEntries(infos)
  {
    var k, s, all := |live|, live + more, AllEntries(infos);
    assert s[k] == more[0];
    if more[0].coo.x != 0 {
      assert all[k].coo.x == 0;
    } else if k == 0 {
      assert all[k].cid != 0;
    } else {
      assert s[k - 1] == s[k];
      assert all[k - 1].cid != all[k].cid;
    }
  }

  /** Position of the first disabled entry from `i` on. */
  function FirstDisabled(socks: seq<Sock>, i: nat): (d: nat)
    requires i <= |socks|
    ensures i <= d <= |socks| && (d < |socks| ==> !socks[d].enabled)
    ensures forall k :: i <= k < d ==> socks[k].enabled
    decreases |socks| - i
  {
    if i == |socks| || !socks[i].enabled then i else FirstDisabled(socks, i + 1)
  }

  /** Where the `j`-th enabled entry is : further on, once a disabled one has been passed. */
  lemma {:induction false} KeptIndex(srv: Server, i: nat, j: nat) returns (g: nat)
    requires Aligned(srv) && i <= |srv.infos| && j < |Kept(srv, i)|
    ensures i + j <= g < |srv.infos| && Kept(srv, i)[j] == srv.infos[g]
    ensures forall d :: i <= d <= i + j && !srv.socks[d].enabled ==> i + j < g
    decreases |srv.infos| - i
  {
    if !srv.socks[i].enabled {
      g := KeptIndex(srv, i + 1, j);
    } else if j == 0 {
      g := i;
    } else {
      g := KeptIndex(srv, i + 1, j - 1);
    }
  }

  lemma {:induction false} KeptPrefix(srv: Server, i: nat, k: nat)
    requires Aligned(srv) && i <= |srv.socks| && i <= k < FirstDisabled(srv.socks, i)
    ensures k - i < |Kept(srv, i)| && Kept(srv, i)[k - i] == srv.infos[k]
    decreases k - i
  {
    if i < k {
      KeptPrefix(srv, i + 1, k);
    }
  }

  /** Every entry from the first disabled one on has the record that is read last. */
  predicate Settled(srv: Server, info: Entry)
    requires Aligned(srv)
  {
    forall i :: FirstDisabled(srv.socks, 0) <= i < |srv.infos| ==> EntryOf(srv.infos[i]) == LastOf(Live(srv), info)
  }

  /** In a list read right every entry behind a disabled one has the record of a later one, and so the last. */
  lemma {:induction false} SettledFrom(srv: Server, info: Entry, i: nat)
    requires Aligned(srv) && LastRead(srv, info) == AllEntries(srv.infos)
    requires FirstDisabled(srv.socks, 0) <= i < |srv.infos|
    ensures EntryOf(srv.infos[i]) == LastOf(Live(srv), info)
    decreases |srv.infos| - i
  {
    assert LastRead(srv, info)[i] == EntryOf(srv.infos[i]);
    if i < |Live(srv)| {
      var g := KeptIndex(srv, 0, i);
      SettledFrom(srv, info, g);
    }
  }

  lemma SettledRead(srv: Server, info: Entry, i: nat)
    requires Aligned(srv) && Settled(srv, info) && i < |srv.infos|
    ensures LastRead(srv, info)[i] == EntryOf(srv.infos[i])
  {
    if i < FirstDisabled(srv.socks, 0) {
      KeptPrefix(srv, 0, i);
    } else if i < |Live(srv)| {
      var g := KeptIndex(srv, 0, i);
    }
  }

  /** Whatever the CIDs, the last list is read right exactly when it is settled. */
  lemma ClientsRight(srv: Server, info: Entry)
    requires Aligned(srv)
    ensures LastRead(srv, info) == AllEntries(srv.infos) <==> Settled(srv, info)
  {
    if LastRead(srv, info) == AllEntries(srv.infos) {
      forall i | FirstDisabled(srv.socks, 0) <= i < |srv.infos| ensures EntryOf(srv.infos[i]) == LastOf(Live(srv), info) {
        SettledFrom(srv, info, i);
      }
    }
    if Settled(srv, info) {
      forall i | 0 <= i < |srv.infos| ensures LastRead(srv, info)[i] == EntryOf(srv.infos[i]) {
        SettledRead(srv, info, i);
      }
    }
  }

  /** A take-over as soon as it has happened : the taken-over entry and the new one, which has its record. */
  lemma TakeOverSettled(srv: Server, info: Entry)
    requires Aligned(srv) && |srv.infos| == 2 && !srv.socks[0].enabled && srv.socks[1].enabled
    ensures Settled(srv, info) <==> EntryOf(srv.infos[0]) == EntryOf(srv.infos[1])
  {
    assert Kept(srv, 0) == Kept(srv, 1) && Kept(srv, 2) == [];
    assert Live(srv) == [EntryOf(srv.infos[1])];
  }

  /** The answer vwifi-ctrl should read. */
  predicate Right(get: Reader, spies: Server, clients: Server, stack: Stack)
    requires Listable(spies) && Listable(clients)
  {
    Ask(get, Listing(spies) + Listing(clients), stack) == Lists(AllEntries(spies.infos), AllEntries(clients.infos))
  }

  lemma EnabledRight(get: Reader, spies: Server, clients: Server, stack: Stack)
    requires Reading(get) && Listable(spies) && AllEnabled(spies) && Listable(clients) && AllEnabled(clients)
    ensures Right(get, spies, clients, stack)
  {
    ListOfClients(get, spies, clients, stack);
    LiveOfEnabled(clients);
    assert AllEntries(clients.infos) + [] == AllEntries(clients.infos);
  }

  /** When every entry is enabled, vwifi-ctrl reads back exactly the spies, then exactly the clients. */
  lemma ListRoundTrip(spies: Server, clients: Server, stack: Stack)
    requires Listable(spies) && AllEnabled(spies) && Listable(clients) && AllEnabled(clients)
    ensures Right(RecordReader(stack), spies, clients, stack)
  {
    ReaderReads(stack);
    EnabledRight(RecordReader(stack), spies, clients, stack);
  }

  lemma RightExactly(get: Reader, spies: Server, clients: Server, stack: Stack)
    requires Reading(get) && Listable(spies) && DistinctCids(spies.infos) && NonZero(spies.infos) && AtOrigin(spies.infos)
    requires Listable(clients) && Skewed(get, Listing(clients))
    ensures Right(get, spies, clients, stack) <==> AllEnabled(spies) && Settled(clients, LastOf(AllEntries(spies.infos), NOTHING))
  {
    if AllEnabled(spies) {
      ListOfClients(get, spies, clients, stack);
      ClientsRight(clients, LastOf(AllEntries(spies.infos), NOTHING));
    } else {
      SpyMisread(get, spies, clients, stack);
    }
  }

  /**
    With different spies at the origin, and no CID zero, the answer is read back right if and only
    if no spy is disabled and every client from the first disabled one on has the record that is
    read last.
   */
  lemma ListRightExactly(spies: Server, clients: Server, stack: Stack)
    requires Listable(spies) && DistinctCids(spies.infos) && NonZero(spies.infos) && AtOrigin(spies.infos)
    requires Listable(clients) && NonZero(clients.infos)
    ensures Right(RecordReader(stack), spies, clients, stack)
       <==> AllEnabled(spies) && Settled(clients, LastOf(AllEntries(spies.infos), NOTHING))
  {
    ReaderReads(stack);
    ReaderSkewed(clients, stack);
    RightExactly(RecordReader(stack), spies, clients, stack);
  }

  /** One disabled spy, still counted but not sent, and no client : the count of clients is read as its CID, and the list fails. */
  lemma DisabledMisread(spies: Server, clients: Server, stack: Stack)
    requires Listable(spies) && |spies.socks| == 1 && !spies.socks[0].enabled
    requires clients.socks == [] && clients.infos == []
    ensures Listable(clients) && Ask(RecordReader(stack), Listing(spies) + Listing(clients), stack) == Failed
  {
    var get, s := RecordReader(stack), Listing(clients);
    ReaderReads(stack);
    ListExact(get, spies, clients, stack);
    KeptCount(spies, 0, 0);
    assert s == U32(0) + [];
    FetchExact(U32(0), [], 4, stack);
    assert get(s, NOTHING) == Got(false, NOTHING, []);
    assert GetRecords(get, s, 1, NOTHING) == Listed([NOTHING] + GetRecords(get, [], 0, NOTHING).entries, NOTHING, []);
  }
}
