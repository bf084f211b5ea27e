/** The connection table as a sequence, and what each table operation does to it. */
module ConnTableSpec {
  import opened ConnTypes

  ghost predicate AllInUse(conns: seq<Conn>) {
    forall i :: 0 <= i < |conns| ==> conns[i].inUse
  }

  ghost predicate DistinctVdevs(conns: seq<Conn>) {
    forall i, j :: 0 <= i < j < |conns| ==> conns[i].vdevId != conns[j].vdevId
  }

  /** Index of the first connection with this vdev id, or the length. */
  function FindVdev(conns: seq<Conn>, vdevId: nat): (i: nat)
    ensures i <= |conns|
    ensures i < |conns| ==> conns[i].vdevId == vdevId
    ensures forall j :: 0 <= j < i ==> conns[j].vdevId != vdevId
  {
    if conns == [] || conns[0].vdevId == vdevId then 0 else 1 + FindVdev(conns[1..], vdevId)
  }

  /** Index of the first connection of this mode, or the length. */
  function FindMode(conns: seq<Conn>, mode: Mode): (i: nat)
    ensures i <= |conns|
    ensures i < |conns| ==> conns[i].mode == mode
    ensures forall j :: 0 <= j < i ==> conns[j].mode != mode
  {
    if conns == [] || conns[0].mode == mode then 0 else 1 + FindMode(conns[1..], mode)
  }

  lemma FindVdevIs(conns: seq<Conn>, vdevId: nat, i: nat)
    requires i <= |conns|
    requires i < |conns| ==> conns[i].vdevId == vdevId
    requires forall j :: 0 <= j < i ==> conns[j].vdevId != vdevId
    ensures FindVdev(conns, vdevId) == i
  {
    assert FindVdev(conns, vdevId) >= i;
  }

  lemma FindModeIs(conns: seq<Conn>, mode: Mode, i: nat)
    requires i <= |conns|
    requires i < |conns| ==> conns[i].mode == mode
    requires forall j :: 0 <= j < i ==> conns[j].mode != mode
    ensures FindMode(conns, mode) == i
  {
    assert FindMode(conns, mode) >= i;
  }

  /** A full table swallows a new entry silently. */
  function Append(p: Platform, conns: seq<Conn>, c: Conn): seq<Conn> {
    if p.maxSessions < |conns| || |conns| >= MAX_CONNECTIONS then conns else conns + [c]
  }

  function RemoveAt(conns: seq<Conn>, i: nat): seq<Conn>
    requires i < |conns|
  {
    conns[..i] + conns[i + 1..]
  }

  function RemoveVdev(conns: seq<Conn>, vdevId: nat): seq<Conn> {
    var i := FindVdev(conns, vdevId);
    if i < |conns| then RemoveAt(conns, i) else conns
  }

  function SetMac(conns: seq<Conn>, vdevId: nat, mac: nat): seq<Conn> {
    var i := FindVdev(conns, vdevId);
    if i < |conns| then conns[i := conns[i].(mac := mac)] else conns
  }

  /** A vdev-to-MAC map is applied entry by entry. */
  function Remap(conns: seq<Conn>, entries: seq<(nat, nat)>): seq<Conn>
    decreases |entries|
  {
    if entries == [] then conns
    else
      var last := entries[|entries| - 1];
      SetMac(Remap(conns, entries[..|entries| - 1]), last.0, last.1)
  }

  /** The MAC that a vdev-to-MAC map gives a vdev: the last one it names, if any. */
  function NewMac(entries: seq<(nat, nat)>, vdevId: nat, mac: nat): nat
    decreases |entries|
  {
    if entries == [] then mac
    else if entries[|entries| - 1].0 == vdevId then entries[|entries| - 1].1
    else NewMac(entries[..|entries| - 1], vdevId, mac)
  }

  /** A map changes the MACs of the vdevs it names and nothing else. */
  lemma {:induction false} RemapIs(conns: seq<Conn>, entries: seq<(nat, nat)>)
    requires DistinctVdevs(conns)
    ensures |Remap(conns, entries)| == |conns|
    ensures forall i :: 0 <= i < |conns| ==>
              Remap(conns, entries)[i] == conns[i].(mac := NewMac(entries, conns[i].vdevId, conns[i].mac))
    decreases |entries|
  {
    if entries != [] {
      var n := |entries| - 1;
      RemapIs(conns, entries[..n]);
      SetMacIs(Remap(conns, entries[..n]), entries[n].0, entries[n].1);
    }
  }

  lemma SetMacIs(conns: seq<Conn>, vdevId: nat, mac: nat)
    requires DistinctVdevs(conns)
    ensures |SetMac(conns, vdevId, mac)| == |conns|
    ensures forall i :: 0 <= i < |conns| ==>
              SetMac(conns, vdevId, mac)[i] == if conns[i].vdevId == vdevId then conns[i].(mac := mac) else conns[i]
  {
  }

  function Replace(conns: seq<Conn>, c: Conn): seq<Conn> {
    var i := FindVdev(conns, c.vdevId);
    if i < |conns| then conns[i := c] else conns
  }

  /** The first entry of a mode is taken out and later put back at the end. The
      deletion goes by vdev id, not by position. */
  function Park(conns: seq<Conn>, mode: Mode): seq<Conn> {
    var i := FindMode(conns, mode);
    if i < |conns| then RemoveVdev(conns, conns[i].vdevId) else conns
  }

  function ParkAndRestore(conns: seq<Conn>, mode: Mode): seq<Conn> {
    var i := FindMode(conns, mode);
    if i < |conns| then Park(conns, mode) + [conns[i]] else conns
  }

  /** A stored entry goes back behind the last one; a full table does not take it. */
  function PutBack(conns: seq<Conn>, c: Conn): seq<Conn> {
    if |conns| < MAX_CONNECTIONS then conns + [c] else conns
  }

  /** With nothing in between there is always room. */
  lemma ParkThenPutBack(conns: seq<Conn>, mode: Mode)
    requires |conns| <= MAX_CONNECTIONS && FindMode(conns, mode) < |conns|
    ensures PutBack(Park(conns, mode), conns[FindMode(conns, mode)]) == ParkAndRestore(conns, mode)
  {
  }

  lemma RemoveAtMultiset(conns: seq<Conn>, i: nat)
    requires i < |conns|
    ensures multiset(conns) == multiset(RemoveAt(conns, i)) + multiset{conns[i]}
  {
    assert conns == conns[..i] + [conns[i]] + conns[i + 1..];
  }

  /** Nothing is lost or duplicated exactly when no earlier entry shares the parked
      entry's vdev id; otherwise that earlier entry is the one deleted. */
  lemma ParkAndRestoreIsPermutation(conns: seq<Conn>, mode: Mode)
    ensures var i := FindMode(conns, mode);
            multiset(ParkAndRestore(conns, mode)) == multiset(conns) <==>
            (i < |conns| ==> forall j :: 0 <= j < i ==> conns[j].vdevId != conns[i].vdevId)
  {
    var i := FindMode(conns, mode);
    if i < |conns| {
      var k := FindVdev(conns, conns[i].vdevId);
      SwapMultiset(conns, k, conns[i]);
      if k < i {
        assert conns[k] != conns[i];
      } else {
        assert k == i;
      }
    }
  }

  /** One entry out and one in: the contents stay exactly when they are the same. */
  lemma SwapMultiset(conns: seq<Conn>, k: nat, c: Conn)
    requires k < |conns|
    ensures multiset(RemoveAt(conns, k) + [c]) == multiset(conns) <==> conns[k] == c
  {
    RemoveAtMultiset(conns, k);
    var rest := multiset(RemoveAt(conns, k));
    assert multiset(RemoveAt(conns, k) + [c]) == rest + multiset{c};
    assert (rest + multiset{conns[k]})[c] == rest[c] + if conns[k] == c then 1 else 0;
    assert (rest + multiset{c})[c] == rest[c] + 1;
  }

  /** With distinct vdev ids the parked entry moves to the end and the others keep
      their order. */
  lemma ParkAndRestoreMovesToEnd(conns: seq<Conn>, mode: Mode)
    requires DistinctVdevs(conns)
    ensures var i := FindMode(conns, mode);
            ParkAndRestore(conns, mode)
            == if i < |conns| then conns[..i] + conns[i + 1..] + [conns[i]] else conns
  {
    var i := FindMode(conns, mode);
    if i < |conns| {
      FindVdevIs(conns, conns[i].vdevId, i);
    }
  }

  lemma CountRemoveAt(conns: seq<Conn>, i: nat, mode: Mode)
    requires i < |conns|
    ensures Count(conns, mode) == Count(RemoveAt(conns, i), mode) + (if conns[i].mode == mode then 1 else 0)
  {
    assert conns == conns[..i] + ([conns[i]] + conns[i + 1..]);
    CountConcat(conns[..i], [conns[i]] + conns[i + 1..], mode);
    CountConcat([conns[i]], conns[i + 1..], mode);
    CountConcat(conns[..i], conns[i + 1..], mode);
  }

  lemma CountUpdate(conns: seq<Conn>, i: nat, c: Conn, mode: Mode)
    requires i < |conns| && conns[i].mode == c.mode
    ensures Count(conns[i := c], mode) == Count(conns, mode)
  {
    assert conns == conns[..i] + [conns[i]] + conns[i + 1..];
    assert conns[i := c] == conns[..i] + [c] + conns[i + 1..];
    CountConcat(conns[..i] + [conns[i]], conns[i + 1..], mode);
    CountConcat(conns[..i], [conns[i]], mode);
    CountConcat(conns[..i] + [c], conns[i + 1..], mode);
    CountConcat(conns[..i], [c], mode);
  }
}
