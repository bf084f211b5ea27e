/** The global connection array, edited in place, and its lookups. */
module ConnTables {
  import opened ConnTypes
  import opened ConnTableSpec
  import opened Wrappers

  /** What WMA and SME know about a vdev when it is added. */
  datatype VdevInfo = VdevInfo(mode: Mode, chan: nat, bw: nat, mac: nat, nss: Option<(nat, nat)>)

  /** The entry recorded for a vdev: 2x2 only if the NSS of its own band exceeds 1. */
  function EntryFor(info: VdevInfo, vdevId: nat): Conn {
    var (nss2g, nss5g) := if info.nss.Some? then info.nss.value else (0, 0);
    var wide := (Is24(info.chan) && nss2g > 1) || (Is5(info.chan) && nss5g > 1);
    Conn(info.mode, info.chan, info.bw, info.mac, if wide then TwoTwo else OneOne,
         if Is24(info.chan) then nss2g else nss5g, vdevId, true)
  }

  /** What an entry has to say about a vdev: its own mode, channel, bandwidth, MAC and id,
      the NSS of the band of its channel, and 2x2 exactly if that exceeds 1. */
  predicate Describes(c: Conn, info: VdevInfo, vdevId: nat) {
    && c.inUse && c.vdevId == vdevId
    && c.mode == info.mode && c.chan == info.chan && c.bw == info.bw && c.mac == info.mac
    && (info.nss == None ==> c.originalNss == 0 && c.chain == OneOne)
    && (info.nss.Some? && 1 <= info.chan <= 13 ==> c.originalNss == info.nss.value.0)
    && (info.nss.Some? && !(1 <= info.chan <= 13) ==> c.originalNss == info.nss.value.1)
    && (c.chain == TwoTwo <==> c.originalNss > 1 && (1 <= info.chan <= 13 || 36 <= info.chan <= 184))
  }

  function Slot(conns: seq<Conn>, i: nat): Conn {
    if i < |conns| then conns[i] else FREE_SLOT
  }

  /** Positions of the connections of one mode below a bound, ascending. */
  function ModeIndices(conns: seq<Conn>, mode: Mode, bound: nat): (r: seq<nat>)
    requires bound <= |conns|
    ensures |r| == Count(conns[..bound], mode)
    ensures forall i :: 0 <= i < |r| ==> r[i] < bound && conns[r[i]].mode == mode
    ensures forall k :: 0 <= k < bound && conns[k].mode == mode ==> k in r
    ensures forall i, j :: 0 <= i < j < |r| ==> r[i] < r[j]
  {
    if bound == 0 then []
    else
      assert conns[..bound] == conns[..bound - 1] + [conns[bound - 1]];
      CountConcat(conns[..bound - 1], [conns[bound - 1]], mode);
      ModeIndices(conns, mode, bound - 1) + if conns[bound - 1].mode == mode then [bound - 1] else []
  }

  class ConnTable {
    const list: array<Conn>
    ghost var conns: seq<Conn>

    /** In-use entries form a prefix and every other slot is zero. */
    ghost predicate Valid()
      reads this, list
    {
      && list.Length == MAX_CONNECTIONS
      && |conns| <= MAX_CONNECTIONS
      && AllInUse(conns)
      && forall i :: 0 <= i < MAX_CONNECTIONS ==> list[i] == Slot(conns, i)
    }

    constructor ()
      ensures Valid() && conns == [] && fresh(list)
      ensures forall i :: 0 <= i < list.Length ==> list[i] == Conn(Sta, 0, 0, 0, OneOne, 0, 0, false)
    {
      list := new Conn[MAX_CONNECTIONS](_ => FREE_SLOT);
      conns := [];
    }

    /** The bound-and-in-use test that ends the early-stopping loops. */
    predicate IsValidIndex(i: nat)
      reads this, list
    {
      i < list.Length && list[i].inUse
    }

    // ---------------------------------------------------------------- lookups

    method ConnectionCount() returns (count: nat)
      requires Valid()
      ensures count == |conns|
    {
      count := 0;
      for i := 0 to MAX_CONNECTIONS
        invariant count == if i < |conns| then i else |conns|
      {
        if list[i].inUse {
          count := count + 1;
        }
      }
    }

    method ModeCount(mode: Mode) returns (count: nat, indices: seq<nat>)
      requires Valid()
      ensures count == Count(conns, mode)
      ensures indices == ModeIndices(conns, mode, |conns|)
    {
      count, indices := 0, [];
      assert conns[..|conns|] == conns;
      for i := 0 to MAX_CONNECTIONS
        invariant indices == ModeIndices(conns, mode, if i < |conns| then i else |conns|)
        invariant count == |indices|
      {
        if list[i].mode == mode && list[i].inUse {
          indices := indices + [i];
          count := count + 1;
        }
      }
    }

    /** The full scan over all slots finds what the early-stopping scans find. */
    method IndexForVdev(vdevId: nat) returns (index: nat)
      requires Valid()
      ensures index == if FindVdev(conns, vdevId) < |conns| then FindVdev(conns, vdevId) else MAX_CONNECTIONS
    {
      index := 0;
      while index < MAX_CONNECTIONS
        invariant index <= MAX_CONNECTIONS
        invariant forall j :: 0 <= j < index && j < |conns| ==> conns[j].vdevId != vdevId
      {
        if list[index].vdevId == vdevId && list[index].inUse {
          FindVdevIs(conns, vdevId, index);
          return;
        }
        index := index + 1;
      }
      FindVdevIs(conns, vdevId, |conns|);
    }

    method ChannelOf(mode: Mode, vdevId: Option<nat>) returns (chan: nat)
      requires Valid()
      ensures (chan == 0 && forall i :: 0 <= i < |conns| ==>
                                !(conns[i].mode == mode && (vdevId.None? || conns[i].vdevId == vdevId.value)))
              || exists i :: 0 <= i < |conns| && chan == conns[i].chan
                       && conns[i].mode == mode && (vdevId.None? || conns[i].vdevId == vdevId.value)
                       && forall j :: 0 <= j < i ==>
                                !(conns[j].mode == mode && (vdevId.None? || conns[j].vdevId == vdevId.value))
    {
      for i := 0 to MAX_CONNECTIONS
        invariant forall j :: 0 <= j < i && j < |conns| ==>
                    !(conns[j].mode == mode && (vdevId.None? || conns[j].vdevId == vdevId.value))
      {
        if list[i].mode == mode && (vdevId.None? || list[i].vdevId == vdevId.value) && list[i].inUse {
          assert conns[i].chan == list[i].chan;
          return list[i].chan;
        }
      }
      return 0;
    }

    /** The early-stopping scan by vdev id. */
    method ScanVdev(vdevId: nat) returns (index: nat, found: bool)
      requires Valid()
      ensures index == FindVdev(conns, vdevId)
      ensures found <==> index < |conns|
    {
      index, found := 0, false;
      while IsValidIndex(index)
        invariant index <= |conns|
        invariant forall j :: 0 <= j < index ==> conns[j].vdevId != vdevId
        decreases MAX_CONNECTIONS - index
      {
        if vdevId == list[index].vdevId {
          found := true;
          break;
        }
        index := index + 1;
      }
      FindVdevIs(conns, vdevId, index);
    }

    // ---------------------------------------------------------------- updates

    /** Writes one slot; an index past the end is dropped. */
    method UpdateSlot(index: nat, c: Conn)
      requires Valid() && c.inUse
      requires index <= |conns|
      modifies this, list
      ensures Valid()
      ensures conns == if index < |old(conns)| then old(conns)[index := c]
                       else if index < MAX_CONNECTIONS then old(conns) + [c]
                       else old(conns)
    {
      if index >= MAX_CONNECTIONS {
        return;
      }
      list[index] := c;
      conns := if index < |conns| then conns[index := c] else conns + [c];
    }

    /** Adds a vdev. A table that is already full reports success but keeps nothing. */
    method Increment(p: Platform, vdevId: nat, info: Option<VdevInfo>) returns (ok: bool)
      requires Valid()
      modifies this, list
      ensures Valid()
      ensures ok <==> |old(conns)| <= p.maxSessions && info.Some?
      ensures conns == if ok then Append(p, old(conns), EntryFor(info.value, vdevId)) else old(conns)
      ensures ok && |old(conns)| < MAX_CONNECTIONS ==>
                && |conns| == |old(conns)| + 1 && conns[..|old(conns)|] == old(conns)
                && Describes(conns[|old(conns)|], info.value, vdevId)
    {
      var index := ConnectionCount();
      if p.maxSessions < index {
        return false;
      }
      if info.None? {
        return false;
      }
      var entry := info.value;
      var chain := OneOne;
      var nss := 0;
      if entry.nss.Some? {
        var (nss2g, nss5g) := entry.nss.value;
        if (Is24(entry.chan) && nss2g > 1) || (Is5(entry.chan) && nss5g > 1) {
          chain := TwoTwo;
        }
        nss := if Is24(entry.chan) then nss2g else nss5g;
      }
      UpdateSlot(index, Conn(entry.mode, entry.chan, entry.bw, entry.mac, chain, nss, vdevId, true));
      return true;
    }

    /** Refreshes the entry of a live vdev. */
    method UpdateInfo(vdevId: nat, info: Option<VdevInfo>) returns (ok: bool)
      requires Valid()
      modifies this, list
      ensures Valid()
      ensures ok <==> FindVdev(old(conns), vdevId) < |old(conns)| && info.Some?
      ensures conns == if ok then Replace(old(conns), EntryFor(info.value, vdevId)) else old(conns)
      ensures ok ==>
                && |conns| == |old(conns)|
                && (forall i :: 0 <= i < |conns| && i != FindVdev(old(conns), vdevId) ==> conns[i] == old(conns)[i])
                && Describes(conns[FindVdev(old(conns), vdevId)], info.value, vdevId)
    {
      var index, found := ScanVdev(vdevId);
      if !found || info.None? {
        return false;
      }
      UpdateSlot(index, EntryFor(info.value, vdevId));
      return true;
    }

    /** Deletes a vdev by shifting the later entries down and zeroing the last one. */
    method Decrement(vdevId: nat) returns (ok: bool)
      requires Valid()
      modifies this, list
      ensures Valid()
      ensures ok <==> FindVdev(old(conns), vdevId) < |old(conns)|
      ensures conns == RemoveVdev(old(conns), vdevId)
    {
      var index, found := ScanVdev(vdevId);
      if !found {
        return false;
      }
      ghost var was := conns;
      ghost var start := index;
      var next := index + 1;
      while IsValidIndex(next)
        invariant start < next == index + 1 <= |was|
        invariant forall i :: 0 <= i < start ==> list[i] == was[i]
        invariant forall i :: start <= i < index ==> list[i] == was[i + 1]
        invariant forall i :: index <= i < MAX_CONNECTIONS ==> list[i] == Slot(was, i)
        decreases MAX_CONNECTIONS - next
      {
        list[index] := list[next];
        index := index + 1;
        next := next + 1;
      }
      list[next - 1] := FREE_SLOT;
      conns := RemoveAt(was, start);
      return true;
    }

    /** Takes out the first entry of a mode and hands it to the caller. */
    method StoreAndDelete(mode: Mode) returns (info: Conn)
      requires Valid()
      modifies this, list
      ensures Valid()
      ensures conns == Park(old(conns), mode)
      ensures info == Slot(old(conns), FindMode(old(conns), mode))
    {
      info := FREE_SLOT;
      var index, found := 0, false;
      while IsValidIndex(index)
        invariant index <= |conns|
        invariant forall j :: 0 <= j < index ==> conns[j].mode != mode
        decreases MAX_CONNECTIONS - index
      {
        if mode == list[index].mode {
          found := true;
          break;
        }
        index := index + 1;
      }
      FindModeIs(conns, mode, index);
      if !found {
        return;
      }
      info := list[index];
      var _ := Decrement(info.vdevId);
    }

    /** Puts a stored entry back after the last one, if there is room. */
    method Restore(info: Conn)
      requires Valid() && info.inUse
      modifies this, list
      ensures Valid()
      ensures conns == PutBack(old(conns), info)
    {
      var index := ConnectionCount();
      if MAX_CONNECTIONS <= index {
        return;
      }
      list[index] := info;
      conns := conns + [info];
    }

    /** The bracket used around a PCL query for an existing connection. */
    method ParkAndRestoreEntry(mode: Mode)
      requires Valid()
      modifies this, list
      ensures Valid()
      ensures conns == ParkAndRestore(old(conns), mode)
    {
      var count, _ := ModeCount(mode);
      ghost var k := FindMode(conns, mode);
      CountPositive(conns, mode);
      if count > 0 {
        ParkThenPutBack(conns, mode);
        var info := StoreAndDelete(mode);
        Restore(info);
      }
    }

    /** Applies a new vdev-to-MAC map. */
    method ApplyMacMap(entries: seq<(nat, nat)>)
      requires Valid()
      modifies this, list
      ensures Valid()
      ensures conns == Remap(old(conns), entries)
    {
      for i := 0 to |entries|
        invariant Valid()
        invariant conns == Remap(old(conns), entries[..i])
      {
        var index, found := ScanVdev(entries[i].0);
        if found {
          list[index] := list[index].(mac := entries[i].1);
          conns := conns[index := conns[index].(mac := entries[i].1)];
        }
        assert entries[..i + 1][..i] == entries[..i];
      }
      assert entries[..|entries|] == entries;
    }
  }
}
