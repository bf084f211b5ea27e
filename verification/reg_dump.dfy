/** The target dump: reads in limited chunks, a sparse register table flattened into one
    block, and the three sections of a core dump one after another. */
module RegDump {
  import opened Bytes
  import opened RegTables

  const PCIE_READ_LIMIT: nat := 0x5000
  const EIO: int := 5
  const EACCES: int := 13

  const DRAM_LOCATION: nat := 0x400000
  const DRAM_SIZE: nat := 0xA8000
  const AXI_LOCATION: nat := 0xA0000
  const AXI_SIZE: nat := 0x18000
  const REGISTER_LOCATION: nat := 0x800
  const REGISTERS_AT: nat := DRAM_SIZE + AXI_SIZE

  // ------------------------------------------------------------------- the layout

  /** Address a holds a register of the table. */
  ghost predicate Covered(sections: seq<Section>, a: int) {
    exists i :: 0 <= i < |sections| && sections[i].start <= a < sections[i].end
  }

  lemma InSection(sections: seq<Section>, i: nat, a: int)
    requires i < |sections| && sections[i].start <= a < sections[i].end
    ensures Covered(sections, a)
  {
  }

  lemma InGap(sections: seq<Section>, i: nat, a: int)
    requires Increasing(sections) && i + 1 < |sections| && sections[i].end <= a < sections[i + 1].start
    ensures !Covered(sections, a)
  {
    forall j | 0 <= j < |sections| ensures !(sections[j].start <= a < sections[j].end) {
      if j < i {
        Apart(sections, j, i);
      } else if i + 1 < j {
        Apart(sections, i + 1, j);
      }
    }
  }

  /** A start or an end of a section, as an offset into the dump. */
  ghost predicate IsBoundary(sections: seq<Section>, n: int) {
    exists i :: 0 <= i < |sections|
      && (n == Offset(sections, sections[i].start) || n == Offset(sections, sections[i].end))
  }

  /** n is the largest boundary that the room allows. */
  ghost predicate LargestFit(sections: seq<Section>, room: nat, n: nat) {
    && IsBoundary(sections, n) && n <= room
    && forall i :: 0 <= i < |sections| ==>
         && (Offset(sections, sections[i].start) <= room ==> Offset(sections, sections[i].start) <= n)
         && (Offset(sections, sections[i].end) <= room ==> Offset(sections, sections[i].end) <= n)
  }

  /** With room for all of it, the whole range is dumped, and only then. */
  lemma FitIsWhole(sections: seq<Section>, room: nat, n: nat)
    requires Increasing(sections) && sections != [] && LargestFit(sections, room, n)
    ensures n == Size(sections) <==> Size(sections) <= room
    ensures n <= Size(sections)
  {
    var i :| 0 <= i < |sections|
      && (n == Offset(sections, sections[i].start) || n == Offset(sections, sections[i].end));
    assert sections[i].start < sections[i].end;
    if i < |sections| - 1 {
      Apart(sections, i, |sections| - 1);
    }
  }

  /** Nothing beyond boundary n fits: it is the largest fit. */
  lemma StopsHere(sections: seq<Section>, i: nat, room: nat, n: nat)
    requires Increasing(sections) && i < |sections| && n <= room
    requires || (n == Offset(sections, sections[i].start) && room < Offset(sections, sections[i].end))
             || (n == Offset(sections, sections[i].end)
                 && (i + 1 < |sections| ==> room < Offset(sections, sections[i + 1].start)))
    ensures LargestFit(sections, room, n)
    ensures n == Size(sections) <==> Size(sections) <= room
  {
    forall j | 0 <= j < |sections|
      ensures Offset(sections, sections[j].start) <= room ==> Offset(sections, sections[j].start) <= n
      ensures Offset(sections, sections[j].end) <= room ==> Offset(sections, sections[j].end) <= n
    {
      assert sections[j].start < sections[j].end;
      if j < i {
        Apart(sections, j, i);
      } else if i < j {
        Apart(sections, i, j);
        if i + 1 < j {
          Apart(sections, i + 1, j);
        }
      }
    }
    FitIsWhole(sections, room, n);
  }

  /** The dump is complete exactly after the last section. */
  lemma EndsBySize(sections: seq<Section>, i: nat)
    requires Increasing(sections) && i < |sections|
    ensures Offset(sections, sections[i].end) < Size(sections) <==> i + 1 < |sections|
    ensures Offset(sections, sections[i].end) <= Size(sections)
  {
    if i + 1 < |sections| {
      Apart(sections, i, |sections| - 1);
      assert sections[|sections| - 1].start < sections[|sections| - 1].end;
    }
  }

  lemma CoveredConcat(s: seq<Section>, t: seq<Section>, a: int)
    ensures Covered(s + t, a) <==> Covered(s, a) || Covered(t, a)
  {
    forall i | 0 <= i < |s| ensures (s + t)[i] == s[i] {
    }
    forall i | 0 <= i < |t| ensures (s + t)[|s| + i] == t[i] {
    }
  }

  lemma NotBeyond(sections: seq<Section>, last: nat, a: int)
    requires sections != [] && Increasing(sections) && sections[|sections| - 1].end == last <= a
    ensures !Covered(sections, a)
  {
    forall i | 0 <= i < |sections| ensures sections[i].end <= last {
      EndsBySize(sections, i);
    }
  }

  /** The later versions have four registers more, at 0x3A064; all others are the same. */
  lemma VersionsDiffer(version: TargetVersion, a: int)
    requires version != Rev2_1 && version != OtherVersion
    ensures 0x3A064 <= a < 0x3A074 ==>
              Covered(RegTableFor(version).sections, a) && !Covered(RegTableFor(Rev2_1).sections, a)
    ensures !(0x3A064 <= a < 0x3A074) ==>
              (Covered(RegTableFor(version).sections, a) <==> Covered(RegTableFor(Rev2_1).sections, a))
  {
    CoveredConcat(SHARED, TAIL_V2, a);
    CoveredConcat(SHARED, TAIL_V3, a);
    SharedSpans();
    if a >= 0x380E0 {
      NotBeyond(SHARED, 0x380E0, a);
    }
    TailsDiffer(a);
  }

  lemma TailsDiffer(a: int)
    ensures 0x3A064 <= a < 0x3A074 ==> Covered(TAIL_V3, a) && !Covered(TAIL_V2, a)
    ensures !(0x3A064 <= a < 0x3A074) ==> (Covered(TAIL_V3, a) <==> Covered(TAIL_V2, a))
  {
    assert TAIL_V3[0] == Section(0x3A000, 0x3A074) && TAIL_V2[0] == Section(0x3A000, 0x3A064);
    assert TAIL_V3[1..] == TAIL_V2[1..];
    CoveredConcat([TAIL_V2[0]], TAIL_V2[1..], a);
    CoveredConcat([TAIL_V3[0]], TAIL_V3[1..], a);
    assert [TAIL_V2[0]] + TAIL_V2[1..] == TAIL_V2 && [TAIL_V3[0]] + TAIL_V3[1..] == TAIL_V3;
    CoveredByOne(TAIL_V2[0], a);
    CoveredByOne(TAIL_V3[0], a);
    if Covered(TAIL_V2[1..], a) {
      TailRest(a);
    }
  }

  lemma CoveredByOne(section: Section, a: int)
    ensures Covered([section], a) <==> section.start <= a < section.end
  {
    assert [section][0] == section;
  }

  lemma TailRest(a: int)
    requires Covered(TAIL_V2[1..], a)
    ensures a >= 0x40000
  {
  }

  // -------------------------------------------------------------------- the target

  class Target {
    const bytes: nat -> byte      // what the target's memory holds during the dump
    const outcome: nat -> bool    // whether the n-th read succeeds
    var issued: nat                // reads so far

    constructor (bytes: nat -> byte, outcome: nat -> bool) {
      this.bytes, this.outcome, issued := bytes, outcome, 0;
    }

    function Byte(a: nat): byte {
      bytes(a)
    }

    predicate Succeeds(n: nat) {
      outcome(n)
    }

    ghost predicate AllSucceed(from: nat, to: nat) {
      forall k :: from <= k < to ==> Succeeds(k)
    }

    /** One read of at most the limit. A failed read may leave anything behind. */
    method ReadMem(pos: nat, buffer: array<byte>, at: nat, count: nat) returns (ok: bool)
      requires count <= PCIE_READ_LIMIT && at + count <= buffer.Length
      modifies this`issued, buffer
      ensures issued == old(issued) + 1 && ok == Succeeds(old(issued))
      ensures ok ==> forall k :: at <= k < at + count ==> buffer[k] == Byte(pos + (k - at))
      ensures forall k :: 0 <= k < buffer.Length && !(at <= k < at + count) ==> buffer[k] == old(buffer[k])
    {
      ok := Succeeds(issued);
      issued := issued + 1;
      for i := 0 to count
        invariant issued == old(issued) + 1
        invariant forall k :: at <= k < at + i && ok ==> buffer[k] == Byte(pos + (k - at))
        invariant forall k :: 0 <= k < buffer.Length && !(at <= k < at + count) ==> buffer[k] == old(buffer[k])
      {
        buffer[at + i] := if ok then Byte(pos + i) else 0;
      }
    }

    /** Reads as if in one piece: fills the buffer with count bytes, or fails. */
    method DiagRead(buffer: array<byte>, at: nat, pos: nat, count: nat) returns (result: int)
      requires at + count <= buffer.Length
      modifies this`issued, buffer
      ensures issued > old(issued)
      ensures result == if AllSucceed(old(issued), issued) then count else -5
      ensures result == count ==> issued == old(issued) + if count == 0 then 1 else (count + 0x4FFF) / 0x5000
      ensures result == count ==> forall k :: at <= k < at + count ==> buffer[k] == Byte(pos + (k - at))
      ensures forall k :: 0 <= k < buffer.Length && !(at <= k < at + count) ==> buffer[k] == old(buffer[k])
    {
      var ok: bool;
      if count == 4 && pos % 4 == 0 {
        ok := ReadMem(pos, buffer, at, count);
      } else if count > PCIE_READ_LIMIT {
        ok := ReadChunks(buffer, at, pos, count);
      } else {
        ok := ReadMem(pos, buffer, at, count);
      }
      result := if ok then count else -EIO;
    }

    method ReadChunks(buffer: array<byte>, at0: nat, pos0: nat, count: nat) returns (ok: bool)
      requires at0 + count <= buffer.Length && count > PCIE_READ_LIMIT
      modifies this`issued, buffer
      ensures issued > old(issued) && ok == AllSucceed(old(issued), issued)
      ensures ok ==> issued == old(issued) + (count + 0x4FFF) / 0x5000
      ensures ok ==> forall k :: at0 <= k < at0 + count ==> buffer[k] == Byte(pos0 + (k - at0))
      ensures forall k :: 0 <= k < buffer.Length && !(at0 <= k < at0 + count) ==> buffer[k] == old(buffer[k])
    {
      var (at, pos) := (at0, pos0);
      var amountRead, readSize := 0, PCIE_READ_LIMIT;
      ok := true;
      while amountRead < count && ok
        invariant amountRead <= count && at == at0 + amountRead && pos == pos0 + amountRead
        invariant readSize == if count - amountRead < PCIE_READ_LIMIT then count - amountRead else PCIE_READ_LIMIT
        invariant issued >= old(issued) && (amountRead > 0 || !ok ==> issued > old(issued))
        invariant ok == AllSucceed(old(issued), issued)
        invariant ok ==> issued == old(issued) + (amountRead + 0x4FFF) / 0x5000
        invariant ok ==> amountRead % 0x5000 == 0 || amountRead == count
        invariant ok ==> forall k :: at0 <= k < at ==> buffer[k] == Byte(pos0 + (k - at0))
        invariant forall k :: 0 <= k < buffer.Length && !(at0 <= k < at0 + count) ==> buffer[k] == old(buffer[k])
        decreases ok, count - amountRead
      {
        ok := ReadMem(pos, buffer, at, readSize);
        if ok {
          at := at + readSize;
          pos := pos + readSize;
          amountRead := amountRead + readSize;
          var remainder := count - amountRead;
          if remainder < PCIE_READ_LIMIT {
            readSize := remainder;
          }
        }
      }
    }

    // --------------------------------------------------------------- registers

    /** What the dump of a table puts at offset k: a register, or in a gap what was there. */
    ghost function Image(sections: seq<Section>, before: seq<byte>, at: nat, k: nat): byte
      requires sections != [] && at <= k < |before|
    {
      var a := sections[0].start + (k - at);
      if Covered(sections, a) then Byte(a) else before[k]
    }

    /** The first n bytes from at on are the image; nothing else has changed. */
    ghost predicate Dumped(sections: seq<Section>, before: seq<byte>, buffer: array<byte>, at: nat, n: nat)
      requires sections != []
      reads buffer
    {
      && |before| == buffer.Length && at + n <= buffer.Length
      && (forall k :: at <= k < at + n ==> buffer[k] == Image(sections, before, at, k))
      && (forall k :: 0 <= k < buffer.Length && !(at <= k < at + n) ==> buffer[k] == before[k])
    }

    /** Reads one section and lets the image grow by it. */
    method DumpSection(sections: seq<Section>, i: nat, ghost before: seq<byte>, buffer: array<byte>, at: nat, n: nat)
      returns (len: int)
      requires Increasing(sections) && i < |sections| && n == Offset(sections, sections[i].start)
      requires at + Offset(sections, sections[i].end) <= buffer.Length
      requires Dumped(sections, before, buffer, at, n)
      modifies this`issued, buffer
      ensures issued > old(issued)
      ensures len == if AllSucceed(old(issued), issued) then sections[i].end - sections[i].start else -EIO
      ensures len != -EIO ==> Dumped(sections, before, buffer, at, n + len)
    {
      len := DiagRead(buffer, at + n, sections[i].start, sections[i].end - sections[i].start);
      if len != -EIO {
        forall k | at + n <= k < at + n + len ensures buffer[k] == Image(sections, before, at, k) {
          InSection(sections, i, sections[0].start + (k - at));
        }
      }
    }

    /** The bytes of a gap stay as they are. */
    lemma DumpGap(sections: seq<Section>, i: nat, before: seq<byte>, buffer: array<byte>, at: nat, n: nat, m: nat)
      requires Increasing(sections) && i + 1 < |sections|
      requires n == Offset(sections, sections[i].end) && m == Offset(sections, sections[i + 1].start)
      requires Dumped(sections, before, buffer, at, n) && at + m <= buffer.Length
      ensures Dumped(sections, before, buffer, at, m)
    {
      forall k | at + n <= k < at + m ensures buffer[k] == Image(sections, before, at, k) {
        InGap(sections, i, sections[0].start + (k - at));
      }
    }

    /** Dumps the table: each register at its address's distance from the first one. */
    method ReadRegisters(table: RegTable, buffer: array<byte>, at: nat) returns (result: int)
      requires at <= buffer.Length && table.Valid()
      modifies this`issued, buffer
      ensures issued >= old(issued)
      ensures result == -EIO <==> table.sections == [] || !AllSucceed(old(issued), issued)
      ensures result != -EIO ==>
                && 0 <= result && LargestFit(table.sections, buffer.Length - at, result)
                && Dumped(table.sections, old(buffer[..]), buffer, at, result)
                && (result == table.size <==> table.size <= buffer.Length - at)
    {
      var sections, sectionLen := table.sections, table.size;
      if |sections| == 0 || sectionLen == 0 {
        assert sections != [] ==> Offset(sections, sections[0].end) <= Size(sections) by {
          if sections != [] { EndsBySize(sections, 0); }
        }
        return -EIO;
      }
      ghost var before := buffer[..];
      var room := buffer.Length - at;
      result := 0;
      var curr := 0;
      while curr < |sections|
        invariant curr <= |sections| && 0 <= result <= room
        invariant result == if curr < |sections| then Offset(sections, sections[curr].start) else sectionLen
        invariant Dumped(sections, before, buffer, at, result)
        invariant issued >= old(issued) && AllSucceed(old(issued), issued)
      {
        var dumpLen := sections[curr].end - sections[curr].start;
        if room - result < dumpLen {
          StopsHere(sections, curr, room, result);
          return;
        }
        var len := DumpSection(sections, curr, before, buffer, at, result);
        if len == -EIO {
          return -EIO;
        }
        result := result + len;
        EndsBySize(sections, curr);
        if result < sectionLen {
          var fillLen := sections[curr + 1].start - sections[curr].end;
          if room - result < fillLen {
            StopsHere(sections, curr, room, result);
            return;
          }
          DumpGap(sections, curr, before, buffer, at, result, result + fillLen);
          result := result + fillLen;
        }
        curr := curr + 1;
      }
      StopsHere(sections, |sections| - 1, room, result);
    }

    /** In terms of addresses: the register at address a is found at its distance from
        the first start. */
    lemma RegisterAt(sections: seq<Section>, before: seq<byte>, buffer: array<byte>, at: nat, n: nat, a: int)
      requires sections != [] && Dumped(sections, before, buffer, at, n)
      requires Covered(sections, a) && 0 <= Offset(sections, a) < n
      ensures buffer[at + Offset(sections, a)] == Byte(a)
    {
      assert buffer[at + Offset(sections, a)] == Image(sections, before, at, at + Offset(sections, a));
    }

    /** The dump of the table for a target version. */
    method ReadRegLoc(version: TargetVersion, buffer: array<byte>, at: nat) returns (result: int)
      requires at <= buffer.Length
      modifies this`issued, buffer
      ensures issued >= old(issued)
      ensures result == -EIO <==> version == OtherVersion || !AllSucceed(old(issued), issued)
      ensures result != -EIO ==>
                && 0 <= result && (result == 0x7F820 <==> 0x7F820 <= buffer.Length - at)
                && Dumped(RegTableFor(version).sections, old(buffer[..]), buffer, at, result)
    {
      var table := RegTableFor(version);
      ShippedTablesValid(version);
      assert version != OtherVersion ==> table.size == 0x7F820;
      result := ReadRegisters(table, buffer, at);
    }

    // --------------------------------------------------------------- core dump

    /** What a core dump puts at offset k of the block: DRAM, then AXI, then on PCI the
        register image. */
    ghost function CoreByte(table: RegTable, pci: bool, before: seq<byte>, k: nat): byte
      requires k < |before|
    {
      if k < DRAM_SIZE then Byte(DRAM_LOCATION + k)
      else if k < REGISTERS_AT then Byte(AXI_LOCATION + (k - DRAM_SIZE))
      else if pci && table.sections != [] then Image(table.sections, before, REGISTERS_AT, k)
      else before[k]
    }

    /** How far the dump of a block goes: only whole memory sections, then the registers
        that fit. */
    ghost predicate DumpEnds(table: RegTable, pci: bool, room: nat, n: nat) {
      if room < DRAM_SIZE then n == 0
      else if room < REGISTERS_AT then n == DRAM_SIZE
      else if room == REGISTERS_AT || !pci || table.sections == [] then n == REGISTERS_AT
      else n >= REGISTERS_AT && LargestFit(table.sections, room - REGISTERS_AT, n - REGISTERS_AT)
    }

    ghost predicate CoreDumped(table: RegTable, pci: bool, before: seq<byte>, block: array<byte>, n: nat)
      reads block
    {
      && |before| == block.Length && n <= block.Length
      && (forall k :: 0 <= k < n ==> block[k] == CoreByte(table, pci, before, k))
      && (forall k :: n <= k < block.Length ==> block[k] == before[k])
    }

    /** The layout in numbers: 0xA8000 bytes from 0x400000, 0x18000 bytes from 0xA0000, then
        on PCI each register at its distance from the first one. */
    lemma CoreLayout(table: RegTable, pci: bool, before: seq<byte>, block: array<byte>, n: nat)
      requires CoreDumped(table, pci, before, block, n)
      ensures forall k :: 0 <= k < 0xA8000 && k < n ==> block[k] == Byte(0x400000 + k)
      ensures forall k :: 0xA8000 <= k < 0xC0000 && k < n ==> block[k] == Byte(0xA0000 + (k - 0xA8000))
      ensures pci && table.sections != [] ==>
                forall a :: Covered(table.sections, a) && 0xC0000 <= 0xC0000 + Offset(table.sections, a) < n ==>
                  block[0xC0000 + Offset(table.sections, a)] == Byte(a)
    {
      if pci && table.sections != [] {
        forall a | Covered(table.sections, a) && 0xC0000 <= 0xC0000 + Offset(table.sections, a) < n
          ensures block[0xC0000 + Offset(table.sections, a)] == Byte(a)
        {
          var k := 0xC0000 + Offset(table.sections, a);
          assert block[k] == CoreByte(table, pci, before, k) == Image(table.sections, before, 0xC0000, k);
        }
      }
    }

    /** How far a dump goes, in numbers. */
    lemma CoreExtent(table: RegTable, pci: bool, room: nat, n: nat)
      requires table.Valid() && DumpEnds(table, pci, room, n)
      ensures n <= room
      ensures n == 0 <==> room < 0xA8000
      ensures n == 0xA8000 <==> 0xA8000 <= room < 0xC0000
      ensures n >= 0xC0000 <==> room >= 0xC0000
      ensures n > 0xC0000 ==> pci && table.sections != []
      ensures pci && table.sections != [] && room >= 0xC0000 ==>
                (n == 0xC0000 + Size(table.sections) <==> room >= 0xC0000 + Size(table.sections))
    {
      if pci && table.sections != [] && room >= 0xC0000 {
        SizePositive(table.sections);
        if room > 0xC0000 {
          FitIsWhole(table.sections, room - 0xC0000, n - 0xC0000);
        }
      }
    }

    lemma SizePositive(sections: seq<Section>)
      requires sections != [] && Increasing(sections)
      ensures Size(sections) > 0
    {
      EndsBySize(sections, 0);
    }

    /** Where the sections of a core dump begin and what they are read from. */
    function SectionStart(i: nat): nat {
      if i == 0 then 0 else if i == 1 then DRAM_SIZE else REGISTERS_AT
    }

    /** One section of the core dump, which has room for a memory section. */
    method DumpCoreSection(i: nat, table: RegTable, pci: bool, ghost before: seq<byte>, block: array<byte>)
      returns (result: int)
      requires i < 3 && table.Valid() && SectionStart(i + 1) <= block.Length
      requires CoreDumped(table, pci, before, block, SectionStart(i))
      modifies this`issued, block
      ensures issued >= old(issued)
      ensures result == -EIO <==> (i == 2 && pci && table.sections == []) || !AllSucceed(old(issued), issued)
      ensures result != -EIO ==> 0 <= result && CoreDumped(table, pci, before, block, SectionStart(i) + result)
      ensures result != -EIO ==>
                if i < 2 then SectionStart(i) + result == SectionStart(i + 1)
                else if !pci then result == 0
                else LargestFit(table.sections, block.Length - REGISTERS_AT, result)
    {
      if i == 0 {
        result := DiagRead(block, 0, DRAM_LOCATION, DRAM_SIZE);
      } else if i == 1 {
        result := DiagRead(block, DRAM_SIZE, AXI_LOCATION, AXI_SIZE);
      } else if pci {
        result := ReadRegisters(table, block, REGISTERS_AT);
      } else {
        result := DiagRead(block, REGISTERS_AT, REGISTER_LOCATION, 0);
      }
    }

    /** After a failed section the block is used for something else. */
    method DumpCeRegister(block: array<byte>) returns (ret: int)
      modifies block
      ensures ret == -EACCES
    {
      forall k | 0 <= k < block.Length {
        block[k] := 0;
      }
      ret := -EACCES;
    }

    /** Dumps what fits into the block; amount is how much was read. */
    method CoreDump(table: RegTable, pci: bool, block: array<byte>) returns (ret: int, ghost amount: nat)
      requires table.Valid()
      modifies this`issued, block
      ensures issued >= old(issued) && (ret == 0 || ret == -13)
      ensures ret == 0 <==>
                AllSucceed(old(issued), issued) && !(pci && table.sections == [] && block.Length > REGISTERS_AT)
      ensures ret == 0 ==>
                && CoreDumped(table, pci, old(block[..]), block, amount)
                && DumpEnds(table, pci, block.Length, amount)
    {
      ghost var before := block[..];
      var amountRead, sectionCount := 0, 0;
      ret := 0;
      while sectionCount < 3 && amountRead < block.Length
        invariant sectionCount <= 3 && 0 <= amountRead <= block.Length
        invariant sectionCount < 3 ==> amountRead == SectionStart(sectionCount)
        invariant CoreDumped(table, pci, before, block, amountRead)
        invariant issued >= old(issued) && AllSucceed(old(issued), issued)
        invariant sectionCount == 3 ==>
            && block.Length > REGISTERS_AT && !(pci && table.sections == [])
            && DumpEnds(table, pci, block.Length, amountRead)
        decreases 3 - sectionCount
      {
        var readLen := if sectionCount == 0 then DRAM_SIZE else if sectionCount == 1 then AXI_SIZE else 0;
        if block.Length - amountRead < readLen {
          break;
        }
        var result := DumpCoreSection(sectionCount, table, pci, before, block);
        if result == -EIO {
          ret := DumpCeRegister(block);
          return ret, 0;
        }
        amountRead := amountRead + result;
        sectionCount := sectionCount + 1;
      }
      amount := amountRead;
    }
  }
}
