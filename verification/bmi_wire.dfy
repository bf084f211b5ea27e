/** The wire format of BMI commands and the memory they act on. */
module BmiWire {
  import opened Bytes

  const ADDRESS_SPACE: nat := 0x1_0000_0000

  type word = w: int | 0 <= w < 0x1_0000_0000

  const HEADER: nat := 12      // command, address, length
  const LZ_HEADER: nat := 8    // command, length

  /** Command codes; their values are not part of this model, only that they differ. */
  datatype Codes = Codes(done: word, readMemory: word, writeMemory: word, execute: word, lzStreamStart: word,
                         lzData: word)
  {
    predicate Distinct() {
      && done != readMemory && done != writeMemory && done != execute && done != lzStreamStart && done != lzData
      && readMemory != writeMemory && readMemory != execute && readMemory != lzStreamStart && readMemory != lzData
      && writeMemory != execute && writeMemory != lzStreamStart && writeMemory != lzData
      && execute != lzStreamStart && execute != lzData
      && lzStreamStart != lzData
    }
  }

  datatype Command =
    | Done
    | ReadMemory(address: word, length: word)
    | WriteMemory(address: word, data: seq<byte>)
    | Execute(address: word, param: word)
    | LzStreamStart(address: word)
    | LzData(data: seq<byte>)
    | Malformed

  // -------------------------------------------------------------------- words

  /** Little-endian bytes of a 32-bit word. */
  function Encode(w: word): (r: seq<byte>)
    ensures |r| == 4
  {
    [w % 256, w / 256 % 256, w / 65536 % 256, w / 16777216]
  }

  function Decode(s: seq<byte>): word
    requires |s| == 4
  {
    s[0] as int + 256 * (s[1] as int) + 65536 * (s[2] as int) + 16777216 * (s[3] as int)
  }

  lemma DecodeEncode(w: word)
    ensures Decode(Encode(w)) == w
  {
    assert w == w % 256 + 256 * (w / 256);
    assert w / 256 == w / 256 % 256 + 256 * (w / 65536);
    assert w / 65536 == w / 65536 % 256 + 256 * (w / 16777216);
  }

  /** The low byte comes first. */
  lemma LowByteFirst(w: word)
    ensures Encode(w) == [w % 256] + Encode(w / 256)[..3]
    ensures Encode(w / 256)[3] == 0
    ensures Encode(0x12345678) == [0x78, 0x56, 0x34, 0x12]
  {
    assert w / 256 / 256 == w / 65536 && w / 65536 / 256 == w / 16777216;
  }

  // ----------------------------------------------------------------- commands

  /** What the target makes of the bytes it receives. */
  function Parse(codes: Codes, s: seq<byte>): Command {
    if |s| < 4 then Malformed
    else
      var code := Decode(s[..4]);
      if code == codes.done && |s| == 4 then Done
      else if code == codes.lzStreamStart && |s| == 8 then LzStreamStart(Decode(s[4..8]))
      else if code == codes.lzData && |s| >= LZ_HEADER && |s| == LZ_HEADER + Decode(s[4..8]) then LzData(s[8..])
      else if |s| < HEADER then Malformed
      else if code == codes.readMemory && |s| == HEADER then ReadMemory(Decode(s[4..8]), Decode(s[8..12]))
      else if code == codes.execute && |s| == HEADER then Execute(Decode(s[4..8]), Decode(s[8..12]))
      else if code == codes.writeMemory && |s| == HEADER + Decode(s[8..12]) then WriteMemory(Decode(s[4..8]), s[12..])
      else Malformed
  }

  lemma ParseThreeWords(codes: Codes, code: word, a: word, b: word, data: seq<byte>)
    requires codes.Distinct()
    ensures var s := Encode(code) + Encode(a) + Encode(b) + data;
            && (code == codes.writeMemory && |data| == b ==> Parse(codes, s) == WriteMemory(a, data))
            && (code == codes.readMemory && data == [] ==> Parse(codes, s) == ReadMemory(a, b))
            && (code == codes.execute && data == [] ==> Parse(codes, s) == Execute(a, b))
  {
    var s := Encode(code) + Encode(a) + Encode(b) + data;
    assert s[..4] == Encode(code) && s[4..8] == Encode(a) && s[8..12] == Encode(b) && s[12..] == data;
    DecodeEncode(code);
    DecodeEncode(a);
    DecodeEncode(b);
  }

  lemma ParseTwoWords(codes: Codes, code: word, a: word, data: seq<byte>)
    requires codes.Distinct()
    ensures var s := Encode(code) + Encode(a) + data;
            && (code == codes.lzStreamStart && data == [] ==> Parse(codes, s) == LzStreamStart(a))
            && (code == codes.lzData && |data| == a ==> Parse(codes, s) == LzData(data))
  {
    var s := Encode(code) + Encode(a) + data;
    assert s[..4] == Encode(code) && s[4..8] == Encode(a) && s[8..] == data;
    DecodeEncode(code);
    DecodeEncode(a);
  }

  lemma ParseDone(codes: Codes)
    ensures Parse(codes, Encode(codes.done)) == Done
  {
    assert Encode(codes.done)[..4] == Encode(codes.done);
    DecodeEncode(codes.done);
  }

  // ------------------------------------------------------------------- memory

  /** Target memory: one byte for each 32-bit address. */
  predicate IsMemory(mem: seq<byte>) {
    |mem| == ADDRESS_SPACE
  }

  /** Addresses wrap around at the end of the address space. */
  function Advance(address: word, n: nat): word {
    (address + n) % ADDRESS_SPACE
  }

  /** How far i lies behind address, going up and around. */
  function Distance(address: word, i: word): nat {
    if i >= address then i - address else i - address + ADDRESS_SPACE
  }

  function Poke(mem: seq<byte>, address: word, data: seq<byte>): (r: seq<byte>)
    requires IsMemory(mem)
    ensures IsMemory(r)
    decreases |data|
  {
    if data == [] then mem
    else
      var n := |data| - 1;
      Poke(mem, address, data[..n])[Advance(address, n) := data[n]]
  }

  function Peek(mem: seq<byte>, address: word, n: nat): (r: seq<byte>)
    requires IsMemory(mem)
    ensures |r| == n
  {
    if n == 0 then [] else Peek(mem, address, n - 1) + [mem[Advance(address, n - 1)]]
  }

  lemma AdvanceDistance(address: word, i: word)
    ensures Distance(address, i) < ADDRESS_SPACE
    ensures Advance(address, Distance(address, i)) == i
  {
  }

  lemma DistanceAdvance(address: word, k: nat)
    requires k < ADDRESS_SPACE
    ensures Distance(address, Advance(address, k)) == k
  {
  }

  /** Consecutive chunks make one write. */
  lemma {:induction false} PokeConcat(mem: seq<byte>, address: word, a: seq<byte>, b: seq<byte>)
    requires IsMemory(mem)
    ensures Poke(Poke(mem, address, a), Advance(address, |a|), b) == Poke(mem, address, a + b)
    decreases |b|
  {
    if b == [] {
      assert a + b == a;
    } else {
      var n := |b| - 1;
      assert (a + b)[..|a| + n] == a + b[..n];
      PokeConcat(mem, address, a, b[..n]);
      AdvanceTwice(address, |a|, n);
    }
  }

  /** After a write an address holds the byte meant for it, or what it held before. */
  lemma {:induction false} PokeAt(mem: seq<byte>, address: word, data: seq<byte>, i: word)
    requires IsMemory(mem) && |data| <= ADDRESS_SPACE
    ensures Poke(mem, address, data)[i]
            == if Distance(address, i) < |data| then data[Distance(address, i)] else mem[i]
    decreases |data|
  {
    if data != [] {
      var n := |data| - 1;
      PokeAt(mem, address, data[..n], i);
      DistanceAdvance(address, n);
      AdvanceDistance(address, i);
    }
  }

  lemma AdvanceTwice(address: word, m: nat, n: nat)
    ensures Advance(Advance(address, m), n) == Advance(address, m + n)
  {
  }

  lemma {:induction false} PeekConcat(mem: seq<byte>, address: word, m: nat, n: nat)
    requires IsMemory(mem)
    ensures Peek(mem, address, m + n) == Peek(mem, address, m) + Peek(mem, Advance(address, m), n)
    decreases n
  {
    if n > 0 {
      PeekConcat(mem, address, m, n - 1);
      AdvanceTwice(address, m, n - 1);
      var (x, y) := (Peek(mem, address, m), Peek(mem, Advance(address, m), n - 1));
      assert (x + y) + [mem[Advance(address, m + n - 1)]] == x + (y + [mem[Advance(address, m + n - 1)]]);
    }
  }

  /** Reading back returns what was written. */
  lemma {:induction false} PeekPoke(mem: seq<byte>, address: word, data: seq<byte>, n: nat)
    requires IsMemory(mem) && n <= |data| <= ADDRESS_SPACE
    ensures Peek(Poke(mem, address, data), address, n) == data[..n]
    decreases n
  {
    if n > 0 {
      PeekPoke(mem, address, data, n - 1);
      DistanceAdvance(address, n - 1);
      PokeAt(mem, address, data, Advance(address, n - 1));
    }
  }
}
