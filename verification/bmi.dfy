/** The BMI transfer engine: chunked, padded and framed transfers through one command
    buffer, and the life cycle of the BMI phase. */
module Bmi {
  import opened BmiWire
  import opened Bytes

  datatype Status = Success | Failure | NotPermitted | NotInitialized | NoMemory

  /** What happens at the interface: a command goes to the target, or BMI starts afresh. */
  datatype Event = Sent(command: Command) | Started

  /** Everything that has happened, latest last. */
  datatype History = Begin | After(before: History, event: Event)

  function Events(h: History): seq<Event> {
    match h
    case Begin => []
    case After(before, event) => Events(before) + [event]
  }

  function Extend(h: History, events: seq<Event>): History
    decreases |events|
  {
    if events == [] then h else After(Extend(h, events[..|events| - 1]), events[|events| - 1])
  }

  lemma ExtendOne(h: History, events: seq<Event>, e: Event)
    ensures Extend(h, events + [e]) == After(Extend(h, events), e)
  {
    assert (events + [e])[..|events|] == events;
  }

  lemma ExtendFirst(h: History, e: Event, events: seq<Event>)
    ensures Extend(After(h, e), events) == Extend(h, [e] + events)
    ensures Extend(h, [e]) == After(h, e)
  {
    assert [e][..0] == [];
    ExtendTwice(h, [e], events);
  }

  lemma {:induction false} ExtendTwice(h: History, a: seq<Event>, b: seq<Event>)
    ensures Extend(Extend(h, a), b) == Extend(h, a + b)
    decreases |b|
  {
    if b == [] {
      assert a + b == a;
    } else {
      ExtendTwice(h, a, b[..|b| - 1]);
      assert (a + b)[..|a + b| - 1] == a + b[..|b| - 1];
    }
  }

  // ------------------------------------------------------------- quiet after done

  /** A done command was sent since BMI was last started. */
  ghost predicate DonePending(h: History) {
    match h
    case Begin => false
    case After(before, event) => event != Started && (event == Sent(Done) || DonePending(before))
  }

  predicate IsRestricted(e: Event) {
    e.Sent? && e.command != Malformed
  }

  /** No command follows a done command unless BMI was started in between. */
  ghost predicate Quiet(h: History) {
    match h
    case Begin => true
    case After(before, event) => Quiet(before) && (IsRestricted(event) ==> !DonePending(before))
  }

  lemma {:induction false} DonePendingSince(h: History, i: nat)
    requires i < |Events(h)| && Events(h)[i] == Sent(Done)
    requires forall k :: i < k < |Events(h)| ==> Events(h)[k] != Started
    ensures DonePending(h)
  {
    var events := Events(h);
    assert h.event == events[|events| - 1];
    if i < |events| - 1 {
      forall k | i < k < |Events(h.before)| ensures Events(h.before)[k] != Started {
        assert Events(h.before)[k] == events[k];
      }
      DonePendingSince(h.before, i);
    }
  }

  /** In terms of positions: between a done command and any later memory, execute,
      stream or second done command there is a start. */
  lemma {:induction false} QuietMeansStartBetween(h: History, i: nat, j: nat)
    requires Quiet(h) && i < j < |Events(h)| && Events(h)[i] == Sent(Done) && IsRestricted(Events(h)[j])
    ensures exists k :: i < k < j && Events(h)[k] == Started
  {
    var (events, before) := (Events(h), Events(h.before));
    if j < |before| {
      QuietMeansStartBetween(h.before, i, j);
      var k :| i < k < j && before[k] == Started;
      assert events[k] == Started;
    } else if forall k :: i < k < j ==> before[k] != Started {
      DonePendingSince(h.before, i);
    } else {
      var k :| i < k < j && before[k] == Started;
      assert events[k] == Started;
    }
  }

  // ------------------------------------------------------------------- chunks

  function RoundUp4(n: nat): (r: nat)
    ensures n <= r < n + 4 && r % 4 == 0
  {
    if n % 4 == 0 then n else n + (4 - n % 4)
  }

  lemma RoundUpSplit(sent: nat, rest: nat)
    requires sent % 4 == 0
    ensures RoundUp4(sent + rest) == sent + RoundUp4(rest)
    ensures RoundUp4(rest) % 4 == 0 && (rest % 4 == 0 ==> (sent + rest) % 4 == 0)
  {
  }

  /** Bytes in the next chunk of a write. */
  function ChunkLength(remaining: nat, chunk: nat): nat {
    if remaining < chunk then RoundUp4(remaining) else chunk
  }

  lemma NextChunk(length: nat, sent: nat, remaining: nat, chunk: nat)
    requires remaining > 0 && chunk % 4 == 0 && sent % 4 == 0
    requires sent + remaining == length && sent + RoundUp4(remaining) == RoundUp4(length)
    ensures var n := ChunkLength(remaining, chunk);
            var rest := if remaining < chunk then 0 else remaining - chunk;
            && (sent + n) % 4 == 0
            && sent + n + RoundUp4(rest) == RoundUp4(length)
            && (rest > 0 ==> sent + n + rest == length)
  {
    if remaining >= chunk {
      RoundUpSplit(chunk, remaining - chunk);
    }
  }

  /** The bytes a sequence of data commands delivers. */
  function Payload(log: seq<Event>): seq<byte>
    decreases |log|
  {
    if log == [] then []
    else
      var last := log[|log| - 1];
      Payload(log[..|log| - 1]) + if last.Sent? && last.command.LzData? then last.command.data else []
  }

  lemma PayloadAppend(log: seq<Event>, data: seq<byte>)
    ensures Payload(log + [Sent(LzData(data))]) == Payload(log) + data
  {
    assert (log + [Sent(LzData(data))])[..|log|] == log;
  }

  /** Data commands only, none empty, each within the limit. */
  ghost predicate AreChunks(events: seq<Event>, limit: nat) {
    forall i :: 0 <= i < |events| ==>
      events[i].Sent? && events[i].command.LzData? && 0 < |events[i].command.data| <= limit
  }

  lemma ChunksCarry(events: seq<Event>, limit: nat)
    requires AreChunks(events, limit)
    ensures Payload(events) == [] <==> events == []
  {
    if events != [] {
      assert |events[|events| - 1].command.data| > 0;
    }
  }

  /** The last word of a download, zero padded; nothing if the length is a multiple of 4. */
  function LastWord(source: seq<byte>): seq<byte> {
    var aligned := |source| - |source| % 4;
    if |source| % 4 == 0 then [] else source[aligned..] + seq(4 - |source| % 4, _ => 0)
  }

  function ZeroPadded(source: seq<byte>): (r: seq<byte>)
    ensures |r| == RoundUp4(|source|) && r[..|source|] == source
    ensures forall i :: |source| <= i < |r| ==> r[i] == 0
  {
    source + seq(RoundUp4(|source|) - |source|, _ => 0)
  }

  /** The part of the source that fills whole words. */
  function WholeWords(source: seq<byte>): (r: seq<byte>)
    ensures |r| <= |source| && (|source| % 4 == 0 ==> r == source)
  {
    source[..|source| - |source| % 4]
  }

  lemma LastWordCompletes(source: seq<byte>)
    ensures WholeWords(source) + LastWord(source) == ZeroPadded(source)
  {
  }

  lemma NothingWhole(source: seq<byte>)
    requires 0 < |source| < 4
    ensures WholeWords(source) == [] && LastWord(source) == ZeroPadded(source)
  {
    LastWordCompletes(source);
  }

  /** What a successful exchange means for the target's memory and the reply; returned is
      what the program returns that the exchange starts. */
  ghost predicate TakesEffect(command: Command, returned: word, before: seq<byte>, after: seq<byte>, reply: seq<byte>) {
    match command
    case WriteMemory(address, data) =>
      IsMemory(before) && after == Poke(before, address, data)
    case ReadMemory(address, length) => IsMemory(before) && after == before && reply == Peek(before, address, length)
    case Execute(_, _) => reply == Encode(returned)
    case _ => after == before
  }

  // ------------------------------------------------------------------ the engine

  class Session {
    const codes: Codes
    const dataMax: nat                // BMI_DATASZ_MAX, not part of this model
    const outcome: nat -> bool        // whether the n-th exchange ever succeeds
    const returned: nat -> word       // what a program that it starts returns
    var mem: seq<byte>                // the target's memory
    var exchanges: nat
    ghost var log: History
    var done: bool
    var cmd: array?<byte>
    var rsp: array?<byte>
    ghost var live: set<array<byte>>  // allocated and not yet freed

    ghost function Buffers(): set<array<byte>>
      reads this
    {
      (if cmd != null then {cmd} else {}) + (if rsp != null then {rsp} else {})
    }

    /** No leak and no dangling pointer: what is allocated is what is pointed to. */
    ghost predicate Valid()
      reads this
    {
      && codes.Distinct()
      && HEADER < dataMax && dataMax % 4 == 0 && dataMax + HEADER < ADDRESS_SPACE
      && IsMemory(mem)
      && live == Buffers()
      && (cmd != null ==> cmd.Length == dataMax + HEADER)
      && (rsp != null ==> rsp.Length == dataMax + HEADER)
      && (cmd != null ==> cmd != rsp)
      && Quiet(log)
      && (DonePending(log) ==> done)
    }

    constructor (codes: Codes, dataMax: nat, outcome: nat -> bool, returned: nat -> word, mem: seq<byte>)
      requires codes.Distinct() && IsMemory(mem)
      requires HEADER < dataMax && dataMax % 4 == 0 && dataMax + HEADER < ADDRESS_SPACE
      ensures Valid() && cmd == null && rsp == null && !done && log == Begin
    {
      this.codes, this.dataMax, this.outcome, this.returned, this.mem := codes, dataMax, outcome, returned, mem;
      exchanges, log, done, live := 0, Begin, false, {};
      cmd, rsp := null, null;
    }

    /** Whether the n-th exchange succeeds; the interface decides. */
    predicate Succeeds(n: nat) {
      outcome(n)
    }

    function Returned(n: nat): word {
      returned(n)
    }

    /** All exchanges in a range succeed. */
    ghost predicate AllSucceed(from: nat, n: nat) {
      forall k :: from <= k < from + n ==> Succeeds(k)
    }

    // ------------------------------------------------------ memory management

    /** Allocation may fail. */
    method Alloc(available: bool) returns (a: array?<byte>)
      modifies this`live
      ensures available ==> a != null && fresh(a) && a.Length == dataMax + HEADER && live == old(live) + {a}
      ensures !available ==> a == null && live == old(live)
    {
      if available {
        a := new byte[dataMax + HEADER](_ => 0);
        live := live + {a};
      } else {
        a := null;
      }
    }

    /** Freeing takes a buffer that is allocated, so none is freed twice. */
    method Free(a: array<byte>)
      requires a in live
      modifies this`live
      ensures live == old(live) - {a}
    {
      live := live - {a};
    }

    method Init(cmdAvailable: bool, rspAvailable: bool) returns (status: Status)
      requires Valid()
      modifies this
      ensures Valid() && !done && log == After(old(log), Started) && mem == old(mem)
      ensures status == Success <==> (old(cmd) != null || cmdAvailable) && (old(rsp) != null || rspAvailable)
      ensures status == Success ==> cmd != null && rsp != null
      ensures old(cmd) != null && status == Success ==> cmd == old(cmd)
      ensures old(rsp) != null ==> rsp == old(rsp)
      ensures status == Success || status == NoMemory
      ensures fresh(live - old(live))
    {
      log := After(log, Started);
      done := false;
      if cmd == null {
        cmd := Alloc(cmdAvailable);
        if cmd == null {
          return NoMemory;
        }
      }
      if rsp == null {
        rsp := Alloc(rspAvailable);
        if rsp == null {
          Free(cmd);
          cmd := null;
          return NoMemory;
        }
      }
      return Success;
    }

    method ReleaseBuffers()
      requires Valid()
      modifies this`cmd, this`rsp, this`live
      ensures Valid() && cmd == null && rsp == null && live == {}
    {
      if cmd != null {
        Free(cmd);
        cmd := null;
      }
      if rsp != null {
        Free(rsp);
        rsp := null;
      }
    }

    method Cleanup()
      requires Valid()
      modifies this
      ensures Valid() && live == {} && done == old(done) && log == old(log) && mem == old(mem)
    {
      ReleaseBuffers();
    }

    // --------------------------------------------------------------- exchanges

    /** Writes bytes behind what the command buffer holds. */
    method Put(a: array<byte>, offset: nat, data: seq<byte>)
      requires offset + |data| <= a.Length
      modifies a
      ensures a[..offset + |data|] == old(a[..offset]) + data
      ensures forall k :: offset + |data| <= k < a.Length ==> a[k] == old(a[k])
    {
      ghost var head := a[..offset];
      for k := 0 to |data|
        invariant a[..offset + k] == head + data[..k]
        invariant forall i :: offset + k <= i < a.Length ==> a[i] == old(a[i])
      {
        a[offset + k] := data[k];
      }
      assert data[..|data|] == data;
    }

    /** One message to the target. On success it has taken effect; after a failed
        exchange the target's memory may hold anything. */
    method Exchange(n: nat) returns (ok: bool, reply: seq<byte>)
      requires Valid() && !DonePending(log) && cmd != null && n <= cmd.Length
      requires Parse(codes, cmd[..n]) == Done ==> done
      modifies this`mem, this`exchanges, this`log
      ensures Valid() && exchanges == old(exchanges) + 1 && ok == Succeeds(old(exchanges))
      ensures log == After(old(log), Sent(Parse(codes, cmd[..n])))
      ensures Parse(codes, cmd[..n]) != Done ==> !DonePending(log)
      ensures ok ==> TakesEffect(Parse(codes, cmd[..n]), Returned(old(exchanges)), old(mem), mem, reply)
    {
      ok, reply := Perform(Parse(codes, cmd[..n]));
    }

    method Perform(command: Command) returns (ok: bool, reply: seq<byte>)
      requires Valid() && !DonePending(log) && (command == BmiWire.Done ==> done)
      modifies this`mem, this`exchanges, this`log
      ensures Valid() && exchanges == old(exchanges) + 1 && ok == Succeeds(old(exchanges))
      ensures log == After(old(log), Sent(command)) && (command != BmiWire.Done ==> !DonePending(log))
      ensures ok ==> TakesEffect(command, Returned(old(exchanges)), old(mem), mem, reply)
    {
      log := After(log, Sent(command));
      ok := Succeeds(exchanges);
      exchanges := exchanges + 1;
      reply := [];
      if !ok || command.Execute? {
        var disturbed :| IsMemory(disturbed);
        mem := disturbed;
        reply := Encode(Returned(exchanges - 1));
      } else if command.WriteMemory? {
        mem := Poke(mem, command.address, command.data);
      } else if command.ReadMemory? {
        reply := Peek(mem, command.address, command.length);
      }
    }

    method Zero(a: array<byte>)
      modifies a
    {
      for k := 0 to a.Length {
        a[k] := 0;
      }
    }

    /** Frames code, two words and data in the command buffer and sends them. */
    method SendThreeWords(code: word, a: word, b: word, data: seq<byte>, ghost command: Command)
      returns (ok: bool, reply: seq<byte>)
      requires Valid() && !DonePending(log) && cmd != null && HEADER + |data| <= cmd.Length
      requires command == Parse(codes, Encode(code) + Encode(a) + Encode(b) + data) != Done
      modifies this`mem, this`exchanges, this`log, cmd
      ensures Valid() && !DonePending(log)
      ensures exchanges == old(exchanges) + 1 && ok == Succeeds(old(exchanges))
      ensures log == After(old(log), Sent(command))
      ensures ok ==> TakesEffect(command, Returned(old(exchanges)), old(mem), mem, reply)
    {
      Put(cmd, 0, Encode(code));
      Put(cmd, 4, Encode(a));
      Put(cmd, 8, Encode(b));
      Put(cmd, HEADER, data);
      assert cmd[..HEADER + |data|] == Encode(code) + Encode(a) + Encode(b) + data;
      ok, reply := Exchange(HEADER + |data|);
    }

    method SendTwoWords(code: word, a: word, data: seq<byte>, ghost command: Command) returns (ok: bool)
      requires Valid() && !DonePending(log) && cmd != null && LZ_HEADER + |data| <= cmd.Length
      requires command == Parse(codes, Encode(code) + Encode(a) + data) && (command.LzStreamStart? || command.LzData?)
      modifies this`mem, this`exchanges, this`log, cmd
      ensures Valid() && !DonePending(log)
      ensures exchanges == old(exchanges) + 1 && ok == Succeeds(old(exchanges))
      ensures log == After(old(log), Sent(command))
      ensures ok ==> mem == old(mem)
    {
      Put(cmd, 0, Encode(code));
      Put(cmd, 4, Encode(a));
      Put(cmd, LZ_HEADER, data);
      assert cmd[..LZ_HEADER + |data|] == Encode(code) + Encode(a) + data;
      var reply: seq<byte>;
      ok, reply := Exchange(LZ_HEADER + |data|);
    }

    // ------------------------------------------------------------------ memory

    ghost function CmdBuffer(): set<array<byte>>
      reads this
    {
      if cmd != null then {cmd} else {}
    }

    method WriteChunk(address: word, src: seq<byte>) returns (ok: bool)
      requires Valid() && !DonePending(log) && cmd != null && |src| <= dataMax
      modifies this`mem, this`exchanges, this`log, cmd
      ensures Valid() && !DonePending(log)
      ensures exchanges == old(exchanges) + 1 && ok == Succeeds(old(exchanges))
      ensures ok ==> mem == Poke(old(mem), address, src)
    {
      ParseThreeWords(codes, codes.writeMemory, address, |src|, src);
      var reply: seq<byte>;
      ok, reply := SendThreeWords(codes.writeMemory, address, |src|, src, BmiWire.WriteMemory(address, src));
    }

    /** Writes length bytes of the buffer, rounded up to a multiple of 4; the caller's
        buffer is readable that far. */
    method WriteMemory(address0: word, buffer: seq<byte>, length: word) returns (status: Status)
      requires Valid() && RoundUp4(length) <= |buffer|
      modifies this`mem, this`exchanges, this`log, CmdBuffer()
      ensures Valid()
      ensures done || cmd == null ==> status == NotPermitted && mem == old(mem) && log == old(log)
      ensures !done && cmd != null ==>
                && (status == Success || status == Failure)
                && old(exchanges) <= exchanges
                && (status == Success <==> AllSucceed(old(exchanges), exchanges - old(exchanges)))
                && (status == Success ==> mem == Poke(old(mem), address0, buffer[..RoundUp4(length)]))
    {
      if done || cmd == null {
        return NotPermitted;
      }
      Zero(cmd);
      status := WriteChunks(address0, buffer, length);
    }

    /** How far a write has come: sent bytes are in place, remaining ones are not. */
    ghost predicate WriteProgress(mem0: seq<byte>, address0: word, buffer: seq<byte>, length: nat, remaining: nat,
                                  address: word, sent: nat)
      reads this
    {
      && IsMemory(mem0)
      && sent % 4 == 0 && sent + RoundUp4(remaining) == RoundUp4(length) <= |buffer|
      && (remaining > 0 ==> sent + remaining == length)
      && address == Advance(address0, sent)
      && mem == Poke(mem0, address0, buffer[..sent])
    }

    method WriteChunks(address0: word, buffer: seq<byte>, length: word) returns (status: Status)
      requires Valid() && !done && cmd != null && RoundUp4(length) <= |buffer|
      modifies this`mem, this`exchanges, this`log, cmd
      ensures Valid() && (status == Success || status == Failure)
      ensures old(exchanges) <= exchanges
      ensures status == Success <==> AllSucceed(old(exchanges), exchanges - old(exchanges))
      ensures status == Success ==> mem == Poke(old(mem), address0, buffer[..RoundUp4(length)])
    {
      var remaining: nat := length;
      var address := address0;
      ghost var (mem0, first, sent) := (mem, exchanges, 0);
      PokeNothing(mem0, address0, buffer);
      while remaining != 0
        invariant Valid() && !done && cmd != null && !DonePending(log)
        invariant WriteProgress(mem0, address0, buffer, length, remaining, address, sent)
        invariant first <= exchanges && AllSucceed(first, exchanges - first)
        decreases remaining
      {
        var ok: bool;
        ok, address, remaining, sent := WriteNext(address, buffer, length, remaining, mem0, address0, sent);
        if !ok {
          return Failure;
        }
      }
      return Success;
    }

    /** One turn of the loop: what is left is rounded up when it fits one chunk. */
    method WriteNext(address0: word, buffer: seq<byte>, length: nat, remaining0: nat, ghost mem0: seq<byte>,
                     ghost base: word, ghost sent0: nat)
      returns (ok: bool, address: word, remaining: nat, ghost sent: nat)
      requires Valid() && !DonePending(log) && cmd != null && remaining0 > 0
      requires WriteProgress(mem0, base, buffer, length, remaining0, address0, sent0)
      modifies this`mem, this`exchanges, this`log, cmd
      ensures Valid() && !DonePending(log)
      ensures exchanges == old(exchanges) + 1 && ok == Succeeds(old(exchanges))
      ensures remaining < remaining0
      ensures ok ==> WriteProgress(mem0, base, buffer, length, remaining, address, sent)
    {
      NextChunk(length, sent0, remaining0, dataMax - HEADER);
      PokeNext(mem0, base, buffer, sent0, ChunkLength(remaining0, dataMax - HEADER));
      remaining := remaining0;
      var start := length - remaining;
      var txlen: word := dataMax - HEADER;
      if remaining < dataMax - HEADER {
        remaining := RoundUp4(remaining);
        txlen := remaining;
      }
      ok := WriteChunk(address0, buffer[start..start + txlen]);
      remaining := remaining - txlen;
      address := Advance(address0, txlen);
      sent := sent0 + txlen;
    }

    /** How far a read has come. */
    ghost predicate ReadProgress(mem0: seq<byte>, address0: word, buffer: array<byte>, got: nat, address: word)
      reads this, buffer
    {
      && IsMemory(mem0) && mem == mem0
      && got <= buffer.Length
      && address == Advance(address0, got)
      && buffer[..got] == Peek(mem0, address0, got)
    }

    method ReadChunk(address: word, n: word) returns (ok: bool)
      requires Valid() && !DonePending(log) && cmd != null && rsp != null && n <= dataMax
      modifies this`mem, this`exchanges, this`log, cmd, rsp
      ensures Valid() && !DonePending(log)
      ensures exchanges == old(exchanges) + 1 && ok == Succeeds(old(exchanges))
      ensures ok ==> mem == old(mem) && rsp[..n] == Peek(mem, address, n)
    {
      ParseThreeWords(codes, codes.readMemory, address, n, []);
      var reply: seq<byte>;
      ok, reply := SendThreeWords(codes.readMemory, address, n, [], BmiWire.ReadMemory(address, n));
      if ok {
        Put(rsp, 0, reply);
        assert rsp[..n] == [] + reply;
      }
    }

    method ReadNext(buffer: array<byte>, length: nat, remaining0: nat, address0: word, ghost mem0: seq<byte>,
                    ghost base: word) returns (ok: bool, remaining: nat, address: word)
      requires Valid() && !DonePending(log) && cmd != null && rsp != null && buffer !in live
      requires 0 < remaining0 <= length <= buffer.Length
      requires ReadProgress(mem0, base, buffer, length - remaining0, address0)
      modifies this`mem, this`exchanges, this`log, cmd, rsp, buffer
      ensures Valid() && !DonePending(log)
      ensures exchanges == old(exchanges) + 1 && ok == Succeeds(old(exchanges))
      ensures remaining < remaining0
      ensures ok ==> ReadProgress(mem0, base, buffer, length - remaining, address)
      ensures forall k :: length <= k < buffer.Length ==> buffer[k] == old(buffer[k])
    {
      var rxlen: word := if remaining0 < dataMax then remaining0 else dataMax;
      remaining, address := remaining0, address0;
      ok := ReadChunk(address0, rxlen);
      var got := length - remaining0;
      if ok {
        PeekConcat(mem0, base, got, rxlen);
        AdvanceTwice(base, got, rxlen);
        Put(buffer, got, rsp[..rxlen]);
      }
      remaining := remaining0 - rxlen;
      address := Advance(address0, rxlen);
    }

    method ReadMemory(address0: word, buffer: array<byte>, length: word) returns (status: Status)
      requires Valid() && buffer !in live && length <= buffer.Length
      modifies this`mem, this`exchanges, this`log, Buffers(), buffer
      ensures Valid()
      ensures done ==> status == NotPermitted
      ensures !done && (cmd == null || rsp == null) ==> status == NotInitialized
      ensures done || cmd == null || rsp == null ==>
                mem == old(mem) && log == old(log) && buffer[..] == old(buffer[..])
      ensures !done && cmd != null && rsp != null ==>
                && (status == Success || status == Failure)
                && old(exchanges) <= exchanges
                && (status == Success <==> AllSucceed(old(exchanges), exchanges - old(exchanges)))
                && (status == Success ==> mem == old(mem) && buffer[..length] == Peek(mem, address0, length))
      ensures forall k :: length <= k < buffer.Length ==> buffer[k] == old(buffer[k])
    {
      if done {
        return NotPermitted;
      }
      if cmd == null || rsp == null {
        return NotInitialized;
      }
      Zero(cmd);
      Zero(rsp);
      status := ReadChunks(address0, buffer, length);
    }

    method ReadChunks(address0: word, buffer: array<byte>, length: word) returns (status: Status)
      requires Valid() && !done && cmd != null && rsp != null && buffer !in live && length <= buffer.Length
      modifies this`mem, this`exchanges, this`log, cmd, rsp, buffer
      ensures Valid() && (status == Success || status == Failure)
      ensures old(exchanges) <= exchanges
      ensures status == Success <==> AllSucceed(old(exchanges), exchanges - old(exchanges))
      ensures status == Success ==> mem == old(mem) && buffer[..length] == Peek(mem, address0, length)
      ensures forall k :: length <= k < buffer.Length ==> buffer[k] == old(buffer[k])
    {
      var remaining: nat := length;
      var address := address0;
      ghost var (mem0, first) := (mem, exchanges);
      while remaining != 0
        invariant Valid() && !done && cmd != null && rsp != null && !DonePending(log) && buffer !in live
        invariant remaining <= length && ReadProgress(mem0, address0, buffer, length - remaining, address)
        invariant first <= exchanges && AllSucceed(first, exchanges - first)
        invariant forall k :: length <= k < buffer.Length ==> buffer[k] == old(buffer[k])
        decreases remaining
      {
        var ok: bool;
        ok, remaining, address := ReadNext(buffer, length, remaining, address, mem0, address0);
        if !ok {
          return Failure;
        }
      }
      return Success;
    }

    method Execute(address: word, param: word) returns (status: Status, answer: word)
      requires Valid()
      modifies this`mem, this`exchanges, this`log, Buffers()
      ensures Valid()
      ensures done ==> status == NotPermitted
      ensures !done && (cmd == null || rsp == null) ==> status == NotInitialized
      ensures status == NotPermitted || status == NotInitialized ==>
                log == old(log) && mem == old(mem) && answer == param
      ensures !done && cmd != null && rsp != null ==>
                && log == After(old(log), Sent(BmiWire.Execute(address, param)))
                && status == (if Succeeds(old(exchanges)) then Success else Failure)
                && answer == if status == Success then Returned(old(exchanges)) else param
    {
      answer := param;
      if done {
        return NotPermitted, answer;
      }
      if cmd == null || rsp == null {
        return NotInitialized, answer;
      }
      ParseThreeWords(codes, codes.execute, address, param, []);
      var ok, reply := SendThreeWords(codes.execute, address, param, [], BmiWire.Execute(address, param));
      if !ok {
        return Failure, answer;
      }
      DecodeEncode(Returned(exchanges - 1));
      answer := Decode(reply);
      return Success, answer;
    }

    method SendDone() returns (ok: bool)
      requires Valid() && !DonePending(log) && cmd != null && done
      modifies this`mem, this`exchanges, this`log, cmd
      ensures Valid() && log == After(old(log), Sent(BmiWire.Done)) && ok == Succeeds(old(exchanges))
    {
      Put(cmd, 0, Encode(codes.done));
      ParseDone(codes);
      assert cmd[..4] == [] + Encode(codes.done) == Encode(codes.done);
      var sent, _ := Exchange(4);
      ok := sent;
    }

    /** Ends the BMI phase; the flag is set before the target is told. */
    method DoneLocal() returns (status: Status)
      requires Valid()
      modifies this, CmdBuffer()
      ensures Valid() && done
      ensures old(done) ==> status == NotPermitted && log == old(log) && live == old(live)
      ensures !old(done) && old(cmd) == null ==> status == NotInitialized && log == old(log) && live == old(live)
      ensures !old(done) && old(cmd) != null ==>
                && log == After(old(log), Sent(BmiWire.Done))
                && status == (if Succeeds(old(exchanges)) then Success else Failure)
                && live == if status == Success then {} else old(live)
    {
      if done {
        return NotPermitted;
      }
      done := true;
      if cmd == null {
        return NotInitialized;
      }
      var ok := SendDone();
      if !ok {
        return Failure;
      }
      ReleaseBuffers();
      return Success;
    }

    // ---------------------------------------------------------------- download

    method StreamStart(address: word) returns (status: Status)
      requires Valid() && cmd != null
      modifies this`mem, this`exchanges, this`log, cmd
      ensures Valid()
      ensures done ==> status == NotPermitted && log == old(log) && exchanges == old(exchanges)
      ensures !done ==>
                && log == After(old(log), Sent(LzStreamStart(address)))
                && exchanges == old(exchanges) + 1
                && status == if Succeeds(old(exchanges)) then Success else Failure
    {
      if done {
        return NotPermitted;
      }
      ParseTwoWords(codes, codes.lzStreamStart, address, []);
      var ok := SendTwoWords(codes.lzStreamStart, address, [], LzStreamStart(address));
      status := if ok then Success else Failure;
    }

    /** What an attempt to stream the data has sent: data commands that fit the command
        buffer, carrying all of the data on success, else a first part of it, up to the
        exchange that failed. */
    ghost predicate Streamed(first: nat, data: seq<byte>, out: seq<Event>, success: bool) {
      && dataMax > LZ_HEADER && AreChunks(out, dataMax - LZ_HEADER)
      && Payload(out) <= data
      && (0 < |data| <= dataMax - LZ_HEADER ==> out == [Sent(LzData(data))])
      && (success ==> AllSucceed(first, |out|) && Payload(out) == data)
      && (!success ==> |out| > 0 && AllSucceed(first, |out| - 1) && !Succeeds(first + |out| - 1))
    }

    /** Sends data in chunks that fit the command buffer, stopping at a failure. */
    method StreamData(data: seq<byte>) returns (status: Status, ghost out: seq<Event>)
      requires Valid() && cmd != null
      modifies this`mem, this`exchanges, this`log, cmd
      ensures Valid() && log == Extend(old(log), out) && exchanges == old(exchanges) + |out|
      ensures done ==> status == NotPermitted && out == []
      ensures !done ==>
                (status == Success || status == Failure) && Streamed(old(exchanges), data, out, status == Success)
    {
      Zero(cmd);
      if done {
        return NotPermitted, [];
      }
      status, out := StreamChunks(data);
    }

    method StreamChunk(data: seq<byte>) returns (ok: bool)
      requires Valid() && !DonePending(log) && cmd != null && |data| <= dataMax - LZ_HEADER
      modifies this`mem, this`exchanges, this`log, cmd
      ensures Valid() && !DonePending(log)
      ensures log == After(old(log), Sent(LzData(data)))
      ensures exchanges == old(exchanges) + 1 && ok == Succeeds(old(exchanges))
    {
      ParseTwoWords(codes, codes.lzData, |data|, data);
      ok := SendTwoWords(codes.lzData, |data|, data, LzData(data));
    }

    /** How far a stream of data has come. */
    ghost predicate StreamProgress(data: seq<byte>, start: nat, out: seq<Event>) {
      && dataMax > LZ_HEADER && start <= |data| && AreChunks(out, dataMax - LZ_HEADER)
      && Payload(out) == data[..start]
      && (start == 0 ==> out == [])
      && (|data| <= dataMax - LZ_HEADER && start > 0 ==> start == |data| && out == [Sent(LzData(data))])
    }

    lemma StreamStep(data: seq<byte>, start: nat, n: nat, out: seq<Event>)
      requires StreamProgress(data, start, out) && 0 < n && start + n <= |data|
      requires n == if |data| - start < dataMax - LZ_HEADER then |data| - start else dataMax - LZ_HEADER
      ensures StreamProgress(data, start + n, out + [Sent(LzData(data[start..start + n]))])
    {
      PayloadAppend(out, data[start..start + n]);
      assert data[..start] + data[start..start + n] == data[..start + n];
      assert data[0..|data|] == data;
    }

    lemma StreamTurn(data: seq<byte>, start: nat, n: nat, log0: History, first: nat, out: seq<Event>)
      requires StreamProgress(data, start, out) && AllSucceed(first, |out|) && 0 < n && start + n <= |data|
      requires n == if |data| - start < dataMax - LZ_HEADER then |data| - start else dataMax - LZ_HEADER
      ensures var all := out + [Sent(LzData(data[start..start + n]))];
              && After(Extend(log0, out), Sent(LzData(data[start..start + n]))) == Extend(log0, all)
              && (Succeeds(first + |out|) ==> StreamProgress(data, start + n, all) && AllSucceed(first, |all|))
              && (!Succeeds(first + |out|) ==> Streamed(first, data, all, false))
    {
      StreamStep(data, start, n, out);
      ExtendOne(log0, out, Sent(LzData(data[start..start + n])));
    }

    /** One turn of the loop. */
    method StreamNext(data: seq<byte>, start0: nat, ghost log0: History, ghost first: nat, ghost out0: seq<Event>)
      returns (ok: bool, start: nat, ghost out: seq<Event>)
      requires Valid() && !DonePending(log) && cmd != null && start0 < |data|
      requires StreamProgress(data, start0, out0) && AllSucceed(first, |out0|)
      requires log == Extend(log0, out0) && exchanges == first + |out0|
      modifies this`mem, this`exchanges, this`log, cmd
      ensures Valid() && !DonePending(log) && start > start0
      ensures log == Extend(log0, out) && exchanges == first + |out|
      ensures ok ==> StreamProgress(data, start, out) && AllSucceed(first, |out|)
      ensures !ok ==> Streamed(first, data, out, false)
    {
      var remaining := |data| - start0;
      var txlen := if remaining < dataMax - LZ_HEADER then remaining else dataMax - LZ_HEADER;
      StreamTurn(data, start0, txlen, log0, first, out0);
      ok := StreamChunk(data[start0..start0 + txlen]);
      start := start0 + txlen;
      out := out0 + [Sent(LzData(data[start0..start0 + txlen]))];
    }

    method StreamChunks(data: seq<byte>) returns (status: Status, ghost out: seq<Event>)
      requires Valid() && !done && cmd != null
      modifies this`mem, this`exchanges, this`log, cmd
      ensures Valid() && log == Extend(old(log), out) && exchanges == old(exchanges) + |out|
      ensures status == Success || status == Failure
      ensures Streamed(old(exchanges), data, out, status == Success)
    {
      ghost var (log0, first) := (log, exchanges);
      out := [];
      var start: nat := 0;
      while start != |data|
        invariant Valid() && !done && cmd != null && !DonePending(log)
        invariant StreamProgress(data, start, out) && AllSucceed(first, |out|)
        invariant log == Extend(log0, out) && exchanges == first + |out|
        decreases |data| - start
      {
        var ok: bool;
        ok, start, out := StreamNext(data, start, log0, first, out);
        if !ok {
          return Failure, out;
        }
      }
      StreamComplete(first, data, out);
      return Success, out;
    }

    lemma StreamComplete(first: nat, data: seq<byte>, out: seq<Event>)
      requires StreamProgress(data, |data|, out) && AllSucceed(first, |out|)
      ensures Streamed(first, data, out, true)
    {
      assert data[..|data|] == data;
    }

    /** What the download of whole words and a last one has sent when its status is in.
        If all exchanges succeeded everything has been delivered; if the last did but not
        all, the lost one is the last word, whose failure the closing stream start has
        covered up. */
    ghost predicate Downloaded(address: word, whole: seq<byte>, last: seq<byte>, first: nat, events: seq<Event>)
    {
      var n := |events|;
      && dataMax > LZ_HEADER && n > 0 && events[0] == Sent(LzStreamStart(address))
      && (AllSucceed(first, n) ==>
            Payload(events[1..]) == whole + last && AreChunks(events[1..], dataMax - LZ_HEADER))
      && (Succeeds(first + n - 1) && !AllSucceed(first, n) ==>
            && last != []
            && n >= 3 && events[n - 1] == Sent(LzStreamStart(0)) && events[n - 2] == Sent(LzData(last))
            && AllSucceed(first, n - 2) && !Succeeds(first + n - 2)
            && Payload(events[1..n - 2]) == whole)
    }

    /** What the download of a source amounts to, after exchanges first to end - 1: what was
        sent, that all of it went out if all exchanges succeeded, and that for whole words the
        last exchange speaks for all of them. */
    ghost predicate DownloadOf(address: word, source: seq<byte>, first: nat, end: nat, events: seq<Event>, sent: bool,
                               body: seq<Event>, rest: seq<Event>)
    {
      && first < end && |events| == end - first
      && events == [Sent(LzStreamStart(address))] + (body + rest)
      && DownloadRan(source, first, sent, body, rest)
      && Downloaded(address, WholeWords(source), LastWord(source), first, events)
      && (AllSucceed(first, end - first) ==> Payload(events[1..]) == ZeroPadded(source))
      && (|source| % 4 == 0 ==> (Succeeds(end - 1) <==> AllSucceed(first, end - first)))
    }

    /** Downloads a compressed image: a stream start, the aligned part, and the last
        word zero padded. `body` and `rest` are what followed the stream start, `sent` says
        whether all of the body went out. */
    method FastDownload(address: word, source: seq<byte>)
      returns (status: Status, ghost events: seq<Event>, ghost sent: bool, ghost body: seq<Event>,
               ghost rest: seq<Event>)
      requires Valid() && cmd != null
      modifies this`mem, this`exchanges, this`log, cmd
      ensures Valid() && log == Extend(old(log), events) && exchanges == old(exchanges) + |events|
      ensures done ==> status == NotPermitted && events == []
      ensures !done ==>
                && exchanges > old(exchanges) && status == (if Succeeds(exchanges - 1) then Success else Failure)
                && DownloadOf(address, source, old(exchanges), exchanges, events, sent, body, rest)
    {
      status, events, sent, body, rest := Download(address, WholeWords(source), LastWord(source));
      if !done {
        ImageDelivered(address, source, old(exchanges), exchanges, events, sent, body, rest);
      }
    }

    /** What sending the last word sends: after a failure, another stream start. */
    ghost function LastWordEvents(last: seq<byte>, first: nat): seq<Event> {
      if last == [] then []
      else if Succeeds(first) then [Sent(LzData(last))]
      else [Sent(LzData(last))] + [Sent(LzStreamStart(0))]
    }

    /** After the stream start: the body, and the last word if the body has gone out. */
    ghost predicate Sequenced(whole: seq<byte>, last: seq<byte>, first: nat, sent: bool, body: seq<Event>,
                              rest: seq<Event>)
    {
      && Streamed(first, whole, body, sent)
      && rest == if sent then LastWordEvents(last, first + |body|) else []
    }

    /** What follows the stream start of a download. */
    ghost predicate DownloadRan(source: seq<byte>, first: nat, sent: bool, body: seq<Event>, rest: seq<Event>) {
      if Succeeds(first) then Sequenced(WholeWords(source), LastWord(source), first + 1, sent, body, rest)
      else body + rest == []
    }

    method Download(address: word, whole: seq<byte>, last: seq<byte>)
      returns (status: Status, ghost events: seq<Event>, ghost sent: bool, ghost body: seq<Event>,
               ghost rest: seq<Event>)
      requires Valid() && cmd != null && |last| <= 4
      modifies this`mem, this`exchanges, this`log, cmd
      ensures Valid() && log == Extend(old(log), events) && exchanges == old(exchanges) + |events|
      ensures done ==> status == NotPermitted && events == []
      ensures !done ==>
                && exchanges > old(exchanges) && status == (if Succeeds(exchanges - 1) then Success else Failure)
                && events == [Sent(LzStreamStart(address))] + (body + rest)
      ensures !done ==> if Succeeds(old(exchanges)) then Sequenced(whole, last, old(exchanges) + 1, sent, body, rest)
                        else body + rest == []
    {
      events, sent, body, rest := [], false, [], [];
      status := StreamStart(address);
      if done {
        return;
      }
      if status == Success {
        status, sent, body, rest := DownloadBody(whole, last);
      }
      events := [Sent(LzStreamStart(address))] + (body + rest);
      ExtendFirst(old(log), Sent(LzStreamStart(address)), body + rest);
    }

    method DownloadBody(whole: seq<byte>, last: seq<byte>)
      returns (status: Status, ghost sent: bool, ghost body: seq<Event>, ghost rest: seq<Event>)
      requires Valid() && cmd != null && !done && |last| <= 4 && exchanges > 0 && Succeeds(exchanges - 1)
      modifies this`mem, this`exchanges, this`log, cmd
      ensures Valid() && log == Extend(old(log), body + rest) && exchanges == old(exchanges) + |body + rest|
      ensures status == if Succeeds(exchanges - 1) then Success else Failure
      ensures Sequenced(whole, last, old(exchanges), sent, body, rest)
    {
      status, body := StreamWhole(whole);
      sent := status == Success;
      status, rest := AfterBody(status, last, old(log), old(exchanges), whole, sent, body);
    }

    /** The last word, once all of the body has gone out. */
    method AfterBody(status0: Status, last: seq<byte>, ghost log0: History, ghost first: nat, ghost whole: seq<byte>,
                     ghost sent: bool, ghost body: seq<Event>)
      returns (status: Status, ghost rest: seq<Event>)
      requires Valid() && cmd != null && !done && |last| <= 4 && exchanges > 0 && sent == (status0 == Success)
      requires log == Extend(log0, body) && exchanges == first + |body| && Streamed(first, whole, body, sent)
      requires status0 == if Succeeds(exchanges - 1) then Success else Failure
      modifies this`mem, this`exchanges, this`log, cmd
      ensures Valid() && log == Extend(log0, body + rest) && exchanges == first + |body + rest|
      ensures exchanges > 0 && status == if Succeeds(exchanges - 1) then Success else Failure
      ensures Sequenced(whole, last, first, sent, body, rest)
    {
      status, rest := status0, [];
      ghost var log1 := log;
      if status == Success && last != [] {
        status, rest := SendLastWord(last);
      }
      BodyThenRest(log0, log1, log, first, whole, last, sent, body, rest);
    }

    lemma BodyThenRest(log0: History, log1: History, log2: History, first: nat, whole: seq<byte>, last: seq<byte>,
                       sent: bool, body: seq<Event>, rest: seq<Event>)
      requires log1 == Extend(log0, body) && log2 == Extend(log1, rest)
      requires Streamed(first, whole, body, sent)
      requires rest == if sent then LastWordEvents(last, first + |body|) else []
      ensures log2 == Extend(log0, body + rest) && Sequenced(whole, last, first, sent, body, rest)
    {
      ExtendTwice(log0, body, rest);
    }

    /** The status of a stream is that of the last exchange so far. */
    method StreamWhole(data: seq<byte>) returns (status: Status, ghost out: seq<Event>)
      requires Valid() && cmd != null && !done && exchanges > 0 && Succeeds(exchanges - 1)
      modifies this`mem, this`exchanges, this`log, cmd
      ensures Valid() && log == Extend(old(log), out) && exchanges == old(exchanges) + |out|
      ensures status == if Succeeds(exchanges - 1) then Success else Failure
      ensures Streamed(old(exchanges), data, out, status == Success)
    {
      status, out := StreamData(data);
    }

    /** The last part of a download whose length is not a multiple of 4. */
    method SendLastWord(last: seq<byte>) returns (status: Status, ghost events: seq<Event>)
      requires Valid() && cmd != null && !done && 0 < |last| <= 4
      modifies this`mem, this`exchanges, this`log, cmd
      ensures Valid() && log == Extend(old(log), events) && exchanges == old(exchanges) + |events|
      ensures events == LastWordEvents(last, old(exchanges))
      ensures exchanges > 0 && status == if Succeeds(exchanges - 1) then Success else Failure
    {
      events := LastWordEvents(last, exchanges);
      ExtendFirst(log, Sent(LzData(last)), []);
      ExtendOne(log, [Sent(LzData(last))], Sent(LzStreamStart(0)));
      status := StreamOneChunk(last);
      if status != Success {
        status := StreamStart(0);
      }
    }

    lemma SequenceDelivers(address: word, whole: seq<byte>, last: seq<byte>, first: nat, sent: bool,
                           body: seq<Event>, rest: seq<Event>)
      requires HEADER < dataMax && |last| <= 4
      requires if Succeeds(first) then Sequenced(whole, last, first + 1, sent, body, rest) else body + rest == []
      ensures Downloaded(address, whole, last, first, [Sent(LzStreamStart(address))] + (body + rest))
    {
      assert body + [] == body;
      if !Succeeds(first) {
      } else if !sent {
        BodyFailed(address, whole, last, first, body);
      } else if last == [] {
        NoLastWord(address, whole, first, body);
      } else if Succeeds(first + 1 + |body|) {
        LastWordSent(address, whole, last, first, body);
      } else {
        LastWordLost(address, whole, last, first, body);
      }
    }

    method StreamOneChunk(data: seq<byte>) returns (status: Status)
      requires Valid() && cmd != null && !done && 0 < |data| <= dataMax - LZ_HEADER
      modifies this`mem, this`exchanges, this`log, cmd
      ensures Valid() && log == After(old(log), Sent(LzData(data))) && exchanges == old(exchanges) + 1
      ensures status == if Succeeds(old(exchanges)) then Success else Failure
    {
      ghost var out: seq<Event>;
      status, out := StreamData(data);
    }

    /** The last exchange succeeds, so that success is reported, and yet not all of them did:
        exactly when the stream start and the body went out, there is a padded last word, it
        failed and the closing stream start did not. A source of whole words never gets
        there. */
    lemma LossIsHidden(source: seq<byte>, first: nat, sent: bool, body: seq<Event>, rest: seq<Event>)
      requires HEADER < dataMax && DownloadRan(source, first, sent, body, rest)
      ensures var n := 1 + |body + rest|;
              && (Succeeds(first + n - 1) && !AllSucceed(first, n) <==>
                    && Succeeds(first) && sent && |source| % 4 != 0
                    && !Succeeds(first + 1 + |body|) && Succeeds(first + 2 + |body|))
              && (|source| % 4 == 0 && Succeeds(first + n - 1) ==> AllSucceed(first, n))
    {
      if Succeeds(first) {
        LossInSequence(WholeWords(source), LastWord(source), first, sent, body, rest);
      }
    }

    lemma LossInSequence(whole: seq<byte>, last: seq<byte>, first: nat, sent: bool, body: seq<Event>,
                         rest: seq<Event>)
      requires Succeeds(first) && Sequenced(whole, last, first + 1, sent, body, rest)
      ensures var n := 1 + |body + rest|;
              Succeeds(first + n - 1) && !AllSucceed(first, n) <==>
              sent && last != [] && !Succeeds(first + 1 + |body|) && Succeeds(first + 2 + |body|)
    {
      LossByPosition(first, |body|, |rest|, sent, last != []);
    }

    /** The same by position alone: m exchanges for the body, r for the rest. */
    lemma LossByPosition(first: nat, m: nat, r: nat, sent: bool, hasLast: bool)
      requires Succeeds(first)
      requires if sent then AllSucceed(first + 1, m) else m > 0 && !Succeeds(first + m)
      requires r == if !sent || !hasLast then 0 else if Succeeds(first + 1 + m) then 1 else 2
      ensures Succeeds(first + m + r) && !AllSucceed(first, 1 + m + r) <==>
              sent && hasLast && !Succeeds(first + 1 + m) && Succeeds(first + 2 + m)
    {
      if sent && hasLast && !Succeeds(first + 1 + m) {
        assert !AllSucceed(first, 3 + m);
      }
    }

    /** An input for it: a source of one to three bytes, when of the three exchanges only
        the second fails. Nothing of the source is taken. */
    lemma LastWordLostUnnoticed(source: seq<byte>, first: nat, sent: bool, body: seq<Event>, rest: seq<Event>)
      requires HEADER < dataMax && 0 < |source| < 4 && DownloadRan(source, first, sent, body, rest)
      requires Succeeds(first) && !Succeeds(first + 1) && Succeeds(first + 2)
      ensures body == [] && rest == [Sent(LzData(ZeroPadded(source)))] + [Sent(LzStreamStart(0))]
      ensures Succeeds(first + |body + rest|) && !AllSucceed(first, 1 + |body + rest|)
    {
      NothingWhole(source);
      ShortSequence(ZeroPadded(source), first, sent, body, rest);
      assert body + rest == rest;
    }

    lemma ShortSequence(last: seq<byte>, first: nat, sent: bool, body: seq<Event>, rest: seq<Event>)
      requires HEADER < dataMax && last != [] && Sequenced([], last, first + 1, sent, body, rest)
      requires !Succeeds(first + 1)
      ensures body == [] && rest == [Sent(LzData(last))] + [Sent(LzStreamStart(0))]
    {
      ChunksCarry(body, dataMax - LZ_HEADER);
    }

    lemma ImageDelivered(address: word, source: seq<byte>, first: nat, end: nat, events: seq<Event>, sent: bool,
                         body: seq<Event>, rest: seq<Event>)
      requires HEADER < dataMax && DownloadRan(source, first, sent, body, rest)
      requires events == [Sent(LzStreamStart(address))] + (body + rest) && end == first + |events|
      ensures DownloadOf(address, source, first, end, events, sent, body, rest)
    {
      LossIsHidden(source, first, sent, body, rest);
      assert AllSucceed(first, |events|) ==> Succeeds(end - 1);
      LastWordCompletes(source);
      SequenceDelivers(address, WholeWords(source), LastWord(source), first, sent, body, rest);
    }

    lemma BodyFailed(address: word, whole: seq<byte>, last: seq<byte>, first: nat, body: seq<Event>)
      requires Streamed(first + 1, whole, body, false)
      ensures Downloaded(address, whole, last, first, [Sent(LzStreamStart(address))] + body)
    {
      assert !Succeeds(first + |body|);
    }

    lemma NoLastWord(address: word, whole: seq<byte>, first: nat, body: seq<Event>)
      requires Succeeds(first) && Streamed(first + 1, whole, body, true)
      ensures Downloaded(address, whole, [], first, [Sent(LzStreamStart(address))] + (body + []))
      ensures Succeeds(first + |body|)
    {
      assert body + [] == body && whole + [] == whole;
      assert ([Sent(LzStreamStart(address))] + body)[1..] == body;
    }

    lemma LastWordSent(address: word, whole: seq<byte>, last: seq<byte>, first: nat, body: seq<Event>)
      requires HEADER < dataMax && 0 < |last| <= 4
      requires Succeeds(first) && Streamed(first + 1, whole, body, true) && Succeeds(first + 1 + |body|)
      ensures Downloaded(address, whole, last, first, [Sent(LzStreamStart(address))] + (body + [Sent(LzData(last))]))
    {
      var sent := body + [Sent(LzData(last))];
      PayloadAppend(body, last);
      assert AreChunks(sent, dataMax - LZ_HEADER);
      assert ([Sent(LzStreamStart(address))] + sent)[1..] == sent;
    }

    lemma LastWordLost(address: word, whole: seq<byte>, last: seq<byte>, first: nat, body: seq<Event>)
      requires HEADER < dataMax && 0 < |last| <= 4
      requires Succeeds(first) && Streamed(first + 1, whole, body, true) && !Succeeds(first + 1 + |body|)
      ensures Downloaded(address, whole, last, first,
                         [Sent(LzStreamStart(address))] + (body + ([Sent(LzData(last))] + [Sent(LzStreamStart(0))])))
    {
      var events := [Sent(LzStreamStart(address))] + (body + ([Sent(LzData(last))] + [Sent(LzStreamStart(0))]));
      assert |events| == |body| + 3 && events[1..|body| + 1] == body;
    }
  }

  lemma PokeNothing(mem: seq<byte>, address: word, buffer: seq<byte>)
    requires IsMemory(mem)
    ensures Poke(mem, address, buffer[..0]) == mem
  {
  }

  lemma PokeNext(mem: seq<byte>, address: word, buffer: seq<byte>, sent: nat, n: nat)
    requires IsMemory(mem) && sent + n <= |buffer|
    ensures Poke(Poke(mem, address, buffer[..sent]), Advance(address, sent), buffer[sent..sent + n])
            == Poke(mem, address, buffer[..sent + n])
    ensures Advance(Advance(address, sent), n) == Advance(address, sent + n)
  {
    PokeConcat(mem, address, buffer[..sent], buffer[sent..sent + n]);
    assert buffer[..sent] + buffer[sent..sent + n] == buffer[..sent + n];
    AdvanceTwice(address, sent, n);
  }
}
