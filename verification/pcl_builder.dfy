/** Building the preferred channel list in the caller's two parallel buffers. */
module PclBuilder {
  import opened ConnTypes
  import opened PclSpec
  import opened Sequences
  import opened ConnTables

  datatype ChannelOrder = NoOrder | Order24Then5 | Order5Then24

  /** The first entries of the two buffers are this list of choices. */
  ghost predicate Holds(chans: array<nat>, weights: array<nat>, list: seq<Choice>)
    reads chans, weights
  {
    && |list| <= chans.Length
    && |list| <= weights.Length
    && (forall k :: 0 <= k < |list| ==> chans[k] == list[k].chan)
    && (forall k :: 0 <= k < |list| ==> weights[k] == list[k].weight)
  }

  function Min(a: nat, b: nat): nat {
    if a < b then a else b
  }

  // -------------------------------------------------- channels of the connections

  function FirstOf(order: ChannelOrder): Group {
    match order
    case NoOrder => AnyConn
    case Order24Then5 => Conn24
    case Order5Then24 => Conn5
  }

  function SecondGroup(order: ChannelOrder, p: Platform, skip: bool, conns: seq<Conn>): seq<nat> {
    match order
    case NoOrder => []
    case Order24Then5 => ConnGroup(Conn5, p, skip, conns)
    case Order5Then24 => ConnGroup(Conn24, p, skip, conns)
  }

  /** The connections in the requested order, the two bands with successive weights. */
  function OrderedConns(order: ChannelOrder, p: Platform, skip: bool, conns: seq<Conn>, rank: nat): seq<Choice> {
    Tag(ConnGroup(FirstOf(order), p, skip, conns), WeightOf(rank))
    + Tag(SecondGroup(order, p, skip, conns), WeightOf(rank + 1))
  }

  /** What one more element adds to the cut and filtered prefix. */
  lemma TakeFilterSnoc(room: nat, s: seq<nat>, i: nat, keep: nat -> bool)
    requires i < |s|
    ensures var was := Take(room, Filter(s[..i], keep));
            && |was| <= room
            && Take(room, Filter(s[..i + 1], keep)) == was + if keep(s[i]) && |was| < room then [s[i]] else []
  {
    FilterSnoc(s, i, keep);
  }

  /** The channels stand in one buffer from position num on, their weight in the other
      from position index on. */
  ghost predicate Stored(chans: array<nat>, weights: array<nat>, num: nat, index: nat, got: seq<nat>, weight: nat)
    reads chans, weights
  {
    && num + |got| <= chans.Length && index + |got| <= weights.Length
    && (forall k :: num <= k < num + |got| ==> chans[k] == got[k - num])
    && (forall k :: index <= k < index + |got| ==> weights[k] == weight)
  }

  /** Stores an accepted channel and its weight while there is room. */
  method Offer(accepted: bool, chan: nat, weight: nat, cap: nat, chans: array<nat>, weights: array<nat>,
               num0: nat, index0: nat, ghost first: nat, ghost start: nat, ghost got: seq<nat>)
    returns (num: nat, index: nat)
    requires chans != weights && start <= index0 <= cap <= weights.Length && num0 + cap - index0 <= chans.Length
    requires Stored(chans, weights, first, start, got, weight) && num0 == first + |got| && index0 == start + |got|
    modifies chans, weights
    ensures var more := got + if accepted && |got| < cap - start then [chan] else [];
            && Stored(chans, weights, first, start, more, weight)
            && num == first + |more| && index == start + |more|
    ensures forall k :: 0 <= k < first ==> chans[k] == old(chans[k])
    ensures forall k :: 0 <= k < start ==> weights[k] == old(weights[k])
  {
    num, index := num0, index0;
    if accepted {
      if index < cap {
        chans[num] := chan;
        weights[index] := weight;
        num, index := num + 1, index + 1;
      }
    }
  }

  /** One pass over the table: channels of a group go to chans from num on, their
      weight to weights from index on, while the weights last. */
  method ScanGroup(t: ConnTable, p: Platform, g: Group, skip: bool, chans: array<nat>, weights: array<nat>,
                   cap: nat, num0: nat, index0: nat, weight: nat) returns (num: nat, index: nat)
    requires t.Valid() && chans != weights
    requires index0 <= cap <= weights.Length
    requires num0 + cap - index0 <= chans.Length
    requires g in {AnyConn, Conn24, Conn5}
    modifies chans, weights
    ensures t.Valid() && t.conns == old(t.conns)
    ensures var got := Take(cap - index0, ConnGroup(g, p, skip, old(t.conns)));
            && |got| <= cap - index0
            && num == num0 + |got| && index == index0 + |got|
            && Stored(chans, weights, num0, index0, got, weight)
    ensures forall k :: 0 <= k < num0 ==> chans[k] == old(chans[k])
    ensures forall k :: 0 <= k < index0 ==> weights[k] == old(weights[k])
  {
    num, index := num0, index0;
    ghost var all := Channels(t.conns);
    ghost var got: seq<nat> := [];
    var i := 0;
    while t.IsValidIndex(i)
      invariant t.Valid() && t.conns == old(t.conns) && i <= |all|
      invariant got == Take(cap - index0, Filter(all[..i], InConnGroup(g, p, skip)))
      invariant num == num0 + |got| && index == index0 + |got| <= cap
      invariant Stored(chans, weights, num0, index0, got, weight)
      invariant forall k :: 0 <= k < num0 ==> chans[k] == old(chans[k])
      invariant forall k :: 0 <= k < index0 ==> weights[k] == old(weights[k])
      decreases MAX_CONNECTIONS - i
    {
      var chan := t.list[i].chan;
      var accepted := Accepts(g, p, skip, chan);
      TakeFilterSnoc(cap - index0, all, i, InConnGroup(g, p, skip));
      num, index := Offer(accepted, chan, weight, cap, chans, weights, num, index, num0, index0, got);
      got := Take(cap - index0, Filter(all[..i + 1], InConnGroup(g, p, skip)));
      i := i + 1;
    }
    assert all[..i] == all;
  }

  /** The tests of the three kinds of scan loop. */
  predicate Accepts(g: Group, p: Platform, skip: bool, chan: nat)
    requires g in {AnyConn, Conn24, Conn5}
    ensures Accepts(g, p, skip, chan) == InConnGroup(g, p, skip)(chan)
  {
    if g == Conn24 then Is24(chan)
    else if skip && chan in p.dfs then false
    else g == AnyConn || Is5(chan)
  }

  /** The list is one group with one weight, then another with another. */
  ghost predicate TwoParts(list: seq<Choice>, x: seq<nat>, y: seq<nat>, wx: nat, wy: nat) {
    && |list| == |x| + |y|
    && (forall k :: 0 <= k < |x| ==> list[k] == Choice(x[k], wx))
    && (forall k :: |x| <= k < |list| ==> list[k] == Choice(y[k - |x|], wy))
  }

  /** Splitting the room between two groups. */
  lemma TwoGroups(room: nat, a: seq<nat>, b: seq<nat>, wa: nat, wb: nat)
    ensures |Take(room, a)| <= room
    ensures TwoParts(Take(room, Tag(a, wa) + Tag(b, wb)), Take(room, a), Take(room - |Take(room, a)|, b), wa, wb)
  {
  }

  /** Two passes: one band, then the other with the next weight. */
  method ScanTwoGroups(t: ConnTable, p: Platform, g: Group, h: Group, skip: bool, chans: array<nat>,
                       weights: array<nat>, cap: nat, index0: nat, rank: nat) returns (num: nat, index: nat)
    requires t.Valid() && chans != weights
    requires index0 <= cap <= weights.Length && cap - index0 <= chans.Length
    requires g in {Conn24, Conn5} && h in {Conn24, Conn5}
    modifies chans, weights
    ensures t.Valid() && t.conns == old(t.conns)
    ensures Gathered(cap, index0, ConnGroup(g, p, skip, old(t.conns)), ConnGroup(h, p, skip, old(t.conns)),
                     rank, chans, weights, num, index)
    ensures forall k :: 0 <= k < index0 ==> weights[k] == old(weights[k])
  {
    num, index := ScanGroup(t, p, g, skip, chans, weights, cap, 0, index0, WeightOf(rank));
    num, index := ScanGroup(t, p, h, skip, chans, weights, cap, num, index, WeightOf(rank + 1));
  }

  /** What the scans leave behind: as much of both groups as there is room for. */
  ghost predicate Gathered(cap: nat, index0: nat, a: seq<nat>, b: seq<nat>, rank: nat,
                           chans: array<nat>, weights: array<nat>, num: nat, index: nat)
    requires index0 <= cap
    reads chans, weights
  {
    var x := Take(cap - index0, a);
    var y := Take(cap - index0 - |x|, b);
    && num == |x| + |y| && index == index0 + num <= cap
    && Stored(chans, weights, 0, index0, x, WeightOf(rank))
    && Stored(chans, weights, |x|, index0 + |x|, y, WeightOf(rank + 1))
  }

  method ConnectionChannels(t: ConnTable, p: Platform, order: ChannelOrder, skip: bool, chans: array<nat>,
                            weights: array<nat>, cap: nat, index0: nat, rank: nat) returns (num: nat, index: nat)
    requires t.Valid() && chans != weights
    requires index0 <= cap <= weights.Length && cap - index0 <= chans.Length
    modifies chans, weights
    ensures t.Valid() && t.conns == old(t.conns)
    ensures Gathered(cap, index0, ConnGroup(FirstOf(order), p, skip, old(t.conns)),
                     SecondGroup(order, p, skip, old(t.conns)), rank, chans, weights, num, index)
    ensures forall k :: 0 <= k < index0 ==> weights[k] == old(weights[k])
  {
    match order
    case NoOrder =>
      num, index := ScanGroup(t, p, AnyConn, skip, chans, weights, cap, 0, index0, WeightOf(rank));
    case Order24Then5 =>
      num, index := ScanTwoGroups(t, p, Conn24, Conn5, skip, chans, weights, cap, index0, rank);
    case Order5Then24 =>
      num, index := ScanTwoGroups(t, p, Conn5, Conn24, skip, chans, weights, cap, index0, rank);
  }

  // --------------------------------------------------------------- list building

  method CopyBehind(src: array<nat>, n: nat, dst: array<nat>, len: nat)
    requires src != dst && n <= src.Length && len + n <= dst.Length
    modifies dst
    ensures forall j :: 0 <= j < len ==> dst[j] == old(dst[j])
    ensures forall j :: len <= j < len + n ==> dst[j] == src[j - len]
  {
    for k := 0 to n
      invariant forall j :: 0 <= j < len ==> dst[j] == old(dst[j])
      invariant forall j :: len <= j < len + k ==> dst[j] == src[j - len]
    {
      dst[len + k] := src[k];
    }
  }

  /** Appends up to the remaining capacity of a channel array, with one weight. */
  method AddChannels(src: array<nat>, n: nat, dst: array<nat>, weights: array<nat>, cap: nat, len0: nat, weight: nat,
                     ghost list: seq<Choice>) returns (len: nat)
    requires n <= src.Length && src != dst && src != weights && dst != weights
    requires Holds(dst, weights, list) && |list| == len0 <= cap <= dst.Length && cap <= weights.Length
    modifies dst, weights
    ensures Holds(dst, weights, list + Take(cap - len0, Tag(src[..n], weight)))
    ensures len == |list + Take(cap - len0, Tag(src[..n], weight))| <= cap
  {
    var m := Min(len0 + n, cap) - len0;
    CopyBehind(src, m, dst, len0);
    for k := 0 to m
      modifies weights
      invariant forall j :: 0 <= j < len0 ==> weights[j] == list[j].weight
      invariant forall j :: len0 <= j < len0 + k ==> weights[j] == weight
    {
      weights[len0 + k] := weight;
    }
    len := len0 + m;
  }

  /** Gathering weights behind a list leaves the list as it is. */
  method GatherBehind(t: ConnTable, p: Platform, order: ChannelOrder, skip: bool, scratch: array<nat>,
                      dst: array<nat>, weights: array<nat>, cap: nat, len0: nat, rank: nat,
                      ghost list: seq<Choice>) returns (num: nat, index: nat)
    requires t.Valid() && scratch != dst && scratch != weights && dst != weights
    requires cap <= scratch.Length && Holds(dst, weights, list) && |list| == len0 <= cap <= weights.Length
    modifies scratch, weights
    ensures t.Valid() && t.conns == old(t.conns) && Holds(dst, weights, list)
    ensures Gathered(cap, len0, ConnGroup(FirstOf(order), p, skip, old(t.conns)),
                     SecondGroup(order, p, skip, old(t.conns)), rank, scratch, weights, num, index)
  {
    num, index := ConnectionChannels(t, p, order, skip, scratch, weights, cap, len0, rank);
  }

  /** Appends the connections: their channels by way of a scratch buffer. */
  method AddConnections(t: ConnTable, p: Platform, order: ChannelOrder, skip: bool, scratch: array<nat>,
                        dst: array<nat>, weights: array<nat>, cap: nat, len0: nat, rank: nat,
                        ghost list: seq<Choice>) returns (len: nat)
    requires t.Valid() && scratch != dst && scratch != weights && dst != weights
    requires cap <= scratch.Length
    requires Holds(dst, weights, list) && |list| == len0 <= cap <= dst.Length && cap <= weights.Length
    modifies scratch, dst, weights
    ensures t.Valid() && t.conns == old(t.conns)
    ensures Holds(dst, weights, list + Take(cap - len0, OrderedConns(order, p, skip, old(t.conns), rank)))
    ensures len == |list + Take(cap - len0, OrderedConns(order, p, skip, old(t.conns), rank))| <= cap
  {
    var num, index := GatherBehind(t, p, order, skip, scratch, dst, weights, cap, len0, rank, list);
    CopyBehind(scratch, num, dst, len0);
    len := len0 + num;
    OrderedHolds(order, p, skip, t.conns, cap, rank, scratch, dst, weights, num, index, list);
  }

  lemma OrderedHolds(order: ChannelOrder, p: Platform, skip: bool, conns: seq<Conn>, cap: nat, rank: nat,
                     scratch: array<nat>, dst: array<nat>, weights: array<nat>, num: nat, index: nat,
                     list: seq<Choice>)
    requires |list| <= cap
    requires Gathered(cap, |list|, ConnGroup(FirstOf(order), p, skip, conns), SecondGroup(order, p, skip, conns), rank,
                      scratch, weights, num, index)
    requires index <= dst.Length && Holds(dst, weights, list)
    requires forall j :: |list| <= j < index ==> dst[j] == scratch[j - |list|]
    ensures Holds(dst, weights, list + Take(cap - |list|, OrderedConns(order, p, skip, conns, rank)))
    ensures |list + Take(cap - |list|, OrderedConns(order, p, skip, conns, rank))| == |list| + num <= cap
  {
    var (a, b) := (ConnGroup(FirstOf(order), p, skip, conns), SecondGroup(order, p, skip, conns));
    GatheredHolds(cap, a, b, rank, scratch, dst, weights, num, index, list);
  }

  /** Gathered channels, once copied behind a list, extend that list. */
  lemma GatheredHolds(cap: nat, a: seq<nat>, b: seq<nat>, rank: nat, scratch: array<nat>, dst: array<nat>,
                      weights: array<nat>, num: nat, index: nat, list: seq<Choice>)
    requires |list| <= cap && Gathered(cap, |list|, a, b, rank, scratch, weights, num, index)
    requires index <= dst.Length && Holds(dst, weights, list)
    requires forall j :: |list| <= j < index ==> dst[j] == scratch[j - |list|]
    ensures var more := Take(cap - |list|, Tag(a, WeightOf(rank)) + Tag(b, WeightOf(rank + 1)));
            |more| == num && Holds(dst, weights, list + more)
  {
    var (room, wa, wb) := (cap - |list|, WeightOf(rank), WeightOf(rank + 1));
    TwoGroups(room, a, b, wa, wb);
    var x := Take(room, a);
    HoldsTwo(list, x, Take(room - |x|, b), wa, wb, Take(room, Tag(a, wa) + Tag(b, wb)), scratch, dst, weights);
  }

  lemma HoldsTwo(list: seq<Choice>, x: seq<nat>, y: seq<nat>, wx: nat, wy: nat, both: seq<Choice>,
                 scratch: array<nat>, dst: array<nat>, weights: array<nat>)
    requires TwoParts(both, x, y, wx, wy) && |list| + |both| <= dst.Length && Holds(dst, weights, list)
    requires Stored(scratch, weights, 0, |list|, x, wx) && Stored(scratch, weights, |x|, |list| + |x|, y, wy)
    requires forall j :: |list| <= j < |list| + |both| ==> dst[j] == scratch[j - |list|]
    ensures Holds(dst, weights, list + both)
  {
    forall j | |list| <= j < |list| + |both|
      ensures dst[j] == both[j - |list|].chan && weights[j] == both[j - |list|].weight
    {
      var k := j - |list|;
      assert scratch[k] == if k < |x| then x[k] else y[k - |x|];
    }
  }

  lemma LowRunIs(s: seq<nat>, n: nat)
    requires n <= |s| && (forall i :: 0 <= i < n ==> s[i] <= 11) && (n < |s| ==> s[n] > 11)
    ensures LowRun(s) == n
  {
  }

  /** Copies the leading run of channels up to 11. */
  method CopyLowRun(channels: array<nat>, list24: array<nat>) returns (i: nat)
    requires list24.Length == channels.Length && channels != list24
    modifies list24
    ensures i == LowRun(channels[..]) && forall k :: 0 <= k < i ==> list24[k] == channels[k]
  {
    var max := channels.Length;
    var n24 := 0;
    i := 0;
    while i < max && channels[i] <= 11 && n24 < max
      invariant i == n24 <= max
      invariant forall k :: 0 <= k < n24 ==> list24[k] == channels[k] <= 11
    {
      list24[n24] := channels[i];
      n24, i := n24 + 1, i + 1;
    }
    LowRunIs(channels[..], i);
  }

  /** Copies one channel if it is the one that comes next. */
  method CopyIf(channel: nat, channels: array<nat>, list24: array<nat>, n: nat) returns (copied: bool)
    requires list24.Length == channels.Length && channels != list24
    requires forall k :: 0 <= k < n && k < channels.Length ==> list24[k] == channels[k]
    modifies list24
    ensures copied == (n < channels.Length && channels[n] == channel)
    ensures forall k :: 0 <= k < (if copied then n + 1 else n) && k < channels.Length ==> list24[k] == channels[k]
  {
    copied := n < channels.Length && channels[n] == channel;
    if copied {
      list24[n] := channels[n];
    }
  }

  /** Divides the padded list of valid channels: the 2.4 GHz part. */
  method SplitLow(channels: array<nat>, list24: array<nat>) returns (i: nat)
    requires list24.Length == channels.Length && channels != list24
    modifies list24
    ensures i == Boundary(channels[..])
    ensures list24[..i] == channels[..i]
  {
    i := CopyLowRun(channels, list24);
    var copied := CopyIf(12, channels, list24, i);
    if copied {
      i := i + 1;
      copied := CopyIf(13, channels, list24, i);
      if copied {
        i := i + 1;
        copied := CopyIf(14, channels, list24, i);
        if copied {
          i := i + 1;
        }
      }
    }
  }

  /** The 5 GHz part: what is left of the valid entries, without DFS if asked. */
  method SplitRest(p: Platform, channels: array<nat>, start: nat, num: nat, skip: bool, list5: array<nat>)
    returns (n5: nat)
    requires list5.Length == channels.Length && channels != list5 && num <= channels.Length
    modifies list5
    ensures n5 <= list5.Length
    ensures list5[..n5] == Filter(if start < num then channels[start..num] else [], NonDfs(p, skip))
  {
    ghost var rest := if start < num then channels[start..num] else [];
    ghost var found: seq<nat> := [];
    var i := start;
    n5 := 0;
    while i < num && n5 < list5.Length
      invariant start <= i <= start + |rest|
      invariant found == Filter(rest[..i - start], NonDfs(p, skip))
      invariant n5 == |found| <= i - start
      invariant forall k :: 0 <= k < n5 ==> list5[k] == found[k]
    {
      FilterSnoc(rest, i - start, NonDfs(p, skip));
      var chan := channels[i];
      assert chan == rest[i - start];
      found := Filter(rest[..i + 1 - start], NonDfs(p, skip));
      if !(skip && chan in p.dfs) {
        list5[n5] := chan;
        n5 := n5 + 1;
      }
      i := i + 1;
    }
    assert rest[..i - start] == rest;
  }
}
