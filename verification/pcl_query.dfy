/** cds_get_pcl(): from the PCL type to the filtered channel list. */
module PclQuery {
  import opened ConnTypes
  import opened PclTables
  import opened Admission
  import opened PclSpec
  import opened Sequences
  import opened ConnTables
  import opened PclBuilder
  import opened Wrappers

  // -------------------------------------------------------- shapes of the lists

  function ConnGroups(order: ChannelOrder): seq<Group> {
    match order
    case NoOrder => [AnyConn]
    case Order24Then5 => [Conn24, Conn5]
    case Order5Then24 => [Conn5, Conn24]
  }

  /** The connections alone, for each order. */
  lemma ConnsShape(order: ChannelOrder, p: Platform, skip: bool, conns: seq<Conn>, valid: seq<nat>, max: nat)
    requires |valid| <= max
    ensures Ranked(ConnGroups(order), p, skip, conns, valid, max) == OrderedConns(order, p, skip, conns, 0)
  {
    match order
    case NoOrder =>
      RankedOne(AnyConn, p, skip, conns, valid, max);
      NoSecondGroup(p, skip, conns, 0);
    case Order24Then5 => RankedTwo(Conn24, Conn5, p, skip, conns, valid, max);
    case Order5Then24 => RankedTwo(Conn5, Conn24, p, skip, conns, valid, max);
  }

  lemma NoSecondGroup(p: Platform, skip: bool, conns: seq<Conn>, rank: nat)
    ensures OrderedConns(NoOrder, p, skip, conns, rank) == Tag(ConnGroup(AnyConn, p, skip, conns), WeightOf(rank))
  {
    assert Tag([], WeightOf(rank + 1)) == [];
  }

  lemma ValidOnlyShape(pcl: PclType, g: Group, p: Platform, skip: bool, conns: seq<Conn>, valid: seq<nat>, max: nat)
    requires |valid| <= max && GroupsOf(pcl) == [g]
    ensures Ranked(GroupsOf(pcl), p, skip, conns, valid, max)
            == Tag(Members(g, p, skip, conns, valid, max), GROUP1_WEIGHT)
  {
    RankedOne(g, p, skip, conns, valid, max);
  }

  lemma ConnsOnlyShape(pcl: PclType, order: ChannelOrder, p: Platform, skip: bool, conns: seq<Conn>, valid: seq<nat>,
                       max: nat)
    requires |valid| <= max && GroupsOf(pcl) == ConnGroups(order)
    ensures Ranked(GroupsOf(pcl), p, skip, conns, valid, max) == OrderedConns(order, p, skip, conns, 0)
  {
    ConnsShape(order, p, skip, conns, valid, max);
  }

  lemma ValidThenConnsShape(pcl: PclType, g: Group, p: Platform, skip: bool, conns: seq<Conn>, valid: seq<nat>,
                            max: nat)
    requires |valid| <= max && GroupsOf(pcl) == [g, AnyConn]
    ensures Ranked(GroupsOf(pcl), p, skip, conns, valid, max)
            == Tag(Members(g, p, skip, conns, valid, max), GROUP1_WEIGHT) + OrderedConns(NoOrder, p, skip, conns, 1)
  {
    RankedTwo(g, AnyConn, p, skip, conns, valid, max);
    NoSecondGroup(p, skip, conns, 1);
  }

  lemma ConnsThenValidShape(pcl: PclType, order: ChannelOrder, g: Group, p: Platform, skip: bool, conns: seq<Conn>,
                            valid: seq<nat>, max: nat)
    requires |valid| <= max && GroupsOf(pcl) == ConnGroups(order) + [g]
    ensures Ranked(GroupsOf(pcl), p, skip, conns, valid, max)
            == OrderedConns(order, p, skip, conns, 0)
               + Tag(Members(g, p, skip, conns, valid, max), WeightOf(|ConnGroups(order)|))
  {
    ConnsShape(order, p, skip, conns, valid, max);
    RankedSnoc(ConnGroups(order), g, p, skip, conns, valid, max);
  }

  // -------------------------------------------------------------------- building

  method ValidThenConns(t: ConnTable, p: Platform, skip: bool, src: array<nat>, n: nat, scratch: array<nat>,
                        dst: array<nat>, weights: array<nat>, cap: nat) returns (len: nat)
    requires t.Valid() && n <= src.Length && scratch != dst && scratch != weights && dst != weights
    requires src != dst && src != weights && src != scratch
    requires cap <= scratch.Length && cap <= dst.Length && cap <= weights.Length
    modifies scratch, dst, weights
    ensures t.Valid() && t.conns == old(t.conns)
    ensures var list := Take(cap, Tag(src[..n], GROUP1_WEIGHT) + OrderedConns(NoOrder, p, skip, old(t.conns), 1));
            Holds(dst, weights, list) && len == |list|
  {
    len := AddChannels(src, n, dst, weights, cap, 0, GROUP1_WEIGHT, []);
    ghost var head := [] + Take(cap, Tag(src[..n], GROUP1_WEIGHT));
    len := AddConnections(t, p, NoOrder, skip, scratch, dst, weights, cap, len, 1, head);
    TakeConcat(cap, Tag(src[..n], GROUP1_WEIGHT), OrderedConns(NoOrder, p, skip, t.conns, 1));
    assert head == Take(cap, Tag(src[..n], GROUP1_WEIGHT));
  }

  method ConnsThenValid(t: ConnTable, p: Platform, order: ChannelOrder, skip: bool, src: array<nat>, n: nat,
                        rank: nat, scratch: array<nat>, dst: array<nat>, weights: array<nat>, cap: nat)
    returns (len: nat)
    requires t.Valid() && n <= src.Length && scratch != dst && scratch != weights && dst != weights
    requires src != dst && src != weights && src != scratch
    requires cap <= scratch.Length && cap <= dst.Length && cap <= weights.Length
    modifies scratch, dst, weights
    ensures t.Valid() && t.conns == old(t.conns)
    ensures var list := Take(cap, OrderedConns(order, p, skip, old(t.conns), 0) + Tag(src[..n], WeightOf(rank)));
            Holds(dst, weights, list) && len == |list|
  {
    ghost var conns := OrderedConns(order, p, skip, t.conns, 0);
    len := AddConnections(t, p, order, skip, scratch, dst, weights, cap, 0, 0, []);
    assert [] + Take(cap, conns) == Take(cap, conns);
    len := AddChannels(src, n, dst, weights, cap, len, WeightOf(rank), Take(cap, conns));
    TakeConcat(cap, conns, Tag(src[..n], WeightOf(rank)));
  }

  method ValidOnly(src: array<nat>, n: nat, dst: array<nat>, weights: array<nat>, cap: nat) returns (len: nat)
    requires n <= src.Length && src != dst && src != weights && dst != weights
    requires cap <= dst.Length && cap <= weights.Length
    modifies dst, weights
    ensures var list := Take(cap, Tag(src[..n], GROUP1_WEIGHT)); Holds(dst, weights, list) && len == |list|
  {
    len := AddChannels(src, n, dst, weights, cap, 0, GROUP1_WEIGHT, []);
    assert [] + Take(cap, Tag(src[..n], GROUP1_WEIGHT)) == Take(cap, Tag(src[..n], GROUP1_WEIGHT));
  }

  method ConnsOnly(t: ConnTable, p: Platform, order: ChannelOrder, skip: bool, scratch: array<nat>,
                   dst: array<nat>, weights: array<nat>, cap: nat) returns (len: nat)
    requires t.Valid() && scratch != dst && scratch != weights && dst != weights
    requires cap <= scratch.Length && cap <= dst.Length && cap <= weights.Length
    modifies scratch, dst, weights
    ensures t.Valid() && t.conns == old(t.conns)
    ensures var list := Take(cap, OrderedConns(order, p, skip, old(t.conns), 0));
            Holds(dst, weights, list) && len == |list|
  {
    EmptyFirst(Take(cap, OrderedConns(order, p, skip, t.conns, 0)));
    len := AddConnections(t, p, order, skip, scratch, dst, weights, cap, 0, 0, []);
  }

  lemma EmptyFirst(list: seq<Choice>)
    ensures [] + list == list
  {
  }

  // The shapes of the switch, for any type that has the groups.

  method FillConnsThenValid(t: ConnTable, p: Platform, pcl: PclType, order: ChannelOrder, g: Group, skip: bool,
                            src: array<nat>, n: nat, rank: nat, scratch: array<nat>, dst: array<nat>,
                            weights: array<nat>, cap: nat, ghost valid: seq<nat>, ghost max: nat)
    returns (len: nat)
    requires t.Valid() && |valid| <= max
    requires GroupsOf(pcl) == ConnGroups(order) + [g] && rank == |ConnGroups(order)|
    requires n <= src.Length && src[..n] == Members(g, p, skip, t.conns, valid, max)
    requires scratch != dst && scratch != weights && dst != weights
    requires src != dst && src != weights && src != scratch
    requires cap <= scratch.Length && cap <= dst.Length && cap <= weights.Length
    modifies scratch, dst, weights
    ensures t.Valid() && t.conns == old(t.conns)
    ensures var list := Take(cap, Ranked(GroupsOf(pcl), p, skip, old(t.conns), valid, max));
            Holds(dst, weights, list) && len == |list|
  {
    ConnsThenValidShape(pcl, order, g, p, skip, t.conns, valid, max);
    len := ConnsThenValid(t, p, order, skip, src, n, rank, scratch, dst, weights, cap);
  }

  method FillValidThenConns(t: ConnTable, p: Platform, pcl: PclType, g: Group, skip: bool, src: array<nat>, n: nat,
                            scratch: array<nat>, dst: array<nat>, weights: array<nat>, cap: nat,
                            ghost valid: seq<nat>, ghost max: nat)
    returns (len: nat)
    requires t.Valid() && |valid| <= max && GroupsOf(pcl) == [g, AnyConn]
    requires n <= src.Length && src[..n] == Members(g, p, skip, t.conns, valid, max)
    requires scratch != dst && scratch != weights && dst != weights
    requires src != dst && src != weights && src != scratch
    requires cap <= scratch.Length && cap <= dst.Length && cap <= weights.Length
    modifies scratch, dst, weights
    ensures t.Valid() && t.conns == old(t.conns)
    ensures var list := Take(cap, Ranked(GroupsOf(pcl), p, skip, old(t.conns), valid, max));
            Holds(dst, weights, list) && len == |list|
  {
    ValidThenConnsShape(pcl, g, p, skip, t.conns, valid, max);
    len := ValidThenConns(t, p, skip, src, n, scratch, dst, weights, cap);
  }

  /** One group only. */
  method FillOneGroup(t: ConnTable, p: Platform, pcl: PclType, skip: bool, list24: array<nat>, n24: nat,
                       list5: array<nat>, n5: nat, scratch: array<nat>, dst: array<nat>, weights: array<nat>, cap: nat,
                       ghost valid: seq<nat>, ghost max: nat) returns (len: nat)
    requires t.Valid() && |valid| <= max
    requires pcl == Pcl24g || pcl == Pcl5g || pcl == SccCh || pcl == MccCh
    requires n24 <= list24.Length && list24[..n24] == List24(valid, max)
    requires n5 <= list5.Length && list5[..n5] == Filter(Rest5(valid, max), NonDfs(p, skip))
    requires scratch != dst && scratch != weights && dst != weights
    requires list24 != scratch && list24 != dst && list24 != weights
    requires list5 != scratch && list5 != dst && list5 != weights
    requires cap <= scratch.Length && cap <= dst.Length && cap <= weights.Length
    modifies scratch, dst, weights
    ensures t.Valid() && t.conns == old(t.conns)
    ensures var list := Take(cap, Ranked(GroupsOf(pcl), p, skip, old(t.conns), valid, max));
            Holds(dst, weights, list) && len == |list|
  {
    match pcl
    case Pcl24g =>
      ValidOnlyShape(pcl, Valid24, p, skip, t.conns, valid, max);
      len := ValidOnly(list24, n24, dst, weights, cap);
    case Pcl5g =>
      ValidOnlyShape(pcl, Valid5, p, skip, t.conns, valid, max);
      len := ValidOnly(list5, n5, dst, weights, cap);
    case SccCh | MccCh =>
      ConnsOnlyShape(pcl, NoOrder, p, skip, t.conns, valid, max);
      len := ConnsOnly(t, p, NoOrder, skip, scratch, dst, weights, cap);
  }

  /** The cases with at most one band of connections. */
  method FillUnordered(t: ConnTable, p: Platform, pcl: PclType, skip: bool, list24: array<nat>, n24: nat,
                       list5: array<nat>, n5: nat, scratch: array<nat>, dst: array<nat>, weights: array<nat>, cap: nat,
                       ghost valid: seq<nat>, ghost max: nat) returns (len: nat)
    requires t.Valid() && |valid| <= max
    requires pcl != PclNone && pcl != MaxPclType && !Ordered(pcl)
    requires n24 <= list24.Length && list24[..n24] == List24(valid, max)
    requires n5 <= list5.Length && list5[..n5] == Filter(Rest5(valid, max), NonDfs(p, skip))
    requires scratch != dst && scratch != weights && dst != weights
    requires list24 != scratch && list24 != dst && list24 != weights
    requires list5 != scratch && list5 != dst && list5 != weights
    requires cap <= scratch.Length && cap <= dst.Length && cap <= weights.Length
    modifies scratch, dst, weights
    ensures t.Valid() && t.conns == old(t.conns)
    ensures var list := Take(cap, Ranked(GroupsOf(pcl), p, skip, old(t.conns), valid, max));
            Holds(dst, weights, list) && len == |list|
  {
    match pcl
    case Pcl24g | Pcl5g | SccCh | MccCh =>
      len := FillOneGroup(t, p, pcl, skip, list24, n24, list5, n5, scratch, dst, weights, cap, valid, max);
    case SccCh24g | MccCh24g =>
      len := FillConnsThenValid(t, p, pcl, NoOrder, Valid24, skip, list24, n24, 1,
                                scratch, dst, weights, cap, valid, max);
    case SccCh5g | MccCh5g =>
      len := FillConnsThenValid(t, p, pcl, NoOrder, Valid5, skip, list5, n5, 1,
                                scratch, dst, weights, cap, valid, max);
    case Pcl24gSccCh | Pcl24gMccCh =>
      len := FillValidThenConns(t, p, pcl, Valid24, skip, list24, n24, scratch, dst, weights, cap, valid, max);
    case Pcl5gSccCh | Pcl5gMccCh =>
      len := FillValidThenConns(t, p, pcl, Valid5, skip, list5, n5, scratch, dst, weights, cap, valid, max);
  }

  predicate Ordered(pcl: PclType) {
    pcl in {SccOn24SccOn5, SccOn5SccOn24, SccOn24SccOn5With24g, SccOn24SccOn5With5g, SccOn5SccOn24With24g,
            SccOn5SccOn24With5g}
  }

  /** The switch over the PCL type. */
  method FillList(t: ConnTable, p: Platform, pcl: PclType, skip: bool, list24: array<nat>, n24: nat,
                  list5: array<nat>, n5: nat, scratch: array<nat>, dst: array<nat>, weights: array<nat>, cap: nat,
                  ghost valid: seq<nat>, ghost max: nat) returns (len: nat)
    requires t.Valid() && pcl != PclNone && pcl != MaxPclType && |valid| <= max
    requires n24 <= list24.Length && list24[..n24] == List24(valid, max)
    requires n5 <= list5.Length && list5[..n5] == Filter(Rest5(valid, max), NonDfs(p, skip))
    requires scratch != dst && scratch != weights && dst != weights
    requires list24 != scratch && list24 != dst && list24 != weights
    requires list5 != scratch && list5 != dst && list5 != weights
    requires cap <= scratch.Length && cap <= dst.Length && cap <= weights.Length
    modifies scratch, dst, weights
    ensures t.Valid() && t.conns == old(t.conns)
    ensures var list := Take(cap, Ranked(GroupsOf(pcl), p, skip, old(t.conns), valid, max));
            Holds(dst, weights, list) && len == |list|
  {
    if !Ordered(pcl) {
      len := FillUnordered(t, p, pcl, skip, list24, n24, list5, n5, scratch, dst, weights, cap, valid, max);
      return;
    }
    match pcl
    case SccOn24SccOn5 =>
      ConnsOnlyShape(pcl, Order24Then5, p, skip, t.conns, valid, max);
      len := ConnsOnly(t, p, Order24Then5, skip, scratch, dst, weights, cap);
    case SccOn5SccOn24 =>
      ConnsOnlyShape(pcl, Order5Then24, p, skip, t.conns, valid, max);
      len := ConnsOnly(t, p, Order5Then24, skip, scratch, dst, weights, cap);
    case SccOn24SccOn5With24g =>
      len := FillConnsThenValid(t, p, pcl, Order24Then5, Valid24, skip, list24, n24, 2,
                                scratch, dst, weights, cap, valid, max);
    case SccOn24SccOn5With5g =>
      len := FillConnsThenValid(t, p, pcl, Order24Then5, Valid5, skip, list5, n5, 2,
                                scratch, dst, weights, cap, valid, max);
    case SccOn5SccOn24With24g =>
      len := FillConnsThenValid(t, p, pcl, Order5Then24, Valid24, skip, list24, n24, 2,
                                scratch, dst, weights, cap, valid, max);
    case SccOn5SccOn24With5g =>
      len := FillConnsThenValid(t, p, pcl, Order5Then24, Valid5, skip, list5, n5, 2,
                                scratch, dst, weights, cap, valid, max);
  }

  // -------------------------------------------------------------------- filters

  method IsListed(chan: nat, channels: seq<nat>) returns (found: bool)
    ensures found <==> chan in channels
  {
    for j := 0 to |channels|
      invariant chan !in channels[..j]
    {
      if chan == channels[j] {
        return true;
      }
    }
    return false;
  }

  /** Fresh copies of the used part of the two buffers. */
  method CopyOut(chans: array<nat>, weights: array<nat>, n: nat, ghost list: seq<Choice>)
    returns (chansCopy: array<nat>, weightsCopy: array<nat>)
    requires n == |list| && Holds(chans, weights, list)
    ensures fresh(chansCopy) && fresh(weightsCopy) && chansCopy != weightsCopy
    ensures Holds(chansCopy, weightsCopy, list)
  {
    chansCopy := new nat[n];
    weightsCopy := new nat[n];
    for k := 0 to n
      invariant forall j :: 0 <= j < k ==> chansCopy[j] == chans[j] && weightsCopy[j] == weights[j]
    {
      chansCopy[k] := chans[k];
      weightsCopy[k] := weights[k];
    }
  }

  /** Appends one choice to the list held by two buffers. */
  method PutChoice(chans: array<nat>, weights: array<nat>, n: nat, chan: nat, weight: nat, ghost list: seq<Choice>)
    requires chans != weights && Holds(chans, weights, list) && n == |list| < chans.Length && n < weights.Length
    modifies chans, weights
    ensures Holds(chans, weights, list + [Choice(chan, weight)])
  {
    chans[n] := chan;
    weights[n] := weight;
  }

  /** The kept ones of the first i choices stand in the two buffers. */
  ghost predicate Kept(chans: array<nat>, weights: array<nat>, list: seq<Choice>, i: nat, keep: Choice -> bool,
                       len: nat)
    reads chans, weights
  {
    && i <= |list| && len <= i
    && Holds(chans, weights, Filter(list[..i], keep)) && len == |Filter(list[..i], keep)|
  }

  /** Copies the next choice if it is kept. */
  method KeepNext(ok: bool, src: array<nat>, marks: array<nat>, i: nat, chans: array<nat>, weights: array<nat>,
                  len0: nat, ghost list: seq<Choice>, ghost keep: Choice -> bool) returns (len: nat)
    requires chans != weights && {src, marks} !! {chans, weights}
    requires Holds(src, marks, list) && i < |list| <= chans.Length && |list| <= weights.Length
    requires Kept(chans, weights, list, i, keep, len0) && ok == keep(list[i])
    modifies chans, weights
    ensures Holds(src, marks, list) && Kept(chans, weights, list, i + 1, keep, len)
  {
    FilterSnoc(list, i, keep);
    len := len0;
    if ok {
      PutChoice(chans, weights, len, src[i], marks[i], Filter(list[..i], keep));
      assert Choice(src[i], marks[i]) == list[i];
      len := len + 1;
    }
  }

  method Clear(a: array<nat>, n: nat)
    requires n <= a.Length
    modifies a
  {
    for k := 0 to n {
      a[k] := 0;
    }
  }

  /** Rebuilds a list from its copy, leaving out the unsafe channels. */
  method RebuildSafe(env: Env, current: array<nat>, original: array<nat>, dst: array<nat>, weights: array<nat>,
                     cap: nat, n: nat, ghost list: seq<Choice>) returns (len: nat)
    requires dst != weights && {current, original} !! {dst, weights}
    requires Holds(current, original, list) && n == |list| <= cap <= weights.Length && n <= dst.Length
    modifies dst, weights
    ensures Holds(dst, weights, Filter(list, ByChannel(Safe(env))))
    ensures len == |Filter(list, ByChannel(Safe(env)))|
  {
    ghost var keep := ByChannel(Safe(env));
    len := 0;
    for i := 0 to n
      invariant Holds(current, original, list) && Kept(dst, weights, list, i, keep, len)
    {
      var unsafe := IsListed(current[i], env.unsafeChans);
      len := KeepNext(!unsafe, current, original, i, dst, weights, len, list, keep);
    }
    assert list[..n] == list;
  }

  /** The channel avoidance filter. */
  method AvoidUnsafe(env: Env, dst: array<nat>, weights: array<nat>, cap: nat, len0: nat, ghost list: seq<Choice>)
    returns (len: nat)
    requires dst != weights && Holds(dst, weights, list) && |list| == len0 <= cap <= weights.Length
    modifies dst, weights
    ensures Holds(dst, weights, Filter(list, ByChannel(Safe(env))))
    ensures len == |Filter(list, ByChannel(Safe(env)))|
  {
    if |env.unsafeChans| == 0 {
      FilterAll(list, ByChannel(Safe(env)));
      return len0;
    }
    var current, original := CopyOut(dst, weights, len0, list);
    Clear(dst, len0);
    Clear(weights, cap);
    len := RebuildSafe(env, current, original, dst, weights, cap, len0, list);
  }

  /** The test of the two filters. */
  method Accepts(p: Platform, env: Env, mode: Mode, chan: nat) returns (ok: bool)
    requires (mode == Sap && env.mandatory != []) || mode == P2pGo
    ensures ok == AcceptedBy(p, env, mode)(chan)
  {
    if mode == Sap {
      ok := IsListed(chan, env.mandatory);
    } else {
      ok := chan in p.enabled;
    }
  }

  /** Copies the channels the mode accepts to a second pair of buffers. */
  method SelectAccepted(p: Platform, env: Env, mode: Mode, src: array<nat>, weights: array<nat>, n: nat,
                        chans: array<nat>, marks: array<nat>, ghost list: seq<Choice>) returns (len: nat)
    requires chans != marks && {src, weights} !! {chans, marks}
    requires Holds(src, weights, list) && n == |list| <= chans.Length && n <= marks.Length
    requires (mode == Sap && env.mandatory != []) || mode == P2pGo
    modifies chans, marks
    ensures Holds(chans, marks, Filter(list, ByChannel(AcceptedBy(p, env, mode))))
    ensures len == |Filter(list, ByChannel(AcceptedBy(p, env, mode)))|
  {
    ghost var keep := ByChannel(AcceptedBy(p, env, mode));
    len := 0;
    for i := 0 to n
      invariant Holds(src, weights, list) && Kept(chans, marks, list, i, keep, len)
    {
      var ok := Accepts(p, env, mode, src[i]);
      len := KeepNext(ok, src, weights, i, chans, marks, len, list, keep);
    }
    assert list[..n] == list;
  }

  /** Keeps the channels the mode accepts: SAP's mandatory channels or GO's enabled ones. */
  method Restrict(p: Platform, env: Env, mode: Mode, dst: array<nat>, weights: array<nat>, len0: nat,
                  ghost list: seq<Choice>) returns (len: nat)
    requires dst != weights && Holds(dst, weights, list) && |list| == len0
    requires (mode == Sap && env.mandatory != []) || mode == P2pGo
    modifies dst, weights
    ensures Holds(dst, weights, Filter(list, ByChannel(AcceptedBy(p, env, mode))))
    ensures len == |Filter(list, ByChannel(AcceptedBy(p, env, mode)))|
  {
    var chans, marks := new nat[len0], new nat[len0];
    len := SelectAccepted(p, env, mode, dst, weights, len0, chans, marks, list);
    ghost var kept := Filter(list, ByChannel(AcceptedBy(p, env, mode)));
    for k := 0 to len
      modifies dst, weights
      invariant forall j :: 0 <= j < k ==> dst[j] == kept[j].chan
      invariant forall j :: 0 <= j < k ==> weights[j] == kept[j].weight
    {
      dst[k] := chans[k];
      weights[k] := marks[k];
    }
  }

  method HasLowChannel(channels: seq<nat>) returns (found: bool)
    ensures found <==> exists i :: 0 <= i < |channels| && Is24(channels[i])
  {
    for i := 0 to |channels|
      invariant forall j :: 0 <= j < i ==> !Is24(channels[j])
    {
      if Is24(channels[i]) {
        return true;
      }
    }
    return false;
  }

  // ---------------------------------------------------------------- the queries

  /** Buffers hold max channels; the loop counters of the filters are eight bits wide. */
  ghost predicate Fits(env: Env, max: nat) {
    && max <= 255
    && |env.unsafeChans| <= max
    && |env.mandatory| <= max
    && (env.validChans.Some? ==> |env.validChans.value| <= max)
  }

  /** Lays the valid channels out in a padded buffer and divides them by band. */
  method Divide(p: Platform, valid: seq<nat>, max: nat, skip: bool)
    returns (channels: array<nat>, list24: array<nat>, n24: nat, list5: array<nat>, n5: nat)
    requires |valid| <= max
    ensures fresh({channels, list24, list5}) && channels != list24 && channels != list5
    ensures channels.Length == max
    ensures n24 <= list24.Length && list24[..n24] == List24(valid, max)
    ensures n5 <= list5.Length && list5[..n5] == Filter(Rest5(valid, max), NonDfs(p, skip))
  {
    channels := new nat[max](i requires 0 <= i < max => if i < |valid| then valid[i] else 0);
    assert channels[..] == Padded(valid, max);
    list24, list5 := new nat[max](_ => 0), new nat[max](_ => 0);
    n24 := SplitLow(channels, list24);
    n5 := SplitRest(p, channels, n24, |valid|, skip, list5);
    assert (if n24 < |valid| then channels[n24..|valid|] else []) == Rest5(valid, max);
  }

  method GetChannelList(t: ConnTable, p: Platform, env: Env, pcl: PclType, mode: Mode, dst: array<nat>,
                        weights: array<nat>, cap: nat, len0: nat, ghost given: seq<Choice>) returns (ok: bool, len: nat)
    requires t.Valid() && dst != weights && dst.Length == weights.Length && cap <= dst.Length
    requires Fits(env, dst.Length)
    requires Holds(dst, weights, given) && |given| == len0
    modifies dst, weights
    ensures t.Valid() && t.conns == old(t.conns)
    ensures ok <==> pcl != MaxPclType && (pcl != PclNone ==> env.validChans.Some?)
    ensures ok && pcl == PclNone ==> len == len0 && Holds(dst, weights, given)
    ensures ok && pcl != PclNone ==>
              var list := Filter(Preferred(pcl, p, old(t.conns), mode, env.validChans.value, dst.Length, cap),
                                 ByChannel(Safe(env)));
              Holds(dst, weights, list) && len == |list|
  {
    if pcl == MaxPclType {
      return false, len0;
    }
    if pcl == PclNone {
      return true, len0;
    }
    if env.validChans.None? {
      return false, len0;
    }
    var valid := env.validChans.value;
    var max := dst.Length;
    var skip := false;
    if IsBeaconing(mode) {
      var count, _ := t.ModeCount(Sta);
      skip := count > 0;
    }
    var channels, list24, n24, list5, n5 := Divide(p, valid, max, skip);
    len := FillList(t, p, pcl, skip, list24, n24, list5, n5, channels, dst, weights, cap, valid, max);
    ghost var list := Preferred(pcl, p, t.conns, mode, valid, max, cap);
    len := AvoidUnsafe(env, dst, weights, cap, len, list);
    ok := true;
  }

  /** The PCL type by the number of connections; None for an unknown pair. */
  method PickPclType(t: ConnTable, p: Platform, mode: Mode) returns (pcl: Option<PclType>)
    requires t.Valid()
    ensures pcl == PclTypeFor(p, t.conns, mode)
  {
    var count := t.ConnectionCount();
    var pref := PriorityOf(p.systemPref);
    if count == 0 {
      return Some(FirstTable(mode));
    } else if count == 1 {
      var row := OneConnIndex(t.list[0]);
      return Some(if p.dbsCapable then SecondDbsTable(row, mode, pref) else SecondNoDbsTable(row, mode, pref));
    } else if count == 2 {
      var row := TwoConnIndex(t.list[0], t.list[1]);
      if row.None? {
        return None;
      }
      return Some(if p.dbsCapable then ThirdDbsTable(row.value, mode, pref)
                  else ThirdNoDbsTable(row.value, mode, pref));
    }
    return Some(PclNone);
  }

  /** The mandatory channels of a SAP or the enabled channels of a GO. */
  method RestrictForMode(p: Platform, env: Env, mode: Mode, dst: array<nat>, weights: array<nat>, len0: nat,
                         ghost base: seq<Choice>) returns (ok: bool, len: nat)
    requires dst != weights && Holds(dst, weights, base) && |base| == len0
    modifies dst, weights
    ensures ok <==> (mode == Sap ==> MandatorySetUsable(env))
    ensures !ok <==> mode == Sap && env.mandatory != []
                     && forall i :: 0 <= i < |env.mandatory| ==> !(1 <= env.mandatory[i] <= 13)
    ensures ok ==> var list := Filter(base, ByChannel(AcceptedBy(p, env, mode)));
                   Holds(dst, weights, list) && len == |list|
  {
    ok, len := true, len0;
    if mode == Sap && |env.mandatory| != 0 {
      ok := HasLowChannel(env.mandatory);
      if ok {
        len := Restrict(p, env, mode, dst, weights, len, base);
      }
    } else if mode == P2pGo {
      len := Restrict(p, env, mode, dst, weights, len, base);
    } else {
      FilterAll(base, ByChannel(AcceptedBy(p, env, mode)));
    }
  }

  method GetPcl(t: ConnTable, p: Platform, env: Env, mode: Mode, dst: array<nat>, weights: array<nat>, cap: nat,
                len0: nat, ghost given: seq<Choice>) returns (ok: bool, len: nat)
    requires t.Valid() && dst != weights && dst.Length == weights.Length && cap <= dst.Length
    requires Fits(env, dst.Length)
    requires Holds(dst, weights, given) && |given| == len0
    modifies dst, weights
    ensures t.Valid() && t.conns == old(t.conns)
    ensures ok <==> PclAvailable(p, env, old(t.conns), mode)
    ensures ok ==> var list := PclResult(p, env, old(t.conns), mode, dst.Length, cap, given);
                   Holds(dst, weights, list) && len == |list|
  {
    var pcl := PickPclType(t, p, mode);
    if pcl.None? {
      return false, len0;
    }
    ok, len := GetPclOfType(t, p, env, pcl.value, mode, dst, weights, cap, len0, given);
  }

  method GetPclOfType(t: ConnTable, p: Platform, env: Env, pcl: PclType, mode: Mode, dst: array<nat>,
                      weights: array<nat>, cap: nat, len0: nat, ghost given: seq<Choice>) returns (ok: bool, len: nat)
    requires t.Valid() && dst != weights && dst.Length == weights.Length && cap <= dst.Length
    requires Fits(env, dst.Length)
    requires Holds(dst, weights, given) && |given| == len0
    modifies dst, weights
    ensures t.Valid() && t.conns == old(t.conns)
    ensures ok <==> TypeAvailable(env, mode, pcl)
    ensures ok ==> var list := ResultOfType(pcl, p, env, old(t.conns), mode, dst.Length, cap, given);
                   Holds(dst, weights, list) && len == |list|
  {
    ok, len := GetChannelList(t, p, env, pcl, mode, dst, weights, cap, len0, given);
    if !ok {
      return;
    }
    ghost var base :=
      if pcl == PclNone then given
      else Filter(Preferred(pcl, p, t.conns, mode, env.validChans.value, dst.Length, cap), ByChannel(Safe(env)));
    ok, len := RestrictForMode(p, env, mode, dst, weights, len, base);
  }
}
