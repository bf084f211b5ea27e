/** The preferred channel list as a composition: groups of channels with descending
    weights, cut to the capacity, then filtered. */
module PclSpec {
  import opened ConnTypes
  import opened PclTables
  import opened Admission
  import opened Sequences

  const GROUP1_WEIGHT := 255
  const GROUP2_WEIGHT := 235
  const GROUP3_WEIGHT := 215

  /** A channel of the list with its weight. */
  datatype Choice = Choice(chan: nat, weight: nat)

  datatype Group = Valid24 | Valid5 | AnyConn | Conn24 | Conn5

  // ---------------------------------------------------- filters, as predicates

  function NonDfs(p: Platform, skip: bool): nat -> bool {
    (chan: nat) => !(skip && chan in p.dfs)
  }

  function InConnGroup(g: Group, p: Platform, skip: bool): nat -> bool {
    (chan: nat) => match g
            case AnyConn => !(skip && chan in p.dfs)
            case Conn24 => Is24(chan)
            case Conn5 => !(skip && chan in p.dfs) && Is5(chan)
            case _ => false
  }

  function Safe(env: Env): nat -> bool {
    (chan: nat) => chan !in env.unsafeChans
  }

  /** SAP keeps to the mandatory channels, if any are set; GO to the enabled ones. */
  function AcceptedBy(p: Platform, env: Env, mode: Mode): nat -> bool {
    (chan: nat) =>
      && (mode == Sap && env.mandatory != [] ==> chan in env.mandatory)
      && (mode == P2pGo ==> chan in p.enabled)
  }

  function SafeAndAccepted(p: Platform, env: Env, mode: Mode): nat -> bool {
    (chan: nat) => Safe(env)(chan) && AcceptedBy(p, env, mode)(chan)
  }

  function UpTo14(): nat -> bool {
    (chan: nat) => chan <= 14
  }

  function Above14(): nat -> bool {
    (chan: nat) => chan > 14
  }

  function ByChannel(keep: nat -> bool): Choice -> bool {
    (c: Choice) => keep(c.chan)
  }

  function Tag(chans: seq<nat>, weight: nat): seq<Choice> {
    seq(|chans|, i requires 0 <= i < |chans| => Choice(chans[i], weight))
  }

  lemma {:induction false} FilterTag(chans: seq<nat>, weight: nat, keep: nat -> bool)
    ensures Filter(Tag(chans, weight), ByChannel(keep)) == Tag(Filter(chans, keep), weight)
    decreases |chans|
  {
    if chans != [] {
      var n := |chans| - 1;
      assert Tag(chans, weight)[..n] == Tag(chans[..n], weight);
      FilterTag(chans[..n], weight, keep);
    }
  }

  // ---------------------------------------------------- dividing the valid list

  /** The valid list in its zero-padded buffer. */
  function Padded(valid: seq<nat>, max: nat): (r: seq<nat>)
    requires |valid| <= max
    ensures |r| == max
  {
    valid + seq(max - |valid|, _ => 0)
  }

  /** Length of the leading run of channels up to 11. */
  function LowRun(s: seq<nat>): (n: nat)
    ensures n <= |s|
    ensures forall i :: 0 <= i < n ==> s[i] <= 11
    ensures n < |s| ==> s[n] > 11
  {
    if s == [] || s[0] > 11 then 0 else 1 + LowRun(s[1..])
  }

  /** Where the 2.4 GHz part ends: after the run up to 11, then 12, 13 and 14 in turn. */
  function Boundary(buffer: seq<nat>): (n: nat)
    ensures n <= |buffer|
  {
    var a := LowRun(buffer);
    if a < |buffer| && buffer[a] == 12 then
      if a + 1 < |buffer| && buffer[a + 1] == 13 then
        if a + 2 < |buffer| && buffer[a + 2] == 14 then a + 3 else a + 2
      else a + 1
    else a
  }

  function List24(valid: seq<nat>, max: nat): seq<nat>
    requires |valid| <= max
  {
    Padded(valid, max)[..Boundary(Padded(valid, max))]
  }

  function Rest5(valid: seq<nat>, max: nat): seq<nat>
    requires |valid| <= max
  {
    var b := Boundary(Padded(valid, max));
    if b < |valid| then valid[b..] else []
  }

  ghost predicate Ascending(s: seq<nat>) {
    && (forall i :: 0 <= i < |s| ==> s[i] > 0)
    && (forall i, j :: 0 <= i < j < |s| ==> s[i] < s[j])
  }

  /** Some channel above 11 stops the first run (or the buffer is full), and 13 and
      14 come only after their predecessors. */
  ghost predicate SplitReady(valid: seq<nat>, max: nat) {
    && (|valid| == max || exists i :: 0 <= i < |valid| && valid[i] > 11)
    && (13 in valid ==> 12 in valid)
    && (14 in valid ==> 13 in valid)
  }

  lemma LowRunStops(valid: seq<nat>, max: nat)
    requires |valid| <= max && SplitReady(valid, max)
    ensures LowRun(Padded(valid, max)) <= |valid|
  {
    if |valid| < max {
      var i :| 0 <= i < |valid| && valid[i] > 11;
      assert Padded(valid, max)[i] > 11;
    }
  }

  lemma BoundaryShape(buffer: seq<nat>)
    ensures var (a, b) := (LowRun(buffer), Boundary(buffer));
            && a <= b && (forall i :: 0 <= i < b ==> buffer[i] <= 14)
            && (b > a ==> buffer[b - 1] >= 12)
  {
  }

  /** Beyond the valid channels the buffer holds zeros, which end no 2.4 GHz part. */
  lemma BoundaryFits(valid: seq<nat>, max: nat)
    requires |valid| <= max && SplitReady(valid, max)
    ensures Boundary(Padded(valid, max)) <= |valid|
  {
    var buffer := Padded(valid, max);
    LowRunStops(valid, max);
    BoundaryShape(buffer);
    assert forall j :: |valid| <= j < max ==> buffer[j] == 0;
  }

  lemma BoundaryOfReady(valid: seq<nat>, max: nat)
    requires |valid| <= max && Ascending(valid) && SplitReady(valid, max)
    ensures var b := Boundary(Padded(valid, max));
            && b <= |valid|
            && (forall i :: 0 <= i < b ==> valid[i] <= 14)
            && (forall i :: b <= i < |valid| ==> valid[i] > 14)
  {
    var buffer := Padded(valid, max);
    var b := Boundary(buffer);
    BoundaryFits(valid, max);
    BoundaryShape(buffer);
    assert forall i :: 0 <= i < |valid| ==> buffer[i] == valid[i];
    if b < |valid| {
      BehindBoundary(valid, max, buffer, LowRun(buffer), b);
    }
  }

  lemma BehindBoundary(valid: seq<nat>, max: nat, buffer: seq<nat>, a: nat, b: nat)
    requires |valid| <= max && Ascending(valid) && SplitReady(valid, max) && buffer == Padded(valid, max)
    requires a == LowRun(buffer) && b == Boundary(buffer) < |valid|
    ensures forall i :: b <= i < |valid| ==> valid[i] > 14
  {
    assert forall i :: 0 <= i < |valid| ==> buffer[i] == valid[i];
    AfterBoundary(valid, a, b);
    forall i | b <= i < |valid| ensures valid[i] > 14 {
      assert b == i || valid[b] < valid[i];
    }
  }

  /** In a ready list what follows the low run and the 12, 13 and 14 lies above 14. */
  lemma AfterBoundary(valid: seq<nat>, a: nat, b: nat)
    requires Ascending(valid) && a <= b < |valid|
    requires 13 in valid ==> 12 in valid
    requires 14 in valid ==> 13 in valid
    requires (forall i :: 0 <= i < a ==> valid[i] <= 11) && valid[a] > 11
    requires || (b == a && valid[a] != 12)
             || (b == a + 1 && valid[a] == 12 && valid[a + 1] != 13)
             || (b == a + 2 && valid[a] == 12 && valid[a + 1] == 13 && valid[a + 2] != 14)
             || (b == a + 3 && valid[a] == 12 && valid[a + 1] == 13 && valid[a + 2] == 14)
    ensures valid[b] > 14
  {
    AfterTwelve(valid, a);
    if b == a + 1 {
      forall i | 0 <= i < |valid| ensures valid[i] != 13 {
        assert b < i ==> valid[b] < valid[i];
      }
      assert valid[b] in valid;
    }
  }

  /** In a ready list the entry after the low run is 12 or lies above 14. */
  lemma AfterTwelve(valid: seq<nat>, a: nat)
    requires Ascending(valid) && a < |valid|
    requires 13 in valid ==> 12 in valid
    requires 14 in valid ==> 13 in valid
    requires forall i :: 0 <= i < a ==> valid[i] <= 11
    requires valid[a] > 11
    ensures valid[a] == 12 || valid[a] > 14
  {
    assert valid[a] == 14 ==> 13 in valid;
    assert valid[a] in valid;
  }

  /** On ascending lists the division is the intended one exactly when the list is
      ready for it. Otherwise padding zeros are taken for 2.4 GHz channels, or 13 or
      14 is taken for a 5 GHz one. */
  lemma SplitIsByBand(valid: seq<nat>, max: nat)
    requires |valid| <= max && Ascending(valid)
    ensures (List24(valid, max) == Filter(valid, UpTo14()) && Rest5(valid, max) == Filter(valid, Above14()))
            <==> SplitReady(valid, max)
  {
    var buffer := Padded(valid, max);
    var b := Boundary(buffer);
    if SplitReady(valid, max) {
      BoundaryOfReady(valid, max);
      FilterHead(valid, b, UpTo14());
      FilterTail(valid, b, Above14());
      assert buffer[..b] == valid[..b];
    } else {
      SplitFailsWhenNotReady(valid, max);
    }
  }

  /** An input that fails: padding is taken for a channel. */
  lemma SplitTakesPadding(valid: seq<nat>)
    requires valid == [6]
    ensures List24(valid, 2) == [6, 0] && Filter(valid, UpTo14()) == [6]
  {
    var buffer := Padded(valid, 2);
    assert buffer == [6, 0];
    LowRunOfTwo(buffer);
    assert buffer[..2] == buffer;
    FilterAll(valid, UpTo14());
  }

  lemma LowRunOfTwo(buffer: seq<nat>)
    requires buffer == [6, 0]
    ensures LowRun(buffer) == 2
  {
    assert buffer[0] <= 11 && buffer[1] <= 11;
  }

  lemma SplitFailsWhenNotReady(valid: seq<nat>, max: nat)
    requires |valid| <= max && Ascending(valid) && !SplitReady(valid, max)
    ensures List24(valid, max) != Filter(valid, UpTo14()) || Rest5(valid, max) != Filter(valid, Above14())
  {
    if |valid| < max && forall i :: 0 <= i < |valid| ==> valid[i] <= 11 {
      var buffer := Padded(valid, max);
      assert forall i :: 0 <= i < max ==> buffer[i] <= 11;
      assert LowRun(buffer) == max;
      assert |List24(valid, max)| == max;
    } else {
      var k := if 13 in valid && 12 !in valid then 13 else 14;
      GapGoesTo5(valid, max, k);
      FilterMembers(valid, k, Above14());
    }
  }

  /** A 13 without 12, or a 14 without 13, lands in the 5 GHz part. */
  lemma GapGoesTo5(valid: seq<nat>, max: nat, k: nat)
    requires |valid| <= max && Ascending(valid)
    requires (k == 13 || k == 14) && k in valid && k - 1 !in valid
    ensures k in Rest5(valid, max)
  {
    var buffer := Padded(valid, max);
    var a := LowRun(buffer);
    var b := Boundary(buffer);
    var i :| 0 <= i < |valid| && valid[i] == k;
    assert buffer[i] == k;
    assert forall j :: 0 <= j < i ==> buffer[j] < k - 1;
    assert b <= i;
    assert valid[b..][i - b] == k;
  }

  // ------------------------------------------------------------------- the list

  /** The channel groups behind each PCL type, most preferred first. */
  function GroupsOf(pcl: PclType): seq<Group> {
    match pcl
    case PclNone | MaxPclType => []
    case Pcl24g => [Valid24]
    case Pcl5g => [Valid5]
    case SccCh | MccCh => [AnyConn]
    case SccCh24g | MccCh24g => [AnyConn, Valid24]
    case SccCh5g | MccCh5g => [AnyConn, Valid5]
    case Pcl24gSccCh | Pcl24gMccCh => [Valid24, AnyConn]
    case Pcl5gSccCh | Pcl5gMccCh => [Valid5, AnyConn]
    case SccOn24SccOn5 => [Conn24, Conn5]
    case SccOn5SccOn24 => [Conn5, Conn24]
    case SccOn24SccOn5With24g => [Conn24, Conn5, Valid24]
    case SccOn24SccOn5With5g => [Conn24, Conn5, Valid5]
    case SccOn5SccOn24With24g => [Conn5, Conn24, Valid24]
    case SccOn5SccOn24With5g => [Conn5, Conn24, Valid5]
  }

  function WeightOf(rank: nat): nat {
    if rank == 0 then GROUP1_WEIGHT else if rank == 1 then GROUP2_WEIGHT else GROUP3_WEIGHT
  }

  /** SAP and GO leave DFS channels out while a STA is connected. */
  predicate SkipsDfs(conns: seq<Conn>, mode: Mode) {
    IsBeaconing(mode) && Count(conns, Sta) > 0
  }

  function Channels(conns: seq<Conn>): seq<nat> {
    seq(|conns|, i requires 0 <= i < |conns| => conns[i].chan)
  }

  function ConnGroup(g: Group, p: Platform, skip: bool, conns: seq<Conn>): seq<nat> {
    Filter(Channels(conns), InConnGroup(g, p, skip))
  }

  function Members(g: Group, p: Platform, skip: bool, conns: seq<Conn>, valid: seq<nat>, max: nat): seq<nat>
    requires |valid| <= max
  {
    match g
    case Valid24 => List24(valid, max)
    case Valid5 => Filter(Rest5(valid, max), NonDfs(p, skip))
    case _ => ConnGroup(g, p, skip, conns)
  }

  function Ranked(groups: seq<Group>, p: Platform, skip: bool, conns: seq<Conn>, valid: seq<nat>, max: nat): seq<Choice>
    requires |valid| <= max
  {
    if groups == [] then []
    else
      var n := |groups| - 1;
      Ranked(groups[..n], p, skip, conns, valid, max) + Tag(Members(groups[n], p, skip, conns, valid, max), WeightOf(n))
  }

  lemma RankedSnoc(groups: seq<Group>, g: Group, p: Platform, skip: bool, conns: seq<Conn>, valid: seq<nat>, max: nat)
    requires |valid| <= max
    ensures Ranked(groups + [g], p, skip, conns, valid, max)
            == Ranked(groups, p, skip, conns, valid, max)
               + Tag(Members(g, p, skip, conns, valid, max), WeightOf(|groups|))
  {
    assert (groups + [g])[..|groups|] == groups;
  }

  lemma RankedOne(g: Group, p: Platform, skip: bool, conns: seq<Conn>, valid: seq<nat>, max: nat)
    requires |valid| <= max
    ensures Ranked([g], p, skip, conns, valid, max) == Tag(Members(g, p, skip, conns, valid, max), GROUP1_WEIGHT)
  {
    RankedSnoc([], g, p, skip, conns, valid, max);
    assert [] + [g] == [g];
  }

  lemma RankedTwo(g: Group, h: Group, p: Platform, skip: bool, conns: seq<Conn>, valid: seq<nat>, max: nat)
    requires |valid| <= max
    ensures Ranked([g, h], p, skip, conns, valid, max)
            == Tag(Members(g, p, skip, conns, valid, max), GROUP1_WEIGHT)
               + Tag(Members(h, p, skip, conns, valid, max), GROUP2_WEIGHT)
  {
    RankedOne(g, p, skip, conns, valid, max);
    RankedSnoc([g], h, p, skip, conns, valid, max);
    assert [g] + [h] == [g, h];
  }

  /** What cds_get_channel_list() builds before the avoidance filter. */
  function Preferred(pcl: PclType, p: Platform, conns: seq<Conn>, mode: Mode, valid: seq<nat>, max: nat,
                     cap: nat): seq<Choice>
    requires |valid| <= max
  {
    Take(cap, Ranked(GroupsOf(pcl), p, SkipsDfs(conns, mode), conns, valid, max))
  }

  /** The list cds_get_pcl() returns; given is what the caller's buffers held, which
      is all there is when the PCL type is CDS_NONE. */
  function PclResult(p: Platform, env: Env, conns: seq<Conn>, mode: Mode, max: nat, cap: nat,
                     given: seq<Choice>): seq<Choice>
    requires PclAvailable(p, env, conns, mode)
    requires env.validChans.Some? ==> |env.validChans.value| <= max
  {
    ResultOfType(PclTypeFor(p, conns, mode).value, p, env, conns, mode, max, cap, given)
  }

  function ResultOfType(pcl: PclType, p: Platform, env: Env, conns: seq<Conn>, mode: Mode, max: nat, cap: nat,
                        given: seq<Choice>): seq<Choice>
    requires TypeAvailable(env, mode, pcl)
    requires env.validChans.Some? ==> |env.validChans.value| <= max
  {
    var base :=
      if pcl == PclNone then given
      else Filter(Preferred(pcl, p, conns, mode, env.validChans.value, max, cap), ByChannel(Safe(env)));
    Filter(base, ByChannel(AcceptedBy(p, env, mode)))
  }

  // ----------------------------------------------------------------- properties

  ghost predicate NonIncreasing(s: seq<Choice>) {
    forall i, j :: 0 <= i < j < |s| ==> s[i].weight >= s[j].weight
  }

  lemma {:induction false} FilterKeepsOrder(s: seq<Choice>, keep: Choice -> bool)
    requires NonIncreasing(s)
    ensures NonIncreasing(Filter(s, keep))
    decreases |s|
  {
    if s != [] {
      var n := |s| - 1;
      FilterKeepsOrder(s[..n], keep);
      var f := Filter(s[..n], keep);
      forall i | 0 <= i < |f| ensures f[i].weight >= s[n].weight {
        FilterMembers(s[..n], f[i], keep);
      }
    }
  }

  ghost predicate InGroups(c: Choice, groups: seq<Group>, p: Platform, skip: bool, conns: seq<Conn>,
                           valid: seq<nat>, max: nat)
    requires |valid| <= max
  {
    exists k :: 0 <= k < |groups| && c.weight == WeightOf(k)
                && c.chan in Members(groups[k], p, skip, conns, valid, max)
  }

  lemma {:induction false} RankedDescends(groups: seq<Group>, p: Platform, skip: bool, conns: seq<Conn>,
                                          valid: seq<nat>, max: nat)
    requires |valid| <= max
    ensures var r := Ranked(groups, p, skip, conns, valid, max);
            && NonIncreasing(r)
            && (forall i :: 0 <= i < |r| ==> groups != [] && r[i].weight >= WeightOf(|groups| - 1))
    decreases |groups|
  {
    if groups != [] {
      RankedDescends(groups[..|groups| - 1], p, skip, conns, valid, max);
    }
  }

  lemma InMoreGroups(c: Choice, groups: seq<Group>, n: nat, p: Platform, skip: bool, conns: seq<Conn>, valid: seq<nat>,
                     max: nat)
    requires |valid| <= max && n <= |groups| && InGroups(c, groups[..n], p, skip, conns, valid, max)
    ensures InGroups(c, groups, p, skip, conns, valid, max)
  {
    var k :| 0 <= k < n && c.weight == WeightOf(k) && c.chan in Members(groups[..n][k], p, skip, conns, valid, max);
    assert groups[..n][k] == groups[k];
  }

  lemma {:induction false} RankedInGroups(groups: seq<Group>, p: Platform, skip: bool, conns: seq<Conn>,
                                          valid: seq<nat>, max: nat, i: nat)
    requires |valid| <= max && i < |Ranked(groups, p, skip, conns, valid, max)|
    ensures InGroups(Ranked(groups, p, skip, conns, valid, max)[i], groups, p, skip, conns, valid, max)
    decreases |groups|
  {
    var n := |groups| - 1;
    var head := Ranked(groups[..n], p, skip, conns, valid, max);
    var r := Ranked(groups, p, skip, conns, valid, max);
    if i < |head| {
      RankedInGroups(groups[..n], p, skip, conns, valid, max, i);
      InMoreGroups(r[i], groups, n, p, skip, conns, valid, max);
    } else {
      var last := Members(groups[n], p, skip, conns, valid, max);
      assert r[i] == Choice(last[i - |head|], WeightOf(n));
    }
  }

  /** Every list cds_get_pcl() builds fits the capacity, descends in weight, and
      gives each channel the weight of one of the groups that contain it. */
  lemma PclIsRanked(p: Platform, env: Env, conns: seq<Conn>, mode: Mode, max: nat, cap: nat, given: seq<Choice>)
    requires PclAvailable(p, env, conns, mode)
    requires env.validChans.Some? ==> |env.validChans.value| <= max
    requires PclTypeFor(p, conns, mode).value != PclNone
    ensures var r := PclResult(p, env, conns, mode, max, cap, given);
            var groups := GroupsOf(PclTypeFor(p, conns, mode).value);
            && |r| <= cap
            && NonIncreasing(r)
            && forall i :: 0 <= i < |r| ==>
                 InGroups(r[i], groups, p, SkipsDfs(conns, mode), conns, env.validChans.value, max)
  {
    var pcl := PclTypeFor(p, conns, mode).value;
    var valid := env.validChans.value;
    var skip := SkipsDfs(conns, mode);
    var full := Ranked(GroupsOf(pcl), p, skip, conns, valid, max);
    RankedDescends(GroupsOf(pcl), p, skip, conns, valid, max);
    var cut := Take(cap, full);
    var safe := Filter(cut, ByChannel(Safe(env)));
    FilterKeepsOrder(cut, ByChannel(Safe(env)));
    FilterKeepsOrder(safe, ByChannel(AcceptedBy(p, env, mode)));
    var r := Filter(safe, ByChannel(AcceptedBy(p, env, mode)));
    forall i | 0 <= i < |r| ensures InGroups(r[i], GroupsOf(pcl), p, skip, conns, valid, max) {
      FilterMembers(safe, r[i], ByChannel(AcceptedBy(p, env, mode)));
      FilterMembers(cut, r[i], ByChannel(Safe(env)));
      var k :| 0 <= k < |full| && full[k] == r[i];
      RankedInGroups(GroupsOf(pcl), p, skip, conns, valid, max, k);
    }
  }

  /** Leaving out DFS channels group by group is one filter over the whole list. */
  lemma {:induction false} RankedSkipsDfs(groups: seq<Group>, p: Platform, skip: bool, conns: seq<Conn>,
                                          valid: seq<nat>, max: nat)
    requires |valid| <= max
    requires forall c :: c in p.dfs ==> Is5(c)
    ensures Ranked(groups, p, skip, conns, valid, max)
            == Filter(Ranked(groups, p, false, conns, valid, max), ByChannel(NonDfs(p, skip)))
  {
    if groups != [] {
      var n := |groups| - 1;
      var keep := ByChannel(NonDfs(p, skip));
      RankedSkipsDfs(groups[..n], p, skip, conns, valid, max);
      MembersSkipDfs(groups[n], p, skip, conns, valid, max);
      var g := Members(groups[n], p, false, conns, valid, max);
      FilterConcat(Ranked(groups[..n], p, false, conns, valid, max), Tag(g, WeightOf(n)), keep);
      FilterTag(g, WeightOf(n), NonDfs(p, skip));
    }
  }

  lemma MembersSkipDfs(g: Group, p: Platform, skip: bool, conns: seq<Conn>, valid: seq<nat>, max: nat)
    requires |valid| <= max
    requires forall c :: c in p.dfs ==> Is5(c)
    ensures Members(g, p, skip, conns, valid, max)
            == Filter(Members(g, p, false, conns, valid, max), NonDfs(p, skip))
  {
    var keep := NonDfs(p, skip);
    match g
    case Valid24 =>
      BoundaryShape(Padded(valid, max));
      FilterAll(List24(valid, max), keep);
    case Valid5 =>
      FilterAll(Rest5(valid, max), NonDfs(p, false));
    case _ =>
      FilterTwice(Channels(conns), InConnGroup(g, p, false), keep, InConnGroup(g, p, skip));
  }

  /** With DFS confined to 5 GHz, the result is one composition of simple filters
      over the plain ranked list: drop DFS if the mode must, cut to the capacity,
      drop unsafe channels and those the mode does not accept. Nothing else goes. */
  lemma PclIsFiltered(p: Platform, env: Env, conns: seq<Conn>, mode: Mode, max: nat, cap: nat, given: seq<Choice>)
    requires PclAvailable(p, env, conns, mode)
    requires env.validChans.Some? ==> |env.validChans.value| <= max
    requires PclTypeFor(p, conns, mode).value != PclNone
    requires forall c :: c in p.dfs ==> Is5(c)
    ensures var plain := Ranked(GroupsOf(PclTypeFor(p, conns, mode).value), p, false, conns, env.validChans.value, max);
            var nonDfs := Filter(plain, ByChannel(NonDfs(p, SkipsDfs(conns, mode))));
            PclResult(p, env, conns, mode, max, cap, given)
            == Filter(Take(cap, nonDfs), ByChannel(SafeAndAccepted(p, env, mode)))
  {
    var pcl := PclTypeFor(p, conns, mode).value;
    var skip := SkipsDfs(conns, mode);
    RankedSkipsDfs(GroupsOf(pcl), p, skip, conns, env.validChans.value, max);
    var plain := Ranked(GroupsOf(pcl), p, false, conns, env.validChans.value, max);
    var nonDfs := Filter(plain, ByChannel(NonDfs(p, skip)));
    FilterTwice(Take(cap, nonDfs), ByChannel(Safe(env)), ByChannel(AcceptedBy(p, env, mode)),
                ByChannel(SafeAndAccepted(p, env, mode)));
  }

  /** The reasons for which a channel may be left out, spelled out. */
  ghost predicate Usable(p: Platform, env: Env, conns: seq<Conn>, mode: Mode, chan: nat) {
    && chan !in env.unsafeChans
    && (IsBeaconing(mode) && Count(conns, Sta) > 0 ==> chan !in p.dfs)
    && (mode == P2pGo ==> chan in p.enabled)
    && (mode == Sap && env.mandatory != [] ==> chan in env.mandatory)
  }

  /** What a caller can rely on, channel by channel, when the capacity suffices. */
  lemma PclChannels(p: Platform, env: Env, conns: seq<Conn>, mode: Mode, max: nat, cap: nat,
                    given: seq<Choice>, c: Choice)
    requires PclAvailable(p, env, conns, mode)
    requires env.validChans.Some? ==> |env.validChans.value| <= max
    requires PclTypeFor(p, conns, mode).value != PclNone
    requires forall ch :: ch in p.dfs ==> Is5(ch)
    requires |Ranked(GroupsOf(PclTypeFor(p, conns, mode).value), p, false, conns, env.validChans.value, max)| <= cap
    ensures c in PclResult(p, env, conns, mode, max, cap, given) <==>
            c in Ranked(GroupsOf(PclTypeFor(p, conns, mode).value), p, false, conns, env.validChans.value, max)
            && Usable(p, env, conns, mode, c.chan)
  {
    PclIsFiltered(p, env, conns, mode, max, cap, given);
    var plain := Ranked(GroupsOf(PclTypeFor(p, conns, mode).value), p, false, conns, env.validChans.value, max);
    var nonDfs := ByChannel(NonDfs(p, SkipsDfs(conns, mode)));
    var rest := ByChannel(SafeAndAccepted(p, env, mode));
    FilterMembers(plain, c, nonDfs);
    FilterMembers(Filter(plain, nonDfs), c, rest);
    assert nonDfs(c) && rest(c) <==> Usable(p, env, conns, mode, c.chan);
  }
}
