/** From the current connections to the channels: which entry of which table is read, and
    what each PCL type then asks for, with the weights and bands as numbers. */
module PclCases {
  import opened ConnTypes
  import opened PclTables
  import opened PclTableData
  import opened Admission
  import opened PclSpec
  import opened Sequences
  import opened Wrappers

  // ------------------------------------------------------------- the table entry

  /** The column is that of the preference; any value but 1 and 2 means throughput. */
  function Column(t: Triple, systemPref: nat): PclType {
    if systemPref == 1 then t.powersave else if systemPref == 2 then t.latency else t.throughput
  }

  lemma TypeForFirst(p: Platform, mode: Mode)
    ensures PclTypeFor(p, [], mode) == Some(Column(FirstData(mode), p.systemPref))
  {
    FirstTableIsData(mode);
  }

  /** Beside one connection: the row is its mode, whether it is on channels 1 to 13, and
      its chain. */
  lemma TypeBesideOne(p: Platform, c: Conn, mode: Mode)
    ensures var row := OneConn(c.mode, 1 <= c.chan <= 13, c.chain);
            var cells := if p.dbsCapable then SecondDbsData(row) else SecondNoDbsData(row);
            && (p.systemPref == 1 ==> PclTypeFor(p, [c], mode) == Some(cells.At(mode).powersave))
            && (p.systemPref == 2 ==> PclTypeFor(p, [c], mode) == Some(cells.At(mode).latency))
            && (p.systemPref != 1 && p.systemPref != 2 ==>
                  PclTypeFor(p, [c], mode) == Some(cells.At(mode).throughput))
  {
    var row := OneConn(c.mode, 1 <= c.chan <= 13, c.chain);
    SecondDbsTableIsData(row, mode);
    SecondNoDbsTableIsData(row, mode);
  }

  /** The row for two connections, attribute by attribute. */
  ghost predicate IsRow(row: TwoConn, a: Conn, b: Conn) {
    && (match row.pair
        case StaSap => {a.mode, b.mode} == {Sta, Sap}
        case StaP2pGo => {a.mode, b.mode} == {Sta, P2pGo}
        case StaP2pCli => {a.mode, b.mode} == {Sta, P2pClient}
        case P2pGoP2pCli => {a.mode, b.mode} == {P2pGo, P2pClient}
        case P2pGoSap => {a.mode, b.mode} == {P2pGo, Sap}
        case P2pCliSap => {a.mode, b.mode} == {P2pClient, Sap})
    && (match row.share
        case Scc24 => a.chan == b.chan && 1 <= a.chan <= 13
        case Scc5 => a.chan == b.chan && !(1 <= a.chan <= 13)
        case Mcc24 => a.chan != b.chan && a.mac == b.mac && 1 <= a.chan <= 13 && 1 <= b.chan <= 13
        case Mcc5 => a.chan != b.chan && a.mac == b.mac && 36 <= a.chan <= 184 && 36 <= b.chan <= 184
        case Mcc24And5 =>
          && a.chan != b.chan && a.mac == b.mac
          && !(1 <= a.chan <= 13 && 1 <= b.chan <= 13) && !(36 <= a.chan <= 184 && 36 <= b.chan <= 184)
        case Dbs => a.chan != b.chan && a.mac != b.mac)
    && (row.share != Dbs ==> row.chain == a.chain)
  }

  lemma PairIs(a: Mode, b: Mode)
    ensures PairOf(a, b).None? <==> a == b || a == Ibss || b == Ibss
    ensures forall pair :: PairOf(a, b) == Some(pair) ==>
              {a, b} == match pair
                        case StaSap => {Sta, Sap}
                        case StaP2pGo => {Sta, P2pGo}
                        case StaP2pCli => {Sta, P2pClient}
                        case P2pGoP2pCli => {P2pGo, P2pClient}
                        case P2pGoSap => {P2pGo, Sap}
                        case P2pCliSap => {P2pClient, Sap}
  {
  }

  /** There is a row exactly for two different modes other than IBSS, and it is the one
      that these attributes describe. */
  lemma RowIs(a: Conn, b: Conn)
    ensures TwoConnIndex(a, b).Some? <==> a.mode != b.mode && a.mode != Ibss && b.mode != Ibss
    ensures TwoConnIndex(a, b).Some? ==> IsRow(TwoConnIndex(a, b).value, a, b)
  {
    PairIs(a.mode, b.mode);
  }

  lemma PairUnique(r: TwoConn, s: TwoConn, a: Conn, b: Conn)
    requires IsRow(r, a, b) && IsRow(s, a, b)
    ensures r.pair == s.pair && r.share == s.share && (r.share != Dbs ==> r == s)
  {
    var (x, y) := (a.mode, b.mode);
    assert x in {x, y} && y in {x, y};
  }

  /** Rows of two connections on different MACs do not depend on the chain. */
  lemma ChainOfDbsRow(r: TwoConn, s: TwoConn)
    requires r.pair == s.pair && r.share == s.share == Dbs
    ensures ThirdDbsData(r) == ThirdDbsData(s) && ThirdNoDbsData(r) == ThirdNoDbsData(s)
  {
  }

  /** Beside two connections. */
  lemma TypeBesideTwo(p: Platform, a: Conn, b: Conn, mode: Mode, row: TwoConn)
    requires IsRow(row, a, b)
    ensures var cells := if p.dbsCapable then ThirdDbsData(row) else ThirdNoDbsData(row);
            && (p.systemPref == 1 ==> PclTypeFor(p, [a, b], mode) == Some(cells.At(mode).powersave))
            && (p.systemPref == 2 ==> PclTypeFor(p, [a, b], mode) == Some(cells.At(mode).latency))
            && (p.systemPref != 1 && p.systemPref != 2 ==>
                  PclTypeFor(p, [a, b], mode) == Some(cells.At(mode).throughput))
  {
    RowExists(row, a, b);
    var r := TwoConnIndex(a, b).value;
    ThirdDbsTableIsData(r, mode);
    ThirdNoDbsTableIsData(r, mode);
  }

  lemma RowExists(row: TwoConn, a: Conn, b: Conn)
    requires IsRow(row, a, b)
    ensures TwoConnIndex(a, b).Some?
    ensures var r := TwoConnIndex(a, b).value;
            ThirdDbsData(r) == ThirdDbsData(row) && ThirdNoDbsData(r) == ThirdNoDbsData(row)
  {
    assert a.mode in {a.mode, b.mode} && b.mode in {a.mode, b.mode};
    RowIs(a, b);
    var r := TwoConnIndex(a, b).value;
    PairUnique(r, row, a, b);
    if r.share == Dbs {
      ChainOfDbsRow(r, row);
    }
  }

  /** Beside two connections without a row there is no list; beside three it is empty. */
  lemma TypeBesideOthers(p: Platform, conns: seq<Conn>, mode: Mode)
    ensures PclTypeFor(p, conns, mode).None? <==>
            |conns| == 2 && (conns[0].mode == conns[1].mode || conns[0].mode == Ibss || conns[1].mode == Ibss)
    ensures |conns| >= 3 ==> PclTypeFor(p, conns, mode) == Some(PclNone)
  {
    if |conns| == 2 {
      RowIs(conns[0], conns[1]);
    }
  }

  // ------------------------------------------------------- what a type asks for

  /** The channels a list is made of: those of the connections, the valid ones up to 14 and
      above, and the connections on 2.4 GHz and on 5 GHz. */
  datatype Parts = Parts(conns: seq<nat>, low: seq<nat>, high: seq<nat>, on24: seq<nat>, on5: seq<nat>)
  {
    ghost predicate Are(cs: seq<Conn>, valid: seq<nat>) {
      && |conns| == |cs| && (forall i :: 0 <= i < |cs| ==> conns[i] == cs[i].chan)
      && low == Filter(valid, (chan: nat) => chan <= 14)
      && high == Filter(valid, (chan: nat) => chan > 14)
      && on24 == Filter(conns, (chan: nat) => 1 <= chan <= 13)
      && on5 == Filter(conns, (chan: nat) => 36 <= chan <= 184)
    }
  }

  lemma GroupIs(g: Group, p: Platform, conns: seq<Conn>, valid: seq<nat>, max: nat, parts: Parts)
    requires |valid| <= max && Ascending(valid) && SplitReady(valid, max) && parts.Are(conns, valid)
    ensures Members(g, p, false, conns, valid, max)
            == match g
               case Valid24 => parts.low
               case Valid5 => parts.high
               case AnyConn => parts.conns
               case Conn24 => parts.on24
               case Conn5 => parts.on5
  {
    assert Channels(conns) == parts.conns;
    match g
    case Valid24 =>
      SplitIsByBand(valid, max);
      FilterSame(valid, UpTo14(), (chan: nat) => chan <= 14);
    case Valid5 =>
      SplitIsByBand(valid, max);
      FilterSame(valid, Above14(), (chan: nat) => chan > 14);
      FilterAll(Rest5(valid, max), NonDfs(p, false));
    case AnyConn =>
      FilterAll(Channels(conns), InConnGroup(AnyConn, p, false));
    case Conn24 =>
      FilterSame(Channels(conns), InConnGroup(Conn24, p, false), (chan: nat) => 1 <= chan <= 13);
    case Conn5 =>
      FilterSame(Channels(conns), InConnGroup(Conn5, p, false), (chan: nat) => 36 <= chan <= 184);
  }

  lemma AskedByOne(pcl: PclType, g: Group, p: Platform, conns: seq<Conn>, valid: seq<nat>, max: nat, first: seq<nat>)
    requires |valid| <= max && GroupsOf(pcl) == [g] && first == Members(g, p, false, conns, valid, max)
    ensures Ranked(GroupsOf(pcl), p, false, conns, valid, max) == Tag(first, 255)
  {
    RankedOne(g, p, false, conns, valid, max);
  }

  lemma AskedByTwo(pcl: PclType, g: Group, h: Group, p: Platform, conns: seq<Conn>, valid: seq<nat>, max: nat,
                   first: seq<nat>, second: seq<nat>)
    requires |valid| <= max && GroupsOf(pcl) == [g, h]
    requires first == Members(g, p, false, conns, valid, max) && second == Members(h, p, false, conns, valid, max)
    ensures Ranked(GroupsOf(pcl), p, false, conns, valid, max) == Tag(first, 255) + Tag(second, 235)
  {
    RankedTwo(g, h, p, false, conns, valid, max);
  }

  lemma AskedByThree(pcl: PclType, g: Group, h: Group, k: Group, p: Platform, conns: seq<Conn>, valid: seq<nat>,
                     max: nat, first: seq<nat>, second: seq<nat>, third: seq<nat>)
    requires |valid| <= max && GroupsOf(pcl) == [g, h, k]
    requires first == Members(g, p, false, conns, valid, max) && second == Members(h, p, false, conns, valid, max)
    requires third == Members(k, p, false, conns, valid, max)
    ensures Ranked(GroupsOf(pcl), p, false, conns, valid, max) == Tag(first, 255) + Tag(second, 235) + Tag(third, 215)
  {
    RankedTwo(g, h, p, false, conns, valid, max);
    assert [g, h] + [k] == [g, h, k];
    RankedSnoc([g, h], k, p, false, conns, valid, max);
  }

  /** The groups have these parts as members. */
  ghost predicate Fit(parts: Parts, p: Platform, conns: seq<Conn>, valid: seq<nat>, max: nat)
    requires |valid| <= max
  {
    && Members(Valid24, p, false, conns, valid, max) == parts.low
    && Members(Valid5, p, false, conns, valid, max) == parts.high
    && Members(AnyConn, p, false, conns, valid, max) == parts.conns
    && Members(Conn24, p, false, conns, valid, max) == parts.on24
    && Members(Conn5, p, false, conns, valid, max) == parts.on5
  }

  lemma GroupsAre(p: Platform, conns: seq<Conn>, valid: seq<nat>, max: nat, parts: Parts)
    requires |valid| <= max && Ascending(valid) && SplitReady(valid, max) && parts.Are(conns, valid)
    ensures Fit(parts, p, conns, valid, max)
  {
    GroupIs(Valid24, p, conns, valid, max, parts);
    GroupIs(Valid5, p, conns, valid, max, parts);
    GroupIs(AnyConn, p, conns, valid, max, parts);
    GroupIs(Conn24, p, conns, valid, max, parts);
    GroupIs(Conn5, p, conns, valid, max, parts);
  }

  /** What each type asks for, most preferred first. */
  function AskedFor(pcl: PclType, parts: Parts): seq<Choice> {
    match pcl
    case PclNone | MaxPclType => []
    case Pcl24g => Tag(parts.low, 255)
    case Pcl5g => Tag(parts.high, 255)
    case SccCh | MccCh => Tag(parts.conns, 255)
    case SccCh24g | MccCh24g => Tag(parts.conns, 255) + Tag(parts.low, 235)
    case SccCh5g | MccCh5g => Tag(parts.conns, 255) + Tag(parts.high, 235)
    case Pcl24gSccCh | Pcl24gMccCh => Tag(parts.low, 255) + Tag(parts.conns, 235)
    case Pcl5gSccCh | Pcl5gMccCh => Tag(parts.high, 255) + Tag(parts.conns, 235)
    case SccOn24SccOn5 => Tag(parts.on24, 255) + Tag(parts.on5, 235)
    case SccOn5SccOn24 => Tag(parts.on5, 255) + Tag(parts.on24, 235)
    case SccOn24SccOn5With24g => Tag(parts.on24, 255) + Tag(parts.on5, 235) + Tag(parts.low, 215)
    case SccOn24SccOn5With5g => Tag(parts.on24, 255) + Tag(parts.on5, 235) + Tag(parts.high, 215)
    case SccOn5SccOn24With24g => Tag(parts.on5, 255) + Tag(parts.on24, 235) + Tag(parts.low, 215)
    case SccOn5SccOn24With5g => Tag(parts.on5, 255) + Tag(parts.on24, 235) + Tag(parts.high, 215)
  }

  lemma OneGroupAsked(pcl: PclType, p: Platform, conns: seq<Conn>, valid: seq<nat>, max: nat, parts: Parts)
    requires pcl == Pcl24g || pcl == Pcl5g || pcl == SccCh || pcl == MccCh
    requires |valid| <= max && Fit(parts, p, conns, valid, max)
    ensures Ranked(GroupsOf(pcl), p, false, conns, valid, max) == AskedFor(pcl, parts)
  {
    match pcl
    case Pcl24g =>
      AskedByOne(pcl, Valid24, p, conns, valid, max, parts.low);
    case Pcl5g =>
      AskedByOne(pcl, Valid5, p, conns, valid, max, parts.high);
    case SccCh | MccCh =>
      AskedByOne(pcl, AnyConn, p, conns, valid, max, parts.conns);
  }

  lemma TwoGroupsAsked(pcl: PclType, p: Platform, conns: seq<Conn>, valid: seq<nat>, max: nat, parts: Parts)
    requires pcl in {SccCh24g, MccCh24g, SccCh5g, MccCh5g, Pcl24gSccCh, Pcl24gMccCh, Pcl5gSccCh, Pcl5gMccCh}
    requires |valid| <= max && Fit(parts, p, conns, valid, max)
    ensures Ranked(GroupsOf(pcl), p, false, conns, valid, max) == AskedFor(pcl, parts)
  {
    match pcl
    case SccCh24g | MccCh24g =>
      AskedByTwo(pcl, AnyConn, Valid24, p, conns, valid, max, parts.conns, parts.low);
    case SccCh5g | MccCh5g =>
      AskedByTwo(pcl, AnyConn, Valid5, p, conns, valid, max, parts.conns, parts.high);
    case Pcl24gSccCh | Pcl24gMccCh =>
      AskedByTwo(pcl, Valid24, AnyConn, p, conns, valid, max, parts.low, parts.conns);
    case Pcl5gSccCh | Pcl5gMccCh =>
      AskedByTwo(pcl, Valid5, AnyConn, p, conns, valid, max, parts.high, parts.conns);
  }

  lemma BandsAsked(pcl: PclType, p: Platform, conns: seq<Conn>, valid: seq<nat>, max: nat, parts: Parts)
    requires pcl == SccOn24SccOn5 || pcl == SccOn5SccOn24
    requires |valid| <= max && Fit(parts, p, conns, valid, max)
    ensures Ranked(GroupsOf(pcl), p, false, conns, valid, max) == AskedFor(pcl, parts)
  {
    match pcl
    case SccOn24SccOn5 =>
      AskedByTwo(pcl, Conn24, Conn5, p, conns, valid, max, parts.on24, parts.on5);
    case SccOn5SccOn24 =>
      AskedByTwo(pcl, Conn5, Conn24, p, conns, valid, max, parts.on5, parts.on24);
  }

  lemma ThreeGroupsAsked(pcl: PclType, p: Platform, conns: seq<Conn>, valid: seq<nat>, max: nat, parts: Parts)
    requires || pcl == SccOn24SccOn5With24g || pcl == SccOn24SccOn5With5g
             || pcl == SccOn5SccOn24With24g || pcl == SccOn5SccOn24With5g
    requires |valid| <= max && Fit(parts, p, conns, valid, max)
    ensures Ranked(GroupsOf(pcl), p, false, conns, valid, max) == AskedFor(pcl, parts)
  {
    match pcl
    case SccOn24SccOn5With24g =>
      AskedByThree(pcl, Conn24, Conn5, Valid24, p, conns, valid, max, parts.on24, parts.on5, parts.low);
    case SccOn24SccOn5With5g =>
      AskedByThree(pcl, Conn24, Conn5, Valid5, p, conns, valid, max, parts.on24, parts.on5, parts.high);
    case SccOn5SccOn24With24g =>
      AskedByThree(pcl, Conn5, Conn24, Valid24, p, conns, valid, max, parts.on5, parts.on24, parts.low);
    case SccOn5SccOn24With5g =>
      AskedByThree(pcl, Conn5, Conn24, Valid5, p, conns, valid, max, parts.on5, parts.on24, parts.high);
  }

  lemma GroupsAskFor(pcl: PclType, p: Platform, conns: seq<Conn>, valid: seq<nat>, max: nat, parts: Parts)
    requires |valid| <= max && Ascending(valid) && SplitReady(valid, max) && parts.Are(conns, valid)
    ensures Ranked(GroupsOf(pcl), p, false, conns, valid, max) == AskedFor(pcl, parts)
  {
    GroupsAre(p, conns, valid, max, parts);
    match pcl
    case PclNone | MaxPclType =>
    case Pcl24g | Pcl5g | SccCh | MccCh => OneGroupAsked(pcl, p, conns, valid, max, parts);
    case SccOn24SccOn5 | SccOn5SccOn24 => BandsAsked(pcl, p, conns, valid, max, parts);
    case SccOn24SccOn5With24g | SccOn24SccOn5With5g | SccOn5SccOn24With24g | SccOn5SccOn24With5g =>
      ThreeGroupsAsked(pcl, p, conns, valid, max, parts);
    case _ => TwoGroupsAsked(pcl, p, conns, valid, max, parts);
  }

  /** What is left of a list: no DFS channel for a SAP or GO beside a STA, at most cap
      entries of those, and of these neither unsafe channels, nor channels outside the
      mandatory set of a SAP, nor channels that are not enabled for a GO. */
  ghost function Trimmed(all: seq<Choice>, p: Platform, env: Env, conns: seq<Conn>, mode: Mode, cap: nat): seq<Choice> {
    var sta := exists i :: 0 <= i < |conns| && conns[i].mode == Sta;
    var rest := Filter(all, (c: Choice) => !((mode == Sap || mode == P2pGo) && sta && c.chan in p.dfs));
    var cut := if cap < |rest| then rest[..cap] else rest;
    Filter(cut, (c: Choice) =>
      && c.chan !in env.unsafeChans
      && (mode == Sap && env.mandatory != [] ==> c.chan in env.mandatory)
      && (mode == P2pGo ==> c.chan in p.enabled))
  }

  lemma SkipsDfsSame(all: seq<Choice>, p: Platform, conns: seq<Conn>, mode: Mode)
    ensures var sta := exists i :: 0 <= i < |conns| && conns[i].mode == Sta;
            Filter(all, ByChannel(NonDfs(p, SkipsDfs(conns, mode))))
            == Filter(all, (c: Choice) => !((mode == Sap || mode == P2pGo) && sta && c.chan in p.dfs))
  {
    CountPositive(conns, Sta);
    var sta := exists i :: 0 <= i < |conns| && conns[i].mode == Sta;
    FilterSame(all, ByChannel(NonDfs(p, SkipsDfs(conns, mode))),
               (c: Choice) => !((mode == Sap || mode == P2pGo) && sta && c.chan in p.dfs));
  }

  lemma AcceptsSame(cut: seq<Choice>, p: Platform, env: Env, mode: Mode)
    ensures Filter(cut, ByChannel(SafeAndAccepted(p, env, mode)))
            == Filter(cut, (c: Choice) =>
                 && c.chan !in env.unsafeChans
                 && (mode == Sap && env.mandatory != [] ==> c.chan in env.mandatory)
                 && (mode == P2pGo ==> c.chan in p.enabled))
  {
    var usable := (c: Choice) =>
      && c.chan !in env.unsafeChans
      && (mode == Sap && env.mandatory != [] ==> c.chan in env.mandatory)
      && (mode == P2pGo ==> c.chan in p.enabled);
    forall i | 0 <= i < |cut| ensures ByChannel(SafeAndAccepted(p, env, mode))(cut[i]) == usable(cut[i]) {
      assert SafeAndAccepted(p, env, mode)(cut[i].chan)
          == (Safe(env)(cut[i].chan) && AcceptedBy(p, env, mode)(cut[i].chan));
    }
    FilterSame(cut, ByChannel(SafeAndAccepted(p, env, mode)), usable);
  }

  lemma TrimmedIs(all: seq<Choice>, p: Platform, env: Env, conns: seq<Conn>, mode: Mode, cap: nat)
    ensures Filter(Take(cap, Filter(all, ByChannel(NonDfs(p, SkipsDfs(conns, mode))))),
                   ByChannel(SafeAndAccepted(p, env, mode)))
            == Trimmed(all, p, env, conns, mode, cap)
  {
    SkipsDfsSame(all, p, conns, mode);
    AcceptsSame(Take(cap, Filter(all, ByChannel(NonDfs(p, SkipsDfs(conns, mode))))), p, env, mode);
  }

  lemma ResultIsTrimmed(p: Platform, env: Env, conns: seq<Conn>, mode: Mode, max: nat, cap: nat, given: seq<Choice>)
    requires PclAvailable(p, env, conns, mode) && PclTypeFor(p, conns, mode).value != PclNone
    requires |env.validChans.value| <= max
    requires forall chan :: chan in p.dfs ==> 36 <= chan <= 184
    ensures var all := Ranked(GroupsOf(PclTypeFor(p, conns, mode).value), p, false, conns, env.validChans.value, max);
            PclResult(p, env, conns, mode, max, cap, given) == Trimmed(all, p, env, conns, mode, cap)
  {
    PclIsFiltered(p, env, conns, mode, max, cap, given);
    TrimmedIs(Ranked(GroupsOf(PclTypeFor(p, conns, mode).value), p, false, conns, env.validChans.value, max),
              p, env, conns, mode, cap);
  }

  /** The list of cds_get_pcl(), for every table, mode, preference and capacity, on
      ascending valid channels that the division by band gets right: what the type asks
      for, less what has to go. */
  lemma PclIs(p: Platform, env: Env, conns: seq<Conn>, mode: Mode, max: nat, cap: nat, given: seq<Choice>,
              parts: Parts)
    requires PclAvailable(p, env, conns, mode) && PclTypeFor(p, conns, mode).value != PclNone
    requires var valid := env.validChans.value;
             |valid| <= max && Ascending(valid) && SplitReady(valid, max) && parts.Are(conns, valid)
    requires forall chan :: chan in p.dfs ==> 36 <= chan <= 184
    ensures PclResult(p, env, conns, mode, max, cap, given)
            == Trimmed(AskedFor(PclTypeFor(p, conns, mode).value, parts), p, env, conns, mode, cap)
  {
    ResultIsTrimmed(p, env, conns, mode, max, cap, given);
    GroupsAskFor(PclTypeFor(p, conns, mode).value, p, conns, env.validChans.value, max, parts);
  }

  /** With nothing to leave out, the list is all of that. */
  lemma PclIsAskedFor(p: Platform, env: Env, conns: seq<Conn>, mode: Mode, max: nat, cap: nat, given: seq<Choice>,
                      parts: Parts)
    requires PclAvailable(p, env, conns, mode) && PclTypeFor(p, conns, mode).value != PclNone
    requires var valid := env.validChans.value;
             |valid| <= max && Ascending(valid) && SplitReady(valid, max) && parts.Are(conns, valid)
    requires p.dfs == {} && env.unsafeChans == [] && env.mandatory == [] && mode != P2pGo
    requires |AskedFor(PclTypeFor(p, conns, mode).value, parts)| <= cap
    ensures PclResult(p, env, conns, mode, max, cap, given) == AskedFor(PclTypeFor(p, conns, mode).value, parts)
  {
    var all := AskedFor(PclTypeFor(p, conns, mode).value, parts);
    PclIs(p, env, conns, mode, max, cap, given, parts);
    NothingTrimmed(all, p, env, conns, mode, cap);
  }

  lemma NothingTrimmed(all: seq<Choice>, p: Platform, env: Env, conns: seq<Conn>, mode: Mode, cap: nat)
    requires p.dfs == {} && env.unsafeChans == [] && env.mandatory == [] && mode != P2pGo && |all| <= cap
    ensures Trimmed(all, p, env, conns, mode, cap) == all
  {
    var sta := exists i :: 0 <= i < |conns| && conns[i].mode == Sta;
    FilterAll(all, (c: Choice) => !((mode == Sap || mode == P2pGo) && sta && c.chan in p.dfs));
    FilterAll(all, (c: Choice) =>
      && c.chan !in env.unsafeChans
      && (mode == Sap && env.mandatory != [] ==> c.chan in env.mandatory)
      && (mode == P2pGo ==> c.chan in p.enabled));
  }

  /** On DBS hardware with the throughput preference, beside a STA on 36: a second STA
      prefers 36, then the 2.4 GHz channels. */
  lemma SecondStaPrefers(p: Platform, env: Env, sta: Conn, given: seq<Choice>)
    requires p.dbsCapable && p.dfs == {} && p.systemPref == 0
    requires sta.mode == Sta && sta.chan == 36
    requires env.validChans == Some([1, 6, 11, 36, 149])
    requires env.unsafeChans == [] && env.mandatory == []
    ensures PclAvailable(p, env, [sta], Sta)
    ensures PclResult(p, env, [sta], Sta, 50, 50, given)
            == [Choice(36, 255), Choice(1, 235), Choice(6, 235), Choice(11, 235)]
  {
    var parts := Parts([36], [1, 6, 11], [36, 149], [], [36]);
    ExampleParts(sta, parts);
    ExampleType(p, sta);
    PclIsAskedFor(p, env, [sta], Sta, 50, 50, given, parts);
    ExampleList();
  }

  lemma ExampleType(p: Platform, sta: Conn)
    requires p.dbsCapable && p.systemPref == 0 && sta.mode == Sta && sta.chan == 36
    ensures PclTypeFor(p, [sta], Sta) == Some(SccCh24g)
  {
    TypeBesideOne(p, sta, Sta);
  }

  lemma ExampleParts(sta: Conn, parts: Parts)
    requires sta.chan == 36 && parts == Parts([36], [1, 6, 11], [36, 149], [], [36])
    ensures Ascending([1, 6, 11, 36, 149]) && SplitReady([1, 6, 11, 36, 149], 50)
    ensures parts.Are([sta], [1, 6, 11, 36, 149])
  {
    ExampleBands([1, 6, 11, 36, 149]);
    FilterNone<nat>([36], (chan: nat) => 1 <= chan <= 13);
    FilterAll<nat>([36], (chan: nat) => 36 <= chan <= 184);
  }

  lemma ExampleBands(valid: seq<nat>)
    requires valid == [1, 6, 11, 36, 149]
    ensures Ascending(valid) && SplitReady(valid, 50)
    ensures Filter(valid, (chan: nat) => chan <= 14) == [1, 6, 11]
    ensures Filter(valid, (chan: nat) => chan > 14) == [36, 149]
  {
    ExampleIsReady(valid);
    FilterHead(valid, 3, (chan: nat) => chan <= 14);
    FilterTail(valid, 3, (chan: nat) => chan > 14);
    assert valid[..3] == [1, 6, 11] && valid[3..] == [36, 149];
  }

  lemma ExampleIsReady(valid: seq<nat>)
    requires valid == [1, 6, 11, 36, 149]
    ensures Ascending(valid) && SplitReady(valid, 50)
  {
    assert valid[3] > 11;
  }

  lemma ExampleList()
    ensures Tag([36], 255) + Tag([1, 6, 11], 235)
            == [Choice(36, 255), Choice(1, 235), Choice(6, 235), Choice(11, 235)]
  {
  }

  /** Without a type there is no list: what the buffers held stays, but for the channels
      that a SAP or GO may not use. */
  lemma NoTypeKeepsGiven(p: Platform, env: Env, conns: seq<Conn>, mode: Mode, max: nat, cap: nat, given: seq<Choice>)
    requires PclAvailable(p, env, conns, mode) && PclTypeFor(p, conns, mode) == Some(PclNone)
    requires env.validChans.Some? ==> |env.validChans.value| <= max
    ensures PclResult(p, env, conns, mode, max, cap, given)
            == Filter(given, (c: Choice) =>
                 && (mode == Sap && env.mandatory != [] ==> c.chan in env.mandatory)
                 && (mode == P2pGo ==> c.chan in p.enabled))
  {
    FilterSame(given, ByChannel(AcceptedBy(p, env, mode)), (c: Choice) =>
      && (mode == Sap && env.mandatory != [] ==> c.chan in env.mandatory)
      && (mode == P2pGo ==> c.chan in p.enabled));
  }
}
