/** Hardware mode decisions: when a new connection makes the radio switch to DBS. */
module HwModes {
  import opened ConnTypes
  import opened PclTables
  import opened ConnTableSpec
  import opened ConnTables
  import opened Sequences
  import opened Wrappers

  datatype Status = Success | Failure | NoSupport | Already

  /** A request that leaves the policy manager. */
  datatype Request =
    | NssUpdate(vdevId: nat, nss: nat, next: NextAction)
    | SetHwMode(dbs: bool)

  // -------------------------------------------------------------- specification

  /** NSS updates for the beaconing entities of one mode that started with 2x2. */
  function ModeRequests(conns: seq<Conn>, mode: Mode, nss: nat, next: NextAction): seq<Request> {
    if conns == [] then []
    else
      var n := |conns| - 1;
      var r := ModeRequests(conns[..n], mode, nss, next);
      if conns[n].mode == mode then r + WideRequest(conns[n], nss, next) else r
  }

  function WideRequest(c: Conn, nss: nat, next: NextAction): seq<Request> {
    if c.originalNss == 2 then [NssUpdate(c.vdevId, nss, next)] else []
  }

  function BeaconRequests(conns: seq<Conn>, nss: nat, next: NextAction): seq<Request> {
    ModeRequests(conns, P2pGo, nss, next) + ModeRequests(conns, Sap, nss, next)
  }

  /** NSS updates first; the mode change itself only if the last of them was refused
      or there was none. The n-th request ever sent is answered by answers(n). */
  function Completed(conns: seq<Conn>, nss: nat, next: NextAction, answers: nat -> bool, at: nat):
    (seq<Request>, Status)
  {
    var b := BeaconRequests(conns, nss, next);
    if |b| > 0 && answers(at + |b| - 1) then (b, Success)
    else (b + [SetHwMode(next == ToDbs)], if answers(at + |b|) then Success else Failure)
  }

  /** Requests and status of cds_next_actions(); hw is None if WMA cannot tell the
      current mode, else whether it is DBS. */
  function NextActionsResult(p: Platform, conns: seq<Conn>, hw: Option<bool>, action: NextAction,
                             answers: nat -> bool, at: nat): (seq<Request>, Status) {
    if !p.dbsCapable then ([], NoSupport)
    else if hw.None? then ([], Failure)
    else if (action == ToDbs || action == ToDbsDowngrade) && hw.value then ([], Already)
    else match action
         case ToDbs => ([SetHwMode(true)], if answers(at) then Success else Failure)
         case ToSingleMac => ([SetHwMode(false)], if answers(at) then Success else Failure)
         case ToDbsDowngrade => Completed(conns, 1, ToDbs, answers, at)
         case ToSingleMacUpgrade =>
           var (rest, status) := Completed(conns, 2, ToSingleMac, answers, at + 1);
           ([SetHwMode(false)] + rest, status)
         case Nop => ([], Failure)
  }

  /** The table lookup for a new channel; None if two connections form no known pair. */
  function TableDecision(conns: seq<Conn>, chan: nat): Option<NextAction> {
    if |conns| == 1 then Some(NextActionTwoTable(OneConnIndex(conns[0]), Is24(chan)))
    else if |conns| == 2 then
      match TwoConnIndex(conns[0], conns[1])
      case None => None
      case Some(row) => Some(NextActionThreeTable(row, Is24(chan)))
    else Some(Nop)
  }

  function UpdateResult(p: Platform, conns: seq<Conn>, hw: Option<bool>, chan: nat, answers: nat -> bool, at: nat):
    (seq<Request>, Status)
  {
    if !p.dbsCapable then ([], NoSupport)
    else match TableDecision(conns, chan)
         case None => ([], Failure)
         case Some(Nop) => ([], NoSupport)
         case Some(action) => NextActionsResult(p, conns, hw, action, answers, at)
  }

  /** cds_chan_to_band(): up to channel 14 is 2.4 GHz. */
  predicate LowBand(chan: nat) {
    chan <= 14
  }

  ghost predicate OneBand(conns: seq<Conn>) {
    forall i, j :: 0 <= i < j < |conns| ==> LowBand(conns[i].chan) == LowBand(conns[j].chan)
  }

  /** The preferred mode for the current table: DBS exactly when both bands are in use. */
  ghost function PreferredMode(conns: seq<Conn>, hw: Option<bool>): NextAction {
    if hw.None? || |conns| < 2 then Nop
    else if OneBand(conns) && hw.value then ToSingleMacUpgrade
    else if !OneBand(conns) && !hw.value then ToDbsDowngrade
    else Nop
  }

  // ----------------------------------------------------------------- properties

  /** Channels of the regulatory map lie in one of the two bands. */
  predicate OnPlan(chan: nat) {
    Is24(chan) || Is5(chan)
  }

  predicate IsDbsRequest(r: Request) {
    match r
    case NssUpdate(_, nss, next) => nss == 1 && next == ToDbs
    case SetHwMode(dbs) => dbs
  }

  lemma {:induction false} ModeRequestsAreDbs(conns: seq<Conn>, mode: Mode)
    ensures forall i :: 0 <= i < |ModeRequests(conns, mode, 1, ToDbs)| ==>
              IsDbsRequest(ModeRequests(conns, mode, 1, ToDbs)[i])
    decreases |conns|
  {
    if conns != [] {
      ModeRequestsAreDbs(conns[..|conns| - 1], mode);
    }
  }

  lemma DbsActionProceeds(p: Platform, conns: seq<Conn>, action: NextAction, answers: nat -> bool, at: nat)
    requires p.dbsCapable && (action == ToDbs || action == ToDbsDowngrade)
    ensures var reqs := NextActionsResult(p, conns, Some(false), action, answers, at).0;
            reqs != [] && forall i :: 0 <= i < |reqs| ==> IsDbsRequest(reqs[i])
  {
    ModeRequestsAreDbs(conns, P2pGo);
    ModeRequestsAreDbs(conns, Sap);
  }

  /** A classifiable table of one or two connections. */
  predicate Classifiable(conns: seq<Conn>) {
    |conns| == 1 || (|conns| == 2 && PairOf(conns[0].mode, conns[1].mode).Some?)
  }

  ghost predicate SharesMac(conns: seq<Conn>) {
    forall i, j :: 0 <= i < j < |conns| ==> conns[i].mac == conns[j].mac
  }

  ghost predicate AllOnPlan(conns: seq<Conn>) {
    forall i :: 0 <= i < |conns| ==> OnPlan(conns[i].chan)
  }

  /** The tables ask for DBS exactly when old and new channels span both bands. */
  lemma TableMeansBothBands(conns: seq<Conn>, c: Conn)
    requires Classifiable(conns) && AllOnPlan(conns) && OnPlan(c.chan) && SharesMac(conns)
    ensures TableDecision(conns, c.chan).Some?
    ensures var action := TableDecision(conns, c.chan).value;
            && (action == Nop || action == ToDbs || action == ToDbsDowngrade)
            && (action != Nop <==> !OneBand(conns + [c]))
  {
    var all := conns + [c];
    assert all[..|conns|] == conns;
    if |conns| == 1 {
      assert OneBand(all) <==> LowBand(all[0].chan) == LowBand(all[1].chan);
    } else {
      assert OneBand(all) <==>
             LowBand(all[0].chan) == LowBand(all[1].chan) && LowBand(all[1].chan) == LowBand(all[2].chan);
    }
  }

  /** A new connection starts the move to DBS exactly when the hardware is not in DBS
      and the bands differ, which is also when the preferred mode of the extended
      table is DBS. Everything sent on the way is part of the move to DBS. */
  lemma DbsExactlyWhenBandsSpan(p: Platform, conns: seq<Conn>, c: Conn, dbsNow: bool, answers: nat -> bool, at: nat)
    requires p.dbsCapable && Classifiable(conns) && AllOnPlan(conns) && OnPlan(c.chan)
    requires !dbsNow ==> SharesMac(conns)
    ensures var reqs := UpdateResult(p, conns, Some(dbsNow), c.chan, answers, at).0;
            && (reqs != [] <==> !dbsNow && !OneBand(conns + [c]))
            && (reqs != [] <==> PreferredMode(conns + [c], Some(dbsNow)) == ToDbsDowngrade)
            && forall i :: 0 <= i < |reqs| ==> IsDbsRequest(reqs[i])
  {
    if !dbsNow {
      TableMeansBothBands(conns, c);
      var action := TableDecision(conns, c.chan).value;
      if action != Nop {
        DbsActionProceeds(p, conns, action, answers, at);
      }
    }
  }

  // ------------------------------------------------------------------------ status

  /** The status is that of the last request sent; if none is sent it says why. */
  lemma ActionStatus(p: Platform, conns: seq<Conn>, hw: Option<bool>, action: NextAction, answers: nat -> bool, at: nat)
    ensures var (reqs, status) := NextActionsResult(p, conns, hw, action, answers, at);
            var moved := hw == Some(true) && (action == ToDbs || action == ToDbsDowngrade);
            && (reqs != [] <==> p.dbsCapable && hw.Some? && action != Nop && !moved)
            && (reqs != [] ==> status == if answers(at + |reqs| - 1) then Success else Failure)
            && (reqs == [] ==>
                  status == if !p.dbsCapable then NoSupport else if moved then Already else Failure)
  {
  }

  /** Two connections have a row exactly if their modes differ and neither is IBSS. */
  predicate HasRow(conns: seq<Conn>) {
    |conns| == 2 ==> conns[0].mode != conns[1].mode && conns[0].mode != Ibss && conns[1].mode != Ibss
  }

  /** The new channel needs the other band: beside one connection; beside two on one MAC,
      whatever the new channel if they are in different bands; never beside two MACs. */
  predicate NeedsOtherBand(conns: seq<Conn>, chan: nat) {
    var new24 := 1 <= chan <= 13;
    if |conns| == 1 then (1 <= conns[0].chan <= 13) != new24
    else if |conns| == 2 then
      var (a, b) := (conns[0].chan, conns[1].chan);
      if a == b then (1 <= a <= 13) != new24
      else
        && conns[0].mac == conns[1].mac
        && (1 <= a <= 13 && 1 <= b <= 13 ==> !new24)
        && (36 <= a <= 184 && 36 <= b <= 184 ==> new24)
    else false
  }

  lemma DecisionIs(conns: seq<Conn>, chan: nat)
    ensures TableDecision(conns, chan).None? <==> !HasRow(conns)
    ensures HasRow(conns) ==>
              TableDecision(conns, chan)
              == Some(if !NeedsOtherBand(conns, chan) then Nop
                      else if conns[0].chain == OneOne then ToDbs else ToDbsDowngrade)
  {
  }

  /** Whether a new channel sends anything, and the status: Success if and only if something
      was sent and the last of it accepted; if nothing was sent the status says why. */
  lemma UpdateStatus(p: Platform, conns: seq<Conn>, hw: Option<bool>, chan: nat, answers: nat -> bool, at: nat)
    ensures var (reqs, status) := UpdateResult(p, conns, hw, chan, answers, at);
            var due := HasRow(conns) && NeedsOtherBand(conns, chan);
            && (reqs != [] <==> p.dbsCapable && due && hw == Some(false))
            && (status == Success <==> reqs != [] && answers(at + |reqs| - 1))
            && (status == NoSupport <==> !p.dbsCapable || (HasRow(conns) && !due))
            && (status == Already <==> p.dbsCapable && due && hw == Some(true))
            && (status == Failure <==>
                  p.dbsCapable && (!HasRow(conns) || (due && hw == None) || (reqs != [] && !answers(at + |reqs| - 1))))
  {
    DecisionIs(conns, chan);
    if HasRow(conns) && NeedsOtherBand(conns, chan) {
      ActionStatus(p, conns, hw, TableDecision(conns, chan).value, answers, at);
    }
  }

  /** What is sent: the mode change alone if the first connection is 1x1, else the updates,
      and the mode change if there is none or the last of them is refused. */
  lemma UpdateSends(p: Platform, conns: seq<Conn>, chan: nat, updates: seq<Request>, answers: nat -> bool, at: nat)
    requires p.dbsCapable && HasRow(conns) && NeedsOtherBand(conns, chan)
    requires updates == BeaconRequests(conns, 1, ToDbs)
    ensures UpdateResult(p, conns, Some(false), chan, answers, at).0
            == if conns[0].chain == OneOne then [SetHwMode(true)]
               else if updates != [] && answers(at + |updates| - 1) then updates
               else updates + [SetHwMode(true)]
  {
    DecisionIs(conns, chan);
  }

  /** The updates in order: the 2x2 GOs of the table before its 2x2 SAPs. */
  lemma GosBeforeSaps(conns: seq<Conn>, nss: nat, next: NextAction, gos: seq<Conn>, saps: seq<Conn>)
    requires gos == Filter(conns, (c: Conn) => c.mode == P2pGo && c.originalNss == 2)
    requires saps == Filter(conns, (c: Conn) => c.mode == Sap && c.originalNss == 2)
    ensures var r := BeaconRequests(conns, nss, next);
            && |r| == |gos| + |saps|
            && (forall i :: 0 <= i < |gos| ==> r[i] == NssUpdate(gos[i].vdevId, nss, next))
            && (forall i :: 0 <= i < |saps| ==> r[|gos| + i] == NssUpdate(saps[i].vdevId, nss, next))
  {
    WideOfMode(conns, P2pGo, nss, next);
    WideOfMode(conns, Sap, nss, next);
    FilterSame(conns, (c: Conn) => c.mode == P2pGo && c.originalNss == 2, IsWide(P2pGo));
    FilterSame(conns, (c: Conn) => c.mode == Sap && c.originalNss == 2, IsWide(Sap));
  }

  function IsWide(mode: Mode): Conn -> bool {
    (c: Conn) => c.mode == mode && c.originalNss == 2
  }

  lemma {:induction false} WideOfMode(conns: seq<Conn>, mode: Mode, nss: nat, next: NextAction)
    ensures var (r, wide) := (ModeRequests(conns, mode, nss, next), Filter(conns, IsWide(mode)));
            |r| == |wide| && forall i :: 0 <= i < |wide| ==> r[i] == NssUpdate(wide[i].vdevId, nss, next)
    decreases |conns|
  {
    if conns != [] {
      WideOfMode(conns[..|conns| - 1], mode, nss, next);
    }
  }

  /** From what is known about a vdev to what its neighbour's channel makes the radio do:
      NSS above 1 in its own band means a downgrade first, and for a SAP or GO with NSS 2
      an update to NSS 1. */
  lemma WideVdevIsDowngraded(p: Platform, info: VdevInfo, vdevId: nat, c: Conn, chan: nat, answers: nat -> bool,
                             at: nat)
    requires p.dbsCapable && info.nss.Some? && Describes(c, info, vdevId)
    requires 1 <= info.chan <= 13 || 36 <= info.chan <= 184
    requires (1 <= info.chan <= 13) != (1 <= chan <= 13)
    ensures var nss := if 1 <= info.chan <= 13 then info.nss.value.0 else info.nss.value.1;
            var reqs := UpdateResult(p, [c], Some(false), chan, answers, at).0;
            if nss == 2 && (info.mode == Sap || info.mode == P2pGo) then
              reqs == [NssUpdate(vdevId, 1, ToDbs)] + if answers(at) then [] else [SetHwMode(true)]
            else reqs == [SetHwMode(true)]
  {
    OneUpdate(c, 1, ToDbs);
    UpdateSends(p, [c], chan, BeaconRequests([c], 1, ToDbs), answers, at);
  }

  lemma OneUpdate(c: Conn, nss: nat, next: NextAction)
    ensures BeaconRequests([c], nss, next)
            == if c.originalNss == 2 && (c.mode == P2pGo || c.mode == Sap) then [NssUpdate(c.vdevId, nss, next)] else []
  {
    OneOfMode(c, P2pGo, nss, next);
    OneOfMode(c, Sap, nss, next);
  }

  lemma OneOfMode(c: Conn, mode: Mode, nss: nat, next: NextAction)
    ensures ModeRequests([c], mode, nss, next) == if c.mode == mode then WideRequest(c, nss, next) else []
  {
    assert [c][..0] == [] && ModeRequests([c][..0], mode, nss, next) == [];
  }

  // --------------------------------------------------------------- preferred mode

  /** The preferred mode, by channels up to 14 and above. */
  lemma PreferredModeIs(conns: seq<Conn>, hw: Option<bool>)
    ensures var low := exists i :: 0 <= i < |conns| && conns[i].chan <= 14;
            var high := exists i :: 0 <= i < |conns| && conns[i].chan > 14;
            && (PreferredMode(conns, hw) == ToSingleMacUpgrade <==> hw == Some(true) && |conns| >= 2 && !(low && high))
            && (PreferredMode(conns, hw) == ToDbsDowngrade <==> hw == Some(false) && low && high)
            && (PreferredMode(conns, hw) in {Nop, ToSingleMacUpgrade, ToDbsDowngrade})
  {
    BandsInUse(conns);
  }

  lemma BandsInUse(conns: seq<Conn>)
    ensures OneBand(conns) <==>
            || (forall i :: 0 <= i < |conns| ==> conns[i].chan > 14)
            || (forall i :: 0 <= i < |conns| ==> conns[i].chan <= 14)
    ensures !OneBand(conns) ==> |conns| >= 2
  {
    if OneBand(conns) && exists i :: 0 <= i < |conns| && conns[i].chan <= 14 {
      var i :| 0 <= i < |conns| && conns[i].chan <= 14;
      forall j | 0 <= j < |conns| ensures conns[j].chan <= 14 {
        assert i < j || j < i || i == j;
        assert LowBand(conns[i].chan) == LowBand(conns[j].chan);
      }
    }
  }

  // ------------------------------------------------- how often the mode is changed

  /** Number of mode changes of one kind among the requests. */
  function ModeChanges(reqs: seq<Request>, dbs: bool): nat
    decreases |reqs|
  {
    if reqs == [] then 0
    else
      var n := |reqs| - 1;
      ModeChanges(reqs[..n], dbs) + if reqs[n] == SetHwMode(dbs) then 1 else 0
  }

  lemma {:induction false} ModeChangesConcat(a: seq<Request>, b: seq<Request>, dbs: bool)
    ensures ModeChanges(a + b, dbs) == ModeChanges(a, dbs) + ModeChanges(b, dbs)
    decreases |b|
  {
    if b == [] {
      assert a + b == a;
    } else {
      var n := |b| - 1;
      ModeChangesConcat(a, b[..n], dbs);
      assert (a + b)[..|a| + n] == a + b[..n];
    }
  }

  lemma {:induction false} UpdatesChangeNothing(reqs: seq<Request>, dbs: bool)
    requires forall i :: 0 <= i < |reqs| ==> reqs[i].NssUpdate?
    ensures ModeChanges(reqs, dbs) == 0
    decreases |reqs|
  {
    if reqs != [] {
      UpdatesChangeNothing(reqs[..|reqs| - 1], dbs);
    }
  }

  lemma {:induction false} ModeRequestsAre(conns: seq<Conn>, mode: Mode, nss: nat, next: NextAction)
    ensures forall i :: 0 <= i < |ModeRequests(conns, mode, nss, next)| ==>
              var r := ModeRequests(conns, mode, nss, next)[i];
              r.NssUpdate? && r.nss == nss && r.next == next && FindVdev(conns, r.vdevId) < |conns|
    decreases |conns|
  {
    if conns != [] {
      var n := |conns| - 1;
      ModeRequestsAre(conns[..n], mode, nss, next);
      forall v | FindVdev(conns[..n], v) < n ensures FindVdev(conns, v) < |conns| {
        assert conns[..n][FindVdev(conns[..n], v)] == conns[FindVdev(conns[..n], v)];
      }
    }
  }

  lemma BeaconRequestsAre(conns: seq<Conn>, nss: nat, next: NextAction)
    ensures forall i :: 0 <= i < |BeaconRequests(conns, nss, next)| ==>
              var r := BeaconRequests(conns, nss, next)[i];
              r.NssUpdate? && r.nss == nss && r.next == next && FindVdev(conns, r.vdevId) < |conns|
  {
    ModeRequestsAre(conns, P2pGo, nss, next);
    ModeRequestsAre(conns, Sap, nss, next);
  }

  predicate IsSingleMacRequest(r: Request) {
    match r
    case NssUpdate(_, nss, next) => nss == 2 && next == ToSingleMac
    case SetHwMode(dbs) => !dbs
  }

  lemma OneChange(dbs: bool)
    ensures ModeChanges([SetHwMode(dbs)], dbs) == 1
  {
    assert [SetHwMode(dbs)][..0] == [];
  }

  lemma AddChange(sent: seq<Request>, dbs: bool)
    ensures ModeChanges(sent + [SetHwMode(dbs)], dbs) == ModeChanges(sent, dbs) + 1
    ensures sent + [] == sent
  {
    assert (sent + [SetHwMode(dbs)])[..|sent|] == sent;
  }

  /** Updates, and the mode change unless the last of them was accepted. */
  function WithChange(updates: seq<Request>, dbs: bool, accepted: bool): seq<Request> {
    if updates != [] && accepted then updates else updates + [SetHwMode(dbs)]
  }

  lemma WithChangeCounts(updates: seq<Request>, dbs: bool, accepted: bool)
    requires forall i :: 0 <= i < |updates| ==> updates[i].NssUpdate?
    ensures ModeChanges(WithChange(updates, dbs, accepted), dbs) == if updates == [] || !accepted then 1 else 0
  {
    UpdatesChangeNothing(updates, dbs);
    OneChange(dbs);
    ModeChangesConcat(updates, [SetHwMode(dbs)], dbs);
  }

  lemma DowngradeIs(p: Platform, conns: seq<Conn>, updates: seq<Request>, answers: nat -> bool, at: nat)
    requires p.dbsCapable && updates == BeaconRequests(conns, 1, ToDbs)
    ensures NextActionsResult(p, conns, Some(false), ToDbsDowngrade, answers, at).0
            == WithChange(updates, true, updates != [] && answers(at + |updates| - 1))
  {
  }

  lemma UpgradeIs(p: Platform, conns: seq<Conn>, hw: bool, updates: seq<Request>, answers: nat -> bool, at: nat)
    requires p.dbsCapable && updates == BeaconRequests(conns, 2, ToSingleMac)
    ensures NextActionsResult(p, conns, Some(hw), ToSingleMacUpgrade, answers, at).0
            == [SetHwMode(false)] + WithChange(updates, false, answers(at + |updates|))
  {
  }

  /** Everything sent at once for an upgrade belongs to the move to a single MAC. */
  lemma UpgradeRequests(p: Platform, conns: seq<Conn>, hw: bool, updates: seq<Request>, answers: nat -> bool, at: nat)
    requires p.dbsCapable && updates == BeaconRequests(conns, 2, ToSingleMac)
    ensures var reqs := NextActionsResult(p, conns, Some(hw), ToSingleMacUpgrade, answers, at).0;
            forall i :: 0 <= i < |reqs| ==> IsSingleMacRequest(reqs[i])
  {
    BeaconRequestsAre(conns, 2, ToSingleMac);
    UpgradeIs(p, conns, hw, updates, answers, at);
  }

  /** A report that an update is through, and the hardware mode at that time. */
  datatype Report = Report(vdevId: nat, hw: Option<bool>)

  /** What the callbacks send, one after the other. */
  function ReportRequests(p: Platform, conns: seq<Conn>, reports: seq<Report>, next: NextAction, answers: nat -> bool,
                          at: nat): seq<Request>
    decreases |reports|
  {
    if reports == [] then []
    else
      var n := |reports| - 1;
      var sent := ReportRequests(p, conns, reports[..n], next, answers, at);
      sent + if FindVdev(conns, reports[n].vdevId) == |conns| then []
             else NextActionsResult(p, conns, reports[n].hw, next, answers, at + |sent|).0
  }

  /** Reports about live vdevs that come before the hardware is in DBS. */
  function EarlyReports(conns: seq<Conn>, reports: seq<Report>): nat
    decreases |reports|
  {
    if reports == [] then 0
    else
      var n := |reports| - 1;
      EarlyReports(conns, reports[..n])
      + if FindVdev(conns, reports[n].vdevId) < |conns| && reports[n].hw == Some(false) then 1 else 0
  }

  /** The change to DBS goes out once for each early report, and nothing else does. */
  lemma {:induction false} OneChangePerEarlyReport(p: Platform, conns: seq<Conn>, reports: seq<Report>,
                                                   answers: nat -> bool, at: nat)
    requires p.dbsCapable
    ensures var reqs := ReportRequests(p, conns, reports, ToDbs, answers, at);
            ModeChanges(reqs, true) == |reqs| == EarlyReports(conns, reports)
    decreases |reports|
  {
    if reports != [] {
      var n := |reports| - 1;
      OneChangePerEarlyReport(p, conns, reports[..n], answers, at);
      AddChange(ReportRequests(p, conns, reports[..n], ToDbs, answers, at), true);
    }
  }

  /** The reports of all updates, when they come before the mode has changed. */
  function AllReported(updates: seq<Request>): (r: seq<Report>)
    requires forall i :: 0 <= i < |updates| ==> updates[i].NssUpdate?
    ensures |r| == |updates|
    decreases |updates|
  {
    if updates == [] then []
    else
      var n := |updates| - 1;
      AllReported(updates[..n]) + [Report(updates[n].vdevId, Some(false))]
  }

  lemma {:induction false} AllReportsAreEarly(conns: seq<Conn>, updates: seq<Request>)
    requires forall i :: 0 <= i < |updates| ==> updates[i].NssUpdate? && FindVdev(conns, updates[i].vdevId) < |conns|
    ensures EarlyReports(conns, AllReported(updates)) == |updates|
    decreases |updates|
  {
    if updates != [] {
      var n := |updates| - 1;
      var reports := AllReported(updates);
      assert reports[..n] == AllReported(updates[..n]);
      AllReportsAreEarly(conns, updates[..n]);
    }
  }

  function WideCount(conns: seq<Conn>, mode: Mode): nat
    decreases |conns|
  {
    if conns == [] then 0
    else
      var n := |conns| - 1;
      WideCount(conns[..n], mode) + if conns[n].mode == mode && conns[n].originalNss == 2 then 1 else 0
  }

  /** One update for each 2x2 GO and SAP. */
  lemma {:induction false} UpdatesPerWideBeacon(conns: seq<Conn>, mode: Mode, nss: nat, next: NextAction)
    ensures |ModeRequests(conns, mode, nss, next)| == WideCount(conns, mode)
    decreases |conns|
  {
    if conns != [] {
      UpdatesPerWideBeacon(conns[..|conns| - 1], mode, nss, next);
    }
  }

  lemma BeaconUpdates(conns: seq<Conn>, updates: seq<Request>)
    requires updates == BeaconRequests(conns, 1, ToDbs)
    ensures forall i :: 0 <= i < |updates| ==> updates[i].NssUpdate? && FindVdev(conns, updates[i].vdevId) < |conns|
    ensures |updates| == WideCount(conns, P2pGo) + WideCount(conns, Sap)
  {
    BeaconRequestsAre(conns, 1, ToDbs);
    UpdatesPerWideBeacon(conns, P2pGo, 1, ToDbs);
    UpdatesPerWideBeacon(conns, Sap, 1, ToDbs);
  }

  /** Reports about live vdevs while the hardware mode can be told. */
  function ReadableReports(conns: seq<Conn>, reports: seq<Report>): nat
    decreases |reports|
  {
    if reports == [] then 0
    else
      var n := |reports| - 1;
      ReadableReports(conns, reports[..n])
      + if FindVdev(conns, reports[n].vdevId) < |conns| && reports[n].hw.Some? then 1 else 0
  }

  /** The change to a single MAC goes out once for each of them, and nothing else does. */
  lemma {:induction false} OneChangePerReadableReport(p: Platform, conns: seq<Conn>, reports: seq<Report>,
                                                      answers: nat -> bool, at: nat)
    requires p.dbsCapable
    ensures var reqs := ReportRequests(p, conns, reports, ToSingleMac, answers, at);
            ModeChanges(reqs, false) == |reqs| == ReadableReports(conns, reports)
    decreases |reports|
  {
    if reports != [] {
      var n := |reports| - 1;
      OneChangePerReadableReport(p, conns, reports[..n], answers, at);
      AddChange(ReportRequests(p, conns, reports[..n], ToSingleMac, answers, at), false);
    }
  }

  lemma DowngradeSends(p: Platform, conns: seq<Conn>, updates: seq<Request>, answers: nat -> bool, at: nat)
    requires p.dbsCapable && updates == BeaconRequests(conns, 1, ToDbs)
    ensures ModeChanges(NextActionsResult(p, conns, Some(false), ToDbsDowngrade, answers, at).0, true)
            == if updates == [] || !answers(at + |updates| - 1) then 1 else 0
  {
    DowngradeIs(p, conns, updates, answers, at);
    BeaconUpdates(conns, updates);
    WithChangeCounts(updates, true, updates != [] && answers(at + |updates| - 1));
  }

  lemma UpgradeSends(p: Platform, conns: seq<Conn>, hw: bool, updates: seq<Request>, answers: nat -> bool, at: nat)
    requires p.dbsCapable && updates == BeaconRequests(conns, 2, ToSingleMac)
    ensures ModeChanges(NextActionsResult(p, conns, Some(hw), ToSingleMacUpgrade, answers, at).0, false)
            == if updates == [] || !answers(at + |updates|) then 2 else 1
  {
    UpgradeIs(p, conns, hw, updates, answers, at);
    UpgradeUpdates(conns, updates);
    WithChangeCounts(updates, false, answers(at + |updates|));
    OneChange(false);
    ModeChangesConcat([SetHwMode(false)], WithChange(updates, false, answers(at + |updates|)), false);
  }

  lemma UpgradeUpdates(conns: seq<Conn>, updates: seq<Request>)
    requires updates == BeaconRequests(conns, 2, ToSingleMac)
    ensures forall i :: 0 <= i < |updates| ==> updates[i].NssUpdate?
  {
    BeaconRequestsAre(conns, 2, ToSingleMac);
  }

  /** What the reports of its updates add to an action. */
  lemma EarlyReportsAdd(p: Platform, conns: seq<Conn>, reqs: seq<Request>, later: seq<Request>, reports: seq<Report>,
                        answers: nat -> bool, at: nat)
    requires p.dbsCapable && later == ReportRequests(p, conns, reports, ToDbs, answers, at)
    ensures ModeChanges(reqs + later, true) == ModeChanges(reqs, true) + EarlyReports(conns, reports)
  {
    OneChangePerEarlyReport(p, conns, reports, answers, at);
    ModeChangesConcat(reqs, later, true);
  }

  lemma ReadableReportsAdd(p: Platform, conns: seq<Conn>, reqs: seq<Request>, later: seq<Request>,
                           reports: seq<Report>, answers: nat -> bool, at: nat)
    requires p.dbsCapable && later == ReportRequests(p, conns, reports, ToSingleMac, answers, at)
    ensures ModeChanges(reqs + later, false) == ModeChanges(reqs, false) + ReadableReports(conns, reports)
  {
    OneChangePerReadableReport(p, conns, reports, answers, at);
    ModeChangesConcat(reqs, later, false);
  }

  /** How often a downgrade changes the mode, over the whole action, that is what it sends
      at once and what the reports of its updates send: once for each early report, and
      once more when no update is sent or the last one is refused. */
  lemma DowngradeChanges(p: Platform, conns: seq<Conn>, updates: seq<Request>, reqs: seq<Request>,
                         reports: seq<Report>, answers: nat -> bool, at: nat)
    requires p.dbsCapable && updates == BeaconRequests(conns, 1, ToDbs)
    requires reqs == NextActionsResult(p, conns, Some(false), ToDbsDowngrade, answers, at).0
    ensures ModeChanges(reqs + ReportRequests(p, conns, reports, ToDbs, answers, at + |reqs|), true)
            == (if updates == [] || !answers(at + |updates| - 1) then 1 else 0) + EarlyReports(conns, reports)
  {
    DowngradeSends(p, conns, updates, answers, at);
    EarlyReportsAdd(p, conns, reqs, ReportRequests(p, conns, reports, ToDbs, answers, at + |reqs|), reports, answers,
                    at + |reqs|);
  }

  /** The same for an upgrade: once or twice at first, and once for each readable report. */
  lemma UpgradeChanges(p: Platform, conns: seq<Conn>, hw: bool, updates: seq<Request>, reqs: seq<Request>,
                       reports: seq<Report>, answers: nat -> bool, at: nat)
    requires p.dbsCapable && updates == BeaconRequests(conns, 2, ToSingleMac)
    requires reqs == NextActionsResult(p, conns, Some(hw), ToSingleMacUpgrade, answers, at).0
    ensures ModeChanges(reqs + ReportRequests(p, conns, reports, ToSingleMac, answers, at + |reqs|), false)
            == (if updates == [] || !answers(at + |updates|) then 2 else 1) + ReadableReports(conns, reports)
  {
    UpgradeSends(p, conns, hw, updates, answers, at);
    ReadableReportsAdd(p, conns, reqs, ReportRequests(p, conns, reports, ToSingleMac, answers, at + |reqs|), reports,
                       answers, at + |reqs|);
  }

  /** In particular: when the last update of a downgrade is accepted and all are reported
      before the hardware has moved, the mode is changed once for each 2x2 GO or SAP. */
  lemma DowngradeRepeatsChange(p: Platform, conns: seq<Conn>, updates: seq<Request>, reqs: seq<Request>,
                               answers: nat -> bool, at: nat)
    requires p.dbsCapable && updates == BeaconRequests(conns, 1, ToDbs)
    requires reqs == NextActionsResult(p, conns, Some(false), ToDbsDowngrade, answers, at).0
    requires updates != [] && answers(at + |updates| - 1)
    ensures forall i :: 0 <= i < |updates| ==> updates[i].NssUpdate?
    ensures ModeChanges(reqs + ReportRequests(p, conns, AllReported(updates), ToDbs, answers, at + |reqs|), true)
            == WideCount(conns, P2pGo) + WideCount(conns, Sap)
  {
    BeaconUpdates(conns, updates);
    AllReportsAreEarly(conns, updates);
    DowngradeChanges(p, conns, updates, reqs, AllReported(updates), answers, at);
  }

  // ------------------------------------------------------------ off the channel plan

  /** Channel 14 (and no channel) is 2.4 GHz to one macro and not to the other. */
  predicate OffPlan(chan: nat) {
    chan == 0 || chan == 14
  }

  /** Beside a single connection, table and preferred mode agree exactly when the two
      channels are both on or both off the plan. */
  lemma AgreementBesideOne(p: Platform, a: Conn, c: Conn, answers: nat -> bool, at: nat)
    requires p.dbsCapable
    ensures (UpdateResult(p, [a], Some(false), c.chan, answers, at).0 != []
             <==> PreferredMode([a, c], Some(false)) == ToDbsDowngrade)
            <==> (OffPlan(a.chan) <==> OffPlan(c.chan))
  {
    var action := TableDecision([a], c.chan).value;
    if action != Nop {
      DbsActionProceeds(p, [a], action, answers, at);
    }
    assert OneBand([a, c]) <==> LowBand([a, c][0].chan) == LowBand([a, c][1].chan);
  }

  /** The two connections give the tables no reason to ask for DBS, whatever comes. */
  predicate NoDbsRow(a: Conn, b: Conn) {
    PairOf(a.mode, b.mode).None? || (a.chan != b.chan && a.mac != b.mac)
  }

  /** The row stands for one channel or one band, and asks for DBS when the new channel is
      in the other. */
  predicate OneBandRow(a: nat, b: nat) {
    a == b || (Is24(a) && Is24(b)) || (Is5(a) && Is5(b))
  }

  predicate SameSide(a: nat, b: nat) {
    LowBand(a) == LowBand(b)
  }

  /** When table and preferred mode agree on a third connection: beside a row that never
      asks, if all are on one side; beside a row of one band, if the new channel and the
      old ones are both on or both off the plan; beside any other row, if the two sides
      are both in use. */
  predicate AgreeBesideTwo(a: Conn, b: Conn, chan: nat) {
    if NoDbsRow(a, b) then SameSide(a.chan, b.chan) && SameSide(a.chan, chan)
    else if OneBandRow(a.chan, b.chan) then OffPlan(a.chan) <==> OffPlan(chan)
    else !SameSide(a.chan, b.chan) || !SameSide(a.chan, chan)
  }

  /** Beside two connections, on any channels and MACs, the same exactly. */
  lemma AgreementBesideTwo(p: Platform, a: Conn, b: Conn, c: Conn, answers: nat -> bool, at: nat)
    requires p.dbsCapable
    ensures (UpdateResult(p, [a, b], Some(false), c.chan, answers, at).0 != []
             <==> PreferredMode([a, b, c], Some(false)) == ToDbsDowngrade)
            <==> AgreeBesideTwo(a, b, c.chan)
  {
    var all := [a, b, c];
    if TableDecision([a, b], c.chan).Some? && TableDecision([a, b], c.chan).value != Nop {
      DbsActionProceeds(p, [a, b], TableDecision([a, b], c.chan).value, answers, at);
    }
    assert OneBand(all) <==> SameSide(all[0].chan, all[1].chan) && SameSide(all[1].chan, all[2].chan);
  }

  /** An input without agreement: STA and SAP on channel 14, a newcomer on channel 6. */
  lemma DisagreementOnChannel14(p: Platform, sta: Conn, sap: Conn, c: Conn, answers: nat -> bool, at: nat)
    requires p.dbsCapable && sta.mode == Sta && sap.mode == Sap && sta.chain == OneOne
    requires sta.chan == sap.chan == 14 && c.chan == 6
    ensures UpdateResult(p, [sta, sap], Some(false), c.chan, answers, at).0 == [SetHwMode(true)]
    ensures PreferredMode([sta, sap, c], Some(false)) == Nop
  {
    AgreementBesideTwo(p, sta, sap, c, answers, at);
  }

  ghost predicate MacUsed(conns: seq<Conn>, mac: nat) {
    exists i :: 0 <= i < |conns| && conns[i].mac == mac
  }

  /** While DBS keeps the two bands on MACs 0 and 1, an upgrade to a single MAC is
      offered exactly when the connections share a band. */
  lemma UpgradeOnlyOnOneBand(conns: seq<Conn>, macOfLow: nat)
    requires macOfLow <= 1
    requires forall i :: 0 <= i < |conns| ==> conns[i].mac == if LowBand(conns[i].chan) then macOfLow else 1 - macOfLow
    ensures !(MacUsed(conns, 0) && MacUsed(conns, 1)) <==> OneBand(conns)
  {
    if MacUsed(conns, 0) && MacUsed(conns, 1) {
      var i :| 0 <= i < |conns| && conns[i].mac == 0;
      var j :| 0 <= j < |conns| && conns[j].mac == 1;
      assert LowBand(conns[i].chan) != LowBand(conns[j].chan);
      assert i < j || j < i;
    }
  }

  /** Connections of other modes add no request. */
  lemma {:induction false} NoRequests(conns: seq<Conn>, lo: nat, hi: nat, mode: Mode, nss: nat, next: NextAction)
    requires lo <= hi <= |conns|
    requires forall i :: lo <= i < hi ==> conns[i].mode != mode
    ensures ModeRequests(conns[..hi], mode, nss, next) == ModeRequests(conns[..lo], mode, nss, next)
    decreases hi - lo
  {
    if lo < hi {
      assert conns[..hi][..hi - 1] == conns[..hi - 1];
      NoRequests(conns, lo, hi - 1, mode, nss, next);
    }
  }

  /** The requests up to and including the next connection of the mode. */
  lemma RequestsAdvance(conns: seq<Conn>, lo: nat, hi: nat, mode: Mode, nss: nat, next: NextAction)
    requires lo <= hi < |conns| && conns[hi].mode == mode
    requires forall i :: lo <= i < hi ==> conns[i].mode != mode
    ensures ModeRequests(conns[..hi + 1], mode, nss, next)
            == ModeRequests(conns[..lo], mode, nss, next)
               + WideRequest(conns[hi], nss, next)
  {
    NoRequests(conns, lo, hi, mode, nss, next);
    assert conns[..hi + 1][..hi] == conns[..hi];
  }

  /** The positions of all connections of the mode, ascending. */
  ghost predicate Lists(conns: seq<Conn>, mode: Mode, indices: seq<nat>) {
    && (forall i :: 0 <= i < |indices| ==> indices[i] < |conns| && conns[indices[i]].mode == mode)
    && (forall i, j :: 0 <= i < j < |indices| ==> indices[i] < indices[j])
    && (forall k :: 0 <= k < |conns| && conns[k].mode == mode ==> k in indices)
  }

  /** Where the first k connections of the mode end. */
  ghost function Behind(indices: seq<nat>, k: nat): nat
    requires k <= |indices|
  {
    if k == 0 then 0 else indices[k - 1] + 1
  }

  /** Between two listed positions there is no connection of the mode. */
  lemma GapHasOtherModes(conns: seq<Conn>, mode: Mode, indices: seq<nat>, k: nat)
    requires Lists(conns, mode, indices) && k <= |indices|
    ensures var hi := if k < |indices| then indices[k] else |conns|;
            && Behind(indices, k) <= hi
            && forall i :: Behind(indices, k) <= i < hi ==> conns[i].mode != mode
  {
    var hi := if k < |indices| then indices[k] else |conns|;
    forall i | Behind(indices, k) <= i < hi ensures conns[i].mode != mode {
      NotInGap(indices, k, i);
    }
  }

  /** No request before the first connection of the mode, none after the last. */
  lemma AllBehind(conns: seq<Conn>, mode: Mode, indices: seq<nat>, nss: nat, next: NextAction, s0: seq<Request>)
    requires Lists(conns, mode, indices)
    ensures Behind(indices, |indices|) <= |conns|
    ensures s0 + ModeRequests(conns[..0], mode, nss, next) == s0
    ensures ModeRequests(conns[..Behind(indices, |indices|)], mode, nss, next) == ModeRequests(conns, mode, nss, next)
  {
    GapHasOtherModes(conns, mode, indices, |indices|);
    NoRequests(conns, Behind(indices, |indices|), |conns|, mode, nss, next);
    assert conns[..|conns|] == conns;
  }

  /** What the next listed connection adds to what has been sent. */
  lemma NextUpdate(conns: seq<Conn>, mode: Mode, indices: seq<nat>, k: nat, nss: nat, next: NextAction,
                   s0: seq<Request>)
    requires Lists(conns, mode, indices) && k < |indices|
    ensures Behind(indices, k) <= indices[k] && Behind(indices, k + 1) == indices[k] + 1 <= |conns|
    ensures s0 + ModeRequests(conns[..indices[k] + 1], mode, nss, next)
            == (s0 + ModeRequests(conns[..Behind(indices, k)], mode, nss, next))
               + WideRequest(conns[indices[k]], nss, next)
  {
    GapHasOtherModes(conns, mode, indices, k);
    RequestsAdvance(conns, Behind(indices, k), indices[k], mode, nss, next);
  }

  lemma NotInGap(indices: seq<nat>, k: nat, i: nat)
    requires forall a, b :: 0 <= a < b < |indices| ==> indices[a] < indices[b]
    requires k <= |indices| && (k > 0 ==> indices[k - 1] < i) && (k < |indices| ==> i < indices[k])
    ensures i !in indices
  {
    forall j | 0 <= j < |indices| ensures indices[j] != i {
      assert j < k - 1 ==> indices[j] < indices[k - 1];
      assert k < j ==> indices[k] < indices[j];
    }
  }

  // -------------------------------------------------------------- the operations

  class HwModeControl {
    const answers: nat -> bool
    var sent: seq<Request>

    constructor (answers: nat -> bool)
      ensures sent == [] && this.answers == answers
    {
      this.answers := answers;
      sent := [];
    }

    method Send(r: Request) returns (ok: bool)
      modifies this
      ensures sent == old(sent) + [r] && ok == answers(|old(sent)|)
    {
      ok := answers(|sent|);
      sent := sent + [r];
    }

    /** The status of a loop so far: the last answer, if anything was sent since. */
    predicate StatusSince(status: bool, status0: bool, at: nat)
      reads this
    {
      status == if |sent| <= at then status0 else answers(|sent| - 1)
    }

    /** The first k listed connections have had their updates. */
    ghost predicate UpdatesSent(conns: seq<Conn>, mode: Mode, nss: nat, next: NextAction, indices: seq<nat>, k: nat,
                                status: bool, status0: bool, s0: seq<Request>)
      reads this
    {
      && k <= |indices| && Behind(indices, k) <= |conns|
      && sent == s0 + ModeRequests(conns[..Behind(indices, k)], mode, nss, next)
      && StatusSince(status, status0, |s0|)
    }

    /** One entry of the loop below. */
    method UpdateOne(t: ConnTable, indices: seq<nat>, k: nat, mode: Mode, nss: nat, next: NextAction, status1: bool,
                     ghost status0: bool, ghost s0: seq<Request>) returns (status: bool)
      requires t.Valid() && Lists(t.conns, mode, indices) && k < |indices|
      requires UpdatesSent(t.conns, mode, nss, next, indices, k, status1, status0, s0)
      modifies this
      ensures t.Valid() && t.conns == old(t.conns)
      ensures UpdatesSent(old(t.conns), mode, nss, next, indices, k + 1, status, status0, s0)
    {
      status := status1;
      NextUpdate(t.conns, mode, indices, k, nss, next, s0);
      var c := t.list[indices[k]];
      if c.originalNss == 2 {
        status := Send(NssUpdate(c.vdevId, nss, next));
      }
    }

    /** One of the two loops over the beaconing entities. */
    method SendNssUpdates(t: ConnTable, mode: Mode, nss: nat, next: NextAction, status0: bool) returns (status: bool)
      requires t.Valid()
      modifies this
      ensures t.Valid() && t.conns == old(t.conns)
      ensures sent == old(sent) + ModeRequests(old(t.conns), mode, nss, next)
      ensures StatusSince(status, status0, |old(sent)|)
    {
      var count, indices := t.ModeCount(mode);
      assert t.conns[..|t.conns|] == t.conns;
      status := UpdateListed(t, indices, mode, nss, next, status0);
    }

    method UpdateListed(t: ConnTable, indices: seq<nat>, mode: Mode, nss: nat, next: NextAction, status0: bool)
      returns (status: bool)
      requires t.Valid() && Lists(t.conns, mode, indices)
      modifies this
      ensures t.Valid() && t.conns == old(t.conns)
      ensures sent == old(sent) + ModeRequests(old(t.conns), mode, nss, next)
      ensures StatusSince(status, status0, |old(sent)|)
    {
      status := status0;
      ghost var (conns, s0) := (t.conns, sent);
      AllBehind(conns, mode, indices, nss, next, s0);
      for k := 0 to |indices|
        invariant t.Valid() && t.conns == conns
        invariant UpdatesSent(conns, mode, nss, next, indices, k, status, status0, s0)
      {
        status := UpdateOne(t, indices, k, mode, nss, next, status, status0, s0);
      }
    }

    method CompleteAction(t: ConnTable, p: Platform, hw: Option<bool>, nss: nat, next: NextAction)
      returns (status: Status)
      requires t.Valid() && p.dbsCapable && hw.Some?
      requires (next == ToDbs && !hw.value) || next == ToSingleMac
      modifies this
      ensures t.Valid() && t.conns == old(t.conns)
      ensures var (reqs, s) := Completed(old(t.conns), nss, next, answers, |old(sent)|);
              sent == old(sent) + reqs && status == s
      decreases 1, 0
    {
      var ok := SendNssUpdates(t, P2pGo, nss, next, false);
      ok := SendNssUpdates(t, Sap, nss, next, ok);
      assert sent == old(sent) + BeaconRequests(old(t.conns), nss, next);
      if ok {
        status := Success;
      } else {
        status := NextActions(t, p, hw, next);
      }
    }

    method NextActions(t: ConnTable, p: Platform, hw: Option<bool>, action: NextAction) returns (status: Status)
      requires t.Valid()
      modifies this
      ensures t.Valid() && t.conns == old(t.conns)
      ensures var (reqs, s) := NextActionsResult(p, old(t.conns), hw, action, answers, |old(sent)|);
              sent == old(sent) + reqs && status == s
      ensures status == Success <==> sent != old(sent) && answers(|sent| - 1)
      decreases if action == ToDbsDowngrade || action == ToSingleMacUpgrade then 1 else 0, 1
    {
      ActionStatus(p, t.conns, hw, action, answers, |sent|);
      if !p.dbsCapable {
        return NoSupport;
      }
      if hw.None? {
        return Failure;
      }
      if (action == ToDbsDowngrade || action == ToDbs) && hw.value {
        return Already;
      }
      match action
      case ToDbsDowngrade =>
        status := CompleteAction(t, p, hw, 1, ToDbs);
      case ToDbs =>
        var ok := Send(SetHwMode(true));
        status := if ok then Success else Failure;
      case ToSingleMacUpgrade =>
        var _ := Send(SetHwMode(false));
        status := CompleteAction(t, p, hw, 2, ToSingleMac);
      case ToSingleMac =>
        var ok := Send(SetHwMode(false));
        status := if ok then Success else Failure;
      case Nop =>
        status := Failure;
    }

    /** The follow-up once the firmware has confirmed an NSS update. */
    method NssUpdateCallback(t: ConnTable, p: Platform, hw: Option<bool>, vdevId: nat, next: NextAction)
      requires t.Valid()
      modifies this
      ensures t.Valid() && t.conns == old(t.conns)
      ensures sent == old(sent) + if FindVdev(old(t.conns), vdevId) == |old(t.conns)| then []
                                  else NextActionsResult(p, old(t.conns), hw, next, answers, |old(sent)|).0
    {
      var index := t.IndexForVdev(vdevId);
      if index == MAX_CONNECTIONS {
        return;
      }
      var _ := NextActions(t, p, hw, next);
    }

    method CurrentConnectionsUpdate(t: ConnTable, p: Platform, hw: Option<bool>, chan: nat) returns (status: Status)
      requires t.Valid()
      modifies this
      ensures t.Valid() && t.conns == old(t.conns)
      ensures var (reqs, s) := UpdateResult(p, old(t.conns), hw, chan, answers, |old(sent)|);
              sent == old(sent) + reqs && status == s
      ensures status == Success <==> sent != old(sent) && answers(|sent| - 1)
    {
      UpdateStatus(p, t.conns, hw, chan, answers, |sent|);
      if !p.dbsCapable {
        return NoSupport;
      }
      var count := t.ConnectionCount();
      var action := Nop;
      if count == 1 {
        action := NextActionTwoTable(OneConnIndex(t.list[0]), Is24(chan));
      } else if count == 2 {
        var row := TwoConnIndex(t.list[0], t.list[1]);
        if row.None? {
          return Failure;
        }
        action := NextActionThreeTable(row.value, Is24(chan));
      }
      assert TableDecision(t.conns, chan) == Some(action);
      if action == Nop {
        return NoSupport;
      }
      status := NextActions(t, p, hw, action);
    }

    method CurrentPreferredMode(t: ConnTable, hw: Option<bool>) returns (action: NextAction)
      requires t.Valid()
      ensures action == PreferredMode(t.conns, hw)
    {
      if hw.None? {
        return Nop;
      }
      action := Nop;
      var count := t.ConnectionCount();
      if count == 2 {
        var a, b := LowBand(t.list[0].chan), LowBand(t.list[1].chan);
        assert OneBand(t.conns) <==> LowBand(t.conns[0].chan) == LowBand(t.conns[1].chan);
        if a == b && hw.value {
          action := ToSingleMacUpgrade;
        } else if a != b && !hw.value {
          action := ToDbsDowngrade;
        }
      } else if count == 3 {
        var a, b, c := LowBand(t.list[0].chan), LowBand(t.list[1].chan), LowBand(t.list[2].chan);
        assert OneBand(t.conns) <==>
               && LowBand(t.conns[0].chan) == LowBand(t.conns[1].chan)
               && LowBand(t.conns[1].chan) == LowBand(t.conns[2].chan);
        if a == b && b == c && hw.value {
          action := ToSingleMacUpgrade;
        } else if (a != b || b != c || a != c) && !hw.value {
          action := ToDbsDowngrade;
        }
      }
    }

    /** Whether DBS has become pointless because one MAC is idle. */
    method NeedOpportunisticUpgrade(t: ConnTable, p: Platform, hw: Option<bool>) returns (action: NextAction)
      requires t.Valid()
      ensures action == (if !p.dbsCapable || hw != Some(true) || (MacUsed(t.conns, 0) && MacUsed(t.conns, 1)) then Nop
                         else if exists i :: 0 <= i < |t.conns| && t.conns[i].originalNss == 2 then ToSingleMacUpgrade
                         else ToSingleMac)
    {
      if !p.dbsCapable || hw.None? {
        return Nop;
      }
      if !hw.value {
        return Nop;
      }
      var mac0, mac1 := false, false;
      for i := 0 to MAX_CONNECTIONS
        invariant mac0 <==> exists j :: 0 <= j < i && j < |t.conns| && t.conns[j].mac == 0
        invariant mac1 <==> exists j :: 0 <= j < i && j < |t.conns| && t.conns[j].mac == 1
        invariant !(mac0 && mac1)
      {
        if t.list[i].mac == 0 && t.list[i].inUse {
          assert t.conns[i].mac == 0;
          mac0 := true;
          if mac0 && mac1 {
            return Nop;
          }
        } else if t.list[i].mac == 1 && t.list[i].inUse {
          assert t.conns[i].mac == 1;
          mac1 := true;
          if mac0 && mac1 {
            return Nop;
          }
        }
      }
      action := ToSingleMac;
      for i := 0 to MAX_CONNECTIONS
        invariant forall j :: 0 <= j < i && j < |t.conns| ==> t.conns[j].originalNss != 2
      {
        if t.list[i].originalNss == 2 && t.list[i].inUse {
          assert t.conns[i].originalNss == 2;
          return ToSingleMacUpgrade;
        }
      }
    }
  }
}
