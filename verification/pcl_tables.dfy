/** The constant tables of the policy manager. Each C table is indexed by the
    shape of the current connections; here the index is the structured value that
    the flat enum constant names (CDS_STA_SAP_MCC_24_2x2 is
    TwoConn(StaSap, Mcc24, TwoTwo)). */
module PclTables {
  import opened ConnTypes
  import opened Wrappers

  datatype PclType =
    | PclNone
    | Pcl24g
    | Pcl5g
    | SccCh
    | MccCh
    | SccCh24g
    | SccCh5g
    | Pcl24gSccCh
    | Pcl5gSccCh
    | SccOn5SccOn24With24g
    | SccOn5SccOn24With5g
    | SccOn24SccOn5With24g
    | SccOn24SccOn5With5g
    | SccOn5SccOn24
    | SccOn24SccOn5
    | MccCh24g
    | MccCh5g
    | Pcl24gMccCh
    | Pcl5gMccCh
    | MaxPclType

  datatype Priority = Throughput | Powersave | Latency

  datatype OneConn = OneConn(mode: Mode, on24: bool, chain: Chain)

  datatype Pair = P2pCliSap | StaSap | StaP2pGo | StaP2pCli | P2pGoP2pCli | P2pGoSap

  datatype Share = Scc24 | Mcc24 | Scc5 | Mcc5 | Mcc24And5 | Dbs

  datatype TwoConn = TwoConn(pair: Pair, share: Share, chain: Chain)

  datatype NextAction = Nop | ToDbs | ToDbsDowngrade | ToSingleMac | ToSingleMacUpgrade

  /** An unknown preference falls back to throughput. */
  function PriorityOf(systemPref: nat): Priority {
    if systemPref == 1 then Powersave
    else if systemPref == 2 then Latency
    else Throughput
  }

  function OneConnIndex(c: Conn): OneConn {
    OneConn(c.mode, Is24(c.chan), c.chain)
  }

  function PairOf(a: Mode, b: Mode): Option<Pair> {
    if (a == P2pClient && b == Sap) || (a == Sap && b == P2pClient) then Some(P2pCliSap)
    else if (a == Sta && b == Sap) || (a == Sap && b == Sta) then Some(StaSap)
    else if (a == Sta && b == P2pGo) || (a == P2pGo && b == Sta) then Some(StaP2pGo)
    else if (a == Sta && b == P2pClient) || (a == P2pClient && b == Sta) then Some(StaP2pCli)
    else if (a == P2pGo && b == P2pClient) || (a == P2pClient && b == P2pGo) then Some(P2pGoP2pCli)
    else if (a == Sap && b == P2pGo) || (a == P2pGo && b == Sap) then Some(P2pGoSap)
    else None
  }

  function ShareOf(a: Conn, b: Conn): Share {
    if a.chan == b.chan then
      if Is24(a.chan) then Scc24 else Scc5
    else if a.mac == b.mac then
      if Is24(a.chan) && Is24(b.chan) then Mcc24
      else if Is5(a.chan) && Is5(b.chan) then Mcc5
      else Mcc24And5
    else Dbs
  }

  /** None stands for CDS_MAX_TWO_CONNECTION_MODE. There is one DBS row per pair. */
  function TwoConnIndex(a: Conn, b: Conn): Option<TwoConn> {
    match PairOf(a.mode, b.mode)
    case None => None
    case Some(pair) =>
      var share := ShareOf(a, b);
      Some(TwoConn(pair, share, if share == Dbs then OneOne else a.chain))
  }

  /** One row of a table: the entry for each system preference. */
  function Row(pref: Priority, t: PclType, p: PclType, l: PclType): PclType {
    match pref
    case Throughput => t
    case Powersave => p
    case Latency => l
  }

  function FirstTable(mode: Mode): PclType {
    match mode
    case Sta | Ibss => PclNone
    case Sap | P2pClient | P2pGo => Pcl5g
  }

  function SecondDbsTable(row: OneConn, mode: Mode, pref: Priority): PclType {
    if row.mode == Ibss then
      if mode != Sta then MaxPclType
      else if row.on24 then Pcl5gSccCh else Pcl24gSccCh
    else if mode == Ibss then
      if row.mode != Sta then MaxPclType
      else if row.on24 then Pcl5g else Pcl24g
    else if row.mode == P2pGo && mode == P2pGo then
      if row.on24 then Pcl5g else Pcl24g
    else if row.on24 then Pcl5gSccCh
    else if IsBeaconing(row.mode) && mode != P2pClient then SccCh24g
    else Row(pref, SccCh24g, Pcl24gSccCh, SccCh24g)
  }

  function SecondNoDbsTable(row: OneConn, mode: Mode, pref: Priority): PclType {
    if row.mode == Ibss || mode == Ibss then MaxPclType
    else if IsBeaconing(row.mode) then
      if mode == Sta && !row.on24 then Row(pref, SccCh5g, SccCh, SccCh) else SccCh
    else if row.on24 then
      if mode == Sta then Row(pref, Pcl5g, SccCh, SccCh) else Row(pref, Pcl5g, SccCh, SccCh5g)
    else
      if mode == Sta then Row(pref, SccCh5g, SccCh, SccCh5g) else Row(pref, SccCh5g, SccCh, SccCh)
  }

  /** Modes for which the third-connection tables hold an entry other than
      CDS_MAX_PCL_TYPE. The last disjunct is the one stray cell: IBSS as a third
      connection beside STA and P2P client in 5 GHz MCC 2x2 on DBS hardware. */
  predicate HasThirdEntry(dbs: bool, row: TwoConn, mode: Mode) {
    match row.pair
    case StaSap => mode == Sta || mode == Sap
    case StaP2pGo => mode == Sta || mode == P2pClient || mode == P2pGo
    case StaP2pCli => mode == P2pClient || mode == P2pGo
                      || (dbs && mode == Ibss && row.share == Mcc5 && row.chain == TwoTwo)
    case P2pGoP2pCli => mode != Ibss
    case P2pCliSap | P2pGoSap => false
  }

  function ThirdDbsTable(row: TwoConn, mode: Mode, pref: Priority): PclType {
    if !HasThirdEntry(true, row, mode) then MaxPclType
    else if mode == Ibss then PclNone
    else match row.share
         case Scc24 => Pcl5gSccCh
         case Mcc24 => Row(pref, Pcl5gMccCh, Pcl5g, Pcl5gMccCh)
         case Scc5 => Row(pref, SccCh24g, Pcl24gSccCh, SccCh24g)
         case Mcc5 =>
           if mode == Sap then Pcl24g
           else if row.pair == StaP2pCli then Row(pref, MccCh24g, Pcl24g, MccCh24g)
           else Row(pref, MccCh24g, Pcl24g, Pcl24g)
         case Mcc24And5 =>
           if mode == Sap then Pcl24g
           else if mode == Sta then Row(pref, MccCh5g, Pcl5g, Pcl5g)
           else if row.pair == StaP2pCli then Row(pref, MccCh24g, Pcl24g, MccCh24g)
           else Row(pref, MccCh24g, Pcl24g, Pcl24g)
         case Dbs => Row(pref, SccOn5SccOn24With5g, PclNone, SccOn5SccOn24)
  }

  function ThirdNoDbsTable(row: TwoConn, mode: Mode, pref: Priority): PclType {
    if !HasThirdEntry(false, row, mode) then MaxPclType
    else match row.share
         case Scc24 =>
           if mode == Sap then Row(pref, SccCh5g, SccCh, SccCh)
           else if mode == P2pGo || row.pair == StaP2pCli then Row(pref, Pcl5gSccCh, SccCh, SccCh)
           else Row(pref, Pcl5g, SccCh, SccCh)
         case Mcc24 => Row(pref, Pcl5gMccCh, MccCh, MccCh)
         case Scc5 => SccCh
         case Mcc5 | Mcc24And5 => MccCh
         case Dbs => MaxPclType
  }

  /** Entries of the two next-action tables: 1x1 rows ask for DBS, 2x2 rows for
      DBS after an NSS downgrade. */
  function DbsAction(chain: Chain): NextAction {
    if chain == OneOne then ToDbs else ToDbsDowngrade
  }

  function NextActionTwoTable(row: OneConn, newOn24: bool): NextAction {
    if row.on24 == newOn24 then Nop else DbsAction(row.chain)
  }

  function NextActionThreeTable(row: TwoConn, newOn24: bool): NextAction {
    match row.share
    case Scc24 | Mcc24 => if newOn24 then Nop else DbsAction(row.chain)
    case Scc5 | Mcc5 => if newOn24 then DbsAction(row.chain) else Nop
    case Mcc24And5 => DbsAction(row.chain)
    case Dbs => Nop
  }
}
