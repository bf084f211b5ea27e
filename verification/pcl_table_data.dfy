/** The constant tables row by row, as the program lists them, and the proof that the
    functions of PclTables are these tables. The program has one DBS row for each pair,
    which stands for both chains. */
module PclTableData {
  import opened ConnTypes
  import opened PclTables

  /** The entries for throughput, powersave and latency. */
  datatype Triple = Each(throughput: PclType, powersave: PclType, latency: PclType)

  function All(pcl: PclType): Triple {
    Each(pcl, pcl, pcl)
  }

  const NO_ENTRY: Triple := Each(MaxPclType, MaxPclType, MaxPclType)

  /** One row: the entries for each mode that may come up. */
  datatype Cells = Cells(sta: Triple, sap: Triple, client: Triple, go: Triple, ibss: Triple)
  {
    function At(mode: Mode): Triple {
      match mode
      case Sta => sta
      case Sap => sap
      case P2pClient => client
      case P2pGo => go
      case Ibss => ibss
    }
  }

  /** The actions for a new channel on 2.4 GHz and on 5 GHz. */
  datatype Actions = Actions(on24: NextAction, on5: NextAction)

  // ----------------------------------------------------------------------- the data

  function FirstData(mode: Mode): Triple {
    match mode
    case Sta => All(PclNone)
    case Sap => All(Pcl5g)
    case P2pClient => All(Pcl5g)
    case P2pGo => All(Pcl5g)
    case Ibss => All(PclNone)
  }

  function SecondDbsData(row: OneConn): Cells {
    match (row.mode, row.on24, row.chain)
    case (Sta, true, OneOne) => Cells(All(Pcl5gSccCh), All(Pcl5gSccCh), All(Pcl5gSccCh), All(Pcl5gSccCh), All(Pcl5g))
    case (Sta, true, TwoTwo) => Cells(All(Pcl5gSccCh), All(Pcl5gSccCh), All(Pcl5gSccCh), All(Pcl5gSccCh), All(Pcl5g))
    case (Sta, false, OneOne) =>
      Cells(Each(SccCh24g, Pcl24gSccCh, SccCh24g), Each(SccCh24g, Pcl24gSccCh, SccCh24g),
            Each(SccCh24g, Pcl24gSccCh, SccCh24g), Each(SccCh24g, Pcl24gSccCh, SccCh24g), All(Pcl24g))
    case (Sta, false, TwoTwo) =>
      Cells(Each(SccCh24g, Pcl24gSccCh, SccCh24g), Each(SccCh24g, Pcl24gSccCh, SccCh24g),
            Each(SccCh24g, Pcl24gSccCh, SccCh24g), Each(SccCh24g, Pcl24gSccCh, SccCh24g), All(Pcl24g))
    case (P2pClient, true, OneOne) =>
      Cells(All(Pcl5gSccCh), All(Pcl5gSccCh), All(Pcl5gSccCh), All(Pcl5gSccCh), NO_ENTRY)
    case (P2pClient, true, TwoTwo) =>
      Cells(All(Pcl5gSccCh), All(Pcl5gSccCh), All(Pcl5gSccCh), All(Pcl5gSccCh), NO_ENTRY)
    case (P2pClient, false, OneOne) =>
      Cells(Each(SccCh24g, Pcl24gSccCh, SccCh24g), Each(SccCh24g, Pcl24gSccCh, SccCh24g),
            Each(SccCh24g, Pcl24gSccCh, SccCh24g), Each(SccCh24g, Pcl24gSccCh, SccCh24g), NO_ENTRY)
    case (P2pClient, false, TwoTwo) =>
      Cells(Each(SccCh24g, Pcl24gSccCh, SccCh24g), Each(SccCh24g, Pcl24gSccCh, SccCh24g),
            Each(SccCh24g, Pcl24gSccCh, SccCh24g), Each(SccCh24g, Pcl24gSccCh, SccCh24g), NO_ENTRY)
    case (P2pGo, true, OneOne) => Cells(All(Pcl5gSccCh), All(Pcl5gSccCh), All(Pcl5gSccCh), All(Pcl5g), NO_ENTRY)
    case (P2pGo, true, TwoTwo) => Cells(All(Pcl5gSccCh), All(Pcl5gSccCh), All(Pcl5gSccCh), All(Pcl5g), NO_ENTRY)
    case (P2pGo, false, OneOne) =>
      Cells(All(SccCh24g), All(SccCh24g), Each(SccCh24g, Pcl24gSccCh, SccCh24g), All(Pcl24g), NO_ENTRY)
    case (P2pGo, false, TwoTwo) =>
      Cells(All(SccCh24g), All(SccCh24g), Each(SccCh24g, Pcl24gSccCh, SccCh24g), All(Pcl24g), NO_ENTRY)
    case (Sap, true, OneOne) => Cells(All(Pcl5gSccCh), All(Pcl5gSccCh), All(Pcl5gSccCh), All(Pcl5gSccCh), NO_ENTRY)
    case (Sap, true, TwoTwo) => Cells(All(Pcl5gSccCh), All(Pcl5gSccCh), All(Pcl5gSccCh), All(Pcl5gSccCh), NO_ENTRY)
    case (Sap, false, OneOne) =>
      Cells(All(SccCh24g), All(SccCh24g), Each(SccCh24g, Pcl24gSccCh, SccCh24g), All(SccCh24g), NO_ENTRY)
    case (Sap, false, TwoTwo) =>
      Cells(All(SccCh24g), All(SccCh24g), Each(SccCh24g, Pcl24gSccCh, SccCh24g), All(SccCh24g), NO_ENTRY)
    case (Ibss, true, OneOne) => Cells(All(Pcl5gSccCh), NO_ENTRY, NO_ENTRY, NO_ENTRY, NO_ENTRY)
    case (Ibss, true, TwoTwo) => Cells(All(Pcl5gSccCh), NO_ENTRY, NO_ENTRY, NO_ENTRY, NO_ENTRY)
    case (Ibss, false, OneOne) => Cells(All(Pcl24gSccCh), NO_ENTRY, NO_ENTRY, NO_ENTRY, NO_ENTRY)
    case (Ibss, false, TwoTwo) => Cells(All(Pcl24gSccCh), NO_ENTRY, NO_ENTRY, NO_ENTRY, NO_ENTRY)
  }

  function SecondNoDbsData(row: OneConn): Cells {
    match (row.mode, row.on24, row.chain)
    case (Sta, true, OneOne) =>
      Cells(Each(Pcl5g, SccCh, SccCh), Each(Pcl5g, SccCh, SccCh5g), Each(Pcl5g, SccCh, SccCh5g),
            Each(Pcl5g, SccCh, SccCh5g), NO_ENTRY)
    case (Sta, true, TwoTwo) =>
      Cells(Each(Pcl5g, SccCh, SccCh), Each(Pcl5g, SccCh, SccCh5g), Each(Pcl5g, SccCh, SccCh5g),
            Each(Pcl5g, SccCh, SccCh5g), NO_ENTRY)
    case (Sta, false, OneOne) =>
      Cells(Each(SccCh5g, SccCh, SccCh5g), Each(SccCh5g, SccCh, SccCh), Each(SccCh5g, SccCh, SccCh),
            Each(SccCh5g, SccCh, SccCh), NO_ENTRY)
    case (Sta, false, TwoTwo) =>
      Cells(Each(SccCh5g, SccCh, SccCh5g), Each(SccCh5g, SccCh, SccCh), Each(SccCh5g, SccCh, SccCh),
            Each(SccCh5g, SccCh, SccCh), NO_ENTRY)
    case (P2pClient, true, OneOne) =>
      Cells(Each(Pcl5g, SccCh, SccCh), Each(Pcl5g, SccCh, SccCh5g), Each(Pcl5g, SccCh, SccCh5g),
            Each(Pcl5g, SccCh, SccCh5g), NO_ENTRY)
    case (P2pClient, true, TwoTwo) =>
      Cells(Each(Pcl5g, SccCh, SccCh), Each(Pcl5g, SccCh, SccCh5g), Each(Pcl5g, SccCh, SccCh5g),
            Each(Pcl5g, SccCh, SccCh5g), NO_ENTRY)
    case (P2pClient, false, OneOne) =>
      Cells(Each(SccCh5g, SccCh, SccCh5g), Each(SccCh5g, SccCh, SccCh), Each(SccCh5g, SccCh, SccCh),
            Each(SccCh5g, SccCh, SccCh), NO_ENTRY)
    case (P2pClient, false, TwoTwo) =>
      Cells(Each(SccCh5g, SccCh, SccCh5g), Each(SccCh5g, SccCh, SccCh), Each(SccCh5g, SccCh, SccCh),
            Each(SccCh5g, SccCh, SccCh), NO_ENTRY)
    case (P2pGo, true, OneOne) => Cells(All(SccCh), All(SccCh), All(SccCh), All(SccCh), NO_ENTRY)
    case (P2pGo, true, TwoTwo) => Cells(All(SccCh), All(SccCh), All(SccCh), All(SccCh), NO_ENTRY)
    case (P2pGo, false, OneOne) => Cells(Each(SccCh5g, SccCh, SccCh), All(SccCh), All(SccCh), All(SccCh), NO_ENTRY)
    case (P2pGo, false, TwoTwo) => Cells(Each(SccCh5g, SccCh, SccCh), All(SccCh), All(SccCh), All(SccCh), NO_ENTRY)
    case (Sap, true, OneOne) => Cells(All(SccCh), All(SccCh), All(SccCh), All(SccCh), NO_ENTRY)
    case (Sap, true, TwoTwo) => Cells(All(SccCh), All(SccCh), All(SccCh), All(SccCh), NO_ENTRY)
    case (Sap, false, OneOne) => Cells(Each(SccCh5g, SccCh, SccCh), All(SccCh), All(SccCh), All(SccCh), NO_ENTRY)
    case (Sap, false, TwoTwo) => Cells(Each(SccCh5g, SccCh, SccCh), All(SccCh), All(SccCh), All(SccCh), NO_ENTRY)
    case (Ibss, true, OneOne) => Cells(NO_ENTRY, NO_ENTRY, NO_ENTRY, NO_ENTRY, NO_ENTRY)
    case (Ibss, true, TwoTwo) => Cells(NO_ENTRY, NO_ENTRY, NO_ENTRY, NO_ENTRY, NO_ENTRY)
    case (Ibss, false, OneOne) => Cells(NO_ENTRY, NO_ENTRY, NO_ENTRY, NO_ENTRY, NO_ENTRY)
    case (Ibss, false, TwoTwo) => Cells(NO_ENTRY, NO_ENTRY, NO_ENTRY, NO_ENTRY, NO_ENTRY)
  }

  function StaSapDbs(share: Share, chain: Chain): Cells {
    match (share, chain)
    case (Scc24, OneOne) => Cells(All(Pcl5gSccCh), All(Pcl5gSccCh), NO_ENTRY, NO_ENTRY, NO_ENTRY)
    case (Scc24, TwoTwo) => Cells(All(Pcl5gSccCh), All(Pcl5gSccCh), NO_ENTRY, NO_ENTRY, NO_ENTRY)
    case (Mcc24, OneOne) =>
      Cells(Each(Pcl5gMccCh, Pcl5g, Pcl5gMccCh), Each(Pcl5gMccCh, Pcl5g, Pcl5gMccCh), NO_ENTRY, NO_ENTRY, NO_ENTRY)
    case (Mcc24, TwoTwo) =>
      Cells(Each(Pcl5gMccCh, Pcl5g, Pcl5gMccCh), Each(Pcl5gMccCh, Pcl5g, Pcl5gMccCh), NO_ENTRY, NO_ENTRY, NO_ENTRY)
    case (Scc5, OneOne) =>
      Cells(Each(SccCh24g, Pcl24gSccCh, SccCh24g), Each(SccCh24g, Pcl24gSccCh, SccCh24g), NO_ENTRY, NO_ENTRY, NO_ENTRY)
    case (Scc5, TwoTwo) =>
      Cells(Each(SccCh24g, Pcl24gSccCh, SccCh24g), Each(SccCh24g, Pcl24gSccCh, SccCh24g), NO_ENTRY, NO_ENTRY, NO_ENTRY)
    case (Mcc5, OneOne) => Cells(Each(MccCh24g, Pcl24g, Pcl24g), All(Pcl24g), NO_ENTRY, NO_ENTRY, NO_ENTRY)
    case (Mcc5, TwoTwo) => Cells(Each(MccCh24g, Pcl24g, Pcl24g), All(Pcl24g), NO_ENTRY, NO_ENTRY, NO_ENTRY)
    case (Mcc24And5, OneOne) => Cells(Each(MccCh5g, Pcl5g, Pcl5g), All(Pcl24g), NO_ENTRY, NO_ENTRY, NO_ENTRY)
    case (Mcc24And5, TwoTwo) => Cells(Each(MccCh5g, Pcl5g, Pcl5g), All(Pcl24g), NO_ENTRY, NO_ENTRY, NO_ENTRY)
    case (Dbs, _) =>
      Cells(Each(SccOn5SccOn24With5g, PclNone, SccOn5SccOn24), Each(SccOn5SccOn24With5g, PclNone, SccOn5SccOn24),
            NO_ENTRY, NO_ENTRY, NO_ENTRY)
  }

  function StaP2pGoDbs(share: Share, chain: Chain): Cells {
    match (share, chain)
    case (Scc24, OneOne) => Cells(All(Pcl5gSccCh), NO_ENTRY, All(Pcl5gSccCh), All(Pcl5gSccCh), NO_ENTRY)
    case (Scc24, TwoTwo) => Cells(All(Pcl5gSccCh), NO_ENTRY, All(Pcl5gSccCh), All(Pcl5gSccCh), NO_ENTRY)
    case (Mcc24, OneOne) =>
      Cells(Each(Pcl5gMccCh, Pcl5g, Pcl5gMccCh), NO_ENTRY, Each(Pcl5gMccCh, Pcl5g, Pcl5gMccCh),
            Each(Pcl5gMccCh, Pcl5g, Pcl5gMccCh), NO_ENTRY)
    case (Mcc24, TwoTwo) =>
      Cells(Each(Pcl5gMccCh, Pcl5g, Pcl5gMccCh), NO_ENTRY, Each(Pcl5gMccCh, Pcl5g, Pcl5gMccCh),
            Each(Pcl5gMccCh, Pcl5g, Pcl5gMccCh), NO_ENTRY)
    case (Scc5, OneOne) =>
      Cells(Each(SccCh24g, Pcl24gSccCh, SccCh24g), NO_ENTRY, Each(SccCh24g, Pcl24gSccCh, SccCh24g),
            Each(SccCh24g, Pcl24gSccCh, SccCh24g), NO_ENTRY)
    case (Scc5, TwoTwo) =>
      Cells(Each(SccCh24g, Pcl24gSccCh, SccCh24g), NO_ENTRY, Each(SccCh24g, Pcl24gSccCh, SccCh24g),
            Each(SccCh24g, Pcl24gSccCh, SccCh24g), NO_ENTRY)
    case (Mcc5, OneOne) =>
      Cells(Each(MccCh24g, Pcl24g, Pcl24g), NO_ENTRY, Each(MccCh24g, Pcl24g, Pcl24g), Each(MccCh24g, Pcl24g, Pcl24g),
            NO_ENTRY)
    case (Mcc5, TwoTwo) =>
      Cells(Each(MccCh24g, Pcl24g, Pcl24g), NO_ENTRY, Each(MccCh24g, Pcl24g, Pcl24g), Each(MccCh24g, Pcl24g, Pcl24g),
            NO_ENTRY)
    case (Mcc24And5, OneOne) =>
      Cells(Each(MccCh5g, Pcl5g, Pcl5g), NO_ENTRY, Each(MccCh24g, Pcl24g, Pcl24g), Each(MccCh24g, Pcl24g, Pcl24g),
            NO_ENTRY)
    case (Mcc24And5, TwoTwo) =>
      Cells(Each(MccCh5g, Pcl5g, Pcl5g), NO_ENTRY, Each(MccCh24g, Pcl24g, Pcl24g), Each(MccCh24g, Pcl24g, Pcl24g),
            NO_ENTRY)
    case (Dbs, _) =>
      Cells(Each(SccOn5SccOn24With5g, PclNone, SccOn5SccOn24), NO_ENTRY,
            Each(SccOn5SccOn24With5g, PclNone, SccOn5SccOn24), Each(SccOn5SccOn24With5g, PclNone, SccOn5SccOn24),
            NO_ENTRY)
  }

  function StaP2pCliDbs(share: Share, chain: Chain): Cells {
    match (share, chain)
    case (Scc24, OneOne) => Cells(NO_ENTRY, NO_ENTRY, All(Pcl5gSccCh), All(Pcl5gSccCh), NO_ENTRY)
    case (Scc24, TwoTwo) => Cells(NO_ENTRY, NO_ENTRY, All(Pcl5gSccCh), All(Pcl5gSccCh), NO_ENTRY)
    case (Mcc24, OneOne) =>
      Cells(NO_ENTRY, NO_ENTRY, Each(Pcl5gMccCh, Pcl5g, Pcl5gMccCh), Each(Pcl5gMccCh, Pcl5g, Pcl5gMccCh), NO_ENTRY)
    case (Mcc24, TwoTwo) =>
      Cells(NO_ENTRY, NO_ENTRY, Each(Pcl5gMccCh, Pcl5g, Pcl5gMccCh), Each(Pcl5gMccCh, Pcl5g, Pcl5gMccCh), NO_ENTRY)
    case (Scc5, OneOne) =>
      Cells(NO_ENTRY, NO_ENTRY, Each(SccCh24g, Pcl24gSccCh, SccCh24g), Each(SccCh24g, Pcl24gSccCh, SccCh24g), NO_ENTRY)
    case (Scc5, TwoTwo) =>
      Cells(NO_ENTRY, NO_ENTRY, Each(SccCh24g, Pcl24gSccCh, SccCh24g), Each(SccCh24g, Pcl24gSccCh, SccCh24g), NO_ENTRY)
    case (Mcc5, OneOne) =>
      Cells(NO_ENTRY, NO_ENTRY, Each(MccCh24g, Pcl24g, MccCh24g), Each(MccCh24g, Pcl24g, MccCh24g), NO_ENTRY)
    case (Mcc5, TwoTwo) =>
      Cells(NO_ENTRY, NO_ENTRY, Each(MccCh24g, Pcl24g, MccCh24g), Each(MccCh24g, Pcl24g, MccCh24g), All(PclNone))
    case (Mcc24And5, OneOne) =>
      Cells(NO_ENTRY, NO_ENTRY, Each(MccCh24g, Pcl24g, MccCh24g), Each(MccCh24g, Pcl24g, MccCh24g), NO_ENTRY)
    case (Mcc24And5, TwoTwo) =>
      Cells(NO_ENTRY, NO_ENTRY, Each(MccCh24g, Pcl24g, MccCh24g), Each(MccCh24g, Pcl24g, MccCh24g), NO_ENTRY)
    case (Dbs, _) =>
      Cells(NO_ENTRY, NO_ENTRY, Each(SccOn5SccOn24With5g, PclNone, SccOn5SccOn24),
            Each(SccOn5SccOn24With5g, PclNone, SccOn5SccOn24), NO_ENTRY)
  }

  function P2pGoP2pCliDbs(share: Share, chain: Chain): Cells {
    match (share, chain)
    case (Scc24, OneOne) => Cells(All(Pcl5gSccCh), All(Pcl5gSccCh), All(Pcl5gSccCh), All(Pcl5gSccCh), NO_ENTRY)
    case (Scc24, TwoTwo) => Cells(All(Pcl5gSccCh), All(Pcl5gSccCh), All(Pcl5gSccCh), All(Pcl5gSccCh), NO_ENTRY)
    case (Mcc24, OneOne) =>
      Cells(Each(Pcl5gMccCh, Pcl5g, Pcl5gMccCh), Each(Pcl5gMccCh, Pcl5g, Pcl5gMccCh),
            Each(Pcl5gMccCh, Pcl5g, Pcl5gMccCh), Each(Pcl5gMccCh, Pcl5g, Pcl5gMccCh), NO_ENTRY)
    case (Mcc24, TwoTwo) =>
      Cells(Each(Pcl5gMccCh, Pcl5g, Pcl5gMccCh), Each(Pcl5gMccCh, Pcl5g, Pcl5gMccCh),
            Each(Pcl5gMccCh, Pcl5g, Pcl5gMccCh), Each(Pcl5gMccCh, Pcl5g, Pcl5gMccCh), NO_ENTRY)
    case (Scc5, OneOne) =>
      Cells(Each(SccCh24g, Pcl24gSccCh, SccCh24g), Each(SccCh24g, Pcl24gSccCh, SccCh24g),
            Each(SccCh24g, Pcl24gSccCh, SccCh24g), Each(SccCh24g, Pcl24gSccCh, SccCh24g), NO_ENTRY)
    case (Scc5, TwoTwo) =>
      Cells(Each(SccCh24g, Pcl24gSccCh, SccCh24g), Each(SccCh24g, Pcl24gSccCh, SccCh24g),
            Each(SccCh24g, Pcl24gSccCh, SccCh24g), Each(SccCh24g, Pcl24gSccCh, SccCh24g), NO_ENTRY)
    case (Mcc5, OneOne) =>
      Cells(Each(MccCh24g, Pcl24g, Pcl24g), All(Pcl24g), Each(MccCh24g, Pcl24g, Pcl24g), Each(MccCh24g, Pcl24g, Pcl24g),
            NO_ENTRY)
    case (Mcc5, TwoTwo) =>
      Cells(Each(MccCh24g, Pcl24g, Pcl24g), All(Pcl24g), Each(MccCh24g, Pcl24g, Pcl24g), Each(MccCh24g, Pcl24g, Pcl24g),
            NO_ENTRY)
    case (Mcc24And5, OneOne) =>
      Cells(Each(MccCh5g, Pcl5g, Pcl5g), All(Pcl24g), Each(MccCh24g, Pcl24g, Pcl24g), Each(MccCh24g, Pcl24g, Pcl24g),
            NO_ENTRY)
    case (Mcc24And5, TwoTwo) =>
      Cells(Each(MccCh5g, Pcl5g, Pcl5g), All(Pcl24g), Each(MccCh24g, Pcl24g, Pcl24g), Each(MccCh24g, Pcl24g, Pcl24g),
            NO_ENTRY)
    case (Dbs, _) =>
      Cells(Each(SccOn5SccOn24With5g, PclNone, SccOn5SccOn24), Each(SccOn5SccOn24With5g, PclNone, SccOn5SccOn24),
            Each(SccOn5SccOn24With5g, PclNone, SccOn5SccOn24), Each(SccOn5SccOn24With5g, PclNone, SccOn5SccOn24),
            NO_ENTRY)
  }

  function P2pGoSapDbs(share: Share, chain: Chain): Cells {
    match (share, chain)
    case (Scc24, OneOne) => Cells(NO_ENTRY, NO_ENTRY, NO_ENTRY, NO_ENTRY, NO_ENTRY)
    case (Scc24, TwoTwo) => Cells(NO_ENTRY, NO_ENTRY, NO_ENTRY, NO_ENTRY, NO_ENTRY)
    case (Mcc24, OneOne) => Cells(NO_ENTRY, NO_ENTRY, NO_ENTRY, NO_ENTRY, NO_ENTRY)
    case (Mcc24, TwoTwo) => Cells(NO_ENTRY, NO_ENTRY, NO_ENTRY, NO_ENTRY, NO_ENTRY)
    case (Scc5, OneOne) => Cells(NO_ENTRY, NO_ENTRY, NO_ENTRY, NO_ENTRY, NO_ENTRY)
    case (Scc5, TwoTwo) => Cells(NO_ENTRY, NO_ENTRY, NO_ENTRY, NO_ENTRY, NO_ENTRY)
    case (Mcc5, OneOne) => Cells(NO_ENTRY, NO_ENTRY, NO_ENTRY, NO_ENTRY, NO_ENTRY)
    case (Mcc5, TwoTwo) => Cells(NO_ENTRY, NO_ENTRY, NO_ENTRY, NO_ENTRY, NO_ENTRY)
    case (Mcc24And5, OneOne) => Cells(NO_ENTRY, NO_ENTRY, NO_ENTRY, NO_ENTRY, NO_ENTRY)
    case (Mcc24And5, TwoTwo) => Cells(NO_ENTRY, NO_ENTRY, NO_ENTRY, NO_ENTRY, NO_ENTRY)
    case (Dbs, _) => Cells(NO_ENTRY, NO_ENTRY, NO_ENTRY, NO_ENTRY, NO_ENTRY)
  }

  function P2pCliSapDbs(share: Share, chain: Chain): Cells {
    match (share, chain)
    case (Scc24, OneOne) => Cells(NO_ENTRY, NO_ENTRY, NO_ENTRY, NO_ENTRY, NO_ENTRY)
    case (Scc24, TwoTwo) => Cells(NO_ENTRY, NO_ENTRY, NO_ENTRY, NO_ENTRY, NO_ENTRY)
    case (Mcc24, OneOne) => Cells(NO_ENTRY, NO_ENTRY, NO_ENTRY, NO_ENTRY, NO_ENTRY)
    case (Mcc24, TwoTwo) => Cells(NO_ENTRY, NO_ENTRY, NO_ENTRY, NO_ENTRY, NO_ENTRY)
    case (Scc5, OneOne) => Cells(NO_ENTRY, NO_ENTRY, NO_ENTRY, NO_ENTRY, NO_ENTRY)
    case (Scc5, TwoTwo) => Cells(NO_ENTRY, NO_ENTRY, NO_ENTRY, NO_ENTRY, NO_ENTRY)
    case (Mcc5, OneOne) => Cells(NO_ENTRY, NO_ENTRY, NO_ENTRY, NO_ENTRY, NO_ENTRY)
    case (Mcc5, TwoTwo) => Cells(NO_ENTRY, NO_ENTRY, NO_ENTRY, NO_ENTRY, NO_ENTRY)
    case (Mcc24And5, OneOne) => Cells(NO_ENTRY, NO_ENTRY, NO_ENTRY, NO_ENTRY, NO_ENTRY)
    case (Mcc24And5, TwoTwo) => Cells(NO_ENTRY, NO_ENTRY, NO_ENTRY, NO_ENTRY, NO_ENTRY)
    case (Dbs, _) => Cells(NO_ENTRY, NO_ENTRY, NO_ENTRY, NO_ENTRY, NO_ENTRY)
  }

  function ThirdDbsData(row: TwoConn): Cells {
    match row.pair
    case StaSap => StaSapDbs(row.share, row.chain)
    case StaP2pGo => StaP2pGoDbs(row.share, row.chain)
    case StaP2pCli => StaP2pCliDbs(row.share, row.chain)
    case P2pGoP2pCli => P2pGoP2pCliDbs(row.share, row.chain)
    case P2pGoSap => P2pGoSapDbs(row.share, row.chain)
    case P2pCliSap => P2pCliSapDbs(row.share, row.chain)
  }

  function StaSapNoDbs(share: Share, chain: Chain): Cells {
    match (share, chain)
    case (Scc24, OneOne) => Cells(Each(Pcl5g, SccCh, SccCh), Each(SccCh5g, SccCh, SccCh), NO_ENTRY, NO_ENTRY, NO_ENTRY)
    case (Scc24, TwoTwo) => Cells(Each(Pcl5g, SccCh, SccCh), Each(SccCh5g, SccCh, SccCh), NO_ENTRY, NO_ENTRY, NO_ENTRY)
    case (Mcc24, OneOne) =>
      Cells(Each(Pcl5gMccCh, MccCh, MccCh), Each(Pcl5gMccCh, MccCh, MccCh), NO_ENTRY, NO_ENTRY, NO_ENTRY)
    case (Mcc24, TwoTwo) =>
      Cells(Each(Pcl5gMccCh, MccCh, MccCh), Each(Pcl5gMccCh, MccCh, MccCh), NO_ENTRY, NO_ENTRY, NO_ENTRY)
    case (Scc5, OneOne) => Cells(All(SccCh), All(SccCh), NO_ENTRY, NO_ENTRY, NO_ENTRY)
    case (Scc5, TwoTwo) => Cells(All(SccCh), All(SccCh), NO_ENTRY, NO_ENTRY, NO_ENTRY)
    case (Mcc5, OneOne) => Cells(All(MccCh), All(MccCh), NO_ENTRY, NO_ENTRY, NO_ENTRY)
    case (Mcc5, TwoTwo) => Cells(All(MccCh), All(MccCh), NO_ENTRY, NO_ENTRY, NO_ENTRY)
    case (Mcc24And5, OneOne) => Cells(All(MccCh), All(MccCh), NO_ENTRY, NO_ENTRY, NO_ENTRY)
    case (Mcc24And5, TwoTwo) => Cells(All(MccCh), All(MccCh), NO_ENTRY, NO_ENTRY, NO_ENTRY)
    case (Dbs, _) => Cells(NO_ENTRY, NO_ENTRY, NO_ENTRY, NO_ENTRY, NO_ENTRY)
  }

  function StaP2pGoNoDbs(share: Share, chain: Chain): Cells {
    match (share, chain)
    case (Scc24, OneOne) =>
      Cells(Each(Pcl5g, SccCh, SccCh), NO_ENTRY, Each(Pcl5g, SccCh, SccCh), Each(Pcl5gSccCh, SccCh, SccCh), NO_ENTRY)
    case (Scc24, TwoTwo) =>
      Cells(Each(Pcl5g, SccCh, SccCh), NO_ENTRY, Each(Pcl5g, SccCh, SccCh), Each(Pcl5gSccCh, SccCh, SccCh), NO_ENTRY)
    case (Mcc24, OneOne) =>
      Cells(Each(Pcl5gMccCh, MccCh, MccCh), NO_ENTRY, Each(Pcl5gMccCh, MccCh, MccCh), Each(Pcl5gMccCh, MccCh, MccCh),
            NO_ENTRY)
    case (Mcc24, TwoTwo) =>
      Cells(Each(Pcl5gMccCh, MccCh, MccCh), NO_ENTRY, Each(Pcl5gMccCh, MccCh, MccCh), Each(Pcl5gMccCh, MccCh, MccCh),
            NO_ENTRY)
    case (Scc5, OneOne) => Cells(All(SccCh), NO_ENTRY, All(SccCh), All(SccCh), NO_ENTRY)
    case (Scc5, TwoTwo) => Cells(All(SccCh), NO_ENTRY, All(SccCh), All(SccCh), NO_ENTRY)
    case (Mcc5, OneOne) => Cells(All(MccCh), NO_ENTRY, All(MccCh), All(MccCh), NO_ENTRY)
    case (Mcc5, TwoTwo) => Cells(All(MccCh), NO_ENTRY, All(MccCh), All(MccCh), NO_ENTRY)
    case (Mcc24And5, OneOne) => Cells(All(MccCh), NO_ENTRY, All(MccCh), All(MccCh), NO_ENTRY)
    case (Mcc24And5, TwoTwo) => Cells(All(MccCh), NO_ENTRY, All(MccCh), All(MccCh), NO_ENTRY)
    case (Dbs, _) => Cells(NO_ENTRY, NO_ENTRY, NO_ENTRY, NO_ENTRY, NO_ENTRY)
  }

  function StaP2pCliNoDbs(share: Share, chain: Chain): Cells {
    match (share, chain)
    case (Scc24, OneOne) =>
      Cells(NO_ENTRY, NO_ENTRY, Each(Pcl5gSccCh, SccCh, SccCh), Each(Pcl5gSccCh, SccCh, SccCh), NO_ENTRY)
    case (Scc24, TwoTwo) =>
      Cells(NO_ENTRY, NO_ENTRY, Each(Pcl5gSccCh, SccCh, SccCh), Each(Pcl5gSccCh, SccCh, SccCh), NO_ENTRY)
    case (Mcc24, OneOne) =>
      Cells(NO_ENTRY, NO_ENTRY, Each(Pcl5gMccCh, MccCh, MccCh), Each(Pcl5gMccCh, MccCh, MccCh), NO_ENTRY)
    case (Mcc24, TwoTwo) =>
      Cells(NO_ENTRY, NO_ENTRY, Each(Pcl5gMccCh, MccCh, MccCh), Each(Pcl5gMccCh, MccCh, MccCh), NO_ENTRY)
    case (Scc5, OneOne) => Cells(NO_ENTRY, NO_ENTRY, All(SccCh), All(SccCh), NO_ENTRY)
    case (Scc5, TwoTwo) => Cells(NO_ENTRY, NO_ENTRY, All(SccCh), All(SccCh), NO_ENTRY)
    case (Mcc5, OneOne) => Cells(NO_ENTRY, NO_ENTRY, All(MccCh), All(MccCh), NO_ENTRY)
    case (Mcc5, TwoTwo) => Cells(NO_ENTRY, NO_ENTRY, All(MccCh), All(MccCh), NO_ENTRY)
    case (Mcc24And5, OneOne) => Cells(NO_ENTRY, NO_ENTRY, All(MccCh), All(MccCh), NO_ENTRY)
    case (Mcc24And5, TwoTwo) => Cells(NO_ENTRY, NO_ENTRY, All(MccCh), All(MccCh), NO_ENTRY)
    case (Dbs, _) => Cells(NO_ENTRY, NO_ENTRY, NO_ENTRY, NO_ENTRY, NO_ENTRY)
  }

  function P2pGoP2pCliNoDbs(share: Share, chain: Chain): Cells {
    match (share, chain)
    case (Scc24, OneOne) =>
      Cells(Each(Pcl5g, SccCh, SccCh), Each(SccCh5g, SccCh, SccCh), Each(Pcl5g, SccCh, SccCh),
            Each(Pcl5gSccCh, SccCh, SccCh), NO_ENTRY)
    case (Scc24, TwoTwo) =>
      Cells(Each(Pcl5g, SccCh, SccCh), Each(SccCh5g, SccCh, SccCh), Each(Pcl5g, SccCh, SccCh),
            Each(Pcl5gSccCh, SccCh, SccCh), NO_ENTRY)
    case (Mcc24, OneOne) =>
      Cells(Each(Pcl5gMccCh, MccCh, MccCh), Each(Pcl5gMccCh, MccCh, MccCh), Each(Pcl5gMccCh, MccCh, MccCh),
            Each(Pcl5gMccCh, MccCh, MccCh), NO_ENTRY)
    case (Mcc24, TwoTwo) =>
      Cells(Each(Pcl5gMccCh, MccCh, MccCh), Each(Pcl5gMccCh, MccCh, MccCh), Each(Pcl5gMccCh, MccCh, MccCh),
            Each(Pcl5gMccCh, MccCh, MccCh), NO_ENTRY)
    case (Scc5, OneOne) => Cells(All(SccCh), All(SccCh), All(SccCh), All(SccCh), NO_ENTRY)
    case (Scc5, TwoTwo) => Cells(All(SccCh), All(SccCh), All(SccCh), All(SccCh), NO_ENTRY)
    case (Mcc5, OneOne) => Cells(All(MccCh), All(MccCh), All(MccCh), All(MccCh), NO_ENTRY)
    case (Mcc5, TwoTwo) => Cells(All(MccCh), All(MccCh), All(MccCh), All(MccCh), NO_ENTRY)
    case (Mcc24And5, OneOne) => Cells(All(MccCh), All(MccCh), All(MccCh), All(MccCh), NO_ENTRY)
    case (Mcc24And5, TwoTwo) => Cells(All(MccCh), All(MccCh), All(MccCh), All(MccCh), NO_ENTRY)
    case (Dbs, _) => Cells(NO_ENTRY, NO_ENTRY, NO_ENTRY, NO_ENTRY, NO_ENTRY)
  }

  function P2pGoSapNoDbs(share: Share, chain: Chain): Cells {
    match (share, chain)
    case (Scc24, OneOne) => Cells(NO_ENTRY, NO_ENTRY, NO_ENTRY, NO_ENTRY, NO_ENTRY)
    case (Scc24, TwoTwo) => Cells(NO_ENTRY, NO_ENTRY, NO_ENTRY, NO_ENTRY, NO_ENTRY)
    case (Mcc24, OneOne) => Cells(NO_ENTRY, NO_ENTRY, NO_ENTRY, NO_ENTRY, NO_ENTRY)
    case (Mcc24, TwoTwo) => Cells(NO_ENTRY, NO_ENTRY, NO_ENTRY, NO_ENTRY, NO_ENTRY)
    case (Scc5, OneOne) => Cells(NO_ENTRY, NO_ENTRY, NO_ENTRY, NO_ENTRY, NO_ENTRY)
    case (Scc5, TwoTwo) => Cells(NO_ENTRY, NO_ENTRY, NO_ENTRY, NO_ENTRY, NO_ENTRY)
    case (Mcc5, OneOne) => Cells(NO_ENTRY, NO_ENTRY, NO_ENTRY, NO_ENTRY, NO_ENTRY)
    case (Mcc5, TwoTwo) => Cells(NO_ENTRY, NO_ENTRY, NO_ENTRY, NO_ENTRY, NO_ENTRY)
    case (Mcc24And5, OneOne) => Cells(NO_ENTRY, NO_ENTRY, NO_ENTRY, NO_ENTRY, NO_ENTRY)
    case (Mcc24And5, TwoTwo) => Cells(NO_ENTRY, NO_ENTRY, NO_ENTRY, NO_ENTRY, NO_ENTRY)
    case (Dbs, _) => Cells(NO_ENTRY, NO_ENTRY, NO_ENTRY, NO_ENTRY, NO_ENTRY)
  }

  function P2pCliSapNoDbs(share: Share, chain: Chain): Cells {
    match (share, chain)
    case (Scc24, OneOne) => Cells(NO_ENTRY, NO_ENTRY, NO_ENTRY, NO_ENTRY, NO_ENTRY)
    case (Scc24, TwoTwo) => Cells(NO_ENTRY, NO_ENTRY, NO_ENTRY, NO_ENTRY, NO_ENTRY)
    case (Mcc24, OneOne) => Cells(NO_ENTRY, NO_ENTRY, NO_ENTRY, NO_ENTRY, NO_ENTRY)
    case (Mcc24, TwoTwo) => Cells(NO_ENTRY, NO_ENTRY, NO_ENTRY, NO_ENTRY, NO_ENTRY)
    case (Scc5, OneOne) => Cells(NO_ENTRY, NO_ENTRY, NO_ENTRY, NO_ENTRY, NO_ENTRY)
    case (Scc5, TwoTwo) => Cells(NO_ENTRY, NO_ENTRY, NO_ENTRY, NO_ENTRY, NO_ENTRY)
    case (Mcc5, OneOne) => Cells(NO_ENTRY, NO_ENTRY, NO_ENTRY, NO_ENTRY, NO_ENTRY)
    case (Mcc5, TwoTwo) => Cells(NO_ENTRY, NO_ENTRY, NO_ENTRY, NO_ENTRY, NO_ENTRY)
    case (Mcc24And5, OneOne) => Cells(NO_ENTRY, NO_ENTRY, NO_ENTRY, NO_ENTRY, NO_ENTRY)
    case (Mcc24And5, TwoTwo) => Cells(NO_ENTRY, NO_ENTRY, NO_ENTRY, NO_ENTRY, NO_ENTRY)
    case (Dbs, _) => Cells(NO_ENTRY, NO_ENTRY, NO_ENTRY, NO_ENTRY, NO_ENTRY)
  }

  function ThirdNoDbsData(row: TwoConn): Cells {
    match row.pair
    case StaSap => StaSapNoDbs(row.share, row.chain)
    case StaP2pGo => StaP2pGoNoDbs(row.share, row.chain)
    case StaP2pCli => StaP2pCliNoDbs(row.share, row.chain)
    case P2pGoP2pCli => P2pGoP2pCliNoDbs(row.share, row.chain)
    case P2pGoSap => P2pGoSapNoDbs(row.share, row.chain)
    case P2pCliSap => P2pCliSapNoDbs(row.share, row.chain)
  }

  function NextActionTwoData(row: OneConn): Actions {
    match (row.mode, row.on24, row.chain)
    case (Sta, true, OneOne) => Actions(Nop, ToDbs)
    case (Sta, true, TwoTwo) => Actions(Nop, ToDbsDowngrade)
    case (Sta, false, OneOne) => Actions(ToDbs, Nop)
    case (Sta, false, TwoTwo) => Actions(ToDbsDowngrade, Nop)
    case (P2pClient, true, OneOne) => Actions(Nop, ToDbs)
    case (P2pClient, true, TwoTwo) => Actions(Nop, ToDbsDowngrade)
    case (P2pClient, false, OneOne) => Actions(ToDbs, Nop)
    case (P2pClient, false, TwoTwo) => Actions(ToDbsDowngrade, Nop)
    case (P2pGo, true, OneOne) => Actions(Nop, ToDbs)
    case (P2pGo, true, TwoTwo) => Actions(Nop, ToDbsDowngrade)
    case (P2pGo, false, OneOne) => Actions(ToDbs, Nop)
    case (P2pGo, false, TwoTwo) => Actions(ToDbsDowngrade, Nop)
    case (Sap, true, OneOne) => Actions(Nop, ToDbs)
    case (Sap, true, TwoTwo) => Actions(Nop, ToDbsDowngrade)
    case (Sap, false, OneOne) => Actions(ToDbs, Nop)
    case (Sap, false, TwoTwo) => Actions(ToDbsDowngrade, Nop)
    case (Ibss, true, OneOne) => Actions(Nop, ToDbs)
    case (Ibss, true, TwoTwo) => Actions(Nop, ToDbsDowngrade)
    case (Ibss, false, OneOne) => Actions(ToDbs, Nop)
    case (Ibss, false, TwoTwo) => Actions(ToDbsDowngrade, Nop)
  }

  /** The rows of the six pairs of modes are the same. */
  function NextActionThreeData(row: TwoConn): Actions {
    match (row.share, row.chain)
    case (Scc24, OneOne) => Actions(Nop, ToDbs)
    case (Scc24, TwoTwo) => Actions(Nop, ToDbsDowngrade)
    case (Mcc24, OneOne) => Actions(Nop, ToDbs)
    case (Mcc24, TwoTwo) => Actions(Nop, ToDbsDowngrade)
    case (Scc5, OneOne) => Actions(ToDbs, Nop)
    case (Scc5, TwoTwo) => Actions(ToDbsDowngrade, Nop)
    case (Mcc5, OneOne) => Actions(ToDbs, Nop)
    case (Mcc5, TwoTwo) => Actions(ToDbsDowngrade, Nop)
    case (Mcc24And5, OneOne) => Actions(ToDbs, ToDbs)
    case (Mcc24And5, TwoTwo) => Actions(ToDbsDowngrade, ToDbsDowngrade)
    case (Dbs, _) => Actions(Nop, Nop)
  }

  // --------------------------------------------------------------- the same functions

  lemma FirstTableIsData(mode: Mode)
    ensures FirstData(mode) == All(FirstTable(mode))
  {
  }

  lemma SecondDbsTableIsData(row: OneConn, mode: Mode)
    ensures SecondDbsData(row).At(mode)
            == Each(SecondDbsTable(row, mode, Throughput), SecondDbsTable(row, mode, Powersave),
                    SecondDbsTable(row, mode, Latency))
  {
  }

  lemma SecondNoDbsTableIsData(row: OneConn, mode: Mode)
    ensures SecondNoDbsData(row).At(mode)
            == Each(SecondNoDbsTable(row, mode, Throughput), SecondNoDbsTable(row, mode, Powersave),
                    SecondNoDbsTable(row, mode, Latency))
  {
  }

  function ThirdDbsEntries(row: TwoConn, mode: Mode): Triple {
    Each(ThirdDbsTable(row, mode, Throughput), ThirdDbsTable(row, mode, Powersave), ThirdDbsTable(row, mode, Latency))
  }

  lemma ThirdDbsTableIsData(row: TwoConn, mode: Mode)
    ensures ThirdDbsData(row).At(mode) == ThirdDbsEntries(row, mode)
  {
    match row.pair
    case StaSap => StaSapDbsRows(row, mode);
    case StaP2pGo => StaGoDbsRows(row, mode);
    case StaP2pCli => StaClientDbsRows(row, mode);
    case P2pGoP2pCli => ClientGoDbsRows(row, mode);
    case P2pGoSap | P2pCliSap =>
  }

  lemma StaSapDbsRows(row: TwoConn, mode: Mode)
    requires row.pair == StaSap
    ensures ThirdDbsData(row).At(mode) == ThirdDbsEntries(row, mode)
  {
  }

  lemma StaGoDbsRows(row: TwoConn, mode: Mode)
    requires row.pair == StaP2pGo
    ensures ThirdDbsData(row).At(mode) == ThirdDbsEntries(row, mode)
  {
  }

  lemma StaClientDbsRows(row: TwoConn, mode: Mode)
    requires row.pair == StaP2pCli
    ensures ThirdDbsData(row).At(mode) == ThirdDbsEntries(row, mode)
  {
  }

  lemma ClientGoDbsRows(row: TwoConn, mode: Mode)
    requires row.pair == P2pGoP2pCli
    ensures ThirdDbsData(row).At(mode) == ThirdDbsEntries(row, mode)
  {
  }

  lemma ThirdNoDbsTableIsData(row: TwoConn, mode: Mode)
    ensures ThirdNoDbsData(row).At(mode)
            == Each(ThirdNoDbsTable(row, mode, Throughput), ThirdNoDbsTable(row, mode, Powersave),
                    ThirdNoDbsTable(row, mode, Latency))
  {
  }

  lemma NextActionTablesAreData(one: OneConn, two: TwoConn, newOn24: bool)
    ensures NextActionTwoTable(one, newOn24)
            == if newOn24 then NextActionTwoData(one).on24 else NextActionTwoData(one).on5
    ensures NextActionThreeTable(two, newOn24)
            == if newOn24 then NextActionThreeData(two).on24 else NextActionThreeData(two).on5
  {
  }
}
