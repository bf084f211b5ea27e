/** When a new connection may come up, stated over the sequence of current
    connections. The methods of ConnAdmission compute this over the slots. */
module Admission {
  import opened ConnTypes
  import opened PclTables
  import opened Wrappers

  /** The PCL type picked for a new connection; None when the two current
      connections form no known combination. */
  function PclTypeFor(p: Platform, conns: seq<Conn>, mode: Mode): Option<PclType> {
    var pref := PriorityOf(p.systemPref);
    if |conns| == 0 then Some(FirstTable(mode))
    else if |conns| == 1 then
      var row := OneConnIndex(conns[0]);
      Some(if p.dbsCapable then SecondDbsTable(row, mode, pref) else SecondNoDbsTable(row, mode, pref))
    else if |conns| == 2 then
      match TwoConnIndex(conns[0], conns[1])
      case None => None
      case Some(row) =>
        Some(if p.dbsCapable then ThirdDbsTable(row, mode, pref) else ThirdNoDbsTable(row, mode, pref))
    else Some(PclNone)
  }

  predicate MandatorySetUsable(env: Env) {
    env.mandatory == [] || exists i :: 0 <= i < |env.mandatory| && Is24(env.mandatory[i])
  }

  /** A PCL of this type can be built and filtered. */
  predicate TypeAvailable(env: Env, mode: Mode, pcl: PclType) {
    && pcl != MaxPclType
    && (pcl != PclNone ==> env.validChans.Some?)
    && (mode == Sap ==> MandatorySetUsable(env))
  }

  /** cds_get_pcl() succeeds. */
  predicate PclAvailable(p: Platform, env: Env, conns: seq<Conn>, mode: Mode) {
    match PclTypeFor(p, conns, mode)
    case None => false
    case Some(pcl) => TypeAvailable(env, mode, pcl)
  }

  /** No third home channel on one MAC. */
  predicate HomeChannelOk(p: Platform, conns: seq<Conn>, chan: nat) {
    |conns| == 2 && conns[0].chan != conns[1].chan && conns[0].mac == conns[1].mac ==>
      if p.dbsCapable then
        && !(Is24(chan) && Is24(conns[0].chan) && Is24(conns[1].chan))
        && !(Is5(chan) && Is5(conns[0].chan) && Is5(conns[1].chan))
      else
        chan == conns[0].chan || chan == conns[1].chan
  }

  /** Nothing joins the 5 GHz band next to a SAP or GO that sits on another, DFS channel. */
  predicate BesideDfsOk(p: Platform, conns: seq<Conn>, chan: nat) {
    forall i :: 0 <= i < |conns| && IsBeaconing(conns[i].mode) && conns[i].chan in p.dfs && Is5(chan) ==>
      conns[i].chan == chan
  }

  /** A SAP or GO does not start on a DFS channel while another connection would
      share its radio on a different channel. */
  predicate OnDfsOk(p: Platform, conns: seq<Conn>, mode: Mode, chan: nat) {
    IsBeaconing(mode) && chan in p.dfs ==>
      forall i :: 0 <= i < |conns| && (p.dbsCapable ==> Is5(conns[i].chan)) ==> conns[i].chan == chan
  }

  /** IBSS lives alone or, on DBS hardware, beside a single STA. */
  predicate IbssOk(p: Platform, conns: seq<Conn>, mode: Mode, chan: nat) {
    && (mode == Ibss && conns != [] ==>
          && p.dbsCapable
          && |conns| == 1
          && conns[0].mode == Sta
          && chan !in p.dfs
          && (conns[0].chan == chan || !SameBand(conns[0].chan, chan)))
    && (mode == Sta && Count(conns, Ibss) > 0 ==>
          && p.dbsCapable
          && |conns| == 1
          && !(chan != 0 && conns[0].chan in p.dfs && Is5(chan))
          && (conns[0].chan == chan || !SameBand(conns[0].chan, chan)))
  }

  /** One GO per band. */
  predicate GoOk(conns: seq<Conn>, mode: Mode, chan: nat) {
    mode == P2pGo ==>
      forall i :: 0 <= i < |conns| && conns[i].mode == P2pGo ==> !SameBand(chan, conns[i].chan)
  }

  predicate SessionsOk(p: Platform, env: Env, conns: seq<Conn>) {
    && (conns == [] || !env.sub20)
    && env.activeSessions < p.maxSessions
  }

  predicate ChannelOk(p: Platform, conns: seq<Conn>, mode: Mode, chan: nat) {
    chan != 0 ==>
      && HomeChannelOk(p, conns, chan)
      && BesideDfsOk(p, conns, chan)
      && OnDfsOk(p, conns, mode, chan)
  }

  /** cds_allow_concurrency() answers true. */
  predicate Allowed(p: Platform, env: Env, conns: seq<Conn>, mode: Mode, chan: nat) {
    && PclAvailable(p, env, conns, mode)
    && SessionsOk(p, env, conns)
    && ChannelOk(p, conns, mode, chan)
    && IbssOk(p, conns, mode, chan)
    && GoOk(conns, mode, chan)
  }

  /** What the table entries amount to: which modes can join two connections. */
  predicate PairAccepts(a: Mode, b: Mode, mode: Mode) {
    match PairOf(a, b)
    case None => false
    case Some(StaSap) => mode == Sta || mode == Sap
    case Some(StaP2pGo) => mode == Sta || mode == P2pClient || mode == P2pGo
    case Some(StaP2pCli) => mode == P2pClient || mode == P2pGo
    case Some(P2pGoP2pCli) => mode != Ibss
    case Some(P2pCliSap) | Some(P2pGoSap) => false
  }

  /** Admission of a third connection depends on the modes of the first two, in
      either order; the stray IBSS cell is unreachable because the IBSS rule
      refuses what the table would accept. */
  lemma ThirdAdmission(p: Platform, env: Env, conns: seq<Conn>, mode: Mode, chan: nat)
    requires |conns| == 2 && Allowed(p, env, conns, mode, chan)
    ensures PairAccepts(conns[0].mode, conns[1].mode, mode)
    ensures PairAccepts(conns[1].mode, conns[0].mode, mode)
  {
    assert IbssOk(p, conns, mode, chan) && mode != Ibss;
    assert TwoConnIndex(conns[0], conns[1]).Some?;
  }
}
