/** The reasons for which a new connection is refused, each spelled out over the table, and
    that these are all the reasons there are. */
module AdmissionRules {
  import opened ConnTypes
  import opened PclTables
  import opened PclCases
  import opened Admission
  import opened Wrappers

  datatype Reason = NoList | SubTwenty | Sessions | HomeChannel | BesideDfs | OnDfs | IbssRule | GoBand

  predicate In24(chan: nat) {
    1 <= chan <= 13
  }

  predicate In5(chan: nat) {
    36 <= chan <= 184
  }

  /** The list of channels cannot be had. */
  ghost predicate ListFails(p: Platform, env: Env, conns: seq<Conn>, mode: Mode) {
    || PclTypeFor(p, conns, mode) == None
    || PclTypeFor(p, conns, mode) == Some(MaxPclType)
    || (env.validChans == None && PclTypeFor(p, conns, mode) != Some(PclNone))
    || (mode == Sap && env.mandatory != [] && forall i :: 0 <= i < |env.mandatory| ==> !In24(env.mandatory[i]))
  }

  /** Two connections use two channels of one MAC, and the newcomer would add a third: on
      DBS hardware all three in one band, without it any third channel. */
  ghost predicate ThirdHomeChannel(p: Platform, conns: seq<Conn>, chan: nat) {
    && |conns| == 2 && chan != 0
    && conns[0].chan != conns[1].chan && conns[0].mac == conns[1].mac
    && if p.dbsCapable then
         || (In24(conns[0].chan) && In24(conns[1].chan) && In24(chan))
         || (In5(conns[0].chan) && In5(conns[1].chan) && In5(chan))
       else chan != conns[0].chan && chan != conns[1].chan
  }

  /** An IBSS beside anything but a lone STA on DBS hardware, or on a DFS channel, or on
      another channel of the STA's band; a STA beside an IBSS likewise, where only 5 GHz
      beside a DFS channel counts. */
  ghost predicate IbssRefused(p: Platform, conns: seq<Conn>, mode: Mode, chan: nat) {
    || (mode == Ibss && conns != []
        && (!p.dbsCapable || |conns| > 1 || conns[0].mode != Sta || chan in p.dfs
            || TwoChannelsOfBand(conns[0].chan, chan)))
    || (mode == Sta && (exists i :: 0 <= i < |conns| && conns[i].mode == Ibss)
        && (!p.dbsCapable || |conns| > 1 || (conns[0].chan in p.dfs && In5(chan))
            || TwoChannelsOfBand(conns[0].chan, chan)))
  }

  predicate TwoChannelsOfBand(a: nat, b: nat) {
    a != 0 && b != 0 && a != b && (In5(a) <==> In5(b))
  }

  ghost predicate Applies(r: Reason, p: Platform, env: Env, conns: seq<Conn>, mode: Mode, chan: nat) {
    match r
    case NoList => ListFails(p, env, conns, mode)
    case SubTwenty => env.sub20 && |conns| > 0
    case Sessions => env.activeSessions >= p.maxSessions
    case HomeChannel => ThirdHomeChannel(p, conns, chan)
    case BesideDfs =>
      In5(chan) && exists i :: 0 <= i < |conns| && (conns[i].mode == Sap || conns[i].mode == P2pGo)
                               && conns[i].chan in p.dfs && conns[i].chan != chan
    case OnDfs =>
      (mode == Sap || mode == P2pGo) && chan != 0 && chan in p.dfs
      && exists i :: 0 <= i < |conns| && conns[i].chan != chan && (p.dbsCapable ==> In5(conns[i].chan))
    case IbssRule => IbssRefused(p, conns, mode, chan)
    case GoBand =>
      mode == P2pGo && chan != 0
      && exists i :: 0 <= i < |conns| && conns[i].mode == P2pGo && conns[i].chan != 0
                     && (In5(conns[i].chan) <==> In5(chan))
  }

  /** A connection is refused exactly when one of the reasons applies. */
  lemma RefusedForAReason(p: Platform, env: Env, conns: seq<Conn>, mode: Mode, chan: nat)
    ensures Allowed(p, env, conns, mode, chan) <==> forall r: Reason :: !Applies(r, p, env, conns, mode, chan)
  {
    ListReason(p, env, conns, mode, chan);
    ChannelReasons(p, env, conns, mode, chan);
    IbssReason(p, env, conns, mode, chan);
    GoReason(p, env, conns, mode, chan);
    assert SessionsOk(p, env, conns) <==>
           !Applies(SubTwenty, p, env, conns, mode, chan) && !Applies(Sessions, p, env, conns, mode, chan);
  }

  lemma ListReason(p: Platform, env: Env, conns: seq<Conn>, mode: Mode, chan: nat)
    ensures PclAvailable(p, env, conns, mode) <==> !Applies(NoList, p, env, conns, mode, chan)
  {
  }

  lemma ChannelReasons(p: Platform, env: Env, conns: seq<Conn>, mode: Mode, chan: nat)
    ensures ChannelOk(p, conns, mode, chan) <==>
            && !Applies(HomeChannel, p, env, conns, mode, chan)
            && !Applies(BesideDfs, p, env, conns, mode, chan)
            && !Applies(OnDfs, p, env, conns, mode, chan)
  {
    if chan != 0 {
      assert HomeChannelOk(p, conns, chan) <==> !Applies(HomeChannel, p, env, conns, mode, chan);
      assert BesideDfsOk(p, conns, chan) <==> !Applies(BesideDfs, p, env, conns, mode, chan);
      assert OnDfsOk(p, conns, mode, chan) <==> !Applies(OnDfs, p, env, conns, mode, chan);
    }
  }

  lemma IbssReason(p: Platform, env: Env, conns: seq<Conn>, mode: Mode, chan: nat)
    ensures IbssOk(p, conns, mode, chan) <==> !Applies(IbssRule, p, env, conns, mode, chan)
  {
    CountPositive(conns, Ibss);
  }

  lemma GoReason(p: Platform, env: Env, conns: seq<Conn>, mode: Mode, chan: nat)
    ensures GoOk(conns, mode, chan) <==> !Applies(GoBand, p, env, conns, mode, chan)
  {
  }

  // --------------------------------------------------------------------- examples

  /** On DBS hardware with STA and SAP on 1 and 6 of one MAC, a second STA may not come up
      on 11; on two MACs, or on 36, it may. */
  lemma ThirdChannelOfBand(p: Platform, env: Env, sta: Conn, sap: Conn)
    requires p.dbsCapable && p.dfs == {} && p.systemPref == 0 && env.activeSessions < p.maxSessions && !env.sub20
    requires env.validChans.Some? && sta.mode == Sta && sap.mode == Sap && sta.chan == 1 && sap.chan == 6
    ensures Allowed(p, env, [sta, sap], Sta, 11) <==> sta.mac != sap.mac
    ensures Allowed(p, env, [sta, sap], Sta, 36)
  {
    var row := TwoConn(StaSap, if sta.mac == sap.mac then Mcc24 else Dbs, sta.chain);
    TypeBesideTwo(p, sta, sap, Sta, row);
    RefusedForAReason(p, env, [sta, sap], Sta, 11);
    RefusedForAReason(p, env, [sta, sap], Sta, 36);
    assert Applies(HomeChannel, p, env, [sta, sap], Sta, 11) <==> sta.mac == sap.mac;
  }

  /** On DBS hardware an IBSS may come up beside a STA on the same channel or in the other
      band, and a STA beside an IBSS. */
  lemma IbssBesideSta(p: Platform, env: Env, c: Conn, chan: nat)
    requires p.dbsCapable && p.dfs == {} && env.activeSessions < p.maxSessions && !env.sub20 && env.validChans.Some?
    requires c.chan != 0 && chan != 0 && (c.chan == chan || (In5(c.chan) <==> !In5(chan)))
    ensures c.mode == Sta ==> Allowed(p, env, [c], Ibss, chan)
    ensures c.mode == Ibss ==> Allowed(p, env, [c], Sta, chan)
  {
    TypeBesideOne(p, c, Ibss);
    TypeBesideOne(p, c, Sta);
    RefusedForAReason(p, env, [c], Ibss, chan);
    RefusedForAReason(p, env, [c], Sta, chan);
  }
}
