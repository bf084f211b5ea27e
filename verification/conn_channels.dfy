/** Channel rules over every run: which channels connections may hold side by side, and
    what a refresh without admission has to respect. */
module ConnChannels {
  import opened ConnTypes
  import opened Admission
  import opened ConnTableSpec
  import opened ConnRuns

  // ---------------------------------------------------------- pairs of channels

  /** The channels of an IBSS and a STA. */
  predicate IbssChannelsOk(p: Platform, ibss: nat, sta: nat) {
    && (ibss == sta || !SameBand(ibss, sta))
    && !(ibss in p.dfs && Is5(ibss) && Is5(sta))
  }

  /** IBSS shares the table with one STA at most, only on DBS hardware, never on two
      channels of one band, and never with both on 5 GHz when its channel is DFS. */
  predicate IbssPairOk(p: Platform, a: Conn, b: Conn) {
    a.mode == Ibss ==>
      && p.dbsCapable
      && b.mode == Sta
      && IbssChannelsOk(p, a.chan, b.chan)
  }

  /** Whatever is on 5 GHz beside a SAP or GO on a DFS channel is on that channel. */
  predicate DfsPairOk(p: Platform, a: Conn, b: Conn) {
    IsBeaconing(a.mode) && a.chan in p.dfs && Is5(b.chan) ==> a.chan == b.chan
  }

  predicate GoPairOk(a: Conn, b: Conn) {
    a.mode == P2pGo && b.mode == P2pGo ==> !SameBand(a.chan, b.chan)
  }

  predicate Compatible(p: Platform, a: Conn, b: Conn) {
    IbssPairOk(p, a, b) && DfsPairOk(p, a, b) && GoPairOk(a, b)
  }

  ghost predicate PairsOk(p: Platform, t: seq<Conn>) {
    forall i, j :: 0 <= i < |t| && 0 <= j < |t| && i != j ==> Compatible(p, t[i], t[j])
  }

  /** The two arrival orders: the newcomer against each resident, both ways round. */
  lemma AdmissionGivesCompatible(p: Platform, env: Env, t: seq<Conn>, c: Conn, i: nat)
    requires p.Valid() && |t| <= 2 && i < |t|
    requires Allowed(p, env, t, c.mode, c.chan)
    ensures Compatible(p, t[i], c) && Compatible(p, c, t[i])
  {
    IbssAdmission(p, env, t, c, i);
    assert BesideDfsOk(p, t, c.chan) || c.chan == 0;
    assert OnDfsOk(p, t, c.mode, c.chan) || c.chan == 0;
    assert GoOk(t, c.mode, c.chan);
  }

  lemma IbssAdmission(p: Platform, env: Env, t: seq<Conn>, c: Conn, i: nat)
    requires |t| <= 2 && i < |t|
    requires Allowed(p, env, t, c.mode, c.chan)
    ensures IbssPairOk(p, t[i], c) && IbssPairOk(p, c, t[i])
  {
    if t[i].mode == Ibss {
      CountPositive(t, Ibss);
      if |t| == 2 {
        ThirdAdmission(p, env, t, c.mode, c.chan);
      }
    }
  }

  /** Compatibility looks at mode and channel only, and not at positions. */
  lemma PairsOkRearranged(p: Platform, t: seq<Conn>, u: seq<Conn>, step: Step)
    requires PairsOk(p, t) && Rearranged(t, u, step)
    requires forall i :: 0 <= i < |u| ==> u[i].chan == t[Origin(t, step, i)].chan
    ensures PairsOk(p, u)
  {
    forall i, j | 0 <= i < |u| && 0 <= j < |u| && i != j ensures Compatible(p, u[i], u[j]) {
      assert i < j || j < i;
      assert Compatible(p, t[Origin(t, step, i)], t[Origin(t, step, j)]);
    }
  }

  lemma ConnectKeepsPairs(p: Platform, env: Env, t: seq<Conn>, c: Conn)
    requires p.Valid() && |t| <= 2 && PairsOk(p, t) && Allowed(p, env, t, c.mode, c.chan)
    ensures PairsOk(p, t + [c])
  {
    forall i, j | 0 <= i <= |t| && 0 <= j <= |t| && i != j
      ensures Compatible(p, (t + [c])[i], (t + [c])[j])
    {
      if i == |t| {
        AdmissionGivesCompatible(p, env, t, c, j);
      } else if j == |t| {
        AdmissionGivesCompatible(p, env, t, c, i);
      }
    }
  }

  lemma StepKeepsPairs(p: Platform, t: seq<Conn>, step: Step)
    requires p.Valid() && WellFormed(t) && PairsOk(p, t) && Enabled(p, t, step) && !step.Roam?
    ensures PairsOk(p, Apply(p, t, step))
  {
    if step.Connect? {
      if Apply(p, t, step) != t {
        ConnectKeepsPairs(p, step.env, t, step.conn);
      }
    } else {
      OriginsKeep(p, t, step);
      PairsOkRearranged(p, t, Apply(p, t, step), step);
    }
  }

  // ------------------------------------------------------------ refreshed channels

  /** A SAP or GO on a DFS channel wants the others on 5 GHz to be there too. */
  ghost predicate DfsStartOk(p: Platform, others: seq<Conn>, c: Conn) {
    IsBeaconing(c.mode) && c.chan in p.dfs ==>
      forall i :: 0 <= i < |others| && Is5(others[i].chan) ==> others[i].chan == c.chan
  }

  /** What a new channel for a live connection has to pass: the channel tests of
      admission, against the connections other than itself. */
  ghost predicate RefreshGuard(p: Platform, t: seq<Conn>, c: Conn) {
    var others := RemoveVdev(t, c.vdevId);
    && BesideDfsOk(p, others, c.chan)
    && DfsStartOk(p, others, c)
    && GoOk(others, c.mode, c.chan)
    && (forall i :: 0 <= i < |others| ==>
          && (c.mode == Ibss ==> IbssChannelsOk(p, c.chan, others[i].chan))
          && (others[i].mode == Ibss ==> IbssChannelsOk(p, others[i].chan, c.chan)))
  }

  lemma GuardMeansCompatible(p: Platform, others: seq<Conn>, c: Conn)
    ensures (forall i :: 0 <= i < |others| ==> Compatible(p, c, others[i]) && Compatible(p, others[i], c)) <==>
            && BesideDfsOk(p, others, c.chan)
            && DfsStartOk(p, others, c)
            && GoOk(others, c.mode, c.chan)
            && (forall i :: 0 <= i < |others| ==> IbssPairOk(p, c, others[i]) && IbssPairOk(p, others[i], c))
  {
    if forall i :: 0 <= i < |others| ==> Compatible(p, c, others[i]) && Compatible(p, others[i], c) {
      assert forall i :: 0 <= i < |others| ==> DfsPairOk(p, others[i], c) && DfsPairOk(p, c, others[i]);
      assert forall i :: 0 <= i < |others| ==> GoPairOk(c, others[i]);
    }
  }

  /** The refreshed entry against each other one, wherever it stands. */
  lemma ReplacedPairs(p: Platform, t: seq<Conn>, c: Conn)
    requires PairsOk(p, t) && FindVdev(t, c.vdevId) < |t|
    ensures PairsOk(p, Replace(t, c)) <==>
            forall j :: 0 <= j < |t| && j != FindVdev(t, c.vdevId) ==> Compatible(p, c, t[j]) && Compatible(p, t[j], c)
  {
    var (k, u) := (FindVdev(t, c.vdevId), Replace(t, c));
    assert u == t[k := c];
    if PairsOk(p, u) {
      forall j | 0 <= j < |t| && j != k ensures Compatible(p, c, t[j]) && Compatible(p, t[j], c) {
        assert Compatible(p, u[k], u[j]) && Compatible(p, u[j], u[k]);
      }
    }
  }

  lemma OthersAre(t: seq<Conn>, vdevId: nat, j: nat)
    requires FindVdev(t, vdevId) < |t| && j < |t| && j != FindVdev(t, vdevId)
    ensures var k := FindVdev(t, vdevId);
            (if j < k then j else j - 1) < |RemoveVdev(t, vdevId)|
            && RemoveVdev(t, vdevId)[if j < k then j else j - 1] == t[j]
  {
    RemoveVdevShifts(t, vdevId);
  }

  /** A refresh keeps modes, so that of the IBSS rule only the channels are left. */
  lemma IbssPartners(p: Platform, t: seq<Conn>, c: Conn)
    requires PairsOk(p, t) && FindVdev(t, c.vdevId) < |t| && t[FindVdev(t, c.vdevId)].mode == c.mode
    ensures var others := RemoveVdev(t, c.vdevId);
            (forall i :: 0 <= i < |others| ==> IbssPairOk(p, c, others[i]) && IbssPairOk(p, others[i], c)) <==>
            (forall i :: 0 <= i < |others| ==>
               && (c.mode == Ibss ==> IbssChannelsOk(p, c.chan, others[i].chan))
               && (others[i].mode == Ibss ==> IbssChannelsOk(p, others[i].chan, c.chan)))
  {
    var (k, others) := (FindVdev(t, c.vdevId), RemoveVdev(t, c.vdevId));
    RemoveVdevShifts(t, c.vdevId);
    forall i | 0 <= i < |others|
      ensures c.mode == Ibss ==> p.dbsCapable && others[i].mode == Sta
      ensures others[i].mode == Ibss ==> p.dbsCapable && c.mode == Sta
    {
      var j := if i < k then i else i + 1;
      assert Compatible(p, t[k], t[j]) && Compatible(p, t[j], t[k]);
    }
  }

  /** A refresh keeps the channel rules exactly when the new channel passes the guard. */
  lemma RefreshKeepsPairs(p: Platform, t: seq<Conn>, c: Conn)
    requires PairsOk(p, t) && FindVdev(t, c.vdevId) < |t| && t[FindVdev(t, c.vdevId)].mode == c.mode
    ensures PairsOk(p, Replace(t, c)) <==> RefreshGuard(p, t, c)
  {
    ReplacedPairs(p, t, c);
    SameOthers(p, t, c);
    GuardMeansCompatible(p, RemoveVdev(t, c.vdevId), c);
    IbssPartners(p, t, c);
  }

  lemma SameOthers(p: Platform, t: seq<Conn>, c: Conn)
    requires FindVdev(t, c.vdevId) < |t|
    ensures var (k, others) := (FindVdev(t, c.vdevId), RemoveVdev(t, c.vdevId));
            (forall j :: 0 <= j < |t| && j != k ==> Compatible(p, c, t[j]) && Compatible(p, t[j], c)) <==>
            (forall i :: 0 <= i < |others| ==> Compatible(p, c, others[i]) && Compatible(p, others[i], c))
  {
    var (k, others) := (FindVdev(t, c.vdevId), RemoveVdev(t, c.vdevId));
    RemoveVdevShifts(t, c.vdevId);
    if forall i :: 0 <= i < |others| ==> Compatible(p, c, others[i]) && Compatible(p, others[i], c) {
      forall j | 0 <= j < |t| && j != k ensures Compatible(p, c, t[j]) && Compatible(p, t[j], c) {
        OthersAre(t, c.vdevId, j);
      }
    }
  }

  /** For a STA, the usual case, two tests are left: the DFS channels of SAP and GO, and
      the IBSS. */
  lemma StaRefreshGuard(p: Platform, t: seq<Conn>, c: Conn)
    requires c.mode == Sta
    ensures var others := RemoveVdev(t, c.vdevId);
            RefreshGuard(p, t, c) <==>
            && BesideDfsOk(p, others, c.chan)
            && forall i :: 0 <= i < |others| && others[i].mode == Ibss ==> IbssChannelsOk(p, others[i].chan, c.chan)
  {
  }

  /** Every roam of the run meets the guard, against the table it finds. */
  ghost predicate RoamsGuarded(p: Platform, steps: seq<Step>)
    decreases |steps|
  {
    steps == [] ||
    (var n := |steps| - 1;
     && RoamsGuarded(p, steps[..n])
     && (steps[n].Roam? && Run(p, steps[..n]).Some? ==>
           RefreshGuard(p, Run(p, steps[..n]).value, steps[n].conn)))
  }

  /** Every table on the way is free of incompatible pairs. */
  ghost predicate AlwaysPairsOk(p: Platform, steps: seq<Step>)
    decreases |steps|
  {
    && (Run(p, steps).Some? ==> PairsOk(p, Run(p, steps).value))
    && (steps != [] ==> AlwaysPairsOk(p, steps[..|steps| - 1]))
  }

  /** Over every run, the channel rules hold throughout exactly when all roams meet the
      guard. */
  lemma {:induction false} RunKeepsPairs(p: Platform, steps: seq<Step>)
    requires p.Valid() && Run(p, steps).Some?
    ensures AlwaysPairsOk(p, steps) <==> RoamsGuarded(p, steps)
    decreases |steps|
  {
    if steps != [] {
      var n := |steps| - 1;
      var t := Run(p, steps[..n]).value;
      RunKeepsPairs(p, steps[..n]);
      RunWellFormed(p, steps[..n]);
      if PairsOk(p, t) {
        if steps[n].Roam? {
          RefreshKeepsPairs(p, t, steps[n].conn);
        } else {
          StepKeepsPairs(p, t, steps[n]);
        }
      }
    }
  }

  /** A table with an IBSS connection is that IBSS alone or with one STA. */
  lemma IbssStaysIsolated(p: Platform, steps: seq<Step>, i: nat)
    requires p.Valid() && Run(p, steps).Some? && RoamsGuarded(p, steps)
    requires i < |Run(p, steps).value| && Run(p, steps).value[i].mode == Ibss
    ensures var t := Run(p, steps).value;
            |t| == 1 ||
            (|t| == 2 && p.dbsCapable && t[1 - i].mode == Sta
             && (t[i].chan == t[1 - i].chan || !SameBand(t[i].chan, t[1 - i].chan))
             && !(t[i].chan in p.dfs && Is5(t[i].chan) && Is5(t[1 - i].chan)))
  {
    var t := Run(p, steps).value;
    NoForbiddenCombination(p, steps);
    RunWellFormed(p, steps);
    CountPositive(t, Ibss);
    RunKeepsPairs(p, steps);
    assert |t| == 2 ==> Compatible(p, t[i], t[1 - i]);
  }

  /** A beaconing entity on a DFS channel keeps the rest of 5 GHz on its channel. */
  lemma DfsChannelIsShared(p: Platform, steps: seq<Step>, i: nat, j: nat)
    requires p.Valid() && Run(p, steps).Some? && RoamsGuarded(p, steps)
    requires i < |Run(p, steps).value| && j < |Run(p, steps).value|
    requires var a := Run(p, steps).value[i];
             IsBeaconing(a.mode) && a.chan in p.dfs && Is5(Run(p, steps).value[j].chan)
    ensures Run(p, steps).value[i].chan == Run(p, steps).value[j].chan
  {
    RunKeepsPairs(p, steps);
    assert i != j ==> Compatible(p, Run(p, steps).value[i], Run(p, steps).value[j]);
  }

  lemma OneGoPerBand(p: Platform, steps: seq<Step>, i: nat, j: nat)
    requires p.Valid() && Run(p, steps).Some? && RoamsGuarded(p, steps)
    requires i < j < |Run(p, steps).value|
    requires Run(p, steps).value[i].mode == P2pGo && Run(p, steps).value[j].mode == P2pGo
    ensures !SameBand(Run(p, steps).value[i].chan, Run(p, steps).value[j].chan)
  {
    RunKeepsPairs(p, steps);
    assert Compatible(p, Run(p, steps).value[i], Run(p, steps).value[j]);
  }

  // ------------------------------------------------------- home channels, one MAC

  ghost predicate OnMac(t: seq<Conn>, mac: nat) {
    forall i :: 0 <= i < |t| ==> t[i].mac == mac
  }

  /** Every step reports the same MAC, as hardware with a single MAC does. */
  ghost predicate SingleMac(steps: seq<Step>, mac: nat) {
    && (forall i :: 0 <= i < |steps| && steps[i].Connect? ==> steps[i].conn.mac == mac)
    && (forall i, k :: 0 <= i < |steps| && steps[i].MacChange? && 0 <= k < |steps[i].entries| ==>
                         steps[i].entries[k].1 == mac)
    && (forall i :: 0 <= i < |steps| && steps[i].Roam? ==> steps[i].conn.mac == mac)
  }

  predicate ThreeDifferent(a: nat, b: nat, c: nat) {
    a != 0 && b != 0 && c != 0 && a != b && b != c && a != c
  }

  /** At most two different channels are in use. */
  ghost predicate TwoHomeChannels(t: seq<Conn>) {
    |t| == 3 ==> !ThreeDifferent(t[0].chan, t[1].chan, t[2].chan)
  }

  lemma {:induction false} RemapOnMac(t: seq<Conn>, entries: seq<(nat, nat)>, mac: nat)
    requires OnMac(t, mac)
    requires forall k :: 0 <= k < |entries| ==> entries[k].1 == mac
    ensures Remap(t, entries) == t
    decreases |entries|
  {
    if entries != [] {
      var n := |entries| - 1;
      RemapOnMac(t, entries[..n], mac);
      assert entries[n].1 == mac;
    }
  }

  lemma StepKeepsHomeChannels(p: Platform, t: seq<Conn>, step: Step, mac: nat)
    requires !p.dbsCapable && WellFormed(t) && Enabled(p, t, step) && !step.Roam? && SingleMac([step], mac)
    requires OnMac(t, mac) && TwoHomeChannels(t)
    ensures TwoHomeChannels(Apply(p, t, step))
  {
    assert [step][0] == step;
    if step.Connect? {
      assert step.conn.chan != 0 ==> HomeChannelOk(p, t, step.conn.chan);
    } else if step.MacChange? {
      RemapOnMac(t, step.entries, mac);
    } else if step.ParkRestore? {
      ParkAndRestoreMovesToEnd(t, step.mode);
    }
  }

  lemma StepStaysOnMac(p: Platform, t: seq<Conn>, step: Step, mac: nat)
    requires WellFormed(t) && Enabled(p, t, step) && SingleMac([step], mac) && OnMac(t, mac)
    ensures OnMac(Apply(p, t, step), mac)
  {
    assert [step][0] == step;
    if step.MacChange? {
      RemapOnMac(t, step.entries, mac);
    } else if step.ParkRestore? {
      ParkAndRestoreMovesToEnd(t, step.mode);
    }
  }

  /** A new channel for one of three connections: the home channel test of admission
      against the other two, unless a channel is not known yet. */
  ghost predicate HomeGuard(p: Platform, t: seq<Conn>, c: Conn) {
    var others := RemoveVdev(t, c.vdevId);
    |others| == 2 ==>
      c.chan == 0 || others[0].chan == 0 || others[1].chan == 0 || HomeChannelOk(p, others, c.chan)
  }

  lemma RefreshKeepsHomeChannels(p: Platform, t: seq<Conn>, c: Conn, mac: nat)
    requires !p.dbsCapable && WellFormed(t) && OnMac(t, mac) && c.mac == mac && FindVdev(t, c.vdevId) < |t|
    ensures OnMac(Replace(t, c), mac)
    ensures TwoHomeChannels(Replace(t, c)) <==> HomeGuard(p, t, c)
  {
    var k := FindVdev(t, c.vdevId);
    RemoveVdevShifts(t, c.vdevId);
    assert Replace(t, c) == t[k := c];
  }

  ghost predicate HomesGuarded(p: Platform, steps: seq<Step>)
    decreases |steps|
  {
    steps == [] ||
    (var n := |steps| - 1;
     && HomesGuarded(p, steps[..n])
     && (steps[n].Roam? && Run(p, steps[..n]).Some? ==> HomeGuard(p, Run(p, steps[..n]).value, steps[n].conn)))
  }

  ghost predicate AlwaysTwoHomeChannels(p: Platform, steps: seq<Step>)
    decreases |steps|
  {
    && (Run(p, steps).Some? ==> TwoHomeChannels(Run(p, steps).value))
    && (steps != [] ==> AlwaysTwoHomeChannels(p, steps[..|steps| - 1]))
  }

  /** Without DBS hardware the single radio never serves more than two channels, exactly
      when all roams meet the guard. */
  lemma {:induction false} AtMostTwoHomeChannels(p: Platform, steps: seq<Step>, mac: nat)
    requires !p.dbsCapable && SingleMac(steps, mac) && Run(p, steps).Some?
    ensures OnMac(Run(p, steps).value, mac)
    ensures AlwaysTwoHomeChannels(p, steps) <==> HomesGuarded(p, steps)
    decreases |steps|
  {
    if steps != [] {
      var n := |steps| - 1;
      var t := Run(p, steps[..n]).value;
      AtMostTwoHomeChannels(p, steps[..n], mac);
      RunWellFormed(p, steps[..n]);
      StepStaysOnMac(p, t, steps[n], mac);
      if steps[n].Roam? {
        RefreshKeepsHomeChannels(p, t, steps[n].conn, mac);
      } else if TwoHomeChannels(t) {
        StepKeepsHomeChannels(p, t, steps[n], mac);
      }
    }
  }
}
