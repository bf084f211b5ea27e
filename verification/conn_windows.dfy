/** What is not covered by admission alone: a connection that comes up while another is
    temporarily out of the table, and a refresh. For each the exact condition under which
    the rules survive, and an input on which they do not. */
module ConnWindows {
  import opened ConnTypes
  import opened Admission
  import opened ConnTableSpec
  import opened ConnRuns
  import opened ConnChannels
  import opened Wrappers

  // ------------------------------------------------------------------- the window

  /** A connection is admitted and added between the delete and the restore. */
  function Window(p: Platform, t: seq<Conn>, park: Mode, c: Conn): seq<Conn>
    requires FindMode(t, park) < |t|
  {
    PutBack(Append(p, Park(t, park), c), t[FindMode(t, park)])
  }

  /** The connection is new, and admitted against the table without the parked entry. */
  ghost predicate Enters(p: Platform, env: Env, t: seq<Conn>, park: Mode, c: Conn) {
    && WellFormed(t) && FindMode(t, park) < |t|
    && c.inUse && FindVdev(t, c.vdevId) == |t|
    && Allowed(p, env, Park(t, park), c.mode, c.chan)
  }

  /** A full table takes the newcomer instead of the parked entry; with a session limit
      of 1 it does not even take the newcomer. */
  lemma WindowIs(p: Platform, env: Env, t: seq<Conn>, park: Mode, c: Conn)
    requires Enters(p, env, t, park, c)
    ensures var k := FindMode(t, park);
            var rest := RemoveAt(t, k);
            && |rest| == |t| - 1 && Park(t, park) == rest
            && Window(p, t, park, c) ==
               if |t| < MAX_CONNECTIONS then rest + [c] + [t[k]]
               else if p.maxSessions >= 2 then rest + [c] else rest + [t[k]]
  {
    var k := FindMode(t, park);
    FindVdevIs(t, t[k].vdevId, k);
    RemoveAtShifts(t, k);
    assert SessionsOk(p, env, RemoveAt(t, k));
  }

  lemma WindowIsWellFormed(p: Platform, env: Env, t: seq<Conn>, park: Mode, c: Conn)
    requires Enters(p, env, t, park, c)
    ensures WellFormed(Window(p, t, park, c))
  {
    var k := FindMode(t, park);
    WindowIs(p, env, t, park, c);
    RestIsWellFormed(t, k);
    var rest := RemoveAt(t, k);
    forall i | 0 <= i < |rest| ensures rest[i].vdevId != c.vdevId {
      RemoveAtShifts(t, k);
    }
    AddedWellFormed(rest, c);
    AddedWellFormed(rest, t[k]);
    if |t| < MAX_CONNECTIONS {
      AddedWellFormed(rest + [c], t[k]);
    }
  }

  lemma AddedWellFormed(u: seq<Conn>, c: Conn)
    requires WellFormed(u) && |u| < MAX_CONNECTIONS && c.inUse
    requires forall i :: 0 <= i < |u| ==> u[i].vdevId != c.vdevId
    ensures WellFormed(u + [c])
  {
  }

  lemma RestIsWellFormed(t: seq<Conn>, k: nat)
    requires WellFormed(t) && k < |t|
    ensures WellFormed(RemoveAt(t, k)) && t[k] !in RemoveAt(t, k)
    ensures forall i :: 0 <= i < |t| - 1 ==> RemoveAt(t, k)[i].vdevId != t[k].vdevId
  {
    RemoveAtShifts(t, k);
  }

  /** The parked entry survives exactly when the table was not full (or the newcomer was
      dropped); the newcomer stays otherwise. */
  lemma WindowKeepsParked(p: Platform, env: Env, t: seq<Conn>, park: Mode, c: Conn)
    requires Enters(p, env, t, park, c)
    ensures t[FindMode(t, park)] in Window(p, t, park, c) <==> |t| < MAX_CONNECTIONS || p.maxSessions < 2
    ensures c in Window(p, t, park, c) <==> |t| < MAX_CONNECTIONS || p.maxSessions >= 2
  {
    var k := FindMode(t, park);
    WindowIs(p, env, t, park, c);
    RestIsWellFormed(t, k);
    RemoveAtShifts(t, k);
    assert forall j :: 0 <= j < |t| ==> t[j].vdevId != c.vdevId;
  }

  // ------------------------------------------------------------------------ modes

  /** The third-connection tables accept the three modes in some order. */
  predicate Joinable(a: Mode, b: Mode, c: Mode) {
    PairAccepts(a, b, c) || PairAccepts(a, c, b) || PairAccepts(b, c, a)
  }

  lemma JoinableMeansModesOk(x: Conn, y: Conn, z: Conn)
    ensures ModesOk([x, y, z]) <==> Joinable(x.mode, y.mode, z.mode)
  {
    CountThreeAll([x, y, z]);
  }

  /** The combinations survive the window exactly when, beside two connections, the
      tables would have accepted the newcomer to all of them. */
  lemma WindowKeepsModes(p: Platform, env: Env, t: seq<Conn>, park: Mode, c: Conn)
    requires Enters(p, env, t, park, c) && ModesOk(t)
    ensures ModesOk(Window(p, t, park, c)) <==> |t| != 2 || Joinable(t[0].mode, t[1].mode, c.mode)
  {
    var k := FindMode(t, park);
    WindowIs(p, env, t, park, c);
    if |t| == 2 {
      OpenWindowModes(t, k, c);
    } else if |t| == 3 {
      FullWindowModes(p, env, RemoveAt(t, k), c);
      MovedModesOk(t, k);
    }
  }

  lemma OpenWindowModes(t: seq<Conn>, k: nat, c: Conn)
    requires |t| == 2 && k < 2
    ensures ModesOk(RemoveAt(t, k) + [c] + [t[k]]) <==> Joinable(t[0].mode, t[1].mode, c.mode)
  {
    assert RemoveAt(t, k) + [c] + [t[k]] == [t[1 - k], c, t[k]];
    JoinableMeansModesOk(t[1 - k], c, t[k]);
    assert Joinable(t[1 - k].mode, c.mode, t[k].mode) <==> Joinable(t[0].mode, t[1].mode, c.mode);
  }

  lemma FullWindowModes(p: Platform, env: Env, rest: seq<Conn>, c: Conn)
    requires |rest| == 2 && Allowed(p, env, rest, c.mode, c.chan)
    ensures ModesOk(rest + [c])
  {
    ThirdAdmission(p, env, rest, c.mode, c.chan);
    PairAcceptsGivesTriple(rest[0], rest[1], c);
    assert rest + [c] == [rest[0], rest[1], c];
  }

  lemma MovedModesOk(t: seq<Conn>, k: nat)
    requires ModesOk(t) && k < |t|
    ensures ModesOk(RemoveAt(t, k) + [t[k]])
  {
    var u := RemoveAt(t, k) + [t[k]];
    forall mode ensures Count(u, mode) == Count(t, mode) {
      CountRemoveAt(t, k, mode);
      CountConcat(RemoveAt(t, k), [t[k]], mode);
    }
    SameCountsModesOk(t, u);
  }

  // --------------------------------------------------------------------- channels

  /** The channel tests of admission, against the parked entry alone. */
  ghost predicate WindowGuard(p: Platform, parked: Conn, c: Conn) {
    && BesideDfsOk(p, [parked], c.chan)
    && DfsStartOk(p, [parked], c)
    && GoOk([parked], c.mode, c.chan)
    && IbssPairOk(p, parked, c) && IbssPairOk(p, c, parked)
  }

  lemma WindowGuardMeansCompatible(p: Platform, parked: Conn, c: Conn)
    ensures WindowGuard(p, parked, c) <==> Compatible(p, parked, c) && Compatible(p, c, parked)
  {
    var others := [parked];
    GuardMeansCompatible(p, others, c);
    assert others[0] == parked;
  }

  lemma RestKeepsPairs(p: Platform, t: seq<Conn>, k: nat)
    requires PairsOk(p, t) && k < |t|
    ensures PairsOk(p, RemoveAt(t, k))
    ensures forall i :: 0 <= i < |t| - 1 ==>
              Compatible(p, RemoveAt(t, k)[i], t[k]) && Compatible(p, t[k], RemoveAt(t, k)[i])
  {
    RemoveAtShifts(t, k);
    var rest := RemoveAt(t, k);
    forall i | 0 <= i < |rest| ensures Compatible(p, rest[i], t[k]) && Compatible(p, t[k], rest[i]) {
      assert rest[i] == t[if i < k then i else i + 1];
    }
    forall i, j | 0 <= i < |rest| && 0 <= j < |rest| && i != j ensures Compatible(p, rest[i], rest[j]) {
      assert rest[i] == t[if i < k then i else i + 1] && rest[j] == t[if j < k then j else j + 1];
    }
  }

  /** One more entry at the end. */
  lemma AddedPairs(p: Platform, u: seq<Conn>, c: Conn)
    requires PairsOk(p, u)
    ensures PairsOk(p, u + [c]) <==> forall i :: 0 <= i < |u| ==> Compatible(p, u[i], c) && Compatible(p, c, u[i])
  {
    var w := u + [c];
    if PairsOk(p, w) {
      forall i | 0 <= i < |u| ensures Compatible(p, u[i], c) && Compatible(p, c, u[i]) {
        assert Compatible(p, w[i], w[|u|]) && Compatible(p, w[|u|], w[i]);
      }
    }
  }

  /** The channel rules survive the window exactly when the table was full or the
      newcomer passes the channel tests against the parked entry too. */
  lemma WindowKeepsPairs(p: Platform, env: Env, t: seq<Conn>, park: Mode, c: Conn)
    requires p.Valid() && Enters(p, env, t, park, c) && PairsOk(p, t)
    ensures PairsOk(p, Window(p, t, park, c)) <==>
            |t| == MAX_CONNECTIONS || WindowGuard(p, t[FindMode(t, park)], c)
  {
    var k := FindMode(t, park);
    var rest := RemoveAt(t, k);
    WindowIs(p, env, t, park, c);
    RestKeepsPairs(p, t, k);
    ConnectKeepsPairs(p, env, rest, c);
    OpenWindowPairs(p, rest, t[k], c);
    AddedPairs(p, rest, t[k]);
  }

  lemma OpenWindowPairs(p: Platform, rest: seq<Conn>, parked: Conn, c: Conn)
    requires PairsOk(p, rest + [c])
    requires forall i :: 0 <= i < |rest| ==> Compatible(p, rest[i], parked) && Compatible(p, parked, rest[i])
    ensures PairsOk(p, rest + [c] + [parked]) <==> WindowGuard(p, parked, c)
  {
    AddedPairs(p, rest + [c], parked);
    WindowGuardMeansCompatible(p, parked, c);
    assert (rest + [c])[|rest|] == c;
    assert forall i :: 0 <= i < |rest| ==> (rest + [c])[i] == rest[i];
  }

  /** Without DBS hardware, the same for the number of home channels. */
  lemma WindowKeepsHomeChannels(p: Platform, env: Env, t: seq<Conn>, park: Mode, c: Conn, mac: nat)
    requires !p.dbsCapable && Enters(p, env, t, park, c) && OnMac(t, mac) && TwoHomeChannels(t)
    ensures TwoHomeChannels(Window(p, t, park, c)) <==>
            |t| != 2 || c.chan == 0 || t[0].chan == 0 || t[1].chan == 0 || HomeChannelOk(p, t, c.chan)
  {
    var k := FindMode(t, park);
    WindowIs(p, env, t, park, c);
    RemoveAtShifts(t, k);
    if |t| == 3 && p.maxSessions >= 2 {
      assert c.chan != 0 ==> HomeChannelOk(p, RemoveAt(t, k), c.chan);
    }
  }

  // --------------------------------------------------------------------- examples

  /** A GO admitted beside the lone SAP, while the STA is parked, leaves STA+SAP+GO. */
  lemma WindowBreaksCombinations(p: Platform, env: Env)
    requires Benign(p, env) && p.maxSessions >= 3 && 6 !in p.dfs
    ensures var (sta, sap, go) := (Fresh(Sta, 6, 0), Fresh(Sap, 6, 1), Fresh(P2pGo, 6, 2));
            && Enters(p, env, [sta, sap], Sta, go) && ModesOk([sta, sap])
            && Window(p, [sta, sap], Sta, go) == [sap, go, sta] && !ModesOk([sap, go, sta])
  {
    var (sta, sap, go) := (Fresh(Sta, 6, 0), Fresh(Sap, 6, 1), Fresh(P2pGo, 6, 2));
    var t := [sta, sap];
    FindModeIs(t, Sta, 0);
    FindVdevIs(t, 0, 0);
    FindVdevIs(t, 2, 2);
    assert Park(t, Sta) == [sap];
    GoJoinsSap(p, env, sap, go);
    WindowIs(p, env, t, Sta, go);
    JoinableMeansModesOk(sap, go, sta);
  }

  lemma GoJoinsSap(p: Platform, env: Env, sap: Conn, go: Conn)
    requires Benign(p, env) && 6 !in p.dfs && sap == Fresh(Sap, 6, 1) && go == Fresh(P2pGo, 6, 2)
    ensures Allowed(p, env, [sap], go.mode, go.chan)
  {
    assert PclAvailable(p, env, [sap], go.mode);
    assert ChannelOk(p, [sap], go.mode, go.chan) && GoOk([sap], go.mode, go.chan);
  }

  /** A STA admitted beside SAP and STA, while another STA is parked, takes its place. */
  lemma WindowLosesParked(p: Platform, env: Env)
    requires Benign(p, env) && p.maxSessions >= 3 && 6 !in p.dfs
    ensures var (a, sap, b, c) := (Fresh(Sta, 6, 0), Fresh(Sap, 6, 1), Fresh(Sta, 6, 2), Fresh(Sta, 6, 3));
            && Enters(p, env, [a, sap, b], Sta, c) && ModesOk([a, sap, b])
            && Window(p, [a, sap, b], Sta, c) == [sap, b, c]
  {
    var (a, sap, b, c) := (Fresh(Sta, 6, 0), Fresh(Sap, 6, 1), Fresh(Sta, 6, 2), Fresh(Sta, 6, 3));
    var t := [a, sap, b];
    FindModeIs(t, Sta, 0);
    FindVdevIs(t, 0, 0);
    FindVdevIs(t, 3, 3);
    assert Park(t, Sta) == [sap, b];
    StaJoinsBoth(p, env, sap, b, c);
    WindowIs(p, env, t, Sta, c);
    JoinableMeansModesOk(a, sap, b);
  }

  lemma StaJoinsBoth(p: Platform, env: Env, sap: Conn, b: Conn, c: Conn)
    requires Benign(p, env) && 6 !in p.dfs
    requires sap == Fresh(Sap, 6, 1) && b == Fresh(Sta, 6, 2) && c == Fresh(Sta, 6, 3)
    ensures Allowed(p, env, [sap, b], c.mode, c.chan)
  {
    CountTwo(sap, b, Ibss);
    assert PclAvailable(p, env, [sap, b], c.mode);
    assert ChannelOk(p, [sap, b], c.mode, c.chan) && IbssOk(p, [sap, b], c.mode, c.chan);
  }

  /** A STA admitted on channel 36 while the SAP on DFS channel 52 is parked. */
  lemma WindowBreaksDfsRule(p: Platform, env: Env)
    requires p == Platform(true, {52}, {}, 3, 0) && Benign(p, env)
    ensures var (sap, sta) := (Fresh(Sap, 52, 0), Fresh(Sta, 36, 1));
            && Enters(p, env, [sap], Sap, sta) && PairsOk(p, [sap])
            && Window(p, [sap], Sap, sta) == [sta, sap] && !PairsOk(p, [sta, sap])
  {
    var (sap, sta) := (Fresh(Sap, 52, 0), Fresh(Sta, 36, 1));
    FindModeIs([sap], Sap, 0);
    FindVdevIs([sap], 0, 0);
    FindVdevIs([sap], 1, 1);
    assert Park([sap], Sap) == [];
    WindowIs(p, env, [sap], Sap, sta);
    assert !Compatible(p, [sta, sap][1], [sta, sap][0]);
  }

  /** On one MAC a STA on channel 11 admitted beside the SAP on 6, while the STA on 1 is
      parked. */
  lemma WindowBreaksHomeChannels(p: Platform, env: Env)
    requires p == Platform(false, {}, {}, 3, 0) && Benign(p, env)
    ensures var (a, sap, b) := (Fresh(Sta, 1, 0), Fresh(Sap, 6, 1), Fresh(Sta, 11, 2));
            && Enters(p, env, [a, sap], Sta, b) && TwoHomeChannels([a, sap])
            && Window(p, [a, sap], Sta, b) == [sap, b, a] && !TwoHomeChannels([sap, b, a])
  {
    var (a, sap, b) := (Fresh(Sta, 1, 0), Fresh(Sap, 6, 1), Fresh(Sta, 11, 2));
    var t := [a, sap];
    FindModeIs(t, Sta, 0);
    FindVdevIs(t, 0, 0);
    FindVdevIs(t, 2, 2);
    assert Park(t, Sta) == [sap];
    StaJoinsOnOneMac(p, env, sap, b);
    WindowIs(p, env, t, Sta, b);
  }

  lemma StaJoinsOnOneMac(p: Platform, env: Env, sap: Conn, sta: Conn)
    requires p == Platform(false, {}, {}, 3, 0) && Benign(p, env) && sap.mode == Sap && sta.mode == Sta
    ensures Allowed(p, env, [sap], sta.mode, sta.chan)
  {
    assert Count([sap], Ibss) == 0;
    assert PclAvailable(p, env, [sap], sta.mode);
    assert ChannelOk(p, [sap], sta.mode, sta.chan);
  }

  /** On one MAC, a STA on 1, a SAP on 6 and a second STA on 6. */
  function HomeSteps(env: Env): seq<Step> {
    [Connect(env, Fresh(Sta, 1, 0)), Connect(env, Fresh(Sap, 6, 1)), Connect(env, Fresh(Sta, 6, 2))]
  }

  /** The second STA roams to a third channel. */
  lemma RoamBreaksHomeChannels(p: Platform, env: Env)
    requires p == Platform(false, {}, {}, 3, 0) && Benign(p, env)
    ensures var (a, sap, b, moved) := (Fresh(Sta, 1, 0), Fresh(Sap, 6, 1), Fresh(Sta, 6, 2), Fresh(Sta, 11, 2));
            && Run(p, HomeSteps(env)) == Some([a, sap, b]) && TwoHomeChannels([a, sap, b])
            && Run(p, HomeSteps(env) + [Roam(moved)]) == Some([a, sap, moved])
            && !TwoHomeChannels([a, sap, moved])
  {
    var (a, sap, b, moved) := (Fresh(Sta, 1, 0), Fresh(Sap, 6, 1), Fresh(Sta, 6, 2), Fresh(Sta, 11, 2));
    StaStarts(p, env, a);
    SapJoinsSta(p, env, a, sap);
    StaJoinsOnSapChannel(p, env, a, sap, b);
    RunOfThree(p, Connect(env, a), Connect(env, sap), Connect(env, b), [a], [a, sap], [a, sap, b]);
    FindVdevIs([a, sap, b], 2, 2);
    assert [a, sap, b][2 := moved] == [a, sap, moved];
    RunExtends(p, HomeSteps(env), [a, sap, b], Roam(moved));
  }

  lemma StaStarts(p: Platform, env: Env, a: Conn)
    requires p == Platform(false, {}, {}, 3, 0) && Benign(p, env) && a == Fresh(Sta, 1, 0)
    ensures Enabled(p, [], Connect(env, a)) && Apply(p, [], Connect(env, a)) == [a]
  {
    assert [] + [a] == [a];
  }

  lemma SapJoinsSta(p: Platform, env: Env, a: Conn, sap: Conn)
    requires p == Platform(false, {}, {}, 3, 0) && Benign(p, env)
    requires a == Fresh(Sta, 1, 0) && sap == Fresh(Sap, 6, 1)
    ensures Enabled(p, [a], Connect(env, sap)) && Apply(p, [a], Connect(env, sap)) == [a, sap]
  {
    FindVdevIs([a], 1, 1);
    assert PclAvailable(p, env, [a], sap.mode);
    assert ChannelOk(p, [a], sap.mode, sap.chan) && IbssOk(p, [a], sap.mode, sap.chan);
    assert [a] + [sap] == [a, sap];
  }

  lemma StaJoinsOnSapChannel(p: Platform, env: Env, a: Conn, sap: Conn, b: Conn)
    requires p == Platform(false, {}, {}, 3, 0) && Benign(p, env)
    requires a == Fresh(Sta, 1, 0) && sap == Fresh(Sap, 6, 1) && b == Fresh(Sta, 6, 2)
    ensures Enabled(p, [a, sap], Connect(env, b)) && Apply(p, [a, sap], Connect(env, b)) == [a, sap, b]
  {
    FindVdevIs([a, sap], 2, 2);
    CountTwo(a, sap, Ibss);
    assert PclAvailable(p, env, [a, sap], b.mode);
    assert ChannelOk(p, [a, sap], b.mode, b.chan) && IbssOk(p, [a, sap], b.mode, b.chan);
    assert [a, sap] + [b] == [a, sap, b];
  }

  /** A SAP starts on DFS channel 52, a STA joins on 2.4 GHz and roams to channel 36. */
  function RoamSteps(env: Env): seq<Step> {
    [Connect(env, Fresh(Sap, 52, 0)), Connect(env, Fresh(Sta, 6, 1)), Roam(Fresh(Sta, 36, 1))]
  }

  lemma RoamEscapesDfsRule(p: Platform, env: Env)
    requires p == Platform(true, {52}, {}, 3, 0) && Benign(p, env)
    ensures Run(p, RoamSteps(env)) == Some([Fresh(Sap, 52, 0), Fresh(Sta, 36, 1)])
    ensures !PairsOk(p, [Fresh(Sap, 52, 0), Fresh(Sta, 36, 1)])
  {
    var (sap, sta, moved) := (Fresh(Sap, 52, 0), Fresh(Sta, 6, 1), Fresh(Sta, 36, 1));
    SapStarts(p, env, sap);
    StaJoinsSap(p, env, sap, sta);
    StaRoams(p, sap, sta, moved);
    RunOfThree(p, Connect(env, sap), Connect(env, sta), Roam(moved), [sap], [sap, sta], [sap, moved]);
    var t := [sap, moved];
    assert !Compatible(p, t[0], t[1]);
  }

  lemma SapStarts(p: Platform, env: Env, sap: Conn)
    requires p == Platform(true, {52}, {}, 3, 0) && Benign(p, env) && sap == Fresh(Sap, 52, 0)
    ensures Enabled(p, [], Connect(env, sap)) && Apply(p, [], Connect(env, sap)) == [sap]
  {
    assert [] + [sap] == [sap];
  }

  lemma StaJoinsSap(p: Platform, env: Env, sap: Conn, sta: Conn)
    requires p == Platform(true, {52}, {}, 3, 0) && Benign(p, env)
    requires sap == Fresh(Sap, 52, 0) && sta == Fresh(Sta, 6, 1)
    ensures Enabled(p, [sap], Connect(env, sta)) && Apply(p, [sap], Connect(env, sta)) == [sap, sta]
  {
    FindVdevIs([sap], 1, 1);
    assert Count([sap], Ibss) == 0;
    assert IbssOk(p, [sap], sta.mode, sta.chan) && ChannelOk(p, [sap], sta.mode, sta.chan);
    assert [sap] + [sta] == [sap, sta];
  }

  lemma StaRoams(p: Platform, sap: Conn, sta: Conn, moved: Conn)
    requires sap == Fresh(Sap, 52, 0) && sta == Fresh(Sta, 6, 1) && moved == Fresh(Sta, 36, 1)
    ensures Enabled(p, [sap, sta], Roam(moved)) && Apply(p, [sap, sta], Roam(moved)) == [sap, moved]
  {
    FindVdevIs([sap, sta], 1, 1);
    assert [sap, sta][1 := moved] == [sap, moved];
  }
}
