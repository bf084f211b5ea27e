/** Safety of the connection table over every run of the policy manager. */
module ConnRuns {
  import opened ConnTypes
  import opened Admission
  import opened ConnTableSpec
  import opened Wrappers

  datatype Step =
    | Connect(env: Env, conn: Conn)            // admitted, then added
    | Disconnect(vdevId: nat)
    | MacChange(entries: seq<(nat, nat)>)      // new vdev-to-MAC map after a hardware mode change
    | ParkRestore(mode: Mode)                  // temporary delete and restore around a PCL query
    | Roam(conn: Conn)                         // channel and radio of a live vdev refreshed, without admission

  ghost predicate Enabled(p: Platform, t: seq<Conn>, step: Step) {
    match step
    case Connect(env, c) =>
      c.inUse && FindVdev(t, c.vdevId) == |t| && Allowed(p, env, t, c.mode, c.chan)
    case Roam(c) =>
      var i := FindVdev(t, c.vdevId);
      c.inUse && i < |t| && t[i].mode == c.mode
    case _ => true
  }

  function Apply(p: Platform, t: seq<Conn>, step: Step): seq<Conn> {
    match step
    case Connect(_, c) => Append(p, t, c)
    case Disconnect(vdevId) => RemoveVdev(t, vdevId)
    case MacChange(entries) => Remap(t, entries)
    case ParkRestore(mode) => ParkAndRestore(t, mode)
    case Roam(c) => Replace(t, c)
  }

  /** The table after the steps, or None when some step was not enabled. */
  ghost function Run(p: Platform, steps: seq<Step>): Option<seq<Conn>>
    decreases |steps|
  {
    if steps == [] then Some([])
    else
      var n := |steps| - 1;
      match Run(p, steps[..n])
      case None => None
      case Some(t) => if Enabled(p, t, steps[n]) then Some(Apply(p, t, steps[n])) else None
  }

  lemma RunExtends(p: Platform, steps: seq<Step>, t: seq<Conn>, step: Step)
    requires Run(p, steps) == Some(t) && Enabled(p, t, step)
    ensures Run(p, steps + [step]) == Some(Apply(p, t, step))
  {
    assert (steps + [step])[..|steps|] == steps;
  }

  // ---------------------------------------------------------------- structure

  ghost predicate WellFormed(t: seq<Conn>) {
    |t| <= MAX_CONNECTIONS && AllInUse(t) && DistinctVdevs(t)
  }

  lemma {:induction false} RemapKeeps(t: seq<Conn>, entries: seq<(nat, nat)>)
    ensures |Remap(t, entries)| == |t|
    ensures forall i :: 0 <= i < |t| ==> Remap(t, entries)[i].(mac := t[i].mac) == t[i]
    decreases |entries|
  {
    if entries != [] {
      RemapKeeps(t, entries[..|entries| - 1]);
    }
  }

  lemma RemoveAtShifts(t: seq<Conn>, k: nat)
    requires k < |t|
    ensures |RemoveAt(t, k)| == |t| - 1
    ensures forall i :: 0 <= i < |t| - 1 ==> RemoveAt(t, k)[i] == t[if i < k then i else i + 1]
  {
  }

  lemma RemoveVdevShifts(t: seq<Conn>, vdevId: nat)
    ensures var k, u := FindVdev(t, vdevId), RemoveVdev(t, vdevId);
            |u| == (if k < |t| then |t| - 1 else |t|)
            && forall i :: 0 <= i < |u| ==> u[i] == t[if i < k then i else i + 1]
  {
    if FindVdev(t, vdevId) < |t| {
      RemoveAtShifts(t, FindVdev(t, vdevId));
    }
  }

  /** Where an entry of the table comes from when entry k has moved to the end. */
  function ParkOrigin(k: nat, n: nat, i: nat): nat {
    if i < k then i else if i < n - 1 then i + 1 else k
  }

  lemma MovedToEnd(t: seq<Conn>, k: nat)
    requires k < |t|
    ensures var u := t[..k] + t[k + 1..] + [t[k]];
            |u| == |t| && forall i :: 0 <= i < |u| ==> u[i] == t[ParkOrigin(k, |t|, i)]
  {
  }

  lemma ParkAndRestoreShifts(t: seq<Conn>, mode: Mode)
    requires DistinctVdevs(t)
    ensures var k, u := FindMode(t, mode), ParkAndRestore(t, mode);
            |u| == |t|
            && forall i :: 0 <= i < |u| && k < |t| ==> u[i] == t[ParkOrigin(k, |t|, i)]
    ensures FindMode(t, mode) == |t| ==> ParkAndRestore(t, mode) == t
  {
    ParkAndRestoreMovesToEnd(t, mode);
    var k := FindMode(t, mode);
    if k < |t| {
      MovedToEnd(t, k);
    }
  }

  /** Where entry i of the table comes from, after a step other than a connection. */
  function Origin(t: seq<Conn>, step: Step, i: nat): nat {
    match step
    case Disconnect(vdevId) => if i < FindVdev(t, vdevId) then i else i + 1
    case ParkRestore(mode) => if FindMode(t, mode) < |t| then ParkOrigin(FindMode(t, mode), |t|, i) else i
    case _ => i
  }

  /** Each entry of u has the vdev id and mode of a different entry of t. */
  ghost predicate Rearranged(t: seq<Conn>, u: seq<Conn>, step: Step) {
    && |u| <= |t|
    && (forall i :: 0 <= i < |u| ==>
          && Origin(t, step, i) < |t|
          && u[i].vdevId == t[Origin(t, step, i)].vdevId && u[i].mode == t[Origin(t, step, i)].mode)
    && (forall i, j :: 0 <= i < j < |u| ==> Origin(t, step, i) != Origin(t, step, j))
  }

  lemma WellFormedRearranged(t: seq<Conn>, u: seq<Conn>, step: Step)
    requires WellFormed(t) && Rearranged(t, u, step) && AllInUse(u)
    ensures WellFormed(u)
  {
    forall i, j | 0 <= i < j < |u| ensures u[i].vdevId != u[j].vdevId {
      var (a, b) := (Origin(t, step, i), Origin(t, step, j));
      assert a < b || b < a;
    }
  }

  /** Every step but a connection only rearranges, refreshes or drops entries; only a
      roam changes channels. */
  lemma OriginsKeep(p: Platform, t: seq<Conn>, step: Step)
    requires WellFormed(t) && Enabled(p, t, step) && !step.Connect?
    ensures var u := Apply(p, t, step);
            && Rearranged(t, u, step) && AllInUse(u)
            && (!step.Roam? ==> forall i :: 0 <= i < |u| ==> u[i].chan == t[Origin(t, step, i)].chan)
  {
    if step.Disconnect? {
      DisconnectKeeps(p, t, step);
    } else if step.MacChange? {
      RemapKeepsAll(t, step.entries);
    } else if step.ParkRestore? {
      ParkKeeps(p, t, step);
    } else {
      assert Apply(p, t, step) == t[FindVdev(t, step.conn.vdevId) := step.conn];
    }
  }

  lemma DisconnectKeeps(p: Platform, t: seq<Conn>, step: Step)
    requires WellFormed(t) && step.Disconnect?
    ensures var u := Apply(p, t, step);
            Rearranged(t, u, step) && forall i :: 0 <= i < |u| ==> u[i] == t[Origin(t, step, i)]
  {
    var u := Apply(p, t, step);
    RemoveVdevShifts(t, step.vdevId);
    assert |u| <= |t|;
    forall i | 0 <= i < |u| ensures Origin(t, step, i) < |t| && u[i] == t[Origin(t, step, i)] {
    }
    forall i, j | 0 <= i < j < |u| ensures Origin(t, step, i) != Origin(t, step, j) {
      OriginsDiffer(t, step, i, j);
    }
  }

  lemma ParkKeeps(p: Platform, t: seq<Conn>, step: Step)
    requires WellFormed(t) && step.ParkRestore?
    ensures var u := Apply(p, t, step);
            Rearranged(t, u, step) && forall i :: 0 <= i < |u| ==> u[i] == t[Origin(t, step, i)]
  {
    var u := Apply(p, t, step);
    ParkAndRestoreShifts(t, step.mode);
    assert |u| == |t|;
    forall i | 0 <= i < |u| ensures Origin(t, step, i) < |t| && u[i] == t[Origin(t, step, i)] {
    }
    forall i, j | 0 <= i < j < |u| ensures Origin(t, step, i) != Origin(t, step, j) {
      OriginsDiffer(t, step, i, j);
    }
  }

  lemma OriginsDiffer(t: seq<Conn>, step: Step, i: nat, j: nat)
    requires i < j < |t|
    ensures Origin(t, step, i) != Origin(t, step, j)
  {
  }

  lemma RemapKeepsAll(t: seq<Conn>, entries: seq<(nat, nat)>)
    ensures var u := Remap(t, entries);
            && |u| == |t|
            && forall i :: 0 <= i < |u| ==>
                 && u[i].vdevId == t[i].vdevId && u[i].mode == t[i].mode
                 && u[i].chan == t[i].chan && u[i].inUse == t[i].inUse
  {
    RemapKeeps(t, entries);
    forall i | 0 <= i < |t|
      ensures var (a, b) := (Remap(t, entries)[i], t[i]);
              a.vdevId == b.vdevId && a.mode == b.mode && a.chan == b.chan && a.inUse == b.inUse
    {
      assert Remap(t, entries)[i].(mac := t[i].mac) == t[i];
    }
  }

  lemma StepKeepsWellFormed(p: Platform, t: seq<Conn>, step: Step)
    requires WellFormed(t) && Enabled(p, t, step)
    ensures WellFormed(Apply(p, t, step))
  {
    if step.Connect? {
      assert Apply(p, t, step) == t || Apply(p, t, step) == t + [step.conn];
    } else {
      OriginsKeep(p, t, step);
      WellFormedRearranged(t, Apply(p, t, step), step);
    }
  }

  lemma {:induction false} RunWellFormed(p: Platform, steps: seq<Step>)
    ensures Run(p, steps).Some? ==> WellFormed(Run(p, steps).value)
    decreases |steps|
  {
    if steps != [] && Run(p, steps).Some? {
      var n := |steps| - 1;
      RunWellFormed(p, steps[..n]);
      StepKeepsWellFormed(p, Run(p, steps[..n]).value, steps[n]);
    }
  }

  // ---------------------------------------------------------- mode combinations

  /** The nine combinations of three modes. */
  predicate TripleCounts(sta: nat, sap: nat, client: nat, go: nat) {
    || (sta == 2 && sap == 1 && client == 0 && go == 0)
    || (sta == 1 && sap == 2 && client == 0 && go == 0)
    || (sta == 2 && sap == 0 && client == 0 && go == 1)
    || (sta == 1 && sap == 0 && client == 1 && go == 1)
    || (sta == 1 && sap == 0 && client == 0 && go == 2)
    || (sta == 1 && sap == 0 && client == 2 && go == 0)
    || (sta == 0 && sap == 1 && client == 1 && go == 1)
    || (sta == 0 && sap == 0 && client == 2 && go == 1)
    || (sta == 0 && sap == 0 && client == 1 && go == 2)
  }

  predicate ModesOk(t: seq<Conn>) {
    |t| == MAX_CONNECTIONS ==> TripleCounts(Count(t, Sta), Count(t, Sap), Count(t, P2pClient), Count(t, P2pGo))
  }

  lemma CountThree(t: seq<Conn>, mode: Mode)
    requires |t| == 3
    ensures Count(t, mode) == (if t[0].mode == mode then 1 else 0) + (if t[1].mode == mode then 1 else 0)
                              + (if t[2].mode == mode then 1 else 0)
  {
    assert t == [t[0]] + ([t[1]] + [t[2]]);
    CountConcat([t[0]], [t[1]] + [t[2]], mode);
    CountConcat([t[1]], [t[2]], mode);
  }

  lemma CountThreeAll(t: seq<Conn>)
    requires |t| == 3
    ensures forall mode :: Count(t, mode)
                           == (if t[0].mode == mode then 1 else 0) + (if t[1].mode == mode then 1 else 0)
                              + (if t[2].mode == mode then 1 else 0)
  {
    forall mode: Mode ensures Count(t, mode)
                        == (if t[0].mode == mode then 1 else 0) + (if t[1].mode == mode then 1 else 0)
                           + (if t[2].mode == mode then 1 else 0) {
      CountThree(t, mode);
    }
  }

  lemma PairAcceptsGivesTriple(a: Conn, b: Conn, c: Conn)
    requires PairAccepts(a.mode, b.mode, c.mode)
    ensures ModesOk([a, b, c])
  {
    CountThreeAll([a, b, c]);
  }

  lemma SameCountsModesOk(t: seq<Conn>, u: seq<Conn>)
    requires ModesOk(t) && |t| == |u|
    requires forall mode :: Count(u, mode) == Count(t, mode)
    ensures ModesOk(u)
  {
  }

  lemma {:induction false} RemapCounts(t: seq<Conn>, entries: seq<(nat, nat)>, mode: Mode)
    ensures Count(Remap(t, entries), mode) == Count(t, mode)
    decreases |entries|
  {
    if entries != [] {
      var n := |entries| - 1;
      RemapCounts(t, entries[..n], mode);
      var u := Remap(t, entries[..n]);
      var i := FindVdev(u, entries[n].0);
      if i < |u| {
        CountUpdate(u, i, u[i].(mac := entries[n].1), mode);
      }
    }
  }

  lemma ParkCounts(t: seq<Conn>, park: Mode, mode: Mode)
    requires DistinctVdevs(t)
    ensures Count(ParkAndRestore(t, park), mode) == Count(t, mode)
  {
    var i := FindMode(t, park);
    if i < |t| {
      ParkAndRestoreMovesToEnd(t, park);
      CountRemoveAt(t, i, mode);
      CountConcat(RemoveAt(t, i), [t[i]], mode);
    }
  }

  lemma ConnectKeepsModes(p: Platform, t: seq<Conn>, step: Step)
    requires WellFormed(t) && ModesOk(t) && step.Connect? && Enabled(p, t, step)
    ensures ModesOk(Apply(p, t, step))
  {
    if |t| == 2 {
      ThirdAdmission(p, step.env, t, step.conn.mode, step.conn.chan);
      PairAcceptsGivesTriple(t[0], t[1], step.conn);
      assert t + [step.conn] == [t[0], t[1], step.conn];
    }
  }

  lemma StepKeepsModes(p: Platform, t: seq<Conn>, step: Step)
    requires WellFormed(t) && ModesOk(t) && Enabled(p, t, step)
    ensures ModesOk(Apply(p, t, step))
  {
    var u := Apply(p, t, step);
    match step
    case Connect(_, _) => ConnectKeepsModes(p, t, step);
    case Disconnect(vdevId) =>
    case MacChange(entries) =>
      RemapKeeps(t, entries);
      forall mode ensures Count(u, mode) == Count(t, mode) {
        RemapCounts(t, entries, mode);
      }
      SameCountsModesOk(t, u);
    case ParkRestore(park) =>
      ParkAndRestoreMovesToEnd(t, park);
      forall mode ensures Count(u, mode) == Count(t, mode) {
        ParkCounts(t, park, mode);
      }
      SameCountsModesOk(t, u);
    case Roam(c) =>
      forall mode ensures Count(u, mode) == Count(t, mode) {
        CountUpdate(t, FindVdev(t, c.vdevId), c, mode);
      }
      SameCountsModesOk(t, u);
  }

  lemma {:induction false} RunKeepsModes(p: Platform, steps: seq<Step>)
    ensures Run(p, steps).Some? ==> ModesOk(Run(p, steps).value)
    decreases |steps|
  {
    if steps != [] && Run(p, steps).Some? {
      var n := |steps| - 1;
      RunKeepsModes(p, steps[..n]);
      RunWellFormed(p, steps[..n]);
      StepKeepsModes(p, Run(p, steps[..n]).value, steps[n]);
    }
  }

  /** In every run, whatever the channels, whatever the session limit: no
      STA+SAP+GO, no STA+SAP+client, no two STAs with a client, never three of one
      mode, and no IBSS in a table of three. */
  lemma NoForbiddenCombination(p: Platform, steps: seq<Step>)
    requires Run(p, steps).Some?
    ensures var t := Run(p, steps).value;
            && !(Count(t, Sta) > 0 && Count(t, Sap) > 0 && Count(t, P2pGo) > 0)
            && !(Count(t, Sta) > 0 && Count(t, Sap) > 0 && Count(t, P2pClient) > 0)
            && !(Count(t, Sta) > 1 && Count(t, P2pClient) > 0)
            && (forall mode :: Count(t, mode) < 3)
            && (|t| == 3 ==> Count(t, Ibss) == 0)
  {
    RunKeepsModes(p, steps);
    RunWellFormed(p, steps);
    var t := Run(p, steps).value;
    if |t| == 3 {
      CountThreeAll(t);
    } else {
      CountShort(t);
    }
  }

  lemma CountShort(t: seq<Conn>)
    requires |t| < 3
    ensures Count(t, Sta) + Count(t, Sap) + Count(t, P2pClient) + Count(t, P2pGo) + Count(t, Ibss) == |t|
  {
    if |t| == 2 {
      assert t[1..] == [t[1]];
    }
  }

  // ------------------------------------------------------------ reachability

  ghost predicate Benign(p: Platform, env: Env) {
    env.validChans.Some? && env.mandatory == [] && !env.sub20 && env.activeSessions < p.maxSessions
  }

  /** Modes in an order in which each joins the ones before. */
  predicate JoinOrder(a: Mode, b: Mode, c: Mode) {
    PairAccepts(a, b, c) && a != Ibss
  }

  function Fresh(mode: Mode, chan: nat, vdevId: nat): Conn {
    Conn(mode, chan, 0, 0, OneOne, 1, vdevId, true)
  }

  /** A second GO has to go to the other band. */
  function ThirdChannel(a: Mode, b: Mode, c: Mode): nat {
    if c == P2pGo && (a == P2pGo || b == P2pGo) then 36 else 6
  }

  /** A run of three steps, table by table. */
  lemma RunOfThree(p: Platform, s0: Step, s1: Step, s2: Step, t1: seq<Conn>, t2: seq<Conn>, t3: seq<Conn>)
    requires Enabled(p, [], s0) && Apply(p, [], s0) == t1
    requires Enabled(p, t1, s1) && Apply(p, t1, s1) == t2
    requires Enabled(p, t2, s2) && Apply(p, t2, s2) == t3
    ensures Run(p, [s0, s1, s2]) == Some(t3)
  {
    assert [] + [s0] == [s0] && [s0] + [s1] == [s0, s1] && [s0, s1] + [s2] == [s0, s1, s2];
    RunExtends(p, [], [], s0);
    RunExtends(p, [s0], t1, s1);
    RunExtends(p, [s0, s1], t2, s2);
  }

  /** All nine combinations do occur, with and without DBS hardware, for every
      system preference: the list of nine is exact. */
  lemma CombinationReachable(p: Platform, env: Env, a: Mode, b: Mode, c: Mode)
    requires Benign(p, env) && p.maxSessions >= 3 && 6 !in p.dfs && 36 !in p.dfs
    requires JoinOrder(a, b, c)
    ensures var x, y, z := Fresh(a, 6, 0), Fresh(b, 6, 1), Fresh(c, ThirdChannel(a, b, c), 2);
            Run(p, [Connect(env, x), Connect(env, y), Connect(env, z)]) == Some([x, y, z])
  {
    var x, y, z := Fresh(a, 6, 0), Fresh(b, 6, 1), Fresh(c, ThirdChannel(a, b, c), 2);
    FirstJoins(p, env, x, b, c);
    SecondJoins(p, env, x, y, c);
    ThirdJoins(p, env, x, y, z);
    RunOfThree(p, Connect(env, x), Connect(env, y), Connect(env, z), [x], [x, y], [x, y, z]);
  }

  lemma FirstJoins(p: Platform, env: Env, x: Conn, b: Mode, c: Mode)
    requires Benign(p, env) && 6 !in p.dfs && JoinOrder(x.mode, b, c) && x == Fresh(x.mode, 6, 0)
    ensures Enabled(p, [], Connect(env, x)) && Apply(p, [], Connect(env, x)) == [x]
  {
    assert [] + [x] == [x];
  }

  lemma SecondJoins(p: Platform, env: Env, x: Conn, y: Conn, c: Mode)
    requires Benign(p, env) && p.maxSessions >= 3 && 6 !in p.dfs && JoinOrder(x.mode, y.mode, c)
    requires x == Fresh(x.mode, 6, 0) && y == Fresh(y.mode, 6, 1)
    ensures Enabled(p, [x], Connect(env, y)) && Apply(p, [x], Connect(env, y)) == [x, y]
  {
    FindVdevIs([x], 1, 1);
    assert Count([x], Ibss) == 0;
    assert IbssOk(p, [x], y.mode, y.chan);
    assert [x] + [y] == [x, y];
  }

  lemma ThirdJoins(p: Platform, env: Env, x: Conn, y: Conn, z: Conn)
    requires Benign(p, env) && p.maxSessions >= 3 && 6 !in p.dfs && 36 !in p.dfs
    requires JoinOrder(x.mode, y.mode, z.mode)
    requires x == Fresh(x.mode, 6, 0) && y == Fresh(y.mode, 6, 1)
    requires z == Fresh(z.mode, ThirdChannel(x.mode, y.mode, z.mode), 2)
    ensures Enabled(p, [x, y], Connect(env, z)) && Apply(p, [x, y], Connect(env, z)) == [x, y, z]
  {
    FindVdevIs([x, y], 2, 2);
    CountTwo(x, y, Ibss);
    assert PclAvailable(p, env, [x, y], z.mode);
    assert IbssOk(p, [x, y], z.mode, z.chan) && GoOk([x, y], z.mode, z.chan);
    assert [x, y] + [z] == [x, y, z];
  }

  lemma CountTwo(x: Conn, y: Conn, mode: Mode)
    ensures Count([x, y], mode) == (if x.mode == mode then 1 else 0) + (if y.mode == mode then 1 else 0)
  {
    assert [x] + [y] == [x, y];
    CountConcat([x], [y], mode);
  }
}
