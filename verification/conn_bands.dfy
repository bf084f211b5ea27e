/** Channels of one band on one MAC of DBS hardware, over every run, whatever the MACs. */
module ConnBands {
  import opened ConnTypes
  import opened Admission
  import opened AdmissionRules
  import opened ConnTableSpec
  import opened ConnRuns

  /** All on 2.4 GHz or all on 5 GHz. */
  predicate SameBandThree(a: nat, b: nat, c: nat) {
    (Is24(a) && Is24(b) && Is24(c)) || (Is5(a) && Is5(b) && Is5(c))
  }

  predicate SameMacThree(a: nat, b: nat, c: nat) {
    a == b == c
  }

  /** No MAC serves three different channels of one band. */
  ghost predicate TwoPerBand(t: seq<Conn>) {
    |t| == 3 && SameBandThree(t[0].chan, t[1].chan, t[2].chan) && SameMacThree(t[0].mac, t[1].mac, t[2].mac) ==>
      t[0].chan == t[1].chan || t[1].chan == t[2].chan || t[0].chan == t[2].chan
  }

  lemma StepKeepsBands(p: Platform, t: seq<Conn>, step: Step)
    requires p.dbsCapable && WellFormed(t) && Enabled(p, t, step) && !step.Roam? && !step.MacChange?
    requires TwoPerBand(t)
    ensures TwoPerBand(Apply(p, t, step))
  {
    if step.Connect? {
      assert step.conn.chan != 0 ==> HomeChannelOk(p, t, step.conn.chan);
    } else if step.ParkRestore? {
      ParkAndRestoreMovesToEnd(t, step.mode);
    }
  }

  /** What a new channel for one of three connections has to pass: the home channel test of
      admission against the other two, unless it goes to a channel that one of them uses or
      to another MAC. */
  ghost predicate BandGuard(p: Platform, t: seq<Conn>, c: Conn) {
    var others := RemoveVdev(t, c.vdevId);
    |others| == 2 ==>
      || c.chan == others[0].chan || c.chan == others[1].chan || c.mac != others[0].mac
      || HomeChannelOk(p, others, c.chan)
  }

  lemma RefreshKeepsBands(p: Platform, t: seq<Conn>, c: Conn)
    requires p.dbsCapable && WellFormed(t) && FindVdev(t, c.vdevId) < |t|
    ensures TwoPerBand(Replace(t, c)) <==> BandGuard(p, t, c)
  {
    RemoveVdevShifts(t, c.vdevId);
    assert Replace(t, c) == t[FindVdev(t, c.vdevId) := c];
  }

  /** A new map must not bring three channels of one band to one MAC. */
  ghost predicate MapGuard(t: seq<Conn>, entries: seq<(nat, nat)>) {
    |t| == 3 && SameBandThree(t[0].chan, t[1].chan, t[2].chan)
    && t[0].chan != t[1].chan && t[1].chan != t[2].chan && t[0].chan != t[2].chan ==>
      !SameMacThree(NewMac(entries, t[0].vdevId, t[0].mac), NewMac(entries, t[1].vdevId, t[1].mac),
                    NewMac(entries, t[2].vdevId, t[2].mac))
  }

  lemma MapKeepsBands(t: seq<Conn>, entries: seq<(nat, nat)>)
    requires WellFormed(t)
    ensures TwoPerBand(Remap(t, entries)) <==> MapGuard(t, entries)
  {
    RemapIs(t, entries);
  }

  ghost predicate Guarded(p: Platform, t: seq<Conn>, step: Step) {
    match step
    case Roam(c) => BandGuard(p, t, c)
    case MacChange(entries) => MapGuard(t, entries)
    case _ => true
  }

  /** Every roam and every new map meets its guard, against the table it finds. */
  ghost predicate BandsGuarded(p: Platform, steps: seq<Step>)
    decreases |steps|
  {
    steps == [] ||
    (var n := |steps| - 1;
     && BandsGuarded(p, steps[..n])
     && (Run(p, steps[..n]).Some? ==> Guarded(p, Run(p, steps[..n]).value, steps[n])))
  }

  ghost predicate AlwaysTwoPerBand(p: Platform, steps: seq<Step>)
    decreases |steps|
  {
    && (Run(p, steps).Some? ==> TwoPerBand(Run(p, steps).value))
    && (steps != [] ==> AlwaysTwoPerBand(p, steps[..|steps| - 1]))
  }

  /** On DBS hardware no MAC ever serves a third channel of a band, exactly when all roams
      and new maps meet their guards. */
  lemma {:induction false} AtMostTwoPerBand(p: Platform, steps: seq<Step>)
    requires p.dbsCapable && Run(p, steps).Some?
    ensures AlwaysTwoPerBand(p, steps) <==> BandsGuarded(p, steps)
    decreases |steps|
  {
    if steps != [] {
      var n := |steps| - 1;
      var t := Run(p, steps[..n]).value;
      AtMostTwoPerBand(p, steps[..n]);
      RunWellFormed(p, steps[..n]);
      if steps[n].Roam? {
        RefreshKeepsBands(p, t, steps[n].conn);
      } else if steps[n].MacChange? {
        MapKeepsBands(t, steps[n].entries);
      } else if TwoPerBand(t) {
        StepKeepsBands(p, t, steps[n]);
      }
    }
  }

  /** A map that breaks the rule: STA on 1 and SAP on 6 use two MACs, so that a second STA is
      admitted on 11, and then all are moved to one MAC. */
  lemma MapMergesMacs(p: Platform, env: Env, sta: Conn, sap: Conn, second: Conn)
    requires p == Platform(true, {}, {}, 3, 0) && env.activeSessions < 3 && !env.sub20 && env.validChans.Some?
    requires sta == Conn(Sta, 1, 0, 0, OneOne, 1, 0, true) && sap == Conn(Sap, 6, 0, 1, OneOne, 1, 1, true)
    requires second == Conn(Sta, 11, 0, 0, OneOne, 1, 2, true)
    ensures Allowed(p, env, [sta, sap], second.mode, second.chan)
    ensures TwoPerBand([sta, sap, second]) && !TwoPerBand(Remap([sta, sap, second], [(1, 0)]))
  {
    ThirdChannelOfBand(p, env, sta, sap);
    var t := [sta, sap, second];
    MapKeepsBands(t, [(1, 0)]);
    OneEntryMap(1, 0);
  }

  lemma OneEntryMap(vdevId: nat, mac: nat)
    ensures forall v, m :: NewMac([(vdevId, mac)], v, m) == if v == vdevId then mac else m
  {
    assert [(vdevId, mac)][..0] == [];
  }
}
