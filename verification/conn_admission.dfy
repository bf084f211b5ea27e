/** cds_allow_concurrency() over the slots, and the channel weights built on it. */
module ConnAdmission {
  import opened ConnTypes
  import opened Admission
  import opened AdmissionRules
  import opened ConnTableSpec
  import opened ConnTables
  import opened PclSpec
  import opened PclQuery
  import opened Wrappers

  /** DFS multi-channel check for a SAP or GO that starts on a DFS channel. */
  method DisallowMcc(t: ConnTable, p: Platform, chan: nat) returns (mcc: bool)
    requires t.Valid()
    ensures mcc <==>
            exists i :: 0 <= i < |t.conns| && (p.dbsCapable ==> Is5(t.conns[i].chan)) && t.conns[i].chan != chan
  {
    var index := 0;
    while t.IsValidIndex(index)
      invariant index <= |t.conns|
      invariant forall i :: 0 <= i < index && (p.dbsCapable ==> Is5(t.conns[i].chan)) ==> t.conns[i].chan == chan
      decreases MAX_CONNECTIONS - index
    {
      assert t.list[index] == t.conns[index];
      if !p.dbsCapable {
        if t.list[index].chan != chan {
          return true;
        }
      } else if Is5(t.list[index].chan) {
        if t.list[index].chan != chan {
          return true;
        }
      }
      index := index + 1;
    }
    return false;
  }

  method AllowNewHomeChannel(t: ConnTable, p: Platform, chan: nat, num: nat) returns (ok: bool)
    requires t.Valid() && num == |t.conns|
    ensures ok == HomeChannelOk(p, t.conns, chan)
    ensures chan != 0 ==> (ok <==> !ThirdHomeChannel(p, t.conns, chan))
  {
    ok := true;
    if num == 2 && t.list[0].chan != t.list[1].chan && t.list[0].mac == t.list[1].mac {
      if !p.dbsCapable {
        if chan != t.list[0].chan && chan != t.list[1].chan {
          ok := false;
        }
      } else if (Is24(chan) && Is24(t.list[0].chan) && Is24(t.list[1].chan))
                || (Is5(chan) && Is5(t.list[0].chan) && Is5(t.list[1].chan)) {
        ok := false;
      }
    }
  }

  /** No 5 GHz channel beside a connection of this mode on another, DFS channel. */
  method Is5gChannelAllowed(t: ConnTable, p: Platform, chan: nat, mode: Mode) returns (ok: bool)
    requires t.Valid()
    ensures ok <==>
            forall i :: 0 <= i < |t.conns| && t.conns[i].mode == mode && t.conns[i].chan in p.dfs && Is5(chan) ==>
              t.conns[i].chan == chan
  {
    var count, indices := t.ModeCount(mode);
    assert t.conns[..|t.conns|] == t.conns;
    var k := 0;
    while k < count
      invariant k <= count
      invariant forall j :: 0 <= j < k ==>
                  !(t.conns[indices[j]].chan in p.dfs && Is5(chan) && chan != t.conns[indices[j]].chan)
    {
      assert t.list[indices[k]] == t.conns[indices[k]];
      if t.list[indices[k]].chan in p.dfs && Is5(chan) && chan != t.list[indices[k]].chan {
        return false;
      }
      k := k + 1;
    }
    return true;
  }

  /** The sequence of IBSS and STA checks. */
  method IbssAllowed(t: ConnTable, p: Platform, mode: Mode, chan: nat, num: nat) returns (ok: bool)
    requires t.Valid() && num == |t.conns|
    ensures ok == IbssOk(p, t.conns, mode, chan)
  {
    var stas, _ := t.ModeCount(Sta);
    var ibss, _ := t.ModeCount(Ibss);
    CountPositive(t.conns, Sta);
    CountPositive(t.conns, Ibss);
    if mode == Ibss && ibss > 0 && stas > 0 {
      return false;
    }
    if mode == Ibss && chan in p.dfs && stas > 0 {
      return false;
    }
    if mode == Ibss {
      if p.dbsCapable {
        if num > 1 {
          return false;
        }
        if t.list[0].mode != Sta {
          return false;
        }
        if chan != 0 && t.list[0].chan != chan && SameBand(t.list[0].chan, chan) {
          return false;
        }
      } else if num > 0 {
        return false;
      }
    }
    if mode == Sta && ibss > 0 && stas > 0 {
      return false;
    }
    if mode == Sta && ibss > 0 {
      if p.dbsCapable {
        if num > 1 {
          return false;
        }
        if chan != 0 && t.list[0].chan in p.dfs && Is5(chan) {
          return false;
        }
        if t.list[0].chan != chan && SameBand(t.list[0].chan, chan) {
          return false;
        }
      } else {
        return false;
      }
    }
    return true;
  }

  method GoAllowed(t: ConnTable, mode: Mode, chan: nat, num: nat) returns (ok: bool)
    requires t.Valid() && num == |t.conns|
    ensures ok == GoOk(t.conns, mode, chan)
  {
    if chan != 0 && mode == P2pGo && num > 0 {
      var count, indices := t.ModeCount(P2pGo);
      assert t.conns[..|t.conns|] == t.conns;
      var k := 0;
      while k < count
        invariant k <= count
        invariant forall j :: 0 <= j < k ==> !SameBand(chan, t.conns[indices[j]].chan)
      {
        assert t.list[indices[k]] == t.conns[indices[k]];
        if SameBand(chan, t.list[indices[k]].chan) {
          assert t.conns[indices[k]].mode == P2pGo;
          return false;
        }
        k := k + 1;
      }
      forall i | 0 <= i < num && t.conns[i].mode == P2pGo ensures !SameBand(chan, t.conns[i].chan) {
        assert i in indices;
      }
    }
    return true;
  }

  /** The checks for a connection whose channel is known. */
  method ChannelAllowed(t: ConnTable, p: Platform, mode: Mode, chan: nat, num: nat) returns (ok: bool)
    requires t.Valid() && num == |t.conns|
    ensures ok == ChannelOk(p, t.conns, mode, chan)
  {
    if chan != 0 {
      var home := AllowNewHomeChannel(t, p, chan, num);
      if !home {
        return false;
      }
      var besideGo := Is5gChannelAllowed(t, p, chan, P2pGo);
      if !besideGo {
        return false;
      }
      var besideSap := Is5gChannelAllowed(t, p, chan, Sap);
      if !besideSap {
        return false;
      }
      var mcc := false;
      if mode == P2pGo || mode == Sap {
        if chan in p.dfs {
          mcc := DisallowMcc(t, p, chan);
        }
      }
      if mcc {
        return false;
      }
      assert ChannelOk(p, t.conns, mode, chan);
    }
    return true;
  }

  /** The admission decision. max is the capacity of the PCL buffers. */
  method AllowConcurrency(t: ConnTable, p: Platform, env: Env, mode: Mode, chan: nat, max: nat) returns (ok: bool)
    requires t.Valid() && Fits(env, max)
    ensures ok == Allowed(p, env, t.conns, mode, chan)
    ensures ok <==> forall r: Reason :: !Applies(r, p, env, t.conns, mode, chan)
  {
    RefusedForAReason(p, env, t.conns, mode, chan);
    var chans, weights := new nat[max](_ => 0), new nat[max](_ => 0);
    var available, _ := GetPcl(t, p, env, mode, chans, weights, max, 0, []);
    if !available {
      return false;
    }
    var num := t.ConnectionCount();
    if num > 0 && env.sub20 {
      return false;
    }
    if env.activeSessions > p.maxSessions - 1 {
      return false;
    }
    var channel := ChannelAllowed(t, p, mode, chan, num);
    if !channel {
      return false;
    }
    var ibss := IbssAllowed(t, p, mode, chan, num);
    if !ibss {
      return false;
    }
    ok := GoAllowed(t, mode, chan, num);
  }

  // ------------------------------------------------------------ channel weights

  const NON_PCL_WEIGHT := 1
  const DISALLOWED_WEIGHT := 0

  /** The weight of the first PCL entry for a channel. */
  function PclWeight(pcl: seq<Choice>, chan: nat): Option<nat> {
    if pcl == [] then None
    else if pcl[0].chan == chan then Some(pcl[0].weight)
    else PclWeight(pcl[1..], chan)
  }

  lemma {:induction false} PclWeightFirst(pcl: seq<Choice>, chan: nat, k: nat)
    requires k <= |pcl|
    requires forall j :: 0 <= j < k ==> pcl[j].chan != chan
    ensures PclWeight(pcl, chan) == PclWeight(pcl[k..], chan)
    decreases k
  {
    if k > 0 {
      PclWeightFirst(pcl[1..], chan, k - 1);
      assert pcl[1..][k - 1..] == pcl[k..];
    }
  }

  /** In the list, a channel has the weight of its first entry; outside it, 1 if a STA exists
      and could use it in the place of the first STA, and 0 otherwise. */
  lemma ChannelWeightIs(p: Platform, env: Env, conns: seq<Conn>, pcl: seq<Choice>, chan: nat)
    ensures forall k :: 0 <= k < |pcl| && pcl[k].chan == chan && (forall j :: 0 <= j < k ==> pcl[j].chan != chan) ==>
              ChannelWeight(p, env, conns, pcl, chan) == pcl[k].weight
    ensures (forall k :: 0 <= k < |pcl| ==> pcl[k].chan != chan) ==>
              ChannelWeight(p, env, conns, pcl, chan)
              == if (exists i :: 0 <= i < |conns| && conns[i].mode == Sta)
                    && Allowed(p, env, Park(conns, Sta), Sta, chan) then 1 else 0
  {
    CountPositive(conns, Sta);
    forall k | 0 <= k < |pcl| && pcl[k].chan == chan && (forall j :: 0 <= j < k ==> pcl[j].chan != chan)
      ensures PclWeight(pcl, chan) == Some(pcl[k].weight)
    {
      PclWeightFirst(pcl, chan, k);
    }
    if forall k :: 0 <= k < |pcl| ==> pcl[k].chan != chan {
      PclWeightFirst(pcl, chan, |pcl|);
    }
  }

  /** The weight of a channel outside the list. */
  function AdmittedWeight(p: Platform, env: Env, conns: seq<Conn>, chan: nat): nat {
    if Count(conns, Sta) > 0 && Allowed(p, env, Park(conns, Sta), Sta, chan) then NON_PCL_WEIGHT
    else DISALLOWED_WEIGHT
  }

  /** The weight of a valid channel for the current table. */
  function ChannelWeight(p: Platform, env: Env, conns: seq<Conn>, pcl: seq<Choice>, chan: nat): nat {
    match PclWeight(pcl, chan)
    case Some(w) => w
    case None => AdmittedWeight(p, env, conns, chan)
  }

  /** Weighs all valid channels; the STA is out of the table while its channels are
      tried and back at its end afterwards. Each admission query has its own answers
      from the environment. */
  method WeighValidChannels(t: ConnTable, p: Platform, envs: seq<Env>, max: nat, saved: seq<nat>, pcl: seq<Choice>,
                            weighed: array<nat>)
    requires t.Valid() && |saved| <= max == weighed.Length && |envs| == |saved|
    requires forall i :: 0 <= i < |envs| ==> Fits(envs[i], max)
    modifies t, t.list, weighed
    ensures t.Valid() && t.conns == ParkAndRestore(old(t.conns), Sta)
    ensures forall i :: 0 <= i < |saved| ==> weighed[i] == ChannelWeight(p, envs[i], old(t.conns), pcl, saved[i])
    ensures forall i :: |saved| <= i < max ==> weighed[i] == 0
  {
    WeighAdmitted(t, p, envs, max, saved, weighed);
    ApplyPcl(saved, pcl, weighed);
  }

  /** The weights before the list is looked at. */
  method WeighAdmitted(t: ConnTable, p: Platform, envs: seq<Env>, max: nat, saved: seq<nat>, weighed: array<nat>)
    requires t.Valid() && |saved| <= max == weighed.Length && |envs| == |saved|
    requires forall i :: 0 <= i < |envs| ==> Fits(envs[i], max)
    modifies t, t.list, weighed
    ensures t.Valid() && t.conns == ParkAndRestore(old(t.conns), Sta)
    ensures forall i :: 0 <= i < |saved| ==> weighed[i] == AdmittedWeight(p, envs[i], old(t.conns), saved[i])
    ensures forall i :: |saved| <= i < max ==> weighed[i] == DISALLOWED_WEIGHT
  {
    ghost var was := t.conns;
    Fill(weighed, DISALLOWED_WEIGHT);
    var stas, _ := t.ModeCount(Sta);
    CountPositive(was, Sta);
    if stas > 0 {
      WeighParked(t, p, envs, max, saved, weighed);
    }
  }

  /** The first STA leaves the table while the channels are tried for it. */
  method WeighParked(t: ConnTable, p: Platform, envs: seq<Env>, max: nat, saved: seq<nat>, weighed: array<nat>)
    requires t.Valid() && |saved| <= max == weighed.Length && |envs| == |saved| && FindMode(t.conns, Sta) < |t.conns|
    requires forall i :: 0 <= i < |envs| ==> Fits(envs[i], max)
    requires forall i :: 0 <= i < max ==> weighed[i] == DISALLOWED_WEIGHT
    modifies t, t.list, weighed
    ensures t.Valid() && t.conns == ParkAndRestore(old(t.conns), Sta)
    ensures forall i :: 0 <= i < |saved| ==>
              weighed[i] == if Allowed(p, envs[i], Park(old(t.conns), Sta), Sta, saved[i]) then NON_PCL_WEIGHT
                            else DISALLOWED_WEIGHT
    ensures forall i :: |saved| <= i < max ==> weighed[i] == DISALLOWED_WEIGHT
  {
    ParkThenPutBack(t.conns, Sta);
    var info := t.StoreAndDelete(Sta);
    MarkAdmitted(t, p, envs, max, saved, weighed);
    t.Restore(info);
  }

  method Fill(a: array<nat>, w: nat)
    modifies a
    ensures forall i :: 0 <= i < a.Length ==> a[i] == w
  {
    for k := 0 to a.Length
      invariant forall i :: 0 <= i < k ==> a[i] == w
    {
      a[k] := w;
    }
  }

  method MarkAdmitted(t: ConnTable, p: Platform, envs: seq<Env>, max: nat, saved: seq<nat>, weighed: array<nat>)
    requires t.Valid() && |saved| <= max == weighed.Length && |envs| == |saved|
    requires forall i :: 0 <= i < |envs| ==> Fits(envs[i], max)
    modifies weighed
    ensures t.Valid() && t.conns == old(t.conns)
    ensures forall i :: 0 <= i < |saved| ==>
              weighed[i] == if Allowed(p, envs[i], t.conns, Sta, saved[i]) then NON_PCL_WEIGHT else old(weighed[i])
    ensures forall i :: |saved| <= i < max ==> weighed[i] == old(weighed[i])
  {
    for k := 0 to |saved|
      invariant t.Valid() && t.conns == old(t.conns)
      invariant forall i :: 0 <= i < k ==>
                  weighed[i] == if Allowed(p, envs[i], t.conns, Sta, saved[i]) then NON_PCL_WEIGHT else old(weighed[i])
      invariant forall i :: k <= i < max ==> weighed[i] == old(weighed[i])
    {
      var ok := AllowConcurrency(t, p, envs[k], Sta, saved[k], max);
      if ok {
        weighed[k] := NON_PCL_WEIGHT;
      }
    }
  }

  method ApplyPcl(saved: seq<nat>, pcl: seq<Choice>, weighed: array<nat>)
    requires |saved| <= weighed.Length
    modifies weighed
    ensures forall i :: 0 <= i < |saved| ==>
              weighed[i] == match PclWeight(pcl, saved[i]) case Some(w) => w case None => old(weighed[i])
    ensures forall i :: |saved| <= i < weighed.Length ==> weighed[i] == old(weighed[i])
  {
    for i := 0 to |saved|
      invariant forall k :: 0 <= k < i ==>
                  weighed[k] == match PclWeight(pcl, saved[k]) case Some(w) => w case None => old(weighed[k])
      invariant forall k :: i <= k < weighed.Length ==> weighed[k] == old(weighed[k])
    {
      var j := 0;
      while j < |pcl| && saved[i] != pcl[j].chan
        invariant j <= |pcl|
        invariant forall k :: 0 <= k < j ==> pcl[k].chan != saved[i]
      {
        j := j + 1;
      }
      PclWeightFirst(pcl, saved[i], j);
      if j < |pcl| {
        weighed[i] := pcl[j].weight;
      }
    }
  }
}
