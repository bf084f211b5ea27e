/** What happens to the table when connections go down, change their MAC or roam while one
    of them is temporarily out of it, against the same steps outside the window. A call
    about a vdev that is not in the table is refused and changes nothing. */
module ConnWindowSteps {
  import opened ConnTypes
  import opened ConnTableSpec
  import opened ConnRuns
  import opened ConnWindows
  import opened Wrappers

  /** The step is about connections that are already up. */
  predicate IsUpdate(step: Step) {
    step.Disconnect? || step.MacChange? || step.Roam?
  }

  predicate AreUpdates(steps: seq<Step>) {
    forall i :: 0 <= i < |steps| ==> IsUpdate(steps[i])
  }

  function ApplyAll(p: Platform, t: seq<Conn>, steps: seq<Step>): seq<Conn>
    decreases |steps|
  {
    if steps == [] then t else Apply(p, ApplyAll(p, t, steps[..|steps| - 1]), steps[|steps| - 1])
  }

  /** The steps happen between the delete and the restore. */
  function WindowSteps(p: Platform, t: seq<Conn>, park: Mode, steps: seq<Step>): seq<Conn>
    requires FindMode(t, park) < |t|
  {
    PutBack(ApplyAll(p, Park(t, park), steps), t[FindMode(t, park)])
  }

  // ------------------------------------------------------ one entry on its own

  /** What one connection should become by the step. */
  function Fate(x: Conn, step: Step): Option<Conn> {
    match step
    case Disconnect(vdevId) => if vdevId == x.vdevId then None else Some(x)
    case MacChange(entries) => Some(x.(mac := NewMac(entries, x.vdevId, x.mac)))
    case Roam(c) => Some(if c.vdevId == x.vdevId then c else x)
    case _ => Some(x)
  }

  function FateAfter(x: Conn, steps: seq<Step>): Option<Conn>
    decreases |steps|
  {
    if steps == [] then Some(x)
    else
      match FateAfter(x, steps[..|steps| - 1])
      case None => None
      case Some(y) => Fate(y, steps[|steps| - 1])
  }

  function AsSeq(c: Option<Conn>): seq<Conn> {
    match c
    case None => []
    case Some(x) => [x]
  }

  /** No entry has this vdev id, and no two have the same. */
  ghost predicate Without(t: seq<Conn>, vdevId: nat) {
    DistinctVdevs(t) && forall i :: 0 <= i < |t| ==> t[i].vdevId != vdevId
  }

  lemma FindBehind(t: seq<Conn>, x: Conn, vdevId: nat)
    requires Without(t, x.vdevId)
    ensures FindVdev(t + [x], vdevId) == if FindVdev(t, vdevId) < |t| || x.vdevId == vdevId then FindVdev(t, vdevId)
                                         else |t| + 1
  {
    var u := t + [x];
    var k := if FindVdev(t, vdevId) < |t| || x.vdevId == vdevId then FindVdev(t, vdevId) else |t| + 1;
    FindVdevIs(u, vdevId, k);
  }

  lemma SetMacBehind(t: seq<Conn>, x: Conn, vdevId: nat, mac: nat)
    requires Without(t, x.vdevId)
    ensures SetMac(t + [x], vdevId, mac) == SetMac(t, vdevId, mac) + [if x.vdevId == vdevId then x.(mac := mac) else x]
    ensures Without(SetMac(t, vdevId, mac), x.vdevId)
  {
    FindBehind(t, x, vdevId);
  }

  /** A map changes the last entry as it would change it alone. */
  lemma {:induction false} RemapBehind(t: seq<Conn>, x: Conn, entries: seq<(nat, nat)>)
    requires Without(t, x.vdevId)
    ensures Remap(t + [x], entries) == Remap(t, entries) + [x.(mac := NewMac(entries, x.vdevId, x.mac))]
    ensures Without(Remap(t, entries), x.vdevId)
    decreases |entries|
  {
    if entries != [] {
      var (n, y) := (|entries| - 1, x.(mac := NewMac(entries[..|entries| - 1], x.vdevId, x.mac)));
      RemapBehind(t, x, entries[..n]);
      SetMacBehind(Remap(t, entries[..n]), y, entries[n].0, entries[n].1);
    }
  }

  lemma RemoveBehind(t: seq<Conn>, x: Conn, vdevId: nat)
    requires Without(t, x.vdevId)
    ensures RemoveVdev(t + [x], vdevId) == RemoveVdev(t, vdevId) + if x.vdevId == vdevId then [] else [x]
    ensures Without(RemoveVdev(t, vdevId), x.vdevId)
  {
    FindBehind(t, x, vdevId);
    if FindVdev(t, vdevId) < |t| {
      RemoveAtBehind(t, x, FindVdev(t, vdevId));
    } else if x.vdevId == vdevId {
      assert RemoveAt(t + [x], |t|) == t;
    }
    RemoveKeepsWithout(t, x.vdevId, vdevId);
  }

  lemma RemoveKeepsWithout(t: seq<Conn>, absent: nat, vdevId: nat)
    requires Without(t, absent)
    ensures Without(RemoveVdev(t, vdevId), absent)
  {
    RemoveVdevShifts(t, vdevId);
  }

  lemma ReplaceBehind(t: seq<Conn>, x: Conn, c: Conn)
    requires Without(t, x.vdevId)
    ensures Replace(t + [x], c) == Replace(t, c) + [if c.vdevId == x.vdevId then c else x]
    ensures Without(Replace(t, c), x.vdevId)
  {
    FindBehind(t, x, c.vdevId);
  }

  /** An update treats the last entry and those before it independently. */
  lemma UpdateBehind(p: Platform, t: seq<Conn>, x: Conn, step: Step)
    requires Without(t, x.vdevId) && IsUpdate(step)
    ensures Apply(p, t + [x], step) == Apply(p, t, step) + AsSeq(Fate(x, step))
    ensures Without(Apply(p, t, step), x.vdevId) && |Apply(p, t, step)| <= |t|
    ensures Fate(x, step).Some? ==> Fate(x, step).value.vdevId == x.vdevId
  {
    match step
    case Disconnect(vdevId) =>
      RemoveBehind(t, x, vdevId);
    case MacChange(entries) =>
      RemapBehind(t, x, entries);
      RemapKeeps(t, entries);
    case Roam(c) =>
      ReplaceBehind(t, x, c);
  }

  lemma {:induction false} UpdatesBehind(p: Platform, t: seq<Conn>, x: Conn, steps: seq<Step>)
    requires Without(t, x.vdevId) && AreUpdates(steps)
    ensures ApplyAll(p, t + [x], steps) == ApplyAll(p, t, steps) + AsSeq(FateAfter(x, steps))
    ensures Without(ApplyAll(p, t, steps), x.vdevId) && |ApplyAll(p, t, steps)| <= |t|
    ensures FateAfter(x, steps).Some? ==> FateAfter(x, steps).value.vdevId == x.vdevId
    decreases |steps|
  {
    if steps != [] {
      var n := |steps| - 1;
      var u := ApplyAll(p, t, steps[..n]);
      UpdatesBehind(p, t, x, steps[..n]);
      match FateAfter(x, steps[..n])
      case None =>
        UpdateBehind(p, u, x, steps[n]);
        assert u + [] == u;
      case Some(y) =>
        UpdateBehind(p, u, y, steps[n]);
    }
  }

  // ------------------------------------------------------------- whole windows

  lemma ParkedIs(t: seq<Conn>, park: Mode)
    requires WellFormed(t) && FindMode(t, park) < |t|
    ensures var (x, rest) := (t[FindMode(t, park)], Park(t, park));
            && Without(rest, x.vdevId) && |rest| < MAX_CONNECTIONS
            && ParkAndRestore(t, park) == rest + [x]
  {
    var k := FindMode(t, park);
    FindVdevIs(t, t[k].vdevId, k);
    RestIsWellFormed(t, k);
  }

  /** Whatever happens in the window, the parked entry comes back as it was; the others end
      up as they should. */
  lemma WindowStepsAre(p: Platform, t: seq<Conn>, park: Mode, steps: seq<Step>)
    requires WellFormed(t) && FindMode(t, park) < |t| && AreUpdates(steps)
    ensures var (x, rest) := (t[FindMode(t, park)], ApplyAll(p, Park(t, park), steps));
            && WindowSteps(p, t, park, steps) == rest + [x]
            && ApplyAll(p, ParkAndRestore(t, park), steps) == rest + AsSeq(FateAfter(x, steps))
  {
    ParkedIs(t, park);
    UpdatesBehind(p, Park(t, park), t[FindMode(t, park)], steps);
  }

  /** The window does not matter exactly when the steps, taken together, leave the parked
      connection up and as it was. */
  lemma WindowIsHarmless(p: Platform, t: seq<Conn>, park: Mode, steps: seq<Step>)
    requires WellFormed(t) && FindMode(t, park) < |t| && AreUpdates(steps)
    ensures var x := t[FindMode(t, park)];
            WindowSteps(p, t, park, steps) == ApplyAll(p, ParkAndRestore(t, park), steps) <==>
            FateAfter(x, steps) == Some(x)
  {
    var (x, rest) := (t[FindMode(t, park)], ApplyAll(p, Park(t, park), steps));
    WindowStepsAre(p, t, park, steps);
    SameEnding(rest, x, FateAfter(x, steps));
  }

  lemma SameEnding(rest: seq<Conn>, x: Conn, after: Option<Conn>)
    ensures rest + [x] == rest + AsSeq(after) <==> after == Some(x)
  {
    if after.Some? {
      assert (rest + [x])[|rest|] == x && (rest + [after.value])[|rest|] == after.value;
    }
  }

  lemma ApplyOne(p: Platform, t: seq<Conn>, step: Step)
    ensures ApplyAll(p, t, [step]) == Apply(p, t, step)
  {
    assert [step][..0] == [];
    assert ApplyAll(p, t, [step][..0]) == t;
  }

  lemma FateOfOne(x: Conn, step: Step)
    ensures FateAfter(x, [step]) == Fate(x, step)
  {
    assert [step][..0] == [];
    assert FateAfter(x, [step][..0]) == Some(x);
  }

  /** One step: a disconnect or a roam of the parked vdev is refused, so that the window
      brings back a dead or an outdated entry; a new map does not reach it. */
  lemma OneStepInWindow(p: Platform, t: seq<Conn>, park: Mode, step: Step)
    requires WellFormed(t) && FindMode(t, park) < |t| && IsUpdate(step)
    ensures var (x, inside) := (t[FindMode(t, park)], WindowSteps(p, t, park, [step]));
            && (inside == Apply(p, ParkAndRestore(t, park), step) <==>
                match step
                case Disconnect(vdevId) => vdevId != x.vdevId
                case MacChange(entries) => NewMac(entries, x.vdevId, x.mac) == x.mac
                case Roam(c) => c.vdevId != x.vdevId || c == x
                case _ => true)
            && (step == Disconnect(x.vdevId) || (step.Roam? && step.conn.vdevId == x.vdevId) ==>
                  inside == ParkAndRestore(t, park))
  {
    var x := t[FindMode(t, park)];
    WindowIsHarmless(p, t, park, [step]);
    ApplyOne(p, ParkAndRestore(t, park), step);
    FateOfOne(x, step);
    if step == Disconnect(x.vdevId) || (step.Roam? && step.conn.vdevId == x.vdevId) {
      RefusedInWindow(p, t, park, step);
    }
  }

  lemma RefusedInWindow(p: Platform, t: seq<Conn>, park: Mode, step: Step)
    requires WellFormed(t) && FindMode(t, park) < |t|
    requires var x := t[FindMode(t, park)];
             step == Disconnect(x.vdevId) || (step.Roam? && step.conn.vdevId == x.vdevId)
    ensures Apply(p, Park(t, park), step) == Park(t, park)
    ensures WindowSteps(p, t, park, [step]) == ParkAndRestore(t, park)
  {
    ParkedIs(t, park);
    ApplyOne(p, Park(t, park), step);
  }

  // ------------------------------------------------- connections and other windows

  /** A connection in the window ends in the same contents as one after it exactly when the
      table takes the newcomer both times or, full and with a session limit of 1, neither. */
  lemma ConnectInWindow(p: Platform, env: Env, t: seq<Conn>, park: Mode, c: Conn)
    requires Enters(p, env, t, park, c)
    ensures multiset(Window(p, t, park, c)) == multiset(Append(p, ParkAndRestore(t, park), c)) <==>
            if |t| < MAX_CONNECTIONS then p.maxSessions >= |t| else p.maxSessions < 2
  {
    var (k, x) := (FindMode(t, park), t[FindMode(t, park)]);
    var rest := Park(t, park);
    ParkedIs(t, park);
    WindowIs(p, env, t, park, c);
    LastTwo(rest, c, x);
    AddedContents(rest, c, x);
    assert FindVdev(t, c.vdevId) == |t| && t[k] == x;
  }

  /** What is added can be told from the contents. */
  lemma AddedContents(u: seq<Conn>, c: Conn, x: Conn)
    ensures multiset(u + [c]) == multiset(u + [x]) <==> c == x
    ensures multiset(u + [c] + [x]) != multiset(u + [x])
  {
    assert multiset(u + [c]) == multiset(u) + multiset{c} && multiset(u + [x]) == multiset(u) + multiset{x};
    assert (multiset(u) + multiset{x})[x] == multiset(u)[x] + 1;
    assert (multiset(u) + multiset{c})[x] == multiset(u)[x] + if c == x then 1 else 0;
    assert |multiset(u + [c] + [x])| == |u| + 2 && |multiset(u + [x])| == |u| + 1;
  }

  lemma InnerWindow(p: Platform, rest: seq<Conn>, x: Conn, mode: Mode)
    requires Without(rest, x.vdevId) && |rest| < MAX_CONNECTIONS
    ensures PutBack(ApplyAll(p, rest, [ParkRestore(mode)]), x) == ParkAndRestore(rest, mode) + [x]
  {
    ApplyOne(p, rest, ParkRestore(mode));
    ParkAndRestoreMovesToEnd(rest, mode);
  }

  lemma WindowContents(t: seq<Conn>, park: Mode)
    requires WellFormed(t) && FindMode(t, park) < |t|
    ensures multiset(Park(t, park) + [t[FindMode(t, park)]]) == multiset(t)
  {
    ParkedIs(t, park);
    ParkAndRestoreIsPermutation(t, park);
  }

  /** A second window within the first: the contents are the same, the order is exactly if
      the second one has nothing to park. */
  lemma NestedWindow(p: Platform, t: seq<Conn>, park: Mode, mode: Mode)
    requires WellFormed(t) && FindMode(t, park) < |t|
    ensures var (inside, outside) := (WindowSteps(p, t, park, [ParkRestore(mode)]),
                                      ParkAndRestore(ParkAndRestore(t, park), mode));
            && multiset(inside) == multiset(t) && multiset(outside) == multiset(t)
            && (inside == outside <==> FindMode(Park(t, park), mode) == |Park(t, park)|)
  {
    var (x, rest) := (t[FindMode(t, park)], Park(t, park));
    ParkedIs(t, park);
    InnerWindow(p, rest, x, mode);
    WindowContents(t, park);
    NestedParks(rest, x, mode);
  }

  lemma NestedParks(rest: seq<Conn>, x: Conn, mode: Mode)
    requires Without(rest, x.vdevId)
    ensures var (inside, outside) := (ParkAndRestore(rest, mode) + [x], ParkAndRestore(rest + [x], mode));
            && multiset(inside) == multiset(rest + [x]) && multiset(outside) == multiset(rest + [x])
            && (inside == outside <==> FindMode(rest, mode) == |rest|)
  {
    var k := FindMode(rest, mode);
    ParkBehind(rest, x, mode);
    if k < |rest| {
      RemoveAtMultiset(rest, k);
      LastTwo(RemoveAt(rest, k), rest[k], x);
    }
  }

  lemma LastTwo(u: seq<Conn>, y: Conn, x: Conn)
    ensures multiset(u + [y] + [x]) == multiset(u) + multiset{y} + multiset{x}
    ensures multiset(u + [x] + [y]) == multiset(u) + multiset{y} + multiset{x}
    ensures u + [y] + [x] == u + [x] + [y] <==> x == y
  {
    assert (u + [y] + [x])[|u|] == y && (u + [x] + [y])[|u|] == x;
  }

  lemma ParkBehind(rest: seq<Conn>, x: Conn, mode: Mode)
    requires Without(rest, x.vdevId)
    ensures var k := FindMode(rest, mode);
            if k < |rest| then
              && ParkAndRestore(rest, mode) == RemoveAt(rest, k) + [rest[k]]
              && ParkAndRestore(rest + [x], mode) == RemoveAt(rest, k) + [x] + [rest[k]]
            else
              ParkAndRestore(rest, mode) == rest && ParkAndRestore(rest + [x], mode) == rest + [x]
  {
    var (k, u) := (FindMode(rest, mode), rest + [x]);
    FindModeBehind(rest, x, mode);
    ParkAndRestoreMovesToEnd(rest, mode);
    ParkAndRestoreMovesToEnd(u, mode);
    if k < |rest| {
      RemoveAtBehind(rest, x, k);
    } else if x.mode == mode {
      assert RemoveAt(u, |rest|) == rest;
    }
  }

  lemma FindModeBehind(rest: seq<Conn>, x: Conn, mode: Mode)
    ensures var k := FindMode(rest, mode);
            FindMode(rest + [x], mode) == if k < |rest| || x.mode == mode then k else |rest| + 1
  {
    var k := FindMode(rest, mode);
    FindModeIs(rest + [x], mode, if k < |rest| || x.mode == mode then k else |rest| + 1);
  }

  lemma RemoveAtBehind(rest: seq<Conn>, x: Conn, k: nat)
    requires k < |rest|
    ensures RemoveAt(rest + [x], k) == RemoveAt(rest, k) + [x]
  {
  }
}
