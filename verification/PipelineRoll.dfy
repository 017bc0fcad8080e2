/**
 Which hosts are registered, with which filters: what AddTarget, RemoveTargets and CustomFilter.Add have
 done to the target list and the filters over a whole run.
 */
module PipelineRoll {
  import opened Basics
  import opened TargetHost
  import opened Pipeline
  import opened PipelineInvariant
  import opened PipelineLifecycle
  import opened PipelineTheorems

  // ---- the roll of a run ----------------------------------------------------------------------------

  /** The hosts of `list` that are not selected, in order. */
  function Without(list: seq<nat>, sel: set<nat>): seq<nat> {
    if list == [] then []
    else if Last(list) in sel then Without(Front(list), sel)
    else Without(Front(list), sel) + [Last(list)]
  }

  /**
   What a clerk who sees the steps only would note down: the hosts added and not removed, the selection of
   the RemoveTargets call in progress, and what every host was made with and has had added.
   */
  datatype Roll = Roll(list: seq<nat>, sel: Option<set<nat>>, caps: seq<nat>, filters: seq<set<nat>>)

  function Noted(r: Roll, st: Step): Roll {
    if !st.OfTargets? then r
    else if st.t.TAdd? then
      r.(list := r.list + [|r.caps|], caps := r.caps + [st.t.cap], filters := r.filters + [st.t.filter])
    else if st.t.TRemove? then r.(sel := Some(st.t.sel))
    else if st.t.TRemoved? && r.sel.Some? then r.(list := Without(r.list, r.sel.value), sel := None)
    else if st.t.TGrow? && st.t.h < |r.filters| then
      r.(filters := r.filters[st.t.h := r.filters[st.t.h] + st.t.lvls])
    else r
  }

  function RollOf(steps: seq<Step>): Roll {
    if steps == [] then Roll([], None, [], []) else Noted(RollOf(Front(steps)), Last(steps))
  }

  /** The pipeline is as the roll says. While RemoveTargets is at work it has dealt with the first j targets. */
  ghost predicate Agrees(s: State, r: Roll) {
    && s.targets == r.list && |r.caps| == |s.hosts| == |r.filters|
    && (forall h :: 0 <= h < |s.hosts| ==> s.hosts[h].cap == r.caps[h] && s.hosts[h].filter == r.filters[h])
    && RmAgrees(s, r)
  }

  ghost predicate RmAgrees(s: State, r: Roll) {
    match s.rm
    case Free => r.sel == None
    case Removing(sel, j, _, keep, _) => r.sel == Some(sel) && j <= |s.targets| && keep == Without(s.targets[..j], sel)
  }

  lemma WithoutSnoc(list: seq<nat>, h: nat, sel: set<nat>)
    ensures Without(list + [h], sel) == if h in sel then Without(list, sel) else Without(list, sel) + [h]
  {
    assert Front(list + [h]) == list;
  }

  lemma RollKeptT(s: State, t: TStep, r: Roll)
    requires Agrees(s, r) && TEnabled(s, t)
    ensures Agrees(TApply(s, t), Noted(r, OfTargets(t)))
  {
    match t
    case TKeep => RollKeptKeep(s, r);
    case TRemoved => assert s.targets[..s.rm.j] == s.targets;
    case TRemove(_) => assert s.targets[..0] == [];
    case TAdd(_, _) =>
    case TGrow(_, _) =>
    case _ => TFrame(s, t);
  }

  lemma RollKeptKeep(s: State, r: Roll)
    requires Agrees(s, r) && TEnabled(s, TKeep)
    ensures Agrees(TApply(s, TKeep), r)
  {
    assert s.targets[..s.rm.j + 1] == s.targets[..s.rm.j] + [s.targets[s.rm.j]];
    WithoutSnoc(s.targets[..s.rm.j], s.targets[s.rm.j], s.rm.sel);
  }

  lemma TouchKeepsMake(h: Host, t: Touch)
    requires TouchGuard(h, t) && !t.Grown?
    ensures TouchHost(h, t).cap == h.cap && TouchHost(h, t).filter == h.filter
  {}

  lemma RollKeptK(s: State, who: Who, k: KillStep, r: Roll)
    requires Agrees(s, r) && KEnabled(s, who, k)
    ensures RmAgrees(KApply(s, who, k), r)
  {
    KFrame(s, who, k);
    if who.ByRemove? {
      assert s.targets[..s.rm.j + 1] == s.targets[..s.rm.j] + [s.targets[s.rm.j]];
      WithoutSnoc(s.targets[..s.rm.j], s.targets[s.rm.j], s.rm.sel);
    }
  }

  lemma RollFrame(s: State, st: Step)
    requires Enabled(s, st) && !st.OfTargets?
    ensures var s' := Apply(s, st); s'.targets == s.targets && (!st.OfKill? ==> s'.rm == s.rm)
  {
    match st
    case OfLoop(l) => LFrame(s, l);
    case OfLog(g) => GFrame(s, g);
    case OfCaller(c) => CFrame(s, c);
    case OfHost(_, _) =>
    case OfKill(who, k) => KFrame(s, who, k);
  }

  lemma RollKept(s: State, st: Step, r: Roll)
    requires Agrees(s, r) && Enabled(s, st)
    ensures Agrees(Apply(s, st), Noted(r, st))
  {
    if st.OfTargets? {
      RollKeptT(s, st.t, r);
    } else {
      RollFrame(s, st);
      HostsAfter(s, st);
      forall h | 0 <= h < |s.hosts| {
        TouchKeepsMake(s.hosts[h], TouchOf(s, st, h));
      }
      if st.OfKill? { RollKeptK(s, st.who, st.k, r); }
    }
  }

  /**
   In every run the registered targets are those added and not removed since, in order of addition, and
   every host has the queue it was made with and the filter it was made with plus all that was added.
   */
  lemma {:induction false} RolledTargets(lcap: nat, steps: seq<Step>)
    requires Exec(Init(lcap), steps).Some?
    ensures Agrees(Exec(Init(lcap), steps).value, RollOf(steps))
  {
    if steps != [] {
      RolledTargets(lcap, Front(steps));
      RollKept(Exec(Init(lcap), Front(steps)).value, Last(steps), RollOf(Front(steps)));
    }
  }

  // ---- registered, or shut down ---------------------------------------------------------------------

  /**
   Every host that nobody has shut down is registered, in order of addition. While RemoveTargets is at work,
   each selected host it has passed is shut down.
   */
  ghost predicate RegInv(s: State) {
    && Increasing(s.targets)
    && (forall h :: 0 <= h < |s.hosts| && !s.hosts[h].shut ==> h in s.targets)
    && (s.rm.Removing? ==> KeptOrShut(s))
  }

  ghost predicate KeptOrShut(s: State)
    requires s.rm.Removing?
  {
    && s.rm.j <= |s.targets|
    && (forall k :: 0 <= k < s.rm.j && s.targets[k] < |s.hosts| && s.targets[k] in s.rm.sel ==>
          s.hosts[s.targets[k]].shut)
    && (s.rm.j < |s.targets| && !s.rm.k.Swapping? && s.targets[s.rm.j] in s.rm.sel && s.targets[s.rm.j] < |s.hosts| ==>
          s.hosts[s.targets[s.rm.j]].shut)
  }

  lemma {:induction false} WithoutIs(list: seq<nat>, sel: set<nat>)
    ensures forall h :: h in Without(list, sel) <==> h in list && h !in sel
  {
    if list != [] {
      WithoutIs(Front(list), sel);
      assert list == Front(list) + [Last(list)];
    }
  }

  ghost predicate Increasing(list: seq<nat>) { forall i, j :: 0 <= i < j < |list| ==> list[i] < list[j] }

  lemma {:induction false} WithoutIncreases(list: seq<nat>, sel: set<nat>)
    requires Increasing(list)
    ensures Increasing(Without(list, sel))
  {
    if list != [] {
      WithoutIncreases(Front(list), sel);
      WithoutIs(Front(list), sel);
      var a := Without(Front(list), sel);
      forall i | 0 <= i < |a| ensures a[i] < Last(list) {
        assert a[i] in a;
      }
    }
  }

  lemma RegKeptRemoved(s: State)
    requires Shape(s) && RegInv(s) && TEnabled(s, TRemoved) && s.rm.keep == Without(s.targets, s.rm.sel)
    ensures RegInv(TApply(s, TRemoved))
  {
    WithoutIs(s.targets, s.rm.sel);
    WithoutIncreases(s.targets, s.rm.sel);
    forall h | 0 <= h < |s.hosts| && !s.hosts[h].shut ensures h in Without(s.targets, s.rm.sel) {
      var k :| 0 <= k < |s.targets| && s.targets[k] == h;
    }
  }

  lemma RegKeptT(s: State, t: TStep, r: Roll)
    requires Shape(s) && RegInv(s) && TEnabled(s, t) && RmAgrees(s, r)
    ensures RegInv(TApply(s, t))
  {
    match t
    case TKeep => RegKeptKeep(s);
    case TRemoved =>
      assert s.targets[..s.rm.j] == s.targets;
      RegKeptRemoved(s);
    case TRemove(_) =>
    case TAdd(cap, filter) => RegKeptAdd(s, cap, filter);
    case TGrow(_, _) =>
    case _ => TFrame(s, t);
  }

  lemma RegKeptAdd(s: State, cap: nat, filter: set<nat>)
    requires Shape(s) && RegInv(s) && TEnabled(s, TAdd(cap, filter))
    ensures RegInv(TApply(s, TAdd(cap, filter)))
  {
    var s' := TApply(s, TAdd(cap, filter));
    forall h | 0 <= h < |s'.hosts| && !s'.hosts[h].shut ensures h in s'.targets {
      if h < |s.hosts| {
        assert h in s.targets;
        assert s'.targets == s.targets + [|s.hosts|];
      } else {
        assert s'.targets[|s.targets|] == h;
      }
    }
  }

  lemma RegKeptKeep(s: State)
    requires RegInv(s) && TEnabled(s, TKeep)
    ensures RegInv(TApply(s, TKeep))
  {}

  lemma RegKeptK(s: State, who: Who, k: KillStep)
    requires Shape(s) && RegInv(s) && KEnabled(s, who, k)
    ensures RegInv(KApply(s, who, k))
  {
    KFrame(s, who, k);
    KHosts(s, who, k);
    if who.ByRemove? { RegKeptRm(s, k); }
  }

  lemma RegKeptRm(s: State, k: KillStep)
    requires Shape(s) && RegInv(s) && KEnabled(s, ByRemove, k)
    ensures RegInv(KApply(s, ByRemove, k))
  {
    KFrame(s, ByRemove, k);
    KHosts(s, ByRemove, k);
  }

  lemma ShutSameTouch(h: Host, t: Touch)
    requires TouchGuard(h, t) && !t.Killed?
    ensures TouchHost(h, t).shut == h.shut
  {}

  lemma RegKept(s: State, st: Step, r: Roll)
    requires Shape(s) && RegInv(s) && Enabled(s, st) && RmAgrees(s, r)
    ensures RegInv(Apply(s, st))
  {
    match st
    case OfTargets(t) => RegKeptT(s, t, r);
    case OfKill(who, k) => RegKeptK(s, who, k);
    case _ => RegKeptRest(s, st);
  }

  lemma RegKeptRest(s: State, st: Step)
    requires RegInv(s) && Enabled(s, st) && !st.OfTargets? && !st.OfKill?
    ensures RegInv(Apply(s, st))
  {
    RollFrame(s, st);
    HostsAfter(s, st);
    forall h | 0 <= h < |s.hosts| ensures Apply(s, st).hosts[h].shut == s.hosts[h].shut {
      ShutSameTouch(s.hosts[h], TouchOf(s, st, h));
    }
  }

  lemma {:induction false} ReachableReg(lcap: nat, steps: seq<Step>)
    requires Exec(Init(lcap), steps).Some?
    ensures RegInv(Exec(Init(lcap), steps).value)
  {
    if steps != [] {
      ReachableReg(lcap, Front(steps));
      InvInit(lcap);
      ExecKeepsInv(Init(lcap), Front(steps));
      RolledTargets(lcap, Front(steps));
      RegKept(Exec(Init(lcap), Front(steps)).value, Last(steps), RollOf(Front(steps)));
    }
  }

  /**
   Before Shutdown's sweep and outside RemoveTargets the registered hosts are exactly those that nobody has
   shut down, in order of addition; at any time those not shut down are registered.
   */
  lemma RegisteredIff(s: State, h: nat)
    requires Reachable(s) && h < |s.hosts|
    ensures !s.hosts[h].shut ==> h in s.targets
    ensures s.rm.Free? && !s.sd.Hosts? && !s.sd.Down? ==> (h in s.targets <==> !s.hosts[h].shut)
    ensures Increasing(s.targets)
  {
    var lcap: nat, steps :| Exec(Init(lcap), steps) == Some(s);
    ReachableReg(lcap, steps);
    ReachableInv(s);
  }

  /** While RemoveTargets runs, its selection and the list it started from stay as they are. */
  lemma {:induction false} RemovalKeepsList(s: State, sel: set<nat>, steps: seq<Step>)
    requires TEnabled(s, TRemove(sel)) && Exec(TApply(s, TRemove(sel)), steps).Some?
    requires forall i :: 0 <= i < |steps| ==> steps[i] != OfTargets(TRemoved)
    ensures var u := Exec(TApply(s, TRemove(sel)), steps).value;
      u.rm.Removing? && u.rm.sel == sel && u.targets == s.targets
  {
    if steps != [] {
      assert forall i :: 0 <= i < |Front(steps)| ==> Front(steps)[i] == steps[i];
      RemovalKeepsList(s, sel, Front(steps));
      var u := Exec(TApply(s, TRemove(sel)), Front(steps)).value;
      assert steps[|steps| - 1] == Last(steps);
      RemovalStep(u, Last(steps));
    }
  }

  lemma RemovalStep(u: State, st: Step)
    requires u.rm.Removing? && Enabled(u, st) && st != OfTargets(TRemoved)
    ensures var v := Apply(u, st); v.rm.Removing? && v.rm.sel == u.rm.sel && v.targets == u.targets
  {
    match st
    case OfTargets(t) => TFrame(u, t);
    case _ => RollFrame(u, st);
  }

  /**
   RemoveTargets over its whole run, whatever else happens meanwhile: it ends with the list it started from
   less the selected hosts, in order, and every selected host it had is shut down.
   */
  lemma RemovesExactly(s: State, sel: set<nat>, steps: seq<Step>)
    requires Reachable(s) && TEnabled(s, TRemove(sel)) && Exec(TApply(s, TRemove(sel)), steps).Some?
    requires forall i :: 0 <= i < |steps| ==> steps[i] != OfTargets(TRemoved)
    requires TEnabled(Exec(TApply(s, TRemove(sel)), steps).value, TRemoved)
    ensures var u := TApply(Exec(TApply(s, TRemove(sel)), steps).value, TRemoved);
      && u.targets == Without(s.targets, sel)
      && forall k :: 0 <= k < |s.targets| && s.targets[k] in sel ==>
           s.targets[k] < |u.hosts| && u.hosts[s.targets[k]].shut
  {
    RemovalKeepsList(s, sel, steps);
    ReachableStep(s, OfTargets(TRemove(sel)));
    ReachableRun(TApply(s, TRemove(sel)), steps);
    var u := Exec(TApply(s, TRemove(sel)), steps).value;
    var lcap: nat, all :| Exec(Init(lcap), all) == Some(u);
    ReachableReg(lcap, all);
    RolledTargets(lcap, all);
    RemovedAll(u, RollOf(all));
    ReachableInv(u);
  }

  lemma RemovedAll(u: State, r: Roll)
    requires RmAgrees(u, r) && TEnabled(u, TRemoved)
    ensures TApply(u, TRemoved).targets == Without(u.targets, u.rm.sel)
  {
    assert u.targets[..u.rm.j] == u.targets;
  }

  lemma {:induction false} ReachableRun(s: State, steps: seq<Step>)
    requires Reachable(s) && Exec(s, steps).Some?
    ensures Reachable(Exec(s, steps).value)
  {
    if steps != [] {
      ReachableRun(s, Front(steps));
      ReachableStep(Exec(s, Front(steps)).value, Last(steps));
    }
  }

  /** CustomFilter.Add takes effect at once, at that host and no other, whatever else is going on. */
  lemma GrowTakesEffect(s: State, h: nat, lvls: set<nat>)
    requires h < |s.hosts|
    ensures TEnabled(s, TGrow(h, lvls))
    ensures var s' := TApply(s, TGrow(h, lvls));
      && |s'.hosts| == |s.hosts|
      && (forall lvl :: lvl in s'.hosts[h].filter <==> lvl in s.hosts[h].filter || lvl in lvls)
      && (forall i :: 0 <= i < |s.hosts| && i != h ==> s'.hosts[i] == s.hosts[i])
  {}
}
