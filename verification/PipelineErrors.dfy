/**
 What Shutdown and RemoveTargets report: their error results say exactly whether something went wrong among
 the steps that led there.
 */
module PipelineErrors {
  import opened Basics
  import opened TargetHost
  import opened Pipeline
  import opened PipelineInvariant
  import opened PipelineTheorems

  /** TargetHost.Shutdown returns an error: the host was shut down before, or its target reports one. */
  predicate HostFails(s: State, who: Who, st: Step) {
    && st.OfKill? && st.who == who && Killing(s, who)
    && (st.k == KStop(false) || (st.k.KSwap? && s.hosts[Victim(s, who)].shut))
  }

  /** Among the steps of the run, Shutdown's context expired at the wait for the loop, or a host failed. */
  ghost predicate SweepFailed(s: State, steps: seq<Step>)
    requires Exec(s, steps).Some?
  {
    steps != [] &&
      (SweepFailed(s, Front(steps))
       || Last(steps) == OfTargets(TExpire)
       || HostFails(Exec(s, Front(steps)).value, ByShutdown, Last(steps)))
  }

  /** Since the last RemoveTargets call began, a host it removes failed. */
  ghost predicate RemovalFailed(s: State, steps: seq<Step>)
    requires Exec(s, steps).Some?
  {
    steps != [] && !(Last(steps).OfTargets? && Last(steps).t.TRemove?)
    && (RemovalFailed(s, Front(steps)) || HostFails(Exec(s, Front(steps)).value, ByRemove, Last(steps)))
  }

  predicate SdErr(sd: Sd) { (sd.Relock? || sd.Hosts? || sd.Down?) && sd.err }

  predicate RmErr(rm: Rm) { rm.Removing? && rm.err }

  lemma SdErrAfter(s: State, st: Step)
    requires Enabled(s, st) && (s.shut <==> !s.sd.Up?)
    ensures SdErr(Apply(s, st).sd) <==> SdErr(s.sd) || st == OfTargets(TExpire) || HostFails(s, ByShutdown, st)
  {
    match st
    case OfLoop(l) => LFrame(s, l);
    case OfLog(g) => GFrame(s, g);
    case OfCaller(c) => CFrame(s, c);
    case OfTargets(t) => SdErrAfterT(s, t);
    case OfHost(_, _) =>
    case OfKill(who, k) => SdErrAfterK(s, who, k);
  }

  lemma SdErrAfterT(s: State, t: TStep)
    requires TEnabled(s, t)
    ensures SdErr(TApply(s, t).sd) <==> SdErr(s.sd) || t == TExpire
  {}

  lemma SdErrAfterK(s: State, who: Who, k: KillStep)
    requires KEnabled(s, who, k)
    ensures SdErr(KApply(s, who, k).sd) <==> SdErr(s.sd) || HostFails(s, ByShutdown, OfKill(who, k))
  {}

  lemma RmErrAfter(s: State, st: Step)
    requires Enabled(s, st)
    ensures RmErr(Apply(s, st).rm) ==> !(st.OfTargets? && st.t.TRemove?)
    ensures Apply(s, st).rm.Removing? && !(st.OfTargets? && st.t.TRemove?) ==>
      s.rm.Removing? && (RmErr(Apply(s, st).rm) <==> RmErr(s.rm) || HostFails(s, ByRemove, st))
  {
    match st
    case OfLoop(l) => LFrame(s, l);
    case OfLog(g) => GFrame(s, g);
    case OfCaller(c) => CFrame(s, c);
    case OfTargets(t) => RmErrAfterT(s, t);
    case OfHost(_, _) =>
    case OfKill(who, k) => RmErrAfterK(s, who, k);
  }

  lemma RmErrAfterT(s: State, t: TStep)
    requires TEnabled(s, t)
    ensures t.TRemove? ==> !RmErr(TApply(s, t).rm)
    ensures TApply(s, t).rm.Removing? && !t.TRemove? ==> s.rm.Removing? && (RmErr(TApply(s, t).rm) <==> RmErr(s.rm))
  {}

  lemma RmErrAfterK(s: State, who: Who, k: KillStep)
    requires KEnabled(s, who, k)
    ensures KApply(s, who, k).rm.Removing? <==> s.rm.Removing?
    ensures RmErr(KApply(s, who, k).rm) <==> RmErr(s.rm) || HostFails(s, ByRemove, OfKill(who, k))
  {}

  /** In every run the error results so far say exactly whether something has gone wrong. */
  lemma {:induction false} ErrorsAreReal(lcap: nat, steps: seq<Step>)
    requires Exec(Init(lcap), steps).Some?
    ensures var s := Exec(Init(lcap), steps).value;
      && (SdErr(s.sd) <==> SweepFailed(Init(lcap), steps))
      && (s.rm.Removing? ==> (s.rm.err <==> RemovalFailed(Init(lcap), steps)))
  {
    if steps != [] {
      ErrorsAreReal(lcap, Front(steps));
      var s := Exec(Init(lcap), Front(steps)).value;
      InvInit(lcap);
      ExecKeepsInv(Init(lcap), Front(steps));
      SdErrAfter(s, Last(steps));
      RmErrAfter(s, Last(steps));
    }
  }

  /**
   Shutdown past its last host returns nil if and only if neither its wait for the loop was cut short nor any
   host failed in its sweep; and that is the result it goes away with.
   */
  lemma NilIffNothingFailed(lcap: nat, steps: seq<Step>)
    requires Exec(Init(lcap), steps).Some?
    requires var s := Exec(Init(lcap), steps).value; s.sd.Hosts? && s.sd.j == |s.targets|
    ensures var s := Exec(Init(lcap), steps).value;
      && (ReturningNil(s) <==> !SweepFailed(Init(lcap), steps))
      && TEnabled(s, TDown) && TApply(s, TDown).sd == Down(s.sd.via, SweepFailed(Init(lcap), steps))
  {
    ErrorsAreReal(lcap, steps);
  }

  /** RemoveTargets past its last host returns nil if and only if no host it removed failed. */
  lemma RemovalNilIff(lcap: nat, steps: seq<Step>)
    requires Exec(Init(lcap), steps).Some? && TEnabled(Exec(Init(lcap), steps).value, TRemoved)
    ensures Exec(Init(lcap), steps).value.rm.err <==> RemovalFailed(Init(lcap), steps)
  {
    ErrorsAreReal(lcap, steps);
  }
}
