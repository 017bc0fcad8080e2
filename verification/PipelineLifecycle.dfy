/**
 Shutdown: what is closed and called how often, in what order, and why a pipeline whose last
 accepted message was an acknowledged flush stays at rest.
 */
module PipelineLifecycle {
  import opened Basics
  import opened TargetHost
  import opened Pipeline
  import opened PipelineInvariant
  import opened PipelineProtocol

  // ---- rest after a flush ---------------------------------------------------------------------------

  /** The last message that entered lgr.in is a flush that has been acknowledged. */
  ghost predicate Settled(s: State) {
    s.accepted != [] && Last(s.accepted).Ctl? && Last(s.accepted).n in s.acked
  }

  ghost predicate AllDrained(s: State) {
    forall k :: 0 <= k < |s.targets| && s.targets[k] < |s.hosts| ==> Drained(s.hosts[s.targets[k]])
  }

  ghost predicate AtRest(s: State) {
    s.lin == [] && (s.loop.Select? || s.loop.Stopped?) && AllDrained(s)
  }

  ghost predicate RestInv(s: State) { Settled(s) ==> AtRest(s) }

  lemma RestKeptPush(s: State, id: nat)
    requires RestInv(s) && AckInv(s) && Fifo(s) && Ids(s) && CEnabled(s, CPush(id))
    ensures !Settled(CApply(s, CPush(id)))
  {
    var s' := CApply(s, CPush(id));
    assert Last(s'.accepted) == s.calls[id].m;
    assert CallOk(s.accepted, id, s.calls[id]);
    assert forall i :: 0 <= i < |s.popped| ==> s.accepted[i] == s.popped[i];
  }

  lemma RestKeptAck(s: State)
    requires RestInv(s) && AckInv(s) && Fifo(s) && Ids(s) && FlushInv(s) && LEnabled(s, LAck)
    ensures RestInv(LApply(s, LAck))
  {
    var f := s.loop.f;
    var s' := LApply(s, LAck);
    if Settled(s') {
      assert !Settled(s);
      assert Last(s.accepted) == Ctl(f);
      var i :| 0 <= i < |s.popped| && s.popped[i] == Ctl(f);
      assert s.accepted[i] == Ctl(f);
      assert s.lin == [];
    }
  }

  lemma RestKeptRest(s: State, st: Step)
    requires Shape(s) && Settled(s) && AtRest(s) && Enabled(s, st) && !(st.OfCaller? && st.c.CPush?)
    ensures AtRest(Apply(s, st))
  {
    HostsAfter(s, st);
    var s' := Apply(s, st);
    RestFrame(s, st);
    forall k | 0 <= k < |s'.targets| && s'.targets[k] < |s'.hosts| ensures Drained(s'.hosts[s'.targets[k]]) {
      var h := s'.targets[k];
      if h < |s.hosts| {
        var i :| 0 <= i < |s.targets| && s.targets[i] == h;
        assert Drained(s.hosts[s.targets[i]]);
        DrainedTouch(s.hosts[h], TouchOf(s, st, h));
      }
    }
  }

  lemma RestFrame(s: State, st: Step)
    requires Shape(s) && Settled(s) && AtRest(s) && Enabled(s, st) && !(st.OfCaller? && st.c.CPush?)
    ensures var s' := Apply(s, st);
      && !st.OfLog?
      && s'.lin == [] && (s'.loop.Select? || s'.loop.Stopped?)
      && forall k :: 0 <= k < |s'.targets| ==> s'.targets[k] in s.targets || s'.targets[k] == |s.hosts|
  {
    match st
    case OfLoop(l) => LFrame(s, l);
    case OfCaller(c) => CFrame(s, c);
    case OfTargets(t) => TFrame(s, t);
    case OfLog(g) =>
    case OfHost(_, _) =>
    case OfKill(who, k) => KFrame(s, who, k);
  }

  lemma RestKept(s: State, st: Step)
    requires Shape(s) && RestInv(s) && AckInv(s) && Fifo(s) && Ids(s) && FlushInv(s) && Enabled(s, st)
    ensures RestInv(Apply(s, st))
  {
    if st == OfLoop(LAck) {
      RestKeptAck(s);
    } else if st.OfCaller? && st.c.CPush? {
      RestKeptPush(s, st.c.id);
    } else if Settled(s) {
      RestKeptRest(s, st);
    } else {
      UnsettledFrame(s, st);
    }
  }

  lemma UnsettledFrame(s: State, st: Step)
    requires Enabled(s, st) && st != OfLoop(LAck) && !(st.OfCaller? && st.c.CPush?)
    ensures Apply(s, st).accepted == s.accepted && Apply(s, st).acked == s.acked
  {
    match st
    case OfLoop(l) => LFrame(s, l);
    case OfCaller(c) => CFrame(s, c);
    case OfTargets(t) => TFrame(s, t);
    case OfLog(g) => GFrame(s, g);
    case OfHost(_, _) =>
    case OfKill(who, k) => KFrame(s, who, k);
  }

  // ---- Logr.Shutdown ----------------------------------------------------------------------------------

  function Via(sd: Sd): Option<nat> {
    if sd.Up? then None else sd.via
  }

  /** Shutdown's flag, channel closes and waits happen once and in order. */
  ghost predicate SdInv(s: State) {
    && (s.shut <==> !s.sd.Up?)
    && s.quits == (if s.sd.Up? || s.sd.Closing? then 0 else 1)
    && s.dones == (if s.loop.Stopped? then 1 else 0)
    && (s.loop.Stopped? ==> s.quits == 1)
    && ((s.sd.Relock? || s.sd.Hosts? || s.sd.Down?) && !s.sd.err ==> s.loop.Stopped?)
    && (Via(s.sd).Some? ==> Via(s.sd).value in s.acked)
    && (forall id :: id in s.calls && s.calls[id].Flushed? && s.calls[id].via.Some? ==>
          s.calls[id].via.value in s.acked)
  }

  lemma SdKeptC(s: State, c: CStep)
    requires SdInv(s) && CEnabled(s, c)
    ensures SdInv(CApply(s, c))
  {}

  lemma SdKeptL(s: State, l: LStep)
    requires SdInv(s) && LEnabled(s, l)
    ensures SdInv(LApply(s, l))
  {}

  lemma SdKeptT(s: State, t: TStep)
    requires SdInv(s) && TEnabled(s, t)
    ensures SdInv(TApply(s, t))
  {}

  lemma SdKeptK(s: State, who: Who, k: KillStep)
    requires SdInv(s) && KEnabled(s, who, k)
    ensures SdInv(KApply(s, who, k))
  {
    KFrame(s, who, k);
    KSd(s, who, k);
  }

  lemma KSd(s: State, who: Who, k: KillStep)
    requires KEnabled(s, who, k)
    ensures var sd := KApply(s, who, k).sd;
      sd == s.sd || (s.sd.Hosts? && sd.Hosts? && sd.via == s.sd.via && (s.sd.err ==> sd.err))
  {}

  lemma SdKept(s: State, st: Step)
    requires SdInv(s) && Enabled(s, st)
    ensures SdInv(Apply(s, st))
  {
    match st
    case OfLoop(l) => SdKeptL(s, l);
    case OfCaller(c) => SdKeptC(s, c);
    case OfTargets(t) => SdKeptT(s, t);
    case OfLog(g) => GFrame(s, g);
    case OfHost(_, _) =>
    case OfKill(who, k) => SdKeptK(s, who, k);
  }

  // ---- TargetHost.Shutdown ------------------------------------------------------------------------------

  /** How far the shutdown of one host is, if one is in progress and past the flag. */
  ghost function KillOn(s: State, h: nat): Option<Kill> {
    if Killing(s, ByShutdown) && Victim(s, ByShutdown) == h && !s.sd.k.Swapping? then Some(s.sd.k)
    else if Killing(s, ByRemove) && Victim(s, ByRemove) == h && !s.rm.k.Swapping? then Some(s.rm.k)
    else None
  }

  ghost predicate LifeInv(h: Host, ko: Option<Kill>) {
    && h.dones == (if h.pc.Exited? then 1 else 0)
    && (h.pc.Exited? ==> h.quits == 1)
    && match ko
       case None =>
         if h.shut then h.quits == 1 && h.stops == 1 && (h.expired || h.pc.Exited?)
         else h.quits == 0 && h.stops == 0 && !h.expired
       case Some(Swapping) => false
       case Some(ClosingQuit) => h.shut && h.quits == 0 && h.stops == 0 && !h.expired
       case Some(AwaitingDone) => h.shut && h.quits == 1 && h.stops == 0 && !h.expired
       case Some(Stopping) => h.shut && h.quits == 1 && h.stops == 0 && (h.expired || h.pc.Exited?)
  }

  ghost predicate LifeAll(s: State) { forall h :: 0 <= h < |s.hosts| ==> LifeInv(s.hosts[h], KillOn(s, h)) }

  function KillAfter(ko: Option<Kill>, t: Touch): Option<Kill> {
    match t
    case Killed(KSwap) => Some(ClosingQuit)
    case Killed(KClose) => Some(AwaitingDone)
    case Killed(KDone) => Some(Stopping)
    case Killed(KExpire) => Some(Stopping)
    case Killed(KStop(_)) => None
    case _ => ko
  }

  predicate KillFits(h: Host, ko: Option<Kill>, k: KillStep) {
    match k
    case KSwap => ko == None && !h.shut
    case KClose => ko == Some(ClosingQuit)
    case KDone => ko == Some(AwaitingDone) && h.pc.Exited?
    case KExpire => ko == Some(AwaitingDone)
    case KStop(_) => ko == Some(Stopping)
  }

  lemma LifeTouchKill(h: Host, k: KillStep, ko: Option<Kill>)
    requires LifeInv(h, ko) && KillFits(h, ko, k)
    ensures LifeInv(KillEffect(h, k), KillAfter(ko, Killed(k)))
  {}

  lemma LifeTouchLog(h: Host, g: LogStep, m: Msg, slow: bool, ko: Option<Kill>)
    requires LifeInv(h, ko) && LogGuard(h, g, m)
    ensures LifeInv(LogEffect(h, g, m, slow), ko)
  {}

  lemma LifeTouchRead(h: Host, st: HStep, ko: Option<Kill>)
    requires LifeInv(h, ko) && HEnabled(h, st)
    ensures LifeInv(HApply(h, st), ko)
  {}

  lemma LifeTouch(h: Host, t: Touch, ko: Option<Kill>)
    requires LifeInv(h, ko) && TouchGuard(h, t)
    requires t.Killed? ==> KillFits(h, ko, t.k)
    ensures LifeInv(TouchHost(h, t), KillAfter(ko, t))
  {
    match t
    case Read(st) => LifeTouchRead(h, st, ko);
    case Logged(g, m, slow) => LifeTouchLog(h, g, m, slow, ko);
    case Killed(k) => LifeTouchKill(h, k, ko);
    case _ =>
  }

  lemma KillOnAfter(s: State, st: Step, h: nat)
    requires Shape(s) && SdInv(s) && Enabled(s, st) && h < |s.hosts|
    ensures KillOn(Apply(s, st), h) == KillAfter(KillOn(s, h), TouchOf(s, st, h))
    ensures TouchOf(s, st, h).Killed? ==> KillFits(s.hosts[h], KillOn(s, h), st.k)
  {
    match st
    case OfLoop(l) => LFrame(s, l);
    case OfCaller(c) => CFrame(s, c);
    case OfTargets(t) => KillOnAfterT(s, t, h);
    case OfLog(g) => GFrame(s, g);
    case OfHost(_, _) =>
    case OfKill(who, k) => KillOnAfterK(s, who, k, h);
  }

  lemma KillOnAfterT(s: State, t: TStep, h: nat)
    requires Shape(s) && TEnabled(s, t) && h < |s.hosts|
    ensures KillOn(TApply(s, t), h) == KillOn(s, h)
  {}

  lemma KillOnAfterK(s: State, who: Who, k: KillStep, h: nat)
    requires Shape(s) && KEnabled(s, who, k) && h < |s.hosts|
    ensures KillOn(KApply(s, who, k), h) == KillAfter(KillOn(s, h), TouchOf(s, OfKill(who, k), h))
    ensures TouchOf(s, OfKill(who, k), h).Killed? ==> KillFits(s.hosts[h], KillOn(s, h), k)
  {}

  lemma LifeKept(s: State, st: Step)
    requires Shape(s) && SdInv(s) && LifeAll(s) && Enabled(s, st)
    ensures LifeAll(Apply(s, st))
  {
    HostsAfter(s, st);
    forall h | 0 <= h < |Apply(s, st).hosts| ensures LifeInv(Apply(s, st).hosts[h], KillOn(Apply(s, st), h)) {
      if h < |s.hosts| {
        KillOnAfter(s, st, h);
        LifeTouch(s.hosts[h], TouchOf(s, st, h), KillOn(s, h));
      }
    }
  }

  /** Shutdown has dealt, without error so far, with the targets before `j`. */
  ghost predicate SweepInv(s: State) {
    s.sd.Hosts? && !s.sd.err ==>
      forall k :: 0 <= k < s.sd.j && k < |s.targets| && s.targets[k] < |s.hosts| ==> s.hosts[s.targets[k]].stops >= 1
  }

  lemma StopsGrow(h: Host, t: Touch)
    requires TouchGuard(h, t)
    ensures TouchHost(h, t).stops >= h.stops
    ensures t.Killed? && t.k.KStop? ==> TouchHost(h, t).stops >= 1
  {}

  lemma SweepKept(s: State, st: Step)
    requires Shape(s) && SweepInv(s) && Enabled(s, st)
    ensures SweepInv(Apply(s, st))
  {
    var s' := Apply(s, st);
    HostsAfter(s, st);
    SweepFrame(s, st);
    if s'.sd.Hosts? && !s'.sd.err {
      forall k | 0 <= k < s'.sd.j && k < |s'.targets| ensures s'.hosts[s'.targets[k]].stops >= 1 {
        StopsGrow(s.hosts[s.targets[k]], TouchOf(s, st, s.targets[k]));
      }
    }
  }

  lemma SweepFrame(s: State, st: Step)
    requires Shape(s) && Enabled(s, st)
    ensures var s' := Apply(s, st);
      s'.sd.Hosts? && !s'.sd.err && s'.sd.j > 0 ==>
        && s'.targets == s.targets && s.sd.Hosts? && !s.sd.err
        && (s'.sd.j == s.sd.j ||
              (s'.sd.j == s.sd.j + 1 && s.sd.j < |s.targets| && TouchOf(s, st, s.targets[s.sd.j]).Killed?
               && TouchOf(s, st, s.targets[s.sd.j]).k.KStop?))
  {
    match st
    case OfLoop(l) => LFrame(s, l);
    case OfCaller(c) => CFrame(s, c);
    case OfTargets(t) => TFrame(s, t);
    case OfLog(g) => GFrame(s, g);
    case OfHost(_, _) =>
    case OfKill(who, k) => KFrame(s, who, k);
  }

  /** A registered host is shut down only while Shutdown or RemoveTargets works on the targets, or after Shutdown. */
  ghost predicate AliveInv(s: State) {
    forall k :: 0 <= k < |s.targets| && s.targets[k] < |s.hosts| && s.hosts[s.targets[k]].shut ==>
      s.sd.Hosts? || s.sd.Down? || (s.rm.Removing? && s.targets[k] in s.rm.sel)
  }

  lemma ShutAfter(h: Host, t: Touch)
    requires TouchGuard(h, t)
    ensures TouchHost(h, t).shut && !h.shut ==> t.Killed?
  {}

  lemma AliveFrame(s: State, st: Step)
    requires Shape(s) && SdInv(s) && Enabled(s, st)
    ensures var s' := Apply(s, st);
      && (s.sd.Hosts? || s.sd.Down? ==> s'.sd.Hosts? || s'.sd.Down?)
      && (forall k :: 0 <= k < |s'.targets| ==> s'.targets[k] in s.targets || s'.targets[k] == |s.hosts|)
      && (s.rm.Removing? && !(s'.rm.Removing? && s'.rm.sel == s.rm.sel) ==>
            forall k :: 0 <= k < |s'.targets| ==> s'.targets[k] !in s.rm.sel)
  {
    match st
    case OfLoop(l) => LFrame(s, l);
    case OfCaller(c) => CFrame(s, c);
    case OfTargets(t) => AliveFrameT(s, t);
    case OfLog(g) => GFrame(s, g);
    case OfHost(_, _) =>
    case OfKill(who, k) => KFrame(s, who, k);
  }

  lemma AliveFrameK(s: State, st: Step, h: nat)
    requires Enabled(s, st) && h < |s.hosts| && TouchOf(s, st, h).Killed?
    ensures var s' := Apply(s, st); s'.sd.Hosts? || (s'.rm.Removing? && h in s'.rm.sel)
  {
    KWho(s, st.who, st.k);
  }

  /** Whoever shuts a host down stays at it. */
  lemma KWho(s: State, who: Who, k: KillStep)
    requires KEnabled(s, who, k)
    ensures var s' := KApply(s, who, k);
      && (who.ByShutdown? ==> s'.sd.Hosts?)
      && (who.ByRemove? ==> s'.rm.Removing? && s'.rm.sel == s.rm.sel && Victim(s, who) in s.rm.sel)
  {}

  lemma AliveFrameT(s: State, t: TStep)
    requires Shape(s) && TEnabled(s, t)
    ensures var s' := TApply(s, t);
      && (s.sd.Hosts? || s.sd.Down? ==> s'.sd.Hosts? || s'.sd.Down?)
      && (forall k :: 0 <= k < |s'.targets| ==> s'.targets[k] in s.targets || s'.targets[k] == |s.hosts|)
      && (s.rm.Removing? && !(s'.rm.Removing? && s'.rm.sel == s.rm.sel) ==>
            forall k :: 0 <= k < |s'.targets| ==> s'.targets[k] !in s.rm.sel)
  {}

  lemma AliveKept(s: State, st: Step)
    requires Shape(s) && SdInv(s) && AliveInv(s) && Enabled(s, st)
    ensures AliveInv(Apply(s, st))
  {
    var s' := Apply(s, st);
    HostsAfter(s, st);
    AliveFrame(s, st);
    forall k | 0 <= k < |s'.targets| && s'.targets[k] < |s'.hosts| && s'.hosts[s'.targets[k]].shut
      ensures s'.sd.Hosts? || s'.sd.Down? || (s'.rm.Removing? && s'.targets[k] in s'.rm.sel)
    {
      var h := s'.targets[k];
      if h < |s.hosts| {
        var i :| 0 <= i < |s.targets| && s.targets[i] == h;
        ShutAfter(s.hosts[h], TouchOf(s, st, h));
        if TouchOf(s, st, h).Killed? { AliveFrameK(s, st, h); }
      }
    }
  }
}
