/**
 What a Shutdown that returns nil leaves in lgr.in. From the moment it has closed lgr.quit: which states
 are sure to lead to an empty lgr.in whenever Shutdown then returns nil, and which of them can lead to a
 nil return at all. The runs that show a state is not sure wait for every reader: no context expires.
 */
module NilReturns {
  import opened Basics
  import opened TargetHost
  import opened Pipeline
  import opened PipelineInvariant
  import opened PipelineProtocol
  import opened PipelineLifecycle
  import opened PipelineTheorems
  import opened PipelineCalls
  import opened FlushProgress
  import opened PipelineLimits

  // ---- the conditions -------------------------------------------------------------------------------

  /** The loop is free to get back to its select: the caller it serves is there, the host it waits for can signal. */
  ghost predicate CanReturn(s: State) {
    && (Serving(s.loop).Some? ==> Awaiting(s, Serving(s.loop).value))
    && (s.loop.Wait? && AtHost(s) ==> CanSignal(HereHost(s), s.loop.n))
  }

  /** Some call is inside `enqueue`. */
  ghost predicate Entering(s: State) { exists id :: Enqueuing(s, id) }

  /** The loop is yet to empty lgr.in for the flush it serves. */
  predicate Draining(l: Loop) { Serving(l).Some? && !PastDrain(l) }

  /** Nothing is coming into lgr.in, and nothing is in it that the loop need not take. */
  ghost predicate NothingLeft(s: State) { !Entering(s) && (s.lin == [] || Draining(s.loop)) }

  /** Shutdown's sweep, or the wait before it, with no error so far. */
  predicate Nearing(sd: Sd) { sd.Waiting? || ((sd.Relock? || sd.Hosts?) && !sd.err) }

  ghost predicate Roomy(s: State) { forall h :: 0 <= h < |s.hosts| ==> s.hosts[h].cap >= 1 }

  /** A nil return is still to be had. */
  ghost predicate Coming(s: State) {
    && Inv(s) && Roomy(s) && Nearing(s.sd) && CanReturn(s)
    && (s.sd.Hosts? ==> Open(s, if s.sd.k.Swapping? then s.sd.j else s.sd.j + 1))
  }

  // ---- how far it is -----------------------------------------------------------------------------------

  function PhaseLeft(k: Kill): nat {
    match k
    case Swapping => 3
    case ClosingQuit => 2
    case AwaitingDone => 1
    case Stopping => 0
  }

  function RmLeft(s: State): nat {
    if s.rm.Removing? && s.rm.j <= |s.targets| then 4 * (|s.targets| - s.rm.j) + PhaseLeft(s.rm.k) + 1 else 0
  }

  function SdLeft(s: State): nat {
    match s.sd
    case Waiting(_) => 4 * |s.targets| + 5
    case Relock(_, _) => 4 * |s.targets| + 4
    case Hosts(_, j, k, _) => if j <= |s.targets| then 4 * (|s.targets| - j) + PhaseLeft(k) else 0
    case _ => 0
  }

  predicate Nearer(t: State, s: State) {
    || RmLeft(t) < RmLeft(s)
    || (RmLeft(t) == RmLeft(s) && SdLeft(t) < SdLeft(s))
    || (RmLeft(t) == RmLeft(s) && SdLeft(t) == SdLeft(s) && Work(t) < Work(s))
  }

  /** A context expires: of a Flush or Shutdown call waiting for its flush, of a wait for the loop or for a reader. */
  predicate Expires(st: Step) {
    match st
    case OfCaller(c) => c.CGiveUp?
    case OfTargets(t) => t.TExpire?
    case OfKill(_, k) => k.KExpire?
    case _ => false
  }

  predicate Patient(steps: seq<Step>) { forall i :: 0 <= i < |steps| ==> !Expires(steps[i]) }

  ghost predicate Improves(s: State, t: State) {
    Coming(t) && Nearer(t, s) && (NothingLeft(t) ==> NothingLeft(s))
  }

  /** A step that gets nearer and loses nothing. */
  ghost predicate Good(s: State, st: Step) {
    Enabled(s, st) && !Expires(st) && Improves(s, Apply(s, st))
  }

  // ---- RemoveTargets finishes ----------------------------------------------------------------------------

  lemma RoomyKept(s: State, st: Step)
    requires Roomy(s) && Enabled(s, st) && !(st.OfTargets? && st.t.TAdd?)
    ensures Roomy(Apply(s, st))
  {
    HostsAfter(s, st);
    forall h | 0 <= h < |s.hosts| ensures Apply(s, st).hosts[h].cap >= 1 {
      CapStays(s.hosts[h], TouchOf(s, st, h));
    }
  }

  /** A reader told to quit, outside any flush, gets to its end. */
  lemma ReaderQuits(s: State, h: nat) returns (st: Step)
    requires Inv(s) && h < |s.hosts| && s.hosts[h].quits > 0 && !s.hosts[h].pc.Exited? && AwaitedAt(s, h) == None
    ensures st.OfHost? && st.h == h && Enabled(s, st)
  {
    assert CtlInv(s.hosts[h], AwaitedAt(s, h)) && FilterInv(s.hosts[h]);
    st := OfHost(h, if s.hosts[h].pc.Idle? then Quit else Finish(Written));
  }

  lemma RmStep(s: State) returns (st: Step)
    requires Coming(s) && s.rm.Removing?
    ensures Enabled(s, st) && !Expires(st)
    ensures st.OfHost? || (st.OfKill? && st.who.ByRemove?) || (st.OfTargets? && (st.t.TKeep? || st.t.TRemoved?))
  {
    var j := s.rm.j;
    if j == |s.targets| {
      st := OfTargets(TRemoved);
    } else if s.targets[j] !in s.rm.sel {
      st := OfTargets(TKeep);
    } else {
      var h := s.targets[j];
      assert LifeInv(s.hosts[h], KillOn(s, h));
      match s.rm.k
      case Swapping => st := OfKill(ByRemove, KSwap);
      case ClosingQuit => st := OfKill(ByRemove, KClose);
      case AwaitingDone =>
        if s.hosts[h].pc.Exited? { st := OfKill(ByRemove, KDone); } else { st := ReaderQuits(s, h); }
      case Stopping => st := OfKill(ByRemove, KStop(true));
    }
  }

  lemma RmNearer(s: State, st: Step)
    requires Shape(s) && s.rm.Removing? && Enabled(s, st) && !(st.OfKill? && st.who.ByShutdown?)
    requires st.OfKill? || (st.OfTargets? && (st.t.TKeep? || st.t.TRemoved?))
    ensures RmLeft(Apply(s, st)) < RmLeft(s)
  {
    match st
    case OfTargets(_) =>
    case OfKill(who, k) => KFrame(s, who, k);
  }

  /** Steps that leave the loop, the calls and lgr.in where they are. */
  ghost predicate Aside(s: State, t: State) {
    t.loop == s.loop && t.calls == s.calls && t.lin == s.lin
  }

  lemma AsideLoses(s: State, t: State)
    requires Aside(s, t)
    ensures NothingLeft(t) <==> NothingLeft(s)
  {
    if Entering(s) {
      var id :| Enqueuing(s, id);
      assert Enqueuing(t, id);
    }
    if Entering(t) {
      var id :| Enqueuing(t, id);
      assert Enqueuing(s, id);
    }
  }

  lemma RmAside(s: State, st: Step)
    requires Shape(s) && s.rm.Removing? && Enabled(s, st)
    requires st.OfHost? || (st.OfKill? && st.who.ByRemove?) || (st.OfTargets? && (st.t.TKeep? || st.t.TRemoved?))
    ensures Aside(s, Apply(s, st)) && Apply(s, st).sd == s.sd && !LoopReads(s.loop) && !s.sd.Hosts?
    ensures st.OfHost? ==> Apply(s, st).rm == s.rm && Apply(s, st).targets == s.targets
  {
    match st
    case OfHost(_, _) =>
    case OfTargets(t) => TFrame(s, t);
    case OfKill(who, k) => KFrame(s, who, k);
  }

  lemma RmGood(s: State) returns (st: Step)
    requires Coming(s) && s.rm.Removing?
    ensures Good(s, st)
  {
    st := RmStep(s);
    var t := Apply(s, st);
    RmAside(s, st);
    AsideLoses(s, t);
    InvKept(s, st);
    RoomyKept(s, st);
    if st.OfHost? { StepWorks(s, st); } else { RmNearer(s, st); }
  }

  // ---- the loop gets to its end -----------------------------------------------------------------------------

  /** Once the write lock is free no registered host is shut down before the sweep. */
  lemma AllOpen(s: State)
    requires AliveInv(s) && s.rm.Free? && !s.sd.Hosts? && !s.sd.Down?
    ensures Open(s, 0)
  {}

  lemma LoopStep(s: State) returns (st: Step)
    requires Coming(s) && s.rm.Free? && !s.loop.Stopped?
    ensures Enabled(s, st) && !MayLose(s, st) && (st.OfLoop? || st.OfLog? || (st.OfHost? && !st.st.Quit?))
  {
    if s.loop.Blk? {
      st := BlkStep(s);
    } else if s.loop.Wait? {
      st := WaitStep(s);
    } else if s.loop.At? || s.loop.Sel? {
      AllOpen(s);
      st := LogStepAt(s);
    } else {
      st := PlainStep(s);
    }
  }

  lemma PlainStep(s: State) returns (st: Step)
    requires SdInv(s) && Nearing(s.sd) && CanReturn(s) && s.rm.Free?
    requires s.loop.Select? || s.loop.Popped? || s.loop.Drain? || s.loop.Locking? || s.loop.Ack?
    ensures Enabled(s, st) && !MayLose(s, st) && st.OfLoop?
  {
    match s.loop
    case Select => st := OfLoop(LQuit);
    case Popped(_, _) => st := OfLoop(LLock);
    case Drain(_) => st := if s.lin == [] then OfLoop(LDrained) else OfLoop(LPop);
    case Locking(_) => st := OfLoop(LLock);
    case Ack(_) => st := OfLoop(LAck);
  }

  lemma LogStepAt(s: State) returns (st: Step)
    requires Shape(s) && Open(s, 0) && (s.loop.At? || s.loop.Sel?)
    ensures Enabled(s, st) && !MayLose(s, st) && (st.OfLoop? || st.OfLog?)
  {
    if s.loop.At? {
      st := if s.loop.i == |s.targets| then OfLoop(LEnd) else LogEnters(s);
    } else {
      st := OfLog(if |HereHost(s).q| < HereHost(s).cap then GSend else if s.loop.job.FanOut? then GDrop else GBlock);
    }
  }

  /** The loop takes a message it need not take, or a nested flush record is lost. */
  predicate MayLose(s: State, st: Step) {
    || (st == OfLoop(LPop) && !s.loop.Drain?)
    || (st.OfLog? && (st.g.GRefuse? || st.g.GDrop? || st.g.GExpire?)
        && (s.loop.At? || s.loop.Sel? || s.loop.Blk?) && s.loop.job.FlushHosts?)
  }

  lemma BlkStep(s: State) returns (st: Step)
    requires Coming(s) && s.rm.Free? && s.loop.Blk?
    ensures Enabled(s, st) && !MayLose(s, st) && (st.OfLog? || (st.OfHost? && !st.st.Quit?))
  {
    var h := Here(s);
    if |s.hosts[h].q| < s.hosts[h].cap {
      st := OfLog(GSend);
    } else if s.loop.job.FanOut? {
      st := OfLog(GExpire);
    } else {
      AllOpen(s);
      assert CtlInv(s.hosts[h], AwaitedAt(s, h)) && LifeInv(s.hosts[h], KillOn(s, h));
      st := ReaderMoves(s, h);
    }
  }

  lemma WaitStep(s: State) returns (st: Step)
    requires Coming(s) && s.loop.Wait?
    ensures Enabled(s, st) && !MayLose(s, st) && (st.OfLoop? || (st.OfHost? && !st.st.Quit?))
  {
    var h := Here(s);
    assert CtlInv(s.hosts[h], AwaitedAt(s, h)) && !Wedged(s);
    if s.hosts[h].pc == Signalling(s.loop.n) { st := OfLoop(LNext); } else { st := ReaderMoves(s, h); }
  }

  lemma ReturnKeptL(s: State, l: LStep)
    requires Shape(s) && CanReturn(s) && LEnabled(s, l) && (l.LPop? ==> s.loop.Drain?)
    ensures CanReturn(LApply(s, l)) && (NothingLeft(LApply(s, l)) ==> NothingLeft(s))
  {
    LFrame(s, l);
    EnteringStays(s, l);
  }

  lemma EnteringStays(s: State, l: LStep)
    requires LEnabled(s, l)
    ensures Entering(s) ==> Entering(LApply(s, l))
  {
    if Entering(s) {
      var id :| Enqueuing(s, id);
      assert Enqueuing(LApply(s, l), id);
    }
  }

  lemma ReturnKeptG(s: State, g: LogStep)
    requires Inv(s) && CanReturn(s) && GEnabled(s, g) && !MayLose(s, OfLog(g)) && Open(s, 0)
    ensures CanReturn(GApply(s, g)) && (NothingLeft(GApply(s, g)) ==> NothingLeft(s))
  {
    GFrame(s, g);
    ServingSame(s, g);
    assert LifeInv(HereHost(s), KillOn(s, Here(s)));
    if s.loop.job.FlushHosts? && g.GSend? { SentSignals(s); }
    if Entering(s) {
      var id :| Enqueuing(s, id);
      assert Enqueuing(GApply(s, g), id);
    }
  }

  lemma ServingSame(s: State, g: LogStep)
    requires GEnabled(s, g)
    ensures var t := GApply(s, g);
      && Serving(t.loop) == Serving(s.loop) && (PastDrain(t.loop) <==> PastDrain(s.loop))
      && (t.loop.Wait? ==> s.loop.job.FlushHosts? && !g.GPass? && !g.GBlock?)
  {}

  lemma SentSignals(s: State)
    requires GEnabled(s, GSend) && s.loop.job.FlushHosts? && LoopShape(s) && !HereHost(s).pc.Exited?
    ensures var t := GApply(s, GSend); t.loop.Wait? && AtHost(t) && CanSignal(HereHost(t), t.loop.n)
  {
    var q := HereHost(s).q + [s.loop.m];
    assert q[|q| - 1] == s.loop.m;
  }

  lemma ReturnKeptH(s: State, h: nat, hs: HStep)
    requires CtlAll(s) && CanReturn(s) && Enabled(s, OfHost(h, hs)) && !hs.Quit?
    ensures CanReturn(Apply(s, OfHost(h, hs)))
  {
    if s.loop.Wait? && AtHost(s) && Here(s) == h {
      assert CtlInv(s.hosts[h], AwaitedAt(s, h));
      StillSignals(s.hosts[h], hs, s.loop.n);
    }
  }

  /** The next state is near, as nothing about Shutdown or RemoveTargets has changed. */
  lemma StillComing(s: State, t: State)
    requires Coming(s) && Inv(t) && Roomy(t) && CanReturn(t) && (s.sd.Hosts? ==> OpenSame(s, t))
    requires t.sd == s.sd && t.rm == s.rm && t.targets == s.targets && Work(t) < Work(s)
    ensures Coming(t) && Nearer(t, s)
  {}

  /** The same hosts are shut down. */
  ghost predicate OpenSame(s: State, t: State) { forall k: nat :: Open(t, k) <==> Open(s, k) }

  lemma LoopGood(s: State) returns (st: Step)
    requires Coming(s) && s.rm.Free? && !s.loop.Stopped?
    ensures Good(s, st)
  {
    st := LoopStep(s);
    InvKept(s, st);
    RoomyKept(s, st);
    StepWorks(s, st);
    LoopKeeps(s, st);
    StillComing(s, Apply(s, st));
  }

  lemma LoopKeeps(s: State, st: Step)
    requires Coming(s) && s.rm.Free? && !s.loop.Stopped? && Enabled(s, st) && !MayLose(s, st)
    requires st.OfLoop? || st.OfLog? || (st.OfHost? && !st.st.Quit?)
    ensures var t := Apply(s, st);
      t.sd == s.sd && t.rm == s.rm && t.targets == s.targets && CanReturn(t) && (NothingLeft(t) ==> NothingLeft(s))
    ensures !s.sd.Hosts?
  {
    AllOpen(s);
    match st
    case OfLoop(l) => LFrame(s, l); ReturnKeptL(s, l);
    case OfLog(g) => GFrame(s, g); ReturnKeptG(s, g);
    case OfHost(h, hs) => ReturnKeptH(s, h, hs); AsideLoses(s, Apply(s, st));
  }

  // ---- the sweep -------------------------------------------------------------------------------------------

  lemma SweepStep(s: State) returns (st: Step)
    requires Coming(s) && s.rm.Free? && s.loop.Stopped? && !ReturningNil(s)
    ensures Enabled(s, st)
    ensures st == OfTargets(TDone) || st == OfTargets(TRelock) || (st.OfKill? && st.who.ByShutdown?) || st.OfHost?
    ensures st.OfKill? && st.k.KSwap? ==> !s.hosts[Victim(s, ByShutdown)].shut
    ensures st.OfKill? && st.k.KStop? ==> st.k.ok
    ensures st.OfKill? ==> !st.k.KExpire?
  {
    match s.sd
    case Waiting(_) => st := OfTargets(TDone);
    case Relock(_, _) => st := OfTargets(TRelock);
    case Hosts(_, j, k, _) =>
      var h := s.targets[j];
      assert LifeInv(s.hosts[h], KillOn(s, h));
      match k
      case Swapping => st := OfKill(ByShutdown, KSwap);
      case ClosingQuit => st := OfKill(ByShutdown, KClose);
      case AwaitingDone =>
        if s.hosts[h].pc.Exited? { st := OfKill(ByShutdown, KDone); } else { st := ReaderQuits(s, h); }
      case Stopping => st := OfKill(ByShutdown, KStop(true));
  }

  lemma SweepNearerT(s: State, t: TStep)
    requires Coming(s) && s.rm.Free? && (t.TDone? || t.TRelock?) && TEnabled(s, t)
    ensures var u := TApply(s, t);
      && Nearing(u.sd) && RmLeft(u) == RmLeft(s) && SdLeft(u) < SdLeft(s)
      && (u.sd.Hosts? ==> Open(u, if u.sd.k.Swapping? then u.sd.j else u.sd.j + 1))
      && u == s.(sd := u.sd)
  {
    AllOpenUnless(s);
  }

  lemma AllOpenUnless(s: State)
    requires AliveInv(s) && s.rm.Free?
    ensures s.sd.Hosts? || s.sd.Down? || Open(s, 0)
  {}

  lemma SweepNearerK(s: State, k: KillStep)
    requires Coming(s) && s.rm.Free? && KEnabled(s, ByShutdown, k) && (k.KStop? ==> k.ok)
    requires k.KSwap? ==> !s.hosts[Victim(s, ByShutdown)].shut
    ensures var u := KApply(s, ByShutdown, k);
      && Nearing(u.sd) && RmLeft(u) == RmLeft(s) && SdLeft(u) < SdLeft(s) && u.sd.Hosts?
  {
    KFrame(s, ByShutdown, k);
  }

  lemma SweepOpen(s: State, k: KillStep)
    requires Coming(s) && KEnabled(s, ByShutdown, k) && (k.KSwap? ==> !s.hosts[Victim(s, ByShutdown)].shut)
    ensures var u := KApply(s, ByShutdown, k);
      u.sd.Hosts? ==> Open(u, if u.sd.k.Swapping? then u.sd.j else u.sd.j + 1)
  {
    KFrame(s, ByShutdown, k);
    KHosts(s, ByShutdown, k);
  }

  lemma SweepGood(s: State) returns (st: Step)
    requires Coming(s) && s.rm.Free? && s.loop.Stopped? && !ReturningNil(s)
    ensures Good(s, st)
  {
    st := SweepStep(s);
    InvKept(s, st);
    RoomyKept(s, st);
    match st
    case OfTargets(t) => SweepGoodT(s, t);
    case OfKill(who, k) => SweepGoodK(s, k);
    case OfHost(h, hs) => SweepGoodH(s, h, hs);
  }

  lemma SweepGoodT(s: State, t: TStep)
    requires Coming(s) && s.rm.Free? && (t.TDone? || t.TRelock?) && TEnabled(s, t)
    requires Inv(TApply(s, t)) && Roomy(TApply(s, t))
    ensures Good(s, OfTargets(t))
  {
    SweepNearerT(s, t);
    AsideLoses(s, TApply(s, t));
  }

  lemma SweepGoodH(s: State, h: nat, hs: HStep)
    requires Coming(s) && s.rm.Free? && s.loop.Stopped? && Enabled(s, OfHost(h, hs))
    requires Inv(Apply(s, OfHost(h, hs))) && Roomy(Apply(s, OfHost(h, hs)))
    ensures Good(s, OfHost(h, hs))
  {
    var t := Apply(s, OfHost(h, hs));
    StepWorks(s, OfHost(h, hs));
    AsideLoses(s, t);
    HostOpens(s, h, hs);
    StillComing(s, t);
  }

  lemma HostOpens(s: State, h: nat, hs: HStep)
    requires Enabled(s, OfHost(h, hs)) && s.loop.Stopped?
    ensures var t := Apply(s, OfHost(h, hs));
      OpenSame(s, t) && CanReturn(t) && t.sd == s.sd && t.rm == s.rm && t.targets == s.targets
  {}

  lemma SweepGoodK(s: State, k: KillStep)
    requires Coming(s) && s.rm.Free? && s.loop.Stopped? && KEnabled(s, ByShutdown, k) && (k.KStop? ==> k.ok)
    requires k.KSwap? ==> !s.hosts[Victim(s, ByShutdown)].shut
    requires Inv(KApply(s, ByShutdown, k)) && Roomy(KApply(s, ByShutdown, k))
    ensures Improves(s, KApply(s, ByShutdown, k))
  {
    var t := KApply(s, ByShutdown, k);
    SweepNearerK(s, k);
    SweepOpen(s, k);
    KFrame(s, ByShutdown, k);
    AsideLoses(s, t);
    StoppedComes(t);
  }

  lemma StoppedComes(s: State)
    requires Inv(s) && Roomy(s) && Nearing(s.sd) && s.loop.Stopped?
    requires s.sd.Hosts? ==> Open(s, if s.sd.k.Swapping? then s.sd.j else s.sd.j + 1)
    ensures Coming(s)
  {}

  // ---- to the nil return --------------------------------------------------------------------------------------

  lemma GoodStep(s: State) returns (st: Step)
    requires Coming(s) && !ReturningNil(s)
    ensures Good(s, st)
  {
    if s.rm.Removing? {
      st := RmGood(s);
    } else if s.loop.Stopped? {
      st := SweepGood(s);
    } else {
      st := LoopGood(s);
    }
  }

  lemma {:induction false} ComesToNil(s: State) returns (steps: seq<Step>, u: State)
    requires Coming(s)
    ensures Exec(s, steps) == Some(u) && Patient(steps)
    ensures Coming(u) && ReturningNil(u) && (NothingLeft(u) ==> NothingLeft(s))
    decreases RmLeft(s), SdLeft(s), Work(s)
  {
    if ReturningNil(s) {
      steps, u := [], s;
    } else {
      var st := GoodStep(s);
      WorkNonNegative(s);
      steps, u := ComesToNil(Apply(s, st));
      ExecAfter(s, st, steps);
      PatientAfter(st, steps);
      steps := [st] + steps;
    }
  }

  lemma PatientAfter(st: Step, steps: seq<Step>)
    requires !Expires(st) && Patient(steps)
    ensures Patient([st] + steps)
  {}

  // ---- what is sure stays sure --------------------------------------------------------------------------------

  /** If Shutdown returns nil at all, lgr.in is empty by then. */
  ghost predicate SureEmpty(s: State) { !CanReturn(s) || NothingLeft(s) }

  lemma ReturnsNoMore(s: State, st: Step)
    requires Inv(s) && !CanReturn(s) && Enabled(s, st)
    ensures !CanReturn(Apply(s, st))
  {
    if Wedged(s) {
      WedgedStep(s, st);
      WedgedBlocks(Apply(s, st));
    } else {
      CallerGone(s, st);
    }
  }

  lemma WedgedBlocks(s: State)
    requires Wedged(s)
    ensures !CanReturn(s)
  {}

  /** The loop serves a flush whose caller has gone. */
  lemma CallerGone(s: State, st: Step)
    requires Inv(s) && Serving(s.loop).Some? && !Awaiting(s, Serving(s.loop).value) && Enabled(s, st)
    ensures Serving(Apply(s, st).loop) == Serving(s.loop) && !Awaiting(Apply(s, st), Serving(s.loop).value)
  {
    match st
    case OfLoop(l) => CallerGoneL(s, l);
    case OfLog(k) => GFrame(s, k); ServingSame(s, k);
    case OfCaller(c) => CallerGoneC(s, c);
    case OfTargets(t) => TFrame(s, t);
    case OfHost(_, _) =>
    case OfKill(who, k) => KFrame(s, who, k);
  }

  lemma CallerGoneL(s: State, l: LStep)
    requires Serving(s.loop).Some? && !Awaiting(s, Serving(s.loop).value) && LEnabled(s, l)
    ensures Serving(LApply(s, l).loop) == Serving(s.loop) && !Awaiting(LApply(s, l), Serving(s.loop).value)
  {}

  lemma CallerGoneC(s: State, c: CStep)
    requires Fifo(s) && Ids(s) && AckInv(s) && CEnabled(s, c)
    requires Serving(s.loop).Some? && !Awaiting(s, Serving(s.loop).value)
    ensures CApply(s, c).loop == s.loop && !Awaiting(CApply(s, c), Serving(s.loop).value)
  {
    var g := Serving(s.loop).value;
    CFrame(s, c);
    assert s.popped <= s.accepted && Ctl(g) in s.popped;
    AwaitsNoMore(s, c, g);
  }

  /** With the flag set nobody new gets into `enqueue`. */
  lemma NobodyEnters(s: State, st: Step)
    requires s.shut && !Entering(s) && Enabled(s, st)
    ensures !Entering(Apply(s, st))
  {
    match st
    case OfLoop(LAck) => NobodyEntersAck(s);
    case OfLoop(l) => LFrame(s, l); SameCalls(s, Apply(s, st));
    case OfLog(g) => GFrame(s, g); SameCalls(s, Apply(s, st));
    case OfCaller(c) => NobodyEntersC(s, c);
    case OfTargets(t) => TFrame(s, t); SameCalls(s, Apply(s, st));
    case OfHost(_, _) => SameCalls(s, Apply(s, st));
    case OfKill(who, k) => KFrame(s, who, k); SameCalls(s, Apply(s, st));
  }

  lemma SameCalls(s: State, t: State)
    requires t.calls == s.calls && !Entering(s)
    ensures !Entering(t)
  {
    if Entering(t) {
      var id :| Enqueuing(t, id);
      assert Enqueuing(s, id);
    }
  }

  lemma NobodyEntersAck(s: State)
    requires !Entering(s) && LEnabled(s, LAck)
    ensures !Entering(LApply(s, LAck))
  {
    if Entering(LApply(s, LAck)) {
      var id :| Enqueuing(LApply(s, LAck), id);
      assert Enqueuing(s, id);
    }
  }

  lemma NobodyEntersC(s: State, c: CStep)
    requires s.shut && !Entering(s) && CEnabled(s, c)
    ensures !Entering(CApply(s, c)) && !c.CPush?
  {
    if Entering(CApply(s, c)) {
      var id :| Enqueuing(CApply(s, c), id);
      assert Enqueuing(s, id);
    }
  }

  /** With nobody in `enqueue`, an empty lgr.in stays empty, and a loop that drains it stays at that until it is. */
  lemma LinStays(s: State, st: Step)
    requires s.shut && NothingLeft(s) && Enabled(s, st)
    ensures NothingLeft(Apply(s, st))
  {
    NobodyEnters(s, st);
    match st
    case OfLoop(l) => LFrame(s, l);
    case OfLog(g) => GFrame(s, g); ServingSame(s, g);
    case OfCaller(c) => NobodyEntersC(s, c); CFrame(s, c);
    case OfTargets(t) => TFrame(s, t);
    case OfHost(_, _) =>
    case OfKill(who, k) => KFrame(s, who, k);
  }

  lemma ShutStays(s: State, st: Step)
    requires s.shut && Enabled(s, st)
    ensures Apply(s, st).shut
  {
    match st
    case OfLoop(l) => LFrame(s, l);
    case OfLog(g) => GFrame(s, g);
    case OfCaller(c) => CFrame(s, c);
    case OfTargets(t) => TFrame(s, t);
    case OfHost(_, _) =>
    case OfKill(who, k) => KFrame(s, who, k);
  }

  lemma {:induction false} SureStays(s: State, steps: seq<Step>)
    requires Inv(s) && s.shut && Exec(s, steps).Some?
    ensures var u := Exec(s, steps).value;
      u.shut && (SureEmpty(s) ==> SureEmpty(u)) && (!CanReturn(s) ==> !CanReturn(u))
  {
    if steps != [] {
      SureStays(s, Front(steps));
      ExecKeepsInv(s, Front(steps));
      SureStep(Exec(s, Front(steps)).value, Last(steps));
    }
  }

  lemma SureStep(s: State, st: Step)
    requires Inv(s) && s.shut && Enabled(s, st)
    ensures var u := Apply(s, st);
      u.shut && (SureEmpty(s) ==> SureEmpty(u)) && (!CanReturn(s) ==> !CanReturn(u))
  {
    ShutStays(s, st);
    if !CanReturn(s) {
      ReturnsNoMore(s, st);
    } else if NothingLeft(s) {
      LinStays(s, st);
    }
  }

  // ---- exactly when --------------------------------------------------------------------------------------------

  lemma NilAt(u: State)
    requires Inv(u) && ReturningNil(u)
    ensures CanReturn(u) && u.loop.Stopped? && (SureEmpty(u) ==> u.lin == [])
  {}

  /** What is still in `enqueue` gets into an empty lgr.in. */
  lemma LateEntry(u: State) returns (st: Step)
    requires ReturningNil(u) && u.lcap >= 1 && !NothingLeft(u) && u.loop.Stopped? && u.lin == []
    ensures Enabled(u, st) && !Expires(st) && ReturningNil(Apply(u, st)) && Apply(u, st).lin != []
  {
    var id :| Enqueuing(u, id);
    CFrame(u, CPush(id));
    st := OfCaller(CPush(id));
  }

  lemma ExecSnoc(s: State, steps: seq<Step>, st: Step)
    requires Exec(s, steps).Some? && Enabled(Exec(s, steps).value, st)
    ensures Exec(s, steps + [st]) == Some(Apply(Exec(s, steps).value, st))
  {
    assert Front(steps + [st]) == steps;
  }

  /** Shutdown returns nil at the end of the run. */
  ghost predicate EndsNil(s: State, steps: seq<Step>) {
    Exec(s, steps).Some? && ReturningNil(Exec(s, steps).value)
  }

  /**
   Once Shutdown has closed lgr.quit it can still return nil if and only if the loop can still get back
   to its select: the flush it serves has its caller waiting, and the host it waits for can signal. Then it
   can do so with no context expiring.
   */
  lemma NilComesIff(s: State)
    requires Inv(s) && Roomy(s) && s.sd.Waiting?
    ensures (exists steps :: EndsNil(s, steps)) <==> CanReturn(s)
    ensures (exists steps :: EndsNil(s, steps) && Patient(steps)) <==> CanReturn(s)
  {
    if CanReturn(s) {
      var steps, u := ComesToNil(s);
      assert EndsNil(s, steps);
    } else {
      forall steps | EndsNil(s, steps) ensures false {
        SureStays(s, steps);
        ExecKeepsInv(s, steps);
        NilAt(Exec(s, steps).value);
      }
    }
  }

  /**
   Every nil return from there on finds lgr.in empty if and only if there can be none, or no call is
   inside `enqueue` and lgr.in is empty or is still being drained for a flush. Contexts that expire make
   no difference.
   */
  lemma NilEmptyIff(s: State)
    requires Inv(s) && Roomy(s) && s.lcap >= 1 && s.sd.Waiting?
    ensures (forall steps :: EndsNil(s, steps) ==> Exec(s, steps).value.lin == []) <==> SureEmpty(s)
    ensures (forall steps :: EndsNil(s, steps) && Patient(steps) ==> Exec(s, steps).value.lin == []) <==> SureEmpty(s)
  {
    if SureEmpty(s) {
      forall steps | EndsNil(s, steps) ensures Exec(s, steps).value.lin == [] {
        SureStays(s, steps);
        ExecKeepsInv(s, steps);
        NilAt(Exec(s, steps).value);
      }
    } else {
      var steps := NilWithLin(s);
      assert EndsNil(s, steps) && Patient(steps);
    }
  }

  lemma NilWithLin(s: State) returns (steps: seq<Step>)
    requires Coming(s) && s.lcap >= 1 && !NothingLeft(s)
    ensures EndsNil(s, steps) && Patient(steps) && Exec(s, steps).value.lin != []
  {
    var a, u := ComesToNil(s);
    ExecLcap(s, a);
    NilAt(u);
    steps := a;
    if u.lin == [] {
      var st := LateEntry(u);
      ExecSnoc(s, a, st);
      PatientThen(a, st);
      steps := a + [st];
    }
  }

  lemma PatientThen(steps: seq<Step>, st: Step)
    requires Patient(steps) && !Expires(st)
    ensures Patient(steps + [st])
  {}

  lemma {:induction false} ExecLcap(s: State, steps: seq<Step>)
    requires Exec(s, steps).Some?
    ensures Exec(s, steps).value.lcap == s.lcap
  {
    if steps != [] {
      ExecLcap(s, Front(steps));
      LcapStays(Exec(s, Front(steps)).value, Last(steps));
    }
  }

  // ---- the reader's end ------------------------------------------------------------------------------------

  /** The caller of TargetHost.Shutdown is about to shut down the target of host h. */
  predicate Stops(s: State, who: Who, h: nat) {
    Killing(s, who) && Victim(s, who) == h && Phase(s, who).Stopping?
  }

  lemma ExitedTouch(h: Host, t: Touch)
    requires TouchGuard(h, t) && h.pc.Exited?
    ensures TouchHost(h, t).pc.Exited?
  {}

  lemma {:induction false} ExitedStays(s: State, steps: seq<Step>, h: nat)
    requires h < |s.hosts| && s.hosts[h].pc.Exited? && Exec(s, steps).Some?
    ensures h < |Exec(s, steps).value.hosts| && Exec(s, steps).value.hosts[h].pc.Exited?
  {
    if steps != [] {
      ExitedStays(s, Front(steps), h);
      var t := Exec(s, Front(steps)).value;
      HostsAfter(t, Last(steps));
      ExitedTouch(t.hosts[h], TouchOf(t, Last(steps), h));
    }
  }

  lemma StopsAfter(u: State, who: Who, h: nat)
    requires Inv(u) && Stops(u, who, h)
    ensures u.hosts[h].expired || u.hosts[h].pc.Exited?
  {
    assert LifeInv(u.hosts[h], KillOn(u, h));
  }

  /** The wait for the reader is over and the target is about to be shut down, at the end of the run. */
  ghost predicate EndsStopping(s: State, steps: seq<Step>, who: Who, h: nat) {
    Exec(s, steps).Some? && Stops(Exec(s, steps).value, who, h)
  }

  /**
   While TargetHost.Shutdown waits for a reader, that reader is sure to be gone when the target is shut
   down if and only if it has exited already; and it is gone in any case if the context has not expired.
   */
  lemma ReaderGoneIff(s: State, who: Who)
    requires Inv(s) && Killing(s, who) && Phase(s, who).AwaitingDone?
    ensures var h := Victim(s, who);
      && ((forall steps :: EndsStopping(s, steps, who, h) ==> Exec(s, steps).value.hosts[h].pc.Exited?)
          <==> s.hosts[h].pc.Exited?)
      && (forall steps :: EndsStopping(s, steps, who, h) && !Exec(s, steps).value.hosts[h].expired ==>
            Exec(s, steps).value.hosts[h].pc.Exited?)
  {
    var h := Victim(s, who);
    forall steps | EndsStopping(s, steps, who, h)
      ensures Exec(s, steps).value.hosts[h].expired || Exec(s, steps).value.hosts[h].pc.Exited?
      ensures s.hosts[h].pc.Exited? ==> Exec(s, steps).value.hosts[h].pc.Exited?
    {
      ExecKeepsInv(s, steps);
      StopsAfter(Exec(s, steps).value, who, h);
      if s.hosts[h].pc.Exited? { ExitedStays(s, steps, h); }
    }
    if !s.hosts[h].pc.Exited? {
      ExecOne(s, OfKill(who, KExpire));
      ExpiredStops(s, who);
      assert EndsStopping(s, [OfKill(who, KExpire)], who, h);
    }
  }

  lemma ExpiredStops(s: State, who: Who)
    requires Shape(s) && KEnabled(s, who, KExpire)
    ensures var h, u := Victim(s, who), KApply(s, who, KExpire); Stops(u, who, h) && u.hosts[h].pc == s.hosts[h].pc
  {
    KHosts(s, who, KExpire);
  }
}
