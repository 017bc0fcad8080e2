/**
 Flush progress. With producers quiet and the target list fixed, only the pipeline's own goroutines
 move: the read loop, `Log` and the readers. Each of their steps decreases a measure, so such a run
 ends. Flush f is acknowledged by the time it ends, however the goroutines are scheduled, if and only
 if f is `Due`: a condition on the state the run starts from.
 */
module FlushProgress {
  import opened Basics
  import opened TargetHost
  import opened Pipeline
  import opened PipelineInvariant
  import opened PipelineProtocol
  import opened PipelineLifecycle
  import opened PipelineTheorems

  /**
   The steps of the pipeline's own goroutines. Writes may fail or panic and log records may be dropped
   or time out; only a nested flush record must not be.
   */
  predicate Working(s: State, st: Step) {
    match st
    case OfLoop(_) => true
    case OfHost(_, _) => true
    case OfLog(g) => (g.GDrop? || g.GExpire?) && (s.loop.Sel? || s.loop.Blk?) ==> s.loop.m.Data?
    case _ => false
  }

  /** No target is being removed, and every host's queue can hold something. */
  ghost predicate Steady(s: State) {
    Inv(s) && s.rm.Free? && forall h :: 0 <= h < |s.hosts| ==> s.hosts[h].cap >= 1
  }

  // ---- when a flush is due --------------------------------------------------------------------------

  /** The flush's caller is there to receive the signal. */
  predicate Awaiting(s: State, f: nat) { f in s.calls && s.calls[f].Await? }

  /** The first flush record in the queue. */
  function FirstCtl(q: seq<Msg>): Option<nat> {
    if q == [] then None else if q[0].Ctl? then Some(q[0].n) else FirstCtl(q[1..])
  }

  /** The flush being served takes nothing more from lgr.in. */
  predicate PastDrain(l: Loop) {
    l.Locking? || l.Wait? || l.Ack? || ((l.At? || l.Sel? || l.Blk?) && l.job.FlushHosts?)
  }

  /** Flush f is next: first in lgr.in, with the loop free to take it, now or after a flush past its drain loop. */
  predicate Next(s: State, f: nat) {
    && FirstCtl(s.lin) == Some(f) && s.quits == 0 && !s.loop.Stopped?
    && (Serving(s.loop) == None || (PastDrain(s.loop) && Awaiting(s, Serving(s.loop).value)))
  }

  /** The first target whose `Log` the flush has yet to enter. */
  function Ahead(l: Loop, n: nat): nat {
    match l
    case At(FlushHosts(_), i) => i
    case Sel(FlushHosts(_), i, _) => i + 1
    case Blk(FlushHosts(_), i, _) => i + 1
    case Wait(_, i, _) => i + 1
    case Ack(_) => n
    case _ => 0
  }

  /** No target from position k on is shut down. */
  ghost predicate Open(s: State, k: nat) {
    forall i :: k <= i < |s.targets| && s.targets[i] < |s.hosts| ==> !s.hosts[s.targets[i]].shut
  }

  /** The reader is about to signal nested flush n, or has it queued and has not been told to quit. */
  ghost predicate Heeds(h: Host, n: nat) {
    h.pc == Draining(n) || h.pc == Signalling(n) || (h.q != [] && Last(h.q) == Ctl(n) && h.quits == 0)
  }

  /** The host the loop is flushing will answer. */
  ghost predicate HereAnswers(s: State) {
    AtHost(s) ==>
      && ((s.loop.Sel? || s.loop.Blk?) && s.loop.job.FlushHosts? ==> HereHost(s).quits == 0)
      && (s.loop.Wait? ==> Heeds(HereHost(s), s.loop.n))
  }

  /**
   Flush f is due: its caller is still waiting; it is being served, or is next; no target it has yet to
   visit is shut down; and no nested flush record has been lost, or left to a reader that may quit.
   */
  ghost predicate Due(s: State, f: nat) {
    && Awaiting(s, f)
    && (if Serving(s.loop) == Some(f) then Open(s, Ahead(s.loop, |s.targets|)) else Next(s, f) && Open(s, 0))
    && HereAnswers(s)
  }

  // ---- the measure ------------------------------------------------------------------------------------

  function PcWork(pc: Pc): nat {
    match pc
    case Idle => 1
    case Writing(_) => 2
    case Draining(_) => 2
    case DrainWriting(_, _) => 3
    case Signalling(_) => 1
    case Exited => 0
  }

  function HostWork(h: Host): nat { 2 * |h.q| + PcWork(h.pc) }

  function HostsWork(hosts: seq<Host>): nat {
    if hosts == [] then 0 else HostsWork(Front(hosts)) + HostWork(Last(hosts))
  }

  /** Steps the read loop still has to take, not counting lgr.in, for n targets. */
  function LoopWork(l: Loop, n: nat): int {
    match l
    case Select => 0
    case Popped(_, back) => BackWork(back, n) + 3 * n + 2
    case Drain(_) => 4 * n + 4
    case Locking(_) => 4 * n + 3
    case At(FanOut(_, back), i) => BackWork(back, n) + 3 * (n - i) + 1
    case Sel(FanOut(_, back), i, _) => BackWork(back, n) + 3 * (n - i)
    case Blk(FanOut(_, back), i, _) => BackWork(back, n) + 3 * (n - i) - 1
    case At(FlushHosts(_), i) => 4 * (n - i) + 2
    case Sel(FlushHosts(_), i, _) => 4 * (n - i) + 1
    case Blk(FlushHosts(_), i, _) => 4 * (n - i)
    case Wait(_, i, _) => 4 * (n - i) - 1
    case Ack(_) => 1
    case Stopped => -1
  }

  function BackWork(back: Option<nat>, n: nat): nat {
    if back.None? then 0 else 4 * n + 4
  }

  function LinWork(k: nat, n: nat): nat {
    if k == 0 then 0 else LinWork(k - 1, n) + 4 * n + 5
  }

  function Work(s: State): int {
    3 * (LinWork(|s.lin|, |s.targets|) + LoopWork(s.loop, |s.targets|) + 1) + HostsWork(s.hosts)
  }

  lemma {:induction false} HostsWorkUpdate(hosts: seq<Host>, h: nat, host: Host)
    requires h < |hosts|
    ensures HostsWork(hosts[h := host]) == HostsWork(hosts) - HostWork(hosts[h]) + HostWork(host)
  {
    var hosts' := hosts[h := host];
    if h < |hosts| - 1 {
      HostsWorkUpdate(Front(hosts), h, host);
      assert Front(hosts') == Front(hosts)[h := host];
    } else {
      assert Front(hosts') == Front(hosts);
    }
  }

  lemma WorkNonNegative(s: State)
    requires Shape(s)
    ensures Work(s) >= 0
  {}

  lemma WorkDownHost(s: State, h: nat, hs: HStep)
    requires Enabled(s, OfHost(h, hs))
    ensures Work(Apply(s, OfHost(h, hs))) < Work(s)
  {
    HostsWorkUpdate(s.hosts, h, HApply(s.hosts[h], hs));
  }

  lemma WorkDownLog(s: State, g: LogStep)
    requires Shape(s) && Enabled(s, OfLog(g))
    ensures Work(Apply(s, OfLog(g))) < Work(s)
  {
    var h := LogEffect(HereHost(s), g, Payload(s), s.loop.Blk?);
    GFrame(s, g);
    HostsWorkUpdate(s.hosts, Here(s), h);
    HostWorkUp(HereHost(s), g, Payload(s), s.loop.Blk?);
    LoopWorkDown(s.loop.job, s.loop.i, Payload(s), g, |s.targets|, s.loop);
  }

  /** Only a send adds work to a host. */
  lemma HostWorkUp(h: Host, g: LogStep, m: Msg, slow: bool)
    requires LogGuard(h, g, m)
    ensures HostWork(LogEffect(h, g, m, slow)) == HostWork(h) + (if g.GSend? then 2 else 0)
  {}

  /** And every step of `Log` takes more from the loop. */
  lemma LoopWorkDown(job: Job, i: nat, m: Msg, g: LogStep, n: nat, l: Loop)
    requires i < n
    requires match g
      case GSkip => l == At(job, i) && job.FanOut?
      case GRefuse => l == At(job, i)
      case GPass => l == At(job, i)
      case GSend => l == Sel(job, i, m) || l == Blk(job, i, m)
      case GDrop => l == Sel(job, i, m)
      case GBlock => l == Sel(job, i, m)
      case GExpire => l == Blk(job, i, m)
    ensures LoopWork(Goto(job, i, m, g), n) <= LoopWork(l, n) - 1
  {}

  lemma WorkDownLoop(s: State, l: LStep)
    requires Shape(s) && LEnabled(s, l)
    ensures Work(LApply(s, l)) < Work(s)
  {
    if l.LNext? {
      HostsWorkUpdate(s.hosts, Here(s), HereHost(s).(pc := Idle));
    } else if l.LPop? {
      WorkDownPop(s);
    } else {
      LFrame(s, l);
    }
  }

  lemma WorkDownPop(s: State)
    requires LEnabled(s, LPop)
    ensures Work(LApply(s, LPop)) < Work(s)
  {}

  // ---- a due flush moves --------------------------------------------------------------------------------

  /** While a flush is due and not yet acknowledged, some goroutine of the pipeline can move. */
  lemma StepExists(s: State, f: nat) returns (st: Step)
    requires Steady(s) && Due(s, f)
    ensures Enabled(s, st) && Working(s, st)
  {
    match s.loop
    case Select => st := OfLoop(LPop);
    case Popped(_, _) => st := OfLoop(LLock);
    case Drain(_) => st := if s.lin == [] then OfLoop(LDrained) else OfLoop(LPop);
    case Locking(_) => st := OfLoop(LLock);
    case At(_, i) => st := if i == |s.targets| then OfLoop(LEnd) else LogEnters(s);
    case Sel(_, _, _) => st := OfLog(if |HereHost(s).q| < HereHost(s).cap then GSend else GBlock);
    case Blk(_, _, _) => st := BlockedMoves(s);
    case Wait(_, _, _) => st := WaitMoves(s);
    case Ack(_) => st := OfLoop(LAck);
    case Stopped => assert false;
  }

  lemma BlockedMoves(s: State) returns (st: Step)
    requires Steady(s) && s.loop.Blk? && HereAnswers(s)
    ensures Enabled(s, st) && Working(s, st)
  {
    if |HereHost(s).q| < HereHost(s).cap {
      st := OfLog(GSend);
    } else if s.loop.job.FanOut? {
      st := OfLog(GExpire);
    } else {
      assert CtlInv(HereHost(s), AwaitedAt(s, Here(s))) && LifeInv(HereHost(s), KillOn(s, Here(s)));
      st := ReaderMoves(s, Here(s));
    }
  }

  lemma WaitMoves(s: State) returns (st: Step)
    requires Inv(s) && s.loop.Wait? && HereAnswers(s)
    ensures Enabled(s, st) && Working(s, st)
  {
    assert CtlInv(HereHost(s), AwaitedAt(s, Here(s))) && LifeInv(HereHost(s), KillOn(s, Here(s)));
    if HereHost(s).pc == Signalling(s.loop.n) { st := OfLoop(LNext); } else { st := ReaderMoves(s, Here(s)); }
  }

  function LogEnters(s: State): (st: Step)
    requires Shape(s) && s.loop.At? && s.loop.i < |s.targets|
    ensures Enabled(s, st) && Working(s, st)
  {
    OfLog(if !Lists(HereHost(s), Payload(s)) then GSkip else if HereHost(s).shut then GRefuse else GPass)
  }

  /** A reader with something to do can move, unless it has exited or waits to signal. */
  lemma ReaderMoves(s: State, h: nat) returns (st: Step)
    requires Inv(s) && h < |s.hosts|
    requires s.hosts[h].q != [] || s.hosts[h].pc.Draining?
    requires !s.hosts[h].pc.Signalling? && !s.hosts[h].pc.Exited?
    ensures st.OfHost? && st.h == h && !st.st.Quit? && Enabled(s, st)
  {
    var host := s.hosts[h];
    assert CtlInv(host, AwaitedAt(s, h)) && FilterInv(host);
    match host.pc
    case Idle => st := OfHost(h, Pop);
    case Writing(_) => st := OfHost(h, Finish(Written));
    case Draining(_) => st := if host.q == [] then OfHost(h, DrainEnd) else OfHost(h, Pop);
    case _ => assert false;
  }

  /** Every step of the pipeline's goroutines gets nearer to the end. */
  lemma StepWorks(s: State, st: Step)
    requires Shape(s) && Enabled(s, st) && (st.OfLoop? || st.OfLog? || st.OfHost?)
    ensures Work(Apply(s, st)) < Work(s)
  {
    match st
    case OfLoop(l) => WorkDownLoop(s, l);
    case OfLog(g) => WorkDownLog(s, g);
    case OfHost(h, hs) => WorkDownHost(s, h, hs);
  }

  // ---- due stays due, and only due becomes due ---------------------------------------------------------------

  /** A receive by a `select` that may see quit instead. */
  predicate MayQuit(s: State, st: Step) {
    || (st == OfLoop(LPop) && s.loop.Select? && s.quits > 0)
    || (st.OfHost? && st.st.Pop? && st.h < |s.hosts| && s.hosts[st.h].pc.Idle? && s.hosts[st.h].quits > 0)
  }

  lemma HeedsKept(h: Host, st: HStep, n: nat)
    requires CtlInv(h, Some(n)) && HEnabled(h, st) && !(st.Pop? && h.pc.Idle? && h.quits > 0)
    ensures Heeds(HApply(h, st), n) <==> Heeds(h, n)
  {
    if st.Pop? && |h.q| > 1 { assert Last(h.q[1..]) == Last(h.q) && h.q[0] == Front(h.q)[0]; }
  }

  lemma HeedsStays(h: Host, st: HStep, n: nat)
    requires CtlInv(h, Some(n)) && HEnabled(h, st) && Heeds(h, n)
    ensures Heeds(HApply(h, st), n)
  {
    if st.Pop? && |h.q| > 1 { assert Last(h.q[1..]) == Last(h.q) && h.q[0] == Front(h.q)[0]; }
  }

  /** What a reader's step leaves alone decides everything about Due but the nested record. */
  lemma DueUpToHere(s: State, s': State, f: nat)
    requires s' == s.(hosts := s'.hosts) && |s'.hosts| == |s.hosts|
    requires forall h :: 0 <= h < |s.hosts| ==> s'.hosts[h].shut == s.hosts[h].shut
    requires HereAnswers(s') <==> HereAnswers(s)
    ensures Due(s', f) <==> Due(s, f)
  {}

  lemma HereAfterHost(s: State, h: nat, hs: HStep)
    requires Shape(s) && CtlAll(s) && Enabled(s, OfHost(h, hs))
    ensures HereAnswers(s) ==> HereAnswers(Apply(s, OfHost(h, hs)))
    ensures !MayQuit(s, OfHost(h, hs)) ==> (HereAnswers(Apply(s, OfHost(h, hs))) <==> HereAnswers(s))
  {
    if s.loop.Wait? && AtHost(s) && Here(s) == h {
      assert CtlInv(s.hosts[h], Some(s.loop.n));
      if HereAnswers(s) { HeedsStays(s.hosts[h], hs, s.loop.n); }
      if !MayQuit(s, OfHost(h, hs)) { HeedsKept(s.hosts[h], hs, s.loop.n); }
    }
  }

  lemma DueAfterHost(s: State, h: nat, hs: HStep, f: nat)
    requires Shape(s) && CtlAll(s) && Enabled(s, OfHost(h, hs))
    ensures Due(s, f) ==> Due(Apply(s, OfHost(h, hs)), f)
    ensures !MayQuit(s, OfHost(h, hs)) && Due(Apply(s, OfHost(h, hs)), f) ==> Due(s, f)
  {
    var s' := Apply(s, OfHost(h, hs));
    HereAfterHost(s, h, hs);
    if HereAnswers(s') <==> HereAnswers(s) { DueUpToHere(s, s', f); }
  }

  lemma ShutSame(s: State, g: LogStep)
    requires GEnabled(s, g)
    ensures var s' := GApply(s, g);
      && s'.targets == s.targets && |s'.hosts| == |s.hosts|
      && forall h :: 0 <= h < |s.hosts| ==> s'.hosts[h].shut == s.hosts[h].shut && s'.hosts[h].quits == s.hosts[h].quits
  {}

  lemma DueAfterFanOut(s: State, g: LogStep, f: nat)
    requires Shape(s) && GEnabled(s, g) && s.loop.job.FanOut?
    ensures Due(GApply(s, g), f) <==> Due(s, f)
  {
    GFrame(s, g);
    ShutSame(s, g);
  }

  /** The flush enters `Log` at a host that is not shut down, and its record gets in, or neither. */
  lemma NestedHere(s: State, g: LogStep)
    requires Shape(s) && CtlAll(s) && LifeAll(s) && Enabled(s, OfLog(g)) && Working(s, OfLog(g))
        && s.loop.job.FlushHosts?
    ensures var s' := GApply(s, g);
      HereAnswers(s') && (s.loop.At? ==> !HereHost(s).shut) <==> HereAnswers(s) && (s.loop.At? ==> !HereHost(s).shut)
    ensures HereAnswers(GApply(s, g)) && s.loop.At? ==> !HereHost(s).shut
  {
    assert LifeInv(HereHost(s), KillOn(s, Here(s))) && CtlInv(HereHost(s), AwaitedAt(s, Here(s)));
    assert Last(HereHost(s).q + [Payload(s)]) == Payload(s);
  }

  lemma OpenHere(s: State, g: LogStep, f: nat)
    requires Shape(s) && GEnabled(s, g) && s.loop.job.FlushHosts? && (s.loop.At? ==> !HereHost(s).shut)
    ensures var s' := GApply(s, g);
      Open(s', Ahead(s'.loop, |s'.targets|)) <==> Open(s, Ahead(s.loop, |s.targets|))
    ensures Open(GApply(s, g), 0) <==> Open(s, 0)
  {
    ShutSame(s, g);
    var a, a' := Ahead(s.loop, |s.targets|), Ahead(GApply(s, g).loop, |s.targets|);
    assert a' == a || (s.loop.At? && a == s.loop.i && a' == a + 1);
  }

  lemma DueAfterNested(s: State, g: LogStep, f: nat)
    requires Shape(s) && CtlAll(s) && LifeAll(s) && Enabled(s, OfLog(g)) && Working(s, OfLog(g))
        && s.loop.job.FlushHosts?
    ensures Due(GApply(s, g), f) <==> Due(s, f)
  {
    GFrame(s, g);
    NestedHere(s, g);
    if s.loop.At? && HereHost(s).shut {
      assert !Open(s, s.loop.i);
    } else {
      OpenHere(s, g, f);
      NextSame(s, g, f);
    }
  }

  lemma NextSame(s: State, g: LogStep, f: nat)
    requires GEnabled(s, g) && s.loop.job.FlushHosts?
    ensures Serving(GApply(s, g).loop) == Serving(s.loop) && (Next(GApply(s, g), f) <==> Next(s, f))
  {
    GFrame(s, g);
  }

  lemma DueAfterLog(s: State, g: LogStep, f: nat)
    requires Shape(s) && CtlAll(s) && LifeAll(s) && Enabled(s, OfLog(g)) && Working(s, OfLog(g))
    ensures Due(GApply(s, g), f) <==> Due(s, f)
  {
    if s.loop.job.FanOut? { DueAfterFanOut(s, g, f); } else { DueAfterNested(s, g, f); }
  }

  lemma DueAfterPop(s: State, f: nat)
    requires Shape(s) && LEnabled(s, LPop) && !MayQuit(s, OfLoop(LPop))
    ensures Due(LApply(s, LPop), f) <==> Due(s, f)
  {
    LFrame(s, LPop);
  }

  lemma DueAfterLoop(s: State, l: LStep, f: nat)
    requires Shape(s) && LEnabled(s, l) && !MayQuit(s, OfLoop(l)) && !(l.LAck? && s.loop.f == f)
    ensures Due(LApply(s, l), f) <==> Due(s, f)
  {
    if l.LPop? {
      DueAfterPop(s, f);
    } else if l.LNext? {
      DueAfterNext(s, f);
    } else if l.LEnd? {
      DueAfterEnd(s, f);
    } else if l.LAck? {
      DueAfterAck(s, f);
    } else if l.LLock? {
      DueAfterLock(s, f);
    } else {
      LFrame(s, l);
    }
  }

  lemma DueAfterLock(s: State, f: nat)
    requires Shape(s) && LEnabled(s, LLock)
    ensures Due(LApply(s, LLock), f) <==> Due(s, f)
  {
    LFrame(s, LLock);
  }

  /** The loop is done with another flush. */
  lemma DueAfterAck(s: State, f: nat)
    requires LEnabled(s, LAck) && s.loop.f != f
    ensures Due(LApply(s, LAck), f) <==> Due(s, f)
  {
    LFrame(s, LAck);
  }

  lemma DueAfterNext(s: State, f: nat)
    requires Shape(s) && LEnabled(s, LNext)
    ensures Due(LApply(s, LNext), f) <==> Due(s, f)
  {
    LFrame(s, LNext);
    var s' := LApply(s, LNext);
    assert forall h :: 0 <= h < |s.hosts| ==> s'.hosts[h].shut == s.hosts[h].shut;
  }

  lemma DueAfterEnd(s: State, f: nat)
    requires Shape(s) && LEnabled(s, LEnd)
    ensures Due(LApply(s, LEnd), f) <==> Due(s, f)
  {
    LFrame(s, LEnd);
  }

  lemma CapStays(h: Host, t: Touch)
    requires TouchGuard(h, t)
    ensures TouchHost(h, t).cap == h.cap
  {}

  lemma CapsKept(s: State, st: Step)
    requires Enabled(s, st) && Working(s, st)
    requires forall h :: 0 <= h < |s.hosts| ==> s.hosts[h].cap >= 1
    ensures forall h :: 0 <= h < |Apply(s, st).hosts| ==> Apply(s, st).hosts[h].cap >= 1
  {
    HostsAfter(s, st);
    forall h | 0 <= h < |s.hosts| ensures Apply(s, st).hosts[h].cap >= 1 {
      CapStays(s.hosts[h], TouchOf(s, st, h));
    }
  }

  lemma RmStays(s: State, st: Step)
    requires Enabled(s, st) && Working(s, st)
    ensures Apply(s, st).rm == s.rm
  {
    match st
    case OfLoop(l) => LFrame(s, l);
    case OfLog(g) => GFrame(s, g);
    case OfHost(_, _) =>
  }

  lemma SteadyKept(s: State, st: Step)
    requires Steady(s) && Enabled(s, st) && Working(s, st)
    ensures Steady(Apply(s, st))
  {
    InvKept(s, st);
    CapsKept(s, st);
    RmStays(s, st);
  }

  /** A due flush stays due until it is acknowledged. */
  lemma DueKept(s: State, st: Step, f: nat)
    requires Steady(s) && Due(s, f) && Enabled(s, st) && Working(s, st)
    ensures Due(Apply(s, st), f) || f in Apply(s, st).acked
  {
    match st
    case OfLoop(l) => if l.LAck? && s.loop.f == f {} else { DueAfterLoop(s, l, f); }
    case OfLog(g) => DueAfterLog(s, g, f);
    case OfHost(h, hs) => DueAfterHost(s, h, hs, f);
  }

  /** The step to take so that a flush that is not due does not become due: quit where quit can be seen. */
  function Spoiler(s: State, st: Step): Step {
    if !MayQuit(s, st) then st else if st.OfHost? then OfHost(st.h, Quit) else OfLoop(LQuit)
  }

  lemma SpoilerEnabled(s: State, st: Step)
    requires Enabled(s, st) && Working(s, st)
    ensures var sp := Spoiler(s, st); Enabled(s, sp) && Working(s, sp) && !MayQuit(s, sp)
    ensures st.OfLog? ==> Spoiler(s, st) == st
  {}

  lemma AckedOnlyDue(s: State, st: Step, f: nat)
    requires Steady(s) && !Due(s, f) && f !in s.acked && Enabled(s, st) && Working(s, st)
    ensures f !in Apply(s, st).acked && !(st == OfLoop(LAck) && s.loop.f == f)
  {
    match st
    case OfLoop(l) => LFrame(s, l);
    case OfLog(g) => GFrame(s, g);
    case OfHost(_, _) =>
  }

  lemma SpoilerSpoils(s: State, st: Step, f: nat)
    requires Steady(s) && !Due(s, f) && f !in s.acked && Enabled(s, st) && Working(s, st)
    ensures var sp := Spoiler(s, st);
      Enabled(s, sp) && Working(s, sp) && !Due(Apply(s, sp), f) && f !in Apply(s, sp).acked
  {
    SpoilerEnabled(s, st);
    var sp := Spoiler(s, st);
    AckedOnlyDue(s, sp, f);
    match sp
    case OfLoop(l) => DueAfterLoop(s, l, f);
    case OfLog(g) => DueAfterLog(s, g, f);
    case OfHost(h, hs) => DueAfterHost(s, h, hs, f);
  }

  // ---- whole runs -------------------------------------------------------------------------------------------

  /** A run of `Exec` in which only the pipeline's own goroutines move. */
  predicate WorkingRun(s: State, steps: seq<Step>) {
    steps == [] ||
    (WorkingRun(s, Front(steps)) && Exec(s, Front(steps)).Some? && Working(Exec(s, Front(steps)).value, Last(steps)))
  }

  /** None of the pipeline's goroutines can move. */
  ghost predicate Stuck(s: State) { forall st :: Enabled(s, st) ==> !Working(s, st) }

  /** A run of the pipeline's goroutines as far as it goes. */
  ghost predicate Complete(s: State, steps: seq<Step>) {
    WorkingRun(s, steps) && Exec(s, steps).Some? && Stuck(Exec(s, steps).value)
  }

  lemma AckedStays(s: State, st: Step)
    requires Enabled(s, st)
    ensures s.acked <= Apply(s, st).acked
  {
    match st
    case OfLoop(LAck) =>
    case OfLoop(l) => LFrame(s, l);
    case OfLog(g) => GFrame(s, g);
    case OfCaller(c) => CFrame(s, c);
    case OfTargets(t) => TFrame(s, t);
    case OfHost(_, _) =>
    case OfKill(who, k) => KFrame(s, who, k);
  }

  /** Such runs end: none is longer than the measure of its first state. */
  lemma {:induction false} RunsEnd(s: State, steps: seq<Step>)
    requires Steady(s) && WorkingRun(s, steps) && Exec(s, steps).Some?
    ensures Steady(Exec(s, steps).value) && |steps| + Work(Exec(s, steps).value) <= Work(s)
    ensures |steps| <= Work(s)
  {
    WorkNonNegative(s);
    if steps != [] {
      RunsEnd(s, Front(steps));
      var t := Exec(s, Front(steps)).value;
      SteadyKept(t, Last(steps));
      StepWorks(t, Last(steps));
      WorkNonNegative(Apply(t, Last(steps)));
    }
  }

  lemma {:induction false} RunStaysDue(s: State, steps: seq<Step>, f: nat)
    requires Steady(s) && Due(s, f) && WorkingRun(s, steps) && Exec(s, steps).Some?
    ensures Due(Exec(s, steps).value, f) || f in Exec(s, steps).value.acked
  {
    if steps != [] {
      RunStaysDue(s, Front(steps), f);
      RunsEnd(s, Front(steps));
      var t := Exec(s, Front(steps)).value;
      AckedStays(t, Last(steps));
      if f !in t.acked { DueKept(t, Last(steps), f); }
    }
  }

  /**
   Progress. However the pipeline's goroutines are scheduled, they take at most `Work(s)` steps, and as
   long as the due flush is not acknowledged some of them can move.
   */
  lemma FlushIsAcknowledged(s: State, steps: seq<Step>, f: nat)
    requires Steady(s) && Due(s, f) && WorkingRun(s, steps) && Exec(s, steps).Some?
    ensures |steps| <= Work(s)
    ensures Stuck(Exec(s, steps).value) ==> f in Exec(s, steps).value.acked
  {
    RunStaysDue(s, steps, f);
    RunsEnd(s, steps);
    var t := Exec(s, steps).value;
    if f !in t.acked { var st := StepExists(t, f); }
  }

  /** A run that leaves the flush unacknowledged, continued as far as it goes. */
  lemma {:induction false} RunOnUndue(s: State, steps: seq<Step>, f: nat) returns (all: seq<Step>)
    requires Steady(s) && WorkingRun(s, steps) && Exec(s, steps).Some?
    requires !Due(Exec(s, steps).value, f) && f !in Exec(s, steps).value.acked
    ensures Complete(s, all) && f !in Exec(s, all).value.acked
    decreases Work(s) - |steps|
  {
    RunsEnd(s, steps);
    var t := Exec(s, steps).value;
    if Stuck(t) {
      all := steps;
    } else {
      var st :| Enabled(t, st) && Working(t, st);
      SpoilerSpoils(t, st, f);
      var more := steps + [Spoiler(t, st)];
      assert Front(more) == steps;
      RunsEnd(s, more);
      all := RunOnUndue(s, more, f);
    }
  }

  /**
   The exact condition. With producers quiet and the target list fixed, a flush not acknowledged yet is
   acknowledged under every schedule if and only if it is due.
   */
  lemma AcknowledgedIffDue(s: State, f: nat)
    requires Steady(s) && f !in s.acked
    ensures (forall steps :: Complete(s, steps) ==> f in Exec(s, steps).value.acked) <==> Due(s, f)
  {
    if Due(s, f) {
      forall steps | Complete(s, steps) ensures f in Exec(s, steps).value.acked {
        FlushIsAcknowledged(s, steps, f);
      }
    } else {
      var steps := RunOnUndue(s, [], f);
      assert Complete(s, steps);
    }
  }
}
