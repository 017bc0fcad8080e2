/**
 Runs that show the limits are reached: flushes discarded, wedged and abandoned, and calls of Shutdown
 that return nil with work left behind. Each ends in a state proved reachable, step by step.
 */
module PipelineRuns {
  import opened Basics
  import opened TargetHost
  import opened Pipeline
  import opened PipelineInvariant
  import opened PipelineTheorems
  import opened FlushProgress
  import opened PipelineLimits

  // ---- stretches of a run ---------------------------------------------------------------------------

  /** The property holds at the start and is kept by every step. */
  ghost predicate Invariant(p: State -> bool) {
    (forall lcap: nat :: p(Init(lcap))) && forall s, st :: p(s) && Enabled(s, st) ==> p(Apply(s, st))
  }

  /** Reachable, said without naming the run: whatever is invariant holds here. */
  ghost predicate Comes(s: State) { forall p: State -> bool :: Invariant(p) ==> p(s) }

  lemma ComesReachable(s: State)
    requires Comes(s)
    ensures Reachable(s)
  {
    var p := (x: State) => Reachable(x);
    forall lcap: nat ensures p(Init(lcap)) {
      assert Exec(Init(lcap), []) == Some(Init(lcap));
    }
    forall x, st | p(x) && Enabled(x, st) ensures p(Apply(x, st)) {
      ReachableStep(x, st);
    }
    assert Invariant(p);
  }

  lemma Then(s: State, st: Step)
    requires Comes(s) && Enabled(s, st)
    ensures Comes(Apply(s, st))
  {}

  /** A flush record, or that of a Shutdown, enters lgr.in. */
  function FlushIn(s: State, sd: bool): State {
    s.(calls := s.calls[s.nextId := Await(sd)], nextId := s.nextId + 1,
       lin := s.lin + [Ctl(s.nextId)], accepted := s.accepted + [Ctl(s.nextId)])
  }

  lemma FlushEnters(s: State, sd: bool)
    requires Comes(s) && s.rm.Free? && s.targets != [] && !s.shut && |s.lin| < s.lcap
    ensures Comes(FlushIn(s, sd))
  {
    var id := s.nextId;
    Then(s, OfCaller(CFlush(sd)));
    var s1 := s.(calls := s.calls[id := Check(sd)], nextId := id + 1);
    assert CApply(s, CFlush(sd)) == s1;
    Then(s1, OfCaller(CCheck(id)));
    var s2 := s1.(calls := s.calls[id := Enq(Ctl(id), false, sd)]);
    assert s1.calls[id := Enq(Ctl(id), false, sd)] == s2.calls;
    Then(s2, OfCaller(CPush(id)));
    assert s2.calls[id := Await(sd)] == s.calls[id := Await(sd)];
  }

  /** A log record enters lgr.in. */
  function RecIn(s: State, lvl: nat): State {
    s.(nextId := s.nextId + 1, lin := s.lin + [Data(Rec(s.nextId, lvl))], accepted := s.accepted
        + [Data(Rec(s.nextId, lvl))])
  }

  lemma RecEnters(s: State, lvl: nat)
    requires Comes(s) && !s.shut && |s.lin| < s.lcap && s.nextId !in s.calls
    ensures Comes(RecIn(s, lvl))
  {
    var id, m := s.nextId, Data(Rec(s.nextId, lvl));
    Then(s, OfCaller(CLog(lvl)));
    var s1 := s.(calls := s.calls[id := Enq(m, false, false)], nextId := id + 1);
    assert CApply(s, CLog(lvl)) == s1;
    Then(s1, OfCaller(CPush(id)));
    assert s1.calls - {id} == s.calls;
  }

  /** The loop takes the only message in lgr.in, a flush record, and gets to its first host. */
  function Begun(s: State, f: nat): State {
    s.(lin := [], popped := s.popped + [Ctl(f)], loop := At(FlushHosts(f), 0))
  }

  lemma FlushBegins(s: State, f: nat)
    requires Comes(s) && s.loop.Select? && s.lin == [Ctl(f)] && s.rm.Free?
    ensures Comes(Begun(s, f))
  {
    Then(s, OfLoop(LPop));
    var s1 := s.(lin := [], popped := s.popped + [Ctl(f)], loop := Drain(f));
    assert LApply(s, LPop) == s1;
    Then(s1, OfLoop(LDrained));
    Then(s1.(loop := Locking(f)), OfLoop(LLock));
  }

  /** At the one host, the loop enters `Log` with a message. */
  lemma LogBegins(s: State, m: Msg)
    requires Comes(s) && s.loop.At? && s.loop.i == 0 && s.targets == [0] && |s.hosts| == 1
    requires m == Payload(s) && Lists(s.hosts[0], m) && !s.hosts[0].shut
    ensures Comes(s.(loop := Sel(s.loop.job, 0, m), nextId := if m.Ctl? then s.nextId + 1 else s.nextId))
  {
    LogPasses(s, m);
    Then(s, OfLog(GPass));
  }

  lemma LogPasses(s: State, m: Msg)
    requires s.loop.At? && s.loop.i == 0 && s.targets == [0] && |s.hosts| == 1
    requires m == Payload(s) && Lists(s.hosts[0], m) && !s.hosts[0].shut
    ensures GEnabled(s, GPass)
    ensures GApply(s, GPass) == s.(loop := Sel(s.loop.job, 0, m), nextId := if m.Ctl? then s.nextId + 1 else s.nextId)
  {
    assert s.hosts[0 := s.hosts[0]] == s.hosts;
  }

  /** And there is room. */
  lemma LogSends(s: State, m: Msg)
    requires Comes(s) && s.loop.Sel? && s.loop.i == 0 && s.loop.m == m && s.targets == [0] && |s.hosts| == 1
    requires |s.hosts[0].q| < s.hosts[0].cap
    ensures Comes(s.(loop := Goto(s.loop.job, 0, m, GSend), hosts := [Enlist(s.hosts[0], m, false)]))
  {
    Then(s, OfLog(GSend));
    assert s.hosts[0 := Enlist(s.hosts[0], m, false)] == [Enlist(s.hosts[0], m, false)];
  }

  /** The one host takes a step. */
  lemma HostDoes(s: State, hs: HStep)
    requires Comes(s) && |s.hosts| == 1 && HEnabled(s.hosts[0], hs)
    ensures Comes(s.(hosts := [HApply(s.hosts[0], hs)]))
  {
    Then(s, OfHost(0, hs));
    assert s.hosts[0 := HApply(s.hosts[0], hs)] == [HApply(s.hosts[0], hs)];
  }

  // ---- a first host, a first flush ------------------------------------------------------------------

  function Fresh(): Host { NewHost(1, {0}, 0) }

  /** One registered host listing level 0; nothing has happened yet. */
  function Start(): State {
    Init(1).(hosts := [Fresh()], targets := [0])
  }

  lemma InitComes(lcap: nat)
    ensures Comes(Init(lcap))
  {}

  lemma StartReachable()
    ensures Comes(Start())
  {
    InitComes(1);
    Then(Init(1), OfTargets(TAddCheck));
    var s := TApply(Init(1), TAddCheck);
    Then(s, OfTargets(TAdd(1, {0})));
    assert TApply(s, TAdd(1, {0})) == Start();
  }

  /** Shutdown's flush record has just entered lgr.in. */
  function FlushQueued(): State { FlushIn(Start(), true) }

  lemma FlushQueuedReachable()
    ensures Comes(FlushQueued())
  {
    StartReachable();
    FlushEnters(Start(), true);
  }

  /** The condition for a certain acknowledgement is met by a run, with the flush still in lgr.in. */
  lemma DueReachable() returns (s: State)
    ensures Reachable(s) && Steady(s) && Due(s, 0) && 0 !in s.acked && Ctl(0) in s.lin
  {
    FlushQueuedReachable();
    s := FlushQueued();
    ComesReachable(s);
    ReachableInv(s);
    assert s.lin[0] == Ctl(0);
  }

  /** The same host after it has served one flush, whose nested flush record had id 1. */
  function Served(): Host {
    Fresh().(hist := [Offer(Ctl(1), Admit, false)], taken := [Taken(Ctl(1), Outcome.Served)])
  }

  /** The loop is about to signal Shutdown. */
  function Signal(): State {
    Start().(calls := map[0 := Await(true)], nextId := 2, hosts := [Served()],
             accepted := [Ctl(0)], popped := [Ctl(0)], loop := Ack(0))
  }

  lemma SignalReachable()
    ensures Comes(Signal())
  {
    FlushQueuedReachable();
    var s0 := FlushQueued();
    FlushBegins(s0, 0);
    var s1 := Begun(s0, 0);
    LogBegins(s1, Ctl(1));
    var s2 := s1.(loop := Sel(FlushHosts(0), 0, Ctl(1)), nextId := 2);
    LogSends(s2, Ctl(1));
    var h := Fresh().(q := [Ctl(1)], hist := [Offer(Ctl(1), Admit, false)]);
    assert Enlist(Fresh(), Ctl(1), false) == h;
    SignalNear(s2.(loop := Wait(0, 0, 1), hosts := [h]));
  }

  lemma SignalNear(s: State)
    requires Comes(s)
    requires s == Signal().(loop := Wait(0, 0, 1),
        hosts := [Fresh().(q := [Ctl(1)], hist := [Offer(Ctl(1), Admit, false)])])
    ensures Comes(Signal())
  {
    HostDoes(s, Pop);
    var h := Served().(pc := Draining(1));
    assert HApply(s.hosts[0], Pop) == h;
    var s1 := s.(hosts := [h]);
    HostDoes(s1, DrainEnd);
    assert HApply(h, DrainEnd) == Served().(pc := Signalling(1));
    SignalNext(s.(hosts := [Served().(pc := Signalling(1))]));
  }

  lemma SignalNext(s: State)
    requires Comes(s) && s == Signal().(loop := Wait(0, 0, 1), hosts := [Served().(pc := Signalling(1))])
    ensures Comes(Signal())
  {
    Then(s, OfLoop(LNext));
    assert HereHost(s).(pc := Idle) == Served();
    assert s.hosts[0 := Served()] == [Served()];
    Then(s.(hosts := [Served()], loop := At(FlushHosts(0), 1)), OfLoop(LEnd));
  }

  /** Shutdown's flush has just been acknowledged. */
  function AfterFlush(): State {
    Signal().(calls := map[0 := Flushed(Some(0))], loop := Select, acked := {0})
  }

  lemma AfterFlushReachable()
    ensures Comes(AfterFlush())
  {
    SignalReachable();
    Then(Signal(), OfLoop(LAck));
    assert LApply(Signal(), LAck) == AfterFlush();
  }

  // ---- flushes that come to nothing -----------------------------------------------------------------

  /** A flush queued behind another one that the loop is draining for is discarded. */
  lemma SecondFlushDiscarded() returns (s: State, f: nat)
    ensures Reachable(s) && Awaiting(s, f) && Discarded(s, f)
  {
    StartReachable();
    FlushEnters(Start(), false);
    var s0 := FlushIn(Start(), false);
    Then(s0, OfLoop(LPop));
    var s1 := s0.(lin := [], popped := [Ctl(0)], loop := Drain(0));
    assert LApply(s0, LPop) == s1;
    FlushEnters(s1, false);
    var s2 := FlushIn(s1, false);
    assert s2.lin == [Ctl(1)];
    ComesReachable(s2);
    ReachableInv(s2);
    DrainDiscards(s2, 1);
    Then(s2, OfLoop(LPop));
    s, f := LApply(s2, LPop), 1;
    LFrame(s2, LPop);
    ComesReachable(s);
  }

  /** The flush caller gives up while the loop waits to signal it. */
  lemma GiveUpReachable() returns (s: State)
    ensures Reachable(s) && s.loop.Ack? && Wedged(s)
  {
    SignalReachable();
    ComesReachable(Signal());
    ReachableInv(Signal());
    GiveUpWedges(Signal());
    Then(Signal(), OfCaller(CGiveUp(0)));
    s := CApply(Signal(), CGiveUp(0));
    ComesReachable(s);
  }

  /** The host's queue holds a record, and the handler asks to drop the nested flush record. */
  lemma NestedDropReachable() returns (s: State)
    ensures Reachable(s) && s.loop.Wait? && Awaiting(s, s.loop.f) && Wedged(s) && s.hosts[0].dropped == 1
  {
    var s0 := RecordQueued();
    FlushEnters(s0, false);
    FlushBegins(FlushIn(s0, false), 1);
    var s1 := Begun(FlushIn(s0, false), 1);
    LogBegins(s1, Ctl(2));
    var s2 := s1.(loop := Sel(FlushHosts(1), 0, Ctl(2)), nextId := 3);
    ComesReachable(s2);
    ReachableInv(s2);
    LostNestedFlushWedges(s2, GDrop);
    Then(s2, OfLog(GDrop));
    s := GApply(s2, GDrop);
    ComesReachable(s);
  }

  lemma RecordQueued() returns (s: State)
    ensures Comes(s) && s.loop.Select? && s.rm.Free? && s.targets == [0] && !s.shut && s.lin == [] && s.lcap == 1
    ensures s.nextId == 1 && s.calls == map[]
    ensures |s.hosts| == 1 && |s.hosts[0].q| == 1 == s.hosts[0].cap && !s.hosts[0].shut && s.hosts[0].dropped == 0
  {
    StartReachable();
    RecEnters(Start(), 0);
    var s0, r := RecIn(Start(), 0), Rec(0, 0);
    Then(s0, OfLoop(LPop));
    var s1 := s0.(lin := [], popped := [Data(r)], loop := Popped(r, None));
    assert LApply(s0, LPop) == s1;
    Then(s1, OfLoop(LLock));
    var s2 := s1.(loop := At(FanOut(r, None), 0), fanned := [r]);
    assert LApply(s1, LLock) == s2;
    s := RecordSent(s2, r);
  }

  lemma RecordSent(s2: State, r: Rec) returns (s: State)
    requires Comes(s2) && s2.loop == At(FanOut(r, None), 0) && s2.targets == [0] && s2.hosts == [Fresh()] && r.lvl == 0
    ensures Comes(s) && s == s2.(loop := Select, hosts := [Enlist(Fresh(), Data(r), false)])
  {
    LogBegins(s2, Data(r));
    var s3 := s2.(loop := Sel(FanOut(r, None), 0, Data(r)));
    LogSends(s3, Data(r));
    var s4 := s3.(loop := At(FanOut(r, None), 1), hosts := [Enlist(Fresh(), Data(r), false)]);
    Then(s4, OfLoop(LEnd));
    s := LApply(s4, LEnd);
  }

  // ---- Shutdown closing in ----------------------------------------------------------------------------

  /** Shutdown, having flushed through `via`, has set the flag and closed lgr.quit. */
  function Closed(s: State, id: nat, via: Option<nat>): State {
    s.(shut := true, quits := 1, calls := s.calls - {id}, sd := Waiting(via))
  }

  lemma ShutdownCloses(s: State, id: nat, via: Option<nat>)
    requires Comes(s) && id in s.calls && s.calls[id] == Flushed(via) && !s.shut && s.quits == 0
    ensures Comes(Closed(s, id, via))
  {
    Then(s, OfCaller(CSwap(id)));
    var s1 := s.(shut := true, sd := Closing(via), calls := s.calls - {id});
    assert CApply(s, CSwap(id)) == s1;
    Then(s1, OfTargets(TClose));
  }

  /** The loop sees quit, and Shutdown holds the read lock. */
  function Sweeping(s: State, id: nat, via: Option<nat>): State {
    Closed(s, id, via).(dones := 1, loop := Stopped, sd := Hosts(via, 0, Swapping, false))
  }

  lemma SweepReachable(s: State, id: nat, via: Option<nat>)
    requires Comes(s) && id in s.calls && s.calls[id] == Flushed(via) && !s.shut && s.quits == 0
    requires s.dones == 0 && s.loop == Select && s.rm == Free
    ensures Comes(Sweeping(s, id, via))
  {
    ShutdownCloses(s, id, via);
    var s1 := Closed(s, id, via);
    Then(s1, OfLoop(LQuit));
    var s2 := s1.(loop := Stopped, dones := 1);
    assert LApply(s1, LQuit) == s2;
    Then(s2, OfTargets(TDone));
    Then(s2.(sd := Relock(via, false)), OfTargets(TRelock));
  }

  /** Shutdown has told the reader of the one host to quit. */
  function Told(s: State): State
    requires s.sd.Hosts? && |s.hosts| == 1
  {
    s.(sd := s.sd.(k := AwaitingDone), hosts := [s.hosts[0].(shut := true, quits := s.hosts[0].quits + 1)])
  }

  lemma SweepTells(s: State)
    requires Comes(s) && s.sd == Hosts(Via(s), 0, Swapping, Err(s)) && s.targets == [0] && |s.hosts| == 1
    requires !s.hosts[0].shut
    ensures Comes(Told(s))
  {
    Then(s, OfKill(ByShutdown, KSwap));
    var h := s.hosts[0].(shut := true);
    var s1 := s.(sd := s.sd.(k := ClosingQuit), hosts := [h]);
    assert s.hosts[0 := h] == [h];
    assert KApply(s, ByShutdown, KSwap) == s1;
    Then(s1, OfKill(ByShutdown, KClose));
    KillsHost(s1, KClose);
  }

  function Via(s: State): Option<nat> { if s.sd.Hosts? then s.sd.via else None }

  function Err(s: State): bool { s.sd.Hosts? && s.sd.err }

  /** One step of shutting down the one host, other than the first. */
  lemma KillsHost(s: State, k: KillStep)
    requires KEnabled(s, ByShutdown, k) && !k.KSwap? && s.targets == [0] && |s.hosts| == 1
    ensures KApply(s, ByShutdown, k).hosts == [KillEffect(s.hosts[0], k)]
    ensures KApply(s, ByShutdown, k) == (if k.KStop? then ToNext(s, ByShutdown, !k.ok)
                                         else ToPhase(s, ByShutdown, if k.KClose? then AwaitingDone else Stopping))
                                        .(hosts := [KillEffect(s.hosts[0], k)])
  {
    assert s.hosts[0 := KillEffect(s.hosts[0], k)] == [KillEffect(s.hosts[0], k)];
  }

  /** Shutdown is done with the one host, having waited for its reader or not. */
  function Swept(s: State, expired: bool): State
    requires s.sd.Hosts? && |s.hosts| == 1
  {
    var h := s.hosts[0];
    s.(sd := s.sd.(j := 1, k := Swapping), hosts := [h.(expired := h.expired || expired, stops := h.stops + 1)])
  }

  lemma SweepStops(s: State, expired: bool)
    requires Comes(s) && s.sd == Hosts(Via(s), 0, AwaitingDone, false) && s.targets == [0] && |s.hosts| == 1
    requires expired || s.hosts[0].pc.Exited?
    ensures Comes(Swept(s, expired))
  {
    var k := if expired then KExpire else KDone;
    Then(s, OfKill(ByShutdown, k));
    KillsHost(s, k);
    var s1 := s.(sd := s.sd.(k := Stopping), hosts := [KillEffect(s.hosts[0], k)]);
    assert KApply(s, ByShutdown, k) == s1;
    SweepEnds(s1);
  }

  lemma SweepEnds(s: State)
    requires Comes(s) && s.sd == Hosts(Via(s), 0, Stopping, false) && s.targets == [0] && |s.hosts| == 1
    ensures Comes(s.(sd := s.sd.(j := 1, k := Swapping), hosts := [KillEffect(s.hosts[0], KStop(true))]))
  {
    Then(s, OfKill(ByShutdown, KStop(true)));
    KillsHost(s, KStop(true));
  }

  /**
   The context can expire while Shutdown waits for a host; TargetHost.Shutdown then goes on and
   reports nothing, so Shutdown returns nil although that host's reader has not exited.
   */
  lemma NilWithReaderAlive() returns (s: State)
    ensures Reachable(s) && ReturningNil(s) && s.sd.via == Some(0) && s.accepted == [Ctl(0)]
    ensures s.targets == [0] && |s.hosts| == 1 && s.hosts[0].stops == 1 && s.hosts[0].pc.Idle?
  {
    AfterFlushReachable();
    SweepReachable(AfterFlush(), 0, Some(0));
    var s0 := Sweeping(AfterFlush(), 0, Some(0));
    SweepTells(s0);
    SweepStops(Told(s0), true);
    s := Swept(Told(s0), true);
    ComesReachable(s);
  }

  /**
   A record accepted between Shutdown's flush and its flag can stay in lgr.in: with targets, no context
   expired and the reader gone, Shutdown returns nil.
   */
  lemma NilWithLateRecord() returns (s: State)
    ensures Reachable(s) && ReturningNil(s) && s.sd.via == Some(0) && s.lin == [Data(Rec(2, 0))]
    ensures s.accepted == [Ctl(0), Data(Rec(2, 0))]
    ensures s.targets == [0] && |s.hosts| == 1 && s.hosts[0].pc.Exited? && !s.hosts[0].expired
  {
    AfterFlushReachable();
    RecEnters(AfterFlush(), 0);
    var s0 := RecIn(AfterFlush(), 0);
    SweepReachable(s0, 0, Some(0));
    var s1 := Sweeping(s0, 0, Some(0));
    SweepTells(s1);
    s := LateEnd(Told(s1));
    ComesReachable(s);
  }

  lemma LateEnd(s0: State) returns (s: State)
    requires Comes(s0) && s0.sd == Hosts(Some(0), 0, AwaitingDone, false) && s0.targets == [0]
    requires s0.hosts == [Served().(shut := true, quits := 1)]
    ensures Comes(s) && s == s0.(sd := Hosts(Some(0), 1, Swapping, false), hosts := s.hosts)
    ensures |s.hosts| == 1 && s.hosts[0].pc.Exited? && !s.hosts[0].expired
  {
    HostDoes(s0, Quit);
    var s1 := s0.(hosts := [HApply(s0.hosts[0], Quit)]);
    SweepStops(s1, false);
    s := Swept(s1, false);
  }

  /**
   With no targets FlushWithTimeout returns nil at once, without flushing: a record accepted just
   after the last target was removed stays in lgr.in, and Shutdown returns nil.
   */
  lemma NilWithRecordStranded() returns (s: State)
    ensures Reachable(s) && ReturningNil(s) && s.sd.via.None? && s.lin == [Data(Rec(0, 0))] && s.loop.Stopped?
  {
    StartReachable();
    var s0 := LastTargetGone(Start());
    RecEnters(s0, 0);
    var s1 := RecIn(s0, 0);
    Then(s1, OfCaller(CFlush(true)));
    var s2 := s1.(calls := map[1 := Flushed(None)], nextId := 2);
    assert CApply(s1, CFlush(true)) == s2;
    SweepReachable(s2, 1, None);
    s := Sweeping(s2, 1, None);
    ComesReachable(s);
  }

  /** RemoveTargets removes the one target, giving up the wait for its reader. */
  lemma LastTargetGone(s0: State) returns (s: State)
    requires Comes(s0) && s0.hosts == [Fresh()] && s0.targets == [0]
    requires s0.rm.Free? && s0.loop.Select? && s0.sd.Up?
    ensures Comes(s) && s == s0.(hosts := s.hosts, targets := [])
  {
    Then(s0, OfTargets(TRemove({0})));
    var s1 := s0.(rm := Removing({0}, 0, Swapping, [], false));
    Then(s1, OfKill(ByRemove, KSwap));
    var h := Fresh().(shut := true);
    var s2 := s0.(rm := Removing({0}, 0, ClosingQuit, [], false), hosts := [h]);
    assert s1.hosts[0 := h] == [h];
    assert KApply(s1, ByRemove, KSwap) == s2;
    s := RemoveFrom(s0, ClosingQuit, h);
  }

  /** RemoveTargets goes on with the one target, from any phase of shutting it down. */
  lemma RemoveFrom(s0: State, k: Kill, h: Host) returns (s: State)
    requires s0.targets == [0] && s0.rm.Free? && s0.sd.Up? && !k.Swapping?
    requires Comes(s0.(rm := Removing({0}, 0, k, [], false), hosts := [h]))
    ensures Comes(s) && s == s0.(hosts := s.hosts, targets := [])
    decreases if k.ClosingQuit? then 2 else if k.AwaitingDone? then 1 else 0
  {
    var s1 := s0.(rm := Removing({0}, 0, k, [], false), hosts := [h]);
    var st := if k.ClosingQuit? then KClose else if k.AwaitingDone? then KExpire else KStop(true);
    Then(s1, OfKill(ByRemove, st));
    var h' := KillEffect(h, st);
    assert s1.hosts[0 := h'] == [h'];
    if k.Stopping? {
      s := RemoveEnds(s0, KApply(s1, ByRemove, st), h');
    } else {
      s := RemoveFrom(s0, if k.ClosingQuit? then AwaitingDone else Stopping, h');
    }
  }

  lemma RemoveEnds(s0: State, s1: State, h: Host) returns (s: State)
    requires s0.targets == [0] && s0.rm.Free? && Comes(s1)
    requires s1 == s0.(rm := Removing({0}, 1, Swapping, [], false), hosts := [h])
    ensures Comes(s) && s == s0.(hosts := s.hosts, targets := [])
  {
    Then(s1, OfTargets(TRemoved));
    s := TApply(s1, TRemoved);
  }

  // ---- a nested flush record left behind ------------------------------------------------------------------

  /**
   A second flush has its nested record queued when Shutdown, whose context expires before the loop
   exits, tells the reader to quit. The reader may quit first; the second flush is then never
   acknowledged although its caller still waits and nothing was dropped or timed out.
   */
  lemma NestedAbandoned() returns (s: State)
    ensures Reachable(s) && s.loop == Wait(2, 0, 3) && Awaiting(s, 2) && Wedged(s)
    ensures s.targets == [0] && |s.hosts| == 1 && s.hosts[0].pc.Exited? && s.hosts[0].q == [Ctl(3)]
  {
    AfterFlushReachable();
    FlushEnters(AfterFlush(), false);
    var s0 := FlushIn(AfterFlush(), false);
    assert s0.lin == [Ctl(2)];
    FlushBegins(s0, 2);
    var s1 := Begun(s0, 2);
    LogBegins(s1, Ctl(3));
    var s2 := s1.(loop := Sel(FlushHosts(2), 0, Ctl(3)), nextId := 4);
    LogSends(s2, Ctl(3));
    var h := Enlist(Served(), Ctl(3), false);
    var s3 := s2.(loop := Wait(2, 0, 3), hosts := [h]);
    s := Abandoned(s3, h);
    ComesReachable(s);
  }

  lemma Abandoned(s0: State, h: Host) returns (s: State)
    requires Comes(s0) && s0.loop == Wait(2, 0, 3) && s0.calls == map[0 := Flushed(Some(0)), 2 := Await(false)]
    requires !s0.shut && s0.quits == 0 && s0.rm.Free? && s0.targets == [0] && s0.hosts == [h]
    requires h.pc.Idle? && h.q == [Ctl(3)] && !h.shut && h.quits == 0
    ensures Comes(s) && s.loop == Wait(2, 0, 3) && Awaiting(s, 2) && Wedged(s)
    ensures s.targets == [0] && |s.hosts| == 1 && s.hosts[0].pc.Exited? && s.hosts[0].q == [Ctl(3)]
  {
    ShutdownCloses(s0, 0, Some(0));
    var s1 := Closed(s0, 0, Some(0));
    Then(s1, OfTargets(TExpire));
    var s2 := s1.(sd := Relock(Some(0), true));
    Then(s2, OfTargets(TRelock));
    var s3 := s1.(sd := Hosts(Some(0), 0, Swapping, true));
    SweepTells(s3);
    HostDoes(Told(s3), Quit);
    s := Told(s3).(hosts := [HApply(Told(s3).hosts[0], Quit)]);
  }

  // ---- flush records that never get to the loop -------------------------------------------------------------

  /** lgr.in is full, and the handler asks to drop the flush record: its caller waits for nothing. */
  lemma FlushTurnedAway() returns (s: State)
    ensures Reachable(s) && Awaiting(s, 1) && TurnedAway(s, 1)
  {
    StartReachable();
    RecEnters(Start(), 0);
    var s0 := RecIn(Start(), 0);
    Then(s0, OfCaller(CFlush(false)));
    var s1 := s0.(calls := map[1 := Check(false)], nextId := 2);
    assert CApply(s0, CFlush(false)) == s1;
    Then(s1, OfCaller(CCheck(1)));
    var s2 := s1.(calls := map[1 := Enq(Ctl(1), false, false)]);
    assert CApply(s1, CCheck(1)) == s2;
    Then(s2, OfCaller(CDrop(1)));
    s := CApply(s2, CDrop(1));
    ComesReachable(s);
  }

  /** A flush record still in lgr.in when the loop, told to quit, quits. */
  lemma FlushLeftBehind() returns (s: State)
    ensures Reachable(s) && Awaiting(s, 2) && s.loop.Stopped? && s.lin == [Ctl(2)] && 2 !in s.acked
  {
    AfterFlushReachable();
    FlushEnters(AfterFlush(), false);
    var s0 := FlushIn(AfterFlush(), false);
    SweepReachable(s0, 0, Some(0));
    s := Sweeping(s0, 0, Some(0));
    ComesReachable(s);
  }
}
