/**
 Where the pipeline's promises end: flushes that no continuation of a run can acknowledge, and a read
 loop that no continuation can move.
 */
module PipelineLimits {
  import opened Basics
  import opened TargetHost
  import opened Pipeline
  import opened PipelineInvariant
  import opened PipelineProtocol
  import opened PipelineTheorems
  import opened FlushProgress

  // ---- flushes that are never acknowledged ---------------------------------------------------------------

  /** Flush f has left lgr.in, was not acknowledged, and the read loop is not busy with it. */
  ghost predicate Discarded(s: State, f: nat) {
    Ctl(f) in s.popped && f !in s.acked && Serving(s.loop) != Some(f)
  }

  lemma DiscardedFrame(s: State, st: Step)
    requires Enabled(s, st) && !st.OfLoop?
    ensures Apply(s, st).popped == s.popped && Apply(s, st).acked == s.acked
    ensures Serving(Apply(s, st).loop) == Serving(s.loop)
  {
    match st
    case OfLog(g) => GFrame(s, g);
    case OfCaller(c) => CFrame(s, c);
    case OfTargets(t) => TFrame(s, t);
    case OfHost(_, _) =>
    case OfKill(who, k) => KFrame(s, who, k);
  }

  lemma DiscardedSame(s: State, s': State, f: nat)
    requires Discarded(s, f) && s'.popped == s.popped && s'.acked == s.acked && Serving(s'.loop) == Serving(s.loop)
    ensures Discarded(s', f)
  {}

  lemma DiscardedStep(s: State, st: Step, f: nat)
    requires Inv(s) && Discarded(s, f) && Enabled(s, st)
    ensures Discarded(Apply(s, st), f)
  {
    if st.OfLoop? {
      DiscardedStepL(s, st.l, f);
    } else {
      DiscardedFrame(s, st);
      DiscardedSame(s, Apply(s, st), f);
    }
  }

  lemma DiscardedStepL(s: State, l: LStep, f: nat)
    requires Fifo(s) && Ids(s) && Discarded(s, f) && LEnabled(s, l)
    ensures Discarded(LApply(s, l), f)
  {
    if l.LPop? {
      var i :| 0 <= i < |s.popped| && s.popped[i] == Ctl(f);
      assert s.accepted[i] == Ctl(f) && s.accepted[|s.popped|] == s.lin[0];
    }
  }

  lemma HeadIsNew(s: State)
    requires Fifo(s) && Ids(s) && s.lin != []
    ensures s.lin[0] !in s.popped
  {
    assert s.accepted[|s.popped|] == s.lin[0];
    forall i | 0 <= i < |s.popped| ensures s.popped[i] != s.lin[0] {
      assert s.accepted[i] == s.popped[i];
    }
  }

  /** A flush record taken while another flush drains lgr.in is discarded on the spot. */
  lemma DrainDiscards(s: State, f: nat)
    requires Inv(s) && s.loop.Drain? && s.lin != [] && s.lin[0] == Ctl(f)
    ensures Discarded(LApply(s, LPop), f)
  {
    HeadIsNew(s);
    assert (s.popped + [s.lin[0]])[|s.popped|] == Ctl(f);
  }

  /** A discarded flush is never acknowledged: its caller can only time out. */
  lemma {:induction false} DiscardedForever(s: State, steps: seq<Step>, f: nat)
    requires Inv(s) && Discarded(s, f) && Exec(s, steps).Some?
    ensures f !in Exec(s, steps).value.acked
    ensures Discarded(Exec(s, steps).value, f)
  {
    if steps != [] {
      DiscardedForever(s, Front(steps), f);
      ExecKeepsInv(s, Front(steps));
      DiscardedStep(Exec(s, Front(steps)).value, Last(steps), f);
    }
  }

  // ---- a read loop that never moves again ---------------------------------------------------------------

  /** The reader can still get to signalling nested flush n. */
  predicate CanSignal(h: Host, n: nat) {
    h.pc == Draining(n) || h.pc == Signalling(n) || (Ctl(n) in h.q && !h.pc.Exited?)
  }

  /**
   The read loop is about to signal a caller that has gone, or waits for a nested flush record that got
   nowhere or was left behind by a reader that quit.
   */
  ghost predicate Wedged(s: State) {
    || (s.loop.Ack? && !Awaiting(s, s.loop.f))
    || (s.loop.Wait? && AtHost(s) && !CanSignal(HereHost(s), s.loop.n))
  }

  lemma WedgedStuck(s: State, l: LStep)
    requires Wedged(s)
    ensures !LEnabled(s, l)
  {}

  lemma WedgedStep(s: State, st: Step)
    requires Inv(s) && Wedged(s) && Enabled(s, st)
    ensures Wedged(Apply(s, st)) && Apply(s, st).loop == s.loop
  {
    match st
    case OfLoop(l) => WedgedStuck(s, l); assert false;
    case OfLog(g) => assert false;
    case OfCaller(c) => WedgedStepC(s, c);
    case OfTargets(t) => WedgedStepT(s, t);
    case OfHost(h, hs) => WedgedStepH(s, h, hs);
    case OfKill(who, k) => WedgedStepK(s, who, k);
  }

  /** A flush whose record has entered lgr.in cannot come back to waiting. */
  lemma AwaitsNoMore(s: State, c: CStep, f: nat)
    requires Ids(s) && Ctl(f) in s.accepted && !Awaiting(s, f) && CEnabled(s, c)
    ensures !Awaiting(CApply(s, c), f)
  {
    var i :| 0 <= i < |s.accepted| && s.accepted[i] == Ctl(f);
    assert Id(s.accepted[i]) == f;
    assert f in s.calls ==> CallOk(s.accepted, f, s.calls[f]);
  }

  lemma WedgedStepC(s: State, c: CStep)
    requires Inv(s) && Wedged(s) && CEnabled(s, c)
    ensures Wedged(CApply(s, c)) && CApply(s, c).loop == s.loop
  {
    CFrame(s, c);
    if s.loop.Ack? {
      assert s.popped <= s.accepted;
      assert Ctl(s.loop.f) in s.popped;
      AwaitsNoMore(s, c, s.loop.f);
    }
  }

  lemma WedgedStepT(s: State, t: TStep)
    requires Shape(s) && Wedged(s) && TEnabled(s, t)
    ensures Wedged(TApply(s, t)) && TApply(s, t).loop == s.loop
  {}

  lemma SignalsNoMore(h: Host, st: HStep, n: nat)
    requires HEnabled(h, st) && CtlInv(h, Some(n)) && !CanSignal(h, n)
    ensures !CanSignal(HApply(h, st), n)
  {}

  lemma WedgedStepH(s: State, h: nat, hs: HStep)
    requires CtlAll(s) && Wedged(s) && Enabled(s, OfHost(h, hs))
    ensures Wedged(Apply(s, OfHost(h, hs))) && Apply(s, OfHost(h, hs)).loop == s.loop
  {
    if s.loop.Wait? && Here(s) == h {
      assert CtlInv(s.hosts[h], AwaitedAt(s, h));
      SignalsNoMore(s.hosts[h], hs, s.loop.n);
    }
  }

  lemma WedgedStepK(s: State, who: Who, k: KillStep)
    requires Shape(s) && Wedged(s) && KEnabled(s, who, k)
    ensures Wedged(KApply(s, who, k)) && KApply(s, who, k).loop == s.loop
  {
    KFrame(s, who, k);
    KHosts(s, who, k);
  }

  /** A flush caller that gives up while the loop waits to signal it wedges the loop. */
  lemma GiveUpWedges(s: State)
    requires Inv(s) && s.loop.Ack? && CEnabled(s, CGiveUp(s.loop.f))
    ensures Wedged(CApply(s, CGiveUp(s.loop.f)))
  {}

  /** So does a nested flush record that is refused, dropped or timed out. */
  lemma LostNestedFlushWedges(s: State, g: LogStep)
    requires Inv(s) && GEnabled(s, g) && s.loop.job.FlushHosts? && (g.GRefuse? || g.GDrop? || g.GExpire?)
    ensures Wedged(GApply(s, g))
  {
    assert CtlInv(HereHost(s), AwaitedAt(s, Here(s)));
  }

  /** And a reader that exits before it has taken the nested flush record. */
  lemma QuitWedges(s: State)
    requires Inv(s) && s.loop.Wait? && Enabled(s, OfHost(Here(s), Quit))
    ensures Wedged(Apply(s, OfHost(Here(s), Quit)))
  {}

  /** No continuation moves a wedged loop: it takes nothing more from lgr.in and acknowledges nothing. */
  lemma {:induction false} WedgedForever(s: State, steps: seq<Step>)
    requires Inv(s) && Wedged(s) && Exec(s, steps).Some?
    ensures Exec(s, steps).value.loop == s.loop && Wedged(Exec(s, steps).value)
    ensures Exec(s, steps).value.popped == s.popped && Exec(s, steps).value.acked == s.acked
  {
    if steps != [] {
      WedgedForever(s, Front(steps));
      ExecKeepsInv(s, Front(steps));
      WedgedStep(Exec(s, Front(steps)).value, Last(steps));
      LoopOnly(Exec(s, Front(steps)).value, Last(steps));
    }
  }

  /** Only the loop takes from lgr.in and acknowledges. */
  lemma LoopOnly(s: State, st: Step)
    requires Enabled(s, st)
    ensures !st.OfLoop? ==> Apply(s, st).popped == s.popped && Apply(s, st).acked == s.acked
    ensures st.OfLoop? && Apply(s, st).loop == s.loop ==> Apply(s, st).acked == s.acked
    ensures st.OfLoop? && (s.loop.Ack? || s.loop.Wait? || s.loop.Stopped?) ==> Apply(s, st).loop != s.loop
  {
    match st
    case OfLoop(l) => LFrame(s, l);
    case OfLog(g) => GFrame(s, g);
    case OfCaller(c) => CFrame(s, c);
    case OfTargets(t) => TFrame(s, t);
    case OfHost(_, _) =>
    case OfKill(who, k) => KFrame(s, who, k);
  }

  /** A wait the reader can end, carried on until the loop moves. */
  lemma {:induction false} WaitEnds(s: State, steps: seq<Step>) returns (all: seq<Step>)
    requires Inv(s) && s.loop.Wait? && Exec(s, steps).Some?
    requires Exec(s, steps).value.loop == s.loop && !Wedged(Exec(s, steps).value)
    ensures Exec(s, all).Some? && Exec(s, all).value.loop != s.loop
    decreases Work(Exec(s, steps).value)
  {
    ExecKeepsInv(s, steps);
    var t := Exec(s, steps).value;
    WorkNonNegative(t);
    var st := SignalNears(t);
    var more := steps + [st];
    assert Front(more) == steps && Last(more) == st;
    if st.OfLoop? {
      all := more;
    } else {
      StepWorks(t, st);
      InvKept(t, st);
      WorkNonNegative(Apply(t, st));
      all := WaitEnds(s, more);
    }
  }

  lemma SignalNears(s: State) returns (st: Step)
    requires Inv(s) && s.loop.Wait? && !Wedged(s)
    ensures Enabled(s, st) && (st == OfLoop(LNext) || st.OfHost?)
    ensures st.OfHost? ==> Apply(s, st).loop == s.loop && !Wedged(Apply(s, st))
  {
    var h := Here(s);
    assert CtlInv(s.hosts[h], AwaitedAt(s, h));
    if s.hosts[h].pc == Signalling(s.loop.n) {
      st := OfLoop(LNext);
    } else {
      st := ReaderMoves(s, h);
      StillSignals(s.hosts[h], st.st, s.loop.n);
    }
  }

  lemma StillSignals(h: Host, st: HStep, n: nat)
    requires CtlInv(h, Some(n)) && CanSignal(h, n) && HEnabled(h, st) && !st.Quit?
    ensures CanSignal(HApply(h, st), n)
  {}

  lemma ExecOne(s: State, st: Step)
    requires Enabled(s, st)
    ensures Exec(s, [st]) == Some(Apply(s, st))
  {
    assert Front([st]) == [] && Last([st]) == st;
    assert Exec(s, []) == Some(s);
  }

  /**
   The exact condition for the two waits of `flush`: some continuation moves the loop on if and only if
   it is not wedged.
   */
  lemma LoopMovesIff(s: State)
    requires Inv(s) && (s.loop.Wait? || s.loop.Ack?)
    ensures (exists steps :: Exec(s, steps).Some? && Exec(s, steps).value.loop != s.loop) <==> !Wedged(s)
  {
    if Wedged(s) {
      forall steps | Exec(s, steps).Some? ensures Exec(s, steps).value.loop == s.loop {
        WedgedForever(s, steps);
      }
    } else if s.loop.Ack? {
      ExecOne(s, OfLoop(LAck));
    } else {
      assert Exec(s, []) == Some(s);
      var all := WaitEnds(s, []);
    }
  }

  // ---- flushes that never get to the loop --------------------------------------------------------------

  /** Flush f is past `enqueue`, which dropped its record or timed out. */
  predicate TurnedAway(s: State, f: nat) {
    f < s.nextId && Ctl(f) !in s.accepted && (f in s.calls ==> !s.calls[f].Check? && !s.calls[f].Enq?)
  }

  lemma TurnedAwayStep(s: State, st: Step, f: nat)
    requires Ids(s) && TurnedAway(s, f) && Enabled(s, st)
    ensures TurnedAway(Apply(s, st), f)
  {
    match st
    case OfLoop(LAck) => TurnedAwayAck(s, f);
    case OfLoop(l) => LFrame(s, l);
    case OfLog(g) => GFrame(s, g);
    case OfCaller(c) => TurnedAwayC(s, c, f);
    case OfTargets(t) => TFrame(s, t);
    case OfHost(_, _) =>
    case OfKill(who, k) => KFrame(s, who, k);
  }

  lemma TurnedAwayAck(s: State, f: nat)
    requires TurnedAway(s, f) && LEnabled(s, LAck)
    ensures TurnedAway(LApply(s, LAck), f)
  {}

  lemma TurnedAwayC(s: State, c: CStep, f: nat)
    requires Ids(s) && TurnedAway(s, f) && CEnabled(s, c)
    ensures TurnedAway(CApply(s, c), f)
  {
    if c.CPush? { assert CallOk(s.accepted, c.id, s.calls[c.id]); }
  }

  /** A flush record that `enqueue` dropped or gave up on is never acknowledged; its caller waits for its timeout. */
  lemma {:induction false} TurnedAwayForever(s: State, steps: seq<Step>, f: nat)
    requires Inv(s) && TurnedAway(s, f) && Exec(s, steps).Some?
    ensures TurnedAway(Exec(s, steps).value, f) && f !in Exec(s, steps).value.acked
  {
    ExecKeepsInv(s, steps);
    if steps != [] {
      TurnedAwayForever(s, Front(steps), f);
      ExecKeepsInv(s, Front(steps));
      TurnedAwayStep(Exec(s, Front(steps)).value, Last(steps), f);
    }
    var t := Exec(s, steps).value;
    assert t.popped <= t.accepted;
  }

  /** Nor is any flush once the loop has returned, whatever is left in lgr.in. */
  lemma {:induction false} StoppedForever(s: State, steps: seq<Step>)
    requires s.loop.Stopped? && Exec(s, steps).Some?
    ensures Exec(s, steps).value.loop.Stopped?
    ensures Exec(s, steps).value.popped == s.popped && Exec(s, steps).value.acked == s.acked
  {
    if steps != [] {
      StoppedForever(s, Front(steps));
      LoopOnly(Exec(s, Front(steps)).value, Last(steps));
      StaysStopped(Exec(s, Front(steps)).value, Last(steps));
    }
  }

  lemma StaysStopped(s: State, st: Step)
    requires s.loop.Stopped? && Enabled(s, st)
    ensures Apply(s, st).loop.Stopped? && !st.OfLoop?
  {
    match st
    case OfLoop(l) => assert false;
    case OfLog(g) => assert false;
    case OfCaller(c) => CFrame(s, c);
    case OfTargets(t) => TFrame(s, t);
    case OfHost(_, _) =>
    case OfKill(who, k) => KFrame(s, who, k);
  }
}
