/**
 The parts of the invariant that tie the two stages together: which records a host has been
 brought, what a flush has drained, who may close what, and why a flushed pipeline stays quiet.
 */
module PipelineProtocol {
  import opened Basics
  import opened TargetHost
  import opened Pipeline
  import opened PipelineInvariant

  // ---- fan-out ----------------------------------------------------------------------------------

  predicate Fanning(l: Loop) { (l.At? || l.Sel? || l.Blk?) && l.job.FanOut? }

  /** 1 while a fan-out is in progress that has not dealt with the k-th target yet. */
  function Undecided(l: Loop, k: nat): nat {
    if Fanning(l) && l.i <= k then 1 else 0
  }

  ghost predicate Fanout(s: State) {
    && (forall h :: 0 <= h < |s.hosts| ==> BroughtInv(s.hosts[h], s.fanned))
    && (forall k :: 0 <= k < |s.targets| && s.targets[k] < |s.hosts| ==>
          Caught(s.hosts[s.targets[k]], s.fanned, Undecided(s.loop, k)))
  }

  /** A registered host has been brought everything fanned out since it was added, up to `lag`. */
  ghost predicate Caught(h: Host, fanned: seq<Rec>, lag: nat) {
    h.base + |Brought(h.hist)| + lag == |fanned|
  }

  /** `Log`, or the fan-out passing the host by, is over for a record. */
  predicate Delivers(t: Touch) { t.Logged? && t.m.Data? && !t.g.GPass? && !t.g.GBlock? }

  lemma HistAfter(h: Host, t: Touch)
    requires TouchGuard(h, t)
    ensures var h' := TouchHost(h, t);
      if !t.Logged? || t.g.GPass? || t.g.GBlock? then h'.hist == h.hist
      else h'.hist != [] && Front(h'.hist) == h.hist && RecOf(Last(h'.hist)) == if t.m.Data? then [t.m.r] else []
    ensures TouchHost(h, t).base == h.base
  {}

  lemma BroughtAfter(h: Host, t: Touch)
    requires TouchGuard(h, t)
    ensures Brought(TouchHost(h, t).hist) == Brought(h.hist) + (if Delivers(t) then [t.m.r] else [])
    ensures TouchHost(h, t).base == h.base
  {
    HistAfter(h, t);
  }

  lemma BroughtTouch(h: Host, t: Touch, fanned: seq<Rec>)
    requires BroughtInv(h, fanned) && TouchGuard(h, t)
    requires Delivers(t) ==> Caught(h, fanned, 1) && Last(fanned) == t.m.r
    ensures BroughtInv(TouchHost(h, t), fanned)
  {
    BroughtAfter(h, t);
    if Delivers(t) {
      assert fanned[h.base..] == Brought(h.hist) + [Last(fanned)];
    }
  }

  lemma FanoutKeptG(s: State, g: LogStep)
    requires Shape(s) && Fanout(s) && Enabled(s, OfLog(g))
    ensures Fanout(Apply(s, OfLog(g)))
  {
    var st := OfLog(g);
    var s' := Apply(s, st);
    HostsAfter(s, st);
    GFrame(s, g);
    assert Caught(HereHost(s), s.fanned, Undecided(s.loop, s.loop.i));
    forall h | 0 <= h < |s.hosts| ensures BroughtInv(s'.hosts[h], s.fanned) {
      BroughtTouch(s.hosts[h], TouchOf(s, st, h), s.fanned);
    }
    forall k | 0 <= k < |s.targets| ensures Caught(s'.hosts[s.targets[k]], s.fanned, Undecided(s'.loop, k)) {
      CaughtAfter(s, g, k);
    }
  }

  lemma CaughtAfter(s: State, g: LogStep, k: nat)
    requires Shape(s) && Fanout(s) && Enabled(s, OfLog(g)) && k < |s.targets|
    ensures var s' := Apply(s, OfLog(g)); var h := s.targets[k];
      Caught(TouchHost(s.hosts[h], TouchOf(s, OfLog(g), h)), s.fanned, Undecided(s'.loop, k))
  {
    var h := s.targets[k];
    assert Caught(s.hosts[h], s.fanned, Undecided(s.loop, k));
    BroughtAfter(s.hosts[h], TouchOf(s, OfLog(g), h));
    UndecidedAfter(s, g, k);
  }

  lemma UndecidedAfter(s: State, g: LogStep, k: nat)
    requires Shape(s) && GEnabled(s, g) && k < |s.targets|
    ensures Undecided(GApply(s, g).loop, k) + (if Delivers(TouchOf(s, OfLog(g), s.targets[k])) then 1 else 0)
         == Undecided(s.loop, k)
  {}

  lemma FanoutKeptLock(s: State)
    requires Shape(s) && Fanout(s) && LEnabled(s, LLock)
    ensures Fanout(LApply(s, LLock))
  {
    var s' := LApply(s, LLock);
    assert s'.hosts == s.hosts && s'.targets == s.targets;
    if s.loop.Popped? {
      forall h | 0 <= h < |s.hosts| ensures BroughtInv(s.hosts[h], s'.fanned) {
        assert BroughtInv(s.hosts[h], s.fanned);
        assert s'.fanned[s.hosts[h].base..] == s.fanned[s.hosts[h].base..] + [s.loop.r];
      }
    }
  }

  lemma FanoutKept(s: State, st: Step)
    requires Shape(s) && Fanout(s) && Enabled(s, st)
    ensures Fanout(Apply(s, st))
  {
    if st.OfLog? {
      FanoutKeptG(s, st.g);
    } else if st == OfLoop(LLock) {
      FanoutKeptLock(s);
    } else {
      FanoutKeptElse(s, st);
    }
  }

  lemma FanoutKeptElse(s: State, st: Step)
    requires Shape(s) && Fanout(s) && Enabled(s, st) && !st.OfLog? && st != OfLoop(LLock)
    ensures Fanout(Apply(s, st))
  {
    HostsAfter(s, st);
    ElseFrame(s, st);
    ElseBrought(s, st);
  }

  lemma ElseBrought(s: State, st: Step)
    requires Fanout(s) && Enabled(s, st) && !st.OfLog?
    ensures forall h :: 0 <= h < |s.hosts| ==>
      h < |Apply(s, st).hosts| && SameBrought(s.hosts[h], Apply(s, st).hosts[h])
  {
    HostsAfter(s, st);
    forall h | 0 <= h < |s.hosts| ensures SameBrought(s.hosts[h], Apply(s, st).hosts[h]) {
      BroughtAfter(s.hosts[h], TouchOf(s, st, h));
    }
  }

  ghost predicate SameBrought(h: Host, h': Host) { Brought(h'.hist) == Brought(h.hist) && h'.base == h.base }

  /** Steps outside `Log` and lock acquisition leave the fan-out where it is. */
  lemma ElseFrame(s: State, st: Step)
    requires Shape(s) && Enabled(s, st) && !st.OfLog? && st != OfLoop(LLock)
    ensures var s' := Apply(s, st);
      && s'.fanned == s.fanned
      && (forall k :: 0 <= k < |s.targets| ==> Undecided(s'.loop, k) == Undecided(s.loop, k))
      && (s'.targets == s.targets
          || (!LoopReads(s.loop) && s'.loop == s.loop
              && forall k :: 0 <= k < |s'.targets| ==> s'.targets[k] in s.targets || s'.targets[k] == |s.hosts|))
  {
    match st
    case OfLoop(l) => LFrame(s, l);
    case OfCaller(c) => CFrame(s, c);
    case OfTargets(t) => TFrame(s, t);
    case OfHost(_, _) =>
    case OfKill(who, k) => KFrame(s, who, k);
  }

  // ---- flush ---------------------------------------------------------------------------------------

  /** The flush the read loop is busy with. */
  function Serving(l: Loop): Option<nat> {
    match l
    case Popped(_, back) => back
    case Drain(f) => Some(f)
    case Locking(f) => Some(f)
    case At(job, _) => ServingJob(job)
    case Sel(job, _, _) => ServingJob(job)
    case Blk(job, _, _) => ServingJob(job)
    case Wait(f, _, _) => Some(f)
    case Ack(f) => Some(f)
    case _ => None
  }

  function ServingJob(job: Job): Option<nat> {
    if job.FanOut? then job.back else Some(job.f)
  }

  /** How many of the targets the current flush has drained. */
  function FlushedUpTo(s: State): nat {
    if (s.loop.At? || s.loop.Sel? || s.loop.Blk?) && s.loop.job.FlushHosts? then s.loop.i
    else if s.loop.Wait? then s.loop.i
    else if s.loop.Ack? then |s.targets|
    else 0
  }

  ghost predicate FlushInv(s: State) {
    forall k :: 0 <= k < FlushedUpTo(s) && k < |s.targets| && s.targets[k] < |s.hosts|
        ==> Drained(s.hosts[s.targets[k]])
  }

  /** A flush being served, or acknowledged, entered lgr.in and left it; it is acknowledged only once. */
  ghost predicate AckInv(s: State) {
    && (Serving(s.loop).Some? ==> Ctl(Serving(s.loop).value) in s.popped && Serving(s.loop).value !in s.acked)
    && (forall f :: f in s.acked ==> Ctl(f) in s.popped)
  }

  lemma DrainedTouch(h: Host, t: Touch)
    requires Drained(h) && TouchGuard(h, t) && !t.Logged?
    ensures Drained(TouchHost(h, t))
  {}

  lemma FlushKept(s: State, st: Step)
    requires Shape(s) && FlushInv(s) && CtlAll(s) && Enabled(s, st)
    ensures FlushInv(Apply(s, st))
  {
    var s' := Apply(s, st);
    HostsAfter(s, st);
    FlushFrame(s, st);
    forall k | 0 <= k < FlushedUpTo(s') && k < |s'.targets| ensures Drained(s'.hosts[s'.targets[k]]) {
      var h := s.targets[k];
      if k < FlushedUpTo(s) {
        assert Drained(s.hosts[h]);
        DrainedTouch(s.hosts[h], TouchOf(s, st, h));
      } else {
        assert CtlInv(s.hosts[h], AwaitedAt(s, h));
      }
    }
  }

  /** Only the rendezvous with a host moves the flush past it. */
  lemma FlushFrame(s: State, st: Step)
    requires Shape(s) && Enabled(s, st)
    ensures var s' := Apply(s, st);
      && (FlushedUpTo(s') > 0 ==> s'.targets == s.targets)
      && (forall k :: 0 <= k < FlushedUpTo(s') && k < |s'.targets| ==>
            if k < FlushedUpTo(s) then !TouchOf(s, st, s.targets[k]).Logged?
            else st == OfLoop(LNext) && AtHost(s) && Here(s) == s.targets[k])
  {
    if st.OfLog? {
      GFrame(s, st.g);
      forall k | 0 <= k < FlushedUpTo(Apply(s, st)) && k < |s.targets|
        ensures k < FlushedUpTo(s) && !TouchOf(s, st, s.targets[k]).Logged?
      {
        FlushFrameG(s, st.g, k);
      }
    } else if st.OfLoop? {
      FlushFrameL(s, st.l);
    } else {
      FlushFrameElse(s, st);
    }
  }

  lemma FlushFrameL(s: State, l: LStep)
    requires Shape(s) && LEnabled(s, l)
    ensures LApply(s, l).targets == s.targets
    ensures FlushedUpTo(LApply(s, l)) <= FlushedUpTo(s) || l.LNext?
    ensures l.LNext? ==> FlushedUpTo(s) == s.loop.i && FlushedUpTo(LApply(s, l)) == s.loop.i + 1
  {
    LFrame(s, l);
  }

  lemma FlushFrameG(s: State, g: LogStep, k: nat)
    requires Shape(s) && GEnabled(s, g) && k < FlushedUpTo(GApply(s, g)) && k < |s.targets|
    ensures k < FlushedUpTo(s) && !TouchOf(s, OfLog(g), s.targets[k]).Logged?
  {
    assert k < s.loop.i;
  }

  lemma FlushFrameElse(s: State, st: Step)
    requires Shape(s) && Enabled(s, st) && !st.OfLog? && !st.OfLoop?
    ensures var s' := Apply(s, st);
      s'.loop == s.loop && (FlushedUpTo(s') > 0 ==> s'.targets == s.targets && FlushedUpTo(s') == FlushedUpTo(s))
  {
    match st
    case OfCaller(c) => CFrame(s, c);
    case OfTargets(t) => TFrame(s, t);
    case OfHost(_, _) =>
    case OfKill(who, k) => KFrame(s, who, k);
  }

  lemma AckKeptL(s: State, l: LStep)
    requires AckInv(s) && Fifo(s) && Ids(s) && LEnabled(s, l)
    ensures AckInv(LApply(s, l))
  {
    if l.LPop? {
      assert s.accepted[|s.popped|] == s.lin[0];
      assert forall i :: 0 <= i < |s.popped| ==> s.accepted[i] == s.popped[i];
    }
  }

  lemma AckKept(s: State, st: Step)
    requires AckInv(s) && Fifo(s) && Ids(s) && Enabled(s, st)
    ensures AckInv(Apply(s, st))
  {
    match st
    case OfLoop(l) => AckKeptL(s, l);
    case OfCaller(c) => CFrame(s, c);
    case OfTargets(t) => TFrame(s, t);
    case OfLog(g) => GFrame(s, g);
    case OfHost(_, _) =>
    case OfKill(who, k) => KFrame(s, who, k);
  }
}
