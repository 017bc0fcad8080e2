/**
 What can happen next, told from each goroutine's position instead of step by step: the branches its select,
 lock or flag check leaves open there, and no others.
 */
module PipelineChoices {
  import opened Basics
  import opened TargetHost
  import opened Pipeline
  import opened PipelineInvariant

  // ---- the read loop ------------------------------------------------------------------------------------

  predicate LoopMay(s: State, l: LStep)
    requires s.loop.Wait? ==> AtHost(s)
  {
    match s.loop
    case Select => (l.LPop? && s.lin != []) || (l.LQuit? && s.quits > 0)
    case Popped(_, _) => l.LLock? && !s.rm.Removing?
    case Drain(_) => if s.lin == [] then l.LDrained? else l.LPop?
    case Locking(_) => l.LLock? && !s.rm.Removing?
    case At(_, i) => l.LEnd? && i == |s.targets|
    case Sel(_, _, _) => false
    case Blk(_, _, _) => false
    case Wait(_, _, n) => l.LNext? && HereHost(s).pc == Signalling(n)
    case Ack(f) => l.LAck? && f in s.calls && s.calls[f].Await?
    case Stopped => false
  }

  /**
   The loop's select takes a message or sees quit, whichever is ready; draining it takes a message if there is
   one and is done if there is none; it waits for the lock, for the host and for the caller.
   */
  lemma LoopChoices(s: State, l: LStep)
    requires Shape(s)
    ensures s.loop.Wait? ==> AtHost(s)
    ensures LEnabled(s, l) <==> LoopMay(s, l)
  {}

  /** Inside `Log` or about to enter it, for the host at hand. */
  predicate LogMay(s: State, g: LogStep)
    requires AtHost(s) && !s.loop.Wait?
  {
    var h := HereHost(s);
    var listed := s.loop.job.FanOut? && s.loop.At? ==> s.loop.job.r.lvl in h.filter;
    match s.loop
    case At(_, _) => if !listed then g.GSkip? else if h.shut then g.GRefuse? else g.GPass?
    case Sel(_, _, _) => if |h.q| < h.cap then g.GSend? else g.GDrop? || g.GBlock?
    case Blk(_, _, _) => g.GExpire? || (g.GSend? && |h.q| < h.cap)
  }

  /**
   `Log` is not called for a level the filter does not list, and refuses if the host is shut down. With room
   its first select pushes and nothing else; without, the handler says whether to drop or to block; the second
   select pushes once there is room, or times out.
   */
  lemma LogChoices(s: State, g: LogStep)
    requires Shape(s)
    ensures GEnabled(s, g) ==> AtHost(s) && !s.loop.Wait?
    ensures AtHost(s) && !s.loop.Wait? ==> (GEnabled(s, g) <==> LogMay(s, g))
  {}

  // ---- a host's reader -------------------------------------------------------------------------------------

  predicate ReaderMay(h: Host, st: HStep) {
    match h.pc
    case Idle => (st.Pop? && h.q != []) || (st.Quit? && h.quits > 0)
    case Draining(_) => if h.q == [] then st.DrainEnd? else st.Pop?
    case Writing(r) => WriteMay(h, r, st)
    case DrainWriting(_, r) => WriteMay(h, r, st)
    case Signalling(_) => false
    case Exited => false
  }

  predicate WriteMay(h: Host, r: Rec, st: HStep) {
    if r.lvl in h.filter then st == Finish(Written) || st == Finish(Failed) || st.Panic? else st == Finish(Unlisted)
  }

  /**
   The reader's select takes a message or sees quit, whichever is ready; `flush` drains to the end; a write of a
   listed record succeeds, fails or panics, and of any other is the error.
   */
  lemma ReaderChoices(h: Host, st: HStep)
    ensures HEnabled(h, st) <==> ReaderMay(h, st)
  {}

  // ---- calls of Log, Flush and Shutdown ---------------------------------------------------------------------

  function CallOf(c: CStep): Option<nat> {
    match c
    case CLog(_) => None
    case CFlush(_) => None
    case CCheck(id) => Some(id)
    case CPush(id) => Some(id)
    case CDrop(id) => Some(id)
    case CBlock(id) => Some(id)
    case CExpire(id) => Some(id)
    case CGiveUp(id) => Some(id)
    case CSwap(id) => Some(id)
  }

  predicate CallMay(s: State, call: Caller, c: CStep) {
    match call
    case Check(_) => c.CCheck?
    case Enq(_, false, _) => if |s.lin| < s.lcap then c.CPush? else c.CDrop? || c.CBlock?
    case Enq(_, true, _) => c.CExpire? || (c.CPush? && |s.lin| < s.lcap)
    case Await(_) => c.CGiveUp?
    case Flushed(_) => c.CSwap?
  }

  /**
   A call of Log begins only while the flag is clear. In `enqueue` the first select pushes if there is room and
   else the handler says whether to drop or to block; the second pushes once there is room, or times out. A
   waiting flush can only give up; the signal is the loop's to give.
   */
  lemma CallChoices(s: State, c: CStep)
    ensures CallOf(c).Some? ==>
      (CEnabled(s, c) <==> CallOf(c).value in s.calls && CallMay(s, s.calls[CallOf(c).value], c))
    ensures c.CLog? ==> (CEnabled(s, c) <==> !s.shut)
    ensures c.CFlush? ==> (CEnabled(s, c) <==> !s.rm.Removing?)
  {}

  // ---- Shutdown, RemoveTargets and AddTarget -------------------------------------------------------------------

  predicate SweepMay(s: State, t: TStep) {
    match s.sd
    case Up => false
    case Closing(_) => t.TClose?
    case Waiting(_) => t.TExpire? || (t.TDone? && s.loop.Stopped?)
    case Relock(_, _) => t.TRelock? && !s.rm.Removing?
    case Hosts(_, j, _, _) => t.TDown? && j == |s.targets|
    case Down(_, _) => false
  }

  predicate RemovalMay(s: State, t: TStep) {
    match s.rm
    case Free => t.TRemove? && !LoopReads(s.loop) && !s.sd.Hosts?
    case Removing(sel, j, _, _, _) =>
      if j == |s.targets| then t.TRemoved? else t.TKeep? && j < |s.targets| && s.targets[j] !in sel
  }

  /** Shutdown goes through its waits in order; RemoveTargets through the targets, with nobody holding the lock. */
  lemma TargetsChoices(s: State, t: TStep)
    ensures t.TClose? || t.TDone? || t.TExpire? || t.TRelock? || t.TDown? ==> (TEnabled(s, t) <==> SweepMay(s, t))
    ensures t.TRemove? || t.TKeep? || t.TRemoved? ==> (TEnabled(s, t) <==> RemovalMay(s, t))
    ensures t.TAddCheck? ==> (TEnabled(s, t) <==> !s.shut)
    ensures t.TAddFail? ==> (TEnabled(s, t) <==> s.adders > 0)
    ensures t.TAdd? ==>
      (TEnabled(s, t) <==> s.adders > 0 && !s.rm.Removing? && !LoopReads(s.loop) && !s.sd.Hosts?)
  {}

  /** AddTarget calls past the check end by adding or failing, one each. */
  lemma AddersCount(s: State, t: TStep)
    requires TEnabled(s, t)
    ensures TApply(s, t).adders ==
      s.adders + (if t.TAddCheck? then 1 else 0) - (if t.TAddFail? || t.TAdd? then 1 else 0)
  {}

  predicate KillMay(s: State, h: Host, k: Kill, st: KillStep) {
    match k
    case Swapping => st.KSwap?
    case ClosingQuit => st.KClose?
    case AwaitingDone => st.KExpire? || (st.KDone? && h.pc.Exited?)
    case Stopping => st.KStop?
  }

  /** TargetHost.Shutdown: swap, close, wait for the reader or the context, shut the target down, in this order. */
  lemma KillChoices(s: State, who: Who, st: KillStep)
    ensures KEnabled(s, who, st) <==> Killing(s, who) && KillMay(s, s.hosts[Victim(s, who)], Phase(s, who), st)
  {}
}
