/**
 The inductive invariant of the pipeline. It is kept in parts, each preserved by every step; the
 parts that speak of one host are stated in TargetHost and lifted here to all hosts.
 */
module PipelineInvariant {
  import opened Basics
  import opened TargetHost
  import opened Pipeline

  // ---- what each kind of step leaves alone --------------------------------------------------------

  lemma LFrame(s: State, l: LStep)
    requires LEnabled(s, l)
    ensures var s' := LApply(s, l);
      && s'.targets == s.targets && s'.sd == s.sd && s'.rm == s.rm && s'.accepted == s.accepted
      && |s'.hosts| == |s.hosts| && s'.quits == s.quits && s'.shut == s.shut
      && (l != LPop ==> s'.lin == s.lin && s'.popped == s.popped)
      && (l != LLock ==> s'.fanned == s.fanned)
      && (l != LAck ==> s'.acked == s.acked && s'.calls == s.calls)
      && (l != LQuit ==> s'.dones == s.dones)
      && (l != LNext ==> s'.hosts == s.hosts)
      && (!l.LPop? && !l.LLock? ==> Held(s'.loop) == Held(s.loop))
  {}

  lemma GFrame(s: State, g: LogStep)
    requires GEnabled(s, g)
    ensures var s' := GApply(s, g);
      && s'.targets == s.targets && s'.sd == s.sd && s'.rm == s.rm && s'.accepted == s.accepted
      && |s'.hosts| == |s.hosts| && s'.quits == s.quits && s'.shut == s.shut && s'.dones == s.dones
      && s'.lin == s.lin && s'.popped == s.popped && s'.fanned == s.fanned
      && s'.acked == s.acked && s'.calls == s.calls && Held(s'.loop) == Held(s.loop)
  {}

  lemma CFrame(s: State, c: CStep)
    requires CEnabled(s, c)
    ensures var s' := CApply(s, c);
      && s'.loop == s.loop && s'.hosts == s.hosts && s'.targets == s.targets && s'.rm == s.rm
      && s'.popped == s.popped && s'.fanned == s.fanned && s'.acked == s.acked
      && s'.quits == s.quits && s'.dones == s.dones
      && (!c.CPush? ==> s'.lin == s.lin && s'.accepted == s.accepted)
      && (!c.CSwap? ==> s'.shut == s.shut && s'.sd == s.sd)
  {}

  lemma TFrame(s: State, t: TStep)
    requires TEnabled(s, t)
    ensures var s' := TApply(s, t);
      && s'.lin == s.lin && s'.loop == s.loop && s'.calls == s.calls && s'.nextId == s.nextId
      && s'.shut == s.shut && s'.dones == s.dones && s'.accepted == s.accepted && s'.popped == s.popped
      && s'.fanned == s.fanned && s'.acked == s.acked
      && (!t.TClose? ==> s'.quits == s.quits)
      && (!t.TAdd? ==> |s'.hosts| == |s.hosts|)
      && (!t.TAdd? && !t.TGrow? ==> s'.hosts == s.hosts)
      && (!t.TAdd? && !t.TRemoved? ==> s'.targets == s.targets)
  {}

  lemma KFrame(s: State, who: Who, k: KillStep)
    requires KEnabled(s, who, k)
    ensures var s' := KApply(s, who, k);
      && s'.lin == s.lin && s'.loop == s.loop && s'.calls == s.calls && s'.nextId == s.nextId
      && s'.shut == s.shut && s'.dones == s.dones && s'.accepted == s.accepted && s'.popped == s.popped
      && s'.fanned == s.fanned && s'.acked == s.acked && s'.quits == s.quits
      && |s'.hosts| == |s.hosts| && s'.targets == s.targets
  {}

  // ---- lists, locks and positions ---------------------------------------------------------------

  ghost predicate LoopShape(s: State) {
    match s.loop
    case At(job, i) => i <= |s.targets| && (job.FanOut? ==> s.fanned != [] && Last(s.fanned) == job.r)
    case Sel(job, i, m) => LogShape(s, job, i, m)
    case Blk(job, i, m) => LogShape(s, job, i, m)
    case Wait(_, i, _) => i < |s.targets|
    case _ => true
  }

  ghost predicate LogShape(s: State, job: Job, i: nat, m: Msg) {
    && i < |s.targets|
    && (if job.FanOut? then m == Data(job.r) && s.fanned != [] && Last(s.fanned) == job.r else m.Ctl?)
  }

  ghost predicate RmShape(s: State) {
    s.rm.Removing? ==>
      && !LoopReads(s.loop) && !s.sd.Hosts?
      && s.rm.j <= |s.targets|
      && Distinct(s.rm.keep)
      && forall k :: 0 <= k < |s.rm.keep| ==> s.rm.keep[k] in s.targets[..s.rm.j] && s.rm.keep[k] !in s.rm.sel
  }

  /** The target list is well formed and the write lock excludes every reader. */
  ghost predicate Shape(s: State) {
    && (forall k :: 0 <= k < |s.targets| ==> s.targets[k] < |s.hosts|)
    && Distinct(s.targets)
    && (s.sd.Hosts? ==> s.sd.j <= |s.targets|)
    && LoopShape(s)
    && RmShape(s)
  }

  lemma ShapeKeptL(s: State, l: LStep)
    requires Shape(s) && LEnabled(s, l)
    ensures Shape(LApply(s, l))
  {}

  lemma ShapeKeptG(s: State, g: LogStep)
    requires Shape(s) && GEnabled(s, g)
    ensures Shape(GApply(s, g))
  {}

  lemma ShapeKeptT(s: State, t: TStep)
    requires Shape(s) && TEnabled(s, t)
    ensures Shape(TApply(s, t))
  {
    if t.TKeep? {
      assert s.targets[..s.rm.j + 1] == s.targets[..s.rm.j] + [s.targets[s.rm.j]];
    } else if t.TRemoved? {
      ShapeRemoved(s);
    } else if t.TAdd? {
      ShapeAdded(s, t);
    }
  }

  lemma ShapeAdded(s: State, t: TStep)
    requires Shape(s) && TEnabled(s, t) && t.TAdd?
    ensures Shape(TApply(s, t))
  {}

  lemma ShapeRemoved(s: State)
    requires Shape(s) && TEnabled(s, TRemoved)
    ensures Shape(TApply(s, TRemoved))
  {}

  lemma ShapeSame(s: State, s': State)
    requires Shape(s) && s'.loop == s.loop && s'.hosts == s.hosts && s'.targets == s.targets && s'.rm == s.rm
    requires s'.fanned == s.fanned && (s'.sd == s.sd || s'.sd.Closing?)
    ensures Shape(s')
  {}

  lemma ShapeKeptC(s: State, c: CStep)
    requires Shape(s) && CEnabled(s, c)
    ensures Shape(CApply(s, c))
  {
    CFrame(s, c);
    ShapeSame(s, CApply(s, c));
  }

  lemma ShapeKeptK(s: State, who: Who, k: KillStep)
    requires Shape(s) && KEnabled(s, who, k)
    ensures Shape(KApply(s, who, k))
  {
    KFrame(s, who, k);
    if who.ByRemove? { ShapeKeptRm(s, k); }
  }

  lemma ShapeKeptRm(s: State, k: KillStep)
    requires Shape(s) && KEnabled(s, ByRemove, k)
    ensures Shape(KApply(s, ByRemove, k))
  {
    assert s.targets[..s.rm.j + 1] == s.targets[..s.rm.j] + [s.targets[s.rm.j]];
  }

  lemma ShapeKept(s: State, st: Step)
    requires Shape(s) && Enabled(s, st)
    ensures Shape(Apply(s, st))
  {
    match st
    case OfHost(h, hs) =>
    case OfLoop(l) => ShapeKeptL(s, l);
    case OfLog(g) => ShapeKeptG(s, g);
    case OfCaller(c) => ShapeKeptC(s, c);
    case OfTargets(t) => ShapeKeptT(s, t);
    case OfKill(who, k) => ShapeKeptK(s, who, k);
  }

  /** The record the loop holds between taking it from lgr.in and starting its fan-out. */
  function Held(l: Loop): seq<Rec> {
    if l.Popped? then [l.r] else []
  }

  /** lgr.in is first in, first out, and every record taken out is fanned out in that order. */
  ghost predicate Fifo(s: State) {
    && s.accepted == s.popped + s.lin
    && DataOf(s.popped) == s.fanned + Held(s.loop)
  }

  lemma FifoKept(s: State, st: Step)
    requires Fifo(s) && Enabled(s, st)
    ensures Fifo(Apply(s, st))
  {
    match st
    case OfLoop(LPop) => FifoPop(s);
    case OfLoop(l) => LFrame(s, l);
    case OfLog(g) => GFrame(s, g);
    case OfCaller(CPush(id)) => FifoPush(s, id);
    case OfCaller(c) => CFrame(s, c);
    case OfTargets(t) => TFrame(s, t);
    case OfKill(who, k) => KFrame(s, who, k);
    case OfHost(h, hs) =>
  }

  lemma FifoPush(s: State, id: nat)
    requires Fifo(s) && CEnabled(s, CPush(id))
    ensures Fifo(CApply(s, CPush(id)))
  {
    var m := s.calls[id].m;
    assert (s.popped + s.lin) + [m] == s.popped + (s.lin + [m]);
  }

  lemma FifoPop(s: State)
    requires Fifo(s) && LEnabled(s, LPop)
    ensures Fifo(LApply(s, LPop))
  {
    HeadMoves(s.popped, s.lin);
    DataOfSnoc(s.popped, s.lin[0]);
  }

  ghost predicate Unused(accepted: seq<Msg>, id: nat) {
    forall i :: 0 <= i < |accepted| ==> Id(accepted[i]) != id
  }

  ghost predicate CallOk(accepted: seq<Msg>, id: nat, c: Caller) {
    match c
    case Check(_) => Unused(accepted, id)
    case Enq(m, _, _) => Id(m) == id && Unused(accepted, id)
    case _ => true
  }

  /** No message enters lgr.in twice. */
  ghost predicate Ids(s: State) {
    && DistinctIds(s.accepted)
    && (forall i :: 0 <= i < |s.accepted| ==> Id(s.accepted[i]) < s.nextId)
    && (forall id :: id in s.calls ==> id < s.nextId && CallOk(s.accepted, id, s.calls[id]))
  }

  lemma IdsKeptC(s: State, c: CStep)
    requires Ids(s) && CEnabled(s, c)
    ensures Ids(CApply(s, c))
  {}

  lemma IdsKeptAck(s: State)
    requires Ids(s) && LEnabled(s, LAck)
    ensures Ids(LApply(s, LAck))
  {}

  lemma IdsSame(s: State, s': State)
    requires Ids(s) && s'.accepted == s.accepted && s'.calls == s.calls && s'.nextId >= s.nextId
    ensures Ids(s')
  {}

  lemma IdsKept(s: State, st: Step)
    requires Ids(s) && Enabled(s, st)
    ensures Ids(Apply(s, st))
  {
    if st == OfLoop(LAck) {
      IdsKeptAck(s);
    } else if st.OfCaller? {
      IdsKeptC(s, st.c);
    } else {
      IdsFrame(s, st);
      IdsSame(s, Apply(s, st));
    }
  }

  lemma IdsFrame(s: State, st: Step)
    requires Enabled(s, st) && st != OfLoop(LAck) && !st.OfCaller?
    ensures var s' := Apply(s, st); s'.accepted == s.accepted && s'.calls == s.calls && s'.nextId >= s.nextId
  {
    match st
    case OfLoop(l) => LFrame(s, l);
    case OfLog(g) => GFrame(s, g);
    case OfTargets(t) => TFrame(s, t);
    case OfKill(who, k) => KFrame(s, who, k);
    case OfHost(_, _) =>
  }

  // ---- one host at a time -------------------------------------------------------------------------

  ghost function TouchOf(s: State, st: Step, h: nat): Touch
    requires Enabled(s, st)
  {
    match st
    case OfHost(h', hs) => if h == h' then Read(hs) else Untouched
    case OfLog(g) => if h == Here(s) then Logged(g, Payload(s), s.loop.Blk?) else Untouched
    case OfLoop(l) => if l.LNext? && h == Here(s) then Signalled else Untouched
    case OfTargets(t) => if t.TGrow? && t.h == h then Grown(t.lvls) else Untouched
    case OfKill(who, k) =>
      if h == Victim(s, who) && !(k.KSwap? && s.hosts[h].shut) then Killed(k) else Untouched
    case OfCaller(_) => Untouched
  }

  /** A step touches the existing hosts as `TouchOf` says, and only AddTarget brings a new one. */
  lemma HostsAfter(s: State, st: Step)
    requires Enabled(s, st)
    ensures var s' := Apply(s, st);
      && |s'.hosts| == |s.hosts| + (if st.OfTargets? && st.t.TAdd? then 1 else 0)
      && (forall h :: 0 <= h < |s.hosts| ==>
            TouchGuard(s.hosts[h], TouchOf(s, st, h)) && s'.hosts[h] == TouchHost(s.hosts[h], TouchOf(s, st, h)))
      && (st.OfTargets? && st.t.TAdd? ==> s'.hosts[|s.hosts|] == NewHost(st.t.cap, st.t.filter, |s.fanned|))
  {
    match st
    case OfLoop(l) => LFrame(s, l);
    case OfCaller(c) => CFrame(s, c);
    case OfTargets(t) => THosts(s, t);
    case OfLog(g) =>
    case OfHost(h, hs) =>
    case OfKill(who, k) => KHosts(s, who, k);
  }

  lemma THosts(s: State, t: TStep)
    requires TEnabled(s, t)
    ensures TApply(s, t).hosts ==
            if t.TAdd? then s.hosts + [NewHost(t.cap, t.filter, |s.fanned|)]
            else if t.TGrow? then s.hosts[t.h := s.hosts[t.h].(filter := s.hosts[t.h].filter + t.lvls)]
            else s.hosts
  {}

  lemma KHosts(s: State, who: Who, k: KillStep)
    requires KEnabled(s, who, k)
    ensures var h := Victim(s, who);
      KApply(s, who, k).hosts == if k.KSwap?
          && s.hosts[h].shut then s.hosts else s.hosts[h := KillEffect(s.hosts[h], k)]
  {}

  ghost predicate QueueAll(s: State) { forall h :: 0 <= h < |s.hosts| ==> QueueInv(s.hosts[h]) }

  ghost predicate FilterAll(s: State) { forall h :: 0 <= h < |s.hosts| ==> FilterInv(s.hosts[h]) }

  ghost predicate CounterAll(s: State) { forall h :: 0 <= h < |s.hosts| ==> CounterInv(s.hosts[h]) }

  /** The nested flush record the read loop waits for at host h. */
  ghost function AwaitedAt(s: State, h: nat): Option<nat> {
    if s.loop.Wait? && s.loop.i < |s.targets| && s.targets[s.loop.i] == h then Some(s.loop.n) else None
  }

  ghost predicate CtlAll(s: State) { forall h :: 0 <= h < |s.hosts| ==> CtlInv(s.hosts[h], AwaitedAt(s, h)) }

  ghost predicate InsideAt(s: State, h: nat) {
    s.loop.Blk? && s.loop.i < |s.targets| && s.targets[s.loop.i] == h
  }

  ghost predicate BlockedAll(s: State) { forall h :: 0 <= h < |s.hosts| ==> BlockedInv(s.hosts[h], InsideAt(s, h)) }

  /** A record inside `Log` was listed by the filter when `Log` was called, and still is. */
  ghost predicate ListedInside(s: State) {
    (s.loop.Sel? || s.loop.Blk?) && AtHost(s) ==> Lists(HereHost(s), s.loop.m)
  }

  lemma QueueKept(s: State, st: Step)
    requires QueueAll(s) && Enabled(s, st)
    ensures QueueAll(Apply(s, st))
  {
    HostsAfter(s, st);
    forall h | 0 <= h < |s.hosts| ensures QueueInv(Apply(s, st).hosts[h]) {
      QueueTouch(s.hosts[h], TouchOf(s, st, h));
    }
  }

  lemma FilterKept(s: State, st: Step)
    requires FilterAll(s) && ListedInside(s) && Enabled(s, st)
    ensures FilterAll(Apply(s, st))
  {
    HostsAfter(s, st);
    forall h | 0 <= h < |s.hosts| ensures FilterInv(Apply(s, st).hosts[h]) {
      FilterTouch(s.hosts[h], TouchOf(s, st, h));
    }
  }

  lemma CounterKept(s: State, st: Step)
    requires FilterAll(s) && CounterAll(s) && CtlAll(s) && Enabled(s, st)
    ensures CounterAll(Apply(s, st))
  {
    HostsAfter(s, st);
    forall h | 0 <= h < |s.hosts| ensures CounterInv(Apply(s, st).hosts[h]) {
      assert CtlInv(s.hosts[h], AwaitedAt(s, h));
      CounterTouch(s.hosts[h], TouchOf(s, st, h));
    }
  }

  lemma CtlKept(s: State, st: Step)
    requires Shape(s) && CtlAll(s) && Enabled(s, st)
    ensures CtlAll(Apply(s, st))
  {
    HostsAfter(s, st);
    forall h | 0 <= h < |s.hosts| ensures CtlInv(Apply(s, st).hosts[h], AwaitedAt(Apply(s, st), h)) {
      AwaitedAfter(s, st, h);
      CtlTouch(s.hosts[h], TouchOf(s, st, h), AwaitedAt(s, h));
    }
  }

  lemma AwaitedAfter(s: State, st: Step, h: nat)
    requires Shape(s) && Enabled(s, st) && h < |s.hosts|
    ensures AwaitedAt(Apply(s, st), h) == AwaitAfter(AwaitedAt(s, h), TouchOf(s, st, h))
    ensures TouchOf(s, st, h).Logged? ==> AwaitedAt(s, h) == None
    ensures TouchOf(s, st, h).Signalled? ==> AwaitedAt(s, h).Some?
  {
    match st
    case OfLoop(l) => AwaitedAfterL(s, l, h);
    case OfCaller(c) => CFrame(s, c);
    case OfTargets(t) => AwaitedAfterT(s, t, h);
    case OfLog(g) =>
    case OfHost(_, _) =>
    case OfKill(who, k) => KFrame(s, who, k);
  }

  lemma AwaitedAfterL(s: State, l: LStep, h: nat)
    requires Shape(s) && LEnabled(s, l) && h < |s.hosts|
    ensures AwaitedAt(LApply(s, l), h) == AwaitAfter(AwaitedAt(s, h), TouchOf(s, OfLoop(l), h))
    ensures TouchOf(s, OfLoop(l), h).Signalled? ==> AwaitedAt(s, h).Some?
  {
    LFrame(s, l);
  }

  lemma AwaitedAfterT(s: State, t: TStep, h: nat)
    requires Shape(s) && TEnabled(s, t) && h < |s.hosts|
    ensures AwaitedAt(TApply(s, t), h) == AwaitedAt(s, h)
  {
    TFrame(s, t);
  }

  lemma BlockedKept(s: State, st: Step)
    requires Shape(s) && BlockedAll(s) && Enabled(s, st)
    ensures BlockedAll(Apply(s, st))
  {
    HostsAfter(s, st);
    forall h | 0 <= h < |s.hosts| ensures BlockedInv(Apply(s, st).hosts[h], InsideAt(Apply(s, st), h)) {
      InsideAfter(s, st, h);
      if TouchOf(s, st, h).Logged? {
        LogKeepsBlocked(s.hosts[h], st.g, Payload(s), s.loop.Blk?);
      } else {
        BlockedUntouched(s.hosts[h], TouchOf(s, st, h), InsideAt(s, h));
      }
    }
  }

  lemma InsideAfter(s: State, st: Step, h: nat)
    requires Shape(s) && Enabled(s, st) && h < |s.hosts|
    ensures TouchOf(s, st, h).Logged? ==> InsideAt(s, h) == s.loop.Blk? && InsideAt(Apply(s, st), h) == st.g.GBlock?
    ensures !TouchOf(s, st, h).Logged? ==> InsideAt(Apply(s, st), h) == InsideAt(s, h)
  {
    match st
    case OfLoop(l) => LFrame(s, l);
    case OfCaller(c) => CFrame(s, c);
    case OfTargets(t) => TFrame(s, t);
    case OfLog(g) =>
    case OfHost(_, _) =>
    case OfKill(who, k) => KFrame(s, who, k);
  }

  lemma ListedKeptG(s: State, g: LogStep)
    requires ListedInside(s) && Shape(s) && GEnabled(s, g)
    ensures ListedInside(GApply(s, g))
  {}

  lemma ListedFrame(s: State, st: Step)
    requires Shape(s) && Enabled(s, st) && !st.OfLog?
    ensures var s' := Apply(s, st);
      s'.loop.Sel? || s'.loop.Blk? ==> s'.loop == s.loop && s'.targets == s.targets
  {
    match st
    case OfLoop(l) => LFrame(s, l);
    case OfCaller(c) => CFrame(s, c);
    case OfTargets(t) => TFrame(s, t);
    case OfHost(_, _) =>
    case OfKill(who, k) => KFrame(s, who, k);
  }

  lemma FilterGrows(h: Host, t: Touch)
    requires TouchGuard(h, t)
    ensures h.filter <= TouchHost(h, t).filter
  {}

  lemma ListedKept(s: State, st: Step)
    requires ListedInside(s) && Shape(s) && Enabled(s, st)
    ensures ListedInside(Apply(s, st))
  {
    if st.OfLog? {
      ListedKeptG(s, st.g);
    } else {
      HostsAfter(s, st);
      ListedFrame(s, st);
      if (s.loop.Sel? || s.loop.Blk?) && AtHost(s) {
        FilterGrows(HereHost(s), TouchOf(s, st, Here(s)));
      }
    }
  }
}
