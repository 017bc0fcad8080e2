/**
 What the pipeline guarantees in every reachable state: the main results about logr.go and target.go.
 */
module PipelineTheorems {
  import opened Basics
  import opened TargetHost
  import opened HostHistory
  import opened Pipeline
  import opened PipelineInvariant
  import opened PipelineProtocol
  import opened PipelineLifecycle

  ghost predicate HostsInv(s: State) {
    QueueAll(s) && FilterAll(s) && CounterAll(s) && CtlAll(s) && BlockedAll(s) && ListedInside(s)
  }

  ghost predicate FlowInv(s: State) {
    Shape(s) && Fifo(s) && Ids(s) && Fanout(s) && FlushInv(s) && AckInv(s) && RestInv(s)
  }

  ghost predicate StopInv(s: State) {
    SdInv(s) && LifeAll(s) && SweepInv(s) && AliveInv(s)
  }

  ghost predicate Inv(s: State) { HostsInv(s) && FlowInv(s) && StopInv(s) }

  lemma InvInit(lcap: nat)
    ensures Inv(Init(lcap))
  {}

  lemma HostsInvKept(s: State, st: Step)
    requires HostsInv(s) && Shape(s) && Enabled(s, st)
    ensures HostsInv(Apply(s, st))
  {
    QueueKept(s, st);
    FilterKept(s, st);
    CounterKept(s, st);
    CtlKept(s, st);
    BlockedKept(s, st);
    ListedKept(s, st);
  }

  lemma FlowInvKept(s: State, st: Step)
    requires FlowInv(s) && CtlAll(s) && Enabled(s, st)
    ensures FlowInv(Apply(s, st))
  {
    ShapeKept(s, st);
    FifoKept(s, st);
    IdsKept(s, st);
    FanoutKept(s, st);
    FlushKept(s, st);
    AckKept(s, st);
    RestKept(s, st);
  }

  lemma StopInvKept(s: State, st: Step)
    requires StopInv(s) && Shape(s) && Enabled(s, st)
    ensures StopInv(Apply(s, st))
  {
    SdKept(s, st);
    LifeKept(s, st);
    SweepKept(s, st);
    AliveKept(s, st);
  }

  lemma InvKept(s: State, st: Step)
    requires Inv(s) && Enabled(s, st)
    ensures Inv(Apply(s, st))
  {
    HostsInvKept(s, st);
    FlowInvKept(s, st);
    StopInvKept(s, st);
  }

  lemma {:induction false} ExecKeepsInv(s: State, steps: seq<Step>)
    requires Inv(s) && Exec(s, steps).Some?
    ensures Inv(Exec(s, steps).value)
  {
    if steps != [] {
      ExecKeepsInv(s, Front(steps));
      InvKept(Exec(s, Front(steps)).value, Last(steps));
    }
  }

  lemma ReachableInv(s: State)
    requires Reachable(s)
    ensures Inv(s)
  {
    var lcap: nat, steps :| Exec(Init(lcap), steps) == Some(s);
    InvInit(lcap);
    ExecKeepsInv(Init(lcap), steps);
  }

  // ---- order -------------------------------------------------------------------------------------------

  /** The records a host's reader has finished with, in order. */
  function Handled(h: Host): seq<Rec> { DataOf(TakenMsgs(h.taken)) }

  lemma FannedInOrder(s: State, h: nat)
    requires Inv(s) && h < |s.hosts|
    ensures Subsequence(Brought(s.hosts[h].hist), DataOf(s.accepted))
    ensures Distinct(DataOf(s.accepted))
  {
    var host := s.hosts[h];
    assert BroughtInv(host, s.fanned);
    DataOfDistinct(s.accepted);
    DataOfConcat(s.popped, s.lin);
    assert s.fanned <= DataOf(s.popped) <= DataOf(s.accepted);
    SubsequencePrefix(Brought(host.hist), s.fanned[host.base..]);
    SubsequenceSuffix(s.fanned, host.base);
    SubsequencePrefix(s.fanned, DataOf(s.accepted));
    SubsequenceTrans(Brought(host.hist), s.fanned[host.base..], s.fanned);
    SubsequenceTrans(Brought(host.hist), s.fanned, DataOf(s.accepted));
  }

  lemma HandledAdmitted(s: State, h: nat)
    requires Inv(s) && h < |s.hosts|
    ensures Subsequence(Handled(s.hosts[h]), DataOf(Admitted(s.hosts[h].hist)))
  {
    var host := s.hosts[h];
    assert QueueInv(host);
    DataOfPrefix(TakenMsgs(host.taken), InFlight(host.pc), host.q);
    SubsequencePrefix(Handled(host), DataOf(Admitted(host.hist)));
  }

  lemma DataOfPrefix(a: seq<Msg>, b: seq<Msg>, c: seq<Msg>)
    ensures DataOf(a) <= DataOf(a + b + c)
  {
    DataOfConcat(a, b);
    DataOfConcat(a + b, c);
  }

  /**
   Every host handles records at most once, in the order in which they entered lgr.in. This holds
   whatever is dropped, timed out, refused or removed, and however many flushes are running.
   */
  lemma HandledInOrder(s: State, h: nat)
    requires Reachable(s) && h < |s.hosts|
    ensures Subsequence(Handled(s.hosts[h]), DataOf(s.accepted))
    ensures Distinct(Handled(s.hosts[h]))
  {
    ReachableInv(s);
    var host := s.hosts[h];
    HandledAdmitted(s, h);
    AdmittedInOrder(host.hist);
    FannedInOrder(s, h);
    SubsequenceTrans(Handled(host), DataOf(Admitted(host.hist)), Brought(host.hist));
    SubsequenceTrans(Handled(host), Brought(host.hist), DataOf(s.accepted));
    SubsequenceDistinct(Handled(host), DataOf(s.accepted));
  }

  // ---- filters -----------------------------------------------------------------------------------------

  /**
   Filters only grow, so the reader never meets a record its filter does not list: the error branch
   of writeRec is dead, and everything handled, queued or being written is enabled.
   */
  lemma WriteRecAlwaysListed(s: State, h: nat)
    requires Reachable(s) && h < |s.hosts|
    ensures !HEnabled(s.hosts[h], Finish(Unlisted))
    ensures forall r :: r in Handled(s.hosts[h]) || Data(r) in s.hosts[h].q + InFlight(s.hosts[h].pc) ==>
      r.lvl in s.hosts[h].filter
  {
    ReachableInv(s);
    var host := s.hosts[h];
    assert FilterInv(host) && QueueInv(host);
    forall r | r in Handled(host) ensures r.lvl in host.filter {
      DataOfIn(TakenMsgs(host.taken), r);
      assert Data(r) in Admitted(host.hist);
      AdmittedOffered(host.hist, Data(r));
    }
  }

  lemma {:induction false} AdmittedOffered(hist: seq<Entry>, m: Msg)
    requires m in Admitted(hist)
    ensures exists i :: 0 <= i < |hist| && hist[i].Offer? && hist[i].m == m
  {
    if m in Admitted(Front(hist)) {
      AdmittedOffered(Front(hist), m);
      var i :| 0 <= i < |Front(hist)| && Front(hist)[i].Offer? && Front(hist)[i].m == m;
      assert hist[i].m == m;
    } else {
      assert hist[|hist| - 1].m == m;
    }
  }

  // ---- flush -------------------------------------------------------------------------------------------

  /** The host's dealings with the record are over. */
  ghost predicate Final(h: Host, r: Rec) {
    || r in Skipped(h.hist)
    || r in Decided(h.hist, Refuse) || r in Decided(h.hist, Drop) || r in Decided(h.hist, Expire)
    || r in Ended(h.taken, Written) || r in Ended(h.taken, Failed) || r in Ended(h.taken, Lost)
  }

  lemma DrainedFinal(h: Host, r: Rec)
    requires QueueInv(h) && FilterInv(h) && Drained(h) && r in Brought(h.hist)
    ensures Final(h, r)
  {
    BroughtSplits(h.hist, r);
    if Data(r) in Admitted(h.hist) {
      assert Admitted(h.hist) == TakenMsgs(h.taken);
      TakenEnded(h.taken, r);
    }
  }

  /** At the instant a flush caller is signalled, record `r` is settled at host `h`. */
  ghost predicate SettledAt(s: State, h: Host, r: Rec) {
    h.base <= |s.fanned| && (r in s.fanned[..h.base] || Final(h, r))
  }

  /**
   The flush barrier. When a flush is acknowledged, every registered host has an empty queue and
   nothing in flight, and every record that entered lgr.in before the flush record is settled at
   every registered host, or its fan-out began before that host was added. Producers may be pushing
   all the while, and other flushes may be waiting.
   */
  lemma FlushBarrier(s: State, k: nat, i: nat, j: nat)
    requires Reachable(s) && LEnabled(s, LAck) && k < |s.targets|
    ensures s.targets[k] < |s.hosts| && Drained(s.hosts[s.targets[k]])
    ensures Ctl(s.loop.f) in s.accepted
    ensures i < j < |s.accepted| && s.accepted[j] == Ctl(s.loop.f) && s.accepted[i].Data? ==>
      SettledAt(s, s.hosts[s.targets[k]], s.accepted[i].r)
  {
    ReachableInv(s);
    assert Drained(s.hosts[s.targets[k]]);
    assert Ctl(s.loop.f) in s.popped;
    if i < j < |s.accepted| && s.accepted[j] == Ctl(s.loop.f) && s.accepted[i].Data? {
      PoppedBefore(s, i, j);
      FannedSettled(s, k, s.accepted[i].r);
    }
  }

  lemma PoppedBefore(s: State, i: nat, j: nat)
    requires Fifo(s) && Ids(s) && s.loop.Ack? && Ctl(s.loop.f) in s.popped
    requires i < j < |s.accepted| && s.accepted[j] == Ctl(s.loop.f)
    ensures s.accepted[i] in s.popped
  {
    var a :| 0 <= a < |s.popped| && s.popped[a] == Ctl(s.loop.f);
    assert s.accepted[a] == s.accepted[j];
    assert s.accepted[i] == s.popped[i];
  }

  lemma FannedSettled(s: State, k: nat, r: Rec)
    requires FlowInv(s) && HostsInv(s) && k < |s.targets| && Drained(s.hosts[s.targets[k]])
    requires Undecided(s.loop, k) == 0 && !s.loop.Popped? && Data(r) in s.popped
    ensures SettledAt(s, s.hosts[s.targets[k]], r)
  {
    var h := s.hosts[s.targets[k]];
    assert BroughtInv(h, s.fanned) && Caught(h, s.fanned, Undecided(s.loop, k)) && QueueInv(h) && FilterInv(h);
    DataOfIn(s.popped, r);
    assert s.fanned == s.fanned[..h.base] + s.fanned[h.base..];
    assert Brought(h.hist) == s.fanned[h.base..];
    if r in Brought(h.hist) { DrainedFinal(h, r); }
  }

  /**
   Refinement to a synchronous logger. When a flush is acknowledged, a registered host that kept its
   filter, turned nothing away and had no failing write has written exactly what a synchronous logger
   would have written for the records fanned out since the host was added.
   */
  lemma FlushedEqualsSync(s: State, k: nat)
    requires Reachable(s) && LEnabled(s, LAck) && k < |s.targets|
    ensures s.targets[k] < |s.hosts|
    ensures var h := s.hosts[s.targets[k]];
      && h.base <= |s.fanned|
      && (h.filter == h.filter0 && NothingTurnedAway(h.hist)
          && (forall i :: 0 <= i < |h.taken| ==> h.taken[i].m.Data? ==> h.taken[i].o.Written?) ==>
            Ended(h.taken, Written) == SyncOutput(s.fanned[h.base..], h.filter))
  {
    ReachableInv(s);
    var h := s.hosts[s.targets[k]];
    assert BroughtInv(h, s.fanned) && Caught(h, s.fanned, 0) && QueueInv(h) && FilterInv(h) && Drained(h);
    if h.filter == h.filter0 && NothingTurnedAway(h.hist)
      && (forall i :: 0 <= i < |h.taken| ==> h.taken[i].m.Data? ==> h.taken[i].o.Written?)
    {
      assert Brought(h.hist) == s.fanned[h.base..];
      AdmittedIsSync(h, h.hist);
      assert Admitted(h.hist) == TakenMsgs(h.taken);
      WrittenIsTaken(h.taken);
    }
  }

  /**
   The same refinement in every reachable state, flush or none: what the host has finished with, what
   it is writing and what it still holds is, in this order, the synchronous output for the records
   brought to it so far, and those are the first records fanned out since the host was added.
   */
  lemma RefinesSync(s: State, h: nat)
    requires Reachable(s) && h < |s.hosts|
    ensures var host := s.hosts[h];
      && host.base <= |s.fanned| && Brought(host.hist) <= s.fanned[host.base..]
      && (host.filter == host.filter0 && NothingTurnedAway(host.hist) ==>
            Handled(host) + DataOf(InFlight(host.pc)) + DataOf(host.q) == SyncOutput(Brought(host.hist), host.filter))
  {
    ReachableInv(s);
    var host := s.hosts[h];
    assert QueueInv(host) && FilterInv(host) && BroughtInv(host, s.fanned);
    DataOfConcat(TakenMsgs(host.taken), InFlight(host.pc));
    DataOfConcat(TakenMsgs(host.taken) + InFlight(host.pc), host.q);
    if host.filter == host.filter0 && NothingTurnedAway(host.hist) { AdmittedIsSync(host, host.hist); }
  }

  /** A flush is signalled at most once, and only after its record went through lgr.in. */
  lemma FlushSignalledOnce(s: State)
    requires Reachable(s) && s.loop.Ack?
    ensures s.loop.f !in s.acked && Ctl(s.loop.f) in s.accepted
  {
    ReachableInv(s);
    assert Ctl(s.loop.f) in s.popped;
    assert s.popped <= s.accepted;
  }

  // ---- conservation and counters --------------------------------------------------------------------------

  /** The record the read loop is trying to send to this host right now. */
  function Sending(s: State, h: nat): seq<Rec> {
    if (s.loop.Sel? || s.loop.Blk?) && AtHost(s) && Here(s) == h && s.loop.m.Data? then [s.loop.m.r] else []
  }

  /**
   Conservation: the records offered to a host, counting one being sent, are exactly those refused,
   dropped, timed out, written, failed, lost to a panic, being written or still queued (abandoned, if
   the reader has exited).
   */
  lemma Conservation(s: State, h: nat)
    requires Reachable(s) && h < |s.hosts|
    ensures var host := s.hosts[h];
      multiset(Offered(host.hist)) ==
        multiset(Decided(host.hist, Refuse)) + multiset(Decided(host.hist, Drop)) + multiset(Decided(host.hist, Expire))
        + multiset(Ended(host.taken, Written)) + multiset(Ended(host.taken, Failed)) + multiset(Ended(host.taken, Lost))
        + multiset(DataOf(InFlight(host.pc))) + multiset(DataOf(host.q))
  {
    ReachableInv(s);
    var host := s.hosts[h];
    assert QueueInv(host) && FilterInv(host);
    OfferedCount(host.hist);
    TakenCount(host.taken);
    DataOfConcat(TakenMsgs(host.taken), InFlight(host.pc));
    DataOfConcat(TakenMsgs(host.taken) + InFlight(host.pc), host.q);
  }

  /** Each record is offered to a host at most once, and not again while it is being sent. */
  lemma OfferedOnce(s: State, h: nat)
    requires Reachable(s) && h < |s.hosts|
    ensures Distinct(Offered(s.hosts[h].hist) + Sending(s, h))
  {
    ReachableInv(s);
    var host := s.hosts[h];
    OfferedInOrder(host.hist);
    if Sending(s, h) == [] {
      FannedInOrder(s, h);
      SubsequenceTrans(Offered(host.hist), Brought(host.hist), DataOf(s.accepted));
      SubsequenceDistinct(Offered(host.hist), DataOf(s.accepted));
    } else {
      SendingIsNext(s, h);
      SubsequenceSnoc(Offered(host.hist), Brought(host.hist), Last(s.fanned));
      DataOfDistinct(s.accepted);
      DataOfConcat(s.popped, s.lin);
      SubsequenceSuffix(s.fanned, host.base);
      SubsequencePrefix(s.fanned, DataOf(s.accepted));
      SubsequenceTrans(s.fanned[host.base..], s.fanned, DataOf(s.accepted));
      SubsequenceDistinct(s.fanned[host.base..], DataOf(s.accepted));
      SubsequenceDistinct(Offered(host.hist) + Sending(s, h), s.fanned[host.base..]);
    }
  }

  lemma {:induction false} DistinctOnce<T>(a: seq<T>, x: T)
    requires Distinct(a)
    ensures multiset(a)[x] == if x in a then 1 else 0
  {
    if a != [] {
      DistinctOnce(Front(a), x);
      assert a == Front(a) + [Last(a)];
    }
  }

  /**
   One fate per record and host: a record that fan-out has handed to a host is in exactly one of the
   nine places a record can be in, once, and any other record is in none.
   */
  lemma ExactlyOneFate(s: State, h: nat, r: Rec)
    requires Reachable(s) && h < |s.hosts|
    ensures var host := s.hosts[h];
      multiset(Sending(s, h))[r]
        + multiset(Decided(host.hist, Refuse))[r] + multiset(Decided(host.hist, Drop))[r]
        + multiset(Decided(host.hist, Expire))[r] + multiset(Ended(host.taken, Written))[r]
        + multiset(Ended(host.taken, Failed))[r] + multiset(Ended(host.taken, Lost))[r]
        + multiset(DataOf(InFlight(host.pc)))[r] + multiset(DataOf(host.q))[r]
        == if r in Offered(host.hist) + Sending(s, h) then 1 else 0
  {
    Conservation(s, h);
    OfferedOnce(s, h);
    var a, b := Offered(s.hosts[h].hist), Sending(s, h);
    DistinctOnce(a + b, r);
    assert multiset(a + b)[r] == multiset(a)[r] + multiset(b)[r];
  }

  lemma SendingIsNext(s: State, h: nat)
    requires Inv(s) && h < |s.hosts| && Sending(s, h) != []
    ensures s.hosts[h].base <= |s.fanned| && s.fanned != []
    ensures Sending(s, h) == [Last(s.fanned)]
    ensures s.fanned[s.hosts[h].base..] == Brought(s.hosts[h].hist) + [Last(s.fanned)]
  {
    assert Caught(s.hosts[s.targets[s.loop.i]], s.fanned, Undecided(s.loop, s.loop.i));
    assert BroughtInv(s.hosts[h], s.fanned);
    AllButLast(Brought(s.hosts[h].hist), s.fanned[s.hosts[h].base..]);
  }

  lemma AllButLast<T>(a: seq<T>, b: seq<T>)
    requires a <= b && |b| == |a| + 1
    ensures b == a + [Last(b)]
  {}

  /**
   The counters. `logged` counts the writes that returned no error, although the writes made by
   `TargetHost.flush` do not increment it: a flush record is always the last thing in its queue, so
   `flush` has nothing to write. Dropped and blocked count flush records too.
   */
  lemma CountersExact(s: State, h: nat)
    requires Reachable(s) && h < |s.hosts|
    ensures var host := s.hosts[h];
      && host.logged == |Ended(host.taken, Written)|
      && host.errors == |Ended(host.taken, Failed)|
      && host.dropped == CountDecision(host.hist, Drop)
      && host.blocked == CountSlow(host.hist) + (if InsideAt(s, h) then 1 else 0)
    ensures !s.hosts[h].pc.DrainWriting?
    ensures s.hosts[h].pc.Draining? ==> s.hosts[h].q == [] && AwaitedAt(s, h) == Some(s.hosts[h].pc.n)
  {
    ReachableInv(s);
    assert CounterInv(s.hosts[h]) && BlockedInv(s.hosts[h], InsideAt(s, h)) && CtlInv(s.hosts[h], AwaitedAt(s, h));
  }

  // ---- shutdown ---------------------------------------------------------------------------------------------

  /** Shutdown is about to return nil. */
  predicate ReturningNil(s: State) {
    s.sd.Hosts? && s.sd.j == |s.targets| && !s.sd.err
  }

  /**
   Lifecycle of a host: quit and done are closed at most once and target.Shutdown called at most
   once; once the target has been shut down without the context expiring, the reader is gone, so no
   Write is in progress or can follow.
   */
  lemma HostLifecycle(s: State, h: nat)
    requires Reachable(s) && h < |s.hosts|
    ensures var host := s.hosts[h];
      && host.quits <= 1 && host.dones <= 1 && host.stops <= 1
      && (host.stops == 1 ==> host.shut && host.quits == 1)
      && (host.stops == 1 && !host.expired ==> host.pc.Exited? && host.dones == 1)
      && (host.pc.Exited? ==> forall st :: !HEnabled(host, st))
  {
    ReachableInv(s);
    assert LifeInv(s.hosts[h], KillOn(s, h));
  }

  /** Logr's own channels: quit and done are closed at most once, done only after quit. */
  lemma LoopLifecycle(s: State)
    requires Reachable(s)
    ensures s.quits <= 1 && s.dones <= s.quits
    ensures s.quits == 1 ==> s.shut
    ensures s.loop.Stopped? ==> forall l :: !LEnabled(s, l)
  {
    ReachableInv(s);
  }

  /** No call of Log that begins after the flag is set puts anything in lgr.in. */
  lemma {:induction false} NoLogAfterShutdown(s: State, steps: seq<Step>, id: nat)
    requires Inv(s) && s.shut && id >= s.nextId
    requires Exec(s, steps).Some?
    ensures var s' := Exec(s, steps).value;
      s'.shut && Unused(s'.accepted, id) && (id in s'.calls ==> !s'.calls[id].Enq?)
  {
    if steps != [] {
      NoLogAfterShutdown(s, Front(steps), id);
      var t := Exec(s, Front(steps)).value;
      ExecKeepsInv(s, Front(steps));
      NoLogStep(t, Last(steps), id);
    }
  }

  lemma NoLogStep(s: State, st: Step, id: nat)
    requires Inv(s) && s.shut && Unused(s.accepted, id) && (id in s.calls ==> !s.calls[id].Enq?) && Enabled(s, st)
    ensures var s' := Apply(s, st); s'.shut && Unused(s'.accepted, id) && (id in s'.calls ==> !s'.calls[id].Enq?)
  {
    match st
    case OfLoop(LAck) =>
    case OfLoop(l) => LFrame(s, l);
    case OfCaller(c) => NoLogStepC(s, c, id);
    case OfTargets(t) => TFrame(s, t);
    case OfLog(g) => GFrame(s, g);
    case OfHost(_, _) =>
    case OfKill(who, k) => KFrame(s, who, k);
  }

  lemma NoLogStepC(s: State, c: CStep, id: nat)
    requires Ids(s) && s.shut && Unused(s.accepted, id) && (id in s.calls ==> !s.calls[id].Enq?) && CEnabled(s, c)
    ensures var s' := CApply(s, c); s'.shut && Unused(s'.accepted, id) && (id in s'.calls ==> !s'.calls[id].Enq?)
  {
    if c.CPush? { assert Id(s.calls[c.id].m) == c.id; }
  }
}
