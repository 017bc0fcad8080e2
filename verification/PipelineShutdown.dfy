/**
 What an acknowledged flush is worth later on: every record accepted before it stays settled at every
 registered host, whatever happens next, and so what a Shutdown that returns nil leaves behind was
 accepted after its flush.
 */
module PipelineShutdown {
  import opened Basics
  import opened TargetHost
  import opened HostHistory
  import opened Pipeline
  import opened PipelineInvariant
  import opened PipelineProtocol
  import opened PipelineLifecycle
  import opened PipelineTheorems

  // ---- settled stays settled ------------------------------------------------------------------------

  /** The record has been fanned out and is settled at every registered host. */
  ghost predicate Everywhere(s: State, r: Rec) {
    && r in s.fanned
    && forall k :: 0 <= k < |s.targets| && s.targets[k] < |s.hosts| ==> SettledAt(s, s.hosts[s.targets[k]], r)
  }

  /** Every record accepted before an acknowledged flush is settled everywhere. */
  ghost predicate SettledInv(s: State) {
    forall i, j :: 0 <= i < j < |s.accepted| && Acked(s, s.accepted[j]) && s.accepted[i].Data? ==>
      Everywhere(s, s.accepted[i].r)
  }

  predicate Acked(s: State, m: Msg) { m.Ctl? && m.n in s.acked }

  lemma TakenAfter(h: Host, t: Touch)
    requires TouchGuard(h, t)
    ensures var h' := TouchHost(h, t); h'.taken == h.taken || (h'.taken != [] && Front(h'.taken) == h.taken)
  {
    match t
    case Read(st) => TakenAfterRead(h, st);
    case _ =>
  }

  lemma TakenAfterRead(h: Host, st: HStep)
    requires HEnabled(h, st)
    ensures var h' := HApply(h, st); h'.taken == h.taken || (h'.taken != [] && Front(h'.taken) == h.taken)
  {}

  lemma FinalStays(h: Host, t: Touch, r: Rec)
    requires TouchGuard(h, t) && Final(h, r)
    ensures Final(TouchHost(h, t), r) && TouchHost(h, t).base == h.base
  {
    HistAfter(h, t);
    TakenAfter(h, t);
  }

  lemma FannedGrows(s: State, st: Step)
    requires Enabled(s, st)
    ensures s.fanned <= Apply(s, st).fanned
  {
    match st
    case OfLoop(l) => LFrame(s, l);
    case OfLog(g) => GFrame(s, g);
    case OfCaller(c) => CFrame(s, c);
    case OfTargets(t) => TFrame(s, t);
    case OfHost(_, _) =>
    case OfKill(who, k) => KFrame(s, who, k);
  }

  /** After a step a registered host was registered before, or is new. */
  lemma TargetsAfter(s: State, st: Step)
    requires Shape(s) && Enabled(s, st)
    ensures var s' := Apply(s, st);
      && (s'.targets == s.targets
          || forall k :: 0 <= k < |s'.targets| ==> s'.targets[k] in s.targets || s'.targets[k] == |s.hosts|)
  {
    match st
    case OfLoop(l) => LFrame(s, l);
    case OfLog(g) => GFrame(s, g);
    case OfCaller(c) => CFrame(s, c);
    case OfTargets(t) => TFrame(s, t);
    case OfHost(_, _) =>
    case OfKill(who, k) => KFrame(s, who, k);
  }

  lemma SettledStays(s: State, st: Step, h: nat, r: Rec)
    requires Enabled(s, st) && h < |s.hosts| && SettledAt(s, s.hosts[h], r)
    ensures h < |Apply(s, st).hosts| && SettledAt(Apply(s, st), Apply(s, st).hosts[h], r)
  {
    HostsAfter(s, st);
    FannedGrows(s, st);
    BroughtAfter(s.hosts[h], TouchOf(s, st, h));
    if Final(s.hosts[h], r) { FinalStays(s.hosts[h], TouchOf(s, st, h), r); }
  }

  lemma NewSettled(s: State, st: Step, r: Rec)
    requires Enabled(s, st) && r in s.fanned && st.OfTargets? && st.t.TAdd?
    ensures |Apply(s, st).hosts| == |s.hosts| + 1 && SettledAt(Apply(s, st), Apply(s, st).hosts[|s.hosts|], r)
  {
    HostsAfter(s, st);
    FannedGrows(s, st);
  }

  lemma EverywhereStays(s: State, st: Step, r: Rec)
    requires Shape(s) && Everywhere(s, r) && Enabled(s, st)
    ensures Everywhere(Apply(s, st), r)
  {
    var s' := Apply(s, st);
    TargetsAfter(s, st);
    FannedGrows(s, st);
    HostsAfter(s, st);
    forall k | 0 <= k < |s'.targets| && s'.targets[k] < |s'.hosts|
      ensures SettledAt(s', s'.hosts[s'.targets[k]], r)
    {
      var h := s'.targets[k];
      if h < |s.hosts| {
        var i :| 0 <= i < |s.targets| && s.targets[i] == h;
        SettledStays(s, st, h, r);
      } else {
        NewSettled(s, st, r);
      }
    }
  }

  // ---- a flush settles ---------------------------------------------------------------------------------

  lemma AckSettles(s: State, i: nat, j: nat)
    requires Inv(s) && LEnabled(s, LAck) && i < j < |s.accepted|
    requires s.accepted[j] == Ctl(s.loop.f) && s.accepted[i].Data?
    ensures Everywhere(s, s.accepted[i].r)
  {
    var r := s.accepted[i].r;
    assert Ctl(s.loop.f) in s.popped;
    PoppedBefore(s, i, j);
    DataOfIn(s.popped, r);
    assert r in s.fanned;
    forall k | 0 <= k < |s.targets| && s.targets[k] < |s.hosts| ensures SettledAt(s, s.hosts[s.targets[k]], r) {
      assert Drained(s.hosts[s.targets[k]]);
      FannedSettled(s, k, r);
    }
  }

  lemma SettledKeptAck(s: State)
    requires Inv(s) && SettledInv(s) && LEnabled(s, LAck)
    ensures SettledInv(LApply(s, LAck))
  {
    var s' := LApply(s, LAck);
    LFrame(s, LAck);
    forall i, j | 0 <= i < j < |s'.accepted| && Acked(s', s'.accepted[j]) && s'.accepted[i].Data?
      ensures Everywhere(s', s'.accepted[i].r)
    {
      if !Acked(s, s.accepted[j]) { AckSettles(s, i, j); }
      EverywhereStays(s, OfLoop(LAck), s.accepted[i].r);
    }
  }

  lemma SettledKeptPush(s: State, id: nat)
    requires Inv(s) && SettledInv(s) && CEnabled(s, CPush(id))
    ensures SettledInv(CApply(s, CPush(id)))
  {
    var s' := CApply(s, CPush(id));
    CFrame(s, CPush(id));
    assert CallOk(s.accepted, id, s.calls[id]);
    assert s.popped <= s.accepted;
    assert !Acked(s, s.calls[id].m);
    forall i, j | 0 <= i < j < |s'.accepted| && Acked(s', s'.accepted[j]) && s'.accepted[i].Data?
      ensures Everywhere(s', s'.accepted[i].r)
    {
      assert j < |s.accepted|;
      assert Acked(s, s.accepted[j]) && s.accepted[i].Data?;
      EverywhereStays(s, OfCaller(CPush(id)), s.accepted[i].r);
    }
  }

  lemma SettledKept(s: State, st: Step)
    requires Inv(s) && SettledInv(s) && Enabled(s, st)
    ensures SettledInv(Apply(s, st))
  {
    if st == OfLoop(LAck) {
      SettledKeptAck(s);
    } else if st.OfCaller? && st.c.CPush? {
      SettledKeptPush(s, st.c.id);
    } else {
      UnsettledFrame(s, st);
      var s' := Apply(s, st);
      forall i, j | 0 <= i < j < |s'.accepted| && Acked(s', s'.accepted[j]) && s'.accepted[i].Data?
        ensures Everywhere(s', s'.accepted[i].r)
      {
        assert Acked(s, s.accepted[j]);
        EverywhereStays(s, st, s.accepted[i].r);
      }
    }
  }

  lemma {:induction false} ExecKeepsSettled(s: State, steps: seq<Step>)
    requires Inv(s) && SettledInv(s) && Exec(s, steps).Some?
    ensures SettledInv(Exec(s, steps).value)
  {
    if steps != [] {
      ExecKeepsSettled(s, Front(steps));
      ExecKeepsInv(s, Front(steps));
      SettledKept(Exec(s, Front(steps)).value, Last(steps));
    }
  }

  lemma ReachableSettled(s: State)
    requires Reachable(s)
    ensures SettledInv(s)
  {
    var lcap: nat, steps :| Exec(Init(lcap), steps) == Some(s);
    InvInit(lcap);
    ExecKeepsSettled(Init(lcap), steps);
  }

  // ---- what is not settled was accepted later --------------------------------------------------------------

  /** Message m entered lgr.in before the record of flush f. */
  ghost predicate AcceptedBefore(s: State, m: Msg, f: nat) {
    exists i, j :: 0 <= i < j < |s.accepted| && s.accepted[i] == m && s.accepted[j] == Ctl(f)
  }

  /**
   The flush barrier holds from the acknowledgement on: in every later state, every record accepted
   before the flush record is settled at every host registered then, and is in neither queue stage.
   */
  lemma SettledFromThenOn(s: State, f: nat, k: nat, r: Rec)
    requires Reachable(s) && f in s.acked && AcceptedBefore(s, Data(r), f) && k < |s.targets|
    ensures s.targets[k] < |s.hosts| && SettledAt(s, s.hosts[s.targets[k]], r)
    ensures var h := s.hosts[s.targets[k]]; Data(r) !in s.lin && Data(r) !in h.q && Data(r) !in InFlight(h.pc)
  {
    ReachableInv(s);
    ReachableSettled(s);
    var i, j :| 0 <= i < j < |s.accepted| && s.accepted[i] == Data(r) && s.accepted[j] == Ctl(f);
    assert Acked(s, s.accepted[j]) && Everywhere(s, r);
    FannedNotQueued(s, r);
    SettledNotQueued(s, s.targets[k], r);
  }

  lemma FannedNotQueued(s: State, r: Rec)
    requires Fifo(s) && Ids(s) && r in s.fanned
    ensures Data(r) !in s.lin
  {
    DataOfIn(s.popped, r);
    var a :| 0 <= a < |s.popped| && s.popped[a] == Data(r);
    forall b | 0 <= b < |s.lin| ensures s.lin[b] != Data(r) {
      assert s.accepted[a] == s.popped[a] && s.accepted[|s.popped| + b] == s.lin[b];
    }
  }

  /** What the fan-out brought was passed over or offered. */
  lemma {:induction false} BroughtCount(hist: seq<Entry>)
    ensures multiset(Brought(hist)) == multiset(Skipped(hist)) + multiset(Offered(hist))
  {
    if hist != [] { BroughtCount(Front(hist)); }
  }

  /** A record still held by the host is in none of the places where its dealings with it are over. */
  lemma SettledNotQueued(s: State, h: nat, r: Rec)
    requires Reachable(s) && h < |s.hosts| && SettledAt(s, s.hosts[h], r)
    ensures Data(r) !in s.hosts[h].q && Data(r) !in InFlight(s.hosts[h].pc)
  {
    var host := s.hosts[h];
    ReachableInv(s);
    ExactlyOneFate(s, h, r);
    BroughtOnce(s, h, r);
    BroughtCount(host.hist);
    DataOfIn(host.q, r);
    DataOfIn(InFlight(host.pc), r);
    if Data(r) in host.q || Data(r) in InFlight(host.pc) {
      HeldOffered(s, h, r);
    }
  }

  lemma HeldOffered(s: State, h: nat, r: Rec)
    requires Inv(s) && h < |s.hosts| && (Data(r) in s.hosts[h].q || Data(r) in InFlight(s.hosts[h].pc))
    ensures r in Offered(s.hosts[h].hist)
  {
    var host := s.hosts[h];
    assert QueueInv(host);
    assert Data(r) in Admitted(host.hist);
    DataOfIn(Admitted(host.hist), r);
    OfferedCount(host.hist);
    assert r in multiset(Offered(host.hist));
  }

  /** A host is brought a record once at most, and none whose fan-out began before it was added. */
  lemma BroughtOnce(s: State, h: nat, r: Rec)
    requires Inv(s) && h < |s.hosts|
    ensures var host := s.hosts[h];
      && host.base <= |s.fanned| && multiset(Brought(host.hist))[r] <= 1
      && (r in s.fanned[..host.base] ==> r !in Brought(host.hist))
  {
    var host := s.hosts[h];
    assert BroughtInv(host, s.fanned);
    FannedInOrder(s, h);
    SubsequenceDistinct(Brought(host.hist), DataOf(s.accepted));
    DistinctOnce(Brought(host.hist), r);
    DataOfConcat(s.popped, s.lin);
    assert s.fanned <= DataOf(s.accepted);
    assert s.fanned == s.fanned[..host.base] + s.fanned[host.base..];
  }

  // ---- Shutdown returns nil -------------------------------------------------------------------------------

  /**
   Shutdown. When Shutdown returns nil after flush f, the read loop has exited, and at every registered
   host the target was shut down once and the reader has exited unless its wait was cut short. Every
   record accepted before the flush is settled there and waits nowhere; what is left in lgr.in was
   accepted after it. If nothing was, both queue stages are empty.
   */
  lemma CleanShutdown(s: State, k: nat, r: Rec)
    requires Reachable(s) && ReturningNil(s) && s.sd.via.Some? && k < |s.targets|
    ensures s.loop == Stopped && s.targets[k] < |s.hosts|
    ensures var h := s.hosts[s.targets[k]]; h.stops == 1 && (h.expired || h.pc.Exited?)
    ensures var h, f := s.hosts[s.targets[k]], s.sd.via.value;
      AcceptedBefore(s, Data(r), f) ==>
        SettledAt(s, h, r) && Data(r) !in s.lin && Data(r) !in h.q && Data(r) !in InFlight(h.pc)
    ensures Ctl(s.sd.via.value) in s.popped && s.accepted == s.popped + s.lin
    ensures s.accepted != [] && Last(s.accepted) == Ctl(s.sd.via.value) ==>
      s.lin == [] && Drained(s.hosts[s.targets[k]])
  {
    ReachableInv(s);
    var h := s.hosts[s.targets[k]];
    assert LifeInv(h, KillOn(s, s.targets[k]));
    if AcceptedBefore(s, Data(r), s.sd.via.value) { SettledFromThenOn(s, s.sd.via.value, k, r); }
    if s.accepted != [] && Last(s.accepted) == Ctl(s.sd.via.value) { assert Drained(h); }
  }
}
