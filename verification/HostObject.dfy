/**
 TargetHost as the object target.go writes it: fields updated by the loops of `start` and `flush`, by
 `writeRec`, `Log` and `Shutdown`. Each method is proved to be a run of the step machine of module
 TargetHost, so what is proved of the machine in every interleaving holds of these bodies.

 A method here runs alone, except where its code waits for the reader: there the reader is run.
 */
module HostObject {
  import opened Basics
  import opened TargetHost

  // ---- runs of the reader ---------------------------------------------------------------------------

  /** The host a run of reader steps leads to, or None if some step is not enabled when its turn comes. */
  function RunOf(h: Host, steps: seq<HStep>): Option<Host> {
    if steps == [] then Some(h)
    else
      var h' := RunOf(h, Front(steps));
      if h'.Some? && HEnabled(h'.value, Last(steps)) then Some(HApply(h'.value, Last(steps))) else None
  }

  lemma RunSnoc(h: Host, steps: seq<HStep>, st: HStep)
    requires RunOf(h, steps).Some? && HEnabled(RunOf(h, steps).value, st)
    ensures RunOf(h, steps + [st]) == Some(HApply(RunOf(h, steps).value, st))
  {
    assert Front(steps + [st]) == steps;
  }

  lemma {:induction false} RunConcat(h: Host, a: seq<HStep>, b: seq<HStep>)
    requires RunOf(h, a).Some? && RunOf(RunOf(h, a).value, b).Some?
    ensures RunOf(h, a + b) == RunOf(RunOf(h, a).value, b)
  {
    if b == [] {
      assert a + b == a;
    } else {
      RunConcat(h, a, Front(b));
      assert Front(a + b) == a + Front(b) && Last(a + b) == Last(b);
    }
  }

  /** What has been taken, is being written and is still queued. */
  function Line(h: Host): seq<Msg> { TakenMsgs(h.taken) + InFlight(h.pc) + h.q }

  /** The reader only moves messages along the line, and touches nothing of the sender's or of Shutdown's. */
  lemma {:induction false} RunConserves(h: Host, steps: seq<HStep>)
    requires RunOf(h, steps).Some?
    ensures var h' := RunOf(h, steps).value;
      Line(h') == Line(h) && h'.hist == h.hist && h'.cap == h.cap && h'.shut == h.shut && h'.filter == h.filter
  {
    if steps != [] {
      RunConserves(h, Front(steps));
      var t := RunOf(h, Front(steps)).value;
      StepConserves(t, Last(steps));
    }
  }

  lemma StepConserves(h: Host, st: HStep)
    requires HEnabled(h, st)
    ensures Line(HApply(h, st)) == Line(h)
  {
    match st
    case Pop =>
      HeadMoves(TakenMsgs(h.taken), h.q);
      if h.q[0].Ctl? { TakenSnoc(h.taken, Last(HApply(h, Pop).taken)); }
    case Finish(o) => TakenMoves(h.taken, Data(h.pc.r), o, h.q);
    case Panic => TakenMoves(h.taken, Data(h.pc.r), Lost, h.q);
    case Quit =>
    case DrainEnd =>
  }

  // ---- one message ------------------------------------------------------------------------------------

  /** How the message at the head of the queue can end. */
  predicate CanEnd(h: Host, o: Outcome) {
    && (h.pc.Idle? || h.pc.Draining?) && h.q != []
    && (if h.q[0].Ctl? then o == (if h.pc.Idle? then Served else Ignored)
        else if h.q[0].r.lvl in h.filter then o.Written? || o.Failed? || o.Lost? else o.Unlisted?)
  }

  /** The reader deals with the message at the head of the queue, all the way to its next select. */
  function Handle(h: Host, o: Outcome): Host
    requires CanEnd(h, o)
  {
    var h' := h.(q := h.q[1..], taken := h.taken + [Taken(h.q[0], o)]);
    match h.q[0]
    case Ctl(n) => if h.pc.Idle? then h'.(pc := Draining(n)) else h'
    case Data(r) =>
      h'.(pc := if o.Lost? then Idle else h.pc,
          logged := if h.pc.Idle? && o.Written? then h.logged + 1 else h.logged,
          errors := if o.Failed? || o.Unlisted? then h.errors + 1 else h.errors)
  }

  function HandleRun(h: Host, o: Outcome): seq<HStep>
    requires CanEnd(h, o)
  {
    if h.q[0].Ctl? then [Pop] else [Pop, EndOf(o)]
  }

  /** The step that ends a write. */
  function EndOf(o: Outcome): HStep { if o.Lost? then Panic else Finish(o) }

  lemma HandleIsRun(h: Host, o: Outcome)
    requires CanEnd(h, o)
    ensures RunOf(h, HandleRun(h, o)) == Some(Handle(h, o))
  {
    if h.q[0].Ctl? {
      RunOne(h, Pop);
    } else {
      RunTwo(h, Pop, EndOf(o));
      HandleData(h, o);
    }
  }

  lemma RunOne(h: Host, a: HStep)
    requires HEnabled(h, a)
    ensures RunOf(h, [a]) == Some(HApply(h, a))
  {
    assert Front([a]) == [];
  }

  lemma RunTwo(h: Host, a: HStep, b: HStep)
    requires HEnabled(h, a) && HEnabled(HApply(h, a), b)
    ensures RunOf(h, [a, b]) == Some(HApply(HApply(h, a), b))
  {
    RunOne(h, a);
    assert Front([a, b]) == [a];
  }

  lemma HandleData(h: Host, o: Outcome)
    requires (h.pc.Idle? || h.pc.Draining?) && h.q != [] && h.q[0].Data?
    ensures HEnabled(HApply(h, Pop), EndOf(o)) <==> CanEnd(h, o)
    ensures CanEnd(h, o) ==> HApply(HApply(h, Pop), EndOf(o)) == Handle(h, o)
  {}

  lemma HandleExtends(h: Host, steps: seq<HStep>, o: Outcome)
    requires RunOf(h, steps).Some? && CanEnd(RunOf(h, steps).value, o)
    ensures var h1 := RunOf(h, steps).value; RunOf(h, steps + HandleRun(h1, o)) == Some(Handle(h1, o))
  {
    HandleIsRun(RunOf(h, steps).value, o);
    RunConcat(h, steps, HandleRun(RunOf(h, steps).value, o));
  }

  // ---- the object ------------------------------------------------------------------------------------

  class Queue {
    const cap: nat
    var filter: set<nat>
    var inq: seq<Msg>              // the channel h.in
    var shut: bool
    var quits: nat                 // how often h.quit was closed
    var dones: nat                 // how often h.done was closed
    var stops: nat                 // how often target.Shutdown was called
    var logged: nat
    var errors: nat
    var dropped: nat
    var blocked: nat
    var output: seq<Rec>           // what the target has written
    ghost var expired: bool
    ghost var filter0: set<nat>
    ghost var base: nat
    ghost var hist: seq<Entry>
    ghost var taken: seq<Taken>

    /** The machine's view of the object, with the reader at `pc`. */
    ghost function Model(pc: Pc): Host
      reads this
    {
      Host(cap, filter, inq, pc, shut, quits, dones, stops, expired, logged, errors, dropped, blocked,
           filter0, base, hist, taken)
    }

    ghost predicate Valid()
      reads this
    {
      output == Ended(taken, Written)
    }

    constructor (cap: nat, filter: set<nat>, ghost base: nat)
      ensures Valid() && Model(Idle) == NewHost(cap, filter, base) && output == []
    {
      this.cap, this.filter, this.inq, this.shut := cap, filter, [], false;
      this.quits, this.dones, this.stops := 0, 0, 0;
      this.logged, this.errors, this.dropped, this.blocked := 0, 0, 0, 0;
      this.output := [];
      this.expired, this.filter0, this.base, this.hist, this.taken := false, filter, base, [], [];
    }

    /** How the formatter and the target treat a record is their affair: they may fail or panic. */
    method WriteRec(r: Rec) returns (o: Outcome)
      requires Valid()
      modifies this`output, this`taken
      ensures Valid() && taken == old(taken) + [Taken(Data(r), o)]
      ensures if r.lvl in filter then o.Written? || o.Failed? || o.Lost? else o.Unlisted?
      ensures output == if o.Written? then old(output) + [r] else old(output)
    {
      if r.lvl !in filter {
        o := Unlisted;
      } else {
        var ok: bool, panics: bool := *, *;
        o := if panics then Lost else if ok then Written else Failed;
        if o.Written? { output := output + [r]; }
      }
      taken := taken + [Taken(Data(r), o)];
      forall k: Outcome ensures Ended(taken, k) == Ended(old(taken), k) + (if o == k then [r] else []) {
        EndedSnoc(old(taken), Taken(Data(r), o), k);
      }
    }

    /** What `start` does once it has a log record. */
    method FinishWrite(r: Rec) returns (ghost o: Outcome)
      requires Valid()
      modifies this`logged, this`errors, this`output, this`taken
      ensures Valid() && HEnabled(old(Model(Writing(r))), EndOf(o))
      ensures Model(Idle) == HApply(old(Model(Writing(r))), EndOf(o))
    {
      var wrote := WriteRec(r);
      o := wrote;
      if wrote.Written? {
        logged := logged + 1;
      } else if !wrote.Lost? {
        errors := errors + 1;
      }
    }

    /** What `flush` does once it has a log record. */
    method FinishDrain(n: nat, r: Rec) returns (pc: Pc, ghost o: Outcome)
      requires Valid()
      modifies this`errors, this`output, this`taken
      ensures Valid() && HEnabled(old(Model(DrainWriting(n, r))), EndOf(o))
      ensures Model(pc) == HApply(old(Model(DrainWriting(n, r))), EndOf(o)) && (pc == Draining(n) || pc == Idle)
    {
      var wrote := WriteRec(r);
      o := wrote;
      pc := if wrote.Lost? then Idle else Draining(n);
      if !wrote.Written? && !wrote.Lost? {
        errors := errors + 1;
      }
    }

    /** One round of the loop in `flush` that finds a message. */
    method DrainOne(n: nat) returns (pc: Pc, ghost o: Outcome)
      requires Valid() && inq != []
      modifies this`inq, this`errors, this`output, this`taken
      ensures Valid() && CanEnd(old(Model(Draining(n))), o)
      ensures Model(pc) == Handle(old(Model(Draining(n))), o) && (pc == Draining(n) || pc == Idle)
      ensures inq == old(inq[1..])
    {
      ghost var h := Model(Draining(n));
      var m := inq[0];
      inq := inq[1..];
      if m.Data? {
        assert Model(DrainWriting(n, m.r)) == HApply(h, Pop);
        pc, o := FinishDrain(n, m.r);
        HandleData(h, o);
      } else {
        pc, o := Draining(n), Ignored;
        EndedSnoc(taken, Taken(m, o), Written);
        taken := taken + [Taken(m, o)];
      }
    }

    /**
     `flush`: writes everything queued, counting failures only, and is then about to signal. A panic
     ends it early with the signal never sent, and the restarted reader is back at its select.
     */
    method Flush(n: nat) returns (pc: Pc, ghost steps: seq<HStep>)
      requires Valid()
      modifies this`inq, this`errors, this`output, this`taken
      ensures Valid() && RunOf(old(Model(Draining(n))), steps) == Some(Model(pc))
      ensures pc == Signalling(n) || pc == Idle
      ensures pc.Signalling? ==> inq == []
      ensures |inq| <= old(|inq|)
    {
      pc, steps := Draining(n), [];
      while pc.Draining? && inq != []
        invariant Valid() && |inq| <= old(|inq|) && (pc == Draining(n) || pc == Idle)
        invariant RunOf(old(Model(Draining(n))), steps) == Some(Model(pc))
        decreases |inq|
      {
        ghost var h, o := Model(pc), Ignored;
        pc, o := DrainOne(n);
        HandleExtends(old(Model(Draining(n))), steps, o);
        steps := steps + HandleRun(h, o);
      }
      if pc.Draining? {
        RunSnoc(old(Model(Draining(n))), steps, DrainEnd);
        pc, steps := Signalling(n), steps + [DrainEnd];
      }
    }

    /** One round of the loop in `start` that finds a log record. */
    method WriteOne() returns (ghost o: Outcome)
      requires Valid() && inq != [] && inq[0].Data?
      modifies this`inq, this`logged, this`errors, this`output, this`taken
      ensures Valid() && CanEnd(old(Model(Idle)), o)
      ensures Model(Idle) == Handle(old(Model(Idle)), o) && inq == old(inq[1..])
    {
      ghost var h := Model(Idle);
      var m := inq[0];
      inq := inq[1..];
      assert Model(Writing(m.r)) == HApply(h, Pop);
      o := FinishWrite(m.r);
      HandleData(h, o);
    }

    /** One round of the loop in `start` that finds a flush record. */
    method ServeOne() returns (pc: Pc, ghost steps: seq<HStep>)
      requires Valid() && inq != [] && inq[0].Ctl?
      modifies this`inq, this`errors, this`output, this`taken
      ensures Valid() && RunOf(old(Model(Idle)), steps) == Some(Model(pc))
      ensures pc == Signalling(old(inq)[0].n) || pc == Idle
      ensures |inq| < old(|inq|)
    {
      var m := inq[0];
      inq := inq[1..];
      EndedSnoc(taken, Taken(m, Served), Written);
      taken := taken + [Taken(m, Served)];
      HandleIsRun(old(Model(Idle)), Served);
      assert Model(Draining(m.n)) == Handle(old(Model(Idle)), Served);
      ghost var rest;
      pc, rest := Flush(m.n);
      steps := HandleRun(old(Model(Idle)), Served) + rest;
      RunConcat(old(Model(Idle)), HandleRun(old(Model(Idle)), Served), rest);
    }

    /** One round of the loop in `start`. With h.quit closed and records queued either may be chosen. */
    method Round() returns (pc: Pc, ghost steps: seq<HStep>)
      requires Valid() && (inq != [] || quits > 0)
      modifies this`inq, this`logged, this`errors, this`output, this`taken, this`dones
      ensures Valid() && RunOf(old(Model(Idle)), steps) == Some(Model(pc))
      ensures pc.Idle? || pc.Signalling? || (pc.Exited? && quits > 0)
      ensures |inq| <= old(|inq|) && (pc.Idle? ==> |inq| < old(|inq|))
    {
      ghost var h := Model(Idle);
      var quitChosen: bool := *;
      if quits > 0 && (inq == [] || quitChosen) {
        RunOne(h, Quit);
        pc, dones, steps := Exited, dones + 1, [Quit];
      } else if inq[0].Data? {
        pc := Idle;
        ghost var o := WriteOne();
        HandleIsRun(h, o);
        steps := HandleRun(h, o);
      } else {
        pc, steps := ServeOne();
      }
    }

    /**
     `start`: until it has seen h.quit closed, or waits for its flush signal to be received, or for
     something to come. If `preempted`, the scheduler may also leave it at its select at any time.
     */
    method Start(preempted: bool) returns (pc: Pc, ghost steps: seq<HStep>)
      requires Valid()
      modifies this`inq, this`logged, this`errors, this`output, this`taken, this`dones
      ensures Valid() && RunOf(old(Model(Idle)), steps) == Some(Model(pc))
      ensures pc.Idle? || pc.Signalling? || (pc.Exited? && quits > 0)
      ensures !preempted && pc.Idle? ==> inq == [] && quits == 0
    {
      pc, steps := Idle, [];
      var scheduled: bool := *;
      while (scheduled || !preempted) && pc.Idle? && (inq != [] || quits > 0)
        invariant Valid() && (pc.Idle? || pc.Signalling? || (pc.Exited? && quits > 0))
        invariant RunOf(old(Model(Idle)), steps) == Some(Model(pc))
        decreases |inq|, if pc.Idle? then 1 else 0
      {
        ghost var more;
        pc, more := Round();
        RunConcat(old(Model(Idle)), steps, more);
        steps := steps + more;
        scheduled := *;
      }
    }

    /** The reader finishes what it is at, up to its next select in `start`, its signal or its end. */
    method FinishOff(at: Pc) returns (pc: Pc, ghost steps: seq<HStep>)
      requires Valid()
      modifies this`inq, this`logged, this`errors, this`output, this`taken
      ensures Valid() && RunOf(old(Model(at)), steps) == Some(Model(pc))
      ensures pc.Idle? || pc.Signalling? || pc.Exited?
      ensures |inq| <= old(|inq|)
    {
      pc, steps := at, [];
      if at.Writing? {
        ghost var o := FinishWrite(at.r);
        RunOne(old(Model(at)), EndOf(o));
        pc, steps := Idle, [EndOf(o)];
      } else if at.DrainWriting? {
        ghost var o;
        pc, o := FinishDrain(at.n, at.r);
        RunOne(old(Model(at)), EndOf(o));
        steps := [EndOf(o)];
      }
      if pc.Draining? {
        ghost var more;
        pc, more := Flush(pc.n);
        RunConcat(old(Model(at)), steps, more);
        steps := steps + more;
      }
    }

    /** The reader, wherever it is, goes on for as long as the scheduler lets it. */
    method Resume(at: Pc) returns (pc: Pc, ghost steps: seq<HStep>)
      requires Valid()
      modifies this`inq, this`logged, this`errors, this`output, this`taken, this`dones
      ensures Valid() && RunOf(old(Model(at)), steps) == Some(Model(pc))
    {
      var scheduled: bool := *;
      if !scheduled { return at, []; }
      pc, steps := FinishOff(at);
      if pc.Idle? {
        ghost var more;
        pc, more := Start(true);
        RunConcat(old(Model(at)), steps, more);
        steps := steps + more;
      }
    }

    /** `Log`, with the reader at `at`: `drop` is the answer of the queue-full handler. */
    method Log(m: Msg, drop: bool, at: Pc) returns (d: Decision, pc: Pc, ghost steps: seq<HStep>)
      requires Valid()
      modifies this
      ensures Valid() && (d.Refuse? <==> old(shut)) && (d.Drop? <==> !old(shut) && old(|inq|) >= cap && drop)
      ensures d.Refuse? || d.Drop? ==> pc == at && Model(pc) == Turn(old(Model(at)), m, d, false)
      ensures !old(shut) && old(|inq|) < cap ==>
        d.Admit? && pc == at && Model(pc) == Enlist(old(Model(at)), m, false)
      ensures !old(shut) && old(|inq|) >= cap && !drop ==>
        && LogGuard(old(Model(at)), GBlock, m) && (d.Admit? || d.Expire?)
        && var h := RunOf(LogEffect(old(Model(at)), GBlock, m, false), steps);
           && h.Some? && LogGuard(h.value, if d.Admit? then GSend else GExpire, m)
           && Model(pc) == LogEffect(h.value, if d.Admit? then GSend else GExpire, m, true)
    {
      pc, steps := at, [];
      if shut {
        d := Refuse;
        hist := hist + [Offer(m, d, false)];
        return;
      }
      if |inq| < cap {
        d, inq := Admit, inq + [m];
        hist := hist + [Offer(m, d, false)];
        return;
      }
      if drop {
        d, dropped := Drop, dropped + 1;
        hist := hist + [Offer(m, d, false)];
        return;
      }
      d, pc, steps := Block(m, at);
    }

    /** The second select of `Log`. The reader gets to run meanwhile; which branch is taken is open. */
    method Block(m: Msg, at: Pc) returns (d: Decision, pc: Pc, ghost steps: seq<HStep>)
      requires Valid() && |inq| >= cap
      modifies this
      ensures Valid() && (d.Admit? || d.Expire?)
      ensures var h := RunOf(LogEffect(old(Model(at)), GBlock, m, false), steps);
        && h.Some? && LogGuard(h.value, if d.Admit? then GSend else GExpire, m)
        && Model(pc) == LogEffect(h.value, if d.Admit? then GSend else GExpire, m, true)
    {
      ghost var h := Model(at);
      blocked := blocked + 1;
      assert Model(at) == LogEffect(h, GBlock, m, false);
      pc, steps := Resume(at);
      d := Settle(m, pc);
    }

    /** The branch the second select of `Log` takes: room has come up, or the timeout has. */
    method Settle(m: Msg, ghost pc: Pc) returns (d: Decision)
      requires Valid()
      modifies this`inq, this`hist
      ensures Valid() && (d.Admit? || d.Expire?)
      ensures LogGuard(old(Model(pc)), if d.Admit? then GSend else GExpire, m)
      ensures Model(pc) == LogEffect(old(Model(pc)), if d.Admit? then GSend else GExpire, m, true)
    {
      var timeout: bool := *;
      if |inq| < cap && !timeout {
        d, inq := Admit, inq + [m];
      } else {
        d := Expire;
      }
      hist := hist + [Offer(m, d, true)];
    }

    /**
     `Shutdown`, with the reader at `at`, which gets to run while this waits for h.done; the context may
     expire first. `stopped` is what the target's own Shutdown reports.
     */
    method Shutdown(stopped: bool, at: Pc) returns (ok: bool, pc: Pc, ghost steps: seq<HStep>)
      requires Valid()
      modifies this
      ensures Valid() && ok == (!old(shut) && stopped)
      ensures old(shut) ==> pc == at && Model(pc) == old(Model(at))
      ensures !old(shut) ==>
        && shut && quits == old(quits) + 1 && stops == old(stops) + 1
        && var h := RunOf(KillEffect(KillEffect(old(Model(at)), KSwap), KClose), steps);
           h.Some? && h.value.pc == pc
           && Model(pc) == KillEffect(KillEffect(h.value, if pc.Exited? then KDone else KExpire), KStop(ok))
    {
      pc, steps := at, [];
      if shut { return false, pc, steps; }
      ghost var h := Model(at);
      shut := true;
      quits := quits + 1;
      assert Model(at) == KillEffect(KillEffect(h, KSwap), KClose);
      pc, steps := Resume(at);
      StopTarget(pc, stopped);
      ok := stopped;
    }

    /** The end of `Shutdown`: the wait is over, one way or the other, and the target is shut down. */
    method StopTarget(pc: Pc, ghost ok: bool)
      requires Valid()
      modifies this`expired, this`stops
      ensures Valid() && stops == old(stops) + 1
      ensures Model(pc) == KillEffect(KillEffect(old(Model(pc)), if pc.Exited? then KDone else KExpire), KStop(ok))
    {
      expired := if pc.Exited? then expired else true;
      stops := stops + 1;
    }
  }
}
