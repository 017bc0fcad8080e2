/**
 The two-stage pipeline (logr.go and target.go) as a step system.

 Every channel operation, lock acquisition, atomic access and loop iteration is one step; a step
 carries the outcome of each choice the code leaves open (which ready branch `select` takes, what a
 handler answers, whether a wait times out, how a write ends). `Enabled` says when a step can
 happen, `Apply` what it does. Goroutines are interleaved freely: a run is any sequence of enabled
 steps.
 */
module Pipeline {
  import opened Basics
  import opened TargetHost

  /** Which call of `Log` the read loop is in: fanning a record out, or flushing the hosts. */
  datatype Job =
    | FanOut(r: Rec, back: Option<nat>)  // `back` is the flush to resume draining for, if any
    | FlushHosts(f: nat)

  /** The read loop of Logr. Index `i` is the position in `targetHosts`. */
  datatype Loop =
    | Select                                  // at the select of `start`
    | Popped(r: Rec, back: Option<nat>)       // record in hand, read lock not yet held
    | Drain(f: nat)                           // at the select of the drain loop in `flush`
    | Locking(f: nat)                         // lgr.in drained, read lock not yet held
    | At(job: Job, i: nat)                    // about to treat host i
    | Sel(job: Job, i: nat, m: Msg)           // inside Log, at the non-blocking select
    | Blk(job: Job, i: nat, m: Msg)           // inside Log, at the blocking select
    | Wait(f: nat, i: nat, n: nat)            // receiving on the nested flush record's channel
    | Ack(f: nat)                             // blocked on the unbuffered send to the flush caller
    | Stopped                                 // `start` returned and closed lgr.done

  /** A call of Log, Flush or Shutdown in progress, keyed by the id of its message. */
  datatype Caller =
    | Check(sd: bool)                           // HasTargets was true; IsShutdown not yet read
    | Enq(m: Msg, blocked: bool, sd: bool)      // inside `enqueue`
    | Await(sd: bool)                           // waiting for its flush record's signal
    | Flushed(via: Option<nat>)                 // Shutdown only: FlushWithTimeout returned nil

  /** Progress through TargetHost.Shutdown for one host. */
  datatype Kill = Swapping | ClosingQuit | AwaitingDone | Stopping

  /** The Shutdown call that won the flag; `via` is the flush it waited for, None if it had no targets. */
  datatype Sd =
    | Up
    | Closing(via: Option<nat>)
    | Waiting(via: Option<nat>)
    | Relock(via: Option<nat>, err: bool)
    | Hosts(via: Option<nat>, j: nat, k: Kill, err: bool)
    | Down(via: Option<nat>, err: bool)

  /** RemoveTargets, holding the write lock. */
  datatype Rm = Free | Removing(sel: set<nat>, j: nat, k: Kill, keep: seq<nat>, err: bool)

  datatype State = State(
    lcap: nat, lin: seq<Msg>, loop: Loop, calls: map<nat, Caller>, nextId: nat,
    hosts: seq<Host>,       // every host ever created; a host is named by its index
    targets: seq<nat>,      // lgr.targetHosts
    adders: nat,            // AddTarget calls past the shutdown check
    shut: bool, quits: nat, dones: nat, sd: Sd, rm: Rm,
    accepted: seq<Msg>,     // history: order of entry to lgr.in
    popped: seq<Msg>,       // history: order of removal from lgr.in
    fanned: seq<Rec>,       // history: records whose fan-out has started
    acked: set<nat>)        // history: flushes acknowledged

  function Init(lcap: nat): State {
    State(lcap, [], Select, map[], 0, [], [], 0, false, 0, 0, Up, Free, [], [], [], {})
  }

  // ---- the read-write lock `tmux` ---------------------------------------------------------------

  predicate LoopReads(l: Loop) { l.At? || l.Sel? || l.Blk? || l.Wait? || l.Ack? }

  predicate AtHost(s: State) {
    (s.loop.At? || s.loop.Sel? || s.loop.Blk? || s.loop.Wait?) && s.loop.i < |s.targets|
        && s.targets[s.loop.i] < |s.hosts|
  }

  function Here(s: State): nat
    requires AtHost(s)
  {
    s.targets[s.loop.i]
  }

  function HereHost(s: State): Host
    requires AtHost(s)
  {
    s.hosts[Here(s)]
  }

  // ---- the read loop -----------------------------------------------------------------------------

  datatype LStep =
    | LPop       // receive from lgr.in, in `start` or while draining
    | LQuit      // `start` sees lgr.quit closed
    | LDrained   // the drain loop finds lgr.in empty
    | LLock      // acquire the read lock
    | LNext      // the nested flush record is signalled: rendezvous with the host's reader
    | LEnd       // past the last host
    | LAck       // rendezvous with the flush caller

  predicate LEnabled(s: State, st: LStep) {
    match st
    case LPop => (s.loop.Select? || s.loop.Drain?) && s.lin != []
    case LQuit => s.loop.Select? && s.quits > 0
    case LDrained => s.loop.Drain? && s.lin == []
    case LLock => (s.loop.Popped? || s.loop.Locking?) && s.rm.Free?
    case LNext => s.loop.Wait? && AtHost(s) && HereHost(s).pc == Signalling(s.loop.n)
    case LEnd => s.loop.At? && s.loop.i == |s.targets|
    case LAck => s.loop.Ack? && s.loop.f in s.calls && s.calls[s.loop.f].Await?
  }

  function SetHost(s: State, h: nat, host: Host): State
    requires h < |s.hosts|
  {
    s.(hosts := s.hosts[h := host])
  }

  function Resume(back: Option<nat>): Loop {
    if back.None? then Select else Drain(back.value)
  }

  function LApply(s: State, st: LStep): State
    requires LEnabled(s, st)
  {
    match st
    case LPop => (
      var s' := s.(lin := s.lin[1..], popped := s.popped + [s.lin[0]]);
      match s.lin[0]
      case Data(r) => s'.(loop := Popped(r, if s.loop.Select? then None else Some(s.loop.f)))
      case Ctl(f) => if s.loop.Select? then s'.(loop := Drain(f)) else s')
    case LQuit => s.(loop := Stopped, dones := s.dones + 1)
    case LDrained => s.(loop := Locking(s.loop.f))
    case LLock =>
      if s.loop.Popped? then s.(loop := At(FanOut(s.loop.r, s.loop.back), 0), fanned := s.fanned + [s.loop.r])
      else s.(loop := At(FlushHosts(s.loop.f), 0))
    case LNext => SetHost(s, Here(s), HereHost(s).(pc := Idle)).(loop := At(FlushHosts(s.loop.f), s.loop.i + 1))
    case LEnd => s.(loop := if s.loop.job.FanOut? then Resume(s.loop.job.back) else Ack(s.loop.job.f))
    case LAck =>
      s.(loop := Select, acked := s.acked + {s.loop.f},
         calls := if s.calls[s.loop.f].sd then s.calls[s.loop.f := Flushed(Some(s.loop.f))] else s.calls - {s.loop.f})
  }

  /** What `Log` is called with: the record itself, or a fresh nested flush record. */
  function Payload(s: State): Msg
    requires s.loop.At? || s.loop.Sel? || s.loop.Blk?
  {
    if !s.loop.At? then s.loop.m
    else if s.loop.job.FanOut? then Data(s.loop.job.r)
    else Ctl(s.nextId)
  }

  predicate GEnabled(s: State, st: LogStep) {
    && (match st
        case GSkip => s.loop.At?
        case GRefuse => s.loop.At?
        case GPass => s.loop.At?
        case GSend => s.loop.Sel? || s.loop.Blk?
        case GDrop => s.loop.Sel?
        case GBlock => s.loop.Sel?
        case GExpire => s.loop.Blk?)
    && AtHost(s)
    && LogGuard(HereHost(s), st, Payload(s))
  }

  /** Where the loop goes next: on inside `Log`, or back from it. */
  function Goto(job: Job, i: nat, m: Msg, st: LogStep): Loop {
    match st
    case GPass => Sel(job, i, m)
    case GBlock => Blk(job, i, m)
    case _ => if job.FanOut? then At(job, i + 1) else Wait(job.f, i, Id(m))
  }

  function GApply(s: State, st: LogStep): State
    requires GEnabled(s, st)
  {
    var m := Payload(s);
    SetHost(s, Here(s), LogEffect(HereHost(s), st, m, s.loop.Blk?))
      .(loop := Goto(s.loop.job, s.loop.i, m, st),
        nextId := if s.loop.At? && m.Ctl? then s.nextId + 1 else s.nextId)
  }

  // ---- callers of Log, Flush and Shutdown ----------------------------------------------------------

  datatype CStep =
    | CLog(lvl: nat)         // Log: the shutdown flag is clear and the level is enabled
    | CFlush(sd: bool)       // Flush or Shutdown: HasTargets
    | CCheck(id: nat)        // Flush or Shutdown: IsShutdown
    | CPush(id: nat)         // enqueue: the push succeeds, fast or slow path
    | CDrop(id: nat)         // enqueue: queue full, handler asks to drop
    | CBlock(id: nat)        // enqueue: queue full, go to the blocking select
    | CExpire(id: nat)       // enqueue: the blocking select times out
    | CGiveUp(id: nat)       // Flush or Shutdown: the context expires
    | CSwap(id: nat)         // Shutdown: swap the flag

  predicate Enqueuing(s: State, id: nat) { id in s.calls && s.calls[id].Enq? }

  predicate CEnabled(s: State, st: CStep) {
    match st
    case CLog(_) => !s.shut
    case CFlush(_) => s.rm.Free?
    case CCheck(id) => id in s.calls && s.calls[id].Check?
    case CPush(id) => Enqueuing(s, id) && |s.lin| < s.lcap
    case CDrop(id) => Enqueuing(s, id) && !s.calls[id].blocked && |s.lin| >= s.lcap
    case CBlock(id) => Enqueuing(s, id) && !s.calls[id].blocked && |s.lin| >= s.lcap
    case CExpire(id) => Enqueuing(s, id) && s.calls[id].blocked
    case CGiveUp(id) => id in s.calls && s.calls[id].Await?
    case CSwap(id) => id in s.calls && s.calls[id].Flushed?
  }

  /** `enqueue` returns: Log is over, Flush goes on to wait, whether or not its record got in. */
  function Returned(s: State, id: nat): State
    requires Enqueuing(s, id)
  {
    s.(calls := if s.calls[id].m.Data? then s.calls - {id} else s.calls[id := Await(s.calls[id].sd)])
  }

  function CApply(s: State, st: CStep): State
    requires CEnabled(s, st)
  {
    match st
    case CLog(lvl) => s.(calls := s.calls[s.nextId := Enq(Data(Rec(s.nextId, lvl)), false, false)],
        nextId := s.nextId + 1)
    case CFlush(sd) =>
      if s.targets != [] then s.(calls := s.calls[s.nextId := Check(sd)], nextId := s.nextId + 1)
      else if sd then s.(calls := s.calls[s.nextId := Flushed(None)], nextId := s.nextId + 1)
      else s
    case CCheck(id) =>
      if s.shut then s.(calls := s.calls - {id})
      else s.(calls := s.calls[id := Enq(Ctl(id), false, s.calls[id].sd)])
    case CPush(id) =>
      var m := s.calls[id].m;
      Returned(s, id).(lin := s.lin + [m], accepted := s.accepted + [m])
    case CDrop(id) => Returned(s, id)
    case CBlock(id) => s.(calls := s.calls[id := s.calls[id].(blocked := true)])
    case CExpire(id) => Returned(s, id)
    case CGiveUp(id) => s.(calls := s.calls - {id})
    case CSwap(id) =>
      if s.shut then s.(calls := s.calls - {id})
      else s.(shut := true, sd := Closing(s.calls[id].via), calls := s.calls - {id})
  }

  // ---- Shutdown, RemoveTargets, AddTarget, filters --------------------------------------------------

  datatype TStep =
    | TClose                              // Shutdown: close lgr.quit
    | TDone                               // Shutdown: lgr.done is closed
    | TExpire                             // Shutdown: the context expires first
    | TRelock                             // Shutdown: acquire the read lock
    | TDown                               // Shutdown: past the last host
    | TRemove(sel: set<nat>)              // RemoveTargets: acquire the write lock
    | TKeep                               // RemoveTargets: this host stays
    | TRemoved                            // RemoveTargets: past the last host
    | TAddCheck                           // AddTarget: shutdown flag clear
    | TAddFail                            // AddTarget: target.Init fails
    | TAdd(cap: nat, filter: set<nat>)    // AddTarget: under the write lock
    | TGrow(h: nat, lvls: set<nat>)       // CustomFilter.Add

  predicate TEnabled(s: State, st: TStep) {
    match st
    case TClose => s.sd.Closing?
    case TDone => s.sd.Waiting? && s.loop.Stopped?
    case TExpire => s.sd.Waiting?
    case TRelock => s.sd.Relock? && s.rm.Free?
    case TDown => s.sd.Hosts? && s.sd.j == |s.targets|
    case TRemove(_) => s.rm.Free? && !LoopReads(s.loop) && !s.sd.Hosts?
    case TKeep => s.rm.Removing? && s.rm.j < |s.targets| && s.targets[s.rm.j] !in s.rm.sel
    case TRemoved => s.rm.Removing? && s.rm.j == |s.targets|
    case TAddCheck => !s.shut
    case TAddFail => s.adders > 0
    case TAdd(_, _) => s.adders > 0 && s.rm.Free? && !LoopReads(s.loop) && !s.sd.Hosts?
    case TGrow(h, _) => h < |s.hosts|
  }

  function TApply(s: State, st: TStep): State
    requires TEnabled(s, st)
  {
    match st
    case TClose => s.(sd := Waiting(s.sd.via), quits := s.quits + 1)
    case TDone => s.(sd := Relock(s.sd.via, false))
    case TExpire => s.(sd := Relock(s.sd.via, true))
    case TRelock => s.(sd := Hosts(s.sd.via, 0, Swapping, s.sd.err))
    case TDown => s.(sd := Down(s.sd.via, s.sd.err))
    case TRemove(sel) => s.(rm := Removing(sel, 0, Swapping, [], false))
    case TKeep => s.(rm := s.rm.(j := s.rm.j + 1, k := Swapping, keep := s.rm.keep + [s.targets[s.rm.j]]))
    case TRemoved => s.(rm := Free, targets := s.rm.keep)
    case TAddCheck => s.(adders := s.adders + 1)
    case TAddFail => s.(adders := s.adders - 1)
    case TAdd(cap, filter) =>
      s.(adders := s.adders - 1, hosts := s.hosts + [NewHost(cap, filter, |s.fanned|)],
         targets := s.targets + [|s.hosts|])
    case TGrow(h, lvls) => SetHost(s, h, s.hosts[h].(filter := s.hosts[h].filter + lvls))
  }

  // ---- TargetHost.Shutdown, called by Shutdown or by RemoveTargets ------------------------------------

  datatype Who = ByShutdown | ByRemove

  /** The caller is inside TargetHost.Shutdown for one host. */
  predicate Killing(s: State, who: Who) {
    match who
    case ByShutdown => s.sd.Hosts? && s.sd.j < |s.targets| && s.targets[s.sd.j] < |s.hosts|
    case ByRemove =>
      s.rm.Removing? && s.rm.j < |s.targets| && s.targets[s.rm.j] < |s.hosts| && s.targets[s.rm.j] in s.rm.sel
  }

  function Victim(s: State, who: Who): nat
    requires Killing(s, who)
  {
    if who.ByShutdown? then s.targets[s.sd.j] else s.targets[s.rm.j]
  }

  function Phase(s: State, who: Who): Kill
    requires Killing(s, who)
  {
    if who.ByShutdown? then s.sd.k else s.rm.k
  }

  predicate KEnabled(s: State, who: Who, st: KillStep) {
    && Killing(s, who)
    && match st
       case KSwap => Phase(s, who).Swapping?
       case KClose => Phase(s, who).ClosingQuit?
       case KDone => Phase(s, who).AwaitingDone? && s.hosts[Victim(s, who)].pc.Exited?
       case KExpire => Phase(s, who).AwaitingDone?
       case KStop(_) => Phase(s, who).Stopping?
  }

  function ToPhase(s: State, who: Who, k: Kill): State
    requires Killing(s, who)
  {
    if who.ByShutdown? then s.(sd := s.sd.(k := k)) else s.(rm := s.rm.(k := k))
  }

  function ToNext(s: State, who: Who, err: bool): State
    requires Killing(s, who)
  {
    if who.ByShutdown? then s.(sd := s.sd.(j := s.sd.j + 1, k := Swapping, err := s.sd.err || err))
    else s.(rm := s.rm.(j := s.rm.j + 1, k := Swapping, err := s.rm.err || err))
  }

  function KApply(s: State, who: Who, st: KillStep): State
    requires KEnabled(s, who, st)
  {
    var h := Victim(s, who);
    if st.KSwap? && s.hosts[h].shut then ToNext(s, who, true)
    else
      var s' := match st
        case KSwap => ToPhase(s, who, ClosingQuit)
        case KClose => ToPhase(s, who, AwaitingDone)
        case KDone => ToPhase(s, who, Stopping)
        case KExpire => ToPhase(s, who, Stopping)
        case KStop(ok) => ToNext(s, who, !ok);
      SetHost(s', h, KillEffect(s.hosts[h], st))
  }

  // ---- runs -----------------------------------------------------------------------------------------

  datatype Step =
    | OfLoop(l: LStep)
    | OfLog(g: LogStep)
    | OfHost(h: nat, st: HStep)
    | OfCaller(c: CStep)
    | OfTargets(t: TStep)
    | OfKill(who: Who, k: KillStep)

  predicate Enabled(s: State, st: Step) {
    match st
    case OfLoop(l) => LEnabled(s, l)
    case OfLog(g) => GEnabled(s, g)
    case OfHost(h, hs) => h < |s.hosts| && HEnabled(s.hosts[h], hs)
    case OfCaller(c) => CEnabled(s, c)
    case OfTargets(t) => TEnabled(s, t)
    case OfKill(who, k) => KEnabled(s, who, k)
  }

  function Apply(s: State, st: Step): State
    requires Enabled(s, st)
  {
    match st
    case OfLoop(l) => LApply(s, l)
    case OfLog(g) => GApply(s, g)
    case OfHost(h, hs) => SetHost(s, h, HApply(s.hosts[h], hs))
    case OfCaller(c) => CApply(s, c)
    case OfTargets(t) => TApply(s, t)
    case OfKill(who, k) => KApply(s, who, k)
  }

  /** The state a run leads to, or None if some step of it is not enabled when its turn comes. */
  function Exec(s: State, steps: seq<Step>): Option<State> {
    if steps == [] then Some(s)
    else
      var s' := Exec(s, Front(steps));
      if s'.Some? && Enabled(s'.value, Last(steps)) then Some(Apply(s'.value, Last(steps))) else None
  }

  ghost predicate Reachable(s: State) {
    exists lcap: nat, steps: seq<Step> :: Exec(Init(lcap), steps) == Some(s)
  }

  lemma ReachableStep(s: State, st: Step)
    requires Reachable(s) && Enabled(s, st)
    ensures Reachable(Apply(s, st))
  {
    var lcap: nat, steps :| Exec(Init(lcap), steps) == Some(s);
    assert Front(steps + [st]) == steps;
    assert Exec(Init(lcap), steps + [st]) == Some(Apply(s, st));
  }

  /** Some run leads from s to u. */
  ghost predicate Goes(s: State, u: State) {
    exists steps :: Exec(s, steps) == Some(u)
  }

  lemma GoesNowhere(s: State)
    ensures Goes(s, s)
  {
    assert Exec(s, []) == Some(s);
  }

  lemma {:induction false} ExecAfter(s: State, st: Step, steps: seq<Step>)
    requires Enabled(s, st)
    ensures Exec(s, [st] + steps) == Exec(Apply(s, st), steps)
  {
    if steps == [] {
      assert [st] + steps == [st] && Front([st]) == [];
      assert Exec(s, []) == Some(s);
    } else {
      ExecAfter(s, st, Front(steps));
      assert Front([st] + steps) == [st] + Front(steps) && Last([st] + steps) == Last(steps);
    }
  }

  lemma GoesOn(s: State, st: Step, u: State)
    requires Enabled(s, st) && Goes(Apply(s, st), u)
    ensures Goes(s, u)
  {
    var steps :| Exec(Apply(s, st), steps) == Some(u);
    ExecAfter(s, st, steps);
  }
}
