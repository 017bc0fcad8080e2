/**
 One target host (target.go): its bounded queue, its reader goroutine and its counters.

 The reader is a small machine that takes one step per channel operation or loop iteration.
 `hist` and `taken` are histories: `hist` has one entry for every record the fan-out brought to
 this host and every flush record the read loop tried to queue here, `taken` one entry for every
 message the reader finished with. No step looks at a history.
 */
module TargetHost {
  import opened Basics

  /** How `Log` ended for one message (target.go:160-182). */
  datatype Decision =
    | Admit   // pushed on the queue
    | Refuse  // host already shut down
    | Drop    // queue full, handler asked to drop
    | Expire  // queue full, enqueue timed out

  /** `slow` tells whether the message went through the blocking select. */
  datatype Entry = Skip(r: Rec) | Offer(m: Msg, d: Decision, slow: bool)

  /** How the reader finished with a message it took from the queue. */
  datatype Outcome =
    | Written   // Target.Write returned no error
    | Failed    // the formatter or Target.Write returned an error
    | Unlisted  // the "how did we get here?" branch: level not enabled
    | Lost      // the formatter or the target panicked
    | Served    // flush record taken by the main loop
    | Ignored   // redundant flush record taken while draining

  datatype Taken = Taken(m: Msg, o: Outcome)

  datatype Pc =
    | Idle                          // at the select of `start`
    | Writing(r: Rec)               // inside writeRec, called from `start`
    | Draining(n: nat)              // at the select of `flush`
    | DrainWriting(n: nat, r: Rec)  // inside writeRec, called from `flush`
    | Signalling(n: nat)            // blocked on the unbuffered send to `done`
    | Exited                        // `start` returned and closed h.done

  datatype Host = Host(
    cap: nat, filter: set<nat>, q: seq<Msg>, pc: Pc,
    shut: bool, quits: nat, dones: nat, stops: nat, expired: bool,
    logged: nat, errors: nat, dropped: nat, blocked: nat,
    filter0: set<nat>, base: nat, hist: seq<Entry>, taken: seq<Taken>)

  function NewHost(cap: nat, filter: set<nat>, base: nat): Host {
    Host(cap, filter, [], Idle, false, 0, 0, 0, false, 0, 0, 0, 0, filter, base, [], [])
  }

  // ---- the reader goroutine -------------------------------------------------------------------

  datatype HStep =
    | Pop                   // receive from h.in, in `start` or in `flush`
    | Quit                  // `start` sees h.quit closed
    | Finish(o: Outcome)    // writeRec returns
    | Panic                 // writeRec panics; `start` is restarted (see ReaderGoroutines)
    | DrainEnd              // `flush` finds the queue empty

  predicate InWriteRec(pc: Pc) { pc.Writing? || pc.DrainWriting? }

  predicate HEnabled(h: Host, st: HStep) {
    match st
    case Pop => (h.pc.Idle? || h.pc.Draining?) && h.q != []
    case Quit => h.pc.Idle? && h.quits > 0
    case Finish(o) => InWriteRec(h.pc) && (if h.pc.r.lvl in h.filter then o.Written? || o.Failed? else o == Unlisted)
    case Panic => InWriteRec(h.pc) && h.pc.r.lvl in h.filter
    case DrainEnd => h.pc.Draining? && h.q == []
  }

  function HApply(h: Host, st: HStep): Host
    requires HEnabled(h, st)
  {
    match st
    case Pop => (
      var h' := h.(q := h.q[1..]);
      match h.q[0]
      case Data(r) => h'.(pc := if h.pc.Idle? then Writing(r) else DrainWriting(h.pc.n, r))
      case Ctl(n) =>
        if h.pc.Idle? then h'.(pc := Draining(n), taken := h.taken + [Taken(h.q[0], Served)])
        else h'.(taken := h.taken + [Taken(h.q[0], Ignored)]))
    case Quit => h.(pc := Exited, dones := h.dones + 1)
    case Finish(o) =>
      h.(pc := if h.pc.Writing? then Idle else Draining(h.pc.n),
         taken := h.taken + [Taken(Data(h.pc.r), o)],
         logged := if h.pc.Writing? && o == Written then h.logged + 1 else h.logged,
         errors := if o == Written then h.errors else h.errors + 1)
    case Panic => h.(pc := Idle, taken := h.taken + [Taken(Data(h.pc.r), Lost)])
    case DrainEnd => h.(pc := Signalling(h.pc.n))
  }

  // ---- the sender's half: `Log`, run by the read loop of Logr ------------------------------------

  datatype LogStep =
    | GSkip    // fan-out: the filter does not list the level; Log is not called
    | GRefuse  // the host is already shut down
    | GPass    // the host is not shut down: go to the non-blocking select
    | GSend    // push on the queue, from either select
    | GDrop    // queue full, handler asks to drop
    | GBlock   // queue full, go to the blocking select
    | GExpire  // the blocking select times out

  predicate Lists(h: Host, m: Msg) { m.Data? ==> m.r.lvl in h.filter }

  predicate LogGuard(h: Host, st: LogStep, m: Msg) {
    match st
    case GSkip => m.Data? && m.r.lvl !in h.filter
    case GRefuse => Lists(h, m) && h.shut
    case GPass => Lists(h, m) && !h.shut
    case GSend => |h.q| < h.cap
    case GDrop => |h.q| >= h.cap
    case GBlock => |h.q| >= h.cap
    case GExpire => true
  }

  function Enlist(h: Host, m: Msg, slow: bool): Host {
    h.(q := h.q + [m], hist := h.hist + [Offer(m, Admit, slow)])
  }

  function Turn(h: Host, m: Msg, d: Decision, slow: bool): Host {
    h.(hist := h.hist + [Offer(m, d, slow)], dropped := if d == Drop then h.dropped + 1 else h.dropped)
  }

  function PassBy(h: Host, r: Rec): Host {
    h.(hist := h.hist + [Skip(r)])
  }

  function LogEffect(h: Host, st: LogStep, m: Msg, slow: bool): Host
    requires LogGuard(h, st, m)
  {
    match st
    case GSkip => PassBy(h, m.r)
    case GRefuse => Turn(h, m, Refuse, false)
    case GPass => h
    case GSend => Enlist(h, m, slow)
    case GDrop => Turn(h, m, Drop, false)
    case GBlock => h.(blocked := h.blocked + 1)
    case GExpire => Turn(h, m, Expire, true)
  }

  // ---- Shutdown of one host ------------------------------------------------------------------------

  datatype KillStep =
    | KSwap            // swap the flag
    | KClose           // close h.quit
    | KDone            // h.done is closed
    | KExpire          // the context expires first
    | KStop(ok: bool)  // call target.Shutdown

  function KillEffect(h: Host, st: KillStep): Host {
    match st
    case KSwap => h.(shut := true)
    case KClose => h.(quits := h.quits + 1)
    case KDone => h
    case KExpire => h.(expired := true)
    case KStop(_) => h.(stops := h.stops + 1)
  }

  // ---- readings of the histories ----------------------------------------------------------------

  function RecOf(e: Entry): seq<Rec> {
    if e.Skip? then [e.r] else if e.m.Data? then [e.m.r] else []
  }

  /** Every record the fan-out brought to this host, enabled here or not, in order. */
  function Brought(hist: seq<Entry>): seq<Rec> {
    if hist == [] then []
    else Brought(Front(hist)) + RecOf(Last(hist))
  }

  /** The messages that got into the queue, in order. */
  function Admitted(hist: seq<Entry>): seq<Msg> {
    if hist == [] then []
    else if Last(hist).Offer? && Last(hist).d.Admit? then Admitted(Front(hist)) + [Last(hist).m]
    else Admitted(Front(hist))
  }

  /** The records for which `Log` was called and ended with decision `d`, in order. */
  function Decided(hist: seq<Entry>, d: Decision): seq<Rec> {
    if hist == [] then []
    else if Last(hist).Offer? && Last(hist).d == d then Decided(Front(hist), d) + RecOf(Last(hist))
    else Decided(Front(hist), d)
  }

  /** The records for which `Log` was called, in order. */
  function Offered(hist: seq<Entry>): seq<Rec> {
    if hist == [] then []
    else if Last(hist).Offer? then Offered(Front(hist)) + RecOf(Last(hist))
    else Offered(Front(hist))
  }

  function CountDecision(hist: seq<Entry>, d: Decision): nat {
    if hist == [] then 0
    else CountDecision(Front(hist), d) + (if Last(hist).Offer? && Last(hist).d == d then 1 else 0)
  }

  function CountSlow(hist: seq<Entry>): nat {
    if hist == [] then 0
    else CountSlow(Front(hist)) + (if Last(hist).Offer? && Last(hist).slow then 1 else 0)
  }

  function TakenMsgs(taken: seq<Taken>): seq<Msg> {
    if taken == [] then [] else TakenMsgs(Front(taken)) + [Last(taken).m]
  }

  /** The records the reader finished with outcome `o`, in order. */
  function Ended(taken: seq<Taken>, o: Outcome): seq<Rec> {
    if taken == [] then []
    else if Last(taken).o == o && Last(taken).m.Data? then Ended(Front(taken), o) + [Last(taken).m.r]
    else Ended(Front(taken), o)
  }

  function InFlight(pc: Pc): seq<Msg> {
    if InWriteRec(pc) then [Data(pc.r)] else []
  }

  lemma AdmittedSnoc(hist: seq<Entry>, e: Entry)
    ensures Admitted(hist + [e]) == Admitted(hist) + (if e.Offer? && e.d.Admit? then [e.m] else [])
  {
    assert Front(hist + [e]) == hist;
  }

  lemma CountSnoc(hist: seq<Entry>, e: Entry, d: Decision)
    ensures CountDecision(hist + [e], d) == CountDecision(hist, d) + (if e.Offer? && e.d == d then 1 else 0)
    ensures CountSlow(hist + [e]) == CountSlow(hist) + (if e.Offer? && e.slow then 1 else 0)
  {
    assert Front(hist + [e]) == hist;
  }

  lemma TakenSnoc(taken: seq<Taken>, t: Taken)
    ensures TakenMsgs(taken + [t]) == TakenMsgs(taken) + [t.m]
  {
    assert Front(taken + [t]) == taken;
  }

  lemma EndedSnoc(taken: seq<Taken>, t: Taken, o: Outcome)
    ensures Ended(taken + [t], o) == Ended(taken, o) + (if t.o == o && t.m.Data? then [t.m.r] else [])
  {
    assert Front(taken + [t]) == taken;
  }

  // ---- invariants of one host -------------------------------------------------------------------

  ghost predicate EntryOk(h: Host, e: Entry) {
    match e
    case Skip(r) => r.lvl !in h.filter0
    case Offer(Data(r), _, _) => r.lvl in h.filter
    case Offer(Ctl(_), _, _) => true
  }

  ghost predicate TakenOk(t: Taken) {
    if t.m.Data? then t.o.Written? || t.o.Failed? || t.o.Lost? else t.o.Served? || t.o.Ignored?
  }

  /** The queue is the part of the admitted sequence that the reader has not taken yet. */
  ghost predicate QueueInv(h: Host) {
    && Admitted(h.hist) == TakenMsgs(h.taken) + InFlight(h.pc) + h.q
    && |h.q| <= h.cap
  }

  ghost predicate FilterInv(h: Host) {
    && h.filter0 <= h.filter
    && (forall i :: 0 <= i < |h.hist| ==> EntryOk(h, h.hist[i]))
    && (forall i :: 0 <= i < |h.q| ==> h.q[i].Data? ==> h.q[i].r.lvl in h.filter)
    && (InWriteRec(h.pc) ==> h.pc.r.lvl in h.filter)
    && (forall i :: 0 <= i < |h.taken| ==> TakenOk(h.taken[i]))
  }

  ghost predicate CounterInv(h: Host) {
    && h.logged == |Ended(h.taken, Written)|
    && h.errors == |Ended(h.taken, Failed)|
    && h.dropped == CountDecision(h.hist, Drop)
  }

  /**
   Where the nested flush record is. `w` is the serial of the flush record the read loop is waiting
   for at this host, if any. While nobody waits there is no flush record here at all; while the loop
   waits, the flush record is the last thing in the queue, or the reader has taken it and the queue
   is empty, or it never got in.
   */
  ghost predicate CtlInv(h: Host, w: Option<nat>) {
    match w
    case None => NoCtl(h.q) && (h.pc.Idle? || h.pc.Writing? || h.pc.Exited?)
    case Some(n) =>
      || ((h.pc == Draining(n) || h.pc == Signalling(n)) && h.q == [])
      || ((h.pc.Idle? || h.pc.Writing? || h.pc.Exited?) && NoCtl(h.q))
      || ((h.pc.Idle? || h.pc.Writing? || h.pc.Exited?) && h.q != [] && Last(h.q) == Ctl(n) && NoCtl(Front(h.q)))
  }

  /** Blocking enqueues are counted when they start, so one in progress is counted but not yet recorded. */
  ghost predicate BlockedInv(h: Host, inside: bool) {
    h.blocked == CountSlow(h.hist) + (if inside then 1 else 0)
  }

  /** The fan-out brings a host the records whose fan-out started since the host was added, in order. */
  ghost predicate BroughtInv(h: Host, fanned: seq<Rec>) {
    h.base <= |fanned| && Brought(h.hist) <= fanned[h.base..]
  }

  /** Nothing queued and nothing being written. */
  ghost predicate Drained(h: Host) {
    h.q == [] && (h.pc.Idle? || h.pc.Exited?)
  }

  // ---- what one step of the pipeline can do to a host ---------------------------------------------

  datatype Touch =
    | Untouched
    | Read(st: HStep)                         // a step of the reader goroutine
    | Logged(g: LogStep, m: Msg, slow: bool)  // a step of `Log`
    | Signalled                               // the reader's send to the read loop completes
    | Killed(k: KillStep)                     // a step of Shutdown
    | Grown(lvls: set<nat>)                   // levels added to the filter

  predicate TouchGuard(h: Host, t: Touch) {
    match t
    case Read(st) => HEnabled(h, st)
    case Logged(g, m, _) => LogGuard(h, g, m)
    case Signalled => h.pc.Signalling?
    case _ => true
  }

  function TouchHost(h: Host, t: Touch): Host
    requires TouchGuard(h, t)
  {
    match t
    case Untouched => h
    case Read(st) => HApply(h, st)
    case Logged(g, m, slow) => LogEffect(h, g, m, slow)
    case Signalled => h.(pc := Idle)
    case Killed(k) => KillEffect(h, k)
    case Grown(lvls) => h.(filter := h.filter + lvls)
  }

  // ---- every touch keeps the host's invariants -------------------------------------------------------

  lemma PopKeepsQueue(h: Host)
    requires QueueInv(h) && HEnabled(h, Pop)
    ensures QueueInv(HApply(h, Pop))
  {
    HeadMoves(TakenMsgs(h.taken), h.q);
    if h.q[0].Ctl? {
      TakenSnoc(h.taken, Last(HApply(h, Pop).taken));
    }
  }

  lemma TakenMoves(taken: seq<Taken>, m: Msg, o: Outcome, q: seq<Msg>)
    ensures TakenMsgs(taken + [Taken(m, o)]) + [] + q == TakenMsgs(taken) + [m] + q
  {
    TakenSnoc(taken, Taken(m, o));
  }

  lemma FinishKeepsQueue(h: Host, o: Outcome)
    requires QueueInv(h) && HEnabled(h, Finish(o))
    ensures QueueInv(HApply(h, Finish(o)))
  {
    TakenMoves(h.taken, Data(h.pc.r), o, h.q);
  }

  lemma PanicKeepsQueue(h: Host)
    requires QueueInv(h) && HEnabled(h, Panic)
    ensures QueueInv(HApply(h, Panic))
  {
    TakenMoves(h.taken, Data(h.pc.r), Lost, h.q);
  }

  lemma ReaderKeepsQueue(h: Host, st: HStep)
    requires QueueInv(h) && HEnabled(h, st)
    ensures QueueInv(HApply(h, st))
  {
    match st
    case Pop => PopKeepsQueue(h);
    case Finish(o) => FinishKeepsQueue(h, o);
    case Panic => PanicKeepsQueue(h);
    case Quit =>
    case DrainEnd =>
  }

  lemma ReaderKeepsCtl(h: Host, st: HStep, w: Option<nat>)
    requires CtlInv(h, w) && HEnabled(h, st)
    ensures CtlInv(HApply(h, st), w)
  {
    if st.Pop? && |h.q| > 1 {
      var q' := h.q[1..];
      assert Last(q') == Last(h.q) && Front(q') == Front(h.q)[1..];
      assert h.q[0] == Front(h.q)[0];
    }
  }

  lemma ReaderKeepsFilter(h: Host, st: HStep)
    requires FilterInv(h) && HEnabled(h, st)
    ensures FilterInv(HApply(h, st))
  {}

  lemma ReaderKeepsCounters(h: Host, st: HStep)
    requires FilterInv(h) && CounterInv(h) && HEnabled(h, st) && !h.pc.DrainWriting?
    ensures CounterInv(HApply(h, st))
  {
    var h' := HApply(h, st);
    if h'.taken != h.taken {
      EndedSnoc(h.taken, Last(h'.taken), Written);
      EndedSnoc(h.taken, Last(h'.taken), Failed);
    }
  }

  lemma EnlistKeepsQueue(h: Host, m: Msg, slow: bool)
    requires QueueInv(h) && |h.q| < h.cap
    ensures QueueInv(Enlist(h, m, slow))
  {
    AdmittedSnoc(h.hist, Offer(m, Admit, slow));
    assert TakenMsgs(h.taken) + InFlight(h.pc) + h.q + [m] == TakenMsgs(h.taken) + InFlight(h.pc) + (h.q + [m]);
  }

  lemma LogKeepsQueue(h: Host, st: LogStep, m: Msg, slow: bool)
    requires QueueInv(h) && LogGuard(h, st, m)
    ensures QueueInv(LogEffect(h, st, m, slow))
  {
    match st
    case GSkip => AdmittedSnoc(h.hist, Skip(m.r));
    case GRefuse => AdmittedSnoc(h.hist, Offer(m, Refuse, false));
    case GPass =>
    case GSend => EnlistKeepsQueue(h, m, slow);
    case GDrop => AdmittedSnoc(h.hist, Offer(m, Drop, false));
    case GBlock =>
    case GExpire => AdmittedSnoc(h.hist, Offer(m, Expire, true));
  }

  lemma LogKeepsFilter(h: Host, st: LogStep, m: Msg, slow: bool)
    requires FilterInv(h) && LogGuard(h, st, m) && (st.GSkip? || Lists(h, m))
    ensures FilterInv(LogEffect(h, st, m, slow))
  {}

  lemma LogKeepsCounters(h: Host, st: LogStep, m: Msg, slow: bool)
    requires CounterInv(h) && LogGuard(h, st, m)
    ensures CounterInv(LogEffect(h, st, m, slow))
  {
    var h' := LogEffect(h, st, m, slow);
    if h'.hist != h.hist { CountSnoc(h.hist, Last(h'.hist), Drop); }
  }

  /** A record changes nothing about flush records; a flush record is awaited once `Log` returns. */
  lemma LogKeepsCtl(h: Host, st: LogStep, m: Msg, slow: bool)
    requires CtlInv(h, None) && LogGuard(h, st, m)
    ensures m.Data? || st.GPass? || st.GBlock? ==> CtlInv(LogEffect(h, st, m, slow), None)
    ensures m.Ctl? ==> CtlInv(LogEffect(h, st, m, slow), Some(m.n))
  {
    assert Front(h.q + [m]) == h.q;
  }

  lemma QueueSame(h: Host, h': Host)
    requires QueueInv(h) && h'.hist == h.hist && h'.taken == h.taken && h'.q == h.q && h'.cap == h.cap
    requires InFlight(h'.pc) == InFlight(h.pc)
    ensures QueueInv(h')
  {}

  lemma QueueTouch(h: Host, t: Touch)
    requires QueueInv(h) && TouchGuard(h, t)
    ensures QueueInv(TouchHost(h, t))
  {
    if t.Read? {
      ReaderKeepsQueue(h, t.st);
    } else if t.Logged? {
      LogKeepsQueue(h, t.g, t.m, t.slow);
    } else {
      QueueSame(h, TouchHost(h, t));
    }
  }

  lemma FilterTouch(h: Host, t: Touch)
    requires FilterInv(h) && TouchGuard(h, t)
    requires t.Logged? ==> t.g.GSkip? || Lists(h, t.m)
    ensures FilterInv(TouchHost(h, t))
  {
    match t
    case Read(st) => ReaderKeepsFilter(h, st);
    case Logged(g, m, slow) => LogKeepsFilter(h, g, m, slow);
    case _ =>
  }

  lemma CounterTouch(h: Host, t: Touch)
    requires FilterInv(h) && CounterInv(h) && TouchGuard(h, t) && !h.pc.DrainWriting?
    ensures CounterInv(TouchHost(h, t))
  {
    match t
    case Read(st) => ReaderKeepsCounters(h, st);
    case Logged(g, m, slow) => LogKeepsCounters(h, g, m, slow);
    case _ =>
  }

  lemma CtlTouch(h: Host, t: Touch, w: Option<nat>)
    requires CtlInv(h, w) && TouchGuard(h, t)
    requires t.Logged? ==> w == None
    requires t.Signalled? ==> w.Some?
    ensures CtlInv(TouchHost(h, t), AwaitAfter(w, t))
  {
    match t
    case Read(st) => ReaderKeepsCtl(h, st, w);
    case Logged(g, m, slow) => LogKeepsCtl(h, g, m, slow);
    case _ =>
  }

  /** Which flush record is awaited at a host after a touch, given which one was before. */
  function AwaitAfter(w: Option<nat>, t: Touch): Option<nat> {
    match t
    case Logged(g, Ctl(n), _) => if g.GPass? || g.GBlock? then None else Some(n)
    case Signalled => None
    case _ => w
  }

  lemma LogKeepsBlocked(h: Host, g: LogStep, m: Msg, slow: bool)
    requires BlockedInv(h, slow) && LogGuard(h, g, m)
    requires slow ==> g.GSend? || g.GExpire?
    requires g.GExpire? ==> slow
    ensures BlockedInv(LogEffect(h, g, m, slow), g.GBlock?)
  {
    var h' := LogEffect(h, g, m, slow);
    if h'.hist != h.hist { CountSnoc(h.hist, Last(h'.hist), Drop); }
  }

  lemma BlockedUntouched(h: Host, t: Touch, inside: bool)
    requires BlockedInv(h, inside) && TouchGuard(h, t) && !t.Logged?
    ensures BlockedInv(TouchHost(h, t), inside)
  {
    match t
    case Read(st) => ReaderKeepsBlocked(h, st, inside);
    case _ =>
  }

  lemma ReaderKeepsBlocked(h: Host, st: HStep, inside: bool)
    requires BlockedInv(h, inside) && HEnabled(h, st)
    ensures BlockedInv(HApply(h, st), inside)
  {}
}
