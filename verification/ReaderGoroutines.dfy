/**
 The goroutines behind a host's reader (target.go:221-250). `start` runs in a goroutine that a panic
 ends: its deferred function recovers, starts another goroutine and returns. Without a panic the
 deferred function closes h.done. Here each host has a crew of such goroutines, any of which may move,
 and the reader of module TargetHost is what they amount to.

 The `pc` of a host in `State` is a history here: no goroutine looks at it (`PcUnseen`).
 */
module ReaderGoroutines {
  import opened Basics
  import opened TargetHost
  import opened Pipeline
  import opened PipelineInvariant
  import opened PipelineLifecycle
  import opened PipelineTheorems

  datatype Goroutine =
    | Running(pc: Pc)   // in the loop of `start`, or in `writeRec` or `flush` called from it
    | Unwinding         // panicked: in the deferred function, about to start another goroutine
    | Leaving           // has started it, about to return
    | Returning           // saw h.quit closed: in the deferred function, about to close h.done
    | Gone

  datatype Crews = Crews(s: State, crew: seq<seq<Goroutine>>)

  function Launch(lcap: nat): Crews { Crews(Init(lcap), []) }

  datatype Act =
    | Other(st: Step)                    // a step that is not a reader's and does not wait for one
    | Run(h: nat, j: nat, hs: HStep)     // one step of the loop, of writeRec or of flush
    | Panics(h: nat, j: nat)             // the formatter or the target panics
    | SeesQuit(h: nat, j: nat)           // the select of `start` picks h.quit
    | Spawns(h: nat, j: nat)             // go h.start()
    | Leaves(h: nat, j: nat)
    | Closes(h: nat, j: nat)             // close(h.done)
    | Receives(j: nat)                   // the read loop receives goroutine j's flush signal
    | DoneSeen(who: Who)                 // TargetHost.Shutdown sees h.done closed

  /** Goroutine j of host h. */
  predicate Has(c: Crews, h: nat, j: nat) {
    h < |c.s.hosts| && h < |c.crew| && j < |c.crew[h]|
  }

  /** The host as a goroutine at `pc` sees it. */
  function Seen(h: Host, pc: Pc): Host { h.(pc := pc) }

  predicate IsOther(st: Step) {
    !st.OfHost? && st != OfLoop(LNext) && !(st.OfKill? && st.k.KDone?)
  }

  predicate Can(c: Crews, a: Act) {
    match a
    case Other(st) => IsOther(st) && Enabled(c.s, st)
    case Run(h, j, st) =>
      Has(c, h, j) && c.crew[h][j].Running? && !st.Quit? && !st.Panic?
          && HEnabled(Seen(c.s.hosts[h], c.crew[h][j].pc), st)
    case Panics(h, j) =>
      Has(c, h, j) && c.crew[h][j].Running? && HEnabled(Seen(c.s.hosts[h], c.crew[h][j].pc), Panic)
    case SeesQuit(h, j) => Has(c, h, j) && c.crew[h][j] == Running(Idle) && c.s.hosts[h].quits > 0
    case Spawns(h, j) => Has(c, h, j) && c.crew[h][j].Unwinding?
    case Leaves(h, j) => Has(c, h, j) && c.crew[h][j].Leaving?
    case Closes(h, j) => Has(c, h, j) && c.crew[h][j].Returning?
    case Receives(j) =>
      c.s.loop.Wait? && AtHost(c.s) && Has(c, Here(c.s), j) && c.crew[Here(c.s)][j] == Running(Signalling(c.s.loop.n))
    case DoneSeen(who) =>
      Killing(c.s, who) && Phase(c.s, who).AwaitingDone? && c.s.hosts[Victim(c.s, who)].dones > 0
  }

  function Set(c: Crews, h: nat, j: nat, g: Goroutine): Crews
    requires Has(c, h, j)
  {
    c.(crew := c.crew[h := c.crew[h][j := g]])
  }

  /** Host h, whose goroutine j moves, becomes `host`. */
  function SetBoth(c: Crews, h: nat, j: nat, host: Host, g: Goroutine): Crews
    requires Has(c, h, j)
  {
    Set(c, h, j, g).(s := SetHost(c.s, h, host))
  }

  function Do(c: Crews, a: Act): Crews
    requires Can(c, a)
  {
    match a
    case Other(st) =>
      Crews(Apply(c.s, st), if st.OfTargets? && st.t.TAdd? then c.crew + [[Running(Idle)]] else c.crew)
    case Run(h, j, st) =>
      var host := HApply(Seen(c.s.hosts[h], c.crew[h][j].pc), st);
      SetBoth(c, h, j, host, Running(host.pc))
    case Panics(h, j) => SetBoth(c, h, j, HApply(Seen(c.s.hosts[h], c.crew[h][j].pc), Panic), Unwinding)
    case SeesQuit(h, j) => Set(c, h, j, Returning)
    case Spawns(h, j) => c.(crew := c.crew[h := c.crew[h][j := Leaving] + [Running(Idle)]])
    case Leaves(h, j) => Set(c, h, j, Gone)
    case Closes(h, j) =>
      SetBoth(c, h, j, c.s.hosts[h].(pc := Exited, dones := c.s.hosts[h].dones + 1), Gone)
    case Receives(j) =>
      var c' := SetBoth(c, Here(c.s), j, Seen(HereHost(c.s), Idle), Running(Idle));
      c'.(s := c'.s.(loop := At(FlushHosts(c.s.loop.f), c.s.loop.i + 1)))
    case DoneSeen(who) => c.(s := ToPhase(c.s, who, Stopping))
  }

  // ---- nobody looks at pc -------------------------------------------------------------------------------

  ghost predicate SameButPc(s: State, t: State) {
    && t == s.(hosts := t.hosts) && |t.hosts| == |s.hosts|
    && forall h :: 0 <= h < |s.hosts| ==> t.hosts[h] == s.hosts[h].(pc := t.hosts[h].pc)
  }

  /** Whether a step that is not a reader's can happen, and what it does, is the same whatever the pcs are. */
  lemma PcUnseen(s: State, t: State, st: Step)
    requires SameButPc(s, t) && IsOther(st) && Enabled(s, st)
    ensures Enabled(t, st) && SameButPc(Apply(s, st), Apply(t, st))
  {
    PcUnseenGuard(s, t, st);
    PcUnseenRest(s, t, st);
    HostsAfter(s, st);
    HostsAfter(t, st);
    var s', t' := Apply(s, st), Apply(t, st);
    forall h | 0 <= h < |s'.hosts| ensures t'.hosts[h] == s'.hosts[h].(pc := t'.hosts[h].pc) {
      if h < |s.hosts| {
        SameTouch(s, t, st, h);
        TouchPc(s.hosts[h], t.hosts[h], TouchOf(s, st, h));
      }
    }
  }

  lemma PcUnseenGuard(s: State, t: State, st: Step)
    requires SameButPc(s, t) && IsOther(st) && Enabled(s, st)
    ensures Enabled(t, st)
  {
    match st
    case OfLoop(_) =>
    case OfLog(_) =>
    case OfCaller(_) =>
    case OfTargets(_) =>
    case OfKill(_, _) =>
  }

  lemma PcUnseenRest(s: State, t: State, st: Step)
    requires SameButPc(s, t) && IsOther(st) && Enabled(s, st) && Enabled(t, st)
    ensures Apply(t, st) == Apply(s, st).(hosts := Apply(t, st).hosts)
  {
    match st
    case OfLoop(l) => PcUnseenLoop(s, t, l);
    case OfLog(g) => PcUnseenLog(s, t, g);
    case OfCaller(c) => PcUnseenCaller(s, t, c);
    case OfTargets(a) => PcUnseenTargets(s, t, a);
    case OfKill(who, k) => PcUnseenKill(s, t, who, k);
  }

  lemma PcUnseenLoop(s: State, t: State, l: LStep)
    requires SameButPc(s, t) && LEnabled(s, l) && LEnabled(t, l) && l != LNext
    ensures LApply(t, l) == LApply(s, l).(hosts := LApply(t, l).hosts)
  {}

  lemma PcUnseenCaller(s: State, t: State, c: CStep)
    requires SameButPc(s, t) && CEnabled(s, c) && CEnabled(t, c)
    ensures CApply(t, c) == CApply(s, c).(hosts := CApply(t, c).hosts)
  {}

  lemma PcUnseenTargets(s: State, t: State, a: TStep)
    requires SameButPc(s, t) && TEnabled(s, a) && TEnabled(t, a)
    ensures TApply(t, a) == TApply(s, a).(hosts := TApply(t, a).hosts)
  {}

  lemma PcUnseenLog(s: State, t: State, g: LogStep)
    requires SameButPc(s, t) && GEnabled(s, g) && GEnabled(t, g)
    ensures GApply(t, g) == GApply(s, g).(hosts := GApply(t, g).hosts)
  {}

  lemma PcUnseenKill(s: State, t: State, who: Who, k: KillStep)
    requires SameButPc(s, t) && KEnabled(s, who, k) && KEnabled(t, who, k)
    ensures KApply(t, who, k) == KApply(s, who, k).(hosts := KApply(t, who, k).hosts)
  {
    if who.ByShutdown? { PcUnseenSweep(s, t, k); }
  }

  lemma PcUnseenSweep(s: State, t: State, k: KillStep)
    requires SameButPc(s, t) && KEnabled(s, ByShutdown, k) && KEnabled(t, ByShutdown, k)
    ensures KApply(t, ByShutdown, k) == KApply(s, ByShutdown, k).(hosts := KApply(t, ByShutdown, k).hosts)
  {}

  lemma SameTouch(s: State, t: State, st: Step, h: nat)
    requires SameButPc(s, t) && IsOther(st) && Enabled(s, st) && Enabled(t, st) && h < |s.hosts|
    ensures TouchOf(t, st, h) == TouchOf(s, st, h) && !TouchOf(s, st, h).Read? && !TouchOf(s, st, h).Signalled?
  {}

  lemma TouchPc(h: Host, g: Host, t: Touch)
    requires g == h.(pc := g.pc) && TouchGuard(h, t) && TouchGuard(g, t) && !t.Read? && !t.Signalled?
    ensures TouchHost(g, t) == TouchHost(h, t).(pc := TouchHost(g, t).pc)
  {
    match t
    case Logged(k, m, slow) => LogPc(h, g, k, m, slow);
    case Killed(k) => KillPc(h, g, k);
    case _ =>
  }

  lemma LogPc(h: Host, g: Host, k: LogStep, m: Msg, slow: bool)
    requires g == h.(pc := g.pc) && LogGuard(h, k, m) && LogGuard(g, k, m)
    ensures LogEffect(g, k, m, slow) == LogEffect(h, k, m, slow).(pc := g.pc)
  {}

  lemma KillPc(h: Host, g: Host, k: KillStep)
    requires g == h.(pc := g.pc)
    ensures KillEffect(g, k) == KillEffect(h, k).(pc := g.pc)
  {}

  // ---- one reader at a time -------------------------------------------------------------------------------

  /** The goroutine is, or is about to hand on, the host's reader. */
  predicate Active(g: Goroutine) { g.Running? || g.Unwinding? || g.Returning? }

  predicate Stands(h: Host, g: Goroutine) {
    match g
    case Running(pc) => pc == h.pc && !pc.Exited?
    case Unwinding => h.pc.Idle?
    case Returning => h.pc.Idle? && h.quits > 0
    case _ => true
  }

  ghost predicate Manned(h: Host, crew: seq<Goroutine>) {
    && (forall j :: 0 <= j < |crew| ==> Stands(h, crew[j]))
    && (forall i, j :: 0 <= i < |crew| && 0 <= j < |crew| && i != j ==> !(Active(crew[i]) && Active(crew[j])))
    && ((exists j :: 0 <= j < |crew| && Active(crew[j])) ==> !h.pc.Exited?)
  }

  ghost predicate CrewsOk(c: Crews) {
    |c.crew| == |c.s.hosts| && forall h :: 0 <= h < |c.crew| ==> Manned(c.s.hosts[h], c.crew[h])
  }

  /** The step of the one-reader pipeline that an act amounts to, if any. */
  function Amounts(c: Crews, a: Act): Option<Step>
    requires Can(c, a)
  {
    match a
    case Other(st) => Some(st)
    case Run(h, j, st) => Some(OfHost(h, st))
    case Panics(h, j) => Some(OfHost(h, Panic))
    case Closes(h, j) => Some(OfHost(h, Quit))
    case Receives(j) => Some(OfLoop(LNext))
    case DoneSeen(who) => Some(OfKill(who, KDone))
    case _ => None
  }

  /** One goroutine moves, and hands on its part at most to itself. */
  lemma MannedSet(h: Host, crew: seq<Goroutine>, j: nat, h': Host, g: Goroutine)
    requires Manned(h, crew) && j < |crew| && Active(crew[j]) && Stands(h', g) && (Active(g) ==> !h'.pc.Exited?)
    ensures Manned(h', crew[j := g])
  {
    var crew' := crew[j := g];
    forall i | 0 <= i < |crew'| ensures Stands(h', crew'[i]) && (i != j ==> !Active(crew'[i])) {
      assert crew'[i] == if i == j then g else crew[i];
    }
  }

  lemma MannedSpawn(h: Host, crew: seq<Goroutine>, j: nat)
    requires Manned(h, crew) && j < |crew| && crew[j].Unwinding?
    ensures Manned(h, crew[j := Leaving] + [Running(Idle)])
  {
    MannedSet(h, crew, j, h, Leaving);
    var crew' := crew[j := Leaving];
    assert forall i :: 0 <= i < |crew'| && i != j ==> crew'[i] == crew[i] && !Active(crew[i]);
  }

  lemma MannedLeave(h: Host, crew: seq<Goroutine>, j: nat)
    requires Manned(h, crew) && j < |crew| && crew[j].Leaving?
    ensures Manned(h, crew[j := Gone])
  {
    var crew' := crew[j := Gone];
    assert forall i :: 0 <= i < |crew'| && Active(crew'[i]) ==> crew'[i] == crew[i];
  }

  /** What is not the reader's doing leaves its position alone. */
  lemma MannedTouch(h: Host, crew: seq<Goroutine>, t: Touch)
    requires Manned(h, crew) && TouchGuard(h, t) && !t.Read? && !t.Signalled?
    ensures Manned(TouchHost(h, t), crew)
  {
    PcStays(h, t);
  }

  lemma PcStays(h: Host, t: Touch)
    requires TouchGuard(h, t) && !t.Read? && !t.Signalled?
    ensures TouchHost(h, t).pc == h.pc && TouchHost(h, t).quits >= h.quits
  {}

  lemma OtherOk(c: Crews, st: Step)
    requires CrewsOk(c) && Can(c, Other(st))
    ensures CrewsOk(Do(c, Other(st)))
  {
    HostsAfter(c.s, st);
    var c' := Do(c, Other(st));
    forall h | 0 <= h < |c'.crew| ensures Manned(c'.s.hosts[h], c'.crew[h]) {
      if h < |c.crew| { MannedTouch(c.s.hosts[h], c.crew[h], TouchOf(c.s, st, h)); }
    }
  }

  lemma SetOk(c: Crews, h: nat, j: nat, host: Host, g: Goroutine)
    requires CrewsOk(c) && Has(c, h, j) && Active(c.crew[h][j]) && Stands(host, g) && (Active(g) ==> !host.pc.Exited?)
    ensures CrewsOk(SetBoth(c, h, j, host, g))
  {
    MannedSet(c.s.hosts[h], c.crew[h], j, host, g);
  }

  lemma ActOk(c: Crews, a: Act)
    requires CrewsOk(c) && Can(c, a)
    ensures CrewsOk(Do(c, a))
  {
    match a
    case Other(st) => OtherOk(c, st);
    case Run(h, j, st) => RunOk(c, h, j, st);
    case Panics(h, j) => SetOk(c, h, j, HApply(Seen(c.s.hosts[h], c.crew[h][j].pc), Panic), Unwinding);
    case SeesQuit(h, j) =>
      assert Stands(c.s.hosts[h], c.crew[h][j]);
      MannedSet(c.s.hosts[h], c.crew[h], j, c.s.hosts[h], Returning);
    case Spawns(h, j) => MannedSpawn(c.s.hosts[h], c.crew[h], j);
    case Leaves(h, j) => MannedLeave(c.s.hosts[h], c.crew[h], j);
    case Closes(h, j) => SetOk(c, h, j, Do(c, a).s.hosts[h], Gone);
    case Receives(j) => SetOk(c, Here(c.s), j, Seen(HereHost(c.s), Idle), Running(Idle));
    case DoneSeen(who) =>
  }

  lemma RunOk(c: Crews, h: nat, j: nat, st: HStep)
    requires CrewsOk(c) && Can(c, Run(h, j, st))
    ensures CrewsOk(Do(c, Run(h, j, st)))
  {
    var host := HApply(Seen(c.s.hosts[h], c.crew[h][j].pc), st);
    assert Stands(c.s.hosts[h], c.crew[h][j]);
    SetOk(c, h, j, host, Running(host.pc));
  }

  /** Every act is a step of the one-reader pipeline, or changes nothing there. */
  lemma ActIsStep(c: Crews, a: Act)
    requires CrewsOk(c) && LifeAll(c.s) && Can(c, a)
    ensures var st := Amounts(c, a);
      if st.Some? then Enabled(c.s, st.value) && Do(c, a).s == Apply(c.s, st.value) else Do(c, a).s == c.s
  {
    match a
    case Other(st) =>
    case Run(h, j, st) => SeenIsReal(c, h, j);
    case Panics(h, j) => SeenIsReal(c, h, j);
    case Closes(h, j) => SeenIsReal(c, h, j);
    case Receives(j) => SeenIsReal(c, Here(c.s), j);
    case DoneSeen(who) => DoneIsExit(c, who);
    case _ =>
  }

  lemma SeenIsReal(c: Crews, h: nat, j: nat)
    requires CrewsOk(c) && Has(c, h, j)
    ensures Stands(c.s.hosts[h], c.crew[h][j])
    ensures c.crew[h][j].Running? ==> Seen(c.s.hosts[h], c.crew[h][j].pc) == c.s.hosts[h]
  {
    assert Manned(c.s.hosts[h], c.crew[h]);
  }

  lemma DoneIsExit(c: Crews, who: Who)
    requires LifeAll(c.s) && Can(c, DoneSeen(who))
    ensures KEnabled(c.s, who, KDone) && ToPhase(c.s, who, Stopping) == KApply(c.s, who, KDone)
  {
    var h := Victim(c.s, who);
    assert LifeInv(c.s.hosts[h], KillOn(c.s, h));
    assert c.s.hosts[h := c.s.hosts[h]] == c.s.hosts;
  }

  // ---- whole runs -------------------------------------------------------------------------------------------

  function Play(c: Crews, acts: seq<Act>): Option<Crews> {
    if acts == [] then Some(c)
    else
      var c' := Play(c, Front(acts));
      if c'.Some? && Can(c'.value, Last(acts)) then Some(Do(c'.value, Last(acts))) else None
  }

  /** Every run of the goroutines is a run of the one-reader pipeline. */
  lemma {:induction false} PlayReachable(lcap: nat, acts: seq<Act>)
    requires Play(Launch(lcap), acts).Some?
    ensures CrewsOk(Play(Launch(lcap), acts).value) && Reachable(Play(Launch(lcap), acts).value.s)
  {
    if acts == [] {
      assert Exec(Init(lcap), []) == Some(Init(lcap));
    } else {
      PlayReachable(lcap, Front(acts));
      var c := Play(Launch(lcap), Front(acts)).value;
      ReachableInv(c.s);
      ActOk(c, Last(acts));
      ActIsStep(c, Last(acts));
      if Amounts(c, Last(acts)).Some? { ReachableStep(c.s, Amounts(c, Last(acts)).value); }
    }
  }

  /** The goroutine can take from the queue, or is in the middle of writing or flushing. */
  predicate Reads(g: Goroutine) { g.Running? }

  /**
   In every run, over all panics and restarts, at most one of a host's goroutines reads from its queue,
   writes or flushes, and none does while another is still to start its successor or to close h.done.
   h.done is closed at most once, by then no goroutine reads, and none will.
   */
  lemma OneReader(lcap: nat, acts: seq<Act>, h: nat)
    requires Play(Launch(lcap), acts).Some?
    ensures var c := Play(Launch(lcap), acts).value;
      |c.crew| == |c.s.hosts| && (h < |c.crew| ==>
        && (forall i, j :: 0 <= i < |c.crew[h]| && 0 <= j < |c.crew[h]| ==>
              Reads(c.crew[h][i]) && Active(c.crew[h][j]) ==> i == j)
        && c.s.hosts[h].dones <= 1
        && (c.s.hosts[h].dones == 1 ==> forall j :: 0 <= j < |c.crew[h]| ==> !Active(c.crew[h][j])))
  {
    PlayReachable(lcap, acts);
    var c := Play(Launch(lcap), acts).value;
    if h < |c.crew| {
      HostLifecycle(c.s, h);
      ReachableInv(c.s);
      assert LifeInv(c.s.hosts[h], KillOn(c.s, h));
      assert Manned(c.s.hosts[h], c.crew[h]);
    }
  }

  // ---- and every run of the one-reader pipeline is one of theirs ---------------------------------------------

  /** No goroutine is in its deferred function with something still to do there. */
  ghost predicate Ready(c: Crews) {
    CrewsOk(c) && forall h :: 0 <= h < |c.crew| && !c.s.hosts[h].pc.Exited? ==> Running(c.s.hosts[h].pc) in c.crew[h]
  }

  lemma PlayOne(c: Crews, a: Act)
    requires Can(c, a)
    ensures Play(c, [a]) == Some(Do(c, a))
  {
    assert Front([a]) == [];
  }

  lemma {:induction false} PlayConcat(c: Crews, a: seq<Act>, b: seq<Act>)
    requires Play(c, a).Some? && Play(Play(c, a).value, b).Some?
    ensures Play(c, a + b) == Play(Play(c, a).value, b)
  {
    if b == [] {
      assert a + b == a;
    } else {
      PlayConcat(c, a, Front(b));
      assert Front(a + b) == a + Front(b) && Last(a + b) == Last(b);
    }
  }

  lemma PlayTwo(c: Crews, a: Act, b: Act)
    requires Can(c, a) && Can(Do(c, a), b)
    ensures Play(c, [a, b]) == Some(Do(Do(c, a), b))
  {
    PlayOne(c, a);
    PlayOne(Do(c, a), b);
    PlayConcat(c, [a], [b]);
    assert [a] + [b] == [a, b];
  }

  /** A step of a host's reader, by its running goroutine. */
  lemma ReaderActs(c: Crews, h: nat, hs: HStep) returns (acts: seq<Act>)
    requires Ready(c) && Enabled(c.s, OfHost(h, hs))
    ensures Play(c, acts).Some? && Ready(Play(c, acts).value) && Play(c, acts).value.s == Apply(c.s, OfHost(h, hs))
  {
    var j :| 0 <= j < |c.crew[h]| && c.crew[h][j] == Running(c.s.hosts[h].pc);
    assert Seen(c.s.hosts[h], c.s.hosts[h].pc) == c.s.hosts[h];
    match hs
    case Panic => acts := PanicActs(c, h, j);
    case Quit => acts := QuitActs(c, h, j);
    case _ =>
      acts := [Run(h, j, hs)];
      PlayOne(c, Run(h, j, hs));
      ActOk(c, Run(h, j, hs));
      RunReady(c, h, j, hs);
  }

  lemma RunReady(c: Crews, h: nat, j: nat, hs: HStep)
    requires Ready(c) && Can(c, Run(h, j, hs)) && CrewsOk(Do(c, Run(h, j, hs)))
    requires c.crew[h][j] == Running(c.s.hosts[h].pc)
    ensures Ready(Do(c, Run(h, j, hs)))
  {
    var d := Do(c, Run(h, j, hs));
    assert d.crew[h][j] == Running(d.s.hosts[h].pc);
    forall i | 0 <= i < |d.crew| && !d.s.hosts[i].pc.Exited? ensures Running(d.s.hosts[i].pc) in d.crew[i] {
      if i != h { assert d.crew[i] == c.crew[i]; }
    }
  }

  lemma PanicActs(c: Crews, h: nat, j: nat) returns (acts: seq<Act>)
    requires Ready(c) && Has(c, h, j) && c.crew[h][j] == Running(c.s.hosts[h].pc) && HEnabled(c.s.hosts[h], Panic)
    ensures Play(c, acts).Some? && Ready(Play(c, acts).value) && Play(c, acts).value.s == Apply(c.s, OfHost(h, Panic))
  {
    var a, b := Panics(h, j), Spawns(h, j);
    assert Seen(c.s.hosts[h], c.s.hosts[h].pc) == c.s.hosts[h];
    acts := [a, b];
    PlayTwo(c, a, b);
    ActOk(c, a);
    ActOk(Do(c, a), b);
    var d := Do(Do(c, a), b);
    assert d.crew[h][|c.crew[h]|] == Running(Idle);
    forall i | 0 <= i < |d.crew| && !d.s.hosts[i].pc.Exited? ensures Running(d.s.hosts[i].pc) in d.crew[i] {
      if i != h { assert d.crew[i] == c.crew[i]; }
    }
  }

  lemma QuitActs(c: Crews, h: nat, j: nat) returns (acts: seq<Act>)
    requires Ready(c) && Has(c, h, j) && c.crew[h][j] == Running(c.s.hosts[h].pc) && HEnabled(c.s.hosts[h], Quit)
    ensures Play(c, acts).Some? && Ready(Play(c, acts).value) && Play(c, acts).value.s == Apply(c.s, OfHost(h, Quit))
  {
    var a, b := SeesQuit(h, j), Closes(h, j);
    acts := [a, b];
    PlayTwo(c, a, b);
    ActOk(c, a);
    ActOk(Do(c, a), b);
    var d := Do(Do(c, a), b);
    forall i | 0 <= i < |d.crew| && !d.s.hosts[i].pc.Exited? ensures Running(d.s.hosts[i].pc) in d.crew[i] {
      if i != h { assert d.crew[i] == c.crew[i]; }
    }
  }

  lemma OtherReady(c: Crews, st: Step)
    requires Ready(c) && Can(c, Other(st))
    ensures Ready(Do(c, Other(st)))
  {
    OtherOk(c, st);
    HostsAfter(c.s, st);
    var d := Do(c, Other(st));
    forall h | 0 <= h < |d.crew| && !d.s.hosts[h].pc.Exited? ensures Running(d.s.hosts[h].pc) in d.crew[h] {
      if h < |c.crew| { PcStays(c.s.hosts[h], TouchOf(c.s, st, h)); }
    }
  }

  lemma NextActs(c: Crews) returns (acts: seq<Act>)
    requires Ready(c) && Enabled(c.s, OfLoop(LNext))
    ensures Play(c, acts).Some? && Ready(Play(c, acts).value) && Play(c, acts).value.s == Apply(c.s, OfLoop(LNext))
  {
    var h := Here(c.s);
    var j :| 0 <= j < |c.crew[h]| && c.crew[h][j] == Running(c.s.hosts[h].pc);
    acts := [Receives(j)];
    PlayOne(c, Receives(j));
    ActOk(c, Receives(j));
    var d := Do(c, Receives(j));
    assert d.crew[h][j] == Running(Idle);
    forall i | 0 <= i < |d.crew| && !d.s.hosts[i].pc.Exited? ensures Running(d.s.hosts[i].pc) in d.crew[i] {
      if i != h { assert d.crew[i] == c.crew[i]; }
    }
  }

  lemma DoneActs(c: Crews, who: Who) returns (acts: seq<Act>)
    requires Ready(c) && LifeAll(c.s) && Enabled(c.s, OfKill(who, KDone))
    ensures Play(c, acts).Some? && Ready(Play(c, acts).value) && Play(c, acts).value.s == Apply(c.s, OfKill(who, KDone))
  {
    var h := Victim(c.s, who);
    assert LifeInv(c.s.hosts[h], KillOn(c.s, h));
    acts := [DoneSeen(who)];
    PlayOne(c, DoneSeen(who));
    ActOk(c, DoneSeen(who));
    DoneIsExit(c, who);
  }

  /** Each step of the one-reader pipeline is one or two acts of the goroutines. */
  lemma StepIsActs(c: Crews, st: Step) returns (acts: seq<Act>)
    requires Ready(c) && LifeAll(c.s) && Enabled(c.s, st)
    ensures Play(c, acts).Some? && Ready(Play(c, acts).value) && Play(c, acts).value.s == Apply(c.s, st)
  {
    if st.OfHost? {
      acts := ReaderActs(c, st.h, st.st);
    } else if st == OfLoop(LNext) {
      acts := NextActs(c);
    } else if st.OfKill? && st.k.KDone? {
      acts := DoneActs(c, st.who);
    } else {
      acts := [Other(st)];
      PlayOne(c, Other(st));
      OtherReady(c, st);
    }
  }

  /** So the goroutines can do all that the one-reader pipeline does: a panic never leaves a host without a reader. */
  lemma {:induction false} GoroutinesReach(lcap: nat, steps: seq<Step>) returns (acts: seq<Act>)
    requires Exec(Init(lcap), steps).Some?
    ensures Play(Launch(lcap), acts).Some? && Ready(Play(Launch(lcap), acts).value)
    ensures Play(Launch(lcap), acts).value.s == Exec(Init(lcap), steps).value
  {
    if steps == [] {
      acts := [];
    } else {
      acts := GoroutinesReach(lcap, Front(steps));
      var c := Play(Launch(lcap), acts).value;
      InvInit(lcap);
      ExecKeepsInv(Init(lcap), Front(steps));
      var more := StepIsActs(c, Last(steps));
      PlayConcat(Launch(lcap), acts, more);
      acts := acts + more;
    }
  }
}
