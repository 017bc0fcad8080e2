/**
 What becomes of every call of Log, Flush and Shutdown: where it is, and how it ends. The first stage's
 counterpart of the fates at a host: a Log call begun is inside `enqueue`, or its record was accepted,
 dropped by the handler or timed out, and only an accepted record enters lgr.in.
 */
module PipelineCalls {
  import opened Basics
  import opened TargetHost
  import opened Pipeline
  import opened PipelineInvariant
  import opened PipelineProtocol
  import opened PipelineTheorems

  // ---- the life of a call ---------------------------------------------------------------------------

  datatype End =
    | Accepted(r: Rec)   // Log: the record is in lgr.in
    | Dropped(r: Rec)    // Log: queue full, the handler asked to drop
    | TimedOut(r: Rec)   // Log: queue full, enqueue timed out
    | Answered           // Flush returned nil
    | Refused            // Flush or Shutdown: the logger is shut down
    | GaveUp             // Flush or Shutdown: the context expired
    | Second             // Shutdown: the flag was set already
    | Won                // Shutdown: set the flag, and goes on to shut down

  datatype Life =
    | Unborn
    | Checking(sd: bool)                           // Flush or Shutdown, about to read the flag
    | Entering(m: Msg, blocked: bool, sd: bool)    // inside `enqueue`
    | Pending(sd: bool)                            // Flush or Shutdown, waiting for its signal
    | Ready(via: Option<nat>)                    // Shutdown, about to swap the flag
    | Over(end: End)

  /** Past `enqueue` Log is over, and a flush waits whether or not its record got in. */
  function Past(l: Life, end: End): Life {
    if l.Entering? && l.m.Ctl? then Pending(l.sd) else Over(end)
  }

  function RecordOf(l: Life): Rec { if l.Entering? && l.m.Data? then l.m.r else Rec(0, 0) }

  /** The life of call `id` after a step from s. Calls are named by the serials they are given at birth. */
  function Lived(l: Life, s: State, st: Step, id: nat): Life {
    match st
    case OfLoop(LAck) =>
      if s.loop.Ack? && s.loop.f == id && l.Pending? then (if l.sd then Ready(Some(id)) else Over(Answered)) else l
    case OfCaller(c) => LivedC(l, s, c, id)
    case _ => l
  }

  function LivedC(l: Life, s: State, c: CStep, id: nat): Life {
    match c
    case CLog(lvl) => if id == s.nextId then Entering(Data(Rec(id, lvl)), false, false) else l
    case CFlush(sd) =>
      if id != s.nextId then l
      else if s.targets != [] then Checking(sd)
      else if sd then Ready(None)
      else l
    case CCheck(i) =>
      if i != id || !l.Checking? then l else if s.shut then Over(Refused) else Entering(Ctl(id), false, l.sd)
    case CPush(i) => if i == id && l.Entering? then Past(l, Accepted(RecordOf(l))) else l
    case CDrop(i) => if i == id && l.Entering? then Past(l, Dropped(RecordOf(l))) else l
    case CBlock(i) => if i == id && l.Entering? then l.(blocked := true) else l
    case CExpire(i) => if i == id && l.Entering? then Past(l, TimedOut(RecordOf(l))) else l
    case CGiveUp(i) => if i == id && l.Pending? then Over(GaveUp) else l
    case CSwap(i) => if i == id && l.Ready? then Over(if s.shut then Second else Won) else l
  }

  /** The life of call `id` in a run. */
  ghost function LifeOf(lcap: nat, steps: seq<Step>, id: nat): Life
    requires Exec(Init(lcap), steps).Some?
  {
    if steps == [] then Unborn
    else Lived(LifeOf(lcap, Front(steps), id), Exec(Init(lcap), Front(steps)).value, Last(steps), id)
  }

  // ---- the pipeline keeps every call where its life says -----------------------------------------------

  ghost predicate Lives(s: State, id: nat, l: Life) {
    && (id >= s.nextId ==> l.Unborn?)
    && match l
       case Unborn => id !in s.calls
       case Checking(sd) => id in s.calls && s.calls[id] == Check(sd)
       case Entering(m, blocked, sd) => id in s.calls && s.calls[id] == Enq(m, blocked, sd)
       case Pending(sd) => id in s.calls && s.calls[id] == Await(sd)
       case Ready(via) => id in s.calls && s.calls[id] == Flushed(via)
       case Over(_) => id !in s.calls
  }

  lemma LivesKeptC(s: State, c: CStep, id: nat, l: Life)
    requires Lives(s, id, l) && CEnabled(s, c)
    ensures Lives(CApply(s, c), id, LivedC(l, s, c, id))
  {}

  lemma LivesKeptAck(s: State, id: nat, l: Life)
    requires Lives(s, id, l) && LEnabled(s, LAck)
    ensures Lives(LApply(s, LAck), id, Lived(l, s, OfLoop(LAck), id))
  {}

  lemma CallsFrame(s: State, st: Step)
    requires Enabled(s, st) && !st.OfCaller? && st != OfLoop(LAck)
    ensures Apply(s, st).calls == s.calls && Apply(s, st).nextId >= s.nextId
  {
    match st
    case OfLoop(l) => LFrame(s, l);
    case OfLog(g) => GFrame(s, g);
    case OfTargets(t) => TFrame(s, t);
    case OfHost(_, _) =>
    case OfKill(who, k) => KFrame(s, who, k);
  }

  lemma LivesKept(s: State, st: Step, id: nat, l: Life)
    requires Lives(s, id, l) && Enabled(s, st)
    ensures Lives(Apply(s, st), id, Lived(l, s, st, id))
  {
    if st.OfCaller? {
      LivesKeptC(s, st.c, id, l);
    } else if st == OfLoop(LAck) {
      LivesKeptAck(s, id, l);
    } else {
      CallsFrame(s, st);
      LivedElse(l, s, st, id);
    }
  }

  lemma LivedElse(l: Life, s: State, st: Step, id: nat)
    requires !st.OfCaller? && st != OfLoop(LAck)
    ensures Lived(l, s, st, id) == l
  {}

  /** In every run, every call is where its life says, and so in one place only. */
  lemma {:induction false} CallsLive(lcap: nat, steps: seq<Step>, id: nat)
    requires Exec(Init(lcap), steps).Some?
    ensures Lives(Exec(Init(lcap), steps).value, id, LifeOf(lcap, steps, id))
  {
    if steps != [] {
      CallsLive(lcap, Front(steps), id);
      LivesKept(Exec(Init(lcap), Front(steps)).value, Last(steps), id, LifeOf(lcap, Front(steps), id));
    }
  }

  // ---- what becomes of a record at the first stage --------------------------------------------------------

  /** The record of a Log call: in `enqueue`, or accepted, dropped or timed out. */
  function Logged(l: Life): Option<Rec> {
    match l
    case Entering(Data(r), _, _) => Some(r)
    case Over(Accepted(r)) => Some(r)
    case Over(Dropped(r)) => Some(r)
    case Over(TimedOut(r)) => Some(r)
    case _ => None
  }

  /** A Log call with this serial was begun, at level lvl. */
  ghost predicate Begun(lcap: nat, steps: seq<Step>, id: nat, lvl: nat)
    requires Exec(Init(lcap), steps).Some?
  {
    steps != [] &&
      (Begun(lcap, Front(steps), id, lvl)
       || (Last(steps) == OfCaller(CLog(lvl)) && Exec(Init(lcap), Front(steps)).value.nextId == id))
  }

  /** The record is in lgr.in, or has been, exactly if its Log call ended by its being accepted. */
  ghost predicate Matches(s: State, id: nat, l: Life) {
    && (Logged(l).Some? ==> Logged(l).value.id == id)
    && (l.Entering? ==> Id(l.m) == id)
    && (forall r: Rec :: r.id == id ==> (Data(r) in s.accepted <==> l == Over(Accepted(r))))
  }

  lemma MatchesKeptPush(s: State, i: nat, id: nat, l: Life)
    requires Matches(s, id, l) && Lives(s, id, l) && Ids(s) && CEnabled(s, CPush(i))
    ensures Matches(CApply(s, CPush(i)), id, LivedC(l, s, CPush(i), id))
  {
    assert CallOk(s.accepted, i, s.calls[i]);
    var m := s.calls[i].m;
    forall r: Rec | r.id == id
      ensures Data(r) in s.accepted + [m] <==> LivedC(l, s, CPush(i), id) == Over(Accepted(r))
    {
      assert Data(r) in s.accepted + [m] <==> Data(r) in s.accepted || Data(r) == m;
    }
  }

  lemma MatchesKeptC(s: State, c: CStep, id: nat, l: Life)
    requires Matches(s, id, l) && Lives(s, id, l) && Ids(s) && CEnabled(s, c) && !c.CPush?
    ensures Matches(CApply(s, c), id, LivedC(l, s, c, id))
  {
    CFrame(s, c);
    if id == s.nextId {
      forall r: Rec | r.id == id ensures Data(r) !in s.accepted {
        assert forall i :: 0 <= i < |s.accepted| ==> Id(s.accepted[i]) < s.nextId;
      }
    }
  }

  lemma AcceptedFrame(s: State, st: Step)
    requires Enabled(s, st) && !st.OfCaller?
    ensures Apply(s, st).accepted == s.accepted
  {
    match st
    case OfLoop(l) => LFrame(s, l);
    case OfLog(g) => GFrame(s, g);
    case OfTargets(t) => TFrame(s, t);
    case OfHost(_, _) =>
    case OfKill(who, k) => KFrame(s, who, k);
  }

  lemma MatchesKept(s: State, st: Step, id: nat, l: Life)
    requires Matches(s, id, l) && Lives(s, id, l) && Ids(s) && Enabled(s, st)
    ensures Matches(Apply(s, st), id, Lived(l, s, st, id))
  {
    if st.OfCaller? {
      if st.c.CPush? { MatchesKeptPush(s, st.c.id, id, l); } else { MatchesKeptC(s, st.c, id, l); }
    } else {
      AcceptedFrame(s, st);
      if st != OfLoop(LAck) { LivedElse(l, s, st, id); }
    }
  }

  lemma {:induction false} RunMatches(lcap: nat, steps: seq<Step>, id: nat)
    requires Exec(Init(lcap), steps).Some?
    ensures Matches(Exec(Init(lcap), steps).value, id, LifeOf(lcap, steps, id))
  {
    if steps != [] {
      RunMatches(lcap, Front(steps), id);
      CallsLive(lcap, Front(steps), id);
      InvInit(lcap);
      ExecKeepsInv(Init(lcap), Front(steps));
      MatchesKept(Exec(Init(lcap), Front(steps)).value, Last(steps), id, LifeOf(lcap, Front(steps), id));
    }
  }

  lemma LoggedStays(l: Life, s: State, st: Step, id: nat)
    requires Lives(s, id, l) && Enabled(s, st)
    ensures Logged(l).Some? ==> Logged(Lived(l, s, st, id)) == Logged(l)
    ensures Logged(l).None? ==>
      Logged(Lived(l, s, st, id)) ==
        if st.OfCaller? && st.c.CLog? && s.nextId == id then Some(Rec(id, st.c.lvl)) else None
  {}

  /**
   Conservation at the first stage, in every run: every Log call begun, and no other, is in exactly one
   place: inside `enqueue`, accepted, dropped by the handler or timed out; and its record has entered lgr.in
   if and only if it was accepted.
   */
  lemma {:induction false} LogCallFate(lcap: nat, steps: seq<Step>, id: nat, lvl: nat)
    requires Exec(Init(lcap), steps).Some?
    ensures var l := LifeOf(lcap, steps, id);
      && (Begun(lcap, steps, id, lvl) <==> Logged(l) == Some(Rec(id, lvl)))
      && (Data(Rec(id, lvl)) in Exec(Init(lcap), steps).value.accepted <==> l == Over(Accepted(Rec(id, lvl))))
  {
    RunMatches(lcap, steps, id);
    if steps != [] {
      LogCallFate(lcap, Front(steps), id, lvl);
      CallsLive(lcap, Front(steps), id);
      LoggedStays(LifeOf(lcap, Front(steps), id), Exec(Init(lcap), Front(steps)).value, Last(steps), id);
    }
  }

  /** A call leaves `enqueue` only by a push, a handler's drop or a timeout. */
  lemma LeavesEnqueue(s: State, st: Step, id: nat)
    requires Ids(s) && Enqueuing(s, id) && Enabled(s, st)
    ensures !Enqueuing(Apply(s, st), id) ==>
      st == OfCaller(CPush(id)) || st == OfCaller(CDrop(id)) || st == OfCaller(CExpire(id))
  {
    if st.OfCaller? {
      LeavesEnqueueC(s, st.c, id);
    } else if st != OfLoop(LAck) {
      CallsFrame(s, st);
    }
  }

  lemma LeavesEnqueueC(s: State, c: CStep, id: nat)
    requires Ids(s) && Enqueuing(s, id) && CEnabled(s, c)
    ensures !Enqueuing(CApply(s, c), id) ==> c == CPush(id) || c == CDrop(id) || c == CExpire(id)
  {}

  // ---- lgr.in is bounded ------------------------------------------------------------------------------------

  lemma LcapStays(s: State, st: Step)
    requires Enabled(s, st)
    ensures Apply(s, st).lcap == s.lcap
  {
    match st
    case OfLoop(_) =>
    case OfLog(_) =>
    case OfCaller(_) =>
    case OfTargets(_) =>
    case OfHost(_, _) =>
    case OfKill(_, _) =>
  }

  lemma LinBounded(s: State, st: Step)
    requires |s.lin| <= s.lcap && Enabled(s, st)
    ensures |Apply(s, st).lin| <= s.lcap
  {
    match st
    case OfLoop(l) => LFrame(s, l);
    case OfLog(g) => GFrame(s, g);
    case OfCaller(c) => CFrame(s, c);
    case OfTargets(t) => TFrame(s, t);
    case OfHost(_, _) =>
    case OfKill(who, k) => KFrame(s, who, k);
  }

  /** lgr.in never holds more than its capacity. */
  lemma {:induction false} RunLinBounded(lcap: nat, steps: seq<Step>)
    requires Exec(Init(lcap), steps).Some?
    ensures Exec(Init(lcap), steps).value.lcap == lcap && |Exec(Init(lcap), steps).value.lin| <= lcap
  {
    if steps != [] {
      RunLinBounded(lcap, Front(steps));
      LinBounded(Exec(Init(lcap), Front(steps)).value, Last(steps));
      LcapStays(Exec(Init(lcap), Front(steps)).value, Last(steps));
    }
  }

  // ---- how Flush and Shutdown return ----------------------------------------------------------------------

  /** Acknowledged, as far as the flush's own caller can tell. */
  ghost predicate Told(l: Life, id: nat) {
    l == Over(Answered) || l == Ready(Some(id)) || l == Over(Second) || l == Over(Won)
  }

  lemma ToldKept(s: State, st: Step, id: nat, l: Life)
    requires Lives(s, id, l) && Enabled(s, st)
    requires (l == Over(Answered) ==> id in s.acked) && (id in s.acked ==> Told(l, id))
    ensures var l', t := Lived(l, s, st, id), Apply(s, st);
      (l' == Over(Answered) ==> id in t.acked) && (id in t.acked ==> Told(l', id))
  {
    if st == OfLoop(LAck) {
      ToldAck(s, id, l);
    } else if st.OfCaller? {
      CFrame(s, st.c);
    } else {
      LivedElse(l, s, st, id);
      UntoldFrame(s, st);
    }
  }

  lemma ToldAck(s: State, id: nat, l: Life)
    requires Lives(s, id, l) && LEnabled(s, LAck) && (l == Over(Answered) ==> id in s.acked)
    requires id in s.acked ==> Told(l, id)
    ensures var l', t := Lived(l, s, OfLoop(LAck), id), LApply(s, LAck);
      (l' == Over(Answered) ==> id in t.acked) && (id in t.acked ==> Told(l', id))
  {}

  lemma UntoldFrame(s: State, st: Step)
    requires Enabled(s, st) && !st.OfCaller? && st != OfLoop(LAck)
    ensures Apply(s, st).acked == s.acked
  {
    match st
    case OfLoop(l) => LFrame(s, l);
    case OfLog(g) => GFrame(s, g);
    case OfTargets(t) => TFrame(s, t);
    case OfHost(_, _) =>
    case OfKill(who, k) => KFrame(s, who, k);
  }

  /**
   A Flush that had targets returns nil only if it was acknowledged, and an acknowledged flush does not wait
   on: a Flush has returned nil, a Shutdown has gone on to swap the flag.
   */
  lemma {:induction false} FlushReturns(lcap: nat, steps: seq<Step>, id: nat)
    requires Exec(Init(lcap), steps).Some?
    ensures var l, s := LifeOf(lcap, steps, id), Exec(Init(lcap), steps).value;
      (l == Over(Answered) ==> id in s.acked) && (id in s.acked ==> Told(l, id))
  {
    if steps != [] {
      FlushReturns(lcap, Front(steps), id);
      CallsLive(lcap, Front(steps), id);
      ToldKept(Exec(Init(lcap), Front(steps)).value, Last(steps), id, LifeOf(lcap, Front(steps), id));
    }
  }
}
