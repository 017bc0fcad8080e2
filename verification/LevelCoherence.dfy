/**
 The level cache under concurrency: lookups fill entries under the read lock of `tmux`, AddTarget and
 RemoveTargets change the target list and clear the cache under its write lock, ResetLevelCache
 clears without a lock, and hits take no lock at all.
 */
module LevelCoherence {
  import opened LevelCache

  /** A lookup that missed: scanning host i with what it has found so far, or about to store. */
  datatype Lookup = Scanning(id: nat, i: nat, found: LevelStatus) | Storing(id: nat, found: LevelStatus)

  /** AddTarget or RemoveTargets in its critical section, next clearing entry `k`. */
  datatype Writer = NoWriter | Clearing(k: nat)

  /** `bound` is what the cache's `clear` covers: IDs below it. */
  datatype State = State(bound: nat, hosts: seq<HostLevels>, entries: Entries, lookups: map<nat, Lookup>,
    writer: Writer)

  function Init(bound: nat): State { State(bound, [], map[], map[], NoWriter) }

  datatype Step =
    | Miss(p: nat, id: nat)                  // a lookup misses and acquires the read lock
    | Look(p: nat)                           // one iteration of the scan
    | Store(p: nat)                          // put the result, release the read lock
    | Change(hosts: seq<HostLevels>)         // acquire the write lock and replace the target list
    | ClearOne                               // the writer clears one entry
    | Release                                // the writer has cleared them all
    | Evict(id: nat)                         // an unlocked ResetLevelCache clears one entry
    | Grow(h: nat, id: nat, trace: bool)     // CustomFilter.Add enables an ID at a host

  predicate Enabled(s: State, st: Step) {
    match st
    case Miss(p, id) => p !in s.lookups && s.writer.NoWriter? && (id < s.bound || id > MAX_LEVEL_ID)
    case Look(p) => p in s.lookups && s.lookups[p].Scanning?
    case Store(p) => p in s.lookups && s.lookups[p].Storing?
    case Change(_) => s.writer.NoWriter? && s.lookups == map[]
    case ClearOne => s.writer.Clearing? && s.writer.k < s.bound
    case Release => s.writer.Clearing? && s.writer.k >= s.bound
    case Evict(id) => id < s.bound
    case Grow(h, _, _) => h < |s.hosts|
  }

  function Looked(l: Lookup, hosts: seq<HostLevels>): Lookup
    requires l.Scanning?
  {
    if l.i >= |hosts| then Storing(l.id, l.found)
    else if !Enables(hosts[l.i], l.id) then Scanning(l.id, l.i + 1, l.found)
    else if !Traces(hosts[l.i], l.id) then Scanning(l.id, l.i + 1, l.found.(enabled := true))
    else Storing(l.id, l.found.(enabled := true, stacktrace := true))
  }

  /** Host h enables the ID, with or without a stack trace. */
  function Grown(hosts: seq<HostLevels>, h: nat, id: nat, trace: bool): seq<HostLevels>
    requires h < |hosts|
  {
    hosts[h := hosts[h].(levels := hosts[h].levels[id := trace])]
  }

  function Apply(s: State, st: Step): State
    requires Enabled(s, st)
  {
    match st
    case Miss(p, id) => s.(lookups := s.lookups[p := Scanning(id, 0, DISABLED)])
    case Look(p) => s.(lookups := s.lookups[p := Looked(s.lookups[p], s.hosts)])
    case Store(p) =>
      var l := s.lookups[p];
      s.(lookups := s.lookups - {p},
          entries := if l.id <= MAX_LEVEL_ID then Stored(s.entries, l.id, l.found) else s.entries)
    case Change(hosts) => s.(hosts := hosts, writer := Clearing(0))
    case ClearOne => s.(entries := s.entries - {s.writer.k}, writer := Clearing(s.writer.k + 1))
    case Release => s.(writer := NoWriter)
    case Evict(id) => s.(entries := s.entries - {id})
    case Grow(h, id, trace) => s.(hosts := Grown(s.hosts, h, id, trace))
  }

  /** `e` is where the steps lead from `s`, each of them enabled in its turn. */
  ghost predicate Leads(s: State, steps: seq<Step>, e: State)
    decreases |steps|
  {
    if steps == [] then e == s else Enabled(s, steps[0]) && Leads(Apply(s, steps[0]), steps[1..], e)
  }

  /** The hosts a run ends with, told from its steps alone: those of the last change, with what was added since. */
  function HostsOf(hosts: seq<HostLevels>, steps: seq<Step>): seq<HostLevels> {
    if steps == [] then hosts
    else
      var before := HostsOf(hosts, steps[..|steps| - 1]);
      match steps[|steps| - 1]
      case Change(new_) => new_
      case Grow(h, id, trace) =>
        if h < |before| then before[h := HostLevels(before[h].levels[id := trace], before[h].fmtTrace)] else before
      case _ => before
  }

  lemma {:induction false} LeadsSnoc(s: State, steps: seq<Step>, e: State) returns (m: State)
    requires steps != [] && Leads(s, steps, e)
    ensures Leads(s, steps[..|steps| - 1], m) && Enabled(m, steps[|steps| - 1]) && e == Apply(m, steps[|steps| - 1])
    decreases |steps|
  {
    if |steps| == 1 {
      m := s;
    } else {
      m := LeadsSnoc(Apply(s, steps[0]), steps[1..], e);
      assert steps[..|steps| - 1][1..] == steps[1..][..|steps| - 2];
    }
  }

  /** Lookups scan the hosts that AddTarget, RemoveTargets and CustomFilter.Add have left. */
  lemma {:induction false} HostsFollow(s: State, steps: seq<Step>, e: State)
    requires Leads(s, steps, e)
    ensures e.hosts == HostsOf(s.hosts, steps)
    decreases |steps|
  {
    if steps != [] {
      var m := LeadsSnoc(s, steps, e);
      HostsFollow(s, steps[..|steps| - 1], m);
    }
  }

  // ---- coherence ---------------------------------------------------------------------------------

  ghost predicate LookupOk(l: Lookup, hosts: seq<HostLevels>, bound: nat) {
    && (l.id < bound || l.id > MAX_LEVEL_ID)
    && match l
       case Scanning(id, i, found) => i <= |hosts| && found == FullScan(hosts[..i], id) && !found.stacktrace
       case Storing(id, found) => found == FullScan(hosts, id)
  }

  ghost predicate Coherent(s: State) {
    && s.bound <= MAX_LEVEL_ID + 1
    && (forall id :: id in s.entries ==> id < s.bound)
    && (s.writer.NoWriter? ==> forall id :: id in s.entries ==> s.entries[id] == FullScan(s.hosts, id))
    && (s.writer.Clearing? ==> s.lookups == map[] && forall id :: id in s.entries ==> id >= s.writer.k)
    && (forall p :: p in s.lookups ==> LookupOk(s.lookups[p], s.hosts, s.bound))
  }

  lemma ScanMore(hosts: seq<HostLevels>, i: nat, id: nat)
    requires i < |hosts|
    ensures FullScan(hosts[..i + 1], id) == LevelStatus(
      FullScan(hosts[..i], id).enabled || Enables(hosts[i], id),
      FullScan(hosts[..i], id).stacktrace || Traces(hosts[i], id), false)
  {
    var a, b := hosts[..i], hosts[..i + 1];
    assert b == a + [hosts[i]];
    if k :| 0 <= k < |a| && Enables(a[k], id) { assert Enables(b[k], id); }
    if k :| 0 <= k < |a| && Traces(a[k], id) { assert Traces(b[k], id); }
    if Enables(hosts[i], id) { assert Enables(b[i], id); }
    if Traces(hosts[i], id) { assert Traces(b[i], id); }
  }

  lemma LookKeeps(l: Lookup, hosts: seq<HostLevels>, bound: nat)
    requires l.Scanning? && LookupOk(l, hosts, bound)
    ensures LookupOk(Looked(l, hosts), hosts, bound)
  {
    if l.i == |hosts| {
      assert hosts[..l.i] == hosts;
    } else {
      ScanMore(hosts, l.i, l.id);
    }
  }

  lemma CoherentKept(s: State, st: Step)
    requires Coherent(s) && Enabled(s, st) && !st.Grow?
    ensures Coherent(Apply(s, st))
  {
    if st.Look? { LookKeeps(s.lookups[st.p], s.hosts, s.bound); }
  }

  /**
   Coherence. As long as filters do not change, in every interleaving of lookups, AddTarget,
   RemoveTargets and resets, outside a writer's critical section every remembered status is the one
   a scan of all hosts would give; and no ID above the maximum is ever remembered.
   */
  lemma {:induction false} CacheCoherent(s: State, steps: seq<Step>, e: State, id: nat)
    requires Coherent(s) && Leads(s, steps, e) && (forall i :: 0 <= i < |steps| ==> !steps[i].Grow?)
    ensures Coherent(e)
    ensures e.writer.NoWriter? && id in e.entries ==> id <= MAX_LEVEL_ID && e.entries[id] == FullScan(e.hosts, id)
    decreases |steps|
  {
    if steps != [] {
      CoherentKept(s, steps[0]);
      CacheCoherent(Apply(s, steps[0]), steps[1..], e, id);
    }
  }

  /** Both caches start coherent: the array clears every ID, the sync.Map all but the largest. */
  lemma StartsCoherent(bound: nat)
    requires bound == MAX_LEVEL_ID || bound == MAX_LEVEL_ID + 1
    ensures Coherent(Init(bound))
  {}

  // ---- growing filters ----------------------------------------------------------------------------

  ghost predicate SomeEnables(hosts: seq<HostLevels>, id: nat) {
    exists i :: 0 <= i < |hosts| && Enables(hosts[i], id)
  }

  /** What is remembered, or about to be, as enabled is enabled. */
  ghost predicate Sound(s: State) {
    && (s.writer.NoWriter? ==> forall id :: id in s.entries && s.entries[id].enabled ==> SomeEnables(s.hosts, id))
    && (s.writer.Clearing? ==> s.lookups == map[] && forall id :: id in s.entries && id < s.bound ==> id >= s.writer.k)
    && (forall id :: id in s.entries ==> id < s.bound)
    && s.bound <= MAX_LEVEL_ID + 1
    && (forall p :: p in s.lookups ==>
          (s.lookups[p].id < s.bound || s.lookups[p].id > MAX_LEVEL_ID)
          && (s.lookups[p].found.enabled ==> SomeEnables(s.hosts, s.lookups[p].id)))
  }

  lemma GrowKeeps(hosts: seq<HostLevels>, h: nat, id: nat, trace: bool, id': nat)
    requires h < |hosts| && SomeEnables(hosts, id')
    ensures SomeEnables(Grown(hosts, h, id, trace), id')
  {
    var hosts' := Grown(hosts, h, id, trace);
    var i :| 0 <= i < |hosts| && Enables(hosts[i], id');
    assert Enables(hosts'[i], id');
  }

  lemma SoundKept(s: State, st: Step)
    requires Sound(s) && Enabled(s, st)
    ensures Sound(Apply(s, st))
  {
    if st.Grow? {
      forall id' | SomeEnables(s.hosts, id') ensures SomeEnables(Apply(s, st).hosts, id') {
        GrowKeeps(s.hosts, st.h, st.id, st.trace, id');
      }
    }
  }

  lemma StartsSound(bound: nat)
    requires bound <= MAX_LEVEL_ID + 1
    ensures Sound(Init(bound))
  {}

  /**
   Even with no reset after CustomFilter.Add, what is remembered as enabled is enabled: filters only
   grow. A remembered Disabled, and a remembered stack-trace flag, can go stale.
   */
  lemma {:induction false} EnabledStaysTrue(s: State, steps: seq<Step>, e: State, id: nat)
    requires Sound(s) && Leads(s, steps, e)
    ensures Sound(e)
    ensures e.writer.NoWriter? && id in e.entries && e.entries[id].enabled ==> FullScan(e.hosts, id).enabled
    decreases |steps|
  {
    if steps != [] {
      SoundKept(s, steps[0]);
      EnabledStaysTrue(Apply(s, steps[0]), steps[1..], e, id);
    }
  }

  /** Some host other than h wants a stack trace for the ID. */
  ghost predicate OthersTrace(hosts: seq<HostLevels>, h: nat, id: nat) {
    exists i :: 0 <= i < |hosts| && i != h && Traces(hosts[i], id)
  }

  lemma FullScanGrown(hosts: seq<HostLevels>, h: nat, id: nat, trace: bool)
    requires h < |hosts|
    ensures FullScan(Grown(hosts, h, id, trace), id)
         == LevelStatus(true, OthersTrace(hosts, h, id) || trace || hosts[h].fmtTrace, false)
  {
    var hosts' := Grown(hosts, h, id, trace);
    assert Enables(hosts'[h], id);
    assert Traces(hosts'[h], id) <==> trace || hosts[h].fmtTrace;
    if i :| 0 <= i < |hosts| && i != h && Traces(hosts[i], id) { assert Traces(hosts'[i], id); }
    if i :| 0 <= i < |hosts'| && i != h && Traces(hosts'[i], id) { assert Traces(hosts[i], id); }
  }

  /**
   Without a reset, enabling an ID at a host leaves its remembered status right if and only if that
   status said enabled already, and asked for a stack trace exactly if one is wanted now: by another
   host, by the level as added, or by the host's formatter.
   */
  lemma GrowthNoticedIff(s: State, h: nat, id: nat, trace: bool)
    requires Coherent(s) && s.writer.NoWriter? && id in s.entries && h < |s.hosts|
    ensures var s' := Apply(s, Grow(h, id, trace));
      id in s'.entries && (s'.entries[id] == FullScan(s'.hosts, id) <==>
        && s.entries[id].enabled
        && (s.entries[id].stacktrace <==> OthersTrace(s.hosts, h, id) || trace || s.hosts[h].fmtTrace))
  {
    FullScanGrown(s.hosts, h, id, trace);
  }

  /** The stack-trace flag can go stale either way: adding an enabled level again can set or drop it. */
  lemma TraceGoesStale(trace: bool) returns (s: State)
    ensures Coherent(s) && s.writer.NoWriter? && 7 in s.entries && |s.hosts| == 1
    ensures var s' := Apply(s, Grow(0, 7, trace));
      s'.entries[7] == LevelStatus(true, !trace, false) && FullScan(s'.hosts, 7) == LevelStatus(true, trace, false)
  {
    var hosts := [HostLevels(map[7 := !trace], false)];
    s := State(MAX_LEVEL_ID, hosts, map[7 := LevelStatus(true, !trace, false)], map[], NoWriter);
    assert Enables(hosts[0], 7) && (Traces(hosts[0], 7) <==> !trace);
    FullScanGrown(hosts, 0, 7, trace);
  }

  // ---- reset after growth -------------------------------------------------------------------------------

  /** The lock: the writer excludes lookups, and has cleared what it has passed. */
  ghost predicate Locked(s: State) {
    && s.bound <= MAX_LEVEL_ID + 1
    && (forall id :: id in s.entries ==> id < s.bound)
    && (forall p :: p in s.lookups ==> s.lookups[p].id < s.bound || s.lookups[p].id > MAX_LEVEL_ID)
    && (forall p :: p in s.lookups ==> !s.lookups[p].found.empty)
    && (s.writer.Clearing? ==> s.lookups == map[] && forall id :: id in s.entries ==> id >= s.writer.k)
  }

  lemma LockedKept(s: State, st: Step)
    requires Locked(s) && Enabled(s, st)
    ensures Locked(Apply(s, st))
  {}

  lemma StartsLocked(bound: nat)
    requires bound <= MAX_LEVEL_ID + 1
    ensures Locked(Init(bound))
  {}

  /** What a lookup will store if the hosts stay as they are. */
  ghost function Outcome(l: Lookup, hosts: seq<HostLevels>): LevelStatus
    decreases if l.Storing? then 0 else if l.i >= |hosts| then 1 else |hosts| - l.i + 1
  {
    if l.Storing? then l.found else Outcome(Looked(l, hosts), hosts)
  }

  /** A lookup scanning from the start comes to the full scan. */
  lemma {:induction false} FreshOutcome(l: Lookup, hosts: seq<HostLevels>, bound: nat)
    requires LookupOk(l, hosts, bound)
    ensures Outcome(l, hosts) == FullScan(hosts, l.id)
    decreases if l.Storing? then 0 else |hosts| - l.i + 1
  {
    if l.Scanning? {
      LookKeeps(l, hosts, bound);
      FreshOutcome(Looked(l, hosts), hosts, bound);
    }
  }

  lemma MissOutcome(hosts: seq<HostLevels>, id: nat)
    ensures Outcome(Scanning(id, 0, DISABLED), hosts) == FullScan(hosts, id)
  {
    assert hosts[..0] == [];
    FreshOutcome(Scanning(id, 0, DISABLED), hosts, id + 1);
  }

  /** Coherence for one ID: its entry is right, and every lookup of it will store what is right. */
  ghost predicate CoherentAt(s: State, id: nat) {
    && (s.writer.NoWriter? && id in s.entries ==> s.entries[id] == FullScan(s.hosts, id))
    && LookupsRight(s, id)
  }

  ghost predicate LookupsRight(s: State, id: nat) {
    forall p :: p in s.lookups && s.lookups[p].id == id ==> Outcome(s.lookups[p], s.hosts) == FullScan(s.hosts, id)
  }

  lemma GrowElsewhere(hosts: seq<HostLevels>, h: nat, id: nat, trace: bool, other: nat)
    requires h < |hosts| && other != id
    ensures FullScan(Grown(hosts, h, id, trace), other) == FullScan(hosts, other)
  {
    var hosts' := Grown(hosts, h, id, trace);
    assert forall i :: 0 <= i < |hosts| ==> (Enables(hosts'[i], other) <==> Enables(hosts[i], other));
    assert forall i :: 0 <= i < |hosts| ==> (Traces(hosts'[i], other) <==> Traces(hosts[i], other));
  }

  lemma {:induction false} OutcomeElsewhere(l: Lookup, hosts: seq<HostLevels>, h: nat, id: nat, trace: bool)
    requires h < |hosts| && l.id != id
    ensures Outcome(l, Grown(hosts, h, id, trace)) == Outcome(l, hosts)
    decreases if l.Storing? then 0 else if l.i >= |hosts| then 1 else |hosts| - l.i + 1
  {
    if l.Scanning? {
      var hosts' := Grown(hosts, h, id, trace);
      if l.i < |hosts| {
        assert Enables(hosts'[l.i], l.id) <==> Enables(hosts[l.i], l.id);
        assert Traces(hosts'[l.i], l.id) <==> Traces(hosts[l.i], l.id);
      }
      assert Looked(l, hosts') == Looked(l, hosts);
      OutcomeElsewhere(Looked(l, hosts), hosts, h, id, trace);
    }
  }

  /** Only enabling this very ID somewhere can spoil its coherence. */
  lemma CoherentAtKept(s: State, st: Step, id: nat)
    requires Locked(s) && CoherentAt(s, id) && Enabled(s, st) && (st.Grow? ==> st.id != id)
    ensures CoherentAt(Apply(s, st), id)
  {
    match st
    case Miss(_, other) => MissOutcome(s.hosts, other);
    case Grow(h, other, trace) => GrowKeepsAt(s, st, id);
    case _ =>
  }

  lemma GrowKeepsAt(s: State, st: Step, id: nat)
    requires CoherentAt(s, id) && Enabled(s, st) && st.Grow? && st.id != id
    ensures CoherentAt(Apply(s, st), id)
  {
    GrowElsewhere(s.hosts, st.h, st.id, st.trace, id);
    forall p | p in s.lookups && s.lookups[p].id == id
      ensures Outcome(s.lookups[p], Apply(s, st).hosts) == FullScan(Apply(s, st).hosts, id)
    {
      OutcomeElsewhere(s.lookups[p], s.hosts, st.h, st.id, st.trace);
    }
  }

  lemma {:induction false} RunCoherentAt(s: State, id: nat, steps: seq<Step>, e: State)
    requires Locked(s) && CoherentAt(s, id) && Leads(s, steps, e)
    requires AddsNone(steps, id)
    ensures CoherentAt(e, id)
    decreases |steps|
  {
    if steps != [] {
      LockedKept(s, steps[0]);
      CoherentAtKept(s, steps[0], id);
      RunCoherentAt(Apply(s, steps[0]), id, steps[1..], e);
    }
  }

  /** No level with this ID is added. */
  ghost predicate AddsNone(steps: seq<Step>, id: nat) {
    forall i :: 0 <= i < |steps| && steps[i].Grow? ==> steps[i].id != id
  }

  /** A run that adds no level with this ID ends with its entry wrong, outside a writer's critical section. */
  ghost predicate EndsWrong(s: State, id: nat, steps: seq<Step>, e: State) {
    && Leads(s, steps, e) && AddsNone(steps, id)
    && e.writer.NoWriter? && id in e.entries && e.entries[id] != FullScan(e.hosts, id)
  }

  /** A lookup in progress, carried to its end. */
  lemma {:induction false} CarryOn(s: State, p: nat) returns (steps: seq<Step>, e: State)
    requires Locked(s) && p in s.lookups && s.lookups[p].id < s.bound
    ensures Leads(s, steps, e) && forall i :: 0 <= i < |steps| ==> !steps[i].Grow?
    ensures e.hosts == s.hosts && e.writer.NoWriter?
    ensures var id := s.lookups[p].id; id in e.entries && e.entries[id] == Outcome(s.lookups[p], s.hosts)
    decreases var l := s.lookups[p]; if l.Storing? then 0 else if l.i >= |s.hosts| then 1 else |s.hosts| - l.i + 1
  {
    var l := s.lookups[p];
    var st := if l.Storing? then Store(p) else Look(p);
    var t := Apply(s, st);
    LockedKept(s, st);
    if l.Storing? {
      e := t;
      assert Leads(t, [], e);
      LeadsCons(s, st, t, [], e);
      steps := [st] + [];
    } else {
      steps, e := CarryOn(t, p);
      LeadsCons(s, st, t, steps, e);
      steps := [st] + steps;
    }
  }

  /**
   A reset of an ID, whatever was added before: no run from there on that adds no more levels with this ID
   ends with its entry wrong if and only if every lookup of it in progress will store what is right.
   */
  lemma ResetRestoresIff(s: State, id: nat)
    requires Locked(s) && id < s.bound
    ensures (forall steps, e :: !EndsWrong(Apply(s, Evict(id)), id, steps, e)) <==> LookupsRight(s, id)
  {
    var t := Apply(s, Evict(id));
    LockedKept(s, Evict(id));
    if LookupsRight(s, id) {
      forall steps, e | Leads(t, steps, e) && AddsNone(steps, id) ensures CoherentAt(e, id)
      {
        RunCoherentAt(t, id, steps, e);
      }
    } else {
      var p :| p in s.lookups && s.lookups[p].id == id && Outcome(s.lookups[p], s.hosts) != FullScan(s.hosts, id);
      var steps, e := CarryOn(t, p);
      assert EndsWrong(t, id, steps, e);
    }
  }

  /** In particular, with no lookup of the ID in progress a reset restores coherence for it. */
  lemma ResetRestores(s: State, id: nat, steps: seq<Step>, e: State)
    requires Locked(s) && id < s.bound && (forall p :: p in s.lookups ==> s.lookups[p].id != id)
    requires Leads(Apply(s, Evict(id)), steps, e)
    requires AddsNone(steps, id)
    ensures CoherentAt(e, id)
    ensures e.writer.NoWriter? && id in e.entries ==> e.entries[id] == FullScan(e.hosts, id)
  {
    LockedKept(s, Evict(id));
    RunCoherentAt(Apply(s, Evict(id)), id, steps, e);
  }

  /** With a lookup in progress it need not: the lookup stores what it found before the level was added. */
  lemma ResetRaces() returns (s: State, steps: seq<Step>, e: State)
    ensures Coherent(s) && Leads(s, steps, e) && Grow(0, 7, false) in steps && Evict(7) in steps
    ensures e.writer.NoWriter? && 7 in e.entries && !e.entries[7].enabled && FullScan(e.hosts, 7).enabled
  {
    s := State(MAX_LEVEL_ID, [HostLevels(map[], false)], map[], map[], NoWriter);
    var s2 := s.(lookups := map[0 := Storing(7, DISABLED)]);
    var hosts' := Grown(s.hosts, 0, 7, false);
    assert Enables(hosts'[0], 7);
    e := s.(hosts := hosts', entries := map[7 := DISABLED]);
    var tail := [Grow(0, 7, false), Evict(7), Store(0)];
    StoreLate(s2, tail, e);
    var t1 := s.(lookups := map[0 := Scanning(7, 0, DISABLED)]);
    var t2 := s.(lookups := map[0 := Scanning(7, 1, DISABLED)]);
    LeadsCons(t2, Look(0), s2, tail, e);
    LeadsCons(t1, Look(0), t2, [Look(0)] + tail, e);
    LeadsCons(s, Miss(0, 7), t1, [Look(0)] + ([Look(0)] + tail), e);
    steps := [Miss(0, 7)] + ([Look(0)] + ([Look(0)] + tail));
    assert steps[3] == tail[0] && steps[4] == tail[1];
  }

  lemma LeadsCons(s: State, st: Step, t: State, steps: seq<Step>, e: State)
    requires Enabled(s, st) && Apply(s, st) == t && Leads(t, steps, e)
    ensures Leads(s, [st] + steps, e)
  {
    assert ([st] + steps)[1..] == steps;
  }

  lemma StoreLate(s: State, tail: seq<Step>, e: State)
    requires s == State(MAX_LEVEL_ID, [HostLevels(map[], false)], map[], map[0 := Storing(7, DISABLED)], NoWriter)
    requires tail == [Grow(0, 7, false), Evict(7), Store(0)]
    requires e == s.(hosts := Grown(s.hosts, 0, 7, false), entries := map[7 := DISABLED], lookups := map[])
    ensures Leads(s, tail, e)
  {
    var s1 := Apply(s, Grow(0, 7, false));
    var s2 := Apply(s1, Evict(7));
    assert Apply(s2, Store(0)) == e;
    assert Leads(e, [], e);
    LeadsCons(s2, Store(0), e, [], e);
    LeadsCons(s1, Evict(7), s2, [Store(0)] + [], e);
    LeadsCons(s, Grow(0, 7, false), s1, [Evict(7)] + ([Store(0)] + []), e);
    assert tail == [Grow(0, 7, false)] + ([Evict(7)] + ([Store(0)] + []));
  }
}
