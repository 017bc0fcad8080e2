/** The two level filters (filterstd.go, filtercustom.go) and the levels they work on (level.go). */
module Filters {

  /** A log level. `id` is unsigned; colours play no part in filtering and are left out. */
  datatype Level = Level(id: nat, name: string, stacktrace: bool)

  const NO_LEVEL := Level(0, "", false)

  const PANIC := Level(0, "panic", false)
  const FATAL := Level(1, "fatal", false)
  const ERROR := Level(2, "error", false)
  const WARN := Level(3, "warn", false)
  const INFO := Level(4, "info", false)
  const DEBUG := Level(5, "debug", false)
  const TRACE := Level(6, "trace", false)

  // ---- StdFilter ------------------------------------------------------------------------------

  datatype StdFilter = StdFilter(lvl: Level, stacktrace: Level) {

    /** The level to log with, and whether it is enabled (filterstd.go:12-43). */
    function GetEnabledLevel(level: Level): (Level, bool) {
      var enabled := level.id <= lvl.id;
      var l := if enabled then Standard(level) else NO_LEVEL;
      (if level.id <= stacktrace.id then l.(stacktrace := true) else l, enabled)
    }
  }

  /** Standard IDs map to the built-in level, others to the caller's own (filterstd.go:18-35). */
  function Standard(level: Level): Level {
    match level.id
    case 0 => PANIC
    case 1 => FATAL
    case 2 => ERROR
    case 3 => WARN
    case 4 => INFO
    case 5 => DEBUG
    case 6 => TRACE
    case _ => level
  }

  /** What the level cache remembers of a filter's answer: enabled, and with a stack trace. */
  function Verdict(f: StdFilter, level: Level): (bool, bool) {
    var (l, enabled) := f.GetEnabledLevel(level);
    (enabled, enabled && l.stacktrace)
  }

  /** The levels of the library, most severe first. */
  const BUILT_IN := [PANIC, FATAL, ERROR, WARN, INFO, DEBUG, TRACE]

  /**
   What an enabled level is logged as: the library's own level with its ID if there is one, else itself, with
   a stack trace if the filter wants one at this severity, and otherwise its own flag.
   */
  lemma StdFilterLevel(f: StdFilter, level: Level)
    requires Verdict(f, level).0
    ensures var l := f.GetEnabledLevel(level).0;
      && l.id == level.id
      && l.name == (if level.id < |BUILT_IN| then BUILT_IN[level.id].name else level.name)
      && l.stacktrace == (level.id <= f.stacktrace.id || (level.id >= |BUILT_IN| && level.stacktrace))
  {}

  /**
   Severity. A level is enabled exactly up to the filter's own. A stack trace for one level means one for
   every more severe level if and only if the filter enables no level of the caller's own making above its
   stack-trace threshold: such a level brings its own flag.
   */
  lemma StdFilterThreshold(f: StdFilter)
    ensures forall a: Level :: Verdict(f, a).0 <==> a.id <= f.lvl.id
    ensures (forall a: Level, b: Level :: a.id <= b.id && Verdict(f, b).1 ==> Verdict(f, a).1)
       <==> (f.lvl.id <= 6 || f.lvl.id <= f.stacktrace.id)
  {
    if f.lvl.id > 6 && f.lvl.id > f.stacktrace.id {
      assert Verdict(f, Level(f.lvl.id, "", true)).1 && !Verdict(f, Level(f.lvl.id, "", false)).1;
    }
  }

  /**
   The cache is keyed by the level's ID alone. For a StdFilter that is sound at an ID exactly when
   the ID is standard, or not enabled, or gets a stack trace from the filter: otherwise two levels
   with this ID and different stack-trace flags get different answers.
   */
  lemma StdFilterKeyedById(f: StdFilter, id: nat)
    ensures (forall a: Level, b: Level :: a.id == id && b.id == id ==> Verdict(f, a) == Verdict(f, b))
       <==> (id <= 6 || id > f.lvl.id || id <= f.stacktrace.id)
  {
    if id > 6 && id <= f.lvl.id && id > f.stacktrace.id {
      assert Verdict(f, Level(id, "", true)) != Verdict(f, Level(id, "", false));
    }
  }

  // ---- CustomFilter ---------------------------------------------------------------------------

  /** `levels` after adding `ls` one by one: a later level replaces an earlier one with its ID. */
  function Added(levels: map<nat, Level>, ls: seq<Level>): map<nat, Level> {
    if ls == [] then levels
    else Added(levels, ls[..|ls| - 1])[ls[|ls| - 1].id := ls[|ls| - 1]]
  }

  /** Adding enables exactly the added IDs on top of those enabled before; the last level added wins. */
  lemma {:induction false} AddedIs(levels: map<nat, Level>, ls: seq<Level>, id: nat)
    ensures id in Added(levels, ls) <==> id in levels || exists i :: 0 <= i < |ls| && ls[i].id == id
    ensures forall i :: 0 <= i < |ls| && ls[i].id == id && (forall j :: i < j < |ls| ==> ls[j].id != id) ==>
      Added(levels, ls)[id] == ls[i]
    ensures id in levels && (forall i :: 0 <= i < |ls| ==> ls[i].id != id) ==> Added(levels, ls)[id] == levels[id]
  {
    if ls != [] {
      var front := ls[..|ls| - 1];
      AddedIs(levels, front, id);
      assert forall i :: 0 <= i < |front| ==> front[i] == ls[i];
      if id in Added(levels, front) && id !in levels {
        var i :| 0 <= i < |front| && front[i].id == id;
        assert ls[i].id == id;
      }
    }
  }

  class CustomFilter {
    var levels: map<nat, Level>

    constructor (ls: seq<Level>)
      ensures levels == Added(map[], ls)
    {
      levels := map[];
      new;
      Add(ls);
    }

    method Add(ls: seq<Level>)
      modifies this
      ensures levels == Added(old(levels), ls)
      ensures old(levels).Keys <= levels.Keys
    {
      for i := 0 to |ls|
        invariant levels == Added(old(levels), ls[..i])
        invariant old(levels).Keys <= levels.Keys
      {
        assert ls[..i + 1][..i] == ls[..i];
        levels := levels[ls[i].id := ls[i]];
      }
      assert ls[..|ls|] == ls;
    }

    method GetEnabledLevel(level: Level) returns (l: Level, enabled: bool)
      ensures enabled <==> level.id in levels
      ensures enabled ==>
        l.id == levels[level.id].id && l.stacktrace == levels[level.id].stacktrace
        && l.name == (if levels[level.id].name == "" then level.name else levels[level.id].name)
      ensures !enabled ==> l == NO_LEVEL
    {
      enabled := level.id in levels;
      l := if enabled then levels[level.id] else NO_LEVEL;
      if enabled && l.name == "" {
        l := l.(name := level.name);
      }
    }
  }
}
