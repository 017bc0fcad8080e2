/** The two level caches (levelcache.go) and the scan that fills them (logr.go:132-166). */
module LevelCache {

  const MAX_LEVEL_ID := 65535

  datatype LevelStatus = LevelStatus(enabled: bool, stacktrace: bool, empty: bool)

  const DISABLED := LevelStatus(false, false, false)
  const EMPTY := LevelStatus(false, false, true)

  /** What a cache holds: the statuses of the IDs whose entry is not marked empty. */
  type Entries = map<nat, LevelStatus>

  function Stored(e: Entries, id: nat, status: LevelStatus): Entries {
    if status.empty then e - {id} else e[id := status]
  }

  function ClearedBelow(e: Entries, bound: nat): Entries {
    map id | id in e && id >= bound :: e[id]
  }

  /** sync.Map's type assertion panics when the ID was never stored. */
  datatype GetResult = Got(status: LevelStatus, ok: bool) | Panics

  class ArrayLevelCache {
    const arr: array<LevelStatus>

    ghost predicate Valid() { arr.Length == MAX_LEVEL_ID + 1 }

    ghost function Contents(): Entries
      requires Valid()
      reads arr
    {
      map id | 0 <= id <= MAX_LEVEL_ID && !arr[id].empty :: arr[id]
    }

    constructor ()
      ensures Valid() && fresh(arr) && Contents() == map[]
    {
      arr := new LevelStatus[MAX_LEVEL_ID + 1](_ => DISABLED);
      new;
      Clear();
    }

    method Get(id: nat) returns (r: GetResult)
      requires Valid()
      ensures r.Got? && (r.ok <==> id in Contents())
      ensures r.ok ==> r.status == Contents()[id]
      ensures id > MAX_LEVEL_ID ==> r == Got(DISABLED, false)
    {
      if id > MAX_LEVEL_ID { return Got(DISABLED, false); }
      return Got(arr[id], !arr[id].empty);
    }

    method Put(id: nat, status: LevelStatus) returns (ok: bool)
      requires Valid()
      modifies arr
      ensures ok <==> id <= MAX_LEVEL_ID
      ensures Contents() == if ok then Stored(old(Contents()), id, status) else old(Contents())
    {
      if id > MAX_LEVEL_ID { return false; }
      arr[id] := status;
      return true;
    }

    method Clear()
      requires Valid()
      modifies arr
      ensures Contents() == ClearedBelow(old(Contents()), MAX_LEVEL_ID + 1) == map[]
    {
      for i := 0 to arr.Length
        invariant forall k :: 0 <= k < i ==> arr[k] == EMPTY
      {
        arr[i] := EMPTY;
      }
    }
  }

  class SyncMapLevelCache {
    var m: map<nat, LevelStatus>

    ghost predicate Valid()
      reads this
    {
      && (forall id: nat :: id < MAX_LEVEL_ID ==> id in m)
      && (forall id :: id in m ==> id <= MAX_LEVEL_ID)
    }

    ghost function Contents(): Entries
      reads this
    {
      map id | id in m && !m[id].empty :: m[id]
    }

    constructor ()
      ensures Valid() && Contents() == map[] && MAX_LEVEL_ID !in m
    {
      m := map[];
      new;
      Clear();
    }

    /** Panics exactly for the largest ID, as long as that ID was never stored: `clear` skips it. */
    method Get(id: nat) returns (r: GetResult)
      requires Valid()
      ensures r.Panics? <==> id == MAX_LEVEL_ID && MAX_LEVEL_ID !in m
      ensures r.Got? ==> (r.ok <==> id in Contents())
      ensures r.Got? && r.ok ==> r.status == Contents()[id]
      ensures id > MAX_LEVEL_ID ==> r == Got(DISABLED, false)
    {
      if id > MAX_LEVEL_ID { return Got(DISABLED, false); }
      if id !in m { return Panics; }
      return Got(m[id], !m[id].empty);
    }

    method Put(id: nat, status: LevelStatus) returns (ok: bool)
      requires Valid()
      modifies this
      ensures Valid()
      ensures ok <==> id <= MAX_LEVEL_ID
      ensures Contents() == if ok then Stored(old(Contents()), id, status) else old(Contents())
      ensures m.Keys == if ok then old(m).Keys + {id} else old(m).Keys
    {
      if id > MAX_LEVEL_ID { return false; }
      m := m[id := status];
      return true;
    }

    /** Stops one short: an entry for the largest ID would survive. */
    method Clear()
      requires forall id :: id in m ==> id <= MAX_LEVEL_ID
      modifies this
      ensures Valid()
      ensures Contents() == ClearedBelow(old(Contents()), MAX_LEVEL_ID)
      ensures MAX_LEVEL_ID in m <==> MAX_LEVEL_ID in old(m)
    {
      var i := 0;
      while i < MAX_LEVEL_ID
        invariant i <= MAX_LEVEL_ID
        invariant forall id: nat :: id < i ==> id in m && m[id] == EMPTY
        invariant forall id :: id >= i ==> (id in m <==> id in old(m)) && (id in m ==> m[id] == old(m)[id])
      {
        m := m[i := EMPTY];
        i := i + 1;
      }
    }
  }

  // ---- the scan ---------------------------------------------------------------------------------

  /**
   What a lookup asks of one host: the IDs its filter enables, each with the stack-trace flag of the
   level the filter returns, and whether its formatter needs stack traces.
   */
  datatype HostLevels = HostLevels(levels: map<nat, bool>, fmtTrace: bool)

  predicate Enables(h: HostLevels, id: nat) { id in h.levels }

  predicate Traces(h: HostLevels, id: nat) { id in h.levels && (h.levels[id] || h.fmtTrace) }

  /** The status the documentation promises: asking every host. */
  ghost function FullScan(hosts: seq<HostLevels>, id: nat): LevelStatus {
    LevelStatus(exists i :: 0 <= i < |hosts| && Enables(hosts[i], id),
                exists i :: 0 <= i < |hosts| && Traces(hosts[i], id), false)
  }

  /** The scan stops at the first host that wants a stack trace, and loses nothing by it. */
  method Scan(hosts: seq<HostLevels>, id: nat) returns (status: LevelStatus)
    ensures status == FullScan(hosts, id)
  {
    status := DISABLED;
    for i := 0 to |hosts|
      invariant !status.stacktrace && !status.empty
      invariant status.enabled <==> exists k :: 0 <= k < i && Enables(hosts[k], id)
      invariant forall k :: 0 <= k < i ==> !Traces(hosts[k], id)
    {
      if Enables(hosts[i], id) {
        status := status.(enabled := true);
        if hosts[i].levels[id] || hosts[i].fmtTrace {
          status := status.(stacktrace := true);
          assert Traces(hosts[i], id);
          break;
        }
      }
    }
  }

  /** Every remembered status is the full scan's. */
  ghost predicate Right(e: Entries, hosts: seq<HostLevels>) {
    forall i :: i in e ==> e[i] == FullScan(hosts, i)
  }

  /** A lookup in the array cache, undisturbed: the answer is the scan's, and is remembered. */
  method IsLevelEnabled(cache: ArrayLevelCache, hosts: seq<HostLevels>, shut: bool, id: nat)
    returns (status: LevelStatus)
    requires cache.Valid() && Right(cache.Contents(), hosts)
    modifies cache.arr
    ensures status == if shut || id > MAX_LEVEL_ID then DISABLED else FullScan(hosts, id)
    ensures Right(cache.Contents(), hosts)
    ensures !shut && id <= MAX_LEVEL_ID ==> id in cache.Contents()
  {
    if shut { return DISABLED; }
    var r := cache.Get(id);
    if r.ok { return r.status; }
    status := Scan(hosts, id);
    var ok := cache.Put(id, status);
    if !ok { return DISABLED; }
  }

  /**
   A lookup in the sync.Map cache. The largest ID is never stored, as its lookup panics before it could
   store anything; so that lookup panics every time until shutdown, and no other does.
   */
  method IsLevelEnabledSync(cache: SyncMapLevelCache, hosts: seq<HostLevels>, shut: bool, id: nat)
    returns (r: GetResult)
    requires cache.Valid() && MAX_LEVEL_ID !in cache.m && Right(cache.Contents(), hosts)
    modifies cache
    ensures cache.Valid() && MAX_LEVEL_ID !in cache.m && Right(cache.Contents(), hosts)
    ensures r.Panics? <==> !shut && id == MAX_LEVEL_ID
    ensures r.Got? ==> r.status == if shut || id > MAX_LEVEL_ID then DISABLED else FullScan(hosts, id)
    ensures !shut && id < MAX_LEVEL_ID ==> id in cache.Contents()
  {
    if shut { return Got(DISABLED, true); }
    r := cache.Get(id);
    if r.Panics? || r.ok { return; }
    var status := Scan(hosts, id);
    var ok := cache.Put(id, status);
    r := Got(if ok then status else DISABLED, true);
  }
}
