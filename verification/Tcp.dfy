/**
 The TCP target (targets/tcp.go): retry and reconnect until a record has been accepted whole.

 The network is a script: each element says how one turn of the retry loop ends. A script is finite,
 so `Write` may come to its end still retrying; every finite part of every run is covered.
 */
module Tcp {

  type Bytes = seq<bv8>

  const RETRY_BACKOFF_MILLIS: int := 100
  const MAX_RETRY_BACKOFF_MILLIS: int := 30 * 1000

  /**
   `dials`: a connection can be before if none is open. `whole`: conn.Write takes the whole record and
   returns no error; otherwise it fails after taking `taken` bytes of it.
   */
  datatype Turn =
    | Down                                          // the shutdown channel is closed
    | Try(dials: bool, whole: bool, taken: nat)

  datatype Outcome = Returned(count: nat, failed: bool) | Retrying

  // ---- the receiving side --------------------------------------------------------------------------

  function Flatten(recs: seq<Bytes>): Bytes {
    if recs == [] then [] else Flatten(recs[..|recs| - 1]) + recs[|recs| - 1]
  }

  /** Records a..b, joined. */
  function Whole(calls: seq<Bytes>, a: nat, b: nat): Bytes {
    if a <= b <= |calls| then Flatten(calls[a..b]) else []
  }

  /** The bytes are records a..b whole, then at most one copy or prefix of record b. */
  ghost predicate Carries(bytes: Bytes, calls: seq<Bytes>, a: nat, b: nat) {
    && a <= b <= |calls|
    && Whole(calls, a, b) <= bytes
    && bytes[|Whole(calls, a, b)|..] <= (if b < |calls| then calls[b] else [])
  }

  /**
   What the connections have taken, in the order they were before: connection k starts with record
   cuts[k], carries the records up to cuts[k + 1], and breaks off inside that one, with which the
   next connection starts.
   */
  ghost predicate Stream(wire: seq<Bytes>, calls: seq<Bytes>, cuts: seq<nat>, done: nat) {
    && |cuts| == |wire| + 1 && cuts[0] == 0 && cuts[|wire|] == done
    && forall k :: 0 <= k < |wire| ==> Carries(wire[k], calls, cuts[k], cuts[k + 1])
  }

  lemma FlattenSnoc(recs: seq<Bytes>, p: Bytes)
    ensures Flatten(recs + [p]) == Flatten(recs) + p
  {
    assert (recs + [p])[..|recs|] == recs;
  }

  lemma {:induction false} FlattenConcat(a: seq<Bytes>, b: seq<Bytes>)
    ensures Flatten(a + b) == Flatten(a) + Flatten(b)
  {
    if b == [] {
      assert a + b == a;
    } else {
      var front, p := b[..|b| - 1], b[|b| - 1];
      FlattenConcat(a, front);
      assert a + b == (a + front) + [p];
      FlattenSnoc(a + front, p);
      assert Flatten(a) + Flatten(front) + p == Flatten(a) + (Flatten(front) + p);
    }
  }

  function Start(b: Bytes, n: nat): Bytes { if n <= |b| then b[..n] else b }

  /** What the first n connections took, each without the copy it broke off in, joined. */
  ghost function Reassembled(wire: seq<Bytes>, calls: seq<Bytes>, cuts: seq<nat>, n: nat): Bytes
    requires n <= |wire| && |cuts| == |wire| + 1
  {
    if n == 0 then []
    else Reassembled(wire, calls, cuts, n - 1) + Start(wire[n - 1], |Whole(calls, cuts[n - 1], cuts[n])|)
  }

  /** Joined, what the connections took, less what they broke off in, is every finished record once, in call order. */
  lemma {:induction false} InOrder(wire: seq<Bytes>, calls: seq<Bytes>, cuts: seq<nat>, done: nat, n: nat)
    requires Stream(wire, calls, cuts, done) && n <= |wire|
    ensures cuts[n] <= |calls| && Reassembled(wire, calls, cuts, n) == Whole(calls, 0, cuts[n])
  {
    if n == 0 {
      assert calls[..0] == [];
    } else {
      InOrder(wire, calls, cuts, done, n - 1);
      CarriesStart(wire[n - 1], calls, cuts[n - 1], cuts[n]);
      WholeJoins(calls, 0, cuts[n - 1], cuts[n]);
    }
  }

  lemma CarriesStart(bytes: Bytes, calls: seq<Bytes>, a: nat, b: nat)
    requires Carries(bytes, calls, a, b)
    ensures a <= b <= |calls| && Start(bytes, |Whole(calls, a, b)|) == Whole(calls, a, b)
  {}

  lemma WholeJoins(calls: seq<Bytes>, a: nat, b: nat, c: nat)
    requires a <= b <= c <= |calls|
    ensures Whole(calls, a, b) + Whole(calls, b, c) == Whole(calls, a, c)
  {
    assert calls[a..c] == calls[a..b] + calls[b..c];
    FlattenConcat(calls[a..b], calls[b..c]);
  }

  lemma WholeOne(calls: seq<Bytes>, a: nat)
    requires a < |calls|
    ensures Whole(calls, a, a + 1) == calls[a]
  {
    assert calls[a..a + 1] == [calls[a]];
    FlattenSnoc([], calls[a]);
    assert [] + [calls[a]] == [calls[a]];
  }

  /** At least once: every finished record lies whole on some connection, right after those before it. */
  lemma {:induction false} AtLeastOnce(wire: seq<Bytes>, calls: seq<Bytes>, cuts: seq<nat>, done: nat, r: nat)
      returns (k: nat)
    requires Stream(wire, calls, cuts, done) && r < done
    ensures k < |wire| && cuts[k] <= r < cuts[k + 1] <= |calls|
    ensures Whole(calls, cuts[k], r) + calls[r] <= wire[k]
  {
    k := |wire|;
    while cuts[k] > r
      invariant k <= |wire|
      invariant k < |wire| ==> cuts[k + 1] > r
      decreases k
    {
      k := k - 1;
    }
    assert Carries(wire[k], calls, cuts[k], cuts[k + 1]);
    WholeOne(calls, r);
    WholeJoins(calls, cuts[k], r, r + 1);
    WholeJoins(calls, cuts[k], r + 1, cuts[k + 1]);
  }

  /** A connection takes up where the one before it broke off: it starts with the same record, whole or in part. */
  lemma NextConnectionRepeats(wire: seq<Bytes>, calls: seq<Bytes>, cuts: seq<nat>, done: nat, k: nat)
    requires Stream(wire, calls, cuts, done) && k + 1 < |wire| && cuts[k + 1] < |calls|
    ensures wire[k][|Whole(calls, cuts[k], cuts[k + 1])|..] <= calls[cuts[k + 1]]
    ensures calls[cuts[k + 1]] <= wire[k + 1] || wire[k + 1] <= calls[cuts[k + 1]]
  {
    assert Carries(wire[k], calls, cuts[k], cuts[k + 1]);
    assert Carries(wire[k + 1], calls, cuts[k + 1], cuts[k + 2]);
    CarriesFrom(wire[k + 1], calls, cuts[k + 1], cuts[k + 2]);
  }

  lemma CarriesFrom(bytes: Bytes, calls: seq<Bytes>, c: nat, d: nat)
    requires Carries(bytes, calls, c, d) && c < |calls|
    ensures calls[c] <= bytes || bytes <= calls[c]
  {
    if c < d {
      WholeOne(calls, c);
      WholeJoins(calls, c, c + 1, d);
    } else {
      assert calls[c..d] == [];
    }
  }

  /** Connections are only added, and what they took only grows. */
  ghost predicate Extends(wire: seq<Bytes>, before: seq<Bytes>) {
    |wire| >= |before| && forall k :: 0 <= k < |before| ==> before[k] <= wire[k]
  }

  lemma ExtendsTrans(c: seq<Bytes>, b: seq<Bytes>, a: seq<Bytes>)
    requires Extends(c, b) && Extends(b, a)
    ensures Extends(c, a)
  {}

  lemma CarriesMoreCalls(bytes: Bytes, calls: seq<Bytes>, a: nat, b: nat, p: Bytes)
    requires Carries(bytes, calls, a, b)
    ensures Carries(bytes, calls + [p], a, b)
  {
    assert (calls + [p])[a..b] == calls[a..b];
  }

  lemma CarriesNothing(calls: seq<Bytes>, a: nat)
    requires a <= |calls|
    ensures Carries([], calls, a, a) && Whole(calls, a, a) == []
  {
    assert calls[a..a] == [];
  }

  lemma CarriesWhole(bytes: Bytes, calls: seq<Bytes>, a: nat, b: nat)
    requires a <= b < |calls| && bytes == Whole(calls, a, b)
    ensures Whole(calls, a, b + 1) == bytes + calls[b]
    ensures Carries(bytes + calls[b], calls, a, b + 1)
  {
    WholeOne(calls, b);
    WholeJoins(calls, a, b, b + 1);
    assert (bytes + calls[b])[|bytes + calls[b]|..] == [];
  }

  lemma CarriesPart(bytes: Bytes, calls: seq<Bytes>, a: nat, b: nat, n: nat)
    requires a <= b < |calls| && bytes == Whole(calls, a, b) && n <= |calls[b]|
    ensures Carries(bytes + calls[b][..n], calls, a, b)
  {
    assert (bytes + calls[b][..n])[|bytes|..] == calls[b][..n];
  }

  // ---- backoff ------------------------------------------------------------------------------------

  /** The next pause: half as long again, up to the maximum. */
  function NextBackoff(backoff: int): int {
    var next := backoff + backoff / 2;
    if next > MAX_RETRY_BACKOFF_MILLIS then MAX_RETRY_BACKOFF_MILLIS else next
  }

  function BackoffAfter(tries: nat): int {
    if tries == 0 then RETRY_BACKOFF_MILLIS else NextBackoff(BackoffAfter(tries - 1))
  }

  /** Pauses never shrink, stay within bounds, and reach the maximum after fifteen failures at the latest. */
  lemma {:induction false} BackoffBounds(tries: nat)
    ensures RETRY_BACKOFF_MILLIS <= BackoffAfter(tries) <= BackoffAfter(tries + 1) <= MAX_RETRY_BACKOFF_MILLIS
    ensures tries >= 15 ==> BackoffAfter(tries) == MAX_RETRY_BACKOFF_MILLIS
  {
    if tries > 0 {
      BackoffBounds(tries - 1);
      if tries == 15 { BackoffFifteen(); }
    }
  }

  lemma BackoffFifteen()
    ensures BackoffAfter(15) == MAX_RETRY_BACKOFF_MILLIS
  {
    assert BackoffAfter(3) == 337;
    assert BackoffAfter(6) == 1135;
    assert BackoffAfter(9) == 3829;
    assert BackoffAfter(12) == 12921;
  }

  // ---- what a script comes to ---------------------------------------------------------------------

  /** The turn sends the record, if a connection is open or can be had. */
  predicate Sends(open: bool, t: Turn) { t.Try? && (open || t.dials) && t.whole }

  /** From turn i on, some turn sends the record before shutdown is seen; `open` speaks of turn i only. */
  predicate GetsThrough(open: bool, net: seq<Turn>, i: nat)
    requires i <= |net|
    decreases |net| - i
  {
    i < |net| && net[i].Try? && (Sends(open, net[i]) || GetsThrough(false, net, i + 1))
  }

  /** Shutdown is seen before any turn sends the record. */
  predicate MeetsShutdown(open: bool, net: seq<Turn>, i: nat)
    requires i <= |net|
    decreases |net| - i
  {
    i < |net| && (net[i].Down? || (!Sends(open, net[i]) && MeetsShutdown(false, net, i + 1)))
  }

  /** The last connection takes some bytes more. */
  function Took(wire: seq<Bytes>, b: Bytes): seq<Bytes> {
    if wire == [] then wire else wire[|wire| - 1 := wire[|wire| - 1] + b]
  }

  /** What the connections have taken after one turn. */
  function WireAfterOne(wire: seq<Bytes>, open: bool, p: Bytes, t: Turn): seq<Bytes> {
    if t.Down? || !(open || t.dials) then wire
    else Took(if open then wire else wire + [[]], if t.whole then p else Start(p, t.taken))
  }

  /** And after the turns from i on, up to the one that sends the record or sees shutdown. */
  function WireAfter(wire: seq<Bytes>, open: bool, p: Bytes, net: seq<Turn>, i: nat): seq<Bytes>
    requires i <= |net|
    decreases |net| - i
  {
    if i == |net| || net[i].Down? then wire
    else
      var w := WireAfterOne(wire, open, p, net[i]);
      if Sends(open, net[i]) then w else WireAfter(w, false, p, net, i + 1)
  }

  lemma TookExtends(wire: seq<Bytes>, b: Bytes)
    ensures Extends(Took(wire, b), wire)
  {}

  /** The open connection took nothing but records a..done, and now takes the next one whole. */
  lemma StreamWhole(wire: seq<Bytes>, calls: seq<Bytes>, cuts: seq<nat>, done: nat)
    requires Stream(wire, calls, cuts, done) && wire != [] && done < |calls|
    requires wire[|wire| - 1] == Whole(calls, cuts[|wire| - 1], done)
    ensures var w, c := Took(wire, calls[done]), cuts[|wire| := done + 1];
      Stream(w, calls, c, done + 1) && w[|w| - 1] == Whole(calls, c[|w| - 1], done + 1)
  {
    var last := |wire| - 1;
    assert Carries(wire[last], calls, cuts[last], cuts[last + 1]);
    CarriesWhole(wire[last], calls, cuts[last], done);
    var w, c := Took(wire, calls[done]), cuts[|wire| := done + 1];
    forall k | 0 <= k < |w| ensures Carries(w[k], calls, c[k], c[k + 1]) {
      if k < last { assert Carries(wire[k], calls, cuts[k], cuts[k + 1]); }
    }
  }

  /** Or takes a part of it. */
  lemma StreamPart(wire: seq<Bytes>, calls: seq<Bytes>, cuts: seq<nat>, done: nat, n: nat)
    requires Stream(wire, calls, cuts, done) && wire != [] && done < |calls| && n <= |calls[done]|
    requires wire[|wire| - 1] == Whole(calls, cuts[|wire| - 1], done)
    ensures Stream(Took(wire, calls[done][..n]), calls, cuts, done)
  {
    var last := |wire| - 1;
    assert Carries(wire[last], calls, cuts[last], cuts[last + 1]);
    CarriesPart(wire[last], calls, cuts[last], done, n);
    var w := Took(wire, calls[done][..n]);
    forall k | 0 <= k < |w| ensures Carries(w[k], calls, cuts[k], cuts[k + 1]) {
      if k < last { assert Carries(wire[k], calls, cuts[k], cuts[k + 1]); }
    }
  }

  lemma TurnExtends(wire: seq<Bytes>, open: bool, p: Bytes, t: Turn)
    ensures Extends(WireAfterOne(wire, open, p, t), wire)
  {
    var w := if open then wire else wire + [[]];
    var b := if t.Try? && !t.whole then Start(p, t.taken) else p;
    TookExtends(w, b);
    assert forall k :: 0 <= k < |wire| ==> w[k] == wire[k];
  }

  lemma {:induction false} ScriptExtends(wire: seq<Bytes>, open: bool, p: Bytes, net: seq<Turn>, i: nat)
    requires i <= |net|
    ensures Extends(WireAfter(wire, open, p, net, i), wire)
    decreases |net| - i
  {
    if i < |net| && net[i].Try? {
      var w := WireAfterOne(wire, open, p, net[i]);
      TurnExtends(wire, open, p, net[i]);
      if !Sends(open, net[i]) {
        ScriptExtends(w, false, p, net, i + 1);
        ExtendsTrans(WireAfter(w, false, p, net, i + 1), w, wire);
      }
    }
  }

  // ---- the target ---------------------------------------------------------------------------------

  class Target {
    var connected: bool            // tcp.conn != nil; the open connection is the last on the wire
    var shutdown: bool             // the shutdown channel is closed
    var wire: seq<Bytes>           // what each connection has taken
    ghost var calls: seq<Bytes>    // the records given to Write before shutdown
    ghost var done: nat            // how many of them were sent
    ghost var cuts: seq<nat>

    ghost predicate Valid()
      reads this
    {
      && Stream(wire, calls, cuts, done)
      && done <= |calls| <= done + 1
      && (connected ==> wire != [] && wire[|wire| - 1] == Whole(calls, cuts[|wire| - 1], done))
    }

    /** Between calls: everything given to Write was sent, unless shutdown cut the last one short. */
    ghost predicate Ready()
      reads this
    {
      Valid() && (done == |calls| || shutdown)
    }

    constructor ()
      ensures Ready() && !shutdown && wire == [] && calls == []
    {
      connected, shutdown, wire := false, false, [];
      calls, done, cuts := [], 0, [0];
    }

    /** getConn reuses the open connection or dials; a failing dial, or shutdown during it, is an error. */
    method Connect(dials: bool) returns (ok: bool)
      requires Valid()
      modifies this`connected, this`wire, this`cuts
      ensures Valid() && connected == ok == (old(connected) || dials)
      ensures wire == if !old(connected) && dials then old(wire) + [[]] else old(wire)
      ensures Extends(wire, old(wire))
    {
      if !connected && dials {
        CarriesNothing(calls, done);
        wire, cuts, connected := wire + [[]], cuts + [done], true;
      }
      ok := connected;
    }

    /** The open connection takes n bytes of the current record, or all of it. */
    method Take(p: Bytes, n: nat, whole: bool)
      requires Valid() && connected && done < |calls| && p == calls[done]
      requires n <= |p| && (whole ==> n == |p|)
      modifies this`connected, this`wire, this`cuts, this`done
      ensures Valid() && connected == whole
      ensures done == old(done) + (if whole then 1 else 0)
      ensures wire == Took(old(wire), if whole then p else p[..n])
    {
      if whole {
        StreamWhole(wire, calls, cuts, done);
        cuts := cuts[|wire| := done + 1];
        done := done + 1;
      } else {
        StreamPart(wire, calls, cuts, done, n);
        connected := false;
      }
      wire := Took(wire, if whole then p else p[..n]);
    }

    /** One turn of the retry loop past the shutdown check. */
    method Attempt(p: Bytes, t: Turn) returns (sent: bool)
      requires Valid() && t.Try? && t.taken <= |p|
      requires done < |calls| && p == calls[done]
      modifies this`connected, this`wire, this`cuts, this`done
      ensures Valid() && sent == Sends(old(connected), t) && connected == sent
      ensures done == old(done) + (if sent then 1 else 0)
      ensures wire == WireAfterOne(old(wire), old(connected), p, t)
      ensures Extends(wire, old(wire))
    {
      TurnExtends(wire, connected, p, t);
      var ok := Connect(t.dials);
      if !ok { return false; }
      Take(p, if t.whole then |p| else t.taken, t.whole);
      return t.whole;
    }

    /**
     Write retries until the record has been taken whole or shutdown is seen, and never returns an
     error. It sends the record if and only if some turn does so before shutdown is seen, and leaves on
     the connections just what those turns took.
     */
    method Write(p: Bytes, net: seq<Turn>) returns (out: Outcome)
      requires Ready()
      requires forall i :: 0 <= i < |net| && net[i].Try? ==> net[i].taken <= |p|
      modifies this
      ensures Valid()
      ensures calls == if old(shutdown) then old(calls) else old(calls) + [p]
      ensures out.Returned? ==> !out.failed && Ready()
      ensures out.Returned? && !shutdown ==> out.count == |p| && done == |calls|
      ensures out.Returned? && shutdown ==> out.count == 0 && done == old(done)
      ensures out.Retrying? ==> !shutdown && done == old(done)
      ensures old(shutdown) ==> out == Returned(0, false) && wire == old(wire)
      ensures out.Returned? && !shutdown <==> !old(shutdown) && GetsThrough(old(connected), net, 0)
      ensures out.Returned? && shutdown <==> old(shutdown) || MeetsShutdown(old(connected), net, 0)
      ensures !old(shutdown) ==> wire == WireAfter(old(wire), old(connected), p, net, 0)
      ensures Extends(wire, old(wire))
    {
      if shutdown { return Returned(0, false); }
      ScriptExtends(wire, connected, p, net, 0);
      Begin(p);
      out := Retry(p, net);
    }

    /** The loop of Write, for the record just begun. */
    method Retry(p: Bytes, net: seq<Turn>) returns (out: Outcome)
      requires Valid() && !shutdown && done < |calls| && p == calls[done]
      requires forall i :: 0 <= i < |net| && net[i].Try? ==> net[i].taken <= |p|
      modifies this`connected, this`shutdown, this`wire, this`cuts, this`done
      ensures Valid() && wire == WireAfter(old(wire), old(connected), p, net, 0)
      ensures out.Returned? && !shutdown <==> GetsThrough(old(connected), net, 0)
      ensures out.Returned? && shutdown <==> MeetsShutdown(old(connected), net, 0)
      ensures out.Retrying? || out == Returned(if shutdown then 0 else |p|, false)
      ensures done == old(done) + (if out.Returned? && !shutdown then 1 else 0)
      ensures out.Retrying? ==> !shutdown
    {
      var backoff := RETRY_BACKOFF_MILLIS;
      ghost var tries := 0;
      for i := 0 to |net|
        invariant Valid() && !shutdown && done == old(done)
        invariant backoff == BackoffAfter(tries)
        invariant GetsThrough(connected, net, i) == GetsThrough(old(connected), net, 0)
        invariant MeetsShutdown(connected, net, i) == MeetsShutdown(old(connected), net, 0)
        invariant WireAfter(wire, connected, p, net, i) == WireAfter(old(wire), old(connected), p, net, 0)
      {
        if net[i].Down? {
          shutdown := true;
          return Returned(0, false);
        }
        var sent := Attempt(p, net[i]);
        if sent { return Returned(|p|, false); }
        backoff, tries := NextBackoff(backoff), tries + 1;
      }
      return Retrying;
    }

    ghost method Begin(p: Bytes)
      requires Ready() && !shutdown
      modifies this`calls
      ensures Valid() && calls == old(calls) + [p]
    {
      forall k | 0 <= k < |wire| ensures Carries(wire[k], calls + [p], cuts[k], cuts[k + 1]) {
        CarriesMoreCalls(wire[k], calls, cuts[k], cuts[k + 1], p);
      }
      if connected {
        assert Carries(wire[|wire| - 1], calls, cuts[|wire| - 1], cuts[|wire|]);
        assert (calls + [p])[cuts[|wire| - 1]..done] == calls[cuts[|wire| - 1]..done];
      }
      calls := calls + [p];
    }

    /** Shutdown closes the connection and then the channel; no byte is sent afterwards. */
    method Shutdown()
      requires Valid() && !shutdown
      modifies this`connected, this`shutdown
      ensures Ready() && shutdown && !connected
    {
      connected := false;
      shutdown := true;
    }
  }
}
