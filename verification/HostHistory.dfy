/** How the readings of one host's histories relate to each other. */
module HostHistory {
  import opened Basics
  import opened TargetHost

  /** The records the filter passed over, in order. */
  function Skipped(hist: seq<Entry>): seq<Rec> {
    if hist == [] then []
    else if Last(hist).Skip? then Skipped(Front(hist)) + [Last(hist).r]
    else Skipped(Front(hist))
  }

  /** What a synchronous logger writing every listed record on the spot would have written. */
  function SyncOutput(recs: seq<Rec>, levels: set<nat>): seq<Rec> {
    if recs == [] then []
    else if Last(recs).lvl in levels then SyncOutput(Front(recs), levels) + [Last(recs)]
    else SyncOutput(Front(recs), levels)
  }

  /** Everything offered to the host has got into its queue. */
  ghost predicate NothingTurnedAway(hist: seq<Entry>) {
    forall i :: 0 <= i < |hist| ==> hist[i].Offer? && hist[i].m.Data? ==> hist[i].d.Admit?
  }

  lemma {:induction false} AdmittedInOrder(hist: seq<Entry>)
    ensures Subsequence(DataOf(Admitted(hist)), Brought(hist))
  {
    if hist != [] {
      var a, b := DataOf(Admitted(Front(hist))), Brought(Front(hist));
      AdmittedInOrder(Front(hist));
      if Last(hist).Offer? && Last(hist).d.Admit? {
        DataOfSnoc(Admitted(Front(hist)), Last(hist).m);
      }
      if RecOf(Last(hist)) != [] {
        SubsequenceSnoc(a, b, RecOf(Last(hist))[0]);
      } else {
        assert b + [] == b && a + [] == a;
      }
    }
  }

  /** With no filter change and nothing turned away, the admitted records are the synchronous output. */
  lemma {:induction false} AdmittedIsSync(h: Host, hist: seq<Entry>)
    requires forall i :: 0 <= i < |hist| ==> EntryOk(h, hist[i])
    requires h.filter == h.filter0 && NothingTurnedAway(hist)
    ensures DataOf(Admitted(hist)) == SyncOutput(Brought(hist), h.filter)
  {
    if hist != [] {
      var e := Last(hist);
      AdmittedIsSync(h, Front(hist));
      assert EntryOk(h, hist[|hist| - 1]);
      if e.Offer? && e.d.Admit? { DataOfSnoc(Admitted(Front(hist)), e.m); }
      if RecOf(e) != [] {
        assert Front(Brought(Front(hist)) + RecOf(e)) == Brought(Front(hist));
      } else {
        assert Brought(Front(hist)) + [] == Brought(Front(hist));
      }
    }
  }

  /** Every record brought to the host was passed over, turned away or admitted. */
  lemma {:induction false} BroughtSplits(hist: seq<Entry>, r: Rec)
    requires r in Brought(hist)
    ensures r in Skipped(hist) || r in Decided(hist, Refuse) || r in Decided(hist, Drop)
         || r in Decided(hist, Expire) || Data(r) in Admitted(hist)
  {
    if hist != [] && r in Brought(Front(hist)) {
      BroughtSplits(Front(hist), r);
    }
  }

  lemma {:induction false} TakenEnded(taken: seq<Taken>, r: Rec)
    requires forall i :: 0 <= i < |taken| ==> TakenOk(taken[i])
    requires Data(r) in TakenMsgs(taken)
    ensures r in Ended(taken, Written) || r in Ended(taken, Failed) || r in Ended(taken, Lost)
  {
    assert TakenOk(taken[|taken| - 1]);
    if Data(r) in TakenMsgs(Front(taken)) {
      TakenEnded(Front(taken), r);
    }
  }

  /** If no write failed and none panicked, what was written is what was taken. */
  lemma {:induction false} WrittenIsTaken(taken: seq<Taken>)
    requires forall i :: 0 <= i < |taken| ==> TakenOk(taken[i]) && (taken[i].m.Data? ==> taken[i].o.Written?)
    ensures Ended(taken, Written) == DataOf(TakenMsgs(taken))
  {
    if taken != [] {
      WrittenIsTaken(Front(taken));
      assert taken[|taken| - 1] == Last(taken);
      DataOfSnoc(TakenMsgs(Front(taken)), Last(taken).m);
    }
  }

  lemma {:induction false} OfferedCount(hist: seq<Entry>)
    ensures multiset(Offered(hist)) ==
      multiset(Decided(hist, Refuse)) + multiset(Decided(hist, Drop)) + multiset(Decided(hist, Expire))
      + multiset(DataOf(Admitted(hist)))
  {
    if hist != [] {
      OfferedCount(Front(hist));
      var e := Last(hist);
      if e.Offer? && e.d.Admit? { DataOfSnoc(Admitted(Front(hist)), e.m); }
    }
  }

  lemma {:induction false} TakenCount(taken: seq<Taken>)
    requires forall i :: 0 <= i < |taken| ==> TakenOk(taken[i])
    ensures multiset(DataOf(TakenMsgs(taken))) ==
      multiset(Ended(taken, Written)) + multiset(Ended(taken, Failed)) + multiset(Ended(taken, Lost))
  {
    if taken != [] {
      TakenCount(Front(taken));
      assert TakenOk(taken[|taken| - 1]);
      DataOfSnoc(TakenMsgs(Front(taken)), Last(taken).m);
    }
  }

  lemma {:induction false} OfferedInOrder(hist: seq<Entry>)
    ensures Subsequence(Offered(hist), Brought(hist))
  {
    if hist != [] {
      var a, b := Offered(Front(hist)), Brought(Front(hist));
      OfferedInOrder(Front(hist));
      var e := Last(hist);
      if e.Skip? {
        SubsequenceSnoc(a, b, e.r);
      } else if e.m.Data? {
        SubsequenceSnoc(a, b, e.m.r);
      } else {
        assert b + [] == b && a + [] == a;
      }
    }
  }
}
