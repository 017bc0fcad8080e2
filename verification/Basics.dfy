/**
 Shared vocabulary of the pipeline model: log records, the messages that travel through both
 queue stages, and the order relations the theorems are stated with.
 */
module Basics {

  datatype Option<+T> = None | Some(value: T)

  /** A log record. Records are told apart by `id`; filters look at the level's ID only. */
  datatype Rec = Rec(id: nat, lvl: nat)

  /** What a queue holds: a log record, or a flush control record (`rec.flush != nil`). */
  datatype Msg = Data(r: Rec) | Ctl(n: nat)

  function Id(m: Msg): nat {
    match m
    case Data(r) => r.id
    case Ctl(n) => n
  }

  function Last<T>(s: seq<T>): T
    requires s != []
  {
    s[|s| - 1]
  }

  function Front<T>(s: seq<T>): seq<T>
    requires s != []
  {
    s[..|s| - 1]
  }

  /** The log records among a sequence of messages, in order. */
  function DataOf(ms: seq<Msg>): seq<Rec> {
    if ms == [] then []
    else if Last(ms).Data? then DataOf(Front(ms)) + [Last(ms).r]
    else DataOf(Front(ms))
  }

  ghost predicate NoCtl(ms: seq<Msg>) {
    forall i :: 0 <= i < |ms| ==> ms[i].Data?
  }

  ghost predicate DistinctIds(ms: seq<Msg>) {
    forall i, j :: 0 <= i < j < |ms| ==> Id(ms[i]) != Id(ms[j])
  }

  ghost predicate Distinct<T>(s: seq<T>) {
    forall i, j :: 0 <= i < j < |s| ==> s[i] != s[j]
  }

  /** `a` can be obtained from `b` by deleting elements, keeping the order of the rest. */
  ghost predicate Subsequence<T>(a: seq<T>, b: seq<T>) {
    a == [] || (b != [] && (Subsequence(a, Front(b)) || (Last(a) == Last(b) && Subsequence(Front(a), Front(b)))))
  }

  lemma HeadMoves<T>(a: seq<T>, q: seq<T>)
    requires q != []
    ensures a + [q[0]] + q[1..] == a + q == a + [] + q == a + [q[0]] + [] + q[1..]
  {
    assert q == [q[0]] + q[1..];
  }

  lemma DataOfSnoc(ms: seq<Msg>, m: Msg)
    ensures DataOf(ms + [m]) == if m.Data? then DataOf(ms) + [m.r] else DataOf(ms)
  {
    assert Front(ms + [m]) == ms;
  }

  lemma {:induction false} DataOfConcat(a: seq<Msg>, b: seq<Msg>)
    ensures DataOf(a + b) == DataOf(a) + DataOf(b)
  {
    if b == [] {
      assert a + b == a;
    } else {
      DataOfConcat(a, Front(b));
      assert a + b == (a + Front(b)) + [Last(b)];
      DataOfSnoc(a + Front(b), Last(b));
    }
  }

  lemma {:induction false} DataOfIn(ms: seq<Msg>, r: Rec)
    ensures r in DataOf(ms) <==> Data(r) in ms
  {
    if ms != [] {
      DataOfIn(Front(ms), r);
      assert ms == Front(ms) + [Last(ms)];
    }
  }

  lemma {:induction false} DataOfDistinct(ms: seq<Msg>)
    requires DistinctIds(ms)
    ensures Distinct(DataOf(ms))
  {
    if ms != [] {
      DataOfDistinct(Front(ms));
      assert ms == Front(ms) + [Last(ms)];
      if Last(ms).Data? {
        DataOfIn(Front(ms), Last(ms).r);
      }
    }
  }

  lemma SubsequenceSnoc<T>(a: seq<T>, b: seq<T>, x: T)
    requires Subsequence(a, b)
    ensures Subsequence(a, b + [x]) && Subsequence(a + [x], b + [x])
  {
    assert Front(b + [x]) == b && Front(a + [x]) == a;
  }

  lemma {:induction false} SubsequenceRefl<T>(a: seq<T>)
    ensures Subsequence(a, a)
  {
    if a != [] { SubsequenceRefl(Front(a)); }
  }

  lemma {:induction false} SubsequenceFront<T>(a: seq<T>, b: seq<T>)
    requires a != [] && Subsequence(a, b)
    ensures Subsequence(Front(a), b)
  {
    if b != [] {
      if Subsequence(a, Front(b)) { SubsequenceFront(a, Front(b)); }
    }
  }

  lemma {:induction false} SubsequenceTrans<T>(a: seq<T>, b: seq<T>, c: seq<T>)
    requires Subsequence(a, b) && Subsequence(b, c)
    ensures Subsequence(a, c)
    decreases |b| + |c|
  {
    if a != [] && b != [] && c != [] {
      if Subsequence(b, Front(c)) {
        SubsequenceTrans(a, b, Front(c));
      } else if Subsequence(a, Front(b)) {
        SubsequenceTrans(a, Front(b), Front(c));
      } else {
        SubsequenceTrans(Front(a), Front(b), Front(c));
      }
    }
  }

  lemma {:induction false} SubsequencePrefix<T>(a: seq<T>, b: seq<T>)
    requires a <= b
    ensures Subsequence(a, b)
    decreases |b|
  {
    if a == b {
      SubsequenceRefl(a);
    } else {
      SubsequencePrefix(a, Front(b));
    }
  }

  lemma {:induction false} SubsequenceSuffix<T>(b: seq<T>, i: nat)
    requires i <= |b|
    ensures Subsequence(b[i..], b)
    decreases |b|
  {
    if i < |b| {
      SubsequenceSuffix(Front(b), i);
      assert Front(b[i..]) == Front(b)[i..];
    }
  }

  lemma {:induction false} SubsequenceIn<T>(a: seq<T>, b: seq<T>, x: T)
    requires Subsequence(a, b) && x in a
    ensures x in b
    decreases |b|
  {
    assert a == Front(a) + [Last(a)];
    assert b == Front(b) + [Last(b)];
    if Subsequence(a, Front(b)) {
      SubsequenceIn(a, Front(b), x);
    } else if x != Last(a) {
      SubsequenceIn(Front(a), Front(b), x);
    }
  }

  lemma {:induction false} SubsequenceDistinct<T>(a: seq<T>, b: seq<T>)
    requires Subsequence(a, b) && Distinct(b)
    ensures Distinct(a)
    decreases |b|
  {
    if a != [] {
      if Subsequence(a, Front(b)) {
        SubsequenceDistinct(a, Front(b));
      } else {
        SubsequenceDistinct(Front(a), Front(b));
        assert a == Front(a) + [Last(a)];
        if Last(a) in Front(a) {
          SubsequenceIn(Front(a), Front(b), Last(a));
        }
      }
    }
  }
}
