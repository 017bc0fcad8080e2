/**
 Ownership of pooled buffers (logr.go:398-412) by the goroutines that format records: the hosts'
 readers in writeRec (target.go:252-269) and anyone calling LogRec.String (logrec.go:158-168).
 */
module BufferPool {

  type Bytes = seq<bv8>

  datatype Buf = Buf(content: Bytes, capacity: nat)

  /**
   A goroutine between BorrowBuffer and the deferred ReleaseBuffer; `todo` is what Format has yet to
   append, `wrote` whether Target.Write was called.
   */
  datatype Holder = Holder(buf: nat, text: Bytes, todo: Bytes, wrote: bool)

  /** `pool` is a multiset: nothing in sync.Pool itself keeps a buffer from being put twice. */
  datatype State = State(
    max: nat, disabled: bool, bufs: seq<Buf>, pool: multiset<nat>, holders: map<nat, Holder>,
    written: seq<(Bytes, Bytes)>,   // history: bytes handed to Target.Write, and the text of the record
    borrows: nat, releases: nat)    // history: calls of BorrowBuffer and of ReleaseBuffer

  function Init(max: nat, disabled: bool): State { State(max, disabled, [], multiset{}, map[], [], 0, 0) }

  datatype Step =
    | BorrowNew(p: nat, text: Bytes)            // sync.Pool has none to give, or pooling is disabled
    | BorrowOld(p: nat, text: Bytes, b: nat)
    | Append(p: nat, n: nat, capacity: nat)     // Format appends the next n bytes; the buffer may grow
    | Write(p: nat)                             // Format is done: Target.Write(buf.Bytes())
    | Release(p: nat)                           // the deferred release: after Write, a failing Format, or a panic
    | Forget(b: nat)                            // the garbage collector empties part of the pool

  predicate Enabled(s: State, st: Step) {
    match st
    case BorrowNew(p, _) => p !in s.holders
    case BorrowOld(p, _, b) => p !in s.holders && !s.disabled && b in s.pool && b < |s.bufs|
    case Append(p, n, capacity) =>
      p in s.holders && s.holders[p].buf < |s.bufs| && n <= |s.holders[p].todo| && !s.holders[p].wrote
      && |s.bufs[s.holders[p].buf].content| + n <= capacity && s.bufs[s.holders[p].buf].capacity <= capacity
    case Write(p) => p in s.holders && s.holders[p].buf < |s.bufs| && s.holders[p].todo == [] && !s.holders[p].wrote
    case Release(p) => p in s.holders && s.holders[p].buf < |s.bufs|
    case Forget(b) => b in s.pool
  }

  function Apply(s: State, st: Step): State
    requires Enabled(s, st)
  {
    match st
    case BorrowNew(p, text) =>
      s.(bufs := s.bufs + [Buf([], 0)], holders := s.holders[p := Holder(|s.bufs|, text, text, false)],
         borrows := s.borrows + 1)
    case BorrowOld(p, text, b) =>
      s.(pool := s.pool - multiset{b}, holders := s.holders[p := Holder(b, text, text, false)],
         borrows := s.borrows + 1)
    case Append(p, n, capacity) =>
      var h := s.holders[p];
      s.(bufs := s.bufs[h.buf := Buf(s.bufs[h.buf].content + h.todo[..n], capacity)],
         holders := s.holders[p := h.(todo := h.todo[n..])])
    case Write(p) =>
      var h := s.holders[p];
      s.(written := s.written + [(s.bufs[h.buf].content, h.text)], holders := s.holders[p := h.(wrote := true)])
    case Release(p) =>
      var b := s.holders[p].buf;
      var s' := s.(holders := s.holders - {p}, releases := s.releases + 1);
      if !s.disabled && s.bufs[b].capacity < s.max
      then s'.(bufs := s.bufs[b := s.bufs[b].(content := [])], pool := s.pool + multiset{b})
      else s'
    case Forget(b) => s.(pool := s.pool - multiset{b})
  }

  ghost predicate HolderOk(s: State, h: Holder) {
    && h.buf < |s.bufs| && s.pool[h.buf] == 0
    && s.bufs[h.buf].content + h.todo == h.text
  }

  /** A pooled buffer is there once, empty, small enough, and held by nobody; holders share no buffer. */
  ghost predicate Owned(s: State) {
    && (forall b :: b in s.pool ==>
          s.pool[b] == 1 && b < |s.bufs| && s.bufs[b].content == [] && s.bufs[b].capacity < s.max)
    && (s.disabled ==> s.pool == multiset{})
    && (forall p :: p in s.holders ==> HolderOk(s, s.holders[p]))
    && (forall p, q :: p in s.holders && q in s.holders && p != q ==> s.holders[p].buf != s.holders[q].buf)
    && (forall i :: 0 <= i < |s.written| ==> s.written[i].0 == s.written[i].1)
  }

  /** Every borrow was released once, or is still held. */
  ghost predicate Balanced(s: State) { s.borrows == s.releases + |s.holders| }

  lemma BalancedKept(s: State, st: Step)
    requires Balanced(s) && Enabled(s, st)
    ensures Balanced(Apply(s, st))
  {
    if st.Append? || st.Write? {
      assert Apply(s, st).holders.Keys == s.holders.Keys;
    } else if st.Release? {
      assert Apply(s, st).holders.Keys == s.holders.Keys - {st.p};
    }
  }

  lemma AppendKeeps(s: State, p: nat, n: nat, capacity: nat)
    requires Owned(s) && Enabled(s, Append(p, n, capacity))
    ensures Owned(Apply(s, Append(p, n, capacity)))
  {
    var h := s.holders[p];
    var s' := Apply(s, Append(p, n, capacity));
    assert HolderOk(s, h);
    assert h.todo == h.todo[..n] + h.todo[n..];
    forall q | q in s'.holders ensures HolderOk(s', s'.holders[q]) {
      assert HolderOk(s, s.holders[q]);
    }
  }

  lemma OwnedKept(s: State, st: Step)
    requires Owned(s) && Enabled(s, st)
    ensures Owned(Apply(s, st))
  {
    match st
    case Append(p, n, capacity) => AppendKeeps(s, p, n, capacity);
    case BorrowNew(p, text) => BorrowNewKeeps(s, p, text);
    case BorrowOld(p, text, b) => BorrowOldKeeps(s, p, text, b);
    case Write(p) => WriteKeeps(s, p);
    case Release(p) => ReleaseKeeps(s, p);
    case Forget(b) =>
  }

  lemma BorrowNewKeeps(s: State, p: nat, text: Bytes)
    requires Owned(s) && Enabled(s, BorrowNew(p, text))
    ensures Owned(Apply(s, BorrowNew(p, text)))
  {
    var s' := Apply(s, BorrowNew(p, text));
    assert s.pool[|s.bufs|] == 0;
    forall q | q in s'.holders ensures HolderOk(s', s'.holders[q]) {
      if q != p { assert HolderOk(s, s.holders[q]); }
    }
  }

  lemma BorrowOldKeeps(s: State, p: nat, text: Bytes, b: nat)
    requires Owned(s) && Enabled(s, BorrowOld(p, text, b))
    ensures Owned(Apply(s, BorrowOld(p, text, b)))
  {
    var s' := Apply(s, BorrowOld(p, text, b));
    forall q | q in s'.holders ensures HolderOk(s', s'.holders[q]) {
      if q != p { assert HolderOk(s, s.holders[q]); }
    }
  }

  lemma WriteKeeps(s: State, p: nat)
    requires Owned(s) && Enabled(s, Write(p))
    ensures Owned(Apply(s, Write(p)))
  {
    var s' := Apply(s, Write(p));
    assert HolderOk(s, s.holders[p]);
    forall q | q in s'.holders ensures HolderOk(s', s'.holders[q]) {
      assert HolderOk(s, s.holders[q]);
    }
  }

  lemma ReleaseKeeps(s: State, p: nat)
    requires Owned(s) && Enabled(s, Release(p))
    ensures Owned(Apply(s, Release(p)))
  {
    var s' := Apply(s, Release(p));
    assert HolderOk(s, s.holders[p]);
    forall q | q in s'.holders ensures HolderOk(s', s'.holders[q]) {
      assert HolderOk(s, s.holders[q]);
    }
  }

  /**
   What a release does with the buffer: it goes to the pool, empty, if and only if pooling is on and the
   buffer has not grown to the limit; no other buffer moves.
   */
  lemma ReleasedWhere(s: State, p: nat, b: nat)
    requires Owned(s) && Enabled(s, Release(p))
    ensures var t, own := Apply(s, Release(p)), s.holders[p].buf;
      && p !in t.holders && (forall q :: q in s.holders && q != p ==> q in t.holders && t.holders[q] == s.holders[q])
      && (own in t.pool <==> !s.disabled && s.bufs[own].capacity < s.max)
      && (own in t.pool ==> t.pool[own] == 1 && t.bufs[own].content == [])
      && (b != own ==> t.pool[b] == s.pool[b] && (b < |s.bufs| ==> b < |t.bufs| && t.bufs[b] == s.bufs[b]))
  {
    assert HolderOk(s, s.holders[p]);
  }

  /** A borrowed buffer is empty, and is out of the pool, whether it was new or pooled. */
  lemma BorrowedEmpty(s: State, st: Step)
    requires Owned(s) && Enabled(s, st) && (st.BorrowNew? || st.BorrowOld?)
    ensures var t := Apply(s, st);
      && st.p in t.holders && t.holders[st.p].text == t.holders[st.p].todo == st.text && !t.holders[st.p].wrote
      && t.holders[st.p].buf < |t.bufs| && t.bufs[t.holders[st.p].buf].content == []
      && t.pool[t.holders[st.p].buf] == 0
  {
    assert st.BorrowNew? ==> s.pool[|s.bufs|] == 0;
  }

  /** A collected buffer is out of the pool. */
  lemma Collected(s: State, b: nat)
    requires Owned(s) && Enabled(s, Forget(b))
    ensures b !in Apply(s, Forget(b)).pool && Apply(s, Forget(b)).holders == s.holders
  {}

  /** A buffer that is neither pooled nor held is never handed out again. */
  lemma GoneForGood(s: State, b: nat, st: Step)
    requires Owned(s) && b < |s.bufs| && Enabled(s, st) && b !in s.pool
    requires forall p :: p in s.holders ==> s.holders[p].buf != b
    ensures var t := Apply(s, st); b !in t.pool && forall p :: p in t.holders ==> t.holders[p].buf != b
  {}

  /** Whatever is left to append, appending it all makes the write possible; the write hands over the whole text. */
  lemma FormatThenWrite(s: State, p: nat, capacity: nat)
    requires Owned(s) && p in s.holders && !s.holders[p].wrote
    requires |s.holders[p].text| <= capacity && s.bufs[s.holders[p].buf].capacity <= capacity
    ensures var a := Append(p, |s.holders[p].todo|, capacity);
      && Enabled(s, a) && Enabled(Apply(s, a), Write(p))
      && Apply(Apply(s, a), Write(p)).written == s.written + [(s.holders[p].text, s.holders[p].text)]
  {
    assert HolderOk(s, s.holders[p]);
    var h := s.holders[p];
    assert h.todo[..|h.todo|] == h.todo && h.todo[|h.todo|..] == [];
  }

  /** The write is made once, before the release. */
  lemma WrittenOnce(s: State, p: nat, n: nat, capacity: nat)
    requires Enabled(s, Write(p))
    ensures var t := Apply(s, Write(p));
      p in t.holders && !Enabled(t, Write(p)) && !Enabled(t, Append(p, n, capacity)) && Enabled(t, Release(p))
  {}

  ghost predicate Leads(s: State, steps: seq<Step>, e: State)
    decreases |steps|
  {
    if steps == [] then e == s else Enabled(s, steps[0]) && Leads(Apply(s, steps[0]), steps[1..], e)
  }

  /**
   In every interleaving of borrowing, formatting, writing and releasing, no two goroutines hold the
   same buffer, no held buffer is in the pool, no buffer is in the pool twice, every Target.Write
   gets the bytes of exactly its own record, and each borrow has been released once or is still held.
   */
  lemma {:induction false} OneRecordPerWrite(max: nat, disabled: bool, steps: seq<Step>, e: State)
    requires Leads(Init(max, disabled), steps, e)
    ensures forall i :: 0 <= i < |e.written| ==> e.written[i].0 == e.written[i].1
    ensures forall p :: p in e.holders ==> e.pool[e.holders[p].buf] == 0
    ensures forall p, q :: p in e.holders && q in e.holders && p != q ==> e.holders[p].buf != e.holders[q].buf
    ensures forall b :: b in e.pool ==> e.pool[b] == 1
    ensures Balanced(e)
  {
    LeadsOwned(Init(max, disabled), steps, e);
    forall p | p in e.holders ensures e.pool[e.holders[p].buf] == 0 {
      assert HolderOk(e, e.holders[p]);
    }
  }

  lemma {:induction false} LeadsOwned(s: State, steps: seq<Step>, e: State)
    requires Owned(s) && Balanced(s) && Leads(s, steps, e)
    ensures Owned(e) && Balanced(e)
    decreases |steps|
  {
    if steps != [] {
      OwnedKept(s, steps[0]);
      BalancedKept(s, steps[0]);
      LeadsOwned(Apply(s, steps[0]), steps[1..], e);
    }
  }
}
