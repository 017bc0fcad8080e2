/**
 The printers that write fields, colours and stack traces to an io.Writer step by step (formatter.go,
 field.go), against a writer that can fail at any call and after any number of bytes.
 */
module FieldWriter {
  import opened FieldText

  /** What is left to say: `after` is `before` plus all of `text` if ok, plus a prefix of it if not. */
  ghost predicate Emitted(before: string, after: string, text: string, ok: bool) {
    if ok then after == before + text else before <= after <= before + text
  }

  /** One more chunk of a text of which `chunk + rest` is still to come. */
  lemma Advance(before: string, a: string, b: string, chunk: string, rest: string, text: string, ok: bool)
    requires before <= a && a + (chunk + rest) == before + text && Emitted(a, b, chunk, ok)
    ensures ok ==> before <= b && b + rest == before + text
    ensures !ok ==> Emitted(before, b, text, false)
  {
    assert a + (chunk + rest) == (a + chunk) + rest;
  }

  /**
   An io.Writer. `plan` says, call by call, whether the call fails and after how many bytes; calls
   beyond the plan succeed. It may well work again after a failure: it is the printers that stop.
   */
  class Sink {
    var out: string
    var failed: bool
    var plan: seq<(bool, nat)>

    constructor (plan: seq<(bool, nat)>)
      ensures out == "" && !failed && this.plan == plan
    {
      out, failed, this.plan := "", false, plan;
    }

    method Write(p: string) returns (n: nat, ok: bool)
      modifies this
      ensures ok <==> !(old(plan) != [] && old(plan)[0].0)
      ensures n <= |p| && out == old(out) + p[..n] && (ok ==> n == |p|)
      ensures Emitted(old(out), out, p, ok)
      ensures failed == (old(failed) || !ok)
    {
      var fails := plan != [] && plan[0].0;
      n := if fails && plan[0].1 < |p| then plan[0].1 else |p|;
      ok := !fails;
      if plan != [] { plan := plan[1..]; }
      failed := failed || fails;
      assert p[..|p|] == p;
      out := out + p[..n];
    }

    /** A printer's promise: it emits `text`, or a prefix of it if a write failed, and reports exactly that. */
    twostate predicate Prints(text: string, ok: bool)
      reads this
    {
      Emitted(old(out), out, text, ok) && (ok <==> !failed)
    }

    /** Writer.Writes: several byte strings in a row. */
    method Writes(elems: seq<string>) returns (count: nat, ok: bool)
      requires !failed
      modifies this
      ensures Prints(Joined(elems), ok)
      ensures count == |out| - |old(out)|
    {
      count := 0;
      for i := 0 to |elems|
        invariant !failed && out + Joined(elems[i..]) == old(out) + Joined(elems)
        invariant count == |out| - |old(out)| && old(out) <= out
      {
        var n, good := Write(elems[i]);
        assert elems[i..][1..] == elems[i + 1..];
        if !good { return count + n, false; }
        count := count + n;
      }
      assert elems[|elems|..] == [];
      return count, true;
    }

    /** WriteWithColor: after a failed write nothing more is written, not even the reset sequence. */
    method WriteWithColor(s: string, color: nat) returns (ok: bool)
      requires !failed
      modifies this
      ensures Prints(Colored(s, color), ok)
    {
      ok := true;
      if color != 0 {
        ok := WriteAnsi(ok, color);
      }
      ghost var mid, pre := out, ok;
      if ok {
        var _, good := Write(s);
        ok := good;
      }
      if color != 0 {
        ghost var end, text := out, ok;
        ok := WriteAnsi(ok, 0);
        ColorParts(old(out), mid, end, out, s, color, pre, text, ok);
      }
    }

    /** Three calls of the closure: the sequence that sets a colour. */
    method WriteAnsi(so: bool, color: nat) returns (ok: bool)
      requires so <==> !failed
      modifies this
      ensures ok <==> !failed
      ensures so ==> Emitted(old(out), out, Ansi(color), ok)
      ensures !so ==> !ok && out == old(out)
    {
      ok := WriteIf(so, "\U{1b}[");
      ok := WriteIf(ok, Digits(color));
      ok := WriteIf(ok, "m");
    }

    /** The closure inside WriteWithColor: do nothing once a write has failed. */
    method WriteIf(so: bool, p: string) returns (ok: bool)
      requires so <==> !failed
      modifies this
      ensures ok <==> !failed
      ensures so ==> Emitted(old(out), out, p, ok)
      ensures !so ==> !ok && out == old(out)
    {
      if !so { return false; }
      var _, good := Write(p);
      return good;
    }

    /** quoteString */
    method QuoteString(s: string) returns (ok: bool)
      requires !failed
      modifies this
      ensures Prints(Quoted(s), ok)
    {
      var b := ShouldQuote(s);
      if b {
        var _, open := Write("\"");
        if !open { return false; }
      }
      ghost var mid := out;
      var _, good := Write(s);
      if !good {
        QuoteParts(old(out), mid, out, out, s, good, false);
        return false;
      }
      if b {
        ghost var end := out;
        var _, close := Write("\"");
        QuoteParts(old(out), mid, end, out, s, good, close);
        return close;
      }
      return true;
    }

    method WriteElem(e: Elem) returns (ok: bool)
      requires !failed
      modifies this
      ensures Emitted(old(out), out, ElemText(e), ok) && (ok <==> !failed && !Broken(e))
    {
      match e
      case Own(s, fails) => var _, good := Write(s); return good && !fails;
      case Quotable(s) => ok := QuoteString(s);
    }

    /** The array loop of ValueString: a comma after every element but the last. */
    method WriteArray(items: seq<Elem>) returns (ok: bool)
      requires !failed
      modifies this
      ensures Emitted(old(out), out, ItemsText(items), ok)
      ensures ok <==> !failed && forall k :: 0 <= k < |items| ==> !Broken(items[k])
    {
      ghost var text, rest := ItemsText(items), ItemsText(items);
      assert items[0..] == items;
      for i := 0 to |items|
        invariant !failed && old(out) <= out && forall k :: 0 <= k < i ==> !Broken(items[k])
        invariant rest == ItemsText(items[i..]) && out + rest == old(out) + text
      {
        ghost var was := out;
        ItemsSplit(items, i);
        rest := ItemsText(items[i + 1..]);
        ok := WriteItem(items[i], i == |items| - 1);
        Advance(old(out), was, out, ItemChunk(items[i], i == |items| - 1), rest, text, ok);
        if !ok { return; }
      }
      assert items[|items|..] == [];
      return true;
    }

    method WriteItem(e: Elem, last: bool) returns (ok: bool)
      requires !failed
      modifies this
      ensures Emitted(old(out), out, ItemChunk(e, last), ok) && (ok <==> !failed && !Broken(e))
    {
      ok := WriteElem(e);
      if ok && !last {
        var _, comma := Write(",");
        ok := comma;
      }
    }

    /** The map loop of ValueString: key, equals sign, element, and a comma if another entry follows. */
    method WriteMap(pairs: seq<(string, Elem)>) returns (ok: bool)
      requires !failed
      modifies this
      ensures Emitted(old(out), out, PairsText(pairs), ok)
      ensures ok <==> !failed && forall k :: 0 <= k < |pairs| ==> !Broken(pairs[k].1)
    {
      if pairs == [] { return true; }
      var i := 0;
      ghost var text := PairsText(pairs);
      while true
        invariant 0 <= i < |pairs| && !failed && old(out) <= out && forall k :: 0 <= k < i ==> !Broken(pairs[k].1)
        invariant out + PairsText(pairs[i..]) == old(out) + text
        decreases |pairs| - i
      {
        ghost var was := out;
        ok := WriteEntry(pairs[i], i == |pairs| - 1);
        PairsSplit(pairs, i);
        Advance(old(out), was, out, PairChunk(pairs[i], i == |pairs| - 1),
                PairsText(pairs[i + 1..]), text, ok);
        if !ok { return; }
        i := i + 1;
        if i == |pairs| { return true; }
      }
    }

    method WriteEntry(p: (string, Elem), last: bool) returns (ok: bool)
      requires !failed
      modifies this
      ensures Emitted(old(out), out, PairChunk(p, last), ok) && (ok <==> !failed && !Broken(p.1))
    {
      ok := WritePair(p);
      if ok && !last {
        var _, comma := Write(",");
        ok := comma;
      }
    }

    method WritePair(p: (string, Elem)) returns (ok: bool)
      requires !failed
      modifies this
      ensures Emitted(old(out), out, PairText(p), ok) && (ok <==> !failed && !Broken(p.1))
    {
      var _, key := Write(p.0);
      if !key { return false; }
      var _, eq := Write("=");
      if !eq { return false; }
      ok := WriteElem(p.1);
    }

    /** ValueString. A value of the wrong type, or a failing LogWrite, is an error of its own. */
    method ValueString(v: Value) returns (ok: bool)
      requires !failed
      modifies this
      ensures Emitted(old(out), out, ValueText(v), ok) && (ok <==> !failed && !Bad(v))
    {
      match v
      case Text(s) => ok := QuoteString(s);
      case Plain(s) => var _, good := Write(s); return good;
      case Struct(s, fails) => var _, good := Write(s); return good && !fails;
      case Array(items) => ok := WriteArray(items);
      case Map(pairs) => ok := WriteMap(pairs);
      case Invalid => return false;
    }

    /** writeField */
    method WriteField(f: Field, sep: string, color: nat) returns (ok: bool)
      requires !failed
      modifies this
      ensures Emitted(old(out), out, sep + KeyValueText(f, color), ok) && (ok <==> !failed && !Bad(f.value))
    {
      if |sep| != 0 {
        var _, good := Write(sep);
        if !good { return false; }
      }
      ghost var was := out;
      ok := WriteKeyed(f, color);
      assert old(out) + (sep + KeyValueText(f, color)) == was + KeyValueText(f, color);
    }

    method WriteKeyed(f: Field, color: nat) returns (ok: bool)
      requires !failed
      modifies this
      ensures Emitted(old(out), out, KeyValueText(f, color), ok) && (ok <==> !failed && !Bad(f.value))
    {
      var key := WriteWithColor(f.key, color);
      if !key { return false; }
      var _, eq := Write("=");
      if !eq { return false; }
      ok := ValueString(f.value);
    }

    /**
     WriteFields. On success the sink has exactly the fields' text; if a write fails or a field is
     bad in itself it has a prefix of that text and the error is reported.
     */
    method WriteFields(fields: seq<Field>, separator: string, color: nat) returns (ok: bool)
      requires !failed
      modifies this
      ensures Emitted(old(out), out, FieldsText(fields, separator, color), ok)
      ensures ok <==> !failed && forall i :: 0 <= i < |fields| ==> !Bad(fields[i].value)
    {
      var sep := "";
      for i := 0 to |fields|
        invariant !failed && old(out) <= out
        invariant sep == if i == 0 then "" else separator
        invariant forall k :: 0 <= k < i ==> !Bad(fields[k].value)
        invariant out + FieldsFrom(fields, i, separator, color) == old(out) + FieldsText(fields, separator, color)
      {
        ghost var was := out;
        ok := WriteField(fields[i], sep, color);
        FieldsSplit(fields, i, separator, color);
        Advance(old(out), was, out, sep + KeyValueText(fields[i], color), FieldsFrom(fields, i + 1, separator, color),
                FieldsText(fields, separator, color), ok);
        if !ok { return; }
        sep := separator;
      }
      return true;
    }

    /** WriteStacktrace */
    method WriteStacktrace(frames: seq<Frame>) returns (ok: bool)
      requires !failed
      modifies this
      ensures Prints(TraceText(frames), ok)
    {
      for i := 0 to |frames|
        invariant !failed && old(out) <= out
        invariant out + TraceText(frames[i..]) == old(out) + TraceText(frames)
      {
        ghost var was := out;
        ok := WriteFrame(frames[i]);
        assert frames[i..][1..] == frames[i + 1..];
        Advance(old(out), was, out, FrameText(frames[i]), TraceText(frames[i + 1..]), TraceText(frames), ok);
        if !ok { return; }
      }
      return true;
    }

    method WriteFrame(f: Frame) returns (ok: bool)
      requires !failed
      modifies this
      ensures Prints(FrameText(f), ok)
    {
      if f.fn != "" {
        var _, good := Writes([" ", " ", f.fn, "\n"]);
        if !good { return false; }
      }
      if f.file != "" {
        var _, good := Writes(["      ", f.file, ":", Digits(f.line), "\n"]);
        if !good { return false; }
      }
      return true;
    }
  }

  // ---- the texts of the remaining printers ------------------------------------------------------------

  datatype Frame = Frame(fn: string, file: string, line: nat)

  function FunctionLine(f: Frame): string {
    if f.fn == "" then "" else Joined([" ", " ", f.fn, "\n"])
  }

  function FileLine(f: Frame): string {
    if f.file == "" then "" else Joined(["      ", f.file, ":", Digits(f.line), "\n"])
  }

  function FrameText(f: Frame): string { FunctionLine(f) + FileLine(f) }

  function TraceText(frames: seq<Frame>): string {
    if frames == [] then "" else FrameText(frames[0]) + TraceText(frames[1..])
  }

  function Joined(elems: seq<string>): string {
    if elems == [] then "" else elems[0] + Joined(elems[1..])
  }

  // ---- one chunk at a time ---------------------------------------------------------------------------

  function ItemChunk(e: Elem, last: bool): string { if last then ElemText(e) else ElemText(e) + "," }

  function PairChunk(p: (string, Elem), last: bool): string { if last then PairText(p) else PairText(p) + "," }

  /** The text still to come when i fields have been written. */
  ghost function FieldsFrom(fields: seq<Field>, i: nat, sep: string, color: nat): string
    requires i <= |fields|
  {
    if i == 0 then FieldsText(fields, sep, color) else FieldsTail(fields[i..], sep, color)
  }

  lemma ItemsSplit(items: seq<Elem>, i: nat)
    requires i < |items|
    ensures ItemsText(items[i..]) == ItemChunk(items[i], i == |items| - 1) + ItemsText(items[i + 1..])
  {
    assert items[i..][1..] == items[i + 1..];
    if i + 1 < |items| {
      var t := ItemsText(items[i + 1..]);
      assert ItemsTail(items[i + 1..]) == "," + t;
      assert ElemText(items[i]) + ("," + t) == ElemText(items[i]) + "," + t;
    }
  }

  lemma PairsSplit(pairs: seq<(string, Elem)>, i: nat)
    requires i < |pairs|
    ensures PairsText(pairs[i..]) == PairChunk(pairs[i], i == |pairs| - 1) + PairsText(pairs[i + 1..])
  {
    assert pairs[i..][1..] == pairs[i + 1..];
    if i + 1 < |pairs| {
      var t := PairsText(pairs[i + 1..]);
      assert PairsTail(pairs[i + 1..]) == "," + t;
      assert PairText(pairs[i]) + ("," + t) == PairText(pairs[i]) + "," + t;
    }
  }

  lemma FieldsSplit(fields: seq<Field>, i: nat, sep: string, color: nat)
    requires i < |fields|
    ensures FieldsFrom(fields, i, sep, color) ==
      (if i == 0 then "" else sep) + KeyValueText(fields[i], color) + FieldsFrom(fields, i + 1, sep, color)
  {
    var k, rest := KeyValueText(fields[i], color), FieldsTail(fields[i + 1..], sep, color);
    assert fields[i..][1..] == fields[i + 1..];
    if i == 0 {
      assert fields[1..] == fields[i + 1..];
      assert "" + k == k;
    }
  }

  /** Three texts in a row, each attempted only if the ones before it succeeded. */
  lemma ThreeParts(before: string, mid: string, end: string, after: string, s: string, t: string, u: string,
                   a: bool, b: bool, ok: bool)
    requires Emitted(before, mid, s, a)
    requires if a then Emitted(mid, end, t, b) else !b && end == mid
    requires if b then Emitted(end, after, u, ok) else !ok && after == end
    ensures Emitted(before, after, s + t + u, ok)
  {
    assert before + (s + t + u) == before + s + t + u;
    if !a {
      assert before + s <= before + (s + t + u);
    } else if !b {
      assert mid + t <= before + (s + t + u);
    }
  }

  lemma ColorParts(before: string, mid: string, end: string, after: string, s: string, color: nat,
                   pre: bool, text: bool, ok: bool)
    requires color != 0
    requires Emitted(before, mid, Ansi(color), pre)
    requires if pre then Emitted(mid, end, s, text) else !text && end == mid
    requires if text then Emitted(end, after, Ansi(0), ok) else !ok && after == end
    ensures Emitted(before, after, Colored(s, color), ok)
  {
    ThreeParts(before, mid, end, after, Ansi(color), s, Ansi(0), pre, text, ok);
  }

  lemma QuoteParts(before: string, mid: string, end: string, after: string, s: string, text: bool, ok: bool)
    requires mid == before + (if ShouldQuote(s) then "\"" else "")
    requires Emitted(mid, end, s, text)
    requires if text then ShouldQuote(s) && Emitted(end, after, "\"", ok) else !ok && after == end
    ensures Emitted(before, after, Quoted(s), ok)
  {
    if ShouldQuote(s) {
      ThreeParts(before, mid, end, after, "\"", s, "\"", true, text, ok);
    }
  }
}
