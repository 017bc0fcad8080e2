/**
 Field length limits: truncation (formatter.go), the in-place pass over a record's fields in
 `enqueue` (logr.go), and `LogM`, which shares one field slice between several records (logger.go).
 */
module FieldLimits {

  type Bytes = seq<bv8>

  const DOTS: Bytes := [46, 46, 46]

  /** LimitByteSlice: bytes, not runes. */
  function Limit(b: Bytes, limit: int): Bytes {
    if 0 < limit < |b| then b[..limit] + DOTS else b
  }

  /** A fmt.Stringer, perhaps wrapped in a LimitedStringer, perhaps several times. */
  datatype Stringer = Base(text: Bytes) | Limited(inner: Stringer, limit: int)

  function StringOf(s: Stringer): Bytes {
    match s
    case Base(text) => text
    case Limited(inner, limit) => Limit(StringOf(inner), limit)
  }

  datatype Field =
    | StringField(key: Bytes, s: Bytes)
    | StringerField(key: Bytes, v: Stringer)
    | OtherField(key: Bytes, tag: nat)   // every other type, and a StringerType that holds no Stringer

  function LimitField(f: Field, limit: int): Field {
    match f
    case StringField(k, s) => StringField(k, Limit(s, limit))
    case StringerField(k, v) => StringerField(k, Limited(v, limit))
    case OtherField(_, _) => f
  }

  /** The text a field of limited type contributes to the log. */
  function TextOf(f: Field): Bytes {
    match f
    case StringField(_, s) => s
    case StringerField(_, v) => StringOf(v)
    case OtherField(_, _) => []
  }

  /** Field g is field f with its text cut once; how often a Stringer got wrapped does not show. */
  ghost predicate CutOnce(f: Field, g: Field, limit: int) {
    && g.key == f.key
    && (f.StringField? ==> g.StringField?) && (f.StringerField? ==> g.StringerField?)
    && (f.OtherField? ==> g == f)
    && TextOf(g) == Limit(TextOf(f), limit)
  }

  /** Cutting twice is cutting once, and the result is at most three bytes over the limit. */
  lemma LimitStable(b: Bytes, limit: int)
    ensures Limit(Limit(b, limit), limit) == Limit(b, limit)
    ensures limit > 0 ==> |Limit(b, limit)| <= limit + 3
    ensures limit <= 0 || |b| <= limit ==> Limit(b, limit) == b
  {
    if 0 < limit < |b| {
      assert (b[..limit] + DOTS)[..limit] == b[..limit];
    }
  }

  /** What a cut text is: as much of the text as the limit allows, from its start, then three dots. */
  lemma LimitIsStart(b: Bytes, limit: int)
    ensures limit > 0 && |b| > limit ==>
      |Limit(b, limit)| == limit + 3 && Limit(b, limit)[limit..] == ['.' as bv8, '.' as bv8, '.' as bv8]
      && forall i :: 0 <= i < limit ==> Limit(b, limit)[i] == b[i]
    ensures limit <= 0 || |b| <= limit ==> Limit(b, limit) == b
  {}

  lemma CutAgain(f: Field, g: Field, limit: int)
    requires CutOnce(f, g, limit)
    ensures CutOnce(f, LimitField(g, limit), limit)
  {
    LimitStable(TextOf(f), limit);
  }

  class LogRec {
    const level: nat
    var msg: Bytes
    const fields: array<Field>

    constructor (level: nat, msg: Bytes, fields: array<Field>)
      ensures this.level == level && this.msg == msg && this.fields == fields
    {
      this.level, this.msg, this.fields := level, msg, fields;
    }
  }

  class Logr {
    const maxFieldLen: int

    constructor (maxFieldLen: int)
      ensures this.maxFieldLen == maxFieldLen
    {
      this.maxFieldLen := maxFieldLen;
    }

    /** The first half of enqueue: cut the message, then the fields one by one, in place. */
    method LimitRec(rec: LogRec)
      modifies rec, rec.fields
      ensures rec.msg == Limit(old(rec.msg), maxFieldLen)
      ensures forall i :: 0 <= i < rec.fields.Length ==>
        rec.fields[i] == if maxFieldLen > 0 then LimitField(old(rec.fields[i]), maxFieldLen) else old(rec.fields[i])
    {
      var limit := maxFieldLen;
      if limit > 0 {
        rec.msg := Limit(rec.msg, limit);
        for i := 0 to rec.fields.Length
          invariant rec.msg == Limit(old(rec.msg), limit)
          invariant forall k :: 0 <= k < i ==> rec.fields[k] == LimitField(old(rec.fields[k]), limit)
          invariant forall k :: i <= k < rec.fields.Length ==> rec.fields[k] == old(rec.fields[k])
        {
          match rec.fields[i]
          case StringField(k, s) => rec.fields[i] := StringField(k, Limit(s, limit));
          case StringerField(k, v) => rec.fields[i] := StringerField(k, Limited(v, limit));
          case OtherField(_, _) =>
        }
      }
    }

    /**
     LogM makes one record per enabled level, all with the same field slice, and each of them cuts
     that slice again. Every record still shows the message and the field texts cut exactly once.
     */
    method LogM(levels: seq<nat>, enabled: set<nat>, msg: Bytes, fields: array<Field>) returns (recs: seq<LogRec>)
      modifies fields
      ensures forall r :: r in recs ==>
        fresh(r) && r.fields == fields && r.level in enabled && r.msg == Limit(msg, maxFieldLen)
      ensures recs == [] <==> forall i :: 0 <= i < |levels| ==> levels[i] !in enabled
      ensures recs == [] ==> fields[..] == old(fields[..])
      ensures recs != [] ==> forall i :: 0 <= i < fields.Length ==> CutOnce(old(fields[i]), fields[i], maxFieldLen)
      ensures Levels(recs) == Filtered(levels, enabled)
    {
      recs := [];
      for i := 0 to |levels|
        invariant forall r :: r in recs ==>
          fresh(r) && r.fields == fields && r.level in enabled && r.msg == Limit(msg, maxFieldLen)
        invariant recs == [] <==> forall k :: 0 <= k < i ==> levels[k] !in enabled
        invariant recs == [] ==> fields[..] == old(fields[..])
        invariant recs != [] ==> forall k :: 0 <= k < fields.Length ==> CutOnce(old(fields[k]), fields[k], maxFieldLen)
        invariant Levels(recs) == Filtered(levels[..i], enabled)
      {
        assert levels[..i + 1][..i] == levels[..i];
        if levels[i] in enabled {
          var rec := new LogRec(levels[i], msg, fields);
          ghost var was := fields[..];
          LimitRec(rec);
          forall k | 0 <= k < fields.Length ensures CutOnce(old(fields[k]), fields[k], maxFieldLen) {
            if recs == [] {
              assert was[k] == old(fields[..])[k];
              LimitOnce(was[k], maxFieldLen);
            } else {
              assert CutOnce(old(fields[k]), was[k], maxFieldLen);
              if maxFieldLen > 0 { CutAgain(old(fields[k]), was[k], maxFieldLen); }
            }
          }
          assert (recs + [rec])[..|recs|] == recs;
          recs := recs + [rec];
        }
      }
      assert levels[..|levels|] == levels;
    }
  }

  lemma LimitOnce(f: Field, limit: int)
    ensures CutOnce(f, if limit > 0 then LimitField(f, limit) else f, limit)
  {}

  function Levels(recs: seq<LogRec>): seq<nat> {
    if recs == [] then [] else Levels(recs[..|recs| - 1]) + [recs[|recs| - 1].level]
  }

  function Filtered(levels: seq<nat>, enabled: set<nat>): seq<nat> {
    if levels == [] then []
    else if levels[|levels| - 1] in enabled then Filtered(levels[..|levels| - 1], enabled) + [levels[|levels| - 1]]
    else Filtered(levels[..|levels| - 1], enabled)
  }
}
