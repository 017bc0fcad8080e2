/**
 The key=value text of fields (formatter.go, field.go): what it is, and why it can be read back.
 */
module FieldText {

  /**
   An element of an array or map field: written through quoteString, or by its own LogWrite, which writes
   `s` and may then return an error of its own.
   */
  datatype Elem = Own(s: string, fails: bool) | Quotable(s: string)

  /** What ValueString prints for a field, once Go's formatting of the value is done. */
  datatype Value =
    | Text(s: string)                           // strings, stringers, errors, times, floats: through quoteString
    | Plain(s: string)                          // numbers, booleans, binary: as they are
    | Struct(s: string, fails: bool)            // a struct: its own LogWrite, or as it is
    | Array(items: seq<Elem>)
    | Map(pairs: seq<(string, Elem)>)           // in iteration order
    | Invalid                                   // wrong dynamic type or unknown field type: an error

  datatype Field = Field(key: string, value: Value)

  predicate Broken(e: Elem) { e.Own? && e.fails }

  /** Printing the value is an error of itself, whatever the writer does. */
  predicate Bad(v: Value) {
    match v
    case Invalid => true
    case Struct(_, fails) => fails
    case Array(items) => exists i :: 0 <= i < |items| && Broken(items[i])
    case Map(pairs) => exists i :: 0 <= i < |pairs| && Broken(pairs[i].1)
    case _ => false
  }

  predicate Safe(c: char) {
    '0' <= c <= '9' || 'a' <= c <= 'z' || 'A' <= c <= 'Z' || c in "-._/@^+"
  }

  predicate ShouldQuote(s: string) { exists i :: 0 <= i < |s| && !Safe(s[i]) }

  function Quoted(s: string): string { if ShouldQuote(s) then "\"" + s + "\"" else s }

  function ElemText(e: Elem): string { if e.Own? then e.s else Quoted(e.s) }

  /** The elements, each preceded by a comma. */
  function ItemsTail(items: seq<Elem>): string {
    if items == [] then "" else "," + ElemText(items[0]) + ItemsTail(items[1..])
  }

  /** The elements joined by commas. */
  function ItemsText(items: seq<Elem>): string {
    if items == [] then "" else ElemText(items[0]) + ItemsTail(items[1..])
  }

  function PairText(p: (string, Elem)): string { p.0 + "=" + ElemText(p.1) }

  function PairsTail(ps: seq<(string, Elem)>): string {
    if ps == [] then "" else "," + PairText(ps[0]) + PairsTail(ps[1..])
  }

  function PairsText(ps: seq<(string, Elem)>): string {
    if ps == [] then "" else PairText(ps[0]) + PairsTail(ps[1..])
  }

  function ValueText(v: Value): string {
    match v
    case Text(s) => Quoted(s)
    case Plain(s) => s
    case Struct(s, _) => s
    case Array(items) => ItemsText(items)
    case Map(pairs) => PairsText(pairs)
    case Invalid => ""
  }

  function Digits(n: nat): string {
    if n < 10 then ["0123456789"[n]] else Digits(n / 10) + ["0123456789"[n % 10]]
  }

  /** The ANSI sequence that sets a colour. */
  function Ansi(color: nat): string { "\U{1b}[" + Digits(color) + "m" }

  function Colored(s: string, color: nat): string {
    if color == 0 then s else Ansi(color) + s + Ansi(0)
  }

  function KeyValueText(f: Field, color: nat): string { Colored(f.key, color) + "=" + ValueText(f.value) }

  /** The fields, each preceded by the separator. */
  function FieldsTail(fs: seq<Field>, sep: string, color: nat): string {
    if fs == [] then "" else sep + KeyValueText(fs[0], color) + FieldsTail(fs[1..], sep, color)
  }

  /** The fields with the separator between them. */
  function FieldsText(fs: seq<Field>, sep: string, color: nat): string {
    if fs == [] then "" else KeyValueText(fs[0], color) + FieldsTail(fs[1..], sep, color)
  }

  // ---- reading it back -----------------------------------------------------------------------------

  datatype Parsed = Failed | Fields(fs: seq<Field>)

  /** Length of the part of s before the first c; all of it if there is none. */
  function Before(s: string, c: char): (n: nat)
    ensures n <= |s|
  {
    if s == "" || s[0] == c then 0 else 1 + Before(s[1..], c)
  }

  /** Length of the longest prefix that needs no quotes. */
  function SafeLen(s: string): (n: nat)
    ensures n <= |s|
  {
    if s == "" || !Safe(s[0]) then 0 else 1 + SafeLen(s[1..])
  }

  /** Reads a list of string fields separated by single spaces. */
  function Parse(s: string): Parsed {
    if s == "" then Fields([]) else ParseSome(s)
  }

  function ParseSome(s: string): Parsed
    decreases |s|
  {
    var k := Before(s, '=');
    if k == |s| then Failed else ParseValue(s[..k], s[k + 1..], |s|)
  }

  function ParseValue(key: string, s: string, bound: nat): Parsed
    requires |s| < bound
    decreases bound, 1
  {
    if s != "" && s[0] == '\"' then
      var n := Before(s[1..], '\"');
      if n == |s| - 1 then Failed else ParseMore(Field(key, Text(s[1..n + 1])), s[n + 2..], bound)
    else
      ParseMore(Field(key, Text(s[..SafeLen(s)])), s[SafeLen(s)..], bound)
  }

  function ParseMore(f: Field, rest: string, bound: nat): Parsed
    requires |rest| < bound
    decreases bound, 0
  {
    if rest == "" then Fields([f])
    else if rest[0] != ' ' then Failed
    else
      var p := ParseSome(rest[1..]);
      if p.Failed? then Failed else Fields([f] + p.fs)
  }

  /** A string field that can be read back: no equals sign in the key, no quote in the value. */
  predicate Readable(f: Field) {
    f.value.Text? && '=' !in f.key && '\"' !in f.value.s
  }

  lemma {:induction false} BeforeFinds(a: string, c: char, b: string)
    requires c !in a
    ensures Before(a + [c] + b, c) == |a|
  {
    if a != "" {
      BeforeFinds(a[1..], c, b);
      assert (a + [c] + b)[1..] == a[1..] + [c] + b;
    }
  }

  lemma {:induction false} SafeLenFinds(a: string, b: string)
    requires !ShouldQuote(a) && (b == "" || b[0] == ' ')
    ensures SafeLen(a + b) == |a|
  {
    if a != "" {
      assert forall i :: 0 <= i < |a[1..]| ==> a[1..][i] == a[i + 1];
      SafeLenFinds(a[1..], b);
      assert (a + b)[1..] == a[1..] + b;
    } else {
      assert a + b == b;
    }
  }

  lemma ParseQuoted(key: string, v: string, rest: string, bound: nat)
    requires '\"' !in v && |v| + |rest| + 2 < bound
    ensures ParseValue(key, "\"" + v + "\"" + rest, bound) == ParseMore(Field(key, Text(v)), rest, bound)
  {
    var s := "\"" + v + "\"" + rest;
    assert s[1..] == v + ['\"'] + rest;
    BeforeFinds(v, '\"', rest);
    assert s[1..|v| + 1] == v && s[|v| + 2..] == rest;
  }

  lemma ParseUnquoted(key: string, v: string, rest: string, bound: nat)
    requires !ShouldQuote(v) && (rest == "" || rest[0] == ' ') && |v| + |rest| < bound
    ensures ParseValue(key, v + rest, bound) == ParseMore(Field(key, Text(v)), rest, bound)
  {
    var s := v + rest;
    SafeLenFinds(v, rest);
    assert s[..|v|] == v && s[|v|..] == rest;
    assert v != "" ==> Safe(v[0]) && s[0] == v[0];
  }

  lemma ParseOne(f: Field, rest: string)
    requires Readable(f) && (rest == "" || rest[0] == ' ')
    ensures |rest| < |KeyValueText(f, 0) + rest|
    ensures ParseSome(KeyValueText(f, 0) + rest) == ParseMore(f, rest, |KeyValueText(f, 0) + rest|)
  {
    var s := KeyValueText(f, 0) + rest;
    var v := f.value.s;
    assert s == f.key + ['='] + (Quoted(v) + rest);
    BeforeFinds(f.key, '=', Quoted(v) + rest);
    assert s[|f.key| + 1..] == Quoted(v) + rest && s[..|f.key|] == f.key;
    if ShouldQuote(v) {
      ParseQuoted(f.key, v, rest, |s|);
    } else {
      ParseUnquoted(f.key, v, rest, |s|);
    }
  }

  lemma {:induction false} ParseTail(f: Field, fs: seq<Field>)
    requires Readable(f) && forall i :: 0 <= i < |fs| ==> Readable(fs[i])
    ensures ParseSome(KeyValueText(f, 0) + FieldsTail(fs, " ", 0)) == Fields([f] + fs)
    decreases |fs|
  {
    ParseOne(f, FieldsTail(fs, " ", 0));
    if fs == [] {
      assert [f] + fs == [f];
    } else {
      ParseTail(fs[0], fs[1..]);
      TailMore(f, fs, |KeyValueText(f, 0) + FieldsTail(fs, " ", 0)|);
    }
  }

  lemma MoreStep(f: Field, t: string, fs: seq<Field>, bound: nat)
    requires ParseSome(t) == Fields(fs) && |t| + 1 < bound
    ensures ParseMore(f, " " + t, bound) == Fields([f] + fs)
  {
    assert (" " + t)[1..] == t;
  }

  lemma TailMore(f: Field, fs: seq<Field>, bound: nat)
    requires fs != [] && |FieldsTail(fs, " ", 0)| < bound
    requires ParseSome(KeyValueText(fs[0], 0) + FieldsTail(fs[1..], " ", 0)) == Fields([fs[0]] + fs[1..])
    ensures ParseMore(f, FieldsTail(fs, " ", 0), bound) == Fields([f] + fs)
  {
    var a, b := KeyValueText(fs[0], 0), FieldsTail(fs[1..], " ", 0);
    TailIs(fs);
    assert [fs[0]] + fs[1..] == fs;
    MoreStep(f, a + b, fs, bound);
  }

  lemma TailIs(fs: seq<Field>)
    requires fs != []
    ensures FieldsTail(fs, " ", 0) == " " + (KeyValueText(fs[0], 0) + FieldsTail(fs[1..], " ", 0))
  {}

  /** The space-separated, uncoloured text of readable fields is read back exactly. */
  lemma ParseRoundTrip(fs: seq<Field>)
    requires forall i :: 0 <= i < |fs| ==> Readable(fs[i])
    ensures Parse(FieldsText(fs, " ", 0)) == Fields(fs)
  {
    if fs != [] {
      assert Readable(fs[0]);
      ParseTail(fs[0], fs[1..]);
      assert [fs[0]] + fs[1..] == fs;
    }
  }

  lemma {:induction false} BeforeHasNone(s: string, c: char)
    ensures c !in s[..Before(s, c)]
  {
    if s != "" && s[0] != c {
      BeforeHasNone(s[1..], c);
      assert s[..Before(s, c)] == [s[0]] + s[1..][..Before(s[1..], c)];
    }
  }

  lemma {:induction false} SafeLenIsSafe(s: string)
    ensures '\"' !in s[..SafeLen(s)]
  {
    if s != "" && Safe(s[0]) {
      SafeLenIsSafe(s[1..]);
      assert s[..SafeLen(s)] == [s[0]] + s[1..][..SafeLen(s[1..])];
    }
  }

  ghost predicate AllReadable(p: Parsed) {
    p.Fields? ==> forall i :: 0 <= i < |p.fs| ==> Readable(p.fs[i])
  }

  lemma {:induction false} SomeReadable(s: string)
    ensures AllReadable(ParseSome(s))
    decreases |s|
  {
    var k := Before(s, '=');
    if k < |s| {
      BeforeHasNone(s, '=');
      ValueReadable(s[..k], s[k + 1..], |s|);
    }
  }

  lemma {:induction false} ValueReadable(key: string, s: string, bound: nat)
    requires |s| < bound && '=' !in key
    ensures AllReadable(ParseValue(key, s, bound))
    decreases bound, 1
  {
    if s != "" && s[0] == '\"' {
      var n := Before(s[1..], '\"');
      if n < |s| - 1 {
        BeforeHasNone(s[1..], '\"');
        assert s[1..n + 1] == s[1..][..n];
        MoreReadable(Field(key, Text(s[1..n + 1])), s[n + 2..], bound);
      }
    } else {
      SafeLenIsSafe(s);
      MoreReadable(Field(key, Text(s[..SafeLen(s)])), s[SafeLen(s)..], bound);
    }
  }

  lemma {:induction false} MoreReadable(f: Field, rest: string, bound: nat)
    requires |rest| < bound && Readable(f)
    ensures AllReadable(ParseMore(f, rest, bound))
    decreases bound, 0
  {
    if rest != "" && rest[0] == ' ' { SomeReadable(rest[1..]); }
  }

  /**
   This parser gives a list back if and only if all its fields are readable. That is the parser's limit,
   not the text's: some lists it cannot read share their text with no other list.
   */
  lemma RoundTripIff(fs: seq<Field>)
    ensures Parse(FieldsText(fs, " ", 0)) == Fields(fs) <==> forall i :: 0 <= i < |fs| ==> Readable(fs[i])
  {
    SomeReadable(FieldsText(fs, " ", 0));
    if forall i :: 0 <= i < |fs| ==> Readable(fs[i]) { ParseRoundTrip(fs); }
  }

  /** So different lists have different texts. */
  lemma TextInjective(a: seq<Field>, b: seq<Field>)
    requires forall i :: 0 <= i < |a| ==> Readable(a[i])
    requires forall i :: 0 <= i < |b| ==> Readable(b[i])
    ensures FieldsText(a, " ", 0) == FieldsText(b, " ", 0) ==> a == b
  {
    ParseRoundTrip(a);
    ParseRoundTrip(b);
  }

  lemma OneField(f: Field)
    ensures FieldsText([f], " ", 0) == KeyValueText(f, 0)
  {
    assert [f][1..] == [];
    assert KeyValueText(f, 0) + "" == KeyValueText(f, 0);
  }

  lemma TwoFields(f: Field, g: Field)
    ensures FieldsText([f, g], " ", 0) == KeyValueText(f, 0) + (" " + KeyValueText(g, 0))
  {
    assert [f, g][1..] == [g] && [f, g][0] == f;
    assert [g][1..] == [];
    assert FieldsTail([g], " ", 0) == " " + KeyValueText(g, 0) + FieldsTail([], " ", 0);
    assert FieldsTail([g], " ", 0) == " " + KeyValueText(g, 0);
  }

  /**
   Quotes inside a value are not escaped, so with them two lists can share a text: a value that goes on as
   if it ended and another field began.
   */
  lemma QuotesAmbiguous(k: string, v: string, z: string, w: string)
    requires ShouldQuote(v) && ShouldQuote(w)
    ensures FieldsText([Field(k, Text(v + "\" " + (z + "=") + "\"" + w))], " ", 0)
         == FieldsText([Field(k, Text(v)), Field(z, Text(w))], " ", 0)
  {
    var a := v + "\" " + (z + "=") + "\"" + w;
    var i :| 0 <= i < |v| && !Safe(v[i]);
    assert a[i] == v[i];
    QuotedField(k, a);
    QuotedField(k, v);
    QuotedField(z, w);
    OneField(Field(k, Text(a)));
    TwoFields(Field(k, Text(v)), Field(z, Text(w)));
    Regroup(k + "=", v, z + "=", w);
  }

  lemma QuotedField(k: string, v: string)
    requires ShouldQuote(v)
    ensures KeyValueText(Field(k, Text(v)), 0) == k + "=" + ("\"" + v + "\"")
  {}

  lemma Regroup(a: string, v: string, b: string, w: string)
    ensures a + ("\"" + (v + "\" " + b + "\"" + w) + "\"") == (a + ("\"" + v + "\"")) + (" " + (b + ("\"" + w + "\"")))
  {}

  /** Nor is an equals sign in a key: a key can go on as if its field ended and another began. */
  lemma EqualsAmbiguous(a: string, b: string, x: string, v: Value)
    ensures FieldsText([Field(a + "=" + Quoted(b) + " " + x, v)], " ", 0)
         == FieldsText([Field(a, Text(b)), Field(x, v)], " ", 0)
  {
    OneField(Field(a + "=" + Quoted(b) + " " + x, v));
    TwoFields(Field(a, Text(b)), Field(x, v));
  }
}
