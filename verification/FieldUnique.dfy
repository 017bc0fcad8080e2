/** Which lists of string fields have a printed text of their own, shared with no other such list. */
module FieldUnique {
  import opened FieldText

  predicate Strings(fs: seq<Field>) { forall i :: 0 <= i < |fs| ==> fs[i].value.Text? }

  /** The space-separated, uncoloured text. */
  function Line(fs: seq<Field>): string { FieldsText(fs, " ", 0) }

  /** No other list of string fields has the text. */
  ghost predicate Unique(fs: seq<Field>) {
    forall gs: seq<Field> :: Strings(gs) && Line(gs) == Line(fs) ==> gs == fs
  }

  // ---- what a value prints as -----------------------------------------------------------------------

  /** The text of some string value. */
  predicate IsValue(s: string) {
    !ShouldQuote(s) || (|s| >= 2 && s[0] == '\"' && s[|s| - 1] == '\"' && ShouldQuote(s[1..|s| - 1]))
  }

  function ValueOf(s: string): string
    requires IsValue(s)
  {
    if ShouldQuote(s) then s[1..|s| - 1] else s
  }

  /** Quoting can be undone, and gives exactly the texts that look like it. */
  lemma QuotedIff(s: string, v: string)
    ensures Quoted(v) == s <==> IsValue(s) && ValueOf(s) == v
  {
    if ShouldQuote(v) {
      var t := "\"" + v + "\"";
      assert t[1..|t| - 1] == v && !Safe(t[0]);
    }
    if IsValue(s) && ShouldQuote(s) {
      assert s == "\"" + s[1..|s| - 1] + "\"";
    }
  }

  // ---- joining the fields of a list into one -------------------------------------------------------------

  /** The one field that prints as f and g do. */
  function Join(f: Field, g: Field): Field
    requires f.value.Text?
  {
    Field(f.key + "=" + Quoted(f.value.s) + " " + g.key, g.value)
  }

  lemma JoinSame(f: Field, g: Field, rest: seq<Field>)
    requires f.value.Text?
    ensures Line([f] + ([g] + rest)) == Line([Join(f, g)] + rest)
  {
    assert ([f] + ([g] + rest))[1..] == [g] + rest;
    assert ([g] + rest)[1..] == rest && ([Join(f, g)] + rest)[1..] == rest;
    var a, b, c := KeyValueText(f, 0), KeyValueText(g, 0), FieldsTail(rest, " ", 0);
    assert FieldsTail([g] + rest, " ", 0) == " " + b + c;
    assert KeyValueText(Join(f, g), 0) == a + (" " + b);
    assert a + (" " + b + c) == a + (" " + b) + c;
  }

  /** The key goes on as if its field had ended and another had begun. */
  predicate RunsOn(key: string) {
    exists p, q :: 0 <= p < q < |key| && key[p] == '=' && key[q] == ' ' && IsValue(key[p + 1..q])
  }

  lemma JoinRunsOn(f: Field, g: Field)
    requires f.value.Text?
    ensures RunsOn(Join(f, g).key)
  {
    var k, v := Join(f, g).key, Quoted(f.value.s);
    var p, q := |f.key|, |f.key| + 1 + |v|;
    assert k[p + 1..q] == v;
    QuotedIff(v, f.value.s);
    assert k[p] == '=' && k[q] == ' ';
  }

  /** Any list prints as one field, whose key runs on if the list has several. */
  lemma {:induction false} ToOne(gs: seq<Field>) returns (g: Field)
    requires gs != [] && Strings(gs)
    ensures g.value.Text? && Line([g]) == Line(gs)
    ensures if |gs| == 1 then g == gs[0] else RunsOn(g.key)
    decreases |gs|
  {
    if |gs| == 1 {
      g := gs[0];
      assert gs == [g];
    } else {
      var h, rest := Join(gs[0], gs[1]), gs[2..];
      assert gs == [gs[0]] + ([gs[1]] + rest);
      JoinSame(gs[0], gs[1], rest);
      JoinRunsOn(gs[0], gs[1]);
      g := ToOne([h] + rest);
    }
  }

  // ---- exactly when ------------------------------------------------------------------------------------------

  /**
   The field's text can be read as one field in one way only, and its key cannot be read as more: after
   no equals sign but its own comes what a value prints as, and its key does not run on.
   */
  predicate OneWay(f: Field) {
    && (var t := KeyValueText(f, 0);
        forall p :: 0 <= p < |t| && t[p] == '=' && p != |f.key| ==> !IsValue(t[p + 1..]))
    && !RunsOn(f.key)
  }

  lemma LineOne(f: Field)
    requires f.value.Text?
    ensures Line([f]) == f.key + "=" + Quoted(f.value.s)
    ensures Line([f]) == KeyValueText(f, 0)
    ensures Line([f])[|f.key|] == '=' && Line([f])[|f.key| + 1..] == Quoted(f.value.s)
  {
    OneField(f);
  }

  /** Two fields with one text are the same, or the text splits at another equals sign. */
  lemma SameOrOther(f: Field, g: Field)
    requires f.value.Text? && g.value.Text? && Line([g]) == Line([f])
    ensures g == f || (|g.key| != |f.key| && IsValue(Line([f])[|g.key| + 1..]) && Line([f])[|g.key|] == '=')
  {
    LineOne(f);
    LineOne(g);
    QuotedIff(Quoted(f.value.s), f.value.s);
    QuotedIff(Quoted(g.value.s), g.value.s);
    if |g.key| == |f.key| {
      assert g.key == Line([g])[..|g.key|] && f.key == Line([f])[..|f.key|];
    }
  }

  lemma OneWayUnique(f: Field)
    requires f.value.Text? && OneWay(f)
    ensures Unique([f])
  {
    forall gs: seq<Field> | Strings(gs) && Line(gs) == Line([f]) ensures gs == [f] {
      LineOne(f);
      var g := ToOne(gs);
      SameOrOther(f, g);
      assert g == f;
      assert gs == [gs[0]];
    }
  }

  /** A split at another equals sign is another field. */
  lemma OtherSplit(f: Field, p: nat)
    requires f.value.Text? && p < |KeyValueText(f, 0)| && KeyValueText(f, 0)[p] == '=' && p != |f.key|
    requires IsValue(KeyValueText(f, 0)[p + 1..])
    ensures !Unique([f])
  {
    var t := KeyValueText(f, 0);
    var g := Field(t[..p], Text(ValueOf(t[p + 1..])));
    QuotedIff(t[p + 1..], g.value.s);
    LineOne(f);
    LineOne(g);
    SplitAt(t, p);
    Different(f, g);
  }

  lemma SplitAt(t: string, p: nat)
    requires p < |t| && t[p] == '='
    ensures t == t[..p] + "=" + t[p + 1..]
  {}

  lemma Different(f: Field, g: Field)
    requires g.value.Text? && Line([g]) == Line([f]) && |g.key| != |f.key|
    ensures !Unique([f])
  {
    assert [g][0] == g && [f][0] == f;
  }

  lemma CutAt(k: string, p: nat, q: nat)
    requires p < q < |k| && k[p] == '=' && k[q] == ' '
    ensures k == k[..p] + "=" + k[p + 1..q] + " " + k[q + 1..]
  {}

  /** A key that runs on makes two fields. */
  lemma RunsOnSplits(f: Field)
    requires f.value.Text? && RunsOn(f.key)
    ensures !Unique([f])
  {
    var k := f.key;
    var p, q :| 0 <= p < q < |k| && k[p] == '=' && k[q] == ' ' && IsValue(k[p + 1..q]);
    var a, g := Field(k[..p], Text(ValueOf(k[p + 1..q]))), Field(k[q + 1..], f.value);
    QuotedIff(k[p + 1..q], a.value.s);
    CutAt(k, p, q);
    SplitNotUnique(a, g);
  }

  lemma SplitNotUnique(a: Field, g: Field)
    requires a.value.Text? && g.value.Text?
    ensures !Unique([Join(a, g)])
  {
    JoinSame(a, g, []);
    assert [a] + ([g] + []) == [a, g] && [Join(a, g)] + [] == [Join(a, g)];
    assert |[a, g]| != |[Join(a, g)]|;
  }

  /**
   The text of a list of string fields determines the list if and only if the list is empty, or has one
   field that can be read in one way only. So no list of two or more fields has a text of its own: its
   fields can be joined into one.
   */
  lemma UniqueIff(fs: seq<Field>)
    requires Strings(fs)
    ensures Unique(fs) <==> fs == [] || (|fs| == 1 && OneWay(fs[0]))
  {
    if fs == [] {
      forall gs: seq<Field> | Strings(gs) && Line(gs) == Line(fs) ensures gs == fs {
        if gs != [] {
          var g := ToOne(gs);
          LineOne(g);
        }
      }
    } else if |fs| == 1 {
      assert fs == [fs[0]];
      SingleIff(fs[0]);
    } else {
      var g := ToOne(fs);
      assert Strings([g]) && |[g]| != |fs|;
    }
  }

  lemma SingleIff(f: Field)
    requires f.value.Text?
    ensures Unique([f]) <==> OneWay(f)
  {
    if OneWay(f) {
      OneWayUnique(f);
    } else if RunsOn(f.key) {
      RunsOnSplits(f);
    } else {
      var p :| 0 <= p < |KeyValueText(f, 0)| && KeyValueText(f, 0)[p] == '=' && p != |f.key|
        && IsValue(KeyValueText(f, 0)[p + 1..]);
      OtherSplit(f, p);
    }
  }
}
