/**
 Reading the printers' texts back: joins into their parts, numbers, colours and stack traces. A text that can
 be read back says everything that was printed, in its place.
 */
module TextReadBack {
  import opened FieldText
  import opened FieldWriter

  // ---- single values --------------------------------------------------------------------------------

  const DIGITS: string := "0123456789"
  const LOWER: string := "abcdefghijklmnopqrstuvwxyz"
  const UPPER: string := "ABCDEFGHIJKLMNOPQRSTUVWXYZ"
  const SIGNS: string := "-._/@^+"

  lemma DigitIs(c: char)
    ensures c in DIGITS <==> '0' <= c <= '9'
  {
    if '0' <= c <= '9' { assert DIGITS[(c as int) - ('0' as int)] == c; }
  }

  lemma LowerIs(c: char)
    ensures c in LOWER <==> 'a' <= c <= 'z'
  {
    if 'a' <= c <= 'z' { assert LOWER[(c as int) - ('a' as int)] == c; }
  }

  lemma UpperIs(c: char)
    ensures c in UPPER <==> 'A' <= c <= 'Z'
  {
    if 'A' <= c <= 'Z' { assert UPPER[(c as int) - ('A' as int)] == c; }
  }

  predicate InSafe(c: char) { c in DIGITS || c in LOWER || c in UPPER || c in SIGNS }

  /** The characters that need no quotes: digits, letters and seven signs. */
  lemma SafeIs(c: char)
    ensures Safe(c) <==> InSafe(c)
  {
    DigitIs(c);
    LowerIs(c);
    UpperIs(c);
  }

  /** A string value can be told from its text; the rest print as they are. */
  lemma ValueReadBack(v: Value)
    ensures v.Text? ==> ValueText(v) == if forall i :: 0 <= i < |v.s| ==> InSafe(v.s[i]) then v.s else "\"" + v.s + "\""
    ensures v.Plain? || v.Struct? ==> ValueText(v) == v.s
    ensures v.Array? ==> ValueText(v) == Join(Texts(v.items), ",")
    ensures v.Map? ==> ValueText(v) == Join(PairTexts(v.pairs), ",")
  {
    if v.Text? {
      forall i | 0 <= i < |v.s| ensures Safe(v.s[i]) <==> InSafe(v.s[i]) { SafeIs(v.s[i]); }
    } else if v.Array? {
      ArrayIsJoin(v.items);
    } else if v.Map? {
      MapIsJoin(v.pairs);
    }
  }

  // ---- joining and splitting ------------------------------------------------------------------------

  /** The parts with the separator between them. */
  function Join(parts: seq<string>, sep: string): string {
    if parts == [] then ""
    else if |parts| == 1 then parts[0]
    else Join(parts[..|parts| - 1], sep) + sep + parts[|parts| - 1]
  }

  /** Cuts the text at each separator character. */
  function Split(s: string, sep: char): seq<string>
    decreases |s|
  {
    var n := Before(s, sep);
    if n == |s| then [s] else [s[..n]] + Split(s[n + 1..], sep)
  }

  lemma {:induction false} BeforeAll(s: string, c: char)
    requires c !in s
    ensures Before(s, c) == |s|
  {
    if s != "" { BeforeAll(s[1..], c); }
  }

  lemma {:induction false} JoinFront(parts: seq<string>, sep: string)
    requires |parts| > 1
    ensures Join(parts, sep) == parts[0] + sep + Join(parts[1..], sep)
  {
    var front := parts[..|parts| - 1];
    if |parts| > 2 {
      JoinFront(front, sep);
      assert front[1..] == parts[1..][..|parts| - 2];
      assert parts[1..][|parts| - 2] == parts[|parts| - 1];
      Regroup3(parts[0], sep, Join(front[1..], sep), sep + parts[|parts| - 1]);
    } else {
      assert front == [parts[0]] && parts[1..] == [parts[1]];
    }
  }

  lemma Regroup3(a: string, b: string, c: string, d: string)
    ensures a + b + c + d == a + b + (c + d) == a + (b + c + d)
  {}

  /** Splitting undoes joining, if no part has the separator in it. */
  lemma {:induction false} SplitJoin(parts: seq<string>, sep: char)
    requires parts != [] && forall i :: 0 <= i < |parts| ==> sep !in parts[i]
    ensures Split(Join(parts, [sep]), sep) == parts
  {
    if |parts| == 1 {
      BeforeAll(parts[0], sep);
      assert parts == [parts[0]];
    } else {
      JoinFront(parts, [sep]);
      SplitJoin(parts[1..], sep);
      BeforeFinds(parts[0], sep, Join(parts[1..], [sep]));
      var t := parts[0] + [sep] + Join(parts[1..], [sep]);
      assert t[..|parts[0]|] == parts[0] && t[|parts[0]| + 1..] == Join(parts[1..], [sep]);
    }
  }

  // ---- arrays, maps and fields ------------------------------------------------------------------------

  function Texts(items: seq<Elem>): seq<string> {
    seq(|items|, i requires 0 <= i < |items| => ElemText(items[i]))
  }

  function PairTexts(ps: seq<(string, Elem)>): seq<string> {
    seq(|ps|, i requires 0 <= i < |ps| => ps[i].0 + "=" + ElemText(ps[i].1))
  }

  function FieldTexts(fs: seq<Field>, color: nat): seq<string> {
    seq(|fs|, i requires 0 <= i < |fs| => KeyValueText(fs[i], color))
  }

  /** The parts, each preceded by the separator. */
  function Tail(parts: seq<string>, sep: string): string {
    if parts == [] then "" else sep + parts[0] + Tail(parts[1..], sep)
  }

  lemma {:induction false} JoinTail(parts: seq<string>, sep: string)
    requires parts != []
    ensures Join(parts, sep) == parts[0] + Tail(parts[1..], sep)
  {
    if |parts| > 1 {
      JoinFront(parts, sep);
      JoinTail(parts[1..], sep);
      Regroup3(parts[0], sep, parts[1], Tail(parts[1..][1..], sep));
    }
  }

  lemma {:induction false} ArrayTail(items: seq<Elem>)
    ensures ItemsTail(items) == Tail(Texts(items), ",")
  {
    if items != [] {
      ArrayTail(items[1..]);
      assert Texts(items)[1..] == Texts(items[1..]);
    }
  }

  lemma {:induction false} MapTail(ps: seq<(string, Elem)>)
    ensures PairsTail(ps) == Tail(PairTexts(ps), ",")
  {
    if ps != [] {
      MapTail(ps[1..]);
      assert PairTexts(ps)[1..] == PairTexts(ps[1..]);
    }
  }

  lemma FieldTextsFront(fs: seq<Field>, color: nat)
    requires fs != []
    ensures |FieldTexts(fs, color)| == |fs| && FieldTexts(fs, color)[0] == KeyValueText(fs[0], color)
    ensures FieldTexts(fs, color)[1..] == FieldTexts(fs[1..], color)
  {}

  lemma {:induction false} FieldTail(fs: seq<Field>, sep: string, color: nat)
    ensures FieldsTail(fs, sep, color) == Tail(FieldTexts(fs, color), sep)
  {
    if fs != [] {
      FieldTail(fs[1..], sep, color);
      FieldTextsFront(fs, color);
      TailIsChunk(KeyValueText(fs[0], color), FieldsTail(fs[1..], sep, color), FieldTexts(fs, color), sep);
    }
  }

  lemma TailIsChunk(first: string, more: string, parts: seq<string>, sep: string)
    requires parts != [] && parts[0] == first && more == Tail(parts[1..], sep)
    ensures Tail(parts, sep) == sep + first + more
  {}

  /** An array prints as its elements joined by commas. */
  lemma ArrayIsJoin(items: seq<Elem>)
    ensures ItemsText(items) == Join(Texts(items), ",")
  {
    if items != [] {
      ArrayTail(items[1..]);
      JoinTail(Texts(items), ",");
      assert Texts(items)[1..] == Texts(items[1..]);
    }
  }

  /** A map prints as its entries, key=element, joined by commas. */
  lemma MapIsJoin(ps: seq<(string, Elem)>)
    ensures PairsText(ps) == Join(PairTexts(ps), ",")
  {
    if ps != [] {
      MapTail(ps[1..]);
      JoinTail(PairTexts(ps), ",");
      assert PairTexts(ps)[1..] == PairTexts(ps[1..]);
    }
  }

  /** The fields print joined by the separator given, each with its key in the colour given. */
  lemma FieldsAreJoin(fs: seq<Field>, sep: string, color: nat)
    ensures FieldsText(fs, sep, color) == Join(FieldTexts(fs, color), sep)
  {
    if fs != [] {
      FieldTail(fs[1..], sep, color);
      JoinTail(FieldTexts(fs, color), sep);
      FieldTextsFront(fs, color);
    }
  }

  /** So an array of elements without commas is read back by cutting at the commas. */
  lemma ArrayReadBack(items: seq<Elem>)
    requires items != [] && forall i :: 0 <= i < |items| ==> ',' !in ElemText(items[i])
    ensures Split(ItemsText(items), ',') == Texts(items)
  {
    ArrayIsJoin(items);
    SplitJoin(Texts(items), ',');
  }

  /** And a map, each entry being cut at its first equals sign. */
  lemma MapReadBack(ps: seq<(string, Elem)>, i: nat)
    requires i < |ps| && forall j :: 0 <= j < |ps| ==> ',' !in ps[j].0 && ',' !in ElemText(ps[j].1) && '=' !in ps[j].0
    ensures var entries := Split(PairsText(ps), ',');
      && |entries| == |ps| && Before(entries[i], '=') == |ps[i].0| < |entries[i]|
      && entries[i][..|ps[i].0|] == ps[i].0 && entries[i][|ps[i].0| + 1..] == ElemText(ps[i].1)
  {
    MapIsJoin(ps);
    SplitJoin(PairTexts(ps), ',');
    BeforeFinds(ps[i].0, '=', ElemText(ps[i].1));
  }

  // ---- numbers and colours ------------------------------------------------------------------------------

  function DigitValue(c: char): nat { if '0' <= c <= '9' then (c as int) - ('0' as int) else 0 }

  function ReadNat(s: string): nat {
    if s == "" then 0 else 10 * ReadNat(s[..|s| - 1]) + DigitValue(s[|s| - 1])
  }

  lemma OneDigit(n: nat)
    requires n < 10
    ensures DigitValue("0123456789"[n]) == n && '0' <= "0123456789"[n] <= '9' && (n > 0 ==> "0123456789"[n] != '0')
  {}

  /** Numbers print in decimal, without leading zeros. */
  lemma {:induction false} DigitsReadBack(n: nat)
    ensures ReadNat(Digits(n)) == n && Digits(n) != ""
    ensures forall i :: 0 <= i < |Digits(n)| ==> '0' <= Digits(n)[i] <= '9'
    ensures n > 0 ==> Digits(n)[0] != '0'
  {
    if n >= 10 {
      DigitsReadBack(n / 10);
      OneDigit(n % 10);
      assert Digits(n)[..|Digits(n)| - 1] == Digits(n / 10);
    } else {
      OneDigit(n);
      assert Digits(n)[..0] == "";
    }
  }

  const ESC: char := '\U{1b}'

  /** Reads a coloured text: an escape sequence with the colour, the text, an escape sequence with colour 0. */
  function Uncolor(t: string): (string, nat) {
    if |t| < 2 || t[0] != ESC || t[1] != '[' then (t, 0)
    else
      var body := t[2..];
      var n := Before(body, 'm');
      if n == |body| then (t, 0)
      else (body[n + 1..][..Before(body[n + 1..], ESC)], ReadNat(body[..n]))
  }

  /** Text without escapes is read back with its colour, and the colour is switched off at the end. */
  lemma ColorReadBack(s: string, color: nat)
    requires ESC !in s
    ensures Uncolor(Colored(s, color)) == (s, color)
  {
    if color != 0 {
      var d := Digits(color);
      DigitsReadBack(color);
      assert 'm' !in d;
      ColoredIs(s, color);
      UncolorIs(d, s);
    } else {
      assert ESC !in s;
    }
  }

  /** The colour goes on before the text and off after it. */
  lemma ColoredIs(s: string, color: nat)
    requires color != 0
    ensures Colored(s, color) == [ESC, '['] + (Digits(color) + ['m'] + (s + [ESC] + "[0m"))
  {
    assert Digits(0) == "0";
    assert Ansi(color) == [ESC, '['] + Digits(color) + ['m'];
    assert Ansi(0) == [ESC] + "[0m";
  }

  lemma UncolorIs(d: string, s: string)
    requires 'm' !in d && ESC !in s
    ensures Uncolor([ESC, '['] + (d + ['m'] + (s + [ESC] + "[0m"))) == (s, ReadNat(d))
  {
    var rest := s + [ESC] + "[0m";
    var body := d + ['m'] + rest;
    BeforeFinds(d, 'm', rest);
    BeforeFinds(s, ESC, "[0m");
    assert ([ESC, '['] + body)[2..] == body;
    assert body[..|d|] == d && body[|d| + 1..] == rest;
    assert rest[..|s|] == s;
  }

  /** A field's key is read back with its colour, and the value's text after the equals sign. */
  lemma FieldReadBack(f: Field, color: nat)
    ensures var k := Colored(f.key, color);
      && k <= KeyValueText(f, color) && |k| < |KeyValueText(f, color)| && KeyValueText(f, color)[|k|] == '='
      && KeyValueText(f, color)[|k| + 1..] == ValueText(f.value)
  {}

  // ---- stack traces ---------------------------------------------------------------------------------------

  /** The lines of a trace, told frame by frame. */
  function Lines(frames: seq<Frame>): seq<string> {
    if frames == [] then [] else Lines(frames[..|frames| - 1]) + FrameLines(frames[|frames| - 1])
  }

  /** Two spaces and the function; six spaces, the file, a colon and the line number; what is missing is left out. */
  function FrameLines(f: Frame): seq<string> {
    (if f.fn == "" then [] else ["  " + f.fn])
    + (if f.file == "" then [] else ["      " + f.file + ":" + Digits(f.line)])
  }

  lemma {:induction false} LinesFront(frames: seq<Frame>)
    requires frames != []
    ensures Lines(frames) == FrameLines(frames[0]) + Lines(frames[1..])
  {
    var front, last := frames[..|frames| - 1], frames[|frames| - 1];
    if |frames| > 1 {
      LinesFront(front);
      assert front[1..] == frames[1..][..|frames| - 2];
    } else {
      assert frames[1..] == [] && front == [];
    }
  }

  /** Each line, ended by a newline. */
  function Ended(lines: seq<string>): string {
    if lines == [] then "" else lines[0] + "\n" + Ended(lines[1..])
  }

  lemma {:induction false} EndedConcat(a: seq<string>, b: seq<string>)
    ensures Ended(a + b) == Ended(a) + Ended(b)
  {
    if a == [] {
      assert a + b == b;
    } else {
      EndedConcat(a[1..], b);
      assert (a + b)[1..] == a[1..] + b;
    }
  }

  lemma JoinedFour(a: string, b: string, c: string, d: string)
    ensures Joined([a, b, c, d]) == a + b + c + d
  {
    assert [d][1..] == [] && Joined([d]) == d;
    assert [c, d][1..] == [d] && Joined([c, d]) == c + d;
    assert [b, c, d][1..] == [c, d] && Joined([b, c, d]) == b + (c + d);
    assert [a, b, c, d][1..] == [b, c, d] && Joined([a, b, c, d]) == a + (b + (c + d));
  }

  lemma JoinedFive(a: string, b: string, c: string, d: string, e: string)
    ensures Joined([a, b, c, d, e]) == a + b + c + d + e
  {
    JoinedFour(b, c, d, e);
    assert [a, b, c, d, e][1..] == [b, c, d, e] && Joined([a, b, c, d, e]) == a + (b + c + d + e);
  }

  lemma FrameIsLines(f: Frame)
    ensures FrameText(f) == Ended(FrameLines(f))
  {
    JoinedFour(" ", " ", f.fn, "\n");
    JoinedFive("      ", f.file, ":", Digits(f.line), "\n");
    EndedConcat(if f.fn == "" then [] else ["  " + f.fn],
                if f.file == "" then [] else ["      " + f.file + ":" + Digits(f.line)]);
    EndedOne("  " + f.fn);
    EndedOne("      " + f.file + ":" + Digits(f.line));
    assert " " + " " + f.fn + "\n" == "  " + f.fn + "\n";
  }

  lemma EndedOne(line: string)
    ensures Ended([line]) == line + "\n"
  {
    assert [line][1..] == [];
  }

  /** A trace prints as its lines, each ended by a newline. */
  lemma {:induction false} TraceIsLines(frames: seq<Frame>)
    ensures TraceText(frames) == Ended(Lines(frames))
  {
    if frames != [] {
      TraceIsLines(frames[1..]);
      FrameIsLines(frames[0]);
      LinesFront(frames);
      EndedConcat(FrameLines(frames[0]), Lines(frames[1..]));
    }
  }

  lemma {:induction false} SplitEnded(lines: seq<string>)
    requires forall i :: 0 <= i < |lines| ==> '\n' !in lines[i]
    ensures Split(Ended(lines), '\n') == lines + [""]
  {
    if lines != [] {
      SplitEnded(lines[1..]);
      BeforeFinds(lines[0], '\n', Ended(lines[1..]));
      var t := lines[0] + ['\n'] + Ended(lines[1..]);
      assert t[..|lines[0]|] == lines[0] && t[|lines[0]| + 1..] == Ended(lines[1..]);
      assert lines + [""] == [lines[0]] + (lines[1..] + [""]);
    }
  }

  /** With no newlines in names, cutting the trace at its newlines gives the lines back. */
  lemma TraceReadBack(frames: seq<Frame>)
    requires forall i :: 0 <= i < |Lines(frames)| ==> '\n' !in Lines(frames)[i]
    ensures Split(TraceText(frames), '\n') == Lines(frames) + [""]
  {
    TraceIsLines(frames);
    SplitEnded(Lines(frames));
  }
}
