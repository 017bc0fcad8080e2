/** Sugar's loosely typed arguments turned into fields (sugar.go:168-197). */
module SugarArgs {

  /** An argument: a Field already, a string, or anything else. */
  datatype Arg = IsField(f: Field) | IsString(s: string) | IsOther(v: nat)

  /** A ready-made field, or what `Any(key, value)` makes. */
  datatype Field = Ready(id: nat) | Made(key: string, value: Arg)

  /** What argsToFields logs as an error. */
  datatype Complaint = BadPair(arg: Arg) | BadKey(pos: nat)

  // ---- the grammar ------------------------------------------------------------------------------

  datatype Item =
    | One(f: Field)               // a field
    | Pair(key: string, v: Arg)   // a string key and its value
    | Odd(k: Arg, v: Arg)         // a key that is no string, and the value it takes along
    | Dangling(a: Arg)            // a last argument with no value

  predicate ItemOk(item: Item) {
    (item.Odd? ==> item.k.IsOther?) && (item.Dangling? ==> !item.a.IsField?)
  }

  /** Only the last item may dangle. */
  predicate Sentence(items: seq<Item>) {
    && (forall i :: 0 <= i < |items| ==> ItemOk(items[i]))
    && (forall i :: 0 <= i < |items| - 1 ==> !items[i].Dangling?)
  }

  function Spell(item: Item): seq<Arg> {
    match item
    case One(f) => [IsField(f)]
    case Pair(k, v) => [IsString(k), v]
    case Odd(k, v) => [k, v]
    case Dangling(a) => [a]
  }

  function SpellAll(items: seq<Item>): seq<Arg> {
    if items == [] then [] else Spell(items[0]) + SpellAll(items[1..])
  }

  function Items(args: seq<Arg>): seq<Item> {
    if args == [] then []
    else if args[0].IsField? then [One(args[0].f)] + Items(args[1..])
    else if |args| == 1 then [Dangling(args[0])]
    else if args[0].IsString? then [Pair(args[0].s, args[1])] + Items(args[2..])
    else [Odd(args[0], args[1])] + Items(args[2..])
  }

  /** Every argument is consumed exactly once, in order. */
  lemma {:induction false} ItemsConsumeAll(args: seq<Arg>)
    ensures SpellAll(Items(args)) == args && Sentence(Items(args))
  {
    if args != [] && !(|args| == 1 && !args[0].IsField?) {
      var n := if args[0].IsField? then 1 else 2;
      ItemsConsumeAll(args[n..]);
      assert args == args[..n] + args[n..];
      assert Items(args)[1..] == Items(args[n..]);
    } else if args != [] {
      assert Items(args)[1..] == [];
    }
  }

  /** And in only one way: the arguments determine the sentence. */
  lemma {:induction false} ItemsUnique(items: seq<Item>)
    requires Sentence(items)
    ensures Items(SpellAll(items)) == items
  {
    if items != [] {
      var rest := SpellAll(items[1..]);
      assert Sentence(items[1..]);
      ItemsUnique(items[1..]);
      assert items == [items[0]] + items[1..];
      match items[0]
      case One(f) => assert ([IsField(f)] + rest)[1..] == rest;
      case Pair(k, v) => assert ([IsString(k), v] + rest)[2..] == rest;
      case Odd(k, v) => assert ([k, v] + rest)[2..] == rest;
      case Dangling(a) => assert items[1..] == [];
    }
  }

  function FieldOf(item: Item): seq<Field> {
    match item
    case One(f) => [f]
    case Pair(k, v) => [Made(k, v)]
    case _ => []
  }

  function FieldsOf(items: seq<Item>): seq<Field> {
    if items == [] then [] else FieldOf(items[0]) + FieldsOf(items[1..])
  }

  /** The complaints about items that start at position pos of the arguments. */
  function ComplaintsOf(items: seq<Item>, pos: nat): seq<Complaint> {
    if items == [] then []
    else
      (match items[0]
       case Dangling(a) => [BadPair(a)]
       case Odd(_, _) => [BadKey(pos)]
       case _ => [])
      + ComplaintsOf(items[1..], pos + |Spell(items[0])|)
  }

  /** Fields and string-key pairs come back as they were written, with no complaint. */
  lemma {:induction false} CleanRoundTrip(items: seq<Item>, pos: nat)
    requires forall i :: 0 <= i < |items| ==> items[i].One? || items[i].Pair?
    ensures Items(SpellAll(items)) == items && ComplaintsOf(items, pos) == []
    ensures |FieldsOf(items)| == |items|
    ensures forall i :: 0 <= i < |items| ==>
      FieldsOf(items)[i] == if items[i].One? then items[i].f else Made(items[i].key, items[i].v)
  {
    ItemsUnique(items);
    if items != [] {
      CleanRoundTrip(items[1..], pos + |Spell(items[0])|);
    }
  }

  /** Whether item i draws a complaint. */
  predicate Wrong(item: Item) { item.Odd? || item.Dangling? }

  /** Where item i starts among the arguments. */
  function At(items: seq<Item>, i: nat, pos: nat): nat
    requires i < |items|
  {
    if i == 0 then pos else At(items[1..], i - 1, pos + |Spell(items[0])|)
  }

  /** How many of the first i items draw a complaint. */
  function WrongBefore(items: seq<Item>, i: nat): nat
    requires i <= |items|
  {
    if i == 0 then 0 else (if Wrong(items[0]) then 1 else 0) + WrongBefore(items[1..], i - 1)
  }

  /** Each bad key is complained about once, at its position, and a dangling argument by name; nothing else is. */
  lemma {:induction false} ComplaintsExact(items: seq<Item>, pos: nat, i: nat)
    requires i < |items|
    ensures |ComplaintsOf(items, pos)| == WrongBefore(items, |items|)
    ensures Wrong(items[i]) ==>
      && WrongBefore(items, i) < |ComplaintsOf(items, pos)|
      && ComplaintsOf(items, pos)[WrongBefore(items, i)]
         == (if items[i].Odd? then BadKey(At(items, i, pos)) else BadPair(items[i].a))
  {
    if i > 0 {
      ComplaintsExact(items[1..], pos + |Spell(items[0])|, i - 1);
    } else if |items| > 1 {
      ComplaintsExact(items[1..], pos + |Spell(items[0])|, 0);
    }
  }

  // ---- the loop ----------------------------------------------------------------------------------

  method ArgsToFields(args: seq<Arg>) returns (fields: seq<Field>, complaints: seq<Complaint>)
    ensures fields == FieldsOf(Items(args))
    ensures complaints == ComplaintsOf(Items(args), 0)
  {
    fields, complaints := [], [];
    var i := 0;
    while i < |args|
      invariant 0 <= i <= |args|
      invariant fields + FieldsOf(Items(args[i..])) == FieldsOf(Items(args))
      invariant complaints + ComplaintsOf(Items(args[i..]), i) == ComplaintsOf(Items(args), 0)
      decreases |args| - i
    {
      ItemsStep(args, i);
      if args[i].IsField? {
        Shift(fields, args[i].f, FieldsOf(Items(args[i + 1..])));
        fields := fields + [args[i].f];
        i := i + 1;
        continue;
      }
      if i == |args| - 1 {
        complaints := complaints + [BadPair(args[i])];
        return;
      }
      if !args[i].IsString? {
        Shift(complaints, BadKey(i), ComplaintsOf(Items(args[i + 2..]), i + 2));
        complaints := complaints + [BadKey(i)];
      } else {
        Shift(fields, Made(args[i].s, args[i + 1]), FieldsOf(Items(args[i + 2..])));
        fields := fields + [Made(args[i].s, args[i + 1])];
      }
      i := i + 2;
    }
    assert args[i..] == [];
  }

  lemma Shift<T>(a: seq<T>, x: T, b: seq<T>)
    ensures a + ([x] + b) == (a + [x]) + b
  {}

  /** The item that starts at position i, and what follows it. */
  lemma ItemsStep(args: seq<Arg>, i: nat)
    requires i < |args|
    ensures var items := Items(args[i..]);
      if args[i].IsField? then
        FieldsOf(items) == [args[i].f] + FieldsOf(Items(args[i + 1..]))
        && ComplaintsOf(items, i) == ComplaintsOf(Items(args[i + 1..]), i + 1)
      else if i == |args| - 1 then FieldsOf(items) == [] && ComplaintsOf(items, i) == [BadPair(args[i])]
      else if args[i].IsString? then
        FieldsOf(items) == [Made(args[i].s, args[i + 1])] + FieldsOf(Items(args[i + 2..]))
        && ComplaintsOf(items, i) == ComplaintsOf(Items(args[i + 2..]), i + 2)
      else
        FieldsOf(items) == FieldsOf(Items(args[i + 2..]))
        && ComplaintsOf(items, i) == [BadKey(i)] + ComplaintsOf(Items(args[i + 2..]), i + 2)
  {
    var rest := args[i..];
    assert rest[1..] == args[i + 1..];
    if |rest| > 1 { assert rest[2..] == args[i + 2..]; }
    assert Items(rest) == [Items(rest)[0]] + Items(rest)[1..];
  }
}
