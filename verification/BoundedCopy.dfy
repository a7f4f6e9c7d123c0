/**
The bounded copy of untrusted ticket data: JSON, possibly holding JSON inside its strings, is
copied under two budgets, one of nodes and one of characters, that every recursive call shares.
*/
module BoundedCopy {
  import opened Wrappers
  import Decimal

  datatype Key = StringKey(text: string) | OtherKey

  datatype Json =
    | Null
    | Bool(b: bool)
    | Int(n: int)
    | Float(finite: bool, r: real)
    | Str(text: string)
    | List(items: seq<Json>)
    | Dict(fields: seq<Field>)
    | Unsupported

  datatype Field = Field(key: Key, value: Json)

  /** A copy says of every text whether it was taken from the input or put in its place. */
  datatype Copy =
    | Omitted(why: Omission)
    | Scalar(value: Json)
    | Text(text: string)
    | ListCopy(items: seq<Copy>)
    | DictCopy(entries: seq<Entry>)

  /** The fixed texts that stand for what was left out. */
  datatype Omission =
    | NodeLimit | DepthLimit | OversizedNumber | InvalidNumber | UnsupportedValue | OversizedValue
    | SensitiveJsonLike | MalformedJsonLike | SensitiveValue | UnsafeKey | MoreItems

  datatype Entry = Entry(key: string, copied: bool, value: Copy)

  /** What the copy asks of the standard library: JSON decoding and its regular expressions. */
  datatype Env = Env(
    decode: string -> Option<Json>,
    jsonLike: string -> bool,
    sensitive: string -> bool,
    structured: string -> bool)

  datatype Budget = Budget(nodes: int, chars: int)

  const MAX_DEPTH: nat := 6
  const MAX_ITEMS: nat := 32
  const MAX_KEY: nat := 128
  const MAX_TEXT: nat := 512
  const MAX_INT: int := 0x1_0000_0000_0000_0000_0000_0000_0000_0000_0000_0000_0000_0000_0000_0000_0000_0000

  function Positive(n: int): nat { if n > 0 then n else 0 }

  /** A dictionary assignment: an existing key keeps its place and gets the new value. */
  function Put(entries: seq<Entry>, key: string, copied: bool, value: Copy): seq<Entry> {
    if entries == [] then [Entry(key, copied, value)]
    else if entries[0].key == key then [entries[0].(value := value)] + entries[1..]
    else [entries[0]] + Put(entries[1..], key, copied, value)
  }

  function DictOf(entries: seq<Entry>, more: bool): Copy {
    DictCopy(if more then Put(entries, "[additional fields omitted]", false, Scalar(Bool(true))) else entries)
  }

  function ListOf(copies: seq<Copy>, more: bool): Copy {
    ListCopy(if more then copies + [Omitted(MoreItems)] else copies)
  }

  function CopyOf(v: Json, b: Budget, depth: nat, env: Env): (r: (Copy, Budget))
    ensures r.1.nodes <= b.nodes && (b.nodes >= 0 ==> r.1.nodes >= 0)
    ensures b.nodes > 0 ==> r.1.nodes < b.nodes
    decreases Positive(b.nodes), 0
  {
    if b.nodes <= 0 then (Omitted(NodeLimit), b)
    else
      var b := b.(nodes := b.nodes - 1);
      if depth > MAX_DEPTH then (Omitted(DepthLimit), b)
      else
        match v
        case Dict(fields) =>
          var (entries, b', count) := CopyFields(fields, 0, [], b, depth, env);
          (DictOf(entries, |fields| > count || b'.nodes <= 0), b')
        case List(items) =>
          var (copies, b') := CopyItems(items, 0, [], b, depth, env);
          (ListOf(copies, |items| > |copies|), b')
        case Str(text) => CopyText(text, b, depth, env)
        case Null => (Scalar(v), b)
        case Bool(_) => (Scalar(v), b)
        case Int(n) => (if -MAX_INT < n < MAX_INT then Scalar(v) else Omitted(OversizedNumber), b)
        case Float(finite, _) => (if finite then Scalar(v) else Omitted(InvalidNumber), b)
        case Unsupported => (Omitted(UnsupportedValue), b)
  }

  predicate Nested(decoded: Json, env: Env) {
    decoded.Dict? || decoded.List? || (decoded.Str? && env.jsonLike(decoded.text))
  }

  function CopyText(text: string, b: Budget, depth: nat, env: Env): (r: (Copy, Budget))
    ensures r.1.nodes <= b.nodes && (b.nodes >= 0 ==> r.1.nodes >= 0)
    decreases Positive(b.nodes), 1
  {
    if |text| > MAX_TEXT || |text| > b.chars then (Omitted(OversizedValue), b)
    else
      var b := b.(chars := b.chars - |text|);
      var decoded := if env.jsonLike(text) then env.decode(text) else None;
      if env.jsonLike(text) && decoded.None? then
        if env.sensitive(text) then (Omitted(SensitiveJsonLike), b)
        else if env.structured(text) then (Omitted(MalformedJsonLike), b)
        else (Text(text), b)
      else if decoded.Some? && Nested(decoded.value, env) then
        var (inner, b') := CopyOf(decoded.value, b, depth + 1, env);
        (DictCopy([Entry("[decoded JSON]", false, inner)]), b')
      else if decoded.Some? && decoded.value.Str? && env.sensitive(decoded.value.text) then
        (Omitted(SensitiveValue), b)
      else if env.sensitive(text) then (Omitted(SensitiveValue), b)
      else (Text(text), b)
  }

  function CopyItems(items: seq<Json>, from: nat, done: seq<Copy>, b: Budget, depth: nat, env: Env): (r: (seq<Copy>, Budget))
    requires from == |done| <= |items|
    ensures r.1.nodes <= b.nodes && (b.nodes >= 0 ==> r.1.nodes >= 0)
    decreases Positive(b.nodes), 2 + |items| - from
  {
    if from == |items| || from == MAX_ITEMS || b.nodes <= 0 then (done, b)
    else
      var (c, b') := CopyOf(items[from], b, depth + 1, env);
      CopyItems(items, from + 1, done + [c], b', depth, env)
  }

  predicate Unsafe(key: Key, b: Budget) {
    key.OtherKey? || |key.text| > MAX_KEY || |key.text| > b.chars
  }

  function OmittedKey(count: nat): string { "[omitted key " + Decimal.Digits(count) + "]" }

  /** The third result counts the fields looked at, the one it stopped at included. */
  function CopyFields(fields: seq<Field>, count: nat, done: seq<Entry>, b: Budget, depth: nat, env: Env):
    (r: (seq<Entry>, Budget, nat))
    requires count <= |fields|
    ensures r.1.nodes <= b.nodes && (b.nodes >= 0 ==> r.1.nodes >= 0)
    decreases Positive(b.nodes), 2 + |fields| - count
  {
    if count == |fields| || count == MAX_ITEMS then (done, b, count)
    else if b.nodes <= 0 then (done, b, count + 1)
    else
      var Field(key, item) := fields[count];
      if Unsafe(key, b) then
        CopyFields(fields, count + 1, Put(done, OmittedKey(count + 1), false, Omitted(UnsafeKey)), b, depth, env)
      else
        var (c, b') := CopyOf(item, b.(chars := b.chars - |key.text|), depth + 1, env);
        CopyFields(fields, count + 1, Put(done, key.text, true, c), b', depth, env)
  }

  // ---------- Bounds ----------

  function Copied(c: Copy): nat {
    match c
    case Omitted(_) => 0
    case Scalar(_) => 0
    case Text(text) => |text|
    case ListCopy(items) => CopiedItems(items)
    case DictCopy(entries) => CopiedEntries(entries)
  }

  function CopiedItems(items: seq<Copy>): nat {
    if items == [] then 0 else CopiedItems(items[..|items| - 1]) + Copied(items[|items| - 1])
  }

  function CopiedEntry(e: Entry): nat { (if e.copied then |e.key| else 0) + Copied(e.value) }

  function CopiedEntries(entries: seq<Entry>): nat {
    if entries == [] then 0 else CopiedEntry(entries[0]) + CopiedEntries(entries[1..])
  }

  function Nodes(c: Copy): nat {
    match c
    case Omitted(_) => 1
    case Scalar(_) => 1
    case Text(_) => 1
    case ListCopy(items) => 1 + NodesOfItems(items)
    case DictCopy(entries) => 1 + NodesOfEntries(entries)
  }

  function NodesOfItems(items: seq<Copy>): nat {
    if items == [] then 0 else NodesOfItems(items[..|items| - 1]) + Nodes(items[|items| - 1])
  }

  function NodesOfEntries(entries: seq<Entry>): nat {
    if entries == [] then 0 else Nodes(entries[0].value) + NodesOfEntries(entries[1..])
  }

  /** At most so many levels of lists and dictionaries. */
  predicate Shallow(c: Copy, levels: nat) {
    match c
    case Omitted(_) => true
    case Scalar(_) => true
    case Text(_) => true
    case ListCopy(items) => levels > 0 && forall i :: 0 <= i < |items| ==> Shallow(items[i], levels - 1)
    case DictCopy(entries) => levels > 0 && forall i :: 0 <= i < |entries| ==> Shallow(entries[i].value, levels - 1)
  }

  lemma {:induction false} PutAddsAtMost(entries: seq<Entry>, key: string, copied: bool, value: Copy)
    ensures CopiedEntries(Put(entries, key, copied, value)) <=
            CopiedEntries(entries) + (if copied then |key| else 0) + Copied(value)
    ensures NodesOfEntries(Put(entries, key, copied, value)) <= NodesOfEntries(entries) + Nodes(value)
  {
    if entries == [] {
    } else {
      PutAddsAtMost(entries[1..], key, copied, value);
    }
  }

  lemma {:induction false} PutStaysShallow(entries: seq<Entry>, key: string, copied: bool, value: Copy, levels: nat)
    requires Shallow(DictCopy(entries), levels + 1) && Shallow(value, levels)
    ensures Shallow(DictCopy(Put(entries, key, copied, value)), levels + 1)
  {
    if entries != [] && entries[0].key != key {
      assert forall i :: 0 <= i < |entries| - 1 ==> entries[1..][i] == entries[i + 1];
      PutStaysShallow(entries[1..], key, copied, value, levels);
      var longer := Put(entries, key, copied, value);
      assert forall i :: 1 <= i < |longer| ==> longer[i] == Put(entries[1..], key, copied, value)[i - 1];
    }
  }

  function Levels(depth: nat): nat { if depth > MAX_DEPTH then 0 else MAX_DEPTH + 1 - depth }

  /** A node that is paid for brings at most 32 unsafe-key entries and one omission note with it. */
  predicate Bounded(c: Copy, b: Budget, b': Budget, depth: nat) {
    && 0 <= b'.chars && Copied(c) + b'.chars <= b.chars
    && Nodes(c) <= (if b.nodes <= 0 then 1 else 34 * (b.nodes - b'.nodes))
    && Shallow(c, Levels(depth))
  }

  lemma {:induction false} CopyIsBounded(v: Json, b: Budget, depth: nat, env: Env)
    requires b.chars >= 0
    ensures var (c, b') := CopyOf(v, b, depth, env); Bounded(c, b, b', depth)
    decreases Positive(b.nodes), 0
  {
    if b.nodes > 0 && depth <= MAX_DEPTH {
      var b1 := b.(nodes := b.nodes - 1);
      match v {
        case Dict(fields) => DictIsBounded(fields, b1, depth, env);
        case List(items) => ListIsBounded(items, b1, depth, env);
        case Str(text) => TextIsBounded(text, b1, depth, env);
        case _ =>
      }
    }
  }

  /** The entries gained at most so much text and so many nodes, and no depth. */
  predicate Grown(done: seq<Entry>, entries: seq<Entry>, text: int, nodes: int, depth: nat) {
    && CopiedEntries(entries) <= CopiedEntries(done) + text
    && NodesOfEntries(entries) <= NodesOfEntries(done) + nodes
    && Shallow(DictCopy(entries), Levels(depth))
  }

  lemma PutGrows(done: seq<Entry>, key: string, copied: bool, value: Copy, depth: nat)
    requires depth <= MAX_DEPTH && Shallow(DictCopy(done), Levels(depth)) && Shallow(value, Levels(depth + 1))
    ensures Grown(done, Put(done, key, copied, value), (if copied then |key| else 0) + Copied(value), Nodes(value), depth)
  {
    PutAddsAtMost(done, key, copied, value);
    PutStaysShallow(done, key, copied, value, Levels(depth) - 1);
  }

  lemma OneEntry(e: Entry)
    ensures CopiedEntries([e]) == CopiedEntry(e) && NodesOfEntries([e]) == Nodes(e.value)
  {
    assert [e][1..] == [];
  }

  lemma {:induction false} DictIsBounded(fields: seq<Field>, b: Budget, depth: nat, env: Env)
    requires b.chars >= 0 && b.nodes >= 0 && depth <= MAX_DEPTH
    ensures var (entries, b', count) := CopyFields(fields, 0, [], b, depth, env);
      && Bounded(DictOf(entries, true), b.(nodes := b.nodes + 1), b', depth)
      && Bounded(DictOf(entries, false), b.(nodes := b.nodes + 1), b', depth)
    decreases Positive(b.nodes), 3 + |fields|
  {
    FieldsAreBounded(fields, 0, [], b, depth, env);
    var (entries, b', count) := CopyFields(fields, 0, [], b, depth, env);
    PutGrows(entries, "[additional fields omitted]", false, Scalar(Bool(true)), depth);
  }

  lemma OneMoreItem(items: seq<Copy>, c: Copy)
    ensures CopiedItems(items + [c]) == CopiedItems(items) + Copied(c)
    ensures NodesOfItems(items + [c]) == NodesOfItems(items) + Nodes(c)
  {
    assert (items + [c])[..|items|] == items;
  }

  lemma {:induction false} ListIsBounded(items: seq<Json>, b: Budget, depth: nat, env: Env)
    requires b.chars >= 0 && b.nodes >= 0 && depth <= MAX_DEPTH
    ensures var (copies, b') := CopyItems(items, 0, [], b, depth, env);
      && Bounded(ListOf(copies, true), b.(nodes := b.nodes + 1), b', depth)
      && Bounded(ListOf(copies, false), b.(nodes := b.nodes + 1), b', depth)
    decreases Positive(b.nodes), 3 + |items|
  {
    ItemsAreBounded(items, 0, [], b, depth, env);
    var copies := CopyItems(items, 0, [], b, depth, env).0;
    OneMoreItem(copies, Omitted(MoreItems));
  }

  lemma {:induction false} TextIsBounded(text: string, b: Budget, depth: nat, env: Env)
    requires b.chars >= 0 && b.nodes >= 0 && depth <= MAX_DEPTH
    ensures var (c, b') := CopyText(text, b, depth, env); Bounded(c, b.(nodes := b.nodes + 1), b', depth)
    decreases Positive(b.nodes), 1
  {
    if |text| <= MAX_TEXT && |text| <= b.chars && env.jsonLike(text) {
      var decoded := env.decode(text);
      if decoded.Some? && Nested(decoded.value, env) {
        CopyIsBounded(decoded.value, b.(chars := b.chars - |text|), depth + 1, env);
        var inner := CopyOf(decoded.value, b.(chars := b.chars - |text|), depth + 1, env).0;
        OneEntry(Entry("[decoded JSON]", false, inner));
      }
    }
  }

  lemma {:induction false} ItemsAreBounded(items: seq<Json>, from: nat, done: seq<Copy>, b: Budget, depth: nat, env: Env)
    requires from == |done| <= |items| && b.chars >= 0 && depth <= MAX_DEPTH
    requires Shallow(ListCopy(done), Levels(depth))
    ensures var (copies, b') := CopyItems(items, from, done, b, depth, env);
      && 0 <= b'.chars && CopiedItems(copies) + b'.chars <= CopiedItems(done) + b.chars
      && NodesOfItems(copies) <= NodesOfItems(done) + 34 * (b.nodes - b'.nodes)
      && Shallow(ListCopy(copies), Levels(depth))
    decreases Positive(b.nodes), 2 + |items| - from
  {
    if from != |items| && from != MAX_ITEMS && b.nodes > 0 {
      var (c, b') := CopyOf(items[from], b, depth + 1, env);
      CopyIsBounded(items[from], b, depth + 1, env);
      OneMoreItem(done, c);
      ItemsAreBounded(items, from + 1, done + [c], b', depth, env);
    }
  }

  lemma {:induction false} FieldsAreBounded(fields: seq<Field>, count: nat, done: seq<Entry>, b: Budget,
                                            depth: nat, env: Env)
    requires count <= |fields| && count <= MAX_ITEMS && b.chars >= 0 && depth <= MAX_DEPTH
    requires Shallow(DictCopy(done), Levels(depth))
    ensures var (entries, b', seen) := CopyFields(fields, count, done, b, depth, env);
      && count <= seen <= MAX_ITEMS && 0 <= b'.chars
      && Grown(done, entries, b.chars - b'.chars, 34 * (b.nodes - b'.nodes) + (seen - count), depth)
    decreases Positive(b.nodes), 2 + |fields| - count
  {
    if count != |fields| && count != MAX_ITEMS && b.nodes > 0 {
      var Field(key, item) := fields[count];
      if Unsafe(key, b) {
        var omitted, marker := OmittedKey(count + 1), Omitted(UnsafeKey);
        PutGrows(done, omitted, false, marker, depth);
        FieldsAreBounded(fields, count + 1, Put(done, omitted, false, marker), b, depth, env);
      } else {
        FieldIsBounded(fields, count, done, b, depth, env);
      }
    }
  }

  lemma {:induction false} FieldIsBounded(fields: seq<Field>, count: nat, done: seq<Entry>, b: Budget,
                                          depth: nat, env: Env)
    requires count < |fields| && count < MAX_ITEMS && b.chars >= 0 && b.nodes > 0 && depth <= MAX_DEPTH
    requires Shallow(DictCopy(done), Levels(depth)) && !Unsafe(fields[count].key, b)
    ensures var (entries, b', seen) := CopyFields(fields, count, done, b, depth, env);
      && count <= seen <= MAX_ITEMS && 0 <= b'.chars
      && Grown(done, entries, b.chars - b'.chars, 34 * (b.nodes - b'.nodes) + (seen - count), depth)
    decreases Positive(b.nodes), 1 + |fields| - count
  {
    var Field(key, item) := fields[count];
    var charged := b.(chars := b.chars - |key.text|);
    var (c, b') := CopyOf(item, charged, depth + 1, env);
    CopyIsBounded(item, charged, depth + 1, env);
    PutGrows(done, key.text, true, c, depth);
    FieldsAreBounded(fields, count + 1, Put(done, key.text, true, c), b', depth, env);
  }

  /** The budgets the investigation context starts with. */
  const START := Budget(256, 8192)

  /** Whatever the ticket holds, JSON inside JSON included: the text taken from it, the nodes and
      the nesting of the copy are bounded by constants. */
  lemma ContextIsBounded(v: Json, env: Env)
    ensures var (c, b') := CopyOf(v, START, 0, env);
      && Copied(c) + b'.chars <= 8192 && Nodes(c) <= 34 * (256 - b'.nodes) <= 8704 && Shallow(c, 7)
  {
    CopyIsBounded(v, START, 0, env);
  }

  // ---------- What fits is copied whole ----------

  function Size(v: Json): nat {
    match v
    case Dict(fields) => 1 + SizeOfFields(fields)
    case List(items) => 1 + SizeOfItems(items)
    case _ => 1
  }

  function SizeOfItems(items: seq<Json>): nat {
    if items == [] then 0 else Size(items[0]) + SizeOfItems(items[1..])
  }

  function SizeOfFields(fields: seq<Field>): nat {
    if fields == [] then 0 else SizeOfField(fields[0]) + SizeOfFields(fields[1..])
  }

  function SizeOfField(f: Field): nat { Size(f.value) }

  function TextIn(v: Json): nat {
    match v
    case Dict(fields) => TextInFields(fields)
    case List(items) => TextInItems(items)
    case Str(text) => |text|
    case _ => 0
  }

  function TextInItems(items: seq<Json>): nat {
    if items == [] then 0 else TextIn(items[0]) + TextInItems(items[1..])
  }

  function TextInFields(fields: seq<Field>): nat {
    if fields == [] then 0 else TextInField(fields[0]) + TextInFields(fields[1..])
  }

  function TextInField(f: Field): nat { (if f.key.StringKey? then |f.key.text| else 0) + TextIn(f.value) }

  predicate DistinctKeys(fields: seq<Field>) {
    forall i, j :: 0 <= i < j < |fields| ==> fields[i].key != fields[j].key
  }

  /** Nothing in the value is refused for its own sake, and it lies within the allowed depth. */
  predicate Plain(v: Json, depth: nat, env: Env) {
    && depth <= MAX_DEPTH
    && match v
       case Dict(fields) =>
         && |fields| <= MAX_ITEMS && DistinctKeys(fields)
         && forall i :: 0 <= i < |fields| ==> PlainField(fields[i], depth + 1, env)
       case List(items) => |items| <= MAX_ITEMS && forall i :: 0 <= i < |items| ==> Plain(items[i], depth + 1, env)
       case Str(text) => |text| <= MAX_TEXT && !env.jsonLike(text) && !env.sensitive(text)
       case Int(n) => -MAX_INT < n < MAX_INT
       case Float(finite, _) => finite
       case Null => true
       case Bool(_) => true
       case Unsupported => false
  }

  predicate PlainField(f: Field, depth: nat, env: Env) {
    f.key.StringKey? && |f.key.text| <= MAX_KEY && Plain(f.value, depth, env)
  }

  function Whole(v: Json): Copy {
    match v
    case Dict(fields) => DictCopy(WholeFields(fields))
    case List(items) => ListCopy(WholeItems(items))
    case Str(text) => Text(text)
    case _ => Scalar(v)
  }

  function WholeItems(items: seq<Json>): seq<Copy> {
    if items == [] then [] else [Whole(items[0])] + WholeItems(items[1..])
  }

  function WholeFields(fields: seq<Field>): seq<Entry> {
    if fields == [] then [] else [WholeField(fields[0])] + WholeFields(fields[1..])
  }

  function WholeField(f: Field): Entry {
    Entry(if f.key.StringKey? then f.key.text else "", true, Whole(f.value))
  }

  function Spent(b: Budget, nodes: nat, chars: nat): Budget { Budget(b.nodes - nodes, b.chars - chars) }

  /** The partner of the bounds: a value that is plain and fits the budgets is copied unchanged,
      and pays exactly for its nodes and its text. */
  lemma {:induction false} WhatFitsIsCopiedWhole(v: Json, b: Budget, depth: nat, env: Env)
    requires Plain(v, depth, env) && Size(v) < b.nodes && TextIn(v) <= b.chars
    ensures CopyOf(v, b, depth, env) == (Whole(v), Spent(b, Size(v), TextIn(v)))
    decreases v, 0
  {
    var b1 := b.(nodes := b.nodes - 1);
    match v {
      case Dict(fields) => AllFieldsAreCopiedWhole(fields, b1, depth, env);
      case List(items) => AllItemsAreCopiedWhole(items, b1, depth, env);
      case _ =>
    }
  }

  lemma FirstItem(items: seq<Json>, from: nat)
    requires from < |items|
    ensures SizeOfItems(items[from..]) == Size(items[from]) + SizeOfItems(items[from + 1..])
    ensures TextInItems(items[from..]) == TextIn(items[from]) + TextInItems(items[from + 1..])
    ensures WholeItems(items[from..]) == [Whole(items[from])] + WholeItems(items[from + 1..])
  {
    assert items[from..][1..] == items[from + 1..];
  }

  lemma {:induction false} ItemsAreCopiedWhole(items: seq<Json>, from: nat, done: seq<Copy>, b: Budget, depth: nat, env: Env)
    requires from == |done| <= |items| <= MAX_ITEMS
    requires forall i :: 0 <= i < |items| ==> Plain(items[i], depth + 1, env)
    requires SizeOfItems(items[from..]) < b.nodes && TextInItems(items[from..]) <= b.chars
    ensures CopyItems(items, from, done, b, depth, env) ==
            (done + WholeItems(items[from..]), Spent(b, SizeOfItems(items[from..]), TextInItems(items[from..])))
    decreases items, 1, |items| - from
  {
    if from == |items| {
      assert done + WholeItems([]) == done;
    } else {
      var item, rest := items[from], WholeItems(items[from + 1..]);
      assert Plain(item, depth + 1, env);
      FirstItem(items, from);
      WhatFitsIsCopiedWhole(item, b, depth + 1, env);
      ItemsAreCopiedWhole(items, from + 1, done + [Whole(item)], Spent(b, Size(item), TextIn(item)), depth, env);
      assert done + [Whole(item)] + rest == done + ([Whole(item)] + rest);
    }
  }

  lemma {:induction false} AsManyItems(items: seq<Json>)
    ensures |WholeItems(items)| == |items|
  {
    if items != [] {
      AsManyItems(items[1..]);
    }
  }

  lemma {:induction false} AllItemsAreCopiedWhole(items: seq<Json>, b: Budget, depth: nat, env: Env)
    requires |items| <= MAX_ITEMS
    requires forall i :: 0 <= i < |items| ==> Plain(items[i], depth + 1, env)
    requires SizeOfItems(items) < b.nodes && TextInItems(items) <= b.chars
    ensures CopyItems(items, 0, [], b, depth, env) ==
            (WholeItems(items), Spent(b, SizeOfItems(items), TextInItems(items)))
    ensures |WholeItems(items)| == |items|
    decreases items, 2
  {
    assert items[0..] == items && [] + WholeItems(items) == WholeItems(items);
    ItemsAreCopiedWhole(items, 0, [], b, depth, env);
    AsManyItems(items);
  }

  lemma {:induction false} PutAppends(entries: seq<Entry>, key: string, copied: bool, value: Copy)
    requires forall i :: 0 <= i < |entries| ==> entries[i].key != key
    ensures Put(entries, key, copied, value) == entries + [Entry(key, copied, value)]
  {
    if entries != [] {
      PutAppends(entries[1..], key, copied, value);
    }
  }

  lemma {:induction false} FieldIsCopiedWhole(f: Field, fields: seq<Field>, from: nat, done: seq<Entry>, b: Budget,
                                              depth: nat, env: Env)
    requires from < |fields| && from < MAX_ITEMS && f == fields[from] && PlainField(f, depth + 1, env)
    requires SizeOfField(f) < b.nodes && TextInField(f) <= b.chars
    requires forall i :: 0 <= i < |done| ==> done[i].key != f.key.text
    ensures CopyFields(fields, from, done, b, depth, env) ==
            CopyFields(fields, from + 1, done + [WholeField(f)], Spent(b, SizeOfField(f), TextInField(f)), depth, env)
    decreases f, 0
  {
    WhatFitsIsCopiedWhole(f.value, Spent(b, 0, |f.key.text|), depth + 1, env);
    PutAppends(done, f.key.text, true, Whole(f.value));
  }

  /** None of the keys still to come is taken yet. */
  predicate FreeKeys(done: seq<Entry>, fields: seq<Field>, from: nat) {
    forall i, j :: 0 <= i < |done| && from <= j < |fields| && fields[j].key.StringKey? ==>
      done[i].key != fields[j].key.text
  }

  lemma FreeKeysStay(done: seq<Entry>, fields: seq<Field>, from: nat)
    requires from < |fields| && FreeKeys(done, fields, from) && DistinctKeys(fields) && fields[from].key.StringKey?
    ensures FreeKeys(done + [WholeField(fields[from])], fields, from + 1)
  {
  }

  lemma FirstField(fields: seq<Field>, from: nat)
    requires from < |fields|
    ensures SizeOfFields(fields[from..]) == SizeOfField(fields[from]) + SizeOfFields(fields[from + 1..])
    ensures TextInFields(fields[from..]) == TextInField(fields[from]) + TextInFields(fields[from + 1..])
    ensures WholeFields(fields[from..]) == [WholeField(fields[from])] + WholeFields(fields[from + 1..])
  {
    assert fields[from..][1..] == fields[from + 1..];
  }

  lemma {:induction false} FieldsAreCopiedWhole(fields: seq<Field>, from: nat, done: seq<Entry>, b: Budget,
                                               depth: nat, env: Env)
    requires from <= |fields| <= MAX_ITEMS && DistinctKeys(fields) && FreeKeys(done, fields, from)
    requires forall i :: 0 <= i < |fields| ==> PlainField(fields[i], depth + 1, env)
    requires SizeOfFields(fields[from..]) < b.nodes && TextInFields(fields[from..]) <= b.chars
    ensures CopyFields(fields, from, done, b, depth, env) ==
            (done + WholeFields(fields[from..]),
             Spent(b, SizeOfFields(fields[from..]), TextInFields(fields[from..])), |fields|)
    decreases fields, 1, |fields| - from
  {
    if from == |fields| {
      assert done + WholeFields([]) == done;
    } else {
      var f := fields[from];
      var paid := Spent(b, SizeOfField(f), TextInField(f));
      var done', rest := done + [WholeField(f)], WholeFields(fields[from + 1..]);
      FirstField(fields, from);
      assert CopyFields(fields, from, done, b, depth, env) == CopyFields(fields, from + 1, done', paid, depth, env) by {
        assert PlainField(f, depth + 1, env);
        FieldIsCopiedWhole(f, fields, from, done, b, depth, env);
      }
      assert CopyFields(fields, from + 1, done', paid, depth, env).0 == done' + rest
        && CopyFields(fields, from + 1, done', paid, depth, env).1 ==
           Spent(paid, SizeOfFields(fields[from + 1..]), TextInFields(fields[from + 1..]))
        && CopyFields(fields, from + 1, done', paid, depth, env).2 == |fields| by {
        FreeKeysStay(done, fields, from);
        FieldsAreCopiedWhole(fields, from + 1, done', paid, depth, env);
      }
      assert done' + rest == done + ([WholeField(f)] + rest);
    }
  }

  lemma {:induction false} AllFieldsAreCopiedWhole(fields: seq<Field>, b: Budget, depth: nat, env: Env)
    requires |fields| <= MAX_ITEMS && DistinctKeys(fields)
    requires forall i :: 0 <= i < |fields| ==> PlainField(fields[i], depth + 1, env)
    requires SizeOfFields(fields) < b.nodes && TextInFields(fields) <= b.chars
    ensures CopyFields(fields, 0, [], b, depth, env) ==
            (WholeFields(fields), Spent(b, SizeOfFields(fields), TextInFields(fields)), |fields|)
    decreases fields, 2
  {
    assert fields[0..] == fields && [] + WholeFields(fields) == WholeFields(fields);
    FieldsAreCopiedWhole(fields, 0, [], b, depth, env);
  }

  // ---------- The shared, mutable budget ----------

  function Current(budget: array<int>): Budget
    requires budget.Length == 2
    reads budget
  {
    Budget(budget[0], budget[1])
  }

  method BoundInvestigationValue(v: Json, budget: array<int>, depth: nat, env: Env) returns (r: Copy)
    requires budget.Length == 2
    modifies budget
    ensures (r, Current(budget)) == old(CopyOf(v, Current(budget), depth, env))
    decreases Positive(budget[0]), 0
  {
    if budget[0] <= 0 {
      return Omitted(NodeLimit);
    }
    budget[0] := budget[0] - 1;
    if depth > MAX_DEPTH {
      return Omitted(DepthLimit);
    }
    match v {
      case Dict(fields) => r := BoundFields(fields, budget, depth, env);
      case List(items) => r := BoundItems(items, budget, depth, env);
      case Str(text) => r := BoundText(text, budget, depth, env);
      case Null => r := Scalar(v);
      case Bool(_) => r := Scalar(v);
      case Int(n) => r := if -MAX_INT < n < MAX_INT then Scalar(v) else Omitted(OversizedNumber);
      case Float(finite, _) => r := if finite then Scalar(v) else Omitted(InvalidNumber);
      case Unsupported => r := Omitted(UnsupportedValue);
    }
  }

  method BoundItems(items: seq<Json>, budget: array<int>, depth: nat, env: Env) returns (r: Copy)
    requires budget.Length == 2 && budget[0] >= 0
    modifies budget
    ensures var (copies, b') := old(CopyItems(items, 0, [], Current(budget), depth, env));
      r == ListOf(copies, |items| > |copies|) && Current(budget) == b'
    decreases Positive(budget[0]), 3 + |items|
  {
    ghost var start := Current(budget);
    var copies: seq<Copy> := [];
    while |copies| < |items| && |copies| < MAX_ITEMS && budget[0] > 0
      invariant |copies| <= |items| && |copies| <= MAX_ITEMS && 0 <= budget[0] <= start.nodes
      invariant CopyItems(items, |copies|, copies, Current(budget), depth, env) ==
                CopyItems(items, 0, [], start, depth, env)
      decreases |items| - |copies|
    {
      var c := BoundInvestigationValue(items[|copies|], budget, depth + 1, env);
      copies := copies + [c];
    }
    r := ListOf(copies, |items| > |copies|);
  }

  method BoundFields(fields: seq<Field>, budget: array<int>, depth: nat, env: Env) returns (r: Copy)
    requires budget.Length == 2 && budget[0] >= 0
    modifies budget
    ensures var (entries, b', count) := old(CopyFields(fields, 0, [], Current(budget), depth, env));
      r == DictOf(entries, |fields| > count || b'.nodes <= 0) && Current(budget) == b'
    decreases Positive(budget[0]), 3 + |fields|
  {
    ghost var start := Current(budget);
    var entries: seq<Entry> := [];
    var count := 0;
    while count < |fields| && count < MAX_ITEMS
      invariant count <= |fields| && count <= MAX_ITEMS && 0 <= budget[0] <= start.nodes
      invariant CopyFields(fields, count, entries, Current(budget), depth, env) ==
                CopyFields(fields, 0, [], start, depth, env)
    {
      if budget[0] <= 0 {
        count := count + 1;
        break;
      }
      entries := BoundField(fields, count, entries, budget, depth, env);
      count := count + 1;
    }
    r := DictOf(entries, |fields| > count || budget[0] <= 0);
  }

  method BoundField(fields: seq<Field>, count: nat, done: seq<Entry>, budget: array<int>, depth: nat, env: Env)
    returns (entries: seq<Entry>)
    requires budget.Length == 2 && budget[0] > 0 && count < |fields| && count < MAX_ITEMS
    modifies budget
    ensures CopyFields(fields, count + 1, entries, Current(budget), depth, env) ==
            old(CopyFields(fields, count, done, Current(budget), depth, env))
    ensures 0 <= budget[0] <= old(budget[0])
    decreases Positive(budget[0]), 1
  {
    var Field(key, item) := fields[count];
    if Unsafe(key, Current(budget)) {
      return Put(done, OmittedKey(count + 1), false, Omitted(UnsafeKey));
    }
    budget[1] := budget[1] - |key.text|;
    var c := BoundInvestigationValue(item, budget, depth + 1, env);
    return Put(done, key.text, true, c);
  }

  method BoundText(text: string, budget: array<int>, depth: nat, env: Env) returns (r: Copy)
    requires budget.Length == 2 && budget[0] >= 0
    modifies budget
    ensures (r, Current(budget)) == old(CopyText(text, Current(budget), depth, env))
    decreases Positive(budget[0]), 1
  {
    if |text| > MAX_TEXT || |text| > budget[1] {
      return Omitted(OversizedValue);
    }
    budget[1] := budget[1] - |text|;
    if env.jsonLike(text) {
      var decoded := env.decode(text);
      if decoded.None? {
        if env.sensitive(text) {
          return Omitted(SensitiveJsonLike);
        }
        if env.structured(text) {
          return Omitted(MalformedJsonLike);
        }
        return Text(text);
      }
      if Nested(decoded.value, env) {
        var inner := BoundInvestigationValue(decoded.value, budget, depth + 1, env);
        return DictCopy([Entry("[decoded JSON]", false, inner)]);
      }
      if decoded.value.Str? && env.sensitive(decoded.value.text) {
        return Omitted(SensitiveValue);
      }
    }
    if env.sensitive(text) {
      return Omitted(SensitiveValue);
    }
    return Text(text);
  }
}
