/**
The parser of the rule table that ethtool prints: filter markers anchor blocks of lines, and every
line of a block is kept as evidence, also when it makes no sense.
*/
module FlowParse {
  import opened Wrappers
  import Decimal

  datatype Labelled = Labelled(caption: string, value: string)

  datatype ParsedField = ParsedField(value: string, mask: Option<string>, caption: string)

  /** A line by its first colon. `title` is the lower-case caption, `name` the field it stands for,
      or `raw:` and the title. */
  datatype Lexed =
    | Blank
    | NoCaption
    | FlowTypeLine(flowType: Labelled)
    | ActionLine(action: Labelled)
    | FieldLine(name: string, title: string, destMac: bool, field: ParsedField)

  datatype Missing =
    | FlowTypeValue | ActionValue | ValueFor(caption: string) | MaskFor(caption: string) | FlowType | Action

  const DST_MAC := "dst_mac"
  const DST_MAC_EXT := "dst_mac_ext"

  /** The lexing of a text into lines and of a line, and whether a flow type is plain Ethernet. */
  datatype Env = Env(
    lines: string -> seq<string>,
    isBlank: string -> bool,
    lex: string -> Lexed,
    isEther: string -> bool)

  function DuplicateKey(title: string, number: nat): string {
    "raw:duplicate:" + title + ":" + Decimal.Digits(number)
  }

  lemma DuplicateKeysDiffer(title: string, a: nat, b: nat)
    requires DuplicateKey(title, a) == DuplicateKey(title, b)
    ensures a == b
  {
    var prefix := "raw:duplicate:" + title + ":";
    assert Decimal.Digits(a) == DuplicateKey(title, a)[|prefix|..];
    assert Decimal.Digits(b) == DuplicateKey(title, b)[|prefix|..];
    Decimal.DigitsDiffer(a, b);
  }

  function DuplicateKeys(title: string, n: nat): set<string>
    requires n >= 2
  {
    if n == 2 then {} else DuplicateKeys(title, n - 1) + {DuplicateKey(title, n - 1)}
  }

  lemma {:induction false} NotYetAmong(title: string, n: nat, k: nat)
    requires 2 <= n <= k
    ensures DuplicateKey(title, k) !in DuplicateKeys(title, n)
  {
    if n > 2 {
      NotYetAmong(title, n - 1, k);
      if DuplicateKey(title, k) == DuplicateKey(title, n - 1) {
        DuplicateKeysDiffer(title, k, n - 1);
      }
    }
  }

  lemma {:induction false} AsManyKeysAsNumbers(title: string, n: nat)
    requires n >= 2
    ensures |DuplicateKeys(title, n)| == n - 2
  {
    if n > 2 {
      AsManyKeysAsNumbers(title, n - 1);
      NotYetAmong(title, n - 1, n - 1);
    }
  }

  lemma {:induction false} SmallerSet(a: set<string>, b: set<string>)
    requires a <= b
    ensures |a| <= |b|
  {
    if a != {} {
      var x :| x in a;
      SmallerSet(a - {x}, b - {x});
    }
  }

  lemma {:induction false} TriedKeys(title: string, n: nat, k: nat)
    requires 2 <= k < n
    ensures DuplicateKey(title, k) in DuplicateKeys(title, n)
  {
    if k < n - 1 {
      TriedKeys(title, n - 1, k);
    }
  }

  /** As many numbers can have been tried as the map has keys. */
  lemma TriesFit(title: string, n: nat, keys: set<string>)
    requires n >= 2 && DuplicateKeys(title, n) <= keys
    ensures n - 2 <= |keys|
  {
    AsManyKeysAsNumbers(title, n);
    SmallerSet(DuplicateKeys(title, n), keys);
  }

  /** The search for an unused key ends, with the first number that is free. */
  method UnusedKey(title: string, used: set<string>) returns (key: string, ghost number: nat)
    ensures number >= 2 && key == DuplicateKey(title, number) && key !in used
    ensures DuplicateKeys(title, number) <= used
  {
    var n: nat := 2;
    TriesFit(title, n, used);
    while DuplicateKey(title, n) in used
      invariant n >= 2 && DuplicateKeys(title, n) <= used && n - 2 <= |used|
      decreases |used| + 2 - n
    {
      n := n + 1;
      TriesFit(title, n, used);
    }
    key, number := DuplicateKey(title, n), n;
  }

  // ---------- One rule ----------

  datatype Deferred = Deferred(title: string, field: ParsedField, raw: string)

  /** A rule as it is built up from the lines of its block. */
  datatype Draft = Draft(
    flowType: Option<Labelled>,
    fields: map<string, ParsedField>,
    action: Option<Labelled>,
    unparsed: seq<string>,
    missing: seq<Missing>,
    duplicates: seq<string>,
    deferred: seq<Deferred>)

  const EMPTY := Draft(None, map[], None, [], [], [], [])

  /** What a draft holds is never taken out or overwritten again. */
  ghost predicate Keeps(d: Draft, d': Draft) {
    && (d.flowType.Some? ==> d'.flowType == d.flowType)
    && (d.action.Some? ==> d'.action == d.action)
    && (forall key :: key in d.fields ==> key in d'.fields && d'.fields[key] == d.fields[key])
    && d.unparsed <= d'.unparsed && d.missing <= d'.missing && d.duplicates <= d'.duplicates
  }

  ghost predicate HeldAsDuplicate(d: Draft, raw: string, title: string, field: ParsedField) {
    raw in d.duplicates
    && exists n: nat :: n >= 2 && DuplicateKey(title, n) in d.fields && d.fields[DuplicateKey(title, n)] == field
  }

  /** Where the evidence of a line is. */
  ghost predicate Represented(d: Draft, raw: string, env: Env) {
    match env.lex(raw)
    case Blank => true
    case NoCaption => raw in d.unparsed
    case FlowTypeLine(head) => d.flowType == Some(head) || raw in d.duplicates || (head.value == [] && FlowTypeValue in d.missing)
    case ActionLine(head) => d.action == Some(head) || raw in d.duplicates || (head.value == [] && ActionValue in d.missing)
    case FieldLine(name, title, _, field) =>
      || (name in d.fields && d.fields[name] == field)
      || HeldAsDuplicate(d, raw, title, field)
      || (DST_MAC_EXT in d.fields && d.fields[DST_MAC_EXT] == field)
      || Deferred(title, field, raw) in d.deferred
  }

  lemma RepresentedStays(d: Draft, d': Draft, raw: string, env: Env)
    requires Keeps(d, d') && Represented(d, raw, env) && d.deferred <= d'.deferred
    ensures Represented(d', raw, env)
  {
    var lexed := env.lex(raw);
    if lexed.FieldLine? && HeldAsDuplicate(d, raw, lexed.title, lexed.field) {
      assert HeldAsDuplicate(d', raw, lexed.title, lexed.field);
    }
  }

  function NonBlank(lines: seq<string>, env: Env): nat {
    if lines == [] then 0
    else NonBlank(lines[..|lines| - 1], env) + if env.lex(lines[|lines| - 1]).Blank? then 0 else 1
  }

  function Unparsed(lines: seq<string>, env: Env): seq<string> {
    if lines == [] then []
    else
      var before, last := Unparsed(lines[..|lines| - 1], env), lines[|lines| - 1];
      if env.lex(last).NoCaption? then before + [last] else before
  }

  function One<T>(o: Option<T>): nat { if o.Some? then 1 else 0 }

  /** The lines a draft holds in places of their own. */
  function Held(d: Draft): nat {
    |d.unparsed| + |d.fields| + |d.deferred| + One(d.flowType) + One(d.action)
  }

  function MissingIn(field: ParsedField): seq<Missing> {
    (if field.value == [] then [ValueFor(field.caption)] else []) +
    (if field.mask.None? then [MaskFor(field.caption)] else [])
  }

  /** The first one that has a value counts. */
  function FirstFlowType(known: Option<Labelled>, lexed: Lexed): Option<Labelled> {
    if known.None? && lexed.FlowTypeLine? && lexed.flowType.value != [] then Some(lexed.flowType) else known
  }

  function FirstAction(known: Option<Labelled>, lexed: Lexed): Option<Labelled> {
    if known.None? && lexed.ActionLine? && lexed.action.value != [] then Some(lexed.action) else known
  }

  function FlowTypeOf(lines: seq<string>, env: Env): Option<Labelled> {
    if lines == [] then None
    else FirstFlowType(FlowTypeOf(lines[..|lines| - 1], env), env.lex(lines[|lines| - 1]))
  }

  function ActionOf(lines: seq<string>, env: Env): Option<Labelled> {
    if lines == [] then None
    else FirstAction(ActionOf(lines[..|lines| - 1], env), env.lex(lines[|lines| - 1]))
  }

  /** What a line lacks, given what was known before it. */
  function MissingOf(flowType: Option<Labelled>, action: Option<Labelled>, lexed: Lexed): seq<Missing> {
    match lexed
    case FlowTypeLine(head) => if flowType.None? && head.value == [] then [FlowTypeValue] else []
    case ActionLine(head) => if action.None? && head.value == [] then [ActionValue] else []
    case FieldLine(_, _, _, field) => MissingIn(field)
    case Blank => []
    case NoCaption => []
  }

  function MissingFrom(lines: seq<string>, env: Env): seq<Missing> {
    if lines == [] then []
    else
      var before := lines[..|lines| - 1];
      MissingFrom(before, env) + MissingOf(FlowTypeOf(before, env), ActionOf(before, env), env.lex(lines[|lines| - 1]))
  }

  /** A second flow type or action, or a field whose name is taken and that is no second
      destination MAC. */
  predicate IsDuplicate(d: Draft, lexed: Lexed) {
    match lexed
    case FlowTypeLine(_) => d.flowType.Some?
    case ActionLine(_) => d.action.Some?
    case FieldLine(name, _, destMac, _) => name in d.fields && !(name == DST_MAC && destMac)
    case Blank => false
    case NoCaption => false
  }

  method StoreDuplicate(d: Draft, title: string, field: ParsedField, raw: string) returns (d': Draft)
    ensures Keeps(d, d') && d'.deferred == d.deferred && Held(d') == Held(d) + 1
    ensures HeldAsDuplicate(d', raw, title, field)
    ensures d'.unparsed == d.unparsed && d'.flowType == d.flowType && d'.action == d.action && d'.missing == d.missing
    ensures d'.duplicates == d.duplicates + [raw]
  {
    var key;
    ghost var n;
    key, n := UnusedKey(title, d.fields.Keys);
    d' := d.(duplicates := d.duplicates + [raw], fields := d.fields[key := field]);
    assert d'.fields[DuplicateKey(title, n)] == field;
  }

  /** A field line gets a key of its own, or waits as a second destination MAC. */
  method TakeField(d: Draft, name: string, title: string, destMac: bool, field: ParsedField, raw: string)
    returns (d': Draft)
    ensures Keeps(d, d') && Held(d') == Held(d) + 1
    ensures d'.flowType == d.flowType && d'.action == d.action && d'.unparsed == d.unparsed
    ensures d'.missing == d.missing + MissingIn(field)
    ensures name == DST_MAC && destMac && name in d.fields ==>
      d'.deferred == d.deferred + [Deferred(title, field, raw)] && d'.duplicates == d.duplicates
    ensures name in d.fields && !(name == DST_MAC && destMac) ==>
      d'.deferred == d.deferred && d'.duplicates == d.duplicates + [raw] && HeldAsDuplicate(d', raw, title, field)
    ensures name !in d.fields ==>
      d'.deferred == d.deferred && d'.duplicates == d.duplicates && d'.fields == d.fields[name := field]
  {
    var noted := d.(missing := d.missing + MissingIn(field));
    if name == DST_MAC && destMac && DST_MAC in d.fields {
      d' := noted.(deferred := d.deferred + [Deferred(title, field, raw)]);
    } else if name in d.fields {
      d' := StoreDuplicate(noted, title, field, raw);
    } else {
      d' := noted.(fields := d.fields[name := field]);
    }
  }

  /** The next line: it finds a place of its own, or it is a flow type or an action that is on
      record as a duplicate or as missing its value. */
  method TakeLine(d: Draft, raw: string, env: Env) returns (d': Draft)
    ensures Keeps(d, d') && d.deferred <= d'.deferred && Represented(d', raw, env)
    ensures d'.unparsed == if env.lex(raw).NoCaption? then d.unparsed + [raw] else d.unparsed
    ensures d'.flowType == FirstFlowType(d.flowType, env.lex(raw)) && d'.action == FirstAction(d.action, env.lex(raw))
    ensures env.lex(raw).FieldLine? && env.lex(raw).name !in d.fields ==>
      d'.fields == d.fields[env.lex(raw).name := env.lex(raw).field]
    ensures d'.missing == d.missing + MissingOf(d.flowType, d.action, env.lex(raw))
    ensures d'.duplicates == if IsDuplicate(d, env.lex(raw)) then d.duplicates + [raw] else d.duplicates
    ensures env.lex(raw).Blank? ==> d' == d
    ensures !env.lex(raw).Blank? ==>
      Held(d') == Held(d) + 1 || (Held(d') == Held(d) && |d'.duplicates| + |d'.missing| > |d.duplicates| + |d.missing|)
  {
    match env.lex(raw) {
      case Blank => d' := d;
      case NoCaption => d' := d.(unparsed := d.unparsed + [raw]);
      case FlowTypeLine(head) =>
        d' := if d.flowType.Some? then d.(duplicates := d.duplicates + [raw])
              else if head.value == [] then d.(missing := d.missing + [FlowTypeValue])
              else d.(flowType := Some(head));
      case ActionLine(head) =>
        d' := if d.action.Some? then d.(duplicates := d.duplicates + [raw])
              else if head.value == [] then d.(missing := d.missing + [ActionValue])
              else d.(action := Some(head));
      case FieldLine(name, title, destMac, field) =>
        d' := TakeField(d, name, title, destMac, field, raw);
    }
  }

  ghost predicate Settled(d: Draft, item: Deferred) {
    || HeldAsDuplicate(d, item.raw, item.title, item.field)
    || (DST_MAC_EXT in d.fields && d.fields[DST_MAC_EXT] == item.field)
  }

  lemma SettledStays(d: Draft, d': Draft, item: Deferred)
    requires Keeps(d, d') && Settled(d, item)
    ensures Settled(d', item)
  {
  }

  ghost predicate AllSettled(d: Draft, items: seq<Deferred>) {
    forall item :: item in items ==> Settled(d, item)
  }

  lemma OneMoreSettled(d: Draft, d': Draft, items: seq<Deferred>, i: nat)
    requires i < |items| && Keeps(d, d') && AllSettled(d, items[..i]) && Settled(d', items[i])
    ensures AllSettled(d', items[..i + 1])
  {
    forall item | item in items[..i + 1]
      ensures Settled(d', item)
    {
      if item in items[..i] {
        SettledStays(d, d', item);
      }
    }
  }

  method StoreAll(d: Draft, items: seq<Deferred>) returns (d': Draft)
    ensures Keeps(d, d') && d'.deferred == d.deferred && Held(d') == Held(d) + |items|
    ensures d'.unparsed == d.unparsed && d'.missing == d.missing && d'.flowType == d.flowType && d'.action == d.action
    ensures AllSettled(d', items)
    ensures |d'.duplicates| == |d.duplicates| + |items|
  {
    d' := d;
    for i := 0 to |items|
      invariant Keeps(d, d') && d'.deferred == d.deferred && Held(d') == Held(d) + i
      invariant d'.unparsed == d.unparsed && d'.missing == d.missing
      invariant d'.flowType == d.flowType && d'.action == d.action
      invariant AllSettled(d', items[..i])
      invariant |d'.duplicates| == |d.duplicates| + i
    {
      ghost var before := d';
      d' := StoreDuplicate(d', items[i].title, items[i].field, items[i].raw);
      OneMoreSettled(before, d', items, i);
    }
    assert items[..|items|] == items;
  }

  /** A second destination MAC is the extended one of an Ethernet rule; any other is a duplicate. */
  method SettleDeferred(d: Draft, env: Env) returns (d': Draft)
    ensures Keeps(d, d') && d'.deferred == [] && Held(d') == Held(d)
    ensures d'.unparsed == d.unparsed && d'.missing == d.missing && d'.flowType == d.flowType && d'.action == d.action
    ensures AllSettled(d', d.deferred)
    ensures |d.deferred| > 1 || (|d.deferred| == 1 && !(d.flowType.Some? && env.isEther(d.flowType.value.value)))
            ==> d'.duplicates != []
  {
    d' := d.(deferred := []);
    var items := d.deferred;
    if items == [] {
      return;
    }
    var flowType := if d.flowType.Some? then d.flowType.value.value else "";
    if d.flowType.Some? && env.isEther(flowType) && DST_MAC_EXT !in d.fields {
      d' := d'.(fields := d.fields[DST_MAC_EXT := items[0].field]);
      items := items[1..];
    }
    d' := StoreAll(d', items);
    forall item | item in d.deferred
      ensures Settled(d', item)
    {
      if item !in items {
        assert item == d.deferred[0];
      }
    }
  }

  datatype Rule = Rule(id: nat, details: Draft, isPartial: bool)

  function Absent(d: Draft): seq<Missing> {
    (if d.flowType.None? then [FlowType] else []) + (if d.action.None? then [Action] else [])
  }

  /** What a parsed rule owes to the lines of its block. */
  ghost predicate Evidences(r: Rule, lines: seq<string>, env: Env) {
    var d := r.details;
    && d.deferred == []
    && (forall i :: 0 <= i < |lines| ==> Represented(d, lines[i], env))
    && d.unparsed == Unparsed(lines, env)
    && d.flowType == FlowTypeOf(lines, env) && d.action == ActionOf(lines, env)
    && d.missing == MissingFrom(lines, env) + Absent(d)
    && (r.isPartial <==> d.unparsed != [] || d.missing != [] || d.duplicates != [])
    && NonBlank(lines, env) <= Held(d) + |d.missing| + |d.duplicates|
    && (!r.isPartial ==> NonBlank(lines, env) == 2 + |d.fields|)
  }

  ghost predicate Draws(d: Draft, lines: seq<string>, env: Env) {
    && (forall i :: 0 <= i < |lines| ==> Represented(d, lines[i], env))
    && d.unparsed == Unparsed(lines, env)
    && d.flowType == FlowTypeOf(lines, env) && d.action == ActionOf(lines, env)
    && d.missing == MissingFrom(lines, env)
    && Held(d) <= NonBlank(lines, env) <= Held(d) + |d.missing| + |d.duplicates|
  }

  lemma DrawsOneMore(d: Draft, d': Draft, lines: seq<string>, raw: string, env: Env)
    requires Draws(d, lines, env) && Keeps(d, d') && d.deferred <= d'.deferred && Represented(d', raw, env)
    requires d'.unparsed == if env.lex(raw).NoCaption? then d.unparsed + [raw] else d.unparsed
    requires d'.flowType == FirstFlowType(d.flowType, env.lex(raw)) && d'.action == FirstAction(d.action, env.lex(raw))
    requires d'.missing == d.missing + MissingOf(d.flowType, d.action, env.lex(raw))
    requires env.lex(raw).Blank? ==> d' == d
    requires !env.lex(raw).Blank? ==>
      Held(d') == Held(d) + 1 || (Held(d') == Held(d) && |d'.duplicates| + |d'.missing| > |d.duplicates| + |d.missing|)
    ensures Draws(d', lines + [raw], env)
  {
    var longer := lines + [raw];
    assert longer[..|longer| - 1] == lines;
    forall i | 0 <= i < |longer|
      ensures Represented(d', longer[i], env)
    {
      if i < |lines| {
        RepresentedStays(d, d', lines[i], env);
      }
    }
  }

  lemma SettlingRepresents(d: Draft, d': Draft, raw: string, env: Env)
    requires Keeps(d, d') && Represented(d, raw, env) && AllSettled(d', d.deferred)
    ensures Represented(d', raw, env)
  {
    var lexed := env.lex(raw);
    if lexed.FieldLine? {
      if Deferred(lexed.title, lexed.field, raw) in d.deferred {
        assert Settled(d', Deferred(lexed.title, lexed.field, raw));
      } else {
        RepresentedStays(d.(deferred := []), d'.(deferred := []), raw, env);
        assert Represented(d'.(deferred := []), raw, env);
      }
    }
  }

  method Conclude(id: nat, ghost drawn: Draft, d: Draft, ghost lines: seq<string>, ghost env: Env) returns (r: Rule)
    requires Draws(drawn, lines, env) && Keeps(drawn, d) && Held(d) == Held(drawn) && d.deferred == []
    requires d.unparsed == drawn.unparsed && d.missing == drawn.missing
    requires d.flowType == drawn.flowType && d.action == drawn.action
    requires forall i :: 0 <= i < |lines| ==> Represented(d, lines[i], env)
    ensures r.id == id && Evidences(r, lines, env)
  {
    var done := d.(missing := d.missing + Absent(d));
    r := Rule(id, done, done.unparsed != [] || done.missing != [] || done.duplicates != []);
    forall i | 0 <= i < |lines|
      ensures Represented(done, lines[i], env)
    {
      RepresentedStays(d, done, lines[i], env);
    }
  }

  /** No line of a block is dropped. */
  method ParseBlock(id: nat, lines: seq<string>, env: Env) returns (r: Rule)
    ensures r.id == id && Evidences(r, lines, env)
  {
    var d := EMPTY;
    for i := 0 to |lines|
      invariant Draws(d, lines[..i], env)
    {
      assert lines[..i + 1] == lines[..i] + [lines[i]];
      ghost var before := d;
      d := TakeLine(d, lines[i], env);
      DrawsOneMore(before, d, lines[..i], lines[i], env);
    }
    assert lines[..|lines|] == lines;
    ghost var drawn := d;
    d := SettleDeferred(d, env);
    forall i | 0 <= i < |lines|
      ensures Represented(d, lines[i], env)
    {
      SettlingRepresents(drawn, d, lines[i], env);
    }
    r := Conclude(id, drawn, d, lines, env);
  }

  // ---------- The table ----------

  /** A marker of the table: its number, and where its match starts and ends. */
  datatype Span = Span(number: nat, start: nat, end: nat)

  /** What the expressions for markers and counts find, well-formed ones and mere beginnings. */
  datatype Scan = Scan(text: string, filters: seq<Span>, filterPrefixes: nat, totals: seq<Span>, totalPrefixes: nat)

  /** Matches of one expression lie in the text, one after the other. */
  predicate InOrder(spans: seq<Span>, length: nat) {
    && (forall i :: 0 <= i < |spans| ==> spans[i].start <= spans[i].end <= length)
    && forall i, j :: 0 <= i < j < |spans| ==> spans[i].end <= spans[j].start
  }

  predicate Scanned(scan: Scan) { InOrder(scan.filters, |scan.text|) && InOrder(scan.totals, |scan.text|) }

  datatype Refusal =
    | MalformedFilter | MalformedCount | SeveralCounts | NoTable | CountMismatch | TrailingOutput
    | CountBetweenFilters | DuplicateId

  datatype Result = Parsed(rules: seq<Rule>) | Refused(why: Refusal)

  predicate CountAfter(scan: Scan, filter: Span) { scan.totals != [] && scan.totals[0].start > filter.start }

  /** A block ends where the next marker starts, or a count that follows the last one, or the text. */
  function BlockEnd(scan: Scan, i: nat): nat
    requires i < |scan.filters|
  {
    if i + 1 < |scan.filters| then scan.filters[i + 1].start
    else if CountAfter(scan, scan.filters[i]) then scan.totals[0].start else |scan.text|
  }

  function Slice(text: string, from: nat, to: nat): string {
    if from <= to <= |text| then text[from..to] else []
  }

  function BlockLines(scan: Scan, i: nat, env: Env): seq<string>
    requires i < |scan.filters|
  {
    env.lines(Slice(scan.text, scan.filters[i].end, BlockEnd(scan, i)))
  }

  predicate DistinctIds(filters: seq<Span>) {
    forall i, j :: 0 <= i < j < |filters| ==> filters[i].number != filters[j].number
  }

  /** Exactly the tables that are accepted. */
  predicate Acceptable(scan: Scan, env: Env) {
    && scan.filterPrefixes == |scan.filters| && scan.totalPrefixes == |scan.totals| <= 1
    && (scan.filters == [] ==>
          scan.totals != [] && scan.totals[0].number == 0
          && env.isBlank(Slice(scan.text, scan.totals[0].end, |scan.text|)))
    && (scan.filters != [] && scan.totals != [] ==>
          && (scan.totals[0].start < scan.filters[0].start || CountAfter(scan, scan.filters[|scan.filters| - 1]))
          && scan.totals[0].number == |scan.filters|)
    && DistinctIds(scan.filters)
  }

  ghost predicate RuleFor(scan: Scan, i: nat, r: Rule, env: Env)
    requires i < |scan.filters|
  {
    r.id == scan.filters[i].number && Evidences(r, BlockLines(scan, i, env), env)
  }

  /** Rule by rule: the marker's id, and the evidence of every line of its block. */
  ghost predicate RulesFor(scan: Scan, rules: seq<Rule>, env: Env)
    requires |rules| <= |scan.filters|
  {
    forall i :: 0 <= i < |rules| ==> RuleFor(scan, i, rules[i], env)
  }

  method ParseNext(scan: Scan, before: seq<Rule>, env: Env) returns (rules: seq<Rule>)
    requires |before| < |scan.filters| && RulesFor(scan, before, env)
    ensures |rules| == |before| + 1 && RulesFor(scan, rules, env)
  {
    var i := |before|;
    var rule := ParseBlock(scan.filters[i].number, BlockLines(scan, i, env), env);
    assert RuleFor(scan, i, rule, env);
    rules := before + [rule];
    forall j | 0 <= j < |rules|
      ensures RuleFor(scan, j, rules[j], env)
    {
      if j < i {
        assert rules[j] == before[j];
      }
    }
  }

  method ParseBlocks(scan: Scan, env: Env) returns (r: Result)
    ensures r.Parsed? <==> DistinctIds(scan.filters)
    ensures r.Parsed? ==> |r.rules| == |scan.filters| && RulesFor(scan, r.rules, env)
  {
    var rules: seq<Rule>, seen: set<nat> := [], {};
    for i := 0 to |scan.filters|
      invariant |rules| == i && DistinctIds(scan.filters[..i])
      invariant forall n :: n in seen <==> exists j :: 0 <= j < i && scan.filters[j].number == n
      invariant RulesFor(scan, rules, env)
    {
      var id := scan.filters[i].number;
      if id in seen {
        return Refused(DuplicateId);
      }
      seen := seen + {id};
      rules := ParseNext(scan, rules, env);
    }
    assert scan.filters[..|scan.filters|] == scan.filters;
    return Parsed(rules);
  }

  method ParseRules(scan: Scan, env: Env) returns (r: Result)
    requires Scanned(scan)
    ensures r.Parsed? <==> Acceptable(scan, env)
    ensures r.Parsed? ==> |r.rules| == |scan.filters| && RulesFor(scan, r.rules, env)
  {
    if scan.filterPrefixes != |scan.filters| {
      return Refused(MalformedFilter);
    }
    if scan.totalPrefixes != |scan.totals| {
      return Refused(MalformedCount);
    }
    if |scan.totals| > 1 {
      return Refused(SeveralCounts);
    }
    if scan.filters == [] {
      if scan.totals == [] {
        return Refused(NoTable);
      }
      if scan.totals[0].number != 0 {
        return Refused(CountMismatch);
      }
      if !env.isBlank(Slice(scan.text, scan.totals[0].end, |scan.text|)) {
        return Refused(TrailingOutput);
      }
      return Parsed([]);
    }
    if scan.totals != [] && !(scan.totals[0].start < scan.filters[0].start)
       && !CountAfter(scan, scan.filters[|scan.filters| - 1]) {
      return Refused(CountBetweenFilters);
    }
    r := ParseBlocks(scan, env);
    if r.Parsed? && scan.totals != [] && scan.totals[0].number != |r.rules| {
      return Refused(CountMismatch);
    }
  }

  /** The blocks cover the text from the first marker on: nothing but markers, and what follows a
      closing count, lies outside of them. */
  lemma BlocksAreContiguous(scan: Scan, i: nat)
    requires Scanned(scan) && i < |scan.filters|
    ensures i + 1 < |scan.filters| ==> scan.filters[i].end <= BlockEnd(scan, i) == scan.filters[i + 1].start
    ensures i + 1 == |scan.filters| && !CountAfter(scan, scan.filters[i]) ==>
              scan.filters[i].end <= BlockEnd(scan, i) == |scan.text|
  {
  }
}
