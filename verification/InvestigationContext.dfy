/**
The investigation context as it is placed in a prompt: the redacted copy is rendered as JSON, and
a rendering that is too long is replaced by a note that carries its beginning. The JSON is that
of RFC 8259, section 7, with everything outside printable ASCII escaped.
*/
module InvestigationContext {
  import opened Wrappers

  /** What redaction hands on. A number is known only by the text it is rendered as. */
  datatype Safe =
    | SafeNull
    | SafeBool(b: bool)
    | SafeNumber(text: string)
    | SafeText(text: string)
    | SafeList(items: seq<Safe>)
    | SafeDict(fields: seq<SafeField>)

  datatype SafeField = SafeField(key: string, value: Safe)

  const MAX_CHARS: nat := 6000
  const PREFIX_LENGTH: nat := (MAX_CHARS - 100) / 2

  predicate PrintableChar(c: char) { ' ' <= c <= '~' }

  function HexDigit(d: nat): (c: char)
    requires d < 16
    ensures PrintableChar(c)
  {
    if d < 10 then ('0' as int + d) as char else ('a' as int + d - 10) as char
  }

  predicate Printable(s: string) { forall i :: 0 <= i < |s| ==> PrintableChar(s[i]) }

  function Hex4(n: nat): (s: string)
    requires n < 0x1_0000
    ensures |s| == 4 && Printable(s)
  {
    [HexDigit(n / 0x1000), HexDigit(n / 0x100 % 0x10), HexDigit(n / 0x10 % 0x10), HexDigit(n % 0x10)]
  }

  function Escape(c: char): (s: string)
    ensures Printable(s)
    ensures PrintableChar(c) ==> |s| <= 2
  {
    if c == '"' then "\\\""
    else if c == '\\' then "\\\\"
    else if c == '\n' then "\\n"
    else if c == '\r' then "\\r"
    else if c == '\t' then "\\t"
    else if c == '\U{0C}' then "\\f"
    else if c == '\U{08}' then "\\b"
    else if PrintableChar(c) then [c]
    else if c as int < 0x1_0000 then "\\u" + Hex4(c as int)
    else
      var above := c as int - 0x1_0000;
      "\\u" + Hex4(0xD800 + above / 0x400) + "\\u" + Hex4(0xDC00 + above % 0x400)
  }

  function EscapeAll(s: string): string {
    if s == [] then [] else Escape(s[0]) + EscapeAll(s[1..])
  }

  function Quote(s: string): string { "\"" + EscapeAll(s) + "\"" }

  function Encode(v: Safe): string {
    match v
    case SafeNull => "null"
    case SafeBool(b) => if b then "true" else "false"
    case SafeNumber(text) => text
    case SafeText(text) => Quote(text)
    case SafeList(items) => "[" + EncodeItems(items) + "]"
    case SafeDict(fields) => "{" + EncodeFields(fields) + "}"
  }

  function EncodeItems(items: seq<Safe>): string {
    if items == [] then ""
    else if |items| == 1 then Encode(items[0])
    else Encode(items[0]) + "," + EncodeItems(items[1..])
  }

  function EncodeFields(fields: seq<SafeField>): string {
    if fields == [] then ""
    else if |fields| == 1 then EncodeField(fields[0])
    else EncodeField(fields[0]) + "," + EncodeFields(fields[1..])
  }

  function EncodeField(f: SafeField): string { Quote(f.key) + ":" + Encode(f.value) }

  /** Numbers are rendered in printable characters; nothing is asked of texts and keys. */
  predicate NumbersPrintable(v: Safe) {
    match v
    case SafeNumber(text) => Printable(text)
    case SafeList(items) => forall i :: 0 <= i < |items| ==> NumbersPrintable(items[i])
    case SafeDict(fields) => forall i :: 0 <= i < |fields| ==> FieldPrintable(fields[i])
    case _ => true
  }

  predicate FieldPrintable(f: SafeField) { NumbersPrintable(f.value) }

  function Cut(rendered: string): Safe
    requires |rendered| > MAX_CHARS
  {
    SafeDict([SafeField("truncated", SafeBool(true)), SafeField("json_prefix", SafeText(rendered[..PREFIX_LENGTH]))])
  }

  /** What goes into the prompt. */
  function Body(v: Safe): string {
    var rendered := Encode(v);
    if |rendered| <= MAX_CHARS then rendered else Encode(Cut(rendered))
  }

  // ---------- Only printable ASCII ----------

  lemma {:induction false} EscapesArePrintable(s: string)
    ensures Printable(EscapeAll(s))
  {
    if s != [] {
      EscapesArePrintable(s[1..]);
    }
  }

  lemma {:induction false} EncodingIsPrintable(v: Safe)
    requires NumbersPrintable(v)
    ensures Printable(Encode(v))
    decreases v
  {
    match v {
      case SafeText(text) => EscapesArePrintable(text);
      case SafeList(items) => ItemsArePrintable(items);
      case SafeDict(fields) => FieldsArePrintable(fields);
      case _ =>
    }
  }

  lemma {:induction false} ItemsArePrintable(items: seq<Safe>)
    requires forall i :: 0 <= i < |items| ==> NumbersPrintable(items[i])
    ensures Printable(EncodeItems(items))
    decreases items
  {
    if items != [] {
      EncodingIsPrintable(items[0]);
      ItemsArePrintable(items[1..]);
    }
  }

  lemma {:induction false} FieldIsPrintable(f: SafeField)
    requires FieldPrintable(f)
    ensures Printable(EncodeField(f))
    decreases f
  {
    EscapesArePrintable(f.key);
    EncodingIsPrintable(f.value);
  }

  lemma {:induction false} FieldsArePrintable(fields: seq<SafeField>)
    requires forall i :: 0 <= i < |fields| ==> FieldPrintable(fields[i])
    ensures Printable(EncodeFields(fields))
    decreases fields
  {
    if fields != [] {
      FieldIsPrintable(fields[0]);
      FieldsArePrintable(fields[1..]);
    }
  }

  // ---------- The doubling bound ----------

  lemma {:induction false} EscapingAtMostDoubles(s: string)
    requires Printable(s)
    ensures |s| <= |EscapeAll(s)| <= 2 * |s|
  {
    if s != [] {
      EscapingAtMostDoubles(s[1..]);
    }
  }

  /** The bound is met with equality by a text of quotes, so no larger prefix is safe in general. */
  lemma {:induction false} QuotesDouble(s: string)
    requires forall i :: 0 <= i < |s| ==> s[i] == '"'
    ensures |EscapeAll(s)| == 2 * |s|
  {
    if s != [] {
      QuotesDouble(s[1..]);
    }
  }

  lemma TwoFields(a: SafeField, b: SafeField)
    ensures Encode(SafeDict([a, b])) == "{" + (EncodeField(a) + "," + EncodeField(b)) + "}"
  {
    var fields := [a, b];
    assert fields[1..] == [b];
    assert EncodeFields([b]) == EncodeField(b);
  }

  /** Without quotes, backslashes or control characters. */
  predicate Plain(s: string) {
    forall i :: 0 <= i < |s| ==> PrintableChar(s[i]) && s[i] != '"' && s[i] != '\\'
  }

  /** A text without quotes, backslashes or control characters is its own escape. */
  lemma {:induction false} NothingToEscape(s: string)
    requires Plain(s)
    ensures EscapeAll(s) == s
  {
    if s != [] {
      NothingToEscape(s[1..]);
    }
  }

  lemma FieldLength(key: string, v: Safe)
    ensures |EncodeField(SafeField(key, v))| == |EscapeAll(key)| + 3 + |Encode(v)|
  {
  }

  lemma NoteLength(a: string, flag: Safe, b: string, prefix: Safe)
    ensures |Encode(SafeDict([SafeField(a, flag), SafeField(b, prefix)]))| ==
            |EscapeAll(a)| + |EscapeAll(b)| + |Encode(flag)| + |Encode(prefix)| + 9
  {
    FieldLength(a, flag);
    FieldLength(b, prefix);
    TwoFields(SafeField(a, flag), SafeField(b, prefix));
  }

  lemma ShortNote(a: string, b: string, prefix: string)
    requires Plain(a) && Plain(b) && |a| + |b| <= 80 && Printable(prefix) && |prefix| <= PREFIX_LENGTH
    ensures |Encode(SafeDict([SafeField(a, SafeBool(true)), SafeField(b, SafeText(prefix))]))| <= MAX_CHARS
  {
    NothingToEscape(a);
    NothingToEscape(b);
    EscapingAtMostDoubles(prefix);
    NoteLength(a, SafeBool(true), b, SafeText(prefix));
  }

  lemma CutLength(rendered: string)
    requires |rendered| > MAX_CHARS && Printable(rendered)
    ensures |Encode(Cut(rendered))| <= MAX_CHARS
  {
    ShortNote("truncated", "json_prefix", rendered[..PREFIX_LENGTH]);
  }

  lemma CutIsPrintable(rendered: string)
    requires |rendered| > MAX_CHARS
    ensures Printable(Encode(Cut(rendered)))
  {
    EncodingIsPrintable(Cut(rendered));
  }

  /** For every ticket the body is printable ASCII of at most 6000 characters, and a rendering
      that fits is placed unchanged. */
  lemma BodyFits(v: Safe)
    requires NumbersPrintable(v)
    ensures |Body(v)| <= MAX_CHARS && Printable(Body(v))
    ensures |Encode(v)| <= MAX_CHARS ==> Body(v) == Encode(v)
  {
    EncodingIsPrintable(v);
    if |Encode(v)| > MAX_CHARS {
      CutLength(Encode(v));
      CutIsPrintable(Encode(v));
    }
  }

  // ---------- The prefix survives ----------

  lemma EscapePrintable(c: char)
    requires PrintableChar(c)
    ensures Escape(c) == if c == '"' || c == '\\' then ['\\', c] else [c]
  {
  }

  function Prepended(c: char, rest: Option<string>): Option<string> {
    if rest.Some? then Some([c] + rest.value) else None
  }

  /** Reading a JSON string back, as far as printable texts need it. */
  function Unescape(s: string): Option<string> {
    if s == [] then Some([])
    else if s[0] == '"' then None
    else if s[0] != '\\' then Prepended(s[0], Unescape(s[1..]))
    else if |s| >= 2 && (s[1] == '"' || s[1] == '\\') then Prepended(s[1], Unescape(s[2..]))
    else None
  }

  /** A printable text survives quoting. */
  lemma {:induction false} PrefixSurvives(s: string)
    requires Printable(s)
    ensures Unescape(EscapeAll(s)) == Some(s)
  {
    if s != [] {
      var rest := EscapeAll(s[1..]);
      PrefixSurvives(s[1..]);
      EscapePrintable(s[0]);
      assert ([s[0]] + rest)[1..] == rest && (['\\', s[0]] + rest)[2..] == rest;
      assert s == [s[0]] + s[1..];
    }
  }

  /** What stands before the quoted prefix in a note with these keys. */
  function NoteFront(a: string, b: string): string {
    "{" + (EncodeField(SafeField(a, SafeBool(true))) + "," + (Quote(b) + ":\""))
  }

  /** The prefix that a reader finds in a note. */
  function Carried(a: string, b: string, note: string): Option<string> {
    if |note| < |NoteFront(a, b)| + 2 then None else Unescape(note[|NoteFront(a, b)|..|note| - 2])
  }

  lemma NoteCarries(a: string, b: string, prefix: string)
    requires Printable(prefix)
    ensures var note := Encode(SafeDict([SafeField(a, SafeBool(true)), SafeField(b, SafeText(prefix))]));
      NoteFront(a, b) <= note && Carried(a, b, note) == Some(prefix)
  {
    var note := Encode(SafeDict([SafeField(a, SafeBool(true)), SafeField(b, SafeText(prefix))]));
    TwoFields(SafeField(a, SafeBool(true)), SafeField(b, SafeText(prefix)));
    assert note == NoteFront(a, b) + EscapeAll(prefix) + "\"}";
    PrefixSurvives(prefix);
  }

  /** The keys of the note. */
  ghost predicate NoteKeys(a: string, b: string) {
    a == "truncated" && b == "json_prefix"
  }

  lemma CutCarries(rendered: string, a: string, b: string)
    requires |rendered| > MAX_CHARS && Printable(rendered) && NoteKeys(a, b)
    ensures Carried(a, b, Encode(Cut(rendered))) == Some(rendered[..PREFIX_LENGTH])
  {
    NoteCarries(a, b, rendered[..PREFIX_LENGTH]);
  }

  /** A rendering that is too long leaves a note in its place, and reading the note back gives
      exactly the first 2950 characters of the rendering. */
  lemma LongRenderingIsCarried(v: Safe, a: string, b: string, body: string)
    requires NumbersPrintable(v) && |Encode(v)| > MAX_CHARS && NoteKeys(a, b) && body == Body(v)
    ensures Carried(a, b, body) == Some(Encode(v)[..PREFIX_LENGTH]) && PREFIX_LENGTH == 2950
  {
    EncodingIsPrintable(v);
    CutCarries(Encode(v), a, b);
  }
}
