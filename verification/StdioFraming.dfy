/**
Newline framing of the stdio transport (MCP specification 2025-06-18, chapter "Transports",
section "stdio"): text arrives in chunks of any size, messages are its newline-terminated lines.
*/
module StdioFraming {
  import opened Wrappers

  /** One more character in front of the parts. */
  function Before(c: char, parts: seq<string>): (r: seq<string>)
    requires |parts| > 0
    ensures |r| > 0
  {
    if c == '\n' then [[]] + parts else [[c] + parts[0]] + parts[1..]
  }

  /** A text at its newlines; there is always a last part, possibly empty. */
  function SplitAtNewlines(text: string): (parts: seq<string>)
    ensures |parts| > 0
  {
    if text == [] then [[]] else Before(text[0], SplitAtNewlines(text[1..]))
  }

  /** The newline-terminated lines, and what follows the last newline. */
  function Lines(text: string): seq<string> {
    var parts := SplitAtNewlines(text);
    parts[..|parts| - 1]
  }

  function Remainder(text: string): string {
    var parts := SplitAtNewlines(text);
    parts[|parts| - 1]
  }

  function Concat(chunks: seq<string>): string {
    if chunks == [] then [] else Concat(chunks[..|chunks| - 1]) + chunks[|chunks| - 1]
  }

  /** The text written for a list of payloads. */
  function Written(payloads: seq<string>): string {
    if payloads == [] then [] else payloads[0] + "\n" + Written(payloads[1..])
  }

  predicate NewlineFree(s: string) { forall i :: 0 <= i < |s| ==> s[i] != '\n' }

  /** What the parser keeps of a list of lines, in order. */
  function Kept<M>(lines: seq<string>, parse: string -> Option<M>): seq<M> {
    if lines == [] then []
    else
      var before, last := Kept(lines[..|lines| - 1], parse), parse(lines[|lines| - 1]);
      if last.Some? then before + [last.value] else before
  }

  // ---------- Independence of chunking ----------

  lemma BeforeKeepsTheRest(c: char, front: seq<string>, rest: seq<string>)
    requires |front| > 0
    ensures Before(c, front + rest) == Before(c, front) + rest
  {
    assert (front + rest)[1..] == front[1..] + rest;
  }

  lemma BeforeOne(c: char, last: string, b: string)
    ensures var r := Before(c, [last]);
      Before(c, [] + SplitAtNewlines(last + b)) == r[..|r| - 1] + SplitAtNewlines(r[|r| - 1] + b)
  {
    var rest := SplitAtNewlines(last + b);
    assert [] + rest == rest;
    if c != '\n' {
      assert ([c] + last) + b == [c] + (last + b);
      assert ([c] + (last + b))[1..] == last + b;
    }
  }

  lemma BeforeAll(c: char, parts: seq<string>, b: string)
    requires |parts| > 0
    ensures var n := |parts| - 1; var r := Before(c, parts);
      Before(c, parts[..n] + SplitAtNewlines(parts[n] + b)) ==
      r[..|r| - 1] + SplitAtNewlines(r[|r| - 1] + b)
  {
    var front, last := parts[..|parts| - 1], parts[|parts| - 1];
    var rest := SplitAtNewlines(last + b);
    assert parts == front + [last];
    if front != [] {
      BeforeKeepsTheRest(c, front, [last]);
      BeforeKeepsTheRest(c, front, rest);
    } else {
      BeforeOne(c, last, b);
    }
  }

  lemma {:induction false} SplitAdds(a: string, b: string)
    ensures SplitAtNewlines(a + b) == Lines(a) + SplitAtNewlines(Remainder(a) + b)
  {
    if a == [] {
      assert a + b == b && Remainder(a) + b == b;
    } else {
      assert (a + b)[1..] == a[1..] + b;
      SplitAdds(a[1..], b);
      BeforeAll(a[0], SplitAtNewlines(a[1..]), b);
    }
  }

  lemma ReceivingMore(a: string, b: string)
    ensures Lines(a + b) == Lines(a) + Lines(Remainder(a) + b)
    ensures Remainder(a + b) == Remainder(Remainder(a) + b)
  {
    SplitAdds(a, b);
  }

  lemma {:induction false} KeptAdds<M>(a: seq<string>, b: seq<string>, parse: string -> Option<M>)
    ensures Kept(a + b, parse) == Kept(a, parse) + Kept(b, parse)
  {
    if b == [] {
      assert a + b == a;
    } else {
      assert (a + b)[..|a + b| - 1] == a + b[..|b| - 1];
      KeptAdds(a, b[..|b| - 1], parse);
    }
  }

  function KeptOf<M>(text: string, parse: string -> Option<M>): seq<M> { Kept(Lines(text), parse) }

  lemma OneMoreChunk<M>(chunks: seq<string>, i: nat, parse: string -> Option<M>)
    requires i < |chunks|
    ensures var before := Concat(chunks[..i]); var rest := Remainder(before) + chunks[i];
      && Remainder(Concat(chunks[..i + 1])) == Remainder(rest)
      && KeptOf(Concat(chunks[..i + 1]), parse) == KeptOf(before, parse) + KeptOf(rest, parse)
  {
    var before := Concat(chunks[..i]);
    assert chunks[..i + 1][..i] == chunks[..i];
    ReceivingMore(before, chunks[i]);
    KeptAdds(Lines(before), Lines(Remainder(before) + chunks[i]), parse);
  }

  // ---------- The round trip ----------

  function Newlines(s: string): nat {
    if s == [] then 0 else (if s[0] == '\n' then 1 else 0) + Newlines(s[1..])
  }

  lemma {:induction false} OneLinePerNewline(text: string)
    ensures |Lines(text)| == Newlines(text)
  {
    if text != [] {
      OneLinePerNewline(text[1..]);
    }
  }

  lemma {:induction false} NewlinesAdd(a: string, b: string)
    ensures Newlines(a + b) == Newlines(a) + Newlines(b)
  {
    if a == [] {
      assert a + b == b;
    } else {
      assert (a + b)[1..] == a[1..] + b;
      NewlinesAdd(a[1..], b);
    }
  }

  lemma {:induction false} NoneMeansFree(s: string)
    ensures Newlines(s) == 0 <==> NewlineFree(s)
  {
    if s != [] {
      NoneMeansFree(s[1..]);
      assert forall i :: 1 <= i < |s| ==> s[i] == s[1..][i - 1];
      if NewlineFree(s[1..]) && s[0] != '\n' {
        assert NewlineFree(s);
      }
    }
  }

  lemma {:induction false} WrittenNewlines(payloads: seq<string>)
    ensures Newlines(Written(payloads)) >= |payloads|
    ensures Newlines(Written(payloads)) == |payloads| <==>
            forall i :: 0 <= i < |payloads| ==> NewlineFree(payloads[i])
  {
    if payloads != [] {
      var first, rest := payloads[0], payloads[1..];
      WrittenNewlines(rest);
      NewlinesAdd(first + "\n", Written(rest));
      NewlinesAdd(first, "\n");
      NoneMeansFree(first);
      assert forall i :: 1 <= i < |payloads| ==> payloads[i] == rest[i - 1];
      assert forall i :: 0 <= i < |rest| ==> rest[i] == payloads[i + 1];
    }
  }

  lemma {:induction false} EndsALine(first: string)
    requires NewlineFree(first)
    ensures SplitAtNewlines(first + "\n") == [first, []]
  {
    if first == [] {
      assert [] + "\n" == "\n" && "\n"[1..] == [];
    } else {
      assert (first + "\n")[1..] == first[1..] + "\n";
      EndsALine(first[1..]);
      assert first == [first[0]] + first[1..];
    }
  }

  lemma FirstLineComesBack(first: string, rest: string)
    requires NewlineFree(first)
    ensures Lines(first + "\n" + rest) == [first] + Lines(rest)
    ensures Remainder(first + "\n" + rest) == Remainder(rest)
  {
    EndsALine(first);
    ReceivingMore(first + "\n", rest);
    assert [] + rest == rest;
  }

  lemma {:induction false} FreePayloadsComeBack(payloads: seq<string>)
    requires forall i :: 0 <= i < |payloads| ==> NewlineFree(payloads[i])
    ensures Lines(Written(payloads)) == payloads && Remainder(Written(payloads)) == []
  {
    if payloads != [] {
      FreePayloadsComeBack(payloads[1..]);
      FirstLineComesBack(payloads[0], Written(payloads[1..]));
      assert payloads == [payloads[0]] + payloads[1..];
    }
  }

  /** Writing and reading gives the payloads back if and only if none of them holds a newline. */
  lemma RoundTrip(payloads: seq<string>)
    ensures Lines(Written(payloads)) == payloads <==> forall i :: 0 <= i < |payloads| ==> NewlineFree(payloads[i])
    ensures (forall i :: 0 <= i < |payloads| ==> NewlineFree(payloads[i])) ==> Remainder(Written(payloads)) == []
  {
    WrittenNewlines(payloads);
    OneLinePerNewline(Written(payloads));
    if forall i :: 0 <= i < |payloads| ==> NewlineFree(payloads[i]) {
      FreePayloadsComeBack(payloads);
    }
  }

  // ---------- The two loops ----------

  class StdioClient<M> {
    const parse: string -> Option<M>
    var delivered: seq<M>
    var sent: string

    constructor (parse: string -> Option<M>)
      ensures this.parse == parse && delivered == [] && sent == []
    {
      this.parse, delivered, sent := parse, [], [];
    }

    method DeliverLines(lines: seq<string>)
      modifies this`delivered
      ensures delivered == old(delivered) + Kept(lines, parse)
    {
      for i := 0 to |lines|
        invariant delivered == old(delivered) + Kept(lines[..i], parse)
      {
        assert lines[..i + 1][..i] == lines[..i];
        var parsed := parse(lines[i]);
        if parsed.Some? {
          delivered := delivered + [parsed.value];
        }
      }
      assert lines[..|lines|] == lines;
    }

    method ReceiveChunk(before: string, chunk: string) returns (buffer: string)
      modifies this`delivered
      ensures delivered == old(delivered) + KeptOf(before + chunk, parse)
      ensures buffer == Remainder(before + chunk)
    {
      var lines := SplitAtNewlines(before + chunk);
      DeliverLines(lines[..|lines| - 1]);
      buffer := lines[|lines| - 1];
    }

    /** Whatever the chunks, what is delivered depends on their text alone: the parsed ones among
        its newline-terminated lines. An unterminated rest is never delivered. */
    method StdoutReader(chunks: seq<string>)
      modifies this`delivered
      ensures delivered == old(delivered) + KeptOf(Concat(chunks), parse)
    {
      var buffer := [];
      for i := 0 to |chunks|
        invariant buffer == Remainder(Concat(chunks[..i]))
        invariant delivered == old(delivered) + KeptOf(Concat(chunks[..i]), parse)
      {
        OneMoreChunk(chunks, i, parse);
        buffer := ReceiveChunk(buffer, chunks[i]);
      }
      assert chunks[..|chunks|] == chunks;
    }

    method StdinWriter(payloads: seq<string>)
      modifies this`sent
      ensures sent == old(sent) + Written(payloads)
    {
      for i := 0 to |payloads|
        invariant sent + Written(payloads[i..]) == old(sent) + Written(payloads)
      {
        assert payloads[i..][1..] == payloads[i + 1..];
        assert sent + (payloads[i] + "\n" + Written(payloads[i + 1..])) ==
               sent + payloads[i] + "\n" + Written(payloads[i + 1..]);
        sent := sent + payloads[i] + "\n";
      }
    }
  }
}
