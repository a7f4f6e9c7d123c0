/**
The transcript an agent keeps with its model: what each kind of response appends, how the old
part is dropped when the context fills up, and how a later run resumes what was saved.
*/
module Transcript {
  import opened Wrappers

  datatype ToolName = RequestClarification | ReplaceControllerHostKey | Submit(what: string) | OtherTool(name: string)

  /** Calls are compared by all their fields, as the source compares them. */
  datatype Call = Call(id: string, name: ToolName, input: string)

  datatype Message =
    | Text                             // from the user or the system
    | Note(dropped: nat, kept: nat)    // what a truncation reports
    | Assistant(calls: seq<Call>)
    | Results(ids: seq<string>)

  predicate FromUser(m: Message) { !m.Assistant? }

  function Ids(calls: seq<Call>): (ids: seq<string>)
    ensures |ids| == |calls| && forall i :: 0 <= i < |calls| ==> ids[i] == calls[i].id
  {
    if calls == [] then [] else Ids(calls[..|calls| - 1]) + [calls[|calls| - 1].id]
  }

  // ---------- Well-formed transcripts ----------

  ghost predicate ResultsFollowTheirCalls(messages: seq<Message>) {
    forall i :: 0 <= i < |messages| && messages[i].Results? ==>
      0 < i && messages[i - 1].Assistant?
      && forall k :: 0 <= k < |messages[i].ids| ==> messages[i].ids[k] in Ids(messages[i - 1].calls)
  }

  /** It starts with the ticket, waits for the model, and every result message directly follows
      the message that issued its calls. */
  ghost predicate WellFormed(messages: seq<Message>) {
    && messages != [] && messages[0].Text?
    && FromUser(messages[|messages| - 1])
    && ResultsFollowTheirCalls(messages)
  }

  predicate AnsweredBy(calls: seq<Call>, m: Message) {
    forall k :: 0 <= k < |calls| ==> m.Results? && calls[k].id in m.ids
  }

  /** No call was left without a result by the message after it. */
  ghost predicate FullyAnswered(messages: seq<Message>) {
    forall i :: 0 < i < |messages| && messages[i - 1].Assistant? ==> AnsweredBy(messages[i - 1].calls, messages[i])
  }

  // ---------- An ordinary turn ----------

  predicate NoDup(s: seq<string>) { forall i, j :: 0 <= i < j < |s| ==> s[i] != s[j] }

  function FirstNamed(calls: seq<Call>, name: ToolName): (r: Option<Call>)
    ensures r.Some? ==> r.value in calls && r.value.name == name
    ensures r.None? <==> forall k :: 0 <= k < |calls| ==> calls[k].name != name
  {
    if calls == [] then None
    else if calls[0].name == name then Some(calls[0]) else FirstNamed(calls[1..], name)
  }

  function FirstSubmit(calls: seq<Call>): (r: Option<Call>)
    ensures r.Some? ==> r.value in calls && r.value.name.Submit?
    ensures r.None? <==> forall k :: 0 <= k < |calls| ==> !calls[k].name.Submit?
  {
    if calls == [] then None
    else if calls[0].name.Submit? then Some(calls[0]) else FirstSubmit(calls[1..])
  }

  /** The call that is run alone: a clarification, or else a host key replacement. */
  function Precedent(calls: seq<Call>): (r: Option<Call>)
    ensures r.Some? ==> r.value in calls
  {
    var clarification := FirstNamed(calls, RequestClarification);
    if clarification.Some? then clarification else FirstNamed(calls, ReplaceControllerHostKey)
  }

  function Except(calls: seq<Call>, run: seq<Call>): (r: seq<Call>)
    ensures forall c :: c in r <==> c in calls && c !in run
  {
    if calls == [] then []
    else
      var before, last := Except(calls[..|calls| - 1], run), calls[|calls| - 1];
      assert calls == calls[..|calls| - 1] + [last];
      if last in run then before else before + [last]
  }

  function ToRun(calls: seq<Call>): seq<Call> {
    var c := Precedent(calls);
    if c.Some? then [c.value] else calls
  }

  /** The results of a turn: the calls that ran, then a note for each call that did not. */
  function Answers(calls: seq<Call>): seq<string> {
    Ids(ToRun(calls) + Except(calls, ToRun(calls)))
  }

  lemma EveryCallAnswered(calls: seq<Call>)
    ensures forall c :: c in calls ==> c.id in Answers(calls)
    ensures forall k :: 0 <= k < |Answers(calls)| ==> Answers(calls)[k] in Ids(calls)
  {
    var answered := ToRun(calls) + Except(calls, ToRun(calls));
    forall c | c in calls
      ensures c.id in Answers(calls)
    {
      assert c in answered;
      var k :| 0 <= k < |answered| && answered[k] == c;
      assert Answers(calls)[k] == c.id;
    }
    forall k | 0 <= k < |answered|
      ensures Answers(calls)[k] in Ids(calls)
    {
      assert answered[k] in calls;
      var j :| 0 <= j < |calls| && calls[j] == answered[k];
      assert Ids(calls)[j] == answered[k].id;
    }
  }

  ghost predicate IdsDiffer(calls: seq<Call>) {
    forall i, j :: 0 <= i < j < |calls| ==> calls[i].id != calls[j].id
  }

  /** Calls share an id only as copies of `c`. */
  ghost predicate SharedOnlyByCopies(calls: seq<Call>, c: Call) {
    forall i, j :: 0 <= i < j < |calls| && calls[i].id == calls[j].id ==> calls[i] == c && calls[j] == c
  }

  /** What a caller would have to check: no two calls share an id, unless they are copies of the
      very call that takes precedence. */
  ghost predicate DistinctCalls(calls: seq<Call>) {
    var p := Precedent(calls);
    if p.Some? then SharedOnlyByCopies(calls, p.value) else IdsDiffer(calls)
  }

  ghost predicate OnceEach(s: seq<string>) { forall x :: x in s ==> multiset(s)[x] == 1 }

  lemma OnceEachGrows(s: seq<string>, last: string)
    requires last !in s
    ensures OnceEach(s + [last]) <==> OnceEach(s)
  {
    assert forall x :: x in s ==> multiset(s + [last])[x] == multiset(s)[x];
    assert last !in multiset(s);
    forall x | OnceEach(s + [last]) && x in s
      ensures multiset(s)[x] == 1
    {
      assert x in s + [last];
    }
  }

  lemma {:induction false} NoDupMeansOnce(s: seq<string>)
    ensures NoDup(s) <==> OnceEach(s)
  {
    if s != [] {
      var shorter, last := s[..|s| - 1], s[|s| - 1];
      assert s == shorter + [last];
      NoDupMeansOnce(shorter);
      if last in shorter {
        assert multiset(s)[last] > 1;
        var i :| 0 <= i < |shorter| && shorter[i] == last;
        assert s[i] == s[|s| - 1];
      } else {
        OnceEachGrows(shorter, last);
      }
    }
  }

  lemma IdsDifferGrows(calls: seq<Call>, last: Call)
    ensures IdsDiffer(calls + [last]) <==> IdsDiffer(calls) && forall c :: c in calls ==> c.id != last.id
  {
    var longer := calls + [last];
    if IdsDiffer(longer) {
      assert forall i :: 0 <= i < |calls| ==> longer[i] == calls[i];
      forall c | c in calls
        ensures c.id != last.id
      {
        var i :| 0 <= i < |calls| && calls[i] == c;
        assert longer[i].id != longer[|calls|].id;
      }
    }
  }

  /** Two calls other than `c` never share an id. */
  ghost predicate OnlySharedBy(calls: seq<Call>, c: Call) {
    forall i, j :: 0 <= i < j < |calls| && calls[i] != c && calls[j] != c ==> calls[i].id != calls[j].id
  }

  lemma OnlySharedGrows(calls: seq<Call>, c: Call, last: Call)
    ensures OnlySharedBy(calls + [last], c) <==>
            OnlySharedBy(calls, c) && (last != c ==> forall x :: x in calls && x != c ==> x.id != last.id)
  {
    var longer := calls + [last];
    assert forall i :: 0 <= i < |calls| ==> longer[i] == calls[i];
    if OnlySharedBy(longer, c) && last != c {
      forall x | x in calls && x != c
        ensures x.id != last.id
      {
        var i :| 0 <= i < |calls| && calls[i] == x;
        assert longer[i].id != longer[|calls|].id;
      }
    }
  }

  /** Leaving one call out of a turn leaves out exactly its copies. */
  lemma {:induction false} LeftoversDiffer(calls: seq<Call>, c: Call)
    ensures IdsDiffer(Except(calls, [c])) <==> OnlySharedBy(calls, c)
  {
    if calls != [] {
      var shorter, last := calls[..|calls| - 1], calls[|calls| - 1];
      assert calls == shorter + [last];
      LeftoversDiffer(shorter, c);
      OnlySharedGrows(shorter, c, last);
      IdsDifferGrows(Except(shorter, [c]), last);
    }
  }

  lemma {:induction false} NothingLeftOver(calls: seq<Call>, run: seq<Call>)
    requires forall c :: c in calls ==> c in run
    ensures Except(calls, run) == []
  {
    if calls != [] {
      assert forall c :: c in calls[..|calls| - 1] ==> c in calls;
      NothingLeftOver(calls[..|calls| - 1], run);
    }
  }

  lemma AloneIfShared(calls: seq<Call>, c: Call)
    requires c in calls && SharedOnlyByCopies(calls, c)
    ensures IdsDiffer([c] + Except(calls, [c]))
  {
    var left := Except(calls, [c]);
    LeftoversDiffer(calls, c);
    var at :| 0 <= at < |calls| && calls[at] == c;
    forall k | 0 <= k < |left|
      ensures left[k].id != c.id
    {
      assert left[k] in left;
      var i :| 0 <= i < |calls| && calls[i] == left[k];
    }
  }

  lemma SharedIfAlone(calls: seq<Call>, c: Call)
    requires IdsDiffer([c] + Except(calls, [c]))
    ensures SharedOnlyByCopies(calls, c)
  {
    var left := Except(calls, [c]);
    var answered := [c] + left;
    assert IdsDiffer(left) by {
      assert forall k :: 0 <= k < |left| ==> left[k] == answered[k + 1];
    }
    LeftoversDiffer(calls, c);
    forall x | x in calls && x != c
      ensures x.id != c.id
    {
      assert x in left;
      var k :| 0 <= k < |left| && left[k] == x;
      assert answered[k + 1].id != answered[0].id;
    }
  }

  lemma AnswersDiffer(calls: seq<Call>)
    ensures IdsDiffer(ToRun(calls) + Except(calls, ToRun(calls))) <==> DistinctCalls(calls)
  {
    var p := Precedent(calls);
    if p.None? {
      NothingLeftOver(calls, calls);
      assert calls + [] == calls;
    } else if SharedOnlyByCopies(calls, p.value) {
      AloneIfShared(calls, p.value);
    } else if IdsDiffer([p.value] + Except(calls, [p.value])) {
      SharedIfAlone(calls, p.value);
    }
  }

  /** A turn answers each distinct call id exactly once if and only if its calls are distinct. */
  lemma EachAnsweredOnce(calls: seq<Call>)
    ensures OnceEach(Answers(calls)) <==> DistinctCalls(calls)
    ensures forall c :: c in calls ==> c.id in Answers(calls)
    ensures forall id :: id in Answers(calls) ==> id in Ids(calls)
  {
    NoDupMeansOnce(Answers(calls));
    EveryCallAnswered(calls);
    AnswersDiffer(calls);
    assert forall k :: 0 <= k < |Answers(calls)| ==>
      Answers(calls)[k] == (ToRun(calls) + Except(calls, ToRun(calls)))[k].id;
  }

  /** Two different calls under one id: it is answered twice. */
  lemma SharedIdAnsweredTwice(id: string, tool: string, first: string, second: string)
    requires first != second
    ensures var calls := [Call(id, OtherTool(tool), first), Call(id, OtherTool(tool), second)];
      !DistinctCalls(calls) && Answers(calls) == [id, id] && !OnceEach(Answers(calls))
  {
    var calls := [Call(id, OtherTool(tool), first), Call(id, OtherTool(tool), second)];
    NothingLeftOver(calls, calls);
    assert calls + [] == calls;
    assert Precedent(calls).None?;
    assert calls[0].id == calls[1].id;
    EachAnsweredOnce(calls);
  }

  /** One exchange: the model's message, its answer, and warnings. */
  lemma ExchangeKeepsOrder(messages: seq<Message>, calls: seq<Call>, answer: Message, trips: nat)
    requires WellFormed(messages) && FromUser(answer)
    requires answer.Results? ==> forall k :: 0 <= k < |answer.ids| ==> answer.ids[k] in Ids(calls)
    ensures WellFormed(messages + ([Assistant(calls), answer] + seq(trips, _ => Text)))
    ensures FullyAnswered(messages + ([Assistant(calls), answer] + seq(trips, _ => Text))) <==>
            FullyAnswered(messages) && AnsweredBy(calls, answer)
  {
    var n := |messages|;
    var longer := messages + ([Assistant(calls), answer] + seq(trips, _ => Text));
    assert forall i :: 0 <= i < n ==> longer[i] == messages[i];
    assert longer[n] == Assistant(calls) && longer[n + 1] == answer;
    assert forall i :: n + 2 <= i < |longer| ==> longer[i] == Text;
    if FullyAnswered(longer) {
      assert AnsweredBy(longer[n].calls, longer[n + 1]);
    }
  }

  // ---------- Dropping the old part ----------

  const KEEP_RECENT: nat := 6

  /** Nothing is cut when the transcript is short or its recent part is all the user's; else what
      precedes the model's first recent message is, and the note counts exactly what was dropped
      and what was kept. */
  ghost predicate IsTruncation(messages: seq<Message>, r: seq<Message>, cut: nat) {
    if |messages| <= KEEP_RECENT + 1 || forall k :: |messages| - KEEP_RECENT <= k < |messages| ==> FromUser(messages[k])
    then cut == 0 && r == messages
    else
      && |messages| - KEEP_RECENT <= cut < |messages| && !FromUser(messages[cut])
      && (forall k :: |messages| - KEEP_RECENT <= k < cut ==> FromUser(messages[k]))
      && r == [messages[0], Note(|messages[1..cut]|, |messages[cut..]|)] + messages[cut..]
  }

  method TruncateContext(messages: seq<Message>) returns (r: seq<Message>)
    ensures exists cut :: IsTruncation(messages, r, cut)
  {
    r := messages;
    if |messages| <= KEEP_RECENT + 1 {
      assert IsTruncation(messages, r, 0);
      return;
    }
    var recent := messages[|messages| - KEEP_RECENT..];
    ghost var cut := |messages| - KEEP_RECENT;
    while recent != [] && FromUser(recent[0])
      invariant |messages| - KEEP_RECENT <= cut <= |messages| && recent == messages[cut..]
      invariant forall k :: |messages| - KEEP_RECENT <= k < cut ==> FromUser(messages[k])
    {
      recent := recent[1..];
      cut := cut + 1;
    }
    if recent == [] {
      assert IsTruncation(messages, r, 0);
      return;
    }
    var dropped := |messages| - 1 - |recent|;
    r := [messages[0], Note(dropped, |recent|)] + recent;
    assert IsTruncation(messages, r, cut);
  }

  /** A transcript cut before one of the model's messages keeps its results with their calls. */
  lemma CutKeepsOrder(messages: seq<Message>, cut: nat, note: Message)
    requires WellFormed(messages) && 0 < cut < |messages| && messages[cut].Assistant? && note.Note?
    ensures WellFormed([messages[0], note] + messages[cut..])
    ensures FullyAnswered(messages) ==> FullyAnswered([messages[0], note] + messages[cut..])
  {
    var r := [messages[0], note] + messages[cut..];
    forall i | 0 <= i < |r| && r[i].Results?
      ensures 0 < i && r[i - 1].Assistant? && forall k :: 0 <= k < |r[i].ids| ==> r[i].ids[k] in Ids(r[i - 1].calls)
    {
      assert i > 2 && r[i] == messages[cut + i - 2] && r[i - 1] == messages[cut + i - 3];
    }
    forall i | 0 < i < |r| && r[i - 1].Assistant? && FullyAnswered(messages)
      ensures AnsweredBy(r[i - 1].calls, r[i])
    {
      assert r[i - 1] == messages[cut + i - 3] && r[i] == messages[cut + i - 2];
    }
  }

  lemma TruncationKeepsOrder(messages: seq<Message>, r: seq<Message>, cut: nat)
    requires WellFormed(messages) && IsTruncation(messages, r, cut)
    ensures WellFormed(r) && r[0] == messages[0] && |r| <= |messages|
    ensures FullyAnswered(messages) ==> FullyAnswered(r)
  {
    if cut > 0 {
      CutKeepsOrder(messages, cut, r[1]);
    }
  }

  /** User and assistant take turns. */
  ghost predicate Alternating(messages: seq<Message>) {
    forall i :: 0 < i < |messages| ==> (FromUser(messages[i - 1]) <==> !FromUser(messages[i]))
  }

  /** A truncation leaves an alternating transcript exactly when it was one that is too short to
      be cut; and it makes a transcript shorter exactly when it drops more than one message. */
  lemma TruncationAlternates(messages: seq<Message>, r: seq<Message>, cut: nat)
    requires WellFormed(messages) && IsTruncation(messages, r, cut)
    ensures Alternating(r) <==> |messages| <= KEEP_RECENT + 1 && Alternating(messages)
    ensures cut == 0 <==> |messages| <= KEEP_RECENT + 1
                          || forall k :: |messages| - KEEP_RECENT <= k < |messages| ==> FromUser(messages[k])
    ensures |r| < |messages| <==> cut > 2
    ensures cut == 2 <==> |messages| == KEEP_RECENT + 2 && !FromUser(messages[2])
  {
    var n := |messages|;
    if cut > 0 {
      assert FromUser(r[0]) && FromUser(r[1]);
    } else if n > KEEP_RECENT + 1 {
      assert FromUser(messages[n - 2]) && FromUser(messages[n - 1]);
    }
  }

  /** The transcript of `n` turns with one call each. */
  function Turns(n: nat, call: Call): (r: seq<Message>)
    ensures |r| == 2 * n + 1
  {
    if n == 0 then [Text] else Turns(n - 1, call) + [Assistant([call]), Results([call.id])]
  }

  lemma {:induction false} TurnsAlternate(n: nat, call: Call)
    ensures Turns(n, call)[0] == Text
    ensures FromUser(Turns(n, call)[2 * n])
    ensures forall k :: 0 <= k < n ==> !FromUser(Turns(n, call)[2 * k + 1])
    ensures Alternating(Turns(n, call))
  {
    if n > 0 {
      TurnsAlternate(n - 1, call);
      var before, m := Turns(n - 1, call), Turns(n, call);
      assert m == before + [Assistant([call]), Results([call.id])];
      assert forall i :: 0 <= i < |before| ==> m[i] == before[i];
    }
  }

  lemma {:induction false} TurnsAreInOrder(n: nat, call: Call)
    ensures WellFormed(Turns(n, call)) && FullyAnswered(Turns(n, call))
  {
    if n > 0 {
      TurnsAreInOrder(n - 1, call);
      assert Ids([call]) == [call.id];
      ExchangeKeepsOrder(Turns(n - 1, call), [call], Results([call.id]), 0);
      assert [Assistant([call]), Results([call.id])] + seq(0, _ => Text) == [Assistant([call]), Results([call.id])];
    }
  }

  /** Four turns or more alternate before a cut and not after it. */
  lemma CutBreaksAlternation(n: nat, call: Call, r: seq<Message>, cut: nat)
    requires n >= 4 && IsTruncation(Turns(n, call), r, cut)
    ensures WellFormed(Turns(n, call)) && Alternating(Turns(n, call))
    ensures cut == 2 * n - 5 && r == [Text, Note(2 * n - 6, 6)] + Turns(n, call)[cut..] && !Alternating(r)
  {
    TurnsAreInOrder(n, call);
    TurnsAlternate(n, call);
    assert !FromUser(Turns(n, call)[2 * (n - 3) + 1]);
    TruncationAlternates(Turns(n, call), r, cut);
  }

  /** A cut that drops one message and adds the note makes nothing shorter. */
  lemma CutMayNotShorten(call: Call, r: seq<Message>, cut: nat)
    requires IsTruncation([Text] + Turns(3, call), r, cut)
    ensures WellFormed([Text] + Turns(3, call)) && FullyAnswered([Text] + Turns(3, call))
    ensures r != [Text] + Turns(3, call) && |r| == |[Text] + Turns(3, call)| == 8
  {
    var m := [Text] + Turns(3, call);
    TurnsAreInOrder(3, call);
    TurnsAlternate(3, call);
    assert forall i :: 0 < i < |m| ==> m[i] == Turns(3, call)[i - 1];
    assert !FromUser(Turns(3, call)[2 * 0 + 1]);
    TruncationAlternates(m, r, cut);
    assert r[1].Note?;
  }

  lemma NoticeKeepsOrder(messages: seq<Message>)
    requires WellFormed(messages)
    ensures WellFormed(messages + [Text])
    ensures FullyAnswered(messages) ==> FullyAnswered(messages + [Text])
  {
  }

  // ---------- The conversation ----------

  /** What the model answered, and what the agent around it decided. */
  datatype Response = Response(
    calls: seq<Call>,
    endTurn: bool,
    emptyRetry: bool,       // nothing at all came back, for the first time
    hasSubmitTool: bool,
    blocked: bool,          // a submit is not accepted
    trips: nat)             // warnings that follow the results

  datatype Event =
    | Noted                          // a notice, an interjection, the resource limits
    | Responded(response: Response)
    | ContextFull
    | Saved
    | Restarted(remember: bool, initial: seq<Message>)

  datatype Reaction = Ignored | Ended | Spoken | Refused(submit: Call) | Worked

  /** What becomes of a response: a clarification goes before a submit, a submit before the rest. */
  function React(r: Response): (reaction: Reaction)
    ensures reaction.Refused? ==> reaction.submit in r.calls
  {
    if r.endTurn || r.calls == [] then
      if r.calls == [] && r.emptyRetry then Ignored else if r.hasSubmitTool then Spoken else Ended
    else if FirstSubmit(r.calls).Some? && Precedent(r.calls).None? then
      if r.blocked then Refused(FirstSubmit(r.calls).value) else Ended
    else Worked
  }

  /** What it adds to the transcript. */
  function Added(r: Response): seq<Message> {
    match React(r)
    case Ignored => []
    case Ended => []
    case Spoken => [Assistant(r.calls), Text]
    case Refused(submit) => [Assistant(r.calls), Results([submit.id])]
    case Worked => [Assistant(r.calls), Results(Answers(r.calls))] + seq(r.trips, _ => Text)
  }

  /** Exactly when a response leaves no call without a result. */
  ghost predicate LeavesNoneOpen(r: Response) {
    match React(r)
    case Ignored => true
    case Ended => true
    case Spoken => r.calls == []
    case Refused(submit) => forall c :: c in r.calls ==> c.id == submit.id
    case Worked => true
  }

  lemma RefusalAnswersOne(calls: seq<Call>, submit: Call)
    requires submit in calls
    ensures submit.id in Ids(calls)
    ensures AnsweredBy(calls, Results([submit.id])) <==> forall c :: c in calls ==> c.id == submit.id
  {
    var k :| 0 <= k < |calls| && calls[k] == submit;
    assert Ids(calls)[k] == submit.id;
    if AnsweredBy(calls, Results([submit.id])) {
      forall c | c in calls
        ensures c.id == submit.id
      {
        var j :| 0 <= j < |calls| && calls[j] == c;
      }
    }
  }

  lemma ProseAnswersNone(calls: seq<Call>)
    ensures AnsweredBy(calls, Text) <==> calls == []
  {
    if calls != [] {
      var first := calls[0];
    }
  }

  lemma AppendKeepsOrder(messages: seq<Message>, r: Response)
    requires WellFormed(messages)
    ensures WellFormed(messages + Added(r))
    ensures FullyAnswered(messages + Added(r)) <==> FullyAnswered(messages) && LeavesNoneOpen(r)
  {
    match React(r) {
      case Ignored => assert messages + Added(r) == messages;
      case Ended => assert messages + Added(r) == messages;
      case Spoken =>
        ProseAnswersNone(r.calls);
        ExchangeKeepsOrder(messages, r.calls, Text, 0);
        assert Added(r) == [Assistant(r.calls), Text] + seq(0, _ => Text);
      case Refused(submit) =>
        RefusalAnswersOne(r.calls, submit);
        ExchangeKeepsOrder(messages, r.calls, Results([submit.id]), 0);
        assert Added(r) == [Assistant(r.calls), Results([submit.id])] + seq(0, _ => Text);
      case Worked =>
        EveryCallAnswered(r.calls);
        ExchangeKeepsOrder(messages, r.calls, Results(Answers(r.calls)), r.trips);
    }
  }

  /** A blocked submit answers itself alone, and prose that comes with calls answers none. */
  lemma CallsLeftOpen(messages: seq<Message>, submit: Call, other: Call, trips: nat)
    requires WellFormed(messages) && FullyAnswered(messages)
    requires submit.name.Submit? && other.name.OtherTool? && submit.id != other.id
    ensures !FullyAnswered(messages + Added(Response([other, submit], false, false, true, true, trips)))
    ensures !FullyAnswered(messages + Added(Response([other, submit], true, false, true, true, trips)))
  {
    var calls := [other, submit];
    assert calls[0] == other && calls[1] == submit && calls[1..][0] == submit;
    assert Precedent(calls).None? && FirstSubmit(calls) == Some(submit);
    AppendKeepsOrder(messages, Response(calls, false, false, true, true, trips));
    AppendKeepsOrder(messages, Response(calls, true, false, true, true, trips));
  }

  lemma IdsOfBoth(a: seq<Call>, b: seq<Call>)
    ensures Ids(a + b) == Ids(a) + Ids(b)
  {
  }

  class AgentBase {
    var messages: seq<Message>
    var saved: Option<seq<Message>>
    var contextTruncated: bool

    ghost predicate Valid()
      reads this
    {
      WellFormed(messages) && (saved.Some? ==> WellFormed(saved.value))
    }

    constructor (initial: seq<Message>)
      requires initial != [] && forall i :: 0 <= i < |initial| ==> initial[i] == Text
      ensures Valid() && messages == initial && saved == None
    {
      messages, saved, contextTruncated := initial, None, false;
    }

    method Skipped(calls: seq<Call>, toRun: seq<Call>) returns (ids: seq<string>)
      ensures ids == Ids(Except(calls, toRun))
    {
      ids := [];
      for i := 0 to |calls|
        invariant ids == Ids(Except(calls[..i], toRun))
      {
        assert calls[..i + 1][..i] == calls[..i];
        if calls[i] !in toRun {
          ghost var before := Except(calls[..i], toRun);
          assert (before + [calls[i]])[..|before|] == before;
          ids := ids + [calls[i].id];
        }
      }
      assert calls[..|calls|] == calls;
    }

    /** An ordinary turn: run the calls, or the one that takes precedence, and note the others. */
    method AnswerCalls(calls: seq<Call>) returns (ids: seq<string>)
      ensures ids == Answers(calls)
    {
      var toRun := ToRun(calls);
      ids := [];
      for i := 0 to |toRun|
        invariant ids == Ids(toRun[..i])
      {
        assert toRun[..i + 1][..i] == toRun[..i];
        ids := ids + [toRun[i].id];
      }
      var skipped := Skipped(calls, toRun);
      IdsOfBoth(toRun, Except(calls, toRun));
      assert toRun[..|toRun|] == toRun;
      ids := ids + skipped;
    }

    /** The branches on a response: what it adds, and whether it ends the run. */
    method Handle(r: Response) returns (added: seq<Message>, ended: bool, save: bool)
      ensures added == Added(r)
      ensures ended <==> React(r).Ended?
      ensures save <==> React(r).Refused? || React(r).Worked?
    {
      if r.endTurn || r.calls == [] {
        if r.calls == [] && r.emptyRetry {
          return [], false, false;
        }
        if !r.hasSubmitTool {
          return [], true, false;
        }
        return [Assistant(r.calls), Text], false, false;
      }
      var submit := FirstSubmit(r.calls);
      if submit.Some? && Precedent(r.calls).None? {
        if !r.blocked {
          return [], true, false;
        }
        return [Assistant(r.calls), Results([submit.value.id])], false, true;
      }
      var ids := AnswerCalls(r.calls);
      return [Assistant(r.calls), Results(ids)] + seq(r.trips, _ => Text), false, true;
    }

    method Respond(r: Response) returns (ended: bool)
      requires Valid()
      modifies this`messages, this`saved
      ensures Valid()
      ensures ended <==> React(r).Ended?
      ensures messages == old(messages) + Added(r)
      ensures FullyAnswered(messages) <==> old(FullyAnswered(messages)) && LeavesNoneOpen(r)
      ensures saved == if React(r).Refused? || React(r).Worked? then Some(messages) else old(saved)
    {
      var added, save;
      added, ended, save := Handle(r);
      AppendKeepsOrder(messages, r);
      messages := messages + added;
      if save {
        saved := Some(messages);
      }
    }

    /** A full context is cut once in a run; otherwise the model is told to wrap up. */
    method RelieveContext() returns (truncated: bool)
      requires Valid()
      modifies this`messages, this`contextTruncated
      ensures Valid() && contextTruncated
      ensures truncated ==> |messages| < |old(messages)| && messages[0] == old(messages)[0]
      ensures old(contextTruncated) ==> !truncated && messages == old(messages) + [Text]
      ensures !old(contextTruncated) ==>
        exists shorter, cut :: IsTruncation(old(messages), shorter, cut)
                               && (truncated <==> |shorter| < |old(messages)|)
                               && messages == shorter + if truncated then [] else [Text]
      ensures old(FullyAnswered(messages)) ==> FullyAnswered(messages)
    {
      truncated := false;
      if !contextTruncated {
        contextTruncated := true;
        var shorter := TruncateContext(messages);
        ghost var cut :| IsTruncation(messages, shorter, cut);
        TruncationKeepsOrder(messages, shorter, cut);
        truncated := |shorter| < |messages|;
        messages := shorter;
      }
      if !truncated {
        NoticeKeepsOrder(messages);
        messages := messages + [Text];
      }
    }

    /** A conversation of any length, with any number of deaths and resumptions. */
    method Converse(events: seq<Event>)
      requires Valid()
      requires forall i :: 0 <= i < |events| && events[i].Restarted? ==>
        events[i].initial != [] && forall k :: 0 <= k < |events[i].initial| ==> events[i].initial[k] == Text
      modifies this
      ensures Valid()
      ensures old(FullyAnswered(messages) && (saved.Some? ==> FullyAnswered(saved.value)))
              && (forall i :: 0 <= i < |events| && events[i].Responded? ==> LeavesNoneOpen(events[i].response)) ==>
              FullyAnswered(messages)
    {
      ghost var answered := FullyAnswered(messages) && (saved.Some? ==> FullyAnswered(saved.value))
        && (forall i :: 0 <= i < |events| && events[i].Responded? ==> LeavesNoneOpen(events[i].response));
      for i := 0 to |events|
        invariant Valid()
        invariant answered ==> FullyAnswered(messages) && (saved.Some? ==> FullyAnswered(saved.value))
      {
        match events[i] {
          case Noted =>
            NoticeKeepsOrder(messages);
            messages := messages + [Text];
          case Responded(r) =>
            var ended := Respond(r);
          case ContextFull =>
            var truncated := RelieveContext();
          case Saved => saved := Some(messages);
          case Restarted(remember, initial) =>
            contextTruncated := false;
            if remember && saved.Some? {
              messages, saved := saved.value, None;
            } else {
              messages := initial;
            }
        }
      }
    }
  }
}
