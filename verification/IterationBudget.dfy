/**
The iteration budget of an agent run. Counters are rebuilt by replaying the ticket's event log,
checked before every model call, and the log outlives the run: what is proved is about any
sequence of runs, each of which may die after any call.
*/
module IterationBudget {
  import opened Wrappers

  /** The statuses that dispatch an agent; all others are alike here but for the guidance pause. */
  datatype Status =
    | TriagePending | AwaitingHardware | PreparingPlatform | AwaitingProvision | ExecutingBenchmark
    | AwaitingReview | AwaitingTeardown | RetrospectivePending | Analyzing | BuildingImage
    | GatheringContext | PlanningInvestigation | EvaluatingConvergence | CoordinatingFleet
    | SynthesizingResults | AwaitingCustomerGuidance | OtherStatus(name: string)

  datatype AgentType =
    | Triage | ResourceCreate | Platform | Provisioning | Benchmark | Review | ResourceTeardown
    | Retrospective | Analyze | ImageBuilder | ContextGatherer | InvestigationPlanner
    | ConvergenceEvaluator | FleetCoordinator | ResultSynthesizer | OtherType(name: string)

  function StatusAgent(status: Status): Option<AgentType> {
    match status
    case TriagePending => Some(Triage)
    case AwaitingHardware => Some(ResourceCreate)
    case PreparingPlatform => Some(Platform)
    case AwaitingProvision => Some(Provisioning)
    case ExecutingBenchmark => Some(Benchmark)
    case AwaitingReview => Some(Review)
    case AwaitingTeardown => Some(ResourceTeardown)
    case RetrospectivePending => Some(Retrospective)
    case Analyzing => Some(Analyze)
    case BuildingImage => Some(ImageBuilder)
    case GatheringContext => Some(ContextGatherer)
    case PlanningInvestigation => Some(InvestigationPlanner)
    case EvaluatingConvergence => Some(ConvergenceEvaluator)
    case CoordinatingFleet => Some(FleetCoordinator)
    case SynthesizingResults => Some(ResultSynthesizer)
    case AwaitingCustomerGuidance => None
    case OtherStatus(_) => None
  }

  /** Events carry the time they claim to be of, which need not follow the order of recording. */
  datatype Event =
    | StatusChange(at: int, from: Status, to: Status)
    | Epoch(at: int)
    | LlmRequest(at: int, agentType: Option<AgentType>, agent: string)
    | Other(at: int)

  const LOG_PAGE: nat := 100_000

  datatype Identity = Identity(agentType: AgentType, name: string)

  datatype Counts = Counts(agent: nat, overall: nat, legacyPhase: Option<AgentType>)

  const NOTHING := Counts(0, 0, None)

  /** An event without a type counts for the agent it names, unless the status trail says
      another phase was running. */
  predicate Matches(e: Event, me: Identity, legacyPhase: Option<AgentType>)
    requires e.LlmRequest?
  {
    if e.agentType.Some? then e.agentType.value == me.agentType
    else e.agent == me.name && (legacyPhase.None? || legacyPhase.value == me.agentType)
  }

  /** The phase an untyped event is taken to belong to; a pause for guidance keeps the paused one. */
  function PhaseAfter(phase: Option<AgentType>, from: Status, to: Status): Option<AgentType> {
    if !to.AwaitingCustomerGuidance? then StatusAgent(to)
    else if StatusAgent(from).Some? then StatusAgent(from)
    else phase
  }

  function Counted(c: Counts, e: Event, me: Identity): Counts {
    match e
    case StatusChange(_, from, to) => c.(legacyPhase := PhaseAfter(c.legacyPhase, from, to))
    case Epoch(_) => c.(agent := 0)
    case LlmRequest(_, _, _) =>
      c.(overall := c.overall + 1, agent := c.agent + if Matches(e, me, c.legacyPhase) then 1 else 0)
    case Other(_) => c
  }

  function Replay(log: seq<Event>, me: Identity): Counts {
    if log == [] then NOTHING else Counted(Replay(log[..|log| - 1], me), log[|log| - 1], me)
  }

  lemma ReplayOneMore(log: seq<Event>, e: Event, me: Identity)
    ensures Replay(log + [e], me) == Counted(Replay(log, me), e, me)
  {
    assert (log + [e])[..|log|] == log;
  }

  // ---------- What is to be bounded ----------

  /** Calls recorded for a type since the last epoch. */
  function Typed(log: seq<Event>, agentType: AgentType): nat {
    if log == [] then 0
    else
      var e, before := log[|log| - 1], Typed(log[..|log| - 1], agentType);
      if e.Epoch? then 0 else before + if e.LlmRequest? && e.agentType == Some(agentType) then 1 else 0
  }

  /** All calls ever recorded on the ticket. */
  function Total(log: seq<Event>): nat {
    if log == [] then 0 else Total(log[..|log| - 1]) + if log[|log| - 1].LlmRequest? then 1 else 0
  }

  /** The replay never grants more work than was recorded: untyped events only add to it. */
  lemma {:induction false} ReplayIsConservative(log: seq<Event>, me: Identity)
    ensures Typed(log, me.agentType) <= Replay(log, me).agent
    ensures Total(log) == Replay(log, me).overall
  {
    if log != [] {
      ReplayIsConservative(log[..|log| - 1], me);
    }
  }

  /** On a log of typed events it is exact. */
  lemma {:induction false} ReplayIsExact(log: seq<Event>, me: Identity)
    requires forall i :: 0 <= i < |log| && log[i].LlmRequest? ==> log[i].agentType.Some?
    ensures Typed(log, me.agentType) == Replay(log, me).agent
  {
    if log != [] {
      var shorter := log[..|log| - 1];
      assert forall i :: 0 <= i < |shorter| ==> shorter[i] == log[i];
      ReplayIsExact(shorter, me);
    }
  }

  // ---------- The order of replay ----------

  /** Behind everything that is not later. */
  function Insert(sorted: seq<Event>, e: Event): seq<Event> {
    if sorted == [] || sorted[|sorted| - 1].at <= e.at then sorted + [e]
    else Insert(sorted[..|sorted| - 1], e) + [sorted[|sorted| - 1]]
  }

  /** Sorted by time; events of one time keep the order in which they were recorded. */
  function Sorted(log: seq<Event>): seq<Event> {
    if log == [] then [] else Insert(Sorted(log[..|log| - 1]), log[|log| - 1])
  }

  ghost predicate InOrder(log: seq<Event>) {
    forall i, j :: 0 <= i < j < |log| ==> log[i].at <= log[j].at
  }

  lemma {:induction false} InsertKeepsEvents(sorted: seq<Event>, e: Event)
    ensures multiset(Insert(sorted, e)) == multiset(sorted) + multiset{e}
  {
    if sorted != [] && sorted[|sorted| - 1].at > e.at {
      var shorter, last := sorted[..|sorted| - 1], sorted[|sorted| - 1];
      InsertKeepsEvents(shorter, e);
      assert sorted == shorter + [last];
    }
  }

  lemma {:induction false} InsertKeepsOrder(sorted: seq<Event>, e: Event)
    requires InOrder(sorted)
    ensures InOrder(Insert(sorted, e))
  {
    if sorted != [] && sorted[|sorted| - 1].at > e.at {
      var shorter, last := sorted[..|sorted| - 1], sorted[|sorted| - 1];
      InsertKeepsOrder(shorter, e);
      InsertKeepsEvents(shorter, e);
      forall k | 0 <= k < |Insert(shorter, e)|
        ensures Insert(shorter, e)[k].at <= last.at
      {
        assert Insert(shorter, e)[k] in multiset(shorter) + multiset{e};
      }
    }
  }

  /** The replay reads exactly the recorded events, and it reads them by time. */
  lemma {:induction false} SortedIsByTime(log: seq<Event>)
    ensures InOrder(Sorted(log)) && multiset(Sorted(log)) == multiset(log)
  {
    if log != [] {
      var shorter, last := log[..|log| - 1], log[|log| - 1];
      assert log == shorter + [last];
      SortedIsByTime(shorter);
      InsertKeepsOrder(Sorted(shorter), last);
      InsertKeepsEvents(Sorted(shorter), last);
    }
  }

  /** A log whose times follow the order of recording is read as it was recorded. */
  lemma {:induction false} InOrderStays(log: seq<Event>)
    requires InOrder(log)
    ensures Sorted(log) == log
  {
    if log != [] {
      var shorter := log[..|log| - 1];
      InOrderStays(shorter);
      assert shorter != [] ==> shorter[|shorter| - 1] == log[|log| - 2];
    }
  }

  /** No call is recorded after an epoch under an earlier time. */
  ghost predicate NoCallBackdated(log: seq<Event>) {
    forall i, j :: 0 <= i < j < |log| && log[i].Epoch? && log[j].LlmRequest? ==> log[i].at <= log[j].at
  }

  predicate CallOf(e: Event, agentType: AgentType) { e.LlmRequest? && e.agentType == Some(agentType) }

  lemma {:induction false} InsertCounts(sorted: seq<Event>, e: Event, agentType: AgentType)
    requires !e.Epoch?
    requires e.LlmRequest? ==> forall k :: 0 <= k < |sorted| && sorted[k].Epoch? ==> sorted[k].at <= e.at
    ensures Typed(Insert(sorted, e), agentType) == Typed(sorted, agentType) + if CallOf(e, agentType) then 1 else 0
  {
    if sorted != [] && sorted[|sorted| - 1].at > e.at {
      InsertCounts(sorted[..|sorted| - 1], e, agentType);
    }
  }

  lemma {:induction false} InsertTotals(sorted: seq<Event>, e: Event)
    ensures Total(Insert(sorted, e)) == Total(sorted) + if e.LlmRequest? then 1 else 0
  {
    if sorted != [] && sorted[|sorted| - 1].at > e.at {
      InsertTotals(sorted[..|sorted| - 1], e);
    }
  }

  lemma {:induction false} SortingKeepsTotal(log: seq<Event>)
    ensures Total(Sorted(log)) == Total(log)
  {
    if log != [] {
      SortingKeepsTotal(log[..|log| - 1]);
      InsertTotals(Sorted(log[..|log| - 1]), log[|log| - 1]);
    }
  }

  /** Sorting loses no call of the epoch unless a call is backdated before an epoch. */
  lemma {:induction false} SortingIsConservative(log: seq<Event>, agentType: AgentType)
    requires NoCallBackdated(log)
    ensures Typed(log, agentType) <= Typed(Sorted(log), agentType)
  {
    if log != [] {
      var shorter, last := log[..|log| - 1], log[|log| - 1];
      SortingIsConservative(shorter, agentType);
      SortedIsByTime(shorter);
      if !last.Epoch? {
        forall k | last.LlmRequest? && 0 <= k < |Sorted(shorter)| && Sorted(shorter)[k].Epoch?
          ensures Sorted(shorter)[k].at <= last.at
        {
          assert Sorted(shorter)[k] in multiset(shorter);
          var i :| 0 <= i < |shorter| && shorter[i] == Sorted(shorter)[k];
          assert log[i] == shorter[i];
        }
        InsertCounts(Sorted(shorter), last, agentType);
      }
    }
  }

  // ---------- What a run adds ----------

  predicate Quiet(e: Event) { e.StatusChange? || e.Other? }

  predicate CalledBy(e: Event, me: Identity) {
    e.LlmRequest? && e.agentType == Some(me.agentType) && e.agent == me.name
  }

  /** One run at a time: nobody else calls a model or opens an epoch while it is under way. */
  ghost predicate RunEvents(tail: seq<Event>, me: Identity) {
    forall i :: 0 <= i < |tail| ==> Quiet(tail[i]) || CalledBy(tail[i], me)
  }

  predicate AllQuiet(noise: seq<Event>) { forall i :: 0 <= i < |noise| ==> Quiet(noise[i]) }

  /** Every call a run adds counts for its own type, and for no other. */
  lemma {:induction false} RunGrowsItsOwnType(log: seq<Event>, tail: seq<Event>, me: Identity, agentType: AgentType)
    requires RunEvents(tail, me)
    ensures Total(log + tail) >= Total(log)
    ensures Typed(log + tail, agentType) ==
            Typed(log, agentType) + if agentType == me.agentType then Total(log + tail) - Total(log) else 0
  {
    if tail == [] {
      assert log + tail == log;
    } else {
      var shorter := tail[..|tail| - 1];
      assert RunEvents(shorter, me);
      RunGrowsItsOwnType(log, shorter, me, agentType);
      assert (log + tail)[..|log + tail| - 1] == log + shorter;
    }
  }

  /** Between runs anything but a model call may be recorded, epochs included. */
  lemma {:induction false} BetweenRunsNothingGrows(log: seq<Event>, between: seq<Event>, agentType: AgentType)
    requires forall i :: 0 <= i < |between| ==> !between[i].LlmRequest?
    ensures Typed(log + between, agentType) <= Typed(log, agentType)
    ensures Total(log + between) == Total(log)
  {
    if between == [] {
      assert log + between == log;
    } else {
      var shorter := between[..|between| - 1];
      BetweenRunsNothingGrows(log, shorter, agentType);
      assert (log + between)[..|log + between| - 1] == log + shorter;
    }
  }

  /** What a run of so many calls leaves behind. */
  ghost predicate Follows(log: seq<Event>, after: seq<Event>, me: Identity, calls: nat) {
    && log <= after && RunEvents(after[|log|..], me)
    && Total(after) == Total(log) + calls
  }

  // ---------- One run ----------

  /** The allowances a ticket carries; an absent agent limit leaves the configured one. */
  datatype Limits = Limits(agent: Option<nat>, overall: nat)

  datatype Wrapup = NoWrapup | ContextWrapup | BudgetWrapup | IterationWrapup

  datatype Pressure = Fine | Warn | Pause

  datatype Reply =
    | Dies                        // the process, in the call
    | Retried                     // a timeout or a rate limit with retries left
    | GivesUp
    | Response(context: Pressure, shortened: bool, budget: Pressure, ends: bool, human: Option<Limits>)

  /** `at` is the time under which the pass records its call. */
  datatype Turn = Turn(stopRequested: bool, ticket: Option<Limits>, at: int, reply: Reply, noise: seq<Event>)

  predicate Within(limits: Limits, agentBound: nat, overallBound: nat) {
    (limits.agent.Some? ==> 1 <= limits.agent.value <= agentBound) && 1 <= limits.overall <= overallBound
  }

  predicate ReplyWithin(reply: Reply, agentBound: nat, overallBound: nat) {
    reply.Response? && reply.human.Some? ==> Within(reply.human.value, agentBound, overallBound)
  }

  predicate TurnWithin(turn: Turn, agentBound: nat, overallBound: nat) {
    && (turn.ticket.Some? ==> Within(turn.ticket.value, agentBound, overallBound))
    && ReplyWithin(turn.reply, agentBound, overallBound)
  }

  /** The agent limit once these allowances are read, if any are. */
  function LimitAfter(limits: Option<Limits>, limit: nat): nat {
    if limits.Some? && limits.value.agent.Some? then limits.value.agent.value else limit
  }

  /** Every limit the run ever reads is non-zero and within the bounds. */
  predicate AllWithin(turns: seq<Turn>, agentBound: nat, overallBound: nat) {
    forall i :: 0 <= i < |turns| ==> TurnWithin(turns[i], agentBound, overallBound)
  }

  function Max(a: nat, b: nat): nat { if a >= b then a else b }

  /** The page of the log is chosen in the order of recording and then read in the order of
      time; of that, what is read before the read fails. */
  function Readable(log: seq<Event>, fails: Option<nat>): seq<Event> {
    var page := Sorted(log[..if |log| <= LOG_PAGE then |log| else LOG_PAGE]);
    if fails.Some? && fails.value < |page| then page[..fails.value] else page
  }

  datatype Ending =
    | LimitReached | OverallLimitReached | StopRequested | Died | GaveUp | WrappedUp | Completed | Unfinished

  predicate TurnSteady(turn: Turn, limits: Limits) {
    && (turn.ticket.Some? ==> turn.ticket.value == limits)
    && (turn.reply.Response? && turn.reply.human.Some? ==> turn.reply.human.value == limits)
  }

  /** No limit changes while the run is under way. */
  predicate Steady(limits: Limits, turns: seq<Turn>) {
    forall i :: 0 <= i < |turns| ==> TurnSteady(turns[i], limits)
  }

  /** A run does not end without its reason: after `calls` calls, this is what it met. */
  predicate Justified(end: Ending, configured: nat, limits: Limits, turns: seq<Turn>, calls: nat,
                      iteration: nat, overall: nat) {
    match end
    case LimitReached =>
      Steady(limits, turns) ==> 0 < LimitAfter(Some(limits), configured) <= iteration
    case OverallLimitReached => Steady(limits, turns) ==> 0 < limits.overall <= overall
    case StopRequested => calls < |turns| && turns[calls].stopRequested
    case Died => 0 < calls <= |turns| && turns[calls - 1].reply.Dies?
    case GaveUp => 0 < calls <= |turns| && turns[calls - 1].reply.GivesUp?
    case WrappedUp => 1 < calls <= |turns| && turns[calls - 1].reply.Response?
    case Completed => 0 < calls <= |turns| && turns[calls - 1].reply.Response? && turns[calls - 1].reply.ends
    case Unfinished => calls == |turns|
  }

  datatype Verdict = Again | Stop | Proceed

  class AgentBase {
    const me: Identity
    var maxIterations: nat
    var globalLimit: nat
    var wrapup: Wrapup
    var contextTruncated: bool

    constructor (me: Identity, maxIterations: nat)
      ensures this.me == me && this.maxIterations == maxIterations
    {
      this.me, this.maxIterations := me, maxIterations;
      globalLimit, wrapup, contextTruncated := 0, NoWrapup, false;
    }

    predicate InBounds(agentBound: nat, overallBound: nat)
      reads this`maxIterations, this`globalLimit
    {
      1 <= maxIterations <= agentBound && 1 <= globalLimit <= overallBound
    }

    /** The loop's guard: one more call is owed to a notice that was given at the limit. */
    predicate MayCall(iteration: nat)
      reads this`maxIterations, this`wrapup
    {
      maxIterations == 0 || iteration < maxIterations || (!wrapup.NoWrapup? && iteration == maxIterations)
    }

    method CountIterations(events: seq<Event>) returns (agent: nat, overall: nat)
      ensures agent == Replay(events, me).agent && overall == Replay(events, me).overall
    {
      var legacyPhase: Option<AgentType> := None;
      agent, overall := 0, 0;
      for i := 0 to |events|
        invariant Counts(agent, overall, legacyPhase) == Replay(events[..i], me)
      {
        ReplayOneMore(events[..i], events[i], me);
        assert events[..i + 1] == events[..i] + [events[i]];
        match events[i] {
          case StatusChange(_, from, to) => legacyPhase := PhaseAfter(legacyPhase, from, to);
          case Epoch(_) => agent := 0;
          case LlmRequest(_, _, _) =>
            overall := overall + 1;
            if Matches(events[i], me, legacyPhase) {
              agent := agent + 1;
            }
          case Other(_) =>
        }
      }
      assert events[..|events|] == events;
    }

    method GetPreviousIterationCounts(log: seq<Event>, fails: Option<nat>) returns (agent: nat, overall: nat)
      ensures agent == Replay(Readable(log, fails), me).agent
      ensures overall == Replay(Readable(log, fails), me).overall
    {
      agent, overall := CountIterations(Readable(log, fails));
    }

    /** A raised or lifted limit takes back the notice that the last iteration was reached. */
    method RefreshIterationLimits(limits: Limits)
      modifies this`maxIterations, this`globalLimit, this`wrapup
      ensures maxIterations == LimitAfter(Some(limits), old(maxIterations))
      ensures globalLimit == limits.overall
      ensures wrapup == if old(wrapup).IterationWrapup? && limits.agent.Some?
                           && (limits.agent.value == 0 || limits.agent.value > old(maxIterations))
                        then NoWrapup else old(wrapup)
    {
      if limits.agent.Some? {
        var limit := limits.agent.value;
        if (limit == 0 || limit > maxIterations) && wrapup == IterationWrapup {
          wrapup := NoWrapup;
        }
        maxIterations := limit;
      }
      globalLimit := limits.overall;
    }

    /** The guards a response passes before it is acted on. A notice asks for one more call and
        is given only while none is standing; the one for the last iteration only at the limit. */
    method CheckGuards(reply: Reply, iteration: nat) returns (verdict: Verdict)
      requires reply.Response?
      modifies this`wrapup, this`contextTruncated
      ensures verdict.Again? ==> old(wrapup).NoWrapup? && !wrapup.NoWrapup?
      ensures !verdict.Again? ==> wrapup == old(wrapup)
      ensures wrapup.IterationWrapup? && verdict.Again? ==> iteration == maxIterations > 1
      ensures old(wrapup).ContextWrapup? ==> verdict.Stop?
      ensures verdict.Stop? <==> old(wrapup).ContextWrapup? ||
                                 (!old(wrapup).NoWrapup? && iteration > 1 && reply.budget.Pause?)
      ensures old(wrapup).NoWrapup? && reply.context.Pause? && (old(contextTruncated) || !reply.shortened)
              ==> wrapup.ContextWrapup?
      ensures verdict.Proceed? && iteration > 1 ==> !reply.budget.Pause?
      ensures verdict.Proceed? && iteration == maxIterations > 1 ==> !wrapup.NoWrapup?
    {
      if wrapup.NoWrapup? && reply.context.Pause? {
        var truncated := !contextTruncated && reply.shortened;
        contextTruncated := true;
        if !truncated {
          wrapup := ContextWrapup;
          return Again;
        }
      }
      if wrapup.ContextWrapup? {
        return Stop;
      }
      if iteration > 1 && reply.budget.Pause? {
        if wrapup.NoWrapup? {
          wrapup := BudgetWrapup;
          return Again;
        }
        return Stop;
      }
      if maxIterations > 0 && iteration > 1 {
        var warnAt := Max(1, maxIterations * 3 / 4);
        if iteration != warnAt && iteration == maxIterations && wrapup.NoWrapup? {
          wrapup := IterationWrapup;
          return Again;
        }
      }
      return Proceed;
    }

    /** What may keep a pass from making its call. */
    method Admit(turn: Turn, overall: nat, ghost agentBound: nat, ghost overallBound: nat) returns (end: Option<Ending>)
      modifies this`maxIterations, this`globalLimit, this`wrapup
      ensures end == if turn.stopRequested then Some(StopRequested)
                     else if 0 < globalLimit <= overall then Some(OverallLimitReached) else None
      ensures old(wrapup).NoWrapup? ==> wrapup.NoWrapup?
      ensures maxIterations == if turn.stopRequested then old(maxIterations) else LimitAfter(turn.ticket, old(maxIterations))
      ensures globalLimit == if turn.stopRequested || turn.ticket.None? then old(globalLimit) else turn.ticket.value.overall
      ensures old(InBounds(agentBound, overallBound)) && TurnWithin(turn, agentBound, overallBound) ==>
                InBounds(agentBound, overallBound)
    {
      if turn.stopRequested {
        return Some(StopRequested);
      }
      if turn.ticket.Some? {
        RefreshIterationLimits(turn.ticket.value);
      }
      if globalLimit > 0 && overall >= globalLimit {
        return Some(OverallLimitReached);
      }
      return None;
    }

    /** What one call leads to: the end of the run with its reason, or another pass. */
    method ActOn(reply: Reply, iteration: nat, ghost agentBound: nat, ghost overallBound: nat) returns (end: Option<Ending>)
      modifies this`maxIterations, this`globalLimit, this`wrapup, this`contextTruncated
      ensures reply.Dies? <==> end == Some(Died)
      ensures reply.GivesUp? <==> end == Some(GaveUp)
      ensures end == Some(WrappedUp) ==> reply.Response? && !old(wrapup).NoWrapup?
      ensures end == Some(Completed) ==> reply.Response? && reply.ends
      ensures end.Some? ==> end.value in {Died, GaveUp, WrappedUp, Completed}
      ensures reply.Response? && reply.human.Some? ==>
        (maxIterations == old(maxIterations) && globalLimit == old(globalLimit))
        || (maxIterations == LimitAfter(reply.human, old(maxIterations)) && globalLimit == reply.human.value.overall)
      ensures !(reply.Response? && reply.human.Some?) ==> maxIterations == old(maxIterations) && globalLimit == old(globalLimit)
      ensures old(InBounds(agentBound, overallBound)) && ReplyWithin(reply, agentBound, overallBound) ==>
                InBounds(agentBound, overallBound)
    {
      match reply {
        case Dies => return Some(Died);
        case Retried => return None;
        case GivesUp => return Some(GaveUp);
        case Response(_, _, _, ends, human) =>
          var verdict := CheckGuards(reply, iteration);
          if verdict.Stop? {
            return Some(WrappedUp);
          }
          if verdict.Proceed? && ends {
            return Some(Completed);
          }
          if verdict.Proceed? && human.Some? {
            RefreshIterationLimits(human.value);
          }
          return None;
      }
    }

    /** The call, and whatever else is recorded before the next one. */
    method Recorded(log: seq<Event>, before: seq<Event>, at: int, noise: seq<Event>, ghost calls: nat)
      returns (after: seq<Event>)
      requires Follows(log, before, me, calls) && AllQuiet(noise)
      ensures Follows(log, after, me, calls + 1)
    {
      var request := LlmRequest(at, Some(me.agentType), me.name);
      BetweenRunsNothingGrows(before + [request], noise, me.agentType);
      assert (before + [request])[..|before|] == before;
      after := before + [request] + noise;
      assert after[|log|..] == before[|log|..] + [request] + noise;
    }

    method Iterate(log: seq<Event>, previousAgent: nat, previousOverall: nat, ghost configured: nat,
                   ghost limits: Limits, turns: seq<Turn>, ghost agentBound: nat, ghost overallBound: nat)
      returns (after: seq<Event>, iteration: nat, overall: nat, end: Ending, ghost calls: nat)
      requires forall i :: 0 <= i < |turns| ==> AllQuiet(turns[i].noise)
      requires wrapup.NoWrapup? && globalLimit == limits.overall
      requires maxIterations == LimitAfter(Some(limits), configured)
      modifies this
      ensures Follows(log, after, me, calls) && calls <= |turns|
      ensures Justified(end, configured, limits, turns, calls, iteration, overall)
      ensures iteration == previousAgent + calls && overall == previousOverall + calls
      ensures old(InBounds(agentBound, overallBound)) && AllWithin(turns, agentBound, overallBound) ==>
        && iteration <= Max(previousAgent, agentBound + 1) && overall <= Max(previousOverall, overallBound)
        && (end.Unfinished? ==> iteration <= agentBound)
    {
      iteration, overall, after, end, calls := previousAgent, previousOverall, log, LimitReached, 0;
      ghost var within := InBounds(agentBound, overallBound) && AllWithin(turns, agentBound, overallBound);
      ghost var steady := Steady(limits, turns);
      var k := 0;
      while MayCall(iteration)
        invariant k == calls <= |turns| && iteration == previousAgent + k && overall == previousOverall + k
        invariant Follows(log, after, me, calls)
        invariant end.LimitReached? && (k == 0 ==> wrapup.NoWrapup?)
        invariant steady ==> globalLimit == old(globalLimit) && maxIterations == old(maxIterations)
        invariant within ==> InBounds(agentBound, overallBound)
        invariant within ==> iteration <= Max(previousAgent, agentBound + 1) && overall <= Max(previousOverall, overallBound)
        decreases |turns| - k
      {
        if k == |turns| {
          end := Unfinished;
          break;
        }
        var turn := turns[k];
        assert within ==> TurnWithin(turn, agentBound, overallBound);
        assert steady ==> TurnSteady(turn, limits);
        var refused := Admit(turn, overall, agentBound, overallBound);
        if refused.Some? {
          end := refused.value;
          break;
        }
        iteration, overall, k := iteration + 1, overall + 1, k + 1;
        after := Recorded(log, after, turn.at, turn.noise, calls);
        calls := calls + 1;
        var reason := ActOn(turn.reply, iteration, agentBound, overallBound);
        if reason.Some? {
          end := reason.value;
          break;
        }
      }
    }

    /**
    `turns` is what each pass through the loop would meet; a run that is left `Unfinished`
    would have gone on after the last of them, which a bounded run cannot do for long: whatever
    it meets, it ends by itself. `iteration` and `overall` are the counters when it ended.
    */
    method Run(log: seq<Event>, fails: Option<nat>, limits: Limits, turns: seq<Turn>,
               ghost agentBound: nat, ghost overallBound: nat)
      returns (after: seq<Event>, iteration: nat, overall: nat, end: Ending, ghost calls: nat)
      requires forall i :: 0 <= i < |turns| ==> AllQuiet(turns[i].noise)
      modifies this
      ensures maxIterations == old(maxIterations)
      ensures Follows(log, after, me, calls) && calls <= |turns|
      ensures Justified(end, old(maxIterations), limits, turns, calls, iteration, overall)
      // In memory: what the replay gave at the start, and one more for every call.
      ensures iteration == Replay(Readable(log, fails), me).agent + calls
      ensures overall == Replay(Readable(log, fails), me).overall + calls
      // The ceilings.
      ensures Within(limits, agentBound, overallBound) && 1 <= old(maxIterations) <= agentBound
              && AllWithin(turns, agentBound, overallBound) ==>
        && iteration <= Max(Replay(Readable(log, fails), me).agent, agentBound + 1)
        && overall <= Max(Replay(Readable(log, fails), me).overall, overallBound)
        && (end.Unfinished? ==> iteration <= agentBound)
    {
      var configuredMax := maxIterations;
      var previousAgent, previousOverall := GetPreviousIterationCounts(log, fails);
      wrapup, contextTruncated := NoWrapup, false;
      RefreshIterationLimits(limits);
      after, iteration, overall, end, calls :=
        Iterate(log, previousAgent, previousOverall, configuredMax, limits, turns, agentBound, overallBound);
      maxIterations := configuredMax;
    }
  }

  // ---------- The ticket's whole life ----------

  datatype Session = Session(
    me: Identity,
    configured: nat,
    fails: Option<nat>,
    limits: Limits,
    turns: seq<Turn>,
    between: seq<Event>)   // recorded after the run and before the next

  predicate Possible(s: Session) {
    && (forall i :: 0 <= i < |s.turns| ==> AllQuiet(s.turns[i].noise))
    && (forall i :: 0 <= i < |s.between| ==> !s.between[i].LlmRequest?)
  }

  /** Fixed, non-zero limits, read without failures. */
  predicate Limited(s: Session, bounds: AgentType -> nat, overallBound: nat) {
    var bound := bounds(s.me.agentType);
    && s.fails.None? && 1 <= s.configured <= bound
    && Within(s.limits, bound, overallBound) && AllWithin(s.turns, bound, overallBound)
  }

  /** What the bound on a run's counter says about the log it leaves. */
  lemma RunStaysWithin(log: seq<Event>, after: seq<Event>, me: Identity, calls: nat, bound: nat, t: AgentType)
    requires NoCallBackdated(log) && Follows(log, after, me, calls)
    requires Replay(Sorted(log), me).agent + calls <= Max(Replay(Sorted(log), me).agent, bound + 1)
    ensures t != me.agentType ==> Typed(after, t) == Typed(log, t)
    ensures t == me.agentType ==> Typed(after, t) <= Max(Typed(log, t), bound + 1)
  {
    assert after == log + after[|log|..];
    RunGrowsItsOwnType(log, after[|log|..], me, t);
    SortingIsConservative(log, me.agentType);
    ReplayIsConservative(Sorted(log), me);
  }

  /** No type exceeds its limit by more than the grace call within an epoch, and the ticket never
      exceeds its own; what an older log already exceeded does not grow. */
  ghost predicate Ceilings(start: seq<Event>, log: seq<Event>, bounds: AgentType -> nat, overallBound: nat) {
    && (forall t: AgentType :: Typed(log, t) <= Max(Typed(start, t), bounds(t) + 1))
    && Total(log) <= Max(Total(start), overallBound)
  }

  ghost predicate AllLimited(sessions: seq<Session>, bounds: AgentType -> nat, overallBound: nat) {
    forall i :: 0 <= i < |sessions| ==> Limited(sessions[i], bounds, overallBound)
  }

  lemma SessionKeepsCeilings(start: seq<Event>, log: seq<Event>, after: seq<Event>, s: Session, calls: nat,
                             bounds: AgentType -> nat, overallBound: nat)
    requires Ceilings(start, log, bounds, overallBound) && Possible(s)
    requires NoCallBackdated(log) && Follows(log, after, s.me, calls)
    requires Replay(Sorted(log), s.me).agent + calls <= Max(Replay(Sorted(log), s.me).agent, bounds(s.me.agentType) + 1)
    requires Replay(Sorted(log), s.me).overall + calls <= Max(Replay(Sorted(log), s.me).overall, overallBound)
    ensures Ceilings(start, after + s.between, bounds, overallBound)
  {
    ReplayIsConservative(Sorted(log), s.me);
    SortingKeepsTotal(log);
    forall t: AgentType
      ensures Typed(after + s.between, t) <= Max(Typed(start, t), bounds(t) + 1)
    {
      RunStaysWithin(log, after, s.me, calls, bounds(s.me.agentType), t);
      BetweenRunsNothingGrows(after, s.between, t);
    }
    BetweenRunsNothingGrows(after, s.between, s.me.agentType);
  }

  lemma EarlierIsNotBackdated(log: seq<Event>, later: seq<Event>)
    requires log <= later && NoCallBackdated(later)
    ensures NoCallBackdated(log)
  {
    assert forall i :: 0 <= i < |log| ==> log[i] == later[i];
  }

  /** One run and what is recorded before the next. */
  method RunSession(ghost start: seq<Event>, log: seq<Event>, s: Session, ghost bounds: AgentType -> nat,
                    ghost overallBound: nat) returns (next: seq<Event>)
    requires Possible(s)
    ensures log <= next
    ensures (|next| <= LOG_PAGE && NoCallBackdated(next) && Limited(s, bounds, overallBound)
             && Ceilings(start, log, bounds, overallBound)) ==> Ceilings(start, next, bounds, overallBound)
  {
    var agent := new AgentBase(s.me, s.configured);
    var after, _, _, _, calls := agent.Run(log, s.fails, s.limits, s.turns, bounds(s.me.agentType), overallBound);
    next := after + s.between;
    if |next| <= LOG_PAGE && NoCallBackdated(next) && Limited(s, bounds, overallBound)
       && Ceilings(start, log, bounds, overallBound) {
      EarlierIsNotBackdated(log, next);
      assert log[..|log|] == log && Readable(log, s.fails) == Sorted(log);
      SessionKeepsCeilings(start, log, after, s, calls, bounds, overallBound);
    }
  }

  /** Any sequence of runs, deaths and restarts, as long as the log fits the page that is read
      and no call is backdated before an epoch. */
  method RunTicket(start: seq<Event>, sessions: seq<Session>, ghost bounds: AgentType -> nat, ghost overallBound: nat)
    returns (log: seq<Event>)
    requires forall i :: 0 <= i < |sessions| ==> Possible(sessions[i])
    ensures |log| <= LOG_PAGE && NoCallBackdated(log) && AllLimited(sessions, bounds, overallBound) ==>
              Ceilings(start, log, bounds, overallBound)
  {
    log := start;
    ghost var limited := AllLimited(sessions, bounds, overallBound);
    for i := 0 to |sessions|
      invariant |log| <= LOG_PAGE && NoCallBackdated(log) && limited ==> Ceilings(start, log, bounds, overallBound)
    {
      var next := RunSession(start, log, sessions[i], bounds, overallBound);
      if NoCallBackdated(next) {
        EarlierIsNotBackdated(log, next);
      }
      log := next;
    }
  }

  // ---------- When the replay grants too much ----------

  function CallAt(at: int): Event { LlmRequest(at, Some(Triage), "") }

  /** One pass of an agent whose limit is one call, and whose replay counts none. */
  method OneCall(start: seq<Event>, fails: Option<nat>) returns (log: seq<Event>)
    requires Replay(Readable(start, fails), Identity(Triage, "")).agent == 0
    requires Replay(Readable(start, fails), Identity(Triage, "")).overall < 100
    ensures Typed(log, Triage) == Typed(start, Triage) + 1
  {
    var me := Identity(Triage, "");
    var agent := new AgentBase(me, 1);
    var turn := Turn(false, None, 0, Retried, []);
    var iteration, overall, end;
    ghost var calls;
    log, iteration, overall, end, calls := agent.Run(start, fails, Limits(Some(1), 100), [turn], 1, 100);
    assert log == start + log[|start|..];
    RunGrowsItsOwnType(start, log[|start|..], me, Triage);
  }

  /** A log that could not be read grants the whole allowance again: three calls under a limit of one. */
  method UnreadLogOverruns() returns (log: seq<Event>)
    ensures Typed(log, Triage) == 3
  {
    var start := [CallAt(0), CallAt(0)];
    assert start[..1] == [CallAt(0)] && start[..1][..0] == [];
    assert Readable(start, Some(0)) == [];
    log := OneCall(start, Some(0));
  }

  lemma {:induction false} OthersCountNothing(log: seq<Event>, me: Identity)
    requires forall i :: 0 <= i < |log| ==> log[i] == Other(0)
    ensures Replay(log, me) == NOTHING && Sorted(log) == log
  {
    if log != [] {
      OthersCountNothing(log[..|log| - 1], me);
    }
  }

  /** So does a log of which the page shows only the first part. */
  method LongLogOverruns() returns (log: seq<Event>)
    ensures Typed(log, Triage) == 3
  {
    var page := seq(LOG_PAGE, _ => Other(0));
    var start := page + [CallAt(0)] + [CallAt(0)];
    OthersCountNothing(page, Identity(Triage, ""));
    ReplayIsConservative(page, Identity(Triage, ""));
    assert start[..|start| - 1] == page + [CallAt(0)] && (page + [CallAt(0)])[..|page|] == page;
    assert start[..LOG_PAGE] == page;
    log := OneCall(start, None);
  }

  lemma OneMore(log: seq<Event>, e: Event)
    ensures Sorted(log + [e]) == Insert(Sorted(log), e)
    ensures Typed(log + [e], Triage) == if e.Epoch? then 0 else Typed(log, Triage) + if CallOf(e, Triage) then 1 else 0
  {
    assert (log + [e])[..|log|] == log;
  }

  lemma InsertBefore(sorted: seq<Event>, last: Event, e: Event)
    requires last.at > e.at
    ensures Insert(sorted + [last], e) == Insert(sorted, e) + [last]
  {
    assert (sorted + [last])[..|sorted|] == sorted;
  }

  lemma EpochSortsLast(epoch: Event, first: Event, second: Event)
    requires epoch.Epoch? && CallOf(first, Triage) && CallOf(second, Triage) && first.at <= second.at < epoch.at
    ensures Sorted([epoch, first, second]) == [first, second, epoch]
    ensures Typed([epoch, first, second], Triage) == 2
  {
    OneMore([], epoch);
    OneMore([epoch], first);
    OneMore([epoch, first], second);
    InsertBefore([], epoch, first);
    InsertBefore([first], epoch, second);
    assert [] + [epoch] == [epoch] && [epoch] + [first] == [epoch, first];
    assert [epoch, first] + [second] == [epoch, first, second];
    assert [] + [first] == [first] && [first] + [epoch] == [first, epoch];
  }

  lemma EpochForgets(epoch: Event, first: Event, second: Event, me: Identity)
    requires epoch == Epoch(10) && first == CallAt(5) && second == CallAt(6)
    ensures Replay([first, second, epoch], me).agent == 0 && Replay([first, second, epoch], me).overall == 2
  {
    ReplayOneMore([], first, me);
    ReplayOneMore([first], second, me);
    ReplayOneMore([first, second], epoch, me);
    assert [] + [first] == [first] && [first] + [second] == [first, second];
    assert [first, second] + [epoch] == [first, second, epoch];
  }

  /** And so does a clock that steps back after an epoch: the calls sort before it. */
  method BackdatedCallsOverrun() returns (log: seq<Event>)
    ensures Typed(log, Triage) == 3
  {
    var start := [Epoch(10), CallAt(5), CallAt(6)];
    EpochSortsLast(Epoch(10), CallAt(5), CallAt(6));
    EpochForgets(Epoch(10), CallAt(5), CallAt(6), Identity(Triage, ""));
    assert start[..3] == start;
    log := OneCall(start, None);
  }
}
