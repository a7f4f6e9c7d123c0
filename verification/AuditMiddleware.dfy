/**
One tool call inside a server process: audit the request, claim and launch the protected
operation, run the handler under a heartbeat, audit the outcome, settle the operation.

The log holds what this call did and which of its requests were acknowledged, in order. Any
acknowledgement may be lost, any step may raise, and the process may die after any step: a
dead call's log is a prefix of one of these, and the rules below hold of every prefix.
*/
module AuditMiddleware {
  import ReplayCache

  datatype AuditState = ResponseSent | FailedState | CancelledState | IndeterminateState

  /** A step that names an acknowledgement is taken when the acknowledgement arrives, one that
      ends in `Asked` when the request is sent. */
  datatype Step =
    | RequestAudited
    | Claimed
    | MarkedPrepared
    | MarkedStarted
    | HandlerStarted
    | HandlerReturned(isError: bool)
    | HeartbeatStopped            // it ended by itself, every renewal acknowledged
    | HeartbeatCut                // a cancellation ended it while the call waited for it to stop
    | HeartbeatFailed
    | IndeterminateAsked
    | TerminalAudited(state: AuditState)
    | FinalAsked(complete: bool)
    | FinalAcked
    | ResultReturned

  predicate Settling(past: set<Step>) {
    FinalAsked(true) in past || FinalAsked(false) in past
  }

  predicate Ended(past: set<Step>) {
    || TerminalAudited(ResponseSent) in past || TerminalAudited(FailedState) in past
    || TerminalAudited(CancelledState) in past || TerminalAudited(IndeterminateState) in past
  }

  /** The order a call must keep: what has to be behind it, and what must not be, at each step. */
  predicate Allowed(isProtected: bool, past: set<Step>, step: Step) {
    match step
    case RequestAudited => past == {}
    case Claimed => isProtected && RequestAudited in past
    case MarkedPrepared => Claimed in past && IndeterminateAsked !in past
    case MarkedStarted => MarkedPrepared in past && IndeterminateAsked !in past
    case HandlerStarted =>
      && RequestAudited in past && HandlerStarted !in past
      && (isProtected ==> MarkedStarted in past && IndeterminateAsked !in past)
    case HandlerReturned(_) => HandlerStarted in past
    case HeartbeatStopped => MarkedStarted in past
    case HeartbeatCut => MarkedStarted in past
    case HeartbeatFailed => MarkedStarted in past
    case IndeterminateAsked => Claimed in past && !Settling(past)
    case TerminalAudited(_) => RequestAudited in past && !Ended(past)
    case FinalAsked(complete) =>
      && HandlerReturned(!complete) in past
      && TerminalAudited(if complete then ResponseSent else FailedState) in past
      && (HeartbeatStopped in past || HeartbeatCut in past) && HeartbeatFailed !in past
      && IndeterminateAsked !in past && !Settling(past)
    case FinalAcked => Settling(past)
    case ResultReturned =>
      && (HandlerReturned(true) in past || HandlerReturned(false) in past)
      && Ended(past) && (isProtected ==> FinalAcked in past)
  }

  function Steps(log: seq<Step>): set<Step> {
    if log == [] then {} else Steps(log[..|log| - 1]) + {log[|log| - 1]}
  }

  /** Every step of the log was allowed by the steps behind it. */
  ghost predicate CrashSafe(isProtected: bool, log: seq<Step>) {
    log == [] ||
    (CrashSafe(isProtected, log[..|log| - 1]) && Allowed(isProtected, Steps(log[..|log| - 1]), log[|log| - 1]))
  }

  /** A process that dies after any step leaves a log that keeps the order too. */
  lemma {:induction false} CrashSafeAtEveryStep(isProtected: bool, log: seq<Step>, died: nat)
    requires CrashSafe(isProtected, log) && died <= |log|
    ensures CrashSafe(isProtected, log[..died])
    ensures died < |log| ==> Allowed(isProtected, Steps(log[..died]), log[died])
  {
    if died == |log| {
      assert log[..died] == log;
    } else if died < |log| - 1 {
      assert log[..|log| - 1][..died] == log[..died];
      CrashSafeAtEveryStep(isProtected, log[..|log| - 1], died);
    }
  }

  lemma {:induction false} Earlier(log: seq<Step>, i: nat, step: Step) returns (j: nat)
    requires i <= |log| && step in Steps(log[..i])
    ensures j < i && log[j] == step
  {
    assert log[..i][..i - 1] == log[..i - 1];
    if log[i - 1] == step {
      j := i - 1;
    } else {
      j := Earlier(log, i - 1, step);
    }
  }

  lemma {:induction false} Later(log: seq<Step>, j: nat, i: nat)
    requires j < i <= |log|
    ensures log[j] in Steps(log[..i])
  {
    assert log[..i][..i - 1] == log[..i - 1];
    if j < i - 1 {
      Later(log, j, i - 1);
    }
  }

  /** The write-ahead chain, spelled out: a protected handler starts only after the acknowledged
      request audit, `prepared` and `side-effect-started`, in that order. */
  lemma StartsInOrder(log: seq<Step>, h: nat) returns (r: nat, p: nat, s: nat)
    requires CrashSafe(true, log) && h < |log| && log[h] == HandlerStarted
    ensures r < p < s < h
    ensures log[r] == RequestAudited && log[p] == MarkedPrepared && log[s] == MarkedStarted
  {
    CrashSafeAtEveryStep(true, log, h);
    s := Earlier(log, h, MarkedStarted);
    CrashSafeAtEveryStep(true, log, s);
    p := Earlier(log, s, MarkedPrepared);
    CrashSafeAtEveryStep(true, log, p);
    var c := Earlier(log, p, Claimed);
    CrashSafeAtEveryStep(true, log, c);
    r := Earlier(log, c, RequestAudited);
  }

  /** A final transition is asked for only after the terminal audit that matches the handler's
      result; an operation that was reported indeterminate is never settled, before or after;
      and it is settled at most once. */
  lemma SettledInOrder(isProtected: bool, log: seq<Step>, f: nat, complete: bool) returns (h: nat, t: nat)
    requires CrashSafe(isProtected, log) && f < |log| && log[f] == FinalAsked(complete)
    ensures h < f && log[h] == HandlerReturned(!complete)
    ensures t < f && log[t] == TerminalAudited(if complete then ResponseSent else FailedState)
    ensures forall g :: 0 <= g < |log| && g != f ==> !log[g].FinalAsked? && log[g] != IndeterminateAsked
  {
    CrashSafeAtEveryStep(isProtected, log, f);
    h := Earlier(log, f, HandlerReturned(!complete));
    t := Earlier(log, f, TerminalAudited(if complete then ResponseSent else FailedState));
    forall g | 0 <= g < |log| && g != f
      ensures !log[g].FinalAsked? && log[g] != IndeterminateAsked
    {
      CrashSafeAtEveryStep(isProtected, log, g);
      if g > f {
        Later(log, f, g);
      } else {
        Later(log, g, f);
      }
    }
  }

  /** A fresh result of a protected call stands on an acknowledged final transition that matches
      what the handler returned. */
  lemma {:induction false} ResultStandsOnSettlement(log: seq<Step>, n: nat)
    requires CrashSafe(true, log) && n < |log| && log[n] == ResultReturned
    ensures FinalAcked in Steps(log[..n]) && Settling(Steps(log[..n]))
  {
    CrashSafeAtEveryStep(true, log, n);
    var a := Earlier(log, n, FinalAcked);
    CrashSafeAtEveryStep(true, log, a);
    var complete := FinalAsked(true) in Steps(log[..a]);
    var f := Earlier(log, a, FinalAsked(complete));
    Later(log, f, n);
  }

  // ---------- What the environment may do ----------

  datatype ClaimOutcome = NoIdentity | NoRegistry | ClaimLost | Stored(intact: bool) | NotAcquired | Acquired

  datatype Handler = Returns(isError: bool) | Raises | Cancelled

  /** One turn of the heartbeat: it is told to stop, or the interval runs out and it renews. */
  datatype Tick = StopSet | Renewal(acknowledged: bool)

  datatype Heartbeat = StopsCleanly | RenewalFails | CutShort

  /** How a heartbeat that meets these turns ends; it is cut short when none of them ends it. */
  function HeartbeatOf(ticks: seq<Tick>): Heartbeat {
    if ticks == [] then CutShort
    else if ticks[0].StopSet? then StopsCleanly
    else if !ticks[0].acknowledged then RenewalFails
    else HeartbeatOf(ticks[1..])
  }

  /** A clean stop means that every renewal up to it was acknowledged; and a heartbeat that met
      its stop without a lost acknowledgement before it stopped cleanly. */
  lemma {:induction false} CleanStopMeansRenewed(ticks: seq<Tick>, k: nat)
    requires k < |ticks| && ticks[k].StopSet? && forall j :: 0 <= j < k ==> ticks[j].Renewal?
    ensures HeartbeatOf(ticks).StopsCleanly? <==> forall j :: 0 <= j < k ==> ticks[j].acknowledged
  {
    if k > 0 && ticks[0].acknowledged {
      CleanStopMeansRenewed(ticks[1..], k - 1);
      assert forall j :: 1 <= j < k ==> ticks[j] == ticks[1..][j - 1];
      assert forall j :: 0 <= j < k - 1 ==> ticks[1..][j] == ticks[j + 1];
    }
  }

  /** A false field is an acknowledgement that does not arrive, or a step that raises. */
  datatype Script = Script(
    identityValid: bool,
    transportAvailable: bool,
    requestAudit: bool,
    claim: ClaimOutcome,
    duplicateAudit: bool,
    prepared: bool,
    started: bool,
    handler: Handler,
    ticks: seq<Tick>,
    sanitized: bool,
    terminalAudit: bool,
    indeterminate: bool,
    described: bool,
    final: bool)

  datatype CallEnd = FreshResult | StoredResult | Refused | Raised

  /** Every acknowledgement a fresh result of a protected handler depends on. */
  predicate AllAcknowledged(sc: Script) {
    && sc.identityValid && sc.transportAvailable && sc.requestAudit && sc.claim.Acquired?
    && sc.prepared && sc.started && sc.handler.Returns? && !HeartbeatOf(sc.ticks).RenewalFails?
    && sc.sanitized && sc.terminalAudit && sc.described && sc.final
  }

  /** Writing one more step to the log. */
  method Append(isProtected: bool, log: seq<Step>, step: Step) returns (after: seq<Step>)
    requires CrashSafe(isProtected, log) && Allowed(isProtected, Steps(log), step)
    ensures CrashSafe(isProtected, after) && after == log + [step]
    ensures Steps(after) == Steps(log) + {step}
  {
    after := log + [step];
    assert after[..|after| - 1] == log;
  }

  class MCPAuditMiddleware {
    var seen: ReplayCache.Cache

    constructor ()
      ensures fresh(seen) && seen.Valid() && seen.history == []
    {
      seen := new ReplayCache.Cache();
    }

    /** A terminal event, or, when it is not acknowledged, a request to mark the operation. */
    method EmitTerminal(isProtected: bool, log: seq<Step>, state: AuditState, sc: Script)
      returns (after: seq<Step>, raised: bool)
      requires CrashSafe(isProtected, log) && RequestAudited in Steps(log)
      requires !Ended(Steps(log)) && !Settling(Steps(log))
      requires isProtected ==> Claimed in Steps(log)
      ensures CrashSafe(isProtected, after)
      ensures raised <==> !sc.terminalAudit
      ensures Steps(after) == Steps(log) +
        if !raised then {TerminalAudited(state)} else if isProtected then {IndeterminateAsked} else {}
    {
      if sc.terminalAudit {
        after := Append(isProtected, log, TerminalAudited(state));
        return after, false;
      }
      if isProtected {
        after := Append(isProtected, log, IndeterminateAsked);
        return after, true;
      }
      return log, true;
    }

    /** The two exception handlers: after a cancellation and after anything else. */
    method AfterException(isProtected: bool, log: seq<Step>, sc: Script, cancelled: bool) returns (after: seq<Step>)
      requires CrashSafe(isProtected, log) && RequestAudited in Steps(log)
      requires !Ended(Steps(log)) && !Settling(Steps(log)) && ResultReturned !in Steps(log)
      requires isProtected ==> Claimed in Steps(log)
      ensures CrashSafe(isProtected, after)
      ensures !Settling(Steps(after)) && ResultReturned !in Steps(after)
    {
      after := log;
      if isProtected {
        after := Append(isProtected, after, IndeterminateAsked);
        if !sc.indeterminate {
          return;
        }
      }
      var raised;
      after, raised := EmitTerminal(isProtected, after, if cancelled then CancelledState else FailedState, sc);
    }

    /** The heartbeat's own loop. */
    method RenewOperationLease(ticks: seq<Tick>) returns (heartbeat: Heartbeat)
      ensures heartbeat == HeartbeatOf(ticks)
    {
      var k := 0;
      while k < |ticks|
        invariant 0 <= k <= |ticks| && HeartbeatOf(ticks) == HeartbeatOf(ticks[k..])
      {
        match ticks[k] {
          case StopSet => return StopsCleanly;
          case Renewal(acknowledged) =>
            if !acknowledged {
              return RenewalFails;
            }
        }
        k := k + 1;
      }
      return CutShort;
    }

    static predicate Unsettled(past: set<Step>) {
      !Ended(past) && !Settling(past) && IndeterminateAsked !in past && FinalAcked !in past && ResultReturned !in past
    }

    /** The handler returned under a protected claim, and nothing was settled or reported yet. */
    static predicate ReadyToSettle(past: set<Step>, sc: Script)
      requires sc.handler.Returns?
    {
      && RequestAudited in past && Claimed in past && HandlerReturned(sc.handler.isError) in past
      && StopStep(HeartbeatOf(sc.ticks)) in past
      && (HeartbeatStopped in past <==> HeartbeatOf(sc.ticks).StopsCleanly?)
      && (HeartbeatFailed in past <==> HeartbeatOf(sc.ticks).RenewalFails?)
      && Unsettled(past)
    }

    /** The handler returned: how the heartbeat ended goes on record. */
    method StopOperationLeaseRenewal(past: seq<Step>, sc: Script) returns (log: seq<Step>)
      requires CrashSafe(true, past) && sc.handler.Returns? && Unsettled(Steps(past))
      requires RequestAudited in Steps(past) && Claimed in Steps(past) && MarkedStarted in Steps(past)
      requires HandlerReturned(sc.handler.isError) in Steps(past)
      requires HeartbeatStopped !in Steps(past) && HeartbeatFailed !in Steps(past)
      ensures CrashSafe(true, log) && ReadyToSettle(Steps(log), sc)
    {
      var heartbeat := RenewOperationLease(sc.ticks);
      log := Append(true, past, StopStep(heartbeat));
    }

    /** The handler under its heartbeat, up to the heartbeat's end or an exception's report. */
    method RunHandler(isProtected: bool, past: seq<Step>, sc: Script) returns (log: seq<Step>, returned: bool)
      requires CrashSafe(isProtected, past)
      requires Steps(past) == if isProtected then {RequestAudited, Claimed, MarkedPrepared, MarkedStarted}
                                             else {RequestAudited}
      ensures CrashSafe(isProtected, log)
      ensures returned <==> sc.handler.Returns?
      ensures returned && isProtected ==> ReadyToSettle(Steps(log), sc)
      ensures returned && !isProtected ==> Steps(log) == {RequestAudited, HandlerStarted, HandlerReturned(sc.handler.isError)}
      ensures !returned ==> !Settling(Steps(log)) && ResultReturned !in Steps(log)
    {
      log := Append(isProtected, past, HandlerStarted);
      if !sc.handler.Returns? {
        log := AfterException(isProtected, log, sc, sc.handler.Cancelled?);
        return log, false;
      }
      log := Append(isProtected, log, HandlerReturned(sc.handler.isError));
      if isProtected {
        log := StopOperationLeaseRenewal(log, sc);
      }
      returned := true;
    }

    /** `prepared`, then `side-effect-started`, each acknowledged before the next step. */
    method Launch(past: seq<Step>, sc: Script) returns (log: seq<Step>, launched: bool)
      requires Steps(past) == {RequestAudited, Claimed} && CrashSafe(true, past)
      ensures CrashSafe(true, log)
      ensures launched <==> sc.prepared && sc.started
      ensures launched ==> Steps(log) == {RequestAudited, Claimed, MarkedPrepared, MarkedStarted}
      ensures !launched ==> !Settling(Steps(log)) && ResultReturned !in Steps(log)
    {
      if !sc.prepared {
        log := AfterException(true, past, sc, false);
        return log, false;
      }
      log := Append(true, past, MarkedPrepared);
      if !sc.started {
        log := AfterException(true, log, sc, false);
        return log, false;
      }
      log := Append(true, log, MarkedStarted);
      return log, true;
    }

    method SettleOrdinary(past: seq<Step>, sc: Script) returns (log: seq<Step>, end: CallEnd)
      requires CrashSafe(false, past) && sc.handler.Returns?
      requires Steps(past) == {RequestAudited, HandlerStarted, HandlerReturned(sc.handler.isError)}
      ensures CrashSafe(false, log)
      ensures end.FreshResult? <==> ResultReturned in Steps(log)
    {
      var raised;
      log, raised := EmitTerminal(false, past, if sc.handler.isError then FailedState else ResponseSent, sc);
      if raised {
        return log, Raised;
      }
      log := Append(false, log, ResultReturned);
      end := FreshResult;
    }

    /** The final transition; without its acknowledgement there is no result. */
    method FinishOperation(past: seq<Step>, complete: bool, acknowledged: bool) returns (log: seq<Step>, end: CallEnd)
      requires CrashSafe(true, past) && Allowed(true, Steps(past), FinalAsked(complete))
      requires FinalAcked !in Steps(past) && ResultReturned !in Steps(past)
      ensures CrashSafe(true, log)
      ensures end.FreshResult? <==> acknowledged
      ensures end.FreshResult? <==> ResultReturned in Steps(log)
      ensures FinalAsked(complete) in Steps(log)
      ensures HeartbeatStopped in Steps(log) <==> HeartbeatStopped in Steps(past)
    {
      log := Append(true, past, FinalAsked(complete));
      if !acknowledged {
        return log, Raised;
      }
      log := Append(true, log, FinalAcked);
      log := Append(true, log, ResultReturned);
      end := FreshResult;
    }

    method MarkRenewalFailure(past: seq<Step>, sc: Script) returns (log: seq<Step>)
      requires CrashSafe(true, past) && RequestAudited in Steps(past) && Claimed in Steps(past)
      requires !Ended(Steps(past)) && !Settling(Steps(past)) && ResultReturned !in Steps(past)
      ensures CrashSafe(true, log)
      ensures !Settling(Steps(log)) && ResultReturned !in Steps(log) && IndeterminateAsked in Steps(log)
    {
      var raised;
      log, raised := EmitTerminal(true, past, IndeterminateState, sc);
      if !raised {
        log := Append(true, log, IndeterminateAsked);
      }
    }

    /** From the handler's result to the caller's: audit it, then settle the operation. */
    method SettleProtected(past: seq<Step>, sc: Script) returns (log: seq<Step>, end: CallEnd)
      requires CrashSafe(true, past) && sc.handler.Returns? && ReadyToSettle(Steps(past), sc)
      ensures CrashSafe(true, log)
      ensures end.FreshResult? <==> ResultReturned in Steps(log)
      ensures end.FreshResult? <==> !HeartbeatOf(sc.ticks).RenewalFails? && sc.terminalAudit && sc.described && sc.final
      ensures end.FreshResult? ==> FinalAsked(!sc.handler.isError) in Steps(log)
      ensures Settling(Steps(log)) ==> (HeartbeatStopped in Steps(log) <==> !HeartbeatOf(sc.ticks).CutShort?)
    {
      if HeartbeatOf(sc.ticks).RenewalFails? {
        log := MarkRenewalFailure(past, sc);
        return log, Raised;
      }
      var raised;
      log, raised := EmitTerminal(true, past, if sc.handler.isError then FailedState else ResponseSent, sc);
      if raised || !sc.described {
        return log, Raised;
      }
      log, end := FinishOperation(log, !sc.handler.isError, sc.final);
    }

    method Guarded(isProtected: bool, past: seq<Step>, sc: Script) returns (log: seq<Step>, end: CallEnd)
      requires Steps(past) == if isProtected then {RequestAudited, Claimed} else {RequestAudited}
      requires CrashSafe(isProtected, past)
      ensures CrashSafe(isProtected, log)
      ensures end.FreshResult? <==> ResultReturned in Steps(log)
      ensures isProtected ==> (end.FreshResult? <==>
        && sc.prepared && sc.started && sc.handler.Returns? && !HeartbeatOf(sc.ticks).RenewalFails?
        && sc.sanitized && sc.terminalAudit && sc.described && sc.final)
      ensures isProtected && end.FreshResult? ==> sc.handler.Returns? && FinalAsked(!sc.handler.isError) in Steps(log)
      ensures isProtected && Settling(Steps(log)) ==> (HeartbeatStopped in Steps(log) <==> !HeartbeatOf(sc.ticks).CutShort?)
    {
      log, end := past, Raised;
      if isProtected {
        var launched;
        log, launched := Launch(log, sc);
        if !launched {
          return;
        }
      }
      var returned;
      log, returned := RunHandler(isProtected, log, sc);
      if !returned {
        return;
      }
      if !sc.sanitized {
        return;
      }
      if isProtected {
        log, end := SettleProtected(log, sc);
      } else {
        log, end := SettleOrdinary(log, sc);
      }
    }

    method OnCallTool(isProtected: bool, id: string, action: string, sc: Script) returns (log: seq<Step>, end: CallEnd)
      requires seen.Valid()
      modifies seen
      ensures seen.Valid()
      ensures CrashSafe(isProtected, log)
      ensures end.FreshResult? <==> ResultReturned in Steps(log)
      ensures isProtected ==> (end.FreshResult? <==>
        AllAcknowledged(sc) && id !in ReplayCache.Latest(old(seen.history), ReplayCache.MAX_REPLAY_CACHE))
      // It settles the operation the way the handler ended.
      ensures isProtected && end.FreshResult? ==> sc.handler.Returns? && FinalAsked(!sc.handler.isError) in Steps(log)
      // The final transition was asked for after a clean stop of the heartbeat, unless a
      // cancellation arrived while the call waited for that stop.
      ensures isProtected && Settling(Steps(log)) ==> (HeartbeatStopped in Steps(log) <==> !HeartbeatOf(sc.ticks).CutShort?)
      // The handler runs at most once per sighting of a correlation id.
      ensures HandlerStarted in Steps(log) ==>
        && seen.history == old(seen.history) + [id]
        && id !in ReplayCache.Latest(old(seen.history), ReplayCache.MAX_REPLAY_CACHE)
    {
      log, end := [], Raised;
      if !sc.identityValid || !sc.transportAvailable || !sc.requestAudit {
        return;
      }
      log := Append(isProtected, log, RequestAudited);
      if isProtected {
        if !sc.claim.Acquired? {
          end := if !sc.duplicateAudit then Raised else if sc.claim.Stored? && sc.claim.intact then StoredResult else Refused;
          return;
        }
        log := Append(isProtected, log, Claimed);
      }
      var prior := seen.Sight(id, action);
      if prior.Some? {
        return;
      }
      log, end := Guarded(isProtected, log, sc);
    }
  }

  function StopStep(heartbeat: Heartbeat): Step {
    match heartbeat
    case StopsCleanly => HeartbeatStopped
    case CutShort => HeartbeatCut
    case RenewalFails => HeartbeatFailed
  }

  /** The case the clean stop is lost in: everything is acknowledged, the call is cancelled while
      it waits for the heartbeat, and `complete` is asked for all the same. */
  method CutShortStillCompletes(middleware: MCPAuditMiddleware) returns (log: seq<Step>, end: CallEnd)
    requires middleware.seen.Valid() && middleware.seen.history == []
    modifies middleware.seen
    ensures end.FreshResult? && FinalAsked(true) in Steps(log) && HeartbeatStopped !in Steps(log)
  {
    var sc := Script(true, true, true, Acquired, true, true, true, Returns(false), [], true, true, true, true, true);
    log, end := middleware.OnCallTool(true, "id", "action", sc);
  }
}
