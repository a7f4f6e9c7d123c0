/**
One tool call of the MCP client, from `call_tool` down to the request on the wire, through the
provider hook, a lost session, a reconnect, a refusal, a timeout or a cancellation at any await.

What an await brings (a result, an exception, a cancellation, a registry that changed meanwhile)
is a script given to the methods, so every claim holds for every behaviour of the environment.
The audit log holds the events recorded for this call's action.
*/
module Dispatch {
  import opened Wrappers

  datatype Classification = Validation | IntentionalAgentRetry | TransportBeforeSend | AmbiguousAfterSend

  datatype LifecycleState =
    | Connecting | Connected | Reconnected | RequestSent | Disconnected
    | Failed | Cancelled | TimedOut | Rejected | ShortCircuited | ResponseReceived

  predicate IsTerminal(s: LifecycleState) {
    s.Failed? || s.Cancelled? || s.TimedOut? || s.Rejected? || s.ShortCircuited? || s.ResponseReceived?
  }

  datatype AuditEvent = AuditEvent(state: LifecycleState, phase: Option<string>)

  /** How many events of the log end the action under that tool name. */
  function Terminals(log: seq<AuditEvent>, name: string): nat {
    if log == [] then 0
    else (if IsTerminal(log[0].state) && log[0].phase == Some(name) then 1 else 0) + Terminals(log[1..], name)
  }

  lemma {:induction false} TerminalsAdd(a: seq<AuditEvent>, b: seq<AuditEvent>, name: string)
    ensures Terminals(a + b, name) == Terminals(a, name) + Terminals(b, name)
  {
    if a == [] {
      assert a + b == b;
    } else {
      assert (a + b)[1..] == a[1..] + b;
      TerminalsAdd(a[1..], b, name);
    }
  }

  // Names under which connecting a server records its own events.
  const CONNECTION_PHASES := {"initialize", "list_tools", "server_exit"}

  predicate ConnectionEvents(events: seq<AuditEvent>) {
    forall i :: 0 <= i < |events| ==> events[i].phase.None? || events[i].phase.value in CONNECTION_PHASES
  }

  // ---------- What the environment may do ----------

  datatype ReconnectEnd = CameBack | StayedAway | ReconnectCancelled(timeout: bool)

  datatype ReconnectScript = ReconnectScript(events: seq<AuditEvent>, end: ReconnectEnd)

  datatype Recheck = Allowed | Refused | RefreshFailed(timedOut: bool) | RecheckCancelled(timeout: bool)

  datatype Reply = Answered(isError: bool) | ReplyCancelled(timeout: bool) | TransportLost | ReplyFailed

  /** `sessionOpen`, `hasParams`: of the connection at hand. `routeHolds`: the route and the new
      connection are as the dispatch wants them after `reconnect`. `newHasParams`: of the new
      connection. `repair`: the reconnect after the transport was lost under the request. */
  datatype Script = Script(
    sessionOpen: bool,
    hasParams: bool,
    reconnect: ReconnectScript,
    routeHolds: bool,
    newHasParams: bool,
    recheck: Recheck,
    reply: Reply,
    repair: ReconnectScript)

  /** The script of the dispatch that follows a successful reconnect. */
  function AfterReconnect(sc: Script): Script {
    sc.(sessionOpen := true, hasParams := sc.newHasParams)
  }

  /** Whether the dispatch gets as far as handing the request to the session. */
  predicate ReachesServer(sc: Script, reconnectedRoute: bool) {
    if sc.sessionOpen then !reconnectedRoute || sc.recheck.Allowed?
    else sc.hasParams && sc.reconnect.end.CameBack? && sc.routeHolds && sc.recheck.Allowed?
  }

  /** What connecting records before the request is sent, and after its transport was lost. */
  function ConnectsBefore(sc: Script): seq<AuditEvent> {
    if !sc.sessionOpen && sc.hasParams then sc.reconnect.events else []
  }

  function ConnectsAfter(sc: Script, reconnectedRoute: bool): seq<AuditEvent> {
    var hasParams := if sc.sessionOpen then sc.hasParams else sc.newHasParams;
    if ReachesServer(sc, reconnectedRoute) && sc.reply.TransportLost? && hasParams then sc.repair.events else []
  }

  function Connects(sc: Script, reconnectedRoute: bool): seq<AuditEvent> {
    ConnectsBefore(sc) + ConnectsAfter(sc, reconnectedRoute)
  }

  datatype Admission = NoServer | StaleRoute | BadContext | NotOwned | Admitted

  datatype HookResult = HookResult(
    isError: bool,
    requestSent: bool,
    classification: Classification,
    auditRecorded: bool)

  /** What an ordinary hook may do: it sends no request by this client, whatever its result says. */
  datatype LocalHook =
    | Passes
    | AnswersText
    | AnswersResult(result: HookResult)
    | RaisesToolError(classification: Classification)
    | RaisesOther
    | IsCancelled

  datatype InnerRoute = InnerNoServer | InnerNoConnection | InnerRouted

  /** How the hook's wait for its dispatch task ended. */
  datatype Wait = TaskFinished | WaitTimedOut | WaitCancelled

  datatype CallScript = CallScript(
    admission: Admission,
    local: LocalHook,
    inner: InnerRoute,
    wait: Wait,
    dispatch: Script)

  const JMP_CONNECT := "jmp_connect"

  /** Which hook the client has: an ordinary one (or none), or Jumpstarter's, already connected
      to a board or not. */
  datatype HookKind = Ordinary | Jumpstarter(connected: bool)

  /** Whether the call is dispatched from inside the provider hook. */
  predicate Inside(sc: CallScript, name: string, kind: HookKind) {
    sc.admission.Admitted? && kind == Jumpstarter(false) && name == JMP_CONNECT
  }

  /** Whether the call goes on to the ordinary dispatch after the hook. */
  predicate PastHook(sc: CallScript, name: string, kind: HookKind) {
    sc.admission.Admitted? && if kind.Jumpstarter? then name != JMP_CONNECT else sc.local.Passes?
  }

  /** The dispatch task was refused before any dispatch, after the hook stopped waiting for it. */
  predicate LateRejection(sc: CallScript, name: string, kind: HookKind) {
    Inside(sc, name, kind) && !sc.inner.InnerRouted? && !sc.wait.TaskFinished?
  }

  /** The hook's result says that its end is on record already. */
  predicate SettledByHook(sc: CallScript, kind: HookKind) {
    && sc.admission.Admitted? && kind.Ordinary? && sc.local.AnswersResult?
    && if sc.local.result.isError then sc.local.result.auditRecorded else sc.local.result.requestSent
  }

  function TerminalCount(sc: CallScript, name: string, kind: HookKind): nat {
    if SettledByHook(sc, kind) then 0 else if LateRejection(sc, name, kind) then 2 else 1
  }

  /** What connecting records during the call. */
  function CallConnects(sc: CallScript, name: string, kind: HookKind): seq<AuditEvent> {
    if (Inside(sc, name, kind) && sc.inner.InnerRouted?) || PastHook(sc, name, kind)
    then Connects(sc.dispatch, false)
    else []
  }

  lemma {:induction false} ConnectionEventsOther(events: seq<AuditEvent>, name: string)
    requires ConnectionEvents(events) && name !in CONNECTION_PHASES
    ensures Terminals(events, name) == 0
  {
    if events != [] {
      assert events[0].phase != Some(name);
      ConnectionEventsOther(events[1..], name);
    }
  }

  /** Connecting ends nothing under a tool name that is not one of its own. */
  lemma ConnectsEndNothing(sc: CallScript, name: string, kind: HookKind)
    requires ConnectionEvents(sc.dispatch.reconnect.events) && ConnectionEvents(sc.dispatch.repair.events)
    requires name !in CONNECTION_PHASES
    ensures Terminals(CallConnects(sc, name, kind), name) == 0
  {
    ConnectionEventsOther(CallConnects(sc, name, kind), name);
  }

  // ---------- What a call records, event by event ----------

  function Event(state: LifecycleState, name: string): AuditEvent { AuditEvent(state, Some(name)) }

  function CancelState(timeout: bool): LifecycleState { if timeout then TimedOut else Cancelled }

  function RefusalState(c: Classification): LifecycleState { if c.Validation? then Rejected else Failed }

  function RepairState(end: ReconnectEnd): LifecycleState {
    if end.ReconnectCancelled? then CancelState(end.timeout) else Failed
  }

  function LossTrail(name: string, sc: Script): seq<AuditEvent> {
    if !sc.hasParams then [Event(Failed, name)]
    else [Event(Disconnected, name)] + sc.repair.events + [Event(RepairState(sc.repair.end), name)]
  }

  /** From the request on the wire to its end. */
  function ReplyTrail(name: string, sc: Script): seq<AuditEvent> {
    [Event(RequestSent, name)] +
    match sc.reply
    case Answered(isError) => [Event(if isError then Failed else ResponseReceived, name)]
    case ReplyCancelled(timeout) => [Event(CancelState(timeout), name)]
    case ReplyFailed => [Event(Failed, name)]
    case TransportLost => LossTrail(name, sc)
  }

  /** A dispatch over an open session: rechecked first when it follows a reconnect. */
  function OpenTrail(name: string, sc: Script, reconnectedRoute: bool): seq<AuditEvent> {
    if !reconnectedRoute then ReplyTrail(name, sc)
    else
      match sc.recheck
      case Allowed => ReplyTrail(name, sc)
      case Refused => [Event(Rejected, name)]
      case RefreshFailed(timedOut) => [Event(if timedOut then TimedOut else Failed, name)]
      case RecheckCancelled(timeout) => [Event(CancelState(timeout), name)]
  }

  function DispatchTrail(name: string, sc: Script, reconnectedRoute: bool): seq<AuditEvent> {
    if sc.sessionOpen then OpenTrail(name, sc, reconnectedRoute)
    else if !sc.hasParams then [Event(Failed, name)]
    else
      sc.reconnect.events +
      if sc.reconnect.end.CameBack? && sc.routeHolds then OpenTrail(name, AfterReconnect(sc), true)
      else [Event(RepairState(sc.reconnect.end), name)]
  }

  function AfterHook(name: string, wait: Wait): seq<AuditEvent> {
    match wait
    case TaskFinished => []
    case WaitTimedOut => [Event(Failed, name)]
    case WaitCancelled => [Event(Cancelled, name)]
  }

  /** The dispatch task inside Jumpstarter's hook, and what the call adds when the hook does not
      know that the task ended it. */
  function InnerTrail(name: string, sc: CallScript): seq<AuditEvent> {
    match sc.inner
    case InnerRouted => DispatchTrail(name, sc.dispatch, false)
    case InnerNoServer => [Event(Rejected, name)] + AfterHook(name, sc.wait)
    case InnerNoConnection => [Event(Failed, name)] + AfterHook(name, sc.wait)
  }

  /** A hook's own result: what it recorded itself is not recorded again. */
  function AnswerTrail(name: string, result: HookResult): seq<AuditEvent> {
    if result.isError then if result.auditRecorded then [] else [Event(RefusalState(result.classification), name)]
    else if result.requestSent then [] else [Event(ShortCircuited, name)]
  }

  function LocalTrail(name: string, sc: CallScript): seq<AuditEvent> {
    match sc.local
    case Passes => DispatchTrail(name, sc.dispatch, false)
    case AnswersText => [Event(ShortCircuited, name)]
    case AnswersResult(result) => AnswerTrail(name, result)
    case RaisesToolError(c) => [Event(RefusalState(c), name)]
    case RaisesOther => [Event(Failed, name)]
    case IsCancelled => [Event(Cancelled, name)]
  }

  function CallTrail(name: string, sc: CallScript, kind: HookKind): seq<AuditEvent> {
    match sc.admission
    case NoServer => [Event(Rejected, name)]
    case StaleRoute => [Event(Failed, name)]
    case BadContext => [Event(Rejected, name)]
    case NotOwned => [Event(Rejected, name)]
    case Admitted =>
      if kind.Ordinary? then LocalTrail(name, sc)
      else if name != JMP_CONNECT then DispatchTrail(name, sc.dispatch, false)
      else if kind.connected then [Event(Failed, name)]
      else InnerTrail(name, sc)
  }

  lemma ReplyEndsOnce(name: string, sc: Script)
    requires sc.sessionOpen
    ensures Terminals(ReplyTrail(name, sc), name) == 1 + Terminals(ConnectsAfter(sc, false), name)
  {
    var sent := [Event(RequestSent, name)];
    TerminalsAdd(sent, ReplyTrail(name, sc)[1..], name);
    assert ReplyTrail(name, sc) == sent + ReplyTrail(name, sc)[1..];
    if sc.reply.TransportLost? && sc.hasParams {
      var lost, last := [Event(Disconnected, name)], [Event(RepairState(sc.repair.end), name)];
      TerminalsAdd(lost + sc.repair.events, last, name);
      TerminalsAdd(lost, sc.repair.events, name);
      assert ReplyTrail(name, sc)[1..] == lost + sc.repair.events + last;
    }
  }

  lemma OpenEndsOnce(name: string, sc: Script, reconnectedRoute: bool)
    requires sc.sessionOpen
    ensures Terminals(OpenTrail(name, sc, reconnectedRoute), name) == 1 + Terminals(ConnectsAfter(sc, reconnectedRoute), name)
  {
    ReplyEndsOnce(name, sc);
    if ReachesServer(sc, reconnectedRoute) {
      assert ConnectsAfter(sc, reconnectedRoute) == ConnectsAfter(sc, false);
    }
  }

  /** A dispatch records exactly one terminal event under its tool's name, besides those of
      connecting, whichever of its exits it takes. */
  lemma DispatchEndsOnce(name: string, sc: Script, reconnectedRoute: bool)
    ensures Terminals(DispatchTrail(name, sc, reconnectedRoute), name) ==
            1 + Terminals(Connects(sc, reconnectedRoute), name)
  {
    TerminalsAdd(ConnectsBefore(sc), ConnectsAfter(sc, reconnectedRoute), name);
    if sc.sessionOpen {
      OpenEndsOnce(name, sc, reconnectedRoute);
    } else if sc.hasParams {
      var rest := if sc.reconnect.end.CameBack? && sc.routeHolds then OpenTrail(name, AfterReconnect(sc), true)
                  else [Event(RepairState(sc.reconnect.end), name)];
      TerminalsAdd(sc.reconnect.events, rest, name);
      OpenEndsOnce(name, AfterReconnect(sc), true);
    }
  }

  /** The whole call records exactly one terminal event, besides those of connecting: none if a
      hook's result says that it is on record already, and two after a late rejection. */
  lemma CallEndsExactly(name: string, sc: CallScript, kind: HookKind)
    ensures Terminals(CallTrail(name, sc, kind), name) ==
            TerminalCount(sc, name, kind) + Terminals(CallConnects(sc, name, kind), name)
  {
    DispatchEndsOnce(name, sc.dispatch, false);
    if Inside(sc, name, kind) && !sc.inner.InnerRouted? {
      TerminalsAdd([Event(if sc.inner.InnerNoServer? then Rejected else Failed, name)], AfterHook(name, sc.wait), name);
    }
  }

  // ---------- Results ----------

  datatype DispatchEnd = Returned(result: HookResult) | CancelledOut(auditRecorded: bool)

  datatype HookReturn = HookPasses | HookAnswer(result: HookResult) | HookCancelled(marked: bool)

  datatype CallEnd = Success | ToolError(classification: Classification) | CallCancelled

  predicate BeforeSend(c: Classification) { c.Validation? || c.TransportBeforeSend? }

  /** The record a hook shares with the dispatch task it creates. */
  class DispatchAuditState {
    var terminalRecorded: bool
    var requestSent: Option<bool>
    var classification: Option<Classification>

    constructor ()
      ensures Fresh()
    {
      terminalRecorded, requestSent, classification := false, None, None;
    }

    ghost predicate Fresh()
      reads this
    {
      !terminalRecorded && requestSent == None && classification == None
    }

    /** What it says about the request is true. */
    ghost predicate Truthful(sent: bool)
      reads this
    {
      && (requestSent.Some? ==> requestSent.value == sent)
      && (classification.Some? && BeforeSend(classification.value) ==> !sent)
    }
  }

  class Client {
    var log: seq<AuditEvent>
    var sends: nat
    const recording: bool

    constructor (recording: bool)
      ensures log == [] && sends == 0 && this.recording == recording
    {
      log, sends, this.recording := [], 0, recording;
    }

    /** With recording on, the log gains these events. */
    twostate predicate Logs(events: seq<AuditEvent>)
      reads this
    {
      log == old(log) + if recording then events else []
    }

    method RecordBoundary(state: LifecycleState, name: string) returns (recorded: bool)
      modifies this`log
      ensures recorded == recording
      ensures Logs([Event(state, name)])
    {
      if recording {
        log := log + [AuditEvent(state, Some(name))];
      }
      return recording;
    }

    /** Reconnecting records its own events and settles the outcome the script names. */
    method Reconnect(sc: ReconnectScript) returns (end: ReconnectEnd)
      modifies this`log
      ensures end == sc.end
      ensures Logs(sc.events)
    {
      if recording {
        log := log + sc.events;
      }
      return sc.end;
    }

    method Settle(st: DispatchAuditState?, recorded: bool, sent: Option<bool>, classification: Option<Classification>)
      modifies st
      ensures st != null ==> st.terminalRecorded == recorded
      ensures st != null ==> st.requestSent == if sent.Some? then sent else old(st.requestSent)
      ensures st != null ==> st.classification == if sent.Some? then classification else old(st.classification)
    {
      if st != null {
        st.terminalRecorded := recorded;
        if sent.Some? {
          st.requestSent := sent;
          st.classification := classification;
        }
      }
    }

    method RecordReconnectCancellation(name: string, timeout: bool, sent: bool, st: DispatchAuditState?)
      returns (end: DispatchEnd)
      modifies this`log, st
      ensures end == CancelledOut(recording)
      ensures Logs([Event(CancelState(timeout), name)])
      ensures st != null ==> st.terminalRecorded == recording && st.Truthful(sent)
    {
      var recorded := RecordBoundary(if timeout then TimedOut else Cancelled, name);
      Settle(st, recorded, Some(sent), Some(if sent then AmbiguousAfterSend else TransportBeforeSend));
      return CancelledOut(recorded);
    }

    /** A dispatch that returns records its terminal event and hands the audit state over. */
    method Finish(name: string, state: LifecycleState, isError: bool, sent: bool, classification: Classification,
                  st: DispatchAuditState?)
      returns (end: DispatchEnd)
      requires IsTerminal(state) && (BeforeSend(classification) ==> !sent)
      requires st != null ==> st.Fresh()
      modifies this`log, st
      ensures end == Returned(HookResult(isError, sent, classification, recording))
      ensures Logs([Event(state, name)])
      ensures st != null ==> st.terminalRecorded == recording && st.Truthful(sent)
    {
      var recorded := RecordBoundary(state, name);
      // Only the exits before the request was sent say so in the audit state.
      Settle(st, recorded, if sent then None else Some(false), Some(classification));
      return Returned(HookResult(isError, sent, classification, recorded));
    }

    /** The outcome of one dispatch tells the truth about whether the request was sent. */
    ghost predicate Honest(end: DispatchEnd, sent: bool) {
      match end
      case CancelledOut(auditRecorded) => auditRecorded == recording
      case Returned(result) =>
        && result.auditRecorded == recording
        && (result.requestSent <==> sent)
        && (!result.isError ==> sent)
        && (BeforeSend(result.classification) ==> !sent)
    }

    /** The connection is repaired for later calls; this request is not sent again. */
    method LoseTransport(name: string, sc: Script, st: DispatchAuditState?) returns (end: DispatchEnd)
      requires st != null ==> st.Fresh()
      modifies this`log, st
      ensures Logs(LossTrail(name, sc))
      ensures Honest(end, true)
      ensures st != null ==> st.terminalRecorded == recording && st.Truthful(true)
    {
      if sc.hasParams {
        var recorded := RecordBoundary(Disconnected, name);
        var outcome := Reconnect(sc.repair);
        if outcome.ReconnectCancelled? {
          end := RecordReconnectCancellation(name, outcome.timeout, true, st);
          return;
        }
      }
      end := Finish(name, Failed, true, true, AmbiguousAfterSend, st);
    }

    method SendRequest(name: string, sc: Script, st: DispatchAuditState?) returns (end: DispatchEnd)
      requires st != null ==> st.Fresh()
      requires sc.sessionOpen
      modifies this`log, this`sends, st
      ensures sends == old(sends) + 1
      ensures Logs(ReplyTrail(name, sc))
      ensures Honest(end, true)
      ensures st != null ==> st.terminalRecorded == recording && st.Truthful(true)
    {
      var recorded := RecordBoundary(RequestSent, name);
      sends := sends + 1;
      match sc.reply
      case ReplyCancelled(timeout) =>
        recorded := RecordBoundary(if timeout then TimedOut else Cancelled, name);
        if recorded {
          Settle(st, recorded, Some(true), Some(AmbiguousAfterSend));
        }
        end := CancelledOut(recorded);
      case TransportLost => end := LoseTransport(name, sc, st);
      case ReplyFailed =>
        end := Finish(name, Failed, true, true, AmbiguousAfterSend, st);
      case Answered(isError) =>
        end := Finish(name, if isError then Failed else ResponseReceived, isError, true, IntentionalAgentRetry, st);
    }

    /** A dispatch over an open session. */
    method DispatchOpen(name: string, sc: Script, st: DispatchAuditState?, reconnectedRoute: bool)
      returns (end: DispatchEnd)
      requires (st != null ==> st.Fresh()) && sc.sessionOpen
      modifies this`log, this`sends, st
      ensures sends == old(sends) + if ReachesServer(sc, reconnectedRoute) then 1 else 0
      ensures Logs(OpenTrail(name, sc, reconnectedRoute))
      ensures Honest(end, ReachesServer(sc, reconnectedRoute))
      ensures st != null ==> st.terminalRecorded == recording && st.Truthful(ReachesServer(sc, reconnectedRoute))
    {
      if reconnectedRoute {
        match sc.recheck
        case RecheckCancelled(timeout) =>
          end := RecordReconnectCancellation(name, timeout, false, st);
          return;
        case RefreshFailed(timedOut) =>
          end := Finish(name, if timedOut then TimedOut else Failed, true, false, TransportBeforeSend, st);
          return;
        case Refused =>
          end := Finish(name, Rejected, true, false, Validation, st);
          return;
        case Allowed =>
      }

      end := SendRequest(name, sc, st);
    }

    /** A lost session is reconnected, and then the request goes to the new connection. */
    method ReconnectAndDispatch(name: string, sc: Script, st: DispatchAuditState?) returns (end: DispatchEnd)
      requires st != null ==> st.Fresh()
      modifies this`log, this`sends, st
      ensures var goesOn := sc.reconnect.end.CameBack? && sc.routeHolds;
        && Logs(sc.reconnect.events + if goesOn then OpenTrail(name, AfterReconnect(sc), true)
                                      else [Event(RepairState(sc.reconnect.end), name)])
        && var sent := goesOn && sc.recheck.Allowed?;
           && sends == old(sends) + (if sent then 1 else 0) && Honest(end, sent)
           && (st != null ==> st.terminalRecorded == recording && st.Truthful(sent))
    {
      var outcome := Reconnect(sc.reconnect);
      ghost var connected, trail := log, [Event(RepairState(outcome), name)];
      if outcome.ReconnectCancelled? {
        end := RecordReconnectCancellation(name, outcome.timeout, false, st);
      } else if outcome.CameBack? && sc.routeHolds {
        end := DispatchOpen(name, AfterReconnect(sc), st, true);
        trail := OpenTrail(name, AfterReconnect(sc), true);
      } else {
        end := Finish(name, Failed, true, false, TransportBeforeSend, st);
      }
      assert recording ==> log == connected + trail;
      assert old(log) + sc.reconnect.events + trail == old(log) + (sc.reconnect.events + trail);
    }

    method DispatchMcpRequest(name: string, sc: Script, st: DispatchAuditState?, reconnectedRoute: bool)
      returns (end: DispatchEnd)
      requires st != null ==> st.Fresh()
      requires reconnectedRoute ==> sc.sessionOpen
      modifies this`log, this`sends, st
      ensures sends == old(sends) + if ReachesServer(sc, reconnectedRoute) then 1 else 0
      ensures Logs(DispatchTrail(name, sc, reconnectedRoute))
      ensures Honest(end, ReachesServer(sc, reconnectedRoute))
      ensures st != null ==> st.terminalRecorded == recording && st.Truthful(ReachesServer(sc, reconnectedRoute))
    {
      if sc.sessionOpen {
        end := DispatchOpen(name, sc, st, reconnectedRoute);
      } else if sc.hasParams {
        end := ReconnectAndDispatch(name, sc, st);
      } else {
        end := Finish(name, Failed, true, false, TransportBeforeSend, st);
      }
    }

    /** A hook's own result ends the call; what it recorded itself is not recorded again. */
    method EndWithAnswer(name: string, result: HookResult) returns (end: CallEnd)
      modifies this`log
      ensures end == if result.isError then ToolError(result.classification) else Success
      ensures Logs(AnswerTrail(name, result))
    {
      var recorded;
      if result.isError {
        if !result.auditRecorded {
          recorded := RecordBoundary(if result.classification.Validation? then Rejected else Failed, name);
        }
        return ToolError(result.classification);
      }
      if !result.requestSent {
        recorded := RecordBoundary(ShortCircuited, name);
      }
      return Success;
    }

    /** The whole call, for every hook and everything that may happen at its awaits. */
    method CallTool(name: string, sc: CallScript, hook: JumpstarterHook?) returns (end: CallEnd)
      modifies this`log, this`sends, hook
      ensures var kind := if hook == null then Ordinary else Jumpstarter(old(hook.connected));
        Logs(CallTrail(name, sc, kind))
      ensures sends <= old(sends) + 1
      ensures end.ToolError? && BeforeSend(end.classification) ==> sends == old(sends)
      ensures end.Success? ==>
        sends == old(sends) + 1 || (hook == null && (sc.local.AnswersText? || sc.local.AnswersResult?))
    {
      var recorded;
      match sc.admission {
        case NoServer =>
          recorded := RecordBoundary(Rejected, name);
          return ToolError(Validation);
        case StaleRoute =>
          recorded := RecordBoundary(Failed, name);
          return ToolError(TransportBeforeSend);
        case BadContext | NotOwned =>
          recorded := RecordBoundary(Rejected, name);
          return ToolError(Validation);
        case Admitted =>
      }
      var answer := HookPasses;
      if hook != null {
        answer := hook.PreCall(this, name, sc);
      } else {
        match sc.local {
          case IsCancelled =>
            recorded := RecordBoundary(Cancelled, name);
            return CallCancelled;
          case RaisesToolError(c) =>
            recorded := RecordBoundary(if c.Validation? then Rejected else Failed, name);
            return ToolError(c);
          case RaisesOther =>
            recorded := RecordBoundary(Failed, name);
            return ToolError(AmbiguousAfterSend);
          case AnswersText =>
            recorded := RecordBoundary(ShortCircuited, name);
            return Success;
          case AnswersResult(result) => answer := HookAnswer(result);
          case Passes =>
        }
      }
      match answer {
        case HookCancelled(marked) =>
          if !marked {
            recorded := RecordBoundary(Cancelled, name);
          }
          return CallCancelled;
        case HookAnswer(result) =>
          end := EndWithAnswer(name, result);
          return;
        case HookPasses =>
      }
      var dispatched := DispatchMcpRequest(name, sc.dispatch, null, false);
      if dispatched.CancelledOut? {
        return CallCancelled;
      }
      if dispatched.result.isError {
        return ToolError(dispatched.result.classification);
      }
      return Success;
    }
  }

  /** Jumpstarter's hook, which dispatches `jmp_connect` from inside the call. */
  class JumpstarterHook {
    var connected: bool

    constructor ()
      ensures !connected
    {
      connected := false;
    }

    /** The dispatch task. Refused before the dispatch proper, it records its own terminal event
        but leaves the shared audit state untouched. */
    method DispatchInternal(client: Client, name: string, sc: CallScript, st: DispatchAuditState)
      returns (end: DispatchEnd)
      requires st.Fresh()
      modifies client`log, client`sends, st
      ensures var sent := sc.inner.InnerRouted? && ReachesServer(sc.dispatch, false);
        && client.sends == old(client.sends) + (if sent then 1 else 0)
        && st.Truthful(sent)
        && (client.recording ==> client.Honest(end, sent))
        && (end.Returned? && !end.result.isError ==> end.result.requestSent && sent)
        && (end.Returned? && BeforeSend(end.result.classification) ==> !sent)
      ensures client.Logs(match sc.inner
                          case InnerRouted => DispatchTrail(name, sc.dispatch, false)
                          case InnerNoServer => [Event(Rejected, name)]
                          case InnerNoConnection => [Event(Failed, name)])
      ensures st.terminalRecorded <==> sc.inner.InnerRouted? && client.recording
      ensures !sc.inner.InnerRouted? ==> st.Fresh() && end.Returned? && end.result.isError
    {
      var recorded;
      match sc.inner
      case InnerNoServer =>
        recorded := client.RecordBoundary(Rejected, name);
        end := Returned(HookResult(true, false, Validation, true));
      case InnerNoConnection =>
        recorded := client.RecordBoundary(Failed, name);
        end := Returned(HookResult(true, false, TransportBeforeSend, true));
      case InnerRouted =>
        end := client.DispatchMcpRequest(name, sc.dispatch, st, false);
    }

    method PreCall(client: Client, name: string, sc: CallScript) returns (answer: HookReturn)
      requires sc.admission.Admitted?
      modifies this, client`log, client`sends
      ensures answer.HookPasses? <==> name != JMP_CONNECT
      ensures client.sends <= old(client.sends) + 1
      ensures !Inside(sc, name, Jumpstarter(old(connected))) ==>
        client.log == old(client.log) && client.sends == old(client.sends)
      ensures name == JMP_CONNECT && old(connected) ==>
        answer == HookAnswer(HookResult(true, false, IntentionalAgentRetry, false))
      ensures Inside(sc, name, Jumpstarter(old(connected))) ==>
        client.Logs(match sc.inner
                    case InnerRouted => DispatchTrail(name, sc.dispatch, false)
                    case InnerNoServer => [Event(Rejected, name)]
                    case InnerNoConnection => [Event(Failed, name)])
      ensures Inside(sc, name, Jumpstarter(old(connected))) && client.recording ==>
        match answer
        case HookPasses => false
        case HookCancelled(marked) =>
          && (marked <==> !LateRejection(sc, name, Jumpstarter(old(connected))))
          && (!marked ==> sc.wait.WaitCancelled?)
        case HookAnswer(result) =>
          && (result.auditRecorded <==> !LateRejection(sc, name, Jumpstarter(old(connected))))
          && (LateRejection(sc, name, Jumpstarter(old(connected))) ==>
                sc.wait.WaitTimedOut? && result.isError && result.classification.AmbiguousAfterSend?)
      ensures answer.HookAnswer? && BeforeSend(answer.result.classification) ==> client.sends == old(client.sends)
      ensures answer.HookAnswer? && !answer.result.isError ==>
        answer.result.requestSent && client.sends == old(client.sends) + 1
    {
      if name != JMP_CONNECT {
        return HookPasses;
      }
      if connected {
        return HookAnswer(HookResult(true, false, IntentionalAgentRetry, false));
      }
      var st := new DispatchAuditState();
      var inner := DispatchInternal(client, name, sc, st);
      if sc.wait.WaitTimedOut? {
        var sent, classification := true, AmbiguousAfterSend;
        if st.requestSent.Some? && st.classification.Some? {
          sent, classification := st.requestSent.value, st.classification.value;
        }
        return HookAnswer(HookResult(true, sent, classification, st.terminalRecorded));
      }
      if sc.wait.WaitCancelled? || inner.CancelledOut? {
        return HookCancelled(st.terminalRecorded);
      }
      if inner.result.isError {
        return HookAnswer(inner.result);
      }
      connected := true;
      return HookAnswer(HookResult(false, inner.result.requestSent, IntentionalAgentRetry, inner.result.auditRecorded));
    }
  }

  /** One terminal event is not recorded in every call: here the server went away before the
      dispatch task looked for it, and the caller was cancelled before it saw the refusal. */
  method LateRejectionEndsTwice() returns (terminals: nat)
    ensures terminals == 2
  {
    var client := new Client(true);
    var hook := new JumpstarterHook();
    var never := ReconnectScript([], StayedAway);
    var dispatch := Script(true, true, never, true, true, Allowed, Answered(false), never);
    var sc := CallScript(Admitted, Passes, InnerNoServer, WaitCancelled, dispatch);
    var end := client.CallTool(JMP_CONNECT, sc, hook);
    CallEndsExactly(JMP_CONNECT, sc, Jumpstarter(false));
    assert client.log == CallTrail(JMP_CONNECT, sc, Jumpstarter(false));
    terminals := Terminals(client.log, JMP_CONNECT);
  }

  /** Nor for a tool that is named like a phase of connecting, once the call reconnects. */
  method ReservedNameEndsTwice() returns (terminals: nat)
    ensures terminals == 2
  {
    var client := new Client(true);
    var listed := [AuditEvent(ResponseReceived, Some("list_tools"))];
    var back := ReconnectScript(listed, CameBack);
    var dispatch := Script(false, true, back, true, true, Allowed, Answered(false), ReconnectScript([], StayedAway));
    var sc := CallScript(Admitted, Passes, InnerRouted, TaskFinished, dispatch);
    var end := client.CallTool("list_tools", sc, null);
    CallEndsExactly("list_tools", sc, Ordinary);
    assert client.log == CallTrail("list_tools", sc, Ordinary) && Connects(dispatch, false) == listed;
    terminals := Terminals(client.log, "list_tools");
  }
}
