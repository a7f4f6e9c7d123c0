/**
The durable record of one protected operation, as the trace store keeps it: who may claim it,
which transitions a fencing token allows, and how its lease runs out. Each function is one
transaction of the store on the row of one operation key.
*/
module OperationStore {
  import opened Wrappers

  datatype Outcome = Succeeded | Failed | CancelledOutcome | Rejected | Indeterminate

  datatype OpState = Registered | LeaseAcquired | Prepared | SideEffectStarted | Terminal(outcome: Outcome)

  datatype Operation = Operation(
    requestHash: string,
    state: OpState,
    owner: Option<string>,
    expires: Option<int>,
    fence: nat)

  const MAX_FENCE: nat := 0x7fff_ffff_ffff_ffff

  datatype Claim = Acquired(fence: nat) | Existing | AlreadyTerminal | Refused

  predicate Expired(op: Operation, now: int) {
    op.expires.None? || op.expires.value <= now
  }

  /** Register the key if it is new, then claim it unless it is held, launched or finished. */
  function Acquire(row: Option<Operation>, requestHash: string, owner: string, ttl: int, now: int)
    : (Option<Operation>, Claim)
  {
    if owner == "" || ttl <= 0 then (row, Refused)
    else if row.Some? && row.value.requestHash != requestHash then (row, Refused)
    else
      var op := if row.Some? then row.value else Operation(requestHash, Registered, None, None, 0);
      if op.state.Terminal? then (Some(op), AlreadyTerminal)
      else if op.state.SideEffectStarted? then (Some(op), Refused)
      else if op.owner.Some? && !Expired(op, now) then
        (Some(op), if op.owner.value == owner then Existing else Refused)
      else if op.fence >= MAX_FENCE then (Some(op), Refused)
      else
        (Some(Operation(op.requestHash, LeaseAcquired, Some(owner), Some(now + ttl), op.fence + 1)),
         Acquired(op.fence + 1))
  }

  predicate Legal(from: OpState, to: OpState) {
    || (from.LeaseAcquired? && (to.Prepared? || to.Terminal?))
    || (from.Prepared? && (to.SideEffectStarted? || to.Terminal?))
    || (from.SideEffectStarted? && to.Terminal?)
  }

  predicate MayTransition(op: Operation, owner: string, fence: nat, to: OpState, reconcile: bool, now: int) {
    && op.owner == Some(owner) && op.fence == fence
    && (op.state.Terminal? || op.expires.None? || reconcile || op.expires.value > now)
    && Legal(op.state, to)
    && (reconcile ==> op.state.SideEffectStarted?)
  }

  /** A fenced transition; None when the store refuses it and leaves the row as it is. */
  function Transition(op: Operation, owner: string, fence: nat, to: OpState, reconcile: bool, now: int)
    : Option<Operation>
  {
    if !MayTransition(op, owner, fence, to, reconcile, now) then None
    else Some(op.(state := to, expires := if to.Terminal? then None else op.expires))
  }

  function Renew(op: Operation, owner: string, fence: nat, ttl: int, now: int): Option<Operation> {
    if ttl <= 0 || op.owner != Some(owner) || op.fence != fence || Expired(op, now) then None
    else Some(op.(expires := Some(now + ttl)))
  }

  // ---------- Requests, and the row after one ----------

  datatype Request =
    | Claiming(requestHash: string, ttl: int)
    | Moving(fence: nat, to: OpState, reconcile: bool)
    | Renewing(fence: nat, ttl: int)

  /** The row after a request, and the fence of the answer when the request took effect. */
  function Serve(row: Option<Operation>, owner: string, r: Request, now: int): (Option<Operation>, Option<nat>) {
    match r
    case Claiming(requestHash, ttl) =>
      var (row', claim) := Acquire(row, requestHash, owner, ttl, now);
      (row', if claim.Acquired? then Some(claim.fence) else None)
    case Moving(fence, to, reconcile) =>
      if row.None? then (row, None)
      else
        var op := Transition(row.value, owner, fence, to, reconcile, now);
        if op.Some? then (op, Some(fence)) else (row, None)
    case Renewing(fence, ttl) =>
      if row.None? then (row, None)
      else
        var op := Renew(row.value, owner, fence, ttl, now);
        if op.Some? then (op, Some(fence)) else (row, None)
  }

  predicate Launched(row: Option<Operation>) {
    row.Some? && (row.value.state.SideEffectStarted? || row.value.state.Terminal?)
  }

  /** A launched operation stays launched: whatever is asked of it, by whom and however late, it
      is never claimed or started again, and once terminal its outcome is final. */
  lemma LaunchedIsFinal(row: Option<Operation>, owner: string, r: Request, now: int)
    requires Launched(row)
    ensures Launched(Serve(row, owner, r, now).0)
    ensures r.Claiming? ==> Serve(row, owner, r, now).1.None?
    ensures r.Moving? && r.to.SideEffectStarted? ==> Serve(row, owner, r, now).1.None?
    ensures row.value.state.Terminal? ==> Serve(row, owner, r, now).0.value.state == row.value.state
  {
  }

  /** Fencing: a request that carries an overtaken fence changes nothing. */
  lemma StaleFenceChangesNothing(row: Option<Operation>, owner: string, r: Request, now: int)
    requires row.Some? && !r.Claiming? && r.fence < row.value.fence
    ensures Serve(row, owner, r, now) == (row, None)
  {
  }

  /** Each claim is granted under a fence above every fence granted before. */
  lemma ClaimsRaiseTheFence(row: Option<Operation>, owner: string, r: Request, now: int)
    requires r.Claiming? && Serve(row, owner, r, now).1.Some?
    ensures Serve(row, owner, r, now).1.value == 1 + if row.Some? then row.value.fence else 0
    ensures Serve(row, owner, r, now).0.Some? && Serve(row, owner, r, now).0.value.fence == Serve(row, owner, r, now).1.value
  {
  }
}
