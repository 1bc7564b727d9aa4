/** The runtime's submission and reconciliation protocol as a state machine: any number of workers on
    any number of intents, the venues, the operator and crashes, interleaved between transactions. */
module Protocol {
  import opened Types
  import opened StoreOps
  import opened LocalView
  import opened Settlement

  /** How an adapter call ended. No ending says anything about the venue. */
  datatype AdapterOutcome = Receipt | Ambiguous | Rejected | Broken

  /** What the settlement verifier handed back. */
  datatype Answer = Raised | Malformed | Answered(record: Record)

  /** Everything one step of a worker reads from outside the store: gate verdicts, clock, adapter,
      verifier. Every value of it is possible at every step. */
  datatype Choice = Choice(
    trusted: bool,
    active: bool,
    go: bool,
    adapter: bool,
    verdict: IntentState,
    reasons: seq<Reason>,
    now: int,
    expiresAt: int,
    permitId: string,
    risk: Risk,
    view: AnchorView,
    outcome: AdapterOutcome,
    answer: Answer)

  /** Where a worker stands between two transactions. */
  datatype Pc =
    | Entered
    | Reserving
    | Deferring
    | Authorizing
    | CommittingReservation
    | Submitting
    | Issuing
    | ClaimedRisk(risk: Risk)
    | Fenced(epoch: nat, fence: nat, risk: Risk)
    | PermitFailed(previousLive: bool)
    | Sending(permit: nat, expiresAt: int)
    | Awaiting(permit: nat, expiresAt: int)
    | Reconciles(allow: bool, block: Option<Reason>)
    | Verifying(seen: Seen)
    | VoidingAbsence(seen: Seen)
    | CheckingLedger(seen: Seen)
    | Absent(seen: Seen)
    | VoidingCancel(claimed: Option<EffectId>, previous: Option<EffectId>)
    | ClosingCancel(claimed: Option<EffectId>, previous: Option<EffectId>)
    | Stopping(reasons: seq<Reason>, previous: Option<EffectId>, release: bool)
    | StoppingVoided(reasons: seq<Reason>, previous: Option<EffectId>, release: bool)
    | ReleasingOnly
    | Finished

  /** The next transaction of a worker and where each of its answers leads. */
  datatype Plan = Plan(op: Op, done: Pc, otherwise: Pc, conflict: Pc)

  /** The transactions a worker of intent `i` ever issues. */
  predicate WorkerOp(op: Op, i: IntentId) {
    match op
    case Transition(id, _, _, _, _, _, _, _) => id == i
    case BeginSubmission(id, _, _, _) => id == i
    case ReserveUsage(intent, _, _, _, _) => intent.id == i
    case ReleaseUsage(id) => id == i
    case ClaimPermitRisk(intent, _, _) => intent.id == i
    case RecordPermit(permit, _, _) => permit.intent == i
    case VoidPermits(id) => id == i
    case NextFence(_, _, _) => true
    case Nothing => true
    case _ => false
  }

  function Quietly(pc: Pc): Plan {
    Plan(Nothing, pc, pc, pc)
  }

  function Move(i: IntentId, from: IntentState, to: IntentState, reasons: seq<Reason>, budget: Budget): Op {
    Transition(i, {from}, to, reasons, None, budget, None, None)
  }

  function Ending(op: Op): Plan {
    Plan(op, Finished, Finished, Finished)
  }

  /** Codes kept on the row while it moves to RECONCILING. */
  function BlockingOnly(reasons: seq<Reason>): (r: seq<Reason>)
    ensures Blocked(r) <==> Blocked(reasons)
  {
    if reasons == [] then []
    else
      var rest := BlockingOnly(reasons[1..]);
      assert Blocked(reasons) <==> Blocks(reasons[0]) || Blocked(reasons[1..]) by {
        assert Blocked(reasons[1..]) ==> exists k :: 1 <= k < |reasons| && Blocks(reasons[k]) by {
          if Blocked(reasons[1..]) {
            var k :| 0 <= k < |reasons[1..]| && Blocks(reasons[1..][k]);
            assert Blocks(reasons[k + 1]);
          }
        }
        if k :| 0 <= k < |reasons| && Blocks(reasons[k]) {
          assert k > 0 ==> Blocks(reasons[1..][k - 1]);
        }
      }
      if Blocks(reasons[0]) then assert Blocks(([reasons[0]] + rest)[0]); [reasons[0]] + rest else rest
  }

  predicate BeforeSubmission(s: IntentState) {
    s.Proposed? || s.Authorized? || s.Reserved?
  }

  function DenialState(c: Choice): IntentState {
    if c.verdict.Denied? || c.verdict.Deferred? then c.verdict else Stopped
  }

  const RUNTIME_STATUS := Gate("GRANT_RUNTIME_STATUS")

  /** The block a row's codes impose on whoever picks the intent up. */
  function DurableBlock(reasons: seq<Reason>): Option<Reason> {
    if Blocked(reasons) then Some(DeterministicFailure) else None
  }

  function PlanEntered(i: IntentId, row: IntentRow, trusted: bool, c: Choice): (plan: Plan)
    ensures WorkerOp(plan.op, i)
  {
    if Terminal(row.state) then Quietly(Finished)
    else if !trusted then
      if row.state == Proposed then Ending(Move(i, Proposed, Stopped, c.reasons, Release)) else Quietly(Finished)
    else if !c.active then
      if row.state == Proposed || row.state == Authorized then Ending(Move(i, row.state, Stopped, c.reasons, Release))
      else Quietly(Reconciles(false, Some(if Blocked(row.reasons) then DeterministicFailure else RUNTIME_STATUS)))
    else if row.state == Authorized then
      if !c.go then Ending(Move(i, Authorized, Stopped, c.reasons, Release))
      else Plan(Move(i, Authorized, Reserved, [], Keep), Submitting, Reconciles(true, None), Finished)
    else if row.state != Proposed then
      Quietly(Reconciles(!Blocked(row.reasons), DurableBlock(row.reasons)))
    else if !c.go then Ending(Move(i, Proposed, DenialState(c), c.reasons, Release))
    else if !c.adapter then Ending(Move(i, Proposed, Stopped, c.reasons, Release))
    else Quietly(Reserving)
  }

  function SeenBy(row: IntentRow, allow: bool, block: Option<Reason>): Seen {
    Seen(row.effect, row.filled, row.ambiguityUntil, allow, block)
  }

  function PlanReconciles(i: IntentId, row: IntentRow, trusted: bool, allow: bool, block: Option<Reason>,
                          c: Choice): (plan: Plan)
    ensures WorkerOp(plan.op, i)
  {
    var found := block.None? && Blocked(row.reasons);
    var seen := SeenBy(row, allow && !found, if found then Some(DeterministicFailure) else block);
    if Terminal(row.state) || !trusted then Quietly(Finished)
    else if !c.adapter then Quietly(Stopping([Gate("ADAPTER_NOT_CONFIGURED")], None, BeforeSubmission(row.state)))
    else if row.state.Confirmed? || row.state.Reserved? || row.state.Submitted? || row.state.Unknown? then
      Plan(Move(i, row.state, Reconciling, BlockingOnly(row.reasons), Keep), Verifying(seen), Verifying(seen), Finished)
    else if row.state == Reconciling then Quietly(Verifying(seen))
    else Quietly(Finished)
  }

  function ToUnknownPlan(i: IntentId, reasons: seq<Reason>): Plan {
    Ending(Move(i, Reconciling, Unknown, reasons, Keep))
  }

  const CLAIMED_ELSEWHERE := Stopping([EffectIdAlreadyClaimed], None, false)

  function PlanVerified(i: IntentId, row: IntentRow, skew: nat, seen: Seen, c: Choice): (plan: Plan)
    ensures WorkerOp(plan.op, i)
  {
    match c.answer
    case Raised => ToUnknownPlan(i, WithBlock(ReconciliationException, seen.block))
    case Malformed => Quietly(Stopping([SettlementRecordMalformed], seen.effect, false))
    case Answered(record) =>
      match Decide(row.intent, seen, skew, c.now, record)
      case ToUnknown(reasons) => ToUnknownPlan(i, reasons)
      case StopWith(reasons, previous) => Quietly(Stopping(reasons, previous, false))
      case Finalize(effect, filled, reasons) =>
        Plan(Transition(i, {Reconciling}, Finalized, reasons, Some(effect), Commit, None, filled), Finished,
             Finished, CLAIMED_ELSEWHERE)
      case Confirm(effect, filled, reasons) =>
        Plan(Transition(i, {Reconciling}, Confirmed, reasons, Some(effect), Keep, None, filled), Finished, Finished,
             CLAIMED_ELSEWHERE)
      case CancelUnfilled(claimed) => Quietly(VoidingCancel(claimed, seen.effect))
      case ActOnAbsence => Quietly(VoidingAbsence(seen))
  }

  function PlanAbsent(i: IntentId, seen: Seen, c: Choice): (plan: Plan)
    ensures WorkerOp(plan.op, i)
  {
    if !seen.allowResubmit then
      var reason := if seen.block.Some? then seen.block.value else ResubmissionBlocked;
      Ending(Move(i, Reconciling, if reason == DeterministicFailure then FailedSafe else Stopped, [reason], Release))
    else if !c.go then Ending(Move(i, Reconciling, Stopped, c.reasons, Release))
    else Quietly(Submitting)
  }

  function AdapterReason(outcome: AdapterOutcome): Reason {
    match outcome
    case Receipt => AwaitingIndependentSettlement
    case Ambiguous => ExecutionAmbiguous
    case Rejected => DeterministicFailureUnverified
    case Broken => AdapterExecutionException
  }

  function AfterAdapter(outcome: AdapterOutcome): Pc {
    if outcome == Rejected then Reconciles(false, Some(DeterministicFailure)) else Reconciles(true, None)
  }

  predicate InAttempt(pc: Pc) {
    pc.Issuing? || pc.ClaimedRisk? || pc.Fenced? || pc.PermitFailed? || pc.Sending? || pc.Awaiting?
  }

  /** Issuance and transport, entered with the row SUBMITTED by this worker. */
  function PlanAttempt(i: IntentId, l: Local, row: IntentRow, grant: Grant, pc: Pc, c: Choice): (plan: Plan)
    requires InAttempt(pc)
    ensures row.intent.id == i ==> WorkerOp(plan.op, i)
  {
    var failed := PermitFailed(false);
    match pc
    case Issuing =>
      if !c.go then Quietly(failed) else Plan(ClaimPermitRisk(row.intent, grant, c.risk), ClaimedRisk(c.risk),
                                              failed, failed)
    case ClaimedRisk(risk) => Plan(NextFence(grant.key, grant.principal, c.view), Fenced(0, 0, risk), failed, failed)
    case Fenced(epoch, fence, _) =>
      if !c.go || c.expiresAt <= c.now then Quietly(failed)
      else
        var permit := IssuedPermit(c.permitId, i, grant.principal, grant.key, epoch, fence, c.expiresAt);
        Plan(RecordPermit(permit, grant.limits.maxClockSkew, c.now), Sending(|l.permits|, c.expiresAt), failed, failed)
    case PermitFailed(previousLive) =>
      if previousLive then
        Plan(Move(i, Submitted, Unknown, [PermitRejected], Keep), Reconciles(true, None), Reconciles(true, None),
             Finished)
      else Ending(Move(i, Submitted, FailedSafe, [PermitRejected], Release))
    case Sending(n, expiresAt) => Quietly(Awaiting(n, expiresAt))
    case Awaiting(_, expiresAt) =>
      var next := AfterAdapter(c.outcome);
      Plan(Transition(i, {Submitted}, Unknown, [AdapterReason(c.outcome)], None, Keep, Some(expiresAt), None), next,
           next, Finished)
  }

  /** Reservation, the submission decision, settlement and stopping. */
  function PlanDecision(i: IntentId, l: Local, row: IntentRow, grant: Grant, pc: Pc, c: Choice): (plan: Plan)
    ensures row.intent.id == i ==> WorkerOp(plan.op, i)
  {
    match pc
    case Reserving => Plan(ReserveUsage(row.intent, grant, c.risk, c.now, c.view), Authorizing, Deferring, Deferring)
    case Deferring => Ending(Move(i, Proposed, Deferred, c.reasons, Keep))
    case Authorizing =>
      Plan(Move(i, Proposed, Authorized, [], Keep), CommittingReservation, Reconciles(true, None), Finished)
    case CommittingReservation =>
      Plan(Move(i, Authorized, Reserved, [], Keep), Submitting, Reconciles(true, None), Finished)
    case Submitting =>
      if !c.go || !c.adapter then Quietly(Stopping(c.reasons, None, true))
      else Plan(BeginSubmission(i, {Reserved, Reconciling}, grant.limits.maxAttempts, c.now),
                Issuing, Reconciles(true, None), Finished)
    case Verifying(seen) => PlanVerified(i, row, grant.limits.maxClockSkew, seen, c)
    case VoidingAbsence(seen) => Plan(VoidPermits(i), CheckingLedger(seen), Finished, Finished)
    case CheckingLedger(seen) =>
      Quietly(if NoneConsumed(l.permits) then Absent(seen)
              else Stopping([SettlementNoneAfterPermitConsumed], None, false))
    case Absent(seen) => PlanAbsent(i, seen, c)
    case VoidingCancel(claimed, previous) => Plan(VoidPermits(i), ClosingCancel(claimed, previous), Finished, Finished)
    case ClosingCancel(claimed, previous) =>
      Plan(Transition(i, {Reconciling}, FailedSafe, [SettlementCancelledUnfilled], claimed, Release, None, None),
           Finished, Finished, Stopping([EffectIdAlreadyClaimed], previous, false))
    case Stopping(reasons, previous, release) =>
      Plan(VoidPermits(i), StoppingVoided(reasons, previous, release), Finished, Finished)
    case StoppingVoided(reasons, previous, release) =>
      var after := if release then ReleasingOnly else Finished;
      if Terminal(row.state) then Quietly(after)
      else Plan(Transition(i, {row.state}, Stopped, reasons, previous, if release then Release else Keep, None, None),
                Finished, after, Finished)
    case ReleasingOnly => Ending(ReleaseUsage(i))
    case _ => Quietly(Finished)
  }

  /** The worker's next transaction, computed from its own intent's view, the provisioned grant and
      the outside. */
  function PlanFor(i: IntentId, l: Local, grant: Option<Grant>, pc: Pc, c: Choice): (plan: Plan)
    ensures l.row.Some? && l.row.value.intent.id == i ==> WorkerOp(plan.op, i)
  {
    if l.row.None? then Quietly(Finished)
    else
      var row := l.row.value;
      var trusted := c.trusted && grant.Some?;
      if pc.Entered? then PlanEntered(i, row, trusted, c)
      else if pc.Reconciles? then PlanReconciles(i, row, trusted, pc.allow, pc.block, c)
      else if grant.None? then Quietly(Finished)
      else if InAttempt(pc) then PlanAttempt(i, l, row, grant.value, pc, c)
      else PlanDecision(i, l, row, grant.value, pc, c)
  }

  /** A refused transition or begin_submission raises out of the worker; the other refusals are answers. */
  function Continue(plan: Plan, result: Result): Pc {
    match plan.op
    case Transition(_, _, _, _, _, _, _, _) =>
      if result == Done then plan.done
      else if result == NotExpected then plan.otherwise
      else if result == EffectConflict then plan.conflict
      else Finished
    case BeginSubmission(_, _, _, _) =>
      if result.Started? then plan.done
      else if result == NotExpected then plan.otherwise
      else if result == AttemptLimit || result == VelocityLimit then
        Stopping([Gate("ATTEMPT_OR_VELOCITY_LIMIT")], None, true)
      else Finished
    case RecordPermit(_, _, _) =>
      if result.Recorded? then plan.done
      else if result == PreviousPermitLive then PermitFailed(true)
      else plan.otherwise
    case NextFence(_, _, _) =>
      if result.Fence? && plan.done.Fenced? then Fenced(result.epoch, result.fence, plan.done.risk) else plan.otherwise
    case ReserveUsage(_, _, _, _, _) => if result == Done then plan.done else plan.otherwise
    case ClaimPermitRisk(_, _, _) => if result == Done then plan.done else plan.otherwise
    case _ => plan.done
  }

  /** The provisioned envelope a caller must present for the intent. */
  function GrantOf(db: Db, intent: Intent): Option<Grant> {
    if intent.grant in db.grants && db.grants[intent.grant].principal == intent.principal
    then Some(Grant(intent.grant, intent.principal, db.grants[intent.grant].limits))
    else None
  }

  /** The store and its anchor, the running workers, the owners known to be dead, the permits handed to
      an adapter, the adapter calls made, the intents that ever carried a durable block, the risk state
      each permit was minted from, and the fences allocated to each intent's attempts. */
  datatype Sys = Sys(
    w: World,
    pcs: map<(Owner, IntentId), Pc>,
    dead: set<Owner>,
    sent: set<(IntentId, nat)>,
    calls: map<IntentId, nat>,
    blocked: set<IntentId>,
    minted: map<(IntentId, nat), RiskKey>,
    fences: map<IntentId, seq<Allocation>>)

  /** A fence allocated to an attempt, and the permit recorded under it, if it came to that. */
  datatype Allocation = Allocation(epoch: nat, permit: Option<nat>)

  datatype Step =
    | Arrives(intent: Intent)
    | Enters(owner: Owner, id: IntentId, process: bool)
    | Works(owner: Owner, id: IntentId, c: Choice)
    | Leaves(owner: Owner, id: IntentId, released: bool)
    | Dies(owner: Owner)
    | LeaseCleared(id: IntentId)
    | OrphanRepaired(id: IntentId)
    | VenueConsumes(id: IntentId, permit: nat, view: AnchorView)
    | Operates(op: Op)

  /** Lifecycle and control transactions of the operator. */
  predicate OperatorOp(op: Op) {
    op.ProvisionGrant? || op.SetGrantStatus? || op.Halt? || op.Resume? || op.RevokeAfterRestore? || op.SetExposureCap?
  }

  /** A terminal intent whose hold process() may release or commit without the lease. */
  predicate Orphaned(row: IntentRow) {
    row.state == Finalized
    || (Terminal(row.state) && row.submissions == 0 && forall k :: 0 <= k < |row.reasons| ==>
        !SettlementDerived(row.reasons[k]))
  }

  /** What a step needs, whatever the lease says. */
  predicate EnabledBarLease(s: Sys, st: Step) {
    match st
    case Arrives(_) => true
    case Enters(o, i, _) => o !in s.dead && (o, i) !in s.pcs && i in s.w.db.intents
    case Works(o, i, _) => (o, i) in s.pcs && i in s.w.db.intents
    case Leaves(o, i, _) => (o, i) in s.pcs
    case Dies(_) => true
    case LeaseCleared(i) => i in s.w.db.leases
    case OrphanRepaired(i) => i in s.w.db.intents && Orphaned(s.w.db.intents[i])
    case VenueConsumes(i, n, _) => (i, n) in s.sent && n < |Rows(s.w.db.permits, i)|
    case Operates(op) => OperatorOp(op)
  }

  /** Nobody enters against another owner's lease, and an operator clears a lease only once its owner is
      known to be dead. */
  predicate LeaseAllows(s: Sys, st: Step)
    requires EnabledBarLease(s, st)
  {
    match st
    case Enters(o, i, _) => i in s.w.db.leases ==> s.w.db.leases[i] == o
    case LeaseCleared(i) => s.w.db.leases[i] in s.dead
    case _ => true
  }

  predicate Enabled(s: Sys, st: Step) {
    EnabledBarLease(s, st) && LeaseAllows(s, st)
  }

  function Presented(p: PermitRow): IssuedPermit {
    IssuedPermit(p.id, p.intent, p.principal, p.grant, p.epoch, p.fence, p.expiresAt)
  }

  function CallsOf(s: Sys, i: IntentId): nat {
    if i in s.calls then s.calls[i] else 0
  }

  function OpOf(s: Sys, st: Step): Op
    requires EnabledBarLease(s, st)
  {
    match st
    case Arrives(intent) => Register(intent)
    case Enters(o, i, _) => TakeLease(i, o)
    case Works(o, i, c) => PlanOf(s, o, i, c).op
    case Leaves(o, i, released) => if released then DropLease(i, o) else Nothing
    case Dies(_) => Nothing
    case LeaseCleared(i) => DropLease(i, s.w.db.leases[i])
    case OrphanRepaired(i) => if s.w.db.intents[i].state == Finalized then CommitUsage(i) else ReleaseUsage(i)
    case VenueConsumes(i, n, view) => ConsumePermit(Presented(Rows(s.w.db.permits, i)[n]), view)
    case Operates(op) => op
  }

  function PlanOf(s: Sys, o: Owner, i: IntentId, c: Choice): Plan
    requires (o, i) in s.pcs && i in s.w.db.intents
  {
    PlanFor(i, View(s.w, i), GrantOf(s.w.db, s.w.db.intents[i].intent), s.pcs[(o, i)], c)
  }

  predicate RowBlocked(w: World, i: IntentId) {
    i in w.db.intents && Blocked(w.db.intents[i].reasons)
  }

  function RiskOf(intent: Intent, risk: Risk): RiskKey {
    RiskKey(intent.grant, risk.scope, risk.stateVersion)
  }

  function LogOf(s: Sys, i: IntentId): seq<Allocation> {
    if i in s.fences then s.fences[i] else []
  }

  function LogAfter(log: seq<Allocation>, result: Result, permits: nat): seq<Allocation> {
    if result.Fence? then log + [Allocation(result.epoch, None)]
    else if result.Recorded? && log != [] then log[|log| - 1 := Last(log).(permit := Some(permits))]
    else log
  }

  ghost function AfterWork(s: Sys, o: Owner, i: IntentId, c: Choice): Sys
    requires (o, i) in s.pcs && i in s.w.db.intents
  {
    var plan := PlanOf(s, o, i, c);
    var out := Exec(s.w, plan.op);
    var pc := s.pcs[(o, i)];
    Sys(out.w,
        s.pcs[(o, i) := Continue(plan, out.result)],
        s.dead,
        if pc.Sending? then s.sent + {(i, pc.permit)} else s.sent,
        if pc.Sending? then s.calls[i := CallsOf(s, i) + 1] else s.calls,
        if RowBlocked(out.w, i) then s.blocked + {i} else s.blocked,
        if pc.Fenced? && out.result.Recorded? then
          s.minted[(i, |Rows(s.w.db.permits, i)|) := RiskOf(s.w.db.intents[i].intent, pc.risk)]
        else s.minted,
        s.fences[i := LogAfter(LogOf(s, i), out.result, |Rows(s.w.db.permits, i)|)])
  }

  ghost function Next(s: Sys, st: Step): Sys
    requires EnabledBarLease(s, st)
  {
    var w' := Exec(s.w, OpOf(s, st)).w;
    match st
    case Works(o, i, c) => AfterWork(s, o, i, c)
    case Enters(o, i, process) => s.(w := w', pcs := s.pcs[(o, i) := if process then Entered
                                                           else Reconciles(true, None)])
    case Leaves(o, i, _) => s.(w := w', pcs := s.pcs - {(o, i)})
    case Dies(o) => s.(pcs := map k | k in s.pcs && k.0 != o :: s.pcs[k], dead := s.dead + {o})
    case _ => s.(w := w')
  }

  ghost function Run(s: Sys, steps: seq<Step>): Sys
    requires Possible(s, steps)
    decreases |steps|
  {
    if steps == [] then s else Run(Next(s, steps[0]), steps[1..])
  }

  ghost predicate Possible(s: Sys, steps: seq<Step>)
    decreases |steps|
  {
    steps == [] || (Enabled(s, steps[0]) && Possible(Next(s, steps[0]), steps[1..]))
  }

  /** No intent has arrived yet; grants, controls and the anchor are arbitrary. */
  predicate Initial(s: Sys) {
    && s.w.db.intents == map[] && s.w.db.usage == map[] && s.w.db.permits == [] && s.w.db.leases == map[]
    && s.w.db.attempts == [] && s.w.db.riskClaims == map[] && s.w.db.permitClaims == map[]
    && s.pcs == map[] && s.dead == {} && s.sent == {} && s.calls == map[] && s.blocked == {} && s.minted == map[]
       && s.fences == map[]
  }
}
