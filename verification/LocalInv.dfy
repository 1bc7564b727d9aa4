/** The invariant of one intent: its row, its reservation, its permits and its worker, kept by every
    step of that worker, of the venue and of the orphan repair. */
module LocalInv {
  import opened Types
  import opened StoreOps
  import opened LocalView
  import opened Settlement
  import opened Protocol

  /** The last permit is the only one that may still be live or may have been consumed. */
  ghost predicate LedgerShape(permits: seq<PermitRow>) {
    && (forall n :: 0 <= n < |permits| - 1 ==> permits[n].voided && !permits[n].consumed)
    && (permits != [] ==> !(Last(permits).consumed && Last(permits).voided))
  }

  /** Every permit is voided: nothing was admitted and nothing can be. */
  predicate Retired(permits: seq<PermitRow>) {
    permits != [] ==> Last(permits).voided && !Last(permits).consumed
  }

  predicate HasLive(permits: seq<PermitRow>) {
    permits != [] && Live(Last(permits))
  }

  predicate HasConsumed(permits: seq<PermitRow>) {
    permits != [] && Last(permits).consumed
  }

  predicate FillInv(row: IntentRow) {
    Monetary(row.intent.primitive) ==>
      && (row.filled.Some? ==> row.intent.amount.Some? && 0 <= row.filled.value <= row.intent.amount.value)
      && (row.state == Finalized ==> row.filled.Some? && row.filled.value > 0)
      && (row.state == Finalized && row.intent.primitive == Pay ==> row.filled == row.intent.amount)
  }

  predicate InFlight(s: IntentState) {
    s.Submitted? || s.Unknown? || s.Reconciling? || s.Confirmed?
  }

  /** What the state of the row says about the reservation. */
  predicate BudgetInv(l: Local, row: IntentRow) {
    && (row.state == Proposed ==> l.usage == None || l.usage == Some(Held))
    && (row.state == Authorized || row.state == Reserved || InFlight(row.state) ==> l.usage == Some(Held))
    && (row.state == Finalized ==> l.usage == Some(Committed))
    && (l.usage == Some(Released) ==>
          Terminal(row.state) && !HasLive(l.permits)
          && (HasConsumed(l.permits) ==> row.state == FailedSafe && row.reasons == [SettlementCancelledUnfilled]))
  }

  /** A live permit is announced by the ambiguity window of a row that is still open. */
  predicate WindowInv(l: Local, row: IntentRow) {
    HasLive(l.permits) ==>
      && (InFlight(row.state) || row.state == Finalized)
      && row.ambiguityUntil == Some(Last(l.permits).expiresAt)
  }

  /** `b` remembers that the row once carried a durable block. */
  predicate BlockInv(row: IntentRow, b: bool) {
    && (Blocked(row.reasons) ==> b)
    && (b ==> Blocked(row.reasons) || row.effect.Some? || Terminal(row.state))
    && (BeforeSubmission(row.state) || row.state == Submitted ==> !b && row.effect == None)
  }

  ghost predicate RowInv(i: IntentId, l: Local, b: bool) {
    match l.row
    case None => l.usage == None && l.permits == [] && !b
    case Some(row) =>
      && row.intent.id == i
      && LedgerShape(l.permits)
      && |l.permits| <= row.submissions
      && (BeforeSubmission(row.state) || row.state == Denied || row.state == Deferred ==> row.submissions == 0)
      && (row.state == Confirmed || row.state == Finalized ==> row.effect.Some?)
      && BudgetInv(l, row)
      && WindowInv(l, row)
      && BlockInv(row, b)
      && FillInv(row)
  }

  /** Another submission may begin: nothing admitted, nothing live, nothing recorded, no block. */
  predicate Ready(l: Local, row: IntentRow, b: bool) {
    Retired(l.permits) && row.effect == None && !b && l.usage == Some(Held)
  }

  predicate SeenInv(row: IntentRow, seen: Seen) {
    && row.state == Reconciling
    && seen == SeenBy(row, seen.allowResubmit, seen.block)
    && (Blocked(row.reasons) ==> seen.block == Some(DeterministicFailure) && !seen.allowResubmit)
  }

  predicate CancelInv(row: IntentRow, claimed: Option<EffectId>, previous: Option<EffectId>) {
    && row.state == Reconciling
    && claimed.Some? && previous == row.effect
    && (row.effect.Some? ==> claimed == row.effect)
  }

  predicate StopInv(l: Local, row: IntentRow, previous: Option<EffectId>, release: bool) {
    && (previous.Some? ==> previous == row.effect)
    && (release ==> Retired(l.permits) && row.effect == None && previous == None
                    && (BeforeSubmission(row.state) || row.state == Reconciling))
  }

  /** What a worker may rely on between two of its transactions. */
  predicate PcInv(l: Local, row: IntentRow, pc: Pc, b: bool) {
    match pc
    case Reserving => row.state == Proposed
    case Deferring => row.state == Proposed
    case Authorizing => row.state == Proposed && l.usage == Some(Held)
    case CommittingReservation => row.state == Authorized
    case Submitting => (row.state == Reserved || row.state == Reconciling) && Ready(l, row, b)
    case Issuing => row.state == Submitted && Retired(l.permits) && |l.permits| < row.submissions
    case ClaimedRisk(_) => row.state == Submitted && Retired(l.permits) && |l.permits| < row.submissions
    case Fenced(_, _, _) => row.state == Submitted && Retired(l.permits) && |l.permits| < row.submissions
    case PermitFailed(previousLive) => !previousLive && row.state == Submitted && Retired(l.permits)
    case Sending(n, expiresAt) => row.state == Submitted && |l.permits| == n + 1
      && Last(l.permits).expiresAt == expiresAt
    case Awaiting(n, expiresAt) => row.state == Submitted && |l.permits| == n + 1
      && Last(l.permits).expiresAt == expiresAt
    case Reconciles(allow, block) =>
      (allow ==> block == None) && (block.Some? && Blocked(row.reasons) ==> block == Some(DeterministicFailure))
    case Verifying(seen) => SeenInv(row, seen)
    case VoidingAbsence(seen) => SeenInv(row, seen) && row.effect == None
    case CheckingLedger(seen) => SeenInv(row, seen) && row.effect == None && !HasLive(l.permits)
    case Absent(seen) => SeenInv(row, seen) && row.effect == None && Retired(l.permits)
    case VoidingCancel(claimed, previous) => CancelInv(row, claimed, previous)
    case ClosingCancel(claimed, previous) => CancelInv(row, claimed, previous) && !HasLive(l.permits)
    case Stopping(_, previous, release) => StopInv(l, row, previous, release)
    case StoppingVoided(_, previous, release) => StopInv(l, row, previous, release) && !HasLive(l.permits)
    case ReleasingOnly => false
    case _ => true
  }

  ghost predicate LocalOk(i: IntentId, l: Local, pc: Pc, b: bool) {
    RowInv(i, l, b) && (if l.row.Some? then PcInv(l, l.row.value, pc, b) else pc == Finished)
  }

  // ---- what any step may change ----

  predicate RowAdvances(row: IntentRow, row': IntentRow) {
    && row'.intent == row.intent
    && row.submissions <= row'.submissions <= row.submissions + 1
    && (row.effect.Some? ==> row'.effect == row.effect)
    && (Monetary(row.intent.primitive) && row.filled.Some? ==>
        row'.filled.Some? && row.filled.value <= row'.filled.value)
    && (Terminal(row.state) ==> row' == row)
  }

  ghost predicate PermitsAdvance(permits: seq<PermitRow>, permits': seq<PermitRow>) {
    && |permits| <= |permits'| <= |permits| + 1
    && forall n :: 0 <= n < |permits| ==>
         && permits'[n] == permits[n].(consumed := permits'[n].consumed, voided := permits'[n].voided)
         && (!Live(permits[n]) ==> permits'[n] == permits[n])
  }

  /** Write-once effect, growing fill, absorbing terminal states, and attempts and permits only when
      the intent was ready for them. */
  ghost predicate Advances(l: Local, l': Local, b: bool) {
    && PermitsAdvance(l.permits, l'.permits)
    && (l.usage == Some(Released) || l.usage == Some(Committed) ==> l'.usage == l.usage)
    && (l.row.Some? ==>
          && l'.row.Some?
          && RowAdvances(l.row.value, l'.row.value)
          && (l'.row.value.submissions > l.row.value.submissions ==> Ready(l, l.row.value, b))
          && (|l'.permits| > |l.permits| ==> Ready(l, l.row.value, b)))
  }

  predicate BlockedNow(l: Local) {
    l.row.Some? && Blocked(l.row.value.reasons)
  }

  // ---- transitions ----

  function Moved(l: Local, op: Op): Local
    requires op.Transition? && l.row.Some?
  {
    var row := l.row.value;
    Local(Some(row.(state := op.to,
                    effect := if op.effect.Some? then op.effect else row.effect,
                    reasons := op.reasons,
                    ambiguityUntil := if op.ambiguity.Some? then op.ambiguity else row.ambiguityUntil,
                    filled := if op.filled.Some? then op.filled else row.filled)),
          SettleLocal(l.usage, op.budget),
          l.permits)
  }

  /** The budget follows the state, and is let go only when no permit can still be honoured. */
  predicate BudgetLegit(l: Local, op: Op)
    requires op.Transition?
  {
    && (op.budget == Commit <==> op.to == Finalized)
    && (!Terminal(op.to) ==> op.budget == Keep)
    && (op.to == Authorized ==> l.usage == Some(Held))
    && (Terminal(op.to) && op.to != Finalized ==> !HasLive(l.permits))
    && (op.budget == Release && HasConsumed(l.permits) ==>
        op.to == FailedSafe && op.reasons == [SettlementCancelledUnfilled])
  }

  predicate IdentityLegit(l: Local, row: IntentRow, op: Op, b: bool)
    requires op.Transition?
  {
    && (row.effect.Some? && op.effect.Some? ==> op.effect == row.effect)
    && (op.to == Confirmed || op.to == Finalized ==> op.effect.Some?)
    && (op.ambiguity.Some? ==> HasLive(l.permits) ==> op.ambiguity == Some(Last(l.permits).expiresAt))
    && (b ==> Blocked(op.reasons) || op.effect.Some? || row.effect.Some? || Terminal(op.to))
    && (op.to == Authorized || op.to == Reserved ==> op.effect.None? && !Blocked(op.reasons))
    && (op.to == Denied || op.to == Deferred ==> row.submissions == 0)
    && op.to != Submitted
  }

  predicate FillLegit(row: IntentRow, op: Op)
    requires op.Transition?
  {
    Monetary(row.intent.primitive) ==>
      && (op.to == Finalized ==> op.filled.Some? && op.filled.value > 0)
      && (op.to == Finalized && row.intent.primitive == Pay ==> op.filled == row.intent.amount)
      && (op.filled.Some? ==>
            && row.intent.amount.Some? && 0 <= op.filled.value <= row.intent.amount.value
            && (row.filled.Some? ==> row.filled.value <= op.filled.value))
  }

  lemma MoveKeeps(i: IntentId, l: Local, op: Op, b: bool)
    requires op.Transition? && l.row.Some? && RowInv(i, l, b)
    requires Allowed(l.row.value.state, op.to)
    requires BudgetLegit(l, op) && IdentityLegit(l, l.row.value, op, b) && FillLegit(l.row.value, op)
    ensures RowInv(i, Moved(l, op), b || Blocked(op.reasons))
    ensures Advances(l, Moved(l, op), b)
  {
  }

  // ---- plans ----

  predicate TransitionSound(l: Local, row: IntentRow, plan: Plan, b: bool)
    requires plan.op.Transition? && l.row.Some?
  {
    var op := plan.op;
    && row.state in op.expected
    && Allowed(row.state, op.to)
    && BudgetLegit(l, op) && IdentityLegit(l, row, op, b) && FillLegit(row, op)
    && PcInv(Moved(l, op), Moved(l, op).row.value, plan.done, b || Blocked(op.reasons))
    && (op.effect.Some? || row.effect.Some? ==> PcInv(l, row, plan.conflict, b))
  }

  /** Whatever its transaction answers, the plan keeps the invariant. */
  predicate Sound(i: IntentId, l: Local, row: IntentRow, plan: Plan, b: bool)
    requires l.row.Some?
  {
    && WorkerOp(plan.op, i)
    && match plan.op
       case Transition(_, _, _, _, _, _, _, _) => TransitionSound(l, row, plan, b)
       case BeginSubmission(_, expected, _, _) =>
         && expected == {Reserved, Reconciling} && plan.done == Issuing && plan.otherwise == Reconciles(true, None)
         && PcInv(l, row, Submitting, b)
       case ReserveUsage(_, _, _, _, _) => row.state == Proposed && plan.done == Authorizing
         && plan.otherwise == Deferring
       case ClaimPermitRisk(_, _, _) => PcInv(l, row, plan.done, b) && PcInv(l, row, plan.otherwise, b)
       case NextFence(_, _, _) => plan.done.Fenced? && PcInv(l, row, Issuing, b) && PcInv(l, row, plan.otherwise, b)
       case RecordPermit(permit, _, _) =>
         && PcInv(l, row, Issuing, b) && plan.done == Sending(|l.permits|, permit.expiresAt)
         && PcInv(l, row, plan.otherwise, b)
       case VoidPermits(_) =>
         plan.done != Submitting && PcInv(l.(permits := VoidedLedger(l.permits, i)), row, plan.done, b)
       case Nothing => PcInv(l, row, plan.done, b)
       case _ => false
  }

  lemma SoundTransition(i: IntentId, l: Local, plan: Plan, result: Result, l': Local, b: bool)
    requires l.row.Some? && RowInv(i, l, b) && plan.op.Transition? && Sound(i, l, l.row.value, plan, b)
    requires TransitionStep(l, plan.op, result, l')
    ensures LocalOk(i, l', Continue(plan, result), b || BlockedNow(l')) && Advances(l, l', b)
  {
    if result == Done {
      MoveKeeps(i, l, plan.op, b);
      assert l' == Moved(l, plan.op);
    }
  }

  lemma SoundBegin(i: IntentId, l: Local, plan: Plan, result: Result, l': Local, b: bool)
    requires l.row.Some? && RowInv(i, l, b) && plan.op.BeginSubmission? && Sound(i, l, l.row.value, plan, b)
    requires BeginStep(l, plan.op, result, l')
    ensures LocalOk(i, l', Continue(plan, result), b || BlockedNow(l')) && Advances(l, l', b)
  {
  }

  lemma SoundRecord(i: IntentId, l: Local, plan: Plan, result: Result, l': Local, b: bool)
    requires l.row.Some? && RowInv(i, l, b) && plan.op.RecordPermit? && Sound(i, l, l.row.value, plan, b)
    requires RecordStep(l, plan.op, result, l')
    ensures LocalOk(i, l', Continue(plan, result), b || BlockedNow(l')) && Advances(l, l', b)
  {
    hide Decide;
  }

  lemma SoundVoid(i: IntentId, l: Local, plan: Plan, result: Result, l': Local, b: bool)
    requires l.row.Some? && RowInv(i, l, b) && plan.op.VoidPermits? && Sound(i, l, l.row.value, plan, b)
    requires l' == l.(permits := VoidedLedger(l.permits, i)) && forall n :: 0 <= n < |l.permits| ==>
      l.permits[n].intent == i
    ensures LocalOk(i, l', Continue(plan, result), b || BlockedNow(l')) && Advances(l, l', b)
  {
  }

  lemma SoundRest(i: IntentId, l: Local, plan: Plan, result: Result, l': Local, b: bool)
    requires l.row.Some? && RowInv(i, l, b) && Sound(i, l, l.row.value, plan, b)
    requires plan.op.ReserveUsage? || plan.op.ClaimPermitRisk? || plan.op.NextFence? || plan.op.Nothing?
    requires ViewStep(i, l, plan.op, result, l')
    ensures LocalOk(i, l', Continue(plan, result), b || BlockedNow(l')) && Advances(l, l', b)
  {
    match plan.op
    case ReserveUsage(_, _, _, _, _) =>
    case ClaimPermitRisk(_, _, _) =>
    case NextFence(_, _, _) =>
    case Nothing =>
  }

  /** The intent's view after one transaction of its own worker. */
  ghost predicate ViewStep(i: IntentId, l: Local, op: Op, result: Result, l': Local) {
    if Subject(op) == Some(i) then OwnStep(l, op, result, l') else l' == l
  }

  lemma SubjectOf(i: IntentId, op: Op)
    requires WorkerOp(op, i)
    ensures Subject(op) == Some(i) || op.NextFence? || op.Nothing?
    ensures op.Transition? || op.BeginSubmission? || op.RecordPermit? || op.VoidPermits? || op.ReserveUsage? ==>
      Subject(op) == Some(i)
  {
  }

  lemma SoundRowStep(i: IntentId, l: Local, plan: Plan, result: Result, l': Local, b: bool)
    requires l.row.Some? && RowInv(i, l, b) && Sound(i, l, l.row.value, plan, b)
    requires ViewStep(i, l, plan.op, result, l')
    requires plan.op.Transition? || plan.op.BeginSubmission?
    ensures LocalOk(i, l', Continue(plan, result), b || BlockedNow(l')) && Advances(l, l', b)
  {
    SubjectOf(i, plan.op);
    if plan.op.Transition? {
      SoundTransition(i, l, plan, result, l', b);
    } else {
      SoundBegin(i, l, plan, result, l', b);
    }
  }

  lemma SoundPermitStep(i: IntentId, l: Local, plan: Plan, result: Result, l': Local, b: bool)
    requires l.row.Some? && RowInv(i, l, b) && Sound(i, l, l.row.value, plan, b)
    requires ViewStep(i, l, plan.op, result, l')
    requires plan.op.RecordPermit? || plan.op.VoidPermits?
    requires forall n :: 0 <= n < |l.permits| ==> l.permits[n].intent == i
    ensures LocalOk(i, l', Continue(plan, result), b || BlockedNow(l')) && Advances(l, l', b)
  {
    SubjectOf(i, plan.op);
    if plan.op.RecordPermit? {
      SoundRecord(i, l, plan, result, l', b);
    } else {
      SoundVoid(i, l, plan, result, l', b);
    }
  }

  lemma SoundKeeps(i: IntentId, l: Local, plan: Plan, result: Result, l': Local, b: bool)
    requires l.row.Some? && RowInv(i, l, b) && Sound(i, l, l.row.value, plan, b)
    requires ViewStep(i, l, plan.op, result, l')
    requires forall n :: 0 <= n < |l.permits| ==> l.permits[n].intent == i
    ensures LocalOk(i, l', Continue(plan, result), b || BlockedNow(l')) && Advances(l, l', b)
  {
    if plan.op.Transition? || plan.op.BeginSubmission? {
      SoundRowStep(i, l, plan, result, l', b);
    } else if plan.op.RecordPermit? || plan.op.VoidPermits? {
      SoundPermitStep(i, l, plan, result, l', b);
    } else {
      SoundRest(i, l, plan, result, l', b);
    }
  }

  // ---- the worker's plans are sound ----

  lemma QuietSound(i: IntentId, l: Local, row: IntentRow, pc: Pc, b: bool)
    requires l.row == Some(row) && PcInv(l, row, pc, b)
    ensures Sound(i, l, row, Quietly(pc), b)
  {
  }

  lemma MoveSound(i: IntentId, l: Local, row: IntentRow, plan: Plan, b: bool)
    requires l.row == Some(row) && plan.op.Transition? && plan.op.id == i && TransitionSound(l, row, plan, b)
    ensures Sound(i, l, row, plan, b)
  {
  }

  lemma EnteredSound(i: IntentId, l: Local, row: IntentRow, trusted: bool, c: Choice, b: bool)
    requires l.row == Some(row) && RowInv(i, l, b)
    ensures Sound(i, l, row, PlanEntered(i, row, trusted, c), b)
  {
    hide Sound, LedgerShape;
    var plan := PlanEntered(i, row, trusted, c);
    if plan.op.Transition? {
      MoveSound(i, l, row, plan, b);
    } else {
      QuietSound(i, l, row, plan.done, b);
    }
  }

  lemma ReconcilesSound(i: IntentId, l: Local, row: IntentRow, trusted: bool, allow: bool, block: Option<Reason>,
                        c: Choice, b: bool)
    requires l.row == Some(row) && RowInv(i, l, b) && PcInv(l, row, Reconciles(allow, block), b)
    ensures Sound(i, l, row, PlanReconciles(i, row, trusted, allow, block, c), b)
  {
    hide Sound, LedgerShape;
    var plan := PlanReconciles(i, row, trusted, allow, block, c);
    if plan.op.Transition? {
      MoveSound(i, l, row, plan, b);
    } else {
      QuietSound(i, l, row, plan.done, b);
    }
  }

  lemma FinalSound(i: IntentId, l: Local, row: IntentRow, skew: nat, seen: Seen, c: Choice, b: bool)
    requires l.row == Some(row) && RowInv(i, l, b) && SeenInv(row, seen) && c.answer.Answered?
    requires Decide(row.intent, seen, skew, c.now, c.answer.record).Finalize?
    ensures Sound(i, l, row, PlanVerified(i, row, skew, seen, c), b)
  {
    hide Sound, LedgerShape;
    PositiveIsEarned(row.intent, seen, skew, c.now, c.answer.record);
    MoveSound(i, l, row, PlanVerified(i, row, skew, seen, c), b);
  }

  lemma ConfirmSound(i: IntentId, l: Local, row: IntentRow, skew: nat, seen: Seen, c: Choice, b: bool)
    requires l.row == Some(row) && RowInv(i, l, b) && SeenInv(row, seen) && c.answer.Answered?
    requires Decide(row.intent, seen, skew, c.now, c.answer.record).Confirm?
    ensures Sound(i, l, row, PlanVerified(i, row, skew, seen, c), b)
  {
    hide Sound, LedgerShape;
    PositiveIsEarned(row.intent, seen, skew, c.now, c.answer.record);
    MoveSound(i, l, row, PlanVerified(i, row, skew, seen, c), b);
  }

  lemma NegativeSound(i: IntentId, l: Local, row: IntentRow, skew: nat, seen: Seen, c: Choice, b: bool)
    requires l.row == Some(row) && RowInv(i, l, b) && SeenInv(row, seen) && c.answer.Answered?
    requires var d := Decide(row.intent, seen, skew, c.now, c.answer.record);
      d.StopWith? || d.CancelUnfilled? || d.ActOnAbsence?
    ensures Sound(i, l, row, PlanVerified(i, row, skew, seen, c), b)
  {
    hide Sound, LedgerShape;
    PositiveIsEarned(row.intent, seen, skew, c.now, c.answer.record);
    AbsenceIsActedOnIff(row.intent, seen, skew, c.now, c.answer.record);
    StopsWithPrevious(row.intent, seen, skew, c.now, c.answer.record);
    QuietSound(i, l, row, PlanVerified(i, row, skew, seen, c).done, b);
  }

  lemma StopsWithPrevious(intent: Intent, seen: Seen, skew: nat, now: int, record: Record)
    ensures var d := Decide(intent, seen, skew, now, record); d.StopWith? ==> d.previous == seen.effect
  {
  }

  lemma UndecidedSound(i: IntentId, l: Local, row: IntentRow, skew: nat, seen: Seen, c: Choice, b: bool)
    requires l.row == Some(row) && RowInv(i, l, b) && SeenInv(row, seen)
    requires c.answer.Answered? ==> Decide(row.intent, seen, skew, c.now, c.answer.record).ToUnknown?
    ensures Sound(i, l, row, PlanVerified(i, row, skew, seen, c), b)
  {
    hide Sound;
    match c.answer
    case Raised =>
      var reasons := WithBlock(ReconciliationException, seen.block);
      assert Blocked(row.reasons) ==> Blocks(reasons[1]);
      UnknownSound(i, l, row, seen, reasons, b);
    case Malformed => QuietSound(i, l, row, Stopping([SettlementRecordMalformed], seen.effect, false), b);
    case Answered(record) =>
      if Blocked(row.reasons) {
        BlockIsCarried(row.intent, seen, skew, c.now, record);
      }
      UnknownSound(i, l, row, seen, Decide(row.intent, seen, skew, c.now, record).reasons, b);
  }

  lemma VerifiedSound(i: IntentId, l: Local, row: IntentRow, skew: nat, seen: Seen, c: Choice, b: bool)
    requires l.row == Some(row) && RowInv(i, l, b) && SeenInv(row, seen)
    ensures Sound(i, l, row, PlanVerified(i, row, skew, seen, c), b)
  {
    if c.answer.Answered? {
      var d := Decide(row.intent, seen, skew, c.now, c.answer.record);
      if d.Finalize? {
        FinalSound(i, l, row, skew, seen, c, b);
      } else if d.Confirm? {
        ConfirmSound(i, l, row, skew, seen, c, b);
      } else if d.ToUnknown? {
        UndecidedSound(i, l, row, skew, seen, c, b);
      } else {
        NegativeSound(i, l, row, skew, seen, c, b);
      }
    } else {
      UndecidedSound(i, l, row, skew, seen, c, b);
    }
  }

  lemma UnknownSound(i: IntentId, l: Local, row: IntentRow, seen: Seen, reasons: seq<Reason>, b: bool)
    requires l.row == Some(row) && RowInv(i, l, b) && SeenInv(row, seen)
    requires Blocked(row.reasons) ==> Blocked(reasons)
    ensures Sound(i, l, row, ToUnknownPlan(i, reasons), b)
  {
    MoveSound(i, l, row, ToUnknownPlan(i, reasons), b);
  }

  lemma AbsentSound(i: IntentId, l: Local, row: IntentRow, seen: Seen, c: Choice, b: bool)
    requires l.row == Some(row) && RowInv(i, l, b) && PcInv(l, row, Absent(seen), b)
    ensures Sound(i, l, row, PlanAbsent(i, seen, c), b)
  {
    hide Sound, LedgerShape;
    var plan := PlanAbsent(i, seen, c);
    if plan.op.Transition? {
      MoveSound(i, l, row, plan, b);
    } else {
      QuietSound(i, l, row, Submitting, b);
    }
  }

  lemma IssueSound(i: IntentId, l: Local, row: IntentRow, grant: Grant, pc: Pc, c: Choice, b: bool)
    requires pc.Issuing? || pc.ClaimedRisk? || pc.Fenced?
    requires l.row == Some(row) && RowInv(i, l, b) && PcInv(l, row, pc, b)
    ensures Sound(i, l, row, PlanAttempt(i, l, row, grant, pc, c), b)
  {
    if !PlanAttempt(i, l, row, grant, pc, c).op.Nothing? {
      assert PcInv(l, row, PermitFailed(false), b);
    }
  }

  lemma AnswerSound(i: IntentId, l: Local, row: IntentRow, grant: Grant, pc: Pc, c: Choice, b: bool)
    requires pc.PermitFailed? || pc.Sending? || pc.Awaiting?
    requires l.row == Some(row) && RowInv(i, l, b) && PcInv(l, row, pc, b)
    ensures Sound(i, l, row, PlanAttempt(i, l, row, grant, pc, c), b)
  {
    hide Sound, LedgerShape;
    var plan := PlanAttempt(i, l, row, grant, pc, c);
    if pc.Sending? {
      QuietSound(i, l, row, plan.done, b);
    } else {
      MoveSound(i, l, row, plan, b);
    }
  }

  predicate MovesRow(pc: Pc) {
    pc.Deferring? || pc.Authorizing? || pc.CommittingReservation? || pc.ClosingCancel? || pc.StoppingVoided?
  }

  lemma DecisionMoveSound(i: IntentId, l: Local, row: IntentRow, grant: Grant, pc: Pc, c: Choice, b: bool)
    requires l.row == Some(row) && RowInv(i, l, b) && PcInv(l, row, pc, b) && MovesRow(pc) && !pc.StoppingVoided?
    ensures Sound(i, l, row, PlanDecision(i, l, row, grant, pc, c), b)
  {
    hide PlanVerified, PlanAbsent;
    MoveSound(i, l, row, PlanDecision(i, l, row, grant, pc, c), b);
  }

  lemma StopSound(i: IntentId, l: Local, row: IntentRow, grant: Grant, pc: Pc, c: Choice, b: bool)
    requires l.row == Some(row) && RowInv(i, l, b) && PcInv(l, row, pc, b) && pc.StoppingVoided?
    ensures Sound(i, l, row, PlanDecision(i, l, row, grant, pc, c), b)
  {
    hide PlanVerified, PlanAbsent;
    var plan := PlanDecision(i, l, row, grant, pc, c);
    if Terminal(row.state) {
      QuietSound(i, l, row, plan.done, b);
    } else {
      MoveSound(i, l, row, plan, b);
    }
  }

  lemma DecisionVoidSound(i: IntentId, l: Local, row: IntentRow, grant: Grant, pc: Pc, c: Choice, b: bool)
    requires l.row == Some(row) && RowInv(i, l, b) && PcInv(l, row, pc, b)
    requires pc.VoidingAbsence? || pc.VoidingCancel? || pc.Stopping?
    requires forall n :: 0 <= n < |l.permits| ==> l.permits[n].intent == i
    ensures Sound(i, l, row, PlanDecision(i, l, row, grant, pc, c), b)
  {
    hide PlanVerified, PlanAbsent;
  }

  lemma DecisionSound(i: IntentId, l: Local, row: IntentRow, grant: Grant, pc: Pc, c: Choice, b: bool)
    requires l.row == Some(row) && RowInv(i, l, b) && PcInv(l, row, pc, b)
    requires pc.Reserving? || pc.Submitting? || pc.CheckingLedger? || pc.Finished?
    ensures Sound(i, l, row, PlanDecision(i, l, row, grant, pc, c), b)
  {
    hide PlanVerified, PlanAbsent;
    var plan := PlanDecision(i, l, row, grant, pc, c);
    if plan.op.Nothing? {
      QuietSound(i, l, row, plan.done, b);
    }
  }

  lemma RunningSound(i: IntentId, l: Local, row: IntentRow, grant: Grant, pc: Pc, c: Choice, b: bool)
    requires l.row == Some(row) && RowInv(i, l, b) && PcInv(l, row, pc, b) && !InAttempt(pc) && !pc.Entered?
      && !pc.Reconciles?
    requires forall n :: 0 <= n < |l.permits| ==> l.permits[n].intent == i
    ensures Sound(i, l, row, PlanDecision(i, l, row, grant, pc, c), b)
  {
    if pc.Verifying? {
      VerifiedSound(i, l, row, grant.limits.maxClockSkew, pc.seen, c, b);
    } else if pc.Absent? {
      AbsentSound(i, l, row, pc.seen, c, b);
    } else if pc.StoppingVoided? {
      StopSound(i, l, row, grant, pc, c, b);
    } else if MovesRow(pc) {
      DecisionMoveSound(i, l, row, grant, pc, c, b);
    } else if pc.VoidingAbsence? || pc.VoidingCancel? || pc.Stopping? {
      DecisionVoidSound(i, l, row, grant, pc, c, b);
    } else {
      DecisionSound(i, l, row, grant, pc, c, b);
    }
  }

  lemma PlanSound(i: IntentId, l: Local, row: IntentRow, grant: Option<Grant>, pc: Pc, c: Choice, b: bool)
    requires l.row == Some(row) && RowInv(i, l, b) && PcInv(l, row, pc, b)
    requires forall n :: 0 <= n < |l.permits| ==> l.permits[n].intent == i
    ensures Sound(i, l, row, PlanFor(i, l, grant, pc, c), b)
  {
    hide PlanEntered, PlanReconciles, PlanAttempt, PlanDecision;
    if pc.Entered? {
      EnteredSound(i, l, row, c.trusted && grant.Some?, c, b);
    } else if pc.Reconciles? {
      ReconcilesSound(i, l, row, c.trusted && grant.Some?, pc.allow, pc.block, c, b);
    } else if grant.None? {
      QuietSound(i, l, row, Finished, b);
    } else if pc.Issuing? || pc.ClaimedRisk? || pc.Fenced? {
      IssueSound(i, l, row, grant.value, pc, c, b);
    } else if InAttempt(pc) {
      AnswerSound(i, l, row, grant.value, pc, c, b);
    } else {
      RunningSound(i, l, row, grant.value, pc, c, b);
    }
  }

  /** One step of the intent's own worker. */
  lemma WorkKeeps(i: IntentId, l: Local, grant: Option<Grant>, pc: Pc, c: Choice, result: Result, l': Local, b: bool)
    requires l.row.Some? && LocalOk(i, l, pc, b)
    requires ViewStep(i, l, PlanFor(i, l, grant, pc, c).op, result, l')
    requires forall n :: 0 <= n < |l.permits| ==> l.permits[n].intent == i
    ensures LocalOk(i, l', Continue(PlanFor(i, l, grant, pc, c), result), b || BlockedNow(l'))
    ensures Advances(l, l', b)
  {
    PlanSound(i, l, l.row.value, grant, pc, c, b);
    SoundKeeps(i, l, PlanFor(i, l, grant, pc, c), result, l', b);
  }

  /** The venue consumes the newest permit, at any moment. */
  lemma ConsumeKeeps(i: IntentId, l: Local, pc: Pc, l': Local, b: bool)
    requires LocalOk(i, l, pc, b) && ConsumedStep(l, l')
    ensures LocalOk(i, l', pc, b) && Advances(l, l', b)
    ensures NoneConsumed(l.permits)
  {
  }

  /** process() lets go of a hold, or commits one, without the lease: the row can no longer change. */
  lemma RepairKeeps(i: IntentId, l: Local, pc: Pc, l': Local, b: bool)
    requires LocalOk(i, l, pc, b) && l.row.Some? && Orphaned(l.row.value)
    requires l' == l.(usage := SettleLocal(l.usage, if l.row.value.state == Finalized then Commit else Release))
    ensures LocalOk(i, l', pc, b) && Advances(l, l', b)
  {
  }

  lemma ArrivalKeeps(intent: Intent, l: Local, pc: Pc, b: bool)
    requires LocalOk(intent.id, l, pc, b) && l.row.None?
    ensures LocalOk(intent.id, l.(row := Some(FreshRow(intent))), pc, b)
  {
  }

  lemma StaysStill(l: Local, b: bool)
    ensures Advances(l, l, b)
  {
  }

  /** A worker may start over, or vanish, anywhere. */
  lemma RestartKeeps(i: IntentId, l: Local, pc: Pc, pc': Pc, b: bool)
    requires LocalOk(i, l, pc, b)
    requires pc' == Finished || (l.row.Some? && (pc' == Entered || pc' == Reconciles(true, None)))
    ensures LocalOk(i, l, pc', b)
  {
  }
}
