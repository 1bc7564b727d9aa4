/** Every step of a worker in the tables' own terms: under which gates it acts, what it writes and where it
    goes on. */
module Steps {
  import opened Types
  import opened StoreOps
  import opened LocalView
  import opened Settlement
  import opened Protocol
  import opened LocalInv
  import opened Runs
  import opened Guarantees
  import opened Outcomes
  import A = Attempts
  import Laws

  /** Row and reservation after a transition, and nothing else. */
  predicate Written(w: World, w': World, i: IntentId, row': IntentRow, budget: Budget) {
    w' == w.(db := w.db.(intents := w.db.intents[i := row'], usage := Laws.SettledUsage(w.db.usage, i, budget)))
  }

  predicate Refusable(row: IntentRow) {
    row.state == Proposed || row.state == Authorized || row.state == Reserved || row.state == Submitted
  }

  lemma NoEffectYet(s: Sys, o: Owner, i: IntentId, pc: Pc)
    requires At(s, o, i, pc) && Refusable(s.w.db.intents[i])
    ensures s.w.db.intents[i].effect == None
  {
    assert IntentInv(s, i);
  }

  /** A planned move of a row without an effect is carried out. */
  lemma Writes(s: Sys, o: Owner, i: IntentId, pc: Pc, c: Choice, plan: Plan)
    requires At(s, o, i, pc) && plan == PlanFor(i, View(s.w, i), Some(GrantIn(s, i)), pc, c)
    requires plan.op.Transition? && plan.op.id == i && s.w.db.intents[i].state in plan.op.expected
    requires plan.op.effect == None && plan.op.filled == None
    requires Allowed(s.w.db.intents[i].state, plan.op.to)
    requires !Laws.OwnedElsewhere(s.w.db.intents, i, s.w.db.intents[i].effect)
    ensures var s1, row := Onwards(s, o, i, c), s.w.db.intents[i];
      && At(s1, o, i, plan.done)
      && Written(s.w, s1.w, i,
                 row.(state := plan.op.to, reasons := plan.op.reasons,
                      ambiguityUntil := if plan.op.ambiguity.Some? then plan.op.ambiguity else row.ambiguityUntil),
                 plan.op.budget)
  {
    hide Exec, PlanFor, Inv, Equipped;
    var plan := Moves(s, o, i, pc, c);
    Laws.Transitions(s.w, plan.op);
    var s1 := Onwards(s, o, i, c);
    assert s1.w.db.intents == s.w.db.intents[i := s1.w.db.intents[i]];
  }

  // ---- entering ----

  function DeniedAs(c: Choice): IntentState {
    if !(c.trusted && c.active && !c.go) then IntentState.Stopped
    else if c.verdict == Denied then Denied
    else if c.verdict == Deferred then Deferred
    else IntentState.Stopped
  }

  /** Where process() sends the worker without touching the store. */
  function GoesOn(row: IntentRow, c: Choice): Pc {
    if row.state == Proposed then Reserving
    else if !c.active then
      Reconciles(false, Some(if FailureCode(row) then DeterministicFailure else Gate("GRANT_RUNTIME_STATUS")))
    else if FailureCode(row) then Reconciles(false, Some(DeterministicFailure))
    else Reconciles(true, None)
  }

  predicate Ended(s: IntentState) {
    s == Denied || s == Deferred || s == IntentState.Stopped || s == Finalized || s == FailedSafe
  }

  lemma EntryPlan(i: IntentId, l: Local, grant: Grant, row: IntentRow, c: Choice)
    requires l.row == Some(row)
    ensures var plan := PlanFor(i, l, Some(grant), Entered, c);
      if Ended(row.state) || (!c.trusted && row.state != Proposed) then plan == Quietly(Finished)
      else if row.state == Proposed && !(c.trusted && c.active && c.go && c.adapter) then
        plan == Ending(Move(i, Proposed, DeniedAs(c), c.reasons, Release))
      else if row.state == Authorized && !(c.active && c.go) then
        plan == Ending(Move(i, Authorized, IntentState.Stopped, c.reasons, Release))
      else if row.state == Authorized then
        plan == Plan(Move(i, Authorized, Reserved, [], Keep), Submitting, Reconciles(true, None), Finished)
      else plan == Quietly(GoesOn(row, c))
  {
    FailureCodeBlocks(row);
  }

  /** An intent that has not been submitted goes on only while its grant is active and every gate lets it;
      otherwise it ends, its budget released. One that has been submitted is reconciled, and may be retried
      only if its grant is active and no failure code is on its row. */
  lemma EntryDecides(s: Sys, o: Owner, i: IntentId, c: Choice)
    requires At(s, o, i, Entered)
    ensures var s1, row := Onwards(s, o, i, c), s.w.db.intents[i];
      if Ended(row.state) || (!c.trusted && row.state != Proposed) then s1.w == s.w && At(s1, o, i, Finished)
      else if row.state == Proposed && !(c.trusted && c.active && c.go && c.adapter) then
        && At(s1, o, i, Finished)
        && Written(s.w, s1.w, i, row.(state := DeniedAs(c), reasons := c.reasons), Release)
      else if row.state == Authorized && !(c.active && c.go) then
        && At(s1, o, i, Finished)
        && Written(s.w, s1.w, i, row.(state := IntentState.Stopped, reasons := c.reasons), Release)
      else if row.state == Authorized then
        At(s1, o, i, Submitting) && Written(s.w, s1.w, i, row.(state := Reserved, reasons := []), Keep)
      else s1.w == s.w && At(s1, o, i, GoesOn(row, c))
  {
    hide Exec, PlanFor, Inv, Equipped, Onwards, FailureCode;
    KnowsItsRow(s, o, i, Entered);
    var row := s.w.db.intents[i];
    var plan := PlanFor(i, View(s.w, i), Some(GrantIn(s, i)), Entered, c);
    EntryPlan(i, View(s.w, i), GrantIn(s, i), row, c);
    if plan.op == Nothing {
      Ponders(s, o, i, Entered, c, plan.done);
    } else {
      NoEffectYet(s, o, i, Entered);
      Writes(s, o, i, Entered, c, plan);
    }
  }

  lemma UnprovisionedPlan(i: IntentId, l: Local, row: IntentRow, pc: Pc, c: Choice)
    requires l.row == Some(row) && AtTheDoor(pc)
    ensures PlanFor(i, l, None, pc, c) ==
      if pc.Entered? && row.state == Proposed then Ending(Move(i, Proposed, IntentState.Stopped, c.reasons, Release))
      else Quietly(Finished)
  {
  }

  /** Without a provisioned grant an intent that was never authorized is stopped, and any other is left as it
      is. */
  lemma UnprovisionedLeavesRow(s: Sys, o: Owner, i: IntentId, c: Choice)
    requires Inv(s) && Equipped(s, i) && i in s.w.db.intents && (o, i) in s.pcs && !Provisioned(s.w.db, i)
    ensures var s1, row := Onwards(s, o, i, c), s.w.db.intents[i];
      if s.pcs[(o, i)].Entered? && row.state == Proposed then
        Written(s.w, s1.w, i, row.(state := IntentState.Stopped, reasons := c.reasons), Release)
      else s1.w == s.w
  {
    hide Exec, PlanFor;
    var pc, row, plan := s.pcs[(o, i)], s.w.db.intents[i], PlanOf(s, o, i, c);
    assert IntentInv(s, i) && PcOf(s, i) == pc;
    UnprovisionedPlan(i, View(s.w, i), row, pc, c);
    NothingDone(s.w);
    if plan.op != Nothing {
      Laws.Transitions(s.w, plan.op);
      var w' := Exec(s.w, plan.op).w;
      assert w'.db.intents == s.w.db.intents[i := w'.db.intents[i]];
    }
  }

  lemma NothingDone(w: World)
    ensures Exec(w, Nothing) == Outcome(w, Done)
  {
  }

  // ---- reserving ----

  lemma ReservingPlans(i: IntentId, l: Local, grant: Grant, row: IntentRow, c: Choice)
    requires l.row == Some(row)
    ensures PlanFor(i, l, Some(grant), Reserving, c) ==
      Plan(ReserveUsage(row.intent, grant, c.risk, c.now, c.view), Authorizing, Deferring, Deferring)
    ensures PlanFor(i, l, Some(grant), Deferring, c) == Ending(Move(i, Proposed, Deferred, c.reasons, Keep))
    ensures PlanFor(i, l, Some(grant), Authorizing, c) ==
      Plan(Move(i, Proposed, Authorized, [], Keep), CommittingReservation, Reconciles(true, None), Finished)
    ensures PlanFor(i, l, Some(grant), CommittingReservation, c) ==
      Plan(Move(i, Authorized, Reserved, [], Keep), Submitting, Reconciles(true, None), Finished)
  {
  }

  /** An intent is authorized only once its budget is reserved, and deferred when it cannot be. */
  lemma ReservingDecides(s: Sys, o: Owner, i: IntentId, c: Choice)
    requires At(s, o, i, Reserving)
    ensures var s1 := Onwards(s, o, i, c);
      var out := Exec(s.w, ReserveUsage(s.w.db.intents[i].intent, GrantIn(s, i), c.risk, c.now, c.view));
      s1.w == out.w && At(s1, o, i, if out.result == Done then Authorizing else Deferring)
  {
    hide Exec, PlanFor, Inv, Equipped;
    var plan := Moves(s, o, i, Reserving, c);
    ReservingPlans(i, View(s.w, i), GrantIn(s, i), s.w.db.intents[i], c);
  }

  lemma EarlyStates(s: Sys, o: Owner, i: IntentId, pc: Pc)
    requires At(s, o, i, pc)
    ensures pc.Reserving? || pc.Deferring? || pc.Authorizing? ==> s.w.db.intents[i].state == Proposed
    ensures pc.CommittingReservation? ==> s.w.db.intents[i].state == Authorized
    ensures pc.Submitting? ==> s.w.db.intents[i].state == Reserved || s.w.db.intents[i].state == Reconciling
    ensures pc.Submitting? ==> i in s.w.db.usage
    ensures pc.Awaiting? ==> s.w.db.intents[i].state == Submitted
    ensures pc.Verifying? ==> s.w.db.intents[i].state == Reconciling
  {
    assert IntentInv(s, i);
    assert PcOf(s, i) == pc;
  }

  /** The way from a decided reservation to the submission, one committed state at a time. */
  lemma ReservedMovesOn(s: Sys, o: Owner, i: IntentId, pc: Pc, c: Choice)
    requires At(s, o, i, pc) && (pc.Deferring? || pc.Authorizing? || pc.CommittingReservation?)
    ensures var s1, row := Onwards(s, o, i, c), s.w.db.intents[i];
      match pc
      case Deferring => At(s1, o, i, Finished)
        && Written(s.w, s1.w, i, row.(state := Deferred, reasons := c.reasons), Keep)
      case Authorizing => At(s1, o, i, CommittingReservation)
        && Written(s.w, s1.w, i, row.(state := Authorized, reasons := []), Keep)
      case _ => At(s1, o, i, Submitting) && Written(s.w, s1.w, i, row.(state := Reserved, reasons := []), Keep)
  {
    hide Exec, PlanFor, Inv, Equipped, Onwards;
    KnowsItsRow(s, o, i, pc);
    EarlyStates(s, o, i, pc);
    NoEffectYet(s, o, i, pc);
    ReservingPlans(i, View(s.w, i), GrantIn(s, i), s.w.db.intents[i], c);
    Writes(s, o, i, pc, c, PlanFor(i, View(s.w, i), Some(GrantIn(s, i)), pc, c));
  }

  // ---- submitting ----

  lemma SubmittingPlan(i: IntentId, l: Local, grant: Grant, c: Choice)
    requires l.row.Some?
    ensures PlanFor(i, l, Some(grant), Submitting, c) ==
      if c.go && c.adapter then
        Plan(BeginSubmission(i, {Reserved, Reconciling}, grant.limits.maxAttempts, c.now), Issuing,
             Reconciles(true, None), Finished)
      else Quietly(Stopping(c.reasons, None, true))
  {
  }

  /** The reservation's own action limit leaves no slot at this second. */
  predicate SlotsFull(db: Db, u: UsageRow, i: IntentId, stamp: int) {
    && u.maxActions.Some? && u.actionWindow.Some? && u.actionWindow.value > 0
    && Laws.SlotsTaken(db, u.grant.grantId, u.principal, stamp - u.actionWindow.value, {i}) >= u.maxActions.value
  }

  lemma BeginningDecides(w: World, i: IntentId, maxAttempts: nat, now: int)
    requires i in w.db.intents && i in w.db.usage
    requires w.db.intents[i].state == Reserved || w.db.intents[i].state == Reconciling
    ensures var op := BeginSubmission(i, {Reserved, Reconciling}, maxAttempts, now);
      var out, plan := Exec(w, op), Plan(op, Issuing, Reconciles(true, None), Finished);
      var row, u, full := w.db.intents[i], w.db.usage[i], Stopping([Gate("ATTEMPT_OR_VELOCITY_LIMIT")], None, true);
      if row.submissions >= maxAttempts then out.w == w && Continue(plan, out.result) == full
      else if u.maxActions.Some? && (u.actionWindow.None? || u.actionWindow.value == 0) then
        out.w == w && Continue(plan, out.result) == Finished
      else if SlotsFull(w.db, u, i, Seconds(now)) then out.w == w && Continue(plan, out.result) == full
      else
        && Continue(plan, out.result) == Issuing
        && out.w == w.(db := w.db.(
             intents := w.db.intents[i := row.(state := Submitted, submissions := row.submissions + 1, reasons := [],
                                               ambiguityUntil := None)],
             usage := w.db.usage[i := u.(submitted := true)],
             attempts := w.db.attempts + [AttemptRow(i, row.submissions + 1, u.principal, u.grant, Seconds(now))]))
  {
    hide Exec, Laws.SlotsTaken, Seconds;
    Laws.Submissions(w, BeginSubmission(i, {Reserved, Reconciling}, maxAttempts, now));
  }

  /** A submission begins only if the gates let it at that very moment and both limits leave room; otherwise
      the worker stops the intent and gives the budget back. */
  lemma SubmittingDecides(s: Sys, o: Owner, i: IntentId, c: Choice)
    requires At(s, o, i, Submitting)
    ensures i in s.w.db.usage
    ensures var s1, row, u := Onwards(s, o, i, c), s.w.db.intents[i], s.w.db.usage[i];
      if !c.go || !c.adapter then s1.w == s.w && At(s1, o, i, Stopping(c.reasons, None, true))
      else if row.submissions >= GrantIn(s, i).limits.maxAttempts then
        s1.w == s.w && At(s1, o, i, Stopping([Gate("ATTEMPT_OR_VELOCITY_LIMIT")], None, true))
      else if u.maxActions.Some? && (u.actionWindow.None? || u.actionWindow.value == 0) then
        s1.w == s.w && At(s1, o, i, Finished)
      else if SlotsFull(s.w.db, u, i, Seconds(c.now)) then
        s1.w == s.w && At(s1, o, i, Stopping([Gate("ATTEMPT_OR_VELOCITY_LIMIT")], None, true))
      else
        && At(s1, o, i, Issuing)
        && s1.w == s.w.(db := s.w.db.(
             intents := s.w.db.intents[i := row.(state := Submitted, submissions := row.submissions + 1, reasons := [],
                                                 ambiguityUntil := None)],
             usage := s.w.db.usage[i := u.(submitted := true)],
             attempts := s.w.db.attempts
               + [AttemptRow(i, row.submissions + 1, u.principal, u.grant, Seconds(c.now))]))
  {
    hide Exec, PlanFor, Inv, Equipped, SlotsFull, Onwards, Continue;
    EarlyStates(s, o, i, Submitting);
    var plan := Moves(s, o, i, Submitting, c);
    SubmittingPlan(i, View(s.w, i), GrantIn(s, i), c);
    if c.go && c.adapter {
      BeginningDecides(s.w, i, GrantIn(s, i).limits.maxAttempts, c.now);
    } else {
      Ponders(s, o, i, Submitting, c, plan.done);
    }
  }

  // ---- issuing ----

  lemma IssuingPlans(i: IntentId, l: Local, grant: Grant, row: IntentRow, pc: Pc, c: Choice)
    requires l.row == Some(row) && (pc.Issuing? || pc.ClaimedRisk? || pc.Fenced?)
    ensures var failed := PermitFailed(false);
      PlanFor(i, l, Some(grant), pc, c) ==
      match pc
      case Issuing =>
        if c.go then Plan(ClaimPermitRisk(row.intent, grant, c.risk), ClaimedRisk(c.risk), failed, failed)
        else Quietly(failed)
      case ClaimedRisk(risk) =>
        Plan(NextFence(grant.key, grant.principal, c.view), Fenced(0, 0, risk), failed, failed)
      case Fenced(epoch, fence, _) =>
        if c.go && c.now < c.expiresAt then
          Plan(RecordPermit(IssuedPermit(c.permitId, i, grant.principal, grant.key, epoch, fence, c.expiresAt),
                            grant.limits.maxClockSkew, c.now), Sending(|l.permits|, c.expiresAt), failed, failed)
        else Quietly(failed)
      case _ => Quietly(failed)
  {
  }

  /** A permit takes three transactions: the risk state is claimed, a fence allocated, and the permit
      recorded under that epoch and fence with an expiry still ahead. Any that fails, and any gate that
      closes before it, ends the attempt. */
  lemma IssuingDecides(s: Sys, o: Owner, i: IntentId, pc: Pc, c: Choice)
    requires At(s, o, i, pc) && (pc.Issuing? || pc.ClaimedRisk? || pc.Fenced?)
    ensures var s1, grant := Onwards(s, o, i, c), GrantIn(s, i);
      match pc
      case Issuing =>
        var out := Exec(s.w, ClaimPermitRisk(s.w.db.intents[i].intent, grant, c.risk));
        if c.go then
          s1.w == out.w && At(s1, o, i, if out.result == Done then ClaimedRisk(c.risk) else PermitFailed(false))
        else s1.w == s.w && At(s1, o, i, PermitFailed(false))
      case ClaimedRisk(risk) =>
        var out := Exec(s.w, NextFence(grant.key, grant.principal, c.view));
        s1.w == out.w && At(s1, o, i, if out.result.Fence? then Fenced(out.result.epoch, out.result.fence, risk)
                                      else PermitFailed(false))
      case Fenced(epoch, fence, _) =>
        var permit := IssuedPermit(c.permitId, i, grant.principal, grant.key, epoch, fence, c.expiresAt);
        var out := Exec(s.w, RecordPermit(permit, grant.limits.maxClockSkew, c.now));
        if c.go && c.now < c.expiresAt then
          s1.w == out.w && At(s1, o, i, if out.result.Recorded? then Sending(|Rows(s.w.db.permits, i)|, c.expiresAt)
                                        else PermitFailed(out.result == PreviousPermitLive))
        else s1.w == s.w && At(s1, o, i, PermitFailed(false))
      case _ => true
  {
    hide Exec, PlanFor, Inv, Equipped;
    var plan := Moves(s, o, i, pc, c);
    IssuingPlans(i, View(s.w, i), GrantIn(s, i), s.w.db.intents[i], pc, c);
    if plan.op == Nothing {
      Ponders(s, o, i, pc, c, PermitFailed(false));
    }
  }

  // ---- the adapter's answer ----

  lemma TransportPlans(i: IntentId, l: Local, grant: Grant, pc: Pc, c: Choice)
    requires l.row.Some? && (pc.Sending? || pc.Awaiting?)
    ensures var plan := PlanFor(i, l, Some(grant), pc, c);
      match pc
      case Sending(n, expiresAt) => plan == Quietly(Awaiting(n, expiresAt))
      case Awaiting(_, expiresAt) =>
        && plan.op == Transition(i, {Submitted}, Unknown,
             [match c.outcome
              case Receipt => AwaitingIndependentSettlement
              case Ambiguous => ExecutionAmbiguous
              case Rejected => DeterministicFailureUnverified
              case Broken => AdapterExecutionException], None, Keep, Some(expiresAt), None)
        && plan.done == if c.outcome == Rejected then Reconciles(false, Some(DeterministicFailure))
                        else Reconciles(true, None)
      case _ => true
  {
  }

  /** Whatever the adapter answers, the row says UNKNOWN until the permit's expiry, with the budget held,
      before anybody looks for the effect; only a rejection forbids another attempt. */
  lemma AnswerDecides(s: Sys, o: Owner, i: IntentId, pc: Pc, c: Choice)
    requires At(s, o, i, pc) && (pc.Sending? || pc.Awaiting?)
    ensures var s1, row := Onwards(s, o, i, c), s.w.db.intents[i];
      match pc
      case Sending(n, expiresAt) =>
        && s1.w == s.w && At(s1, o, i, Awaiting(n, expiresAt))
        && CallsOf(s1, i) == CallsOf(s, i) + 1 && s1.sent == s.sent + {(i, n)}
      case Awaiting(_, expiresAt) =>
        var reason := match c.outcome
          case Receipt => AwaitingIndependentSettlement
          case Ambiguous => ExecutionAmbiguous
          case Rejected => DeterministicFailureUnverified
          case Broken => AdapterExecutionException;
        && Written(s.w, s1.w, i, row.(state := Unknown, reasons := [reason], ambiguityUntil := Some(expiresAt)), Keep)
        && At(s1, o, i, if c.outcome == Rejected then Reconciles(false, Some(DeterministicFailure))
                        else Reconciles(true, None))
      case _ => true
  {
    hide Exec, PlanFor, Inv, Equipped;
    var plan := Moves(s, o, i, pc, c);
    TransportPlans(i, View(s.w, i), GrantIn(s, i), pc, c);
    if pc.Sending? {
      Ponders(s, o, i, pc, c, plan.done);
    } else {
      EarlyStates(s, o, i, pc);
      NoEffectYet(s, o, i, pc);
      Writes(s, o, i, pc, c, plan);
    }
  }

  // ---- reconciling ----

  /** Exactly the failure codes stay on a row that goes into reconciliation. */
  lemma {:induction false} FailureCodesStay(reasons: seq<Reason>)
    ensures forall r :: r in BlockingOnly(reasons) <==>
      r in reasons && (r == DeterministicFailure || r == DeterministicFailureUnverified)
    decreases |reasons|
  {
    if reasons != [] {
      FailureCodesStay(reasons[1..]);
      assert reasons == [reasons[0]] + reasons[1..];
    }
  }

  /** What the reconciler takes from the row before it asks the verifier. */
  function Taken(row: IntentRow, allow: bool, block: Option<Reason>): Seen {
    if block == None && FailureCode(row) then
      Seen(row.effect, row.filled, row.ambiguityUntil, false, Some(DeterministicFailure))
    else Seen(row.effect, row.filled, row.ambiguityUntil, allow, block)
  }

  lemma ReconcilingPlan(i: IntentId, l: Local, grant: Grant, row: IntentRow, allow: bool, block: Option<Reason>,
                        c: Choice)
    requires l.row == Some(row)
    ensures var plan, verifying := PlanFor(i, l, Some(grant), Reconciles(allow, block), c),
                                   Verifying(Taken(row, allow, block));
      if Ended(row.state) || !c.trusted then plan == Quietly(Finished)
      else if !c.adapter then
        plan == Quietly(Stopping([Gate("ADAPTER_NOT_CONFIGURED")], None,
                                 row.state == Proposed || row.state == Authorized || row.state == Reserved))
      else if row.state == Proposed || row.state == Authorized then plan == Quietly(Finished)
      else if row.state == Reconciling then plan == Quietly(verifying)
      else
        plan == Plan(Move(i, row.state, Reconciling, BlockingOnly(row.reasons), Keep), verifying, verifying, Finished)
  {
    FailureCodeBlocks(row);
  }

  /** An intent that may have an effect goes into reconciliation with its failure codes, which forbid a retry
      to whoever picks it up; without an adapter it is stopped, and its budget given back only if nothing
      was ever submitted. */
  lemma ReconcilingDecides(s: Sys, o: Owner, i: IntentId, allow: bool, block: Option<Reason>, c: Choice)
    requires At(s, o, i, Reconciles(allow, block))
    requires !Laws.OwnedElsewhere(s.w.db.intents, i, s.w.db.intents[i].effect)
    ensures var s1, row := Onwards(s, o, i, c), s.w.db.intents[i];
      var verifying := Verifying(Taken(row, allow, block));
      if Ended(row.state) || !c.trusted then s1.w == s.w && At(s1, o, i, Finished)
      else if !c.adapter then
        s1.w == s.w
        && At(s1, o, i, Stopping([Gate("ADAPTER_NOT_CONFIGURED")], None,
                                 row.state == Proposed || row.state == Authorized || row.state == Reserved))
      else if row.state == Proposed || row.state == Authorized then s1.w == s.w && At(s1, o, i, Finished)
      else if row.state == Reconciling then s1.w == s.w && At(s1, o, i, verifying)
      else
        && At(s1, o, i, verifying)
        && Written(s.w, s1.w, i, row.(state := Reconciling, reasons := s1.w.db.intents[i].reasons), Keep)
        && (forall r :: r in s1.w.db.intents[i].reasons <==>
              r in row.reasons && (r == DeterministicFailure || r == DeterministicFailureUnverified))
  {
    hide Exec, PlanFor, Inv, Equipped, Onwards, FailureCode, BlockingOnly;
    var pc, row := Reconciles(allow, block), s.w.db.intents[i];
    KnowsItsRow(s, o, i, pc);
    var plan := PlanFor(i, View(s.w, i), Some(GrantIn(s, i)), pc, c);
    ReconcilingPlan(i, View(s.w, i), GrantIn(s, i), row, allow, block, c);
    FailureCodesStay(row.reasons);
    if plan.op == Nothing {
      Ponders(s, o, i, pc, c, plan.done);
    } else {
      Writes(s, o, i, pc, c, plan);
    }
  }

  lemma UnansweredPlan(i: IntentId, l: Local, grant: Grant, seen: Seen, c: Choice)
    requires l.row.Some? && !c.answer.Answered?
    ensures PlanFor(i, l, Some(grant), Verifying(seen), c) ==
      if c.answer.Malformed? then Quietly(Stopping([SettlementRecordMalformed], seen.effect, false))
      else Ending(Move(i, Reconciling, Unknown,
                       if seen.block.Some? then Headed(ReconciliationException, [seen.block.value])
                       else [ReconciliationException], Keep))
  {
    hide Decide;
  }

  /** A verifier that fails leaves the intent open with its block; one that answers nonsense stops it. The
      budget stays held either way. */
  lemma UnansweredDecides(s: Sys, o: Owner, i: IntentId, seen: Seen, c: Choice)
    requires At(s, o, i, Verifying(seen)) && !c.answer.Answered?
    requires !Laws.OwnedElsewhere(s.w.db.intents, i, s.w.db.intents[i].effect)
    ensures var s1, row := Onwards(s, o, i, c), s.w.db.intents[i];
      if c.answer.Malformed? then
        s1.w == s.w && At(s1, o, i, Stopping([SettlementRecordMalformed], seen.effect, false))
      else
        && At(s1, o, i, Finished)
        && Written(s.w, s1.w, i,
                   row.(state := Unknown,
                        reasons := if seen.block.Some? then Headed(ReconciliationException, [seen.block.value])
                                   else [ReconciliationException]), Keep)
  {
    hide Exec, PlanFor, Inv, Equipped, Onwards;
    KnowsItsRow(s, o, i, Verifying(seen));
    EarlyStates(s, o, i, Verifying(seen));
    var plan := PlanFor(i, View(s.w, i), Some(GrantIn(s, i)), Verifying(seen), c);
    UnansweredPlan(i, View(s.w, i), GrantIn(s, i), seen, c);
    if plan.op == Nothing {
      Ponders(s, o, i, Verifying(seen), c, plan.done);
    } else {
      Writes(s, o, i, Verifying(seen), c, plan);
    }
  }

  /** Holds are repaired without the lease only on an intent that ended, either finalized, whose hold is then
      committed, or never submitted and without a settlement code, whose hold is released. */
  lemma OrphanSettles(s: Sys, i: IntentId)
    ensures Enabled(s, OrphanRepaired(i)) <==>
      && i in s.w.db.intents
      && var row := s.w.db.intents[i];
         row.state == Finalized
         || (Ended(row.state) && row.submissions == 0 && forall r :: r in row.reasons ==> !SettlementDerived(r))
    ensures Enabled(s, OrphanRepaired(i)) ==>
      Next(s, OrphanRepaired(i)).w == s.w.(db := s.w.db.(
        usage := Laws.SettledUsage(s.w.db.usage, i, if s.w.db.intents[i].state == Finalized then Commit else Release)))
  {
    hide SettlementDerived;
    Laws.UsageSettlements(s.w, i);
  }

  // ---- nothing happens behind closed gates ----

  /** The only plans that begin a submission, claim a risk state or record a permit. */
  lemma GatedPlans(i: IntentId, l: Local, grant: Option<Grant>, pc: Pc, c: Choice)
    ensures var op := PlanFor(i, l, grant, pc, c).op;
      && (op.BeginSubmission? ==> pc.Submitting? && c.go && c.adapter)
      && (op.ClaimPermitRisk? ==> pc.Issuing? && c.go)
      && (op.RecordPermit? ==> pc.Fenced? && c.go && c.now < c.expiresAt)
  {
    hide Decide;
  }

  /** The step begins a submission of the intent or records a permit for it. */
  ghost predicate Attempts(s: Sys, st: Step, i: IntentId)
    requires Enabled(s, st) && i in s.w.db.intents
  {
    var w' := Next(s, st).w;
    i in w'.db.intents && (w'.db.intents[i].submissions != s.w.db.intents[i].submissions
                           || |Rows(w'.db.permits, i)| != |Rows(s.w.db.permits, i)|)
  }

  lemma OthersAttemptNothing(s: Sys, st: Step, i: IntentId)
    requires Inv(s) && Enabled(s, st) && i in s.w.db.intents && !(st.Works? && st.id == i)
    ensures !Attempts(s, st, i)
  {
    hide Exec, Inv, PlanFor, Continue, Orphaned, SettlementDerived;
    var op := OpOf(s, st);
    if st.Works? {
      WorkerOpOf(s, st.owner, st.id, st.c);
    }
    NextExecutes(s, st);
    if op.ConsumePermit? {
      ConsumeEffect(s.w, op, i);
    } else if Subject(op) == Some(i) {
      OwnEffect(s.w, op, i);
    } else {
      OtherEffect(s.w, op, i);
    }
    SameCounts(View(s.w, i), View(Next(s, st).w, i), s.w, Next(s, st).w, i);
  }

  lemma SameCounts(l: Local, l': Local, w: World, w': World, i: IntentId)
    requires l == View(w, i) && l' == View(w', i) && i in w.db.intents
    requires |l'.permits| == |l.permits|
    requires l'.row.Some? ==> l'.row.value.submissions == l.row.value.submissions
    ensures i in w'.db.intents ==>
      w'.db.intents[i].submissions == w.db.intents[i].submissions
      && |Rows(w'.db.permits, i)| == |Rows(w.db.permits, i)|
  {
  }

  lemma OwnAttempt(i: IntentId, l: Local, op: Op, result: Result, l': Local)
    requires WorkerOp(op, i) && ViewStep(i, l, op, result, l') && l.row.Some?
    requires !op.BeginSubmission? && !op.RecordPermit?
    ensures |l'.permits| == |l.permits|
    ensures l'.row.Some? && l'.row.value.submissions == l.row.value.submissions
  {
  }

  /** Only the intent's own worker, at its two gated stages, attempts anything. */
  lemma AttemptNeedsGates(s: Sys, st: Step, i: IntentId)
    requires Inv(s) && Enabled(s, st) && i in s.w.db.intents && Attempts(s, st, i)
    ensures st.Works? && st.id == i && st.c.go
    ensures (s.pcs[(st.owner, i)].Submitting? && st.c.adapter)
            || (s.pcs[(st.owner, i)].Fenced? && st.c.now < st.c.expiresAt)
  {
    hide Exec, PlanFor, Continue, Orphaned, LocalOk;
    if !(st.Works? && st.id == i) {
      OthersAttemptNothing(s, st, i);
    } else {
      OwnWorkView(s, st.owner, i, st.c);
      var plan := PlanOf(s, st.owner, i, st.c);
      if !plan.op.BeginSubmission? && !plan.op.RecordPermit? {
        OwnAttempt(i, View(s.w, i), plan.op, Exec(s.w, plan.op).result, View(Next(s, st).w, i));
      }
      GatedPlans(i, View(s.w, i), GrantOf(s.w.db, s.w.db.intents[i].intent), PcOf(s, i), st.c);
    }
  }

  /** While no gate lets the intent's workers through, nothing is submitted and no permit issued for it,
      whatever else happens: crashes, takeovers, operators, venues, other intents. */
  lemma {:induction false} ClosedGatesAttemptNothing(s: Sys, steps: seq<Step>, i: IntentId)
    requires Inv(s) && Possible(s, steps) && i in s.w.db.intents
    requires forall k :: 0 <= k < |steps| && steps[k].Works? && steps[k].id == i ==> !steps[k].c.go
    ensures NoFurtherAttempt(s.w, Run(s, steps).w, i)
    decreases |steps|
  {
    hide Exec, PlanFor, Inv;
    if steps != [] {
      var st, s' := steps[0], Next(s, steps[0]);
      if Attempts(s, st, i) {
        AttemptNeedsGates(s, st, i);
      }
      StepKeepsInv(s, st);
      A.RowKept(s, st, i);
      ClosedGatesAttemptNothing(s', steps[1..], i);
    }
  }

  // ---- a stop that settlement asked for ----

  /** The codes of the stops that an authoritative observation of the venue leads to. */
  const SETTLEMENT_STOPS: set<Reason> := {
    SettlementRecordMalformed, SettlementRequestBindingMismatch, SettledEffectIdInvalid, SettledEffectIdRequired,
    SettlementLostPreviousEffect, SettlementEffectIdMismatch, SettledAmountRequired, SettledAmountInvalid,
    SettledAmountExceedsAuthorized, PaymentAmountMismatch, PaymentPartialNotAllowed, SettlementFillRegressed,
    SettlementCancelContradictsRecordedEffect, SettlementContradictory, SettlementNoneAfterPermitConsumed,
    EffectIdAlreadyClaimed}

  /** Every stop the reconciler decides on has one of them, or an authorised amount nobody can read. */
  lemma StopsHaveCodes(intent: Intent, seen: Seen, skew: nat, now: int, record: Record)
    requires Decide(intent, seen, skew, now, record).StopWith?
    ensures var d := Decide(intent, seen, skew, now, record);
      && d.reasons != []
      && (d.reasons[0] in SETTLEMENT_STOPS
          || (d.reasons[0] == AuthorizedEffectAmountInvalid && Monetary(intent.primitive)
              && (intent.amount.None? || intent.amount.value <= 0)))
  {
  }

  /** The intent was stopped by settlement and its budget is held. */
  predicate HeldByStop(w: World, i: IntentId) {
    && i in w.db.intents && i in w.db.usage && w.db.usage[i].status == Held
    && w.db.intents[i].state == IntentState.Stopped
    && exists r :: r in SETTLEMENT_STOPS && r in w.db.intents[i].reasons
  }

  lemma NoOrphan(s: Sys, i: IntentId)
    requires HeldByStop(s.w, i)
    ensures !Enabled(s, OrphanRepaired(i))
  {
    var r :| r in SETTLEMENT_STOPS && r in s.w.db.intents[i].reasons;
    var k :| 0 <= k < |s.w.db.intents[i].reasons| && s.w.db.intents[i].reasons[k] == r;
    assert SettlementDerived(s.w.db.intents[i].reasons[k]);
  }

  lemma StoppedPlans(i: IntentId, l: Local, grant: Option<Grant>, pc: Pc, c: Choice, b: bool)
    requires LocalOk(i, l, pc, b) && l.row.Some? && l.row.value.state == IntentState.Stopped
    ensures var op := PlanFor(i, l, grant, pc, c).op; op == Nothing || op == VoidPermits(i)
  {
    hide Decide;
  }

  lemma OwnKeepsUsage(s: Sys, o: Owner, i: IntentId, c: Choice)
    requires Inv(s) && Enabled(s, Works(o, i, c)) && HeldByStop(s.w, i)
    ensures View(Next(s, Works(o, i, c)).w, i).usage == Some(Held)
  {
    hide Exec, PlanFor, Continue, Inv, LocalOk;
    OwnWorkView(s, o, i, c);
    assert IntentInv(s, i) by {
      Everywhere(s, i);
    }
    StoppedPlans(i, View(s.w, i), GrantOf(s.w.db, s.w.db.intents[i].intent), PcOf(s, i), c, i in s.blocked);
  }

  lemma Everywhere(s: Sys, i: IntentId)
    requires Inv(s)
    ensures IntentInv(s, i)
  {
  }

  lemma StoppedKeepsUsage(s: Sys, st: Step, i: IntentId)
    requires Inv(s) && Enabled(s, st) && HeldByStop(s.w, i)
    ensures View(Next(s, st).w, i).usage == Some(Held)
  {
    hide Exec, PlanFor, Continue, Orphaned, Inv, HeldByStop, View;
    NextExecutes(s, st);
    if st.Works? && st.id == i {
      OwnKeepsUsage(s, st.owner, i, st.c);
    } else {
      OthersKeepUsage(s, st, i);
    }
  }

  lemma OthersKeepUsage(s: Sys, st: Step, i: IntentId)
    requires Inv(s) && Enabled(s, st) && HeldByStop(s.w, i) && !(st.Works? && st.id == i)
    ensures View(Exec(s.w, OpOf(s, st)).w, i).usage == Some(Held)
  {
    hide Exec, HeldByStop, Orphaned;
    var op := OpOf(s, st);
    NoOrphan(s, i);
    if st.Works? {
      WorkerOpOf(s, st.owner, st.id, st.c);
    }
    HeldNow(s.w, i);
    if op.ConsumePermit? {
      ConsumeEffect(s.w, op, i);
    } else if Subject(op) == Some(i) {
      OwnEffect(s.w, op, i);
    } else {
      OtherEffect(s.w, op, i);
    }
  }

  lemma HeldNow(w: World, i: IntentId)
    requires HeldByStop(w, i)
    ensures View(w, i).usage == Some(Held) && View(w, i).row.Some?
  {
  }

  lemma StoppedKeepsRow(s: Sys, st: Step, i: IntentId)
    requires Inv(s) && Enabled(s, st) && HeldByStop(s.w, i)
    ensures HeldByStop(Next(s, st).w, i) && Next(s, st).w.db.intents[i] == s.w.db.intents[i]
  {
    hide Exec, PlanFor, Inv;
    StoppedKeepsUsage(s, st, i);
    IntentStep(s, st, i);
    assert View(s.w, i).row == Some(s.w.db.intents[i]);
  }

  /** Budget behind a stop that settlement asked for is never let go, by no worker, repair, operator or crash:
      a person has to look at it. */
  lemma {:induction false} SettlementStopKeepsBudget(s: Sys, steps: seq<Step>, i: IntentId)
    requires Inv(s) && Possible(s, steps) && HeldByStop(s.w, i)
    ensures HeldByStop(Run(s, steps).w, i) && Run(s, steps).w.db.intents[i] == s.w.db.intents[i]
    decreases |steps|
  {
    hide Exec, Inv, HeldByStop;
    if steps != [] {
      StoppedKeepsRow(s, steps[0], i);
      StepKeepsInv(s, steps[0]);
      SettlementStopKeepsBudget(Next(s, steps[0]), steps[1..], i);
    }
  }

  /** Only an intent whose amount can be read has a reservation. */
  predicate Booked(w: World, i: IntentId) {
    i in w.db.intents && i in w.db.usage ==> Priced(w.db.intents[i].intent)
  }

  lemma ReservingPriced(w: World, op: Op)
    requires op.ReserveUsage? && Exec(w, op).result == Done && op.intent.id !in w.db.usage
    ensures Priced(op.intent)
  {
    if !Priced(op.intent) {
      Laws.UnpricedReservations(w, op);
    }
  }

  lemma ReservesOwn(i: IntentId, l: Local, grant: Option<Grant>, pc: Pc, c: Choice)
    ensures var op := PlanFor(i, l, grant, pc, c).op;
      op.ReserveUsage? ==> l.row.Some? && op.intent == l.row.value.intent
  {
    hide Decide;
  }

  /** A reservation appears only in the reserving transaction of the intent's own worker. */
  lemma UsageAppears(s: Sys, st: Step, i: IntentId)
    requires Inv(s) && Enabled(s, st) && View(s.w, i).usage == None && View(Next(s, st).w, i).usage.Some?
    ensures st.Works? && st.id == i && OpOf(s, st).ReserveUsage? && Exec(s.w, OpOf(s, st)).result == Done
  {
    hide Exec, PlanFor, Continue, Orphaned, LocalOk;
    var op := OpOf(s, st);
    NextExecutes(s, st);
    if st.Works? {
      WorkerOpOf(s, st.owner, st.id, st.c);
    }
    if op.ConsumePermit? {
      ConsumeEffect(s.w, op, i);
    } else if Subject(op) == Some(i) {
      OwnEffect(s.w, op, i);
    } else {
      OtherEffect(s.w, op, i);
    }
  }

  lemma BookedStep(s: Sys, st: Step, i: IntentId)
    requires Inv(s) && Enabled(s, st) && Booked(s.w, i)
    ensures Booked(Next(s, st).w, i)
  {
    hide Exec, PlanFor, Continue, Priced;
    if i in s.w.db.intents {
      A.RowKept(s, st, i);
    }
    if View(s.w, i).usage == None && View(Next(s, st).w, i).usage.Some? {
      UsageAppears(s, st, i);
      assert IntentInv(s, i);
      ReservesOwn(i, View(s.w, i), GrantOf(s.w.db, s.w.db.intents[i].intent), s.pcs[(st.owner, i)], st.c);
      ReservingPriced(s.w, OpOf(s, st));
    } else if i !in s.w.db.intents {
      assert IntentInv(s, i);
    }
  }

  lemma {:induction false} BookedAlways(s: Sys, steps: seq<Step>, i: IntentId)
    requires Inv(s) && Possible(s, steps) && Booked(s.w, i)
    ensures Booked(Run(s, steps).w, i)
    decreases |steps|
  {
    hide Exec, Inv, Booked;
    if steps != [] {
      BookedStep(s, steps[0], i);
      StepKeepsInv(s, steps[0]);
      BookedAlways(Next(s, steps[0]), steps[1..], i);
    }
  }

  lemma ReachableBooked(s: Sys, i: IntentId)
    requires Reachable(s)
    ensures Booked(s.w, i)
  {
    hide Exec;
    var s0, steps :| Initial(s0) && Possible(s0, steps) && Run(s0, steps) == s;
    InitialInv(s0);
    BookedAlways(s0, steps, i);
  }

  /** What two transactions of a stopping worker leave, and what every continuation leaves of that. */
  ghost predicate StoppedForGood(s: Sys, i: IntentId, reasons: seq<Reason>) {
    && i in s.w.db.intents && s.w.db.intents[i].reasons == reasons
    && AllDead(s.w.db, i) && HeldByStop(s.w, i)
    && forall steps: seq<Step> :: Possible(s, steps) ==>
         HeldByStop(Run(s, steps).w, i) && Run(s, steps).w.db.intents[i] == s.w.db.intents[i]
  }

  lemma StopHolds(s: Sys, o: Owner, i: IntentId, reasons: seq<Reason>, previous: Option<EffectId>, c: Choice)
    requires At(s, o, i, Stopping(reasons, previous, false))
    requires s.w.db.intents[i].state == Reconciling && reasons != [] && reasons[0] in SETTLEMENT_STOPS
    requires i in s.w.db.usage && s.w.db.usage[i].status == Held
    requires !Laws.OwnedElsewhere(s.w.db.intents, i, s.w.db.intents[i].effect)
    ensures var s1 := Onwards(s, o, i, c);
      && i in s1.w.db.intents && (o, i) in s1.pcs && StoppedForGood(Onwards(s1, o, i, c), i, reasons)
  {
    hide Exec, PlanFor, Inv, Equipped, Decide, AllDead, SETTLEMENT_STOPS, Onwards, Run, Possible, Laws.OwnedElsewhere;
    StopKnowsEffect(s, o, i, reasons, previous);
    StopEnds(s, o, i, reasons, previous, false, c);
    var s2 := Onwards(Onwards(s, o, i, c), o, i, c);
    assert reasons[0] in s2.w.db.intents[i].reasons;
    HeldForGood(s2, i);
  }

  lemma HeldForGood(s: Sys, i: IntentId)
    requires Inv(s) && HeldByStop(s.w, i)
    ensures forall steps: seq<Step> :: Possible(s, steps) ==>
      HeldByStop(Run(s, steps).w, i) && Run(s, steps).w.db.intents[i] == s.w.db.intents[i]
  {
    hide Exec, Inv;
    forall steps: seq<Step> | Possible(s, steps)
      ensures HeldByStop(Run(s, steps).w, i) && Run(s, steps).w.db.intents[i] == s.w.db.intents[i]
    {
      SettlementStopKeepsBudget(s, steps, i);
    }
  }

  /** A record the reconciler cannot accept stops the intent in three transactions of its worker. Its budget
      is then held for good, whatever follows, also when nothing was ever submitted. */
  lemma UnacceptedRecordHoldsBudget(s: Sys, o: Owner, i: IntentId, seen: Seen, c: Choice, record: Record)
    requires Reachable(s) && Judging(s, o, i, seen, c, record) && Judgement(s, i, seen, c, record).StopWith?
    requires !Laws.OwnedElsewhere(s.w.db.intents, i, s.w.db.intents[i].effect)
    ensures var s1 := Onwards(s, o, i, c);
      && i in s1.w.db.intents && (o, i) in s1.pcs
      && var s2 := Onwards(s1, o, i, c);
         && i in s2.w.db.intents && (o, i) in s2.pcs
         && StoppedForGood(Onwards(s2, o, i, c), i, Judgement(s, i, seen, c, record).reasons)
  {
    hide Exec, PlanFor, Inv, Equipped, Decide, Reachable, StoppedForGood, SETTLEMENT_STOPS, Onwards;
    var d := Judgement(s, i, seen, c, record);
    JudgingPlan(s, o, i, seen, c, record);
    Ponders(s, o, i, Verifying(seen), c, Stopping(d.reasons, d.previous, false));
    ReconcilingHeld(s, o, i, Verifying(seen));
    ReachableBooked(s, i);
    StopsHaveCodes(s.w.db.intents[i].intent, seen, GrantIn(s, i).limits.maxClockSkew, c.now, record);
    StopHolds(Onwards(s, o, i, c), o, i, d.reasons, d.previous, c);
  }

  lemma StopKnowsEffect(s: Sys, o: Owner, i: IntentId, reasons: seq<Reason>, previous: Option<EffectId>)
    requires At(s, o, i, Stopping(reasons, previous, false))
    ensures previous.Some? ==> previous == s.w.db.intents[i].effect
  {
    assert IntentInv(s, i);
  }

  /** A second permit is never refused for a live first one in a run, but should it be, the attempt would
      leave the row UNKNOWN with its budget and its window. */
  lemma PreviousPermitHolds(s: Sys, i: IntentId, l: Local, grant: Grant, row: IntentRow, c: Choice)
    requires Inv(s) && l.row == Some(row)
    ensures PcOf(s, i) != PermitFailed(true)
    ensures PlanFor(i, l, Some(grant), PermitFailed(true), c)
      == Plan(Move(i, Submitted, Unknown, [PermitRejected], Keep), Reconciles(true, None), Reconciles(true, None),
              Finished)
  {
    assert IntentInv(s, i);
  }
}
