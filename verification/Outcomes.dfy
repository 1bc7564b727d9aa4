/** What a worker makes of an intent: where an answer, a rejection or a stop leaves row, budget and permits. */
module Outcomes {
  import opened Types
  import opened StoreOps
  import opened LocalView
  import opened Settlement
  import opened Protocol
  import opened LocalInv
  import opened Runs
  import opened Guarantees
  import Attempts
  import Authority
  import Laws

  // ---- a worker in the middle of its work has a provisioned grant ----

  predicate Provisioned(db: Db, i: IntentId) {
    i in db.intents && GrantOf(db, db.intents[i].intent).Some?
  }

  /** The worker has just entered, or is done. */
  predicate AtTheDoor(pc: Pc) {
    pc.Entered? || pc.Reconciles? || pc.Finished?
  }

  ghost predicate Equipped(s: Sys, i: IntentId) {
    i in s.w.db.intents && !AtTheDoor(PcOf(s, i)) ==> Provisioned(s.w.db, i)
  }

  lemma UngrantedPlan(i: IntentId, l: Local, pc: Pc, c: Choice, result: Result)
    requires AtTheDoor(pc)
    ensures Continue(PlanFor(i, l, None, pc, c), result) == Finished
  {
  }

  lemma ProvisionedStays(s: Sys, st: Step, i: IntentId)
    requires Inv(s) && Enabled(s, st) && Provisioned(s.w.db, i)
    ensures Provisioned(Next(s, st).w.db, i)
  {
    hide Exec;
    Attempts.RowKept(s, st, i);
    NextExecutes(s, st);
    Authority.GrantEffect(s.w, OpOf(s, st), s.w.db.intents[i].intent.grant);
  }

  lemma EquippedStep(s: Sys, st: Step, i: IntentId)
    requires Inv(s) && Enabled(s, st) && Equipped(s, i)
    ensures Equipped(Next(s, st), i)
  {
    hide Exec, PlanFor, Continue;
    if Provisioned(s.w.db, i) {
      ProvisionedStays(s, st, i);
    } else if st.Works? && st.id == i {
      OwnWorkView(s, st.owner, i, st.c);
      UngrantedPlan(i, View(s.w, i), PcOf(s, i), st.c, Exec(s.w, PlanOf(s, st.owner, i, st.c).op).result);
    } else {
      Attempts.OtherStep(s, st, i);
      assert i !in s.w.db.intents ==> PcOf(s, i) == Finished by {
        assert IntentInv(s, i);
      }
    }
  }

  lemma {:induction false} EquippedAlways(s: Sys, steps: seq<Step>, i: IntentId)
    requires Inv(s) && Possible(s, steps) && Equipped(s, i)
    ensures Inv(Run(s, steps)) && Equipped(Run(s, steps), i)
    decreases |steps|
  {
    hide Exec, Equipped;
    if steps != [] {
      EquippedStep(s, steps[0], i);
      StepKeepsInv(s, steps[0]);
      EquippedAlways(Next(s, steps[0]), steps[1..], i);
    }
  }

  lemma ReachableEquipped(s: Sys, i: IntentId)
    requires Reachable(s)
    ensures Inv(s) && Equipped(s, i)
  {
    hide Exec;
    var s0, steps :| Initial(s0) && Possible(s0, steps) && Run(s0, steps) == s;
    InitialInv(s0);
    EquippedAlways(s0, steps, i);
  }

  // ---- reachable states ----

  lemma {:induction false} PossibleReaches(s: Sys, steps: seq<Step>, st: Step)
    requires Possible(s, steps) && Enabled(Run(s, steps), st)
    ensures Possible(s, steps + [st]) && Run(s, steps + [st]) == Next(Run(s, steps), st)
    decreases |steps|
  {
    hide Exec;
    if steps == [] {
      assert (steps + [st])[1..] == [];
    } else {
      assert (steps + [st])[1..] == steps[1..] + [st];
      PossibleReaches(Next(s, steps[0]), steps[1..], st);
    }
  }

  lemma StepReachable(s: Sys, st: Step)
    requires Reachable(s) && Enabled(s, st)
    ensures Reachable(Next(s, st))
  {
    hide Exec, Initial;
    var s0, steps :| Initial(s0) && Possible(s0, steps) && Run(s0, steps) == s;
    PossibleReaches(s0, steps, st);
  }

  // ---- one transaction of a worker ----

  /** Worker `o` is on the intent, at `pc`, with a grant it was provisioned with. */
  ghost predicate At(s: Sys, o: Owner, i: IntentId, pc: Pc) {
    && Inv(s) && Equipped(s, i) && i in s.w.db.intents && Provisioned(s.w.db, i)
    && (o, i) in s.pcs && s.pcs[(o, i)] == pc
  }

  ghost function Onwards(s: Sys, o: Owner, i: IntentId, c: Choice): Sys
    requires i in s.w.db.intents && (o, i) in s.pcs
  {
    Next(s, Works(o, i, c))
  }

  function GrantIn(s: Sys, i: IntentId): Grant
    requires Provisioned(s.w.db, i)
  {
    GrantOf(s.w.db, s.w.db.intents[i].intent).value
  }

  lemma StaysAt(s: Sys, o: Owner, i: IntentId, pc: Pc, c: Choice)
    requires At(s, o, i, pc)
    ensures var s' := Onwards(s, o, i, c); Inv(s') && Equipped(s', i) && Provisioned(s'.w.db, i)
  {
    hide Exec, PlanFor, Continue;
    var st := Works(o, i, c);
    StepKeepsInv(s, st);
    EquippedStep(s, st, i);
    ProvisionedStays(s, st, i);
  }

  lemma KnowsItsRow(s: Sys, o: Owner, i: IntentId, pc: Pc)
    requires At(s, o, i, pc)
    ensures View(s.w, i).row == Some(s.w.db.intents[i]) && s.w.db.intents[i].intent.id == i
  {
    assert IntentInv(s, i);
  }

  lemma Moves(s: Sys, o: Owner, i: IntentId, pc: Pc, c: Choice) returns (plan: Plan)
    requires At(s, o, i, pc)
    ensures plan == PlanFor(i, View(s.w, i), Some(GrantIn(s, i)), pc, c)
    ensures var s', out := Onwards(s, o, i, c), Exec(s.w, plan.op);
      s'.w == out.w && At(s', o, i, Continue(plan, out.result))
    ensures View(s.w, i).row == Some(s.w.db.intents[i]) && s.w.db.intents[i].intent.id == i
  {
    hide Exec, PlanFor, Continue, Inv, Equipped;
    plan := PlanOf(s, o, i, c);
    StaysAt(s, o, i, pc, c);
    KnowsItsRow(s, o, i, pc);
  }

  /** Nothing but the worker's position changes. */
  lemma Ponders(s: Sys, o: Owner, i: IntentId, pc: Pc, c: Choice, pc': Pc)
    requires At(s, o, i, pc)
    requires PlanFor(i, View(s.w, i), Some(GrantIn(s, i)), pc, c) == Quietly(pc')
    ensures var s' := Onwards(s, o, i, c); s'.w == s.w && At(s', o, i, pc')
  {
    hide PlanFor, Inv, Equipped;
    var plan := Moves(s, o, i, pc, c);
    assert Exec(s.w, Nothing) == Outcome(s.w, Done);
  }

  /** No permit of the intent may be honoured any more. */
  predicate AllDead(db: Db, i: IntentId) {
    forall k :: 0 <= k < |db.permits| && db.permits[k].intent == i ==> db.permits[k].consumed || db.permits[k].voided
  }

  lemma VoidsAll(s: Sys, o: Owner, i: IntentId, pc: Pc, c: Choice, pc': Pc)
    requires At(s, o, i, pc)
    requires PlanFor(i, View(s.w, i), Some(GrantIn(s, i)), pc, c) == Plan(VoidPermits(i), pc', Finished, Finished)
    ensures var s' := Onwards(s, o, i, c);
      && At(s', o, i, pc') && s'.w == s.w.(db := s.w.db.(permits := s'.w.db.permits)) && AllDead(s'.w.db, i)
      && (AnyConsumed(s'.w.db, i) <==> AnyConsumed(s.w.db, i))
  {
    hide Exec, PlanFor, Inv, Equipped;
    var plan := Moves(s, o, i, pc, c);
    Laws.Voidings(s.w, i);
    var permits, permits' := s.w.db.permits, Onwards(s, o, i, c).w.db.permits;
    assert forall k :: 0 <= k < |permits| ==>
      permits'[k].consumed == permits[k].consumed && permits'[k].intent == permits[k].intent;
  }

  /** The row and the reservation after a transition that nobody else's effect stands in the way of. */
  predicate Settled(w: World, w': World, i: IntentId, row': IntentRow, usage: UsageStatus) {
    && i in w.db.intents && i in w.db.usage
    && w' == w.(db := w.db.(intents := w.db.intents[i := row'],
                            usage := w.db.usage[i := w.db.usage[i].(status := usage)]))
  }

  function BudgetOf(status: UsageStatus, budget: Budget): UsageStatus {
    if status != Held || budget == Keep then status else if budget == Release then Released else Committed
  }

  lemma TransitsOr(s: Sys, o: Owner, i: IntentId, pc: Pc, c: Choice, plan: Plan)
    requires At(s, o, i, pc) && plan == PlanFor(i, View(s.w, i), Some(GrantIn(s, i)), pc, c)
    requires plan.op.Transition? && plan.op.id == i && s.w.db.intents[i].state in plan.op.expected
    requires Allowed(s.w.db.intents[i].state, plan.op.to) && (plan.op.filled.Some? ==> plan.op.filled.value >= 0)
    requires i in s.w.db.usage
    ensures var s', row, op := Onwards(s, o, i, c), s.w.db.intents[i], plan.op;
      var effect := if op.effect.Some? then op.effect else row.effect;
      if Laws.OwnedElsewhere(s.w.db.intents, i, effect) then s'.w == s.w && At(s', o, i, plan.conflict)
      else
        && At(s', o, i, plan.done)
        && Settled(s.w, s'.w, i,
                   row.(state := op.to, effect := effect, reasons := op.reasons,
                        ambiguityUntil := if op.ambiguity.Some? then op.ambiguity else row.ambiguityUntil,
                        filled := if op.filled.Some? then op.filled else row.filled),
                   BudgetOf(s.w.db.usage[i].status, op.budget))
  {
    hide Exec, PlanFor, Inv, Equipped;
    var plan := Moves(s, o, i, pc, c);
    Laws.Transitions(s.w, plan.op);
    var s', u := Onwards(s, o, i, c), s.w.db.usage;
    if s'.w != s.w {
      assert Laws.SettledUsage(u, i, plan.op.budget) == u[i := u[i].(status := BudgetOf(u[i].status, plan.op.budget))];
      assert s'.w.db.intents == s.w.db.intents[i := s'.w.db.intents[i]];
    }
  }

  /** A plain move of a row without an effect goes through. */
  lemma MovesOn(s: Sys, o: Owner, i: IntentId, pc: Pc, c: Choice, to: IntentState, reasons: seq<Reason>, budget: Budget)
    requires At(s, o, i, pc) && i in s.w.db.usage && s.w.db.intents[i].effect == None
    requires Allowed(s.w.db.intents[i].state, to)
    requires PlanFor(i, View(s.w, i), Some(GrantIn(s, i)), pc, c) ==
      Plan(Move(i, s.w.db.intents[i].state, to, reasons, budget), Finished, Finished, Finished)
    ensures var s1 := Onwards(s, o, i, c);
      && At(s1, o, i, Finished)
      && Settled(s.w, s1.w, i, s.w.db.intents[i].(state := to, reasons := reasons),
                 BudgetOf(s.w.db.usage[i].status, budget))
  {
    hide Exec, PlanFor, Inv, Equipped, Provisioned;
    TransitsOr(s, o, i, pc, c, PlanFor(i, View(s.w, i), Some(GrantIn(s, i)), pc, c));
  }

  /** A move that claims an effect goes through unless the effect is another intent's. */
  lemma Claims(s: Sys, o: Owner, i: IntentId, pc: Pc, c: Choice, to: IntentState, reasons: seq<Reason>,
               effect: EffectId, budget: Budget, filled: Option<int>, conflict: Pc)
    requires At(s, o, i, pc) && i in s.w.db.usage && Allowed(s.w.db.intents[i].state, to)
    requires filled.Some? ==> filled.value >= 0
    requires PlanFor(i, View(s.w, i), Some(GrantIn(s, i)), pc, c) ==
      Plan(Transition(i, {s.w.db.intents[i].state}, to, reasons, Some(effect), budget, None, filled),
           Finished, Finished, conflict)
    ensures var s1, row := Onwards(s, o, i, c), s.w.db.intents[i];
      if Laws.OwnedElsewhere(s.w.db.intents, i, Some(effect)) then s1.w == s.w && At(s1, o, i, conflict)
      else
        && At(s1, o, i, Finished)
        && Settled(s.w, s1.w, i,
                   row.(state := to, reasons := reasons, effect := Some(effect),
                        filled := if filled.Some? then filled else row.filled),
                   BudgetOf(s.w.db.usage[i].status, budget))
  {
    hide Exec, PlanFor, Inv, Equipped, Provisioned;
    TransitsOr(s, o, i, pc, c, PlanFor(i, View(s.w, i), Some(GrantIn(s, i)), pc, c));
  }

  // ---- what becomes of an answer ----

  /** The worker holds a verifier's record, whose amount, if any, is not negative. */
  ghost predicate Judging(s: Sys, o: Owner, i: IntentId, seen: Seen, c: Choice, record: Record) {
    At(s, o, i, Verifying(seen)) && c.answer == Answered(record) && (record.amount.Some? ==> record.amount.value >= 0)
  }

  ghost function Judgement(s: Sys, i: IntentId, seen: Seen, c: Choice, record: Record): Decision
    requires Provisioned(s.w.db, i)
  {
    Decide(s.w.db.intents[i].intent, seen, GrantIn(s, i).limits.maxClockSkew, c.now, record)
  }

  lemma JudgingPlan(s: Sys, o: Owner, i: IntentId, seen: Seen, c: Choice, record: Record)
    requires Judging(s, o, i, seen, c, record)
    ensures var d, plan := Judgement(s, i, seen, c, record),
                           PlanFor(i, View(s.w, i), Some(GrantIn(s, i)), Verifying(seen), c);
      match d
      case ToUnknown(reasons) =>
        plan == Plan(Move(i, Reconciling, Unknown, reasons, Keep), Finished, Finished, Finished)
      case StopWith(reasons, previous) => plan == Quietly(Stopping(reasons, previous, false))
      case Finalize(effect, filled, reasons) =>
        plan == Plan(Transition(i, {Reconciling}, Finalized, reasons, Some(effect), Commit, None, filled), Finished,
                     Finished, Stopping([EffectIdAlreadyClaimed], None, false))
      case Confirm(effect, filled, reasons) =>
        plan == Plan(Transition(i, {Reconciling}, Confirmed, reasons, Some(effect), Keep, None, filled), Finished,
                     Finished, Stopping([EffectIdAlreadyClaimed], None, false))
      case CancelUnfilled(claimed) => plan == Quietly(VoidingCancel(claimed, seen.effect))
      case ActOnAbsence => plan == Quietly(VoidingAbsence(seen))
  {
    hide Decide, Exec;
    assert View(s.w, i).row == Some(s.w.db.intents[i]);
  }

  lemma ReconcilingHeld(s: Sys, o: Owner, i: IntentId, pc: Pc)
    requires At(s, o, i, pc)
    ensures i in s.w.db.intents
    ensures pc.Verifying? || pc.VoidingAbsence? || pc.CheckingLedger? || pc.Absent? || pc.VoidingCancel?
            || pc.ClosingCancel?
            ==> s.w.db.intents[i].state == Reconciling
    ensures pc == PermitFailed(false) || pc.Awaiting? ==> s.w.db.intents[i].state == Submitted
    ensures pc.Absent? || pc == PermitFailed(false) || pc.Awaiting? ==> s.w.db.intents[i].effect == None
    ensures s.w.db.intents[i].state == Reconciling || s.w.db.intents[i].state == Submitted ==>
      i in s.w.db.usage && s.w.db.usage[i].status == Held
  {
    assert IntentInv(s, i);
    assert PcOf(s, i) == pc;
  }

  /** An accepted effect settles the intent in one transaction: final with its budget committed, or
      confirmed with its budget held. Only an effect that is another intent's at the venue leaves the row. */
  lemma AcceptedEffectIsRecorded(s: Sys, o: Owner, i: IntentId, seen: Seen, c: Choice, record: Record)
    requires Judging(s, o, i, seen, c, record)
    requires var d := Judgement(s, i, seen, c, record);
      (d.Finalize? || d.Confirm?) && (d.filled.Some? ==> d.filled.value >= 0)
    ensures var d, s1, row := Judgement(s, i, seen, c, record), Onwards(s, o, i, c), s.w.db.intents[i];
      if Laws.OwnedElsewhere(s.w.db.intents, i, Some(d.effect)) then
        s1.w == s.w && At(s1, o, i, Stopping([EffectIdAlreadyClaimed], None, false))
      else
        && At(s1, o, i, Finished)
        && Settled(s.w, s1.w, i,
                   row.(state := if d.Finalize? then Finalized else Confirmed, effect := Some(d.effect),
                        reasons := d.reasons, filled := if d.filled.Some? then d.filled else row.filled),
                   if d.Finalize? then Committed else Held)
  {
    hide Decide, Exec, PlanFor, Inv, Equipped, Onwards;
    var d := Judgement(s, i, seen, c, record);
    JudgingPlan(s, o, i, seen, c, record);
    ReconcilingHeld(s, o, i, Verifying(seen));
    Claims(s, o, i, Verifying(seen), c, if d.Finalize? then Finalized else Confirmed, d.reasons, d.effect,
           if d.Finalize? then Commit else Keep, d.filled, Stopping([EffectIdAlreadyClaimed], None, false));
  }

  /** An inconclusive record puts the intent back to UNKNOWN with the budget held. */
  lemma InconclusiveStaysOpen(s: Sys, o: Owner, i: IntentId, seen: Seen, c: Choice, record: Record)
    requires Judging(s, o, i, seen, c, record) && Judgement(s, i, seen, c, record).ToUnknown?
    requires !Laws.OwnedElsewhere(s.w.db.intents, i, s.w.db.intents[i].effect)
    ensures var s1 := Onwards(s, o, i, c);
      && At(s1, o, i, Finished)
      && Settled(s.w, s1.w, i,
                 s.w.db.intents[i].(state := Unknown, reasons := Judgement(s, i, seen, c, record).reasons), Held)
  {
    hide Decide, Exec, PlanFor, Inv, Equipped;
    JudgingPlan(s, o, i, seen, c, record);
    ReconcilingHeld(s, o, i, Verifying(seen));
    TransitsOr(s, o, i, Verifying(seen), c, PlanFor(i, View(s.w, i), Some(GrantIn(s, i)), Verifying(seen), c));
  }

  // ---- stops ----

  lemma StoppingPlans(i: IntentId, l: Local, grant: Grant, reasons: seq<Reason>, previous: Option<EffectId>,
                      release: bool, c: Choice)
    requires l.row.Some? && !Terminal(l.row.value.state)
    ensures PlanFor(i, l, Some(grant), Stopping(reasons, previous, release), c)
      == Plan(VoidPermits(i), StoppingVoided(reasons, previous, release), Finished, Finished)
    ensures var plan := PlanFor(i, l, Some(grant), StoppingVoided(reasons, previous, release), c);
      && plan.op == Transition(i, {l.row.value.state}, IntentState.Stopped, reasons, previous,
                               if release then Release else Keep, None, None)
      && plan.done == Finished
  {
  }

  /** A stop first kills the permits, then ends the intent with its reasons; the budget is released if the
      stop says so and stays as it is otherwise. */
  lemma StopEnds(s: Sys, o: Owner, i: IntentId, reasons: seq<Reason>, previous: Option<EffectId>, release: bool,
                 c: Choice)
    requires At(s, o, i, Stopping(reasons, previous, release)) && i in s.w.db.usage
    requires !Terminal(s.w.db.intents[i].state)
    requires previous.Some? ==> previous == s.w.db.intents[i].effect
    requires !Laws.OwnedElsewhere(s.w.db.intents, i, s.w.db.intents[i].effect)
    ensures var s1 := Onwards(s, o, i, c);
      && i in s1.w.db.intents && (o, i) in s1.pcs
      && var s2 := Onwards(s1, o, i, c);
         && At(s2, o, i, Finished) && AllDead(s2.w.db, i)
         && s1.w == s.w.(db := s.w.db.(permits := s1.w.db.permits))
         && Settled(s1.w, s2.w, i, s.w.db.intents[i].(state := IntentState.Stopped, reasons := reasons),
                    BudgetOf(s.w.db.usage[i].status, if release then Release else Keep))
  {
    hide Decide, Exec, PlanFor, Inv, Equipped;
    var pc, pc' := Stopping(reasons, previous, release), StoppingVoided(reasons, previous, release);
    var plan0 := Moves(s, o, i, pc, c);
    StoppingPlans(i, View(s.w, i), GrantIn(s, i), reasons, previous, release, c);
    VoidsAll(s, o, i, pc, c, pc');
    var s1 := Onwards(s, o, i, c);
    var plan1 := Moves(s1, o, i, pc', c);
    StoppingPlans(i, View(s1.w, i), GrantIn(s1, i), reasons, previous, release, c);
    TransitsOr(s1, o, i, pc', c, plan1);
  }

  // ---- absence ----

  lemma AbsencePlans(i: IntentId, l: Local, grant: Grant, seen: Seen, c: Choice)
    requires l.row.Some?
    ensures PlanFor(i, l, Some(grant), VoidingAbsence(seen), c)
      == Plan(VoidPermits(i), CheckingLedger(seen), Finished, Finished)
    ensures PlanFor(i, l, Some(grant), CheckingLedger(seen), c)
      == Quietly(if NoneConsumed(l.permits) then Absent(seen)
                 else Stopping([SettlementNoneAfterPermitConsumed], None, false))
    ensures PlanFor(i, l, Some(grant), Absent(seen), c) ==
      if !seen.allowResubmit then
        var reason := if seen.block.Some? then seen.block.value else ResubmissionBlocked;
        Plan(Move(i, Reconciling, if reason == DeterministicFailure then FailedSafe else IntentState.Stopped, [reason],
                  Release), Finished, Finished, Finished)
      else if !c.go then
        Plan(Move(i, Reconciling, IntentState.Stopped, c.reasons, Release), Finished, Finished, Finished)
      else Quietly(Submitting)
  {
  }

  /** Absence acted on: the permits are killed first, and a permit consumed before that turns absence into a
      stop with the budget held. */
  lemma AbsenceChecksLedger(s: Sys, o: Owner, i: IntentId, seen: Seen, c: Choice)
    requires At(s, o, i, VoidingAbsence(seen))
    ensures var s1 := Onwards(s, o, i, c);
      && i in s1.w.db.intents && (o, i) in s1.pcs
      && var s2 := Onwards(s1, o, i, c);
         && s2.w == s.w.(db := s.w.db.(permits := s2.w.db.permits)) && AllDead(s2.w.db, i)
         && (AnyConsumed(s2.w.db, i) <==> AnyConsumed(s.w.db, i))
         && At(s2, o, i, if AnyConsumed(s.w.db, i) then Stopping([SettlementNoneAfterPermitConsumed], None, false)
                         else Absent(seen))
  {
    hide Decide, Exec, PlanFor, Inv, Equipped;
    var plan0 := Moves(s, o, i, VoidingAbsence(seen), c);
    AbsencePlans(i, View(s.w, i), GrantIn(s, i), seen, c);
    VoidsAll(s, o, i, VoidingAbsence(seen), c, CheckingLedger(seen));
    var s1 := Onwards(s, o, i, c);
    var plan1 := Moves(s1, o, i, CheckingLedger(seen), c);
    AbsencePlans(i, View(s1.w, i), GrantIn(s1, i), seen, c);
    ConsumedSeen(s1.w.db, i);
    Ponders(s1, o, i, CheckingLedger(seen), c, plan1.done);
  }

  /** Nothing happened and nothing may be retried: the intent ends, safe after a deterministic failure, and
      its budget is released. */
  lemma AbsenceReleases(s: Sys, o: Owner, i: IntentId, seen: Seen, c: Choice)
    requires At(s, o, i, Absent(seen)) && !(seen.allowResubmit && c.go)
    ensures var s1, row := Onwards(s, o, i, c), s.w.db.intents[i];
      && At(s1, o, i, Finished)
      && (!seen.allowResubmit ==>
            var reason := if seen.block.Some? then seen.block.value else ResubmissionBlocked;
            Settled(s.w, s1.w, i,
                    row.(state := if reason == DeterministicFailure then FailedSafe else IntentState.Stopped,
                         reasons := [reason]), Released))
      && (seen.allowResubmit ==>
            Settled(s.w, s1.w, i, row.(state := IntentState.Stopped, reasons := c.reasons), Released))
  {
    hide Exec, PlanFor, Inv, Equipped, Onwards;
    KnowsItsRow(s, o, i, Absent(seen));
    AbsencePlans(i, View(s.w, i), GrantIn(s, i), seen, c);
    ReconcilingHeld(s, o, i, Absent(seen));
    if seen.allowResubmit {
      MovesOn(s, o, i, Absent(seen), c, IntentState.Stopped, c.reasons, Release);
    } else {
      var reason := if seen.block.Some? then seen.block.value else ResubmissionBlocked;
      MovesOn(s, o, i, Absent(seen), c, if reason == DeterministicFailure then FailedSafe else IntentState.Stopped,
              [reason], Release);
    }
  }

  // ---- cancellations and failed issuance ----

  lemma CancelPlans(i: IntentId, l: Local, grant: Grant, claimed: Option<EffectId>, previous: Option<EffectId>,
                    c: Choice)
    requires l.row.Some?
    ensures PlanFor(i, l, Some(grant), VoidingCancel(claimed, previous), c)
      == Plan(VoidPermits(i), ClosingCancel(claimed, previous), Finished, Finished)
    ensures PlanFor(i, l, Some(grant), ClosingCancel(claimed, previous), c)
      == Plan(Transition(i, {Reconciling}, FailedSafe, [SettlementCancelledUnfilled], claimed, Release, None, None),
              Finished, Finished, Stopping([EffectIdAlreadyClaimed], previous, false))
  {
  }

  /** An order cancelled without a fill ends the intent safely: permits dead, its identity claimed, its
      budget released, all unless the identity is another intent's. */
  lemma CancellationEnds(s: Sys, o: Owner, i: IntentId, claimed: Option<EffectId>, previous: Option<EffectId>,
                         c: Choice)
    requires At(s, o, i, VoidingCancel(claimed, previous)) && claimed.Some?
    ensures var s1 := Onwards(s, o, i, c);
      && i in s1.w.db.intents && (o, i) in s1.pcs
      && s1.w == s.w.(db := s.w.db.(permits := s1.w.db.permits)) && AllDead(s1.w.db, i)
      && var s2 := Onwards(s1, o, i, c);
         if Laws.OwnedElsewhere(s.w.db.intents, i, claimed) then
           s2.w == s1.w && At(s2, o, i, Stopping([EffectIdAlreadyClaimed], previous, false))
         else
           && At(s2, o, i, Finished)
           && Settled(s1.w, s2.w, i,
                      s.w.db.intents[i].(state := FailedSafe, effect := claimed,
                                         reasons := [SettlementCancelledUnfilled]), Released)
  {
    hide Decide, Exec, PlanFor, Inv, Equipped, AllDead, AnyConsumed, Provisioned;
    KnowsItsRow(s, o, i, VoidingCancel(claimed, previous));
    CancelPlans(i, View(s.w, i), GrantIn(s, i), claimed, previous, c);
    VoidsAll(s, o, i, VoidingCancel(claimed, previous), c, ClosingCancel(claimed, previous));
    ClosingEnds(Onwards(s, o, i, c), o, i, claimed, previous, c);
  }

  lemma ClosingEnds(s: Sys, o: Owner, i: IntentId, claimed: Option<EffectId>, previous: Option<EffectId>, c: Choice)
    requires At(s, o, i, ClosingCancel(claimed, previous)) && claimed.Some?
    ensures var s1 := Onwards(s, o, i, c);
      if Laws.OwnedElsewhere(s.w.db.intents, i, claimed) then
        s1.w == s.w && At(s1, o, i, Stopping([EffectIdAlreadyClaimed], previous, false))
      else
        && At(s1, o, i, Finished)
        && Settled(s.w, s1.w, i,
                   s.w.db.intents[i].(state := FailedSafe, effect := claimed, reasons := [SettlementCancelledUnfilled]),
                   Released)
  {
    hide Decide, Exec, PlanFor, Inv, Equipped, Onwards;
    var pc := ClosingCancel(claimed, previous);
    KnowsItsRow(s, o, i, pc);
    CancelPlans(i, View(s.w, i), GrantIn(s, i), claimed, previous, c);
    ReconcilingHeld(s, o, i, pc);
    Claims(s, o, i, pc, c, FailedSafe, [SettlementCancelledUnfilled], claimed.value, Release, None,
           Stopping([EffectIdAlreadyClaimed], previous, false));
  }

  lemma FailedPlan(i: IntentId, l: Local, grant: Grant, c: Choice)
    requires l.row.Some?
    ensures PlanFor(i, l, Some(grant), PermitFailed(false), c)
      == Plan(Move(i, Submitted, FailedSafe, [PermitRejected], Release), Finished, Finished, Finished)
  {
  }

  /** An attempt for which no permit was issued ends the intent safely with its budget released. */
  lemma FailedIssuanceReleases(s: Sys, o: Owner, i: IntentId, c: Choice)
    requires At(s, o, i, PermitFailed(false))
    ensures var s1 := Onwards(s, o, i, c);
      && At(s1, o, i, Finished)
      && Settled(s.w, s1.w, i, s.w.db.intents[i].(state := FailedSafe, reasons := [PermitRejected]), Released)
  {
    hide Exec, PlanFor, Inv, Equipped, Onwards;
    KnowsItsRow(s, o, i, PermitFailed(false));
    FailedPlan(i, View(s.w, i), GrantIn(s, i), c);
    ReconcilingHeld(s, o, i, PermitFailed(false));
    MovesOn(s, o, i, PermitFailed(false), c, FailedSafe, [PermitRejected], Release);
  }

  // ---- a rejection by the adapter ----

  lemma AwaitingPlan(i: IntentId, l: Local, grant: Grant, pc: Pc, c: Choice)
    requires l.row.Some? && pc.Awaiting? && c.outcome == Rejected
    ensures PlanFor(i, l, Some(grant), pc, c).op ==
      Transition(i, {Submitted}, Unknown, [DeterministicFailureUnverified], None, Keep, Some(pc.expiresAt), None)
  {
  }

  lemma RejectedStep(s: Sys, o: Owner, i: IntentId, pc: Pc, c: Choice)
    requires At(s, o, i, pc) && pc.Awaiting? && c.outcome == Rejected
    ensures var s' := Onwards(s, o, i, c);
      && i in s'.w.db.intents && s'.w.db.intents[i].reasons == [DeterministicFailureUnverified]
      && NoFurtherAttempt(s.w, s'.w, i)
  {
    hide Exec, PlanFor, Inv, Equipped, Onwards;
    KnowsItsRow(s, o, i, pc);
    AwaitingPlan(i, View(s.w, i), GrantIn(s, i), pc, c);
    ReconcilingHeld(s, o, i, pc);
    TransitsOr(s, o, i, pc, c, PlanFor(i, View(s.w, i), Some(GrantIn(s, i)), pc, c));
  }

  /** An adapter's rejection is final for submissions: it is persisted before anybody can act on it, and in
      every continuation, whoever crashes or takes over, nothing is submitted or issued for the intent. */
  lemma RejectionIsFinal(s: Sys, o: Owner, i: IntentId, c: Choice, steps: seq<Step>)
    requires Reachable(s) && Enabled(s, Works(o, i, c)) && s.pcs[(o, i)].Awaiting? && c.outcome == Rejected
    requires Possible(Next(s, Works(o, i, c)), steps)
    ensures NoFurtherAttempt(s.w, Run(Next(s, Works(o, i, c)), steps).w, i)
    ensures Barrier(Run(Next(s, Works(o, i, c)), steps).w, i)
  {
    hide Exec, Reachable, PlanFor;
    var s' := Next(s, Works(o, i, c));
    ReachableEquipped(s, i);
    assert PcOf(s, i) == s.pcs[(o, i)];
    RejectedStep(s, o, i, s.pcs[(o, i)], c);
    StepReachable(s, Works(o, i, c));
    Guarantees.DurableBlock(s', steps, i);
    BlockLeavesABarrier(s', steps, i);
  }
}
