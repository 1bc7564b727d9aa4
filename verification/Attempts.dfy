/** How often a worker may try: attempts, adapter calls and the length of one call are bounded by the
    grant, crashes and takeovers included. */
module Attempts {
  import opened Types
  import opened StoreOps
  import opened LocalView
  import opened Protocol
  import opened LocalInv
  import opened Runs
  import opened Guarantees
  import Authority

  /** A begun attempt whose adapter call is still to come. */
  function Pending(pc: Pc): nat {
    if pc.Issuing? || pc.ClaimedRisk? || pc.Fenced? || pc.Sending? then 1 else 0
  }

  function Transported(pc: Pc): nat {
    if pc.Sending? then 1 else 0
  }

  function SubmissionsIn(l: Local): nat {
    if l.row.Some? then l.row.value.submissions else 0
  }

  /** max_submission_attempts of the intent's provisioned grant. */
  function Allowance(db: Db, i: IntentId): nat {
    if i in db.intents && db.intents[i].intent.grant in db.grants
    then db.grants[db.intents[i].intent.grant].limits.maxAttempts else 0
  }

  /** Distance to the end of the call as far as the program counter tells. */
  function Rank(pc: Pc): (r: nat)
    ensures r < 32
  {
    match pc
    case Entered => 30
    case Reserving => 28
    case Deferring => 1
    case Authorizing => 27
    case CommittingReservation => 26
    case Submitting => 5
    case Issuing => 24
    case ClaimedRisk(_) => 23
    case Fenced(_, _, _) => 22
    case PermitFailed(_) => 16
    case Sending(_, _) => 21
    case Awaiting(_, _) => 20
    case Reconciles(_, _) => 15
    case Verifying(_) => 14
    case VoidingAbsence(_) => 13
    case CheckingLedger(_) => 12
    case Absent(_) => 11
    case VoidingCancel(_, _) => 13
    case ClosingCancel(_, _) => 12
    case Stopping(_, _, _) => 4
    case StoppingVoided(_, _, _) => 3
    case ReleasingOnly => 2
    case Finished => 0
  }

  /** Every continuation of a plan is nearer the end, except through a new submission. */
  predicate PlanDescends(plan: Plan, pc: Pc) {
    && (plan.op.BeginSubmission? ==> pc.Submitting? && plan.done == Issuing && plan.otherwise == Reconciles(true, None))
    && (!plan.op.BeginSubmission? ==>
          && Rank(plan.done) < Rank(pc) && Rank(plan.otherwise) < Rank(pc)
          && Transported(pc) + Pending(plan.done) <= Pending(pc) && Pending(plan.otherwise) == 0)
    && Rank(plan.conflict) < Rank(pc) && Pending(plan.conflict) == 0
    && (plan.op.RecordPermit? ==> pc.Fenced?)
  }

  lemma EntryDescends(i: IntentId, row: IntentRow, trusted: bool, pc: Pc, c: Choice)
    ensures pc.Entered? ==> PlanDescends(PlanEntered(i, row, trusted, c), pc)
    ensures pc.Reconciles? ==> PlanDescends(PlanReconciles(i, row, trusted, pc.allow, pc.block, c), pc)
  {
  }

  lemma AttemptDescends(i: IntentId, l: Local, row: IntentRow, grant: Grant, pc: Pc, c: Choice)
    requires InAttempt(pc)
    ensures PlanDescends(PlanAttempt(i, l, row, grant, pc, c), pc)
  {
  }

  lemma VerifiedDescends(i: IntentId, row: IntentRow, skew: nat, pc: Pc, c: Choice)
    requires pc.Verifying?
    ensures PlanDescends(PlanVerified(i, row, skew, pc.seen, c), pc)
  {
  }

  lemma DecisionDescends(i: IntentId, l: Local, row: IntentRow, grant: Grant, pc: Pc, c: Choice)
    requires !InAttempt(pc) && !pc.Entered? && !pc.Reconciles? && !pc.Verifying? && pc != Finished
    ensures PlanDescends(PlanDecision(i, l, row, grant, pc, c), pc)
  {
  }

  lemma Descends(i: IntentId, l: Local, grant: Option<Grant>, pc: Pc, c: Choice)
    requires pc != Finished
    ensures PlanDescends(PlanFor(i, l, grant, pc, c), pc)
  {
    if l.row.Some? {
      var row := l.row.value;
      if pc.Entered? || pc.Reconciles? {
        EntryDescends(i, row, c.trusted && grant.Some?, pc, c);
      } else if grant.Some? {
        if InAttempt(pc) {
          AttemptDescends(i, l, row, grant.value, pc, c);
        } else if pc.Verifying? {
          VerifiedDescends(i, row, grant.value.limits.maxClockSkew, pc, c);
        } else {
          DecisionDescends(i, l, row, grant.value, pc, c);
        }
      }
    }
  }

  /** What one step of its worker adds to the attempts, the pending call and the rank of an intent. */
  lemma StepDescends(i: IntentId, l: Local, grant: Option<Grant>, pc: Pc, c: Choice, result: Result, l': Local, b: bool)
    requires l.row.Some? && LocalOk(i, l, pc, b) && pc != Finished
    requires ViewStep(i, l, PlanFor(i, l, grant, pc, c).op, result, l')
    ensures var pc' := Continue(PlanFor(i, l, grant, pc, c), result);
      if SubmissionsIn(l') != SubmissionsIn(l) then
        && grant.Some? && SubmissionsIn(l') == SubmissionsIn(l) + 1 <= grant.value.limits.maxAttempts
        && pc == Submitting && Pending(pc') == 1
      else Rank(pc') < Rank(pc) && Transported(pc) + Pending(pc') <= Pending(pc)
  {
    var plan := PlanFor(i, l, grant, pc, c);
    Descends(i, l, grant, pc, c);
    PlanBegins(i, l, grant, pc, c, b);
    if plan.op.BeginSubmission? {
      BeginDescends(i, l, plan, result, l', b);
    } else {
      SameSubmissions(i, l, plan.op, result, l');
      ContinuesNearer(plan, pc, result);
    }
  }

  lemma PlanBegins(i: IntentId, l: Local, grant: Option<Grant>, pc: Pc, c: Choice, b: bool)
    requires l.row.Some? && LocalOk(i, l, pc, b)
    ensures var op := PlanFor(i, l, grant, pc, c).op;
      && WorkerOp(op, i)
      && (op.BeginSubmission? ==> pc == Submitting && op.expected == {Reserved, Reconciling} && grant.Some?
                                  && op.maxAttempts == grant.value.limits.maxAttempts)
  {
    if PlanFor(i, l, grant, pc, c).op.BeginSubmission? {
      Descends(i, l, grant, pc, c);
    }
  }

  lemma BeginDescends(i: IntentId, l: Local, plan: Plan, result: Result, l': Local, b: bool)
    requires l.row.Some? && RowInv(i, l, b) && PcInv(l, l.row.value, Submitting, b)
    requires plan.op.BeginSubmission? && plan.op.expected == {Reserved, Reconciling} && plan.done == Issuing
    requires BeginStep(l, plan.op, result, l')
    ensures var pc' := Continue(plan, result);
      if SubmissionsIn(l') != SubmissionsIn(l) then
        SubmissionsIn(l') == SubmissionsIn(l) + 1 <= plan.op.maxAttempts && pc' == Issuing
      else Rank(pc') < Rank(Submitting) && Pending(pc') == 0
  {
  }

  lemma SameSubmissions(i: IntentId, l: Local, op: Op, result: Result, l': Local)
    requires l.row.Some? && WorkerOp(op, i) && !op.BeginSubmission? && ViewStep(i, l, op, result, l')
    ensures SubmissionsIn(l') == SubmissionsIn(l)
  {
    if op.Transition? {
      assert TransitionStep(l, op, result, l');
    } else if op.RecordPermit? {
      assert RecordStep(l, op, result, l');
    }
  }

  lemma ContinuesNearer(plan: Plan, pc: Pc, result: Result)
    requires PlanDescends(plan, pc) && !plan.op.BeginSubmission? && pc != Finished
    ensures Rank(Continue(plan, result)) < Rank(pc)
    ensures Transported(pc) + Pending(Continue(plan, result)) <= Pending(pc)
  {
  }

  // ---- over the whole system ----

  ghost predicate AttemptBound(s: Sys, i: IntentId) {
    CallsOf(s, i) + Pending(PcOf(s, i)) <= SubmissionsIn(View(s.w, i)) <= Allowance(s.w.db, i)
  }

  ghost predicate AttemptInv(s: Sys) {
    forall i :: AttemptBound(s, i)
  }

  predicate Provisioned(db: Db, i: IntentId) {
    i in db.intents && db.intents[i].intent.grant in db.grants
  }

  /** A provisioned grant version never changes its limits. */
  lemma AllowanceKept(w: World, op: Op, i: IntentId)
    requires i in w.db.intents ==>
      i in Exec(w, op).w.db.intents && Exec(w, op).w.db.intents[i].intent == w.db.intents[i].intent
    ensures Allowance(w.db, i) <= Allowance(Exec(w, op).w.db, i)
    ensures Provisioned(w.db, i) ==>
      Provisioned(Exec(w, op).w.db, i) && Allowance(Exec(w, op).w.db, i) == Allowance(w.db, i)
  {
    if i in w.db.intents {
      Authority.GrantEffect(w, op, w.db.intents[i].intent.grant);
    }
  }

  lemma AllowanceStep(s: Sys, st: Step, i: IntentId)
    requires Inv(s) && Enabled(s, st)
    ensures Allowance(s.w.db, i) <= Allowance(Next(s, st).w.db, i)
    ensures Provisioned(s.w.db, i) ==>
      Provisioned(Next(s, st).w.db, i) && Allowance(Next(s, st).w.db, i) == Allowance(s.w.db, i)
  {
    NextExecutes(s, st);
    if i in s.w.db.intents {
      RowKept(s, st, i);
    }
    AllowanceKept(s.w, OpOf(s, st), i);
  }

  lemma RowKept(s: Sys, st: Step, i: IntentId)
    requires Inv(s) && Enabled(s, st) && i in s.w.db.intents
    ensures i in Next(s, st).w.db.intents && Next(s, st).w.db.intents[i].intent == s.w.db.intents[i].intent
  {
    IntentStep(s, st, i);
    assert View(s.w, i).row == Some(s.w.db.intents[i]);
  }

  /** A step other than the intent's own worker's leaves its attempts and calls alone, and its worker
      where it was unless one starts over or vanishes. */
  ghost predicate Rests(s: Sys, st: Step, i: IntentId)
    requires Enabled(s, st)
  {
    var s' := Next(s, st);
    var pc := PcOf(s', i);
    && SubmissionsIn(View(s'.w, i)) == SubmissionsIn(View(s.w, i))
    && CallsOf(s', i) == CallsOf(s, i)
    && (pc == PcOf(s, i) || pc == Finished
        || (st.Enters? && st.id == i && (pc == Entered || pc == Reconciles(true, None))))
  }

  lemma LeaseRests(s: Sys, st: Step, i: IntentId)
    requires Inv(s) && Enabled(s, st) && MovesLease(st)
    ensures Rests(s, st, i)
  {
    LeaseView(s, st, i);
    PcAfterLease(s, st, i);
  }

  lemma QuietRests(s: Sys, st: Step, i: IntentId)
    requires Inv(s) && Enabled(s, st) && !(st.Works? && st.id == i) && !MovesLease(st)
    ensures Rests(s, st, i)
  {
    hide Exec;
    if st.Works? {
      WorkerOpOf(s, st.owner, st.id, st.c);
    }
    LeasesKept(s.w, OpOf(s, st));
    OthersLeaveRow(s, st, i);
  }

  lemma OtherStep(s: Sys, st: Step, i: IntentId)
    requires Inv(s) && Enabled(s, st) && !(st.Works? && st.id == i)
    ensures Rests(s, st, i)
  {
    if MovesLease(st) {
      LeaseRests(s, st, i);
    } else {
      QuietRests(s, st, i);
    }
  }

  /** The intent's own worker moves nearer the end of its call, or begins a submission within the grant. */
  ghost predicate Progresses(s: Sys, s': Sys, i: IntentId) {
    && CallsOf(s', i) == CallsOf(s, i) + Transported(PcOf(s, i))
    && if SubmissionsIn(View(s'.w, i)) != SubmissionsIn(View(s.w, i)) then
         && SubmissionsIn(View(s'.w, i)) == SubmissionsIn(View(s.w, i)) + 1 <= Allowance(s.w.db, i)
         && Transported(PcOf(s, i)) == 0 && Pending(PcOf(s', i)) == 1
       else
         && Rank(PcOf(s', i)) < Rank(PcOf(s, i))
         && Transported(PcOf(s, i)) + Pending(PcOf(s', i)) <= Pending(PcOf(s, i))
  }

  lemma OwnStepDescends(s: Sys, o: Owner, i: IntentId, c: Choice)
    requires Inv(s) && Enabled(s, Works(o, i, c)) && PcOf(s, i) != Finished
    ensures Progresses(s, Next(s, Works(o, i, c)), i)
  {
    hide Exec, PlanFor;
    var s', plan := Next(s, Works(o, i, c)), PlanOf(s, o, i, c);
    OwnWorkView(s, o, i, c);
    assert IntentInv(s, i);
    StepDescends(i, View(s.w, i), GrantOf(s.w.db, s.w.db.intents[i].intent), PcOf(s, i), c, Exec(s.w, plan.op).result,
                 View(s'.w, i), i in s.blocked);
  }

  lemma IdleStep(s: Sys, o: Owner, i: IntentId, c: Choice)
    requires Inv(s) && Enabled(s, Works(o, i, c)) && PcOf(s, i) == Finished
    ensures var s' := Next(s, Works(o, i, c));
      View(s'.w, i) == View(s.w, i) && PcOf(s', i) == Finished && CallsOf(s', i) == CallsOf(s, i)
  {
    assert PlanOf(s, o, i, c) == Quietly(Finished);
  }

  lemma AttemptStep(s: Sys, st: Step, i: IntentId)
    requires Inv(s) && AttemptBound(s, i) && Enabled(s, st)
    ensures AttemptBound(Next(s, st), i)
  {
    hide Exec;
    AllowanceStep(s, st, i);
    if st.Works? && st.id == i {
      if PcOf(s, i) == Finished {
        IdleStep(s, st.owner, i, st.c);
      } else {
        OwnStepDescends(s, st.owner, i, st.c);
      }
    } else {
      OtherStep(s, st, i);
    }
  }

  lemma {:induction false} AttemptsAlways(s: Sys, steps: seq<Step>)
    requires Inv(s) && AttemptInv(s) && Possible(s, steps)
    ensures AttemptInv(Run(s, steps))
    decreases |steps|
  {
    if steps != [] {
      StepKeepsInv(s, steps[0]);
      forall i ensures AttemptBound(Next(s, steps[0]), i) {
        AttemptStep(s, steps[0], i);
      }
      AttemptsAlways(Next(s, steps[0]), steps[1..]);
    }
  }

  /** Over the whole life of an intent the adapter is called at most once per begun submission, and no
      more often than the grant's max_submission_attempts, crashes and takeovers included. */
  lemma AdapterCallsBounded(s0: Sys, steps: seq<Step>, i: IntentId)
    requires Initial(s0) && Possible(s0, steps)
    ensures var s := Run(s0, steps);
      CallsOf(s, i) <= SubmissionsIn(View(s.w, i)) <= Allowance(s.w.db, i)
  {
    InitialInv(s0);
    assert forall j :: AttemptBound(s0, j);
    AttemptsAlways(s0, steps);
    assert AttemptBound(Run(s0, steps), i);
  }

  // ---- termination ----

  /** Submissions left, then the distance to the end of the call. */
  function Measure(s: Sys, i: IntentId): int {
    (Allowance(s.w.db, i) - SubmissionsIn(View(s.w, i))) * 32 + Rank(PcOf(s, i))
  }

  lemma MeasureOfWork(s: Sys, s': Sys, i: IntentId)
    requires AttemptBound(s, i) && AttemptBound(s', i) && Progresses(s, s', i)
    requires Allowance(s'.w.db, i) == Allowance(s.w.db, i)
    ensures 0 <= Measure(s', i) < Measure(s, i)
  {
  }

  /** The measure of the mutual recursion of submission and reconciliation: it falls at every step the
      worker makes, and nothing but another entry raises it. */
  lemma MeasureFalls(s: Sys, st: Step, i: IntentId)
    requires Inv(s) && AttemptBound(s, i) && Enabled(s, st) && Provisioned(s.w.db, i)
    ensures st.Works? && st.id == i && PcOf(s, i) != Finished ==> 0 <= Measure(Next(s, st), i) < Measure(s, i)
    ensures !(st.Enters? && st.id == i) ==> 0 <= Measure(Next(s, st), i) <= Measure(s, i)
  {
    hide Exec;
    AllowanceStep(s, st, i);
    AttemptStep(s, st, i);
    if !(st.Works? && st.id == i) {
      OtherStep(s, st, i);
    } else if PcOf(s, i) == Finished {
      IdleStep(s, st.owner, i, st.c);
    } else {
      OwnStepDescends(s, st.owner, i, st.c);
      MeasureOfWork(s, Next(s, st), i);
    }
  }

  /** Transactions the intent's worker makes during a run. */
  ghost function Transactions(s: Sys, steps: seq<Step>, i: IntentId): nat
    requires Possible(s, steps)
    decreases |steps|
  {
    if steps == [] then 0
    else (if steps[0].Works? && steps[0].id == i && PcOf(s, i) != Finished then 1 else 0)
         + Transactions(Next(s, steps[0]), steps[1..], i)
  }

  /** A call to the runtime ends: whatever everybody else does meanwhile, between two entries into an
      intent its worker makes at most 32 transactions per submission left, plus 31. */
  lemma {:induction false} CallsEnd(s: Sys, steps: seq<Step>, i: IntentId)
    requires Inv(s) && AttemptBound(s, i) && Provisioned(s.w.db, i) && Possible(s, steps)
    requires forall st :: st in steps ==> !(st.Enters? && st.id == i)
    ensures Transactions(s, steps, i) <= Measure(s, i)
    decreases |steps|
  {
    if steps != [] {
      var st := steps[0];
      assert st in steps;
      MeasureFalls(s, st, i);
      StepKeepsInv(s, st);
      AttemptStep(s, st, i);
      AllowanceStep(s, st, i);
      CallsEnd(Next(s, st), steps[1..], i);
    }
  }
}
