/** The invariant of the whole system over every run: workers, venues, the operator and crashes in
    any interleaving. */
module Runs {
  import opened Types
  import opened StoreOps
  import opened LocalView
  import opened Protocol
  import opened LocalInv

  /** Whoever works on an intent owns its lease and is alive. */
  ghost predicate LeaseInv(s: Sys) {
    forall o, i :: (o, i) in s.pcs ==> i in s.w.db.leases && s.w.db.leases[i] == o && o !in s.dead
  }

  /** Where the one worker that may be on the intent stands. */
  function PcOf(s: Sys, i: IntentId): Pc {
    if i in s.w.db.leases && (s.w.db.leases[i], i) in s.pcs then s.pcs[(s.w.db.leases[i], i)] else Finished
  }

  ghost predicate IntentInv(s: Sys, i: IntentId) {
    LocalOk(i, View(s.w, i), PcOf(s, i), i in s.blocked)
  }

  ghost predicate Inv(s: Sys) {
    LeaseInv(s) && forall i :: IntentInv(s, i)
  }

  lemma InitialInv(s: Sys)
    requires Initial(s)
    ensures Inv(s)
  {
  }

  lemma LeasesKept(w: World, op: Op)
    requires !op.TakeLease? && !op.DropLease?
    ensures Exec(w, op).w.db.leases == w.db.leases
  {
  }

  /** Mutual exclusion survives takeovers, because a lease is cleared only from a dead owner. */
  lemma LeaseStep(s: Sys, st: Step)
    requires LeaseInv(s) && Enabled(s, st)
    requires st.Works? ==> WorkerOp(OpOf(s, st), st.id)
    ensures LeaseInv(Next(s, st))
  {
    var op := OpOf(s, st);
    match st
    case Enters(o, i, _) => assert Exec(s.w, op) == DoTakeLease(s.w, i, o);
    case Leaves(o, i, released) =>
      if released {
        assert Exec(s.w, op) == DoDropLease(s.w, i, o);
      }
    case LeaseCleared(i) => assert Exec(s.w, op) == DoDropLease(s.w, i, s.w.db.leases[i]);
    case _ => LeasesKept(s.w, op);
  }

  /** What one step of the system does to one intent. */
  ghost predicate StepOk(s: Sys, st: Step, j: IntentId)
    requires Enabled(s, st)
  {
    IntentInv(Next(s, st), j) && Advances(View(s.w, j), View(Next(s, st).w, j), j in s.blocked)
  }

  lemma WorkerOpOf(s: Sys, o: Owner, i: IntentId, c: Choice)
    requires Inv(s) && (o, i) in s.pcs && i in s.w.db.intents
    ensures WorkerOp(PlanOf(s, o, i, c).op, i)
  {
    assert IntentInv(s, i);
  }

  /** The worker's step as its own intent sees it. */
  lemma OwnWorkView(s: Sys, o: Owner, i: IntentId, c: Choice)
    requires Inv(s) && Enabled(s, Works(o, i, c))
    ensures var plan := PlanOf(s, o, i, c);
      var s', result := Next(s, Works(o, i, c)), Exec(s.w, plan.op).result;
      && WorkerOp(plan.op, i)
      && plan == PlanFor(i, View(s.w, i), GrantOf(s.w.db, s.w.db.intents[i].intent), PcOf(s, i), c)
      && ViewStep(i, View(s.w, i), plan.op, result, View(s'.w, i))
      && PcOf(s', i) == Continue(plan, result)
      && (i in s'.blocked <==> i in s.blocked || BlockedNow(View(s'.w, i)))
      && CallsOf(s', i) == CallsOf(s, i) + if PcOf(s, i).Sending? then 1 else 0
  {
    hide Exec, PlanFor;
    var plan := PlanOf(s, o, i, c);
    WorkerOpOf(s, o, i, c);
    LeasesKept(s.w, plan.op);
    SubjectOf(i, plan.op);
    if Subject(plan.op) == Some(i) {
      OwnEffect(s.w, plan.op, i);
    } else {
      OtherEffect(s.w, plan.op, i);
    }
  }

  lemma OwnWork(s: Sys, o: Owner, i: IntentId, c: Choice)
    requires Inv(s) && Enabled(s, Works(o, i, c))
    ensures StepOk(s, Works(o, i, c), i)
  {
    hide Exec, PlanFor;
    var s' := Next(s, Works(o, i, c));
    OwnWorkView(s, o, i, c);
    assert IntentInv(s, i);
    WorkKeeps(i, View(s.w, i), GrantOf(s.w.db, s.w.db.intents[i].intent), PcOf(s, i), c,
              Exec(s.w, PlanOf(s, o, i, c).op).result,
              View(s'.w, i), i in s.blocked);
  }

  lemma OthersWork(s: Sys, o: Owner, i: IntentId, c: Choice, j: IntentId)
    requires Inv(s) && Enabled(s, Works(o, i, c)) && j != i
    ensures StepOk(s, Works(o, i, c), j)
  {
    hide Exec;
    var plan := PlanOf(s, o, i, c);
    WorkerOpOf(s, o, i, c);
    LeasesKept(s.w, plan.op);
    OtherEffect(s.w, plan.op, j);
    assert IntentInv(s, j);
    StaysStill(View(s.w, j), j in s.blocked);
  }

  predicate MovesLease(st: Step) {
    st.Enters? || st.Leaves? || st.LeaseCleared? || st.Dies?
  }

  lemma LeaseView(s: Sys, st: Step, j: IntentId)
    requires Enabled(s, st) && MovesLease(st)
    ensures View(Next(s, st).w, j) == View(s.w, j)
  {
    var op := OpOf(s, st);
    if Subject(op) == Some(j) {
      OwnEffect(s.w, op, j);
    } else {
      OtherEffect(s.w, op, j);
    }
  }

  lemma LeaseMoves(s: Sys, st: Step, j: IntentId)
    requires Inv(s) && Enabled(s, st) && MovesLease(st)
    ensures StepOk(s, st, j)
  {
    assert IntentInv(s, j);
    LeaseView(s, st, j);
    PcAfterLease(s, st, j);
    StaysStill(View(s.w, j), j in s.blocked);
    var pc' := PcOf(Next(s, st), j);
    if pc' != PcOf(s, j) {
      RestartKeeps(j, View(s.w, j), PcOf(s, j), pc', j in s.blocked);
    }
  }

  lemma PcAfterLease(s: Sys, st: Step, j: IntentId)
    requires LeaseInv(s) && Enabled(s, st) && MovesLease(st)
    ensures var pc := PcOf(Next(s, st), j);
      pc == PcOf(s, j) || pc == Finished
        || (st.Enters? && st.id == j && (pc == Entered || pc == Reconciles(true, None)))
  {
    LeaseStep(s, st);
    var op := OpOf(s, st);
    match st
    case Enters(o, i, _) => assert Exec(s.w, op) == DoTakeLease(s.w, i, o);
    case Leaves(o, i, released) =>
      if released {
        assert Exec(s.w, op) == DoDropLease(s.w, i, o);
      }
    case LeaseCleared(i) => assert Exec(s.w, op) == DoDropLease(s.w, i, s.w.db.leases[i]);
    case Dies(_) =>
  }

  lemma VenueStep(s: Sys, st: Step, j: IntentId)
    requires Inv(s) && Enabled(s, st) && st.VenueConsumes?
    ensures StepOk(s, st, j)
  {
    var op := OpOf(s, st);
    assert IntentInv(s, j);
    LeasesKept(s.w, op);
    ConsumeEffect(s.w, op, j);
    if ConsumedStep(View(s.w, j), View(Exec(s.w, op).w, j)) {
      ConsumeKeeps(j, View(s.w, j), PcOf(s, j), View(Exec(s.w, op).w, j), j in s.blocked);
    } else {
      StaysStill(View(s.w, j), j in s.blocked);
    }
  }

  lemma OperatorStep(s: Sys, st: Step, j: IntentId)
    requires Inv(s) && Enabled(s, st) && st.Operates?
    ensures StepOk(s, st, j)
  {
    hide Exec;
    assert IntentInv(s, j);
    LeasesKept(s.w, st.op);
    OtherEffect(s.w, st.op, j);
    StaysStill(View(s.w, j), j in s.blocked);
  }

  lemma ArrivalStep(s: Sys, st: Step, j: IntentId)
    requires Inv(s) && Enabled(s, st) && st.Arrives?
    ensures StepOk(s, st, j)
  {
    var op := OpOf(s, st);
    assert IntentInv(s, j);
    LeasesKept(s.w, op);
    if st.intent.id == j {
      OwnEffect(s.w, op, j);
      if View(s.w, j).row.None? {
        ArrivalKeeps(st.intent, View(s.w, j), PcOf(s, j), j in s.blocked);
      }
    } else {
      OtherEffect(s.w, op, j);
    }
    StaysStill(View(s.w, j), j in s.blocked);
  }

  lemma OwnRepair(s: Sys, i: IntentId)
    requires Inv(s) && Enabled(s, OrphanRepaired(i))
    ensures StepOk(s, OrphanRepaired(i), i)
  {
    var op := OpOf(s, OrphanRepaired(i));
    assert IntentInv(s, i);
    LeasesKept(s.w, op);
    OwnEffect(s.w, op, i);
    RepairKeeps(i, View(s.w, i), PcOf(s, i), View(Exec(s.w, op).w, i), i in s.blocked);
  }

  lemma RepairStep(s: Sys, st: Step, j: IntentId)
    requires Inv(s) && Enabled(s, st) && st.OrphanRepaired?
    ensures StepOk(s, st, j)
  {
    if st.id == j {
      OwnRepair(s, j);
    } else {
      assert IntentInv(s, j);
      LeasesKept(s.w, OpOf(s, st));
      OtherEffect(s.w, OpOf(s, st), j);
      StaysStill(View(s.w, j), j in s.blocked);
    }
  }

  /** A step other than its own worker's leaves an intent's row and its number of permits alone. */
  lemma OthersLeaveRow(s: Sys, st: Step, j: IntentId)
    requires Inv(s) && Enabled(s, st) && !(st.Works? && st.id == j)
    ensures var row, row' := View(s.w, j).row, View(Next(s, st).w, j).row;
      row' == row || (row.None? && st.Arrives? && row' == Some(FreshRow(st.intent)))
    ensures |View(Next(s, st).w, j).permits| == |View(s.w, j).permits|
  {
    if MovesLease(st) {
      LeaseView(s, st, j);
    } else {
      OthersViewStep(s, st, j);
    }
  }

  lemma OthersViewStep(s: Sys, st: Step, j: IntentId)
    requires Inv(s) && Enabled(s, st) && !(st.Works? && st.id == j) && !MovesLease(st)
    ensures var row, row' := View(s.w, j).row, View(Next(s, st).w, j).row;
      row' == row || (row.None? && st.Arrives? && row' == Some(FreshRow(st.intent)))
    ensures |View(Next(s, st).w, j).permits| == |View(s.w, j).permits|
  {
    var op := OpOf(s, st);
    match st
    case Works(o, i, c) =>
      WorkerOpOf(s, o, i, c);
      OtherEffect(s.w, op, j);
    case VenueConsumes(_, _, _) => ConsumeEffect(s.w, op, j);
    case Operates(_) => OtherEffect(s.w, op, j);
    case Arrives(intent) =>
      if intent.id == j {
        OwnEffect(s.w, op, j);
      } else {
        OtherEffect(s.w, op, j);
      }
    case OrphanRepaired(i) =>
      if i == j {
        OwnEffect(s.w, op, j);
      } else {
        OtherEffect(s.w, op, j);
      }
    case _ =>
  }

  lemma IntentStep(s: Sys, st: Step, j: IntentId)
    requires Inv(s) && Enabled(s, st)
    ensures StepOk(s, st, j)
  {
    hide Exec;
    match st
    case Works(o, i, c) =>
      if i == j {
        OwnWork(s, o, i, c);
      } else {
        OthersWork(s, o, i, c, j);
      }
    case Arrives(_) => ArrivalStep(s, st, j);
    case OrphanRepaired(_) => RepairStep(s, st, j);
    case VenueConsumes(_, _, _) => VenueStep(s, st, j);
    case Operates(_) => OperatorStep(s, st, j);
    case _ => LeaseMoves(s, st, j);
  }

  lemma StepKeepsInv(s: Sys, st: Step)
    requires Inv(s) && Enabled(s, st)
    ensures Inv(Next(s, st))
  {
    hide Exec;
    if st.Works? {
      WorkerOpOf(s, st.owner, st.id, st.c);
    }
    LeaseStep(s, st);
    forall j ensures IntentInv(Next(s, st), j) {
      IntentStep(s, st, j);
    }
  }

  lemma {:induction false} RunKeepsInv(s: Sys, steps: seq<Step>)
    requires Inv(s) && Possible(s, steps)
    ensures Inv(Run(s, steps))
    decreases |steps|
  {
    hide Exec;
    if steps != [] {
      StepKeepsInv(s, steps[0]);
      RunKeepsInv(Next(s, steps[0]), steps[1..]);
    }
  }
}
