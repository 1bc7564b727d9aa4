/** What every run of the protocol guarantees. */
module Guarantees {
  import opened Types
  import opened StoreOps
  import opened LocalView
  import opened Settlement
  import opened Protocol
  import opened LocalInv
  import opened Runs
  import Authority

  // ---- what a whole continuation may change ----

  /** The transitive form of one step's effect on an intent. `b` says that a durable block had been
      persisted before. */
  ghost predicate Continues(l: Local, l': Local, b: bool) {
    && |l.permits| <= |l'.permits|
    && (forall n :: 0 <= n < |l.permits| ==>
          && l'.permits[n] == l.permits[n].(consumed := l'.permits[n].consumed, voided := l'.permits[n].voided)
          && (!Live(l.permits[n]) ==> l'.permits[n] == l.permits[n]))
    && (l.usage == Some(Released) || l.usage == Some(Committed) ==> l'.usage == l.usage)
    && (l.row.Some? ==> l'.row.Some? && RowContinues(l.row.value, l'.row.value))
    && (l.row.Some? && (b || HasConsumed(l.permits)) ==>
          l'.row.value.submissions == l.row.value.submissions && |l'.permits| == |l.permits|)
  }

  predicate RowContinues(row: IntentRow, row': IntentRow) {
    && row'.intent == row.intent
    && row.submissions <= row'.submissions
    && (row.effect.Some? ==> row'.effect == row.effect)
    && (Monetary(row.intent.primitive) && row.filled.Some? ==>
        row'.filled.Some? && row.filled.value <= row'.filled.value)
    && (Terminal(row.state) ==> row' == row)
  }

  /** Every continuation keeps an intent's recorded effect, its fill, its settled budget and its dead
      permits, and begins nothing after a durable block or a consumption. */
  lemma {:induction false} RunContinues(s: Sys, steps: seq<Step>, i: IntentId)
    requires Inv(s) && Possible(s, steps)
    ensures Continues(View(s.w, i), View(Run(s, steps).w, i), i in s.blocked)
    ensures s.blocked <= Run(s, steps).blocked
    decreases |steps|
  {
    hide Exec;
    if steps != [] {
      var s1 := Next(s, steps[0]);
      StepContinues(s, steps[0], i);
      RunContinues(s1, steps[1..], i);
      Chain(View(s.w, i), View(s1.w, i), View(Run(s, steps).w, i), i in s.blocked, i in s1.blocked);
    }
  }

  lemma StepContinues(s: Sys, st: Step, i: IntentId)
    requires Inv(s) && Enabled(s, st)
    ensures Inv(Next(s, st)) && Advances(View(s.w, i), View(Next(s, st).w, i), i in s.blocked)
    ensures s.blocked <= Next(s, st).blocked
  {
    IntentStep(s, st, i);
    StepKeepsInv(s, st);
  }

  lemma Chain(l: Local, l1: Local, l2: Local, b: bool, b1: bool)
    requires Advances(l, l1, b) && Continues(l1, l2, b1) && (b ==> b1)
    ensures Continues(l, l2, b)
  {
    forall n | 0 <= n < |l.permits|
      ensures l2.permits[n] == l.permits[n].(consumed := l2.permits[n].consumed, voided := l2.permits[n].voided)
      ensures !Live(l.permits[n]) ==> l2.permits[n] == l.permits[n]
    {
      assert l1.permits[n] == l.permits[n].(consumed := l1.permits[n].consumed, voided := l1.permits[n].voided);
    }
  }

  // ---- reachable states ----

  /** Some run from a store without intents leads here. */
  ghost predicate Reachable(s: Sys) {
    exists s0, steps :: Initial(s0) && Possible(s0, steps) && Run(s0, steps) == s
  }

  lemma ReachableInv(s: Sys)
    requires Reachable(s)
    ensures Inv(s)
  {
    var s0, steps :| Initial(s0) && Possible(s0, steps) && Run(s0, steps) == s;
    InitialInv(s0);
    RunKeepsInv(s0, steps);
  }

  // ---- exactly once ----

  /** The permit row is the only one of its intent that was ever consumed. */
  lemma AtMostOneConsumed(s: Sys, j: nat, k: nat)
    requires Reachable(s) && j < k < |s.w.db.permits|
    requires s.w.db.permits[j].consumed && s.w.db.permits[k].consumed
    ensures s.w.db.permits[j].intent != s.w.db.permits[k].intent
  {
    ReachableInv(s);
    var i := s.w.db.permits[k].intent;
    assert IntentInv(s, i);
    RowPlaced(s.w.db.permits, j);
    RowPlaced(s.w.db.permits, k);
    if s.w.db.permits[j].intent == i {
      PlacesOrdered(s.w.db.permits, j, k);
    }
  }

  /** A venue admits the request at this step: the external effect comes into being. */
  ghost predicate Effected(s: Sys, st: Step, i: IntentId)
    requires EnabledBarLease(s, st)
  {
    st.VenueConsumes? && st.id == i && Exec(s.w, OpOf(s, st)).result == Done
  }

  /** External effects of an intent over a run. */
  ghost function Effects(s: Sys, steps: seq<Step>, i: IntentId): nat
    requires Possible(s, steps)
    decreases |steps|
  {
    if steps == [] then 0
    else (if Effected(s, steps[0], i) then 1 else 0) + Effects(Next(s, steps[0]), steps[1..], i)
  }

  ghost predicate DistinctIds(permits: seq<PermitRow>) {
    forall j, k :: 0 <= j < k < |permits| ==> permits[j].id != permits[k].id
  }

  lemma IdsStayDistinct(w: World, op: Op)
    requires DistinctIds(w.db.permits)
    ensures DistinctIds(Exec(w, op).w.db.permits)
  {
    var permits, permits' := w.db.permits, Exec(w, op).w.db.permits;
    Authority.PermitEffect(w, op);
    if op.RecordPermit? && |permits'| > |permits| {
      assert Exec(w, op) == DoRecord(w, op);
      forall j | 0 <= j < |permits| ensures !Collides(permits[j], op.permit) {}
    } else {
      forall j, k | 0 <= j < k < |permits'| ensures permits'[j].id != permits'[k].id {
        assert Authority.PermitAdvances(permits[j], permits'[j]) && Authority.PermitAdvances(permits[k], permits'[k]);
      }
    }
  }

  lemma NextExecutes(s: Sys, st: Step)
    requires Enabled(s, st)
    ensures Next(s, st).w == Exec(s.w, OpOf(s, st)).w
  {
  }

  /** A permit handed to a venue resolves to its own row. */
  lemma ConsumesOwn(permits: seq<PermitRow>, i: IntentId, n: nat)
    requires DistinctIds(permits) && n < |Rows(permits, i)|
    ensures RowOf(permits, Rows(permits, i)[n].id) < |permits|
    ensures permits[RowOf(permits, Rows(permits, i)[n].id)].intent == i
  {
    var k := RowStored(permits, i, n);
    assert RowOf(permits, permits[k].id) <= k;
  }

  lemma EffectedConsumes(s: Sys, st: Step, i: IntentId)
    requires Inv(s) && DistinctIds(s.w.db.permits) && Enabled(s, st) && Effected(s, st, i)
    ensures !HasConsumed(View(s.w, i).permits) && HasConsumed(View(Next(s, st).w, i).permits)
  {
    var op := OpOf(s, st);
    assert IntentInv(s, i);
    ConsumesOwn(s.w.db.permits, i, st.permit);
    ConsumeEffect(s.w, op, i);
  }

  lemma ConsumedStays(s: Sys, st: Step, i: IntentId)
    requires Inv(s) && Enabled(s, st) && HasConsumed(View(s.w, i).permits)
    ensures HasConsumed(View(Next(s, st).w, i).permits)
  {
    hide Exec;
    assert IntentInv(s, i);
    IntentStep(s, st, i);
  }

  lemma {:induction false} EffectsBounded(s: Sys, steps: seq<Step>, i: IntentId)
    requires Inv(s) && DistinctIds(s.w.db.permits) && Possible(s, steps)
    ensures Effects(s, steps, i) <= if HasConsumed(View(s.w, i).permits) then 0 else 1
    decreases |steps|
  {
    if steps != [] {
      var st := steps[0];
      StepKeepsInv(s, st);
      NextExecutes(s, st);
      IdsStayDistinct(s.w, OpOf(s, st));
      EffectsBounded(Next(s, st), steps[1..], i);
      if Effected(s, st, i) {
        EffectedConsumes(s, st, i);
      } else if HasConsumed(View(s.w, i).permits) {
        ConsumedStays(s, st, i);
      }
    }
  }

  /** Exactly once: over any run, with any number of retries, workers, takeovers after a crash, late
      venues and operator stops, an intent has at most one external effect. */
  lemma ExactlyOnce(s0: Sys, steps: seq<Step>, i: IntentId)
    requires Initial(s0) && Possible(s0, steps)
    ensures Effects(s0, steps, i) <= 1
  {
    InitialInv(s0);
    EffectsBounded(s0, steps, i);
  }

  // ---- budget ----

  /** A released reservation is final: in every continuation it stays released, the intent stays in its
      terminal state, no permit of it is live, none is issued and none is consumed; and none had been
      consumed, unless the release came from an authoritative cancellation with nothing filled. */
  lemma ReleasedIsFinal(s: Sys, steps: seq<Step>, i: IntentId)
    requires Reachable(s) && Possible(s, steps)
    requires i in s.w.db.usage && s.w.db.usage[i].status == Released
    ensures var w, w' := s.w, Run(s, steps).w;
      && i in w.db.intents && Terminal(w.db.intents[i].state)
      && i in w'.db.intents && w'.db.intents[i] == w.db.intents[i]
      && i in w'.db.usage && w'.db.usage[i].status == Released
      && Rows(w'.db.permits, i) == Rows(w.db.permits, i)
      && NoneLive(Rows(w.db.permits, i))
      && (NoneConsumed(Rows(w.db.permits, i))
          || (w.db.intents[i].state == FailedSafe && w.db.intents[i].reasons == [SettlementCancelledUnfilled]))
  {
    ReachableInv(s);
    assert IntentInv(s, i);
    RunContinues(s, steps, i);
    NothingIssuedAfterRelease(s, steps, i);
    ReleasedView(i, View(s.w, i), View(Run(s, steps).w, i), i in s.blocked);
  }

  lemma ReleasedView(i: IntentId, l: Local, l': Local, b: bool)
    requires RowInv(i, l, b) && l.usage == Some(Released)
    requires Continues(l, l', b) && |l'.permits| == |l.permits|
    ensures l.row.Some? && Terminal(l.row.value.state) && l'.row == l.row && l'.usage == l.usage
    ensures l'.permits == l.permits && NoneLive(l.permits)
    ensures NoneConsumed(l.permits) || (l.row.value.state == FailedSafe
                                        && l.row.value.reasons == [SettlementCancelledUnfilled])
  {
    assert NoneLive(l.permits);
  }

  lemma {:induction false} NothingIssuedAfterRelease(s: Sys, steps: seq<Step>, i: IntentId)
    requires Inv(s) && Possible(s, steps)
    requires View(s.w, i).usage == Some(Released)
    ensures |View(Run(s, steps).w, i).permits| == |View(s.w, i).permits|
    decreases |steps|
  {
    if steps != [] {
      assert IntentInv(s, i);
      IntentStep(s, steps[0], i);
      StepKeepsInv(s, steps[0]);
      NothingIssuedAfterRelease(Next(s, steps[0]), steps[1..], i);
    }
  }

  /** Budget follows state: held while in flight, committed once finalized, never released before the
      intent is terminal. */
  lemma BudgetFollowsState(s: Sys, i: IntentId)
    requires Reachable(s) && i in s.w.db.intents
    ensures var state := s.w.db.intents[i].state;
      && (state == Authorized || state == Reserved || InFlight(state) ==>
          i in s.w.db.usage && s.w.db.usage[i].status == Held)
      && (state == Finalized ==> i in s.w.db.usage && s.w.db.usage[i].status == Committed)
      && (i in s.w.db.usage && s.w.db.usage[i].status == Released ==> Terminal(state) && state != Finalized)
  {
    ReachableInv(s);
    assert IntentInv(s, i);
  }

  // ---- the ambiguity window ----

  /** A live permit is the only live permit of its intent, every earlier one is voided, and the row's
      ambiguity window closes exactly when it expires. */
  lemma WindowAnnouncesLivePermit(s: Sys, k: nat)
    requires Reachable(s) && k < |s.w.db.permits| && Live(s.w.db.permits[k])
    ensures var i := s.w.db.permits[k].intent;
      && i in s.w.db.intents
      && s.w.db.intents[i].ambiguityUntil == Some(s.w.db.permits[k].expiresAt)
      && forall j :: 0 <= j < |s.w.db.permits| && j != k && s.w.db.permits[j].intent == i ==>
           s.w.db.permits[j].voided && !s.w.db.permits[j].consumed
  {
    ReachableInv(s);
    assert IntentInv(s, s.w.db.permits[k].intent);
    LiveIsLast(s.w.db.permits, k);
  }

  lemma LiveIsNewest(permits: seq<PermitRow>, k: nat)
    requires k < |permits| && Live(permits[k]) && LedgerShape(Rows(permits, permits[k].intent))
    ensures var rows := Rows(permits, permits[k].intent); rows != [] && Last(rows) == permits[k]
  {
    RowPlaced(permits, k);
    assert Place(permits, k) == |Rows(permits, permits[k].intent)| - 1;
  }

  lemma LiveIsLast(permits: seq<PermitRow>, k: nat)
    requires k < |permits| && Live(permits[k]) && LedgerShape(Rows(permits, permits[k].intent))
    ensures var rows := Rows(permits, permits[k].intent); rows != [] && Last(rows) == permits[k]
    ensures forall j :: 0 <= j < |permits| && j != k && permits[j].intent == permits[k].intent ==>
      permits[j].voided && !permits[j].consumed
  {
    LiveIsNewest(permits, k);
    forall j | 0 <= j < |permits| && j != k && permits[j].intent == permits[k].intent
      ensures permits[j].voided && !permits[j].consumed
    {
      OthersVoided(permits, j, k);
    }
  }

  lemma OthersVoided(permits: seq<PermitRow>, j: nat, k: nat)
    requires j < |permits| && k < |permits| && j != k && permits[j].intent == permits[k].intent
    requires Live(permits[k]) && LedgerShape(Rows(permits, permits[k].intent))
    ensures permits[j].voided && !permits[j].consumed
  {
    RowPlaced(permits, j);
    RowPlaced(permits, k);
    PlacesOrdered(permits, if j < k then j else k, if j < k then k else j);
  }

  lemma RetiredLedger(permits: seq<PermitRow>, i: IntentId)
    requires LedgerShape(Rows(permits, i)) && Retired(Rows(permits, i))
    ensures forall k :: 0 <= k < |permits| && permits[k].intent == i ==> permits[k].voided && !permits[k].consumed
  {
    forall k | 0 <= k < |permits| && permits[k].intent == i ensures permits[k].voided && !permits[k].consumed {
      RowPlaced(permits, k);
    }
  }

  /** A submission begins, and resets the window, only when every earlier permit is voided and none was
      consumed, no effect is recorded, the budget is held and no durable block was ever persisted. */
  lemma AttemptNeedsDeadPermits(s: Sys, st: Step, i: IntentId)
    requires Reachable(s) && Enabled(s, st) && i in s.w.db.intents && i in Next(s, st).w.db.intents
    requires Next(s, st).w.db.intents[i].submissions != s.w.db.intents[i].submissions
    ensures forall k :: 0 <= k < |s.w.db.permits| && s.w.db.permits[k].intent == i ==>
      s.w.db.permits[k].voided && !s.w.db.permits[k].consumed
    ensures s.w.db.intents[i].effect == None && i !in s.blocked
    ensures i in s.w.db.usage && s.w.db.usage[i].status == Held
  {
    ReachableInv(s);
    assert IntentInv(s, i);
    IntentStep(s, st, i);
    assert Ready(View(s.w, i), s.w.db.intents[i], i in s.blocked);
    RetiredLedger(s.w.db.permits, i);
  }

  // ---- durable block ----

  /** One of the two codes of a deterministic failure, verified or not, is on the row. */
  predicate FailureCode(row: IntentRow) {
    DeterministicFailure in row.reasons || DeterministicFailureUnverified in row.reasons
  }

  lemma FailureCodeBlocks(row: IntentRow)
    ensures FailureCode(row) <==> Blocked(row.reasons)
  {
    if DeterministicFailure in row.reasons {
      var k :| 0 <= k < |row.reasons| && row.reasons[k] == DeterministicFailure;
      assert Blocks(row.reasons[k]);
    }
    if DeterministicFailureUnverified in row.reasons {
      var k :| 0 <= k < |row.reasons| && row.reasons[k] == DeterministicFailureUnverified;
      assert Blocks(row.reasons[k]);
    }
  }

  /** Nothing of the intent is submitted again: the same attempts, the same permits. */
  predicate NoFurtherAttempt(w: World, w': World, i: IntentId)
    requires i in w.db.intents
  {
    && i in w'.db.intents
    && w'.db.intents[i].submissions == w.db.intents[i].submissions
    && |Rows(w'.db.permits, i)| == |Rows(w.db.permits, i)|
  }

  /** The code, a recorded effect or a terminal state stands on the row. */
  predicate Barrier(w: World, i: IntentId)
    requires i in w.db.intents
  {
    var row := w.db.intents[i];
    || FailureCode(row) || row.effect.Some?
    || row.state in {Denied, Deferred, IntentState.Stopped, Finalized, FailedSafe}
  }

  /** Once a deterministic-failure code was persisted on an intent, no later step of any run begins a
      submission or records a permit for it, although later transitions may drop the code. */
  lemma DurableBlock(s: Sys, steps: seq<Step>, i: IntentId)
    requires Reachable(s) && Possible(s, steps) && i in s.w.db.intents && FailureCode(s.w.db.intents[i])
    ensures NoFurtherAttempt(s.w, Run(s, steps).w, i)
  {
    hide Exec;
    ReachableInv(s);
    FailureCodeBlocks(s.w.db.intents[i]);
    assert IntentInv(s, i);
    RunContinues(s, steps, i);
  }

  /** The barrier that remains: the code itself, a recorded effect, or a terminal state. */
  lemma BlockLeavesABarrier(s: Sys, steps: seq<Step>, i: IntentId)
    requires Reachable(s) && Possible(s, steps) && i in s.w.db.intents && FailureCode(s.w.db.intents[i])
    ensures i in Run(s, steps).w.db.intents && Barrier(Run(s, steps).w, i)
  {
    hide Exec;
    var s' := Run(s, steps);
    ReachableInv(s);
    FailureCodeBlocks(s.w.db.intents[i]);
    assert IntentInv(s, i);
    RunContinues(s, steps, i);
    RunKeepsInv(s, steps);
    assert IntentInv(s', i);
    FailureCodeBlocks(s'.w.db.intents[i]);
  }

  // ---- absence ----

  /** A worker takes absence for a fact, and sets out to void, only when every permit of the intent that a
      venue may still honour expired at least the clock skew ago, by the clock it decides with. */
  lemma AbsenceWaitsForExpiry(s: Sys, o: Owner, i: IntentId, c: Choice, k: nat)
    requires Reachable(s) && Enabled(s, Works(o, i, c)) && s.pcs[(o, i)].Verifying?
    requires Next(s, Works(o, i, c)).pcs[(o, i)].VoidingAbsence?
    requires k < |s.w.db.permits| && s.w.db.permits[k].intent == i
    requires !s.w.db.permits[k].consumed && !s.w.db.permits[k].voided
    ensures s.w.db.intents[i].intent.grant in s.w.db.grants
    ensures c.now >= s.w.db.permits[k].expiresAt + s.w.db.grants[s.w.db.intents[i].intent.grant].limits.maxClockSkew
    ensures c.answer.Answered? && c.answer.record.authoritative && c.answer.record.bound
    ensures c.answer.record.status == NoEffect && s.w.db.intents[i].effect == None
  {
    hide Exec, PlanFor, Decide, RowInv;
    ReachableInv(s);
    assert IntentInv(s, i);
    OwnWorkView(s, o, i, c);
    WindowAnnouncesLivePermit(s, k);
    var row, pc := s.w.db.intents[i], s.pcs[(o, i)];
    assert PcOf(s, i) == pc && PcInv(View(s.w, i), row, pc, i in s.blocked);
    var grant := GrantOf(s.w.db, row.intent);
    AbsencePlanned(i, View(s.w, i), grant, pc.seen, c);
    AbsenceIsActedOnIff(row.intent, pc.seen, grant.value.limits.maxClockSkew, c.now, c.answer.record);
  }

  lemma AbsencePlanned(i: IntentId, l: Local, grant: Option<Grant>, seen: Seen, c: Choice)
    requires l.row.Some?
    ensures var plan := PlanFor(i, l, grant, Verifying(seen), c);
      plan.op != Nothing ==>
        !plan.done.VoidingAbsence? && !plan.otherwise.VoidingAbsence? && !plan.conflict.VoidingAbsence?
    ensures var plan := PlanFor(i, l, grant, Verifying(seen), c);
      plan.done.VoidingAbsence? ==>
        && grant.Some? && c.answer.Answered?
        && Decide(l.row.value.intent, seen, grant.value.limits.maxClockSkew, c.now, c.answer.record) == ActOnAbsence
  {
    hide Decide;
  }

  // ---- settlement history ----

  /** Over any continuation the effect id is write-once, the fill of a monetary intent never shrinks,
      and a terminal row never changes again. */
  lemma SettlementHistory(s: Sys, steps: seq<Step>, i: IntentId)
    requires Reachable(s) && Possible(s, steps) && i in s.w.db.intents
    ensures i in Run(s, steps).w.db.intents
    ensures RowContinues(s.w.db.intents[i], Run(s, steps).w.db.intents[i])
  {
    hide Exec;
    ReachableInv(s);
    RunContinues(s, steps, i);
  }

  /** Recorded fills stay within the authorised amount, and a finalized payment settled it exactly. */
  lemma SettledWithinAuthority(s: Sys, i: IntentId)
    requires Reachable(s) && i in s.w.db.intents && Monetary(s.w.db.intents[i].intent.primitive)
    ensures var row := s.w.db.intents[i];
      && (row.filled.Some? ==> row.intent.amount.Some? && 0 <= row.filled.value <= row.intent.amount.value)
      && (row.state == Finalized ==> row.effect.Some? && row.filled.Some? && row.filled.value > 0)
      && (row.state == Finalized && row.intent.primitive == Pay ==> row.filled == row.intent.amount)
  {
    ReachableInv(s);
    assert IntentInv(s, i);
  }

  /** No two intents at one venue share an effect id. */
  ghost predicate EffectsUnique(intents: map<IntentId, IntentRow>) {
    forall i, j :: (i in intents && j in intents && i != j && intents[i].intent.venue == intents[j].intent.venue
                    && intents[i].effect.Some?) ==> intents[i].effect != intents[j].effect
  }

  lemma TransitionUnique(w: World, op: Op)
    requires EffectsUnique(w.db.intents) && op.Transition?
    ensures EffectsUnique(DoTransition(w, op).w.db.intents)
  {
  }

  lemma UniqueStep(w: World, op: Op)
    requires EffectsUnique(w.db.intents)
    ensures EffectsUnique(Exec(w, op).w.db.intents)
  {
    if ChangesAuthority(op) {
      assert Exec(w, op) == ExecAuthority(w, op);
    } else if op.Transition? {
      TransitionUnique(w, op);
      assert Exec(w, op) == DoTransition(w, op);
    } else if op.BeginSubmission? {
      assert Exec(w, op) == DoBegin(w, op);
    } else if op.RecordPermit? {
      assert Exec(w, op) == DoRecord(w, op);
    }
  }

  lemma {:induction false} EffectsUniqueAlways(w: World, ops: seq<Op>)
    requires EffectsUnique(w.db.intents)
    ensures EffectsUnique(ExecAll(w, ops).db.intents)
    decreases |ops|
  {
    if ops != [] {
      UniqueStep(w, ops[0]);
      EffectsUniqueAlways(Exec(w, ops[0]).w, ops[1..]);
    }
  }

  // ---- isolation ----

  /** Between two of its transactions nobody else changes the row a worker works on: only a living
      worker that owns the intent's lease does. */
  lemma OnlyTheHolderWrites(s: Sys, st: Step, i: IntentId)
    requires Reachable(s) && Enabled(s, st) && i in s.w.db.intents
    requires i !in Next(s, st).w.db.intents || Next(s, st).w.db.intents[i] != s.w.db.intents[i]
    ensures st.Works? && st.id == i && i in s.w.db.leases && s.w.db.leases[i] == st.owner && st.owner !in s.dead
  {
    ReachableInv(s);
    assert View(s.w, i).row == Some(s.w.db.intents[i]);
    if !(st.Works? && st.id == i) {
      OthersLeaveRow(s, st, i);
    }
  }
}
