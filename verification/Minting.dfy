/** Which risk state each permit was minted from, over every run. */
module Minting {
  import opened Types
  import opened StoreOps
  import opened LocalView
  import opened Protocol
  import opened LocalInv
  import opened Runs
  import opened Guarantees
  import opened Attempts
  import RiskClaims

  ghost predicate Owns(db: Db, k: RiskKey, i: IntentId) {
    k in db.permitClaims && db.permitClaims[k] == i
  }

  /** A worker past the claim still owns the claimed risk state. */
  ghost predicate ClaimHeld(s: Sys, i: IntentId) {
    var pc := PcOf(s, i);
    (pc.ClaimedRisk? || pc.Fenced?) && i in s.w.db.intents ==>
      Owns(s.w.db, RiskOf(s.w.db.intents[i].intent, pc.risk), i)
  }

  /** Every recorded permit was minted from a risk state its intent owns. */
  ghost predicate MintedOwned(s: Sys, i: IntentId) {
    && (forall n: nat :: n < |Rows(s.w.db.permits, i)| ==> (i, n) in s.minted)
    && (forall n: nat :: (i, n) in s.minted ==> Owns(s.w.db, s.minted[(i, n)], i))
  }

  ghost predicate MintInv(s: Sys) {
    forall i :: ClaimHeld(s, i) && MintedOwned(s, i)
  }

  lemma OwnsKept(w: World, op: Op, k: RiskKey, i: IntentId)
    requires Owns(w.db, k, i)
    ensures Owns(Exec(w, op).w.db, k, i)
  {
    RiskClaims.ClaimStep(w, op);
  }

  lemma RiskFlow(i: IntentId, l: Local, grant: Option<Grant>, pc: Pc, c: Choice, result: Result)
    requires l.row.Some? && pc != Finished
    ensures var plan := PlanFor(i, l, grant, pc, c);
      var pc' := Continue(plan, result);
      && (pc'.ClaimedRisk? ==>
            result == Done && grant.Some? && plan.op == ClaimPermitRisk(l.row.value.intent, grant.value, pc'.risk))
      && (pc'.Fenced? ==> pc.ClaimedRisk? && pc'.risk == pc.risk)
      && (plan.op.RecordPermit? ==> pc.Fenced? && plan.op.permit.intent == i)
  {
    var plan := PlanFor(i, l, grant, pc, c);
    var pc' := Continue(plan, result);
    Descends(i, l, grant, pc, c);
    if InAttempt(pc) {
      AttemptFlow(i, l, l.row.value, grant, pc, c, result);
    } else {
      assert Pending(pc') > 0 ==> plan.op.BeginSubmission?;
    }
  }

  lemma AttemptFlow(i: IntentId, l: Local, row: IntentRow, grant: Option<Grant>, pc: Pc, c: Choice, result: Result)
    requires InAttempt(pc) && l.row == Some(row)
    ensures var plan := PlanFor(i, l, grant, pc, c);
      var pc' := Continue(plan, result);
      && (pc'.ClaimedRisk? ==>
            result == Done && grant.Some? && plan.op == ClaimPermitRisk(row.intent, grant.value, pc'.risk))
      && (pc'.Fenced? ==> pc.ClaimedRisk? && pc'.risk == pc.risk)
      && (plan.op.RecordPermit? ==> pc.Fenced? && plan.op.permit.intent == i)
  {
  }

  lemma RowsGrow(i: IntentId, l: Local, op: Op, result: Result, l': Local)
    requires WorkerOp(op, i) && ViewStep(i, l, op, result, l')
    ensures |l'.permits| == |l.permits| + if op.RecordPermit? && result.Recorded? then 1 else 0
  {
    if op.Transition? {
      assert TransitionStep(l, op, result, l');
    } else if op.BeginSubmission? {
      assert BeginStep(l, op, result, l');
    } else if op.RecordPermit? {
      assert RecordStep(l, op, result, l');
    }
  }

  lemma ClaimSucceeds(w: World, op: Op)
    requires op.ClaimPermitRisk? && Exec(w, op).result == Done
    ensures Owns(Exec(w, op).w.db, RiskKey(op.grant.key, op.risk.scope, op.risk.stateVersion), op.intent.id)
  {
    RiskClaims.SuccessNamesOwner(w, op);
  }

  /** What the own worker's step adds to the histories. */
  lemma OwnHistory(s: Sys, o: Owner, i: IntentId, c: Choice)
    requires Inv(s) && Enabled(s, Works(o, i, c))
    ensures var s', pc, op := Next(s, Works(o, i, c)), PcOf(s, i), PlanOf(s, o, i, c).op;
      && s'.w == Exec(s.w, op).w
      && (if pc.Fenced? && Exec(s.w, op).result.Recorded?
          then s'.minted == s.minted[(i, |Rows(s.w.db.permits, i)|) := RiskOf(s.w.db.intents[i].intent, pc.risk)]
          else s'.minted == s.minted)
  {
    assert IntentInv(s, i);
  }

  lemma MintedGrows(s: Sys, s': Sys, i: IntentId, recorded: bool, key: RiskKey)
    requires MintedOwned(s, i) && RiskClaims.Kept(s.w.db.permitClaims, s'.w.db.permitClaims)
    requires |Rows(s'.w.db.permits, i)| == |Rows(s.w.db.permits, i)| + if recorded then 1 else 0
    requires s'.minted == if recorded then s.minted[(i, |Rows(s.w.db.permits, i)|) := key] else s.minted
    requires recorded ==> Owns(s.w.db, key, i)
    ensures MintedOwned(s', i)
  {
  }

  /** A recorded permit comes from a worker whose claim still stands. */
  lemma OwnRecording(s: Sys, o: Owner, i: IntentId, c: Choice)
    requires Inv(s) && Enabled(s, Works(o, i, c))
    ensures var s', op := Next(s, Works(o, i, c)), PlanOf(s, o, i, c).op;
      && |Rows(s'.w.db.permits, i)| == |Rows(s.w.db.permits, i)| + (if Exec(s.w, op).result.Recorded? then 1 else 0)
      && (Exec(s.w, op).result.Recorded? ==> PcOf(s, i).Fenced?)
  {
    hide Exec, Continue;
    var s', op := Next(s, Works(o, i, c)), PlanOf(s, o, i, c).op;
    var pc, result := PcOf(s, i), Exec(s.w, op).result;
    OwnWorkView(s, o, i, c);
    RowsGrow(i, View(s.w, i), op, result, View(s'.w, i));
    ResultKinds(s.w, op);
    if pc != Finished {
      RiskFlow(i, View(s.w, i), GrantOf(s.w.db, s.w.db.intents[i].intent), pc, c, result);
    }
  }

  lemma OwnMints(s: Sys, o: Owner, i: IntentId, c: Choice)
    requires Inv(s) && Enabled(s, Works(o, i, c)) && ClaimHeld(s, i) && MintedOwned(s, i)
    ensures MintedOwned(Next(s, Works(o, i, c)), i)
  {
    hide Exec;
    var s', op := Next(s, Works(o, i, c)), PlanOf(s, o, i, c).op;
    OwnHistory(s, o, i, c);
    OwnRecording(s, o, i, c);
    RiskClaims.ClaimStep(s.w, op);
    if Exec(s.w, op).result.Recorded? {
      MintedGrows(s, s', i, true, RiskOf(s.w.db.intents[i].intent, PcOf(s, i).risk));
    } else {
      MintedGrows(s, s', i, false, RiskOf(s.w.db.intents[i].intent, Risk("", 0)));
    }
  }

  lemma OwnClaims(s: Sys, o: Owner, i: IntentId, c: Choice)
    requires Inv(s) && Enabled(s, Works(o, i, c)) && ClaimHeld(s, i)
    ensures ClaimHeld(Next(s, Works(o, i, c)), i)
  {
    hide Exec, PlanFor, Continue;
    var pc' := PcOf(Next(s, Works(o, i, c)), i);
    OwnWorkView(s, o, i, c);
    RowKept(s, Works(o, i, c), i);
    if pc'.ClaimedRisk? || pc'.Fenced? {
      if PcOf(s, i) == Finished {
        IdleStep(s, o, i, c);
      } else {
        OwnClaim(s, o, i, c);
      }
    }
  }

  lemma OwnClaim(s: Sys, o: Owner, i: IntentId, c: Choice)
    requires Inv(s) && Enabled(s, Works(o, i, c)) && ClaimHeld(s, i) && PcOf(s, i) != Finished
    ensures var s' := Next(s, Works(o, i, c));
      var pc' := PcOf(s', i);
      pc'.ClaimedRisk? || pc'.Fenced? ==> Owns(s'.w.db, RiskOf(s.w.db.intents[i].intent, pc'.risk), i)
  {
    hide Exec;
    var s', op := Next(s, Works(o, i, c)), PlanOf(s, o, i, c).op;
    var pc, pc' := PcOf(s, i), PcOf(s', i);
    OwnWorkView(s, o, i, c);
    RiskFlow(i, View(s.w, i), GrantOf(s.w.db, s.w.db.intents[i].intent), pc, c, Exec(s.w, op).result);
    if pc'.ClaimedRisk? {
      assert IntentInv(s, i);
      ClaimSucceeds(s.w, op);
    } else if pc'.Fenced? {
      OwnsKept(s.w, op, RiskOf(s.w.db.intents[i].intent, pc.risk), i);
    }
  }

  lemma OthersMint(s: Sys, st: Step, i: IntentId)
    requires Inv(s) && Enabled(s, st) && !(st.Works? && st.id == i) && MintedOwned(s, i)
    ensures MintedOwned(Next(s, st), i)
  {
    hide Exec;
    var s' := Next(s, st);
    NextExecutes(s, st);
    OthersLeaveRow(s, st, i);
    assert View(s.w, i).permits == Rows(s.w.db.permits, i) && View(s'.w, i).permits == Rows(s'.w.db.permits, i);
    RiskClaims.ClaimStep(s.w, OpOf(s, st));
    OthersHistory(s, st, i);
    forall n: nat | (i, n) in s'.minted ensures Owns(s'.w.db, s'.minted[(i, n)], i) {
      assert (i, n) in s.minted && Owns(s.w.db, s.minted[(i, n)], i);
    }
  }

  lemma OthersHistory(s: Sys, st: Step, i: IntentId)
    requires Enabled(s, st) && !(st.Works? && st.id == i)
    ensures forall n: nat :: ((i, n) in s.minted <==> (i, n) in Next(s, st).minted)
                              && ((i, n) in s.minted ==> Next(s, st).minted[(i, n)] == s.minted[(i, n)])
  {
  }

  lemma OthersClaims(s: Sys, st: Step, i: IntentId)
    requires Inv(s) && Enabled(s, st) && !(st.Works? && st.id == i) && ClaimHeld(s, i)
    ensures ClaimHeld(Next(s, st), i)
  {
    NextExecutes(s, st);
    OtherStep(s, st, i);
    assert IntentInv(s, i);
    if i in s.w.db.intents {
      RowKept(s, st, i);
      var pc := PcOf(s, i);
      if pc.ClaimedRisk? || pc.Fenced? {
        OwnsKept(s.w, OpOf(s, st), RiskOf(s.w.db.intents[i].intent, pc.risk), i);
      }
    }
  }

  lemma MintStep(s: Sys, st: Step, i: IntentId)
    requires Inv(s) && Enabled(s, st) && ClaimHeld(s, i) && MintedOwned(s, i)
    ensures ClaimHeld(Next(s, st), i) && MintedOwned(Next(s, st), i)
  {
    if st.Works? && st.id == i {
      OwnMints(s, st.owner, i, st.c);
      OwnClaims(s, st.owner, i, st.c);
    } else {
      OthersMint(s, st, i);
      OthersClaims(s, st, i);
    }
  }

  lemma {:induction false} MintsAlways(s: Sys, steps: seq<Step>)
    requires Inv(s) && MintInv(s) && Possible(s, steps)
    ensures MintInv(Run(s, steps))
    decreases |steps|
  {
    if steps != [] {
      StepKeepsInv(s, steps[0]);
      forall i ensures ClaimHeld(Next(s, steps[0]), i) && MintedOwned(Next(s, steps[0]), i) {
        MintStep(s, steps[0], i);
      }
      MintsAlways(Next(s, steps[0]), steps[1..]);
    }
  }

  /** Over every run each permit has the risk state it was minted from, and two permits minted from the
      same grant version, scope and state version belong to the same intent. */
  lemma NoTwoIntentsShareRiskState(s0: Sys, steps: seq<Step>, j: nat, k: nat)
    requires Initial(s0) && Possible(s0, steps)
    requires var permits := Run(s0, steps).w.db.permits; j < |permits| && k < |permits|
    ensures var s := Run(s0, steps);
      var permits := s.w.db.permits;
      var p, q := (permits[j].intent, Place(permits, j)), (permits[k].intent, Place(permits, k));
      && p in s.minted && q in s.minted
      && (s.minted[p] == s.minted[q] ==> permits[j].intent == permits[k].intent)
  {
    InitialInv(s0);
    assert MintInv(s0);
    MintsAlways(s0, steps);
    var s := Run(s0, steps);
    RowPlaced(s.w.db.permits, j);
    RowPlaced(s.w.db.permits, k);
    assert MintedOwned(s, s.w.db.permits[j].intent) && MintedOwned(s, s.w.db.permits[k].intent);
  }
}
