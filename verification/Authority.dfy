/** Grant epochs, fences and permits over any sequence of transactions of one datastore. */
module Authority {
  import opened Types
  import opened StoreOps

  // ---- what one transaction may do to a grant version and to the marks ----

  ghost predicate MarksRise(before: map<GrantKey, Mark>, after: map<GrantKey, Mark>) {
    forall k :: k in before ==> k in after && !Behind(after[k], before[k])
  }

  ghost predicate AtLeast(marks: map<GrantKey, Mark>, key: GrantKey, m: Mark) {
    key in marks && !Behind(marks[key], m)
  }

  /** A fence advances only on an active row that is not behind its mark, and the mark follows. */
  ghost predicate FenceAdvance(w: World, w': World, key: GrantKey)
    requires key in w.db.grants && key in w'.db.grants
  {
    var g, g' := w.db.grants[key], w'.db.grants[key];
    && g' == g.(fence := g.fence + 1)
    && g.status == Active
    && !HaltedFor(w.db, g.principal)
    && (w.db.anchorRequired ==> !Regressed(w.marks, key, RowMark(g)) && AtLeast(w'.marks, key, RowMark(g')))
  }

  /** An epoch advance may also close the version past its mark after a restore. */
  ghost predicate EpochAdvance(w: World, w': World, key: GrantKey)
    requires key in w.db.grants && key in w'.db.grants
  {
    var g, g' := w.db.grants[key], w'.db.grants[key];
    && g' == g.(status := g'.status, epoch := g'.epoch, fence := g'.fence)
    && g.epoch < g'.epoch
    && (g.status == Revoked ==> g'.status == Revoked)
    && (g'.fence != g.fence ==>
          g'.status == Revoked && g'.fence > g.fence && key in w.marks && g'.epoch > w.marks[key].epoch)
  }

  ghost predicate GrantStep(w: World, w': World, key: GrantKey) {
    if key in w.db.grants then
      key in w'.db.grants
      && (w'.db.grants[key] == w.db.grants[key] || FenceAdvance(w, w', key) || EpochAdvance(w, w', key))
    else
      key in w'.db.grants ==> w'.db.grants[key].epoch == 1 && w'.db.grants[key].fence == 0
  }

  lemma GrantEffect(w: World, op: Op, key: GrantKey)
    ensures GrantStep(w, Exec(w, op).w, key)
  {
    if ChangesAuthority(op) {
      match op
      case NextFence(_, _, _) =>
      case ConsumePermit(_, _) =>
      case ProvisionGrant(_, _, _) =>
      case SetGrantStatus(_, _, _, _) =>
      case Halt(_, _, _, _) =>
      case Resume(_, _) =>
      case RevokeAfterRestore(_, _) =>
      case SetExposureCap(_, _, _, _) =>
    }
  }

  lemma MarkEffect(w: World, op: Op)
    ensures MarksRise(w.marks, Exec(w, op).w.marks)
  {
    if ChangesAuthority(op) {
      match op
      case NextFence(_, _, _) =>
      case ConsumePermit(_, _) =>
      case ProvisionGrant(_, _, _) =>
      case SetGrantStatus(_, _, _, _) =>
      case Halt(_, _, _, _) =>
      case Resume(_, _) =>
      case RevokeAfterRestore(_, _) =>
      case SetExposureCap(_, _, _, _) =>
    }
  }

  // ---- lifecycle over whole histories ----

  ghost predicate Advances(before: GrantRow, after: GrantRow) {
    && after.principal == before.principal && after.limits == before.limits
    && before.epoch <= after.epoch && before.fence <= after.fence
    && (before.status == Revoked ==> after.status == Revoked)
    && (before.status == Active && after.epoch == before.epoch ==> after.status == Active)
  }

  /** Epochs and fences never decrease, REVOKED is absorbing, and a grant leaves ACTIVE only
      together with its epoch. */
  lemma {:induction false} GrantAdvances(w: World, ops: seq<Op>, key: GrantKey)
    requires key in w.db.grants
    ensures key in ExecAll(w, ops).db.grants
    ensures Advances(w.db.grants[key], ExecAll(w, ops).db.grants[key])
    decreases |ops|
  {
    if ops != [] {
      GrantEffect(w, ops[0], key);
      GrantAdvances(Exec(w, ops[0]).w, ops[1..], key);
    }
  }

  /** Committed pause, revocation, halt or post-restore closure of the grant version. */
  ghost predicate Stops(w: World, op: Op, key: GrantKey) {
    && key in w.db.grants
    && Exec(w, op).result == Done
    && match op
       case SetGrantStatus(k, _, status, _) => k == key && status != Active
       case Halt(scope, _, _, _) => InScope(scope, w.db.grants[key].principal)
       case RevokeAfterRestore(k, _) => k == key
       case _ => false
  }

  lemma StopLeavesEpoch(w: World, op: Op, key: GrantKey, e: nat)
    requires Stops(w, op, key)
    requires e < w.db.grants[key].epoch || (e == w.db.grants[key].epoch && w.db.grants[key].status == Active)
    ensures key in Exec(w, op).w.db.grants && e < Exec(w, op).w.db.grants[key].epoch
  {
  }

  lemma ConsumeNeedsEpoch(w: World, op: Op)
    requires op.ConsumePermit? && Exec(w, op).result == Done
    ensures op.permit.grant in w.db.grants && w.db.grants[op.permit.grant].epoch == op.permit.epoch
  {
  }

  lemma IssueReadsEpoch(w: World, op: Op)
    requires op.NextFence? && Exec(w, op).result.Fence?
    ensures op.key in w.db.grants && w.db.grants[op.key].status == Active
    ensures Exec(w, op).result == Fence(w.db.grants[op.key].epoch, w.db.grants[op.key].fence + 1)
    ensures Exec(w, op).w.db.grants[op.key] == w.db.grants[op.key].(fence := w.db.grants[op.key].fence + 1)
  {
  }

  /** The revocation fence: once a stop has committed, no permit whose fence was allocated before it
      is ever consumed, whatever else happens before, in between and after. */
  lemma IssuedBeforeStopIsDead(w: World, issue: Op, before: seq<Op>, stop: Op, after: seq<Op>, consume: Op)
    requires issue.NextFence? && Exec(w, issue).result.Fence?
    requires Stops(ExecAll(Exec(w, issue).w, before), stop, issue.key)
    requires consume.ConsumePermit? && consume.permit.grant == issue.key
      && consume.permit.epoch == Exec(w, issue).result.epoch
    ensures Exec(ExecAll(Exec(ExecAll(Exec(w, issue).w, before), stop).w, after), consume).result != Done
  {
    IssueReadsEpoch(w, issue);
    var w1 := Exec(w, issue).w;
    GrantAdvances(w1, before, issue.key);
    var w2 := ExecAll(w1, before);
    StopLeavesEpoch(w2, stop, issue.key, consume.permit.epoch);
    var w3 := Exec(w2, stop).w;
    GrantAdvances(w3, after, issue.key);
    if Exec(ExecAll(w3, after), consume).result == Done {
      ConsumeNeedsEpoch(ExecAll(w3, after), consume);
    }
  }

  // ---- the permit ledger ----

  ghost predicate PermitAdvances(before: PermitRow, after: PermitRow) {
    && after == before.(consumed := after.consumed, voided := after.voided)
    && (before.consumed ==> after == before)
    && (before.voided ==> after == before)
    && !(after.consumed && after.voided && !(before.consumed && before.voided))
  }

  /** Rows are appended and never rewritten; a live row becomes consumed or voided, once. */
  ghost predicate LedgerAdvances(before: seq<PermitRow>, after: seq<PermitRow>) {
    && |before| <= |after|
    && forall k :: 0 <= k < |before| ==> PermitAdvances(before[k], after[k])
  }

  lemma PermitEffect(w: World, op: Op)
    ensures LedgerAdvances(w.db.permits, Exec(w, op).w.db.permits)
    ensures !op.RecordPermit? ==> |Exec(w, op).w.db.permits| == |w.db.permits|
  {
    if op.ConsumePermit? {
      assert Exec(w, op) == DoConsume(w, op);
    } else if op.RecordPermit? {
      assert Exec(w, op) == DoRecord(w, op);
    } else if op.VoidPermits? {
      assert Exec(w, op).w.db.permits == VoidedLedger(w.db.permits, op.id);
    }
  }

  lemma {:induction false} PermitsAdvance(w: World, ops: seq<Op>)
    ensures LedgerAdvances(w.db.permits, ExecAll(w, ops).db.permits)
    decreases |ops|
  {
    if ops != [] {
      PermitEffect(w, ops[0]);
      PermitsAdvance(Exec(w, ops[0]).w, ops[1..]);
    }
  }

  lemma {:induction false} RowFound(permits: seq<PermitRow>, k: nat)
    requires k < |permits|
    requires forall j :: 0 <= j < k ==> permits[j].id != permits[k].id
    ensures RowOf(permits, permits[k].id) == k
  {
    if k > 0 {
      RowFound(permits[1..], k - 1);
    }
  }

  /** Consumption succeeds at most once per permit id, and never after the permit was voided. */
  lemma ConsumedAtMostOnce(w: World, first: Op, between: seq<Op>, second: Op)
    requires first.ConsumePermit? && Exec(w, first).result == Done
    requires second.ConsumePermit? && second.permit.id == first.permit.id
    ensures Exec(ExecAll(Exec(w, first).w, between), second).result != Done
  {
    var k := RowOf(w.db.permits, first.permit.id);
    var w1 := Exec(w, first).w;
    var w2 := ExecAll(w1, between);
    PermitsAdvance(w1, between);
    assert w1.db.permits[k].consumed;
    assert PermitAdvances(w1.db.permits[k], w2.db.permits[k]);
    forall j | 0 <= j < k ensures w2.db.permits[j].id != first.permit.id {
      assert PermitAdvances(w1.db.permits[j], w2.db.permits[j]);
    }
    RowFound(w2.db.permits, k);
  }

  lemma VoidedNeverConsumed(w: World, id: IntentId, between: seq<Op>, consume: Op)
    requires consume.ConsumePermit?
    requires RowOf(w.db.permits, consume.permit.id) < |w.db.permits|
    requires w.db.permits[RowOf(w.db.permits, consume.permit.id)].intent == id
    ensures Exec(ExecAll(Exec(w, VoidPermits(id)).w, between), consume).result != Done
  {
    var k := RowOf(w.db.permits, consume.permit.id);
    var w1 := Exec(w, VoidPermits(id)).w;
    var w2 := ExecAll(w1, between);
    assert w1.db.permits == VoidedLedger(w.db.permits, id);
    PermitsAdvance(w1, between);
    assert PermitAdvances(w1.db.permits[k], w2.db.permits[k]);
    forall j | 0 <= j < k ensures w2.db.permits[j].id != consume.permit.id {
      assert PermitAdvances(w1.db.permits[j], w2.db.permits[j]);
    }
    RowFound(w2.db.permits, k);
  }
}
