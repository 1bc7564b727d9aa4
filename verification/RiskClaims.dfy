/** Ownership of risk-state versions across the reservation ledger and the permit ledger. */
module RiskClaims {
  import opened Types
  import opened StoreOps

  /** Every claim survives with its owner. */
  ghost predicate Kept(before: map<RiskKey, IntentId>, after: map<RiskKey, IntentId>) {
    forall k :: k in before ==> k in after && after[k] == before[k]
  }

  /** `k` is at least as fresh as everything either ledger holds for its grant version and scope. */
  ghost predicate Freshest(db: Db, k: RiskKey) {
    forall c :: (c in db.riskClaims || c in db.permitClaims) && c.grant == k.grant && c.scope == k.scope ==>
      c.stateVersion <= k.stateVersion
  }

  /** Whoever brings an older state version than one already claimed gets neither a reservation nor a
      permit claim. */
  lemma StaleIsRefused(w: World, op: Op)
    requires op.ClaimPermitRisk? || op.ReserveUsage?
    requires op.ClaimPermitRisk? ==> RiskKeyOf(op) !in w.db.permitClaims
    requires op.ReserveUsage? ==> op.intent.id !in w.db.usage
    ensures !Freshest(w.db, RiskKeyOf(op)) ==> Exec(w, op) == Outcome(w, Refused)
  {
    if op.ReserveUsage? {
      assert Exec(w, op) == DoReserve(w, op);
    } else {
      assert Exec(w, op) == DoClaimPermitRisk(w, op);
    }
  }

  lemma ClaimStep(w: World, op: Op)
    ensures var db, db' := w.db, Exec(w, op).w.db;
      && Kept(db.riskClaims, db'.riskClaims)
      && Kept(db.permitClaims, db'.permitClaims)
      && (forall k :: k in db'.riskClaims && k !in db.riskClaims ==>
            Freshest(db, k) && (k in db.permitClaims ==> db.permitClaims[k] == db'.riskClaims[k]))
      && (forall k :: k in db'.permitClaims && k !in db.permitClaims ==> Freshest(db, k))
  {
    if op.ReserveUsage? {
      assert Exec(w, op) == DoReserve(w, op);
    } else if op.ClaimPermitRisk? {
      assert Exec(w, op) == DoClaimPermitRisk(w, op);
    }
  }

  lemma {:induction false} ClaimsKeptAlways(w: World, ops: seq<Op>)
    ensures Kept(w.db.riskClaims, ExecAll(w, ops).db.riskClaims)
    ensures Kept(w.db.permitClaims, ExecAll(w, ops).db.permitClaims)
    decreases |ops|
  {
    if ops != [] {
      ClaimStep(w, ops[0]);
      ClaimsKeptAlways(Exec(w, ops[0]).w, ops[1..]);
    }
  }

  function RiskKeyOf(op: Op): RiskKey
    requires op.ClaimPermitRisk? || op.ReserveUsage?
  {
    RiskKey(op.grant.key, op.risk.scope, op.risk.stateVersion)
  }

  /** A permit may be minted only after this claim succeeded. */
  ghost predicate ClaimSucceeds(w: World, op: Op) {
    op.ClaimPermitRisk? && Exec(w, op).result == Done
  }

  lemma SuccessNamesOwner(w: World, op: Op)
    requires ClaimSucceeds(w, op)
    ensures var c := Exec(w, op).w.db.permitClaims; RiskKeyOf(op) in c && c[RiskKeyOf(op)] == op.intent.id
  {
  }

  /** No two intents ever obtain the same (grant version, scope, state version) for a permit. */
  lemma PermitRiskHasOneOwner(w: World, first: Op, between: seq<Op>, second: Op)
    requires ClaimSucceeds(w, first)
    requires ClaimSucceeds(ExecAll(Exec(w, first).w, between), second)
    requires RiskKeyOf(first) == RiskKeyOf(second)
    ensures first.intent.id == second.intent.id
  {
    SuccessNamesOwner(w, first);
    ClaimsKeptAlways(Exec(w, first).w, between);
  }

  /** A reservation that was not a replay claims the version for its intent alone. */
  ghost predicate ReservesAnew(w: World, op: Op) {
    op.ReserveUsage? && Exec(w, op).result == Done && op.intent.id !in w.db.usage
  }

  /** A version reserved by one intent is never reserved by another, and a version some intent's
      permit was minted from is never reserved by another. */
  lemma ReservedRiskHasOneOwner(w: World, first: Op, between: seq<Op>, second: Op)
    requires ReservesAnew(w, first) || ClaimSucceeds(w, first)
    requires ReservesAnew(ExecAll(Exec(w, first).w, between), second)
    requires RiskKeyOf(first) == RiskKeyOf(second)
    ensures first.ClaimPermitRisk? && first.intent.id == second.intent.id
  {
    if ClaimSucceeds(w, first) {
      SuccessNamesOwner(w, first);
    }
    ClaimsKeptAlways(Exec(w, first).w, between);
  }

  /** The intent's own reservation under this grant version is held. */
  predicate HeldFor(db: Db, op: Op)
    requires op.ClaimPermitRisk?
  {
    && op.intent.id in db.usage
    && db.usage[op.intent.id].status == Held && db.usage[op.intent.id].grant == op.grant.key
    && db.usage[op.intent.id].principal == op.intent.principal && op.intent.principal == op.grant.principal
  }

  /** The permit ledger does not consult the owner in the reservation ledger: a retry may take a
      version another intent reserved and has not yet minted a permit from. */
  lemma LedgersMayNameDifferentOwners(w: World, op: Op)
    requires op.ClaimPermitRisk? && RiskKeyOf(op) !in w.db.permitClaims
    ensures var db' := Exec(w, op).w.db;
      ClaimSucceeds(w, op) && RiskKeyOf(op) in db'.riskClaims
        && db'.riskClaims[RiskKeyOf(op)] != db'.permitClaims[RiskKeyOf(op)]
      <==> HeldFor(w.db, op) && Freshest(w.db, RiskKeyOf(op))
           && RiskKeyOf(op) in w.db.riskClaims && w.db.riskClaims[RiskKeyOf(op)] != op.intent.id
  {
  }
}
