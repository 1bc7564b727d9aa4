/** Every store transaction once more, in the tables' own terms: exactly when it is granted, and all it
    leaves behind. */
module Laws {
  import opened Types
  import opened StoreOps
  import opened Ledger

  // ---- time ----

  /** Stamps are whole seconds, truncated toward zero. */
  lemma StampTruncates(now: int)
    ensures now >= 0 ==> Seconds(now) * 1_000_000 <= now < (Seconds(now) + 1) * 1_000_000
    ensures now < 0 ==> (Seconds(now) - 1) * 1_000_000 < now <= Seconds(now) * 1_000_000
  {
  }

  // ---- intents ----

  /** An intent id is bound to one payload: the same one registers again without a trace, any other is
      refused. */
  lemma Registration(w: World, intent: Intent)
    ensures var o := Exec(w, Register(intent));
      if intent.id !in w.db.intents then
        o == Outcome(w.(db := w.db.(intents := w.db.intents[intent.id :=
                       IntentRow(intent, Proposed, None, [], 0, None, None)])), Done)
      else
        o == Outcome(w, if w.db.intents[intent.id].intent == intent then Done else Refused)
  {
  }

  /** The state machine of an intent. */
  lemma TransitionTable(from: IntentState, to: IntentState)
    ensures Allowed(from, to) <==> (from, to) in {
      (Proposed, Denied), (Proposed, Deferred), (Proposed, Stopped), (Proposed, Authorized),
      (Authorized, Reserved), (Authorized, Stopped),
      (Reserved, Submitted), (Reserved, Reconciling), (Reserved, Stopped),
      (Submitted, Confirmed), (Submitted, Unknown), (Submitted, Reconciling), (Submitted, Stopped),
      (Submitted, FailedSafe), (Unknown, Reconciling), (Unknown, Stopped),
      (Reconciling, Submitted), (Reconciling, Confirmed), (Reconciling, Finalized), (Reconciling, FailedSafe),
      (Reconciling, Stopped), (Reconciling, Unknown),
      (Confirmed, Finalized), (Confirmed, Reconciling), (Confirmed, Stopped)}
  {
  }

  /** The effect a row would carry is recorded for another intent at the same venue. */
  predicate OwnedElsewhere(intents: map<IntentId, IntentRow>, id: IntentId, effect: Option<EffectId>)
    requires id in intents
  {
    effect.Some?
    && exists j :: j in intents && j != id && intents[j].intent.venue == intents[id].intent.venue
                   && intents[j].effect == effect
  }

  function SettledUsage(usage: map<IntentId, UsageRow>, id: IntentId, budget: Budget): map<IntentId, UsageRow> {
    map i | i in usage ::
      if i == id && usage[i].status == Held && budget == Release then usage[i].(status := Released)
      else if i == id && usage[i].status == Held && budget == Commit then usage[i].(status := Committed)
      else usage[i]
  }

  /** Compare-and-set: row and reservation move together, or nothing does. */
  lemma Transitions(w: World, op: Op)
    requires op.Transition?
    ensures var o := Exec(w, op);
      if (op.filled.Some? && op.filled.value < 0) || op.id !in w.db.intents then o == Outcome(w, Refused)
      else
        var row := w.db.intents[op.id];
        var effect := if op.effect.Some? then op.effect else row.effect;
        if row.state !in op.expected then o == Outcome(w, NotExpected)
        else if !Allowed(row.state, op.to) then o == Outcome(w, Refused)
        else if OwnedElsewhere(w.db.intents, op.id, effect) then o == Outcome(w, EffectConflict)
        else
          && o.result == Done
          && o.w == w.(db := w.db.(intents := o.w.db.intents, usage := SettledUsage(w.db.usage, op.id, op.budget)))
          && o.w.db.intents.Keys == w.db.intents.Keys
          && (forall j :: j in w.db.intents && j != op.id ==> o.w.db.intents[j] == w.db.intents[j])
          && var row' := o.w.db.intents[op.id];
             && row'.state == op.to && row'.effect == effect && row'.reasons == op.reasons
             && row'.intent == row.intent && row'.submissions == row.submissions
             && row'.ambiguityUntil == (if op.ambiguity.Some? then op.ambiguity else row.ambiguityUntil)
             && row'.filled == (if op.filled.Some? then op.filled else row.filled)
  {
    assert Exec(w, op) == DoTransition(w, op);
    assert Settle(w.db.usage, op.id, op.budget) == SettledUsage(w.db.usage, op.id, op.budget);
  }

  // ---- attempts ----

  /** A venue attempt under the grant id by the principal, or from before principals were recorded. */
  predicate IsAttempt(a: AttemptRow, grantId: string, principal: PrincipalId, since: int) {
    a.grant.grantId == grantId && (a.principal == principal || a.principal == "legacy:unknown") && a.stamp >= since
  }

  function AttemptRows(attempts: seq<AttemptRow>, grantId: string, principal: PrincipalId, since: int): set<nat> {
    set k: nat | k < |attempts| && IsAttempt(attempts[k], grantId, principal, since)
  }

  /** Reservations that have not been submitted and hold a slot. */
  function SlotRows(usage: map<IntentId, UsageRow>, grantId: string, principal: PrincipalId, since: int)
    : set<IntentId>
  {
    set i | i in usage && InBook(usage[i], ByGrant(grantId, principal)) && !usage[i].submitted
            && usage[i].stamp >= since
  }

  lemma AttemptRowsGrow(attempts: seq<AttemptRow>, grantId: string, principal: PrincipalId, since: int)
    requires attempts != []
    ensures var n := |attempts| - 1;
      |AttemptRows(attempts, grantId, principal, since)| ==
        |AttemptRows(attempts[..n], grantId, principal, since)|
        + if IsAttempt(attempts[n], grantId, principal, since) then 1 else 0
  {
    hide IsAttempt;
    var n := |attempts| - 1;
    assert AttemptRows(attempts, grantId, principal, since) ==
      AttemptRows(attempts[..n], grantId, principal, since)
      + if IsAttempt(attempts[n], grantId, principal, since) then {n} else {};
  }

  lemma {:induction false} AttemptsCounted(attempts: seq<AttemptRow>, grantId: string, principal: PrincipalId,
                                           since: int)
    ensures AttemptsSince(attempts, grantId, principal, since) == |AttemptRows(attempts, grantId, principal, since)|
    decreases |attempts|
  {
    if attempts == [] {
      assert AttemptRows(attempts, grantId, principal, since) == {};
    } else {
      hide AttemptRows;
      AttemptsCounted(attempts[..|attempts| - 1], grantId, principal, since);
      AttemptRowsGrow(attempts, grantId, principal, since);
    }
  }

  /** Slots used in the trailing window, the intent's own pending slot left out. */
  function SlotsTaken(db: Db, grantId: string, principal: PrincipalId, since: int, own: set<IntentId>): nat {
    |AttemptRows(db.attempts, grantId, principal, since)| + |SlotRows(db.usage, grantId, principal, since) - own|
  }

  lemma SlotsCounted(db: Db, grantId: string, principal: PrincipalId, since: int, own: Option<IntentId>)
    ensures VelocityCount(db, grantId, principal, since, own)
      == SlotsTaken(db, grantId, principal, since, if own.Some? then {own.value} else {})
  {
    AttemptsCounted(db.attempts, grantId, principal, since);
    assert PendingSince(db.usage, grantId, principal, since, own)
      == SlotRows(db.usage, grantId, principal, since) - if own.Some? then {own.value} else {};
  }

  lemma BeginIs(w: World, op: Op)
    requires op.BeginSubmission?
    ensures Exec(w, op) == DoBegin(w, op)
  {
  }

  /** A submission begins from RESERVED or RECONCILING, below the attempt limit, and with a slot free under
      the limit the reservation was made with. */
  lemma Submissions(w: World, op: Op)
    requires op.BeginSubmission?
    ensures var o := Exec(w, op);
      if op.id !in w.db.intents then o == Outcome(w, Refused)
      else
        var row := w.db.intents[op.id];
        if row.state !in op.expected then o == Outcome(w, NotExpected)
        else if row.submissions >= op.maxAttempts then o == Outcome(w, AttemptLimit)
        else if op.id !in w.db.usage then o == Outcome(w, Refused)
        else
          var u := w.db.usage[op.id];
          if u.maxActions.Some? && (u.actionWindow.None? || u.actionWindow.value == 0) then o == Outcome(w, Refused)
          else if u.maxActions.Some?
                  && SlotsTaken(w.db, u.grant.grantId, u.principal, Seconds(op.now) - u.actionWindow.value, {op.id})
                     >= u.maxActions.value
            then o == Outcome(w, VelocityLimit)
          else if row.state != Reserved && row.state != Reconciling then o == Outcome(w, Refused)
          else
            && o.result == Started(row.submissions + 1)
            && o.w == w.(db := w.db.(
                 intents := w.db.intents[op.id := row.(state := Submitted, submissions := row.submissions + 1,
                                                       reasons := [], ambiguityUntil := None)],
                 usage := w.db.usage[op.id := u.(submitted := true)],
                 attempts := w.db.attempts
                   + [AttemptRow(op.id, row.submissions + 1, u.principal, u.grant, Seconds(op.now))]))
  {
    hide Exec, VelocityCount, SlotsTaken;
    BeginIs(w, op);
    if op.id in w.db.usage && w.db.usage[op.id].actionWindow.Some? {
      var u := w.db.usage[op.id];
      SlotsCounted(w.db, u.grant.grantId, u.principal, Seconds(op.now) - u.actionWindow.value, Some(op.id));
    }
  }

  // ---- reservations and risk states ----

  /** A fresher version of the same risk state is claimed. */
  ghost predicate Fresher(claims: map<RiskKey, IntentId>, k: RiskKey) {
    exists v: int :: v > k.stateVersion && RiskKey(k.grant, k.scope, v) in claims
  }

  lemma FresherSupersedes(claims: map<RiskKey, IntentId>, k: RiskKey)
    ensures Superseded(claims, k) <==> Fresher(claims, k)
  {
    if Superseded(claims, k) {
      var c :| c in claims && c.grant == k.grant && c.scope == k.scope && k.stateVersion < c.stateVersion;
      assert RiskKey(k.grant, k.scope, c.stateVersion) in claims;
    }
  }

  ghost predicate WithinTurnover(db: Db, grant: Grant, stamp: int, amount: int) {
    grant.limits.maxDailyTurnover.Some? ==>
      SumOf(db.usage, Trailing(db.usage, ByGrant(grant.key.grantId, grant.principal), stamp - 86_400)) + amount
      <= grant.limits.maxDailyTurnover.value
  }

  ghost predicate WithinCap(db: Db, scope: Scope, stamp: int, amount: int) {
    scope in db.caps ==>
      && db.caps[scope] > 0
      && (amount == 0 || SumOf(db.usage, Trailing(db.usage, ByScope(scope), stamp - 86_400)) + amount <= db.caps[scope])
  }

  /** The caps are known to be the ones last set. */
  predicate CapsCurrent(w: World, view: AnchorView) {
    var key := GrantKey("__exposure_caps__", 0);
    view.Anchor? ==>
      && view.readable
      && (key in w.marks ==>
            w.marks[key].epoch < w.db.capsVersion
            || (w.marks[key].epoch == w.db.capsVersion && w.marks[key].fence == 0))
  }

  predicate SlotFree(db: Db, grant: Grant, stamp: int) {
    grant.limits.maxActions.Some? && grant.limits.actionWindow.Some? && grant.limits.actionWindow.value > 0 ==>
      SlotsTaken(db, grant.key.grantId, grant.principal, stamp - grant.limits.actionWindow.value, {})
      < grant.limits.maxActions.value
  }

  ghost predicate RiskUnclaimed(db: Db, k: RiskKey, id: IntentId) {
    && k !in db.riskClaims
    && (forall c :: c in db.riskClaims ==> db.riskClaims[c] != id)
    && (k in db.permitClaims ==> db.permitClaims[k] == id)
    && !Fresher(db.riskClaims, k) && !Fresher(db.permitClaims, k)
  }

  ghost predicate Affordable(w: World, op: Op, amount: int)
    requires op.ReserveUsage?
  {
    && WithinTurnover(w.db, op.grant, Seconds(op.now), amount)
    && (amount > 0 ==> CapsCurrent(w, op.view))
    && WithinCap(w.db, Global, Seconds(op.now), amount)
    && WithinCap(w.db, Of(op.intent.principal), Seconds(op.now), amount)
    && SlotFree(w.db, op.grant, Seconds(op.now))
  }

  lemma AdmittedIff(w: World, op: Op, amount: int)
    requires op.ReserveUsage? && Books(op.intent, amount)
    ensures ReservationAdmitted(w, op) <==>
      RiskUnclaimed(w.db, RiskKey(op.grant.key, op.risk.scope, op.risk.stateVersion), op.intent.id)
      && Affordable(w, op, amount)
  {
    var k, stamp := RiskKey(op.grant.key, op.risk.scope, op.risk.stateVersion), Seconds(op.now);
    FresherSupersedes(w.db.riskClaims, k);
    FresherSupersedes(w.db.permitClaims, k);
    TrailingRows(w.db.usage, op.grant.key.grantId, op.grant.principal, stamp);
    TrailingScopeRows(w.db.usage, Global, stamp);
    TrailingScopeRows(w.db.usage, Of(op.intent.principal), stamp);
    if op.grant.limits.actionWindow.Some? {
      SlotsCounted(w.db, op.grant.key.grantId, op.grant.principal, stamp - op.grant.limits.actionWindow.value, None);
    }
    ClaimOwner(w.db.riskClaims, op.intent.id);
    hide Superseded, Fresher, Trailing, TrailingUsage, TrailingScope, VelocityCount, SlotsTaken, SumOf;
  }

  lemma ClaimOwner(claims: map<RiskKey, IntentId>, id: IntentId)
    ensures id in claims.Values <==> exists c :: c in claims && claims[c] == id
  {
  }

  /** A reservation is made once per intent: granted exactly when the risk state is free and every limit
      holds with it, and then booked with its claim in one step. */
  lemma Reservations(w: World, op: Op, amount: int)
    requires op.ReserveUsage? && Books(op.intent, amount)
    ensures var o, id := Exec(w, op), op.intent.id;
      var k := RiskKey(op.grant.key, op.risk.scope, op.risk.stateVersion);
      if id in w.db.usage then
        o == Outcome(w, if w.db.usage[id].principal == op.intent.principal then Done else Refused)
      else if RiskUnclaimed(w.db, k, id) && Affordable(w, op, amount) then
        o == Outcome(w.(db := w.db.(
               riskClaims := w.db.riskClaims[k := id],
               usage := w.db.usage[id := UsageRow(op.intent.principal, op.grant.key, Seconds(op.now),
                                                  op.grant.limits.maxActions, op.grant.limits.actionWindow,
                                                  amount, Held, false)])), Done)
      else o == Outcome(w, Refused)
  {
    assert Exec(w, op) == DoReserve(w, op);
    AdmittedIff(w, op, amount);
    hide ReservationAdmitted, RiskUnclaimed, Affordable;
  }

  /** Without a valid amount nothing is reserved. */
  lemma UnpricedReservations(w: World, op: Op)
    requires op.ReserveUsage? && forall amount :: !Books(op.intent, amount)
    ensures Exec(w, op) == Outcome(w, Refused)
  {
    assert Exec(w, op) == DoReserve(w, op);
    assert !Books(op.intent, 0);
    assert op.intent.amount.Some? ==> !Books(op.intent, op.intent.amount.value);
  }

  /** A permit is minted from a risk state only for the intent whose reservation is held, only if no other
      intent minted from it, and only if nothing fresher is claimed in either ledger. */
  lemma PermitClaims(w: World, op: Op)
    requires op.ClaimPermitRisk?
    ensures var o, id := Exec(w, op), op.intent.id;
      var k := RiskKey(op.grant.key, op.risk.scope, op.risk.stateVersion);
      if !(id in w.db.usage && w.db.usage[id].status == Held && w.db.usage[id].grant == op.grant.key
           && w.db.usage[id].principal == op.intent.principal && op.intent.principal == op.grant.principal)
        then o == Outcome(w, Refused)
      else if k in w.db.permitClaims then
        o == Outcome(w, if w.db.permitClaims[k] == id then Done else Refused)
      else if Fresher(w.db.riskClaims, k) || Fresher(w.db.permitClaims, k) then o == Outcome(w, Refused)
      else o == Outcome(w.(db := w.db.(permitClaims := w.db.permitClaims[k := id])), Done)
  {
    var k := RiskKey(op.grant.key, op.risk.scope, op.risk.stateVersion);
    assert Exec(w, op) == DoClaimPermitRisk(w, op);
    FresherSupersedes(w.db.riskClaims, k);
    FresherSupersedes(w.db.permitClaims, k);
  }

  // ---- permits ----

  /** A permit is recorded unless an earlier one of its intent may still be honoured, or its id or fence was
      used before; the window of its intent then closes when it expires. */
  lemma Recordings(w: World, op: Op)
    requires op.RecordPermit?
    ensures var o, p, permits := Exec(w, op), op.permit, w.db.permits;
      if exists k :: 0 <= k < |permits| && permits[k].intent == p.intent && !permits[k].consumed
                     && !permits[k].voided && op.now < permits[k].expiresAt + op.skew
        then o == Outcome(w, PreviousPermitLive)
      else if exists k :: 0 <= k < |permits|
                          && (permits[k].id == p.id || (permits[k].grant == p.grant && permits[k].fence == p.fence))
        then o == Outcome(w, Refused)
      else
        && o.result == Recorded(|permits|)
        && o.w == w.(db := w.db.(permits := o.w.db.permits, intents := o.w.db.intents))
        && o.w.db.permits == permits + [PermitRow(p.id, p.intent, p.principal, p.grant, p.epoch, p.fence,
                                                  p.expiresAt, false, false)]
        && o.w.db.intents == (if p.intent in w.db.intents then
                                w.db.intents[p.intent := w.db.intents[p.intent].(ambiguityUntil := Some(p.expiresAt))]
                              else w.db.intents)
  {
    assert Exec(w, op) == DoRecord(w, op);
    var permits, p := w.db.permits, op.permit;
    assert (exists k :: 0 <= k < |permits| && LiveAt(permits[k], p.intent, op.skew, op.now)) <==>
      exists k :: 0 <= k < |permits| && permits[k].intent == p.intent && !permits[k].consumed
                  && !permits[k].voided && op.now < permits[k].expiresAt + op.skew;
    assert (exists k :: 0 <= k < |permits| && Collides(permits[k], p)) <==>
      exists k :: 0 <= k < |permits|
                  && (permits[k].id == p.id || (permits[k].grant == p.grant && permits[k].fence == p.fence));
  }

  /** Voiding touches exactly the permits of the intent that are neither consumed nor voided. */
  lemma Voidings(w: World, id: IntentId)
    ensures var o := Exec(w, VoidPermits(id));
      && o.result == Done && o.w == w.(db := w.db.(permits := o.w.db.permits))
      && |o.w.db.permits| == |w.db.permits|
      && forall k :: 0 <= k < |w.db.permits| ==>
           var p := w.db.permits[k];
           o.w.db.permits[k] == if p.intent == id && !p.consumed && !p.voided then p.(voided := true) else p
  {
  }

  // ---- authority ----

  /** The scope of everything, or of this principal, is halted. */
  predicate UnderHalt(db: Db, principal: PrincipalId) {
    Global in db.halted || Of(principal) in db.halted
  }

  /** The anchor is there as required, answers, takes writes, and is not ahead of the row. */
  predicate Anchored(w: World, view: AnchorView, key: GrantKey)
    requires key in w.db.grants
  {
    match view
    case NoAnchor => !w.db.anchorRequired
    case Anchor(readable, writable) =>
      && readable && writable
      && (key in w.marks ==>
            w.marks[key].epoch < w.db.grants[key].epoch
            || (w.marks[key].epoch == w.db.grants[key].epoch && w.marks[key].fence <= w.db.grants[key].fence))
  }

  predicate InForce(w: World, key: GrantKey, principal: PrincipalId, view: AnchorView) {
    && key in w.db.grants && w.db.grants[key].principal == principal && w.db.grants[key].status == Active
    && !UnderHalt(w.db, principal) && Anchored(w, view, key)
  }

  /** The fence counter of the version is one higher and, with an anchor, the mark is there too. */
  function Counted(w: World, key: GrantKey, view: AnchorView): World
    requires key in w.db.grants
  {
    var g := w.db.grants[key];
    World(w.db.(grants := w.db.grants[key := g.(fence := g.fence + 1)]),
          if view.NoAnchor? then w.marks else w.marks[key := Mark(g.epoch, g.fence + 1)])
  }

  lemma Allocations(w: World, op: Op)
    requires op.NextFence?
    ensures Exec(w, op) ==
      if InForce(w, op.key, op.principal, op.view) then
        Outcome(Counted(w, op.key, op.view), Fence(w.db.grants[op.key].epoch, w.db.grants[op.key].fence + 1))
      else Outcome(w, Refused)
  {
    assert Exec(w, op) == DoNextFence(w, op);
  }

  /** The first row under the permit's id is the presented permit, unused, not voided, the newest of its
      intent, and of the epoch its grant is in. */
  predicate Presentable(w: World, p: IssuedPermit, k: nat) {
    && k < |w.db.permits| && w.db.permits[k].id == p.id
    && (forall j :: 0 <= j < k ==> w.db.permits[j].id != p.id)
    && var row := w.db.permits[k];
       && row.principal == p.principal && row.grant == p.grant && row.epoch == p.epoch && row.fence == p.fence
       && !row.consumed && !row.voided
       && (forall j :: k < j < |w.db.permits| ==> w.db.permits[j].intent != row.intent)
       && p.grant in w.db.grants && w.db.grants[p.grant].epoch == p.epoch
  }

  /** A permit is consumed exactly when it is presentable and its grant version is in force; it is then
      marked, and counted as an event of its version. */
  lemma Consumptions(w: World, op: Op)
    requires op.ConsumePermit?
    ensures var o, p := Exec(w, op), op.permit;
      && (o.result == Done <==> InForce(w, p.grant, p.principal, op.view) && exists k: nat :: Presentable(w, p, k))
      && (o.result != Done ==> o == Outcome(w, Refused))
      && (o.result == Done ==> forall k: nat :: Presentable(w, p, k) ==>
            var counted := Counted(w, p.grant, op.view);
            o.w == counted.(db := counted.db.(permits := w.db.permits[k := w.db.permits[k].(consumed := true)])))
  {
    var p, k := op.permit, RowOf(w.db.permits, op.permit.id);
    assert Exec(w, op) == DoConsume(w, op);
    assert forall j: nat :: Presentable(w, p, j) ==> j == k;
    if Consumable(w, k, p, op.view) {
      assert Presentable(w, p, k);
    }
  }

  /** A new grant version starts at epoch 1 without fences; the same envelope provisions again without a
      trace. */
  lemma Provisionings(w: World, op: Op)
    requires op.ProvisionGrant?
    ensures var o, key := Exec(w, op), op.grant.key;
      if w.db.anchorRequired && op.view.NoAnchor? then o == Outcome(w, Refused)
      else if key in w.db.grants then
        o == Outcome(w, if w.db.grants[key].principal == op.grant.principal
                           && w.db.grants[key].limits == op.grant.limits then Done else Refused)
      else if op.view.Anchor? && !op.view.writable then o == Outcome(w, Refused)
      else
        && o.result == Done
        && o.w.db == w.db.(grants := w.db.grants[key := GrantRow(op.grant.principal, op.grant.limits, op.status, 1, 0)])
        && o.w.marks == (if op.view.NoAnchor? then w.marks else Kept(w.marks, key, Mark(1, 0)))
  {
    assert Exec(w, op) == DoProvision(w, op);
  }

  /** The marks with one of them at `m` or where it was, whichever is higher. */
  function Kept(marks: map<GrantKey, Mark>, key: GrantKey, m: Mark): map<GrantKey, Mark> {
    if key in marks && (marks[key].epoch > m.epoch || (marks[key].epoch == m.epoch && marks[key].fence > m.fence))
    then marks else marks[key := m]
  }

  lemma KeptIsRaised(marks: map<GrantKey, Mark>, key: GrantKey, m: Mark)
    ensures Raise(marks, key, m) == Kept(marks, key, m)
  {
    assert key in marks ==> marks[key := marks[key]] == marks;
  }

  /** The anchor answers and is ahead of the row. */
  predicate KnownBehind(w: World, view: AnchorView, key: GrantKey)
    requires key in w.db.grants
  {
    && view.Anchor? && view.readable && key in w.marks
    && (w.db.grants[key].epoch < w.marks[key].epoch
        || (w.db.grants[key].epoch == w.marks[key].epoch && w.db.grants[key].fence < w.marks[key].fence))
  }

  /** A change of status is a new epoch. It is refused for another principal's version, for one known to
      be behind its mark, and out of REVOKED; towards ACTIVE it needs the anchor in both directions, towards
      a stop in none. */
  lemma StatusChanges(w: World, op: Op)
    requires op.SetGrantStatus?
    ensures var o, key, view := Exec(w, op), op.key, op.view;
      if (w.db.anchorRequired && view.NoAnchor?) || key !in w.db.grants || w.db.grants[key].principal != op.principal
        then o == Outcome(w, Refused)
      else
        var g := w.db.grants[key];
        var changed := g.status != op.status;
        var g' := if changed then g.(status := op.status, epoch := g.epoch + 1) else g;
        if KnownBehind(w, view, key) || (g.status == Revoked && op.status != Revoked)
           || (op.status == Active && view.Anchor? && (!view.readable || (changed && !view.writable)))
          then o == Outcome(w, Refused)
        else
          && o.result == Done && o.w.db == w.db.(grants := w.db.grants[key := g'])
          && o.w.marks == if view.NoAnchor? || !view.writable || (op.status == Active && !changed) then w.marks
                          else Kept(w.marks, key, Mark(g'.epoch, g'.fence))
  {
    assert Exec(w, op) == DoSetStatus(w, op);
    hide Raise;
    if op.key in w.db.grants {
      var g := w.db.grants[op.key];
      assert w.db.grants[op.key := g] == w.db.grants;
      KeptIsRaised(w.marks, op.key, RowMark(g));
      KeptIsRaised(w.marks, op.key, RowMark(g.(status := op.status, epoch := g.epoch + 1)));
    }
  }

  /** A halt advances the epoch of every version in its scope, and only of those; the anchor learns of the
      rows it took. */
  lemma Halts(w: World, op: Op)
    requires op.Halt?
    ensures var o := Exec(w, op);
      if (w.db.anchorRequired && op.view.NoAnchor?)
         || (!op.allowUnprovisioned && op.scope.Of?
             && forall k :: k in w.db.grants ==> w.db.grants[k].principal != op.scope.principal)
        then o == Outcome(w, Refused)
      else
        && o.result == Done
        && o.w.db == w.db.(halted := w.db.halted + {op.scope}, grants := o.w.db.grants)
        && o.w.db.grants.Keys == w.db.grants.Keys
        && (forall k :: k in w.db.grants ==>
              var g := w.db.grants[k];
              o.w.db.grants[k] ==
                if op.scope.Global? || g.principal == op.scope.principal then g.(epoch := g.epoch + 1) else g)
        && (!(op.view.Anchor? && op.view.writable) ==> o.w.marks == w.marks)
        && (op.view.Anchor? && op.view.writable ==> forall k ::
              if k in op.reached && k in w.db.grants
                 && (op.scope.Global? || w.db.grants[k].principal == op.scope.principal)
              then k in o.w.marks
                   && o.w.marks[k] == Kept(w.marks, k, Mark(o.w.db.grants[k].epoch, o.w.db.grants[k].fence))[k]
              else (k in o.w.marks <==> k in w.marks) && (k in w.marks ==> o.w.marks[k] == w.marks[k]))
  {
    assert Exec(w, op) == DoHalt(w, op);
    assert ScopeProvisioned(w.db, op.scope) <==>
      op.scope.Global? || exists k :: k in w.db.grants && w.db.grants[k].principal == op.scope.principal;
  }

  /** Resuming one scope lifts that halt and no other. */
  lemma Resumptions(w: World, op: Op)
    requires op.Resume?
    ensures Exec(w, op) ==
      if (w.db.anchorRequired && op.view.NoAnchor?) || op.scope !in w.db.halted then Outcome(w, Refused)
      else Outcome(w.(db := w.db.(halted := w.db.halted - {op.scope})), Done)
    ensures forall principal: PrincipalId ::
      UnderHalt(w.db, principal) && op.scope != Global && op.scope != Of(principal) ==>
        UnderHalt(Exec(w, op).w.db, principal)
    ensures forall principal: PrincipalId ::
      Of(principal) in w.db.halted && op.scope == Global ==> UnderHalt(Exec(w, op).w.db, principal)
    ensures forall principal: PrincipalId ::
      Global in w.db.halted && op.scope == Of(principal) ==> UnderHalt(Exec(w, op).w.db, principal)
  {
    assert Exec(w, op) == DoResume(w, op);
  }

  /** While a version is paused, revoked or halted it issues and consumes nothing. */
  lemma StoppedIssuesNothing(w: World, op: Op, key: GrantKey)
    requires key in w.db.grants
    requires w.db.grants[key].status != Active || Global in w.db.halted || Of(w.db.grants[key].principal) in w.db.halted
    ensures op.NextFence? && op.key == key ==> Exec(w, op) == Outcome(w, Refused)
    ensures op.ConsumePermit? && op.permit.grant == key ==> Exec(w, op) == Outcome(w, Refused)
  {
    if op.NextFence? {
      Allocations(w, op);
    } else if op.ConsumePermit? {
      Consumptions(w, op);
    }
  }

  function Larger(a: nat, b: nat): nat {
    if a > b then a else b
  }

  /** The closure after a restore: revoked, one epoch past row and mark, no fence below either. */
  lemma Closures(w: World, op: Op)
    requires op.RevokeAfterRestore?
    ensures var o, key, view := Exec(w, op), op.key, op.view;
      if (w.db.anchorRequired && view.NoAnchor?) || key !in w.db.grants then o == Outcome(w, Refused)
      else
        var g := w.db.grants[key];
        var seen := if view.Anchor? && view.readable && key in w.marks then w.marks[key] else Mark(0, 0);
        var g' := g.(status := Revoked, epoch := Larger(g.epoch, seen.epoch) + 1, fence := Larger(g.fence, seen.fence));
        && o.result == Done && o.w.db == w.db.(grants := w.db.grants[key := g'])
        && o.w.marks == if view.Anchor? && view.readable && view.writable then w.marks[key := Mark(g'.epoch, g'.fence)]
                        else w.marks
  {
    assert Exec(w, op) == DoRevokeAfterRestore(w, op);
  }

  /** A cap change takes effect with a new version past row and mark, so that it cannot be mistaken for an
      older one. It is refused for an amount that is not positive, an unknown scope, a missing or unreadable
      anchor, and, unless it lowers the cap, for an anchor that takes no writes. */
  lemma CapChanges(w: World, op: Op)
    requires op.SetExposureCap?
    ensures var o, view, key := Exec(w, op), op.view, GrantKey("__exposure_caps__", 0);
      var lowers := op.cap.Some? && (op.scope in w.db.caps ==> op.cap.value < w.db.caps[op.scope]);
      if (w.db.anchorRequired && view.NoAnchor?) || (op.cap.Some? && op.cap.value <= 0)
         || (!op.allowUnprovisioned && op.scope.Of?
             && forall k :: k in w.db.grants ==> w.db.grants[k].principal != op.scope.principal)
         || (view.Anchor? && (!view.readable || (!view.writable && !lowers)))
        then o == Outcome(w, Refused)
      else
        var seen := if view.Anchor? && key in w.marks then w.marks[key].epoch else 0;
        var version := Larger(w.db.capsVersion, seen) + 1;
        && o.result == Done
        && o.w.db == w.db.(capsVersion := version,
                           caps := if op.cap.Some? then w.db.caps[op.scope := op.cap.value] else w.db.caps - {op.scope})
        && o.w.marks == if view.Anchor? && view.writable then w.marks[key := Mark(version, 0)] else w.marks
  {
    assert Exec(w, op) == DoSetCap(w, op);
    assert ScopeProvisioned(w.db, op.scope) <==>
      op.scope.Global? || exists k :: k in w.db.grants && w.db.grants[k].principal == op.scope.principal;
  }

  // ---- leases ----

  /** A lease is taken by nobody but its owner while it is held, and dropped by nobody else. */
  lemma Leases(w: World, id: IntentId, owner: Owner)
    ensures Exec(w, TakeLease(id, owner)) ==
      if id in w.db.leases && w.db.leases[id] != owner then Outcome(w, Refused)
      else Outcome(w.(db := w.db.(leases := w.db.leases[id := owner])), Done)
    ensures Exec(w, DropLease(id, owner)) ==
      if id in w.db.leases && w.db.leases[id] == owner then Outcome(w.(db := w.db.(leases := w.db.leases - {id})), Done)
      else Outcome(w, Refused)
  {
  }

  /** Releasing and committing a reservation touch a held one only. */
  lemma UsageSettlements(w: World, id: IntentId)
    ensures Exec(w, ReleaseUsage(id)) == Outcome(w.(db := w.db.(usage := SettledUsage(w.db.usage, id, Release))), Done)
    ensures Exec(w, CommitUsage(id)) == Outcome(w.(db := w.db.(usage := SettledUsage(w.db.usage, id, Commit))), Done)
  {
    assert Settle(w.db.usage, id, Release) == SettledUsage(w.db.usage, id, Release);
    assert Settle(w.db.usage, id, Commit) == SettledUsage(w.db.usage, id, Commit);
  }
}
