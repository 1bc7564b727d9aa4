/** Every store transaction as a function on the whole durable state. A transaction that
    raises rolls back, so a refusal leaves the state as it was. */
module StoreOps {
  import opened Types

  const TURNOVER_WINDOW_SECONDS := 86_400
  const LEGACY_PRINCIPAL := "legacy:unknown"
  const EXPOSURE_CAPS_KEY := GrantKey("__exposure_caps__", 0)

  datatype Budget = Keep | Release | Commit

  datatype Risk = Risk(scope: string, stateVersion: int)

  /** What a caller sends to the permit ledger when a permit is issued. */
  datatype IssuedPermit = IssuedPermit(
    id: string, intent: IntentId, principal: PrincipalId, grant: GrantKey,
    epoch: nat, fence: nat, expiresAt: int)

  datatype Op =
    | Register(intent: Intent)
    | Transition(id: IntentId, expected: set<IntentState>, to: IntentState, reasons: seq<Reason>,
                 effect: Option<EffectId>, budget: Budget, ambiguity: Option<int>, filled: Option<int>)
    | BeginSubmission(id: IntentId, expected: set<IntentState>, maxAttempts: nat, now: int)
    | ReserveUsage(intent: Intent, grant: Grant, risk: Risk, now: int, view: AnchorView)
    | ReleaseUsage(id: IntentId)
    | CommitUsage(id: IntentId)
    | ClaimPermitRisk(intent: Intent, grant: Grant, risk: Risk)
    | NextFence(key: GrantKey, principal: PrincipalId, view: AnchorView)
    | RecordPermit(permit: IssuedPermit, skew: nat, now: int)
    | ConsumePermit(permit: IssuedPermit, view: AnchorView)
    | VoidPermits(id: IntentId)
    | ProvisionGrant(grant: Grant, status: GrantStatus, view: AnchorView)
    | SetGrantStatus(key: GrantKey, principal: PrincipalId, status: GrantStatus, view: AnchorView)
    | Halt(scope: Scope, allowUnprovisioned: bool, view: AnchorView, reached: set<GrantKey>)
    | Resume(scope: Scope, view: AnchorView)
    | RevokeAfterRestore(key: GrantKey, view: AnchorView)
    | SetExposureCap(scope: Scope, cap: Option<int>, allowUnprovisioned: bool, view: AnchorView)
    | TakeLease(id: IntentId, owner: Owner)
    | DropLease(id: IntentId, owner: Owner)
    | Nothing

  datatype Result =
    | Done
    | Refused
    | NotExpected
    | EffectConflict
    | Started(attempt: nat)
    | AttemptLimit
    | VelocityLimit
    | Fence(epoch: nat, fence: nat)
    | Recorded(row: nat)
    | PreviousPermitLive

  datatype Outcome = Outcome(w: World, result: Result)

  // ---- time, anchor, controls ----

  /** Whole-second stamp: truncation toward zero. */
  function Seconds(now: int): int {
    if now >= 0 then now / 1_000_000 else -((-now) / 1_000_000)
  }

  function Raise(marks: map<GrantKey, Mark>, key: GrantKey, m: Mark): map<GrantKey, Mark> {
    marks[key := if Regressed(marks, key, m) then marks[key] else m]
  }

  predicate Regressed(marks: map<GrantKey, Mark>, key: GrantKey, m: Mark) {
    key in marks && Behind(m, marks[key])
  }

  predicate AnchorMissing(db: Db, view: AnchorView) {
    db.anchorRequired && view.NoAnchor?
  }

  predicate Writable(view: AnchorView) {
    view.Anchor? && view.writable
  }

  /** The row may be used for authority: the anchor, when there is one, answers and is not ahead. */
  predicate AnchorPermits(w: World, view: AnchorView, key: GrantKey)
    requires key in w.db.grants
  {
    match view
    case NoAnchor => !w.db.anchorRequired
    case Anchor(readable, _) => readable && !Regressed(w.marks, key, RowMark(w.db.grants[key]))
  }

  function RecordMark(marks: map<GrantKey, Mark>, view: AnchorView, key: GrantKey, m: Mark): map<GrantKey, Mark> {
    if Writable(view) then Raise(marks, key, m) else marks
  }

  predicate HaltedFor(db: Db, principal: PrincipalId) {
    Global in db.halted || Of(principal) in db.halted
  }

  predicate InScope(scope: Scope, principal: PrincipalId) {
    scope == Global || scope == Of(principal)
  }

  // ---- ledgers ----

  /** Sum of the reserved amounts of a set of intents. */
  ghost function SumOf(usage: map<IntentId, UsageRow>, keys: set<IntentId>): int
    requires keys <= usage.Keys
  {
    if keys == {} then 0
    else
      var k :| k in keys;
      usage[k].amount + SumOf(usage, keys - {k})
  }

  predicate CountsAgainst(u: UsageRow, grantId: string, principal: PrincipalId) {
    u.grant.grantId == grantId && (u.principal == principal || u.principal == LEGACY_PRINCIPAL) && u.status != Released
  }

  predicate CountsInScope(u: UsageRow, scope: Scope) {
    InScope(scope, u.principal) && u.status != Released
  }

  function TrailingUsage(usage: map<IntentId, UsageRow>, grantId: string, principal: PrincipalId,
                         since: int): (r: set<IntentId>)
    ensures r <= usage.Keys
  {
    set i | i in usage && CountsAgainst(usage[i], grantId, principal) && usage[i].stamp >= since
  }

  function TrailingScope(usage: map<IntentId, UsageRow>, scope: Scope, since: int): (r: set<IntentId>)
    ensures r <= usage.Keys
  {
    set i | i in usage && CountsInScope(usage[i], scope) && usage[i].stamp >= since
  }

  predicate AttemptCounts(a: AttemptRow, grantId: string, principal: PrincipalId) {
    a.grant.grantId == grantId && (a.principal == principal || a.principal == LEGACY_PRINCIPAL)
  }

  function AttemptsSince(attempts: seq<AttemptRow>, grantId: string, principal: PrincipalId, since: int): nat {
    if attempts == [] then 0
    else
      var last := attempts[|attempts| - 1];
      AttemptsSince(attempts[..|attempts| - 1], grantId, principal, since)
      + if AttemptCounts(last, grantId, principal) && last.stamp >= since then 1 else 0
  }

  /** Reservations that hold a provisional action slot. */
  function PendingSince(usage: map<IntentId, UsageRow>, grantId: string, principal: PrincipalId, since: int,
                        exclude: Option<IntentId>): set<IntentId>
  {
    set i | i in usage && CountsAgainst(usage[i], grantId, principal) && !usage[i].submitted
            && usage[i].stamp >= since && exclude != Some(i)
  }

  function VelocityCount(db: Db, grantId: string, principal: PrincipalId, since: int, exclude: Option<IntentId>): nat {
    AttemptsSince(db.attempts, grantId, principal, since)
    + |PendingSince(db.usage, grantId, principal, since, exclude)|
  }

  // ---- intents ----

  function DoRegister(w: World, intent: Intent): Outcome {
    if intent.id !in w.db.intents then
      Outcome(w.(db := w.db.(intents := w.db.intents[intent.id := FreshRow(intent)])), Done)
    else if w.db.intents[intent.id].intent == intent then Outcome(w, Done)
    else Outcome(w, Refused)
  }

  function Settle(usage: map<IntentId, UsageRow>, id: IntentId, budget: Budget): map<IntentId, UsageRow> {
    if id !in usage || usage[id].status != Held then usage
    else match budget
      case Keep => usage
      case Release => usage[id := usage[id].(status := Released)]
      case Commit => usage[id := usage[id].(status := Committed)]
  }

  /** At this venue the effect id belongs to another intent. */
  predicate EffectTaken(intents: map<IntentId, IntentRow>, id: IntentId, venue: Venue, effect: EffectId) {
    exists j :: j in intents && j != id && intents[j].intent.venue == venue && intents[j].effect == Some(effect)
  }

  function DoTransition(w: World, op: Op): Outcome
    requires op.Transition?
  {
    var db := w.db;
    if op.filled.Some? && op.filled.value < 0 then Outcome(w, Refused)
    else if op.id !in db.intents then Outcome(w, Refused)
    else
      var row := db.intents[op.id];
      if row.state !in op.expected then Outcome(w, NotExpected)
      else if !Allowed(row.state, op.to) then Outcome(w, Refused)
      else
        var effect := if op.effect.Some? then op.effect else row.effect;
        if effect.Some? && EffectTaken(db.intents, op.id, row.intent.venue, effect.value) then
          Outcome(w, EffectConflict)
        else
          var row' := row.(state := op.to, effect := effect, reasons := op.reasons,
                           ambiguityUntil := if op.ambiguity.Some? then op.ambiguity else row.ambiguityUntil,
                           filled := if op.filled.Some? then op.filled else row.filled);
          Outcome(w.(db := db.(intents := db.intents[op.id := row'],
                               usage := Settle(db.usage, op.id, op.budget))), Done)
  }

  /** The reservation's own velocity snapshot governs every retry. */
  predicate ActionSlotFree(db: Db, id: IntentId, stamp: int)
    requires id in db.usage
  {
    var u := db.usage[id];
    u.maxActions.Some? && u.actionWindow.Some? ==>
      VelocityCount(db, u.grant.grantId, u.principal, stamp - u.actionWindow.value, Some(id)) + 1 <= u.maxActions.value
  }

  function DoBegin(w: World, op: Op): Outcome
    requires op.BeginSubmission?
  {
    var db := w.db;
    if op.id !in db.intents then Outcome(w, Refused)
    else
      var row := db.intents[op.id];
      if row.state !in op.expected then Outcome(w, NotExpected)
      else if row.submissions >= op.maxAttempts then Outcome(w, AttemptLimit)
      else if op.id !in db.usage then Outcome(w, Refused)
      else
        var u := db.usage[op.id];
        var stamp := Seconds(op.now);
        if u.maxActions.Some? && (u.actionWindow.None? || u.actionWindow.value < 1) then Outcome(w, Refused)
        else if !ActionSlotFree(db, op.id, stamp) then Outcome(w, VelocityLimit)
        else if !Allowed(row.state, Submitted) then Outcome(w, Refused)
        else
          var n := row.submissions + 1;
          var db' := db.(
            attempts := db.attempts + [AttemptRow(op.id, n, u.principal, u.grant, stamp)],
            intents := db.intents[op.id := row.(state := Submitted, submissions := n, reasons := [],
                                                ambiguityUntil := None)],
            usage := db.usage[op.id := u.(submitted := true)]);
          Outcome(w.(db := db'), Started(n))
  }

  // ---- reservations and risk claims ----

  function ReservationAmount(intent: Intent): Option<int> {
    if !Monetary(intent.primitive) then Some(0)
    else if intent.amount.Some? && intent.amount.value > 0 then intent.amount
    else None
  }

  /** Some claim in the ledger is fresher than `k`. */
  predicate Superseded(claims: map<RiskKey, IntentId>, k: RiskKey) {
    exists c :: c in claims && c.grant == k.grant && c.scope == k.scope && k.stateVersion < c.stateVersion
  }

  predicate RiskStateFree(db: Db, k: RiskKey, id: IntentId) {
    && k !in db.riskClaims
    && id !in db.riskClaims.Values
    && (k in db.permitClaims ==> db.permitClaims[k] == id)
    && !Superseded(db.riskClaims, k)
    && !Superseded(db.permitClaims, k)
  }

  ghost predicate TurnoverFits(db: Db, grant: Grant, amount: int, stamp: int) {
    grant.limits.maxDailyTurnover.Some? ==>
      SumOf(db.usage, TrailingUsage(db.usage, grant.key.grantId, grant.principal, stamp - TURNOVER_WINDOW_SECONDS))
        + amount
      <= grant.limits.maxDailyTurnover.value
  }

  predicate CapsRegressed(w: World, view: AnchorView) {
    view.Anchor? && (!view.readable || Regressed(w.marks, EXPOSURE_CAPS_KEY, Mark(w.db.capsVersion, 0)))
  }

  ghost predicate CapFits(db: Db, scope: Scope, amount: int, stamp: int) {
    scope in db.caps ==>
      && db.caps[scope] > 0
      && (amount > 0 ==>
            SumOf(db.usage, TrailingScope(db.usage, scope, stamp - TURNOVER_WINDOW_SECONDS)) + amount <= db.caps[scope])
  }

  predicate VelocityFits(db: Db, grant: Grant, stamp: int) {
    grant.limits.maxActions.Some? && grant.limits.actionWindow.Some? && grant.limits.actionWindow.value > 0 ==>
      VelocityCount(db, grant.key.grantId, grant.principal, stamp - grant.limits.actionWindow.value, None) + 1
      <= grant.limits.maxActions.value
  }

  ghost predicate ReservationAdmitted(w: World, op: Op)
    requires op.ReserveUsage?
  {
    var stamp := Seconds(op.now);
    var amount := ReservationAmount(op.intent);
    && amount.Some?
    && RiskStateFree(w.db, RiskKey(op.grant.key, op.risk.scope, op.risk.stateVersion), op.intent.id)
    && TurnoverFits(w.db, op.grant, amount.value, stamp)
    && (amount.value > 0 ==> !CapsRegressed(w, op.view))
    && CapFits(w.db, Global, amount.value, stamp)
    && CapFits(w.db, Of(op.intent.principal), amount.value, stamp)
    && VelocityFits(w.db, op.grant, stamp)
  }

  ghost function DoReserve(w: World, op: Op): Outcome
    requires op.ReserveUsage?
  {
    var db := w.db;
    var id := op.intent.id;
    if ReservationAmount(op.intent).None? then Outcome(w, Refused)
    else if id in db.usage then
      Outcome(w, if db.usage[id].principal == op.intent.principal then Done else Refused)
    else if !ReservationAdmitted(w, op) then Outcome(w, Refused)
    else
      var u := UsageRow(op.intent.principal, op.grant.key, Seconds(op.now), op.grant.limits.maxActions,
                        op.grant.limits.actionWindow, ReservationAmount(op.intent).value, Held, false);
      var k := RiskKey(op.grant.key, op.risk.scope, op.risk.stateVersion);
      Outcome(w.(db := db.(usage := db.usage[id := u], riskClaims := db.riskClaims[k := id])), Done)
  }

  predicate UsageHeld(db: Db, intent: Intent, grant: Grant) {
    && intent.id in db.usage
    && db.usage[intent.id].principal == intent.principal == grant.principal
    && db.usage[intent.id].grant == grant.key
    && db.usage[intent.id].status == Held
  }

  function DoClaimPermitRisk(w: World, op: Op): Outcome
    requires op.ClaimPermitRisk?
  {
    var db := w.db;
    var k := RiskKey(op.grant.key, op.risk.scope, op.risk.stateVersion);
    if !UsageHeld(db, op.intent, op.grant) then Outcome(w, Refused)
    else if k in db.permitClaims then
      Outcome(w, if db.permitClaims[k] == op.intent.id then Done else Refused)
    else if Superseded(db.riskClaims, k) || Superseded(db.permitClaims, k) then Outcome(w, Refused)
    else Outcome(w.(db := db.(permitClaims := db.permitClaims[k := op.intent.id])), Done)
  }

  // ---- permits ----

  predicate LiveAt(p: PermitRow, id: IntentId, skew: nat, now: int) {
    p.intent == id && Live(p) && p.expiresAt + skew > now
  }

  /** Same permit id, or a fence already used under the grant version. */
  predicate Collides(row: PermitRow, p: IssuedPermit) {
    row.id == p.id || (row.grant == p.grant && row.fence == p.fence)
  }

  function DoRecord(w: World, op: Op): Outcome
    requires op.RecordPermit?
  {
    var db := w.db;
    var p := op.permit;
    if exists k :: 0 <= k < |db.permits| && LiveAt(db.permits[k], p.intent, op.skew, op.now) then
      Outcome(w, PreviousPermitLive)
    else if exists k :: 0 <= k < |db.permits| && Collides(db.permits[k], p) then Outcome(w, Refused)
    else
      var row := PermitRow(p.id, p.intent, p.principal, p.grant, p.epoch, p.fence, p.expiresAt, false, false);
      var intents := if p.intent in db.intents
        then db.intents[p.intent := db.intents[p.intent].(ambiguityUntil := Some(p.expiresAt))] else db.intents;
      Outcome(w.(db := db.(permits := db.permits + [row], intents := intents)), Recorded(|db.permits|))
  }

  /** Row of a permit id, or the length of the ledger when it was never recorded. */
  function RowOf(permits: seq<PermitRow>, id: string): (k: nat)
    ensures k <= |permits|
    ensures k < |permits| ==> permits[k].id == id
    ensures forall j :: 0 <= j < k ==> permits[j].id != id
  {
    if permits == [] then 0
    else if permits[0].id == id then 0
    else 1 + RowOf(permits[1..], id)
  }

  predicate BoundTo(row: PermitRow, p: IssuedPermit) {
    row.principal == p.principal && row.grant == p.grant && row.epoch == p.epoch && row.fence == p.fence
  }

  /** A later permit of the same intent exists. */
  predicate SupersededRow(permits: seq<PermitRow>, k: nat)
    requires k < |permits|
  {
    exists j :: k < j < |permits| && permits[j].intent == permits[k].intent
  }

  predicate Consumable(w: World, k: nat, p: IssuedPermit, view: AnchorView) {
    var db := w.db;
    && k < |db.permits|
    && BoundTo(db.permits[k], p)
    && Live(db.permits[k])
    && !SupersededRow(db.permits, k)
    && p.grant in db.grants
    && db.grants[p.grant].principal == p.principal
    && db.grants[p.grant].status == Active
    && db.grants[p.grant].epoch == p.epoch
    && !HaltedFor(db, p.principal)
    && AnchorPermits(w, view, p.grant)
    && (view.Anchor? ==> view.writable)
  }

  function DoConsume(w: World, op: Op): Outcome
    requires op.ConsumePermit?
  {
    var db := w.db;
    var p := op.permit;
    var k := RowOf(db.permits, p.id);
    if !Consumable(w, k, p, op.view) then Outcome(w, Refused)
    else
      var g := db.grants[p.grant].(fence := db.grants[p.grant].fence + 1);
      var db' := db.(permits := db.permits[k := db.permits[k].(consumed := true)], grants := db.grants[p.grant := g]);
      Outcome(World(db', RecordMark(w.marks, op.view, p.grant, RowMark(g))), Done)
  }

  function VoidedRow(p: PermitRow, id: IntentId): PermitRow {
    if p.intent == id && Live(p) then p.(voided := true) else p
  }

  function VoidedLedger(permits: seq<PermitRow>, id: IntentId): (r: seq<PermitRow>)
    ensures |r| == |permits|
    ensures forall k :: 0 <= k < |permits| ==> r[k] == VoidedRow(permits[k], id)
  {
    seq(|permits|, k requires 0 <= k < |permits| => VoidedRow(permits[k], id))
  }

  /** permit_counts finds a consumed permit of the intent. */
  predicate AnyConsumed(db: Db, id: IntentId) {
    exists k :: 0 <= k < |db.permits| && db.permits[k].intent == id && db.permits[k].consumed
  }

  // ---- grant authority ----

  predicate GrantUsable(w: World, key: GrantKey, principal: PrincipalId, view: AnchorView) {
    && key in w.db.grants
    && w.db.grants[key].principal == principal
    && w.db.grants[key].status == Active
    && !HaltedFor(w.db, principal)
    && AnchorPermits(w, view, key)
    && (view.Anchor? ==> view.writable)
  }

  function DoNextFence(w: World, op: Op): Outcome
    requires op.NextFence?
  {
    if !GrantUsable(w, op.key, op.principal, op.view) then Outcome(w, Refused)
    else
      var g := w.db.grants[op.key].(fence := w.db.grants[op.key].fence + 1);
      Outcome(World(w.db.(grants := w.db.grants[op.key := g]), RecordMark(w.marks, op.view, op.key, RowMark(g))),
              Fence(g.epoch, g.fence))
  }

  function DoProvision(w: World, op: Op): Outcome
    requires op.ProvisionGrant?
  {
    var key := op.grant.key;
    if AnchorMissing(w.db, op.view) then Outcome(w, Refused)
    else if key in w.db.grants then
      Outcome(w, if w.db.grants[key].principal == op.grant.principal && w.db.grants[key].limits == op.grant.limits
                 then Done else Refused)
    else if op.view.Anchor? && !op.view.writable then Outcome(w, Refused)
    else
      var g := GrantRow(op.grant.principal, op.grant.limits, op.status, 1, 0);
      Outcome(World(w.db.(grants := w.db.grants[key := g]), RecordMark(w.marks, op.view, key, RowMark(g))), Done)
  }

  /** Lifecycle change. Stopping commits without the anchor, re-activation does not. */
  function DoSetStatus(w: World, op: Op): Outcome
    requires op.SetGrantStatus?
  {
    var key := op.key;
    if AnchorMissing(w.db, op.view) || key !in w.db.grants || w.db.grants[key].principal != op.principal then
      Outcome(w, Refused)
    else
      var g := w.db.grants[key];
      var readable := op.view.NoAnchor? || op.view.readable;
      if !readable && op.status == Active then Outcome(w, Refused)
      else if op.view.Anchor? && readable && Regressed(w.marks, key, RowMark(g)) then Outcome(w, Refused)
      else if g.status == Revoked && op.status != Revoked then Outcome(w, Refused)
      else if g.status == op.status then
        Outcome(if op.status == Active then w else w.(marks := RecordMark(w.marks, op.view, key, RowMark(g))), Done)
      else if op.status == Active && op.view.Anchor? && !op.view.writable then Outcome(w, Refused)
      else
        var g' := g.(status := op.status, epoch := g.epoch + 1);
        Outcome(World(w.db.(grants := w.db.grants[key := g']), RecordMark(w.marks, op.view, key, RowMark(g'))), Done)
  }

  function FencedGrants(grants: map<GrantKey, GrantRow>, scope: Scope): map<GrantKey, GrantRow> {
    map k | k in grants :: if InScope(scope, grants[k].principal) then grants[k].(epoch := grants[k].epoch + 1)
      else grants[k]
  }

  predicate ScopeProvisioned(db: Db, scope: Scope) {
    scope == Global || exists k :: k in db.grants && InScope(scope, db.grants[k].principal)
  }

  function MarkOr(marks: map<GrantKey, Mark>, key: GrantKey): Mark {
    if key in marks then marks[key] else Mark(0, 0)
  }

  /** The fenced rows whose new epoch reached the anchor before it stopped answering. */
  function RaiseAll(marks: map<GrantKey, Mark>, grants: map<GrantKey, GrantRow>,
                    reached: set<GrantKey>): map<GrantKey, Mark> {
    map k | k in marks.Keys + (reached * grants.Keys) ::
      if k in reached && k in grants && !Behind(RowMark(grants[k]), MarkOr(marks, k)) then RowMark(grants[k])
        else MarkOr(marks, k)
  }

  function DoHalt(w: World, op: Op): Outcome
    requires op.Halt?
  {
    if AnchorMissing(w.db, op.view) then Outcome(w, Refused)
    else if !op.allowUnprovisioned && !ScopeProvisioned(w.db, op.scope) then Outcome(w, Refused)
    else
      var grants := FencedGrants(w.db.grants, op.scope);
      var fenced := set k | k in op.reached && k in grants && InScope(op.scope, grants[k].principal);
      Outcome(World(w.db.(halted := w.db.halted + {op.scope}, grants := grants),
                    if Writable(op.view) then RaiseAll(w.marks, grants, fenced) else w.marks), Done)
  }

  function DoResume(w: World, op: Op): Outcome
    requires op.Resume?
  {
    if AnchorMissing(w.db, op.view) || op.scope !in w.db.halted then Outcome(w, Refused)
    else Outcome(w.(db := w.db.(halted := w.db.halted - {op.scope})), Done)
  }

  function Max(a: nat, b: nat): nat {
    if a < b then b else a
  }

  /** Operator recovery of a regressed grant version: past the mark and revoked. */
  function DoRevokeAfterRestore(w: World, op: Op): Outcome
    requires op.RevokeAfterRestore?
  {
    if AnchorMissing(w.db, op.view) || op.key !in w.db.grants then Outcome(w, Refused)
    else
      var g := w.db.grants[op.key];
      var read := op.view.Anchor? && op.view.readable;
      var mark := if read then MarkOr(w.marks, op.key) else Mark(0, 0);
      var g' := g.(status := Revoked, epoch := Max(g.epoch, mark.epoch) + 1, fence := Max(g.fence, mark.fence));
      Outcome(World(w.db.(grants := w.db.grants[op.key := g']),
                    if read && op.view.writable then w.marks[op.key := RowMark(g')] else w.marks), Done)
  }

  /** The anchor is read outside the handler that tolerates a failed write, so an unreadable
      anchor refuses a tightening as well. */
  function DoSetCap(w: World, op: Op): Outcome
    requires op.SetExposureCap?
  {
    var db := w.db;
    var tightening := op.cap.Some? && (op.scope !in db.caps || op.cap.value < db.caps[op.scope]);
    if AnchorMissing(db, op.view) || (op.cap.Some? && op.cap.value <= 0) then Outcome(w, Refused)
    else if !op.allowUnprovisioned && !ScopeProvisioned(db, op.scope) then Outcome(w, Refused)
    else if op.view.Anchor? && !op.view.readable then Outcome(w, Refused)
    else if op.view.Anchor? && !op.view.writable && !tightening then Outcome(w, Refused)
    else
      var mark := if op.view.Anchor? then MarkOr(w.marks, EXPOSURE_CAPS_KEY) else Mark(0, 0);
      var version := Max(db.capsVersion, mark.epoch) + 1;
      var caps := if op.cap.Some? then db.caps[op.scope := op.cap.value] else db.caps - {op.scope};
      Outcome(World(db.(caps := caps, capsVersion := version),
                    RecordMark(w.marks, op.view, EXPOSURE_CAPS_KEY, Mark(version, 0))), Done)
  }

  // ---- leases ----

  function DoTakeLease(w: World, id: IntentId, owner: Owner): Outcome {
    if id in w.db.leases && w.db.leases[id] != owner then Outcome(w, Refused)
    else Outcome(w.(db := w.db.(leases := w.db.leases[id := owner])), Done)
  }

  function DoDropLease(w: World, id: IntentId, owner: Owner): Outcome {
    if id in w.db.leases && w.db.leases[id] == owner then
      Outcome(w.(db := w.db.(leases := w.db.leases - {id})), Done)
    else Outcome(w, Refused)
  }

  /** Transactions on the authority of grants and operators. */
  predicate ChangesAuthority(op: Op) {
    op.NextFence? || op.ConsumePermit? || op.ProvisionGrant? || op.SetGrantStatus? || op.Halt? || op.Resume?
    || op.RevokeAfterRestore? || op.SetExposureCap?
  }

  function ExecAuthority(w: World, op: Op): (o: Outcome)
    requires ChangesAuthority(op)
    ensures o.w.db == w.db.(grants := o.w.db.grants, halted := o.w.db.halted, caps := o.w.db.caps,
                            capsVersion := o.w.db.capsVersion, permits := o.w.db.permits)
    ensures !op.ConsumePermit? ==> o.w.db.permits == w.db.permits
    ensures !op.SetExposureCap? ==> o.w.db.caps == w.db.caps && o.w.db.capsVersion == w.db.capsVersion
  {
    match op
    case NextFence(_, _, _) => DoNextFence(w, op)
    case ConsumePermit(_, _) => DoConsume(w, op)
    case ProvisionGrant(_, _, _) => DoProvision(w, op)
    case SetGrantStatus(_, _, _, _) => DoSetStatus(w, op)
    case Halt(_, _, _, _) => DoHalt(w, op)
    case Resume(_, _) => DoResume(w, op)
    case RevokeAfterRestore(_, _) => DoRevokeAfterRestore(w, op)
    case SetExposureCap(_, _, _, _) => DoSetCap(w, op)
  }

  /** Transactions on intents and their ledgers never touch authority or the anchor. */
  ghost function ExecIntent(w: World, op: Op): (o: Outcome)
    requires !ChangesAuthority(op)
    ensures o.w == w.(db := o.w.db)
    ensures o.w.db == w.db.(intents := o.w.db.intents, usage := o.w.db.usage, attempts := o.w.db.attempts,
                            riskClaims := o.w.db.riskClaims, permitClaims := o.w.db.permitClaims,
                            permits := o.w.db.permits, leases := o.w.db.leases)
    ensures !op.RecordPermit? && !op.VoidPermits? ==> o.w.db.permits == w.db.permits
    ensures !op.Transition? && !op.BeginSubmission? && !op.ReserveUsage? && !op.ReleaseUsage? && !op.CommitUsage? ==>
      o.w.db.usage == w.db.usage
    ensures !op.BeginSubmission? ==> o.w.db.attempts == w.db.attempts
    ensures !op.ReserveUsage? ==> o.w.db.riskClaims == w.db.riskClaims
    ensures !op.ClaimPermitRisk? ==> o.w.db.permitClaims == w.db.permitClaims
    ensures !op.TakeLease? && !op.DropLease? ==> o.w.db.leases == w.db.leases
  {
    match op
    case Register(intent) => DoRegister(w, intent)
    case Transition(_, _, _, _, _, _, _, _) => DoTransition(w, op)
    case BeginSubmission(_, _, _, _) => DoBegin(w, op)
    case ReserveUsage(_, _, _, _, _) => DoReserve(w, op)
    case ReleaseUsage(id) => Outcome(w.(db := w.db.(usage := Settle(w.db.usage, id, Release))), Done)
    case CommitUsage(id) => Outcome(w.(db := w.db.(usage := Settle(w.db.usage, id, Commit))), Done)
    case ClaimPermitRisk(_, _, _) => DoClaimPermitRisk(w, op)
    case RecordPermit(_, _, _) => DoRecord(w, op)
    case VoidPermits(id) => Outcome(w.(db := w.db.(permits := VoidedLedger(w.db.permits, id))), Done)
    case TakeLease(id, owner) => DoTakeLease(w, id, owner)
    case DropLease(id, owner) => DoDropLease(w, id, owner)
    case Nothing => Outcome(w, Done)
  }

  /** One committed transaction. */
  ghost function Exec(w: World, op: Op): Outcome {
    if ChangesAuthority(op) then ExecAuthority(w, op) else ExecIntent(w, op)
  }

  /** Any sequence of transactions, whoever issues them. */
  ghost function ExecAll(w: World, ops: seq<Op>): World
    decreases |ops|
  {
    if ops == [] then w else ExecAll(Exec(w, ops[0]).w, ops[1..])
  }

  lemma ExecFirst(w: World, ops: seq<Op>)
    requires ops != []
    ensures ExecAll(w, ops) == ExecAll(Exec(w, ops[0]).w, ops[1..])
    ensures |ops| == 1 ==> ExecAll(w, ops) == Exec(w, ops[0]).w
  {
  }

  /** Only an allocation answers with a fence, only a recording with a ledger row. */
  lemma ResultKinds(w: World, op: Op)
    ensures Exec(w, op).result.Fence? ==> op.NextFence?
    ensures Exec(w, op).result.Recorded? ==> op.RecordPermit?
  {
    hide Consumable, GrantUsable, Regressed, Behind, Allowed, ReservationAdmitted, VoidedLedger, FencedGrants, RaiseAll,
         Seconds, HaltedFor;
  }
}
