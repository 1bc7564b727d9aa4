/** The durable rows of the intent store and the marks of its external anchor.
    Amounts are integers in units of 10^-8, instants are integer microseconds,
    ledger stamps are whole seconds. */
module Types {
  datatype Option<+T> = None | Some(value: T)

  type IntentId = string
  type PrincipalId = string
  type Venue = string
  type EffectId = string
  type Owner = string

  datatype GrantKey = GrantKey(grantId: string, version: int)

  datatype Primitive = Pay | Swap | Buy | Sell | PlaceOrder | CancelOrder

  predicate Monetary(p: Primitive) {
    p != CancelOrder
  }

  // ---- grants and operator controls ----

  datatype GrantStatus = Active | Paused | Revoked

  datatype Limits = Limits(
    maxDailyTurnover: Option<int>,
    maxActions: Option<nat>,
    actionWindow: Option<nat>,
    maxClockSkew: nat,
    maxAttempts: nat)

  /** The capability envelope a caller presents. */
  datatype Grant = Grant(key: GrantKey, principal: PrincipalId, limits: Limits)

  datatype GrantRow = GrantRow(
    principal: PrincipalId,
    limits: Limits,
    status: GrantStatus,
    epoch: nat,
    fence: nat)

  datatype Scope = Global | Of(principal: PrincipalId)

  /** What the anchor remembers of one grant version. */
  datatype Mark = Mark(epoch: nat, fence: nat)

  /** Lexicographic order on (epoch, fence). */
  predicate Behind(a: Mark, b: Mark) {
    a.epoch < b.epoch || (a.epoch == b.epoch && a.fence < b.fence)
  }

  function RowMark(g: GrantRow): Mark {
    Mark(g.epoch, g.fence)
  }

  /** How the store instance running a transaction sees the anchor. */
  datatype AnchorView = NoAnchor | Anchor(readable: bool, writable: bool)

  // ---- intents ----

  datatype IntentState =
    | Proposed | Denied | Deferred | Stopped | Authorized | Reserved
    | Submitted | Unknown | Reconciling | Confirmed | Finalized | FailedSafe

  predicate Terminal(s: IntentState) {
    s.Denied? || s.Deferred? || s.Stopped? || s.Finalized? || s.FailedSafe?
  }

  /** The store's transition table. */
  predicate Allowed(from: IntentState, to: IntentState) {
    match from
    case Proposed => to.Denied? || to.Deferred? || to.Stopped? || to.Authorized?
    case Authorized => to.Reserved? || to.Stopped?
    case Reserved => to.Submitted? || to.Reconciling? || to.Stopped?
    case Submitted => to.Confirmed? || to.Unknown? || to.Reconciling? || to.Stopped? || to.FailedSafe?
    case Unknown => to.Reconciling? || to.Stopped?
    case Reconciling => to.Submitted? || to.Confirmed? || to.Finalized? || to.FailedSafe? || to.Stopped? || to.Unknown?
    case Confirmed => to.Finalized? || to.Reconciling? || to.Stopped?
    case _ => false
  }

  /** The immutable payload bound to an intent id. `amount` is what the bounded parser
      reads from the payload, None when it refuses it. */
  datatype Intent = Intent(
    id: IntentId,
    principal: PrincipalId,
    venue: Venue,
    primitive: Primitive,
    amount: Option<int>,
    grant: GrantKey)

  datatype Reason =
    | DeterministicFailure
    | DeterministicFailureUnverified
    | ExecutionAmbiguous
    | AdapterExecutionException
    | AwaitingIndependentSettlement
    | PermitRejected
    | ReconciliationException
    | SettlementRecordMalformed
    | SettlementNoneNotAuthoritative
    | SettlementCancelNotAuthoritative
    | SettlementPositiveNotAuthoritative
    | SettlementRequestBindingMismatch
    | SettledEffectIdInvalid
    | SettledEffectIdRequired
    | SettlementLostPreviousEffect
    | SettlementEffectIdMismatch
    | AuthorizedEffectAmountInvalid
    | SettledAmountRequired
    | SettledAmountInvalid
    | SettledAmountExceedsAuthorized
    | PaymentAmountMismatch
    | PaymentPartialNotAllowed
    | SettlementFillRegressed
    | SettlementPartialFillOpen
    | SettlementOrderOpen
    | SettlementCancelledAfterPartialFill
    | SettlementCancelledUnfilled
    | SettlementCancelContradictsRecordedEffect
    | SettlementContradictory
    | SettlementUnknown
    | SettlementNoneWithinPermitWindow
    | SettlementNoneAfterPermitConsumed
    | EffectIdAlreadyClaimed
    | ResubmissionBlocked
    | Gate(text: string)  // codes carried in from gates, limits and grant status

  /** The codes that durably block another submission of the intent. */
  predicate Blocks(r: Reason) {
    r == DeterministicFailure || r == DeterministicFailureUnverified
  }

  predicate Blocked(reasons: seq<Reason>) {
    exists k :: 0 <= k < |reasons| && Blocks(reasons[k])
  }

  /** Codes under the SETTLED_, SETTLEMENT_, EFFECT_ID_ and PAYMENT_ prefixes. */
  predicate SettlementDerived(r: Reason) {
    match r
    case SettlementRecordMalformed | SettlementNoneNotAuthoritative | SettlementCancelNotAuthoritative
       | SettlementPositiveNotAuthoritative | SettlementRequestBindingMismatch | SettledEffectIdInvalid
       | SettledEffectIdRequired | SettlementLostPreviousEffect | SettlementEffectIdMismatch
       | SettledAmountRequired | SettledAmountInvalid | SettledAmountExceedsAuthorized
       | PaymentAmountMismatch | PaymentPartialNotAllowed | SettlementFillRegressed
       | SettlementPartialFillOpen | SettlementOrderOpen | SettlementCancelledAfterPartialFill
       | SettlementCancelledUnfilled | SettlementCancelContradictsRecordedEffect
       | SettlementContradictory | SettlementUnknown | SettlementNoneWithinPermitWindow
       | SettlementNoneAfterPermitConsumed | EffectIdAlreadyClaimed => true
    case Gate(text) =>
      "SETTLED_" <= text || "SETTLEMENT_" <= text || "EFFECT_ID_" <= text
      || "PAYMENT_" <= text || "UNHANDLED_SETTLEMENT" <= text
    case _ => false
  }

  datatype IntentRow = IntentRow(
    intent: Intent,
    state: IntentState,
    effect: Option<EffectId>,
    reasons: seq<Reason>,
    submissions: nat,
    ambiguityUntil: Option<int>,
    filled: Option<int>)

  function FreshRow(intent: Intent): IntentRow {
    IntentRow(intent, Proposed, None, [], 0, None, None)
  }

  // ---- ledgers ----

  datatype UsageStatus = Held | Committed | Released

  datatype UsageRow = UsageRow(
    principal: PrincipalId,
    grant: GrantKey,
    stamp: int,
    maxActions: Option<nat>,
    actionWindow: Option<nat>,
    amount: int,
    status: UsageStatus,
    submitted: bool)

  datatype AttemptRow = AttemptRow(
    intent: IntentId,
    number: nat,
    principal: PrincipalId,
    grant: GrantKey,
    stamp: int)

  datatype RiskKey = RiskKey(grant: GrantKey, scope: string, stateVersion: int)

  /** One issued permit. The position in the permit ledger is its row id. */
  datatype PermitRow = PermitRow(
    id: string,
    intent: IntentId,
    principal: PrincipalId,
    grant: GrantKey,
    epoch: nat,
    fence: nat,
    expiresAt: int,
    consumed: bool,
    voided: bool)

  /** Neither consumed nor voided: a venue may still honour it. */
  predicate Live(p: PermitRow) {
    !p.consumed && !p.voided
  }

  datatype Db = Db(
    grants: map<GrantKey, GrantRow>,
    halted: set<Scope>,
    caps: map<Scope, int>,
    capsVersion: nat,
    anchorRequired: bool,
    intents: map<IntentId, IntentRow>,
    usage: map<IntentId, UsageRow>,
    attempts: seq<AttemptRow>,
    riskClaims: map<RiskKey, IntentId>,
    permitClaims: map<RiskKey, IntentId>,
    permits: seq<PermitRow>,
    leases: map<IntentId, Owner>)

  /** The datastore together with the anchor kept outside it. */
  datatype World = World(db: Db, marks: map<GrantKey, Mark>)
}
