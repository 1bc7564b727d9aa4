/** What reconciliation does with one verifier answer: the pure half of the reconciler. */
module Settlement {
  import opened Types

  datatype Status = NoEffect | Undetermined | ConfirmedEffect | PartiallyFilled | FinalEffect | Cancelled
    | Contradictory

  /** One settlement record. `bound` says that its verified request hash is this request's hash. */
  datatype Record = Record(
    status: Status,
    effect: Option<EffectId>,
    amount: Option<int>,
    authoritative: bool,
    bound: bool)

  const MAX_EFFECT_ID_CHARS := 512

  predicate ValidEffectId(e: EffectId) {
    0 < |e| <= MAX_EFFECT_ID_CHARS
  }

  /** What the reconciler read from the intent row before it asked the verifier. */
  datatype Seen = Seen(
    effect: Option<EffectId>,
    filled: Option<int>,
    ambiguityUntil: Option<int>,
    allowResubmit: bool,
    block: Option<Reason>)

  datatype Decision =
    | ToUnknown(reasons: seq<Reason>)
    | StopWith(reasons: seq<Reason>, previous: Option<EffectId>)
    | Finalize(effect: EffectId, filled: Option<int>, reasons: seq<Reason>)
    | Confirm(effect: EffectId, filled: Option<int>, reasons: seq<Reason>)
    | CancelUnfilled(claimed: Option<EffectId>)
    | ActOnAbsence

  /** The codes of a row that stays open: the new reason, and the block it must not lose. */
  function WithBlock(reason: Reason, block: Option<Reason>): seq<Reason> {
    if block.Some? && block.value != reason then [reason, block.value] else [reason]
  }

  predicate Positive(s: Status) {
    s == ConfirmedEffect || s == FinalEffect || s == PartiallyFilled
  }

  function EffectReason(previous: Option<EffectId>, status: Status, effect: Option<EffectId>): Option<Reason> {
    if (Positive(status) || status == Cancelled) && (effect.None? || effect.value == "") then
      Some(SettledEffectIdRequired)
    else if previous.Some? && status == NoEffect then Some(SettlementLostPreviousEffect)
    else if previous.Some? && effect.Some? && effect != previous then Some(SettlementEffectIdMismatch)
    else None
  }

  function AmountReason(intent: Intent, status: Status, amount: Option<int>): Option<Reason> {
    if (!Positive(status) && status != Cancelled) || !Monetary(intent.primitive) then None
    else if intent.amount.None? || intent.amount.value <= 0 then Some(AuthorizedEffectAmountInvalid)
    else if status == Cancelled then
      if amount.None? then None
      else if amount.value < 0 then Some(SettledAmountInvalid)
      else if amount.value > intent.amount.value then Some(SettledAmountExceedsAuthorized)
      else if intent.primitive == Pay && amount.value != 0 && amount != intent.amount then
        Some(PaymentPartialNotAllowed)
      else None
    else if amount.None? then Some(SettledAmountRequired)
    else if amount.value < 0 then Some(SettledAmountInvalid)
    else if status == PartiallyFilled then
      if intent.primitive == Pay then Some(PaymentPartialNotAllowed)
      else if amount.value > intent.amount.value then Some(SettledAmountExceedsAuthorized)
      else None
    else if amount.value == 0 then Some(SettledAmountInvalid)
    else if intent.primitive == Pay then
      if amount != intent.amount then Some(PaymentAmountMismatch) else None
    else if amount.value > intent.amount.value then Some(SettledAmountExceedsAuthorized)
    else None
  }

  predicate FillRegressed(seen: Seen, rec: Record) {
    && rec.authoritative && seen.filled.Some? && rec.amount.Some?
    && (Positive(rec.status) || rec.status == Cancelled)
    && rec.amount.value < seen.filled.value
    && !(rec.status == Cancelled && rec.amount.value == 0)
  }

  /** By this clock, skew included, the last permit has not yet expired. */
  predicate WindowOpen(seen: Seen, skew: nat, now: int) {
    seen.ambiguityUntil.Some? && now < seen.ambiguityUntil.value + skew
  }

  function Decide(intent: Intent, seen: Seen, skew: nat, now: int, rec: Record): Decision {
    var effectReason := if rec.authoritative then EffectReason(seen.effect, rec.status, rec.effect) else None;
    var amountReason := AmountReason(intent, rec.status, rec.amount);
    if !rec.authoritative && (Positive(rec.status) || rec.status == NoEffect || rec.status == Cancelled) then
      ToUnknown(WithBlock(
        match rec.status
        case NoEffect => SettlementNoneNotAuthoritative
        case Cancelled => SettlementCancelNotAuthoritative
        case _ => SettlementPositiveNotAuthoritative, seen.block))
    else if rec.authoritative && !rec.bound then StopWith([SettlementRequestBindingMismatch], seen.effect)
    else if rec.authoritative && rec.effect.Some? && !ValidEffectId(rec.effect.value) then
      StopWith([SettledEffectIdInvalid], seen.effect)
    else if effectReason.Some? then StopWith([effectReason.value], seen.effect)
    else if amountReason.Some? then StopWith([amountReason.value], seen.effect)
    else if FillRegressed(seen, rec) then StopWith([SettlementFillRegressed], seen.effect)
    else match rec.status
      case FinalEffect => Finalize(rec.effect.value, rec.amount, [])
      case ConfirmedEffect => Confirm(rec.effect.value, rec.amount, [])
      case PartiallyFilled =>
        var filled := if rec.amount.Some? then rec.amount.value else 0;
        Confirm(rec.effect.value, Some(filled), [if filled > 0 then SettlementPartialFillOpen else SettlementOrderOpen])
      case Cancelled =>
        var filled := if rec.amount.Some? then rec.amount.value else 0;
        if filled > 0 then Finalize(rec.effect.value, Some(filled), [SettlementCancelledAfterPartialFill])
        else if seen.effect.Some? && (seen.filled.None? || seen.filled.value > 0) then
          StopWith([SettlementCancelContradictsRecordedEffect], seen.effect)
        else CancelUnfilled(rec.effect)
      case Contradictory => StopWith(WithBlock(SettlementContradictory, seen.block), seen.effect)
      case Undetermined => ToUnknown(WithBlock(SettlementUnknown, seen.block))
      case NoEffect =>
        if WindowOpen(seen, skew, now) then ToUnknown(WithBlock(SettlementNoneWithinPermitWindow, seen.block))
        else ActOnAbsence
  }

  // ---- what each decision takes ----

  /** An authoritative record about this request, with an effect id of 1 to 512 characters that is the one
      recorded before, if any was. */
  predicate Vouched(seen: Seen, rec: Record) {
    && rec.authoritative && rec.bound && rec.effect.Some? && 1 <= |rec.effect.value| <= 512
    && (seen.effect.Some? ==> seen.effect == rec.effect)
  }

  /** The order moves money, and how much was authorised can be read. */
  predicate Priced(intent: Intent) {
    intent.primitive != CancelOrder ==> intent.amount.Some? && intent.amount.value > 0
  }

  predicate NotLess(seen: Seen, rec: Record) {
    seen.filled.Some? && rec.amount.Some? ==> seen.filled.value <= rec.amount.value
  }

  /** The amount of a settled effect: positive, within the authorisation, all of it for a payment. */
  predicate SettledAmount(intent: Intent, rec: Record)
    requires Priced(intent)
  {
    intent.primitive != CancelOrder ==>
      && rec.amount.Some? && 0 < rec.amount.value <= intent.amount.value
      && (intent.primitive == Pay ==> rec.amount == intent.amount)
  }

  /** A settled effect that is final or confirmed is recorded as such, exactly when it is vouched for, its
      amount fits, and it takes nothing back. */
  lemma SettledIff(intent: Intent, seen: Seen, skew: nat, now: int, rec: Record)
    requires Priced(intent) && (rec.status == FinalEffect || rec.status == ConfirmedEffect)
    ensures var d := Decide(intent, seen, skew, now, rec);
      var accepted := Vouched(seen, rec) && SettledAmount(intent, rec) && NotLess(seen, rec);
      && (accepted && rec.status == FinalEffect ==> d == Finalize(rec.effect.value, rec.amount, []))
      && (accepted && rec.status == ConfirmedEffect ==> d == Confirm(rec.effect.value, rec.amount, []))
      && (!accepted && rec.authoritative ==> d.StopWith? && |d.reasons| == 1 && d.previous == seen.effect)
  {
  }

  /** An order still open is recorded with its fill so far, nothing when none is reported; a payment is
      never open. */
  lemma OpenOrderIff(intent: Intent, seen: Seen, skew: nat, now: int, rec: Record)
    requires Priced(intent) && rec.status == PartiallyFilled
    ensures var d := Decide(intent, seen, skew, now, rec);
      var filled := if rec.amount.Some? then rec.amount.value else 0;
      var accepted := && Vouched(seen, rec) && NotLess(seen, rec) && intent.primitive != Pay
                      && (intent.primitive != CancelOrder ==> rec.amount.Some? && 0 <= filled <= intent.amount.value);
      && (accepted ==> d == Confirm(rec.effect.value, Some(filled),
                                    [if filled > 0 then SettlementPartialFillOpen else SettlementOrderOpen]))
      && (!accepted && rec.authoritative ==> d.StopWith? && |d.reasons| == 1 && d.previous == seen.effect)
  {
  }

  /** A cancelled order is final with the fill it has; without one the intent fails safe, unless a fill was
      recorded before. A payment is cancelled whole or settled whole. */
  lemma CancelledIff(intent: Intent, seen: Seen, skew: nat, now: int, rec: Record)
    requires Priced(intent) && rec.status == Cancelled
    ensures var d := Decide(intent, seen, skew, now, rec);
      var filled := if rec.amount.Some? then rec.amount.value else 0;
      var fits := && Vouched(seen, rec)
                  && (filled != 0 ==> NotLess(seen, rec))
                  && (intent.primitive != CancelOrder ==> 0 <= filled <= intent.amount.value)
                  && (intent.primitive == Pay ==> filled == 0 || filled == intent.amount.value);
      var contradicts := seen.effect.Some? && (seen.filled.None? || seen.filled.value > 0);
      && (fits && filled > 0 ==>
            d == Finalize(rec.effect.value, Some(filled), [SettlementCancelledAfterPartialFill]))
      && (fits && filled <= 0 && !contradicts ==> d == CancelUnfilled(rec.effect))
      && (fits && filled <= 0 && contradicts ==>
            d == StopWith([SettlementCancelContradictsRecordedEffect], seen.effect))
      && (!fits && rec.authoritative ==> d.StopWith? && |d.reasons| == 1 && d.previous == seen.effect)
  {
  }

  /** Without an authorised amount no report of money moved is accepted. */
  lemma UnpricedStops(intent: Intent, seen: Seen, skew: nat, now: int, rec: Record)
    requires !Priced(intent) && rec.authoritative
    requires rec.status == FinalEffect || rec.status == ConfirmedEffect || rec.status == PartiallyFilled
             || rec.status == Cancelled
    ensures Decide(intent, seen, skew, now, rec).StopWith?
  {
  }

  /** A record without authority never stops, settles or releases anything, except that a contradiction is
      believed from anyone. */
  lemma WithoutAuthority(intent: Intent, seen: Seen, skew: nat, now: int, rec: Record)
    requires !rec.authoritative
    ensures Decide(intent, seen, skew, now, rec) ==
      var carried := if seen.block.Some? then [seen.block.value] else [];
      match rec.status
      case Contradictory => StopWith(Headed(SettlementContradictory, carried), seen.effect)
      case Undetermined => ToUnknown(Headed(SettlementUnknown, carried))
      case NoEffect => ToUnknown(Headed(SettlementNoneNotAuthoritative, carried))
      case Cancelled => ToUnknown(Headed(SettlementCancelNotAuthoritative, carried))
      case _ => ToUnknown(Headed(SettlementPositiveNotAuthoritative, carried))
  {
  }

  /** A reason ahead of the block that is carried on, said once. */
  function Headed(reason: Reason, carried: seq<Reason>): seq<Reason> {
    if carried == [reason] then [reason] else [reason] + carried
  }

  /** Authoritative absence, contradiction and ignorance. Absence after a recorded effect stops; before the
      last permit has expired, the clock skew included, it changes nothing; only then is it acted on. */
  lemma NoEffectIff(intent: Intent, seen: Seen, skew: nat, now: int, rec: Record)
    requires rec.authoritative
    requires rec.status == NoEffect || rec.status == Undetermined || rec.status == Contradictory
    ensures var d := Decide(intent, seen, skew, now, rec);
      var carried := if seen.block.Some? then [seen.block.value] else [];
      var sound := rec.bound && (rec.effect.Some? ==> 1 <= |rec.effect.value| <= 512)
                   && (rec.status == NoEffect ==> seen.effect.None?)
                   && (seen.effect.Some? && rec.effect.Some? ==> rec.effect == seen.effect);
      var expired := seen.ambiguityUntil.Some? ==> now >= seen.ambiguityUntil.value + skew;
      && (sound && rec.status == NoEffect && expired ==> d == ActOnAbsence)
      && (sound && rec.status == NoEffect && !expired ==>
            d == ToUnknown(Headed(SettlementNoneWithinPermitWindow, carried)))
      && (sound && rec.status == Undetermined ==> d == ToUnknown(Headed(SettlementUnknown, carried)))
      && (sound && rec.status == Contradictory ==> d == StopWith(Headed(SettlementContradictory, carried), seen.effect))
      && (!sound ==> d.StopWith? && |d.reasons| == 1 && d.previous == seen.effect)
  {
  }

  /** Which contradiction of an authoritative record is named: its binding before its effect id, that before
      its history, and its history before its amount. */
  lemma StopNames(intent: Intent, seen: Seen, skew: nat, now: int, rec: Record)
    requires rec.authoritative
    ensures var d := Decide(intent, seen, skew, now, rec);
      var named := rec.status == ConfirmedEffect || rec.status == FinalEffect || rec.status == PartiallyFilled
                   || rec.status == Cancelled;
      if !rec.bound then d == StopWith([SettlementRequestBindingMismatch], seen.effect)
      else if rec.effect.Some? && (rec.effect.value == "" || |rec.effect.value| > 512) then
        d == StopWith([SettledEffectIdInvalid], seen.effect)
      else if named && rec.effect.None? then d == StopWith([SettledEffectIdRequired], seen.effect)
      else if rec.status == NoEffect && seen.effect.Some? then
        d == StopWith([SettlementLostPreviousEffect], seen.effect)
      else if seen.effect.Some? && rec.effect.Some? && rec.effect != seen.effect then
        d == StopWith([SettlementEffectIdMismatch], seen.effect)
      else if named && !Priced(intent) then d == StopWith([AuthorizedEffectAmountInvalid], seen.effect)
      else true
  {
  }

  /** Which objection to the amount of a settled effect of a priced order is named. */
  lemma AmountNames(intent: Intent, seen: Seen, skew: nat, now: int, rec: Record)
    requires Vouched(seen, rec) && intent.primitive != CancelOrder && Priced(intent)
    ensures var d := Decide(intent, seen, skew, now, rec);
      var settled := rec.status == ConfirmedEffect || rec.status == FinalEffect;
      var partly := rec.status == PartiallyFilled;
      var cancelled := rec.status == Cancelled;
      var pays := intent.primitive == Pay;
      if rec.amount.None? then (settled || partly ==> d == StopWith([SettledAmountRequired], seen.effect))
      else
        var amount, authorized := rec.amount.value, intent.amount.value;
        var over := amount > authorized;
        && ((settled || partly || cancelled) && amount < 0 ==> d == StopWith([SettledAmountInvalid], seen.effect))
        && (settled && amount == 0 ==> d == StopWith([SettledAmountInvalid], seen.effect))
        && (settled && pays && amount > 0 && amount != authorized ==>
              d == StopWith([PaymentAmountMismatch], seen.effect))
        && (partly && pays && amount >= 0 ==> d == StopWith([PaymentPartialNotAllowed], seen.effect))
        && (over && (cancelled || (!pays && (settled || partly))) ==>
              d == StopWith([SettledAmountExceedsAuthorized], seen.effect))
        && (cancelled && pays && 0 < amount < authorized ==> d == StopWith([PaymentPartialNotAllowed], seen.effect))
        && (!pays && 0 < amount && !over && (settled || partly || cancelled)
            && seen.filled.Some? && amount < seen.filled.value
            ==> d == StopWith([SettlementFillRegressed], seen.effect))
  {
  }

  /** Absence is acted on exactly when the record is an authoritative NONE bound to this request, no
      effect was ever recorded, and the last permit expired at least the clock skew ago. */
  lemma AbsenceIsActedOnIff(intent: Intent, seen: Seen, skew: nat, now: int, rec: Record)
    ensures Decide(intent, seen, skew, now, rec) == ActOnAbsence <==>
      && rec.authoritative && rec.bound && rec.status == NoEffect
      && (rec.effect.Some? ==> 1 <= |rec.effect.value| <= 512)
      && seen.effect.None?
      && (seen.ambiguityUntil.Some? ==> now >= seen.ambiguityUntil.value + skew)
  {
  }

  /** The record supports an economic effect of this request: identity and amount included. */
  predicate Supports(intent: Intent, seen: Seen, rec: Record, effect: EffectId) {
    && rec.authoritative && rec.bound && rec.effect == Some(effect) && ValidEffectId(effect)
    && (seen.effect.Some? ==> seen.effect == Some(effect))
    && (Monetary(intent.primitive) ==> intent.amount.Some? && intent.amount.value > 0)
  }

  predicate FillAcceptable(intent: Intent, seen: Seen, filled: Option<int>) {
    Monetary(intent.primitive) ==>
      && intent.amount.Some? && filled.Some? && 0 <= filled.value <= intent.amount.value
      && (seen.filled.Some? ==> seen.filled.value <= filled.value)
  }

  /** Nothing but an authoritative, request-bound, identity-preserving record within the authorised
      amount advances an intent, and a payment finalises only in full. */
  lemma PositiveIsEarned(intent: Intent, seen: Seen, skew: nat, now: int, rec: Record)
    ensures match Decide(intent, seen, skew, now, rec)
      case Finalize(effect, filled, _) =>
        && Supports(intent, seen, rec, effect) && FillAcceptable(intent, seen, filled)
        && (Monetary(intent.primitive) ==> filled.value > 0)
        && (intent.primitive == Pay ==> filled == intent.amount)
      case Confirm(effect, filled, _) =>
        && Supports(intent, seen, rec, effect) && FillAcceptable(intent, seen, filled)
        && (intent.primitive == Pay ==> filled == intent.amount)
      case CancelUnfilled(claimed) =>
        && rec.authoritative && rec.bound && rec.status == Cancelled && claimed.Some? && ValidEffectId(claimed.value)
        && (seen.effect.Some? ==> seen.effect == claimed && seen.filled.Some? && seen.filled.value <= 0)
        && (rec.amount.Some? ==> rec.amount.value <= 0)
      case _ => true
  {
  }

  /** The fill an accepted record leaves on the row: None when the row keeps what it had. */
  function FillWritten(d: Decision): Option<int> {
    match d
    case Finalize(_, filled, _) => filled
    case Confirm(_, filled, _) => filled
    case _ => None
  }

  /** A recorded fill shrinks exactly for a non-monetary order reported partially filled without an
      amount, which is written as zero. */
  lemma FillShrinksIff(intent: Intent, seen: Seen, skew: nat, now: int, rec: Record)
    requires seen.filled.Some?
    ensures var d := Decide(intent, seen, skew, now, rec);
      (FillWritten(d).Some? && FillWritten(d).value < seen.filled.value) <==>
      && rec.authoritative && rec.bound && rec.status == PartiallyFilled && rec.amount.None?
      && rec.effect.Some? && ValidEffectId(rec.effect.value) && (seen.effect.Some? ==> seen.effect == rec.effect)
      && !Monetary(intent.primitive) && seen.filled.value > 0
  {
  }

  /** Every non-terminal outcome carries the durable block along. */
  lemma BlockIsCarried(intent: Intent, seen: Seen, skew: nat, now: int, rec: Record)
    requires seen.block == Some(DeterministicFailure)
    ensures var d := Decide(intent, seen, skew, now, rec); d.ToUnknown? ==> DeterministicFailure in d.reasons
  {
    var d := Decide(intent, seen, skew, now, rec);
    if d.ToUnknown? {
      assert |d.reasons| == 2 && d.reasons[1] == DeterministicFailure;
    }
  }
}
