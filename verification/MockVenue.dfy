/** The reference venue: admits a request by consuming its permit, rests or fills it, and trades nothing
    more on an order once it has confirmed its cancellation. */
module MockVenue {
  import opened Types
  import opened StoreOps
  import opened LocalView
  import opened Settlement
  import Protocol

  datatype Mode = Success | TimeoutBeforeEffect | TimeoutAfterEffect | AmbiguousVenue | TimeoutAfterAdmission
    | PartialFill | OpenOrder

  datatype Receipt = Receipt(effect: EffectId, status: Status, amount: Option<int>)

  datatype Answer = Acknowledged(receipt: Receipt) | TimedOut | PermitRefused

  /** Half of an amount in whole units, ties to even. */
  function Half(n: int): int {
    if n % 2 == 0 || (n / 2) % 2 == 0 then n / 2 else n / 2 + 1
  }

  /** What the mode makes of an admitted request; None when it leaves no record. */
  function Admitted(mode: Mode, effect: EffectId, amount: Option<int>): Option<Receipt> {
    match mode
    case TimeoutAfterAdmission => None
    case AmbiguousVenue => None
    case PartialFill => Some(Receipt(effect, PartiallyFilled, if amount.Some? then Some(Half(amount.value))
                                     else amount))
    case OpenOrder => Some(Receipt(effect, PartiallyFilled, Some(0)))
    case _ => Some(Receipt(effect, FinalEffect, amount))
  }

  function Executed(effects: map<IntentId, Receipt>, mode: Mode, i: IntentId, effect: EffectId, amount: Option<int>,
                    consumes: bool)
    : map<IntentId, Receipt>
  {
    if i in effects || mode == TimeoutBeforeEffect || !consumes || Admitted(mode, effect, amount).None? then effects
    else effects[i := Admitted(mode, effect, amount).value]
  }

  /** What rests of an order trades, unless a cancellation came first. */
  function Completed(effects: map<IntentId, Receipt>, i: IntentId, effect: EffectId,
                     amount: Option<int>): map<IntentId, Receipt> {
    if i !in effects || effects[i].status == Cancelled then effects
    else effects[i := Receipt(effect, FinalEffect, amount)]
  }

  /** A resting order is cancelled with what it filled so far. */
  function CancelledAt(effects: map<IntentId, Receipt>, i: IntentId, effect: EffectId,
                       amount: Option<int>): map<IntentId, Receipt> {
    if i !in effects || effects[i].status == FinalEffect then effects
    else effects[i := Receipt(effect, Cancelled, if effects[i].amount.Some? then effects[i].amount else amount)]
  }

  /** What a first call leaves at the venue, mode by mode: nothing without an admission or a record, half of
      the order to the nearest unit, an order at rest, or all of it. */
  lemma ModesOf(effects: map<IntentId, Receipt>, mode: Mode, i: IntentId, effect: EffectId, amount: Option<int>,
                consumes: bool)
    ensures var after := Executed(effects, mode, i, effect, amount, consumes);
      if i in effects || !consumes || mode == TimeoutBeforeEffect || mode == TimeoutAfterAdmission
         || mode == AmbiguousVenue
        then after == effects
      else
        && i in after && after == effects[i := after[i]] && after[i].effect == effect
        && (mode == PartialFill ==>
              && after[i].status == PartiallyFilled && (after[i].amount.Some? <==> amount.Some?)
              && (amount.Some? ==>
                    var twice := 2 * after[i].amount.value - amount.value;
                    -1 <= twice <= 1 && (twice != 0 ==> after[i].amount.value % 2 == 0)))
        && (mode == OpenOrder ==> after[i].status == PartiallyFilled && after[i].amount == Some(0))
        && (mode == Success || mode == TimeoutAfterEffect ==>
              after[i].status == FinalEffect && after[i].amount == amount)
  {
  }

  /** Completion finishes every order that is not cancelled, cancellation every order that is not final; both
      leave orders the venue does not know alone. */
  lemma EndsOf(effects: map<IntentId, Receipt>, i: IntentId, effect: EffectId, amount: Option<int>)
    ensures Completed(effects, i, effect, amount) ==
      if i in effects && effects[i].status != Cancelled then effects[i := Receipt(effect, FinalEffect, amount)]
      else effects
    ensures CancelledAt(effects, i, effect, amount) ==
      if i in effects && effects[i].status != FinalEffect then
        effects[i := Receipt(effect, Cancelled, if effects[i].amount.Some? then effects[i].amount else amount)]
      else effects
  {
  }

  class Venue {
    var effects: map<IntentId, Receipt>
    var calls: map<IntentId, nat>
    var mode: Mode

    constructor ()
      ensures effects == map[] && calls == map[] && mode == Success
    {
      effects, calls, mode := map[], map[], Success;
    }

    /** `consumes` says whether the permit authority consumes the presented permit. */
    method Execute(i: IntentId, effect: EffectId, amount: Option<int>, consumes: bool) returns (answer: Answer)
      modifies this
      ensures mode == old(mode)
      ensures effects == Executed(old(effects), mode, i, effect, amount, consumes)
      ensures calls == old(calls)[i := (if i in old(calls) then old(calls)[i] else 0) + 1]
      ensures answer.Acknowledged? ==> i in effects && answer.receipt == effects[i]
      ensures answer == PermitRefused <==> i !in old(effects) && mode != TimeoutBeforeEffect && !consumes
      ensures answer.Acknowledged? <==>
        i in old(effects) || (consumes && (mode == Success || mode == PartialFill || mode == OpenOrder))
    {
      calls := calls[i := (if i in calls then calls[i] else 0) + 1];
      if i in effects {
        return Acknowledged(effects[i]);
      }
      if mode == TimeoutBeforeEffect {
        return TimedOut;
      }
      if !consumes {
        return PermitRefused;
      }
      if mode == TimeoutAfterAdmission || mode == AmbiguousVenue {
        return TimedOut;
      }
      var receipt := Admitted(mode, effect, amount).value;
      effects := effects[i := receipt];
      answer := if mode == TimeoutAfterEffect then TimedOut else Acknowledged(receipt);
    }

    method CompleteFill(i: IntentId, effect: EffectId, amount: Option<int>) returns (receipt: Option<Receipt>)
      modifies this`effects
      ensures effects == Completed(old(effects), i, effect, amount)
      ensures receipt == if i in effects then Some(effects[i]) else None
    {
      if i !in effects {
        return None;
      }
      if effects[i].status != Cancelled {
        effects := effects[i := Receipt(effect, FinalEffect, amount)];
      }
      receipt := Some(effects[i]);
    }

    method CancelOrder(i: IntentId, effect: EffectId, amount: Option<int>) returns (receipt: Option<Receipt>)
      modifies this`effects
      ensures effects == CancelledAt(old(effects), i, effect, amount)
      ensures receipt == if i in effects then Some(effects[i]) else None
    {
      if i !in effects {
        return None;
      }
      var current := effects[i];
      if current.status == FinalEffect {
        return Some(current);
      }
      var filled := if current.amount.Some? then current.amount else amount;
      effects := effects[i := Receipt(effect, Cancelled, filled)];
      receipt := Some(effects[i]);
    }
  }

  // ---- runs of the venue ----

  datatype Event =
    | Executes(i: IntentId, mode: Mode, consumes: bool)
    | Completes(i: IntentId)
    | Cancels(i: IntentId)

  /** The one payload bound to each intent id: its effect identity and its authorised amount. */
  datatype Payload = Payload(effect: EffectId, amount: Option<int>)

  /** The venue's records, and the intents one of whose permits it had consumed. */
  datatype Books = Books(effects: map<IntentId, Receipt>, admitted: set<IntentId>)

  const OPENING := Books(map[], {})

  function After(payloads: IntentId -> Payload, b: Books, e: Event): Books {
    var p := payloads(e.i);
    match e
    case Executes(i, mode, consumes) =>
      Books(Executed(b.effects, mode, i, p.effect, p.amount, consumes),
            if i !in b.effects && mode != TimeoutBeforeEffect && consumes then b.admitted + {i} else b.admitted)
    case Completes(i) => b.(effects := Completed(b.effects, i, p.effect, p.amount))
    case Cancels(i) => b.(effects := CancelledAt(b.effects, i, p.effect, p.amount))
  }

  function Run(payloads: IntentId -> Payload, b: Books, events: seq<Event>): Books
    decreases |events|
  {
    if events == [] then b else Run(payloads, After(payloads, b, events[0]), events[1..])
  }

  /** A record of an order for a positive authorised amount. */
  predicate ReceiptOk(receipt: Receipt, p: Payload) {
    && receipt.effect == p.effect
    && (receipt.status == FinalEffect || receipt.status == PartiallyFilled || receipt.status == Cancelled)
    && (p.amount.Some? && p.amount.value > 0 ==>
          && receipt.amount.Some? && 0 <= receipt.amount.value <= p.amount.value
          && (receipt.status == FinalEffect ==> receipt.amount == p.amount))
  }

  predicate Progresses(before: Receipt, after: Receipt) {
    && (before.status == FinalEffect || before.status == Cancelled ==> after.status == before.status)
    && (before.amount.Some? && after.amount.Some? ==> before.amount.value <= after.amount.value)
    && (before.status == Cancelled ==> after.amount == before.amount)
  }

  ghost predicate VenueInv(payloads: IntentId -> Payload, b: Books) {
    && b.effects.Keys <= b.admitted
    && forall i :: i in b.effects ==> ReceiptOk(b.effects[i], payloads(i))
  }

  ghost predicate Continues(payloads: IntentId -> Payload, before: Books, after: Books) {
    && before.admitted <= after.admitted
    && forall i :: i in before.effects && payloads(i).amount.Some? && payloads(i).amount.value > 0 ==>
         i in after.effects && Progresses(before.effects[i], after.effects[i])
  }

  lemma EventKeeps(payloads: IntentId -> Payload, b: Books, e: Event)
    requires VenueInv(payloads, b)
    ensures VenueInv(payloads, After(payloads, b, e)) && Continues(payloads, b, After(payloads, b, e))
  {
  }

  lemma {:induction false} RunKeeps(payloads: IntentId -> Payload, b: Books, events: seq<Event>)
    requires VenueInv(payloads, b)
    ensures VenueInv(payloads, Run(payloads, b, events)) && Continues(payloads, b, Run(payloads, b, events))
    decreases |events|
  {
    if events != [] {
      var next := After(payloads, b, events[0]);
      EventKeeps(payloads, b, events[0]);
      RunKeeps(payloads, next, events[1..]);
      forall i | i in b.effects && payloads(i).amount.Some? && payloads(i).amount.value > 0
        ensures i in Run(payloads, b, events).effects
        ensures Progresses(b.effects[i], Run(payloads, b, events).effects[i])
      {
        assert Progresses(b.effects[i], next.effects[i]);
        assert ReceiptOk(next.effects[i], payloads(i));
      }
    }
  }

  // ---- the reference verifier over the reference venue ----

  /** What the verifier answers about an intent, the venue being in the given mode. */
  function RecordFor(b: Books, i: IntentId, mode: Mode): Record {
    if i in b.effects then Record(b.effects[i].status, Some(b.effects[i].effect), b.effects[i].amount, true, true)
    else if mode == AmbiguousVenue then Record(Undetermined, None, None, false, false)
    else Record(NoEffect, None, None, true, true)
  }

  /** What the runtime holds after it accepted an earlier record of the same order, or none. */
  predicate SawEarlier(b: Books, i: IntentId, seen: Seen) {
    if seen.effect.None? then seen.filled.None?
    else
      && i in b.effects && seen.effect == Some(b.effects[i].effect)
      && seen.filled.Some? && seen.filled == b.effects[i].amount
  }

  /** A worker that has read the row as `seen` stops on the answer: at once, or at the ledger check it
      makes before acting on absence, after voiding. */
  ghost predicate Stops(w: World, i: IntentId, grant: Grant, seen: Seen, c: Protocol.Choice) {
    var next := Protocol.PlanFor(i, View(w, i), Some(grant), Protocol.Verifying(seen), c).done;
    || next.Stopping?
    || (next == Protocol.VoidingAbsence(seen)
        && Protocol.PlanFor(i, View(Exec(w, VoidPermits(i)).w, i), Some(grant), Protocol.CheckingLedger(seen),
                            c).done.Stopping?)
  }

  /** Absence is stopped at exactly when the ledger holds a consumed permit of the intent. */
  lemma AbsenceStopsIffConsumed(w: World, i: IntentId, grant: Grant, seen: Seen, c: Protocol.Choice)
    requires i in w.db.intents
    ensures Protocol.PlanFor(i, View(Exec(w, VoidPermits(i)).w, i), Some(grant), Protocol.CheckingLedger(seen),
                             c).done.Stopping?
      <==> AnyConsumed(w.db, i)
  {
    var w' := Exec(w, VoidPermits(i)).w;
    assert w'.db.permits == VoidedLedger(w.db.permits, i);
    assert AnyConsumed(w'.db, i) <==> AnyConsumed(w.db, i) by {
      assert forall k :: 0 <= k < |w.db.permits| ==>
        w'.db.permits[k].consumed == w.db.permits[k].consumed && w'.db.permits[k].intent == w.db.permits[k].intent;
    }
    ConsumedSeen(w'.db, i);
  }

  lemma VerifyingLeads(w: World, i: IntentId, grant: Grant, seen: Seen, c: Protocol.Choice, record: Record)
    requires i in w.db.intents && c.answer == Protocol.Answered(record)
    ensures var d := Decide(w.db.intents[i].intent, seen, grant.limits.maxClockSkew, c.now, record);
      var next := Protocol.PlanFor(i, View(w, i), Some(grant), Protocol.Verifying(seen), c).done;
      && (d.StopWith? <==> next.Stopping?)
      && (d.ActOnAbsence? <==> next == Protocol.VoidingAbsence(seen))
  {
    hide Decide;
  }

  /** What the runtime decides on the verifier's answer. */
  lemma VenueDecision(payloads: IntentId -> Payload, first: Books, b: Books, intent: Intent, seen: Seen, skew: nat,
                      now: int, mode: Mode)
    requires VenueInv(payloads, first) && VenueInv(payloads, b) && Continues(payloads, first, b)
    requires SawEarlier(first, intent.id, seen)
    requires intent.primitive != CancelOrder && intent.amount.Some? && intent.amount.value > 0
    requires payloads(intent.id).amount == intent.amount && 1 <= |payloads(intent.id).effect| <= 512
    ensures var i, d := intent.id, Decide(intent, seen, skew, now, RecordFor(b, intent.id, mode));
      && (d.StopWith? <==>
            && i in b.effects && intent.primitive == Pay
            && (b.effects[i].status == PartiallyFilled
                || (b.effects[i].status == Cancelled
                    && b.effects[i].amount != Some(0) && b.effects[i].amount != intent.amount)))
      && (d.ActOnAbsence? <==>
            && i !in b.effects && mode != AmbiguousVenue
            && (seen.ambiguityUntil.Some? ==> now >= seen.ambiguityUntil.value + skew))
  {
    var i := intent.id;
    if i in b.effects {
      assert ReceiptOk(b.effects[i], payloads(i));
    }
    if seen.effect.Some? {
      assert ReceiptOk(first.effects[i], payloads(i));
      assert Progresses(first.effects[i], b.effects[i]);
    }
  }

  /** Reconciling an order against this venue stops in two cases only, whatever the venue did since the
      last accepted record. A payment stops while it is open or once it was cancelled part-filled. And
      any order stops that the venue admitted and kept no record of, once its window is closed and the
      venue is no longer ambiguous about it. Effect identity and fill are never contradicted. */
  lemma HonestHistoryStopsIff(payloads: IntentId -> Payload, before: seq<Event>, after: seq<Event>, mode: Mode,
                              w: World, i: IntentId, grant: Grant, seen: Seen, c: Protocol.Choice)
    requires i in w.db.intents && w.db.intents[i].intent.id == i
    requires var intent := w.db.intents[i].intent;
      && intent.primitive != CancelOrder && intent.amount.Some? && intent.amount.value > 0
      && payloads(i).amount == intent.amount && 1 <= |payloads(i).effect| <= 512
    requires SawEarlier(Run(payloads, OPENING, before), i, seen)
    requires var b := Run(payloads, Run(payloads, OPENING, before), after);
      && c.answer == Protocol.Answered(RecordFor(b, i, mode))
      && (i in b.admitted <==>
            exists k :: 0 <= k < |w.db.permits| && w.db.permits[k].intent == i && w.db.permits[k].consumed)
    ensures var b, intent := Run(payloads, Run(payloads, OPENING, before), after), w.db.intents[i].intent;
      Stops(w, i, grant, seen, c) <==>
        if i in b.effects then
          && intent.primitive == Pay
          && (b.effects[i].status == PartiallyFilled
              || (b.effects[i].status == Cancelled
                  && b.effects[i].amount != Some(0) && b.effects[i].amount != intent.amount))
        else
          && i in b.admitted && mode != AmbiguousVenue
          && (seen.ambiguityUntil.Some? ==> c.now >= seen.ambiguityUntil.value + grant.limits.maxClockSkew)
  {
    hide Exec, Decide, RecordFor, ReceiptOk, Progresses;
    var first := Run(payloads, OPENING, before);
    var b := Run(payloads, first, after);
    RunKeeps(payloads, OPENING, before);
    RunKeeps(payloads, first, after);
    assert seen.effect.Some? ==> SawEarlier(first, i, seen) && Progresses(first.effects[i], b.effects[i]);
    VenueDecision(payloads, first, b, w.db.intents[i].intent, seen, grant.limits.maxClockSkew, c.now, mode);
    VerifyingLeads(w, i, grant, seen, c, RecordFor(b, i, mode));
    AbsenceStopsIffConsumed(w, i, grant, seen, c);
  }

  /** The second case arises: a request whose transport timed out after admission leaves no record. */
  lemma AdmittedWithoutRecord(payloads: IntentId -> Payload, i: IntentId)
    ensures var b := Run(payloads, OPENING, [Executes(i, TimeoutAfterAdmission, true)]);
      i !in b.effects && i in b.admitted
  {
    var events := [Executes(i, TimeoutAfterAdmission, true)];
    assert events[1..] == [];
    assert Run(payloads, OPENING, events) == After(payloads, OPENING, events[0]);
  }
}
