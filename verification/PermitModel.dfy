/** The authors' abstract permit protocol for one intent, without the bounds on permits and depth and
    with re-activation and further epoch advances added. */
module PermitModel {
  datatype Permit = Permit(epoch: nat, inFlight: bool, consumed: bool, expired: bool, voided: bool)

  predicate Live(p: Permit) {
    !p.consumed && !p.expired && !p.voided
  }

  datatype Observed = Nothing | Final

  datatype S = S(
    grantEpoch: nat,
    grantActive: bool,
    halted: bool,
    permits: seq<Permit>,
    effectCount: nat,      // consumptions so far
    observed: Observed,    // the verifier's last word
    finalized: bool)

  const START := S(1, true, false, [], 0, Nothing, false)

  /** Which of its two checks the runtime makes before each issue. */
  datatype Rules = Rules(quiescence: bool, ledgerCheck: bool)

  datatype Action =
    | Issue
    | Submit(k: nat)
    | Consume(k: nat)
    | Expire(k: nat)
    | VoidAll
    | Revoke
    | Activate
    | Stop
    | Resume
    | Advance(epochs: nat)
    | VerifyFinal
    | Finalize

  predicate Quiescent(s: S) {
    forall k :: 0 <= k < |s.permits| ==> !Live(s.permits[k])
  }

  predicate LedgerClean(s: S) {
    forall k :: 0 <= k < |s.permits| ==> !s.permits[k].consumed
  }

  predicate Can(s: S, a: Action, rules: Rules) {
    match a
    case Issue =>
      && s.grantActive && !s.halted && s.observed == Nothing && !s.finalized
      && (rules.quiescence ==> Quiescent(s))
      && (rules.ledgerCheck ==> LedgerClean(s))
    case Submit(k) => k < |s.permits| && Live(s.permits[k]) && !s.permits[k].inFlight
    case Consume(k) =>
      && k < |s.permits| && Live(s.permits[k]) && s.permits[k].inFlight
      && s.grantActive && !s.halted && s.permits[k].epoch == s.grantEpoch
    case Expire(k) => k < |s.permits| && Live(s.permits[k])
    case VoidAll => !Quiescent(s) && s.observed == Nothing
    case Revoke => s.grantActive
    case Activate => !s.grantActive
    case Stop => !s.halted
    case Resume => s.halted
    case Advance(epochs) => epochs > 0
    case VerifyFinal => s.effectCount >= 1 && s.observed != Final
    case Finalize => s.observed == Final && !s.finalized
  }

  function Voided(p: Permit): Permit {
    if Live(p) then p.(voided := true) else p
  }

  function Do(s: S, a: Action): S
    requires Can(s, a, Rules(false, false))
  {
    match a
    case Issue => s.(permits := s.permits + [Permit(s.grantEpoch, false, false, false, false)])
    case Submit(k) => s.(permits := s.permits[k := s.permits[k].(inFlight := true)])
    case Consume(k) => s.(permits := s.permits[k := s.permits[k].(consumed := true)], effectCount := s.effectCount + 1)
    case Expire(k) => s.(permits := s.permits[k := s.permits[k].(expired := true)])
    case VoidAll => s.(permits := seq(|s.permits|, k requires 0 <= k < |s.permits| => Voided(s.permits[k])))
    case Revoke => s.(grantActive := false, grantEpoch := s.grantEpoch + 1)
    case Activate => s.(grantActive := true, grantEpoch := s.grantEpoch + 1)
    case Stop => s.(halted := true, grantEpoch := s.grantEpoch + 1)
    case Resume => s.(halted := false)
    case Advance(epochs) => s.(grantEpoch := s.grantEpoch + epochs)
    case VerifyFinal => s.(observed := Final)
    case Finalize => s.(finalized := true)
  }

  predicate Follows(s: S, actions: seq<Action>, rules: Rules)
    decreases |actions|
  {
    actions == [] || (Can(s, actions[0], rules) && Follows(Do(s, actions[0]), actions[1..], rules))
  }

  function Run(s: S, actions: seq<Action>): S
    requires Follows(s, actions, Rules(false, false))
    decreases |actions|
  {
    if actions == [] then s else Run(Do(s, actions[0]), actions[1..])
  }

  ghost predicate Reaches(s: S, actions: seq<Action>, end: S, rules: Rules) {
    Follows(s, actions, rules) && Follows(s, actions, Rules(false, false)) && Run(s, actions) == end
  }

  lemma Prepend(s: S, a: Action, next: S, rest: seq<Action>, end: S, rules: Rules)
    requires Can(s, a, rules) && Can(s, a, Rules(false, false)) && Do(s, a) == next && Reaches(next, rest, end, rules)
    ensures Reaches(s, [a] + rest, end, rules)
  {
    assert ([a] + rest)[1..] == rest;
  }

  lemma Single(s: S, a: Action, next: S, rules: Rules)
    requires Can(s, a, rules) && Can(s, a, Rules(false, false)) && Do(s, a) == next
    ensures Reaches(s, [a], next, rules)
  {
    Prepend(s, a, next, [], next, rules);
    assert [a] + [] == [a];
  }

  lemma {:induction false} Concat(s: S, first: seq<Action>, mid: S, second: seq<Action>, end: S, rules: Rules)
    requires Reaches(s, first, mid, rules) && Reaches(mid, second, end, rules)
    ensures Reaches(s, first + second, end, rules)
    decreases |first|
  {
    if first == [] {
      assert first + second == second;
    } else {
      Concat(Do(s, first[0]), first[1..], mid, second, end, rules);
      assert (first + second)[1..] == first[1..] + second;
    }
  }

  // ---- the protocol's own safety conditions ----

  datatype Failure = DuplicateEffect | EffectWithoutConsumedPermit | FinalizedWithoutAuthoritativeEffect
    | DeadPermitConsumed

  function ConsumedCount(permits: seq<Permit>): nat {
    if permits == [] then 0
    else ConsumedCount(permits[..|permits| - 1]) + if permits[|permits| - 1].consumed then 1 else 0
  }

  predicate DeadConsumed(permits: seq<Permit>) {
    exists k :: 0 <= k < |permits| && permits[k].consumed && (permits[k].expired || permits[k].voided)
  }

  function InvariantFailures(s: S): seq<Failure> {
    (if s.effectCount > 1 then [DuplicateEffect] else [])
    + (if s.effectCount > ConsumedCount(s.permits) then [EffectWithoutConsumedPermit] else [])
    + (if s.finalized && (s.effectCount != 1 || s.observed != Final) then [FinalizedWithoutAuthoritativeEffect] else [])
    + (if DeadConsumed(s.permits) then [DeadPermitConsumed] else [])
  }

  function ConsumedAt(permits: seq<Permit>): set<nat> {
    set k: nat | k < |permits| && permits[k].consumed
  }

  lemma {:induction false} CountIsConsumed(permits: seq<Permit>)
    ensures ConsumedCount(permits) == |ConsumedAt(permits)|
    decreases |permits|
  {
    if permits == [] {
      assert ConsumedAt(permits) == {};
    } else {
      var n := |permits| - 1;
      CountIsConsumed(permits[..n]);
      assert ConsumedAt(permits) == ConsumedAt(permits[..n]) + if permits[n].consumed then {n} else {};
    }
  }

  /** No failure: at most one effect, each with a consumed permit behind it; finality only with exactly one
      effect the verifier has seen as final; no consumed permit that had expired or been voided. */
  lemma NoFailureMeans(s: S)
    ensures InvariantFailures(s) == [] <==>
      && s.effectCount <= 1 && s.effectCount <= |ConsumedAt(s.permits)|
      && (s.finalized ==> s.effectCount == 1 && s.observed == Final)
      && (forall k :: 0 <= k < |s.permits| && s.permits[k].consumed ==>
            !s.permits[k].expired && !s.permits[k].voided)
  {
    CountIsConsumed(s.permits);
  }

  // ---- safety with both rules, on every run ----

  /** At most one permit is live or consumed, and effects are exactly the consumptions. */
  ghost predicate Inv(s: S) {
    && (forall j, k :: 0 <= j < k < |s.permits| ==> !(Spent(s.permits[j]) && Spent(s.permits[k])))
    && (forall k :: 0 <= k < |s.permits| && s.permits[k].consumed ==> !s.permits[k].expired && !s.permits[k].voided)
    && s.effectCount == ConsumedCount(s.permits)
    && (s.observed == Final ==> s.effectCount >= 1)
    && (s.finalized ==> s.observed == Final)
  }

  /** The venue admitted it, or still may. */
  predicate Spent(p: Permit) {
    Live(p) || p.consumed
  }

  lemma {:induction false} CountUpdated(permits: seq<Permit>, k: nat, p: Permit)
    requires k < |permits|
    ensures ConsumedCount(permits[k := p]) ==
      ConsumedCount(permits) - (if permits[k].consumed then 1 else 0) + if p.consumed then 1 else 0
    decreases |permits|
  {
    var n := |permits| - 1;
    if k == n {
      assert permits[k := p][..n] == permits[..n];
    } else {
      assert permits[k := p][..n] == permits[..n][k := p];
      CountUpdated(permits[..n], k, p);
    }
  }

  lemma {:induction false} CountSame(before: seq<Permit>, after: seq<Permit>)
    requires |before| == |after| && forall k :: 0 <= k < |before| ==> after[k].consumed == before[k].consumed
    ensures ConsumedCount(after) == ConsumedCount(before)
    decreases |before|
  {
    if before != [] {
      CountSame(before[..|before| - 1], after[..|after| - 1]);
    }
  }

  lemma {:induction false} CountBounded(permits: seq<Permit>)
    requires forall j, k :: 0 <= j < k < |permits| ==> !(Spent(permits[j]) && Spent(permits[k]))
    ensures ConsumedCount(permits) <= 1
    ensures ConsumedCount(permits) == 1 <==> exists k :: 0 <= k < |permits| && permits[k].consumed
    decreases |permits|
  {
    if permits != [] {
      var n := |permits| - 1;
      CountBounded(permits[..n]);
      if ConsumedCount(permits[..n]) == 1 {
        var k :| 0 <= k < n && permits[..n][k].consumed;
        assert Spent(permits[k]) && permits[k].consumed;
      } else {
        assert forall k :: 0 <= k < n ==> !permits[..n][k].consumed;
      }
    }
  }

  lemma IssueKeepsInv(s: S)
    requires Inv(s) && Can(s, Issue, Rules(true, true))
    ensures Inv(Do(s, Issue))
  {
    var s' := Do(s, Issue);
    assert s'.permits[..|s.permits|] == s.permits;
  }

  /** A permit that is not consumed may be replaced by one that is no more alive. */
  lemma UpdateKeepsInv(s: S, s': S, k: nat, p: Permit)
    requires Inv(s) && k < |s.permits| && !s.permits[k].consumed && Live(s.permits[k])
    requires Spent(p) ==> Spent(s.permits[k])
    requires p.consumed ==> !p.expired && !p.voided
    requires s' == s.(permits := s.permits[k := p], effectCount := s.effectCount + if p.consumed then 1 else 0)
    ensures Inv(s')
  {
    hide ConsumedCount;
    CountUpdated(s.permits, k, p);
  }

  lemma VoidKeepsInv(s: S)
    requires Inv(s) && Can(s, VoidAll, Rules(true, true))
    ensures Inv(Do(s, VoidAll))
  {
    hide ConsumedCount;
    CountSame(s.permits, Do(s, VoidAll).permits);
  }

  lemma ActionKeepsInv(s: S, a: Action)
    requires Inv(s) && Can(s, a, Rules(true, true))
    ensures Inv(Do(s, a))
  {
    hide Inv, ConsumedCount;
    match a
    case Issue => IssueKeepsInv(s);
    case Submit(k) => UpdateKeepsInv(s, Do(s, a), k, s.permits[k].(inFlight := true));
    case Consume(k) => UpdateKeepsInv(s, Do(s, a), k, s.permits[k].(consumed := true));
    case Expire(k) => UpdateKeepsInv(s, Do(s, a), k, s.permits[k].(expired := true));
    case VoidAll => VoidKeepsInv(s);
    case _ => ControlKeepsInv(s, a);
  }

  lemma ControlKeepsInv(s: S, a: Action)
    requires Inv(s) && Can(s, a, Rules(true, true))
    requires !a.Issue? && !a.Submit? && !a.Consume? && !a.Expire? && !a.VoidAll?
    ensures Inv(Do(s, a))
  {
    hide ConsumedCount;
  }

  lemma {:induction false} RunKeepsInv(s: S, actions: seq<Action>)
    requires Inv(s) && Follows(s, actions, Rules(true, true))
    ensures Follows(s, actions, Rules(false, false)) && Inv(Run(s, actions))
    decreases |actions|
  {
    if actions != [] {
      ActionKeepsInv(s, actions[0]);
      RunKeepsInv(Do(s, actions[0]), actions[1..]);
    }
  }

  /** Every run of any length with any number of permits is free of failures. */
  lemma SafeWithBothRules(actions: seq<Action>)
    requires Follows(START, actions, Rules(true, true))
    ensures Follows(START, actions, Rules(false, false)) && InvariantFailures(Run(START, actions)) == []
  {
    RunKeepsInv(START, actions);
    CountBounded(Run(START, actions).permits);
  }

  // ---- both rules are needed ----

  /** Some run fails under the rules. */
  ghost predicate Unsafe(rules: Rules) {
    exists actions :: Follows(START, actions, rules) && Follows(START, actions, Rules(false, false))
                      && InvariantFailures(Run(START, actions)) != []
  }

  const FRESH := Permit(1, false, false, false, false)
  const SENT := Permit(1, true, false, false, false)
  const USED := Permit(1, true, true, false, false)

  function Holding(permits: seq<Permit>, effects: nat): S {
    START.(permits := permits, effectCount := effects)
  }

  /** Without quiescence the second permit is issued while the first is still live. */
  lemma OverlapFails(rules: Rules)
    requires !rules.quiescence
    ensures Unsafe(rules)
  {
    var end := Holding([USED, USED], 2);
    assert InvariantFailures(end)[0] == DuplicateEffect;
    Prepend(Holding([USED, SENT], 1), Consume(1), end, [], end, rules);
    Prepend(Holding([SENT, SENT], 0), Consume(0), Holding([USED, SENT], 1), [Consume(1)], end, rules);
    var c := [Consume(0)] + [Consume(1)];
    Prepend(Holding([SENT, FRESH], 0), Submit(1), Holding([SENT, SENT], 0), c, end, rules);
    Prepend(Holding([SENT], 0), Issue, Holding([SENT, FRESH], 0), [Submit(1)] + c, end, rules);
    Prepend(Holding([FRESH], 0), Submit(0), Holding([SENT], 0), [Issue] + ([Submit(1)] + c), end, rules);
    Prepend(START, Issue, Holding([FRESH], 0), [Submit(0)] + ([Issue] + ([Submit(1)] + c)), end, rules);
  }

  /** Without the ledger check absence is acted on although the first permit was consumed. */
  lemma RetryFails(rules: Rules)
    requires !rules.ledgerCheck
    ensures Unsafe(rules)
  {
    var end := Holding([USED, USED], 2);
    assert InvariantFailures(end)[0] == DuplicateEffect;
    Prepend(Holding([USED, SENT], 1), Consume(1), end, [], end, rules);
    Prepend(Holding([USED, FRESH], 1), Submit(1), Holding([USED, SENT], 1), [Consume(1)], end, rules);
    var c := [Submit(1)] + [Consume(1)];
    Prepend(Holding([USED], 1), Issue, Holding([USED, FRESH], 1), c, end, rules);
    Prepend(Holding([SENT], 0), Consume(0), Holding([USED], 1), [Issue] + c, end, rules);
    Prepend(Holding([FRESH], 0), Submit(0), Holding([SENT], 0), [Consume(0)] + ([Issue] + c), end, rules);
    Prepend(START, Issue, Holding([FRESH], 0), [Submit(0)] + ([Consume(0)] + ([Issue] + c)), end, rules);
  }

  /** The protocol is safe exactly with both rules. */
  lemma SafeIffBothRules(rules: Rules)
    ensures !Unsafe(rules) <==> rules.quiescence && rules.ledgerCheck
  {
    if !rules.quiescence {
      OverlapFails(rules);
    } else if !rules.ledgerCheck {
      RetryFails(rules);
    } else {
      forall actions | Follows(START, actions, rules) && Follows(START, actions, Rules(false, false))
        ensures InvariantFailures(Run(START, actions)) == []
      {
        SafeWithBothRules(actions);
      }
    }
  }

  // ---- stale permits ----

  /** A permit of an epoch that has passed, or a voided one, is never consumed in any continuation,
      whatever the rules. */
  ghost predicate Dead(s: S, k: nat) {
    k < |s.permits| && !s.permits[k].consumed && (s.permits[k].epoch < s.grantEpoch || !Live(s.permits[k]))
  }

  lemma {:induction false} DeadStaysUnconsumed(s: S, actions: seq<Action>, k: nat)
    requires Dead(s, k) && Follows(s, actions, Rules(false, false))
    ensures Dead(Run(s, actions), k)
    decreases |actions|
  {
    if actions != [] {
      DeadStaysUnconsumed(Do(s, actions[0]), actions[1..], k);
    }
  }

  /** A revocation or an emergency stop kills every permit issued before it. */
  lemma StopKillsEarlierPermits(s: S, a: Action, k: nat)
    requires a.Revoke? || a.Stop?
    requires Can(s, a, Rules(false, false))
    requires k < |s.permits| && !s.permits[k].consumed && s.permits[k].epoch <= s.grantEpoch
    ensures Dead(Do(s, a), k)
  {
  }

  /** From a revoked grant, or under an emergency stop, nothing is issued or consumed until the grant is
      activated or the stop lifted, whatever the rules. */
  lemma {:induction false} StoppedStandsStill(s: S, actions: seq<Action>)
    requires Follows(s, actions, Rules(false, false))
    requires (!s.grantActive && forall k :: 0 <= k < |actions| ==> !actions[k].Activate?)
             || (s.halted && forall k :: 0 <= k < |actions| ==> !actions[k].Resume?)
    ensures var s' := Run(s, actions); |s'.permits| == |s.permits| && s'.effectCount == s.effectCount
    decreases |actions|
  {
    if actions != [] {
      assert !actions[0].Issue? && !actions[0].Consume?;
      StoppedStandsStill(Do(s, actions[0]), actions[1..]);
    }
  }
}
