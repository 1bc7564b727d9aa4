/** The intent store and the authority anchor as objects: every method is one transaction that updates
    the tables in place, proved against its function on the whole durable state. */
module Store {
  import opened Types
  import opened StoreOps
  import Ledger

  /** The high-water marks kept outside the database. `readable` and `writable` say whether it answers. */
  class AuthorityAnchor {
    var marks: map<GrantKey, Mark>
    var readable: bool
    var writable: bool

    constructor ()
      ensures marks == map[] && readable && writable
    {
      marks, readable, writable := map[], true, true;
    }

    method HighWater(key: GrantKey) returns (answered: bool, mark: Option<Mark>)
      ensures answered == readable
      ensures mark == if readable && key in marks then Some(marks[key]) else None
    {
      answered := readable;
      mark := if readable && key in marks then Some(marks[key]) else None;
    }

    /** A mark at or above the present one replaces it; a lower one is ignored. */
    method Record(key: GrantKey, mark: Mark) returns (answered: bool)
      modifies this`marks
      ensures answered == writable
      ensures marks == if writable then Raise(old(marks), key, mark) else old(marks)
    {
      answered := writable;
      if writable {
        if key !in marks || !Behind(mark, marks[key]) {
          marks := marks[key := mark];
        }
      }
    }

    /** The one write that may lower a mark: the closure after a restore. */
    method Reset(key: GrantKey, mark: Mark) returns (answered: bool)
      modifies this`marks
      ensures answered == writable
      ensures marks == if writable then old(marks)[key := mark] else old(marks)
    {
      answered := writable;
      if writable {
        marks := marks[key := mark];
      }
    }
  }

  function InScopeRows(grants: map<GrantKey, GrantRow>, scope: Scope): (r: set<GrantKey>)
    ensures r <= grants.Keys
  {
    set k | k in grants && InScope(scope, grants[k].principal)
  }

  /** The rows a halt pushes to the anchor are rows of its scope. */
  lemma HaltReaches(grants: map<GrantKey, GrantRow>, scope: Scope, taken: set<GrantKey>)
    requires taken <= InScopeRows(FencedGrants(grants, scope), scope)
    ensures var fenced := FencedGrants(grants, scope);
      taken == set k | k in taken && k in fenced && InScope(scope, fenced[k].principal)
  {
  }

  class SQLiteIntentStore {
    const anchor: AuthorityAnchor?
    var grants: map<GrantKey, GrantRow>
    var halted: set<Scope>
    var caps: map<Scope, int>
    var capsVersion: nat
    var anchorRequired: bool
    var intents: map<IntentId, IntentRow>
    var usage: map<IntentId, UsageRow>
    var attempts: seq<AttemptRow>
    var riskClaims: map<RiskKey, IntentId>
    var permitClaims: map<RiskKey, IntentId>
    var permits: seq<PermitRow>
    var leases: map<IntentId, Owner>

    constructor (anchor: AuthorityAnchor?, anchorRequired: bool)
      ensures this.anchor == anchor
      ensures Tables() == Db(map[], {}, map[], 0, anchorRequired, map[], map[], [], map[], map[], [], map[])
    {
      this.anchor, this.anchorRequired := anchor, anchorRequired;
      grants, halted, caps, capsVersion := map[], {}, map[], 0;
      intents, usage, attempts := map[], map[], [];
      riskClaims, permitClaims, permits, leases := map[], map[], [], map[];
    }

    function Tables(): Db
      reads this
    {
      Db(grants, halted, caps, capsVersion, anchorRequired, intents, usage, attempts, riskClaims, permitClaims,
         permits, leases)
    }

    /** How this store instance sees the anchor at this moment. */
    function View(): AnchorView
      reads this, anchor
    {
      if anchor == null then NoAnchor else Anchor(anchor.readable, anchor.writable)
    }

    ghost function State(): World
      reads this, anchor
    {
      World(Tables(), if anchor == null then map[] else anchor.marks)
    }

    // ---- intents ----

    method Register(intent: Intent) returns (result: Result)
      modifies this`intents
      ensures Outcome(State(), result) == DoRegister(old(State()), intent)
    {
      if intent.id !in intents {
        intents := intents[intent.id := FreshRow(intent)];
        return Done;
      }
      result := if intents[intent.id].intent == intent then Done else Refused;
    }

    /** UPDATE of one held reservation. */
    method SettleUsage(id: IntentId, budget: Budget)
      modifies this`usage
      ensures usage == Settle(old(usage), id, budget)
    {
      if id in usage && usage[id].status == Held {
        match budget
        case Keep =>
        case Release => usage := usage[id := usage[id].(status := Released)];
        case Commit => usage := usage[id := usage[id].(status := Committed)];
      }
    }

    /** Moves the row if it is in an expected state, and settles the reservation with it. */
    method TransitionIntent(op: Op) returns (result: Result)
      requires op.Transition?
      modifies this`intents, this`usage
      ensures Outcome(State(), result) == DoTransition(old(State()), op)
    {
      if op.filled.Some? && op.filled.value < 0 {
        return Refused;
      }
      if op.id !in intents {
        return Refused;
      }
      var row := intents[op.id];
      if row.state !in op.expected {
        return NotExpected;
      }
      if !Allowed(row.state, op.to) {
        return Refused;
      }
      var effect := if op.effect.Some? then op.effect else row.effect;
      if effect.Some? && EffectTaken(intents, op.id, row.intent.venue, effect.value) {
        return EffectConflict;
      }
      row := row.(state := op.to, effect := effect, reasons := op.reasons);
      if op.ambiguity.Some? {
        row := row.(ambiguityUntil := op.ambiguity);
      }
      if op.filled.Some? {
        row := row.(filled := op.filled);
      }
      intents := intents[op.id := row];
      SettleUsage(op.id, op.budget);
      result := Done;
    }

    /** CAS into SUBMITTED, reserving one venue attempt under the reservation's own velocity snapshot. */
    method StartSubmission(op: Op) returns (result: Result)
      requires op.BeginSubmission?
      modifies this`intents, this`usage, this`attempts
      ensures Outcome(State(), result) == DoBegin(old(State()), op)
    {
      if op.id !in intents {
        return Refused;
      }
      var row := intents[op.id];
      if row.state !in op.expected {
        return NotExpected;
      }
      if row.submissions >= op.maxAttempts {
        return AttemptLimit;
      }
      if op.id !in usage {
        return Refused;
      }
      var reservation := usage[op.id];
      var attemptedAt := Seconds(op.now);
      if reservation.maxActions.Some? {
        if reservation.actionWindow.None? || reservation.actionWindow.value < 1 {
          return Refused;
        }
        var actions := VelocityCount(Tables(), reservation.grant.grantId, reservation.principal,
                                     attemptedAt - reservation.actionWindow.value, Some(op.id));
        if actions + 1 > reservation.maxActions.value {
          return VelocityLimit;
        }
      }
      if !Allowed(row.state, Submitted) {
        return Refused;
      }
      var count := row.submissions + 1;
      attempts := attempts + [AttemptRow(op.id, count, reservation.principal, reservation.grant, attemptedAt)];
      intents := intents[op.id := row.(state := Submitted, submissions := count, reasons := [],
                                       ambiguityUntil := None)];
      usage := usage[op.id := reservation.(submitted := true)];
      result := Started(count);
    }

    // ---- reservations and risk claims ----

    /** Adds up the reserved amounts of the selected rows. */
    method Turnover(rows: set<IntentId>) returns (total: int)
      requires rows <= usage.Keys
      ensures total == SumOf(usage, rows)
    {
      total := 0;
      var rest := rows;
      while rest != {}
        invariant rest <= rows
        invariant total + SumOf(usage, rest) == SumOf(usage, rows)
        decreases |rest|
      {
        var id :| id in rest;
        Ledger.SumRemove(usage, rest, id);
        total := total + usage[id].amount;
        rest := rest - {id};
      }
    }

    method CapAdmits(scope: Scope, amount: int, stamp: int) returns (admits: bool)
      ensures admits == CapFits(Tables(), scope, amount, stamp)
    {
      if scope !in caps {
        return true;
      }
      if caps[scope] <= 0 {
        return false;
      }
      if amount <= 0 {
        return true;
      }
      var current := Turnover(TrailingScope(usage, scope, stamp - TURNOVER_WINDOW_SECONDS));
      admits := current + amount <= caps[scope];
    }

    method GrantAdmits(grant: Grant, amount: int, stamp: int) returns (admits: bool)
      ensures admits == (TurnoverFits(Tables(), grant, amount, stamp) && VelocityFits(Tables(), grant, stamp))
    {
      if grant.limits.maxDailyTurnover.Some? {
        var current := Turnover(TrailingUsage(usage, grant.key.grantId, grant.principal,
                                              stamp - TURNOVER_WINDOW_SECONDS));
        if current + amount > grant.limits.maxDailyTurnover.value {
          return false;
        }
      }
      admits := VelocityFits(Tables(), grant, stamp);
    }

    /** Reserves turnover, exposure and an action slot, and claims the risk state, all or nothing. */
    method Reserve(op: Op) returns (result: Result)
      requires op.ReserveUsage? && op.view == View()
      modifies this`usage, this`riskClaims
      ensures Outcome(State(), result) == DoReserve(old(State()), op)
    {
      var id, stamp := op.intent.id, Seconds(op.now);
      var amount := ReservationAmount(op.intent);
      if amount.None? {
        return Refused;
      }
      if id in usage {
        return if usage[id].principal == op.intent.principal then Done else Refused;
      }
      var claim := RiskKey(op.grant.key, op.risk.scope, op.risk.stateVersion);
      var fits := GrantAdmits(op.grant, amount.value, stamp);
      var global := CapAdmits(Global, amount.value, stamp);
      var own := CapAdmits(Of(op.intent.principal), amount.value, stamp);
      var capsBehind := false;
      if amount.value > 0 && anchor != null {
        var answered, mark := anchor.HighWater(EXPOSURE_CAPS_KEY);
        capsBehind := !answered || (mark.Some? && Behind(Mark(capsVersion, 0), mark.value));
      }
      if !RiskStateFree(Tables(), claim, id) || !fits || capsBehind || !global || !own {
        return Refused;
      }
      riskClaims := riskClaims[claim := id];
      usage := usage[id := UsageRow(op.intent.principal, op.grant.key, stamp, op.grant.limits.maxActions,
                                    op.grant.limits.actionWindow, amount.value, Held, false)];
      result := Done;
    }

    method ClaimRisk(op: Op) returns (result: Result)
      requires op.ClaimPermitRisk?
      modifies this`permitClaims
      ensures Outcome(State(), result) == DoClaimPermitRisk(old(State()), op)
    {
      var claim := RiskKey(op.grant.key, op.risk.scope, op.risk.stateVersion);
      if !UsageHeld(Tables(), op.intent, op.grant) {
        return Refused;
      }
      if claim in permitClaims {
        return if permitClaims[claim] == op.intent.id then Done else Refused;
      }
      if Superseded(riskClaims, claim) || Superseded(permitClaims, claim) {
        return Refused;
      }
      permitClaims := permitClaims[claim := op.intent.id];
      result := Done;
    }

    // ---- permits ----

    /** Records an issued permit and the ambiguity window it opens. */
    method RecordExecutionPermit(op: Op) returns (result: Result)
      requires op.RecordPermit?
      modifies this`permits, this`intents
      ensures Outcome(State(), result) == DoRecord(old(State()), op)
    {
      var p := op.permit;
      if exists k :: 0 <= k < |permits| && LiveAt(permits[k], p.intent, op.skew, op.now) {
        return PreviousPermitLive;
      }
      if exists k :: 0 <= k < |permits| && Collides(permits[k], p) {
        return Refused;
      }
      result := Recorded(|permits|);
      permits := permits + [PermitRow(p.id, p.intent, p.principal, p.grant, p.epoch, p.fence, p.expiresAt, false,
                                      false)];
      if p.intent in intents {
        intents := intents[p.intent := intents[p.intent].(ambiguityUntil := Some(p.expiresAt))];
      }
    }

    /** Voids exactly the live permits of one intent. */
    method VoidUnconsumedPermits(id: IntentId)
      modifies this`permits
      ensures permits == VoidedLedger(old(permits), id)
    {
      var before := permits;
      for k := 0 to |permits|
        invariant |permits| == |before|
        invariant forall j :: 0 <= j < k ==> permits[j] == VoidedRow(before[j], id)
        invariant forall j :: k <= j < |before| ==> permits[j] == before[j]
      {
        if permits[k].intent == id && Live(permits[k]) {
          permits := permits[k := permits[k].(voided := true)];
        }
      }
    }

    predicate Permits(key: GrantKey)
      requires key in grants
      reads this, anchor
    {
      match View()
      case NoAnchor => !anchorRequired
      case Anchor(readable, _) => readable && !Regressed(anchor.marks, key, RowMark(grants[key]))
    }

    /** The execution authorization point: consumes the permit against the current epoch. The anchor is
        raised before the commit, and its failure rolls the consumption back. */
    method ConsumeExecutionPermit(op: Op) returns (result: Result)
      requires op.ConsumePermit? && op.view == View()
      modifies this`permits, this`grants, anchor
      ensures Outcome(State(), result) == DoConsume(old(State()), op)
      ensures anchor != null ==> anchor.readable == old(anchor.readable) && anchor.writable == old(anchor.writable)
    {
      var p := op.permit;
      var k := RowOf(permits, p.id);
      if k == |permits| || !BoundTo(permits[k], p) || permits[k].consumed || permits[k].voided
        || SupersededRow(permits, k) {
        return Refused;
      }
      if p.grant !in grants {
        return Refused;
      }
      var g := grants[p.grant];
      if g.principal != p.principal || g.status != Active || g.epoch != p.epoch || HaltedFor(Tables(), p.principal)
        || !Permits(p.grant) {
        return Refused;
      }
      if anchor != null {
        var recorded := anchor.Record(p.grant, Mark(g.epoch, g.fence + 1));
        if !recorded {
          return Refused;
        }
      }
      permits := permits[k := permits[k].(consumed := true)];
      grants := grants[p.grant := g.(fence := g.fence + 1)];
      result := Done;
    }

    // ---- grant authority ----

    method NextExecutionFence(op: Op) returns (result: Result)
      requires op.NextFence? && op.view == View()
      modifies this`grants, anchor
      ensures Outcome(State(), result) == DoNextFence(old(State()), op)
      ensures anchor != null ==> anchor.readable == old(anchor.readable) && anchor.writable == old(anchor.writable)
    {
      if op.key !in grants {
        return Refused;
      }
      var g := grants[op.key];
      if g.principal != op.principal || g.status != Active || HaltedFor(Tables(), op.principal) || !Permits(op.key) {
        return Refused;
      }
      if anchor != null {
        var recorded := anchor.Record(op.key, Mark(g.epoch, g.fence + 1));
        if !recorded {
          return Refused;
        }
      }
      grants := grants[op.key := g.(fence := g.fence + 1)];
      result := Fence(g.epoch, g.fence + 1);
    }

    /** Lifecycle change: stopping commits without the anchor, re-activation does not. */
    method SetStatus(op: Op) returns (result: Result)
      requires op.SetGrantStatus? && op.view == View()
      modifies this`grants, anchor
      ensures Outcome(State(), result) == DoSetStatus(old(State()), op)
      ensures anchor != null ==> anchor.readable == old(anchor.readable) && anchor.writable == old(anchor.writable)
    {
      if (anchorRequired && anchor == null) || op.key !in grants || grants[op.key].principal != op.principal {
        return Refused;
      }
      var g := grants[op.key];
      if anchor != null {
        if !anchor.readable {
          if op.status == Active {
            return Refused;
          }
        } else if Regressed(anchor.marks, op.key, RowMark(g)) {
          return Refused;
        }
      }
      if g.status == Revoked && op.status != Revoked {
        return Refused;
      }
      if g.status == op.status {
        if op.status != Active && anchor != null {
          var repaired := anchor.Record(op.key, RowMark(g));
        }
        return Done;
      }
      var changed := g.(status := op.status, epoch := g.epoch + 1);
      if anchor != null {
        var recorded := anchor.Record(op.key, RowMark(changed));
        if !recorded && op.status == Active {
          return Refused;
        }
      }
      grants := grants[op.key := changed];
      result := Done;
    }

    /** Operator recovery of a grant version that fell behind its mark. */
    method RevokeRestored(op: Op) returns (result: Result)
      requires op.RevokeAfterRestore? && op.view == View()
      modifies this`grants, anchor
      ensures Outcome(State(), result) == DoRevokeAfterRestore(old(State()), op)
      ensures anchor != null ==> anchor.readable == old(anchor.readable) && anchor.writable == old(anchor.writable)
    {
      if (anchorRequired && anchor == null) || op.key !in grants {
        return Refused;
      }
      var g := grants[op.key];
      var answered, mark := false, None;
      if anchor != null {
        answered, mark := anchor.HighWater(op.key);
      }
      var epoch := Max(g.epoch, if mark.Some? then mark.value.epoch else 0) + 1;
      var fence := Max(g.fence, if mark.Some? then mark.value.fence else 0);
      grants := grants[op.key := g.(status := Revoked, epoch := epoch, fence := fence)];
      if anchor != null && answered {
        var reset := anchor.Reset(op.key, Mark(epoch, fence));
      }
      result := Done;
    }

    /** Halts the scope and takes each of its grants to a new epoch, with or without the anchor, which takes
        `answers` rows before it stops answering. */
    method HaltScope(op: Op, answers: nat) returns (result: Result, reached: set<GrantKey>)
      requires op.Halt? && op.view == View()
      modifies this`grants, this`halted, anchor
      ensures Outcome(State(), result) == DoHalt(old(State()), op.(reached := reached))
      ensures result == Done && anchor != null && anchor.writable ==>
        reached <= InScopeRows(grants, op.scope)
        && (reached == InScopeRows(grants, op.scope) || |reached| == answers)
      ensures anchor != null ==> anchor.readable == old(anchor.readable) && anchor.writable == old(anchor.writable)
    {
      reached := {};
      if anchorRequired && anchor == null {
        return Refused, {};
      }
      if !op.allowUnprovisioned && !ScopeProvisioned(Tables(), op.scope) {
        return Refused, {};
      }
      halted := halted + {op.scope};
      grants := FencedGrants(grants, op.scope);
      if anchor != null {
        reached := RecordAll(InScopeRows(grants, op.scope), answers);
      }
      HaltReaches(old(grants), op.scope, reached);
      result := Done;
    }

    /** Pushes the rows to the anchor one by one, until it stops answering. */
    method RecordAll(rows: set<GrantKey>, answers: nat) returns (taken: set<GrantKey>)
      requires anchor != null && rows <= grants.Keys
      modifies anchor
      ensures taken <= rows
      ensures anchor.marks == if anchor.writable then RaiseAll(old(anchor.marks), grants, taken) else old(anchor.marks)
      ensures anchor.writable ==> taken == rows || |taken| == answers
      ensures anchor.readable == old(anchor.readable) && anchor.writable == old(anchor.writable)
    {
      taken := {};
      while rows - taken != {} && |taken| < answers
        invariant taken <= rows && |taken| <= answers
        invariant anchor.readable == old(anchor.readable) && anchor.writable == old(anchor.writable)
        invariant anchor.marks ==
          if anchor.writable then RaiseAll(old(anchor.marks), grants, taken) else old(anchor.marks)
        decreases rows - taken
      {
        var key :| key in rows - taken;
        RaiseOneMore(old(anchor.marks), grants, taken, key);
        var answered := anchor.Record(key, RowMark(grants[key]));
        if !answered {
          return;
        }
        taken := taken + {key};
      }
      assert rows - taken == {} ==> taken == rows;
    }

    /** Ends a halt without giving any epoch back. */
    method ResumeScope(op: Op) returns (result: Result)
      requires op.Resume? && op.view == View()
      modifies this`halted
      ensures Outcome(State(), result) == DoResume(old(State()), op)
    {
      if (anchorRequired && anchor == null) || op.scope !in halted {
        return Refused;
      }
      halted := halted - {op.scope};
      result := Done;
    }

    method ProvisionGrantVersion(op: Op) returns (result: Result)
      requires op.ProvisionGrant? && op.view == View()
      modifies this`grants, anchor
      ensures Outcome(State(), result) == DoProvision(old(State()), op)
      ensures anchor != null ==> anchor.readable == old(anchor.readable) && anchor.writable == old(anchor.writable)
    {
      var key := op.grant.key;
      if anchorRequired && anchor == null {
        return Refused;
      }
      if key in grants {
        return if grants[key].principal == op.grant.principal && grants[key].limits == op.grant.limits then Done
          else Refused;
      }
      if anchor != null {
        var recorded := anchor.Record(key, Mark(1, 0));
        if !recorded {
          return Refused;
        }
      }
      grants := grants[key := GrantRow(op.grant.principal, op.grant.limits, op.status, 1, 0)];
      result := Done;
    }

    /** Sets or clears the cap of a scope. An anchor that refuses the new version undoes everything but a
        tightening. */
    method SetCap(op: Op) returns (result: Result)
      requires op.SetExposureCap? && op.view == View()
      modifies this`caps, this`capsVersion, anchor
      ensures Outcome(State(), result) == DoSetCap(old(State()), op)
      ensures anchor != null ==> anchor.readable == old(anchor.readable) && anchor.writable == old(anchor.writable)
    {
      if (anchorRequired && anchor == null) || (op.cap.Some? && op.cap.value <= 0) {
        return Refused;
      }
      if !op.allowUnprovisioned && !ScopeProvisioned(Tables(), op.scope) {
        return Refused;
      }
      var tightening := op.cap.Some? && (op.scope !in caps || op.cap.value < caps[op.scope]);
      var version := capsVersion;
      if anchor != null {
        var answered, mark := anchor.HighWater(EXPOSURE_CAPS_KEY);
        if !answered {
          return Refused;
        }
        version := Max(version, if mark.Some? then mark.value.epoch else 0);
      }
      version := version + 1;
      if anchor != null {
        var recorded := anchor.Record(EXPOSURE_CAPS_KEY, Mark(version, 0));
        if !recorded && !tightening {
          return Refused;
        }
      }
      caps := if op.cap.Some? then caps[op.scope := op.cap.value] else caps - {op.scope};
      capsVersion := version;
      result := Done;
    }

    // ---- leases ----

    /** The same owner may take its own lease again. */
    method TakeIntentLease(id: IntentId, owner: Owner) returns (result: Result)
      modifies this`leases
      ensures Outcome(State(), result) == DoTakeLease(old(State()), id, owner)
    {
      if id in leases && leases[id] != owner {
        return Refused;
      }
      leases := leases[id := owner];
      result := Done;
    }

    method DropIntentLease(id: IntentId, owner: Owner) returns (result: Result)
      modifies this`leases
      ensures Outcome(State(), result) == DoDropLease(old(State()), id, owner)
    {
      if id in leases && leases[id] == owner {
        leases := leases - {id};
        return Done;
      }
      result := Refused;
    }
  }

  lemma RaiseOneMore(marks: map<GrantKey, Mark>, grants: map<GrantKey, GrantRow>, done: set<GrantKey>, key: GrantKey)
    requires key in grants && key !in done
    ensures RaiseAll(marks, grants, done + {key}) == Raise(RaiseAll(marks, grants, done), key, RowMark(grants[key]))
  {
  }
}
