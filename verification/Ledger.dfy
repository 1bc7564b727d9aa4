/** Trailing-window bounds of the aggregate ledgers, for every sequence of transactions. */
module Ledger {
  import opened Types
  import opened StoreOps

  // ---- sums over sets of reservations ----

  lemma {:induction false} SumRemove(usage: map<IntentId, UsageRow>, keys: set<IntentId>, k: IntentId)
    requires keys <= usage.Keys && k in keys
    ensures SumOf(usage, keys) == usage[k].amount + SumOf(usage, keys - {k})
    decreases |keys|
  {
    var p :| p in keys && SumOf(usage, keys) == usage[p].amount + SumOf(usage, keys - {p});
    if p != k {
      SumRemove(usage, keys - {p}, k);
      SumRemove(usage, keys - {k}, p);
      assert keys - {p} - {k} == keys - {k} - {p};
    }
  }

  lemma {:induction false} SumAgrees(u: map<IntentId, UsageRow>, v: map<IntentId, UsageRow>, keys: set<IntentId>)
    requires keys <= u.Keys && keys <= v.Keys
    requires forall i :: i in keys ==> u[i].amount == v[i].amount
    ensures SumOf(u, keys) == SumOf(v, keys)
    decreases |keys|
  {
    if keys != {} {
      var k :| k in keys;
      SumRemove(u, keys, k);
      SumRemove(v, keys, k);
      SumAgrees(u, v, keys - {k});
    }
  }

  ghost predicate NonNegative(usage: map<IntentId, UsageRow>) {
    forall i :: i in usage ==> usage[i].amount >= 0
  }

  lemma {:induction false} SumSubset(usage: map<IntentId, UsageRow>, small: set<IntentId>, large: set<IntentId>)
    requires small <= large <= usage.Keys && NonNegative(usage)
    ensures 0 <= SumOf(usage, small) <= SumOf(usage, large)
    decreases |large|
  {
    if large != {} {
      var k :| k in large;
      SumRemove(usage, large, k);
      if k in small {
        SumRemove(usage, small, k);
        SumSubset(usage, small - {k}, large - {k});
      } else {
        SumSubset(usage, small, large - {k});
      }
    }
  }

  // ---- turnover: one theorem for grants and for operator scopes ----

  /** What a turnover limit ranges over: every version of a grant id, or an operator scope. */
  datatype Book = ByGrant(grantId: string, principal: PrincipalId) | ByScope(scope: Scope)

  /** Reserved or spent, under the grant id by the principal or before principals were recorded, or by
      anyone in the scope. */
  predicate InBook(u: UsageRow, b: Book) {
    && (u.status == Held || u.status == Committed)
    && match b
       case ByGrant(g, p) => u.grant.grantId == g && (u.principal == p || u.principal == "legacy:unknown")
       case ByScope(Global) => true
       case ByScope(Of(p)) => u.principal == p
  }

  function Trailing(usage: map<IntentId, UsageRow>, b: Book, since: int): set<IntentId> {
    set i | i in usage && InBook(usage[i], b) && usage[i].stamp >= since
  }

  /** Held and committed reservations stamped in the inclusive window [start, start + 86400]. */
  function InWindow(usage: map<IntentId, UsageRow>, b: Book, start: int): set<IntentId> {
    set i | i in usage && InBook(usage[i], b) && start <= usage[i].stamp <= start + 86_400
  }

  ghost predicate TurnoverBounded(usage: map<IntentId, UsageRow>, b: Book, cap: int) {
    forall start: int :: SumOf(usage, InWindow(usage, b, start)) <= cap
  }

  /** Nothing new, nothing re-dated, nothing revived. */
  ghost predicate UsageShrinks(u: map<IntentId, UsageRow>, v: map<IntentId, UsageRow>) {
    && u.Keys == v.Keys
    && forall i :: i in u ==>
         && v[i] == u[i].(status := v[i].status, submitted := v[i].submitted)
         && (v[i].status != Released ==> u[i].status != Released)
         && (u[i].submitted ==> v[i].submitted)
  }

  /** Every transaction other than an admitted reservation only shrinks the ledger. */
  lemma UsageEffect(w: World, op: Op)
    ensures var w' := Exec(w, op).w;
      if op.ReserveUsage? && w'.db.usage != w.db.usage then
        && op.intent.id !in w.db.usage
        && ReservationAdmitted(w, op)
        && w'.db.usage == w.db.usage[op.intent.id := w'.db.usage[op.intent.id]]
        && w'.db.usage[op.intent.id] == UsageRow(op.intent.principal, op.grant.key, Seconds(op.now),
             op.grant.limits.maxActions, op.grant.limits.actionWindow, ReservationAmount(op.intent).value, Held, false)
      else UsageShrinks(w.db.usage, w'.db.usage)
  {
    if op.ReserveUsage? {
      ReserveAdds(w, op);
    } else {
      OtherUsage(w, op);
    }
  }

  lemma SettleShrinks(usage: map<IntentId, UsageRow>, id: IntentId, budget: Budget)
    ensures UsageShrinks(usage, Settle(usage, id, budget))
  {
  }

  lemma TransitionSettles(w: World, op: Op)
    requires op.Transition?
    ensures UsageShrinks(w.db.usage, DoTransition(w, op).w.db.usage)
  {
    SettleShrinks(w.db.usage, op.id, op.budget);
    assert DoTransition(w, op).w.db.usage in {w.db.usage, Settle(w.db.usage, op.id, op.budget)};
  }

  lemma BeginMarks(w: World, op: Op)
    requires op.BeginSubmission?
    ensures var o := DoBegin(w, op);
      if o.result.Started? then
        op.id in w.db.usage && o.w.db.usage == w.db.usage[op.id := w.db.usage[op.id].(submitted := true)]
      else o.w == w
  {
    hide ActionSlotFree, Seconds, Allowed;
  }

  lemma BeginSubmits(w: World, op: Op)
    requires op.BeginSubmission?
    ensures UsageShrinks(w.db.usage, DoBegin(w, op).w.db.usage)
  {
    hide DoBegin;
    BeginMarks(w, op);
  }

  lemma OtherUsage(w: World, op: Op)
    requires !op.ReserveUsage?
    ensures UsageShrinks(w.db.usage, Exec(w, op).w.db.usage)
  {
    if op.Transition? {
      TransitionSettles(w, op);
    } else if op.BeginSubmission? {
      BeginSubmits(w, op);
    } else if op.ReleaseUsage? {
      SettleShrinks(w.db.usage, op.id, Release);
    } else if op.CommitUsage? {
      SettleShrinks(w.db.usage, op.id, Commit);
    }
  }

  lemma ReserveAdds(w: World, op: Op)
    requires op.ReserveUsage?
    ensures var u, v := w.db.usage, DoReserve(w, op).w.db.usage;
      u != v ==>
        && op.intent.id !in u
        && ReservationAdmitted(w, op)
        && v == u[op.intent.id := UsageRow(op.intent.principal, op.grant.key, Seconds(op.now),
             op.grant.limits.maxActions, op.grant.limits.actionWindow, ReservationAmount(op.intent).value, Held, false)]
  {
  }

  lemma ShrinkKeepsBound(u: map<IntentId, UsageRow>, v: map<IntentId, UsageRow>, b: Book, cap: int)
    requires UsageShrinks(u, v) && NonNegative(u) && TurnoverBounded(u, b, cap)
    ensures NonNegative(v) && TurnoverBounded(v, b, cap)
  {
    forall start: int ensures SumOf(v, InWindow(v, b, start)) <= cap {
      SumAgrees(u, v, InWindow(v, b, start));
      SumSubset(u, InWindow(v, b, start), InWindow(u, b, start));
    }
  }

  /** The admission check looks back from the new stamp and never forward, and still every window
      holding the new row stays within the cap, whatever order the stamps arrived in. */
  lemma AdmissionBoundsEveryWindow(u: map<IntentId, UsageRow>, id: IntentId, r: UsageRow, b: Book, cap: int, start: int)
    requires NonNegative(u) && id !in u && r.amount >= 0
    requires SumOf(u, Trailing(u, b, r.stamp - 86_400)) + r.amount <= cap
    requires start <= r.stamp <= start + 86_400
    ensures SumOf(u[id := r], InWindow(u[id := r], b, start)) <= cap
  {
    var v := u[id := r];
    var before := InWindow(u, b, start);
    SumSubset(u, before, Trailing(u, b, r.stamp - 86_400));
    SumAgrees(u, v, before);
    if InBook(r, b) {
      SumRemove(v, InWindow(v, b, start), id);
      assert InWindow(v, b, start) - {id} == before;
    } else {
      assert InWindow(v, b, start) == before;
    }
  }

  lemma ReserveKeepsBound(u: map<IntentId, UsageRow>, id: IntentId, r: UsageRow, b: Book, cap: int)
    requires NonNegative(u) && TurnoverBounded(u, b, cap) && id !in u && r.amount >= 0
    requires InBook(r, b) && r.amount > 0 ==>
      SumOf(u, Trailing(u, b, r.stamp - 86_400)) + r.amount <= cap
    ensures NonNegative(u[id := r]) && TurnoverBounded(u[id := r], b, cap)
  {
    var v := u[id := r];
    forall start: int ensures SumOf(v, InWindow(v, b, start)) <= cap {
      var before := InWindow(u, b, start);
      SumAgrees(u, v, before);
      if InBook(r, b) && start <= r.stamp <= start + 86_400 {
        if r.amount > 0 {
          AdmissionBoundsEveryWindow(u, id, r, b, cap, start);
        } else {
          SumRemove(v, InWindow(v, b, start), id);
          assert InWindow(v, b, start) - {id} == before;
          assert SumOf(u, before) <= cap;
        }
      } else {
        assert InWindow(v, b, start) == before;
        assert SumOf(u, before) <= cap;
      }
    }
  }

  /** What the store sums before it admits a reservation is the trailing part of the book. */
  lemma TrailingRows(usage: map<IntentId, UsageRow>, grantId: string, principal: PrincipalId, stamp: int)
    ensures TrailingUsage(usage, grantId, principal, stamp - TURNOVER_WINDOW_SECONDS)
      == Trailing(usage, ByGrant(grantId, principal), stamp - 86_400)
  {
  }

  lemma TrailingScopeRows(usage: map<IntentId, UsageRow>, scope: Scope, stamp: int)
    ensures TrailingScope(usage, scope, stamp - TURNOVER_WINDOW_SECONDS)
      == Trailing(usage, ByScope(scope), stamp - 86_400)
  {
  }

  /** What a reservation books: the whole authorised amount, nothing for a cancellation. */
  predicate Books(intent: Intent, amount: int) {
    if intent.primitive == CancelOrder then amount == 0
    else intent.amount.Some? && intent.amount.value == amount && amount > 0
  }

  /** A new reservation under a turnover limit, and one under a scope's cap, is refused whenever the rows
      of the last 86,400 seconds and its amount exceed it. */
  lemma OverspendRefused(w: World, op: Op, amount: int)
    requires op.ReserveUsage? && op.intent.id !in w.db.usage && Books(op.intent, amount)
    ensures var since := Seconds(op.now) - 86_400;
      var spent := SumOf(w.db.usage, Trailing(w.db.usage, ByGrant(op.grant.key.grantId, op.grant.principal), since));
      op.grant.limits.maxDailyTurnover.Some? && spent + amount > op.grant.limits.maxDailyTurnover.value ==>
        Exec(w, op) == Outcome(w, Refused)
    ensures forall scope: Scope | scope == Global || scope == Of(op.intent.principal) ::
      var spent := SumOf(w.db.usage, Trailing(w.db.usage, ByScope(scope), Seconds(op.now) - 86_400));
      scope in w.db.caps && amount > 0 && spent + amount > w.db.caps[scope] ==> Exec(w, op) == Outcome(w, Refused)
  {
    assert Exec(w, op) == DoReserve(w, op);
    TrailingRows(w.db.usage, op.grant.key.grantId, op.grant.principal, Seconds(op.now));
    TrailingScopeRows(w.db.usage, Global, Seconds(op.now));
    TrailingScopeRows(w.db.usage, Of(op.intent.principal), Seconds(op.now));
  }

  /** The caller side: the grant names the intent's own principal, and every reservation of the
      grant id is made under a turnover limit of at most `cap`. */
  predicate CommonTurnoverCap(op: Op, grantId: string, cap: int) {
    op.ReserveUsage? && op.grant.key.grantId == grantId ==>
      && op.intent.principal == op.grant.principal != "legacy:unknown"
      && op.grant.limits.maxDailyTurnover.Some?
      && op.grant.limits.maxDailyTurnover.value <= cap
  }

  lemma {:induction false} GrantTurnoverBound(w: World, ops: seq<Op>, grantId: string, principal: PrincipalId, cap: int)
    requires NonNegative(w.db.usage) && TurnoverBounded(w.db.usage, ByGrant(grantId, principal), cap)
    requires forall k :: 0 <= k < |ops| ==> CommonTurnoverCap(ops[k], grantId, cap)
    ensures NonNegative(ExecAll(w, ops).db.usage)
    ensures TurnoverBounded(ExecAll(w, ops).db.usage, ByGrant(grantId, principal), cap)
    decreases |ops|
  {
    if ops != [] {
      var op := ops[0];
      var w' := Exec(w, op).w;
      var b := ByGrant(grantId, principal);
      UsageEffect(w, op);
      if op.ReserveUsage? && w'.db.usage != w.db.usage {
        var r := w'.db.usage[op.intent.id];
        if InBook(r, b) {
          assert CommonTurnoverCap(op, grantId, cap);
          TrailingRows(w.db.usage, grantId, principal, r.stamp);
        }
        ReserveKeepsBound(w.db.usage, op.intent.id, r, b, cap);
      } else {
        ShrinkKeepsBound(w.db.usage, w'.db.usage, b, cap);
      }
      GrantTurnoverBound(w', ops[1..], grantId, principal, cap);
    }
  }

  /** The operator never loosens the scope's cap above `cap` nor clears it. */
  predicate ScopeCapKept(op: Op, scope: Scope, cap: int) {
    op.SetExposureCap? && op.scope == scope ==> op.cap.Some? && op.cap.value <= cap
  }

  lemma CapsEffect(w: World, op: Op, scope: Scope, cap: int)
    requires scope in w.db.caps && w.db.caps[scope] <= cap && ScopeCapKept(op, scope, cap)
    ensures scope in Exec(w, op).w.db.caps && Exec(w, op).w.db.caps[scope] <= cap
  {
    if op.SetExposureCap? {
      assert Exec(w, op) == DoSetCap(w, op);
    }
  }

  lemma {:induction false} ScopeExposureBound(w: World, ops: seq<Op>, scope: Scope, cap: int)
    requires NonNegative(w.db.usage) && TurnoverBounded(w.db.usage, ByScope(scope), cap)
    requires scope in w.db.caps && w.db.caps[scope] <= cap
    requires forall k :: 0 <= k < |ops| ==> ScopeCapKept(ops[k], scope, cap)
    ensures TurnoverBounded(ExecAll(w, ops).db.usage, ByScope(scope), cap)
    decreases |ops|
  {
    if ops != [] {
      var op := ops[0];
      var w' := Exec(w, op).w;
      var b := ByScope(scope);
      UsageEffect(w, op);
      CapsEffect(w, op, scope, cap);
      if op.ReserveUsage? && w'.db.usage != w.db.usage {
        var r := w'.db.usage[op.intent.id];
        TrailingScopeRows(w.db.usage, scope, r.stamp);
        ReserveKeepsBound(w.db.usage, op.intent.id, r, b, cap);
      } else {
        ShrinkKeepsBound(w.db.usage, w'.db.usage, b, cap);
      }
      ScopeExposureBound(w', ops[1..], scope, cap);
    }
  }

  /** The operator's request is one the store accepts: a positive cap of a known scope, with the anchor
      when one is required. */
  predicate CapAcceptable(w: World, op: Op)
    requires op.SetExposureCap?
  {
    && !AnchorMissing(w.db, op.view)
    && (op.cap.Some? ==> op.cap.value > 0)
    && (op.allowUnprovisioned || ScopeProvisioned(w.db, op.scope))
  }

  /** The request lowers the cap or sets the first one. */
  predicate Tightens(w: World, op: Op)
    requires op.SetExposureCap?
  {
    op.cap.Some? && (op.scope in w.db.caps ==> op.cap.value < w.db.caps[op.scope])
  }

  /** An acceptable change of a cap commits exactly when the anchor, if there is one, can be read and,
      unless the change tightens, be written as well. Committed, the cap of the scope is the new one, no
      other cap moves, and reservations are judged against it at once; otherwise nothing changes and
      whatever looser cap there was stays in force. */
  lemma CapCommitsIff(w: World, op: Op)
    requires op.SetExposureCap? && CapAcceptable(w, op)
    ensures var o := Exec(w, op);
      && (o.result == Done <==> (op.view.Anchor? ==> op.view.readable && (op.view.writable || Tightens(w, op))))
      && (o.result == Done ==>
            && o.w.db.caps == (if op.cap.Some? then w.db.caps[op.scope := op.cap.value] else w.db.caps - {op.scope})
            && !CapsRegressed(o.w, op.view))
      && (o.result != Done ==> o == Outcome(w, Refused))
  {
    assert Exec(w, op) == DoSetCap(w, op);
  }

  /** One grant, no cap, and an anchor that cannot be read: setting the first cap is a tightening and is
      refused, while pausing the grant through the same anchor commits. */
  lemma UnreadableAnchorRefusesTightening(key: GrantKey, principal: PrincipalId, limits: Limits, cap: int)
    requires cap > 0
    ensures var w := World(Db(map[key := GrantRow(principal, limits, Active, 1, 0)], {}, map[], 0, true,
                              map[], map[], [], map[], map[], [], map[]), map[]);
      var view := Anchor(false, false);
      var tighten := SetExposureCap(Global, Some(cap), false, view);
      && CapAcceptable(w, tighten) && Tightens(w, tighten)
      && Exec(w, tighten) == Outcome(w, Refused)
      && Exec(w, SetGrantStatus(key, principal, Paused, view)).result == Done
  {
    var w := World(Db(map[key := GrantRow(principal, limits, Active, 1, 0)], {}, map[], 0, true,
                      map[], map[], [], map[], map[], [], map[]), map[]);
    var tighten := SetExposureCap(Global, Some(cap), false, Anchor(false, false));
    var pause := SetGrantStatus(key, principal, Paused, Anchor(false, false));
    assert Exec(w, tighten) == DoSetCap(w, tighten);
    assert Exec(w, pause) == DoSetStatus(w, pause);
  }

  // ---- action velocity ----

  function AttemptsIn(attempts: seq<AttemptRow>, grantId: string, principal: PrincipalId, from: int, to: int): nat {
    if attempts == [] then 0
    else
      var last := attempts[|attempts| - 1];
      AttemptsIn(attempts[..|attempts| - 1], grantId, principal, from, to)
      + if last.grant.grantId == grantId && (last.principal == principal || last.principal == "legacy:unknown")
           && from <= last.stamp <= to then 1 else 0
  }

  function PendingIn(usage: map<IntentId, UsageRow>, grantId: string, principal: PrincipalId, from: int,
                     to: int): set<IntentId> {
    set i | i in usage && InBook(usage[i], ByGrant(grantId, principal)) && !usage[i].submitted
      && from <= usage[i].stamp <= to
  }

  /** Attempts made plus slots held in one window. */
  function SlotsUsed(db: Db, grantId: string, principal: PrincipalId, start: int, window: nat): nat {
    AttemptsIn(db.attempts, grantId, principal, start, start + window)
    + |PendingIn(db.usage, grantId, principal, start, start + window)|
  }

  ghost predicate VelocityBounded(db: Db, grantId: string, principal: PrincipalId, window: nat, cap: nat) {
    forall start: int :: SlotsUsed(db, grantId, principal, start, window) <= cap
  }

  /** Every reservation of the grant id carries a velocity snapshot at least as strict. */
  ghost predicate SnapshotsAtLeast(usage: map<IntentId, UsageRow>, grantId: string, window: nat, cap: nat) {
    forall i :: i in usage && usage[i].grant.grantId == grantId ==>
      && usage[i].principal != "legacy:unknown"
      && usage[i].maxActions.Some? && usage[i].maxActions.value <= cap
      && usage[i].actionWindow.Some? && usage[i].actionWindow.value >= window
  }

  lemma {:induction false} WindowWithinTrailing(attempts: seq<AttemptRow>, grantId: string, principal: PrincipalId,
                                                from: int, to: int, since: int)
    requires since <= from
    ensures AttemptsIn(attempts, grantId, principal, from, to) <= AttemptsSince(attempts, grantId, principal, since)
  {
    if attempts != [] {
      WindowWithinTrailing(attempts[..|attempts| - 1], grantId, principal, from, to, since);
    }
  }

  lemma SetGrows<T>(small: set<T>, large: set<T>)
    requires small <= large
    ensures |small| <= |large|
  {
    assert large == small + (large - small);
  }

  predicate CommonVelocity(op: Op, grantId: string, window: nat, cap: nat) {
    op.ReserveUsage? && op.grant.key.grantId == grantId ==>
      && op.intent.principal == op.grant.principal != "legacy:unknown"
      && op.grant.limits.maxActions.Some? && op.grant.limits.maxActions.value <= cap
      && op.grant.limits.actionWindow.Some? && op.grant.limits.actionWindow.value >= window > 0
  }

  /** The attempt ledger grows only by an admitted submission and is never rewritten. */
  lemma AttemptEffect(w: World, op: Op)
    ensures var w' := Exec(w, op).w;
      if w'.db.attempts == w.db.attempts then true
      else
        && op.BeginSubmission? && op.id in w.db.usage && op.id in w.db.intents
        && ActionSlotFree(w.db, op.id, Seconds(op.now))
        && (w.db.usage[op.id].maxActions.Some? ==> w.db.usage[op.id].actionWindow.Some?)
        && w'.db.usage == w.db.usage[op.id := w.db.usage[op.id].(submitted := true)]
        && w'.db.attempts == w.db.attempts + [AttemptRow(op.id, w.db.intents[op.id].submissions + 1,
             w.db.usage[op.id].principal, w.db.usage[op.id].grant, Seconds(op.now))]
  {
    if op.BeginSubmission? {
      assert Exec(w, op) == DoBegin(w, op);
    }
  }

  lemma BeginKeepsVelocity(w: World, op: Op, grantId: string, principal: PrincipalId, window: nat, cap: nat)
    requires VelocityBounded(w.db, grantId, principal, window, cap)
    requires SnapshotsAtLeast(w.db.usage, grantId, window, cap)
    requires Exec(w, op).w.db.attempts != w.db.attempts
    ensures VelocityBounded(Exec(w, op).w.db, grantId, principal, window, cap)
  {
    AttemptEffect(w, op);
    var db, db' := w.db, Exec(w, op).w.db;
    var u := db.usage[op.id];
    var stamp := Seconds(op.now);
    forall start: int ensures SlotsUsed(db', grantId, principal, start, window) <= cap {
      var pending := PendingIn(db'.usage, grantId, principal, start, start + window);
      assert db'.attempts[..|db'.attempts| - 1] == db.attempts;
      if u.grant.grantId == grantId && u.principal == principal && start <= stamp <= start + window {
        var since := stamp - u.actionWindow.value;
        WindowWithinTrailing(db.attempts, grantId, principal, start, start + window, since);
        SetGrows(pending, PendingSince(db.usage, grantId, principal, since, Some(op.id)));
      } else {
        SetGrows(pending, PendingIn(db.usage, grantId, principal, start, start + window));
        assert SlotsUsed(db, grantId, principal, start, window) <= cap;
      }
    }
  }

  lemma PendingWithin(usage: map<IntentId, UsageRow>, grantId: string, principal: PrincipalId, from: int, to: int,
                      since: int)
    requires since <= from
    ensures |PendingIn(usage, grantId, principal, from, to)| <= |PendingSince(usage, grantId, principal, since, None)|
  {
    SetGrows(PendingIn(usage, grantId, principal, from, to), PendingSince(usage, grantId, principal, since, None));
  }

  lemma PendingAdds(usage: map<IntentId, UsageRow>, id: IntentId, r: UsageRow, grantId: string, principal: PrincipalId,
                    from: int, to: int)
    requires id !in usage
    ensures |PendingIn(usage[id := r], grantId, principal, from, to)|
      <= |PendingIn(usage, grantId, principal, from, to)| + 1
  {
    SetGrows(PendingIn(usage[id := r], grantId, principal, from, to),
             PendingIn(usage, grantId, principal, from, to) + {id});
  }

  /** The new reservation takes a slot of this window. */
  lemma NewSlotFits(db: Db, db': Db, grant: Grant, id: IntentId, r: UsageRow, grantId: string, principal: PrincipalId,
                    window: nat, cap: nat, start: int)
    requires id !in db.usage && db'.usage == db.usage[id := r] && db'.attempts == db.attempts
    requires r.grant == grant.key && r.principal == grant.principal != "legacy:unknown" && !r.submitted
    requires grant.limits.maxActions.Some? && grant.limits.maxActions.value <= cap
    requires grant.limits.actionWindow.Some? && grant.limits.actionWindow.value >= window > 0
    requires VelocityFits(db, grant, r.stamp)
    requires InBook(r, ByGrant(grantId, principal)) && start <= r.stamp <= start + window
    ensures SlotsUsed(db', grantId, principal, start, window) <= cap
  {
    hide PendingIn, PendingSince, AttemptsIn, AttemptsSince;
    var since := r.stamp - grant.limits.actionWindow.value;
    WindowWithinTrailing(db.attempts, grantId, principal, start, start + window, since);
    PendingWithin(db.usage, grantId, principal, start, start + window, since);
    PendingAdds(db.usage, id, r, grantId, principal, start, start + window);
    assert principal == grant.principal;
  }

  lemma ReserveKeepsVelocity(w: World, op: Op, grantId: string, principal: PrincipalId, window: nat, cap: nat)
    requires VelocityBounded(w.db, grantId, principal, window, cap)
    requires op.ReserveUsage? && CommonVelocity(op, grantId, window, cap) && Exec(w, op).w.db.usage != w.db.usage
    ensures VelocityBounded(Exec(w, op).w.db, grantId, principal, window, cap)
  {
    hide Exec, TurnoverFits, CapFits, RiskStateFree, VelocityFits;
    UsageEffect(w, op);
    AttemptEffect(w, op);
    var db, db' := w.db, Exec(w, op).w.db;
    var r := db'.usage[op.intent.id];
    forall start: int ensures SlotsUsed(db', grantId, principal, start, window) <= cap {
      if InBook(r, ByGrant(grantId, principal)) && start <= r.stamp <= start + window {
        NewSlotFits(db, db', op.grant, op.intent.id, r, grantId, principal, window, cap, start);
      } else {
        assert PendingIn(db'.usage, grantId, principal, start, start + window)
            == PendingIn(db.usage, grantId, principal, start, start + window);
        assert SlotsUsed(db, grantId, principal, start, window) <= cap;
      }
    }
  }

  lemma ShrinkKeepsVelocity(db: Db, db': Db, grantId: string, principal: PrincipalId, window: nat, cap: nat)
    requires VelocityBounded(db, grantId, principal, window, cap)
    requires UsageShrinks(db.usage, db'.usage) && db'.attempts == db.attempts
    ensures VelocityBounded(db', grantId, principal, window, cap)
  {
    forall start: int ensures SlotsUsed(db', grantId, principal, start, window) <= cap {
      SetGrows(PendingIn(db'.usage, grantId, principal, start, start + window),
               PendingIn(db.usage, grantId, principal, start, start + window));
      assert SlotsUsed(db, grantId, principal, start, window) <= cap;
    }
  }

  lemma {:induction false} VelocityBound(w: World, ops: seq<Op>, grantId: string, principal: PrincipalId,
                                         window: nat, cap: nat)
    requires VelocityBounded(w.db, grantId, principal, window, cap)
    requires SnapshotsAtLeast(w.db.usage, grantId, window, cap)
    requires forall k :: 0 <= k < |ops| ==> CommonVelocity(ops[k], grantId, window, cap)
    ensures VelocityBounded(ExecAll(w, ops).db, grantId, principal, window, cap)
    decreases |ops|
  {
    if ops != [] {
      var op := ops[0];
      var w' := Exec(w, op).w;
      assert CommonVelocity(op, grantId, window, cap);
      UsageEffect(w, op);
      AttemptEffect(w, op);
      if w'.db.attempts != w.db.attempts {
        BeginKeepsVelocity(w, op, grantId, principal, window, cap);
      } else if op.ReserveUsage? && w'.db.usage != w.db.usage {
        ReserveKeepsVelocity(w, op, grantId, principal, window, cap);
      } else {
        ShrinkKeepsVelocity(w.db, w'.db, grantId, principal, window, cap);
      }
      VelocityBound(w', ops[1..], grantId, principal, window, cap);
    }
  }

  // ---- the attempt ledger against the durable counter ----

  function AttemptsOf(attempts: seq<AttemptRow>, id: IntentId): seq<AttemptRow> {
    if attempts == [] then []
    else
      var last := attempts[|attempts| - 1];
      AttemptsOf(attempts[..|attempts| - 1], id) + if last.intent == id then [last] else []
  }

  function Submissions(db: Db, id: IntentId): nat {
    if id in db.intents then db.intents[id].submissions else 0
  }

  /** The rows of an intent are numbered 1, 2, ... up to its submission count. */
  ghost predicate AttemptsNumbered(db: Db, id: IntentId) {
    && |AttemptsOf(db.attempts, id)| == Submissions(db, id)
    && forall k :: 0 <= k < |AttemptsOf(db.attempts, id)| ==> AttemptsOf(db.attempts, id)[k].number == k + 1
  }

  lemma SubmissionsEffect(w: World, op: Op, id: IntentId)
    ensures Submissions(Exec(w, op).w.db, id)
      == Submissions(w.db, id) + if Exec(w, op).w.db.attempts != w.db.attempts && op.id == id then 1 else 0
  {
    match op
    case Register(_) =>
    case Transition(_, _, _, _, _, _, _, _) =>
    case BeginSubmission(_, _, _, _) =>
    case RecordPermit(_, _, _) =>
    case _ =>
  }

  lemma {:induction false} AttemptsMatchCounter(w: World, ops: seq<Op>, id: IntentId)
    requires AttemptsNumbered(w.db, id)
    ensures AttemptsNumbered(ExecAll(w, ops).db, id)
    ensures w.db.attempts <= ExecAll(w, ops).db.attempts
    decreases |ops|
  {
    if ops != [] {
      var w' := Exec(w, ops[0]).w;
      AttemptEffect(w, ops[0]);
      SubmissionsEffect(w, ops[0], id);
      if w'.db.attempts != w.db.attempts {
        assert w'.db.attempts[..|w'.db.attempts| - 1] == w.db.attempts;
      }
      AttemptsMatchCounter(w', ops[1..], id);
    }
  }
}
