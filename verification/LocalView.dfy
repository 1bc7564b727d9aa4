/** What the durable state says about one intent, and what one transaction may do to that. */
module LocalView {
  import opened Types
  import opened StoreOps

  /** The intent row, the status of its reservation and its permits in ledger order. */
  datatype Local = Local(row: Option<IntentRow>, usage: Option<UsageStatus>, permits: seq<PermitRow>)

  /** The ledger rows of one intent, in order. */
  function Rows(permits: seq<PermitRow>, i: IntentId): (r: seq<PermitRow>)
    ensures |r| <= |permits|
    ensures forall n :: 0 <= n < |r| ==> r[n].intent == i
  {
    if permits == [] then []
    else
      var k := |permits| - 1;
      Rows(permits[..k], i) + if permits[k].intent == i then [permits[k]] else []
  }

  /** Position of ledger row `k` among the permits of its own intent. */
  function Place(permits: seq<PermitRow>, k: nat): nat
    requires k < |permits|
  {
    |Rows(permits[..k], permits[k].intent)|
  }

  function View(w: World, i: IntentId): Local {
    Local(if i in w.db.intents then Some(w.db.intents[i]) else None,
          if i in w.db.usage then Some(w.db.usage[i].status) else None,
          Rows(w.db.permits, i))
  }

  lemma RowsAppend(permits: seq<PermitRow>, p: PermitRow, i: IntentId)
    ensures Rows(permits + [p], i) == Rows(permits, i) + if p.intent == i then [p] else []
  {
    assert (permits + [p])[..|permits|] == permits;
  }

  lemma {:induction false} RowsUpdate(permits: seq<PermitRow>, k: nat, p: PermitRow, i: IntentId)
    requires k < |permits| && p.intent == permits[k].intent
    ensures permits[k].intent != i ==> Rows(permits[k := p], i) == Rows(permits, i)
    ensures permits[k].intent == i ==>
      && Place(permits, k) < |Rows(permits, i)|
      && Rows(permits, i)[Place(permits, k)] == permits[k]
      && Rows(permits[k := p], i) == Rows(permits, i)[Place(permits, k) := p]
    decreases |permits|
  {
    var n := |permits| - 1;
    if k == n {
      assert permits[k := p][..n] == permits[..n];
    } else {
      RowsUpdate(permits[..n], k, p, i);
      assert permits[k := p][..n] == permits[..n][k := p];
      assert permits[..n][..k] == permits[..k];
    }
  }

  lemma {:induction false} RowsVoided(permits: seq<PermitRow>, id: IntentId, i: IntentId)
    ensures Rows(VoidedLedger(permits, id), i) == if id == i then VoidedLedger(Rows(permits, i), i)
      else Rows(permits, i)
    decreases |permits|
  {
    if permits != [] {
      var n := |permits| - 1;
      RowsVoided(permits[..n], id, i);
      assert VoidedLedger(permits, id)[..n] == VoidedLedger(permits[..n], id);
    }
  }

  /** Ledger order is kept: later rows of the same intent come later. */
  lemma {:induction false} PlacesOrdered(permits: seq<PermitRow>, j: nat, k: nat)
    requires j < k < |permits| && permits[j].intent == permits[k].intent
    ensures Place(permits, j) < Place(permits, k)
    decreases k
  {
    RowsUpdate(permits[..k], j, permits[j], permits[j].intent);
    assert permits[..k][..j] == permits[..j];
  }

  lemma RowPlaced(permits: seq<PermitRow>, k: nat)
    requires k < |permits|
    ensures var rows := Rows(permits, permits[k].intent);
      Place(permits, k) < |rows| && rows[Place(permits, k)] == permits[k]
  {
    RowsUpdate(permits, k, permits[k], permits[k].intent);
  }

  lemma {:induction false} RowStored(permits: seq<PermitRow>, i: IntentId, n: nat) returns (k: nat)
    requires n < |Rows(permits, i)|
    ensures k < |permits| && permits[k].intent == i && Place(permits, k) == n && permits[k] == Rows(permits, i)[n]
    decreases |permits|
  {
    var last := |permits| - 1;
    if n == |Rows(permits[..last], i)| {
      k := last;
    } else {
      k := RowStored(permits[..last], i, n);
      assert permits[..last][..k] == permits[..k];
    }
  }

  /** A row that was not superseded is the last permit of its intent. */
  lemma NewestIsLast(permits: seq<PermitRow>, k: nat)
    requires k < |permits| && !SupersededRow(permits, k)
    ensures Place(permits, k) == |Rows(permits, permits[k].intent)| - 1
  {
    var i := permits[k].intent;
    RowPlaced(permits, k);
    if Place(permits, k) < |Rows(permits, i)| - 1 {
      var j := RowStored(permits, i, |Rows(permits, i)| - 1);
      if j < k {
        PlacesOrdered(permits, j, k);
      }
    }
  }

  // ---- the local effect of a transaction ----

  function SettleLocal(usage: Option<UsageStatus>, budget: Budget): Option<UsageStatus> {
    if usage != Some(Held) then usage
    else match budget
      case Keep => usage
      case Release => Some(Released)
      case Commit => Some(Committed)
  }

  function Last<T>(s: seq<T>): T
    requires s != []
  {
    s[|s| - 1]
  }

  ghost predicate NoneLive(permits: seq<PermitRow>) {
    forall n :: 0 <= n < |permits| ==> !Live(permits[n])
  }

  predicate NoneConsumed(permits: seq<PermitRow>) {
    forall n :: 0 <= n < |permits| ==> !permits[n].consumed
  }

  /** The intent a transaction of the runtime works on. */
  function Subject(op: Op): Option<IntentId> {
    match op
    case Register(intent) => Some(intent.id)
    case Transition(id, _, _, _, _, _, _, _) => Some(id)
    case BeginSubmission(id, _, _, _) => Some(id)
    case ReserveUsage(intent, _, _, _, _) => Some(intent.id)
    case ReleaseUsage(id) => Some(id)
    case CommitUsage(id) => Some(id)
    case ClaimPermitRisk(intent, _, _) => Some(intent.id)
    case RecordPermit(permit, _, _) => Some(permit.intent)
    case VoidPermits(id) => Some(id)
    case TakeLease(id, _) => Some(id)
    case DropLease(id, _) => Some(id)
    case _ => None
  }

  ghost predicate TransitionStep(l: Local, op: Op, result: Result, l': Local)
    requires op.Transition?
  {
    if result == Done then
      && l.row.Some?
      && l.row.value.state in op.expected
      && Allowed(l.row.value.state, op.to)
      && (op.filled.Some? ==> op.filled.value >= 0)
      && l'.row == Some(l.row.value.(
           state := op.to,
           effect := if op.effect.Some? then op.effect else l.row.value.effect,
           reasons := op.reasons,
           ambiguityUntil := if op.ambiguity.Some? then op.ambiguity else l.row.value.ambiguityUntil,
           filled := if op.filled.Some? then op.filled else l.row.value.filled))
      && l'.usage == SettleLocal(l.usage, op.budget)
      && l'.permits == l.permits
    else
      && l' == l
      && (result == NotExpected ==> l.row.Some? && l.row.value.state !in op.expected)
      && (result == EffectConflict ==> l.row.Some? && (op.effect.Some? || l.row.value.effect.Some?))
      && ((l.row.Some? && l.row.value.state in op.expected && Allowed(l.row.value.state, op.to)
           && (op.filled.Some? ==> op.filled.value >= 0)) ==> result == EffectConflict)
  }

  ghost predicate BeginStep(l: Local, op: Op, result: Result, l': Local)
    requires op.BeginSubmission?
  {
    if result.Started? then
      && l.row.Some? && l.usage.Some?
      && l.row.value.state in op.expected && Allowed(l.row.value.state, Submitted)
      && l.row.value.submissions < op.maxAttempts
      && l'.row == Some(l.row.value.(state := Submitted, submissions := l.row.value.submissions + 1, reasons := [],
                                     ambiguityUntil := None))
      && l'.usage == l.usage && l'.permits == l.permits
    else l' == l && (result == NotExpected ==> l.row.Some? && l.row.value.state !in op.expected)
  }

  ghost predicate RecordStep(l: Local, op: Op, result: Result, l': Local)
    requires op.RecordPermit?
  {
    var p := op.permit;
    if result.Recorded? then
      && (forall n :: 0 <= n < |l.permits| ==> !LiveAt(l.permits[n], p.intent, op.skew, op.now))
      && l'.permits == l.permits + [PermitRow(p.id, p.intent, p.principal, p.grant, p.epoch, p.fence, p.expiresAt,
                                              false, false)]
      && l'.row == (if l.row.Some? then Some(l.row.value.(ambiguityUntil := Some(p.expiresAt))) else None)
      && l'.usage == l.usage
    else
      && l' == l
      && (result == PreviousPermitLive ==>
          exists n :: 0 <= n < |l.permits| && LiveAt(l.permits[n], p.intent, op.skew, op.now))
  }

  /** What the transaction of its own runtime may do to the view of an intent. */
  ghost predicate OwnStep(l: Local, op: Op, result: Result, l': Local) {
    match op
    case Register(intent) => l' == if l.row.None? then l.(row := Some(FreshRow(intent))) else l
    case Transition(_, _, _, _, _, _, _, _) => TransitionStep(l, op, result, l')
    case BeginSubmission(_, _, _, _) => BeginStep(l, op, result, l')
    case ReserveUsage(_, _, _, _, _) =>
      if result == Done then l' == l.(usage := if l.usage.Some? then l.usage else Some(Held)) else l' == l
    case ReleaseUsage(_) => l' == l.(usage := SettleLocal(l.usage, Release))
    case CommitUsage(_) => l' == l.(usage := SettleLocal(l.usage, Commit))
    case RecordPermit(_, _, _) => RecordStep(l, op, result, l')
    case VoidPermits(i) => l' == l.(permits := VoidedLedger(l.permits, i))
    case _ => l' == l
  }

  /** A consumption takes the newest permit of an intent, and only if it is live. */
  ghost predicate ConsumedStep(l: Local, l': Local) {
    && l.permits != []
    && Live(Last(l.permits))
    && l' == l.(permits := l.permits[|l.permits| - 1 := Last(l.permits).(consumed := true)])
  }

  lemma OwnTransition(w: World, op: Op, i: IntentId)
    requires op.Transition? && op.id == i
    ensures TransitionStep(View(w, i), op, Exec(w, op).result, View(Exec(w, op).w, i))
  {
    assert Exec(w, op) == DoTransition(w, op);
  }

  lemma OwnBegin(w: World, op: Op, i: IntentId)
    requires op.BeginSubmission? && op.id == i
    ensures BeginStep(View(w, i), op, Exec(w, op).result, View(Exec(w, op).w, i))
  {
    assert Exec(w, op) == DoBegin(w, op);
  }

  lemma OwnRecord(w: World, op: Op, i: IntentId)
    requires op.RecordPermit? && op.permit.intent == i
    ensures RecordStep(View(w, i), op, Exec(w, op).result, View(Exec(w, op).w, i))
  {
    var o := Exec(w, op);
    var p := op.permit;
    assert o == DoRecord(w, op);
    var rows := Rows(w.db.permits, i);
    if o.result.Recorded? {
      RowsAppend(w.db.permits, o.w.db.permits[|w.db.permits|], i);
      forall n | 0 <= n < |rows| ensures !LiveAt(rows[n], p.intent, op.skew, op.now) {
        var k := RowStored(w.db.permits, i, n);
      }
    } else if o.result == PreviousPermitLive {
      var k :| 0 <= k < |w.db.permits| && LiveAt(w.db.permits[k], p.intent, op.skew, op.now);
      RowPlaced(w.db.permits, k);
      assert LiveAt(rows[Place(w.db.permits, k)], p.intent, op.skew, op.now);
    }
  }

  lemma OwnReserve(w: World, op: Op, i: IntentId)
    requires op.ReserveUsage? && op.intent.id == i
    ensures OwnStep(View(w, i), op, Exec(w, op).result, View(Exec(w, op).w, i))
  {
    assert Exec(w, op) == DoReserve(w, op);
  }

  lemma OwnRest(w: World, op: Op, i: IntentId)
    requires Subject(op) == Some(i)
    requires !op.Transition? && !op.BeginSubmission? && !op.RecordPermit? && !op.ReserveUsage?
    ensures OwnStep(View(w, i), op, Exec(w, op).result, View(Exec(w, op).w, i))
  {
    if op.VoidPermits? {
      RowsVoided(w.db.permits, i, i);
    }
  }

  lemma OwnEffect(w: World, op: Op, i: IntentId)
    requires Subject(op) == Some(i)
    ensures OwnStep(View(w, i), op, Exec(w, op).result, View(Exec(w, op).w, i))
  {
    match op
    case Transition(_, _, _, _, _, _, _, _) => OwnTransition(w, op, i);
    case BeginSubmission(_, _, _, _) => OwnBegin(w, op, i);
    case RecordPermit(_, _, _) => OwnRecord(w, op, i);
    case ReserveUsage(_, _, _, _, _) => OwnReserve(w, op, i);
    case _ => OwnRest(w, op, i);
  }

  lemma OtherRuntime(w: World, op: Op, i: IntentId)
    requires Subject(op) != Some(i) && (op.Transition? || op.BeginSubmission? || op.ReserveUsage?)
    ensures View(Exec(w, op).w, i) == View(w, i)
  {
    var o := Exec(w, op);
    match op
    case Transition(_, _, _, _, _, _, _, _) => assert o == DoTransition(w, op);
    case BeginSubmission(_, _, _, _) => assert o == DoBegin(w, op);
    case ReserveUsage(_, _, _, _, _) => assert o == DoReserve(w, op);
  }

  lemma OtherPermits(w: World, op: Op, i: IntentId)
    requires Subject(op) != Some(i) && (op.RecordPermit? || op.VoidPermits?)
    ensures View(Exec(w, op).w, i) == View(w, i)
  {
    if op.VoidPermits? {
      RowsVoided(w.db.permits, op.id, i);
    } else {
      var o := Exec(w, op);
      assert o == DoRecord(w, op);
      if o.result.Recorded? {
        RowsAppend(w.db.permits, o.w.db.permits[|w.db.permits|], i);
      }
    }
  }

  lemma OtherAuthority(w: World, op: Op, i: IntentId)
    requires ChangesAuthority(op) && !op.ConsumePermit?
    ensures View(Exec(w, op).w, i) == View(w, i)
  {
    assert Exec(w, op) == ExecAuthority(w, op);
  }

  /** Transactions of another intent's runtime, and those of operators, do not touch the view. */
  lemma OtherEffect(w: World, op: Op, i: IntentId)
    requires Subject(op) != Some(i) && !op.ConsumePermit?
    ensures View(Exec(w, op).w, i) == View(w, i)
  {
    if ChangesAuthority(op) {
      OtherAuthority(w, op, i);
    } else if op.Transition? || op.BeginSubmission? || op.ReserveUsage? {
      OtherRuntime(w, op, i);
    } else if op.RecordPermit? || op.VoidPermits? {
      OtherPermits(w, op, i);
    }
  }

  lemma ConsumeEffect(w: World, op: Op, i: IntentId)
    requires op.ConsumePermit?
    ensures var l, l' := View(w, i), View(Exec(w, op).w, i);
      if Exec(w, op).result == Done && w.db.permits[RowOf(w.db.permits, op.permit.id)].intent == i
      then ConsumedStep(l, l') else l' == l
  {
    var o := Exec(w, op);
    assert o == DoConsume(w, op);
    if o.result == Done {
      var k := RowOf(w.db.permits, op.permit.id);
      var p := w.db.permits[k];
      RowsUpdate(w.db.permits, k, p.(consumed := true), i);
      NewestIsLast(w.db.permits, k);
    }
  }

  /** permit_counts sees a consumed permit of the intent exactly when its own rows hold one. */
  lemma ConsumedSeen(db: Db, i: IntentId)
    ensures AnyConsumed(db, i) <==> !NoneConsumed(Rows(db.permits, i))
  {
    if AnyConsumed(db, i) {
      var k :| 0 <= k < |db.permits| && db.permits[k].intent == i && db.permits[k].consumed;
      RowPlaced(db.permits, k);
    }
    if !NoneConsumed(Rows(db.permits, i)) {
      var n :| 0 <= n < |Rows(db.permits, i)| && Rows(db.permits, i)[n].consumed;
      var k := RowStored(db.permits, i, n);
    }
  }
}
