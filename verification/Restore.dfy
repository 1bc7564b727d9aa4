/** A datastore that may be restored to any earlier snapshot, next to an anchor that may not.
    Transactions may also crash after the anchor write and before the commit. */
module Restore {
  import opened Types
  import opened StoreOps
  import opened Authority

  /** One allocated fence: the identity of the only permit ever recorded for it. */
  datatype Token = Token(key: GrantKey, epoch: nat, fence: nat)

  /** The datastore, its anchor, every backup ever taken, and three histories no restore erases:
      allocated fences, the fence counter each permit was recorded under, and the counter each
      consumption left behind. */
  datatype Realm = Realm(
    w: World,
    backups: set<Db>,
    issued: set<Token>,
    recorded: map<Token, nat>,
    spent: map<Token, nat>)

  datatype Event =
    | Commits(op: Op)
    | CrashesBeforeCommit(op: Op)
    | BackupTaken
    | RestoredFrom(backup: Db)
    | Reopened(raised: set<GrantKey>)

  function TokenOf(p: IssuedPermit): Token {
    Token(p.grant, p.epoch, p.fence)
  }

  function RowToken(p: PermitRow): Token {
    Token(p.grant, p.epoch, p.fence)
  }

  /** The permit authority records a permit only under a fence it was given, and only once.
      Nothing else is asked of anyone. */
  ghost predicate Possible(r: Realm, e: Event) {
    match e
    case Commits(op) => op.RecordPermit? ==> TokenOf(op.permit) in r.issued && TokenOf(op.permit) !in r.recorded
    case CrashesBeforeCommit(op) => true
    case BackupTaken => true
    case RestoredFrom(backup) => backup in r.backups
    case Reopened(raised) => true
  }

  function FenceCounter(db: Db, key: GrantKey): nat {
    if key in db.grants then db.grants[key].fence else 0
  }

  function EpochCounter(db: Db, key: GrantKey): nat {
    if key in db.grants then db.grants[key].epoch else 0
  }

  /** An anchored open raises the marks that fell behind their rows. */
  function RaiseBehind(w: World, raised: set<GrantKey>): map<GrantKey, Mark> {
    RaiseAll(w.marks, w.db.grants, raised)
  }

  ghost function AfterCommit(r: Realm, op: Op): Realm {
    var o := Exec(r.w, op);
    var r' := r.(w := o.w);
    if op.NextFence? && o.result.Fence? then
      r'.(issued := r.issued + {Token(op.key, o.result.epoch, o.result.fence)})
    else if op.RecordPermit? && o.result.Recorded? then
      r'.(recorded := r.recorded[TokenOf(op.permit) := FenceCounter(r.w.db, op.permit.grant)])
    else if op.ConsumePermit? && o.result == Done then
      r'.(spent := r.spent[TokenOf(op.permit) := FenceCounter(o.w.db, op.permit.grant)])
    else r'
  }

  ghost function Happens(r: Realm, e: Event): Realm {
    match e
    case Commits(op) => AfterCommit(r, op)
    case CrashesBeforeCommit(op) => r.(w := r.w.(marks := Exec(r.w, op).w.marks))
    case BackupTaken => r.(backups := r.backups + {r.w.db})
    case RestoredFrom(backup) => r.(w := r.w.(db := backup))
    case Reopened(raised) => r.(w := r.w.(marks := RaiseBehind(r.w, raised)))
  }

  ghost function History(r: Realm, events: seq<Event>): Realm
    decreases |events|
  {
    if events == [] then r else History(Happens(r, events[0]), events[1..])
  }

  ghost predicate PossibleHistory(r: Realm, events: seq<Event>)
    decreases |events|
  {
    events == [] || (Possible(r, events[0]) && PossibleHistory(Happens(r, events[0]), events[1..]))
  }

  // ---- the invariant over every datastore that can still come back ----

  ghost predicate Holds(db: Db, t: Token) {
    exists k :: 0 <= k < |db.permits| && RowToken(db.permits[k]) == t
  }

  ghost predicate HoldsLive(db: Db, t: Token) {
    exists k :: 0 <= k < |db.permits| && RowToken(db.permits[k]) == t && !db.permits[k].consumed
  }

  ghost predicate DistinctFences(permits: seq<PermitRow>) {
    forall j, k :: 0 <= j < k < |permits| ==>
      !(permits[j].grant == permits[k].grant && permits[j].fence == permits[k].fence)
  }

  /** While the row has not passed the token's epoch, its counter is where it stood when the permit
      was recorded, unless the anchor has seen it move. */
  ghost predicate Traced(r: Realm, db: Db, t: Token) {
    && t in r.recorded
    && t in r.issued
    && FenceCounter(db, t.key) >= r.recorded[t]
    && (EpochCounter(db, t.key) <= t.epoch ==>
          FenceCounter(db, t.key) == r.recorded[t]
          || AtLeast(r.w.marks, t.key, Mark(t.epoch, FenceCounter(db, t.key))))
  }

  /** A copy in which a spent permit still looks unconsumed is behind the anchor. */
  ghost predicate SpentBehind(r: Realm, db: Db, t: Token) {
    HoldsLive(db, t) && t in r.spent && EpochCounter(db, t.key) <= t.epoch ==> FenceCounter(db, t.key) < r.spent[t]
  }

  ghost predicate DbInv(r: Realm, db: Db) {
    && db.anchorRequired
    && DistinctFences(db.permits)
    && (forall t: Token :: Holds(db, t) ==> Traced(r, db, t))
    && (forall t: Token :: t in r.spent ==> SpentBehind(r, db, t))
  }

  ghost predicate MarksInv(r: Realm) {
    && (forall t :: t in r.issued ==> AtLeast(r.w.marks, t.key, Mark(t.epoch, t.fence)))
    && (forall t :: t in r.spent ==> t in r.recorded && AtLeast(r.w.marks, t.key, Mark(t.epoch, r.spent[t])))
  }

  ghost predicate Inv(r: Realm) {
    && MarksInv(r)
    && DbInv(r, r.w.db)
    && forall b :: b in r.backups ==> DbInv(r, b)
  }

  /** Raising marks or learning of more allocations and records keeps the invariant of a copy. */
  lemma DbInvStable(r: Realm, r': Realm, db: Db)
    requires DbInv(r, db)
    requires MarksRise(r.w.marks, r'.w.marks)
    requires r.issued <= r'.issued && r'.spent == r.spent
    requires forall t :: t in r.recorded ==> t in r'.recorded && r'.recorded[t] == r.recorded[t]
    ensures DbInv(r', db)
  {
  }

  lemma MarksInvStable(r: Realm, r': Realm)
    requires MarksInv(r) && MarksRise(r.w.marks, r'.w.marks) && r'.issued == r.issued && r'.spent == r.spent
    requires r.recorded.Keys <= r'.recorded.Keys
    ensures MarksInv(r')
  {
  }

  /** One transaction that appends no permit keeps what the current copy says of a token. */
  lemma CopyKeeps(r: Realm, op: Op, t: Token)
    requires Inv(r) && !op.RecordPermit?
    ensures var r' := r.(w := Exec(r.w, op).w);
      && (Holds(r'.w.db, t) ==> Traced(r', r'.w.db, t))
      && (t in r.spent ==> SpentBehind(r', r'.w.db, t))
  {
    hide Exec;
    var db, db' := r.w.db, Exec(r.w, op).w.db;
    MarkEffect(r.w, op);
    PermitEffect(r.w, op);
    if Holds(db', t) {
      var k :| 0 <= k < |db'.permits| && RowToken(db'.permits[k]) == t;
      assert PermitAdvances(db.permits[k], db'.permits[k]);
      assert Holds(db, t);
      GrantEffect(r.w, op, t.key);
      CountersStep(r, op, t);
      if HoldsLive(db', t) && t in r.spent {
        var j :| 0 <= j < |db'.permits| && RowToken(db'.permits[j]) == t && !db'.permits[j].consumed;
        assert PermitAdvances(db.permits[j], db'.permits[j]);
        assert HoldsLive(db, t);
        SpentCountersStep(r, op, t);
      }
    }
    assert HoldsLive(db', t) ==> Holds(db', t);
  }

  /** The whole realm under a step that neither allocates, records nor consumes. */
  lemma QuietStep(r: Realm, op: Op)
    requires Inv(r)
    requires !op.RecordPermit? && !op.NextFence?
    requires op.ConsumePermit? ==> Exec(r.w, op).result != Done
    ensures Inv(Happens(r, Commits(op)))
  {
    var r' := Happens(r, Commits(op));
    MarkEffect(r.w, op);
    PermitEffect(r.w, op);
    ResultKinds(r.w, op);
    assert r' == r.(w := Exec(r.w, op).w);
    MarksInvStable(r, r');
    DistinctKept(r.w.db.permits, r'.w.db.permits);
    forall t: Token {
      CopyKeeps(r, op, t);
    }
    forall b | b in r'.backups ensures DbInv(r', b) {
      DbInvStable(r, r', b);
    }
  }

  lemma DistinctKept(before: seq<PermitRow>, after: seq<PermitRow>)
    requires DistinctFences(before) && |before| == |after| && LedgerAdvances(before, after)
    ensures DistinctFences(after)
  {
    forall j, k | 0 <= j < k < |after| ensures !(after[j].grant == after[k].grant && after[j].fence == after[k].fence) {
      assert PermitAdvances(before[j], after[j]) && PermitAdvances(before[k], after[k]);
    }
  }

  lemma CountersStep(r: Realm, op: Op, t: Token)
    requires r.w.db.anchorRequired && Traced(r, r.w.db, t) && MarksInv(r)
    requires GrantStep(r.w, Exec(r.w, op).w, t.key) && MarksRise(r.w.marks, Exec(r.w, op).w.marks)
    ensures Traced(r.(w := Exec(r.w, op).w), Exec(r.w, op).w.db, t)
  {
    hide Exec;
    assert AtLeast(r.w.marks, t.key, Mark(t.epoch, t.fence));
  }

  lemma SpentCountersStep(r: Realm, op: Op, t: Token)
    requires r.w.db.anchorRequired && Traced(r, r.w.db, t) && MarksInv(r) && t in r.spent
    requires EpochCounter(r.w.db, t.key) <= t.epoch ==> FenceCounter(r.w.db, t.key) < r.spent[t]
    requires GrantStep(r.w, Exec(r.w, op).w, t.key)
    ensures var db' := Exec(r.w, op).w.db; EpochCounter(db', t.key) <= t.epoch ==> FenceCounter(db', t.key) < r.spent[t]
  {
    assert AtLeast(r.w.marks, t.key, Mark(t.epoch, r.spent[t]));
  }

  /** A fence is allocated above every fence the anchor has seen: it was never allocated before,
      in this datastore or in one that was lost. */
  lemma FenceIsNew(r: Realm, op: Op)
    requires Inv(r) && op.NextFence? && Exec(r.w, op).result.Fence?
    ensures Token(op.key, Exec(r.w, op).result.epoch, Exec(r.w, op).result.fence) !in r.issued
  {
    IssueReadsEpoch(r.w, op);
    var t := Token(op.key, Exec(r.w, op).result.epoch, Exec(r.w, op).result.fence);
    assert AnchorPermits(r.w, op.view, op.key);
    assert t in r.issued ==> AtLeast(r.w.marks, t.key, Mark(t.epoch, t.fence));
  }

  lemma IssueStep(r: Realm, op: Op)
    requires Inv(r) && op.NextFence?
    ensures Inv(Happens(r, Commits(op)))
  {
    var r' := Happens(r, Commits(op));
    var db, db' := r.w.db, r'.w.db;
    MarkEffect(r.w, op);
    GrantEffect(r.w, op, op.key);
    assert db'.permits == db.permits && db'.anchorRequired;
    assert MarksInv(r') by {
      MarksInvStable(r, r'.(issued := r.issued));
      if Exec(r.w, op).result.Fence? {
        IssueReadsEpoch(r.w, op);
        assert AnchorPermits(r.w, op.view, op.key);
      }
    }
    forall t: Token {
      CopyKeeps(r, op, t);
    }
    forall b | b in r'.backups ensures DbInv(r', b) {
      DbInvStable(r, r', b);
    }
  }

  lemma RecordStep(r: Realm, op: Op)
    requires Inv(r) && op.RecordPermit? && Possible(r, Commits(op))
    ensures Inv(Happens(r, Commits(op)))
  {
    var r' := Happens(r, Commits(op));
    assert Exec(r.w, op) == DoRecord(r.w, op);
    if r'.w.db.permits != r.w.db.permits {
      RecordAppends(r, r', op);
    }
    forall b | b in r'.backups ensures DbInv(r', b) {
      DbInvStable(r, r', b);
    }
  }

  lemma RecordAppends(r: Realm, r': Realm, op: Op)
    requires Inv(r) && op.RecordPermit? && Possible(r, Commits(op))
    requires r' == Happens(r, Commits(op)) && r'.w.db.permits != r.w.db.permits
    ensures DbInv(r', r'.w.db)
  {
    hide AnchorPermits;
    var db, db' := r.w.db, r'.w.db;
    var added := TokenOf(op.permit);
    assert Exec(r.w, op) == DoRecord(r.w, op);
    assert |db'.permits| == |db.permits| + 1 && db'.permits[..|db.permits|] == db.permits;
    assert RowToken(db'.permits[|db.permits|]) == added;
    assert DistinctFences(db'.permits) by {
      forall j | 0 <= j < |db.permits| ensures !Collides(db.permits[j], op.permit) {}
    }
    forall t: Token | Holds(db', t) ensures Traced(r', db', t) {
      var k :| 0 <= k < |db'.permits| && RowToken(db'.permits[k]) == t;
      if k < |db.permits| {
        assert RowToken(db.permits[k]) == t;
        assert Holds(db, t);
      }
    }
    forall t: Token | t in r'.spent ensures SpentBehind(r', db', t) {
      if HoldsLive(db', t) {
        var k :| 0 <= k < |db'.permits| && RowToken(db'.permits[k]) == t && !db'.permits[k].consumed;
        if k < |db.permits| {
          assert RowToken(db.permits[k]) == t;
          assert HoldsLive(db, t);
        }
      }
    }
  }

  /** A consumption succeeds only for a permit that was never spent, in any lost history either. */
  lemma SpendsNew(r: Realm, op: Op)
    requires Inv(r) && op.ConsumePermit? && Exec(r.w, op).result == Done
    ensures Holds(r.w.db, TokenOf(op.permit)) && HoldsLive(r.w.db, TokenOf(op.permit))
    ensures TokenOf(op.permit) !in r.spent
    ensures !Regressed(r.w.marks, op.permit.grant, Mark(op.permit.epoch, FenceCounter(r.w.db, op.permit.grant)))
  {
    var t := TokenOf(op.permit);
    var k := RowOf(r.w.db.permits, op.permit.id);
    assert Consumable(r.w, k, op.permit, op.view);
    assert RowToken(r.w.db.permits[k]) == t;
    if t in r.spent {
      assert SpentBehind(r, r.w.db, t);
      assert AtLeast(r.w.marks, t.key, Mark(t.epoch, r.spent[t]));
    }
  }

  lemma ConsumeStep(r: Realm, op: Op)
    requires Inv(r) && op.ConsumePermit? && Exec(r.w, op).result == Done
    ensures Inv(Happens(r, Commits(op)))
  {
    var r' := Happens(r, Commits(op));
    var t := TokenOf(op.permit);
    var k := RowOf(r.w.db.permits, op.permit.id);
    SpendsNew(r, op);
    ConsumeNeedsEpoch(r.w, op);
    MarkEffect(r.w, op);
    GrantEffect(r.w, op, t.key);
    assert r'.w.db.permits == r.w.db.permits[k := r.w.db.permits[k].(consumed := true)];
    assert FenceCounter(r'.w.db, t.key) == FenceCounter(r.w.db, t.key) + 1;
    forall s: Token {
      CopyKeeps(r, op, s);
    }
    SpendKeepsInv(r, r', t, k);
  }

  lemma SpendKeepsInv(r: Realm, r': Realm, t: Token, k: nat)
    requires Inv(r) && r'.w.db.anchorRequired
    requires r' == r.(w := r'.w, spent := r.spent[t := FenceCounter(r.w.db, t.key) + 1])
    requires MarksRise(r.w.marks, r'.w.marks) && AtLeast(r'.w.marks, t.key, Mark(t.epoch, r'.spent[t]))
    requires !Regressed(r.w.marks, t.key, Mark(t.epoch, FenceCounter(r.w.db, t.key)))
    requires k < |r.w.db.permits| && RowToken(r.w.db.permits[k]) == t
    requires r'.w.db.permits == r.w.db.permits[k := r.w.db.permits[k].(consumed := true)]
    requires forall s: Token :: Holds(r'.w.db, s) ==> Traced(r.(w := r'.w), r'.w.db, s)
    requires forall s: Token :: s in r.spent ==> SpentBehind(r.(w := r'.w), r'.w.db, s)
    ensures Inv(r')
  {
    assert Holds(r.w.db, t);
    assert !HoldsLive(r'.w.db, t);
    forall s: Token | s in r'.spent ensures SpentBehind(r', r'.w.db, s) {
      assert s != t ==> SpentBehind(r.(w := r'.w), r'.w.db, s);
    }
    forall b | b in r'.backups ensures DbInv(r', b) {
      BackupsFallBehind(r, r', b, t);
    }
  }

  /** Every older copy that still holds the permit unconsumed has a smaller counter than the one the
      consumption leaves. */
  lemma BackupsFallBehind(r: Realm, r': Realm, b: Db, t: Token)
    requires DbInv(r, b) && MarksRise(r.w.marks, r'.w.marks)
    requires r' == r.(w := r'.w, spent := r.spent[t := FenceCounter(r.w.db, t.key) + 1])
    requires t in r.recorded && FenceCounter(r.w.db, t.key) >= r.recorded[t]
    requires !Regressed(r.w.marks, t.key, Mark(t.epoch, FenceCounter(r.w.db, t.key)))
    ensures DbInv(r', b)
  {
    DbInvStable(r, r'.(spent := r.spent), b);
    assert HoldsLive(b, t) ==> Holds(b, t);
    assert Holds(b, t) ==> Traced(r, b, t);
    forall s: Token | s in r'.spent ensures SpentBehind(r', b, s) {
      if s != t {
        assert SpentBehind(r, b, s);
      }
    }
  }

  lemma RaiseAllRises(marks: map<GrantKey, Mark>, grants: map<GrantKey, GrantRow>, reached: set<GrantKey>)
    ensures MarksRise(marks, RaiseAll(marks, grants, reached))
  {
  }

  lemma EventKeepsInv(r: Realm, e: Event)
    requires Inv(r) && Possible(r, e)
    ensures Inv(Happens(r, e))
    ensures r.issued <= Happens(r, e).issued && r.spent.Keys <= Happens(r, e).spent.Keys
    ensures MarksRise(r.w.marks, Happens(r, e).w.marks)
  {
    hide Exec;
    var r' := Happens(r, e);
    match e
    case Commits(op) =>
      MarkEffect(r.w, op);
      ResultKinds(r.w, op);
      if op.NextFence? {
        IssueStep(r, op);
      } else if op.RecordPermit? {
        RecordStep(r, op);
      } else if op.ConsumePermit? && Exec(r.w, op).result == Done {
        ConsumeStep(r, op);
      } else {
        QuietStep(r, op);
      }
    case CrashesBeforeCommit(op) =>
      MarkEffect(r.w, op);
      MarksOnly(r, r');
    case Reopened(raised) =>
      RaiseAllRises(r.w.marks, r.w.db.grants, raised);
      MarksOnly(r, r');
    case _ =>
  }

  lemma MarksOnly(r: Realm, r': Realm)
    requires Inv(r) && r' == r.(w := r.w.(marks := r'.w.marks)) && MarksRise(r.w.marks, r'.w.marks)
    ensures Inv(r')
  {
    MarksInvStable(r, r');
    DbInvStable(r, r', r.w.db);
    forall b | b in r'.backups ensures DbInv(r', b) {
      DbInvStable(r, r', b);
    }
  }

  lemma {:induction false} HistoryKeepsInv(r: Realm, events: seq<Event>)
    requires Inv(r) && PossibleHistory(r, events)
    ensures Inv(History(r, events))
    ensures r.issued <= History(r, events).issued && r.spent.Keys <= History(r, events).spent.Keys
    ensures MarksRise(r.w.marks, History(r, events).w.marks)
    decreases |events|
  {
    if events != [] {
      EventKeepsInv(r, events[0]);
      HistoryKeepsInv(Happens(r, events[0]), events[1..]);
    }
  }

  /** A datastore as it is when the anchor is bound to it: any grants under any marks, no permit yet. */
  predicate FreshlyBound(w: World) {
    w.db.anchorRequired && w.db.permits == []
  }

  function Genesis(w: World): Realm {
    Realm(w, {}, {}, map[], map[])
  }

  /** Some history of a freshly bound datastore leads here. */
  ghost predicate Reached(r: Realm) {
    exists w, events ::
      FreshlyBound(w) && PossibleHistory(Genesis(w), events) && History(Genesis(w), events) == r
  }

  lemma GenesisInv(w: World)
    requires FreshlyBound(w)
    ensures Inv(Genesis(w))
  {
  }

  lemma ReachedInv(r: Realm)
    requires Reached(r)
    ensures Inv(r)
  {
    var w, events :|
      FreshlyBound(w) && PossibleHistory(Genesis(w), events) && History(Genesis(w), events) == r;
    GenesisInv(w);
    HistoryKeepsInv(Genesis(w), events);
  }

  // ---- what survives restores ----

  /** No permit is consumed twice, over any history of commits, crashes, backups and restores. */
  lemma ConsumedOnceAcrossRestores(r: Realm, first: Op, between: seq<Event>, second: Op)
    requires Reached(r)
    requires first.ConsumePermit? && Exec(r.w, first).result == Done
    requires PossibleHistory(Happens(r, Commits(first)), between)
    requires second.ConsumePermit? && TokenOf(second.permit) == TokenOf(first.permit)
    ensures Exec(History(Happens(r, Commits(first)), between).w, second).result != Done
  {
    ReachedInv(r);
    EventKeepsInv(r, Commits(first));
    HistoryKeepsInv(Happens(r, Commits(first)), between);
    if Exec(History(Happens(r, Commits(first)), between).w, second).result == Done {
      SpendsNew(History(Happens(r, Commits(first)), between), second);
    }
  }

  /** No fence is allocated twice either, so no lost permit can be minted again. */
  lemma AllocatedOnceAcrossRestores(r: Realm, first: Op, between: seq<Event>, second: Op)
    requires Reached(r)
    requires first.NextFence? && Exec(r.w, first).result.Fence?
    requires PossibleHistory(Happens(r, Commits(first)), between)
    requires second.NextFence? && second.key == first.key
    ensures Exec(History(Happens(r, Commits(first)), between).w, second).result != Exec(r.w, first).result
  {
    ReachedInv(r);
    EventKeepsInv(r, Commits(first));
    HistoryKeepsInv(Happens(r, Commits(first)), between);
    if Exec(History(Happens(r, Commits(first)), between).w, second).result.Fence? {
      FenceIsNew(History(Happens(r, Commits(first)), between), second);
    }
  }

  /** Once the anchor has seen an epoch, no permit of an earlier epoch is consumed again, from
      whatever backup the datastore comes back. */
  lemma AnchoredStopSurvivesRestores(r: Realm, events: seq<Event>, consume: Op)
    requires Reached(r) && PossibleHistory(r, events) && consume.ConsumePermit?
    requires consume.permit.grant in r.w.marks && consume.permit.epoch < r.w.marks[consume.permit.grant].epoch
    ensures Exec(History(r, events).w, consume).result != Done
  {
    ReachedInv(r);
    HistoryKeepsInv(r, events);
    var w := History(r, events).w;
    if Exec(w, consume).result == Done {
      SpendsNew(History(r, events), consume);
      ConsumeNeedsEpoch(w, consume);
    }
  }

  /** A pause committed while the anchor refuses the write is undone by restoring the copy taken just
      before it; with the write, it is not. */
  lemma StopSurvivesRestoreIffAnchored(r: Realm, view: AnchorView, consume: Op)
    requires Reached(r)
    requires consume.ConsumePermit? && Exec(r.w, consume).result == Done
    requires view.Anchor?
    ensures var stop := SetGrantStatus(consume.permit.grant, consume.permit.principal, Paused, view);
      var back := History(r, [BackupTaken, Commits(stop), RestoredFrom(r.w.db)]);
      && Exec(r.w, stop).result == Done
      && Exec(Exec(r.w, stop).w, consume).result != Done
      && (Exec(back.w, consume).result == Done <==> !view.writable)
  {
    ReachedInv(r);
    var stop := SetGrantStatus(consume.permit.grant, consume.permit.principal, Paused, view);
    RestoredAfterStop(r, stop);
    PausedRefuses(r, view, consume);
  }

  lemma RestoredAfterStop(r: Realm, stop: Op)
    requires !stop.NextFence? && !stop.RecordPermit? && !stop.ConsumePermit?
    ensures History(r, [BackupTaken, Commits(stop), RestoredFrom(r.w.db)]).w == r.w.(marks := Exec(r.w, stop).w.marks)
  {
    var events := [BackupTaken, Commits(stop), RestoredFrom(r.w.db)];
    var r1 := Happens(r, BackupTaken);
    var r2 := Happens(r1, Commits(stop));
    assert events[1..] == [Commits(stop), RestoredFrom(r.w.db)];
    assert events[1..][1..] == [RestoredFrom(r.w.db)];
    assert events[1..][1..][1..] == [];
    assert History(r, events) == History(r1, events[1..]) == History(r2, [RestoredFrom(r.w.db)])
      == Happens(r2, RestoredFrom(r.w.db));
  }

  lemma PausedRefuses(r: Realm, view: AnchorView, consume: Op)
    requires Inv(r) && view.Anchor?
    requires consume.ConsumePermit? && Exec(r.w, consume).result == Done
    ensures var stop := SetGrantStatus(consume.permit.grant, consume.permit.principal, Paused, view);
      && Exec(r.w, stop).result == Done
      && Exec(Exec(r.w, stop).w, consume).result != Done
      && (Exec(r.w.(marks := Exec(r.w, stop).w.marks), consume).result == Done <==> !view.writable)
  {
    SpendsNew(r, consume);
    ConsumeNeedsEpoch(r.w, consume);
  }
}
