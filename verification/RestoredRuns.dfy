/** The protocol on a datastore that may be restored to any earlier copy, next to an anchor that may not:
    when an intent still has at most one external effect. */
module RestoredRuns {
  import opened Types
  import opened StoreOps
  import opened LocalView
  import opened Protocol
  import opened LocalInv
  import opened Runs
  import opened Guarantees
  import opened Authority
  import opened Closure
  import Attempts
  import Restore

  /** A copy of the datastore. With it goes which intents had carried a durable block by then, which is
      history and not state. */
  datatype Copy = Copy(db: Db, blocked: set<IntentId>)

  datatype Site = Site(s: Sys, copies: set<Copy>)

  /** A transaction may also reach the anchor and crash before it commits. */
  datatype Event =
    | Steps(st: Step)
    | Crashes(st: Step)
    | CopyTaken
    | RestoredFrom(copy: Copy)
    | Reopened(raised: set<GrantKey>)

  predicate Possible(x: Site, e: Event) {
    match e
    case Steps(st) => Enabled(x.s, st)
    case Crashes(st) => Enabled(x.s, st)
    case CopyTaken => true
    case RestoredFrom(copy) => copy in x.copies
    case Reopened(_) => true
  }

  /** A restore ends all workers. Permits handed to an adapter in a lost history may still be presented. */
  function Restored(s: Sys, copy: Copy): Sys {
    s.(w := World(copy.db, s.w.marks), pcs := map[], blocked := copy.blocked)
  }

  ghost function Happens(x: Site, e: Event): Site
    requires Possible(x, e)
  {
    match e
    case Steps(st) => x.(s := Next(x.s, st))
    case Crashes(st) => x.(s := x.s.(w := x.s.w.(marks := Exec(x.s.w, OpOf(x.s, st)).w.marks)))
    case CopyTaken => x.(copies := x.copies + {Copy(x.s.w.db, x.s.blocked)})
    case RestoredFrom(copy) => x.(s := Restored(x.s, copy))
    case Reopened(raised) => x.(s := x.s.(w := x.s.w.(marks := Restore.RaiseBehind(x.s.w, raised))))
  }

  /** A halt or a pause of the version reaches the anchor. */
  predicate Anchors(w: World, op: Op, key: GrantKey) {
    key in w.db.grants ==>
      match op
      case Halt(scope, _, view, reached) =>
        InScope(scope, w.db.grants[key].principal) ==> Writable(view) && key in reached
      case SetGrantStatus(k, _, status, view) => k == key && status == Paused ==> Writable(view)
      case _ => true
  }

  /** An intent id stands for one payload; every halt and every pause of its grant version reaches the
      anchor, and none is committed on a row behind its mark that would take it up to the mark. */
  ghost predicate Disciplined(x: Site, e: Event, intent: Intent)
    requires Possible(x, e)
  {
    e.Steps? ==>
      var op := OpOf(x.s, e.st);
      && (op.Register? && op.intent.id == intent.id ==> op.intent == intent)
      && Anchors(x.s.w, op, intent.grant)
      && !Lifts(x.s.w, op, intent.grant)
  }

  ghost predicate PossibleHistory(x: Site, events: seq<Event>, intent: Intent)
    decreases |events|
  {
    events == []
    || (Possible(x, events[0]) && Disciplined(x, events[0], intent)
        && PossibleHistory(Happens(x, events[0]), events[1..], intent))
  }

  ghost predicate Admits(x: Site, e: Event, i: IntentId)
    requires Possible(x, e)
  {
    e.Steps? && Effected(x.s, e.st, i)
  }

  /** External effects of an intent over a history, those of lost histories included. */
  ghost function Effects(x: Site, events: seq<Event>, intent: Intent): nat
    requires PossibleHistory(x, events, intent)
    decreases |events|
  {
    if events == [] then 0
    else (if Admits(x, events[0], intent.id) then 1 else 0) + Effects(Happens(x, events[0]), events[1..], intent)
  }

  // ---- the invariant of every datastore that is or may come back ----

  /** Unless the version is revoked its row never passes the mark. */
  ghost predicate RowWithinMark(w: World, key: GrantKey) {
    key in w.db.grants && w.db.grants[key].status != Revoked ==>
      w.db.grants[key].epoch > 0 && AtLeast(w.marks, key, RowMark(w.db.grants[key]))
  }

  /** Once the intent had its effect, the version is closed in every datastore that does not know. */
  ghost predicate StateOk(s: Sys, intent: Intent, effected: bool) {
    && Inv(s) && DistinctIds(s.w.db.permits) && s.w.db.anchorRequired
    && (intent.id in s.w.db.intents ==> s.w.db.intents[intent.id].intent == intent)
    && PermitsBound(s.w, intent)
    && RowWithinMark(s.w, intent.grant)
    && (effected ==> Shut(s.w, intent.grant) || HasConsumed(View(s.w, intent.id).permits))
  }

  predicate PermitsBound(w: World, intent: Intent) {
    var rows := View(w, intent.id).permits;
    forall n :: 0 <= n < |rows| ==> rows[n].grant == intent.grant
  }

  ghost predicate SiteOk(x: Site, intent: Intent, effected: bool) {
    StateOk(x.s, intent, effected) && forall c :: c in x.copies ==> StateOk(Restored(x.s, c), intent, effected)
  }

  lemma AnchorStays(w: World, op: Op)
    ensures Exec(w, op).w.db.anchorRequired == w.db.anchorRequired
  {
  }

  lemma HaltStaysWithinMark(w: World, op: Op, key: GrantKey)
    requires w.db.anchorRequired && RowWithinMark(w, key) && Anchors(w, op, key) && op.Halt?
    ensures RowWithinMark(DoHalt(w, op).w, key)
  {
  }

  /** Recording a mark puts it at the recorded row or above, and lowers none. */
  lemma RecordMarkCovers(marks: map<GrantKey, Mark>, view: AnchorView, key: GrantKey, m: Mark, other: GrantKey,
                         m': Mark)
    ensures Writable(view) ==> AtLeast(RecordMark(marks, view, key, m), key, m)
    ensures AtLeast(marks, other, m') ==> AtLeast(RecordMark(marks, view, key, m), other, m')
  {
  }

  lemma StatusStaysWithinMark(w: World, op: Op, key: GrantKey)
    requires w.db.anchorRequired && RowWithinMark(w, key) && Anchors(w, op, key) && op.SetGrantStatus?
    ensures RowWithinMark(DoSetStatus(w, op).w, key)
  {
    hide RecordMark, AtLeast, Regressed;
    if key in w.db.grants && op.key in w.db.grants {
      var g := w.db.grants[op.key];
      RecordMarkCovers(w.marks, op.view, op.key, RowMark(g), key, RowMark(w.db.grants[key]));
      RecordMarkCovers(w.marks, op.view, op.key, RowMark(g.(status := op.status, epoch := g.epoch + 1)),
                       key, RowMark(w.db.grants[key]));
    }
  }

  lemma FenceStaysWithinMark(w: World, op: Op, key: GrantKey)
    requires w.db.anchorRequired && RowWithinMark(w, key) && (op.NextFence? || op.ProvisionGrant?)
    ensures RowWithinMark(ExecAuthority(w, op).w, key)
  {
    hide DoConsume, DoHalt, DoSetStatus, DoResume, DoRevokeAfterRestore, DoSetCap;
  }

  lemma ConsumptionStaysWithinMark(w: World, op: Op, key: GrantKey)
    requires w.db.anchorRequired && RowWithinMark(w, key) && op.ConsumePermit?
    ensures RowWithinMark(DoConsume(w, op).w, key)
  {
  }

  lemma OtherStaysWithinMark(w: World, op: Op, key: GrantKey)
    requires w.db.anchorRequired && RowWithinMark(w, key)
    requires op.Resume? || op.RevokeAfterRestore? || op.SetExposureCap?
    ensures RowWithinMark(ExecAuthority(w, op).w, key)
  {
    hide DoConsume, DoHalt, DoSetStatus, DoNextFence, DoProvision;
  }

  lemma RowStaysWithinMark(w: World, op: Op, key: GrantKey)
    requires w.db.anchorRequired && RowWithinMark(w, key) && Anchors(w, op, key)
    ensures RowWithinMark(Exec(w, op).w, key)
  {
    hide DoHalt, DoSetStatus, DoNextFence, DoConsume, DoProvision, DoResume, DoRevokeAfterRestore, DoSetCap;
    if op.Halt? {
      HaltStaysWithinMark(w, op, key);
    } else if op.SetGrantStatus? {
      StatusStaysWithinMark(w, op, key);
    } else if op.ConsumePermit? {
      ConsumptionStaysWithinMark(w, op, key);
    } else if op.NextFence? || op.ProvisionGrant? {
      FenceStaysWithinMark(w, op, key);
    } else if ChangesAuthority(op) {
      OtherStaysWithinMark(w, op, key);
    }
  }

  lemma FencedUnder(i: IntentId, l: Local, grant: Option<Grant>, pc: Pc, c: Choice)
    ensures var op := PlanFor(i, l, grant, pc, c).op;
      op.RecordPermit? ==> grant.Some? && op.permit.grant == grant.value.key
  {
  }

  lemma OwnPermitsBound(s: Sys, o: Owner, i: IntentId, c: Choice, intent: Intent)
    requires Inv(s) && Enabled(s, Works(o, i, c)) && i == intent.id
    requires s.w.db.intents[i].intent == intent && PermitsBound(s.w, intent)
    ensures PermitsBound(Next(s, Works(o, i, c)).w, intent)
  {
    hide Exec, PlanFor;
    var s', plan := Next(s, Works(o, i, c)), PlanOf(s, o, i, c);
    OwnWorkView(s, o, i, c);
    FencedUnder(i, View(s.w, i), GrantOf(s.w.db, intent), PcOf(s, i), c);
    IntentStep(s, Works(o, i, c), i);
    assert LocalInv.PermitsAdvance(View(s.w, i).permits, View(s'.w, i).permits);
    if !(plan.op.RecordPermit? && Exec(s.w, plan.op).result.Recorded?) {
      assert |View(s'.w, i).permits| == |View(s.w, i).permits|;
    }
  }

  lemma PermitsStayBound(s: Sys, st: Step, intent: Intent)
    requires Inv(s) && Enabled(s, st) && PermitsBound(s.w, intent)
    requires intent.id in s.w.db.intents ==> s.w.db.intents[intent.id].intent == intent
    ensures PermitsBound(Next(s, st).w, intent)
  {
    hide Exec;
    if st.Works? && st.id == intent.id {
      OwnPermitsBound(s, st.owner, st.id, st.c, intent);
    } else {
      OthersLeaveRow(s, st, intent.id);
      IntentStep(s, st, intent.id);
      assert LocalInv.PermitsAdvance(View(s.w, intent.id).permits, View(Next(s, st).w, intent.id).permits);
    }
  }

  lemma PayloadStays(s: Sys, st: Step, intent: Intent)
    requires Inv(s) && Enabled(s, st) && Inv(Next(s, st))
    requires intent.id in s.w.db.intents ==> s.w.db.intents[intent.id].intent == intent
    requires st.Arrives? && st.intent.id == intent.id ==> st.intent == intent
    ensures var intents := Next(s, st).w.db.intents; intent.id in intents ==> intents[intent.id].intent == intent
  {
    hide Exec;
    var i, s' := intent.id, Next(s, st);
    if i in s.w.db.intents {
      Attempts.RowKept(s, st, i);
    } else if i in s'.w.db.intents {
      OthersLeaveRow(s, st, i);
      assert IntentInv(s', i) && View(s'.w, i).row == Some(s'.w.db.intents[i]);
    }
  }

  /** The venue's consumption uses the intent's own grant version. */
  lemma EffectedUses(s: Sys, st: Step, intent: Intent)
    requires Inv(s) && DistinctIds(s.w.db.permits) && s.w.db.anchorRequired && PermitsBound(s.w, intent)
    requires Enabled(s, st) && Effected(s, st, intent.id)
    ensures var op := OpOf(s, st); op.ConsumePermit? && op.permit.grant == intent.grant && Uses(s.w, op, intent.grant)
    ensures !Shut(s.w, intent.grant)
  {
    hide Exec;
    var op := OpOf(s, st);
    assert op.permit.grant == View(s.w, intent.id).permits[st.permit].grant;
    if Shut(s.w, intent.grant) {
      ShutUnusable(s.w, [], op, intent.grant);
    }
  }

  lemma StateStep(s: Sys, st: Step, intent: Intent, effected: bool)
    requires StateOk(s, intent, effected) && Enabled(s, st)
    requires Disciplined(Site(s, {}), Steps(st), intent)
    ensures Effected(s, st, intent.id) ==> !effected
    ensures StateOk(Next(s, st), intent, effected || Effected(s, st, intent.id))
  {
    hide Exec, Shut, RowWithinMark, Lifts, PermitsBound;
    var s', op, key := Next(s, st), OpOf(s, st), intent.grant;
    NextExecutes(s, st);
    StepKeepsInv(s, st);
    IdsStayDistinct(s.w, op);
    AnchorStays(s.w, op);
    PayloadStays(s, st, intent);
    PermitsStayBound(s, st, intent);
    RowStaysWithinMark(s.w, op, key);
    if Effected(s, st, intent.id) {
      EffectedUses(s, st, intent);
      EffectedConsumes(s, st, intent.id);
    } else if effected {
      if Shut(s.w, key) {
        CommitShut(s.w, op, key);
      } else {
        ConsumedStays(s, st, intent.id);
      }
    }
  }

  // ---- the copies ----

  /** A copy stays as good as it was while the marks rise. */
  lemma CopyStable(s: Sys, s': Sys, c: Copy, intent: Intent, effected: bool)
    requires StateOk(Restored(s, c), intent, effected) && MarksRise(s.w.marks, s'.w.marks)
    ensures StateOk(Restored(s', c), intent, effected)
  {
    var r, r' := Restored(s, c), Restored(s', c);
    forall i ensures IntentInv(r', i) {
      assert IntentInv(r, i);
      assert View(r'.w, i) == View(r.w, i) && PcOf(r', i) == PcOf(r, i) == Finished;
    }
    assert View(r'.w, intent.id) == View(r.w, intent.id);
  }

  /** The consumption takes the mark past every row there is, so every copy falls behind. */
  lemma CopiesFallBehind(s: Sys, st: Step, c: Copy, intent: Intent)
    requires StateOk(s, intent, false) && Enabled(s, st) && Effected(s, st, intent.id)
    requires StateOk(Restored(s, c), intent, false)
    ensures StateOk(Restored(Next(s, st), c), intent, true)
  {
    hide Exec, PlanFor;
    var op, key := OpOf(s, st), intent.grant;
    NextExecutes(s, st);
    EffectedUses(s, st, intent);
    MarkEffect(s.w, op);
    CopyStable(s, Next(s, st), c, intent, false);
    ConsumptionPassesRows(s.w, op, key);
    RowsFallBehind(s.w, Exec(s.w, op).w, c.db, key);
  }

  lemma ConsumptionPassesRows(w: World, op: Op, key: GrantKey)
    requires w.db.anchorRequired && op.ConsumePermit? && op.permit.grant == key && Exec(w, op).result == Done
    ensures key in w.db.grants && w.db.grants[key].status == Active
    ensures !Regressed(w.marks, key, RowMark(w.db.grants[key]))
    ensures AtLeast(Exec(w, op).w.marks, key, Mark(w.db.grants[key].epoch, w.db.grants[key].fence + 1))
  {
    assert Exec(w, op) == DoConsume(w, op);
    ConsumeNeedsEpoch(w, op);
  }

  lemma RowsFallBehind(w: World, w': World, copy: Db, key: GrantKey)
    requires key in w.db.grants && w.db.grants[key].epoch > 0
    requires !Regressed(w.marks, key, RowMark(w.db.grants[key]))
    requires AtLeast(w'.marks, key, Mark(w.db.grants[key].epoch, w.db.grants[key].fence + 1))
    requires RowWithinMark(World(copy, w.marks), key)
    ensures Shut(World(copy, w'.marks), key)
  {
  }

  lemma CopyOfNow(x: Site, intent: Intent, effected: bool)
    requires StateOk(x.s, intent, effected)
    ensures StateOk(Restored(x.s, Copy(x.s.w.db, x.s.blocked)), intent, effected)
  {
    var r := Restored(x.s, Copy(x.s.w.db, x.s.blocked));
    assert r.w == x.s.w;
    forall i ensures IntentInv(r, i) {
      assert IntentInv(x.s, i);
      RestartKeeps(i, View(x.s.w, i), PcOf(x.s, i), Finished, i in x.s.blocked);
    }
  }

  lemma RaisedMarks(s: Sys, marks: map<GrantKey, Mark>, intent: Intent, effected: bool)
    requires StateOk(s, intent, effected) && MarksRise(s.w.marks, marks)
    ensures StateOk(s.(w := s.w.(marks := marks)), intent, effected)
  {
    var s' := s.(w := s.w.(marks := marks));
    forall i ensures IntentInv(s', i) && View(s'.w, i) == View(s.w, i) {
      assert IntentInv(s, i);
      assert View(s'.w, i) == View(s.w, i) && PcOf(s', i) == PcOf(s, i);
    }
    if effected && Shut(s.w, intent.grant) {
      MarksRiseShut(s.w, marks, intent.grant);
    }
  }

  lemma StepsKeep(x: Site, st: Step, intent: Intent, effected: bool)
    requires SiteOk(x, intent, effected) && Enabled(x.s, st) && Disciplined(x, Steps(st), intent)
    ensures Effected(x.s, st, intent.id) ==> !effected
    ensures SiteOk(Happens(x, Steps(st)), intent, effected || Effected(x.s, st, intent.id))
  {
    hide Exec, StateOk;
    StateStep(x.s, st, intent, effected);
    NextExecutes(x.s, st);
    MarkEffect(x.s.w, OpOf(x.s, st));
    forall c | c in x.copies
      ensures StateOk(Restored(Next(x.s, st), c), intent, effected || Effected(x.s, st, intent.id))
    {
      if Effected(x.s, st, intent.id) {
        CopiesFallBehind(x.s, st, c, intent);
      } else {
        CopyStable(x.s, Next(x.s, st), c, intent, effected);
      }
    }
  }

  lemma MarksMove(x: Site, x': Site, intent: Intent, effected: bool)
    requires SiteOk(x, intent, effected) && x' == x.(s := x.s.(w := x.s.w.(marks := x'.s.w.marks)))
    requires MarksRise(x.s.w.marks, x'.s.w.marks)
    ensures SiteOk(x', intent, effected)
  {
    hide StateOk;
    RaisedMarks(x.s, x'.s.w.marks, intent, effected);
    forall c | c in x.copies ensures StateOk(Restored(x'.s, c), intent, effected) {
      CopyStable(x.s, x'.s, c, intent, effected);
    }
  }

  lemma EventKeeps(x: Site, e: Event, intent: Intent, effected: bool)
    requires SiteOk(x, intent, effected) && Possible(x, e) && Disciplined(x, e, intent)
    ensures Admits(x, e, intent.id) ==> !effected
    ensures SiteOk(Happens(x, e), intent, effected || Admits(x, e, intent.id))
  {
    hide Exec, StateOk;
    match e
    case Steps(st) => StepsKeep(x, st, intent, effected);
    case Crashes(st) =>
      MarkEffect(x.s.w, OpOf(x.s, st));
      MarksMove(x, Happens(x, e), intent, effected);
    case Reopened(raised) =>
      Restore.RaiseAllRises(x.s.w.marks, x.s.w.db.grants, raised);
      MarksMove(x, Happens(x, e), intent, effected);
    case CopyTaken => CopyOfNow(x, intent, effected);
    case RestoredFrom(copy) =>
      forall c | c in x.copies ensures StateOk(Restored(Restored(x.s, copy), c), intent, effected) {
        assert Restored(Restored(x.s, copy), c) == Restored(x.s, c);
      }
  }

  lemma {:induction false} EffectsBounded(x: Site, events: seq<Event>, intent: Intent, effected: bool)
    requires SiteOk(x, intent, effected) && PossibleHistory(x, events, intent)
    ensures Effects(x, events, intent) <= if effected then 0 else 1
    decreases |events|
  {
    hide Exec, SiteOk, Happens, Possible, Disciplined;
    if events != [] {
      EventKeeps(x, events[0], intent, effected);
      EffectsBounded(Happens(x, events[0]), events[1..], intent, effected || Admits(x, events[0], intent.id));
    }
  }

  /** Exactly once across restores: over any history in which workers, venues, the operator and crashes
      interleave and the datastore is restored to any earlier copy any number of times, an intent has at
      most one external effect, in all the lost histories together, as long as halts and pauses of its
      grant version reach the anchor and none takes the version from behind its mark. */
  lemma ExactlyOnceAcrossRestores(x0: Site, events: seq<Event>, intent: Intent)
    requires Initial(x0.s) && x0.copies == {} && x0.s.w.db.anchorRequired && RowWithinMark(x0.s.w, intent.grant)
    requires PossibleHistory(x0, events, intent)
    ensures Effects(x0, events, intent) <= 1
  {
    InitialInv(x0.s);
    EffectsBounded(x0, events, intent, false);
  }
}
