/** The concrete protocol refines the abstract permit protocol with both of its rules. */
module Refinement {
  import opened Types
  import opened StoreOps
  import opened LocalView
  import opened Settlement
  import opened Protocol
  import opened LocalInv
  import opened Runs
  import opened Guarantees
  import opened PermitCore
  import Attempts
  import Authority
  import P = PermitModel

  /** The intent's grant version is provisioned for its principal. */
  predicate Tracked(db: Db, i: IntentId) {
    && i in db.intents && db.intents[i].intent.grant in db.grants
    && db.grants[db.intents[i].intent.grant].principal == db.intents[i].intent.principal
  }

  function SentOf(s: Sys, i: IntentId): (r: set<nat>)
    ensures forall n: nat :: n in r <==> (i, n) in s.sent
  {
    set p | p in s.sent && p.0 == i :: p.1
  }

  function CoreOf(s: Sys, i: IntentId): Core
    requires Tracked(s.w.db, i)
  {
    var intent := s.w.db.intents[i].intent;
    var g := s.w.db.grants[intent.grant];
    Core(View(s.w, i), LogOf(s, i), SentOf(s, i), PcOf(s, i).Fenced?, g.epoch, g.status == Active,
         HaltedFor(s.w.db, intent.principal))
  }

  /** What the worker's position adds to the correspondence. */
  predicate PcCore(c: Core, pc: Pc) {
    && (pc.Fenced? ==> c.log != [] && Last(c.log) == Allocation(pc.epoch, None))
    && (pc.Sending? ==> HasLive(c.l.permits) && pc.permit == |c.l.permits| - 1 && pc.permit !in c.sent)
    && (pc.VoidingCancel? || pc.ClosingCancel? ==> HasConsumed(c.l.permits))
  }

  ghost predicate RefInv(s: Sys, i: IntentId) {
    Tracked(s.w.db, i) && CoreInv(CoreOf(s, i)) && PcCore(CoreOf(s, i), PcOf(s, i))
  }

  predicate ClaimsEffect(answer: Answer) {
    answer.Answered? && answer.record.authoritative
      && (Positive(answer.record.status) || answer.record.status == Cancelled)
  }

  /** The verifier attributes an effect, or a cancelled order, to the intent only when the venue admitted
      one of its permits. */
  predicate Honest(s: Sys, st: Step, i: IntentId) {
    st.Works? && st.id == i && PcOf(s, i).Verifying? && ClaimsEffect(st.c.answer) ==> HasConsumed(View(s.w, i).permits)
  }

  // ---- authority ----

  function Cost(active: bool, active': bool, halted: bool, halted': bool): nat {
    (if active != active' then 1 else 0) + if !halted && halted' then 1 else 0
  }

  function StatusActions(s: P.S, active': bool): seq<P.Action> {
    if s.grantActive && !active' then [P.Revoke] else if !s.grantActive && active' then [P.Activate] else []
  }

  function HaltActions(s: P.S, halted': bool): seq<P.Action> {
    if !s.halted && halted' then [P.Stop] else if s.halted && !halted' then [P.Resume] else []
  }

  function AdvanceActions(s: P.S, epoch': nat): seq<P.Action> {
    if epoch' > s.grantEpoch then [P.Advance(epoch' - s.grantEpoch)] else []
  }

  function StatusChanged(s: P.S, active': bool): P.S {
    s.(grantActive := active', grantEpoch := s.grantEpoch + if s.grantActive != active' then 1 else 0)
  }

  function HaltChanged(s: P.S, halted': bool): P.S {
    s.(halted := halted', grantEpoch := s.grantEpoch + if !s.halted && halted' then 1 else 0)
  }

  /** The abstract actions behind a change of epoch, status and halt. */
  function AuthorityActions(s: P.S, epoch': nat, active': bool, halted': bool): seq<P.Action> {
    var s1 := StatusChanged(s, active');
    var s2 := HaltChanged(s1, halted');
    StatusActions(s, active') + HaltActions(s1, halted') + AdvanceActions(s2, epoch')
  }

  lemma StatusRuns(s: P.S, active': bool)
    ensures P.Reaches(s, StatusActions(s, active'), StatusChanged(s, active'), RULES)
  {
    if s.grantActive != active' {
      P.Single(s, StatusActions(s, active')[0], StatusChanged(s, active'), RULES);
    }
  }

  lemma HaltRuns(s: P.S, halted': bool)
    ensures P.Reaches(s, HaltActions(s, halted'), HaltChanged(s, halted'), RULES)
  {
    if s.halted != halted' {
      P.Single(s, HaltActions(s, halted')[0], HaltChanged(s, halted'), RULES);
    }
  }

  lemma AdvanceRuns(s: P.S, epoch': nat)
    requires s.grantEpoch <= epoch'
    ensures P.Reaches(s, AdvanceActions(s, epoch'), s.(grantEpoch := epoch'), RULES)
  {
    if epoch' > s.grantEpoch {
      P.Single(s, AdvanceActions(s, epoch')[0], s.(grantEpoch := epoch'), RULES);
    }
  }

  lemma AuthorityRuns(s: P.S, epoch': nat, active': bool, halted': bool)
    requires s.grantEpoch + Cost(s.grantActive, active', s.halted, halted') <= epoch'
    ensures P.Reaches(s, AuthorityActions(s, epoch', active', halted'),
                      s.(grantEpoch := epoch', grantActive := active', halted := halted'), RULES)
  {
    var s1 := StatusChanged(s, active');
    var s2 := HaltChanged(s1, halted');
    var s3 := s2.(grantEpoch := epoch');
    StatusRuns(s, active');
    HaltRuns(s1, halted');
    AdvanceRuns(s2, epoch');
    hide P.Reaches, StatusActions, HaltActions, AdvanceActions;
    P.Concat(s, StatusActions(s, active'), s1, HaltActions(s1, halted'), s2, RULES);
    P.Concat(s, StatusActions(s, active') + HaltActions(s1, halted'), s2, AdvanceActions(s2, epoch'), s3, RULES);
  }

  lemma OnlyHaltHalts(w: World, op: Op, principal: PrincipalId)
    requires !HaltedFor(w.db, principal) && HaltedFor(Exec(w, op).w.db, principal)
    ensures op.Halt? && InScope(op.scope, principal)
  {
    if ChangesAuthority(op) {
      match op
      case NextFence(_, _, _) =>
      case ConsumePermit(_, _) =>
      case ProvisionGrant(_, _, _) =>
      case SetGrantStatus(_, _, _, _) =>
      case Halt(_, _, _, _) =>
      case Resume(_, _) =>
      case RevokeAfterRestore(_, _) =>
      case SetExposureCap(_, _, _, _) =>
    }
  }

  lemma HaltAdvances(w: World, op: Op, key: GrantKey)
    requires key in w.db.grants && op.Halt? && InScope(op.scope, w.db.grants[key].principal)
    ensures key in DoHalt(w, op).w.db.grants
    ensures DoHalt(w, op).w == w || DoHalt(w, op).w.db.grants[key]
      == w.db.grants[key].(epoch := w.db.grants[key].epoch + 1)
  {
  }

  /** Every change of status and every new halt advances the epoch of the grants it concerns. */
  ghost predicate Fences(before: GrantRow, after: GrantRow, halted: bool, halted': bool) {
    && after.principal == before.principal
    && before.epoch + Cost(before.status == Active, after.status == Active, halted, halted') <= after.epoch
  }

  lemma OperatorFences(w: World, op: Op, key: GrantKey)
    requires key in w.db.grants && OperatorOp(op)
    ensures key in Exec(w, op).w.db.grants
    ensures Fences(w.db.grants[key], Exec(w, op).w.db.grants[key],
                   HaltedFor(w.db, w.db.grants[key].principal), HaltedFor(Exec(w, op).w.db, w.db.grants[key].principal))
  {
    var w', g := Exec(w, op).w, w.db.grants[key];
    Authority.GrantEffect(w, op, key);
    var halted, halted' := HaltedFor(w.db, g.principal), HaltedFor(w'.db, g.principal);
    if !halted && halted' {
      OnlyHaltHalts(w, op, g.principal);
      HaltAdvances(w, op, key);
      assert Exec(w, op) == DoHalt(w, op);
    }
    EpochCovers(w, w', key, halted, halted');
  }

  lemma EpochCovers(w: World, w': World, key: GrantKey, halted: bool, halted': bool)
    requires key in w.db.grants && Authority.GrantStep(w, w', key)
    requires !halted && halted' ==> w'.db.grants[key] == w.db.grants[key].(epoch := w.db.grants[key].epoch + 1)
    ensures Fences(w.db.grants[key], w'.db.grants[key], halted, halted')
  {
  }

  /** Runtime and venue transactions change no epoch, status or halt. */
  ghost predicate Still(w: World, w': World, key: GrantKey)
    requires key in w.db.grants
  {
    && key in w'.db.grants && SameAuthority(w.db.grants[key], w'.db.grants[key])
    && w'.db.halted == w.db.halted
  }

  predicate SameAuthority(g: GrantRow, g': GrantRow) {
    g'.principal == g.principal && g'.status == g.status && g'.epoch == g.epoch
  }

  lemma FenceEpoch(w: World, op: Op, key: GrantKey)
    requires key in w.db.grants
    ensures op.NextFence? ==>
      var g := DoNextFence(w, op).w.db.grants; key in g && g[key].epoch == w.db.grants[key].epoch
    ensures op.ConsumePermit? ==>
      var g := DoConsume(w, op).w.db.grants; key in g && g[key].epoch == w.db.grants[key].epoch
  {
  }

  lemma SameEpochSameAuthority(w: World, w': World, key: GrantKey)
    requires key in w.db.grants && Authority.GrantStep(w, w', key) && w'.db.grants[key].epoch == w.db.grants[key].epoch
    ensures SameAuthority(w.db.grants[key], w'.db.grants[key])
  {
  }

  lemma FenceHalts(w: World, op: Op)
    ensures op.NextFence? ==> DoNextFence(w, op).w.db.halted == w.db.halted
    ensures op.ConsumePermit? ==> DoConsume(w, op).w.db.halted == w.db.halted
  {
  }

  lemma FenceStill(w: World, op: Op, key: GrantKey)
    requires key in w.db.grants && (op.NextFence? || op.ConsumePermit?)
    ensures Still(w, Exec(w, op).w, key)
  {
    FenceEpoch(w, op, key);
    FenceHalts(w, op);
    Authority.GrantEffect(w, op, key);
    SameEpochSameAuthority(w, Exec(w, op).w, key);
    assert Exec(w, op) == if op.NextFence? then DoNextFence(w, op) else DoConsume(w, op);
  }

  lemma AuthorityStill(w: World, op: Op, key: GrantKey)
    requires key in w.db.grants && !OperatorOp(op)
    ensures Still(w, Exec(w, op).w, key)
  {
    if op.NextFence? || op.ConsumePermit? {
      FenceStill(w, op, key);
    } else {
      assert Exec(w, op) == ExecIntent(w, op);
    }
  }

  // ---- the worker's own steps ----

  ghost predicate Refines(c: Core, c': Core) {
    CoreInv(c) && CoreInv(c') && exists actions :: Simulates(c, actions, c')
  }

  lemma Stutters(c: Core, c': Core)
    requires CoreInv(c) && CoreInv(c') && Abs(c') == Abs(c)
    ensures Refines(c, c')
  {
    assert Simulates(c, [], c');
  }

  /** A worker's step of the intent, as the abstract protocol sees it. */
  ghost predicate CoreWork(i: IntentId, c0: Core, grant: Option<Grant>, pc: Pc, c: Choice, result: Result, c1: Core,
                           b: bool) {
    && LocalOk(i, c0.l, pc, b) && CoreInv(c0) && PcCore(c0, pc) && c0.pending == pc.Fenced?
    && (grant.Some? ==>
          && grant.value.key == c0.l.row.value.intent.grant
          && grant.value.principal == c0.l.row.value.intent.principal)
    && var plan := PlanFor(i, c0.l, grant, pc, c);
       && ViewStep(i, c0.l, plan.op, result, c1.l)
       && c1.log == LogAfter(c0.log, result, |c0.l.permits|)
       && c1.sent == (if pc.Sending? then c0.sent + {pc.permit} else c0.sent)
       && c1.pending == Continue(plan, result).Fenced?
       && c1.epoch == c0.epoch && c1.active == c0.active && c1.halted == c0.halted
       && (result.Fence? ==> plan.op.NextFence? && result.epoch == c0.epoch && c0.active && !c0.halted)
       && (result.Recorded? ==> plan.op.RecordPermit?)
       && (pc.Verifying? && ClaimsEffect(c.answer) ==> HasConsumed(c0.l.permits))
  }

  lemma FencingRefines(i: IntentId, c0: Core, grant: Option<Grant>, pc: Pc, c: Choice, result: Result, c1: Core,
                       b: bool)
    requires pc.ClaimedRisk? && CoreWork(i, c0, grant, pc, c, result, c1, b)
    ensures Refines(c0, c1) && PcCore(c1, Continue(PlanFor(i, c0.l, grant, pc, c), result))
  {
    if result.Fence? {
      CoreIssue(c0, c1);
    } else {
      Stutters(c0, c1);
    }
  }

  lemma RecordingRefines(i: IntentId, c0: Core, grant: Option<Grant>, pc: Pc, c: Choice, result: Result, c1: Core,
                         b: bool)
    requires pc.Fenced? && CoreWork(i, c0, grant, pc, c, result, c1, b)
    ensures Refines(c0, c1) && PcCore(c1, Continue(PlanFor(i, c0.l, grant, pc, c), result))
  {
    var op := PlanFor(i, c0.l, grant, pc, c).op;
    if op.RecordPermit? && result.Recorded? {
      assert RecordStep(c0.l, op, result, c1.l);
      CoreRecord(c0, c1, Last(c1.l.permits));
      Stutters(c0, c1);
    } else {
      assert c1.l == c0.l;
      CoreDrop(c0, c1);
    }
  }

  lemma SendingRefines(i: IntentId, c0: Core, grant: Option<Grant>, pc: Pc, c: Choice, result: Result, c1: Core,
                       b: bool)
    requires pc.Sending? && CoreWork(i, c0, grant, pc, c, result, c1, b)
    ensures Refines(c0, c1) && PcCore(c1, Continue(PlanFor(i, c0.l, grant, pc, c), result))
  {
    CoreSend(c0, c1, pc.permit);
  }

  predicate Voids(pc: Pc) {
    pc.VoidingAbsence? || pc.VoidingCancel? || pc.Stopping?
  }

  lemma VoidingPlan(i: IntentId, c0: Core, grant: Option<Grant>, pc: Pc, c: Choice, result: Result, c1: Core, b: bool)
    requires Voids(pc) && CoreWork(i, c0, grant, pc, c, result, c1, b)
    ensures c1 == c0.(l := c1.l) && !c1.pending
    ensures c1.l == if grant.Some? then c0.l.(permits := VoidedLedger(c0.l.permits, i)) else c0.l
    ensures var pc' := Continue(PlanFor(i, c0.l, grant, pc, c), result);
      !pc'.Fenced? && !pc'.Sending? && !pc'.VoidingCancel? && (pc'.ClosingCancel? ==> pc.VoidingCancel?)
  {
  }

  lemma VoidingRefines(i: IntentId, c0: Core, grant: Option<Grant>, pc: Pc, c: Choice, result: Result, c1: Core,
                       b: bool)
    requires Voids(pc) && CoreWork(i, c0, grant, pc, c, result, c1, b)
    requires forall n :: 0 <= n < |c0.l.permits| ==> c0.l.permits[n].intent == i
    ensures Refines(c0, c1) && PcCore(c1, Continue(PlanFor(i, c0.l, grant, pc, c), result))
  {
    VoidingPlan(i, c0, grant, pc, c, result, c1, b);
    if grant.Some? {
      CoreVoid(c0, c1, i);
    } else {
      Stutters(c0, c1);
    }
  }

  predicate PlainPc(pc: Pc) {
    !pc.ClaimedRisk? && !pc.Fenced? && !pc.Sending? && !Voids(pc)
  }

  predicate LeadsPlainly(pc': Pc, pc: Pc, c: Choice) {
    !pc'.Fenced? && !pc'.Sending? && !pc'.ClosingCancel?
      && (pc'.VoidingCancel? ==> pc.Verifying? && ClaimsEffect(c.answer))
  }

  /** Every other transaction leaves permits alone and records an effect id only on the verifier's word. */
  predicate PlainPlan(plan: Plan, row: IntentRow, pc: Pc, c: Choice) {
    && !plan.op.RecordPermit? && !plan.op.VoidPermits? && !plan.op.NextFence?
    && LeadsPlainly(plan.done, pc, c) && LeadsPlainly(plan.otherwise, pc, c) && LeadsPlainly(plan.conflict, pc, c)
    && (plan.op.Transition? && plan.op.effect.Some? ==>
          plan.op.effect == row.effect || (pc.Verifying? && ClaimsEffect(c.answer)) || pc.ClosingCancel?)
  }

  lemma EntryPlain(i: IntentId, row: IntentRow, trusted: bool, pc: Pc, c: Choice)
    ensures pc.Entered? ==> PlainPlan(PlanEntered(i, row, trusted, c), row, pc, c)
    ensures pc.Reconciles? ==> PlainPlan(PlanReconciles(i, row, trusted, pc.allow, pc.block, c), row, pc, c)
  {
  }

  lemma VerifiedPlain(i: IntentId, row: IntentRow, skew: nat, pc: Pc, c: Choice)
    requires pc.Verifying?
    ensures PlainPlan(PlanVerified(i, row, skew, pc.seen, c), row, pc, c)
  {
    if c.answer.Answered? {
      PositiveIsEarned(row.intent, pc.seen, skew, c.now, c.answer.record);
      OnlyPositivesAdvance(row.intent, pc.seen, skew, c.now, c.answer.record);
    }
  }

  lemma OnlyPositivesAdvance(intent: Intent, seen: Seen, skew: nat, now: int, record: Record)
    ensures var d := Decide(intent, seen, skew, now, record);
      d.Finalize? || d.Confirm? || d.CancelUnfilled? ==>
        record.authoritative && (Positive(record.status) || record.status == Cancelled)
  {
  }

  lemma AttemptPlain(i: IntentId, l: Local, row: IntentRow, grant: Grant, pc: Pc, c: Choice)
    requires InAttempt(pc) && PlainPc(pc)
    ensures PlainPlan(PlanAttempt(i, l, row, grant, pc, c), row, pc, c)
  {
  }

  lemma DecisionPlain(i: IntentId, l: Local, row: IntentRow, grant: Grant, pc: Pc, c: Choice, b: bool)
    requires !InAttempt(pc) && !pc.Entered? && !pc.Reconciles? && !pc.Verifying? && PlainPc(pc)
    requires PcInv(l, row, pc, b)
    ensures PlainPlan(PlanDecision(i, l, row, grant, pc, c), row, pc, c)
  {
  }

  lemma PlansPlain(i: IntentId, l: Local, grant: Option<Grant>, pc: Pc, c: Choice, b: bool)
    requires l.row.Some? && LocalOk(i, l, pc, b) && PlainPc(pc)
    ensures PlainPlan(PlanFor(i, l, grant, pc, c), l.row.value, pc, c)
  {
    var row := l.row.value;
    if pc.Entered? || pc.Reconciles? {
      EntryPlain(i, row, c.trusted && grant.Some?, pc, c);
    } else if grant.Some? {
      if InAttempt(pc) {
        AttemptPlain(i, l, row, grant.value, pc, c);
      } else if pc.Verifying? {
        VerifiedPlain(i, row, grant.value.limits.maxClockSkew, pc, c);
      } else {
        DecisionPlain(i, l, row, grant.value, pc, c, b);
      }
    }
  }

  lemma ContinuesPlainly(plan: Plan, row: IntentRow, pc: Pc, c: Choice, result: Result)
    requires PlainPlan(plan, row, pc, c)
    ensures LeadsPlainly(Continue(plan, result), pc, c)
  {
  }

  /** What a plain transaction does to the row. */
  lemma PlainRow(i: IntentId, l: Local, plan: Plan, pc: Pc, c: Choice, result: Result, l': Local, b: bool)
    requires l.row.Some? && LocalOk(i, l, pc, b) && PlainPlan(plan, l.row.value, pc, c) && WorkerOp(plan.op, i)
    requires ViewStep(i, l, plan.op, result, l')
    ensures l'.permits == l.permits && l'.row.Some?
    ensures l'.row.value.effect != l.row.value.effect ==> (pc.Verifying? && ClaimsEffect(c.answer)) || pc.ClosingCancel?
  {
    if plan.op.Transition? {
      assert TransitionStep(l, plan.op, result, l');
    } else if plan.op.BeginSubmission? {
      assert BeginStep(l, plan.op, result, l');
    }
  }

  lemma PlainRefines(i: IntentId, c0: Core, grant: Option<Grant>, pc: Pc, c: Choice, result: Result, c1: Core, b: bool)
    requires PlainPc(pc) && CoreWork(i, c0, grant, pc, c, result, c1, b)
    requires forall n :: 0 <= n < |c0.l.permits| ==> c0.l.permits[n].intent == i
    ensures Refines(c0, c1) && PcCore(c1, Continue(PlanFor(i, c0.l, grant, pc, c), result))
  {
    var plan := PlanFor(i, c0.l, grant, pc, c);
    PlansPlain(i, c0.l, grant, pc, c, b);
    ContinuesPlainly(plan, c0.l.row.value, pc, c, result);
    PlainRow(i, c0.l, plan, pc, c, result, c1.l, b);
    WorkKeeps(i, c0.l, grant, pc, c, result, c1.l, b);
    PlainCore(i, c0, pc, c, c1, b, Continue(plan, result));
  }

  lemma PlainCore(i: IntentId, c0: Core, pc: Pc, c: Choice, c1: Core, b: bool, pc': Pc)
    requires CoreInv(c0) && PcCore(c0, pc) && !c0.pending && c1 == c0.(l := c1.l)
    requires pc.Verifying? && ClaimsEffect(c.answer) ==> HasConsumed(c0.l.permits)
    requires c1.l.permits == c0.l.permits && c1.l.row.Some?
    requires c1.l.row.value.effect != c0.l.row.value.effect ==>
      (pc.Verifying? && ClaimsEffect(c.answer)) || pc.ClosingCancel?
    requires Advances(c0.l, c1.l, b) && RowInv(i, c1.l, b || BlockedNow(c1.l)) && LeadsPlainly(pc', pc, c)
    ensures Refines(c0, c1) && PcCore(c1, pc')
  {
    CoreRow(c0, c1);
  }

  // ---- the whole system ----

  lemma FenceAllocated(w: World, op: Op)
    requires op.NextFence? && Exec(w, op).result.Fence?
    ensures op.key in w.db.grants && w.db.grants[op.key].status == Active && !HaltedFor(w.db, op.principal)
    ensures Exec(w, op).result.epoch == w.db.grants[op.key].epoch
  {
    assert Exec(w, op) == DoNextFence(w, op);
  }

  /** The intent's core after a transaction of its own worker. */
  lemma CoreAfterWork(s: Sys, o: Owner, i: IntentId, c: Choice)
    requires Inv(s) && Tracked(s.w.db, i) && Enabled(s, Works(o, i, c))
    ensures var s', plan := Next(s, Works(o, i, c)), PlanOf(s, o, i, c);
      var c0, result := CoreOf(s, i), Exec(s.w, plan.op).result;
      && Tracked(s'.w.db, i)
      && CoreOf(s', i) == c0.(l := View(s'.w, i), log := LogAfter(c0.log, result, |c0.l.permits|),
                              sent := if PcOf(s, i).Sending? then c0.sent + {PcOf(s, i).permit} else c0.sent,
                              pending := Continue(plan, result).Fenced?)
  {
    hide Exec, PlanFor;
    var s', plan := Next(s, Works(o, i, c)), PlanOf(s, o, i, c);
    OwnWorkView(s, o, i, c);
    TrackedKept(s, Works(o, i, c), i);
    AuthorityStill(s.w, plan.op, s.w.db.intents[i].intent.grant);
    assert SentOf(s', i) == if PcOf(s, i).Sending? then SentOf(s, i) + {PcOf(s, i).permit} else SentOf(s, i);
  }

  /** The intent's own worker and its core before and after one of its transactions. */
  lemma OwnCore(s: Sys, o: Owner, i: IntentId, c: Choice)
    requires Inv(s) && RefInv(s, i) && Enabled(s, Works(o, i, c)) && Honest(s, Works(o, i, c), i)
    ensures Tracked(Next(s, Works(o, i, c)).w.db, i)
    ensures CoreWork(i, CoreOf(s, i), GrantOf(s.w.db, s.w.db.intents[i].intent), PcOf(s, i), c,
                     Exec(s.w, PlanOf(s, o, i, c).op).result, CoreOf(Next(s, Works(o, i, c)), i), i in s.blocked)
  {
    OwnWorkView(s, o, i, c);
    CoreAfterWork(s, o, i, c);
    assert IntentInv(s, i);
    OwnResult(s, o, i, c);
  }

  /** A fence is allocated only under an active grant outside a halt, at its current epoch. */
  lemma OwnResult(s: Sys, o: Owner, i: IntentId, c: Choice)
    requires Inv(s) && Tracked(s.w.db, i) && Enabled(s, Works(o, i, c))
    ensures var op := PlanOf(s, o, i, c).op;
      var result, g := Exec(s.w, op).result, s.w.db.grants[s.w.db.intents[i].intent.grant];
      && (result.Fence? ==>
            && op.NextFence? && result.epoch == g.epoch && g.status == Active
            && !HaltedFor(s.w.db, g.principal))
      && (result.Recorded? ==> op.RecordPermit?)
  {
    var plan := PlanOf(s, o, i, c);
    ResultKinds(s.w, plan.op);
    if Exec(s.w, plan.op).result.Fence? {
      FenceAllocated(s.w, plan.op);
      OwnFence(i, View(s.w, i), GrantOf(s.w.db, s.w.db.intents[i].intent), s.pcs[(o, i)], c);
    }
  }

  lemma OwnFence(i: IntentId, l: Local, grant: Option<Grant>, pc: Pc, c: Choice)
    requires PlanFor(i, l, grant, pc, c).op.NextFence?
    ensures grant.Some? && PlanFor(i, l, grant, pc, c).op.key == grant.value.key
      && PlanFor(i, l, grant, pc, c).op.principal == grant.value.principal
  {
  }

  lemma WorkRefines(s: Sys, o: Owner, i: IntentId, c: Choice)
    requires Inv(s) && RefInv(s, i) && Enabled(s, Works(o, i, c)) && Honest(s, Works(o, i, c), i)
    ensures RefInv(Next(s, Works(o, i, c)), i) && Refines(CoreOf(s, i), CoreOf(Next(s, Works(o, i, c)), i))
  {
    var s' := Next(s, Works(o, i, c));
    var grant, pc, result := GrantOf(s.w.db, s.w.db.intents[i].intent), PcOf(s, i),
      Exec(s.w, PlanOf(s, o, i, c).op).result;
    OwnCore(s, o, i, c);
    OwnWorkView(s, o, i, c);
    var c0, c1, b := CoreOf(s, i), CoreOf(s', i), i in s.blocked;
    if pc.ClaimedRisk? {
      FencingRefines(i, c0, grant, pc, c, result, c1, b);
    } else if pc.Fenced? {
      RecordingRefines(i, c0, grant, pc, c, result, c1, b);
    } else if pc.Sending? {
      SendingRefines(i, c0, grant, pc, c, result, c1, b);
    } else if Voids(pc) {
      VoidingRefines(i, c0, grant, pc, c, result, c1, b);
    } else {
      PlainRefines(i, c0, grant, pc, c, result, c1, b);
    }
  }

  /** What stays the same for an intent under a step that is not its own worker's. */
  ghost predicate CoreRests(s: Sys, st: Step, i: IntentId)
    requires Enabled(s, st) && Tracked(s.w.db, i)
  {
    var s' := Next(s, st);
    && Tracked(s'.w.db, i)
    && LogOf(s', i) == LogOf(s, i)
    && SentOf(s', i) == SentOf(s, i)
    && (PcOf(s', i) == PcOf(s, i) || (!PcOf(s', i).Fenced? && !PcOf(s', i).Sending? && !PcOf(s', i).VoidingCancel?
                                      && !PcOf(s', i).ClosingCancel?))
  }

  lemma TrackedKept(s: Sys, st: Step, i: IntentId)
    requires Inv(s) && Tracked(s.w.db, i) && Enabled(s, st)
    ensures Tracked(Next(s, st).w.db, i) && Next(s, st).w.db.intents[i].intent == s.w.db.intents[i].intent
  {
    Attempts.RowKept(s, st, i);
    NextExecutes(s, st);
    Authority.GrantEffect(s.w, OpOf(s, st), s.w.db.intents[i].intent.grant);
  }

  lemma OthersRest(s: Sys, st: Step, i: IntentId)
    requires Inv(s) && Tracked(s.w.db, i) && Enabled(s, st) && !(st.Works? && st.id == i)
    ensures CoreRests(s, st, i)
  {
    TrackedKept(s, st, i);
    Attempts.OtherStep(s, st, i);
    OthersHistory(s, st, i);
  }

  lemma OthersHistory(s: Sys, st: Step, i: IntentId)
    requires Enabled(s, st) && !(st.Works? && st.id == i)
    ensures LogOf(Next(s, st), i) == LogOf(s, i) && SentOf(Next(s, st), i) == SentOf(s, i)
  {
    assert forall n: nat :: (i, n) in Next(s, st).sent <==> (i, n) in s.sent;
  }

  /** The worker may vanish in the middle of an issuance. */
  lemma PcDrops(c0: Core, c1: Core, pc: Pc, pc': Pc)
    requires CoreInv(c0) && PcCore(c0, pc) && c0.pending == pc.Fenced? && c1 == c0.(pending := pc'.Fenced?)
    requires pc' == pc || (!pc'.Fenced? && !pc'.Sending? && !pc'.VoidingCancel? && !pc'.ClosingCancel?)
    ensures Refines(c0, c1) && PcCore(c1, pc')
  {
    if c0.pending && !c1.pending {
      CoreDrop(c0, c1);
    } else {
      Stutters(c0, c1);
    }
  }

  /** Steps that leave the view, the epoch, the status and the halt alone. */
  lemma QuietRefines(s: Sys, st: Step, i: IntentId)
    requires Inv(s) && RefInv(s, i) && Enabled(s, st) && CoreRests(s, st, i)
    requires View(Next(s, st).w, i) == View(s.w, i)
    requires Still(s.w, Next(s, st).w, s.w.db.intents[i].intent.grant)
    ensures RefInv(Next(s, st), i) && Refines(CoreOf(s, i), CoreOf(Next(s, st), i))
  {
    hide Exec;
    var s' := Next(s, st);
    assert s'.w.db.intents[i] == s.w.db.intents[i] by {
      assert View(s'.w, i).row == View(s.w, i).row;
    }
    PcDrops(CoreOf(s, i), CoreOf(s', i), PcOf(s, i), PcOf(s', i));
  }

  /** Only the operator moves the authority. */
  lemma OperatesRefines(s: Sys, st: Step, i: IntentId)
    requires Inv(s) && RefInv(s, i) && Enabled(s, st) && st.Operates? && CoreRests(s, st, i)
    ensures RefInv(Next(s, st), i) && Refines(CoreOf(s, i), CoreOf(Next(s, st), i))
  {
    hide Exec;
    var s' := Next(s, st);
    OperatorView(s, st, i);
    OperatorFences(s.w, st.op, s.w.db.intents[i].intent.grant);
    AuthorityRefines(CoreOf(s, i), CoreOf(s', i));
  }

  lemma OperatorView(s: Sys, st: Step, i: IntentId)
    requires Inv(s) && Tracked(s.w.db, i) && Enabled(s, st) && st.Operates?
    ensures var s' := Next(s, st);
      && s'.w == Exec(s.w, st.op).w
      && View(s'.w, i) == View(s.w, i) && i in s'.w.db.intents && s'.w.db.intents[i] == s.w.db.intents[i]
      && PcOf(s', i) == PcOf(s, i)
  {
    OtherEffect(s.w, st.op, i);
    LeasesKept(s.w, st.op);
    assert View(Next(s, st).w, i).row == View(s.w, i).row;
  }

  lemma AuthorityRefines(c0: Core, c1: Core)
    requires CoreInv(c0) && c1 == c0.(epoch := c1.epoch, active := c1.active, halted := c1.halted)
    requires c0.epoch + Cost(c0.active, c1.active, c0.halted, c1.halted) <= c1.epoch
    ensures Refines(c0, c1)
  {
    AuthorityRuns(Abs(c0), c1.epoch, c1.active, c1.halted);
    CoreAuthority(c0, c1, AuthorityActions(Abs(c0), c1.epoch, c1.active, c1.halted));
  }

  lemma ConsumedRow(w: World, op: Op)
    requires op.ConsumePermit? && Exec(w, op).result == Done
    ensures var k := RowOf(w.db.permits, op.permit.id);
      && k < |w.db.permits| && !SupersededRow(w.db.permits, k)
      && var p := w.db.permits[k];
         && p.grant in w.db.grants && w.db.grants[p.grant].status == Active
         && w.db.grants[p.grant].epoch == p.epoch && !HaltedFor(w.db, p.principal)
  {
    assert Exec(w, op) == DoConsume(w, op);
  }

  /** What a successful consumption requires. */
  lemma ConsumptionChecks(s: Sys, st: Step, i: IntentId)
    requires Inv(s) && DistinctIds(s.w.db.permits) && Tracked(s.w.db, i) && Enabled(s, st) && Effected(s, st, i)
    ensures var l, g := View(s.w, i), s.w.db.grants[s.w.db.intents[i].intent.grant];
      && ConsumedStep(l, View(Next(s, st).w, i)) && (i, |l.permits| - 1) in s.sent
      && Last(l.permits).grant in s.w.db.grants && s.w.db.grants[Last(l.permits).grant].status == Active
      && s.w.db.grants[Last(l.permits).grant].epoch == Last(l.permits).epoch
      && !HaltedFor(s.w.db, Last(l.permits).principal)
  {
    hide Exec, Inv;
    var op := OpOf(s, st);
    var permits := s.w.db.permits;
    NextExecutes(s, st);
    ConsumesOwn(permits, i, st.permit);
    ConsumeEffect(s.w, op, i);
    ConsumedRow(s.w, op);
    var k := RowStored(permits, i, st.permit);
    assert RowOf(permits, permits[k].id) <= k;
    NewestIsLast(permits, k);
  }

  lemma VenueRefines(s: Sys, st: Step, i: IntentId)
    requires Inv(s) && DistinctIds(s.w.db.permits) && RefInv(s, i) && Enabled(s, st) && st.VenueConsumes?
      && CoreRests(s, st, i)
    ensures RefInv(Next(s, st), i) && Refines(CoreOf(s, i), CoreOf(Next(s, st), i))
  {
    hide Exec;
    var s', op := Next(s, st), OpOf(s, st);
    NextExecutes(s, st);
    AuthorityStill(s.w, op, s.w.db.intents[i].intent.grant);
    if Effected(s, st, i) {
      ConsumptionChecks(s, st, i);
      VenueAdmits(s, st, i);
    } else {
      NotConsumed(s, st, i);
      QuietRefines(s, st, i);
    }
  }

  lemma NotConsumed(s: Sys, st: Step, i: IntentId)
    requires Inv(s) && DistinctIds(s.w.db.permits) && Enabled(s, st) && st.VenueConsumes? && !Effected(s, st, i)
    ensures View(Next(s, st).w, i) == View(s.w, i)
  {
    NextExecutes(s, st);
    ConsumeEffect(s.w, OpOf(s, st), i);
    if st.id != i {
      ConsumesOwn(s.w.db.permits, st.id, st.permit);
    }
  }

  lemma VenueAdmits(s: Sys, st: Step, i: IntentId)
    requires Inv(s) && RefInv(s, i) && Enabled(s, st) && st.VenueConsumes? && CoreRests(s, st, i)
    requires Still(s.w, Next(s, st).w, s.w.db.intents[i].intent.grant)
    requires var l := View(s.w, i);
      && ConsumedStep(l, View(Next(s, st).w, i)) && (i, |l.permits| - 1) in s.sent
      && Last(l.permits).grant in s.w.db.grants && s.w.db.grants[Last(l.permits).grant].status == Active
      && s.w.db.grants[Last(l.permits).grant].epoch == Last(l.permits).epoch
      && !HaltedFor(s.w.db, Last(l.permits).principal)
    ensures RefInv(Next(s, st), i) && Refines(CoreOf(s, i), CoreOf(Next(s, st), i))
  {
    hide Exec;
    var s' := Next(s, st);
    LeasesKept(s.w, OpOf(s, st));
    assert PcOf(s', i) == PcOf(s, i);
    assert s'.w.db.intents[i] == s.w.db.intents[i] by {
      assert View(s'.w, i).row == View(s.w, i).row;
    }
    assert BoundToGrant(Last(View(s.w, i).permits), s.w.db.intents[i].intent);
    CoreConsume(CoreOf(s, i), CoreOf(s', i));
  }

  /** The orphan repair moves the reservation only. */
  lemma RepairRefines(s: Sys, st: Step, i: IntentId)
    requires Inv(s) && RefInv(s, i) && Enabled(s, st) && st.OrphanRepaired? && st.id == i && CoreRests(s, st, i)
    ensures RefInv(Next(s, st), i) && Refines(CoreOf(s, i), CoreOf(Next(s, st), i))
  {
    var s', op := Next(s, st), OpOf(s, st);
    NextExecutes(s, st);
    OwnEffect(s.w, op, i);
    LeasesKept(s.w, op);
    AuthorityStill(s.w, op, s.w.db.intents[i].intent.grant);
    assert PcOf(s', i) == PcOf(s, i);
    assert View(s'.w, i).row == View(s.w, i).row == Some(s.w.db.intents[i]);
    assert IntentInv(s, i);
    assert !PcOf(s, i).Fenced?;
    CoreRow(CoreOf(s, i), CoreOf(s', i));
  }

  lemma RestRefines(s: Sys, st: Step, i: IntentId)
    requires Inv(s) && RefInv(s, i) && Enabled(s, st) && CoreRests(s, st, i)
    requires !(st.Works? && st.id == i) && !st.VenueConsumes? && !st.Operates? && !(st.OrphanRepaired? && st.id == i)
    ensures RefInv(Next(s, st), i) && Refines(CoreOf(s, i), CoreOf(Next(s, st), i))
  {
    var op := OpOf(s, st);
    NextExecutes(s, st);
    RestView(s, st, i);
    AuthorityStill(s.w, op, s.w.db.intents[i].intent.grant);
    QuietRefines(s, st, i);
  }

  lemma RestView(s: Sys, st: Step, i: IntentId)
    requires Inv(s) && Enabled(s, st) && i in s.w.db.intents
    requires !(st.Works? && st.id == i) && !st.VenueConsumes? && !st.Operates? && !(st.OrphanRepaired? && st.id == i)
    ensures View(Next(s, st).w, i) == View(s.w, i) && !OperatorOp(OpOf(s, st))
  {
    var op := OpOf(s, st);
    if st.Works? {
      WorkerOpOf(s, st.owner, st.id, st.c);
      OtherEffect(s.w, op, i);
    } else if MovesLease(st) {
      LeaseView(s, st, i);
    } else {
      ArrivalView(s, st, i);
    }
  }

  lemma ArrivalView(s: Sys, st: Step, i: IntentId)
    requires Enabled(s, st) && i in s.w.db.intents && (st.Arrives? || (st.OrphanRepaired? && st.id != i))
    ensures View(Next(s, st).w, i) == View(s.w, i)
  {
    var op := OpOf(s, st);
    if Subject(op) == Some(i) {
      OwnEffect(s.w, op, i);
    } else {
      OtherEffect(s.w, op, i);
    }
  }

  /** Every step of the system is a sequence of steps of the abstract protocol of the intent. */
  lemma StepRefines(s: Sys, st: Step, i: IntentId)
    requires Inv(s) && DistinctIds(s.w.db.permits) && RefInv(s, i) && Enabled(s, st) && Honest(s, st, i)
    ensures RefInv(Next(s, st), i) && Refines(CoreOf(s, i), CoreOf(Next(s, st), i))
  {
    hide Exec;
    if st.Works? && st.id == i {
      WorkRefines(s, st.owner, i, st.c);
    } else {
      OthersRest(s, st, i);
      if st.VenueConsumes? {
        VenueRefines(s, st, i);
      } else if st.Operates? {
        OperatesRefines(s, st, i);
      } else if st.OrphanRepaired? && st.id == i {
        RepairRefines(s, st, i);
      } else {
        RestRefines(s, st, i);
      }
    }
  }

  ghost predicate HonestRun(s: Sys, steps: seq<Step>, i: IntentId)
    requires Possible(s, steps)
    decreases |steps|
  {
    steps == [] || (Honest(s, steps[0], i) && HonestRun(Next(s, steps[0]), steps[1..], i))
  }

  // ---- from a store without intents on ----

  /** Nothing was ever allocated, recorded or sent for the intent, and nobody is in an attempt of it. */
  predicate Untried(s: Sys, i: IntentId) {
    && Rows(s.w.db.permits, i) == [] && LogOf(s, i) == [] && SentOf(s, i) == {}
    && (PcOf(s, i).Entered? || PcOf(s, i).Reconciles? || PcOf(s, i) == Finished)
    && (i in s.w.db.intents ==> s.w.db.intents[i].effect == None && s.w.db.intents[i].state != Finalized)
  }

  /** Without a provisioned grant version a worker does no more than end the intent. */
  lemma UntrackedPlan(i: IntentId, l: Local, pc: Pc, c: Choice)
    requires l.row.Some? && (pc.Entered? || pc.Reconciles? || pc == Finished)
    ensures var plan := PlanFor(i, l, None, pc, c);
      && (plan.op == Nothing || (plan.op.Transition? && plan.op.effect == None && plan.op.to != Finalized))
      && plan.done == plan.otherwise == plan.conflict == Finished
  {
  }

  lemma UntriedWork(s: Sys, o: Owner, i: IntentId, c: Choice)
    requires Inv(s) && Enabled(s, Works(o, i, c)) && !Tracked(s.w.db, i) && Untried(s, i)
    ensures Untried(Next(s, Works(o, i, c)), i)
  {
    hide Exec, PlanFor;
    var s', plan := Next(s, Works(o, i, c)), PlanOf(s, o, i, c);
    assert IntentInv(s, i);
    OwnWorkView(s, o, i, c);
    UntrackedPlan(i, View(s.w, i), PcOf(s, i), c);
    ResultKinds(s.w, plan.op);
    assert SentOf(s', i) == SentOf(s, i);
    var l, l' := View(s.w, i), View(s'.w, i);
    assert l'.permits == l.permits;
    assert l'.row.Some? && l'.row.value.effect == None && l'.row.value.state != Finalized;
  }

  lemma UntriedStep(s: Sys, st: Step, i: IntentId)
    requires Inv(s) && Enabled(s, st) && !Tracked(s.w.db, i) && Untried(s, i)
    ensures Untried(Next(s, st), i)
  {
    hide Exec;
    if st.Works? && st.id == i {
      UntriedWork(s, st.owner, i, st.c);
    } else {
      var s' := Next(s, st);
      Attempts.OtherStep(s, st, i);
      OthersHistory(s, st, i);
      OthersLeaveRow(s, st, i);
      assert SentOf(s', i) == SentOf(s, i);
      assert View(s'.w, i).permits == Rows(s'.w.db.permits, i);
    }
  }

  /** The abstract protocol gets here from a state without permits. */
  ghost predicate FromTheStart(c: Core)
    requires CoreInv(c)
  {
    exists epoch, active, halted, actions ::
      P.Reaches(P.S(epoch, active, halted, [], 0, P.Nothing, false), actions, Abs(c), RULES)
  }

  lemma UntriedRefines(s: Sys, i: IntentId)
    requires Inv(s) && Untried(s, i) && Tracked(s.w.db, i)
    ensures RefInv(s, i) && FromTheStart(CoreOf(s, i))
  {
    var c := CoreOf(s, i);
    assert IntentInv(s, i);
    assert P.Reaches(P.S(c.epoch, c.active, c.halted, [], 0, P.Nothing, false), [], Abs(c), RULES);
  }

  lemma StartOnwards(c: Core, c': Core)
    requires CoreInv(c) && FromTheStart(c) && Refines(c, c')
    ensures FromTheStart(c')
  {
    var epoch, active, halted, first :|
      P.Reaches(P.S(epoch, active, halted, [], 0, P.Nothing, false), first, Abs(c), RULES);
    var second :| Simulates(c, second, c');
    var start := P.S(epoch, active, halted, [], 0, P.Nothing, false);
    P.Concat(start, first, Abs(c), second, Abs(c'), RULES);
    assert P.Reaches(start, first + second, Abs(c'), RULES);
  }

  /** Where every run keeps an intent: untouched, or in step with the abstract protocol. */
  ghost predicate InStep(s: Sys, i: IntentId) {
    if Tracked(s.w.db, i) then RefInv(s, i) && FromTheStart(CoreOf(s, i)) else Untried(s, i)
  }

  lemma InStepNext(s: Sys, st: Step, i: IntentId)
    requires Inv(s) && DistinctIds(s.w.db.permits) && InStep(s, i) && Enabled(s, st) && Honest(s, st, i)
    ensures Inv(Next(s, st)) && InStep(Next(s, st), i)
  {
    hide Exec;
    StepKeepsInv(s, st);
    if Tracked(s.w.db, i) {
      StepRefines(s, st, i);
      StartOnwards(CoreOf(s, i), CoreOf(Next(s, st), i));
    } else {
      UntriedStep(s, st, i);
      if Tracked(Next(s, st).w.db, i) {
        UntriedRefines(Next(s, st), i);
      }
    }
  }

  lemma {:induction false} InStepAlways(s: Sys, steps: seq<Step>, i: IntentId)
    requires Inv(s) && DistinctIds(s.w.db.permits) && InStep(s, i) && Possible(s, steps) && HonestRun(s, steps, i)
    ensures Inv(Run(s, steps)) && InStep(Run(s, steps), i)
    decreases |steps|
  {
    hide Exec, InStep;
    if steps != [] {
      InStepNext(s, steps[0], i);
      NextExecutes(s, steps[0]);
      IdsStayDistinct(s.w, OpOf(s, steps[0]));
      InStepAlways(Next(s, steps[0]), steps[1..], i);
    }
  }

  lemma SafeCore(c: Core)
    requires CoreInv(c) && FromTheStart(c)
    ensures P.InvariantFailures(Abs(c)) == []
    ensures c.l.row.value.state == Finalized ==> NoneLive(c.l.permits)
  {
    var epoch, active, halted, actions :|
      P.Reaches(P.S(epoch, active, halted, [], 0, P.Nothing, false), actions, Abs(c), RULES);
    P.RunKeepsInv(P.S(epoch, active, halted, [], 0, P.Nothing, false), actions);
    P.CountBounded(Abs(c).permits);
  }

  /** Every run of the whole system from a store without intents is, for each intent, a run of the
      abstract permit protocol under both of its rules from a state without permits, as long as the
      verifier is honest about that intent; so none of that protocol's failures ever occurs, and a
      finalized intent has no live permit. Until the intent's grant version is provisioned nothing
      happens to it that the abstract protocol could see. */
  lemma ProtocolRefinesModel(s0: Sys, steps: seq<Step>, i: IntentId)
    requires Initial(s0) && Possible(s0, steps) && HonestRun(s0, steps, i)
    ensures var s := Run(s0, steps);
      if Tracked(s.w.db, i) then
        && RefInv(s, i) && FromTheStart(CoreOf(s, i))
        && P.InvariantFailures(Abs(CoreOf(s, i))) == []
        && (s.w.db.intents[i].state == Finalized ==> NoneLive(Rows(s.w.db.permits, i)))
      else Untried(s, i)
  {
    hide Exec;
    InitialInv(s0);
    InStepAlways(s0, steps, i);
    var s := Run(s0, steps);
    if Tracked(s.w.db, i) {
      SafeCore(CoreOf(s, i));
      assert View(s.w, i).permits == Rows(s.w.db.permits, i);
    }
  }
}
