/** Why the lease is load-bearing: the same machine without its two lease rules has a run in which one
    intent has two external effects. */
module LeaseNeeded {
  import opened Types
  import opened StoreOps
  import opened LocalView
  import opened Settlement
  import opened Protocol
  import opened Guarantees
  import Authority

  // ---- runs without the lease rules ----

  /** The machine without the lease rules gets from `s` to `s'` with `n` external effects of the intent. */
  ghost predicate Leads(s: Sys, steps: seq<Step>, s': Sys, i: IntentId, n: nat)
    decreases |steps|
  {
    if steps == [] then s' == s && n == 0
    else
      && EnabledBarLease(s, steps[0])
      && (if Effected(s, steps[0], i) then n > 0 && Leads(Next(s, steps[0]), steps[1..], s', i, n - 1)
          else Leads(Next(s, steps[0]), steps[1..], s', i, n))
  }

  ghost predicate Reaches(s: Sys, s': Sys, i: IntentId, n: nat) {
    exists steps :: Leads(s, steps, s', i, n)
  }

  lemma {:induction false} LeadsOn(s: Sys, steps: seq<Step>, s': Sys, i: IntentId, n: nat, st: Step)
    requires Leads(s, steps, s', i, n) && EnabledBarLease(s', st)
    ensures Leads(s, steps + [st], Next(s', st), i, if Effected(s', st, i) then n + 1 else n)
    decreases |steps|
  {
    hide Exec, Next, Effected, EnabledBarLease;
    if steps == [] {
      assert (steps + [st])[1..] == [];
    } else {
      assert (steps + [st])[1..] == steps[1..] + [st];
      LeadsOn(Next(s, steps[0]), steps[1..], s', i, if Effected(s, steps[0], i) then n - 1 else n, st);
    }
  }

  lemma ReachesOn(s: Sys, s': Sys, i: IntentId, n: nat, st: Step)
    requires Reaches(s, s', i, n) && EnabledBarLease(s', st)
    ensures Reaches(s, Next(s', st), i, if Effected(s', st, i) then n + 1 else n)
  {
    hide Exec, Next, Effected, EnabledBarLease;
    var steps :| Leads(s, steps, s', i, n);
    LeadsOn(s, steps, s', i, n, st);
  }

  // ---- the scene: one grant, one intent, two workers ----

  const PROMPT: Owner := "prompt"
  const SLOW: Owner := "slow"
  const LIMITS := Limits(None, None, None, 0, 2)
  const RISK := Risk("account", 0)
  const EXPIRY := 1

  /** Every gate passes, the clock stands at 0, permits expire at 1, the adapter times out, and the
      verifier finds nothing. */
  function Passing(permitId: string): Choice {
    Choice(true, true, true, true, Proposed, [], 0, EXPIRY, permitId, RISK, NoAnchor, Ambiguous,
           Answered(Record(NoEffect, None, None, true, true)))
  }

  function GrantFor(intent: Intent): Grant {
    Grant(intent.grant, intent.principal, LIMITS)
  }

  /** What the store says of the intent and its grant. */
  datatype Facts = Facts(state: IntentState, begun: nat, fence: nat, permits: seq<PermitRow>, reserved: bool,
                         claimed: bool)

  ghost predicate Holds(w: World, intent: Intent, f: Facts) {
    var i, k := intent.id, RiskKey(intent.grant, RISK.scope, RISK.stateVersion);
    && w.db.grants == map[intent.grant := GrantRow(intent.principal, LIMITS, Active, 1, f.fence)]
    && w.db.halted == {} && w.db.caps == map[] && !w.db.anchorRequired
    && i in w.db.intents && w.db.intents.Keys == {i}
    && RowHolds(w.db.intents[i], intent, f)
    && (if f.reserved then
          i in w.db.usage && w.db.usage[i].principal == intent.principal && w.db.usage[i].grant == intent.grant
          && w.db.usage[i].maxActions == None && w.db.usage[i].status == Held
        else w.db.usage == map[])
    && w.db.riskClaims == (if f.reserved then map[k := i] else map[])
    && w.db.permitClaims == (if f.claimed then map[k := i] else map[])
    && w.db.permits == f.permits
    && forall n :: 0 <= n < |f.permits| ==> f.permits[n].intent == i
  }

  ghost predicate RowHolds(row: IntentRow, intent: Intent, f: Facts) {
    && row.intent == intent && row.state == f.state && row.submissions == f.begun
    && row.effect == None && row.filled == None && !Blocked(row.reasons)
    && (f.begun == 0 ==> row.ambiguityUntil == None)
  }

  predicate Suits(intent: Intent) {
    Monetary(intent.primitive) && intent.amount.Some? && intent.amount.value > 0
  }

  lemma {:induction false} AllRows(permits: seq<PermitRow>, i: IntentId)
    requires forall n :: 0 <= n < |permits| ==> permits[n].intent == i
    ensures Rows(permits, i) == permits
  {
    if permits != [] {
      AllRows(permits[..|permits| - 1], i);
    }
  }

  /** The transactions a worker issues, as the functions that give them. */
  lemma Executes(w: World, op: Op)
    ensures op.Transition? ==> Exec(w, op) == DoTransition(w, op)
    ensures op.BeginSubmission? ==> Exec(w, op) == DoBegin(w, op)
    ensures op.ReserveUsage? ==> Exec(w, op) == DoReserve(w, op)
    ensures op.ClaimPermitRisk? ==> Exec(w, op) == DoClaimPermitRisk(w, op)
    ensures op.RecordPermit? ==> Exec(w, op) == DoRecord(w, op)
    ensures op.VoidPermits? ==>
      Exec(w, op) == Outcome(w.(db := w.db.(permits := VoidedLedger(w.db.permits, op.id))), Done)
    ensures op.NextFence? ==> Exec(w, op) == DoNextFence(w, op)
    ensures op.ConsumePermit? ==> Exec(w, op) == DoConsume(w, op)
    ensures op == Nothing ==> Exec(w, op) == Outcome(w, Done)
  {
  }

  /** One transaction of a worker, in a scene. */
  lemma WorkerActs(s: Sys, o: Owner, intent: Intent, f: Facts, c: Choice)
    requires Holds(s.w, intent, f) && (o, intent.id) in s.pcs
    ensures var i, st := intent.id, Works(o, intent.id, c);
      var plan := PlanFor(i, View(s.w, i), Some(GrantFor(intent)), s.pcs[(o, i)], c);
      && EnabledBarLease(s, st) && !Effected(s, st, i)
      && Next(s, st).w == Exec(s.w, plan.op).w && Next(s, st).dead == s.dead
      && Next(s, st).pcs == s.pcs[(o, i) := Continue(plan, Exec(s.w, plan.op).result)]
      && s.sent <= Next(s, st).sent
      && (s.pcs[(o, i)].Sending? ==> (i, s.pcs[(o, i)].permit) in Next(s, st).sent)
      && View(s.w, i).row == Some(s.w.db.intents[i]) && View(s.w, i).permits == f.permits
  {
    hide Exec, PlanFor;
    AllRows(f.permits, intent.id);
    assert GrantOf(s.w.db, intent) == Some(GrantFor(intent));
  }

  // ---- arrival and reservation ----

  ghost function Start(intent: Intent): Sys {
    Sys(World(Db(map[intent.grant := GrantRow(intent.principal, LIMITS, Active, 1, 0)], {}, map[], 0, false,
                 map[], map[], [], map[], map[], [], map[]), map[]),
        map[], {}, {}, map[], {}, map[], map[])
  }

  lemma Arrival(intent: Intent) returns (s: Sys)
    ensures Initial(Start(intent)) && Reaches(Start(intent), s, intent.id, 0)
    ensures Holds(s.w, intent, Facts(Proposed, 0, 0, [], false, false)) && s.pcs == map[] && s.dead == {}
  {
    var s0, st := Start(intent), Arrives(intent);
    s := Next(s0, st);
    assert Exec(s0.w, Register(intent)) == DoRegister(s0.w, intent);
    assert Leads(s0, [], s0, intent.id, 0);
    ReachesOn(s0, s0, intent.id, 0, st);
  }

  lemma LeaseOnly(w: World, op: Op)
    requires op.TakeLease?
    ensures Exec(w, op).w == w.(db := w.db.(leases := Exec(w, op).w.db.leases))
  {
    assert Exec(w, op) == DoTakeLease(w, op.id, op.owner);
  }

  lemma EntersScene(s: Sys, o: Owner, intent: Intent, f: Facts)
    requires Holds(s.w, intent, f) && o !in s.dead && (o, intent.id) !in s.pcs
    ensures var st := Enters(o, intent.id, true);
      && EnabledBarLease(s, st) && !Effected(s, st, intent.id)
      && Holds(Next(s, st).w, intent, f) && Next(s, st).dead == s.dead
      && Next(s, st).pcs == s.pcs[(o, intent.id) := Entered]
  {
    hide Exec;
    LeaseOnly(s.w, TakeLease(intent.id, o));
  }

  lemma Entering(s0: Sys, s: Sys, o: Owner, intent: Intent, f: Facts) returns (s': Sys)
    requires Reaches(s0, s, intent.id, 0) && Holds(s.w, intent, f) && o !in s.dead && (o, intent.id) !in s.pcs
    ensures Reaches(s0, s', intent.id, 0) && Holds(s'.w, intent, f) && s'.dead == s.dead
    ensures s'.pcs == s.pcs[(o, intent.id) := Entered]
  {
    hide Exec, Holds, Effected;
    var st := Enters(o, intent.id, true);
    EntersScene(s, o, intent, f);
    ReachesOn(s0, s, intent.id, 0, st);
    s' := Next(s, st);
  }

  ghost predicate StepsTo(w: World, intent: Intent, pc: Pc, c: Choice, f: Facts, pc': Pc) {
    var plan := PlanFor(intent.id, View(w, intent.id), Some(GrantFor(intent)), pc, c);
    Holds(Exec(w, plan.op).w, intent, f) && Continue(plan, Exec(w, plan.op).result) == pc'
  }

  /** A worker's transaction carries the run on. */
  lemma Working(s0: Sys, s: Sys, n: nat, o: Owner, intent: Intent, f: Facts, c: Choice, f': Facts, pc': Pc)
    returns (s': Sys)
    requires Reaches(s0, s, intent.id, n) && Holds(s.w, intent, f) && (o, intent.id) in s.pcs
    requires StepsTo(s.w, intent, s.pcs[(o, intent.id)], c, f', pc')
    ensures Reaches(s0, s', intent.id, n) && Holds(s'.w, intent, f') && s'.dead == s.dead
    ensures s'.pcs == s.pcs[(o, intent.id) := pc']
    ensures var pc := s.pcs[(o, intent.id)]; pc.Sending? ==> (intent.id, pc.permit) in s'.sent
  {
    hide Exec, PlanFor, Continue, Holds;
    WorkerActs(s, o, intent, f, c);
    ReachesOn(s0, s, intent.id, n, Works(o, intent.id, c));
    s' := Next(s, Works(o, intent.id, c));
  }

  lemma Reserves(w: World, intent: Intent, c: Choice)
    requires Suits(intent) && Holds(w, intent, Facts(Proposed, 0, 0, [], false, false)) && c == Passing("")
    ensures StepsTo(w, intent, Entered, c, Facts(Proposed, 0, 0, [], false, false), Reserving)
    ensures StepsTo(w, intent, Reserving, c, Facts(Proposed, 0, 0, [], true, false), Authorizing)
  {
    hide Exec;
    var op := ReserveUsage(intent, GrantFor(intent), RISK, 0, NoAnchor);
    Executes(w, op);
    Executes(w, Nothing);
    assert ReservationAdmitted(w, op);
  }

  lemma Authorizes(w: World, intent: Intent, c: Choice)
    requires Holds(w, intent, Facts(Proposed, 0, 0, [], true, false)) && c == Passing("")
    ensures StepsTo(w, intent, Authorizing, c, Facts(Authorized, 0, 0, [], true, false), CommittingReservation)
  {
    hide Exec;
    var op := Move(intent.id, Proposed, Authorized, [], Keep);
    Executes(w, op);
  }

  lemma CommitsReservation(w: World, intent: Intent, c: Choice)
    requires Holds(w, intent, Facts(Authorized, 0, 0, [], true, false)) && c == Passing("")
    ensures StepsTo(w, intent, CommittingReservation, c, Facts(Reserved, 0, 0, [], true, false), Submitting)
  {
    hide Exec;
    var op := Move(intent.id, Authorized, Reserved, [], Keep);
    Executes(w, op);
  }

  /** The slow worker reserves, and sleeps just before its submission. */
  lemma SlowReserves(intent: Intent) returns (s: Sys)
    requires Suits(intent)
    ensures Initial(Start(intent)) && Reaches(Start(intent), s, intent.id, 0) && s.dead == {}
    ensures Holds(s.w, intent, Facts(Reserved, 0, 0, [], true, false)) && s.pcs == map[(SLOW, intent.id) := Submitting]
  {
    hide Exec, PlanFor, Holds, StepsTo, Reaches;
    var s0, c := Start(intent), Passing("");
    var arrived, held := Facts(Proposed, 0, 0, [], false, false), Facts(Proposed, 0, 0, [], true, false);
    s := Arrival(intent);
    s := Entering(s0, s, SLOW, intent, arrived);
    Reserves(s.w, intent, c);
    s := Working(s0, s, 0, SLOW, intent, arrived, c, arrived, Reserving);
    Reserves(s.w, intent, c);
    s := Working(s0, s, 0, SLOW, intent, arrived, c, held, Authorizing);
    Authorizes(s.w, intent, c);
    s := Working(s0, s, 0, SLOW, intent, held, c, held.(state := Authorized), CommittingReservation);
    CommitsReservation(s.w, intent, c);
    s := Working(s0, s, 0, SLOW, intent, held.(state := Authorized), c, held.(state := Reserved), Submitting);
  }

  // ---- the prompt worker comes to the same point through reconciliation ----

  const NOTHING_SEEN := Seen(None, None, None, true, None)

  lemma Reconsiders(w: World, intent: Intent, c: Choice)
    requires Suits(intent) && Holds(w, intent, Facts(Reserved, 0, 0, [], true, false)) && c == Passing("")
    ensures StepsTo(w, intent, Entered, c, Facts(Reserved, 0, 0, [], true, false), Reconciles(true, None))
    ensures StepsTo(w, intent, Reconciles(true, None), c, Facts(Reconciling, 0, 0, [], true, false),
                    Verifying(NOTHING_SEEN))
  {
    hide Exec;
    var row := w.db.intents[intent.id];
    var op := Move(intent.id, Reserved, Reconciling, BlockingOnly(row.reasons), Keep);
    Executes(w, Nothing);
    Executes(w, op);
  }

  const CLEAN := Facts(Reconciling, 0, 0, [], true, false)

  lemma FindsNothing(w: World, intent: Intent, c: Choice)
    requires Suits(intent) && Holds(w, intent, CLEAN) && c == Passing("")
    ensures StepsTo(w, intent, Verifying(NOTHING_SEEN), c, CLEAN, VoidingAbsence(NOTHING_SEEN))
  {
    hide Exec;
    Executes(w, Nothing);
  }

  lemma VoidsNothing(w: World, intent: Intent, c: Choice)
    requires Holds(w, intent, CLEAN) && c == Passing("")
    ensures StepsTo(w, intent, VoidingAbsence(NOTHING_SEEN), c, CLEAN, CheckingLedger(NOTHING_SEEN))
  {
    hide Exec, Decide;
    assert VoidedLedger([], intent.id) == [];
    Executes(w, VoidPermits(intent.id));
  }

  lemma ChecksNothing(w: World, intent: Intent, c: Choice)
    requires Holds(w, intent, CLEAN) && c == Passing("")
    ensures StepsTo(w, intent, CheckingLedger(NOTHING_SEEN), c, CLEAN, Absent(NOTHING_SEEN))
  {
    hide Exec, Decide;
    Executes(w, Nothing);
  }

  lemma GoesOn(w: World, intent: Intent, c: Choice)
    requires Holds(w, intent, CLEAN) && c == Passing("")
    ensures StepsTo(w, intent, Absent(NOTHING_SEEN), c, CLEAN, Submitting)
  {
    hide Exec, Decide;
    Executes(w, Nothing);
  }

  lemma PromptCatchesUp(s0: Sys, s: Sys, intent: Intent) returns (s': Sys)
    requires Suits(intent) && Reaches(s0, s, intent.id, 0) && s.dead == {}
    requires Holds(s.w, intent, CLEAN.(state := Reserved)) && s.pcs == map[(SLOW, intent.id) := Submitting]
    ensures Reaches(s0, s', intent.id, 0) && s'.dead == {} && Holds(s'.w, intent, CLEAN)
    ensures s'.pcs == map[(SLOW, intent.id) := Submitting, (PROMPT, intent.id) := Submitting]
  {
    hide Exec, PlanFor, Holds, StepsTo, Reaches;
    var c, held := Passing(""), CLEAN.(state := Reserved);
    s' := Entering(s0, s, PROMPT, intent, held);
    Reconsiders(s'.w, intent, c);
    s' := Working(s0, s', 0, PROMPT, intent, held, c, held, Reconciles(true, None));
    Reconsiders(s'.w, intent, c);
    s' := Working(s0, s', 0, PROMPT, intent, held, c, CLEAN, Verifying(NOTHING_SEEN));
    FindsNothing(s'.w, intent, c);
    s' := Working(s0, s', 0, PROMPT, intent, CLEAN, c, CLEAN, VoidingAbsence(NOTHING_SEEN));
    VoidsNothing(s'.w, intent, c);
    s' := Working(s0, s', 0, PROMPT, intent, CLEAN, c, CLEAN, CheckingLedger(NOTHING_SEEN));
    ChecksNothing(s'.w, intent, c);
    s' := Working(s0, s', 0, PROMPT, intent, CLEAN, c, CLEAN, Absent(NOTHING_SEEN));
    GoesOn(s'.w, intent, c);
    s' := Working(s0, s', 0, PROMPT, intent, CLEAN, c, CLEAN, Submitting);
  }

  // ---- an attempt, its permit consumed while the adapter call hangs ----

  lemma Begins(w: World, intent: Intent, f: Facts, c: Choice)
    requires Holds(w, intent, f) && f.state == Reconciling && f.reserved && f.begun < 2
    requires c == Passing(c.permitId)
    ensures StepsTo(w, intent, Submitting, c, f.(state := Submitted, begun := f.begun + 1), Issuing)
  {
    hide Exec;
    var op := BeginSubmission(intent.id, {Reserved, Reconciling}, 2, 0);
    Executes(w, op);
  }

  lemma Claims(w: World, intent: Intent, f: Facts, c: Choice)
    requires Holds(w, intent, f) && f.reserved && c == Passing(c.permitId)
    ensures StepsTo(w, intent, Issuing, c, f.(claimed := true), ClaimedRisk(RISK))
  {
    hide Exec;
    var op := ClaimPermitRisk(intent, GrantFor(intent), RISK);
    Executes(w, op);
  }

  lemma Fences(w: World, intent: Intent, f: Facts, c: Choice)
    requires Holds(w, intent, f) && c == Passing(c.permitId)
    ensures StepsTo(w, intent, ClaimedRisk(RISK), c, f.(fence := f.fence + 1), Fenced(1, f.fence + 1, RISK))
  {
    hide Exec;
    var op := NextFence(intent.grant, intent.principal, NoAnchor);
    Executes(w, op);
  }

  function Issued(intent: Intent, fence: nat, permitId: string): PermitRow {
    PermitRow(permitId, intent.id, intent.principal, intent.grant, 1, fence, EXPIRY, false, false)
  }

  /** The permits of the intent are consumed, and neither the new id nor the new fence was used. */
  predicate Used(permits: seq<PermitRow>, fence: nat, permitId: string) {
    forall k :: 0 <= k < |permits| ==> permits[k].consumed && permits[k].id != permitId && permits[k].fence != fence
  }

  /** The earlier permits have not expired: only because they are consumed are they not in the way. */
  lemma RecordHolds(w: World, intent: Intent, f: Facts, permit: IssuedPermit)
    requires Holds(w, intent, f) && f.begun > 0 && Used(f.permits, f.fence, permit.id)
    requires permit == IssuedPermit(permit.id, intent.id, intent.principal, intent.grant, 1, f.fence, EXPIRY)
    ensures var o := DoRecord(w, RecordPermit(permit, 0, 0));
      && o.result.Recorded?
      && Holds(o.w, intent, f.(permits := f.permits + [Issued(intent, f.fence, permit.id)]))
  {
  }

  lemma Records(w: World, intent: Intent, f: Facts, c: Choice)
    requires Holds(w, intent, f) && f.state == Submitted && f.begun > 0 && c == Passing(c.permitId)
    requires Used(f.permits, f.fence, c.permitId)
    ensures StepsTo(w, intent, Fenced(1, f.fence, RISK), c,
                    f.(permits := f.permits + [Issued(intent, f.fence, c.permitId)]), Sending(|f.permits|, EXPIRY))
  {
    hide Exec, DoRecord;
    var permit := IssuedPermit(c.permitId, intent.id, intent.principal, intent.grant, 1, f.fence, EXPIRY);
    AllRows(f.permits, intent.id);
    RecordHolds(w, intent, f, permit);
    Executes(w, RecordPermit(permit, 0, 0));
  }

  lemma Sends(w: World, intent: Intent, f: Facts, n: nat, c: Choice)
    requires Holds(w, intent, f)
    ensures StepsTo(w, intent, Sending(n, EXPIRY), c, f, Awaiting(n, EXPIRY))
  {
  }

  /** The venue admits the request. */
  lemma Admits(s0: Sys, s: Sys, n: nat, intent: Intent, f: Facts, before: seq<PermitRow>, permitId: string)
    returns (s': Sys)
    requires Reaches(s0, s, intent.id, n) && Holds(s.w, intent, f)
    requires f.permits == before + [Issued(intent, f.fence, permitId)] && Used(before, f.fence, permitId)
    requires (intent.id, |before|) in s.sent
    ensures Reaches(s0, s', intent.id, n + 1) && s'.pcs == s.pcs && s'.dead == s.dead
    ensures Holds(s'.w, intent,
                  f.(fence := f.fence + 1, permits := before + [Issued(intent, f.fence, permitId).(consumed := true)]))
  {
    var st := VenueConsumes(intent.id, |before|, NoAnchor);
    AllRows(f.permits, intent.id);
    var p := Issued(intent, f.fence, permitId);
    var op := ConsumePermit(Presented(p), NoAnchor);
    assert OpOf(s, st) == op;
    Consumed(s.w, intent, f, before, permitId);
    ReachesOn(s0, s, intent.id, n, st);
    s' := Next(s, st);
  }

  lemma Consumed(w: World, intent: Intent, f: Facts, before: seq<PermitRow>, permitId: string)
    requires Holds(w, intent, f)
    requires f.permits == before + [Issued(intent, f.fence, permitId)] && Used(before, f.fence, permitId)
    ensures var o := Exec(w, ConsumePermit(Presented(Issued(intent, f.fence, permitId)), NoAnchor));
      && o.result == Done
      && Holds(o.w, intent,
               f.(fence := f.fence + 1, permits := before + [Issued(intent, f.fence, permitId).(consumed := true)]))
  {
    hide Exec;
    var p := Issued(intent, f.fence, permitId);
    var op := ConsumePermit(Presented(p), NoAnchor);
    Authority.RowFound(w.db.permits, |before|);
    Executes(w, op);
    assert w.db.permits[|before| := p.(consumed := true)] == before + [p.(consumed := true)];
  }

  lemma Attempt(s0: Sys, s: Sys, n: nat, o: Owner, intent: Intent, f: Facts, permitId: string) returns (s': Sys)
    requires Reaches(s0, s, intent.id, n) && Holds(s.w, intent, f)
    requires (o, intent.id) in s.pcs && s.pcs[(o, intent.id)] == Submitting
    requires f.state == Reconciling && f.reserved && f.begun < 2
    requires Used(f.permits, f.fence + 1, permitId)
    ensures Reaches(s0, s', intent.id, n + 1) && s'.dead == s.dead
    ensures s'.pcs == s.pcs[(o, intent.id) := Awaiting(|f.permits|, EXPIRY)]
    ensures Holds(s'.w, intent,
                  Facts(Submitted, f.begun + 1, f.fence + 2,
                        f.permits + [Issued(intent, f.fence + 1, permitId).(consumed := true)], true, true))
  {
    hide Exec, PlanFor, Holds, StepsTo, Reaches;
    var c := Passing(permitId);
    var begun := f.(state := Submitted, begun := f.begun + 1);
    Begins(s.w, intent, f, c);
    s' := Working(s0, s, n, o, intent, f, c, begun, Issuing);
    Claims(s'.w, intent, begun, c);
    s' := Working(s0, s', n, o, intent, begun, c, begun.(claimed := true), ClaimedRisk(RISK));
    Fences(s'.w, intent, begun.(claimed := true), c);
    var fenced := begun.(claimed := true, fence := f.fence + 1);
    s' := Working(s0, s', n, o, intent, begun.(claimed := true), c, fenced, Fenced(1, f.fence + 1, RISK));
    Records(s'.w, intent, fenced, c);
    var issued := fenced.(permits := f.permits + [Issued(intent, f.fence + 1, permitId)]);
    s' := Working(s0, s', n, o, intent, fenced, c, issued, Sending(|f.permits|, EXPIRY));
    Sends(s'.w, intent, issued, |f.permits|, c);
    s' := Working(s0, s', n, o, intent, issued, c, issued, Awaiting(|f.permits|, EXPIRY));
    s' := Admits(s0, s', n, intent, issued, f.permits, permitId);
  }

  // ---- back to reconciliation, and the slow worker wakes ----

  lemma GivesUp(w: World, intent: Intent, f: Facts, n: nat, c: Choice)
    requires Holds(w, intent, f) && f.state == Submitted && f.begun > 0 && c == Passing("")
    ensures StepsTo(w, intent, Awaiting(n, EXPIRY), c, f.(state := Unknown), Reconciles(true, None))
  {
    hide Exec;
    var op := Transition(intent.id, {Submitted}, Unknown, [ExecutionAmbiguous], None, Keep, Some(EXPIRY), None);
    Executes(w, op);
  }

  lemma BackToReconciling(w: World, intent: Intent, f: Facts, c: Choice)
    requires Holds(w, intent, f) && f.state == Unknown && f.begun > 0 && c == Passing("")
    ensures intent.id in w.db.intents
    ensures StepsTo(w, intent, Reconciles(true, None), c, f.(state := Reconciling),
                    Verifying(SeenBy(w.db.intents[intent.id], true, None)))
  {
    hide Exec;
    var op := Move(intent.id, Unknown, Reconciling, BlockingOnly(w.db.intents[intent.id].reasons), Keep);
    Executes(w, op);
  }

  /** Without the lease rules: from a store without intents, a run that only takes steps open to the
      protocol's own workers and to the venue gives one intent two external effects. The first permit has
      not expired when the second is recorded; it is not in the way because it was consumed. */
  lemma TwoWorkersTwoEffects(intent: Intent)
    requires Suits(intent)
    ensures exists s :: Initial(Start(intent)) && Reaches(Start(intent), s, intent.id, 2)
  {
    hide Exec, PlanFor, Holds, StepsTo, Reaches;
    var s0, i := Start(intent), intent.id;
    var s := SlowReserves(intent);
    s := PromptCatchesUp(s0, s, intent);
    s := Attempt(s0, s, 0, PROMPT, intent, Facts(Reconciling, 0, 0, [], true, false), "first");
    var first := Issued(intent, 1, "first").(consumed := true);
    var sent := Facts(Submitted, 1, 2, [first], true, true);
    assert [] + [first] == [first];
    GivesUp(s.w, intent, sent, 0, Passing(""));
    s := Working(s0, s, 1, PROMPT, intent, sent, Passing(""), sent.(state := Unknown), Reconciles(true, None));
    BackToReconciling(s.w, intent, sent.(state := Unknown), Passing(""));
    s := Working(s0, s, 1, PROMPT, intent, sent.(state := Unknown), Passing(""), sent.(state := Reconciling),
                 Verifying(SeenBy(s.w.db.intents[i], true, None)));
    s := Attempt(s0, s, 1, SLOW, intent, sent.(state := Reconciling), "second");
  }
}
