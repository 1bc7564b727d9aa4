/** Grant versions that are revoked or behind their mark, over histories in which the datastore is
    restored: when they stay closed, and what opens them again. */
module Closure {
  import opened Types
  import opened StoreOps
  import opened Authority
  import opened Restore
  import Laws

  /** The mark of the version's row, or of the row that provisioning would insert. */
  function RowOrFresh(db: Db, key: GrantKey): Mark {
    if key in db.grants then RowMark(db.grants[key]) else Mark(1, 0)
  }

  /** The version is closed: revoked, or behind its mark. */
  predicate Shut(w: World, key: GrantKey) {
    (key in w.db.grants && w.db.grants[key].status == Revoked) || Regressed(w.marks, key, RowOrFresh(w.db, key))
  }

  /** A halt advances the epoch of a row without comparing it with its mark, and so does a pause that
      cannot read the anchor: either may take a row that is behind up to its mark. */
  predicate Lifts(w: World, op: Op, key: GrantKey) {
    && key in w.db.grants
    && w.db.grants[key].status != Revoked
    && Regressed(w.marks, key, RowMark(w.db.grants[key]))
    && !Regressed(w.marks, key, Mark(w.db.grants[key].epoch + 1, w.db.grants[key].fence))
    && match op
       case Halt(scope, _, view, _) => InScope(scope, w.db.grants[key].principal) && view.Anchor?
       case SetGrantStatus(k, principal, status, view) =>
         && k == key && principal == w.db.grants[key].principal
         && w.db.grants[key].status == Active && status == Paused
         && view.Anchor? && !view.readable
       case _ => false
  }

  /** An event that opens a closed version: such a halt or pause, or the restore of a copy in which the
      version is open. */
  predicate Reinstates(r: Realm, e: Event, key: GrantKey) {
    Shut(r.w, key)
    && match e
       case Commits(op) => Lifts(r.w, op, key)
       case RestoredFrom(backup) => !Shut(World(backup, r.w.marks), key)
       case _ => false
  }

  lemma MarksRiseShut(w: World, marks: map<GrantKey, Mark>, key: GrantKey)
    requires Shut(w, key) && MarksRise(w.marks, marks)
    ensures Shut(w.(marks := marks), key)
  {
  }

  lemma RecordMarkSame(marks: map<GrantKey, Mark>, view: AnchorView, key: GrantKey, m: Mark)
    ensures Regressed(RecordMark(marks, view, key, m), key, m) <==> Regressed(marks, key, m)
  {
  }

  lemma RaiseAllSame(marks: map<GrantKey, Mark>, grants: map<GrantKey, GrantRow>, reached: set<GrantKey>, key: GrantKey)
    requires key in grants
    ensures Regressed(RaiseAll(marks, grants, reached), key, RowMark(grants[key]))
      <==> Regressed(marks, key, RowMark(grants[key]))
  {
  }

  lemma HaltRow(w: World, op: Op, key: GrantKey)
    requires w.db.anchorRequired && op.Halt? && key in w.db.grants
    ensures var g, w' := w.db.grants[key], DoHalt(w, op).w;
      && key in w'.db.grants
      && w'.db.grants[key] ==
           (if op.view.Anchor? && InScope(op.scope, g.principal) then g.(epoch := g.epoch + 1) else g)
      && (Regressed(w'.marks, key, RowMark(w'.db.grants[key])) <==> Regressed(w.marks, key, RowMark(w'.db.grants[key])))
  {
    hide RaiseAll, Regressed;
    var grants := FencedGrants(w.db.grants, op.scope);
    var fenced := set k | k in op.reached && k in grants && InScope(op.scope, grants[k].principal);
    RaiseAllSame(w.marks, grants, fenced, key);
  }

  lemma HaltShut(w: World, op: Op, key: GrantKey)
    requires w.db.anchorRequired && Shut(w, key) && op.Halt?
    ensures Shut(DoHalt(w, op).w, key) <==> !Lifts(w, op, key)
  {
    if key in w.db.grants {
      hide DoHalt;
      HaltRow(w, op, key);
    }
  }

  lemma StatusRow(w: World, op: Op, key: GrantKey)
    requires w.db.anchorRequired && op.SetGrantStatus? && op.key == key && key in w.db.grants
    ensures var g, w' := w.db.grants[key], DoSetStatus(w, op).w;
      && key in w'.db.grants
      && (w'.db.grants[key] == g || w'.db.grants[key] == g.(status := op.status, epoch := g.epoch + 1))
      && (Regressed(w.marks, key, RowMark(g)) ==>
            (w'.db.grants[key] != g <==>
              && op.view.Anchor? && op.principal == g.principal && !op.view.readable
              && op.status != Active && op.status != g.status && g.status != Revoked))
      && (g.status == Revoked ==> w'.db.grants[key] == g)
      && (Regressed(w'.marks, key, RowMark(w'.db.grants[key])) <==> Regressed(w.marks, key, RowMark(w'.db.grants[key])))
  {
    hide RecordMark, Regressed;
    var g := w.db.grants[key];
    RecordMarkSame(w.marks, op.view, key, RowMark(g));
    RecordMarkSame(w.marks, op.view, key, RowMark(g.(status := op.status, epoch := g.epoch + 1)));
  }

  lemma StatusShut(w: World, op: Op, key: GrantKey)
    requires w.db.anchorRequired && Shut(w, key) && op.SetGrantStatus?
    ensures Shut(DoSetStatus(w, op).w, key) <==> !Lifts(w, op, key)
  {
    if key in w.db.grants && op.key == key {
      hide DoSetStatus;
      StatusRow(w, op, key);
    }
  }

  lemma OtherShut(w: World, op: Op, key: GrantKey)
    requires w.db.anchorRequired && Shut(w, key) && ChangesAuthority(op) && !op.Halt? && !op.SetGrantStatus?
    ensures Shut(ExecAuthority(w, op).w, key)
  {
    match op
    case NextFence(_, _, _) =>
    case ConsumePermit(_, _) =>
    case ProvisionGrant(_, _, _) =>
    case Resume(_, _) =>
    case RevokeAfterRestore(_, _) =>
    case SetExposureCap(_, _, _, _) =>
  }

  /** One transaction opens a closed version exactly when it lifts it. */
  lemma CommitShut(w: World, op: Op, key: GrantKey)
    requires w.db.anchorRequired && Shut(w, key)
    ensures Shut(Exec(w, op).w, key) <==> !Lifts(w, op, key)
  {
    hide DoHalt, DoSetStatus, DoNextFence, DoConsume, DoProvision, DoResume, DoRevokeAfterRestore, DoSetCap;
    if op.Halt? {
      HaltShut(w, op, key);
    } else if op.SetGrantStatus? {
      StatusShut(w, op, key);
    } else if ChangesAuthority(op) {
      OtherShut(w, op, key);
    }
  }

  lemma EventShut(r: Realm, e: Event, key: GrantKey)
    requires Inv(r) && Shut(r.w, key)
    ensures Shut(Happens(r, e).w, key) <==> !Reinstates(r, e, key)
  {
    hide Exec;
    match e
    case Commits(op) => CommitShut(r.w, op, key);
    case CrashesBeforeCommit(op) =>
      MarkEffect(r.w, op);
      MarksRiseShut(r.w, Exec(r.w, op).w.marks, key);
    case Reopened(raised) =>
      RaiseAllRises(r.w.marks, r.w.db.grants, raised);
      MarksRiseShut(r.w, RaiseBehind(r.w, raised), key);
    case _ =>
  }

  // ---- crashes and reopening ----

  /** A worker that dies between the anchor's write and the commit leaves the version closed: the fence it took
      is counted by the mark alone, and was given to nobody. */
  lemma CrashFailsClosed(r: Realm, key: GrantKey, principal: PrincipalId, view: AnchorView)
    requires view.Anchor? && Laws.InForce(r.w, key, principal, view)
    ensures var op := NextFence(key, principal, view);
      var committed, crashed := Happens(r, Commits(op)), Happens(r, CrashesBeforeCommit(op));
      && crashed.w == World(r.w.db, committed.w.marks)
      && !Shut(committed.w, key) && Shut(crashed.w, key)
      && crashed.issued == r.issued && crashed.recorded == r.recorded && crashed.spent == r.spent
  {
    Laws.Allocations(r.w, NextFence(key, principal, view));
  }

  /** Reopening an anchored datastore raises the marks of rows that are ahead of them, those it reaches, and
      lowers none; it opens no version and closes none. */
  lemma ReopeningRaises(r: Realm, raised: set<GrantKey>, key: GrantKey)
    ensures var w, w' := r.w, Happens(r, Reopened(raised)).w;
      && w'.db == w.db && (Shut(w', key) <==> Shut(w, key))
      && (key in raised && key in w.db.grants ==>
            key in w'.marks && w'.marks[key] == Laws.Kept(w.marks, key, RowMark(w.db.grants[key]))[key])
      && (key !in raised || key !in w.db.grants ==>
            (key in w'.marks <==> key in w.marks) && (key in w.marks ==> w'.marks[key] == w.marks[key]))
  {
  }

  // ---- what a closed version can still do ----

  /** The version is used: a fence is allocated or a permit consumed under it. */
  ghost predicate Uses(w: World, op: Op, key: GrantKey) {
    || (op.NextFence? && op.key == key && Exec(w, op).result.Fence?)
    || (op.ConsumePermit? && op.permit.grant == key && Exec(w, op).result == Done)
  }

  /** Every transaction but a halt or a pause. */
  predicate Ordinary(op: Op) {
    !op.Halt? && !(op.SetGrantStatus? && op.status == Paused)
  }

  /** Ordinary transactions may lead to a use of the version. */
  ghost predicate Usable(w: World, key: GrantKey) {
    exists ops, op :: (forall k :: 0 <= k < |ops| ==> Ordinary(ops[k])) && Uses(ExecAll(w, ops), op, key)
  }

  lemma {:induction false} ShutUnusable(w: World, ops: seq<Op>, op: Op, key: GrantKey)
    requires w.db.anchorRequired && Shut(w, key)
    requires forall k :: 0 <= k < |ops| ==> Ordinary(ops[k])
    ensures !Uses(ExecAll(w, ops), op, key)
    decreases |ops|
  {
    if ops != [] {
      CommitShut(w, ops[0], key);
      assert Ordinary(ops[0]);
      ShutUnusable(Exec(w, ops[0]).w, ops[1..], op, key);
    }
  }

  const ANCHORED := Anchor(true, true)

  /** The operator's way back to a usable version, as far as the anchor lets him. */
  function Reopening(key: GrantKey, g: GrantRow): seq<Op> {
    [ProvisionGrant(Grant(key, g.principal, g.limits), Active, ANCHORED),
     SetGrantStatus(key, g.principal, Active, ANCHORED),
     Resume(Global, ANCHORED),
     Resume(Of(g.principal), ANCHORED)]
  }

  lemma ReopeningWorks(w: World, key: GrantKey, g: GrantRow)
    requires w.db.anchorRequired && !Shut(w, key)
    requires key in w.db.grants ==> w.db.grants[key] == g
    ensures var ops := Reopening(key, g);
      var w1 := Exec(w, ops[0]).w;
      var w2 := Exec(w1, ops[1]).w;
      && w2.db.anchorRequired && key in w2.db.grants && !Shut(w2, key)
      && w2.db.grants[key].status == Active && w2.db.grants[key].principal == g.principal
  {
    var ops := Reopening(key, g);
    assert Exec(w, ops[0]) == DoProvision(w, ops[0]);
    var w1 := Exec(w, ops[0]).w;
    assert Exec(w1, ops[1]) == DoSetStatus(w1, ops[1]);
  }

  lemma ResumingWorks(w: World, key: GrantKey, principal: PrincipalId)
    requires w.db.anchorRequired && key in w.db.grants && !Shut(w, key)
    requires w.db.grants[key].status == Active && w.db.grants[key].principal == principal
    ensures var w1 := Exec(w, Resume(Global, ANCHORED)).w;
      var w2 := Exec(w1, Resume(Of(principal), ANCHORED)).w;
      Exec(w2, NextFence(key, principal, ANCHORED)).result.Fence?
  {
    var op1, op2 := Resume(Global, ANCHORED), Resume(Of(principal), ANCHORED);
    assert Exec(w, op1) == DoResume(w, op1);
    var w1 := Exec(w, op1).w;
    assert Exec(w1, op2) == DoResume(w1, op2);
    var w2 := Exec(w1, op2).w;
    var issue := NextFence(key, principal, ANCHORED);
    assert Exec(w2, issue) == DoNextFence(w2, issue);
  }

  lemma OpenUsable(w: World, key: GrantKey)
    requires w.db.anchorRequired && !Shut(w, key)
    ensures Usable(w, key)
  {
    hide Exec;
    var g := if key in w.db.grants then w.db.grants[key]
             else GrantRow("", Limits(None, None, None, 0, 0), Active, 1, 0);
    var ops := Reopening(key, g);
    ReopeningWorks(w, key, g);
    ResumingWorks(Exec(Exec(w, ops[0]).w, ops[1]).w, key, g.principal);
    ExecFour(w, ops);
    assert Uses(ExecAll(w, ops), NextFence(key, g.principal, ANCHORED), key);
  }

  lemma ExecFour(w: World, ops: seq<Op>)
    requires |ops| == 4
    ensures ExecAll(w, ops) == Exec(Exec(Exec(Exec(w, ops[0]).w, ops[1]).w, ops[2]).w, ops[3]).w
  {
    hide Exec;
    ExecFirst(w, ops);
    ExecFirst(Exec(w, ops[0]).w, ops[1..]);
    ExecFirst(Exec(Exec(w, ops[0]).w, ops[1]).w, ops[1..][1..]);
    ExecFirst(Exec(Exec(Exec(w, ops[0]).w, ops[1]).w, ops[2]).w, ops[1..][1..][1..]);
  }

  /** A version can be used again, by whatever ordinary transactions, exactly when it is open. */
  lemma UsableIffOpen(w: World, key: GrantKey)
    requires w.db.anchorRequired
    ensures Usable(w, key) <==> !Shut(w, key)
  {
    if Shut(w, key) && Usable(w, key) {
      var ops, op :| (forall k :: 0 <= k < |ops| ==> Ordinary(ops[k])) && Uses(ExecAll(w, ops), op, key);
      ShutUnusable(w, ops, op, key);
    }
    if !Shut(w, key) {
      OpenUsable(w, key);
    }
  }

  // ---- over histories ----

  /** At no point of the history, its end included, can the version be used. */
  ghost predicate NeverUsable(r: Realm, events: seq<Event>, key: GrantKey)
    decreases |events|
  {
    !Usable(r.w, key) && (events == [] || NeverUsable(Happens(r, events[0]), events[1..], key))
  }

  ghost predicate NeverReinstated(r: Realm, events: seq<Event>, key: GrantKey)
    decreases |events|
  {
    events == []
    || (!Reinstates(r, events[0], key) && NeverReinstated(Happens(r, events[0]), events[1..], key))
  }

  lemma {:induction false} ShutHistory(r: Realm, events: seq<Event>, key: GrantKey)
    requires Inv(r) && PossibleHistory(r, events) && Shut(r.w, key)
    ensures NeverUsable(r, events, key) <==> NeverReinstated(r, events, key)
    decreases |events|
  {
    hide Exec;
    UsableIffOpen(r.w, key);
    if events != [] {
      var r1 := Happens(r, events[0]);
      EventKeepsInv(r, events[0]);
      EventShut(r, events[0], key);
      if Shut(r1.w, key) {
        ShutHistory(r1, events[1..], key);
      } else {
        UsableIffOpen(r1.w, key);
      }
    }
  }

  /** From the moment a grant version is revoked or behind its mark, it issues and consumes nothing in
      any continuation, exactly as long as no halt and no pause without the anchor takes its row up to
      the mark and no copy is restored in which it is open. */
  lemma ClosedUntilReinstated(r: Realm, events: seq<Event>, key: GrantKey)
    requires Reached(r) && PossibleHistory(r, events) && Shut(r.w, key)
    ensures NeverUsable(r, events, key) <==> NeverReinstated(r, events, key)
  {
    ReachedInv(r);
    ShutHistory(r, events, key);
  }

  /** No halt or pause of the history lifts the version. */
  ghost predicate NeverLifted(r: Realm, events: seq<Event>, key: GrantKey)
    decreases |events|
  {
    events == []
    || (!(events[0].Commits? && Lifts(r.w, events[0].op, key)) && NeverLifted(Happens(r, events[0]), events[1..], key))
  }

  /** The version is closed in the datastore and in every copy that may still come back. */
  ghost predicate ShutEverywhere(r: Realm, key: GrantKey) {
    Shut(r.w, key) && forall b :: b in r.backups ==> Shut(World(b, r.w.marks), key)
  }

  lemma ShutEverywhereStep(r: Realm, e: Event, key: GrantKey)
    requires Inv(r) && Possible(r, e) && ShutEverywhere(r, key) && Shut(Happens(r, e).w, key)
    ensures ShutEverywhere(Happens(r, e), key)
  {
    hide Exec;
    var r' := Happens(r, e);
    EventKeepsInv(r, e);
    forall b | b in r'.backups ensures Shut(World(b, r'.w.marks), key) {
      if b in r.backups {
        MarksRiseShut(World(b, r.w.marks), r'.w.marks, key);
      }
    }
  }

  lemma {:induction false} ShutEverywhereHistory(r: Realm, events: seq<Event>, key: GrantKey)
    requires Inv(r) && PossibleHistory(r, events) && ShutEverywhere(r, key)
    ensures NeverReinstated(r, events, key) <==> NeverLifted(r, events, key)
    decreases |events|
  {
    hide Exec;
    if events != [] {
      EventKeepsInv(r, events[0]);
      EventShut(r, events[0], key);
      if Shut(Happens(r, events[0]).w, key) {
        ShutEverywhereStep(r, events[0], key);
        ShutEverywhereHistory(Happens(r, events[0]), events[1..], key);
      }
    }
  }

  /** The operator's closure after a restore shuts the version, and it stays closed exactly as long as
      nothing reinstates it. Closed with the anchor, copies whose epoch had not passed both row and mark
      are behind; when these are all the copies there are, only a halt or a pause without the anchor
      opens the version again, whatever is restored. */
  lemma ClosureIsFinal(r: Realm, close: Op, events: seq<Event>)
    requires Reached(r) && close.RevokeAfterRestore? && Exec(r.w, close).result == Done
    requires PossibleHistory(Happens(r, Commits(close)), events)
    ensures var key, r1 := close.key, Happens(r, Commits(close));
      && Shut(r1.w, key)
      && (NeverUsable(r1, events, key) <==> NeverReinstated(r1, events, key))
      && (close.view == ANCHORED && (forall b :: b in r.backups ==> NotPast(r.w, b, key)) ==>
            (NeverUsable(r1, events, key) <==> NeverLifted(r1, events, key)))
  {
    hide Exec;
    ReachedInv(r);
    var key, r1 := close.key, Happens(r, Commits(close));
    ClosureShuts(r.w, close);
    EventKeepsInv(r, Commits(close));
    ShutHistory(r1, events, key);
    if close.view == ANCHORED && forall b :: b in r.backups ==> NotPast(r.w, b, key) {
      assert r1.backups == r.backups;
      ShutEverywhereHistory(r1, events, key);
    }
  }

  /** The version's epoch in the copy has not passed both its present row and its mark. */
  predicate NotPast(w: World, copy: Db, key: GrantKey)
    requires key in w.db.grants
  {
    key in copy.grants && copy.grants[key].epoch <= Max(w.db.grants[key].epoch, MarkOr(w.marks, key).epoch)
  }

  lemma ClosureShuts(w: World, close: Op)
    requires close.RevokeAfterRestore? && Exec(w, close).result == Done
    ensures close.key in w.db.grants && Shut(Exec(w, close).w, close.key)
    ensures close.view == ANCHORED ==>
      forall b: Db :: NotPast(w, b, close.key) ==> Shut(World(b, Exec(w, close).w.marks), close.key)
  {
    assert Exec(w, close) == DoRevokeAfterRestore(w, close);
  }

  /** Without a restore a revoked version stays revoked, whatever is halted or paused. */
  lemma {:induction false} RevokedIsNeverReinstated(r: Realm, events: seq<Event>, key: GrantKey)
    requires key in r.w.db.grants && r.w.db.grants[key].status == Revoked
    requires forall k :: 0 <= k < |events| ==> !events[k].RestoredFrom?
    ensures NeverReinstated(r, events, key)
    decreases |events|
  {
    hide Exec;
    if events != [] {
      if events[0].Commits? {
        GrantEffect(r.w, events[0].op, key);
      }
      RevokedIsNeverReinstated(Happens(r, events[0]), events[1..], key);
    }
  }

  // ---- the ways back ----

  /** A datastore with one active grant version at its mark. */
  function OneGrant(key: GrantKey, principal: PrincipalId, limits: Limits): World {
    World(Db(map[key := GrantRow(principal, limits, Active, 1, 0)], {}, map[], 0, true,
             map[], map[], [], map[], map[], [], map[]),
          map[key := Mark(1, 0)])
  }

  /** Of a version that is at most one epoch behind, one halt makes a version at its mark. */
  lemma HaltLifts(w: World, key: GrantKey, g: GrantRow, m: Mark)
    requires w == World(OneGrant(key, g.principal, g.limits).db, map[key := m])
    requires g == w.db.grants[key] && (m == Mark(1, 1) || m == Mark(2, 0))
    ensures Shut(w, key) && Exec(w, NextFence(key, g.principal, ANCHORED)).result == Refused
    ensures var w1 := Exec(w, Halt(Global, true, ANCHORED, {key})).w;
      var w2 := Exec(w1, Resume(Global, ANCHORED)).w;
      Exec(w2, NextFence(key, g.principal, ANCHORED)).result == Fence(2, 1)
  {
    var halt, resume, issue := Halt(Global, true, ANCHORED, {key}), Resume(Global, ANCHORED),
      NextFence(key, g.principal, ANCHORED);
    assert Exec(w, issue) == DoNextFence(w, issue);
    assert Exec(w, halt) == DoHalt(w, halt);
    var w1 := Exec(w, halt).w;
    assert w1.db.grants[key] == g.(epoch := 2) && !Regressed(w1.marks, key, Mark(2, 0));
    assert Exec(w1, resume) == DoResume(w1, resume);
    var w2 := Exec(w1, resume).w;
    assert Exec(w2, issue) == DoNextFence(w2, issue);
  }

  /** A fence is allocated, the copy from before is restored, and the version is behind its mark; one
      halt of everything and its resumption later it issues again. */
  lemma HaltReinstates(key: GrantKey, principal: PrincipalId, limits: Limits)
    ensures var w := OneGrant(key, principal, limits);
      var issue := NextFence(key, principal, ANCHORED);
      var behind := [BackupTaken, Commits(issue), RestoredFrom(w.db)];
      var halted := [Commits(Halt(Global, true, ANCHORED, {key})), Commits(Resume(Global, ANCHORED))];
      var r := History(Genesis(w), behind);
      && FreshlyBound(w) && PossibleHistory(Genesis(w), behind) && PossibleHistory(r, halted)
      && Shut(r.w, key) && Exec(r.w, issue).result == Refused
      && Exec(History(r, halted).w, issue).result == Fence(2, 1)
  {
    var w := OneGrant(key, principal, limits);
    var issue := NextFence(key, principal, ANCHORED);
    assert Exec(w, issue) == DoNextFence(w, issue);
    assert Exec(w, issue).w.marks == map[key := Mark(1, 1)];
    BackAfterHalt(key, principal, limits, issue, Mark(1, 1));
  }

  /** The version is closed with the anchor, the copy from before is restored, and one halt of everything
      and its resumption later the closed version issues again. */
  lemma HaltUndoesClosure(key: GrantKey, principal: PrincipalId, limits: Limits)
    ensures var w := OneGrant(key, principal, limits);
      var issue := NextFence(key, principal, ANCHORED);
      var closed := [BackupTaken, Commits(RevokeAfterRestore(key, ANCHORED)), RestoredFrom(w.db)];
      var halted := [Commits(Halt(Global, true, ANCHORED, {key})), Commits(Resume(Global, ANCHORED))];
      var r := History(Genesis(w), closed);
      && FreshlyBound(w) && PossibleHistory(Genesis(w), closed) && PossibleHistory(r, halted)
      && Shut(r.w, key) && Exec(r.w, issue).result == Refused
      && Exec(History(r, halted).w, issue).result == Fence(2, 1)
  {
    var w := OneGrant(key, principal, limits);
    var close := RevokeAfterRestore(key, ANCHORED);
    assert Exec(w, close) == DoRevokeAfterRestore(w, close);
    assert Exec(w, close).w.marks == map[key := Mark(2, 0)];
    BackAfterHalt(key, principal, limits, close, Mark(2, 0));
  }

  lemma BackAfterHalt(key: GrantKey, principal: PrincipalId, limits: Limits, op: Op, m: Mark)
    requires !op.RecordPermit? && (m == Mark(1, 1) || m == Mark(2, 0))
    requires Exec(OneGrant(key, principal, limits), op).w.marks == map[key := m]
    ensures var w := OneGrant(key, principal, limits);
      var issue := NextFence(key, principal, ANCHORED);
      var first := [BackupTaken, Commits(op), RestoredFrom(w.db)];
      var halted := [Commits(Halt(Global, true, ANCHORED, {key})), Commits(Resume(Global, ANCHORED))];
      var r := History(Genesis(w), first);
      && PossibleHistory(Genesis(w), first) && PossibleHistory(r, halted)
      && Shut(r.w, key) && Exec(r.w, issue).result == Refused
      && Exec(History(r, halted).w, issue).result == Fence(2, 1)
  {
    hide Exec;
    var w := OneGrant(key, principal, limits);
    var r := RestoredAfter(Genesis(w), op);
    assert r.w == World(w.db, map[key := m]);
    HaltLifts(r.w, key, w.db.grants[key], m);
    TwoCommits(r, Halt(Global, true, ANCHORED, {key}), Resume(Global, ANCHORED));
  }

  /** Backup, one transaction, and the backup restored. */
  lemma RestoredAfter(r: Realm, op: Op) returns (r': Realm)
    requires !op.RecordPermit?
    ensures var events := [BackupTaken, Commits(op), RestoredFrom(r.w.db)];
      PossibleHistory(r, events) && r' == History(r, events) && r'.w == World(r.w.db, Exec(r.w, op).w.marks)
  {
    hide Exec;
    var events := [BackupTaken, Commits(op), RestoredFrom(r.w.db)];
    var r1 := Happens(r, BackupTaken);
    var r2 := Happens(r1, Commits(op));
    r' := Happens(r2, RestoredFrom(r.w.db));
    assert events[1..] == [Commits(op), RestoredFrom(r.w.db)];
    assert events[1..][1..] == [RestoredFrom(r.w.db)];
    assert events[1..][1..][1..] == [];
    assert History(r2, [RestoredFrom(r.w.db)]) == r';
    assert History(r1, events[1..]) == r';
    assert PossibleHistory(r2, [RestoredFrom(r.w.db)]);
    assert PossibleHistory(r1, events[1..]);
  }

  lemma TwoCommits(r: Realm, op: Op, op': Op)
    requires !op.RecordPermit? && !op'.RecordPermit?
    ensures var events := [Commits(op), Commits(op')];
      PossibleHistory(r, events) && History(r, events).w == Exec(Exec(r.w, op).w, op').w
  {
    hide Exec;
    var events := [Commits(op), Commits(op')];
    var r1 := Happens(r, Commits(op));
    assert events[1..] == [Commits(op')] && events[1..][1..] == [];
    assert History(r1, events[1..]) == Happens(r1, Commits(op'));
    assert PossibleHistory(r1, events[1..]);
  }

  // ---- and what that costs ----

  function PermitFor(id: IntentId, key: GrantKey, principal: PrincipalId, epoch: nat, name: string): IssuedPermit {
    IssuedPermit(name, id, principal, key, epoch, 1, 1)
  }

  ghost predicate ReadyToIssue(w: World, key: GrantKey, g: GrantRow) {
    && w.db.anchorRequired && w.db.permits == [] && w.db.halted == {} && key in w.db.grants && w.db.grants[key] == g
    && g.status == Active && g.fence == 0 && !Regressed(w.marks, key, RowMark(g))
  }

  /** A fence, a permit recorded under it, and the world in which a venue presents it. */
  lemma IssueWorks(w: World, key: GrantKey, g: GrantRow, p: IssuedPermit)
    requires ReadyToIssue(w, key, g) && p == PermitFor(p.intent, key, g.principal, g.epoch, p.id)
    ensures var issue, record := NextFence(key, g.principal, ANCHORED), RecordPermit(p, 0, 0);
      var o1 := Exec(w, issue);
      var o2 := Exec(o1.w, record);
      var o3 := Exec(o2.w, ConsumePermit(p, ANCHORED));
      && o1.result == Fence(g.epoch, 1) && o2.result.Recorded? && o3.result == Done
      && AtLeast(o3.w.marks, key, Mark(g.epoch, 2)) && o3.w.marks == w.marks[key := Mark(g.epoch, 2)]
  {
    var issue, record := NextFence(key, g.principal, ANCHORED), RecordPermit(p, 0, 0);
    var consume := ConsumePermit(p, ANCHORED);
    assert Exec(w, issue) == DoNextFence(w, issue);
    var w1 := Exec(w, issue).w;
    assert w1.db.grants[key] == g.(fence := 1) && w1.marks == w.marks[key := Mark(g.epoch, 1)];
    assert Exec(w1, record) == DoRecord(w1, record);
    var w2 := Exec(w1, record).w;
    assert RowOf(w2.db.permits, p.id) == 0;
    assert Exec(w2, consume) == DoConsume(w2, consume);
  }

  lemma HaltMakesReady(w: World, key: GrantKey, g: GrantRow)
    requires w == World(OneGrant(key, g.principal, g.limits).db, map[key := Mark(1, 2)]) && g == w.db.grants[key]
    ensures var w1 := Exec(w, Halt(Global, true, ANCHORED, {key})).w;
      ReadyToIssue(Exec(w1, Resume(Global, ANCHORED)).w, key, g.(epoch := 2))
  {
    var halt, resume := Halt(Global, true, ANCHORED, {key}), Resume(Global, ANCHORED);
    assert Exec(w, halt) == DoHalt(w, halt);
    var w1 := Exec(w, halt).w;
    assert Exec(w1, resume) == DoResume(w1, resume);
  }

  lemma HistoryCons(r: Realm, e: Event, rest: seq<Event>)
    requires Possible(r, e) && PossibleHistory(Happens(r, e), rest)
    ensures PossibleHistory(r, [e] + rest) && History(r, [e] + rest) == History(Happens(r, e), rest)
  {
    hide Exec;
    assert ([e] + rest)[1..] == rest;
  }

  lemma ThreeEvents(r: Realm, a: Event, b: Event, c: Event)
    requires Possible(r, a) && Possible(Happens(r, a), b) && Possible(Happens(Happens(r, a), b), c)
    ensures PossibleHistory(r, [a, b, c]) && History(r, [a, b, c]) == Happens(Happens(Happens(r, a), b), c)
  {
    hide Exec, Possible, Happens;
    var r1 := Happens(r, a);
    var r2 := Happens(r1, b);
    HistoryCons(r2, c, []);
    HistoryCons(r1, b, [c]);
    HistoryCons(r, a, [b, c]);
    assert [c] + [] == [c] && [b] + [c] == [b, c] && [a] + [b, c] == [a, b, c];
  }

  lemma ActsOnce(w: World, key: GrantKey, g: GrantRow, p: IssuedPermit) returns (r: Realm)
    requires ReadyToIssue(w, key, g) && p == PermitFor(p.intent, key, g.principal, g.epoch, p.id)
    ensures var events := [BackupTaken, Commits(NextFence(key, g.principal, ANCHORED)), Commits(RecordPermit(p, 0, 0))];
      PossibleHistory(Genesis(w), events) && r == History(Genesis(w), events)
    ensures Exec(r.w, ConsumePermit(p, ANCHORED)).result == Done
    ensures Exec(r.w, ConsumePermit(p, ANCHORED)).w.marks == w.marks[key := Mark(g.epoch, 2)]
    ensures r.backups == {w.db} && r.recorded.Keys == {TokenOf(p)}
  {
    hide Exec;
    var issue := Commits(NextFence(key, g.principal, ANCHORED));
    IssueWorks(w, key, g, p);
    var a1 := Happens(Genesis(w), BackupTaken);
    var a2 := Happens(a1, issue);
    r := Happens(a2, Commits(RecordPermit(p, 0, 0)));
    ThreeEvents(Genesis(w), BackupTaken, issue, Commits(RecordPermit(p, 0, 0)));
  }

  /** The copy is restored after the consumption, and everything is halted and resumed. */
  lemma HaltedBack(r: Realm, key: GrantKey, g: GrantRow, p: IssuedPermit) returns (r': Realm)
    requires r.backups == {OneGrant(key, g.principal, g.limits).db}
    requires g == OneGrant(key, g.principal, g.limits).db.grants[key]
    requires Exec(r.w, ConsumePermit(p, ANCHORED)).result == Done
    requires Exec(r.w, ConsumePermit(p, ANCHORED)).w.marks == map[key := Mark(1, 2)]
    ensures var copy := OneGrant(key, g.principal, g.limits).db;
      var events := [Commits(ConsumePermit(p, ANCHORED)), RestoredFrom(copy),
                     Commits(Halt(Global, true, ANCHORED, {key}))];
      var r1 := History(r, events);
      && PossibleHistory(r, events) && Possible(r1, Commits(Resume(Global, ANCHORED)))
      && r' == Happens(r1, Commits(Resume(Global, ANCHORED)))
    ensures ReadyToIssue(r'.w, key, g.(epoch := 2)) && r'.recorded == r.recorded
  {
    hide Exec;
    var copy := OneGrant(key, g.principal, g.limits).db;
    var consume, halt := Commits(ConsumePermit(p, ANCHORED)), Commits(Halt(Global, true, ANCHORED, {key}));
    var b1 := Happens(r, consume);
    var b2 := Happens(b1, RestoredFrom(copy));
    assert b2.w == World(copy, map[key := Mark(1, 2)]);
    HaltMakesReady(b2.w, key, g);
    ThreeEvents(r, consume, RestoredFrom(copy), halt);
    r' := Happens(Happens(b2, halt), Commits(Resume(Global, ANCHORED)));
  }

  lemma ActsAgain(r: Realm, key: GrantKey, g: GrantRow, p: IssuedPermit)
    requires ReadyToIssue(r.w, key, g) && p == PermitFor(p.intent, key, g.principal, g.epoch, p.id)
    requires TokenOf(p) !in r.recorded
    ensures var issue, record := Commits(NextFence(key, g.principal, ANCHORED)), Commits(RecordPermit(p, 0, 0));
      && Possible(r, issue) && Possible(Happens(r, issue), record)
      && Exec(Happens(Happens(r, issue), record).w, ConsumePermit(p, ANCHORED)).result == Done
  {
    hide Exec;
    IssueWorks(r.w, key, g, p);
  }

  /** Two permits of one intent are consumed, one in a history that is lost, because a halt took the
      restored version up to its mark. */
  lemma HaltLetsOneIntentActTwice(key: GrantKey, principal: PrincipalId, limits: Limits, id: IntentId)
    ensures var w := OneGrant(key, principal, limits);
      var issue := Commits(NextFence(key, principal, ANCHORED));
      var first, second := PermitFor(id, key, principal, 1, "first"), PermitFor(id, key, principal, 2, "second");
      var before := [BackupTaken, issue, Commits(RecordPermit(first, 0, 0))];
      var lost := [Commits(ConsumePermit(first, ANCHORED)), RestoredFrom(w.db),
                   Commits(Halt(Global, true, ANCHORED, {key}))];
      var again := [Commits(Resume(Global, ANCHORED)), issue, Commits(RecordPermit(second, 0, 0))];
      var r := History(Genesis(w), before);
      var r' := History(r, lost);
      && FreshlyBound(w)
      && PossibleHistory(Genesis(w), before) && PossibleHistory(r, lost) && PossibleHistory(r', again)
      && Exec(r.w, ConsumePermit(first, ANCHORED)).result == Done
      && Exec(History(r', again).w, ConsumePermit(second, ANCHORED)).result == Done
  {
    hide Exec, Happens;
    var w := OneGrant(key, principal, limits);
    var g := w.db.grants[key];
    var first, second := PermitFor(id, key, principal, 1, "first"), PermitFor(id, key, principal, 2, "second");
    var r := ActsOnce(w, key, g, first);
    var r1 := HaltedBack(r, key, g, first);
    ActsAgain(r1, key, g.(epoch := 2), second);
    var lost := [Commits(ConsumePermit(first, ANCHORED)), RestoredFrom(w.db),
                 Commits(Halt(Global, true, ANCHORED, {key}))];
    ThreeEvents(History(r, lost), Commits(Resume(Global, ANCHORED)), Commits(NextFence(key, principal, ANCHORED)),
                Commits(RecordPermit(second, 0, 0)));
  }
}
