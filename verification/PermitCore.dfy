/** What the abstract permit protocol sees of one intent, and the abstract actions each kind of
    concrete change amounts to. */
module PermitCore {
  import opened Types
  import opened StoreOps
  import opened LocalView
  import opened Protocol
  import opened LocalInv
  import P = PermitModel

  /** An intent with its fences, the permits handed to an adapter, whether an allocated fence is still
      waiting for its permit, and the authority of its grant. */
  datatype Core = Core(
    l: Local,
    log: seq<Allocation>,
    sent: set<nat>,
    pending: bool,
    epoch: nat,
    active: bool,
    halted: bool)

  predicate LogInv(permits: seq<PermitRow>, log: seq<Allocation>) {
    && (forall k :: 0 <= k < |log| && log[k].permit.Some? ==>
          log[k].permit.value < |permits| && permits[log[k].permit.value].epoch == log[k].epoch)
    && (forall j, k :: 0 <= j < k < |log| && log[j].permit.Some? ==> log[k].permit != log[j].permit)
  }

  /** Every recorded permit has its fence. */
  predicate Covers(log: seq<Allocation>, n: nat) {
    exists k :: 0 <= k < |log| && log[k].permit == Some(n)
  }

  /** Permits are issued under the intent's own grant version, to its principal. */
  predicate BoundToGrant(p: PermitRow, intent: Intent) {
    p.grant == intent.grant && p.principal == intent.principal
  }

  ghost predicate CoreInv(c: Core) {
    && c.l.row.Some?
    && (forall n :: 0 <= n < |c.l.permits| ==> BoundToGrant(c.l.permits[n], c.l.row.value.intent))
    && LedgerShape(c.l.permits)
    && LogInv(c.l.permits, c.log)
    && (forall n: nat :: n < |c.l.permits| ==> Covers(c.log, n))
    && (forall n :: n in c.sent ==> n < |c.l.permits|)
    && (forall n :: 0 <= n < |c.l.permits| && c.l.permits[n].consumed ==> n in c.sent)
    && (c.pending ==> c.log != [] && Last(c.log).permit == None && Retired(c.l.permits) && c.l.row.value.effect == None)
    && (c.l.row.value.effect.Some? ==> HasConsumed(c.l.permits))
    && (c.l.row.value.state == Finalized ==> c.l.row.value.effect.Some?)
  }

  function AbsPermit(c: Core, k: nat): P.Permit
    requires k < |c.log| && LogInv(c.l.permits, c.log)
  {
    match c.log[k].permit
    case None => P.Permit(c.log[k].epoch, false, false, false, !(c.pending && k == |c.log| - 1))
    case Some(n) => P.Permit(c.log[k].epoch, n in c.sent, c.l.permits[n].consumed, false, c.l.permits[n].voided)
  }

  function AbsPermits(c: Core): (r: seq<P.Permit>)
    requires LogInv(c.l.permits, c.log)
    ensures |r| == |c.log|
    ensures forall k :: 0 <= k < |c.log| ==> r[k] == AbsPermit(c, k)
  {
    seq(|c.log|, k requires 0 <= k < |c.log| => AbsPermit(c, k))
  }

  /** The abstract state: a recorded effect id is what the verifier reported, a consumption is the
      effect itself, a fence whose permit was never recorded counts as voided. */
  function Abs(c: Core): P.S
    requires c.l.row.Some? && LogInv(c.l.permits, c.log)
  {
    P.S(c.epoch, c.active, c.halted, AbsPermits(c),
        if HasConsumed(c.l.permits) then 1 else 0,
        if c.l.row.value.effect.Some? then P.Final else P.Nothing,
        c.l.row.value.state == Finalized)
  }

  const RULES := P.Rules(true, true)

  /** The abstract protocol can take these actions, and they lead to the new state. */
  ghost predicate Simulates(c: Core, actions: seq<P.Action>, c': Core)
    requires CoreInv(c) && CoreInv(c')
  {
    P.Reaches(Abs(c), actions, Abs(c'), RULES)
  }

  lemma OneAction(c: Core, a: P.Action, c': Core)
    requires CoreInv(c) && CoreInv(c')
    requires P.Can(Abs(c), a, RULES) && P.Can(Abs(c), a, P.Rules(false, false)) && P.Do(Abs(c), a) == Abs(c')
    ensures Simulates(c, [a], c')
  {
    P.Single(Abs(c), a, Abs(c'), RULES);
  }

  /** Allocating a fence issues the abstract permit. */
  lemma CoreIssue(c: Core, c': Core)
    requires CoreInv(c) && !c.pending && c.active && !c.halted
    requires Retired(c.l.permits) && c.l.row.value.effect == None
    requires c' == c.(log := c.log + [Allocation(c.epoch, None)], pending := true)
    ensures CoreInv(c') && Simulates(c, [P.Issue], c')
  {
    assert forall n: nat :: n < |c.l.permits| ==> Covers(c'.log, n) by {
      forall n: nat | n < |c.l.permits| ensures Covers(c'.log, n) {
        assert Covers(c.log, n);
        var k :| 0 <= k < |c.log| && c.log[k].permit == Some(n);
        assert c'.log[k].permit == Some(n);
      }
    }
    assert forall k :: 0 <= k < |c.log| ==> AbsPermit(c', k) == AbsPermit(c, k);
    assert P.Do(Abs(c), P.Issue).permits == AbsPermits(c');
    OneAction(c, P.Issue, c');
  }

  /** Recording the permit changes nothing for the abstract protocol. */
  lemma CoreRecord(c: Core, c': Core, p: PermitRow)
    requires CoreInv(c) && c.pending && p.epoch == Last(c.log).epoch && Live(p)
    requires c'.l.row.Some? && c'.l.row.value.effect == None && c'.l.row.value.state != Finalized
    requires c'.l.row.value.intent == c.l.row.value.intent && BoundToGrant(p, c.l.row.value.intent)
    requires c'.l.permits == c.l.permits + [p]
    requires c' == c.(l := c'.l, log := c.log[|c.log| - 1 := Last(c.log).(permit := Some(|c.l.permits|))],
                      pending := false)
    ensures CoreInv(c') && Abs(c') == Abs(c)
  {
    var m := |c.log| - 1;
    forall n: nat | n < |c'.l.permits| ensures Covers(c'.log, n) {
      if n < |c.l.permits| {
        assert Covers(c.log, n);
        var k :| 0 <= k < |c.log| && c.log[k].permit == Some(n);
        assert c'.log[k].permit == Some(n);
      } else {
        assert c'.log[m].permit == Some(n);
      }
    }
    assert forall k :: 0 <= k < |c.log| ==> AbsPermit(c', k) == AbsPermit(c, k);
    assert AbsPermits(c') == AbsPermits(c);
  }

  /** An allocated fence that no permit will use is voided. */
  lemma CoreDrop(c: Core, c': Core)
    requires CoreInv(c) && c.pending && c' == c.(pending := false)
    ensures CoreInv(c') && Simulates(c, [P.VoidAll], c')
  {
    var s := Abs(c);
    assert P.Live(s.permits[|c.log| - 1]);
    forall k | 0 <= k < |c.log| ensures P.Voided(s.permits[k]) == AbsPermit(c', k) {
      if c.log[k].permit.Some? {
        assert !Live(c.l.permits[c.log[k].permit.value]);
      }
    }
    assert P.Do(s, P.VoidAll).permits == AbsPermits(c');
    OneAction(c, P.VoidAll, c');
  }

  /** Handing the permit to the adapter. */
  lemma CoreSend(c: Core, c': Core, n: nat)
    requires CoreInv(c) && n + 1 == |c.l.permits| && HasLive(c.l.permits) && n !in c.sent
    requires c' == c.(sent := c.sent + {n})
    ensures CoreInv(c') && exists k: nat :: Simulates(c, [P.Submit(k)], c')
  {
    assert Covers(c.log, n);
    var k :| 0 <= k < |c.log| && c.log[k].permit == Some(n);
    assert forall j :: 0 <= j < |c.log| && j != k ==> AbsPermit(c', j) == AbsPermit(c, j);
    assert P.Do(Abs(c), P.Submit(k)).permits == AbsPermits(c');
    OneAction(c, P.Submit(k), c');
  }

  lemma CoreConsume(c: Core, c': Core)
    requires CoreInv(c) && ConsumedStep(c.l, c'.l) && c' == c.(l := c'.l)
    requires c.active && !c.halted && Last(c.l.permits).epoch == c.epoch && |c.l.permits| - 1 in c.sent
    ensures CoreInv(c') && exists k: nat :: Simulates(c, [P.Consume(k)], c')
  {
    var n := |c.l.permits| - 1;
    assert Covers(c.log, n);
    var k :| 0 <= k < |c.log| && c.log[k].permit == Some(n);
    assert forall j :: 0 <= j < |c.log| && j != k ==> AbsPermit(c', j) == AbsPermit(c, j);
    assert P.Do(Abs(c), P.Consume(k)).permits == AbsPermits(c');
    OneAction(c, P.Consume(k), c');
  }

  lemma VoidKeepsCore(c: Core, c': Core, i: IntentId)
    requires CoreInv(c) && !c.pending && forall n :: 0 <= n < |c.l.permits| ==> c.l.permits[n].intent == i
    requires c' == c.(l := c.l.(permits := VoidedLedger(c.l.permits, i)))
    ensures CoreInv(c')
    ensures forall k :: 0 <= k < |c.log| ==> AbsPermit(c', k) == P.Voided(AbsPermit(c, k))
  {
  }

  /** Voiding the unconsumed permits of the intent. */
  lemma CoreVoid(c: Core, c': Core, i: IntentId)
    requires CoreInv(c) && !c.pending && forall n :: 0 <= n < |c.l.permits| ==> c.l.permits[n].intent == i
    requires c' == c.(l := c.l.(permits := VoidedLedger(c.l.permits, i)))
    ensures CoreInv(c')
    ensures Simulates(c, if HasLive(c.l.permits) then [P.VoidAll] else [], c')
  {
    VoidKeepsCore(c, c', i);
    if HasLive(c.l.permits) {
      assert Covers(c.log, |c.l.permits| - 1);
      var k :| 0 <= k < |c.log| && c.log[k].permit == Some(|c.l.permits| - 1);
      assert P.Live(Abs(c).permits[k]);
      assert P.Do(Abs(c), P.VoidAll).permits == AbsPermits(c');
      OneAction(c, P.VoidAll, c');
    } else {
      assert forall k :: 0 <= k < |c.log| ==> !P.Live(AbsPermit(c, k));
      assert AbsPermits(c') == AbsPermits(c);
    }
  }

  /** A transition of the row: the verifier's report and the finalization are what the abstract
      protocol sees of it. */
  function RowActions(row: IntentRow, row': IntentRow): seq<P.Action> {
    (if row.effect.None? && row'.effect.Some? then [P.VerifyFinal] else [])
    + (if row.state != Finalized && row'.state == Finalized then [P.Finalize] else [])
  }

  lemma CoreRow(c: Core, c': Core)
    requires CoreInv(c) && !c.pending && c'.l.row.Some? && c' == c.(l := c'.l) && c'.l.permits == c.l.permits
    requires var row, row' := c.l.row.value, c'.l.row.value;
      && row'.intent == row.intent
      && (row.effect.Some? ==> row'.effect == row.effect)
      && (row'.effect.Some? ==> HasConsumed(c.l.permits))
      && (row.state == Finalized ==> row'.state == Finalized)
      && (row'.state == Finalized ==> row'.effect.Some?)
    ensures CoreInv(c') && Simulates(c, RowActions(c.l.row.value, c'.l.row.value), c')
  {
    var row, row' := c.l.row.value, c'.l.row.value;
    assert AbsPermits(c') == AbsPermits(c);
    var actions := RowActions(row, row');
    if |actions| == 2 {
      var reported := P.Do(Abs(c), P.VerifyFinal);
      P.Prepend(reported, P.Finalize, Abs(c'), [], Abs(c'), RULES);
      P.Prepend(Abs(c), P.VerifyFinal, reported, [P.Finalize], Abs(c'), RULES);
    } else if |actions| == 1 {
      assert actions == [actions[0]];
      OneAction(c, actions[0], c');
    } else {
      assert actions == [];
      assert Abs(c') == Abs(c);
    }
  }

  /** Whatever the operator does to the grant and the halts. */
  lemma CoreAuthority(c: Core, c': Core, actions: seq<P.Action>)
    requires CoreInv(c) && c' == c.(epoch := c'.epoch, active := c'.active, halted := c'.halted)
    requires P.Reaches(Abs(c), actions,
                       Abs(c).(grantEpoch := c'.epoch, grantActive := c'.active, halted := c'.halted), RULES)
    ensures CoreInv(c') && Simulates(c, actions, c')
  {
    assert AbsPermits(c') == AbsPermits(c);
  }
}
