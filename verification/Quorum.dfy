/** Settlement by quorum: independent sources vote on facts, some of them faulty. */
module Quorum {
  import opened Types
  import opened Settlement

  /** What a source did when asked: raised or returned garbage, or answered with a record. */
  datatype Reply = Raises | Replies(record: Record)

  datatype Fact = Fact(status: Status, effect: Option<EffectId>, amount: Option<int>)

  datatype Verdict = Verdict(status: Status, effect: Option<EffectId>, amount: Option<int>, authoritative: bool)

  function FactOf(record: Record): Fact {
    Fact(record.status, record.effect, record.amount)
  }

  /** The reply is an authoritative record about this very request. */
  predicate Counts(reply: Reply) {
    reply.Replies? && reply.record.authoritative && reply.record.bound
  }

  /** The reply is an authoritative record about another request. */
  predicate Mismatched(reply: Reply) {
    reply.Replies? && reply.record.authoritative && !reply.record.bound
  }

  predicate VotesFor(reply: Reply, f: Fact) {
    Counts(reply) && FactOf(reply.record) == f
  }

  function Count(replies: seq<Reply>, f: Fact): nat {
    if replies == [] then 0
    else Count(replies[..|replies| - 1], f) + if VotesFor(replies[|replies| - 1], f) then 1 else 0
  }

  function Mismatches(replies: seq<Reply>): nat {
    if replies == [] then 0
    else Mismatches(replies[..|replies| - 1]) + if Mismatched(replies[|replies| - 1]) then 1 else 0
  }

  /** The votes each fact received. */
  function Tally(replies: seq<Reply>): (counts: map<Fact, nat>)
    ensures forall f :: f in counts <==> Count(replies, f) > 0
    ensures forall f :: f in counts ==> counts[f] == Count(replies, f)
  {
    if replies == [] then map[]
    else
      var counts, last := Tally(replies[..|replies| - 1]), replies[|replies| - 1];
      if !Counts(last) then counts
      else
        var f := FactOf(last.record);
        counts[f := (if f in counts then counts[f] else 0) + 1]
  }

  function Confirming(f: Fact): Fact {
    f.(status := ConfirmedEffect)
  }

  /** The only facts are one effect as final and the same effect as merely confirmed. */
  predicate FinalityLag(facts: set<Fact>, f: Fact) {
    f.status == FinalEffect && facts == {f, Confirming(f)}
  }

  const CONTESTED := Verdict(Contradictory, None, None, true)
  const INSUFFICIENT := Verdict(Undetermined, None, None, false)

  function Carried(f: Fact, count: nat, quorum: nat): Verdict {
    if count < quorum then INSUFFICIENT else Verdict(f.status, f.effect, f.amount, true)
  }

  predicate Lagging(facts: set<Fact>) {
    exists f :: f in facts && FinalityLag(facts, f)
  }

  /** The outcome of a ballot. */
  ghost function Outcome(counts: map<Fact, nat>, mismatches: nat, quorum: nat): Verdict {
    if mismatches == 0 && Lagging(counts.Keys) then
      var f :| f in counts.Keys && FinalityLag(counts.Keys, f);
      if counts[f] >= quorum then Carried(f, counts[f], quorum)
      else Carried(Confirming(f), counts[f] + counts[Confirming(f)], quorum)
    else if mismatches > 0 || |counts| > 1 then CONTESTED
    else if counts == map[] then INSUFFICIENT
    else
      var f :| f in counts.Keys;
      Carried(f, counts[f], quorum)
  }

  ghost function Ballot(replies: seq<Reply>, quorum: nat): Verdict {
    Outcome(Tally(replies), Mismatches(replies), quorum)
  }

  /** Asks every source and combines the answers. */
  method Verify(replies: seq<Reply>, quorum: nat) returns (verdict: Verdict)
    requires 2 <= quorum <= |replies|
    ensures verdict == Ballot(replies, quorum)
    ensures Torn(replies) ==> verdict == Verdict(Contradictory, None, None, true)
    ensures !Torn(replies) ==> forall f: Fact :: verdict == Verdict(f.status, f.effect, f.amount, true) <==>
      Backed(replies, quorum, f)
    ensures !Torn(replies) ==> verdict.authoritative || verdict == Verdict(Undetermined, None, None, false)
  {
    VerdictMeans(replies, quorum);
    var counts: map<Fact, nat> := map[];
    var mismatches := 0;
    for n := 0 to |replies|
      invariant counts == Tally(replies[..n])
      invariant mismatches == Mismatches(replies[..n])
    {
      assert replies[..n + 1][..n] == replies[..n];
      if Counts(replies[n]) {
        var fact := FactOf(replies[n].record);
        counts := counts[fact := (if fact in counts then counts[fact] else 0) + 1];
      } else if Mismatched(replies[n]) {
        mismatches := mismatches + 1;
      }
    }
    assert replies[..|replies|] == replies;
    verdict := Combine(counts, mismatches, quorum);
  }

  /** Finality lag first, then contest, then the threshold. */
  method Combine(counts: map<Fact, nat>, mismatches: nat, quorum: nat) returns (verdict: Verdict)
    ensures verdict == Outcome(counts, mismatches, quorum)
  {
    if mismatches == 0 && |counts| == 2 {
      var one :| one in counts.Keys;
      TwoKeys(counts.Keys, one);
      var other :| other in counts.Keys - {one};
      if one.status != FinalEffect {
        one, other := other, one;
      }
      if one.status == FinalEffect && other == Confirming(one) {
        assert FinalityLag(counts.Keys, one);
        LagIsUnique(counts.Keys, one);
        return if counts[one] >= quorum then Carried(one, counts[one], quorum)
          else Carried(other, counts[one] + counts[other], quorum);
      }
    }
    LagHasTwo(counts);
    if mismatches > 0 || |counts| > 1 {
      verdict := CONTESTED;
    } else if counts == map[] {
      verdict := INSUFFICIENT;
    } else {
      var fact :| fact in counts.Keys;
      OneKey(counts.Keys, fact);
      verdict := Carried(fact, counts[fact], quorum);
    }
  }

  lemma TwoKeys(keys: set<Fact>, one: Fact)
    requires |keys| == 2 && one in keys
    ensures exists other :: other in keys - {one}
    ensures forall other :: other in keys - {one} ==> keys == {one, other}
  {
    assert |keys - {one}| == 1;
    forall other | other in keys - {one} ensures keys == {one, other} {
      assert |keys - {one} - {other}| == 0;
    }
    assert keys - {one} != {};
  }

  lemma OneKey(keys: set<Fact>, one: Fact)
    requires |keys| <= 1 && one in keys
    ensures keys == {one}
  {
    assert |keys - {one}| == 0;
  }

  lemma LagIsUnique(keys: set<Fact>, f: Fact)
    requires FinalityLag(keys, f)
    ensures forall g :: g in keys && FinalityLag(keys, g) ==> g == f
  {
    assert Confirming(f) in keys;
  }

  lemma LagHasTwo(counts: map<Fact, nat>)
    ensures Lagging(counts.Keys) ==> |counts| == 2
  {
    if f :| f in counts.Keys && FinalityLag(counts.Keys, f) {
      assert f != Confirming(f);
      assert |counts| == |counts.Keys|;
    }
  }

  // ---- what the verdict is, in terms of the replies ----

  /** The sources that reported exactly this fact, with authority and about this request. */
  ghost function Voters(replies: seq<Reply>, f: Fact): set<nat> {
    set k: nat | k < |replies| && replies[k].Replies? && replies[k].record.authoritative && replies[k].record.bound
      && Fact(replies[k].record.status, replies[k].record.effect, replies[k].record.amount) == f
  }

  lemma {:induction false} VotersCount(replies: seq<Reply>, f: Fact)
    ensures |Voters(replies, f)| == Count(replies, f)
    decreases |replies|
  {
    if replies == [] {
      assert Voters(replies, f) == {};
    } else {
      var n := |replies| - 1;
      VotersCount(replies[..n], f);
      assert Voters(replies, f) == Voters(replies[..n], f) + if VotesFor(replies[n], f) then {n} else {};
    }
  }

  lemma {:induction false} StraysCount(replies: seq<Reply>)
    ensures Mismatches(replies) > 0 <==>
      exists k: nat :: k < |replies| && replies[k].Replies? && replies[k].record.authoritative
        && !replies[k].record.bound
    decreases |replies|
  {
    if replies != [] {
      StraysCount(replies[..|replies| - 1]);
    }
  }

  /** Two facts that can both be true of one request: the same, or one effect seen as final and as merely
      confirmed. */
  predicate Compatible(f: Fact, g: Fact) {
    && f.effect == g.effect && f.amount == g.amount
    && (f.status == g.status || (f.status == FinalEffect && g.status == ConfirmedEffect)
        || (f.status == ConfirmedEffect && g.status == FinalEffect))
  }

  /** Some authoritative record is about another request, or two about this one cannot both be true. */
  ghost predicate Torn(replies: seq<Reply>) {
    || (exists k: nat :: k < |replies| && replies[k].Replies? && replies[k].record.authoritative
          && !replies[k].record.bound)
    || exists f, g :: Voters(replies, f) != {} && Voters(replies, g) != {} && !Compatible(f, g)
  }

  /** Quorum many sources stand behind the fact: a final vote also backs the confirmation of its effect,
      unless the final votes are a quorum by themselves. */
  ghost predicate Backed(replies: seq<Reply>, quorum: nat, f: Fact) {
    if f.status != ConfirmedEffect then |Voters(replies, f)| >= quorum
    else
      var final := |Voters(replies, Fact(FinalEffect, f.effect, f.amount))|;
      final < quorum <= |Voters(replies, f)| + final
  }

  /** A torn ballot is a contradiction; otherwise the verdict is the fact that is backed, and without one it
      is no answer. */
  lemma VerdictMeans(replies: seq<Reply>, quorum: nat)
    requires quorum > 0
    ensures var v := Ballot(replies, quorum);
      if Torn(replies) then v == Verdict(Contradictory, None, None, true)
      else
        && (forall f: Fact :: v == Verdict(f.status, f.effect, f.amount, true) <==> Backed(replies, quorum, f))
        && (v.authoritative || v == Verdict(Undetermined, None, None, false))
  {
    var counts := Tally(replies);
    StraysCount(replies);
    forall f ensures |Voters(replies, f)| == (if f in counts then counts[f] else 0)
      ensures f in counts <==> Voters(replies, f) != {}
    {
      VotersCount(replies, f);
    }
    if Mismatches(replies) == 0 {
      if f, g :| f in counts && g in counts && !Compatible(f, g) {
        Incompatible(counts, f, g);
      } else {
        CompatibleVotes(replies, counts, quorum);
      }
    }
  }

  lemma Incompatible(counts: map<Fact, nat>, f: Fact, g: Fact)
    requires f in counts && g in counts && !Compatible(f, g)
    ensures !Lagging(counts.Keys) && |counts| > 1
  {
    if |counts.Keys| <= 1 {
      OneKey(counts.Keys, f);
    }
    assert |counts| == |counts.Keys|;
  }

  lemma CompatibleVotes(replies: seq<Reply>, counts: map<Fact, nat>, quorum: nat)
    requires quorum > 0
    requires forall f, g :: f in counts && g in counts ==> Compatible(f, g)
    requires forall f :: |Voters(replies, f)| == if f in counts then counts[f] else 0
    ensures var v := Outcome(counts, 0, quorum);
      && (forall f: Fact :: v == Verdict(f.status, f.effect, f.amount, true) <==> Backed(replies, quorum, f))
      && (v.authoritative || v == Verdict(Undetermined, None, None, false))
  {
    if f, g :| f in counts && g in counts && f != g {
      var final := if f.status == FinalEffect then f else g;
      assert FinalityLag(counts.Keys, final) by {
        assert forall h :: h in counts ==> Compatible(h, f) && Compatible(h, g);
        assert counts.Keys == {final, Confirming(final)};
      }
      LagIsUnique(counts.Keys, final);
    } else if f :| f in counts {
      assert counts.Keys == {f};
      assert |counts| == |counts.Keys| == 1;
      LagHasTwo(counts);
    } else {
      assert counts == map[];
      LagHasTwo(counts);
    }
  }

  // ---- what a verdict is worth ----

  /** Quorum many final votes for exactly this fact, no authoritative record about another request, and
      no vote for any other effect or amount. */
  ghost predicate WinsFinal(replies: seq<Reply>, quorum: nat, f: Fact) {
    && Mismatches(replies) == 0 && Count(replies, f) >= quorum
    && forall g :: Count(replies, g) > 0 ==> g == f || g == Confirming(f)
  }

  /** A final verdict is exactly a won ballot. */
  lemma FinalIff(replies: seq<Reply>, quorum: nat, f: Fact)
    requires quorum > 0 && f.status == FinalEffect
    ensures Ballot(replies, quorum) == Verdict(FinalEffect, f.effect, f.amount, true) <==> WinsFinal(replies, quorum, f)
  {
    var counts := Tally(replies);
    if Ballot(replies, quorum) == Verdict(FinalEffect, f.effect, f.amount, true) {
      FinalIsCarried(counts, Mismatches(replies), quorum, f);
      forall g | Count(replies, g) > 0 ensures g == f || g == Confirming(f) {
        assert g in counts;
      }
      assert WinsFinal(replies, quorum, f);
    }
    if WinsFinal(replies, quorum, f) {
      forall g | g in counts ensures g == f || g == Confirming(f) {
        assert Count(replies, g) > 0;
      }
      CarriesFinal(counts, quorum, f);
    }
  }

  lemma FinalIsCarried(counts: map<Fact, nat>, mismatches: nat, quorum: nat, f: Fact)
    requires f.status == FinalEffect && Outcome(counts, mismatches, quorum)
      == Verdict(FinalEffect, f.effect, f.amount, true)
    ensures mismatches == 0 && f in counts && counts[f] >= quorum && forall g :: g in counts ==>
      g == f || g == Confirming(f)
  {
    if Lagging(counts.Keys) {
      var h :| h in counts.Keys && FinalityLag(counts.Keys, h);
      LagIsUnique(counts.Keys, h);
    } else {
      var h :| h in counts.Keys;
      OneKey(counts.Keys, h);
    }
  }

  lemma CarriesFinal(counts: map<Fact, nat>, quorum: nat, f: Fact)
    requires f.status == FinalEffect && f in counts && counts[f] >= quorum
    requires forall g :: g in counts ==> g == f || g == Confirming(f)
    ensures Outcome(counts, 0, quorum) == Verdict(FinalEffect, f.effect, f.amount, true)
  {
    if Confirming(f) in counts {
      assert FinalityLag(counts.Keys, f);
      LagIsUnique(counts.Keys, f);
    } else {
      assert counts.Keys == {f};
      assert |counts| == |counts.Keys| == 1;
      LagHasTwo(counts);
    }
  }

  lemma SomeoneOutside(voters: set<nat>, faulty: set<nat>) returns (k: nat)
    requires |faulty| < |voters|
    ensures k in voters && k !in faulty
  {
    SubsetIsSmaller(voters, faulty);
    k :| k in voters && k !in faulty;
  }

  lemma {:induction false} SubsetIsSmaller(a: set<nat>, b: set<nat>)
    ensures a <= b ==> |a| <= |b|
    decreases |a|
  {
    if a <= b && a != {} {
      var x :| x in a;
      SubsetIsSmaller(a - {x}, b - {x});
    }
  }

  /** An authoritative record for the verdict's effect and amount, at least as final as the verdict. */
  predicate Attests(reply: Reply, verdict: Verdict) {
    && reply.Replies? && reply.record.authoritative && reply.record.bound
    && reply.record.effect == verdict.effect && reply.record.amount == verdict.amount
    && (reply.record.status == verdict.status
        || (verdict.status == ConfirmedEffect && reply.record.status == FinalEffect))
  }

  /** Which votes carry an authoritative verdict. */
  lemma CarriedByVotes(counts: map<Fact, nat>, mismatches: nat, quorum: nat)
    requires var v := Outcome(counts, mismatches, quorum); v.authoritative && v.status != Contradictory
    ensures var v := Outcome(counts, mismatches, quorum);
      var f := Fact(v.status, v.effect, v.amount);
      var final := f.(status := FinalEffect);
      && f in counts
      && (counts[f] >= quorum || (v.status == ConfirmedEffect && final in counts
                                  && counts[f] + counts[final] >= quorum))
  {
  }

  /** With fewer than quorum faulty sources, every authoritative verdict other than a contradiction is
      attested by an honest source. */
  lemma AttestedByHonestSource(replies: seq<Reply>, quorum: nat, faulty: set<nat>) returns (k: nat)
    requires |faulty| < quorum
    requires Ballot(replies, quorum).authoritative && Ballot(replies, quorum).status != Contradictory
    ensures k < |replies| && k !in faulty && Attests(replies[k], Ballot(replies, quorum))
  {
    var v := Ballot(replies, quorum);
    var f := Fact(v.status, v.effect, v.amount);
    var final := f.(status := FinalEffect);
    CarriedByVotes(Tally(replies), Mismatches(replies), quorum);
    VotersCount(replies, f);
    VotersCount(replies, final);
    if Count(replies, f) >= quorum {
      k := SomeoneOutside(Voters(replies, f), faulty);
    } else {
      assert Voters(replies, f) !! Voters(replies, final);
      k := SomeoneOutside(Voters(replies, f) + Voters(replies, final), faulty);
    }
  }

  // ---- what does not matter ----

  lemma {:induction false} CountAround(a: seq<Reply>, x: Reply, b: seq<Reply>, f: Fact)
    ensures Count(a + [x] + b, f) == Count(a + b, f) + if VotesFor(x, f) then 1 else 0
    ensures Mismatches(a + [x] + b) == Mismatches(a + b) + if Mismatched(x) then 1 else 0
    decreases |b|
  {
    if b == [] {
      assert (a + [x] + b)[..|a|] == a && a + b == a;
    } else {
      var n := |b| - 1;
      CountAround(a, x, b[..n], f);
      assert (a + [x] + b)[..|a| + 1 + n] == a + [x] + b[..n];
      assert (a + b)[..|a| + n] == a + b[..n];
    }
  }

  lemma SameCounts(a: seq<Reply>, b: seq<Reply>, quorum: nat)
    requires forall f :: Count(a, f) == Count(b, f)
    requires Mismatches(a) == Mismatches(b)
    ensures Ballot(a, quorum) == Ballot(b, quorum)
  {
    assert Tally(a) == Tally(b);
  }

  /** Raising, and answering without authority, neither adds nor takes a vote. */
  lemma WeightlessSource(a: seq<Reply>, x: Reply, b: seq<Reply>, quorum: nat)
    requires x.Raises? || !x.record.authoritative
    ensures Ballot(a + [x] + b, quorum) == Ballot(a + b, quorum)
  {
    forall f ensures Count(a + [x] + b, f) == Count(a + b, f) {
      CountAround(a, x, b, f);
    }
    CountAround(a, x, b, Fact(NoEffect, None, None));
    SameCounts(a + [x] + b, a + b, quorum);
  }

  lemma {:induction false} OrderIrrelevant(a: seq<Reply>, b: seq<Reply>, f: Fact)
    requires multiset(a) == multiset(b)
    ensures Count(a, f) == Count(b, f) && Mismatches(a) == Mismatches(b)
    decreases |a|
  {
    if a == [] {
      assert |multiset(b)| == 0;
    } else {
      var n := |a| - 1;
      var k := Occurrence(a, b);
      var rest := b[..k] + b[k + 1..];
      RemovedEverywhere(a, b, k);
      OrderIrrelevant(a[..n], rest, f);
      CountAround(b[..k], a[n], b[k + 1..], f);
      assert b == b[..k] + [a[n]] + b[k + 1..];
    }
  }

  lemma Occurrence(a: seq<Reply>, b: seq<Reply>) returns (k: nat)
    requires a != [] && multiset(a) == multiset(b)
    ensures k < |b| && b[k] == a[|a| - 1]
  {
    assert a[|a| - 1] in multiset(b);
    k :| k < |b| && b[k] == a[|a| - 1];
  }

  lemma RemovedEverywhere(a: seq<Reply>, b: seq<Reply>, k: nat)
    requires a != [] && k < |b| && b[k] == a[|a| - 1] && multiset(a) == multiset(b)
    ensures multiset(a[..|a| - 1]) == multiset(b[..k] + b[k + 1..])
  {
    var x := b[k];
    assert a == a[..|a| - 1] + [x];
    assert b == b[..k] + [x] + b[k + 1..];
    assert multiset(a[..|a| - 1]) == multiset(a) - multiset{x};
    assert multiset(b[..k] + b[k + 1..]) == multiset(b) - multiset{x};
  }

  /** The verdict does not depend on the order in which the sources are asked. */
  lemma VerdictIgnoresOrder(a: seq<Reply>, b: seq<Reply>, quorum: nat)
    requires multiset(a) == multiset(b)
    ensures Ballot(a, quorum) == Ballot(b, quorum)
  {
    forall f ensures Count(a, f) == Count(b, f) && Mismatches(a) == Mismatches(b) {
      OrderIrrelevant(a, b, f);
    }
    OrderIrrelevant(a, b, Fact(NoEffect, None, None));
    SameCounts(a, b, quorum);
  }
}
