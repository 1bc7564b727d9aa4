/** The per-intent evidence chain with its signed head. The hash is a constructor, hence injective;
    a stored value that is no hash of anything is `Garbage`. */
module Evidence {
  import opened Types

  type Key = string

  datatype Envelope = Envelope(intent: IntentId, event: string, payload: string, createdAt: string,
                               previous: Option<Hash>)

  datatype Hash = Sha(envelope: Envelope) | Garbage(text: string)

  datatype Mac = EventMac(key: Key, event: Hash) | HeadMac(key: Key, intent: IntentId, sequence: int, head: Hash)
    | NoMac(text: string)

  datatype Row = Row(event: string, payload: string, createdAt: string, previous: Option<Hash>, hash: Hash,
                     mac: Option<Mac>)

  datatype Head = Head(sequence: int, hash: Hash, mac: Option<Mac>)

  datatype Status = Intact | UnknownIntent | ChainInvalid | ChainEmpty | HeadDeleted | HeadMissing | HeadMismatch

  datatype Refusal = IntegrityError | TooLarge | NoKey | Accepted | AlreadyThere

  // ---- what a valid chain is ----

  function LastHash(rows: seq<Row>): Option<Hash> {
    if rows == [] then None else Some(rows[|rows| - 1].hash)
  }

  predicate RowOk(intent: IntentId, key: Option<Key>, row: Row, previous: Option<Hash>) {
    && row.previous == previous
    && row.hash == Sha(Envelope(intent, row.event, row.payload, row.createdAt, row.previous))
    && (key.Some? ==> row.mac == Some(EventMac(key.value, row.hash)))
  }

  predicate ChainOk(intent: IntentId, key: Option<Key>, rows: seq<Row>) {
    if rows == [] then true
    else
      var n := |rows| - 1;
      ChainOk(intent, key, rows[..n]) && RowOk(intent, key, rows[n], LastHash(rows[..n]))
  }

  /** The head commits to these rows under the evidence key. */
  predicate HeadCommits(intent: IntentId, key: Key, rows: seq<Row>, head: Head) {
    && rows != []
    && head.sequence == |rows| - 1
    && LastHash(rows) == Some(head.hash)
    && head.mac == Some(HeadMac(key, intent, |rows| - 1, head.hash))
  }

  function StatusOf(intent: IntentId, key: Option<Key>, rows: seq<Row>, head: Option<Head>,
                    bornWithHead: bool): Status {
    if !ChainOk(intent, key, rows) then ChainInvalid
    else if key.None? then Intact
    else if head.None? then
      if rows == [] then ChainEmpty else if bornWithHead then HeadDeleted else HeadMissing
    else if HeadCommits(intent, key.value, rows, head.value) then Intact
    else HeadMismatch
  }

  /** The log one event longer. */
  function Extended(intent: IntentId, key: Option<Key>, rows: seq<Row>, event: string, payload: string,
                    createdAt: string): seq<Row> {
    var hash := Sha(Envelope(intent, event, payload, createdAt, LastHash(rows)));
    rows + [Row(event, payload, createdAt, LastHash(rows), hash, if key.Some? then Some(EventMac(key.value, hash))
                else None)]
  }

  /** The head an append commits over it. */
  function Recommitted(intent: IntentId, key: Option<Key>, rows: seq<Row>, extended: seq<Row>): Option<Head>
    requires |extended| == |rows| + 1
  {
    var hash := extended[|rows|].hash;
    Some(Head(|rows|, hash, if key.Some? then Some(HeadMac(key.value, intent, |rows|, hash)) else None))
  }

  /** The append is not refused: only a keyed log commits to its tail. */
  predicate WouldAppend(intent: IntentId, key: Option<Key>, rows: seq<Row>, head: Option<Head>) {
    key.Some? ==> if rows == [] then head.None? else head.Some? && HeadCommits(intent, key.value, rows, head.value)
  }

  // ---- the same, row by row ----

  /** The row carries the hash of the row before it, its own hash and, under a key, the MAC of that hash. */
  predicate LinkedAt(intent: IntentId, key: Option<Key>, rows: seq<Row>, k: nat)
    requires k < |rows|
  {
    && rows[k].previous == (if k == 0 then None else Some(rows[k - 1].hash))
    && rows[k].hash == Sha(Envelope(intent, rows[k].event, rows[k].payload, rows[k].createdAt, rows[k].previous))
    && (key.Some? ==> rows[k].mac == Some(EventMac(key.value, rows[k].hash)))
  }

  predicate Linked(intent: IntentId, key: Option<Key>, rows: seq<Row>) {
    forall k: nat :: k < |rows| ==> LinkedAt(intent, key, rows, k)
  }

  /** The head row names the last row, by position and hash, under the key. */
  predicate Sealed(intent: IntentId, key: Key, rows: seq<Row>, head: Option<Head>) {
    && rows != [] && head.Some?
    && head.value.sequence == |rows| - 1
    && head.value.hash == rows[|rows| - 1].hash
    && head.value.mac == Some(HeadMac(key, intent, |rows| - 1, rows[|rows| - 1].hash))
  }

  /** What an append leaves behind: a head over the last row, signed when there is a key, and a last row that
      links to the one before. */
  predicate Sealing(intent: IntentId, key: Option<Key>, rows: seq<Row>, head: Option<Head>) {
    && rows != [] && head.Some?
    && head.value.sequence == |rows| - 1
    && head.value.hash == rows[|rows| - 1].hash
    && head.value.mac == (if key.Some? then Some(HeadMac(key.value, intent, |rows| - 1, rows[|rows| - 1].hash))
                          else None)
    && var last := rows[|rows| - 1];
    && last.previous == (if |rows| == 1 then None else Some(rows[|rows| - 2].hash))
    && last.hash == Sha(Envelope(intent, last.event, last.payload, last.createdAt, last.previous))
    && last.mac == (if key.Some? then Some(EventMac(key.value, last.hash)) else None)
  }

  predicate Grown(before: seq<Row>, after: seq<Row>) {
    |after| == |before| + 1 && after[..|before|] == before
  }

  lemma {:induction false} ChainIsLinked(intent: IntentId, key: Option<Key>, rows: seq<Row>)
    ensures ChainOk(intent, key, rows) <==> Linked(intent, key, rows)
    decreases |rows|
  {
    if rows != [] {
      var n := |rows| - 1;
      ChainIsLinked(intent, key, rows[..n]);
      forall k: nat | k < n ensures LinkedAt(intent, key, rows[..n], k) <==> LinkedAt(intent, key, rows, k) {
      }
      assert LinkedAt(intent, key, rows, n) <==> RowOk(intent, key, rows[n], LastHash(rows[..n]));
    }
  }

  // ---- the store's methods ----

  class EvidenceLog {
    const intent: IntentId
    const key: Option<Key>
    const headsSince: nat
    var rows: seq<Row>
    var head: Option<Head>
    var firstId: nat

    constructor (intent: IntentId, key: Option<Key>, headsSince: nat)
      ensures this.intent == intent && this.key == key && this.headsSince == headsSince
      ensures rows == [] && head == None
    {
      this.intent, this.key, this.headsSince := intent, key, headsSince;
      rows, head, firstId := [], None, 0;
    }

    predicate BornWithHead()
      reads this
    {
      rows != [] && firstId >= headsSince
    }

    /** Walks the chain and stops at the first row that does not verify. */
    method VerifyRows() returns (ok: bool, count: nat, last: Option<Hash>)
      ensures ok <==> ChainOk(intent, key, rows)
      ensures count <= |rows| && ChainOk(intent, key, rows[..count]) && last == LastHash(rows[..count])
      ensures if ok then count == |rows| else count < |rows| && !ChainOk(intent, key, rows[..count + 1])
    {
      count, last := 0, None;
      while count < |rows|
        invariant 0 <= count <= |rows|
        invariant ChainOk(intent, key, rows[..count]) && last == LastHash(rows[..count])
      {
        assert rows[..count + 1][..count] == rows[..count];
        var row := rows[count];
        if row.previous != last
           || row.hash != Sha(Envelope(intent, row.event, row.payload, row.createdAt, row.previous))
           || (key.Some? && row.mac != Some(EventMac(key.value, row.hash)))
        {
          BrokenPrefix(intent, key, rows, count + 1);
          return false, count, last;
        }
        last := Some(row.hash);
        count := count + 1;
      }
      assert rows[..count] == rows;
      ok := true;
    }

    /** `known` says whether the intent is registered: an unknown one is not vacuously intact. */
    method EvidenceStatus(known: bool) returns (status: Status, count: nat)
      ensures !known ==> status == UnknownIntent && count == 0
      ensures known ==> status == StatusOf(intent, key, rows, head, BornWithHead())
      ensures known && status != ChainInvalid ==> count == |rows|
      ensures known ==>
        && status != UnknownIntent
        && (status == ChainInvalid <==> !Linked(intent, key, rows))
        && (status == ChainInvalid ==>
            count < |rows| && Linked(intent, key, rows[..count]) && !Linked(intent, key, rows[..count + 1]))
        && (status == Intact <==> Linked(intent, key, rows) && (key.None? || Sealed(intent, key.value, rows, head)))
        && (status == ChainEmpty <==> key.Some? && rows == [] && head.None?)
        && (status == HeadDeleted <==>
            key.Some? && Linked(intent, key, rows) && rows != [] && head.None? && firstId >= headsSince)
        && (status == HeadMissing <==>
            key.Some? && Linked(intent, key, rows) && rows != [] && head.None? && firstId < headsSince)
        && (status == HeadMismatch <==>
            key.Some? && Linked(intent, key, rows) && head.Some? && !Sealed(intent, key.value, rows, head))
    {
      ChainIsLinked(intent, key, rows);
      if !known {
        return UnknownIntent, 0;
      }
      var ok, last;
      ok, count, last := VerifyRows();
      assert rows[..|rows|] == rows;
      if !ok {
        ChainIsLinked(intent, key, rows[..count]);
        ChainIsLinked(intent, key, rows[..count + 1]);
        return ChainInvalid, count;
      }
      if key.Some? {
        if head.None? {
          return if count == 0 then ChainEmpty else if BornWithHead() then HeadDeleted else HeadMissing, count;
        }
        var h := head.value;
        if count == 0 || h.sequence != count - 1 || Some(h.hash) != last
          || h.mac != Some(HeadMac(key.value, intent, count - 1, h.hash)) {
          return HeadMismatch, count;
        }
      }
      status := Intact;
    }

    /** Adds one event and moves the head to it. */
    method Append(event: string, payload: string, createdAt: string, fits: bool, id: nat) returns (result: Refusal)
      modifies this
      ensures result == if !WouldAppend(intent, key, old(rows), old(head)) then IntegrityError
        else if !fits then TooLarge else Accepted
      ensures result == IntegrityError <==>
        key.Some? && (if old(rows) == [] then old(head).Some? else !Sealed(intent, key.value, old(rows), old(head)))
      ensures result != Accepted ==> rows == old(rows) && head == old(head) && firstId == old(firstId)
      ensures result == Accepted ==>
        && fits && Grown(old(rows), rows) && Sealing(intent, key, rows, head)
        && rows[|old(rows)|].event == event && rows[|old(rows)|].payload == payload
        && rows[|old(rows)|].createdAt == createdAt
      ensures result == Accepted ==>
        && rows == Extended(intent, key, old(rows), event, payload, createdAt)
        && head == Recommitted(intent, key, old(rows), rows)
        && firstId == if old(rows) == [] then id else old(firstId)
    {
      var count := |rows|;
      var previous := if count == 0 then None else Some(rows[count - 1].hash);
      if key.Some? {
        if count == 0 {
          if head.Some? {
            return IntegrityError;
          }
        } else if head.None? || head.value.sequence != count - 1 || Some(head.value.hash) != previous
                  || head.value.mac != Some(HeadMac(key.value, intent, count - 1, head.value.hash)) {
          return IntegrityError;
        }
      }
      if !fits {
        return TooLarge;
      }
      var hash := Sha(Envelope(intent, event, payload, createdAt, previous));
      var mac := if key.Some? then Some(EventMac(key.value, hash)) else None;
      if count == 0 {
        firstId := id;
      }
      rows := rows + [Row(event, payload, createdAt, previous, hash, mac)];
      head := Some(Head(count, hash, if key.Some? then Some(HeadMac(key.value, intent, count, hash)) else None));
      result := Accepted;
    }

    /** Operator migration: commits a head over a verified chain that predates heads, or starts the chain
        of an intent without events. */
    method RebuildHead(allowEmpty: bool, now: string, id: nat) returns (result: Refusal)
      modifies this
      ensures result == Accepted ==>
        && key.Some? && old(head).None? && !old(BornWithHead())
        && (rows == old(rows) || (old(rows) == [] && allowEmpty))
        && StatusOf(intent, key, rows, head, BornWithHead()) == Intact
        && Linked(intent, key, rows) && Sealed(intent, key.value, rows, head)
      ensures result != Accepted ==> rows == old(rows) && head == old(head)
      ensures result == NoKey <==> key.None?
      ensures result == AlreadyThere <==> key.Some? && old(head).Some?
      ensures key.Some? && old(head).None? ==>
        (result == Accepted <==>
          if old(rows) == [] then allowEmpty else Linked(intent, key, old(rows)) && old(firstId) < headsSince)
      ensures result == Accepted && old(rows) == [] ==>
        |rows| == 1 && rows[0].event == "evidence_head_adopted" && rows[0].payload == "operator_migration"
    {
      ChainIsLinked(intent, key, rows);
      if key.None? {
        return NoKey;
      }
      if head.Some? {
        return AlreadyThere;
      }
      var ok, count, last := VerifyRows();
      assert rows[..|rows|] == rows;
      if BornWithHead() {
        return IntegrityError;
      }
      if ok && count == 0 && allowEmpty {
        result := Append("evidence_head_adopted", "operator_migration", now, true, id);
        assert rows[..0] == [];
        return;
      }
      if !ok || count == 0 {
        return IntegrityError;
      }
      head := Some(Head(count - 1, last.value, Some(HeadMac(key.value, intent, count - 1, last.value))));
      result := Accepted;
    }
  }

  // ---- what the chain proves ----

  /** A broken prefix breaks the chain. */
  lemma {:induction false} BrokenPrefix(intent: IntentId, key: Option<Key>, rows: seq<Row>, n: nat)
    requires n <= |rows| && !ChainOk(intent, key, rows[..n])
    ensures !ChainOk(intent, key, rows)
    decreases |rows|
  {
    if n < |rows| {
      assert rows[..|rows| - 1][..n] == rows[..n];
      BrokenPrefix(intent, key, rows[..|rows| - 1], n);
    } else {
      assert rows[..n] == rows;
    }
  }

  /** Rows agree in everything the chain protects: all of it under a key, all but the MAC without. */
  predicate SameRow(key: Option<Key>, a: Row, b: Row) {
    && a.event == b.event && a.payload == b.payload && a.createdAt == b.createdAt
    && a.previous == b.previous && a.hash == b.hash
    && (key.Some? ==> a.mac == b.mac)
  }

  predicate SameRows(key: Option<Key>, a: seq<Row>, b: seq<Row>) {
    |a| == |b| && forall k :: 0 <= k < |a| ==> SameRow(key, a[k], b[k])
  }

  /** Binding: two chains that verify and end in the same hash are the same chain, length included. */
  lemma {:induction false} HeadHashBindsChain(intent: IntentId, key: Option<Key>, a: seq<Row>, b: seq<Row>)
    requires ChainOk(intent, key, a) && ChainOk(intent, key, b) && LastHash(a) == LastHash(b)
    ensures SameRows(key, a, b)
    decreases |a|
  {
    if a != [] && b != [] {
      var m, n := |a| - 1, |b| - 1;
      assert SameRow(key, a[m], b[n]);
      HeadHashBindsChain(intent, key, a[..m], b[..n]);
    }
  }

  /** While the genuine head row survives, the log reads as intact exactly for the genuine events:
      every edit, deletion, insertion, reordering or truncation shows. */
  lemma GenuineHeadProtectsLog(intent: IntentId, key: Key, genuine: seq<Row>, head: Head, found: seq<Row>,
                               bornWithHead: bool)
    requires ChainOk(intent, Some(key), genuine) && HeadCommits(intent, key, genuine, head)
    ensures StatusOf(intent, Some(key), found, Some(head), bornWithHead) == Intact <==> found == genuine
  {
    if StatusOf(intent, Some(key), found, Some(head), bornWithHead) == Intact {
      HeadHashBindsChain(intent, Some(key), found, genuine);
      forall k | 0 <= k < |found| ensures found[k] == genuine[k] {
        assert SameRow(Some(key), found[k], genuine[k]);
      }
    }
  }

  /** An accepted append leaves an intact log exactly when the log was intact before, or when there were
      neither rows nor a head, in which case the chain starts afresh. */
  lemma AppendKeepsVerdict(intent: IntentId, key: Option<Key>, rows: seq<Row>, head: Option<Head>, born: bool,
                           born': bool,
                           event: string, payload: string, createdAt: string)
    requires WouldAppend(intent, key, rows, head)
    ensures var rows' := Extended(intent, key, rows, event, payload, createdAt);
      StatusOf(intent, key, rows', Recommitted(intent, key, rows, rows'), born') == Intact <==>
      StatusOf(intent, key, rows, head, born) == Intact || (rows == [] && head == None)
  {
    var rows' := Extended(intent, key, rows, event, payload, createdAt);
    assert rows'[..|rows|] == rows;
  }

  /** With a head present an append never repairs a log: it is refused, or the log stays invalid. */
  lemma HeadNeverLaunders(intent: IntentId, key: Option<Key>, rows: seq<Row>, head: Head, born: bool, born': bool,
                          event: string, payload: string, createdAt: string)
    requires StatusOf(intent, key, rows, Some(head), born) != Intact
    ensures WouldAppend(intent, key, rows, Some(head)) ==>
      var rows' := Extended(intent, key, rows, event, payload, createdAt);
      StatusOf(intent, key, rows', Recommitted(intent, key, rows, rows'), born') == ChainInvalid
  {
    if WouldAppend(intent, key, rows, Some(head)) {
      var rows' := Extended(intent, key, rows, event, payload, createdAt);
      assert rows'[..|rows|] == rows;
    }
  }
}
