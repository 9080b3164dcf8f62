/** Submitting usage events: an at-least-once queue in front of a ledger that drops repeated
    unique ids, with batches whose outcome may be ambiguous. */
module Submission {
  import opened Results

  datatype Payload = Undecodable | NotAnInteger | Measured(value: int, dimensions: map<string, string>)

  /** A queue message. Times are milliseconds since 1970. */
  datatype Body =
    | MalformedEvent
    | Event(id: string, time: int, accountRef: Option<string>, meterName: string, payload: Payload)

  datatype UsageRecord = UsageRecord(
    customer: string, meterApiName: string, value: int, uniqueId: string, time: int, dimensions: map<string, string>)

  /** The ULID of an event id and a time: left uninterpreted. */
  type Ulid = (string, int) -> string

  const ULID_TIMES := 0x1_0000_0000_0000

  datatype Caches = Caches(accounts: map<string, string>, meters: map<string, string>)

  datatype Prepared = Discard | Retry | Ready(record: UsageRecord)

  // ---- one message --------------------------------------------------------

  function PrepareRecord(ulid: Ulid, caches: Caches, body: Body): Prepared {
    if body.MalformedEvent? || body.accountRef.None? then Discard
    else if body.accountRef.value !in caches.accounts then Retry
    else if body.meterName !in caches.meters then Retry
    else if !body.payload.Measured? then Discard
    else if !(0 <= body.time < ULID_TIMES) then Discard
    else Ready(UsageRecord(caches.accounts[body.accountRef.value], caches.meters[body.meterName],
                           body.payload.value, ulid(body.id, body.time), body.time, body.payload.dimensions))
  }

  /** No state of the caches will ever make a record of this message. */
  predicate PermanentlyInvalid(body: Body) {
    || body.MalformedEvent? || body.accountRef.None? || !body.payload.Measured?
    || !(0 <= body.time < ULID_TIMES)
  }

  predicate Resolvable(caches: Caches, body: Body) {
    body.Event? && body.accountRef.Some? && body.accountRef.value in caches.accounts && body.meterName in caches.meters
  }

  /** The record of an event, apart from the two names the caches supply. */
  predicate RecordOf(ulid: Ulid, body: Body, rec: UsageRecord) {
    && body.Event? && body.payload.Measured?
    && rec.uniqueId == ulid(body.id, body.time) && rec.time == body.time
    && rec.value == body.payload.value && rec.dimensions == body.payload.dimensions
  }

  /** What is discarded is invalid for good, what is invalid is never sent, and a message that
      may still become valid is kept. */
  lemma PrepareExact(ulid: Ulid, caches: Caches, body: Body)
    ensures var p := PrepareRecord(ulid, caches, body);
      && (p.Ready? <==> Resolvable(caches, body) && !PermanentlyInvalid(body))
      && (p.Discard? ==> PermanentlyInvalid(body))
      && (PermanentlyInvalid(body) && Resolvable(caches, body) ==> p.Discard?)
      && (p.Retry? ==> !Resolvable(caches, body))
      && (p.Ready? ==> RecordOf(ulid, body, p.record) && p.record.customer == caches.accounts[body.accountRef.value]
                       && p.record.meterApiName == caches.meters[body.meterName])
  {
  }

  // ---- the ledger ---------------------------------------------------------

  predicate HasKey(rows: seq<UsageRecord>, key: string) {
    exists i :: 0 <= i < |rows| && rows[i].uniqueId == key
  }

  predicate DistinctKeys(rows: seq<UsageRecord>) {
    forall i, j | 0 <= i < j < |rows| :: rows[i].uniqueId != rows[j].uniqueId
  }

  /** Rows were only appended, all of them taken from `records`, and none under a key already used. */
  predicate Grown(before: seq<UsageRecord>, after: seq<UsageRecord>, records: seq<UsageRecord>) {
    && before <= after
    && (forall r | r in after[|before|..] :: r in records)
    && (DistinctKeys(before) ==> DistinctKeys(after))
  }

  lemma GrownTransitive(a: seq<UsageRecord>, b: seq<UsageRecord>, c: seq<UsageRecord>, records: seq<UsageRecord>,
                        more: seq<UsageRecord>)
    requires Grown(a, b, records) && Grown(b, c, more) && forall r | r in more :: r in records
    ensures Grown(a, c, records)
  {
  }

  lemma KeyStays(before: seq<UsageRecord>, after: seq<UsageRecord>, key: string)
    requires before <= after && HasKey(before, key)
    ensures HasKey(after, key)
  {
  }

  /** The outcome of one ingest request: an error says nothing about which records took effect. */
  datatype Answer = Answer(error: Option<Failure>, applied: nat -> bool)

  datatype Call = Call(records: seq<UsageRecord>, result: Result<()>)

  class Ledger {
    const answers: nat -> Answer
    var rows: seq<UsageRecord>
    var calls: seq<Call>

    method SubmitUsage(records: seq<UsageRecord>) returns (r: Result<()>)
      modifies this
      ensures calls == old(calls) + [Call(records, r)]
      ensures Grown(old(rows), rows, records)
      ensures r.Ok? ==> forall j | 0 <= j < |records| :: HasKey(rows, records[j].uniqueId)
    {
      var answer := answers(|calls|);
      r := if answer.error.Some? then Err(answer.error.value) else Ok(());
      var i := 0;
      while i < |records|
        invariant 0 <= i <= |records|
        invariant Grown(old(rows), rows, records)
        invariant r.Ok? ==> forall j | 0 <= j < i :: HasKey(rows, records[j].uniqueId)
        invariant calls == old(calls)
      {
        if (r.Ok? || answer.applied(i)) && !HasKey(rows, records[i].uniqueId) {
          var extended := rows + [records[i]];
          forall j | 0 <= j < i && r.Ok? ensures HasKey(extended, records[j].uniqueId) {
            KeyStays(rows, extended, records[j].uniqueId);
          }
          assert extended[|rows|].uniqueId == records[i].uniqueId;
          rows := extended;
        }
        i := i + 1;
      }
      calls := calls + [Call(records, r)];
    }
  }

  // ---- one batch ----------------------------------------------------------

  class Msg {
    const body: Body
    var acks: nat
    var naks: nat

    method Ack()
      modifies this`acks
      ensures acks == old(acks) + 1
    {
      acks := acks + 1;
    }

    method Nak()
      modifies this`naks
      ensures naks == old(naks) + 1
    {
      naks := naks + 1;
    }

    twostate predicate Acked()
      reads this
    {
      acks == old(acks) + 1 && naks == old(naks)
    }

    twostate predicate Untouched()
      reads this
    {
      acks == old(acks) && naks == old(naks)
    }

    twostate predicate Naked()
      reads this
    {
      acks == old(acks) && naks == old(naks) + 1
    }
  }

  predicate Distinct(msgs: seq<Msg>) {
    forall i, j | 0 <= i < j < |msgs| :: msgs[i] != msgs[j]
  }

  function Bodies(msgs: seq<Msg>): (r: seq<Body>)
    ensures |r| == |msgs| && forall i | 0 <= i < |msgs| :: r[i] == msgs[i].body
  {
    seq(|msgs|, i requires 0 <= i < |msgs| => msgs[i].body)
  }

  /** The records of a batch, in the order of their messages. */
  function ReadyRecords(ulid: Ulid, caches: Caches, bodies: seq<Body>): seq<UsageRecord> {
    if bodies == [] then []
    else
      var n := |bodies| - 1;
      var p := PrepareRecord(ulid, caches, bodies[n]);
      ReadyRecords(ulid, caches, bodies[..n]) + if p.Ready? then [p.record] else []
  }

  /** Where the record of the k-th message goes. */
  function Position(ulid: Ulid, caches: Caches, bodies: seq<Body>, k: nat): nat
    requires k <= |bodies|
  {
    |ReadyRecords(ulid, caches, bodies[..k])|
  }

  lemma {:induction false} ReadyRecordsStep(ulid: Ulid, caches: Caches, bodies: seq<Body>, i: nat)
    requires i < |bodies|
    ensures ReadyRecords(ulid, caches, bodies[..i + 1]) ==
            ReadyRecords(ulid, caches, bodies[..i])
            + if PrepareRecord(ulid, caches, bodies[i]).Ready? then
                [PrepareRecord(ulid, caches, bodies[i]).record]
              else []
  {
    assert bodies[..i + 1][..i] == bodies[..i];
  }

  lemma {:induction false} ReadyRecordsEnds(ulid: Ulid, caches: Caches, bodies: seq<Body>)
    ensures ReadyRecords(ulid, caches, bodies[..0]) == []
    ensures bodies[..|bodies|] == bodies
  {
  }

  method Triage(ulid: Ulid, caches: Caches, msgs: seq<Msg>) returns (records: seq<UsageRecord>, ready: seq<Msg>)
    requires Distinct(msgs)
    modifies msgs
    ensures |records| == |ready| && Distinct(ready)
    ensures records == ReadyRecords(ulid, caches, Bodies(msgs))
    ensures forall j | 0 <= j < |ready| ::
              ready[j] in msgs && PrepareRecord(ulid, caches, ready[j].body) == Ready(records[j])
    ensures forall k | 0 <= k < |msgs| ::
              match PrepareRecord(ulid, caches, msgs[k].body)
              case Discard => msgs[k].Acked()
              case Retry => msgs[k].Naked()
              case Ready(_) =>
                Position(ulid, caches, Bodies(msgs), k) < |ready| && ready[Position(ulid, caches, Bodies(msgs), k)] == msgs[k]
                && msgs[k].acks == old(msgs[k].acks) && msgs[k].naks == old(msgs[k].naks)
  {
    hide PrepareRecord, ReadyRecords;
    records, ready := [], [];
    ghost var bodies := Bodies(msgs);
    ReadyRecordsEnds(ulid, caches, bodies);
    var i := 0;
    while i < |msgs|
      invariant 0 <= i <= |msgs|
      invariant |records| == |ready| && Distinct(ready)
      invariant records == ReadyRecords(ulid, caches, bodies[..i])
      invariant forall j | 0 <= j < |ready| ::
                  ready[j] in msgs[..i] && PrepareRecord(ulid, caches, ready[j].body) == Ready(records[j])
      invariant forall k | 0 <= k < i ::
                  match PrepareRecord(ulid, caches, msgs[k].body)
                  case Discard => msgs[k].Acked()
                  case Retry => msgs[k].Naked()
                  case Ready(_) =>
                    Position(ulid, caches, bodies, k) < |ready| && ready[Position(ulid, caches, bodies, k)] == msgs[k]
                    && msgs[k].acks == old(msgs[k].acks) && msgs[k].naks == old(msgs[k].naks)
      invariant forall k | i <= k < |msgs| :: msgs[k].acks == old(msgs[k].acks) && msgs[k].naks == old(msgs[k].naks)
    {
      var msg := msgs[i];
      ReadyRecordsStep(ulid, caches, bodies, i);
      assert msg !in msgs[..i];
      match PrepareRecord(ulid, caches, msg.body) {
        case Discard => msg.Ack();
        case Retry => msg.Nak();
        case Ready(record) =>
          records := records + [record];
          ready := ready + [msg];
      }
      i := i + 1;
    }
  }

  /** The requests of one batch: all records at once, and one by one if that failed permanently. */
  predicate BatchCalls(calls: seq<Call>, records: seq<UsageRecord>) {
    && |calls| > 0 && calls[0].records == records
    && (if FellBack(calls) then
          |calls| == 1 + |records| && forall j | 0 <= j < |records| :: calls[1 + j].records == [records[j]]
        else |calls| == 1)
  }

  /** The requests of a batch that may have been cut short. */
  predicate BatchBegun(calls: seq<Call>, records: seq<UsageRecord>) {
    calls == []
    || (calls[0].records == records && (!FellBack(calls) ==> |calls| == 1) && |calls| <= 1 + |records|
        && forall j | 0 <= j < |calls| - 1 :: calls[1 + j].records == [records[j]])
  }

  predicate FellBack(calls: seq<Call>)
    requires |calls| > 0
  {
    calls[0].result.Err? && calls[0].result.error.Permanent?
  }

  /** Whether the j-th record's message is done with: the batch was accepted, or the record alone
      was accepted or permanently rejected. */
  predicate Done(calls: seq<Call>, records: seq<UsageRecord>, j: nat)
    requires BatchCalls(calls, records) && j < |records|
  {
    if FellBack(calls) then calls[1 + j].result.Ok? || calls[1 + j].result.error.Permanent?
    else calls[0].result.Ok?
  }

  predicate RejectedAlone(calls: seq<Call>, record: UsageRecord) {
    exists k :: 0 <= k < |calls| && calls[k].records == [record] && calls[k].result.Err? && calls[k].result.error.Permanent?
  }

  // The process may be killed at any time. `killedAt` is the number of ingest requests, counted from the
  // first one ever, that it lives to send; what a kill does to an ack is the same as losing the ack.

  method SubmitEach(ledger: Ledger, records: seq<UsageRecord>, ready: seq<Msg>, killedAt: nat)
    requires |records| == |ready| && Distinct(ready)
    modifies ledger, ready
    ensures Grown(old(ledger.rows), ledger.rows, records)
    ensures old(ledger.calls) <= ledger.calls && |ledger.calls| <= |old(ledger.calls)| + |records|
    ensures |ledger.calls| == |old(ledger.calls)| + |records| || |ledger.calls| >= killedAt
    // The records whose request was sent are done with, ...
    ensures forall j | 0 <= j < |ledger.calls| - |old(ledger.calls)| ::
              ledger.calls[|old(ledger.calls)| + j].records == [records[j]]
    ensures forall j | 0 <= j < |ledger.calls| - |old(ledger.calls)| ::
              var result := ledger.calls[|old(ledger.calls)| + j].result;
              if result.Ok? || result.error.Permanent? then ready[j].Acked() else ready[j].Naked()
    ensures forall j | 0 <= j < |ledger.calls| - |old(ledger.calls)| ::
              ledger.calls[|old(ledger.calls)| + j].result.Ok? ==> HasKey(ledger.rows, records[j].uniqueId)
    // ... and the others' messages are as they were.
    ensures forall j | |ledger.calls| - |old(ledger.calls)| <= j < |records| :: ready[j].Untouched()
  {
    ghost var before := ledger.calls;
    var i := 0;
    while i < |records| && |ledger.calls| < killedAt
      invariant 0 <= i <= |records|
      invariant Grown(old(ledger.rows), ledger.rows, records)
      invariant |ledger.calls| == |before| + i && before <= ledger.calls
      invariant forall j | 0 <= j < i :: ledger.calls[|before| + j].records == [records[j]]
      invariant forall j | 0 <= j < i ::
                  var result := ledger.calls[|before| + j].result;
                  if result.Ok? || result.error.Permanent? then ready[j].Acked() else ready[j].Naked()
      invariant forall j | 0 <= j < i ::
                  ledger.calls[|before| + j].result.Ok? ==> HasKey(ledger.rows, records[j].uniqueId)
      invariant forall j | i <= j < |records| :: ready[j].Untouched()
    {
      ghost var rows := ledger.rows;
      var alone := ledger.SubmitUsage([records[i]]);
      forall j | 0 <= j < i && HasKey(rows, records[j].uniqueId) ensures HasKey(ledger.rows, records[j].uniqueId) {
        KeyStays(rows, ledger.rows, records[j].uniqueId);
      }
      GrownTransitive(old(ledger.rows), rows, ledger.rows, records, [records[i]]);
      if alone.Ok? {
        assert HasKey(ledger.rows, [records[i]][0].uniqueId);
        ready[i].Ack();
      } else if alone.error.Permanent? {
        ready[i].Ack();
      } else {
        ready[i].Nak();
      }
      i := i + 1;
    }
  }

  method AckAll(ready: seq<Msg>)
    requires Distinct(ready)
    modifies ready
    ensures forall j | 0 <= j < |ready| :: ready[j].Acked()
  {
    var i := 0;
    while i < |ready|
      invariant 0 <= i <= |ready|
      invariant forall j | 0 <= j < i :: ready[j].Acked()
      invariant forall j | i <= j < |ready| :: ready[j].acks == old(ready[j].acks) && ready[j].naks == old(ready[j].naks)
    {
      ready[i].Ack();
      i := i + 1;
    }
  }

  method NakAll(ready: seq<Msg>)
    requires Distinct(ready)
    modifies ready
    ensures forall j | 0 <= j < |ready| :: ready[j].Naked()
  {
    var i := 0;
    while i < |ready|
      invariant 0 <= i <= |ready|
      invariant forall j | 0 <= j < i :: ready[j].Naked()
      invariant forall j | i <= j < |ready| :: ready[j].acks == old(ready[j].acks) && ready[j].naks == old(ready[j].naks)
    {
      ready[i].Nak();
      i := i + 1;
    }
  }

  method SubmitBatch(ledger: Ledger, records: seq<UsageRecord>, ready: seq<Msg>, killedAt: nat)
    requires |records| == |ready| > 0 && Distinct(ready)
    modifies ledger, ready
    ensures Grown(old(ledger.rows), ledger.rows, records)
    ensures old(ledger.calls) <= ledger.calls
    ensures BatchBegun(ledger.calls[|old(ledger.calls)|..], records)
    ensures |old(ledger.calls)| + |records| < killedAt ==>
              && BatchCalls(ledger.calls[|old(ledger.calls)|..], records)
              && forall j | 0 <= j < |records| ::
                   if Done(ledger.calls[|old(ledger.calls)|..], records, j) then ready[j].Acked() else ready[j].Naked()
    ensures forall m | m in ready :: m.Acked() || m.Naked() || m.Untouched()
    ensures forall j | 0 <= j < |records| && ready[j].Acked() ::
              HasKey(ledger.rows, records[j].uniqueId) || RejectedAlone(ledger.calls[|old(ledger.calls)|..], records[j])
  {
    ghost var n := |ledger.calls|;
    if |ledger.calls| >= killedAt {
      return;
    }
    var batch := ledger.SubmitUsage(records);
    if batch.Ok? {
      AckAll(ready);
    } else if batch.error.Permanent? {
      ghost var rows := ledger.rows;
      SubmitEach(ledger, records, ready, killedAt);
      GrownTransitive(old(ledger.rows), rows, ledger.rows, records, records);
      forall j | 0 <= j < |records| && ready[j].Acked()
        ensures HasKey(ledger.rows, records[j].uniqueId) || RejectedAlone(ledger.calls[n..], records[j])
      {
        assert ledger.calls[n..][1 + j] == ledger.calls[n + 1 + j];
      }
    } else {
      NakAll(ready);
    }
  }

  /** Why an acked message needs no further delivery. */
  predicate Justified(ulid: Ulid, caches: Caches, body: Body, rows: seq<UsageRecord>, calls: seq<Call>) {
    var p := PrepareRecord(ulid, caches, body);
    p.Discard? || (p.Ready? && (HasKey(rows, p.record.uniqueId) || RejectedAlone(calls, p.record)))
  }

  lemma NothingSent(rows: seq<UsageRecord>, records: seq<UsageRecord>)
    ensures BatchBegun([], records) && Grown(rows, rows, records)
  {
  }

  method ProcessMessages(ulid: Ulid, caches: Caches, ledger: Ledger, msgs: seq<Msg>, killedAt: nat)
    requires Distinct(msgs)
    modifies ledger, msgs
    // The batch is sent once, in order, and split up only after a permanent failure.
    ensures old(ledger.calls) <= ledger.calls
    ensures BatchBegun(ledger.calls[|old(ledger.calls)|..], ReadyRecords(ulid, caches, Bodies(msgs)))
    ensures Grown(old(ledger.rows), ledger.rows, ReadyRecords(ulid, caches, Bodies(msgs)))
    // Every message gets at most one disposition, ...
    ensures forall m | m in msgs :: m.Acked() || m.Naked() || m.Untouched()
    // ... never an ack without a reason, ...
    ensures forall m | m in msgs && m.Acked() ::
              Justified(ulid, caches, m.body, ledger.rows, ledger.calls[|old(ledger.calls)|..])
    // ... and exactly one if the process lives to the end, which is the verdict on the record that was
    // made from the very same message.
    ensures |old(ledger.calls)| + |ReadyRecords(ulid, caches, Bodies(msgs))| < killedAt ==>
              && (var records := ReadyRecords(ulid, caches, Bodies(msgs));
                  if records == [] then ledger.calls == old(ledger.calls)
                  else BatchCalls(ledger.calls[|old(ledger.calls)|..], records))
              && (forall m | m in msgs :: m.Acked() || m.Naked())
              && forall k | 0 <= k < |msgs| ::
                   match PrepareRecord(ulid, caches, msgs[k].body)
                   case Discard => msgs[k].Acked()
                   case Retry => msgs[k].Naked()
                   case Ready(record) =>
                     var records, j := ReadyRecords(ulid, caches, Bodies(msgs)), Position(ulid, caches, Bodies(msgs), k);
                     j < |records| && records[j] == record
                     && (msgs[k].Acked() <==> Done(ledger.calls[|old(ledger.calls)|..], records, j))
  {
    hide PrepareRecord, ReadyRecords, BatchCalls, BatchBegun, RejectedAlone, Grown, HasKey, Done;
    var records, ready := Triage(ulid, caches, msgs);
    NothingSent(ledger.rows, records);
    assert ledger.calls[|ledger.calls|..] == [];
    if |records| == 0 {
      return;
    }
    SubmitBatch(ledger, records, ready, killedAt);
    forall k | 0 <= k < |msgs| ensures msgs[k].Acked() || msgs[k].Naked() || msgs[k].Untouched() {
      if PrepareRecord(ulid, caches, msgs[k].body).Ready? {
        assert msgs[k] in ready;
      }
    }
  }

  // ---- whole runs ---------------------------------------------------------

  /** The ledger, the ingest requests so far, and the stream positions whose ack was sent and kept. */
  datatype World = World(rows: seq<UsageRecord>, calls: seq<Call>, acked: set<nat>)

  ghost predicate MadeFrom(ulid: Ulid, events: seq<Body>, record: UsageRecord) {
    exists e: nat, caches :: e < |events| && PrepareRecord(ulid, caches, events[e]) == Ready(record)
  }

  ghost predicate Settled(ulid: Ulid, body: Body, rows: seq<UsageRecord>, calls: seq<Call>) {
    exists caches :: Justified(ulid, caches, body, rows, calls)
  }

  /** One delivery of any messages of the stream, in any order and number, with any state of the
      caches, finished or cut short at any point: rows appear, requests are sent, acks are kept or lost. */
  ghost predicate Delivery(ulid: Ulid, events: seq<Body>, before: World, after: World) {
    && before.rows <= after.rows && before.calls <= after.calls && before.acked <= after.acked
    && (DistinctKeys(before.rows) ==> DistinctKeys(after.rows))
    && (forall r | r in after.rows[|before.rows|..] :: MadeFrom(ulid, events, r))
    && (forall e | e in after.acked - before.acked :: e < |events| && Settled(ulid, events[e], after.rows, after.calls))
  }

  lemma {:induction false} ReadyRecordsMadeFrom(ulid: Ulid, caches: Caches, events: seq<Body>, positions: seq<nat>,
                                                bodies: seq<Body>, r: UsageRecord)
    requires |positions| == |bodies|
    requires forall k | 0 <= k < |bodies| :: positions[k] < |events| && bodies[k] == events[positions[k]]
    requires r in ReadyRecords(ulid, caches, bodies)
    ensures MadeFrom(ulid, events, r)
  {
    var n := |bodies| - 1;
    if r in ReadyRecords(ulid, caches, bodies[..n]) {
      ReadyRecordsMadeFrom(ulid, caches, events, positions[..n], bodies[..n], r);
    } else {
      assert PrepareRecord(ulid, caches, events[positions[n]]) == Ready(r);
    }
  }

  /** What ProcessMessages promises of one batch, wherever the process is killed, is such a delivery,
      whichever of its acks are lost. */
  lemma {:induction false} BatchIsDelivery(ulid: Ulid, caches: Caches, events: seq<Body>, positions: seq<nat>,
                                           bodies: seq<Body>, before: World, after: World)
    requires |positions| == |bodies|
    requires forall k | 0 <= k < |bodies| :: positions[k] < |events| && bodies[k] == events[positions[k]]
    requires Grown(before.rows, after.rows, ReadyRecords(ulid, caches, bodies)) && before.calls <= after.calls
    requires before.acked <= after.acked
    requires forall e | e in after.acked - before.acked ::
               e in positions && Justified(ulid, caches, events[e], after.rows, after.calls[|before.calls|..])
    ensures Delivery(ulid, events, before, after)
  {
    forall r | r in after.rows[|before.rows|..] ensures MadeFrom(ulid, events, r) {
      ReadyRecordsMadeFrom(ulid, caches, events, positions, bodies, r);
    }
    forall e | e in after.acked - before.acked ensures Settled(ulid, events[e], after.rows, after.calls) {
      var p := PrepareRecord(ulid, caches, events[e]);
      if p.Ready? && RejectedAlone(after.calls[|before.calls|..], p.record) {
        var n := |before.calls|;
        var k :| 0 <= k < |after.calls[n..]| && after.calls[n..][k].records == [p.record]
                 && after.calls[n..][k].result.Err? && after.calls[n..][k].result.error.Permanent?;
        assert after.calls[n + k].records == [p.record];
      }
      assert Justified(ulid, caches, events[e], after.rows, after.calls);
    }
  }

  ghost predicate StepAt(ulid: Ulid, events: seq<Body>, run: seq<World>, k: nat)
    requires k + 1 < |run|
  {
    Delivery(ulid, events, run[k], run[k + 1])
  }

  ghost predicate Run(ulid: Ulid, events: seq<Body>, run: seq<World>) {
    && |run| > 0 && run[0] == World([], [], {})
    && forall k | 0 <= k < |run| - 1 :: StepAt(ulid, events, run, k)
  }

  lemma RunShorter(ulid: Ulid, events: seq<Body>, run: seq<World>)
    requires Run(ulid, events, run) && |run| > 1
    ensures Run(ulid, events, run[..|run| - 1])
    ensures Delivery(ulid, events, run[|run| - 2], run[|run| - 1])
  {
    var shorter := run[..|run| - 1];
    forall k | 0 <= k < |shorter| - 1 ensures StepAt(ulid, events, shorter, k) {
      assert StepAt(ulid, events, run, k);
    }
    assert StepAt(ulid, events, run, |run| - 2);
  }

  function Last(run: seq<World>): World
    requires |run| > 0
  {
    run[|run| - 1]
  }

  /** Over any run no key is billed twice, and every row was made from an event of the stream. */
  lemma {:induction false} AtMostOnce(ulid: Ulid, events: seq<Body>, run: seq<World>)
    requires Run(ulid, events, run)
    ensures DistinctKeys(Last(run).rows)
    ensures forall r | r in Last(run).rows :: MadeFrom(ulid, events, r)
    decreases |run|
  {
    if |run| > 1 {
      RunShorter(ulid, events, run);
      AtMostOnce(ulid, events, run[..|run| - 1]);
      var before, after := run[|run| - 2].rows, Last(run).rows;
      forall r | r in after ensures MadeFrom(ulid, events, r) {
        var i :| 0 <= i < |after| && after[i] == r;
        if i < |before| {
          assert before[i] in before;
        } else {
          assert after[i] in after[|before|..];
        }
      }
    }
  }

  lemma SettledStays(ulid: Ulid, body: Body, before: World, after: World)
    requires Settled(ulid, body, before.rows, before.calls) && before.rows <= after.rows && before.calls <= after.calls
    ensures Settled(ulid, body, after.rows, after.calls)
  {
    var caches :| Justified(ulid, caches, body, before.rows, before.calls);
    var p := PrepareRecord(ulid, caches, body);
    if p.Ready? {
      if HasKey(before.rows, p.record.uniqueId) {
        KeyStays(before.rows, after.rows, p.record.uniqueId);
      } else {
        var k :| 0 <= k < |before.calls| && before.calls[k].records == [p.record]
                 && before.calls[k].result.Err? && before.calls[k].result.error.Permanent?;
        assert after.calls[k].records == [p.record];
      }
    }
    assert Justified(ulid, caches, body, after.rows, after.calls);
  }

  lemma {:induction false} AckedIsSettled(ulid: Ulid, events: seq<Body>, run: seq<World>, e: nat)
    requires Run(ulid, events, run) && e in Last(run).acked
    ensures e < |events| && Settled(ulid, events[e], Last(run).rows, Last(run).calls)
    decreases |run|
  {
    if |run| > 1 {
      RunShorter(ulid, events, run);
      if e in run[|run| - 2].acked {
        AckedIsSettled(ulid, events, run[..|run| - 1], e);
        SettledStays(ulid, events[e], run[|run| - 2], Last(run));
      } else {
        assert e in Last(run).acked - run[|run| - 2].acked;
      }
    }
  }

  ghost predicate Rejected(ulid: Ulid, body: Body, calls: seq<Call>) {
    exists caches :: PrepareRecord(ulid, caches, body).Ready?
                     && RejectedAlone(calls, PrepareRecord(ulid, caches, body).record)
  }

  /** Over any run an acked event is billed, invalid for good, or was rejected on its own. */
  lemma NothingLost(ulid: Ulid, events: seq<Body>, run: seq<World>, e: nat)
    requires Run(ulid, events, run) && e in Last(run).acked
    ensures e < |events|
    ensures PermanentlyInvalid(events[e]) || HasKey(Last(run).rows, ulid(events[e].id, events[e].time))
            || Rejected(ulid, events[e], Last(run).calls)
  {
    AckedIsSettled(ulid, events, run, e);
    var caches :| Justified(ulid, caches, events[e], Last(run).rows, Last(run).calls);
    PrepareExact(ulid, caches, events[e]);
  }

  /** Different (id, time) pairs have different keys. */
  ghost predicate KeysDiffer(ulid: Ulid) {
    forall a, s, b, t :: ulid(a, s) == ulid(b, t) ==> a == b && s == t
  }

  /** No other message of the stream carries the same id and time. */
  predicate PublishedOnce(events: seq<Body>, e: nat)
    requires e < |events| && events[e].Event?
  {
    forall j | 0 <= j < |events| && events[j].Event? && events[j].id == events[e].id && events[j].time == events[e].time ::
      j == e
  }

  /** Exactly once: over any run, an acked event that is valid and was not rejected has one row,
      and the row is this event's record. */
  lemma ExactlyOnce(ulid: Ulid, events: seq<Body>, run: seq<World>, e: nat)
    requires Run(ulid, events, run) && KeysDiffer(ulid) && e in Last(run).acked && e < |events|
    requires !PermanentlyInvalid(events[e]) && !Rejected(ulid, events[e], Last(run).calls)
    requires PublishedOnce(events, e)
    ensures exists i :: 0 <= i < |Last(run).rows| && RecordOf(ulid, events[e], Last(run).rows[i])
                        && forall j | 0 <= j < |Last(run).rows| && RecordOf(ulid, events[e], Last(run).rows[j]) :: j == i
  {
    hide Rejected, PrepareRecord;
    NothingLost(ulid, events, run, e);
    AtMostOnce(ulid, events, run);
    var rows := Last(run).rows;
    var i :| 0 <= i < |rows| && rows[i].uniqueId == ulid(events[e].id, events[e].time);
    assert MadeFrom(ulid, events, rows[i]);
    var d: nat, caches :| d < |events| && PrepareRecord(ulid, caches, events[d]) == Ready(rows[i]);
    PrepareExact(ulid, caches, events[d]);
    assert d == e;
  }

  /** Two messages whose records have different keys can be billed in one batch. */
  lemma BothBilled(ulid: Ulid, caches: Caches, events: seq<Body>, first: UsageRecord, second: UsageRecord)
    requires |events| == 2 && first.uniqueId != second.uniqueId
    requires PrepareRecord(ulid, caches, events[0]) == Ready(first)
    requires PrepareRecord(ulid, caches, events[1]) == Ready(second)
    ensures Delivery(ulid, events, World([], [], {}),
                     World([first, second], [Call([first, second], Ok(()))], {0, 1}))
  {
    hide PrepareRecord;
    var end := World([first, second], [Call([first, second], Ok(()))], {0, 1});
    assert end.rows[0] == first && end.rows[1] == second;
    assert MadeFrom(ulid, events, first) && MadeFrom(ulid, events, second);
    assert Justified(ulid, caches, events[0], end.rows, end.calls);
    assert Justified(ulid, caches, events[1], end.rows, end.calls);
    assert Settled(ulid, events[0], end.rows, end.calls) && Settled(ulid, events[1], end.rows, end.calls);
  }

  /** The key depends on the time as well as on the id: an event published again under its old id
      with a new time is billed again. */
  lemma RepublishedEventIsBilledTwice(ulid: Ulid, id: string, s: int, t: int)
    requires KeysDiffer(ulid) && 0 <= s < ULID_TIMES && 0 <= t < ULID_TIMES && s != t
    ensures var event := (at: int) => Event(id, at, Some("account"), "meter", Measured(1, map[]));
            exists run :: Run(ulid, [event(s), event(t)], run)
              && HasKey(Last(run).rows, ulid(id, s)) && HasKey(Last(run).rows, ulid(id, t)) && |Last(run).rows| == 2
  {
    hide Delivery;
    var event := (at: int) => Event(id, at, Some("account"), "meter", Measured(1, map[]));
    var events := [event(s), event(t)];
    var caches := Caches(map["account" := "customer"], map["meter" := "api"]);
    var first, second := PrepareRecord(ulid, caches, events[0]).record, PrepareRecord(ulid, caches, events[1]).record;
    var start, end := World([], [], {}), World([first, second], [Call([first, second], Ok(()))], {0, 1});
    assert end.rows[0].uniqueId == ulid(id, s) && end.rows[1].uniqueId == ulid(id, t);
    BothBilled(ulid, caches, events, first, second);
    var run := [start, end];
    assert StepAt(ulid, events, run, 0);
    assert Run(ulid, events, run);
  }
}
