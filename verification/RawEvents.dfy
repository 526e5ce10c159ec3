/** The append-only raw table shared by the webhook consumer and the backfills. */
module RawEvents {
  import opened Wrappers
  import opened SourceMessages

  datatype Source = Webhook | Backfill

  /** Structured source record keys; their injective rendering as text is not modelled. */
  datatype RecordKey =
    | DeliveryKey(deliveryId: string)
    | PullRequestKey(nodeId: string, updatedAt: int)
    | ReviewKey(nodeId: string, state: string)
    | CommitKey(associationId: string)
    | WorkflowRunKey(runId: int, attempt: int, updatedAt: int)
    | DeploymentKey(deploymentId: int)
    | DeploymentStatusKey(statusId: int)

  datatype RawKey = RawKey(source: Source, recordKey: RecordKey)

  datatype Lineage = Lineage(partition: nat, offset: nat)

  /** Backfilled children carry the identity of their parent beside the source document. */
  datatype Parent = PullRequestParent(nodeId: string) | DeploymentParent(deploymentId: int)

  datatype RawPayload = RawPayload(json: string, parent: Option<Parent>)

  datatype RawRow = RawRow(
    deliveryId: Option<string>, eventName: string, action: string, repositoryId: int, installationId: int,
    occurredAt: Option<int>, receivedAt: Option<int>, payload: RawPayload, lineage: Option<Lineage>)

  type RawTable = map<RawKey, RawRow>

  /** INSERT ... ON CONFLICT DO NOTHING: the first write wins. */
  function InsertOrIgnore(raw: RawTable, key: RawKey, row: RawRow): RawTable {
    if key in raw then raw else raw[key := row]
  }

  datatype BackfillRecord = BackfillRecord(
    recordKey: RecordKey, eventName: string, action: string, repositoryId: int, installationId: int,
    occurredAt: Option<int>, payload: RawPayload)
  {
    function Key(): RawKey { RawKey(Backfill, recordKey) }

    function Row(): RawRow {
      RawRow(None, eventName, action, repositoryId, installationId, occurredAt, None, payload, None)
    }
  }

  /** Insert a page of backfill records in order. */
  function InsertAll(raw: RawTable, records: seq<BackfillRecord>): RawTable {
    if records == [] then raw
    else
      var last := records[|records| - 1];
      InsertOrIgnore(InsertAll(raw, records[..|records| - 1]), last.Key(), last.Row())
  }

  lemma {:induction false} InsertAllKeys(raw: RawTable, records: seq<BackfillRecord>)
    ensures InsertAll(raw, records).Keys == raw.Keys + set r | r in records :: r.Key()
    ensures Grows(raw, InsertAll(raw, records))
    ensures forall k | k in InsertAll(raw, records) && k !in raw ::
              exists r | r in records :: r.Key() == k && r.Row() == InsertAll(raw, records)[k]
  {
    hide BackfillRecord.Key, BackfillRecord.Row;
    if records != [] {
      var rest, last := records[..|records| - 1], records[|records| - 1];
      assert records == rest + [last];
      InsertAllKeys(raw, rest);
      assert (set r | r in records :: r.Key()) == (set r | r in rest :: r.Key()) + {last.Key()};
      var before, after := InsertAll(raw, rest), InsertAll(raw, records);
      assert after == InsertOrIgnore(before, last.Key(), last.Row());
      forall k | k in after && k !in raw
        ensures exists r | r in records :: r.Key() == k && r.Row() == after[k]
      {
        if k !in before {
          assert last in records;
        }
      }
    }
  }

  function WebhookKey(e: Envelope): RawKey { RawKey(Webhook, DeliveryKey(e.deliveryId)) }

  function WebhookRow(e: Envelope, partition: nat, offset: nat): RawRow {
    RawRow(Some(e.deliveryId), e.eventName.Value(), e.action, e.repositoryId, e.installationId,
           e.payload.occurredAt, Some(e.receivedAt), RawPayload(e.payload.json, None), Some(Lineage(partition, offset)))
  }

  /** The table only ever grows: rows are neither rewritten nor removed. */
  ghost predicate Grows(before: RawTable, after: RawTable) {
    forall k | k in before :: k in after && after[k] == before[k]
  }

  /** A valid webhook record as the warehouse writer consumes it. */
  datatype Arrival = Arrival(envelope: Envelope, partition: nat, offset: nat)

  function Land(raw: RawTable, arrivals: seq<Arrival>): RawTable {
    if arrivals == [] then raw
    else
      var last := arrivals[|arrivals| - 1];
      InsertOrIgnore(Land(raw, arrivals[..|arrivals| - 1]), WebhookKey(last.envelope),
                     WebhookRow(last.envelope, last.partition, last.offset))
  }

  lemma {:induction false} LandKeeps(raw: RawTable, arrivals: seq<Arrival>)
    ensures Grows(raw, Land(raw, arrivals))
    ensures forall k | k in Land(raw, arrivals) && k !in raw :: k.source.Webhook?
  {
    if arrivals != [] {
      LandKeeps(raw, arrivals[..|arrivals| - 1]);
    }
  }

  // ---------------------------------------------------------------- records chosen from candidates

  /** The records among candidates of which some are skipped, in order. */
  function Chosen(candidates: seq<Option<BackfillRecord>>): seq<BackfillRecord> {
    if candidates == [] then []
    else
      var last := candidates[|candidates| - 1];
      Chosen(candidates[..|candidates| - 1]) + if last.Some? then [last.value] else []
  }

  lemma {:induction false} ChosenHas(candidates: seq<Option<BackfillRecord>>, r: BackfillRecord)
    ensures r in Chosen(candidates) <==> Some(r) in candidates
  {
    if candidates != [] {
      var rest, last := candidates[..|candidates| - 1], candidates[|candidates| - 1];
      assert candidates == rest + [last];
      ChosenHas(rest, r);
    }
  }

  lemma ChosenAppend(candidates: seq<Option<BackfillRecord>>, c: Option<BackfillRecord>)
    ensures Chosen(candidates + [c]) == Chosen(candidates) + if c.Some? then [c.value] else []
  {
    assert (candidates + [c])[..|candidates|] == candidates;
  }

  /** The row has every column from the envelope and the position it was consumed at. */
  ghost predicate RowFrom(row: RawRow, e: Envelope, partition: nat, offset: nat) {
    && row.deliveryId == Some(e.deliveryId)
    && row.eventName == (match e.eventName
                         case PullRequestName => "pull_request"
                         case PullRequestReviewName => "pull_request_review"
                         case WorkflowRunName => "workflow_run"
                         case DeploymentName => "deployment"
                         case DeploymentStatusName => "deployment_status")
    && row.action == e.action
    && row.repositoryId == e.repositoryId
    && row.installationId == e.installationId
    && row.occurredAt == e.payload.occurredAt
    && row.receivedAt == Some(e.receivedAt)
    && row.payload.json == e.payload.json && row.payload.parent == None
    && row.lineage == Some(Lineage(partition, offset))
  }

  datatype InsertOutcome = Inserted | Duplicate

  class PostgresRawEventStorage {
    var raw: RawTable

    constructor (initial: RawTable)
      ensures raw == initial
    {
      raw := initial;
    }

    method Insert(e: Envelope, partition: nat, offset: nat) returns (outcome: InsertOutcome)
      modifies this
      ensures raw == InsertOrIgnore(old(raw), WebhookKey(e), WebhookRow(e, partition, offset))
      ensures var key := RawKey(Webhook, DeliveryKey(e.deliveryId));
              if key in old(raw) then outcome == Duplicate && raw == old(raw)
              else && outcome == Inserted && key in raw && RowFrom(raw[key], e, partition, offset)
                   && raw.Keys == old(raw).Keys + {key} && forall k | k in old(raw) :: raw[k] == old(raw)[k]
    {
      var key := WebhookKey(e);
      if key in raw {
        return Duplicate;
      }
      raw := raw[key := WebhookRow(e, partition, offset)];
      return Inserted;
    }
  }
}
