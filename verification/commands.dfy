/** Commands of the replicated log and the results of applying them. */
module Commands {
  import opened Bytes
  import opened Store

  datatype PublishCmd = PublishCmd(
    group: Group, payload: Payload, headers: map<string, string>, weight: Option<real>, batchSize: Option<nat>,
    maxAttempts: nat, notBefore: nat, ttlExpiry: nat, now: nat, issueToken: bool, externalToken: Option<Blob>,
    dedupKey: string, dedupExpiry: nat)

  datatype NackMode = RequeueNoPenalty | Retry | DeadLetterNow
  datatype GroupOp = Pause | Resume | CancelGroup | PurgeGroup
  datatype SingletonOp = Acquire | Renew | Release

  /** A proposer's event; the store assigns its id and stamp. */
  datatype EventIn = EventIn(kind: EventKind, attrs: Attrs)

  datatype Command =
    | Publish(p: PublishCmd)
    | PublishBatch(items: seq<PublishCmd>)
    | LeaseNext(group: Group, consumer: string, deadline: nat, maxLife: nat)
    | Ack(lease: nat)
    | Nack(lease: nat, mode: NackMode, delay: nat, meta: map<string, string>, now: nat)
    | ExtendLease(lease: nat, deadline: nat)
    | Fire(timer: Timer, fireAt: nat)
    | GroupConfig(group: Group, weight: Option<real>, batchSize: Option<nat>)
    | Lifecycle(group: Group, op: GroupOp)
    | IssueToken(lease: nat, hash: Blob)
    | Complete(hash: Blob, success: bool, meta: map<string, string>, delay: nat, now: nat)
    | Singleton(sop: SingletonOp, name: string, holder: string, ttl: nat, fence: nat, now: nat)
    | Redrive(group: Group, id: nat, now: nat)
    | StartRun(wfType: string, tenant: string, input: Blob, parent: nat, now: nat)
    | AppendEvents(run: nat, epoch: nat, atSeq: nat, events: seq<EventIn>, now: nat)
    | CompleteActivity(run: nat, sched: nat, success: bool, result: Blob, now: nat)
    | SignalRun(run: nat, name: string, payload: Blob, now: nat)
    | CancelRun(run: nat, reason: Blob, now: nat)
    | Unknown(code: nat)

  datatype ItemResult = ItemResult(id: nat, duplicate: bool)

  datatype Result =
    | NoResult
    | Published(id: nat, duplicate: bool)
    | Batched(items: seq<ItemResult>)
    | Nothing
    | LeaseGranted(lease: nat, msg: Message, deadline: nat)
    | Acked(ok: bool)
    | Nacked(ok: bool, deadLettered: bool)
    | LeaseExtended(ok: bool)
    | GroupDone(affected: nat)
    | TokenCompleted(ok: bool, deadLettered: bool, unknown: bool)
    | SingletonIs(ok: bool, fence: nat, holder: string)
    | Redriven(ok: bool, newId: nat)
    | Started(run: nat)
    | Appended(applied: bool, reason: string, newSeq: nat)

  /** The batch after a command's writes, and its result. */
  datatype Applied = Applied(b: Db, res: Result)
}
