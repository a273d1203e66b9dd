/** The replicated store: the typed tables of the application keyspace. Names are strings,
    protobuf payloads are the values they encode, stamps are milliseconds. */
module Store {
  import opened Bytes

  const U32: nat := 0x1_0000_0000
  const U64: nat := 0x1_0000_0000_0000_0000

  /** 32-bit epochs wrap. */
  function Bump32(e: nat): nat { (e + 1) % U32 }

  /** 64-bit stamps wrap. */
  function Add64(a: nat, b: nat): nat { (a + b) % U64 }

  /** A saturating decrement of a counter. */
  function Decr(n: nat): nat { if n > 0 then n - 1 else 0 }

  // ----- Messages, groups, leases, timers -----

  datatype Group = Group(lane: string, name: string)
  datatype MsgKey = MsgKey(group: Group, id: nat)

  /** What a message's bytes decode to: a workflow task, an activity task, or neither. */
  datatype Payload =
    | Opaque(bytes: Blob)
    | WfTask(run: nat, wfType: string)
    | ActTask(run: nat, sched: nat, actType: string, input: Blob)

  datatype MsgState = Ready | Delayed | Leased

  datatype Message = Message(
    key: MsgKey, payload: Payload, headers: map<string, string>, notBefore: nat, ttl: nat,
    attempt: nat, maxAttempts: nat, enqueued: nat, state: MsgState, epoch: nat, curLease: nat,
    issueToken: bool, externalToken: Option<Blob>)

  datatype GroupMeta = GroupMeta(
    weight: real, batchSize: nat, paused: bool, lastActivity: nat,
    ready: nat, delayed: nat, inflight: nat, total: nat, nextSeq: nat)

  const FRESH_META: GroupMeta := GroupMeta(1.0, 1, false, 0, 0, 0, 0, 0, 1)
  const ZERO_META: GroupMeta := GroupMeta(0.0, 0, false, 0, 0, 0, 0, 0, 0)

  datatype Lease = Lease(
    key: MsgKey, consumer: string, deadline: nat, attempt: nat, epoch: nat,
    extendCount: nat, token: Blob, granted: nat)

  /** What a time-index row points at. */
  datatype Ref =
    | ReadyAt(key: MsgKey)
    | LeaseDeadline(lease: nat)
    | DedupExpiry(lane: string, dedup: string)
    | LeaseMaxLife(lease: nat)
    | WfFired(run: nat, started: nat)
    | MsgExpiry(key: MsgKey)

  /** A time-index row; its value is an epoch. */
  datatype Timer = Timer(due: nat, ref: Ref)

  datatype DeadLetter = DeadLetter(
    original: Message, finalAttempt: nat, reason: string, meta: map<string, string>, deadAt: nat)
  datatype DlqKey = DlqKey(key: MsgKey, deadTs: nat)

  datatype Queue = Queue(
    messages: map<MsgKey, Message>, groups: map<Group, GroupMeta>, leases: map<nat, Lease>,
    timers: map<Timer, nat>, dlq: map<DlqKey, DeadLetter>, nextLease: nat)

  function LoadMeta(q: Queue, g: Group): GroupMeta {
    if g in q.groups then q.groups[g] else FRESH_META
  }

  function PutMsg(q: Queue, m: Message): Queue { q.(messages := q.messages[m.key := m]) }
  function DropMsg(q: Queue, k: MsgKey): Queue { q.(messages := q.messages - {k}) }
  function PutMeta(q: Queue, g: Group, gm: GroupMeta): Queue { q.(groups := q.groups[g := gm]) }
  function PutLease(q: Queue, id: nat, l: Lease): Queue { q.(leases := q.leases[id := l]) }
  function DropLease(q: Queue, id: nat): Queue { q.(leases := q.leases - {id}) }
  function AddTimer(q: Queue, due: nat, ref: Ref, epoch: nat): Queue {
    q.(timers := q.timers[Timer(due, ref) := epoch])
  }
  function DelTimer(q: Queue, due: nat, ref: Ref): Queue { q.(timers := q.timers - {Timer(due, ref)}) }
  function PutDead(q: Queue, d: DlqKey, dl: DeadLetter): Queue { q.(dlq := q.dlq[d := dl]) }

  // ----- Durable execution -----

  datatype Status = WfRunning | WfCompleted | WfFailed | WfCanceled | WfContinued

  datatype EventKind =
    | WorkflowStarted | WorkflowTaskScheduled | WorkflowTaskCompleted
    | ActivityScheduled | ActivityCompleted | ActivityFailed
    | TimerStarted | TimerFired | SignalReceived | MarkerRecorded
    | WorkflowCompleted | WorkflowFailed | WorkflowCanceled | WorkflowContinuedAsNew
    | Unspecified

  /** What an event's attribute bytes decode to. */
  datatype Attrs =
    | Raw(bytes: Blob)
    | Schedule(actType: string, tenant: string, input: Blob)
    | Outcome(sched: nat, success: bool, result: Blob)
    | FireAt(at: nat)
    | Fired(started: nat)
    | Signal(name: string, payload: Blob)
    | NextInput(input: Blob)

  datatype Event = Event(kind: EventKind, time: nat, attrs: Attrs)
  datatype EventKey = EventKey(run: nat, id: nat)

  datatype Run = Run(
    wfType: string, tenant: string, status: Status, epoch: nat, curSeq: nat, input: Blob,
    started: nat, lastEvent: nat, parent: nat, pending: bool)

  /** Runs, their histories and the activity done-markers. */
  datatype Engine = Engine(runs: map<nat, Run>, history: map<EventKey, Event>, done: set<EventKey>, nextRun: nat)

  // ----- The whole store -----

  datatype DedupKey = DedupKey(lane: string, key: string)
  datatype DedupRow = DedupRow(id: nat, expiry: nat)
  datatype SingletonRec = SingletonRec(holder: string, deadline: nat, fence: nat)

  datatype Db = Db(
    q: Queue, wf: Engine, tokens: map<Blob, nat>, dedup: map<DedupKey, DedupRow>,
    singletons: map<string, SingletonRec>)

  const EMPTY_DB: Db := Db(
    Queue(map[], map[], map[], map[], map[], 1), Engine(map[], map[], {}, 1), map[], map[], map[])
}
