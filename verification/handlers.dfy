/** What each command means: functions of the committed store (db), adding to the batch
    being built (b). Every read is of db, never of b. */
module Handlers {
  import opened Bytes
  import opened Store
  import opened Commands
  import opened Backoff

  const ACTIVITY_LANE: string := "__act/"
  const WORKFLOW_LANE: string := "__wf/"

  // ----- Publishing -----

  function Knobs(c: PublishCmd, gm: GroupMeta): GroupMeta {
    var w := if c.weight.Some? then c.weight.value else gm.weight;
    gm.(weight := if w == 0.0 then 1.0 else w,
        batchSize := if c.batchSize.Some? && c.batchSize.value > 0 then c.batchSize.value else gm.batchSize)
  }

  function NewMessage(c: PublishCmd, id: nat): Message {
    Message(MsgKey(c.group, id), c.payload, c.headers, c.notBefore,
            if c.ttlExpiry > c.now then c.ttlExpiry - c.now else 0,
            0, c.maxAttempts, c.now, if c.notBefore > c.now then Delayed else Ready, 0, 0,
            c.issueToken, c.externalToken)
  }

  function MetaAfterPublish(c: PublishCmd, gm: GroupMeta): GroupMeta {
    var k := Knobs(c, gm);
    if c.notBefore > c.now
    then k.(nextSeq := gm.nextSeq + 1, total := gm.total + 1, lastActivity := c.now, delayed := gm.delayed + 1)
    else k.(nextSeq := gm.nextSeq + 1, total := gm.total + 1, lastActivity := c.now, ready := gm.ready + 1)
  }

  /** One message and its timers; the caller persists the group's meta. */
  function PublishOne(q: Queue, c: PublishCmd, gm: GroupMeta): Queue {
    var m := NewMessage(c, gm.nextSeq);
    var q1 := if c.notBefore > c.now then AddTimer(q, c.notBefore, ReadyAt(m.key), m.epoch) else q;
    var q2 := if c.ttlExpiry > c.now then AddTimer(q1, c.ttlExpiry, MsgExpiry(m.key), 0) else q1;
    PutMsg(q2, m)
  }

  /** The id a live dedup window answers with. */
  function CheckDedup(dedup: map<DedupKey, DedupRow>, c: PublishCmd): Option<nat> {
    var k := DedupKey(c.group.lane, c.dedupKey);
    if k in dedup && dedup[k].expiry > c.now then Some(dedup[k].id) else None
  }

  /** The item's dedup window, if it has one that is still open. */
  function RecordDedup(b: Db, c: PublishCmd, id: nat): Db {
    if c.dedupKey == "" || c.dedupExpiry <= c.now then b
    else b.(dedup := b.dedup[DedupKey(c.group.lane, c.dedupKey) := DedupRow(id, c.dedupExpiry)],
            q := AddTimer(b.q, c.dedupExpiry, DedupExpiry(c.group.lane, c.dedupKey), 0))
  }

  /** One message published under the group's meta. */
  function Publishing(b: Db, c: PublishCmd, gm: GroupMeta): Db {
    b.(q := PutMeta(PublishOne(b.q, c, gm), c.group, MetaAfterPublish(c, gm)))
  }

  function ApplyPublish(db: Db, b: Db, c: PublishCmd): Applied {
    if c.dedupKey != "" && CheckDedup(db.dedup, c).Some? then
      Applied(b, Published(CheckDedup(db.dedup, c).value, true))
    else
      var gm := LoadMeta(db.q, c.group);
      Applied(RecordDedup(Publishing(b, c, gm), c, gm.nextSeq), Published(gm.nextSeq, false))
  }

  // ----- Batches -----

  /** The group metas a batch has touched, by joined name, and its own dedup keys. */
  datatype BatchState = BatchState(
    b: Db, cache: map<string, (Group, GroupMeta)>, order: seq<string>, seen: map<string, nat>, items: seq<ItemResult>)

  function Joined(a: string, b: string): string {
    a + "\0" + b
  }

  /** One more published item, under the cached meta of group g. */
  function BatchAdd(s: BatchState, c: PublishCmd, g: Group, gm: GroupMeta): BatchState {
    var dk, gk := Joined(c.group.lane, c.dedupKey), Joined(c.group.lane, c.group.name);
    BatchState(
      RecordDedup(s.b.(q := PublishOne(s.b.q, c, gm)), c, gm.nextSeq),
      s.cache[gk := (g, MetaAfterPublish(c, gm))],
      if gk in s.cache then s.order else s.order + [gk],
      if c.dedupKey != "" then s.seen[dk := gm.nextSeq] else s.seen,
      s.items + [ItemResult(gm.nextSeq, false)])
  }

  function BatchItem(db: Db, s: BatchState, c: PublishCmd): BatchState {
    var dk, gk := Joined(c.group.lane, c.dedupKey), Joined(c.group.lane, c.group.name);
    if c.dedupKey != "" && CheckDedup(db.dedup, c).Some? then
      s.(items := s.items + [ItemResult(CheckDedup(db.dedup, c).value, true)])
    else if c.dedupKey != "" && dk in s.seen then
      s.(items := s.items + [ItemResult(s.seen[dk], true)])
    else if gk in s.cache then BatchAdd(s, c, s.cache[gk].0, s.cache[gk].1)
    else BatchAdd(s, c, c.group, LoadMeta(db.q, c.group))
  }

  function BatchUpTo(db: Db, b: Db, items: seq<PublishCmd>, n: nat): BatchState
    requires n <= |items|
  {
    if n == 0 then BatchState(b, map[], [], map[], []) else BatchItem(db, BatchUpTo(db, b, items, n - 1), items[n - 1])
  }

  /** The cached metas are written last, in the order their groups first appeared. */
  function Persisted(q: Queue, cache: map<string, (Group, GroupMeta)>, order: seq<string>): Queue {
    if order == [] then q
    else
      var q1, k := Persisted(q, cache, order[..|order| - 1]), order[|order| - 1];
      if k in cache then PutMeta(q1, cache[k].0, cache[k].1) else q1
  }

  function ApplyPublishBatch(db: Db, b: Db, items: seq<PublishCmd>): Applied {
    var s := BatchUpTo(db, b, items, |items|);
    Applied(s.b.(q := Persisted(s.b.q, s.cache, s.order)), Batched(s.items))
  }

  // ----- Leasing -----

  /** The least element of a set of ids. */
  ghost function Least(s: set<nat>): (r: Option<nat>)
    ensures s == {} <==> r.None?
    ensures r.Some? ==> r.value in s && forall x :: x in s ==> r.value <= x
    decreases s
  {
    if s == {} then None
    else
      var x :| x in s;
      match Least(s - {x})
      case None => assert s == {x}; Some(x)
      case Some(y) => assert s == (s - {x}) + {x}; Some(if x < y then x else y)
  }

  function ReadyIds(q: Queue, g: Group): set<nat> {
    set k | k in q.messages && k.group == g && q.messages[k].state == Ready :: k.id
  }

  /** The lowest-id ready message of a group. */
  ghost function HeadReady(q: Queue, g: Group): Option<nat> {
    Least(ReadyIds(q, g))
  }

  ghost function ApplyLease(db: Db, b: Db, c: Command): Applied
    requires c.LeaseNext?
  {
    match HeadReady(db.q, c.group)
    case None => Applied(b, Nothing)
    case Some(id) =>
      var l, key := db.q.nextLease, MsgKey(c.group, id);
      var m := db.q.messages[key];
      var m' := m.(state := Leased, curLease := l, epoch := Bump32(m.epoch));
      var gm := if c.group in db.q.groups then db.q.groups[c.group] else ZERO_META;
      var q1 := AddTimer(b.q.(nextLease := l + 1), c.deadline, LeaseDeadline(l), m'.epoch);
      var q2 := if c.maxLife > 0 then AddTimer(q1, c.maxLife, LeaseMaxLife(l), 0) else q1;
      var q3 := q2.(messages := q2.messages[key := m']);
      var q4 := PutLease(q3, l, Lease(key, c.consumer, c.deadline, m.attempt, m'.epoch, 0, [], c.deadline));
      Applied(b.(q := PutMeta(q4, c.group, gm.(ready := Decr(gm.ready), inflight := gm.inflight + 1))),
              LeaseGranted(l, m', c.deadline))
  }

  /** Remove the lease's completion-token row, if it carries one. */
  function DropToken(b: Db, row: Lease): Db {
    if row.token == [] then b else b.(tokens := b.tokens - {row.token})
  }

  /** Remove the lease row, its token and its deadline timer. */
  function EndLease(b: Db, l: nat, row: Lease): Db {
    var b1 := DropToken(b.(q := DropLease(b.q, l)), row);
    b1.(q := DelTimer(b1.q, row.deadline, LeaseDeadline(l)))
  }

  function ApplyAck(db: Db, b: Db, l: nat): Applied {
    if l !in db.q.leases then Applied(b, Acked(false))
    else
      var row := db.q.leases[l];
      var b1 := EndLease(b.(q := DropMsg(b.q, row.key)), l, row);
      if row.key.group in db.q.groups then
        var gm := db.q.groups[row.key.group];
        Applied(b1.(q := PutMeta(b1.q, row.key.group, gm.(inflight := Decr(gm.inflight), total := Decr(gm.total)))),
            Acked(true))
      else Applied(b1, Acked(true))
  }

  /** The lease still holds its message. */
  predicate Holds(q: Queue, l: nat) {
    l in q.leases && q.leases[l].key in q.messages
    && q.messages[q.leases[l].key].state == Leased && q.messages[q.leases[l].key].curLease == l
  }

  /** The group's meta, or zeroes if it has none. */
  function MetaOrZero(q: Queue, g: Group): GroupMeta {
    if g in q.groups then q.groups[g] else ZERO_META
  }

  /** Written back only if the group had a meta. */
  function PutIfKnown(db: Db, b: Db, g: Group, gm: GroupMeta): Db {
    if g in db.q.groups then b.(q := PutMeta(b.q, g, gm)) else b
  }

  /** Requeue a message: ready now, or delayed with a timer if readyAt is in the future. */
  function MakeReady(q: Queue, m: Message, gm: GroupMeta, readyAt: nat, now: nat): (Queue, GroupMeta) {
    var m1 := m.(curLease := 0, epoch := Bump32(m.epoch));
    if readyAt > now then
      var m2 := m1.(state := Delayed);
      (PutMsg(AddTimer(q, readyAt, ReadyAt(m.key), m2.epoch), m2), gm.(delayed := gm.delayed + 1))
    else
      (PutMsg(q, m1.(state := Ready)), gm.(ready := gm.ready + 1))
  }

  function Ascii(s: string): Blob {
    seq(|s|, i requires 0 <= i < |s| => (s[i] as int) % 256)
  }

  /** Move a message to the dead letters. A dead activity task is reported to its run as a
      failure, in the same batch. */
  function DeadLetterMsg(db: Db, b: Db, m: Message, reason: string, meta: map<string, string>, ts: nat): Db {
    var b1 := b.(q := DropMsg(PutDead(b.q, DlqKey(m.key, ts), DeadLetter(m, m.attempt, reason, meta, ts)), m.key));
    if ACTIVITY_LANE <= m.key.group.lane && m.payload.ActTask? && m.payload.run != 0 then
      RecordActivityTerminal(db, b1, m.payload.run, m.payload.sched, true, Ascii("activity_dead_lettered: " + reason),
          ts).b
    else b1
  }

  function MaxAttempts(m: Message): nat {
    if m.maxAttempts == 0 then DEFAULT_MAX_ATTEMPTS else m.maxAttempts
  }

  /** A dead letter's counters: out of flight and out of the total. */
  function NackDead(db: Db, b: Db, m: Message, gm: GroupMeta, reason: string, meta: map<string, string>,
          now: nat): Applied {
    var b1 := DeadLetterMsg(db, b, m, reason, meta, now);
    Applied(PutIfKnown(db, b1, m.key.group, gm.(total := Decr(gm.total))), Nacked(true, true))
  }

  function NackReady(db: Db, b: Db, m: Message, gm: GroupMeta, readyAt: nat, now: nat): Applied {
    var (q1, gm1) := MakeReady(b.q, m, gm, readyAt, now);
    Applied(PutIfKnown(db, b.(q := q1), m.key.group, gm1), Nacked(true, false))
  }

  function ApplyNack(db: Db, b: Db, l: nat, mode: NackMode, delay: nat, meta: map<string, string>, now: nat): Applied {
    if l !in db.q.leases then Applied(b, Nacked(false, false))
    else
      var row := db.q.leases[l];
      var b1 := EndLease(b, l, row);
      if !Holds(db.q, l) then Applied(b1, Nacked(false, false))
      else
        var m := db.q.messages[row.key];
        var gm0 := MetaOrZero(db.q, row.key.group);
        var gm := gm0.(inflight := Decr(gm0.inflight));
        match mode
        case Retry =>
          var m1 := m.(attempt := m.attempt + 1);
          if m1.attempt >= MaxAttempts(m) then NackDead(db, b1, m1, gm, "max_attempts", meta, now)
          else NackReady(db, b1, m1, gm, Add64(now, if delay > 0 then delay else BackoffMs(m.key.id, m1.attempt)), now)
        case DeadLetterNow => NackDead(db, b1, m, gm, "terminal_nack", meta, now)
        case RequeueNoPenalty => NackReady(db, b1, m, gm, Add64(now, delay), now)
  }

  function ApplyExtend(db: Db, b: Db, l: nat, deadline: nat): Applied {
    if !Holds(db.q, l) then Applied(b, LeaseExtended(false))
    else
      var row := db.q.leases[l];
      var m := db.q.messages[row.key];
      var epoch := Bump32(m.epoch);
      var q1 := AddTimer(DelTimer(b.q, row.deadline, LeaseDeadline(l)), deadline, LeaseDeadline(l), epoch);
      var q2 := q1.(messages := q1.messages[row.key := m.(epoch := epoch)]);
      Applied(b.(q := PutLease(q2, l, row.(deadline := deadline, extendCount := row.extendCount + 1, epoch := epoch))),
              LeaseExtended(true))
  }

  // ----- Timers -----

  /** A delayed message becomes ready, if the row's epoch is still the message's. */
  function FireReadyAt(db: Db, b: Db, key: MsgKey, epoch: nat): Db {
    if key in db.q.messages && db.q.messages[key].state == Delayed && db.q.messages[key].epoch == epoch then
      var m := db.q.messages[key];
      var b1 := if key.group in db.q.groups
                then var gm := db.q.groups[key.group];
                     b.(q := PutMeta(b.q, key.group, gm.(ready := gm.ready + 1, delayed := Decr(gm.delayed))))
                else b;
      b1.(q := b1.q.(messages := b1.q.messages[key := m.(state := Ready, epoch := Bump32(m.epoch))]))
    else b
  }

  /** A visibility timeout reclaims the lease; it does not burn a retry. */
  function FireDeadline(db: Db, b: Db, l: nat, epoch: nat, fireAt: nat): Db {
    if Holds(db.q, l) && db.q.messages[db.q.leases[l].key].epoch == epoch then
      var row := db.q.leases[l];
      var b1 := DropToken(b.(q := DropLease(b.q, l)), row);
      var gm0 := MetaOrZero(db.q, row.key.group);
      NackReady(db, b1, db.q.messages[row.key], gm0.(inflight := Decr(gm0.inflight)), fireAt, fireAt).b
    else b
  }

  /** The lifetime cap dead-letters the message whatever its lease's extensions. */
  function FireMaxLife(db: Db, b: Db, l: nat, fireAt: nat): Db {
    if Holds(db.q, l) then
      var row := db.q.leases[l];
      var gm0 := MetaOrZero(db.q, row.key.group);
      NackDead(db, EndLease(b, l, row), db.q.messages[row.key], gm0.(inflight := Decr(gm0.inflight)),
               "max_lease_lifetime", map[], fireAt).b
    else b
  }

  /** An undelivered message expires. */
  function FireExpiry(db: Db, b: Db, key: MsgKey, fireAt: nat): Db {
    if key in db.q.messages && db.q.messages[key].state != Leased then
      var m := db.q.messages[key];
      var gm0 := MetaOrZero(db.q, key.group);
      var gm := if m.state == Ready then gm0.(ready := Decr(gm0.ready)) else gm0.(delayed := Decr(gm0.delayed));
      NackDead(db, b, m, gm, "ttl", map[], fireAt).b
    else b
  }

  /** A closed dedup window is swept; a renewed one survives its older timer. */
  function FireDedup(db: Db, b: Db, lane: string, key: string, fireAt: nat): Db {
    var k := DedupKey(lane, key);
    if k in db.dedup && db.dedup[k].expiry <= fireAt then b.(dedup := b.dedup - {k}) else b
  }

  /** A fire acts only if its row is still there, and always removes it. */
  function ApplyFire(db: Db, b: Db, t: Timer, fireAt: nat): Applied {
    if t !in db.q.timers then Applied(b, NoResult)
    else
      var epoch := db.q.timers[t];
      var b1 := match t.ref
        case ReadyAt(key) => FireReadyAt(db, b, key, epoch)
        case LeaseDeadline(l) => FireDeadline(db, b, l, epoch, fireAt)
        case LeaseMaxLife(l) => FireMaxLife(db, b, l, fireAt)
        case WfFired(run, started) => AppendExternal(db, b, run, TimerFired, Fired(started), fireAt)
        case MsgExpiry(key) => FireExpiry(db, b, key, fireAt)
        case DedupExpiry(lane, key) => FireDedup(db, b, lane, key, fireAt);
      Applied(b1.(q := DelTimer(b1.q, t.due, t.ref)), NoResult)
  }

  // ----- Control -----

  function ApplyGroupConfig(db: Db, b: Db, g: Group, weight: Option<real>, batchSize: Option<nat>): Applied {
    var gm := LoadMeta(db.q, g);
    var w := if weight.Some? then weight.value else gm.weight;
    var gm' := gm.(weight := if w == 0.0 then 1.0 else w,
                   batchSize := if batchSize.Some? && batchSize.value > 0 then batchSize.value else gm.batchSize);
    Applied(b.(q := PutMeta(b.q, g, gm')), GroupDone(0))
  }

  function Droppable(q: Queue, g: Group): set<MsgKey> {
    set k | k in q.messages && k.group == g && q.messages[k].state != Leased
  }

  /** Delete every ready and delayed message of a group; leases drain. */
  function DropLeasable(db: Db, b: Db, g: Group, gm: GroupMeta): Applied {
    var dropped := Droppable(db.q, g);
    var total := if gm.total >= |dropped| then gm.total - |dropped| else gm.inflight;
    var q1 := b.q.(messages := b.q.messages - dropped);
    Applied(b.(q := PutMeta(q1, g, gm.(ready := 0, delayed := 0, total := total))), GroupDone(|dropped|))
  }

  function ApplyLifecycle(db: Db, b: Db, g: Group, op: GroupOp): Applied {
    if g !in db.q.groups then Applied(b, GroupDone(0))
    else
      var gm := db.q.groups[g];
      match op
      case Pause => Applied(b.(q := PutMeta(b.q, g, gm.(paused := true))), GroupDone(0))
      case Resume => Applied(b.(q := PutMeta(b.q, g, gm.(paused := false))), GroupDone(0))
      case _ => DropLeasable(db, b, g, gm)
  }

  function ApplyIssueToken(db: Db, b: Db, l: nat, hash: Blob): Applied {
    if l !in db.q.leases then Applied(b, Acked(false))
    else
      Applied(b.(q := PutLease(b.q, l, db.q.leases[l].(token := hash)), tokens := b.tokens[hash := l]), Acked(true))
  }

  function ApplyComplete(db: Db, b: Db, hash: Blob, success: bool, meta: map<string, string>, delay: nat,
          now: nat): Applied {
    if hash !in db.tokens then Applied(b, TokenCompleted(false, false, true))
    else
      var l := db.tokens[hash];
      var b1 := b.(tokens := b.tokens - {hash});
      if success then
        var r := ApplyAck(db, b1, l);
        Applied(r.b, TokenCompleted(r.res.Acked? && r.res.ok, false, false))
      else
        var r := ApplyNack(db, b1, l, Retry, delay, meta, now);
        Applied(r.b, TokenCompleted(r.res.Nacked? && r.res.ok, r.res.Nacked? && r.res.deadLettered, false))
  }

  function ApplySingleton(db: Db, b: Db, op: SingletonOp, name: string, holder: string, ttl: nat, fence: nat,
          now: nat): Applied {
    var found := name in db.singletons;
    var rec := if found then db.singletons[name] else SingletonRec("", 0, 0);
    match op
    case Acquire =>
      if found && rec.holder != "" && rec.deadline > now && rec.holder != holder then
        Applied(b, SingletonIs(false, rec.fence, rec.holder))
      else
        Applied(b.(singletons := b.singletons[name := SingletonRec(holder, Add64(now, ttl), rec.fence + 1)]),
                SingletonIs(true, rec.fence + 1, holder))
    case Renew =>
      if !found || rec.holder != holder || rec.fence != fence then Applied(b, SingletonIs(false, rec.fence, rec.holder))
      else
        Applied(b.(singletons := b.singletons[name := rec.(deadline := Add64(now, ttl))]),
                SingletonIs(true, rec.fence, holder))
    case Release =>
      if found && rec.holder == holder && rec.fence == fence then
        Applied(b.(singletons := b.singletons[name := rec.(holder := "", deadline := 0)]), SingletonIs(true, 0, ""))
      else Applied(b, SingletonIs(false, 0, ""))
  }

  function DeadStamps(q: Queue, key: MsgKey): set<nat> {
    set d | d in q.dlq && d.key == key && q.dlq[d].original.key.id == key.id :: d.deadTs
  }

  function RedriveCmd(g: Group, m: Message, now: nat): PublishCmd {
    PublishCmd(g, m.payload, m.headers, None, None, m.maxAttempts, 0, 0, now, m.issueToken, m.externalToken, "", 0)
  }

  /** Re-publish a dead letter as a fresh message and delete its row. */
  ghost function ApplyRedrive(db: Db, b: Db, g: Group, id: nat, now: nat): Applied {
    var key := MsgKey(g, id);
    match Least(DeadStamps(db.q, key))
    case None => Applied(b, Redriven(false, 0))
    case Some(ts) =>
      var d := DlqKey(key, ts);
      var c := RedriveCmd(g, db.q.dlq[d].original, now);
      var gm := LoadMeta(db.q, g);
      var q1 := PutMeta(PublishOne(b.q, c, gm), g, MetaAfterPublish(c, gm));
      Applied(b.(q := q1.(dlq := q1.dlq - {d})), Redriven(true, gm.nextSeq))
  }

  // ----- Durable execution -----

  /** An immediately leasable message, from the group's committed meta. */
  function PublishReady(db: Db, b: Db, g: Group, payload: Payload, now: nat): Db {
    var gm0 := LoadMeta(db.q, g);
    var gm := gm0.(weight := if gm0.weight == 0.0 then 1.0 else gm0.weight, nextSeq := gm0.nextSeq + 1,
                   total := gm0.total + 1, ready := gm0.ready + 1, lastActivity := now);
    var m := Message(MsgKey(g, gm0.nextSeq), payload, map[], 0, 0, 0, 0, now, Ready, 0, 0, false, None);
    b.(q := PutMeta(PutMsg(b.q, m), g, gm))
  }

  function Digits(n: nat): string {
    (if n < 10 then "" else Digits(n / 10)) + [('0' as int + n % 10) as char]
  }

  /** The group of a run's workflow tasks: its type's lane, its id in decimal. */
  function TaskGroup(wfType: string, run: nat): Group {
    Group(WORKFLOW_LANE + wfType, Digits(run))
  }

  /** Publish a workflow task for a run that needs a decision, unless one is pending. */
  function DispatchTask(db: Db, b: Db, id: nat, run: Run): (Db, Run) {
    if run.status != WfRunning || run.pending then (b, run)
    else
      (PublishReady(db, b, TaskGroup(run.wfType, id), WfTask(id, run.wfType), run.lastEvent), run.(pending := true))
  }

  function PutRun(b: Db, id: nat, run: Run): Db {
    b.(wf := b.wf.(runs := b.wf.runs[id := run]))
  }

  function PutEvent(b: Db, run: nat, id: nat, e: Event): Db {
    b.(wf := b.wf.(history := b.wf.history[EventKey(run, id) := e]))
  }

  function CreateRun(db: Db, b: Db, wfType: string, tenant: string, input: Blob, parent: nat, now: nat): Db {
    var id := db.wf.nextRun;
    var run := Run(wfType, tenant, WfRunning, 0, 1, input, now, now, parent, false);
    var b1 := b.(wf := b.wf.(nextRun := id + 1));
    var b2 := PutEvent(b1, id, 1, Event(WorkflowStarted, now, Raw(input)));
    var (b3, run') := DispatchTask(db, b2, id, run);
    PutRun(b3, id, run')
  }

  function ApplyStartRun(db: Db, b: Db, wfType: string, tenant: string, input: Blob, parent: nat, now: nat): Applied {
    Applied(CreateRun(db, b, wfType, tenant, input, parent, now), Started(db.wf.nextRun))
  }

  function ActivityGroup(actType: string, tenant: string): Group {
    Group(ACTIVITY_LANE + actType, tenant)
  }

  /** Publish the task of an ACTIVITY_SCHEDULED event; malformed attributes dispatch nothing. */
  function DispatchActivity(db: Db, b: Db, run: nat, sched: nat, attrs: Attrs): Db {
    if !attrs.Schedule? || attrs.actType == "" then b
    else PublishReady(db, b, ActivityGroup(attrs.actType, attrs.tenant),
        ActTask(run, sched, attrs.actType, attrs.input), 0)
  }

  function ArmWfTimer(b: Db, run: nat, started: nat, attrs: Attrs): Db {
    if !attrs.FireAt? || attrs.at == 0 then b else b.(q := AddTimer(b.q, attrs.at, WfFired(run, started), 0))
  }

  /** The status an event leaves the run in. */
  function StatusAfter(kind: EventKind, s: Status): Status {
    match kind
    case WorkflowCompleted => WfCompleted
    case WorkflowFailed => WfFailed
    case WorkflowCanceled => WfCanceled
    case WorkflowContinuedAsNew => WfContinued
    case _ => s
  }

  function NextInputOf(attrs: Attrs): Blob {
    if attrs.NextInput? then attrs.input else []
  }

  /** One appended event and its side effect. */
  function AppendOne(db: Db, b: Db, id: nat, run: Run, at: nat, e: EventIn, now: nat): Db {
    var b1 := PutEvent(b, id, at, Event(e.kind, now, e.attrs));
    match e.kind
    case ActivityScheduled => DispatchActivity(db, b1, id, at, e.attrs)
    case TimerStarted => ArmWfTimer(b1, id, at, e.attrs)
    case WorkflowContinuedAsNew => CreateRun(db, b1, run.wfType, run.tenant, NextInputOf(e.attrs), id, now)
    case _ => b1
  }

  function AppendUpTo(db: Db, b: Db, id: nat, run: Run, events: seq<EventIn>, now: nat, n: nat): Db
    requires n <= |events|
  {
    if n == 0 then b
    else AppendOne(db, AppendUpTo(db, b, id, run, events, now, n - 1), id, run, run.curSeq + n, events[n - 1], now)
  }

  function StatusUpTo(events: seq<EventIn>, s: Status, n: nat): Status
    requires n <= |events|
  {
    if n == 0 then s else StatusAfter(events[n - 1].kind, StatusUpTo(events, s, n - 1))
  }

  /** The run after a committed append: its task is complete and its generation advances. */
  function RunAfterAppend(run: Run, events: seq<EventIn>, now: nat): Run {
    run.(status := StatusUpTo(events, run.status, |events|), curSeq := run.curSeq + |events|,
         epoch := Bump32(run.epoch), lastEvent := now, pending := false)
  }

  /** Append a task's events if (epoch, seq) is still the run's version. */
  function ApplyAppend(db: Db, b: Db, id: nat, epoch: nat, atSeq: nat, events: seq<EventIn>, now: nat): Applied {
    if id !in db.wf.runs then Applied(b, Appended(false, "missing", 0))
    else
      var run := db.wf.runs[id];
      if run.status != WfRunning then Applied(b, Appended(false, "closed", 0))
      else if epoch != run.epoch || atSeq != run.curSeq then Applied(b, Appended(false, "stale", 0))
      else
        Applied(PutRun(AppendUpTo(db, b, id, run, events, now, |events|), id, RunAfterAppend(run, events, now)),
                Appended(true, "", run.curSeq + |events|))
  }

  /** A run advanced by one external event: any task in flight is superseded. */
  function Advanced(run: Run, now: nat): Run {
    run.(curSeq := run.curSeq + 1, epoch := Bump32(run.epoch), lastEvent := now, pending := false)
  }

  /** Append an event on the leader's authority and dispatch a fresh task. */
  function AppendExternal(db: Db, b: Db, id: nat, kind: EventKind, attrs: Attrs, now: nat): Db {
    if id !in db.wf.runs || db.wf.runs[id].status != WfRunning then b
    else
      var run := Advanced(db.wf.runs[id], now);
      var (b1, run') := DispatchTask(db, PutEvent(b, id, run.curSeq, Event(kind, now, attrs)), id, run);
      PutRun(b1, id, run')
  }

  /** Record an activity's outcome at most once. */
  function RecordActivityTerminal(db: Db, b: Db, id: nat, sched: nat, failed: bool, result: Blob, now: nat): Applied {
    if id !in db.wf.runs then Applied(b, Appended(false, "missing", 0))
    else
      var run := db.wf.runs[id];
      if run.status != WfRunning then Applied(b, Appended(false, "closed", 0))
      else if EventKey(id, sched) in db.wf.done then Applied(b, Appended(false, "duplicate_completion", 0))
      else if EventKey(id, sched) !in db.wf.history || db.wf.history[EventKey(id, sched)].kind != ActivityScheduled then
        Applied(b, Appended(false, "invalid_completion", 0))
      else
        var kind := if failed then ActivityFailed else ActivityCompleted;
        var b1 := b.(wf := b.wf.(done := b.wf.done + {EventKey(id, sched)}));
        Applied(AppendExternal(db, b1, id, kind, Outcome(sched, !failed, result), now),
                Appended(true, "", run.curSeq + 1))
  }

  function ApplySignal(db: Db, b: Db, id: nat, name: string, payload: Blob, now: nat): Applied {
    Applied(AppendExternal(db, b, id, SignalReceived, Signal(name, payload), now), Appended(true, "", 0))
  }

  function ApplyCancel(db: Db, b: Db, id: nat, reason: Blob, now: nat): Applied {
    if id !in db.wf.runs then Applied(b, Appended(false, "missing", 0))
    else if db.wf.runs[id].status != WfRunning then Applied(b, Appended(false, "closed", 0))
    else
      var run := Advanced(db.wf.runs[id], now).(status := WfCanceled);
      Applied(PutRun(PutEvent(b, id, run.curSeq, Event(WorkflowCanceled, now, Raw(reason))), id, run),
              Appended(true, "", run.curSeq))
  }

  // ----- One command -----

  /** The batch a command builds on a committed store, and its result. */
  ghost function Step(db: Db, c: Command): Applied {
    match c
    case Publish(p) => ApplyPublish(db, db, p)
    case PublishBatch(items) => ApplyPublishBatch(db, db, items)
    case LeaseNext(_, _, _, _) => ApplyLease(db, db, c)
    case Ack(l) => ApplyAck(db, db, l)
    case Nack(l, mode, delay, meta, now) => ApplyNack(db, db, l, mode, delay, meta, now)
    case ExtendLease(l, deadline) => ApplyExtend(db, db, l, deadline)
    case Fire(t, fireAt) => ApplyFire(db, db, t, fireAt)
    case GroupConfig(g, weight, batchSize) => ApplyGroupConfig(db, db, g, weight, batchSize)
    case Lifecycle(g, op) => ApplyLifecycle(db, db, g, op)
    case IssueToken(l, hash) => ApplyIssueToken(db, db, l, hash)
    case Complete(hash, success, meta, delay, now) => ApplyComplete(db, db, hash, success, meta, delay, now)
    case Singleton(op, name, holder, ttl, fence, now) => ApplySingleton(db, db, op, name, holder, ttl, fence, now)
    case Redrive(g, id, now) => ApplyRedrive(db, db, g, id, now)
    case StartRun(wfType, tenant, input, parent, now) => ApplyStartRun(db, db, wfType, tenant, input, parent, now)
    case AppendEvents(run, epoch, atSeq, events, now) => ApplyAppend(db, db, run, epoch, atSeq, events, now)
    case CompleteActivity(run, sched, success, result, now) =>
      RecordActivityTerminal(db, db, run, sched, !success, result, now)
    case SignalRun(run, name, payload, now) => ApplySignal(db, db, run, name, payload, now)
    case CancelRun(run, reason, now) => ApplyCancel(db, db, run, reason, now)
    case Unknown(_) => Applied(db, NoResult)
  }
}
