/** The life of one message: what each command does to it, from the command and the message
    alone, and what that makes of whole runs. */
module Lifecycle {
  import opened Bytes
  import opened Store
  import opened Commands
  import opened Handlers
  import opened History
  import B = Batch
  import M = Moves
  import S = Safety
  import T = Steps
  import Backoff

  /** What a command does to a live message. A requeued one is due later, or at once. */
  datatype Fate =
    | Stays
    | Leaves
    | Handed(lease: nat)
    | Requeued(attempt: nat, due: Option<nat>)
    | Extended
    | Ripens

  /** The lease is on this message. */
  predicate Names(q: Queue, l: nat, k: MsgKey) {
    l in q.leases && q.leases[l].key == k
  }

  /** The oldest ready message of its group. */
  ghost predicate Oldest(q: Queue, k: MsgKey) {
    && k in q.messages && q.messages[k].state == Ready
    && forall x :: x in q.messages && x.group == k.group && q.messages[x].state == Ready ==> k.id <= x.id
  }

  /** A message's limit of attempts; one published without any has three. */
  function Limit(m: Message): (n: nat)
    ensures n > 0
  {
    if m.maxAttempts == 0 then 3 else m.maxAttempts
  }

  /** When a wait from now is over, if that lies ahead; stamps have 64 bits. */
  function DueIn(now: nat, wait: nat): Option<nat> {
    var at := (now + wait) % 0x1_0000_0000_0000_0000;
    if at > now then Some(at) else None
  }

  function RetryFate(m: Message, delay: nat, now: nat): Fate {
    if m.attempt + 1 >= Limit(m) then Leaves
    else Requeued(m.attempt + 1, DueIn(now, if delay > 0 then delay else Backoff.BackoffMs(m.key.id, m.attempt + 1)))
  }

  function NackFate(m: Message, mode: NackMode, delay: nat, now: nat): Fate {
    match mode
    case Retry => RetryFate(m, delay, now)
    case RequeueNoPenalty => Requeued(m.attempt, DueIn(now, delay))
    case DeadLetterNow => Leaves
  }

  ghost function FireFate(q: Queue, t: Timer, k: MsgKey): Fate
    requires k in q.messages
  {
    match t.ref
    case ReadyAt(x) => if x == k then Ripens else Stays
    case LeaseDeadline(l) => if Names(q, l, k) then Requeued(q.messages[k].attempt, None) else Stays
    case LeaseMaxLife(l) => if Names(q, l, k) then Leaves else Stays
    case MsgExpiry(x) => if x == k && q.messages[k].state != Leased then Leaves else Stays
    case _ => Stays
  }

  ghost function FateOf(db: Db, c: Command, k: MsgKey): Fate
    requires k in db.q.messages
  {
    var q, m := db.q, db.q.messages[k];
    match c
    case LeaseNext(g, _, _, _) => if k.group == g && Oldest(q, k) then Handed(q.nextLease) else Stays
    case Ack(l) => if Names(q, l, k) then Leaves else Stays
    case Nack(l, mode, delay, _, now) => if Names(q, l, k) then NackFate(m, mode, delay, now) else Stays
    case Complete(hash, success, _, delay, now) =>
      if hash !in db.tokens || !Names(q, db.tokens[hash], k) then Stays
      else if success then Leaves
      else RetryFate(m, delay, now)
    case ExtendLease(l, _) => if Names(q, l, k) then Extended else Stays
    case Fire(t, _) => if t in q.timers then FireFate(q, t, k) else Stays
    case Lifecycle(g, op) =>
      if (op.CancelGroup? || op.PurgeGroup?) && k.group == g && m.state != Leased then Leaves else Stays
    case _ => Stays
  }

  /** The message its fate leaves. Every change but staying put takes it to its next epoch. */
  function AfterFate(m: Message, f: Fate): Option<Message> {
    var next := m.(epoch := (m.epoch + 1) % 0x1_0000_0000);
    match f
    case Stays => Some(m)
    case Leaves => None
    case Handed(l) => Some(next.(state := Leased, curLease := l))
    case Requeued(attempt, due) =>
      Some(next.(state := if due.Some? then Delayed else Ready, curLease := 0, attempt := attempt))
    case Extended => Some(next)
    case Ripens => Some(next.(state := Ready))
  }

  function At(q: Queue, k: MsgKey): Option<Message> {
    if k in q.messages then Some(q.messages[k]) else None
  }

  // ----- Commands that only add -----

  /** A message as a publish or a dispatch leaves it. */
  predicate Young(m: Message) {
    m.attempt == 0 && m.epoch == 0 && m.curLease == 0 && m.state != Leased
  }

  /** From q to q', message k stays as it is, or is new to q0 and young. */
  ghost predicate Added(q0: Queue, q: Queue, q': Queue, k: MsgKey) {
    At(q', k) == At(q, k) || (!M.Known(q0, k) && k in q'.messages && Young(q'.messages[k]))
  }

  lemma TaskUntouched(db: Db, b: Db, g: Group, payload: Payload, now: nat, k: MsgKey)
    ensures Added(db.q, b.q, PublishReady(db, b, g, payload, now).q, k)
  {
  }

  lemma DispatchUntouched(db: Db, b: Db, id: nat, run: Run, k: MsgKey)
    ensures Added(db.q, b.q, DispatchTask(db, b, id, run).0.q, k)
  {
    hide TaskGroup;
    hide PublishReady;
    TaskUntouched(db, b, TaskGroup(run.wfType, id), WfTask(id, run.wfType), run.lastEvent, k);
  }

  lemma ExternalUntouched(db: Db, b: Db, id: nat, kind: EventKind, attrs: Attrs, now: nat, k: MsgKey)
    ensures Added(db.q, b.q, AppendExternal(db, b, id, kind, attrs, now).q, k)
  {
    hide DispatchTask;
    if id in db.wf.runs {
      var run := Advanced(db.wf.runs[id], now);
      DispatchUntouched(db, PutEvent(b, id, run.curSeq, Event(kind, now, attrs)), id, run, k);
    }
  }

  lemma TerminalUntouched(db: Db, b: Db, id: nat, sched: nat, failed: bool, result: Blob, now: nat, k: MsgKey)
    ensures Added(db.q, b.q, RecordActivityTerminal(db, b, id, sched, failed, result, now).b.q, k)
  {
    hide AppendExternal;
    var b1 := b.(wf := b.wf.(done := b.wf.done + {EventKey(id, sched)}));
    ExternalUntouched(db, b1, id, if failed then ActivityFailed else ActivityCompleted, Outcome(sched, !failed, result),
        now, k);
  }

  lemma CreateUntouched(db: Db, b: Db, wfType: string, tenant: string, input: Blob, parent: nat, now: nat, k: MsgKey)
    ensures Added(db.q, b.q, CreateRun(db, b, wfType, tenant, input, parent, now).q, k)
  {
    hide DispatchTask;
    var id := db.wf.nextRun;
    var run := Run(wfType, tenant, WfRunning, 0, 1, input, now, now, parent, false);
    var b2 := PutEvent(b.(wf := b.wf.(nextRun := id + 1)), id, 1, Event(WorkflowStarted, now, Raw(input)));
    DispatchUntouched(db, b2, id, run, k);
  }

  lemma EventUntouched(db: Db, b: Db, id: nat, run: Run, at: nat, e: EventIn, now: nat, k: MsgKey)
    ensures Added(db.q, b.q, AppendOne(db, b, id, run, at, e, now).q, k)
  {
    hide CreateRun;
    hide PublishReady;
    var b1 := PutEvent(b, id, at, Event(e.kind, now, e.attrs));
    CreateUntouched(db, b1, run.wfType, run.tenant, NextInputOf(e.attrs), id, now, k);
    if e.attrs.Schedule? {
      TaskUntouched(db, b1, ActivityGroup(e.attrs.actType, e.attrs.tenant),
          ActTask(id, at, e.attrs.actType, e.attrs.input), 0, k);
    }
  }

  lemma {:induction false} EventsUntouched(db: Db, id: nat, run: Run, events: seq<EventIn>, now: nat, n: nat, k: MsgKey)
    requires n <= |events|
    ensures Added(db.q, db.q, AppendUpTo(db, db, id, run, events, now, n).q, k)
    decreases n
  {
    hide AppendOne;
    if n > 0 {
      EventsUntouched(db, id, run, events, now, n - 1, k);
      EventUntouched(db, AppendUpTo(db, db, id, run, events, now, n - 1), id, run, run.curSeq + n, events[n - 1], now,
          k);
    }
  }

  lemma EngineUntouched(db: Db, c: Command, k: MsgKey)
    requires c.StartRun? || c.AppendEvents? || c.CompleteActivity? || c.SignalRun? || c.CancelRun?
    ensures Added(db.q, db.q, Step(db, c).b.q, k)
  {
    hide CreateRun;
    hide AppendUpTo;
    hide AppendExternal;
    hide RecordActivityTerminal;
    if c.StartRun? {
      CreateUntouched(db, db, c.wfType, c.tenant, c.input, c.parent, c.now, k);
    } else if c.AppendEvents? {
      if c.run in db.wf.runs { EventsUntouched(db, c.run, db.wf.runs[c.run], c.events, c.now, |c.events|, k); }
    } else if c.CompleteActivity? {
      TerminalUntouched(db, db, c.run, c.sched, !c.success, c.result, c.now, k);
    } else if c.SignalRun? {
      ExternalUntouched(db, db, c.run, SignalReceived, Signal(c.name, c.payload), c.now, k);
    }
  }

  lemma PublishOneRows(q: Queue, c: PublishCmd, gm: GroupMeta)
    ensures var q' := PublishOne(q, c, gm);
            q'.messages == q.messages[MsgKey(c.group, gm.nextSeq) := NewMessage(c, gm.nextSeq)] && q'.groups == q.groups
  {
  }

  lemma RecordRows(b: Db, c: PublishCmd, id: nat)
    ensures var b' := RecordDedup(b, c, id); b'.q.messages == b.q.messages && b'.q.groups == b.q.groups
  {
  }

  lemma AcceptRows(d: Db, c: PublishCmd)
    ensures var gm, q := LoadMeta(d.q, c.group), B.Accept(d, c).q;
            && q.messages == d.q.messages[MsgKey(c.group, gm.nextSeq) := NewMessage(c, gm.nextSeq)]
            && q.groups == d.q.groups[c.group := MetaAfterPublish(c, gm)]
  {
    hide NewMessage;
    hide MetaAfterPublish;
    hide PublishOne;
    hide RecordDedup;
    var gm := LoadMeta(d.q, c.group);
    PublishOneRows(d.q, c, gm);
    RecordRows(Publishing(d, c, gm), c, gm.nextSeq);
  }

  lemma NewIsYoung(c: PublishCmd, id: nat)
    ensures Young(NewMessage(c, id)) && NewMessage(c, id).key == MsgKey(c.group, id)
  {
  }

  lemma AcceptUntouched(d: Db, c: PublishCmd, k: MsgKey)
    ensures Added(d.q, d.q, B.Accept(d, c).q, k) && (M.Known(d.q, k) ==> M.Known(B.Accept(d, c).q, k))
  {
    hide B.Accept;
    hide NewMessage;
    hide MetaAfterPublish;
    hide Young;
    AcceptRows(d, c);
    S.NextSeqAfter(c, LoadMeta(d.q, c.group));
    NewIsYoung(c, LoadMeta(d.q, c.group).nextSeq);
  }

  lemma {:induction false} BatchUntouched(db: Db, items: seq<PublishCmd>, n: nat, k: MsgKey)
    requires B.Apart(B.GroupsOf(items)) && n <= |items|
    ensures var s := BatchUpTo(db, db, items, n);
            && B.CacheOk(s, B.GroupsOf(items)) && s.b.q.groups == db.q.groups
            && Added(db.q, db.q, B.View(s).q, k) && (M.Known(db.q, k) ==> M.Known(B.View(s).q, k))
    decreases n
  {
    hide BatchItem;
    hide B.Accept;
    hide B.Apart;
    hide B.Skipped;
    hide M.Known;
    if n == 0 {
      assert B.View(BatchUpTo(db, db, items, 0)) == db;
    } else {
      BatchUntouched(db, items, n - 1, k);
      var s := BatchUpTo(db, db, items, n - 1);
      B.ItemView(db, s, items[n - 1], B.GroupsOf(items));
      AcceptUntouched(B.View(s), items[n - 1], k);
    }
  }

  lemma PublishUntouched(db: Db, c: Command, k: MsgKey)
    requires M.Inv(db.q) && T.Allowed(c) && (c.Publish? || c.PublishBatch? || c.Redrive?)
    ensures Added(db.q, db.q, Step(db, c).b.q, k)
  {
    hide M.Inv;
    hide Added;
    if c.PublishBatch? {
      BatchUntouched(db, c.items, |c.items|, k);
      hide BatchUpTo;
      hide M.Known;
      B.Finish(db, c.items);
      hide ApplyPublishBatch;
    } else if c.Publish? {
      AcceptUntouched(db, c.p, k);
      SelfAdded(db.q, k);
      hide CheckDedup;
      hide RecordDedup;
      hide Publishing;
    } else {
      RedriveUntouched(db, c, k);
      hide Step;
    }
  }

  lemma SelfAdded(q: Queue, k: MsgKey)
    ensures Added(q, q, q, k)
  {
  }

  lemma RedriveUntouched(db: Db, c: Command, k: MsgKey)
    requires M.Inv(db.q) && c.Redrive?
    ensures Added(db.q, db.q, Step(db, c).b.q, k)
  {
    hide M.Inv;
    hide ApplyRedrive;
    hide S.IsDead;
    S.RedriveExact(db, c.group, c.id, c.now);
    assert Step(db, c) == ApplyRedrive(db, db, c.group, c.id, c.now);
    hide Step;
    if S.IsDead(db.q, MsgKey(c.group, c.id)) {
      var d: DlqKey :| d.key == MsgKey(c.group, c.id)
          && S.Redrove(db, Step(db, c).b, d, LoadMeta(db.q, c.group).nextSeq, c.now);
    }
  }

  // ----- Leases and their ends -----

  lemma HeadIsOldest(db: Db, g: Group, k: MsgKey)
    requires M.Inv(db.q) && k.group == g && k in db.q.messages
    ensures HeadReady(db.q, g) == Some(k.id) <==> Oldest(db.q, k)
  {
    hide M.Inv;
    S.ReadyCountFindsHead(db.q, g);
    if Oldest(db.q, k) { assert k.id in ReadyIds(db.q, g); }
  }

  lemma GrantRows(db: Db, c: Command, k: MsgKey)
    requires c.LeaseNext? && k in db.q.messages
    requires HeadReady(db.q, c.group).Some? ==> MsgKey(c.group, HeadReady(db.q, c.group).value) in db.q.messages
    ensures At(Step(db, c).b.q, k) ==
              if k.group == c.group && HeadReady(db.q, c.group) == Some(k.id)
              then AfterFate(db.q.messages[k], Handed(db.q.nextLease)) else Some(db.q.messages[k])
  {
    hide HeadReady;
    hide Least;
  }

  lemma LeaseFate(db: Db, c: Command, k: MsgKey)
    requires M.Inv(db.q) && c.LeaseNext? && k in db.q.messages
    ensures At(Step(db, c).b.q, k) == AfterFate(db.q.messages[k], FateOf(db, c, k))
  {
    hide M.Inv;
    hide HeadReady;
    hide Oldest;
    hide Step;
    if k.group == c.group { HeadIsOldest(db, c.group, k); }
    S.ReadyCountFindsHead(db.q, c.group);
    GrantRows(db, c, k);
  }

  lemma EndRows(b: Db, l: nat, row: Lease)
    ensures EndLease(b, l, row).q.messages == b.q.messages
  {
  }

  lemma AckFate(db: Db, b: Db, l: nat, k: MsgKey)
    requires k in db.q.messages && b.q == db.q
    ensures At(ApplyAck(db, b, l).b.q, k) == if Names(db.q, l, k) then None else Some(db.q.messages[k])
  {
    hide EndLease;
    if l in db.q.leases { EndRows(b.(q := DropMsg(b.q, db.q.leases[l].key)), l, db.q.leases[l]); }
  }

  lemma DeadRows(db: Db, b: Db, m: Message, gm: GroupMeta, reason: string, meta: map<string, string>, ts: nat,
          k: MsgKey)
    requires M.Known(db.q, m.key)
    ensures var q' := NackDead(db, b, m, gm, reason, meta, ts).b.q;
            if k == m.key then At(q', k) == None else Added(db.q, b.q, q', k)
  {
    hide RecordActivityTerminal;
    var b1 := b.(q := DropMsg(PutDead(b.q, DlqKey(m.key, ts), DeadLetter(m, m.attempt, reason, meta, ts)), m.key));
    if m.payload.ActTask? {
      TerminalUntouched(db, b1, m.payload.run, m.payload.sched, true, Ascii("activity_dead_lettered: " + reason), ts,
          k);
    }
  }

  lemma ReadyRows(db: Db, b: Db, m: Message, gm: GroupMeta, at: nat, now: nat, k: MsgKey)
    ensures At(NackReady(db, b, m, gm, at, now).b.q, k) ==
              if k == m.key
              then Some(m.(curLease := 0, epoch := (m.epoch + 1) % 0x1_0000_0000,
                           state := if at > now then Delayed else Ready))
              else At(b.q, k)
  {
  }

  lemma NackRows(db: Db, b: Db, l: nat, mode: NackMode, delay: nat, meta: map<string, string>, now: nat, k: MsgKey)
    requires M.Inv(db.q) && k in db.q.messages && b.q == db.q
    ensures At(ApplyNack(db, b, l, mode, delay, meta, now).b.q, k) ==
              if Names(db.q, l, k) then AfterFate(db.q.messages[k], NackFate(db.q.messages[k], mode, delay, now))
              else Some(db.q.messages[k])
  {
    hide M.Inv;
    hide M.KeysOk;
    hide M.Known;
    hide NackDead;
    hide NackReady;
    hide EndLease;
    hide Backoff.BackoffMs;
    T.LiveIsKnown(db.q, k);
    if l in db.q.leases {
      T.HeldTarget(db.q, l);
      var row := db.q.leases[l];
      var m, gm0 := db.q.messages[row.key], MetaOrZero(db.q, row.key.group);
      var m1, gm := m.(attempt := m.attempt + 1), gm0.(inflight := Decr(gm0.inflight));
      var b1 := EndLease(b, l, row);
      EndRows(b, l, row);
      DeadRows(db, b1, m1, gm, "max_attempts", meta, now, k);
      DeadRows(db, b1, m, gm, "terminal_nack", meta, now, k);
      var wait := if delay > 0 then delay else Backoff.BackoffMs(m.key.id, m1.attempt);
      ReadyRows(db, b1, m1, gm, Add64(now, wait), now, k);
      ReadyRows(db, b1, m, gm, Add64(now, delay), now, k);
    }
  }

  lemma CompleteFate(db: Db, c: Command, k: MsgKey)
    requires M.Inv(db.q) && c.Complete? && k in db.q.messages
    ensures At(Step(db, c).b.q, k) == AfterFate(db.q.messages[k], FateOf(db, c, k))
  {
    hide M.Inv;
    hide ApplyAck;
    hide ApplyNack;
    hide RetryFate;
    if c.hash in db.tokens {
      var b := db.(tokens := db.tokens - {c.hash});
      AckFate(db, b, db.tokens[c.hash], k);
      NackRows(db, b, db.tokens[c.hash], Retry, c.delay, c.meta, c.now, k);
    }
  }

  lemma ExtendRows(db: Db, l: nat, deadline: nat, k: MsgKey)
    requires k in db.q.messages && (l in db.q.leases ==> Holds(db.q, l))
    ensures At(ApplyExtend(db, db, l, deadline).b.q, k) ==
              AfterFate(db.q.messages[k], if Names(db.q, l, k) then Extended else Stays)
  {
  }

  lemma ExtendFate(db: Db, c: Command, k: MsgKey)
    requires M.Inv(db.q) && c.ExtendLease? && k in db.q.messages
    ensures At(Step(db, c).b.q, k) == AfterFate(db.q.messages[k], FateOf(db, c, k))
  {
    hide M.Inv;
    hide ApplyExtend;
    hide Holds;
    if c.lease in db.q.leases { T.HeldTarget(db.q, c.lease); }
    ExtendRows(db, c.lease, c.deadline, k);
  }

  // ----- Timers -----

  lemma ReadyAtFate(db: Db, x: MsgKey, epoch: nat, k: MsgKey)
    requires k in db.q.messages
    ensures At(FireReadyAt(db, db, x, epoch).q, k) ==
              if x == k && db.q.messages[k].state == Delayed && db.q.messages[k].epoch == epoch
              then AfterFate(db.q.messages[k], Ripens) else Some(db.q.messages[k])
  {
  }

  lemma DeadlineFate(db: Db, l: nat, epoch: nat, fireAt: nat, k: MsgKey)
    requires M.Inv(db.q) && k in db.q.messages && (l in db.q.leases ==> db.q.leases[l].epoch == epoch)
    ensures At(FireDeadline(db, db, l, epoch, fireAt).q, k) ==
              AfterFate(db.q.messages[k], if Names(db.q, l, k) then Requeued(db.q.messages[k].attempt, None) else Stays)
  {
    hide M.Inv;
    hide NackReady;
    if l in db.q.leases {
      T.HeldTarget(db.q, l);
      var row := db.q.leases[l];
      var b1, gm0 := DropToken(db.(q := DropLease(db.q, l)), row), MetaOrZero(db.q, row.key.group);
      ReadyRows(db, b1, db.q.messages[row.key], gm0.(inflight := Decr(gm0.inflight)), fireAt, fireAt, k);
    }
  }

  lemma MaxLifeFate(db: Db, l: nat, fireAt: nat, k: MsgKey)
    requires M.Inv(db.q) && k in db.q.messages
    ensures At(FireMaxLife(db, db, l, fireAt).q, k) == if Names(db.q, l, k) then None else Some(db.q.messages[k])
  {
    hide M.Inv;
    hide NackDead;
    hide EndLease;
    T.LiveIsKnown(db.q, k);
    if l in db.q.leases {
      T.HeldTarget(db.q, l);
      var row := db.q.leases[l];
      var gm0 := MetaOrZero(db.q, row.key.group);
      EndRows(db, l, row);
      DeadRows(db, EndLease(db, l, row), db.q.messages[row.key], gm0.(inflight := Decr(gm0.inflight)),
          "max_lease_lifetime", map[], fireAt, k);
    }
  }

  lemma ExpiryFate(db: Db, x: MsgKey, fireAt: nat, k: MsgKey)
    requires M.Inv(db.q) && k in db.q.messages
    ensures At(FireExpiry(db, db, x, fireAt).q, k) ==
              if x == k && db.q.messages[k].state != Leased then None else Some(db.q.messages[k])
  {
    hide M.Inv;
    hide NackDead;
    T.LiveIsKnown(db.q, k);
    T.LiveIsKnown(db.q, x);
    if x in db.q.messages {
      var m, gm0 := db.q.messages[x], MetaOrZero(db.q, x.group);
      var gm := if m.state == Ready then gm0.(ready := Decr(gm0.ready)) else gm0.(delayed := Decr(gm0.delayed));
      DeadRows(db, db, m, gm, "ttl", map[], fireAt, k);
    }
  }

  /** Under the invariant a row's epoch is the one it was armed at. */
  lemma RowEpochs(q: Queue, t: Timer)
    requires M.Inv(q) && t in q.timers
    ensures t.ref.ReadyAt? && t.ref.key in q.messages ==>
              q.messages[t.ref.key].state == Delayed && q.messages[t.ref.key].epoch == q.timers[t]
    ensures t.ref.LeaseDeadline? && t.ref.lease in q.leases ==> q.leases[t.ref.lease].epoch == q.timers[t]
  {
  }

  lemma FiredRows(db: Db, t: Timer, fireAt: nat)
    requires t in db.q.timers
    ensures Step(db, Fire(t, fireAt)).b.q.messages == T.Fired1(db, t, fireAt).q.messages
  {
    hide FireReadyAt;
    hide FireDeadline;
    hide FireMaxLife;
    hide FireExpiry;
    hide FireDedup;
    hide AppendExternal;
  }

  lemma FiredFate(db: Db, t: Timer, fireAt: nat, k: MsgKey)
    requires M.Inv(db.q) && t in db.q.timers && k in db.q.messages
    ensures At(T.Fired1(db, t, fireAt).q, k) == AfterFate(db.q.messages[k], FireFate(db.q, t, k))
  {
    hide M.Inv;
    hide M.Known;
    hide M.KeysOk;
    hide FireReadyAt;
    hide FireDeadline;
    hide FireMaxLife;
    hide FireExpiry;
    hide AppendExternal;
    hide Names;
    T.LiveIsKnown(db.q, k);
    RowEpochs(db.q, t);
    match t.ref
    case ReadyAt(x) => ReadyAtFate(db, x, db.q.timers[t], k);
    case LeaseDeadline(l) => DeadlineFate(db, l, db.q.timers[t], fireAt, k);
    case LeaseMaxLife(l) => MaxLifeFate(db, l, fireAt, k);
    case WfFired(run, started) => ExternalUntouched(db, db, run, TimerFired, Fired(started), fireAt, k);
    case MsgExpiry(x) => ExpiryFate(db, x, fireAt, k);
    case DedupExpiry(lane, key) =>
  }

  lemma FireStep(db: Db, c: Command, k: MsgKey)
    requires M.Inv(db.q) && c.Fire? && k in db.q.messages
    ensures At(Step(db, c).b.q, k) == AfterFate(db.q.messages[k], FateOf(db, c, k))
  {
    hide M.Inv;
    hide T.Fired1;
    hide FireFate;
    hide ApplyFire;
    if c.timer in db.q.timers {
      FiredFate(db, c.timer, c.fireAt, k);
      FiredRows(db, c.timer, c.fireAt);
    } else {
      NoRow(db, c);
    }
  }

  lemma NoRow(db: Db, c: Command)
    requires c.Fire? && c.timer !in db.q.timers
    ensures Step(db, c).b == db
  {
  }

  lemma LifecycleRows(db: Db, g: Group, op: GroupOp, k: MsgKey)
    requires k in db.q.messages && k.group in db.q.groups
    ensures At(ApplyLifecycle(db, db, g, op).b.q, k) ==
              if (op.CancelGroup? || op.PurgeGroup?) && k.group == g && db.q.messages[k].state != Leased then None
              else Some(db.q.messages[k])
  {
  }

  lemma LifecycleFate(db: Db, c: Command, k: MsgKey)
    requires M.Inv(db.q) && c.Lifecycle? && k in db.q.messages
    ensures At(Step(db, c).b.q, k) == AfterFate(db.q.messages[k], FateOf(db, c, k))
  {
    hide M.Inv;
    hide ApplyLifecycle;
    T.LiveIsKnown(db.q, k);
    LifecycleRows(db, c.group, c.op, k);
  }

  // ----- Every command -----

  lemma QuietFate(db: Db, c: Command, k: MsgKey)
    requires k in db.q.messages && (c.GroupConfig? || c.IssueToken? || c.Singleton? || c.Unknown?)
    ensures At(Step(db, c).b.q, k) == AfterFate(db.q.messages[k], FateOf(db, c, k))
  {
  }

  lemma AddingStays(db: Db, c: Command, k: MsgKey)
    requires k in db.q.messages
    requires c.Publish? || c.PublishBatch? || c.Redrive? || c.StartRun? || c.AppendEvents? || c.CompleteActivity?
             || c.SignalRun? || c.CancelRun?
    ensures FateOf(db, c, k) == Stays
  {
  }

  lemma EndingFate(db: Db, c: Command, k: MsgKey)
    requires M.Inv(db.q) && (c.Ack? || c.Nack?) && k in db.q.messages
    ensures At(Step(db, c).b.q, k) == AfterFate(db.q.messages[k], FateOf(db, c, k))
  {
    hide M.Inv;
    hide ApplyAck;
    hide ApplyNack;
    hide NackFate;
    if c.Ack? {
      AckFate(db, db, c.lease, k);
    } else {
      NackRows(db, db, c.lease, c.mode, c.delay, c.meta, c.now, k);
    }
  }

  /** What any command does to a live message is its fate, to the field. */
  lemma MessageStep(db: Db, c: Command, k: MsgKey)
    requires M.Inv(db.q) && T.Allowed(c) && k in db.q.messages
    ensures At(Step(db, c).b.q, k) == AfterFate(db.q.messages[k], FateOf(db, c, k))
  {
    hide M.Inv;
    hide M.Known;
    hide M.KeysOk;
    hide T.Allowed;
    hide Step;
    hide FateOf;
    T.LiveIsKnown(db.q, k);
    if c.Publish? || c.PublishBatch? || c.Redrive? {
      AddingStays(db, c, k);
      PublishUntouched(db, c, k);
    } else if c.StartRun? || c.AppendEvents? || c.CompleteActivity? || c.SignalRun? || c.CancelRun? {
      AddingStays(db, c, k);
      EngineUntouched(db, c, k);
    } else if c.LeaseNext? {
      LeaseFate(db, c, k);
    } else if c.Ack? || c.Nack? {
      EndingFate(db, c, k);
    } else if c.Complete? {
      CompleteFate(db, c, k);
    } else if c.ExtendLease? {
      ExtendFate(db, c, k);
    } else if c.Fire? {
      FireStep(db, c, k);
    } else if c.Lifecycle? {
      LifecycleFate(db, c, k);
    } else {
      QuietFate(db, c, k);
    }
  }

  // ----- What the caller is told -----

  /** The lease's message leaves by this nack. */
  predicate NackBuries(q: Queue, l: nat, mode: NackMode, delay: nat, now: nat) {
    l in q.leases && q.leases[l].key in q.messages && NackFate(q.messages[q.leases[l].key], mode, delay, now).Leaves?
  }

  /** Every ready or delayed message of the group. */
  function Waiting(q: Queue, g: Group): set<MsgKey> {
    set k | k in q.messages && k.group == g && q.messages[k].state != Leased
  }

  lemma NackTold(db: Db, b: Db, l: nat, mode: NackMode, delay: nat, meta: map<string, string>, now: nat)
    requires M.Inv(db.q) && b.q == db.q
    ensures ApplyNack(db, b, l, mode, delay, meta, now).res ==
              Nacked(l in db.q.leases, NackBuries(db.q, l, mode, delay, now))
  {
    hide M.Inv;
    hide Backoff.BackoffMs;
    hide DeadLetterMsg;
    hide MakeReady;
    hide EndLease;
    if l in db.q.leases { T.HeldTarget(db.q, l); }
  }

  /** Acks, nacks, extensions, tokens and completions succeed exactly on a lease that still
      stands; a nack says it buried its message exactly when it did. */
  lemma LeaseTold(db: Db, c: Command)
    requires M.Inv(db.q)
    ensures var res, leases := Step(db, c).res, db.q.leases;
            match c
            case Ack(l) => res == Acked(l in leases)
            case Nack(l, mode, delay, _, now) => res == Nacked(l in leases, NackBuries(db.q, l, mode, delay, now))
            case ExtendLease(l, _) => res == LeaseExtended(l in leases)
            case IssueToken(l, _) => res == Acked(l in leases)
            case Complete(hash, success, _, delay, now) =>
              if hash !in db.tokens then res == TokenCompleted(false, false, true)
              else
                var l := db.tokens[hash];
                res == TokenCompleted(l in leases, !success && NackBuries(db.q, l, Retry, delay, now), false)
            case _ => true
  {
    hide M.Inv;
    hide ApplyNack;
    hide NackBuries;
    hide EndLease;
    match c
    case Nack(l, mode, delay, meta, now) => NackTold(db, db, l, mode, delay, meta, now);
    case Complete(hash, success, meta, delay, now) =>
      if hash in db.tokens {
        NackTold(db, db.(tokens := db.tokens - {hash}), db.tokens[hash], Retry, delay, meta, now);
      }
    case ExtendLease(l, deadline) => if l in db.q.leases { T.HeldTarget(db.q, l); }
    case _ =>
  }

  /** A lease is granted exactly when the group has a ready message: its oldest, under a new
      lease, until the deadline asked for. */
  lemma GrantTold(db: Db, c: Command)
    requires M.Inv(db.q) && c.LeaseNext?
    ensures var res := Step(db, c).res;
            if forall k :: k in db.q.messages && k.group == c.group ==> db.q.messages[k].state != Ready
            then res == Nothing && Step(db, c).b == db
            else res.LeaseGranted? && res.lease == db.q.nextLease && res.deadline == c.deadline
                 && res.msg.key.group == c.group && Oldest(db.q, res.msg.key)
                 && Some(res.msg) == AfterFate(db.q.messages[res.msg.key], Handed(db.q.nextLease))
  {
    hide M.Inv;
    var head := HeadReady(db.q, c.group);
    S.ReadyCountFindsHead(db.q, c.group);
    if head.Some? {
      var k := MsgKey(c.group, head.value);
      T.LiveIsKnown(db.q, k);
      HeadIsOldest(db, c.group, k);
      GrantRow(db, c, k);
      hide Step;
      hide HeadReady;
    } else {
      forall k | k in db.q.messages && k.group == c.group ensures db.q.messages[k].state != Ready {
        NotReady(db.q, k);
      }
      hide HeadReady;
    }
  }

  lemma NotReady(q: Queue, k: MsgKey)
    requires HeadReady(q, k.group).None? && k in q.messages
    ensures q.messages[k].state != Ready
  {
    assert q.messages[k].state == Ready ==> k.id in ReadyIds(q, k.group);
  }

  lemma GrantRow(db: Db, c: Command, k: MsgKey)
    requires c.LeaseNext? && k.group == c.group && HeadReady(db.q, c.group) == Some(k.id) && k in db.q.messages
    ensures Step(db, c).res.LeaseGranted?
    ensures var r, q' := Step(db, c).res, Step(db, c).b.q;
            && r == LeaseGranted(db.q.nextLease, r.msg, c.deadline)
            && Some(r.msg) == AfterFate(db.q.messages[k], Handed(db.q.nextLease))
            && q'.leases == db.q.leases[db.q.nextLease :=
                              Lease(k, c.consumer, c.deadline, r.msg.attempt, r.msg.epoch, 0, [], c.deadline)]
            && Timer(c.deadline, LeaseDeadline(db.q.nextLease)) in q'.timers
            && (c.maxLife > 0 ==> Timer(c.maxLife, LeaseMaxLife(db.q.nextLease)) in q'.timers)
  {
    hide HeadReady;
  }

  /** Pausing, resuming and configuring touch the group's knobs alone; a purge or cancel says
      how many messages it took, every one that was not leased. */
  lemma ControlTold(db: Db, c: Command)
    requires c.Lifecycle? || c.GroupConfig?
    ensures var res, b := Step(db, c).res, Step(db, c).b;
            var known := c.group in db.q.groups;
            match c
            case Lifecycle(g, op) =>
              && res == GroupDone(if known && (op.CancelGroup? || op.PurgeGroup?) then |Waiting(db.q, g)| else 0)
              && (!known ==> b == db)
              && (known && op.Pause? ==> b == db.(q := PutMeta(db.q, g, db.q.groups[g].(paused := true))))
              && (known && op.Resume? ==> b == db.(q := PutMeta(db.q, g, db.q.groups[g].(paused := false))))
              && (g in b.q.groups ==> known && b.q.groups[g].weight == db.q.groups[g].weight)
            case GroupConfig(g, weight, batchSize) =>
              && res == GroupDone(0) && b == db.(q := PutMeta(db.q, g, b.q.groups[g])) && g in b.q.groups
              && b.q.groups[g] ==
                   LoadMeta(db.q, g).(weight := b.q.groups[g].weight, batchSize := b.q.groups[g].batchSize)
              && (weight.Some? && weight.value != 0.0 ==> b.q.groups[g].weight == weight.value)
              && (weight == Some(0.0) ==> b.q.groups[g].weight == 1.0)
              && (weight.None? && LoadMeta(db.q, g).weight != 0.0 ==> b.q.groups[g].weight == LoadMeta(db.q, g).weight)
              && (batchSize.Some? && batchSize.value > 0 ==> b.q.groups[g].batchSize == batchSize.value)
              && (batchSize.None? || batchSize.value == 0 ==> b.q.groups[g].batchSize == LoadMeta(db.q, g).batchSize)
            case _ => true
  {
    if c.Lifecycle? { assert Droppable(db.q, c.group) == Waiting(db.q, c.group); }
  }

  // ----- New messages -----

  /** What a publish puts under its id: what it was given, with no attempt behind it, ready
      unless its time lies ahead. */
  predicate IsPublished(m: Message, c: PublishCmd, id: nat) {
    && m.key == MsgKey(c.group, id) && m.payload == c.payload && m.headers == c.headers
    && m.maxAttempts == c.maxAttempts && m.attempt == 0 && m.enqueued == c.now && m.epoch == 0 && m.curLease == 0
    && m.notBefore == c.notBefore && m.issueToken == c.issueToken && m.externalToken == c.externalToken
    && m.state == (if c.notBefore > c.now then Delayed else Ready)
    && m.ttl + c.now == (if c.ttlExpiry > c.now then c.ttlExpiry else c.now)
  }

  /** A publish with no open window behind its key hands out the group's next id and stores
      what it was given under it, with its delay, its expiry and its own window armed. */
  lemma PublishStores(db: Db, c: PublishCmd)
    requires c.dedupKey == "" || CheckDedup(db.dedup, c).None?
    ensures var r, id := Step(db, Publish(c)), LoadMeta(db.q, c.group).nextSeq;
            var k := MsgKey(c.group, id);
            && r.res == Published(id, false)
            && k in r.b.q.messages && IsPublished(r.b.q.messages[k], c, id)
            && (c.notBefore > c.now ==> Timer(c.notBefore, ReadyAt(k)) in r.b.q.timers)
            && (c.ttlExpiry > c.now ==> Timer(c.ttlExpiry, MsgExpiry(k)) in r.b.q.timers)
            && (c.dedupKey != "" && c.dedupExpiry > c.now ==>
                  && Timer(c.dedupExpiry, DedupExpiry(c.group.lane, c.dedupKey)) in r.b.q.timers
                  && DedupKey(c.group.lane, c.dedupKey) in r.b.dedup
                  && r.b.dedup[DedupKey(c.group.lane, c.dedupKey)] == DedupRow(id, c.dedupExpiry))
  {
    hide CheckDedup;
    hide MetaAfterPublish;
    hide Step;
    PublishIs(db, c);
  }

  lemma PublishIs(db: Db, c: PublishCmd)
    requires c.dedupKey == "" || CheckDedup(db.dedup, c).None?
    ensures var gm := LoadMeta(db.q, c.group);
            Step(db, Publish(c)) ==
              Applied(RecordDedup(Publishing(db, c, gm), c, gm.nextSeq), Published(gm.nextSeq, false))
  {
    hide CheckDedup;
    hide Publishing;
    hide RecordDedup;
  }

  /** A publish whose key has an open window is answered with the id that window was opened
      for, and stores nothing. */
  lemma RepeatStoresNothing(db: Db, c: PublishCmd)
    requires c.dedupKey != "" && DedupKey(c.group.lane, c.dedupKey) in db.dedup
    requires db.dedup[DedupKey(c.group.lane, c.dedupKey)].expiry > c.now
    ensures Step(db, Publish(c)) == Applied(db, Published(db.dedup[DedupKey(c.group.lane, c.dedupKey)].id, true))
  {
  }

  // ----- Nothing else appears -----

  lemma NackAdds(db: Db, b: Db, l: nat, mode: NackMode, delay: nat, meta: map<string, string>, now: nat, k: MsgKey)
    requires M.Inv(db.q) && b.q == db.q && !M.Known(db.q, k)
    ensures Added(db.q, db.q, ApplyNack(db, b, l, mode, delay, meta, now).b.q, k)
  {
    hide M.Inv;
    hide M.KeysOk;
    hide M.Known;
    hide NackDead;
    hide NackReady;
    hide EndLease;
    hide Backoff.BackoffMs;
    hide Young;
    if l in db.q.leases {
      T.HeldTarget(db.q, l);
      var row := db.q.leases[l];
      T.LiveIsKnown(db.q, row.key);
      var m, gm0 := db.q.messages[row.key], MetaOrZero(db.q, row.key.group);
      var m1, gm := m.(attempt := m.attempt + 1), gm0.(inflight := Decr(gm0.inflight));
      var b1 := EndLease(b, l, row);
      EndRows(b, l, row);
      DeadRows(db, b1, m1, gm, "max_attempts", meta, now, k);
      DeadRows(db, b1, m, gm, "terminal_nack", meta, now, k);
      var wait := if delay > 0 then delay else Backoff.BackoffMs(m.key.id, m1.attempt);
      ReadyRows(db, b1, m1, gm, Add64(now, wait), now, k);
      ReadyRows(db, b1, m, gm, Add64(now, delay), now, k);
    }
  }

  lemma FiredAdds(db: Db, t: Timer, fireAt: nat, k: MsgKey)
    requires M.Inv(db.q) && t in db.q.timers && !M.Known(db.q, k)
    ensures Added(db.q, db.q, T.Fired1(db, t, fireAt).q, k)
  {
    hide M.Inv;
    hide M.KeysOk;
    hide M.Known;
    hide NackDead;
    hide NackReady;
    hide EndLease;
    hide AppendExternal;
    hide Young;
    match t.ref
    case ReadyAt(x) => T.LiveIsKnown(db.q, x);
    case LeaseDeadline(l) =>
      if l in db.q.leases {
        T.HeldTarget(db.q, l);
        var row := db.q.leases[l];
        T.LiveIsKnown(db.q, row.key);
        var b1, gm0 := DropToken(db.(q := DropLease(db.q, l)), row), MetaOrZero(db.q, row.key.group);
        ReadyRows(db, b1, db.q.messages[row.key], gm0.(inflight := Decr(gm0.inflight)), fireAt, fireAt, k);
      }
    case LeaseMaxLife(l) =>
      if l in db.q.leases {
        T.HeldTarget(db.q, l);
        var row := db.q.leases[l];
        T.LiveIsKnown(db.q, row.key);
        var gm0 := MetaOrZero(db.q, row.key.group);
        EndRows(db, l, row);
        DeadRows(db, EndLease(db, l, row), db.q.messages[row.key], gm0.(inflight := Decr(gm0.inflight)),
            "max_lease_lifetime", map[], fireAt, k);
      }
    case WfFired(run, started) => ExternalUntouched(db, db, run, TimerFired, Fired(started), fireAt, k);
    case MsgExpiry(x) =>
      T.LiveIsKnown(db.q, x);
      if x in db.q.messages {
        var m, gm0 := db.q.messages[x], MetaOrZero(db.q, x.group);
        var gm := if m.state == Ready then gm0.(ready := Decr(gm0.ready)) else gm0.(delayed := Decr(gm0.delayed));
        DeadRows(db, db, m, gm, "ttl", map[], fireAt, k);
      }
    case DedupExpiry(lane, key) =>
  }

  lemma AckKeys(db: Db, l: nat)
    ensures ApplyAck(db, db, l).b.q.messages.Keys <= db.q.messages.Keys
  {
    hide EndLease;
    if l in db.q.leases { EndRows(db.(q := DropMsg(db.q, db.q.leases[l].key)), l, db.q.leases[l]); }
  }

  lemma ExtendKeys(db: Db, l: nat, deadline: nat)
    ensures ApplyExtend(db, db, l, deadline).b.q.messages.Keys == db.q.messages.Keys
  {
  }

  lemma LifecycleKeys(db: Db, g: Group, op: GroupOp)
    ensures ApplyLifecycle(db, db, g, op).b.q.messages.Keys <= db.q.messages.Keys
  {
    hide Droppable;
  }

  lemma ControlKeys(db: Db, c: Command)
    requires c.Lifecycle? || c.GroupConfig? || c.IssueToken? || c.Singleton? || c.Unknown?
    ensures Step(db, c).b.q.messages.Keys <= db.q.messages.Keys
  {
    hide ApplySingleton;
    hide ApplyLifecycle;
    hide ApplyGroupConfig;
    hide ApplyIssueToken;
    if c.Singleton? {
      SingletonKeys(db, c);
    } else if c.Lifecycle? {
      LifecycleKeys(db, c.group, c.op);
    } else {
      RowsOnly(db, c);
      hide Step;
    }
  }

  lemma RowsOnly(db: Db, c: Command)
    requires c.GroupConfig? || c.IssueToken? || c.Unknown?
    ensures Step(db, c).b.q.messages == db.q.messages
  {
  }

  lemma SingletonKeys(db: Db, c: Command)
    requires c.Singleton?
    ensures ApplySingleton(db, db, c.sop, c.name, c.holder, c.ttl, c.fence, c.now).b.q == db.q
  {
  }

  lemma PlainKeys(db: Db, c: Command)
    requires c.Ack? || c.ExtendLease? || c.Lifecycle? || c.GroupConfig? || c.IssueToken? || c.Singleton? || c.Unknown?
    ensures Step(db, c).b.q.messages.Keys <= db.q.messages.Keys
  {
    hide ApplyAck;
    hide ApplyExtend;
    if c.Ack? {
      AckKeys(db, c.lease);
    } else if c.ExtendLease? {
      ExtendKeys(db, c.lease, c.deadline);
    } else {
      ControlKeys(db, c);
      hide Step;
    }
  }

  /** A message that appears is a new one, under an id its group has not handed out before,
      with no attempt behind it. */
  lemma NewStep(db: Db, c: Command, k: MsgKey)
    requires M.Inv(db.q) && T.Allowed(c) && !M.Known(db.q, k) && k in Step(db, c).b.q.messages
    ensures Young(Step(db, c).b.q.messages[k])
  {
    hide M.Inv;
    hide M.Known;
    hide M.KeysOk;
    hide T.Allowed;
    hide Step;
    hide Young;
    T.LiveIsKnown(db.q, k);
    if c.Publish? || c.PublishBatch? || c.Redrive? {
      PublishUntouched(db, c, k);
    } else if c.StartRun? || c.AppendEvents? || c.CompleteActivity? || c.SignalRun? || c.CancelRun? {
      EngineUntouched(db, c, k);
    } else {
      OtherAdds(db, c, k);
    }
  }

  lemma OtherAdds(db: Db, c: Command, k: MsgKey)
    requires M.Inv(db.q) && !M.Known(db.q, k)
    requires !c.Publish? && !c.PublishBatch? && !c.Redrive? && !c.StartRun? && !c.AppendEvents? && !c.CompleteActivity?
    requires !c.SignalRun? && !c.CancelRun?
    ensures k in Step(db, c).b.q.messages ==> Young(Step(db, c).b.q.messages[k])
  {
    hide M.Inv;
    hide M.Known;
    hide M.KeysOk;
    hide Young;
    hide ApplyNack;
    hide ApplyAck;
    hide ApplyFire;
    hide HeadReady;
    T.LiveIsKnown(db.q, k);
    forall x | x in db.q.messages ensures M.Known(db.q, x) { T.LiveIsKnown(db.q, x); }
    if c.Nack? {
      NackAdds(db, db, c.lease, c.mode, c.delay, c.meta, c.now, k);
    } else if c.Complete? {
      CompleteAdds(db, c, k);
      hide Step;
    } else if c.Fire? {
      if c.timer in db.q.timers {
        FiredAdds(db, c.timer, c.fireAt, k);
        FiredRows(db, c.timer, c.fireAt);
      } else {
        NoRow(db, c);
      }
      hide Step;
    } else if c.LeaseNext? {
      GrantTold(db, c);
      GrantKeys(db, c, k);
      hide Step;
    } else {
      PlainKeys(db, c);
      hide Step;
    }
  }

  lemma CompleteAdds(db: Db, c: Command, k: MsgKey)
    requires M.Inv(db.q) && !M.Known(db.q, k) && c.Complete?
    ensures Added(db.q, db.q, Step(db, c).b.q, k)
  {
    hide M.Inv;
    hide M.Known;
    hide ApplyNack;
    hide Young;
    T.LiveIsKnown(db.q, k);
    if c.hash in db.tokens {
      var b, l := db.(tokens := db.tokens - {c.hash}), db.tokens[c.hash];
      if c.success {
        if l in db.q.leases { EndRows(b.(q := DropMsg(b.q, db.q.leases[l].key)), l, db.q.leases[l]); }
        hide EndLease;
      } else {
        NackAdds(db, b, l, Retry, c.delay, c.meta, c.now, k);
      }
    }
  }

  lemma GrantKeys(db: Db, c: Command, k: MsgKey)
    requires M.Inv(db.q) && c.LeaseNext? && !M.Known(db.q, k)
    ensures k in Step(db, c).b.q.messages ==> k in db.q.messages
  {
    hide M.Inv;
    hide M.Known;
    hide HeadReady;
    S.ReadyCountFindsHead(db.q, c.group);
  }
}
