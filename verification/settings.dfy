/** A group's settings: its weight, its batch size and whether it is paused. What sets them,
    what leaves them alone, and what stands after a run. */
module Settings {
  import opened Bytes
  import opened Store
  import opened Commands
  import opened Handlers
  import opened History
  import M = Moves
  import S = Safety
  import T = Steps

  /** No stored weight is zero. */
  ghost predicate Weighed(q: Queue) {
    forall g :: g in q.groups ==> q.groups[g].weight != 0.0
  }

  predicate Same(gm: GroupMeta, gm': GroupMeta) {
    gm'.weight == gm.weight && gm'.batchSize == gm.batchSize && gm'.paused == gm.paused
  }

  /** Every group of q has the settings it had in q0, or those of a new group. */
  ghost predicate Held(q0: Queue, q: Queue) {
    && (forall g :: g in q0.groups ==> g in q.groups)
    && (forall g :: g in q.groups ==> Same(LoadMeta(q0, g), q.groups[g]))
  }

  // ----- Commands without settings -----

  lemma TaskHeld(db: Db, b: Db, g: Group, payload: Payload, now: nat)
    requires Weighed(db.q) && Held(db.q, b.q)
    ensures Held(db.q, PublishReady(db, b, g, payload, now).q)
  {
  }

  lemma DispatchHeld(db: Db, b: Db, id: nat, run: Run)
    requires Weighed(db.q) && Held(db.q, b.q)
    ensures Held(db.q, DispatchTask(db, b, id, run).0.q)
  {
    TaskHeld(db, b, TaskGroup(run.wfType, id), WfTask(id, run.wfType), run.lastEvent);
    hide PublishReady;
    hide Held;
  }

  lemma ExternalHeld(db: Db, b: Db, id: nat, kind: EventKind, attrs: Attrs, now: nat)
    requires Weighed(db.q) && Held(db.q, b.q)
    ensures Held(db.q, AppendExternal(db, b, id, kind, attrs, now).q)
  {
    if id in db.wf.runs {
      var run := Advanced(db.wf.runs[id], now);
      var b1 := PutEvent(b, id, run.curSeq, Event(kind, now, attrs));
      DispatchHeld(db, b1, id, run);
    }
    hide DispatchTask;
  }

  lemma TerminalHeld(db: Db, b: Db, id: nat, sched: nat, failed: bool, result: Blob, now: nat)
    requires Weighed(db.q) && Held(db.q, b.q)
    ensures Held(db.q, RecordActivityTerminal(db, b, id, sched, failed, result, now).b.q)
  {
    var b1 := b.(wf := b.wf.(done := b.wf.done + {EventKey(id, sched)}));
    ExternalHeld(db, b1, id, if failed then ActivityFailed else ActivityCompleted, Outcome(sched, !failed, result),
        now);
    hide AppendExternal;
    hide Held;
  }

  lemma CreateHeld(db: Db, b: Db, wfType: string, tenant: string, input: Blob, parent: nat, now: nat)
    requires Weighed(db.q) && Held(db.q, b.q)
    ensures Held(db.q, CreateRun(db, b, wfType, tenant, input, parent, now).q)
  {
    var id := db.wf.nextRun;
    var run := Run(wfType, tenant, WfRunning, 0, 1, input, now, now, parent, false);
    var b1 := b.(wf := b.wf.(nextRun := id + 1));
    DispatchHeld(db, PutEvent(b1, id, 1, Event(WorkflowStarted, now, Raw(input))), id, run);
    hide DispatchTask;
  }

  lemma EventHeld(db: Db, b: Db, id: nat, run: Run, at: nat, e: EventIn, now: nat)
    requires Weighed(db.q) && Held(db.q, b.q)
    ensures Held(db.q, AppendOne(db, b, id, run, at, e, now).q)
  {
    var b1 := PutEvent(b, id, at, Event(e.kind, now, e.attrs));
    CreateHeld(db, b1, run.wfType, run.tenant, NextInputOf(e.attrs), id, now);
    if e.attrs.Schedule? {
      TaskHeld(db, b1, ActivityGroup(e.attrs.actType, e.attrs.tenant),
          ActTask(id, at, e.attrs.actType, e.attrs.input), 0);
    }
    hide CreateRun;
    hide PublishReady;
  }

  lemma {:induction false} EventsHeld(db: Db, id: nat, run: Run, events: seq<EventIn>, now: nat, n: nat)
    requires n <= |events| && Weighed(db.q)
    ensures Held(db.q, AppendUpTo(db, db, id, run, events, now, n).q)
  {
    hide AppendOne;
    if n > 0 {
      EventsHeld(db, id, run, events, now, n - 1);
      EventHeld(db, AppendUpTo(db, db, id, run, events, now, n - 1), id, run, run.curSeq + n, events[n - 1], now);
      hide Held;
      hide Weighed;
    }
  }

  lemma EngineHeld(db: Db, c: Command)
    requires c.StartRun? || c.AppendEvents? || c.CompleteActivity? || c.SignalRun? || c.CancelRun?
    requires Weighed(db.q)
    ensures Held(db.q, Step(db, c).b.q)
  {
    hide RecordActivityTerminal;
    hide AppendUpTo;
    hide AppendExternal;
    hide CreateRun;
    match c
    case StartRun(wfType, tenant, input, parent, now) => CreateHeld(db, db, wfType, tenant, input, parent, now);
    case AppendEvents(run, epoch, atSeq, events, now) =>
      if run in db.wf.runs { EventsHeld(db, run, db.wf.runs[run], events, now, |events|); }
    case CompleteActivity(run, sched, success, result, now) =>
      TerminalHeld(db, db, run, sched, !success, result, now);
    case SignalRun(run, name, payload, now) => ExternalHeld(db, db, run, SignalReceived, Signal(name, payload), now);
    case CancelRun(_, _, _) =>
  }

  lemma EndHeld(db: Db, b: Db, l: nat, row: Lease)
    requires Held(db.q, b.q)
    ensures Held(db.q, EndLease(b, l, row).q)
  {
  }

  lemma DeadHeld(db: Db, b: Db, m: Message, gm: GroupMeta, reason: string, meta: map<string, string>, ts: nat)
    requires Weighed(db.q) && Held(db.q, b.q) && (m.key.group in db.q.groups ==> Same(db.q.groups[m.key.group], gm))
    ensures Held(db.q, NackDead(db, b, m, gm, reason, meta, ts).b.q)
  {
    hide RecordActivityTerminal;
    var b1 := b.(q := DropMsg(PutDead(b.q, DlqKey(m.key, ts), DeadLetter(m, m.attempt, reason, meta, ts)), m.key));
    if m.payload.ActTask? {
      TerminalHeld(db, b1, m.payload.run, m.payload.sched, true, Ascii("activity_dead_lettered: " + reason), ts);
    }
  }

  lemma ReadyHeld(db: Db, b: Db, m: Message, gm: GroupMeta, at: nat, now: nat)
    requires Held(db.q, b.q) && (m.key.group in db.q.groups ==> Same(db.q.groups[m.key.group], gm))
    ensures Held(db.q, NackReady(db, b, m, gm, at, now).b.q)
  {
  }

  lemma NackHeld(db: Db, b: Db, l: nat, mode: NackMode, delay: nat, meta: map<string, string>, now: nat)
    requires M.Inv(db.q) && Weighed(db.q) && Held(db.q, b.q)
    ensures Held(db.q, ApplyNack(db, b, l, mode, delay, meta, now).b.q)
  {
    hide M.Inv;
    hide NackDead;
    hide NackReady;
    hide EndLease;
    hide Held;
    hide Weighed;
    hide Backoff.BackoffMs;
    if l in db.q.leases {
      T.HeldTarget(db.q, l);
      var row := db.q.leases[l];
      T.LiveIsKnown(db.q, row.key);
      var m, gm0 := db.q.messages[row.key], MetaOrZero(db.q, row.key.group);
      var m1, gm := m.(attempt := m.attempt + 1), gm0.(inflight := Decr(gm0.inflight));
      var b1 := EndLease(b, l, row);
      EndHeld(db, b, l, row);
      DeadHeld(db, b1, m1, gm, "max_attempts", meta, now);
      DeadHeld(db, b1, m, gm, "terminal_nack", meta, now);
      var wait := if delay > 0 then delay else Backoff.BackoffMs(m.key.id, m1.attempt);
      ReadyHeld(db, b1, m1, gm, Add64(now, wait), now);
      ReadyHeld(db, b1, m, gm, Add64(now, delay), now);
    }
  }

  lemma AckHeld(db: Db, b: Db, l: nat)
    requires Held(db.q, b.q)
    ensures Held(db.q, ApplyAck(db, b, l).b.q)
  {
    hide EndLease;
    if l in db.q.leases {
      var row := db.q.leases[l];
      EndHeld(db, b.(q := DropMsg(b.q, row.key)), l, row);
    }
  }

  lemma CompleteHeld(db: Db, c: Command)
    requires M.Inv(db.q) && Weighed(db.q) && c.Complete?
    ensures Held(db.q, Step(db, c).b.q)
  {
    hide M.Inv;
    hide ApplyAck;
    hide ApplyNack;
    if c.hash in db.tokens {
      var b1 := db.(tokens := db.tokens - {c.hash});
      AckHeld(db, b1, db.tokens[c.hash]);
      NackHeld(db, b1, db.tokens[c.hash], Retry, c.delay, c.meta, c.now);
    }
    hide Held;
  }

  lemma DeadlineHeld(db: Db, l: nat, epoch: nat, fireAt: nat)
    requires M.Inv(db.q)
    ensures Held(db.q, FireDeadline(db, db, l, epoch, fireAt).q)
  {
    hide M.Inv;
    hide NackReady;
    if l in db.q.leases {
      var row := db.q.leases[l];
      T.HeldTarget(db.q, l);
      T.LiveIsKnown(db.q, row.key);
      var b1, gm0 := DropToken(db.(q := DropLease(db.q, l)), row), MetaOrZero(db.q, row.key.group);
      ReadyHeld(db, b1, db.q.messages[row.key], gm0.(inflight := Decr(gm0.inflight)), fireAt, fireAt);
    }
  }

  lemma MaxLifeHeld(db: Db, l: nat, fireAt: nat)
    requires M.Inv(db.q) && Weighed(db.q)
    ensures Held(db.q, FireMaxLife(db, db, l, fireAt).q)
  {
    hide M.Inv;
    hide NackDead;
    hide EndLease;
    if l in db.q.leases {
      var row := db.q.leases[l];
      T.HeldTarget(db.q, l);
      T.LiveIsKnown(db.q, row.key);
      var gm0 := MetaOrZero(db.q, row.key.group);
      EndHeld(db, db, l, row);
      DeadHeld(db, EndLease(db, l, row), db.q.messages[row.key], gm0.(inflight := Decr(gm0.inflight)),
          "max_lease_lifetime", map[], fireAt);
    }
  }

  lemma ExpiryHeld(db: Db, k: MsgKey, fireAt: nat)
    requires M.Inv(db.q) && Weighed(db.q)
    ensures Held(db.q, FireExpiry(db, db, k, fireAt).q)
  {
    hide M.Inv;
    hide NackDead;
    if k in db.q.messages {
      T.LiveIsKnown(db.q, k);
      var m, gm0 := db.q.messages[k], MetaOrZero(db.q, k.group);
      var gm := if m.state == Ready then gm0.(ready := Decr(gm0.ready)) else gm0.(delayed := Decr(gm0.delayed));
      DeadHeld(db, db, m, gm, "ttl", map[], fireAt);
    }
  }

  lemma ReadyAtHeld(db: Db, k: MsgKey, epoch: nat)
    ensures Held(db.q, FireReadyAt(db, db, k, epoch).q)
  {
  }

  lemma DedupHeld(db: Db, lane: string, key: string, fireAt: nat)
    ensures FireDedup(db, db, lane, key, fireAt).q == db.q && Held(db.q, db.q)
  {
  }

  lemma FiredHeld(db: Db, t: Timer, fireAt: nat)
    requires M.Inv(db.q) && Weighed(db.q) && t in db.q.timers
    ensures Held(db.q, T.Fired1(db, t, fireAt).q)
  {
    hide M.Inv;
    hide FireDeadline;
    hide FireMaxLife;
    hide FireExpiry;
    hide FireReadyAt;
    hide FireDedup;
    hide AppendExternal;
    match t.ref {
      case ReadyAt(k) => ReadyAtHeld(db, k, db.q.timers[t]);
      case LeaseDeadline(l) => DeadlineHeld(db, l, db.q.timers[t], fireAt);
      case LeaseMaxLife(l) => MaxLifeHeld(db, l, fireAt);
      case WfFired(run, started) => ExternalHeld(db, db, run, TimerFired, Fired(started), fireAt);
      case MsgExpiry(k) => ExpiryHeld(db, k, fireAt);
      case DedupExpiry(lane, key) => DedupHeld(db, lane, key, fireAt);
    }
    hide Held;
  }

  lemma FireHeld(db: Db, c: Command)
    requires M.Inv(db.q) && Weighed(db.q) && c.Fire?
    ensures Held(db.q, Step(db, c).b.q)
  {
    hide M.Inv;
    if c.timer in db.q.timers {
      FiredHeld(db, c.timer, c.fireAt);
      FiredGroups(db, c.timer, c.fireAt);
    }
  }

  lemma FiredGroups(db: Db, t: Timer, fireAt: nat)
    requires t in db.q.timers
    ensures ApplyFire(db, db, t, fireAt).b.q.groups == T.Fired1(db, t, fireAt).q.groups
  {
  }

  lemma GrantGroups(db: Db, c: Command)
    requires c.LeaseNext? && (HeadReady(db.q, c.group).Some? ==> c.group in db.q.groups)
    ensures Step(db, c).b.q.groups ==
              if HeadReady(db.q, c.group).None? then db.q.groups
              else
                var gm := db.q.groups[c.group];
                db.q.groups[c.group := gm.(ready := Decr(gm.ready), inflight := gm.inflight + 1)]
  {
    hide HeadReady;
  }

  lemma LeaseHeld(db: Db, c: Command)
    requires M.Inv(db.q) && c.LeaseNext?
    ensures Held(db.q, Step(db, c).b.q)
  {
    hide M.Inv;
    hide HeadReady;
    hide Step;
    S.ReadyCountFindsHead(db.q, c.group);
    var head := HeadReady(db.q, c.group);
    if head.Some? { T.LiveIsKnown(db.q, MsgKey(c.group, head.value)); }
    GrantGroups(db, c);
  }

  lemma RedriveHeld(db: Db, c: Command)
    requires Weighed(db.q) && c.Redrive?
    ensures Held(db.q, Step(db, c).b.q)
  {
    hide DeadStamps;
  }

  lemma PurgeHeld(db: Db, c: Command)
    requires c.Lifecycle? && !c.op.Pause? && !c.op.Resume?
    ensures Held(db.q, Step(db, c).b.q)
  {
    hide Droppable;
  }

  lemma RowsHeld(db: Db, c: Command)
    requires c.ExtendLease? || c.IssueToken? || c.Singleton? || c.Unknown?
    ensures Step(db, c).b.q.groups == db.q.groups && Held(db.q, Step(db, c).b.q)
  {
    hide ApplySingleton;
    if c.Singleton? { SingletonRows(db, c); }
  }

  lemma SingletonRows(db: Db, c: Command)
    requires c.Singleton?
    ensures ApplySingleton(db, db, c.sop, c.name, c.holder, c.ttl, c.fence, c.now).b.q == db.q
  {
  }

  /** The command has settings of its own to give. */
  predicate Sets(c: Command) {
    c.Publish? || c.PublishBatch? || c.GroupConfig? || (c.Lifecycle? && (c.op.Pause? || c.op.Resume?))
  }

  /** Only publishes, configuration, pausing and resuming change any group's settings. */
  lemma SettingsStep(db: Db, c: Command)
    requires M.Inv(db.q) && Weighed(db.q) && !Sets(c)
    ensures Held(db.q, Step(db, c).b.q)
  {
    hide M.Inv;
    hide Step;
    hide Weighed;
    hide Held;
    match c
    case Ack(l) => AckStepHeld(db, c);
    case Nack(l, mode, delay, meta, now) => NackStepHeld(db, c);
    case Complete(_, _, _, _, _) => CompleteHeld(db, c);
    case Fire(_, _) => FireHeld(db, c);
    case LeaseNext(_, _, _, _) => LeaseHeld(db, c);
    case Redrive(_, _, _) => RedriveHeld(db, c);
    case StartRun(_, _, _, _, _) => EngineHeld(db, c);
    case AppendEvents(_, _, _, _, _) => EngineHeld(db, c);
    case CompleteActivity(_, _, _, _, _) => EngineHeld(db, c);
    case SignalRun(_, _, _, _) => EngineHeld(db, c);
    case CancelRun(_, _, _) => EngineHeld(db, c);
    case Lifecycle(_, _) => PurgeHeld(db, c);
    case _ => RowsHeld(db, c);
  }

  lemma AckStepHeld(db: Db, c: Command)
    requires c.Ack?
    ensures Held(db.q, Step(db, c).b.q)
  {
    AckHeld(db, db, c.lease);
    hide ApplyAck;
    hide Held;
  }

  lemma NackStepHeld(db: Db, c: Command)
    requires c.Nack? && M.Inv(db.q) && Weighed(db.q)
    ensures Held(db.q, Step(db, c).b.q)
  {
    NackHeld(db, db, c.lease, c.mode, c.delay, c.meta, c.now);
    hide ApplyNack;
    hide Held;
  }

  // ----- Commands that set -----

  /** The weight asked for; zero asks for one. */
  predicate WeightIs(asked: Option<real>, before: real, after: real) {
    && (asked.Some? && asked.value != 0.0 ==> after == asked.value)
    && (asked == Some(0.0) ==> after == 1.0)
    && (asked.None? ==> after == before)
  }

  /** The batch size asked for; none, or zero, asks for what it was. */
  predicate BatchSizeIs(asked: Option<nat>, before: nat, after: nat) {
    && (asked.Some? && asked.value > 0 ==> after == asked.value)
    && (asked == None || asked == Some(0) ==> after == before)
  }

  /** What a publish makes of its group's meta. */
  predicate SetBy(c: PublishCmd, gm: GroupMeta, gm': GroupMeta) {
    && WeightIs(c.weight, gm.weight, gm'.weight) && BatchSizeIs(c.batchSize, gm.batchSize, gm'.batchSize)
    && gm'.paused == gm.paused && gm'.lastActivity == c.now && gm'.inflight == gm.inflight
    && gm'.nextSeq == gm.nextSeq + 1 && gm'.total == gm.total + 1
    && gm'.ready == gm.ready + (if c.notBefore > c.now then 0 else 1)
    && gm'.delayed == gm.delayed + (if c.notBefore > c.now then 1 else 0)
  }

  lemma PublishGroups(db: Db, c: PublishCmd)
    requires c.dedupKey == "" || CheckDedup(db.dedup, c).None?
    ensures Step(db, Publish(c)).b.q.groups ==
              db.q.groups[c.group := MetaAfterPublish(c, LoadMeta(db.q, c.group))]
  {
    hide CheckDedup;
    var gm := LoadMeta(db.q, c.group);
    OneGroups(db.q, c, gm);
    RecordGroups(Publishing(db, c, gm), c, gm.nextSeq);
    hide MetaAfterPublish;
    hide PublishOne;
    hide RecordDedup;
  }

  lemma OneGroups(q: Queue, c: PublishCmd, gm: GroupMeta)
    ensures PublishOne(q, c, gm).groups == q.groups
  {
  }

  lemma RecordGroups(b: Db, c: PublishCmd, id: nat)
    ensures RecordDedup(b, c, id).q.groups == b.q.groups
  {
  }

  lemma MetaSets(c: PublishCmd, gm: GroupMeta)
    requires gm.weight != 0.0
    ensures SetBy(c, gm, MetaAfterPublish(c, gm))
  {
  }

  /** An accepted publish gives its group the settings it carries, counts the message, and
      leaves every other group alone. */
  lemma PublishSets(db: Db, c: PublishCmd)
    requires Weighed(db.q) && (c.dedupKey == "" || CheckDedup(db.dedup, c).None?)
    ensures var g, q' := c.group, Step(db, Publish(c)).b.q;
            && q'.groups.Keys == db.q.groups.Keys + {g}
            && (forall x :: x in db.q.groups && x != g ==> q'.groups[x] == db.q.groups[x])
            && SetBy(c, LoadMeta(db.q, g), q'.groups[g])
  {
    hide Step;
    hide CheckDedup;
    hide SetBy;
    PublishGroups(db, c);
    MetaSets(c, LoadMeta(db.q, c.group));
    hide MetaAfterPublish;
  }

  lemma ConfigSets(db: Db, c: Command)
    requires Weighed(db.q) && c.GroupConfig?
    ensures var g, q' := c.group, Step(db, c).b.q;
            && q'.groups.Keys == db.q.groups.Keys + {g}
            && (forall x :: x in db.q.groups && x != g ==> q'.groups[x] == db.q.groups[x])
            && var gm, gm' := LoadMeta(db.q, g), q'.groups[g];
               && WeightIs(c.weight, gm.weight, gm'.weight) && BatchSizeIs(c.batchSize, gm.batchSize, gm'.batchSize)
               && gm'.paused == gm.paused
  {
  }

  lemma RepeatSets(db: Db, c: PublishCmd)
    requires c.dedupKey != "" && CheckDedup(db.dedup, c).Some?
    ensures Step(db, Publish(c)).b == db
  {
  }

  lemma PauseSets(db: Db, c: Command)
    requires c.Lifecycle? && (c.op.Pause? || c.op.Resume?)
    ensures var q' := Step(db, c).b.q;
            && q'.groups.Keys == db.q.groups.Keys
            && forall x :: x in db.q.groups ==> q'.groups[x] == if x == c.group
                 then db.q.groups[x].(paused := c.op.Pause?) else db.q.groups[x]
  {
  }

  /** A cached meta is of a group of the batch, which is as paused as it was. */
  ghost predicate CacheOk(q: Queue, s: BatchState, items: seq<PublishCmd>, n: nat)
    requires n <= |items|
  {
    && s.b.q.groups == q.groups
    && forall k :: k in s.cache ==>
         && s.cache[k].1.weight != 0.0 && s.cache[k].1.paused == LoadMeta(q, s.cache[k].0).paused
         && exists i :: 0 <= i < n && items[i].group == s.cache[k].0
  }

  lemma {:induction false} BatchCache(db: Db, items: seq<PublishCmd>, n: nat)
    requires n <= |items|
    ensures CacheOk(db.q, BatchUpTo(db, db, items, n), items, n)
  {
    if n > 0 {
      BatchCache(db, items, n - 1);
      ItemCache(db, BatchUpTo(db, db, items, n - 1), items, n);
      hide CacheOk;
    }
  }

  lemma ItemCache(db: Db, s: BatchState, items: seq<PublishCmd>, n: nat)
    requires 0 < n <= |items| && CacheOk(db.q, s, items, n - 1)
    ensures CacheOk(db.q, BatchItem(db, s, items[n - 1]), items, n)
  {
    var c := items[n - 1];
    var gk := Joined(c.group.lane, c.group.name);
    CacheGrows(db.q, s, items, n);
    CachedGroup(db.q, s, items, n, gk);
    AddCache(db, s, items, n, c.group, LoadMeta(db.q, c.group));
    if gk in s.cache { AddCache(db, s, items, n, s.cache[gk].0, s.cache[gk].1); }
    hide *;
    ItemIs(db, s, c);
  }

  lemma ItemIs(db: Db, s: BatchState, c: PublishCmd)
    ensures var gk, s' := Joined(c.group.lane, c.group.name), BatchItem(db, s, c);
            || s' == s.(items := s'.items)
            || (gk in s.cache && s' == BatchAdd(s, c, s.cache[gk].0, s.cache[gk].1))
            || s' == BatchAdd(s, c, c.group, LoadMeta(db.q, c.group))
  {
    hide CheckDedup;
    hide Joined;
    hide BatchAdd;
  }

  lemma CachedGroup(q: Queue, s: BatchState, items: seq<PublishCmd>, n: nat, k: string)
    requires 0 < n <= |items| && CacheOk(q, s, items, n - 1)
    ensures k in s.cache ==> s.cache[k].1.paused == LoadMeta(q, s.cache[k].0).paused
                             && exists i :: 0 <= i < n && items[i].group == s.cache[k].0
    ensures exists i :: 0 <= i < n && items[i].group == items[n - 1].group
  {
    assert items[n - 1].group == items[n - 1].group;
  }

  lemma CacheGrows(q: Queue, s: BatchState, items: seq<PublishCmd>, n: nat)
    requires 0 < n <= |items| && CacheOk(q, s, items, n - 1)
    ensures forall answers :: CacheOk(q, s.(items := answers), items, n)
  {
  }

  lemma AddCache(db: Db, s: BatchState, items: seq<PublishCmd>, n: nat, g: Group, gm: GroupMeta)
    requires 0 < n <= |items| && CacheOk(db.q, s, items, n - 1)
    requires gm.paused == LoadMeta(db.q, g).paused && exists i :: 0 <= i < n && items[i].group == g
    ensures CacheOk(db.q, BatchAdd(s, items[n - 1], g, gm), items, n)
  {
    hide Joined;
  }

  lemma {:induction false} PersistedFrom(q: Queue, cache: map<string, (Group, GroupMeta)>, order: seq<string>)
    ensures var q' := Persisted(q, cache, order);
            && (forall g :: g in q.groups ==> g in q'.groups)
            && forall g :: g in q'.groups ==>
                 (g in q.groups && q'.groups[g] == q.groups[g])
                 || exists k :: k in cache && cache[k].0 == g && cache[k].1 == q'.groups[g]
  {
    if order != [] { PersistedFrom(q, cache, order[..|order| - 1]); }
  }

  /** A batch leaves the groups it does not name alone, pauses none and weighs all. */
  lemma BatchSets(db: Db, items: seq<PublishCmd>)
    requires Weighed(db.q)
    ensures var q' := Step(db, PublishBatch(items)).b.q;
            && Weighed(q') && (forall g :: g in db.q.groups ==> g in q'.groups)
            && (forall g :: g in q'.groups ==> q'.groups[g].paused == LoadMeta(db.q, g).paused)
            && forall g :: g in q'.groups && (forall i :: 0 <= i < |items| ==> items[i].group != g) ==>
                 g in db.q.groups && q'.groups[g] == db.q.groups[g]
  {
    var s := BatchUpTo(db, db, items, |items|);
    BatchCache(db, items, |items|);
    PersistedFrom(s.b.q, s.cache, s.order);
    hide BatchUpTo;
    hide Persisted;
  }

  // ----- One command -----

  /** The command carries settings for group g. */
  predicate SetsFor(c: Command, g: Group) {
    match c
    case Publish(p) => p.group == g
    case PublishBatch(items) => exists i :: 0 <= i < |items| && items[i].group == g
    case GroupConfig(x, _, _) => x == g
    case Lifecycle(x, op) => x == g && (op.Pause? || op.Resume?)
    case _ => false
  }

  lemma SetStep(db: Db, c: Command, g: Group)
    requires M.Inv(db.q) && Weighed(db.q) && g in db.q.groups
    ensures g in Step(db, c).b.q.groups
    ensures !SetsFor(c, g) ==> Same(db.q.groups[g], Step(db, c).b.q.groups[g])
    ensures !(c.Lifecycle? && c.group == g && (c.op.Pause? || c.op.Resume?)) ==>
              Step(db, c).b.q.groups[g].paused == db.q.groups[g].paused
  {
    hide M.Inv;
    hide Step;
    hide CheckDedup;
    if !Sets(c) {
      SettingsStep(db, c);
    } else if c.Publish? {
      if c.p.dedupKey != "" && CheckDedup(db.dedup, c.p).Some? { RepeatSets(db, c.p); } else { PublishSets(db, c.p); }
    } else if c.PublishBatch? {
      BatchSets(db, c.items);
    } else if c.GroupConfig? {
      ConfigSets(db, c);
    } else {
      PauseSets(db, c);
    }
  }

  lemma WeighedStep(db: Db, c: Command)
    requires M.Inv(db.q) && Weighed(db.q)
    ensures Weighed(Step(db, c).b.q)
    ensures forall g :: g in Step(db, c).b.q.groups && g !in db.q.groups ==> !Step(db, c).b.q.groups[g].paused
  {
    hide M.Inv;
    hide Step;
    hide CheckDedup;
    if !Sets(c) {
      SettingsStep(db, c);
    } else if c.Publish? {
      if c.p.dedupKey != "" && CheckDedup(db.dedup, c.p).Some? { RepeatSets(db, c.p); } else { PublishSets(db, c.p); }
    } else if c.PublishBatch? {
      BatchSets(db, c.items);
    } else if c.GroupConfig? {
      ConfigSets(db, c);
    } else {
      PauseSets(db, c);
    }
  }

  /** A group that comes without settings of its own comes with weight one, batches of one,
      and unpaused. */
  lemma NewStep(db: Db, c: Command, g: Group)
    requires M.Inv(db.q) && Weighed(db.q) && g !in db.q.groups && g in Step(db, c).b.q.groups && !SetsFor(c, g)
    ensures var gm := Step(db, c).b.q.groups[g]; gm.weight == 1.0 && gm.batchSize == 1 && !gm.paused
  {
    hide M.Inv;
    hide Step;
    hide CheckDedup;
    if !Sets(c) {
      SettingsStep(db, c);
    } else if c.Publish? {
      if c.p.dedupKey != "" && CheckDedup(db.dedup, c.p).Some? { RepeatSets(db, c.p); } else { PublishSets(db, c.p); }
    } else if c.PublishBatch? {
      BatchSets(db, c.items);
    } else if c.GroupConfig? {
      ConfigSets(db, c);
    } else {
      PauseSets(db, c);
    }
  }

  // ----- Whole runs -----

  /** No group is ever stored with weight zero, whatever producers and operators ask for. */
  lemma {:induction false} WeightNeverZero(log: seq<Command>, n: nat)
    requires n <= |log| && S.AllAllowed(log)
    ensures Weighed(DbAt(log, n).q) && M.Inv(DbAt(log, n).q)
    decreases n
  {
    hide Step;
    hide M.Inv;
    hide Weighed;
    S.ReachableInv(log[..n]);
    if n == 0 {
      NoGroups(log);
    } else {
      WeightNeverZero(log, n - 1);
      DbAtNext(log, n - 1);
      WeighedStep(DbAt(log, n - 1), log[n - 1]);
    }
  }

  lemma NoGroups(log: seq<Command>)
    ensures DbAt(log, 0).q.groups == map[] && Weighed(DbAt(log, 0).q)
  {
    assert log[..0] == [];
  }

  /** A group's settings stand until a command carries settings for that group. */
  lemma {:induction false} SettingsStand(log: seq<Command>, i: nat, j: nat, g: Group)
    requires i <= j <= |log| && S.AllAllowed(log) && g in DbAt(log, i).q.groups
    requires forall n :: i <= n < j ==> !SetsFor(log[n], g)
    ensures g in DbAt(log, j).q.groups && Same(DbAt(log, i).q.groups[g], DbAt(log, j).q.groups[g])
    decreases j
  {
    hide Step;
    hide M.Inv;
    hide Weighed;
    hide SetsFor;
    if i < j {
      SettingsStand(log, i, j - 1, g);
      WeightNeverZero(log, j - 1);
      DbAtNext(log, j - 1);
      SetStep(DbAt(log, j - 1), log[j - 1], g);
    }
  }

  /** A configured weight and batch size are what the group has until it is published to or
      configured again. */
  lemma ConfigStands(log: seq<Command>, i: nat, j: nat)
    requires i < j <= |log| && S.AllAllowed(log) && log[i].GroupConfig?
    requires forall n :: i < n < j ==> !SetsFor(log[n], log[i].group)
    ensures var c := log[i];
            && c.group in DbAt(log, j).q.groups
            && var gm, gm' := LoadMeta(DbAt(log, i).q, c.group), DbAt(log, j).q.groups[c.group];
               && WeightIs(c.weight, gm.weight, gm'.weight) && BatchSizeIs(c.batchSize, gm.batchSize, gm'.batchSize)
               && gm'.paused == gm.paused
  {
    hide Step;
    hide M.Inv;
    hide SetsFor;
    WeightNeverZero(log, i);
    DbAtNext(log, i);
    ConfigSets(DbAt(log, i), log[i]);
    SettingsStand(log, i + 1, j, log[i].group);
  }

  /** A pause of the group, which was there to pause, and no resume since. */
  ghost predicate PausedAt(log: seq<Command>, n: nat, j: nat, g: Group)
    requires j <= |log|
  {
    && n < j && log[n] == Lifecycle(g, Pause) && g in DbAt(log, n).q.groups
    && forall m :: n < m < j ==> log[m] != Lifecycle(g, Resume)
  }

  /** A group is paused exactly when it has been and has not been resumed since. */
  lemma {:induction false} PausedIff(log: seq<Command>, j: nat, g: Group)
    requires j <= |log| && S.AllAllowed(log) && g in DbAt(log, j).q.groups
    ensures DbAt(log, j).q.groups[g].paused <==> exists n :: PausedAt(log, n, j, g)
    decreases j
  {
    hide Step;
    hide M.Inv;
    hide Weighed;
    if j == 0 {
      NoGroups(log);
    } else {
      var db, c := DbAt(log, j - 1), log[j - 1];
      WeightNeverZero(log, j - 1);
      DbAtNext(log, j - 1);
      if g in db.q.groups {
        PausedIff(log, j - 1, g);
        PausedNext(log, j - 1, j, g);
        SetStep(db, c, g);
        if c.Lifecycle? && (c.op.Pause? || c.op.Resume?) { PauseSets(db, c); }
        hide PausedAt;
      } else {
        WeighedStep(db, c);
        if n: nat :| PausedAt(log, n, j, g) { StaysThere(log, n, j - 1, g); }
      }
    }
  }

  lemma PausedNext(log: seq<Command>, i: nat, j: nat, g: Group)
    requires j == i + 1 <= |log| && g in DbAt(log, i).q.groups
    ensures (exists n :: PausedAt(log, n, j, g)) <==>
              log[i] == Lifecycle(g, Pause) || (log[i] != Lifecycle(g, Resume) && exists n :: PausedAt(log, n, i, g))
  {
    if log[i] == Lifecycle(g, Pause) {
      assert PausedAt(log, i, j, g);
    } else {
      if n: nat :| PausedAt(log, n, j, g) { assert PausedAt(log, n, i, g); }
      if log[i] != Lifecycle(g, Resume) {
        if n: nat :| PausedAt(log, n, i, g) { assert PausedAt(log, n, j, g); }
      }
    }
  }

  lemma {:induction false} StaysThere(log: seq<Command>, i: nat, j: nat, g: Group)
    requires i <= j <= |log| && S.AllAllowed(log) && g in DbAt(log, i).q.groups
    ensures g in DbAt(log, j).q.groups
    decreases j
  {
    hide Step;
    hide M.Inv;
    hide Weighed;
    if i < j {
      StaysThere(log, i, j - 1, g);
      WeightNeverZero(log, j - 1);
      DbAtNext(log, j - 1);
      SetStep(DbAt(log, j - 1), log[j - 1], g);
    }
  }

  /** A group no command ever gave settings has weight one, batches of one, and is not paused. */
  lemma {:induction false} UnsetIsDefault(log: seq<Command>, j: nat, g: Group)
    requires j <= |log| && S.AllAllowed(log) && g in DbAt(log, j).q.groups
    requires forall n :: 0 <= n < j ==> !SetsFor(log[n], g)
    ensures var gm := DbAt(log, j).q.groups[g]; gm.weight == 1.0 && gm.batchSize == 1 && !gm.paused
    decreases j
  {
    hide Step;
    hide M.Inv;
    hide Weighed;
    hide SetsFor;
    if j == 0 {
      NoGroups(log);
    } else {
      WeightNeverZero(log, j - 1);
      DbAtNext(log, j - 1);
      if g in DbAt(log, j - 1).q.groups {
        UnsetIsDefault(log, j - 1, g);
        SetStep(DbAt(log, j - 1), log[j - 1], g);
      } else {
        NewStep(DbAt(log, j - 1), log[j - 1], g);
      }
    }
  }
}
