/** Which tables a command leaves alone. */
module Frames {
  import opened Bytes
  import opened Store
  import opened Commands
  import opened Handlers

  /** The producer and singleton tables are untouched, and no completion token is new. */
  predicate SameRest(b: Db, b': Db) {
    b'.dedup == b.dedup && b'.singletons == b.singletons && FewerTokens(b, b')
  }

  predicate FewerTokens(b: Db, b': Db) {
    forall h :: h in b'.tokens ==> h in b.tokens && b'.tokens[h] == b.tokens[h]
  }

  lemma ExternalKeepsRest(db: Db, b: Db, id: nat, kind: EventKind, attrs: Attrs, now: nat)
    ensures SameRest(b, AppendExternal(db, b, id, kind, attrs, now))
  {
  }

  lemma TerminalKeepsRest(db: Db, b: Db, id: nat, sched: nat, failed: bool, result: Blob, now: nat)
    ensures SameRest(b, RecordActivityTerminal(db, b, id, sched, failed, result, now).b)
  {
  }

  lemma DeathKeepsRest(db: Db, b: Db, m: Message, gm: GroupMeta, reason: string, meta: map<string, string>, ts: nat)
    ensures SameRest(b, NackDead(db, b, m, gm, reason, meta, ts).b)
  {
    hide RecordActivityTerminal;
    var b1 := b.(q := DropMsg(PutDead(b.q, DlqKey(m.key, ts), DeadLetter(m, m.attempt, reason, meta, ts)), m.key));
    if m.payload.ActTask? {
      TerminalKeepsRest(db, b1, m.payload.run, m.payload.sched, true, Ascii("activity_dead_lettered: " + reason), ts);
    }
  }

  lemma EndKeepsRest(b: Db, l: nat, row: Lease)
    ensures SameRest(b, EndLease(b, l, row)) && EndLease(b, l, row).wf == b.wf
  {
  }

  lemma NackKeepsRest(db: Db, b: Db, l: nat, mode: NackMode, delay: nat, meta: map<string, string>, now: nat)
    ensures SameRest(b, ApplyNack(db, b, l, mode, delay, meta, now).b)
  {
    hide NackDead;
    hide EndLease;
    if l in db.q.leases {
      var row := db.q.leases[l];
      EndKeepsRest(b, l, row);
      if Holds(db.q, l) {
        var m, gm0 := db.q.messages[row.key], MetaOrZero(db.q, row.key.group);
        var gm := gm0.(inflight := Decr(gm0.inflight));
        DeathKeepsRest(db, EndLease(b, l, row), m.(attempt := m.attempt + 1), gm, "max_attempts", meta, now);
        DeathKeepsRest(db, EndLease(b, l, row), m, gm, "terminal_nack", meta, now);
      }
    }
  }

  lemma AckKeepsRest(db: Db, b: Db, l: nat)
    ensures SameRest(b, ApplyAck(db, b, l).b) && ApplyAck(db, b, l).b.wf == b.wf
  {
  }

  lemma CompleteKeepsRest(db: Db, hash: Blob, success: bool, meta: map<string, string>, delay: nat, now: nat)
    ensures SameRest(db, ApplyComplete(db, db, hash, success, meta, delay, now).b)
  {
    hide ApplyAck;
    hide ApplyNack;
    if hash in db.tokens {
      var b1 := db.(tokens := db.tokens - {hash});
      AckKeepsRest(db, b1, db.tokens[hash]);
      NackKeepsRest(db, b1, db.tokens[hash], Retry, delay, meta, now);
    }
  }

  lemma CreateKeepsRest(db: Db, b: Db, wfType: string, tenant: string, input: Blob, parent: nat, now: nat)
    ensures SameRest(b, CreateRun(db, b, wfType, tenant, input, parent, now))
  {
  }

  lemma {:induction false} AppendKeepsRest(db: Db, b: Db, id: nat, run: Run, events: seq<EventIn>, now: nat, n: nat)
    requires n <= |events|
    ensures SameRest(b, AppendUpTo(db, b, id, run, events, now, n))
  {
    hide CreateRun;
    if n > 0 {
      AppendKeepsRest(db, b, id, run, events, now, n - 1);
      var b1 := AppendUpTo(db, b, id, run, events, now, n - 1);
      var e := events[n - 1];
      CreateKeepsRest(db, PutEvent(b1, id, run.curSeq + n, Event(e.kind, now, e.attrs)), run.wfType, run.tenant,
          NextInputOf(e.attrs), id, now);
    }
  }

  lemma EngineKeepsRest(db: Db, c: Command)
    requires c.StartRun? || c.AppendEvents? || c.CompleteActivity? || c.SignalRun? || c.CancelRun?
    ensures SameRest(db, Step(db, c).b)
  {
    hide RecordActivityTerminal;
    hide AppendUpTo;
    hide AppendExternal;
    if c.SignalRun? { ExternalKeepsRest(db, db, c.run, SignalReceived, Signal(c.name, c.payload), c.now); }
    if c.StartRun? { CreateKeepsRest(db, db, c.wfType, c.tenant, c.input, c.parent, c.now); }
    hide CreateRun;
    match c
    case AppendEvents(run, epoch, atSeq, events, now) =>
      if run in db.wf.runs { AppendKeepsRest(db, db, run, db.wf.runs[run], events, now, |events|); }
    case CompleteActivity(run, sched, success, result, now) =>
        TerminalKeepsRest(db, db, run, sched, !success, result, now);
    case _ =>
  }

  lemma MaxLifeKeepsRest(db: Db, l: nat, fireAt: nat)
    ensures SameRest(db, FireMaxLife(db, db, l, fireAt))
  {
    hide NackDead;
    hide EndLease;
    if Holds(db.q, l) {
      var row := db.q.leases[l];
      var gm := MetaOrZero(db.q, row.key.group);
      EndKeepsRest(db, l, row);
      DeathKeepsRest(db, EndLease(db, l, row), db.q.messages[row.key], gm.(inflight := Decr(gm.inflight)),
          "max_lease_lifetime", map[], fireAt);
    }
  }

  lemma ExpiryKeepsRest(db: Db, key: MsgKey, fireAt: nat)
    ensures SameRest(db, FireExpiry(db, db, key, fireAt))
  {
    hide NackDead;
    if key in db.q.messages {
      var m, gm := db.q.messages[key], MetaOrZero(db.q, key.group);
      DeathKeepsRest(db, db, m, if m.state == Ready then gm.(ready := Decr(gm.ready))
          else gm.(delayed := Decr(gm.delayed)), "ttl", map[], fireAt);
    }
  }

  lemma DeadlineKeepsRest(db: Db, l: nat, epoch: nat, fireAt: nat)
    ensures SameRest(db, FireDeadline(db, db, l, epoch, fireAt))
  {
  }

  lemma FireKeepsRest(db: Db, t: Timer, fireAt: nat)
    ensures var b := ApplyFire(db, db, t, fireAt).b;
            && b.singletons == db.singletons && FewerTokens(db, b)
            && b.dedup == if t in db.q.timers && t.ref.DedupExpiry?
                 then FireDedup(db, db, t.ref.lane, t.ref.dedup, fireAt).dedup else db.dedup
  {
    hide FireMaxLife;
    hide FireExpiry;
    hide FireDeadline;
    hide AppendExternal;
    if t in db.q.timers {
      if t.ref.LeaseMaxLife? { MaxLifeKeepsRest(db, t.ref.lease, fireAt); }
      if t.ref.MsgExpiry? { ExpiryKeepsRest(db, t.ref.key, fireAt); }
      if t.ref.LeaseDeadline? { DeadlineKeepsRest(db, t.ref.lease, db.q.timers[t], fireAt); }
      if t.ref.WfFired? { ExternalKeepsRest(db, db, t.ref.run, TimerFired, Fired(t.ref.started), fireAt); }
    }
  }

  lemma LeaseKeepsRest(db: Db, c: Command)
    requires c.LeaseNext?
    ensures SameRest(db, ApplyLease(db, db, c).b) && ApplyLease(db, db, c).b.wf == db.wf
  {
    hide HeadReady;
  }

  /** A command writes the dedup table only if it publishes or sweeps it. */
  predicate TouchesDedup(c: Command) {
    c.Publish? || c.PublishBatch? || (c.Fire? && c.timer.ref.DedupExpiry?)
  }

  lemma {:induction false} BatchKeepsSingletons(db: Db, items: seq<PublishCmd>, n: nat)
    requires n <= |items|
    ensures BatchUpTo(db, db, items, n).b.singletons == db.singletons
    ensures BatchUpTo(db, db, items, n).b.tokens == db.tokens
  {
    hide PublishOne;
    hide MetaAfterPublish;
    hide CheckDedup;
    if n > 0 { BatchKeepsSingletons(db, items, n - 1); }
  }

  lemma BatchKeepsRest(db: Db, items: seq<PublishCmd>)
    ensures var b := ApplyPublishBatch(db, db, items).b; b.singletons == db.singletons && b.tokens == db.tokens
  {
    BatchKeepsSingletons(db, items, |items|);
    hide BatchUpTo;
  }

  lemma LifecycleKeepsRest(db: Db, g: Group, op: GroupOp)
    ensures SameRest(db, ApplyLifecycle(db, db, g, op).b) && ApplyLifecycle(db, db, g, op).b.wf == db.wf
  {
    hide Droppable;
  }

  lemma StepKeepsRest(db: Db, c: Command)
    ensures !TouchesDedup(c) ==> Step(db, c).b.dedup == db.dedup
    ensures !c.Singleton? ==> Step(db, c).b.singletons == db.singletons
    ensures !c.IssueToken? ==> FewerTokens(db, Step(db, c).b)
  {
    hide ApplyNack;
    hide ApplyAck;
    hide ApplyComplete;
    hide ApplyLease;
    hide ApplyFire;
    hide BatchUpTo;
    hide ApplyAppend;
    hide RecordActivityTerminal;
    hide ApplyStartRun;
    hide ApplySignal;
    hide ApplyCancel;
    hide ApplyRedrive;
    hide FireDedup;
    hide ApplyPublishBatch;
    hide ApplyLifecycle;
    match c
    case PublishBatch(items) => BatchKeepsRest(db, items);
    case Lifecycle(g, op) => LifecycleKeepsRest(db, g, op);
    case LeaseNext(_, _, _, _) => LeaseKeepsRest(db, c);
    case Ack(l) => AckKeepsRest(db, db, l);
    case Nack(l, mode, delay, meta, now) => NackKeepsRest(db, db, l, mode, delay, meta, now);
    case Complete(hash, success, meta, delay, now) => CompleteKeepsRest(db, hash, success, meta, delay, now);
    case Fire(t, fireAt) => FireKeepsRest(db, t, fireAt);
    case Redrive(g, id, now) => RedriveKeepsRest(db, g, id, now);
    case StartRun(_, _, _, _, _) => EngineKeepsRest(db, c);
    case AppendEvents(_, _, _, _, _) => EngineKeepsRest(db, c);
    case CompleteActivity(_, _, _, _, _) => EngineKeepsRest(db, c);
    case SignalRun(_, _, _, _) => EngineKeepsRest(db, c);
    case CancelRun(_, _, _) => EngineKeepsRest(db, c);
    case _ =>
  }

  lemma RedriveKeepsRest(db: Db, g: Group, id: nat, now: nat)
    ensures SameRest(db, ApplyRedrive(db, db, g, id, now).b) && ApplyRedrive(db, db, g, id, now).b.wf == db.wf
  {
    hide DeadStamps;
  }
}
