/** The durable-execution engine on its own: how each command moves runs, histories,
    done-markers and armed workflow timers, whatever it does to the queue. */
module Durable {
  import opened Bytes
  import opened Store
  import opened Commands
  import opened Handlers
  import T = Steps
  import M = Moves
  import Backoff

  /** A workflow timer's row. */
  predicate IsAlarm(t: Timer) {
    t.ref.WfFired?
  }

  /** What a command does to the engine. */
  datatype Effect =
    | Quiet
    | Begin(wfType: string, tenant: string, input: Blob, parent: nat, now: nat)
    | Decide(run: nat, epoch: nat, atSeq: nat, events: seq<EventIn>, now: nat)
    | External(run: nat, kind: EventKind, attrs: Attrs, now: nat)
    | Ring(timer: Timer, now: nat)
    | Terminal(run: nat, sched: nat, failed: bool, result: Blob, now: nat)
    | Cancel(run: nat, reason: Blob, now: nat)

  // ----- The engine's own steps -----

  function WithRun(wf: Engine, id: nat, run: Run): Engine {
    wf.(runs := wf.runs[id := run])
  }

  function WithEvent(wf: Engine, run: nat, id: nat, e: Event): Engine {
    wf.(history := wf.history[EventKey(run, id) := e])
  }

  function Tasked(run: Run): Run {
    if run.status == WfRunning then run.(pending := true) else run
  }

  function FreshRun(wfType: string, tenant: string, input: Blob, parent: nat, now: nat): Run {
    Run(wfType, tenant, WfRunning, 0, 1, input, now, now, parent, true)
  }

  /** A new run under the committed next id, started and tasked. */
  function Begun(wf0: Engine, wf: Engine, wfType: string, tenant: string, input: Blob, parent: nat, now: nat): Engine {
    var id := wf0.nextRun;
    WithRun(WithEvent(wf.(nextRun := id + 1), id, 1, Event(WorkflowStarted, now, Raw(input))), id,
        FreshRun(wfType, tenant, input, parent, now))
  }

  predicate IsRunning(wf: Engine, id: nat) {
    id in wf.runs && wf.runs[id].status == WfRunning
  }

  function Advance(wf: Engine, id: nat, kind: EventKind, attrs: Attrs, now: nat): Engine {
    if !IsRunning(wf, id) then wf
    else
      var run := Advanced(wf.runs[id], now);
      WithRun(WithEvent(wf, id, run.curSeq, Event(kind, now, attrs)), id, Tasked(run))
  }

  /** The activity is scheduled in a running run and has no outcome yet. */
  predicate Unresolved(wf: Engine, id: nat, sched: nat) {
    IsRunning(wf, id) && EventKey(id, sched) !in wf.done
    && EventKey(id, sched) in wf.history && wf.history[EventKey(id, sched)].kind == ActivityScheduled
  }

  function Resolve(wf: Engine, id: nat, sched: nat, failed: bool, result: Blob, now: nat): Engine {
    if !Unresolved(wf, id, sched) then wf
    else
      Advance(wf, id, if failed then ActivityFailed else ActivityCompleted, Outcome(sched, !failed, result), now)
      .(done := wf.done + {EventKey(id, sched)})
  }

  function EventUpTo(wf0: Engine, wf: Engine, id: nat, run: Run, events: seq<EventIn>, now: nat, n: nat): Engine
    requires n <= |events|
  {
    if n == 0 then wf
    else
      var e := events[n - 1];
      var wf1 := WithEvent(EventUpTo(wf0, wf, id, run, events, now, n - 1), id, run.curSeq + n,
          Event(e.kind, now, e.attrs));
      if e.kind == WorkflowContinuedAsNew then Begun(wf0, wf1, run.wfType, run.tenant, NextInputOf(e.attrs), id, now)
          else wf1
  }

  /** The fence: the decision was made against the run's current version. */
  predicate Fenced(wf: Engine, id: nat, epoch: nat, atSeq: nat) {
    IsRunning(wf, id) && epoch == wf.runs[id].epoch && atSeq == wf.runs[id].curSeq
  }

  function Decided(wf: Engine, id: nat, epoch: nat, atSeq: nat, events: seq<EventIn>, now: nat): Engine {
    if !Fenced(wf, id, epoch, atSeq) then wf
    else WithRun(EventUpTo(wf, wf, id, wf.runs[id], events, now, |events|), id,
        RunAfterAppend(wf.runs[id], events, now))
  }

  function Cancelled(wf: Engine, id: nat, reason: Blob, now: nat): Engine {
    if !IsRunning(wf, id) then wf
    else
      var run := Advanced(wf.runs[id], now).(status := WfCanceled);
      WithRun(WithEvent(wf, id, run.curSeq, Event(WorkflowCanceled, now, Raw(reason))), id, run)
  }

  function After(wf: Engine, e: Effect): Engine {
    match e
    case Quiet => wf
    case Begin(wfType, tenant, input, parent, now) => Begun(wf, wf, wfType, tenant, input, parent, now)
    case Decide(run, epoch, atSeq, events, now) => Decided(wf, run, epoch, atSeq, events, now)
    case External(run, kind, attrs, now) => Advance(wf, run, kind, attrs, now)
    case Ring(t, now) => if t.ref.WfFired? then Advance(wf, t.ref.run, TimerFired, Fired(t.ref.started), now) else wf
    case Terminal(run, sched, failed, result, now) => Resolve(wf, run, sched, failed, result, now)
    case Cancel(run, reason, now) => Cancelled(wf, run, reason, now)
  }

  // ----- Which effect a command has -----

  /** A buried activity task reports to its run. */
  function BridgeOf(letter: DeadLetter): Effect {
    var m := letter.original;
    if ACTIVITY_LANE <= m.key.group.lane && m.payload.ActTask? && m.payload.run != 0 then
      Terminal(m.payload.run, m.payload.sched, true, Ascii("activity_dead_lettered: " + letter.reason), letter.deadAt)
    else Quiet
  }

  function EffectOf(db: Db, c: Command): Effect {
    match c
    case StartRun(wfType, tenant, input, parent, now) => Begin(wfType, tenant, input, parent, now)
    case AppendEvents(run, epoch, atSeq, events, now) => Decide(run, epoch, atSeq, events, now)
    case CompleteActivity(run, sched, success, result, now) => Terminal(run, sched, !success, result, now)
    case SignalRun(run, name, payload, now) => External(run, SignalReceived, Signal(name, payload), now)
    case CancelRun(run, reason, now) => Cancel(run, reason, now)
    case _ =>
      if c.Fire? && c.timer in db.q.timers && IsAlarm(c.timer) then Ring(c.timer, c.fireAt)
      else match T.Removal(db, c)
           case Some(Bury(_, letter)) => BridgeOf(letter)
           case _ => Quiet
  }

  // ----- The handlers have those effects -----

  ghost predicate SameAlarms(q: Queue, q': Queue) {
    forall t: Timer :: IsAlarm(t) ==> (t in q.timers <==> t in q'.timers)
  }

  lemma TaskEffect(db: Db, b: Db, id: nat, run: Run)
    requires !run.pending
    ensures var r := DispatchTask(db, b, id, run);
            r.0.wf == b.wf && r.1 == Tasked(run) && SameAlarms(b.q, r.0.q)
  {
  }

  lemma CreateEffect(db: Db, b: Db, wfType: string, tenant: string, input: Blob, parent: nat, now: nat)
    ensures var b' := CreateRun(db, b, wfType, tenant, input, parent, now);
            b'.wf == Begun(db.wf, b.wf, wfType, tenant, input, parent, now) && SameAlarms(b.q, b'.q)
  {
    hide DispatchTask;
    hide SameAlarms;
    var id := db.wf.nextRun;
    var run := Run(wfType, tenant, WfRunning, 0, 1, input, now, now, parent, false);
    var b2 := PutEvent(b.(wf := b.wf.(nextRun := id + 1)), id, 1, Event(WorkflowStarted, now, Raw(input)));
    TaskEffect(db, b2, id, run);
    SameQueueSameAlarms(b, b2, CreateRun(db, b, wfType, tenant, input, parent, now), DispatchTask(db, b2, id, run).0);
  }

  lemma SameQueueSameAlarms(b: Db, b1: Db, b': Db, b1': Db)
    requires b.q == b1.q && b'.q == b1'.q && SameAlarms(b1.q, b1'.q)
    ensures SameAlarms(b.q, b'.q)
  {
  }

  lemma AdvanceEffect(db: Db, b: Db, id: nat, kind: EventKind, attrs: Attrs, now: nat)
    requires b.wf.(done := db.wf.done) == db.wf
    ensures var b' := AppendExternal(db, b, id, kind, attrs, now);
            b'.wf == Advance(db.wf, id, kind, attrs, now).(done := b.wf.done) && SameAlarms(b.q, b'.q)
  {
    hide DispatchTask;
    hide SameAlarms;
    if IsRunning(db.wf, id) {
      var run := Advanced(db.wf.runs[id], now);
      var b1 := PutEvent(b, id, run.curSeq, Event(kind, now, attrs));
      TaskEffect(db, b1, id, run);
      SameQueueSameAlarms(b, b1, AppendExternal(db, b, id, kind, attrs, now), DispatchTask(db, b1, id, run).0);
    } else {
      SelfAlarms(b.q);
    }
  }

  lemma SelfAlarms(q: Queue)
    ensures SameAlarms(q, q)
  {
  }

  lemma TerminalEffect(db: Db, b: Db, id: nat, sched: nat, failed: bool, result: Blob, now: nat)
    requires b.wf == db.wf
    ensures var b' := RecordActivityTerminal(db, b, id, sched, failed, result, now).b;
            b'.wf == Resolve(db.wf, id, sched, failed, result, now) && SameAlarms(b.q, b'.q)
  {
    hide AppendExternal;
    hide SameAlarms;
    if Unresolved(db.wf, id, sched) {
      var b1 := b.(wf := b.wf.(done := b.wf.done + {EventKey(id, sched)}));
      var kind := if failed then ActivityFailed else ActivityCompleted;
      AdvanceEffect(db, b1, id, kind, Outcome(sched, !failed, result), now);
    } else {
      SelfAlarms(b.q);
    }
  }

  lemma DeadMsgEffect(db: Db, b: Db, m: Message, reason: string, meta: map<string, string>, ts: nat)
    requires b.wf == db.wf
    ensures var b' := DeadLetterMsg(db, b, m, reason, meta, ts);
            b'.wf == After(db.wf, BridgeOf(T.Letter(m, reason, meta, ts))) && SameAlarms(b.q, b'.q)
  {
    hide RecordActivityTerminal;
    hide Resolve;
    hide SameAlarms;
    var b1 := b.(q := DropMsg(PutDead(b.q, DlqKey(m.key, ts), DeadLetter(m, m.attempt, reason, meta, ts)), m.key));
    SameTimersSameAlarms(b.q, b1.q, b1.q);
    if ACTIVITY_LANE <= m.key.group.lane && m.payload.ActTask? && m.payload.run != 0 {
      var result := Ascii("activity_dead_lettered: " + reason);
      TerminalEffect(db, b1, m.payload.run, m.payload.sched, true, result, ts);
      SameTimersSameAlarms(b.q, b1.q,
          RecordActivityTerminal(db, b1, m.payload.run, m.payload.sched, true, result, ts).b.q);
    } else {
      SelfAlarms(b.q);
    }
  }

  lemma SameTimersSameAlarms(q: Queue, q1: Queue, q': Queue)
    requires q.timers == q1.timers
    ensures SameAlarms(q, q1) && (SameAlarms(q1, q') ==> SameAlarms(q, q'))
  {
  }

  lemma DeathEffect(db: Db, b: Db, m: Message, gm: GroupMeta, reason: string, meta: map<string, string>, ts: nat)
    requires b.wf == db.wf
    ensures var b' := NackDead(db, b, m, gm, reason, meta, ts).b;
            b'.wf == After(db.wf, BridgeOf(T.Letter(m, reason, meta, ts))) && SameAlarms(b.q, b'.q)
  {
    hide DeadLetterMsg;
    hide After;
    DeadMsgEffect(db, b, m, reason, meta, ts);
  }

  // ----- Alarms armed by a decision -----

  /** The row a started timer arms. */
  function AlarmOf(id: nat, at: nat, e: EventIn): Option<Timer> {
    if e.kind == TimerStarted && e.attrs.FireAt? && e.attrs.at != 0 then Some(Timer(e.attrs.at, WfFired(id, at)))
        else None
  }

  /** The rows armed by a decision of the run: one per well-formed TIMER_STARTED. */
  predicate ArmedBy(id: nat, seq0: nat, events: seq<EventIn>, n: nat, t: Timer)
    requires n <= |events|
  {
    IsAlarm(t) && t.ref.run == id && seq0 < t.ref.started <= seq0 + n
    && AlarmOf(id, t.ref.started, events[t.ref.started - seq0 - 1]) == Some(t)
  }

  lemma OneEffect(db: Db, b: Db, id: nat, run: Run, at: nat, e: EventIn, now: nat)
    ensures var b' := AppendOne(db, b, id, run, at, e, now);
            var wf1 := WithEvent(b.wf, id, at, Event(e.kind, now, e.attrs));
            && b'.wf == (if e.kind == WorkflowContinuedAsNew
                 then Begun(db.wf, wf1, run.wfType, run.tenant, NextInputOf(e.attrs), id, now) else wf1)
            && forall t: Timer :: IsAlarm(t) ==>
                 (t in b'.q.timers <==> t in b.q.timers || AlarmOf(id, at, e) == Some(t))
  {
    hide CreateRun;
    hide Begun;
    var b1 := PutEvent(b, id, at, Event(e.kind, now, e.attrs));
    if e.kind == WorkflowContinuedAsNew {
      CreateEffect(db, b1, run.wfType, run.tenant, NextInputOf(e.attrs), id, now);
    }
  }

  lemma {:induction false} UpToEffect(db: Db, id: nat, run: Run, events: seq<EventIn>, now: nat, n: nat)
    requires n <= |events|
    ensures var b' := AppendUpTo(db, db, id, run, events, now, n);
            && b'.wf == EventUpTo(db.wf, db.wf, id, run, events, now, n)
            && forall t: Timer :: IsAlarm(t) ==>
                 (t in b'.q.timers <==> t in db.q.timers || ArmedBy(id, run.curSeq, events, n, t))
    decreases n
  {
    hide AppendOne;
    hide Begun;
    if n > 0 {
      UpToEffect(db, id, run, events, now, n - 1);
      var b := AppendUpTo(db, db, id, run, events, now, n - 1);
      OneEffect(db, b, id, run, run.curSeq + n, events[n - 1], now);
    }
  }

  /** The armed workflow timers after an effect. */
  predicate AlarmAfter(wf: Engine, q: Queue, e: Effect, t: Timer) {
    match e
    case Decide(run, epoch, atSeq, events, _) =>
      t in q.timers || (Fenced(wf, run, epoch, atSeq) && ArmedBy(run, atSeq, events, |events|, t))
    case Ring(u, _) => t in q.timers && t != u
    case _ => t in q.timers
  }

  ghost predicate Effected(db: Db, b: Db, e: Effect) {
    b.wf == After(db.wf, e) && forall t: Timer :: IsAlarm(t) ==> (t in b.q.timers <==> AlarmAfter(db.wf, db.q, e, t))
  }

  // ----- Every command -----

  lemma EndEffect(b: Db, l: nat, row: Lease)
    ensures EndLease(b, l, row).wf == b.wf && SameAlarms(b.q, EndLease(b, l, row).q)
  {
  }

  lemma SameAlarmsThen(q: Queue, q1: Queue, q2: Queue)
    requires SameAlarms(q, q1) && SameAlarms(q1, q2)
    ensures SameAlarms(q, q2)
  {
  }

  lemma AckEffect(db: Db, b: Db, l: nat)
    ensures ApplyAck(db, b, l).b.wf == b.wf && SameAlarms(b.q, ApplyAck(db, b, l).b.q)
  {
  }

  lemma RequeueEffect(db: Db, b: Db, m: Message, gm: GroupMeta, readyAt: nat, now: nat)
    ensures NackReady(db, b, m, gm, readyAt, now).b.wf == b.wf
    ensures SameAlarms(b.q, NackReady(db, b, m, gm, readyAt, now).b.q)
  {
  }

  /** The effect of what a removal buries. */
  function RemovalEffect(removal: Option<M.Move>): Effect {
    match removal
    case Some(Bury(_, letter)) => BridgeOf(letter)
    case _ => Quiet
  }

  lemma NackEffect(db: Db, b: Db, l: nat, mode: NackMode, delay: nat, meta: map<string, string>, now: nat)
    requires b.wf == db.wf
    ensures var b' := ApplyNack(db, b, l, mode, delay, meta, now).b;
            b'.wf == After(db.wf, RemovalEffect(T.NackRemoval(db.q, l, mode, meta, now))) && SameAlarms(b.q, b'.q)
  {
    hide NackDead;
    hide NackReady;
    hide EndLease;
    hide BridgeOf;
    hide SameAlarms;
    hide Backoff.BackoffMs;
    SelfAlarms(b.q);
    if l in db.q.leases {
      var row := db.q.leases[l];
      EndEffect(b, l, row);
      if Holds(db.q, l) {
        var m, gm0 := db.q.messages[row.key], MetaOrZero(db.q, row.key.group);
        var gm, b1 := gm0.(inflight := Decr(gm0.inflight)), EndLease(b, l, row);
        match T.NackLetter(m, mode, meta, now)
        case Some(letter) =>
          DeathEffect(db, b1, letter.original, gm, letter.reason, meta, now);
          SameAlarmsThen(b.q, b1.q, NackDead(db, b1, letter.original, gm, letter.reason, meta, now).b.q);
        case None =>
          var m1 := if mode.Retry? then m.(attempt := m.attempt + 1) else m;
          var wait := if mode.Retry? && delay == 0 then Backoff.BackoffMs(m.key.id, m1.attempt) else delay;
          RequeueEffect(db, b1, m1, gm, Add64(now, wait), now);
          SameAlarmsThen(b.q, b1.q, NackReady(db, b1, m1, gm, Add64(now, wait), now).b.q);
      }
    }
  }

  lemma CompleteEffect(db: Db, c: Command)
    requires c.Complete?
    ensures var b' := Step(db, c).b;
            b'.wf == After(db.wf, RemovalEffect(T.Removal(db, c))) && SameAlarms(db.q, b'.q)
  {
    hide ApplyAck;
    hide ApplyNack;
    hide T.NackRemoval;
    hide BridgeOf;
    hide SameAlarms;
    SelfAlarms(db.q);
    if c.hash in db.tokens {
      var b1 := db.(tokens := db.tokens - {c.hash});
      AckEffect(db, b1, db.tokens[c.hash]);
      NackEffect(db, b1, db.tokens[c.hash], Retry, c.delay, c.meta, c.now);
    }
  }

  lemma FireBodyEffect(db: Db, t: Timer, fireAt: nat)
    requires t in db.q.timers && !IsAlarm(t)
    ensures var b' := T.Fired1(db, t, fireAt);
            b'.wf == After(db.wf, RemovalEffect(T.FireRemoval(db.q, t.ref, fireAt))) && SameAlarms(db.q, b'.q)
  {
    hide NackDead;
    hide NackReady;
    hide EndLease;
    hide BridgeOf;
    hide SameAlarms;
    SelfAlarms(db.q);
    match t.ref
    case ReadyAt(key) => ReadyAtEffect(db, key, db.q.timers[t]);
    case LeaseDeadline(l) => DeadlineEffect(db, l, db.q.timers[t], fireAt);
    case LeaseMaxLife(l) =>
      if Holds(db.q, l) {
        var row := db.q.leases[l];
        var gm0, b1 := MetaOrZero(db.q, row.key.group), EndLease(db, l, row);
        var gm := gm0.(inflight := Decr(gm0.inflight));
        EndEffect(db, l, row);
        DeathEffect(db, b1, db.q.messages[row.key], gm, "max_lease_lifetime", map[], fireAt);
        SameAlarmsThen(db.q, b1.q,
            NackDead(db, b1, db.q.messages[row.key], gm, "max_lease_lifetime", map[], fireAt).b.q);
      }
    case MsgExpiry(key) =>
      if key in db.q.messages && db.q.messages[key].state != Leased {
        var m, gm := db.q.messages[key], MetaOrZero(db.q, key.group);
        DeathEffect(db, db, m, if m.state == Ready then gm.(ready := Decr(gm.ready))
            else gm.(delayed := Decr(gm.delayed)), "ttl", map[], fireAt);
      }
    case DedupExpiry(lane, key) =>
  }

  lemma ReadyAtEffect(db: Db, key: MsgKey, epoch: nat)
    ensures FireReadyAt(db, db, key, epoch).wf == db.wf && SameAlarms(db.q, FireReadyAt(db, db, key, epoch).q)
  {
  }

  lemma DeadlineEffect(db: Db, l: nat, epoch: nat, fireAt: nat)
    ensures FireDeadline(db, db, l, epoch, fireAt).wf == db.wf
    ensures SameAlarms(db.q, FireDeadline(db, db, l, epoch, fireAt).q)
  {
  }

  lemma FireWf(db: Db, t: Timer, fireAt: nat)
    requires t in db.q.timers
    ensures ApplyFire(db, db, t, fireAt).b ==
              T.Fired1(db, t, fireAt).(q := DelTimer(T.Fired1(db, t, fireAt).q, t.due, t.ref))
  {
    hide FireReadyAt;
    hide FireDeadline;
    hide FireMaxLife;
    hide AppendExternal;
    hide FireExpiry;
  }

  lemma FireEffect(db: Db, c: Command)
    requires c.Fire?
    ensures Effected(db, Step(db, c).b, EffectOf(db, c))
  {
    hide T.FireRemoval;
    hide BridgeOf;
    hide AppendExternal;
    if c.timer in db.q.timers {
      FireWf(db, c.timer, c.fireAt);
      hide ApplyFire;
      if IsAlarm(c.timer) {
        AdvanceEffect(db, db, c.timer.ref.run, TimerFired, Fired(c.timer.ref.started), c.fireAt);
      } else {
        FireBodyEffect(db, c.timer, c.fireAt);
        hide T.Fired1;
        BridgeIsQuietOrTerminal(T.FireRemoval(db.q, c.timer.ref, c.fireAt));
      }
    }
  }

  lemma BridgeIsQuietOrTerminal(removal: Option<M.Move>)
    ensures RemovalEffect(removal).Quiet? || RemovalEffect(removal).Terminal?
  {
  }

  lemma DecideEffect(db: Db, c: Command)
    requires c.AppendEvents?
    ensures Effected(db, Step(db, c).b, EffectOf(db, c))
  {
    hide AppendUpTo;
    hide EventUpTo;
    if Fenced(db.wf, c.run, c.epoch, c.atSeq) {
      UpToEffect(db, c.run, db.wf.runs[c.run], c.events, c.now, |c.events|);
    }
  }

  lemma RunEffect(db: Db, c: Command)
    requires c.StartRun? || c.CompleteActivity? || c.SignalRun? || c.CancelRun?
    ensures Effected(db, Step(db, c).b, EffectOf(db, c))
  {
    hide CreateRun;
    hide Begun;
    hide AppendExternal;
    hide RecordActivityTerminal;
    match c
    case StartRun(wfType, tenant, input, parent, now) => CreateEffect(db, db, wfType, tenant, input, parent, now);
    case CompleteActivity(run, sched, success, result, now) =>
        TerminalEffect(db, db, run, sched, !success, result, now);
    case SignalRun(run, name, payload, now) => AdvanceEffect(db, db, run, SignalReceived, Signal(name, payload), now);
    case CancelRun(_, _, _) =>
  }

  lemma PublishEffect(db: Db, p: PublishCmd)
    ensures ApplyPublish(db, db, p).b.wf == db.wf && SameAlarms(db.q, ApplyPublish(db, db, p).b.q)
  {
    hide MetaAfterPublish;
    hide NewMessage;
  }

  lemma AddEffect(s: BatchState, c: PublishCmd, g: Group, gm: GroupMeta)
    ensures BatchAdd(s, c, g, gm).b.wf == s.b.wf && SameAlarms(s.b.q, BatchAdd(s, c, g, gm).b.q)
  {
    hide MetaAfterPublish;
    hide NewMessage;
  }

  lemma {:induction false} BatchEffect(db: Db, items: seq<PublishCmd>, n: nat)
    requires n <= |items|
    ensures var s := BatchUpTo(db, db, items, n); s.b.wf == db.wf && SameAlarms(db.q, s.b.q)
    decreases n
  {
    hide BatchAdd;
    hide SameAlarms;
    SelfAlarms(db.q);
    if n > 0 {
      BatchEffect(db, items, n - 1);
      var s, c := BatchUpTo(db, db, items, n - 1), items[n - 1];
      var gk := Joined(c.group.lane, c.group.name);
      var (g, gm) := if gk in s.cache then s.cache[gk] else (c.group, LoadMeta(db.q, c.group));
      AddEffect(s, c, g, gm);
      SameAlarmsThen(db.q, s.b.q, BatchAdd(s, c, g, gm).b.q);
    }
  }

  lemma {:induction false} PersistedTimers(q: Queue, cache: map<string, (Group, GroupMeta)>, order: seq<string>)
    ensures Persisted(q, cache, order).timers == q.timers
    decreases |order|
  {
    if order != [] { PersistedTimers(q, cache, order[..|order| - 1]); }
  }

  lemma WholeBatchEffect(db: Db, items: seq<PublishCmd>)
    ensures var b := ApplyPublishBatch(db, db, items).b; b.wf == db.wf && SameAlarms(db.q, b.q)
  {
    hide Persisted;
    var s := BatchUpTo(db, db, items, |items|);
    BatchEffect(db, items, |items|);
    PersistedTimers(s.b.q, s.cache, s.order);
  }

  lemma LeaseEffect(db: Db, c: Command)
    requires c.LeaseNext?
    ensures ApplyLease(db, db, c).b.wf == db.wf && SameAlarms(db.q, ApplyLease(db, db, c).b.q)
  {
    hide HeadReady;
  }

  lemma RedriveEffect(db: Db, g: Group, id: nat, now: nat)
    ensures var b := ApplyRedrive(db, db, g, id, now).b; b.wf == db.wf && SameAlarms(db.q, b.q)
  {
    hide DeadStamps;
    hide MetaAfterPublish;
    hide NewMessage;
  }

  predicate QueueOnly(c: Command) {
    c.Publish? || c.PublishBatch? || c.LeaseNext? || c.Ack? || c.ExtendLease? || c.GroupConfig? || c.Lifecycle? ||
        c.IssueToken?
    || c.Singleton? || c.Redrive? || c.Unknown?
  }

  lemma ExtendEffect(db: Db, l: nat, deadline: nat)
    ensures var b := ApplyExtend(db, db, l, deadline).b; b.wf == db.wf && SameAlarms(db.q, b.q)
  {
  }

  lemma ControlEffect(db: Db, c: Command)
    requires c.GroupConfig? || c.Lifecycle? || c.IssueToken? || c.Singleton? || c.Unknown?
    ensures Step(db, c).b.wf == db.wf && Step(db, c).b.q.timers == db.q.timers
  {
    hide Droppable;
    hide ApplySingleton;
    if c.Singleton? { SingletonEffect(db, c); }
    if c.Lifecycle? { LifecycleEffect(db, c.group, c.op); }
    hide ApplyLifecycle;
  }

  lemma LifecycleEffect(db: Db, g: Group, op: GroupOp)
    ensures var b := ApplyLifecycle(db, db, g, op).b; b.wf == db.wf && b.q.timers == db.q.timers
  {
  }

  lemma SingletonEffect(db: Db, c: Command)
    requires c.Singleton?
    ensures ApplySingleton(db, db, c.sop, c.name, c.holder, c.ttl, c.fence, c.now).b.wf == db.wf
    ensures ApplySingleton(db, db, c.sop, c.name, c.holder, c.ttl, c.fence, c.now).b.q == db.q
  {
  }

  lemma QueueOnlyEffect(db: Db, c: Command)
    requires QueueOnly(c)
    ensures Step(db, c).b.wf == db.wf && SameAlarms(db.q, Step(db, c).b.q)
  {
    if c.Publish? {
      PublishEffect(db, c.p);
    } else if c.PublishBatch? {
      WholeBatchEffect(db, c.items);
    } else if c.LeaseNext? {
      LeaseEffect(db, c);
    } else if c.Ack? {
      AckEffect(db, db, c.lease);
    } else if c.Redrive? {
      RedriveEffect(db, c.group, c.id, c.now);
    } else if c.ExtendLease? {
      ExtendEffect(db, c.lease, c.deadline);
    } else {
      ControlEffect(db, c);
      hide Step;
      SameTimersSameAlarms(db.q, Step(db, c).b.q, Step(db, c).b.q);
    }
    hide *;
  }

  /** Every command moves the engine by its effect, and no other way. */
  lemma StepEffect(db: Db, c: Command)
    ensures Effected(db, Step(db, c).b, EffectOf(db, c))
  {
    if c.Fire? {
      FireEffect(db, c);
    } else if c.AppendEvents? {
      DecideEffect(db, c);
    } else if c.StartRun? || c.CompleteActivity? || c.SignalRun? || c.CancelRun? {
      RunEffect(db, c);
    } else if c.Nack? {
      NackEffect(db, db, c.lease, c.mode, c.delay, c.meta, c.now);
      hide ApplyNack;
      BridgeIsQuietOrTerminal(T.Removal(db, c));
      hide BridgeOf;
      hide T.NackRemoval;
    } else if c.Complete? {
      CompleteEffect(db, c);
      hide Step;
      BridgeIsQuietOrTerminal(T.Removal(db, c));
      hide BridgeOf;
      hide T.Removal;
    } else {
      QueueOnlyEffect(db, c);
      hide Step;
    }
  }

  // ----- Read from an effect -----

  lemma EffectedWf(db: Db, b: Db, e: Effect)
    requires Effected(db, b, e)
    ensures b.wf == After(db.wf, e)
  {
  }

  /** A workflow timer takes no message out of the queue. */
  lemma AlarmsTakeNothing(db: Db, c: Command)
    requires c.Fire? && IsAlarm(c.timer)
    ensures T.Removal(db, c).None?
  {
  }
}
