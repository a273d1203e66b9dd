/** Every effect that tasks a run, or schedules an activity, puts that very message into the
    queue in the same batch, under the id the committed meta hands out. */
module Dispatch {
  import opened Bytes
  import opened Store
  import opened Commands
  import opened Handlers
  import opened Durable
  import opened History
  import C = Custody
  import J = Journal
  import T = Steps
  import M = Moves

  // ----- Workflow tasks -----

  /** The effect gives the run a new task. */
  ghost predicate Tasks(wf: Engine, e: Effect, r: nat) {
    var wf' := After(wf, e);
    IsRunning(wf', r) && wf'.runs[r].pending && (r in wf.runs ==> wf'.runs[r] != wf.runs[r])
  }

  predicate IsTaskLane(g: Group) {
    WORKFLOW_LANE <= g.lane
  }

  function TaskKey(q: Queue, wfType: string, r: nat): MsgKey {
    C.NextKey(q, TaskGroup(wfType, r))
  }

  predicate HasTask(q0: Queue, q: Queue, wfType: string, r: nat) {
    var k := TaskKey(q0, wfType, r);
    k in q.messages && C.IsTask(q.messages[k], k, WfTask(r, wfType))
  }

  lemma TaskDispatched(db: Db, b: Db, id: nat, run: Run)
    requires run.status == WfRunning && !run.pending
    ensures HasTask(db.q, DispatchTask(db, b, id, run).0.q, run.wfType, id)
  {
  }

  lemma RunCreated(db: Db, b: Db, wfType: string, tenant: string, input: Blob, parent: nat, now: nat)
    ensures HasTask(db.q, CreateRun(db, b, wfType, tenant, input, parent, now).q, wfType, db.wf.nextRun)
  {
    hide DispatchTask;
    hide HasTask;
    var id := db.wf.nextRun;
    var run := Run(wfType, tenant, WfRunning, 0, 1, input, now, now, parent, false);
    TaskDispatched(db, PutEvent(b.(wf := b.wf.(nextRun := id + 1)), id, 1, Event(WorkflowStarted, now, Raw(input))),
        id, run);
  }

  lemma RunAdvanced(db: Db, b: Db, id: nat, kind: EventKind, attrs: Attrs, now: nat)
    requires IsRunning(db.wf, id)
    ensures HasTask(db.q, AppendExternal(db, b, id, kind, attrs, now).q, db.wf.runs[id].wfType, id)
  {
    hide DispatchTask;
    hide HasTask;
    var run := Advanced(db.wf.runs[id], now);
    TaskDispatched(db, PutEvent(b, id, run.curSeq, Event(kind, now, attrs)), id, run);
  }

  lemma ActivityResolved(db: Db, b: Db, id: nat, sched: nat, failed: bool, result: Blob, now: nat)
    requires Unresolved(db.wf, id, sched)
    ensures HasTask(db.q, RecordActivityTerminal(db, b, id, sched, failed, result, now).b.q, db.wf.runs[id].wfType, id)
  {
    hide AppendExternal;
    hide HasTask;
    RunAdvanced(db, b.(wf := b.wf.(done := b.wf.done + {EventKey(id, sched)})), id,
                if failed then ActivityFailed else ActivityCompleted, Outcome(sched, !failed, result), now);
  }

  /** The run that a buried activity's report advances, if it advances one. */
  predicate Reports(wf: Engine, letter: DeadLetter) {
    BridgeOf(letter).Terminal? && Unresolved(wf, letter.original.payload.run, letter.original.payload.sched)
  }

  lemma DeathReports(db: Db, b: Db, m: Message, gm: GroupMeta, reason: string, meta: map<string, string>, ts: nat)
    requires Reports(db.wf, T.Letter(m, reason, meta, ts))
    ensures HasTask(db.q, NackDead(db, b, m, gm, reason, meta, ts).b.q, db.wf.runs[m.payload.run].wfType, m.payload.run)
  {
    hide RecordActivityTerminal;
    var b1 := b.(q := DropMsg(PutDead(b.q, DlqKey(m.key, ts), DeadLetter(m, m.attempt, reason, meta, ts)), m.key));
    ActivityResolved(db, b1, m.payload.run, m.payload.sched, true, Ascii("activity_dead_lettered: " + reason), ts);
  }

  ghost predicate ReportsOnTime(db: Db, b: Db, removal: Option<M.Move>) {
    match removal
    case Some(Bury(_, letter)) =>
      Reports(db.wf, letter) ==>
          HasTask(db.q, b.q, db.wf.runs[letter.original.payload.run].wfType, letter.original.payload.run)
    case _ => true
  }

  lemma NackReports(db: Db, b: Db, l: nat, mode: NackMode, delay: nat, meta: map<string, string>, now: nat)
    ensures ReportsOnTime(db, ApplyNack(db, b, l, mode, delay, meta, now).b, T.NackRemoval(db.q, l, mode, meta, now))
  {
    hide NackDead;
    hide NackReady;
    hide EndLease;
    hide HasTask;
    hide Reports;
    if Holds(db.q, l) {
      var row := db.q.leases[l];
      var m, gm0 := db.q.messages[row.key], MetaOrZero(db.q, row.key.group);
      var gm, b1 := gm0.(inflight := Decr(gm0.inflight)), EndLease(b, l, row);
      match T.NackLetter(m, mode, meta, now)
      case Some(letter) =>
        if Reports(db.wf, letter) { DeathReports(db, b1, letter.original, gm, letter.reason, meta, now); }
      case None =>
    }
  }

  lemma MaxLifeReports(db: Db, l: nat, fireAt: nat)
    ensures ReportsOnTime(db, FireMaxLife(db, db, l, fireAt), T.FireRemoval(db.q, LeaseMaxLife(l), fireAt))
  {
    hide NackDead;
    hide EndLease;
    hide HasTask;
    hide Reports;
    if Holds(db.q, l) {
      var row := db.q.leases[l];
      var gm0, m := MetaOrZero(db.q, row.key.group), db.q.messages[row.key];
      if Reports(db.wf, T.Letter(m, "max_lease_lifetime", map[], fireAt)) {
        DeathReports(db, EndLease(db, l, row), m, gm0.(inflight := Decr(gm0.inflight)), "max_lease_lifetime", map[],
            fireAt);
      }
    }
  }

  lemma ExpiryReports(db: Db, key: MsgKey, fireAt: nat)
    ensures ReportsOnTime(db, FireExpiry(db, db, key, fireAt), T.FireRemoval(db.q, MsgExpiry(key), fireAt))
  {
    hide NackDead;
    hide HasTask;
    hide Reports;
    if key in db.q.messages && db.q.messages[key].state != Leased {
      var m, gm0 := db.q.messages[key], MetaOrZero(db.q, key.group);
      var gm := if m.state == Ready then gm0.(ready := Decr(gm0.ready)) else gm0.(delayed := Decr(gm0.delayed));
      if Reports(db.wf, T.Letter(m, "ttl", map[], fireAt)) {
        DeathReports(db, db, m, gm, "ttl", map[], fireAt);
      }
    }
  }

  lemma FireReports(db: Db, t: Timer, fireAt: nat)
    requires t in db.q.timers
    ensures ReportsOnTime(db, ApplyFire(db, db, t, fireAt).b, T.FireRemoval(db.q, t.ref, fireAt))
  {
    hide ReportsOnTime;
    FireWf(db, t, fireAt);
    hide ApplyFire;
    if t.ref.LeaseMaxLife? {
      MaxLifeReports(db, t.ref.lease, fireAt);
    } else if t.ref.MsgExpiry? {
      ExpiryReports(db, t.ref.key, fireAt);
    } else {
      NothingToReport(db, T.Fired1(db, t, fireAt), T.FireRemoval(db.q, t.ref, fireAt));
    }
    hide FireMaxLife;
    hide FireExpiry;
    SameMessagesSameReports(db, T.Fired1(db, t, fireAt), ApplyFire(db, db, t, fireAt).b,
        T.FireRemoval(db.q, t.ref, fireAt));
  }

  lemma NothingToReport(db: Db, b: Db, removal: Option<M.Move>)
    requires removal.None?
    ensures ReportsOnTime(db, b, removal)
  {
  }

  lemma SameMessagesSameReports(db: Db, b: Db, b': Db, removal: Option<M.Move>)
    requires ReportsOnTime(db, b, removal) && b'.q.messages == b.q.messages
    ensures ReportsOnTime(db, b', removal)
  {
  }

  lemma SameMessagesSameTask(db: Db, b: Db, b': Db)
    requires b'.q.messages == b.q.messages
    ensures forall wfType, r :: HasTask(db.q, b.q, wfType, r) ==> HasTask(db.q, b'.q, wfType, r)
  {
  }

  lemma CompleteReports(db: Db, c: Command)
    requires c.Complete?
    ensures ReportsOnTime(db, Step(db, c).b, T.Removal(db, c))
  {
    hide ApplyAck;
    hide ApplyNack;
    hide HasTask;
    hide Reports;
    hide T.NackRemoval;
    if c.hash in db.tokens && !c.success {
      NackReports(db, db.(tokens := db.tokens - {c.hash}), db.tokens[c.hash], Retry, c.delay, c.meta, c.now);
    }
  }

  /** A successor run keeps its task while the rest of the decision is written. */
  lemma {:induction false} SuccessorTasked(db: Db, id: nat, run: Run, events: seq<EventIn>, now: nat, n: nat)
    requires n <= |events|
    ensures (exists i :: 0 <= i < n && events[i].kind == WorkflowContinuedAsNew) ==>
              HasTask(db.q, AppendUpTo(db, db, id, run, events, now, n).q, run.wfType, db.wf.nextRun)
    decreases n
  {
    hide HasTask;
    hide CreateRun;
    hide PublishReady;
    if n > 0 {
      SuccessorTasked(db, id, run, events, now, n - 1);
      var b, e := AppendUpTo(db, db, id, run, events, now, n - 1), events[n - 1];
      var b1 := PutEvent(b, id, run.curSeq + n, Event(e.kind, now, e.attrs));
      SameMessagesSameTask(db, b, b1);
      if e.kind == WorkflowContinuedAsNew {
        RunCreated(db, b1, run.wfType, run.tenant, NextInputOf(e.attrs), id, now);
      } else if e.kind == ActivityScheduled && e.attrs.Schedule? && e.attrs.actType != "" {
        OtherLaneKeepsTask(db, b1, ActivityGroup(e.attrs.actType, e.attrs.tenant),
            ActTask(id, run.curSeq + n, e.attrs.actType, e.attrs.input), 0, run.wfType);
      } else {
        SameMessagesSameTask(db, b, AppendUpTo(db, db, id, run, events, now, n));
      }
    }
  }

  lemma OtherLaneKeepsTask(db: Db, b: Db, g: Group, payload: Payload, now: nat, wfType: string)
    requires ACTIVITY_LANE <= g.lane
    ensures forall r :: HasTask(db.q, b.q, wfType, r) ==>
              HasTask(db.q, PublishReady(db, b, g, payload, now).q, wfType, r)
  {
    forall r | HasTask(db.q, b.q, wfType, r) ensures HasTask(db.q, PublishReady(db, b, g, payload, now).q, wfType, r) {
      J.LanesDiffer(wfType, g.lane);
    }
  }

  /** Which run an effect can task. */
  lemma {:induction false} SuccessorOnlyByContinue(wf: Engine, id: nat, run: Run, events: seq<EventIn>, now: nat,
          n: nat)
    requires n <= |events|
    ensures var out := EventUpTo(wf, wf, id, run, events, now, n);
            forall r :: r in out.runs && !(r in wf.runs && out.runs[r] == wf.runs[r]) ==>
              r == wf.nextRun && out.runs[r].wfType == run.wfType
              && exists i :: 0 <= i < n && events[i].kind == WorkflowContinuedAsNew
    decreases n
  {
    if n > 0 { SuccessorOnlyByContinue(wf, id, run, events, now, n - 1); }
  }

  lemma DecisionTasks(db: Db, c: Command, r: nat)
    requires c.AppendEvents? && Tasks(db.wf, EffectOf(db, c), r)
    ensures HasTask(db.q, Step(db, c).b.q, After(db.wf, EffectOf(db, c)).runs[r].wfType, r)
  {
    hide AppendUpTo;
    hide EventUpTo;
    hide HasTask;
    if Fenced(db.wf, c.run, c.epoch, c.atSeq) {
      var run := db.wf.runs[c.run];
      SuccessorOnlyByContinue(db.wf, c.run, run, c.events, c.now, |c.events|);
      SuccessorTasked(db, c.run, run, c.events, c.now, |c.events|);
    }
  }

  /** Apart from a decision's successor, an effect tasks the run it is about. */
  lemma TasksItsRun(wf: Engine, e: Effect, r: nat)
    requires Tasks(wf, e, r) && !e.Decide?
    ensures match e
            case Begin(wfType, _, _, _, _) => r == wf.nextRun && After(wf, e).runs[r].wfType == wfType
            case External(run, _, _, _) =>
                r == run && IsRunning(wf, r) && After(wf, e).runs[r].wfType == wf.runs[r].wfType
            case Ring(t, _) => IsAlarm(t) && r == t.ref.run && IsRunning(wf, r)
                && After(wf, e).runs[r].wfType == wf.runs[r].wfType
            case Terminal(run, sched, _, _, _) =>
                r == run && Unresolved(wf, r, sched) && After(wf, e).runs[r].wfType == wf.runs[r].wfType
            case _ => false
  {
  }

  lemma RemovalTasks(db: Db, c: Command, r: nat)
    requires Tasks(db.wf, EffectOf(db, c), r) && (c.Nack? || c.Complete? || (c.Fire? && !IsAlarm(c.timer)))
    ensures HasTask(db.q, Step(db, c).b.q, After(db.wf, EffectOf(db, c)).runs[r].wfType, r)
  {
    TasksItsRun(db.wf, EffectOf(db, c), r);
    hide HasTask;
    hide After;
    hide Unresolved;
    if c.Nack? {
      NackReports(db, db, c.lease, c.mode, c.delay, c.meta, c.now);
      hide ApplyNack;
      hide T.NackRemoval;
    } else if c.Complete? {
      CompleteReports(db, c);
      hide Step;
      hide T.Removal;
    } else {
      if c.timer in db.q.timers { FireReports(db, c.timer, c.fireAt); }
      hide ApplyFire;
      hide T.FireRemoval;
    }
  }

  lemma RunTasks(db: Db, c: Command, r: nat)
    requires Tasks(db.wf, EffectOf(db, c), r) && (c.StartRun? || c.CompleteActivity? || c.SignalRun? || c.CancelRun?)
    ensures HasTask(db.q, Step(db, c).b.q, After(db.wf, EffectOf(db, c)).runs[r].wfType, r)
  {
    TasksItsRun(db.wf, EffectOf(db, c), r);
    hide HasTask;
    hide After;
    hide CreateRun;
    hide AppendExternal;
    hide RecordActivityTerminal;
    match c
    case StartRun(wfType, tenant, input, parent, now) => RunCreated(db, db, wfType, tenant, input, parent, now);
    case CompleteActivity(run, sched, success, result, now) =>
        ActivityResolved(db, db, run, sched, !success, result, now);
    case SignalRun(run, name, payload, now) => RunAdvanced(db, db, run, SignalReceived, Signal(name, payload), now);
    case CancelRun(_, _, _) =>
  }

  lemma RingTasks(db: Db, c: Command, r: nat)
    requires Tasks(db.wf, EffectOf(db, c), r) && c.Fire? && IsAlarm(c.timer)
    ensures HasTask(db.q, Step(db, c).b.q, After(db.wf, EffectOf(db, c)).runs[r].wfType, r)
  {
    TasksItsRun(db.wf, EffectOf(db, c), r);
    if c.timer in db.q.timers {
      FireWf(db, c.timer, c.fireAt);
      RunAdvanced(db, db, r, TimerFired, Fired(c.timer.ref.started), c.fireAt);
      SameMessagesSameTask(db, T.Fired1(db, c.timer, c.fireAt), Step(db, c).b);
      hide HasTask;
      hide After;
      hide ApplyFire;
      hide AppendExternal;
    }
  }

  /** Whatever command tasks a run, the task is in the queue when the command commits, under
      the next id of the run's group. */
  lemma TaskedHasMessage(db: Db, c: Command, r: nat)
    requires Tasks(db.wf, EffectOf(db, c), r)
    ensures HasTask(db.q, Step(db, c).b.q, After(db.wf, EffectOf(db, c)).runs[r].wfType, r)
  {
    if c.AppendEvents? {
      DecisionTasks(db, c, r);
    } else if c.StartRun? || c.CompleteActivity? || c.SignalRun? || c.CancelRun? {
      RunTasks(db, c, r);
    } else if c.Fire? && IsAlarm(c.timer) {
      RingTasks(db, c, r);
    } else if c.Nack? || c.Complete? || c.Fire? {
      RemovalTasks(db, c, r);
    } else {
      TasksNobody(db, c, r);
    }
  }

  lemma TasksNobody(db: Db, c: Command, r: nat)
    requires QueueOnly(c)
    ensures !Tasks(db.wf, EffectOf(db, c), r)
  {
  }

  // ----- Groups of runs -----

  lemma {:induction false} DigitsDiffer(n: nat, m: nat)
    requires Digits(n) == Digits(m)
    ensures n == m
  {
    var s, t := Digits(n), Digits(m);
    assert s[|s| - 1] == ('0' as int + n % 10) as char && t[|t| - 1] == ('0' as int + m % 10) as char;
    assert n % 10 == m % 10;
    if n >= 10 && m >= 10 {
      assert s[..|s| - 1] == Digits(n / 10) && t[..|t| - 1] == Digits(m / 10);
      DigitsDiffer(n / 10, m / 10);
    }
  }

  /** The number a decimal numeral stands for. */
  function Numeral(s: string): nat {
    if s == "" then 0
    else
      var c := s[|s| - 1];
      10 * Numeral(s[..|s| - 1]) + if '0' <= c <= '9' then c as nat - '0' as nat else 0
  }

  lemma {:induction false} DigitsSpell(n: nat)
    ensures Digits(n) != "" && Numeral(Digits(n)) == n && forall c :: c in Digits(n) ==> '0' <= c <= '9'
  {
    if n >= 10 { DigitsSpell(n / 10); }
    var s := Digits(n);
    assert s[..|s| - 1] == if n < 10 then "" else Digits(n / 10);
  }

  /** A run's tasks go to its type's workflow lane, in the group its id spells in decimal; an
      activity's to its type's activity lane, in its tenant's group. */
  lemma LaneNames(wfType: string, r: nat, actType: string, tenant: string)
    ensures TaskGroup(wfType, r).lane == "__wf/" + wfType && Numeral(TaskGroup(wfType, r).name) == r
    ensures TaskGroup(wfType, r).name != "" && forall c :: c in TaskGroup(wfType, r).name ==> '0' <= c <= '9'
    ensures ActivityGroup(actType, tenant) == Group("__act/" + actType, tenant)
  {
    DigitsSpell(r);
  }

  /** Every run has a task group of its own. */
  lemma TaskGroupsDiffer(wfType: string, r: nat, wfType': string, r': nat)
    requires TaskGroup(wfType, r) == TaskGroup(wfType', r')
    ensures r == r' && wfType == wfType'
  {
    DigitsDiffer(r, r');
    var lane, n := TaskGroup(wfType, r).lane, |WORKFLOW_LANE|;
    assert lane[n..] == wfType && TaskGroup(wfType', r').lane[n..] == wfType';
  }

  lemma SignalDispatches(db: Db, r: nat, name: string, payload: Blob, now: nat)
    requires IsRunning(db.wf, r)
    ensures var q', t := Step(db, SignalRun(r, name, payload, now)).b.q, TaskKey(db.q, db.wf.runs[r].wfType, r);
            t in q'.messages && q'.messages[t].state == Ready && q'.messages == db.q.messages[t := q'.messages[t]]
  {
    hide TaskGroup;
  }

  lemma ReadyHasHead(q: Queue, t: MsgKey)
    requires t in q.messages && q.messages[t].state == Ready
    ensures HeadReady(q, t.group).Some?
  {
    hide Least;
    assert t.id in ReadyIds(q, t.group);
  }

  /** One task in flight per run is not guaranteed: while a task is leased, any external event
      makes a second one leasable. */
  lemma SecondTaskWhileFirstIsLeased(db: Db, r: nat, k: MsgKey, name: string, payload: Blob, now: nat)
    requires M.Inv(db.q) && IsRunning(db.wf, r) && k.group == TaskGroup(db.wf.runs[r].wfType, r)
    requires k in db.q.messages && db.q.messages[k].state == Leased
    ensures var b := Step(db, SignalRun(r, name, payload, now)).b;
            k in b.q.messages && b.q.messages[k].state == Leased && HeadReady(b.q, k.group).Some?
  {
    hide M.Inv;
    hide TaskGroup;
    hide HeadReady;
    hide Step;
    T.LiveIsKnown(db.q, k);
    SignalDispatches(db, r, name, payload, now);
    ReadyHasHead(Step(db, SignalRun(r, name, payload, now)).b.q, TaskKey(db.q, db.wf.runs[r].wfType, r));
  }
}
