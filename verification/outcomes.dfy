/** Exactly once: an activity's outcome is recorded once, a durable timer fires once. */
module Outcomes {
  import opened Bytes
  import opened Store
  import opened Commands
  import opened Handlers
  import opened Durable
  import opened History

  predicate IsOutcome(e: Event, sched: nat) {
    (e.kind == ActivityCompleted || e.kind == ActivityFailed) && e.attrs.Outcome? && e.attrs.sched == sched
  }

  predicate IsFiring(e: Event, started: nat) {
    e.kind == TimerFired && e.attrs == Fired(started)
  }

  predicate OutcomeAt(wf: Engine, run: nat, sched: nat, i: nat) {
    EventKey(run, i) in wf.history && IsOutcome(wf.history[EventKey(run, i)], sched)
  }

  predicate FiringAt(wf: Engine, run: nat, started: nat, i: nat) {
    EventKey(run, i) in wf.history && IsFiring(wf.history[EventKey(run, i)], started)
  }

  // ----- The invariants -----

  /** A marker stands exactly for an activity whose history holds an outcome, and then it
      holds one. */
  ghost predicate OneOutcome(wf: Engine) {
    && (forall run, sched :: EventKey(run, sched) in wf.done <==> exists i :: OutcomeAt(wf, run, sched, i))
    && (forall run, sched, i, j :: OutcomeAt(wf, run, sched, i) && OutcomeAt(wf, run, sched, j) ==> i == j)
  }

  /** A started timer has one armed row, or one firing, or neither. */
  ghost predicate OneFiring(wf: Engine, q: Queue) {
    && (forall t :: t in q.timers && IsAlarm(t) ==>
          EventKey(t.ref.run, t.ref.started) in wf.history
              && wf.history[EventKey(t.ref.run, t.ref.started)].kind == TimerStarted)
    && (forall t, i :: t in q.timers && IsAlarm(t) ==> !FiringAt(wf, t.ref.run, t.ref.started, i))
    && (forall t, u :: t in q.timers && u in q.timers && IsAlarm(t) && t.ref == u.ref ==> t == u)
    && (forall run, started, i, j :: FiringAt(wf, run, started, i) && FiringAt(wf, run, started, j) ==> i == j)
    && (forall run, started, i :: FiringAt(wf, run, started, i) ==>
          EventKey(run, started) in wf.history && wf.history[EventKey(run, started)].kind == TimerStarted)
  }

  /** Kinds only the leader may append. */
  predicate LeaderOnly(kind: EventKind) {
    kind == ActivityCompleted || kind == ActivityFailed || kind == TimerFired
  }

  /** A decision that passed the gate carries no leader-only event. */
  predicate FromGate(c: Command) {
    c.AppendEvents? ==> forall i :: 0 <= i < |c.events| ==> !LeaderOnly(c.events[i].kind)
  }

  ghost predicate Tame(e: Effect) {
    match e
    case Decide(_, _, _, events, _) => forall i :: 0 <= i < |events| ==> !LeaderOnly(events[i].kind)
    case External(_, kind, _, _) => !LeaderOnly(kind)
    case _ => true
  }

  /** New events are not leader-only. */
  ghost predicate AddsPlain(wf: Engine, wf': Engine) {
    && (forall k :: k in wf.history ==> k in wf'.history && wf'.history[k] == wf.history[k])
    && (forall k :: k in wf'.history && k !in wf.history ==> !LeaderOnly(wf'.history[k].kind))
  }

  lemma {:induction false} EventUpToPlain(wf: Engine, id: nat, events: seq<EventIn>, now: nat, n: nat)
    requires n <= |events| && id in wf.runs && forall i :: 0 <= i < |events| ==> !LeaderOnly(events[i].kind)
    ensures forall k :: k in EventUpTo(wf, wf, id, wf.runs[id], events, now, n).history && k !in wf.history ==>
              !LeaderOnly(EventUpTo(wf, wf, id, wf.runs[id], events, now, n).history[k].kind)
    decreases n
  {
    if n > 0 { EventUpToPlain(wf, id, events, now, n - 1); }
  }

  lemma PlainEffect(wf: Engine, e: Effect)
    requires Shape(wf) && Tame(e) && !e.Ring? && !e.Terminal?
    ensures AddsPlain(wf, After(wf, e)) && After(wf, e).done == wf.done
  {
    EffectKeepsShape(wf, e);
    hide EventUpTo;
    if e.Decide? && Fenced(wf, e.run, e.epoch, e.atSeq) {
      EventUpToPlain(wf, e.run, e.events, e.now, |e.events|);
      DecidedShape(wf, e.run, e.epoch, e.atSeq, e.events, e.now);
    }
  }

  lemma PlainKeepsOutcomes(wf: Engine, wf': Engine)
    requires AddsPlain(wf, wf') && wf'.done == wf.done && OneOutcome(wf)
    ensures OneOutcome(wf')
  {
    forall run, sched, i ensures OutcomeAt(wf', run, sched, i) <==> OutcomeAt(wf, run, sched, i) {}
    forall run, sched ensures EventKey(run, sched) in wf'.done <==> exists i :: OutcomeAt(wf', run, sched, i) {
      if i :| OutcomeAt(wf, run, sched, i) { assert OutcomeAt(wf', run, sched, i); }
      if i :| OutcomeAt(wf', run, sched, i) { assert OutcomeAt(wf, run, sched, i); }
    }
  }

  /** One event is appended to a run. */
  ghost predicate AddsOne(wf: Engine, wf': Engine, k: EventKey, e: Event) {
    k !in wf.history && wf'.history == wf.history[k := e]
  }

  lemma AdvanceAddsOne(wf: Engine, id: nat, kind: EventKind, attrs: Attrs, now: nat)
    requires Shape(wf) && IsRunning(wf, id)
    ensures AddsOne(wf, Advance(wf, id, kind, attrs, now), EventKey(id, wf.runs[id].curSeq + 1),
              Event(kind, now, attrs))
  {
  }

  lemma ResolveKeepsOutcomes(wf: Engine, id: nat, sched: nat, failed: bool, result: Blob, now: nat)
    requires Shape(wf) && OneOutcome(wf)
    ensures OneOutcome(Resolve(wf, id, sched, failed, result, now))
  {
    if Unresolved(wf, id, sched) {
      var wf' := Resolve(wf, id, sched, failed, result, now);
      var kind := if failed then ActivityFailed else ActivityCompleted;
      AdvanceAddsOne(wf, id, kind, Outcome(sched, !failed, result), now);
      hide Advance;
      OutcomeAdded(wf, wf', id, sched, wf.runs[id].curSeq + 1, Event(kind, now, Outcome(sched, !failed, result)));
    }
  }

  lemma OutcomeAdded(wf: Engine, wf': Engine, id: nat, sched: nat, at: nat, e: Event)
    requires OneOutcome(wf) && EventKey(id, sched) !in wf.done && AddsOne(wf, wf', EventKey(id, at), e)
    requires IsOutcome(e, sched)
    requires wf'.done == wf.done + {EventKey(id, sched)}
    ensures OneOutcome(wf')
  {
    forall run, s, i ensures OutcomeAt(wf', run, s, i) <==>
        OutcomeAt(wf, run, s, i) || (run == id && s == sched && i == at) {}
    forall run, s ensures EventKey(run, s) in wf'.done <==> exists i :: OutcomeAt(wf', run, s, i) {
      if i :| OutcomeAt(wf, run, s, i) { assert OutcomeAt(wf', run, s, i); }
      if i :| OutcomeAt(wf', run, s, i) { assert OutcomeAt(wf, run, s, i) || (run == id && s == sched); }
      assert OutcomeAt(wf', id, sched, at);
    }
  }

  lemma RingKeepsOutcomes(wf: Engine, t: Timer, now: nat)
    requires Shape(wf) && OneOutcome(wf) && t.ref.WfFired?
    ensures OneOutcome(After(wf, Ring(t, now)))
  {
    if IsRunning(wf, t.ref.run) {
      AdvanceAddsOne(wf, t.ref.run, TimerFired, Fired(t.ref.started), now);
      var wf' := After(wf, Ring(t, now));
      hide Advance;
      forall run, s, i ensures OutcomeAt(wf', run, s, i) <==> OutcomeAt(wf, run, s, i) {}
      forall run, s ensures EventKey(run, s) in wf'.done <==> exists i :: OutcomeAt(wf', run, s, i) {
        if i :| OutcomeAt(wf, run, s, i) { assert OutcomeAt(wf', run, s, i); }
        if i :| OutcomeAt(wf', run, s, i) { assert OutcomeAt(wf, run, s, i); }
      }
    }
  }

  lemma EffectKeepsOutcomes(wf: Engine, e: Effect)
    requires Shape(wf) && OneOutcome(wf) && Tame(e)
    ensures OneOutcome(After(wf, e))
  {
    if e.Terminal? {
      ResolveKeepsOutcomes(wf, e.run, e.sched, e.failed, e.result, e.now);
    } else if e.Ring? {
      if e.timer.ref.WfFired? { RingKeepsOutcomes(wf, e.timer, e.now); }
    } else {
      PlainEffect(wf, e);
      PlainKeepsOutcomes(wf, After(wf, e));
    }
  }

  lemma GateIsTame(db: Db, c: Command)
    requires FromGate(c)
    ensures Tame(EffectOf(db, c))
  {
  }

  /** Over every run of the log: a done-marker exists if and only if the history holds an
      outcome of that activity, and it never holds two. */
  lemma {:induction false} OutcomesOnce(log: seq<Command>, i: nat)
    requires i <= |log| && forall j :: 0 <= j < |log| ==> FromGate(log[j])
    ensures OneOutcome(DbAt(log, i).wf)
    decreases i
  {
    hide Step;
    hide After;
    hide EffectOf;
    hide Tame;
    hide FromGate;
    if i == 0 {
      NoOutcomes();
    } else {
      OutcomesOnce(log, i - 1);
      ReachableShape(log, i - 1);
      DbAtNext(log, i - 1);
      StepEffect(DbAt(log, i - 1), log[i - 1]);
      GateIsTame(DbAt(log, i - 1), log[i - 1]);
      EffectKeepsOutcomes(DbAt(log, i - 1).wf, EffectOf(DbAt(log, i - 1), log[i - 1]));
    }
  }

  lemma NoOutcomes()
    ensures OneOutcome(EMPTY_DB.wf) && OneFiring(EMPTY_DB.wf, EMPTY_DB.q)
  {
  }

  // ----- Timers -----

  /** No firing is added, and no alarm but those given. */
  lemma KeepsFiring(wf: Engine, wf': Engine, q: Queue, q': Queue)
    requires OneFiring(wf, q)
    requires forall k :: k in wf.history ==> k in wf'.history && wf'.history[k] == wf.history[k]
    requires forall k :: k in wf'.history && k !in wf.history ==> wf'.history[k].kind != TimerFired
    requires forall t :: t in q'.timers && IsAlarm(t) ==> t in q.timers
    ensures OneFiring(wf', q')
  {
    forall run, started, i ensures FiringAt(wf', run, started, i) <==> FiringAt(wf, run, started, i) {}
  }

  lemma RingKeepsFiring(wf: Engine, q: Queue, q': Queue, t: Timer, now: nat)
    requires Shape(wf) && OneFiring(wf, q) && t in q.timers && IsAlarm(t)
    requires forall u :: u in q'.timers && IsAlarm(u) ==> u in q.timers && u != t
    ensures OneFiring(After(wf, Ring(t, now)), q')
  {
    var wf' := After(wf, Ring(t, now));
    if IsRunning(wf, t.ref.run) {
      var at := wf.runs[t.ref.run].curSeq + 1;
      AdvanceAddsOne(wf, t.ref.run, TimerFired, Fired(t.ref.started), now);
      hide Advance;
      forall run, started, i
        ensures FiringAt(wf', run, started, i) <==>
                  FiringAt(wf, run, started, i) || (run == t.ref.run && started == t.ref.started && i == at)
      {
      }
      forall u | u in q'.timers && IsAlarm(u) ensures u.ref != t.ref {
        assert u in q.timers;
      }
      hide FiringAt;
    } else {
      KeepsFiring(wf, wf, q, q');
    }
  }

  lemma TerminalKeepsFiring(wf: Engine, q: Queue, q': Queue, e: Effect)
    requires Shape(wf) && OneFiring(wf, q) && e.Terminal?
    requires forall t :: t in q'.timers && IsAlarm(t) ==> t in q.timers
    ensures OneFiring(After(wf, e), q')
  {
    if Unresolved(wf, e.run, e.sched) {
      AdvanceAddsOne(wf, e.run, if e.failed then ActivityFailed else ActivityCompleted,
          Outcome(e.sched, !e.failed, e.result), e.now);
      hide Advance;
      KeepsFiring(wf, After(wf, e), q, q');
    } else {
      KeepsFiring(wf, wf, q, q');
    }
  }

  /** A decision's new alarms wait on its own new TIMER_STARTED events. */
  lemma DecideKeepsFiring(wf: Engine, q: Queue, q': Queue, e: Effect)
    requires Shape(wf) && OneFiring(wf, q) && e.Decide? && Tame(e)
    requires forall t: Timer :: IsAlarm(t) ==> (t in q'.timers <==> AlarmAfter(wf, q, e, t))
    ensures OneFiring(After(wf, e), q')
  {
    PlainEffect(wf, e);
    var wf' := After(wf, e);
    if Fenced(wf, e.run, e.epoch, e.atSeq) {
      DecidedFollows(wf, e.run, e.epoch, e.atSeq, e.events, e.now);
      hide Decided;
      hide After;
      hide OneFiring;
      forall t | t in q'.timers && IsAlarm(t) && t !in q.timers
        ensures EventKey(t.ref.run, t.ref.started) in wf'.history
        ensures wf'.history[EventKey(t.ref.run, t.ref.started)].kind == TimerStarted
        ensures EventKey(t.ref.run, t.ref.started) !in wf.history
      {
        AlarmIsNew(wf, wf', e, t);
      }
      NewAlarms(wf, wf', q, q', e);
    } else {
      KeepsFiring(wf, wf, q, q');
    }
  }

  lemma AlarmIsNew(wf: Engine, wf': Engine, e: Effect, t: Timer)
    requires Shape(wf) && e.Decide? && Fenced(wf, e.run, e.epoch, e.atSeq) && IsAlarm(t)
    requires Follows(wf', e.run, e.atSeq, e.events, e.now) && ArmedBy(e.run, e.atSeq, e.events, |e.events|, t)
    ensures var k := EventKey(t.ref.run, t.ref.started);
            k in wf'.history && wf'.history[k].kind == TimerStarted && k !in wf.history
  {
  }

  lemma NewAlarms(wf: Engine, wf': Engine, q: Queue, q': Queue, e: Effect)
    requires e.Decide? && OneFiring(wf, q) && AddsPlain(wf, wf')
    requires forall t: Timer :: IsAlarm(t) ==>
               (t in q'.timers <==> t in q.timers || ArmedBy(e.run, e.atSeq, e.events, |e.events|, t))
    requires forall t :: t in q'.timers && IsAlarm(t) && t !in q.timers ==>
               && EventKey(t.ref.run, t.ref.started) in wf'.history
               && wf'.history[EventKey(t.ref.run, t.ref.started)].kind == TimerStarted
               && EventKey(t.ref.run, t.ref.started) !in wf.history
    ensures OneFiring(wf', q')
  {
    forall run, started, i ensures FiringAt(wf', run, started, i) <==> FiringAt(wf, run, started, i) {}
    hide FiringAt;
    forall t, u | t in q'.timers && u in q'.timers && IsAlarm(t) && t.ref == u.ref ensures t == u {
      assert t in q.timers <==> u in q.timers;
    }
  }

  lemma EffectKeepsFiring(wf: Engine, q: Queue, q': Queue, e: Effect)
    requires Shape(wf) && OneFiring(wf, q) && Tame(e) && (e.Ring? ==> e.timer in q.timers && IsAlarm(e.timer))
    requires forall t: Timer :: IsAlarm(t) ==> (t in q'.timers <==> AlarmAfter(wf, q, e, t))
    ensures OneFiring(After(wf, e), q')
  {
    hide OneFiring;
    if e.Ring? {
      RingKeepsFiring(wf, q, q', e.timer, e.now);
    } else if e.Terminal? {
      TerminalKeepsFiring(wf, q, q', e);
    } else if e.Decide? {
      DecideKeepsFiring(wf, q, q', e);
    } else {
      PlainEffect(wf, e);
      KeepsFiring(wf, After(wf, e), q, q');
    }
  }

  lemma RingsAnArmedRow(db: Db, c: Command)
    ensures EffectOf(db, c).Ring? ==> EffectOf(db, c).timer in db.q.timers && IsAlarm(EffectOf(db, c).timer)
  {
  }

  /** Over every run of the log: each TIMER_STARTED has at most one TIMER_FIRED, no
      TIMER_FIRED comes without one, and a fired timer has no armed row left. */
  lemma {:induction false} TimersFireOnce(log: seq<Command>, i: nat)
    requires i <= |log| && forall j :: 0 <= j < |log| ==> FromGate(log[j])
    ensures OneFiring(DbAt(log, i).wf, DbAt(log, i).q)
    decreases i
  {
    hide Step;
    hide After;
    hide EffectOf;
    hide Tame;
    hide FromGate;
    hide OneFiring;
    if i == 0 {
      NoOutcomes();
    } else {
      var db, c := DbAt(log, i - 1), log[i - 1];
      TimersFireOnce(log, i - 1);
      ReachableShape(log, i - 1);
      DbAtNext(log, i - 1);
      StepEffect(db, c);
      GateIsTame(db, c);
      RingsAnArmedRow(db, c);
      EffectKeepsFiring(db.wf, db.q, Step(db, c).b.q, EffectOf(db, c));
    }
  }

  // ----- No timer is lost -----

  /** A timer the run has started, to fire at a given time. */
  predicate Started(wf: Engine, run: nat, i: nat, at: nat) {
    EventKey(run, i) in wf.history && wf.history[EventKey(run, i)].kind == TimerStarted
    && wf.history[EventKey(run, i)].attrs == FireAt(at)
  }

  /** A started timer is armed for its time, or has fired. */
  ghost predicate Awaited(wf: Engine, q: Queue, run: nat, i: nat, at: nat) {
    Started(wf, run, i, at) && at != 0 && IsRunning(wf, run) ==>
      Timer(at, WfFired(run, i)) in q.timers || exists j :: FiringAt(wf, run, i, j)
  }

  lemma StaysFired(wf: Engine, wf': Engine, run: nat, i: nat)
    requires exists j :: FiringAt(wf, run, i, j)
    requires forall k :: k in wf.history ==> k in wf'.history && wf'.history[k] == wf.history[k]
    ensures exists j :: FiringAt(wf', run, i, j)
  {
    var j :| FiringAt(wf, run, i, j);
    assert FiringAt(wf', run, i, j);
  }

  /** The decision started the run's timer with its i-th event. */
  predicate StartedIn(wf: Engine, e: Effect, run: nat, i: nat, at: nat) {
    && e.Decide? && Fenced(wf, e.run, e.epoch, e.atSeq) && run == e.run && e.atSeq < i <= e.atSeq + |e.events|
    && e.events[i - e.atSeq - 1].kind == TimerStarted && e.events[i - e.atSeq - 1].attrs == FireAt(at)
  }

  lemma DecisionStarts(wf: Engine, e: Effect, run: nat, i: nat, at: nat)
    requires Shape(wf) && e.Decide? && Fenced(wf, e.run, e.epoch, e.atSeq) && Started(After(wf, e), run, i, at)
    ensures Started(wf, run, i, at) || StartedIn(wf, e, run, i, at)
  {
    hide EventUpTo;
    hide RunAfterAppend;
    DecidedFollows(wf, e.run, e.epoch, e.atSeq, e.events, e.now);
    DecidedShape(wf, e.run, e.epoch, e.atSeq, e.events, e.now);
    EventUpToMid(wf, e.run, e.events, e.now, |e.events|);
    SuccessorStarts(wf, e.run, e.events, e.now, |e.events|);
    var k := EventKey(run, i);
    assert k.run == run && k.id == i;
  }

  lemma LeaderStarts(wf: Engine, id: nat, kind: EventKind, attrs: Attrs, now: nat, run: nat, i: nat, at: nat)
    requires Shape(wf) && kind != TimerStarted && Started(Advance(wf, id, kind, attrs, now), run, i, at)
    ensures Started(wf, run, i, at)
  {
  }

  /** A started timer was started before, or by this decision. */
  lemma StartedBy(wf: Engine, e: Effect, run: nat, i: nat, at: nat)
    requires Shape(wf) && Started(After(wf, e), run, i, at) && (e.External? ==> e.kind != TimerStarted)
    ensures Started(wf, run, i, at) || StartedIn(wf, e, run, i, at)
  {
    hide Advance;
    hide EventUpTo;
    match e
    case Decide(id, epoch, atSeq, _, _) => if Fenced(wf, id, epoch, atSeq) { DecisionStarts(wf, e, run, i, at); }
    case External(id, kind, attrs, now) => LeaderStarts(wf, id, kind, attrs, now, run, i, at);
    case Ring(t, now) =>
      if t.ref.WfFired? { LeaderStarts(wf, t.ref.run, TimerFired, Fired(t.ref.started), now, run, i, at); }
    case Terminal(id, sched, failed, result, now) =>
      if Unresolved(wf, id, sched) {
        LeaderStarts(wf, id, if failed then ActivityFailed else ActivityCompleted, Outcome(sched, !failed, result), now,
            run, i, at);
      }
    case _ =>
  }

  lemma {:induction false} SuccessorStarts(wf: Engine, id: nat, events: seq<EventIn>, now: nat, n: nat)
    requires Shape(wf) && id in wf.runs && n <= |events|
    ensures var out, s := EventUpTo(wf, wf, id, wf.runs[id], events, now, n), EventKey(wf.nextRun, 1);
            s in out.history ==> out.history[s].kind == WorkflowStarted
    decreases n
  {
    if n > 0 { SuccessorStarts(wf, id, events, now, n - 1); }
  }

  lemma RungFires(wf: Engine, t: Timer, now: nat)
    requires Shape(wf) && t.ref.WfFired? && IsRunning(wf, t.ref.run)
    ensures exists j :: FiringAt(After(wf, Ring(t, now)), t.ref.run, t.ref.started, j)
  {
    assert FiringAt(After(wf, Ring(t, now)), t.ref.run, t.ref.started, wf.runs[t.ref.run].curSeq + 1);
  }

  lemma RunsBefore(wf: Engine, e: Effect, run: nat)
    requires Shape(wf) && run in wf.runs && IsRunning(After(wf, e), run)
    ensures IsRunning(wf, run)
  {
    EffectKeepsShape(wf, e);
    hide After;
  }

  lemma EffectAwaits(wf: Engine, q: Queue, q': Queue, e: Effect, run: nat, i: nat, at: nat)
    requires Shape(wf) && Awaited(wf, q, run, i, at) && (e.External? ==> e.kind != TimerStarted)
    requires forall t: Timer :: IsAlarm(t) ==> (t in q'.timers <==> AlarmAfter(wf, q, e, t))
    ensures Awaited(After(wf, e), q', run, i, at)
  {
    hide FiringAt;
    var wf', t := After(wf, e), Timer(at, WfFired(run, i));
    EffectKeepsShape(wf, e);
    if Started(wf', run, i, at) && at != 0 && IsRunning(wf', run) {
      StartedBy(wf, e, run, i, at);
      hide After;
      assert IsAlarm(t);
      if Started(wf, run, i, at) {
        RunsBefore(wf, e, run);
        if exists j :: FiringAt(wf, run, i, j) {
          StaysFired(wf, wf', run, i);
        } else if e.Ring? && e.timer == t {
          RungFires(wf, t, e.now);
        } else {
          assert AlarmAfter(wf, q, e, t);
        }
      } else {
        NewAlarm(wf, q, e, run, i, at);
      }
    }
  }

  lemma NewAlarm(wf: Engine, q: Queue, e: Effect, run: nat, i: nat, at: nat)
    requires StartedIn(wf, e, run, i, at) && at != 0
    ensures AlarmAfter(wf, q, e, Timer(at, WfFired(run, i)))
  {
  }

  lemma LeaderStartsNoTimer(db: Db, c: Command)
    ensures EffectOf(db, c).External? ==> EffectOf(db, c).kind != TimerStarted
  {
  }

  /** Over every log, a timer its run has started and still waits for is armed for the time it
      was given, unless it has fired. */
  lemma {:induction false} NoTimerLost(log: seq<Command>, n: nat, run: nat, i: nat, at: nat)
    requires n <= |log|
    ensures Awaited(DbAt(log, n).wf, DbAt(log, n).q, run, i, at)
    decreases n
  {
    hide Step;
    hide After;
    hide EffectOf;
    hide FiringAt;
    if n > 0 {
      var db, c := DbAt(log, n - 1), log[n - 1];
      NoTimerLost(log, n - 1, run, i, at);
      hide Awaited;
      ReachableShape(log, n - 1);
      DbAtNext(log, n - 1);
      StepEffect(db, c);
      LeaderStartsNoTimer(db, c);
      EffectAwaits(db.wf, db.q, Step(db, c).b.q, EffectOf(db, c), run, i, at);
    }
  }
}
