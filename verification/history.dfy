/** What every run's history keeps: gap-free ids, no rewriting, closed runs stay closed, one
    commit per version, one outcome per activity, one firing per timer. */
module History {
  import opened Bytes
  import opened Store
  import opened Commands
  import opened Handlers
  import opened Durable
  import S = Safety

  // ----- Shape -----

  /** Run ids come from the counter; a run's event ids are exactly 1..curSeq; markers mark
      scheduled activities. */
  ghost predicate Shape(wf: Engine) {
    && wf.nextRun >= 1
    && (forall r :: r in wf.runs ==> 1 <= r < wf.nextRun && wf.runs[r].curSeq >= 1)
    && (forall k: EventKey :: k in wf.history <==> k.run in wf.runs && 1 <= k.id <= wf.runs[k.run].curSeq)
    && (forall k :: k in wf.done ==> k in wf.history && wf.history[k].kind == ActivityScheduled)
  }

  /** The fixed fields of a run. */
  predicate SameRun(a: Run, b: Run) {
    a.wfType == b.wfType && a.tenant == b.tenant && a.input == b.input && a.started == b.started && a.parent == b.parent
  }

  /** Nothing of the past changes: runs and events persist, histories only get longer, and a
      closed run does not change at all. */
  ghost predicate Extends(wf: Engine, wf': Engine) {
    && wf.nextRun <= wf'.nextRun
    && (forall r :: r in wf.runs ==>
         r in wf'.runs && SameRun(wf.runs[r], wf'.runs[r]) && wf.runs[r].curSeq <= wf'.runs[r].curSeq)
    && (forall r :: r in wf.runs && wf.runs[r].status != WfRunning ==> wf'.runs[r] == wf.runs[r])
    && (forall r :: r in wf'.runs && r !in wf.runs ==> r >= wf.nextRun)
    && (forall k :: k in wf.history ==> k in wf'.history && wf'.history[k] == wf.history[k])
    && wf.done <= wf'.done
  }

  /** The engine in the middle of a decision: the run's new events are written, its record is not. */
  ghost predicate MidShape(wf0: Engine, wf: Engine, id: nat, top: nat) {
    && id in wf0.runs && wf0.nextRun <= wf.nextRun && (wf.nextRun == wf0.nextRun || wf.nextRun == wf0.nextRun + 1)
    && (forall r :: r in wf.runs <==> r in wf0.runs || (r == wf0.nextRun && wf.nextRun > wf0.nextRun))
    && (forall r :: r in wf0.runs ==> wf.runs[r] == wf0.runs[r])
    && (wf.nextRun > wf0.nextRun ==> wf.runs[wf0.nextRun].curSeq == 1 && wf.runs[wf0.nextRun].status == WfRunning)
    && (forall k: EventKey :: k in wf.history <==>
          k in wf0.history || (k.run == id && wf0.runs[id].curSeq < k.id <= top) ||
              (k == EventKey(wf0.nextRun, 1) && wf.nextRun > wf0.nextRun))
    && (forall k :: k in wf0.history ==> wf.history[k] == wf0.history[k])
    && wf.done == wf0.done
  }

  lemma BegunShape(wf: Engine, wfType: string, tenant: string, input: Blob, parent: nat, now: nat)
    requires Shape(wf)
    ensures var wf' := Begun(wf, wf, wfType, tenant, input, parent, now); Shape(wf') && Extends(wf, wf')
  {
  }

  lemma AdvanceShape(wf: Engine, id: nat, kind: EventKind, attrs: Attrs, now: nat)
    requires Shape(wf)
    ensures var wf' := Advance(wf, id, kind, attrs, now); Shape(wf') && Extends(wf, wf') && wf'.done == wf.done
  {
  }

  lemma ResolveShape(wf: Engine, id: nat, sched: nat, failed: bool, result: Blob, now: nat)
    requires Shape(wf)
    ensures var wf' := Resolve(wf, id, sched, failed, result, now); Shape(wf') && Extends(wf, wf')
  {
    hide Advance;
    if Unresolved(wf, id, sched) {
      AdvanceShape(wf, id, if failed then ActivityFailed else ActivityCompleted, Outcome(sched, !failed, result), now);
    }
  }

  lemma CancelledShape(wf: Engine, id: nat, reason: Blob, now: nat)
    requires Shape(wf)
    ensures var wf' := Cancelled(wf, id, reason, now); Shape(wf') && Extends(wf, wf')
  {
  }

  lemma WithEventMid(wf0: Engine, wf: Engine, id: nat, top: nat, e: Event)
    requires Shape(wf0) && id in wf0.runs && wf0.runs[id].curSeq <= top && MidShape(wf0, wf, id, top)
    ensures MidShape(wf0, WithEvent(wf, id, top + 1, e), id, top + 1)
  {
  }

  lemma BegunMid(wf0: Engine, wf: Engine, id: nat, top: nat, wfType: string, tenant: string, input: Blob, parent: nat,
          now: nat)
    requires Shape(wf0) && id in wf0.runs && wf0.runs[id].curSeq <= top && MidShape(wf0, wf, id, top)
    ensures MidShape(wf0, Begun(wf0, wf, wfType, tenant, input, parent, now), id, top)
  {
  }

  lemma {:induction false} EventUpToMid(wf0: Engine, id: nat, events: seq<EventIn>, now: nat, n: nat)
    requires Shape(wf0) && id in wf0.runs && n <= |events|
    ensures MidShape(wf0, EventUpTo(wf0, wf0, id, wf0.runs[id], events, now, n), id, wf0.runs[id].curSeq + n)
    decreases n
  {
    hide MidShape;
    hide Begun;
    var run := wf0.runs[id];
    if n == 0 {
      SelfMid(wf0, id);
    } else {
      EventUpToMid(wf0, id, events, now, n - 1);
      var wf, e := EventUpTo(wf0, wf0, id, run, events, now, n - 1), events[n - 1];
      WithEventMid(wf0, wf, id, run.curSeq + n - 1, Event(e.kind, now, e.attrs));
      var wf1 := WithEvent(wf, id, run.curSeq + n, Event(e.kind, now, e.attrs));
      if e.kind == WorkflowContinuedAsNew {
        BegunMid(wf0, wf1, id, run.curSeq + n, run.wfType, run.tenant, NextInputOf(e.attrs), id, now);
      }
    }
  }

  lemma SelfMid(wf0: Engine, id: nat)
    requires Shape(wf0) && id in wf0.runs
    ensures MidShape(wf0, wf0, id, wf0.runs[id].curSeq)
  {
  }

  lemma DecidedShape(wf: Engine, id: nat, epoch: nat, atSeq: nat, events: seq<EventIn>, now: nat)
    requires Shape(wf)
    ensures var wf' := Decided(wf, id, epoch, atSeq, events, now); Shape(wf') && Extends(wf, wf') && wf'.done == wf.done
  {
    hide EventUpTo;
    if Fenced(wf, id, epoch, atSeq) {
      EventUpToMid(wf, id, events, now, |events|);
      var mid := EventUpTo(wf, wf, id, wf.runs[id], events, now, |events|);
      MidThenRun(wf, mid, id, RunAfterAppend(wf.runs[id], events, now));
    }
    hide Shape;
    hide Extends;
    SelfExtends(wf);
  }

  /** Writing the run's record completes the decision. */
  lemma MidThenRun(wf: Engine, mid: Engine, id: nat, run: Run)
    requires Shape(wf) && IsRunning(wf, id) && MidShape(wf, mid, id, run.curSeq)
    requires SameRun(wf.runs[id], run) && wf.runs[id].curSeq <= run.curSeq
    ensures var wf' := WithRun(mid, id, run); Shape(wf') && Extends(wf, wf') && wf'.done == wf.done
  {
  }

  lemma EffectKeepsShape(wf: Engine, e: Effect)
    requires Shape(wf)
    ensures Shape(After(wf, e)) && Extends(wf, After(wf, e))
  {
    hide Begun;
    hide Advance;
    hide Resolve;
    hide Cancelled;
    hide Decided;
    hide Shape;
    hide Extends;
    SelfExtends(wf);
    match e
    case Quiet =>
    case Begin(wfType, tenant, input, parent, now) => BegunShape(wf, wfType, tenant, input, parent, now);
    case Decide(run, epoch, atSeq, events, now) => DecidedShape(wf, run, epoch, atSeq, events, now);
    case External(run, kind, attrs, now) => AdvanceShape(wf, run, kind, attrs, now);
    case Ring(t, now) => if t.ref.WfFired? { AdvanceShape(wf, t.ref.run, TimerFired, Fired(t.ref.started), now); }
    case Terminal(run, sched, failed, result, now) => ResolveShape(wf, run, sched, failed, result, now);
    case Cancel(run, reason, now) => CancelledShape(wf, run, reason, now);
  }

  lemma SelfExtends(wf: Engine)
    ensures Extends(wf, wf)
  {
  }

  lemma ExtendsThen(a: Engine, b: Engine, c: Engine)
    requires Extends(a, b) && Extends(b, c)
    ensures Extends(a, c)
  {
  }

  // ----- Over whole runs of the log -----

  ghost function DbAt(log: seq<Command>, i: nat): Db
    requires i <= |log|
  {
    S.After(EMPTY_DB, log[..i])
  }

  lemma DbAtNext(log: seq<Command>, i: nat)
    requires i < |log|
    ensures DbAt(log, i + 1) == Step(DbAt(log, i), log[i]).b
  {
    hide Step;
    assert log[..i + 1][..i] == log[..i];
  }

  lemma {:induction false} ReachableShape(log: seq<Command>, i: nat)
    requires i <= |log|
    ensures Shape(DbAt(log, i).wf)
    decreases i
  {
    hide Step;
    hide After;
    hide EffectOf;
    if i > 0 {
      ReachableShape(log, i - 1);
      DbAtNext(log, i - 1);
      StepEffect(DbAt(log, i - 1), log[i - 1]);
      EffectKeepsShape(DbAt(log, i - 1).wf, EffectOf(DbAt(log, i - 1), log[i - 1]));
    }
  }

  /** From any point of the log to any later one, history is only appended to. */
  lemma {:induction false} NoRewrite(log: seq<Command>, i: nat, j: nat)
    requires i <= j <= |log|
    ensures Extends(DbAt(log, i).wf, DbAt(log, j).wf)
    decreases j
  {
    hide Step;
    hide After;
    hide EffectOf;
    hide Extends;
    if i == j {
      SelfExtends(DbAt(log, i).wf);
    } else {
      NoRewrite(log, i, j - 1);
      ReachableShape(log, j - 1);
      DbAtNext(log, j - 1);
      StepEffect(DbAt(log, j - 1), log[j - 1]);
      EffectKeepsShape(DbAt(log, j - 1).wf, EffectOf(DbAt(log, j - 1), log[j - 1]));
      ExtendsThen(DbAt(log, i).wf, DbAt(log, j - 1).wf, DbAt(log, j).wf);
    }
  }

  // ----- Epochs and versions -----

  /** Decisions always carry at least their frame event. */
  predicate Framed(c: Command) {
    c.AppendEvents? ==> c.events != []
  }

  ghost predicate EpochsBelow(wf: Engine) {
    forall r :: r in wf.runs ==> wf.runs[r].epoch + 1 <= wf.runs[r].curSeq
  }

  lemma {:induction false} EventUpToRuns(wf0: Engine, id: nat, events: seq<EventIn>, now: nat, n: nat)
    requires id in wf0.runs && n <= |events|
    ensures var wf := EventUpTo(wf0, wf0, id, wf0.runs[id], events, now, n);
            forall r :: r in wf.runs ==>
                (r in wf0.runs && wf.runs[r] == wf0.runs[r]) || (wf.runs[r].epoch == 0 && wf.runs[r].curSeq == 1)
    decreases n
  {
    if n > 0 { EventUpToRuns(wf0, id, events, now, n - 1); }
  }

  lemma EffectKeepsEpochs(wf: Engine, e: Effect)
    requires EpochsBelow(wf) && (e.Decide? ==> e.events != [])
    ensures EpochsBelow(After(wf, e))
  {
    hide EventUpTo;
    if e.Decide? && Fenced(wf, e.run, e.epoch, e.atSeq) {
      EventUpToRuns(wf, e.run, e.events, e.now, |e.events|);
    }
  }

  lemma {:induction false} EpochsStayBelow(log: seq<Command>, i: nat)
    requires i <= |log| && forall j :: 0 <= j < |log| ==> Framed(log[j])
    ensures EpochsBelow(DbAt(log, i).wf)
    decreases i
  {
    hide Step;
    hide After;
    if i > 0 {
      EpochsStayBelow(log, i - 1);
      DbAtNext(log, i - 1);
      StepEffect(DbAt(log, i - 1), log[i - 1]);
      EffectKeepsEpochs(DbAt(log, i - 1).wf, EffectOf(DbAt(log, i - 1), log[i - 1])) by {
        FramedEffect(DbAt(log, i - 1), log[i - 1]);
      }
    }
  }

  lemma FramedEffect(db: Db, c: Command)
    requires Framed(c)
    ensures EffectOf(db, c).Decide? ==> EffectOf(db, c).events != []
  {
  }

  /** The i-th command committed a decision of the run. */
  ghost predicate Committed(log: seq<Command>, i: nat)
    requires i < |log|
  {
    var res := Step(DbAt(log, i), log[i]).res;
    log[i].AppendEvents? && res.Appended? && res.applied
  }

  lemma CommittedIsFenced(log: seq<Command>, i: nat)
    requires i < |log| && log[i].AppendEvents?
    ensures Committed(log, i) <==> Fenced(DbAt(log, i).wf, log[i].run, log[i].epoch, log[i].atSeq)
  {
    hide AppendUpTo;
  }

  /** The events of a run up to an id. */
  function Prefix(wf: Engine, run: nat, n: nat): map<EventKey, Event> {
    map k | k in wf.history && k.run == run && k.id <= n :: wf.history[k]
  }

  lemma SamePrefix(wf: Engine, wf': Engine, run: nat, n: nat)
    requires Shape(wf) && Shape(wf') && Extends(wf, wf') && run in wf.runs && n <= wf.runs[run].curSeq
    ensures Prefix(wf', run, n) == Prefix(wf, run, n)
  {
  }

  /** The events stand right after the first `top` events of the run. */
  ghost predicate Follows(wf: Engine, run: nat, top: nat, events: seq<EventIn>, now: nat) {
    && run in wf.runs && wf.runs[run].curSeq == top + |events|
    && forall k: EventKey :: k.run == run && top < k.id <= top + |events| ==>
         k in wf.history && wf.history[k] == Event(events[k.id - top - 1].kind, now, events[k.id - top - 1].attrs)
  }

  lemma {:induction false} EventUpToWrites(wf: Engine, id: nat, events: seq<EventIn>, now: nat, n: nat)
    requires Shape(wf) && id in wf.runs && n <= |events|
    ensures var out, top := EventUpTo(wf, wf, id, wf.runs[id], events, now, n), wf.runs[id].curSeq;
            forall k: EventKey :: k.run == id && top < k.id <= top + n ==>
              k in out.history
              && out.history[k] == Event(events[k.id - top - 1].kind, now, events[k.id - top - 1].attrs)
    decreases n
  {
    if n > 0 { EventUpToWrites(wf, id, events, now, n - 1); }
  }

  lemma DecidedFollows(wf: Engine, id: nat, epoch: nat, atSeq: nat, events: seq<EventIn>, now: nat)
    requires Shape(wf) && Fenced(wf, id, epoch, atSeq)
    ensures Follows(Decided(wf, id, epoch, atSeq, events, now), id, atSeq, events, now)
  {
    hide EventUpTo;
    EventUpToWrites(wf, id, events, now, |events|);
  }

  lemma CommitFollows(log: seq<Command>, j: nat)
    requires j < |log| && Committed(log, j)
    ensures var c := log[j];
            && Fenced(DbAt(log, j).wf, c.run, c.epoch, c.atSeq)
            && Follows(DbAt(log, j + 1).wf, c.run, c.atSeq, c.events, c.now)
  {
    CommittedIsFenced(log, j);
    ReachableShape(log, j);
    DbAtNext(log, j);
    StepEffect(DbAt(log, j), log[j]);
    hide Step;
    hide Shape;
    hide Follows;
    hide Decided;
    DecidedFollows(DbAt(log, j).wf, log[j].run, log[j].epoch, log[j].atSeq, log[j].events, log[j].now);
  }

  /** A committed decision extends exactly the history the gate compared: whatever was read at
      version (epoch, seq) is still the run's whole history when the append at that version
      commits, and afterwards its events follow at seq + 1, seq + 2, ... */
  lemma CommitExtendsGatedPrefix(log: seq<Command>, i: nat, j: nat)
    requires i <= j < |log| && Committed(log, j)
    requires Fenced(DbAt(log, i).wf, log[j].run, log[j].epoch, log[j].atSeq)
    ensures var c, gated, before, after := log[j], DbAt(log, i).wf, DbAt(log, j).wf, DbAt(log, j + 1).wf;
            && Fenced(before, c.run, c.epoch, c.atSeq)
            && Prefix(before, c.run, c.atSeq) == Prefix(gated, c.run, c.atSeq)
            && Prefix(after, c.run, c.atSeq) == Prefix(gated, c.run, c.atSeq)
            && Follows(after, c.run, c.atSeq, c.events, c.now)
  {
    var c := log[j];
    CommitFollows(log, j);
    ReachableShape(log, i);
    ReachableShape(log, j);
    ReachableShape(log, j + 1);
    NoRewrite(log, i, j);
    NoRewrite(log, i, j + 1);
    hide Follows;
    hide Shape;
    hide Extends;
    hide Prefix;
    hide Committed;
    SamePrefix(DbAt(log, i).wf, DbAt(log, j).wf, c.run, c.atSeq);
    SamePrefix(DbAt(log, i).wf, DbAt(log, j + 1).wf, c.run, c.atSeq);
  }

  /** At most one decision commits per (run, epoch, seq), whatever commands lie in between. */
  lemma OneCommitPerVersion(log: seq<Command>, i: nat, j: nat)
    requires i < j < |log| && log[i].AppendEvents? && log[j].AppendEvents? && Framed(log[i])
    requires log[i].run == log[j].run && log[i].atSeq == log[j].atSeq
    ensures !(Committed(log, i) && Committed(log, j))
  {
    if Committed(log, i) && Committed(log, j) {
      CommitFollows(log, i);
      CommitFollows(log, j);
      NoRewrite(log, i + 1, j);
      GrownPast(DbAt(log, i + 1).wf, DbAt(log, j).wf, log[i].run, log[i].atSeq, log[i].events, log[i].now,
          log[j].epoch);
    }
  }

  lemma GrownPast(wf: Engine, wf': Engine, run: nat, top: nat, events: seq<EventIn>, now: nat, epoch: nat)
    requires Follows(wf, run, top, events, now) && events != [] && Extends(wf, wf')
    ensures !Fenced(wf', run, epoch, top)
  {
  }
}
