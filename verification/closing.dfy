/** A run's record says what its history says: whether it is closed and how, when it last
    moved, who started it and from what. */
module Closing {
  import opened Bytes
  import opened Store
  import opened Commands
  import opened Handlers
  import opened Durable
  import opened History

  // ----- Closing events -----

  predicate Closes(kind: EventKind) {
    kind == WorkflowCompleted || kind == WorkflowFailed || kind == WorkflowCanceled || kind == WorkflowContinuedAsNew
  }

  predicate ClosedAt(wf: Engine, r: nat, i: nat) {
    EventKey(r, i) in wf.history && Closes(wf.history[EventKey(r, i)].kind)
  }

  /** The run's last closing event has this kind. */
  ghost predicate ClosedBy(wf: Engine, r: nat, kind: EventKind) {
    exists i :: ClosedAt(wf, r, i) && wf.history[EventKey(r, i)].kind == kind &&
      forall j: nat :: j > i ==> !ClosedAt(wf, r, j)
  }

  /** The run is running exactly while nothing has closed it, and otherwise its status is that
      of its last closing event. */
  ghost predicate Told(wf: Engine, r: nat)
    requires r in wf.runs
  {
    && (wf.runs[r].status == WfRunning <==> forall i: nat :: !ClosedAt(wf, r, i))
    && (wf.runs[r].status == WfCompleted <==> ClosedBy(wf, r, WorkflowCompleted))
    && (wf.runs[r].status == WfFailed <==> ClosedBy(wf, r, WorkflowFailed))
    && (wf.runs[r].status == WfCanceled <==> ClosedBy(wf, r, WorkflowCanceled))
    && (wf.runs[r].status == WfContinued <==> ClosedBy(wf, r, WorkflowContinuedAsNew))
  }

  /** The run's status and closing events are as they were. */
  ghost predicate SameRecord(wf: Engine, wf': Engine, r: nat) {
    && r in wf.runs && r in wf'.runs && wf'.runs[r].status == wf.runs[r].status
    && (forall i: nat :: ClosedAt(wf', r, i) <==> ClosedAt(wf, r, i))
    && (forall i: nat :: ClosedAt(wf, r, i) && ClosedAt(wf', r, i) ==>
          wf'.history[EventKey(r, i)].kind == wf.history[EventKey(r, i)].kind)
  }

  lemma SameClosedBy(wf: Engine, wf': Engine, r: nat, kind: EventKind)
    requires SameRecord(wf, wf', r)
    ensures ClosedBy(wf, r, kind) <==> ClosedBy(wf', r, kind)
  {
    hide Closes;
    if ClosedBy(wf, r, kind) {
      var i: nat :| ClosedAt(wf, r, i) && wf.history[EventKey(r, i)].kind == kind
          && forall j: nat :: j > i ==> !ClosedAt(wf, r, j);
      assert ClosedAt(wf', r, i);
    }
    if ClosedBy(wf', r, kind) {
      var i: nat :| ClosedAt(wf', r, i) && wf'.history[EventKey(r, i)].kind == kind
          && forall j: nat :: j > i ==> !ClosedAt(wf', r, j);
      assert ClosedAt(wf, r, i);
    }
  }

  lemma SameRecordTold(wf: Engine, wf': Engine, r: nat)
    requires SameRecord(wf, wf', r) && Told(wf, r)
    ensures Told(wf', r)
  {
    hide ClosedAt;
    SameClosedBy(wf, wf', r, WorkflowCompleted);
    SameClosedBy(wf, wf', r, WorkflowFailed);
    SameClosedBy(wf, wf', r, WorkflowCanceled);
    SameClosedBy(wf, wf', r, WorkflowContinuedAsNew);
    hide ClosedBy;
  }

  /** With i the last closing event of the run, only its kind is the run's. */
  lemma ClosedByLast(wf: Engine, r: nat, i: nat)
    requires ClosedAt(wf, r, i) && forall j: nat :: j > i ==> !ClosedAt(wf, r, j)
    ensures forall kind :: ClosedBy(wf, r, kind) <==> wf.history[EventKey(r, i)].kind == kind
  {
  }

  lemma OpenClosedByNone(wf: Engine, r: nat)
    requires forall i: nat :: !ClosedAt(wf, r, i)
    ensures forall kind :: !ClosedBy(wf, r, kind)
  {
  }

  lemma OpenTold(wf: Engine, r: nat)
    requires r in wf.runs && wf.runs[r].status == WfRunning && forall i: nat :: !ClosedAt(wf, r, i)
    ensures Told(wf, r)
  {
    OpenClosedByNone(wf, r);
  }

  // ----- Each effect -----

  /** The last closing event among the first n, and the status it leaves. */
  lemma {:induction false} StatusOfLast(events: seq<EventIn>, n: nat) returns (m: nat)
    requires n <= |events|
    ensures m <= n && forall j :: m <= j < n ==> !Closes(events[j].kind)
    ensures m > 0 ==> Closes(events[m - 1].kind) && Agrees(StatusUpTo(events, WfRunning, n), events[m - 1].kind)
    ensures m == 0 ==> StatusUpTo(events, WfRunning, n) == WfRunning
  {
    if n == 0 {
      m := 0;
    } else if Closes(events[n - 1].kind) {
      m := n;
    } else {
      m := StatusOfLast(events, n - 1);
    }
  }

  lemma DecidedClosesAt(wf: Engine, wf': Engine, id: nat, events: seq<EventIn>, now: nat, i: nat)
    requires Shape(wf) && Shape(wf') && Extends(wf, wf') && id in wf.runs && !ClosedAt(wf, id, i)
    requires Follows(wf', id, wf.runs[id].curSeq, events, now)
    ensures var top := wf.runs[id].curSeq;
            && (ClosedAt(wf', id, i) <==> top < i <= top + |events| && Closes(events[i - top - 1].kind))
            && (top < i <= top + |events| && ClosedAt(wf', id, i) ==>
                  wf'.history[EventKey(id, i)].kind == events[i - top - 1].kind)
  {
    hide Closes;
    var top, k := wf.runs[id].curSeq, EventKey(id, i);
    assert k.run == id && k.id == i;
    assert k in wf.history <==> 1 <= i <= top;
    assert k in wf'.history <==> 1 <= i <= top + |events|;
  }

  /** The run's closing events after a decision are those among the events it appends. */
  lemma DecidedCloses(wf: Engine, wf': Engine, id: nat, events: seq<EventIn>, now: nat)
    requires Shape(wf) && Shape(wf') && Extends(wf, wf') && id in wf.runs && forall i: nat :: !ClosedAt(wf, id, i)
    requires Follows(wf', id, wf.runs[id].curSeq, events, now)
    ensures var top := wf.runs[id].curSeq;
            && (forall i: nat :: ClosedAt(wf', id, i) <==>
                  top < i <= top + |events| && Closes(events[i - top - 1].kind))
            && (forall i: nat :: top < i <= top + |events| && ClosedAt(wf', id, i) ==>
                  wf'.history[EventKey(id, i)].kind == events[i - top - 1].kind)
  {
    hide Shape;
    hide Extends;
    hide Follows;
    hide Closes;
    var top := wf.runs[id].curSeq;
    forall i: nat
      ensures ClosedAt(wf', id, i) <==> top < i <= top + |events| && Closes(events[i - top - 1].kind)
      ensures top < i <= top + |events| && ClosedAt(wf', id, i) ==>
                wf'.history[EventKey(id, i)].kind == events[i - top - 1].kind
    {
      DecidedClosesAt(wf, wf', id, events, now, i);
    }
  }

  /** A run whose closing events are those among the events, after `top` others. */
  ghost predicate ClosesLike(wf: Engine, id: nat, top: nat, events: seq<EventIn>) {
    && (forall i: nat :: ClosedAt(wf, id, i) <==> top < i <= top + |events| && Closes(events[i - top - 1].kind))
    && (forall i: nat :: top < i <= top + |events| && ClosedAt(wf, id, i) ==>
          wf.history[EventKey(id, i)].kind == events[i - top - 1].kind)
  }

  /** The status that goes with a closing kind. */
  predicate Agrees(s: Status, kind: EventKind) {
    match kind
    case WorkflowCompleted => s == WfCompleted
    case WorkflowFailed => s == WfFailed
    case WorkflowCanceled => s == WfCanceled
    case WorkflowContinuedAsNew => s == WfContinued
    case _ => false
  }

  lemma ClosedTold(wf: Engine, r: nat, i: nat)
    requires r in wf.runs && ClosedAt(wf, r, i) && forall j: nat :: j > i ==> !ClosedAt(wf, r, j)
    requires Agrees(wf.runs[r].status, wf.history[EventKey(r, i)].kind)
    ensures Told(wf, r)
  {
    hide ClosedAt;
    ClosedByLast(wf, r, i);
    hide ClosedBy;
  }

  lemma ToldByLast(wf: Engine, id: nat, top: nat, events: seq<EventIn>)
    requires id in wf.runs && ClosesLike(wf, id, top, events)
    requires wf.runs[id].status == StatusUpTo(events, WfRunning, |events|)
    ensures Told(wf, id)
  {
    hide StatusUpTo;
    hide ClosedAt;
    hide Told;
    hide Closes;
    hide Agrees;
    var m := StatusOfLast(events, |events|);
    if m == 0 {
      OpenTold(wf, id);
    } else {
      ClosedTold(wf, id, top + m);
    }
  }

  lemma DecidedRecord(wf: Engine, id: nat, events: seq<EventIn>, now: nat, epoch: nat)
    requires IsRunning(wf, id) && epoch == wf.runs[id].epoch
    ensures var wf' := Decided(wf, id, epoch, wf.runs[id].curSeq, events, now);
            id in wf'.runs && wf'.runs[id].status == StatusUpTo(events, WfRunning, |events|)
  {
    hide EventUpTo;
    hide StatusUpTo;
  }

  lemma DecidedTold(wf: Engine, id: nat, events: seq<EventIn>, now: nat, epoch: nat)
    requires Shape(wf) && IsRunning(wf, id) && epoch == wf.runs[id].epoch && Told(wf, id)
    ensures var wf' := Decided(wf, id, epoch, wf.runs[id].curSeq, events, now); id in wf'.runs && Told(wf', id)
  {
    hide Shape;
    hide Extends;
    hide Follows;
    hide Decided;
    hide ClosedBy;
    hide Closes;
    hide ClosedAt;
    hide StatusUpTo;
    var top := wf.runs[id].curSeq;
    var wf' := Decided(wf, id, epoch, top, events, now);
    DecidedFollows(wf, id, epoch, top, events, now);
    DecidedShape(wf, id, epoch, top, events, now);
    DecidedRecord(wf, id, events, now, epoch);
    DecidedCloses(wf, wf', id, events, now);
    ToldByLast(wf', id, top, events);
  }

  /** The run's events and record are as they were. */
  ghost predicate Apart(wf: Engine, wf': Engine, r: nat) {
    && r in wf.runs && r in wf'.runs && wf'.runs[r] == wf.runs[r]
    && (forall i: nat :: EventKey(r, i) in wf'.history <==> EventKey(r, i) in wf.history)
    && (forall i: nat :: EventKey(r, i) in wf.history ==> wf'.history[EventKey(r, i)] == wf.history[EventKey(r, i)])
  }

  lemma ApartTold(wf: Engine, wf': Engine, r: nat)
    requires Apart(wf, wf', r) && Told(wf, r)
    ensures Told(wf', r)
  {
    hide Closes;
    assert SameRecord(wf, wf', r);
    hide *;
    SameRecordTold(wf, wf', r);
  }

  /** One event is written after the run's last one. */
  lemma PutCloses(wf: Engine, wf': Engine, id: nat, e: Event, i: nat)
    requires Shape(wf) && id in wf.runs && wf'.history == wf.history[EventKey(id, wf.runs[id].curSeq + 1) := e]
    ensures ClosedAt(wf', id, i) <==> ClosedAt(wf, id, i) || (i == wf.runs[id].curSeq + 1 && Closes(e.kind))
    ensures ClosedAt(wf, id, i) ==> wf'.history[EventKey(id, i)].kind == wf.history[EventKey(id, i)].kind
  {
    hide Closes;
    assert EventKey(id, wf.runs[id].curSeq + 1) !in wf.history;
  }

  /** A leader's event that does not close leaves the run open. */
  lemma AdvanceTold(wf: Engine, id: nat, kind: EventKind, attrs: Attrs, now: nat, r: nat)
    requires Shape(wf) && !Closes(kind) && r in wf.runs && Told(wf, r)
    ensures Told(Advance(wf, id, kind, attrs, now), r)
  {
    var wf' := Advance(wf, id, kind, attrs, now);
    hide Told;
    if r == id && IsRunning(wf, id) {
      forall i: nat
        ensures ClosedAt(wf', id, i) <==> ClosedAt(wf, id, i)
        ensures ClosedAt(wf, id, i) ==> wf'.history[EventKey(id, i)].kind == wf.history[EventKey(id, i)].kind
      {
        PutCloses(wf, wf', id, Event(kind, now, attrs), i);
      }
      hide ClosedAt;
      SameRecordTold(wf, wf', id);
    } else {
      assert Apart(wf, wf', r);
      ApartTold(wf, wf', r);
    }
  }

  lemma CancelledTold(wf: Engine, id: nat, reason: Blob, now: nat, r: nat)
    requires Shape(wf) && r in wf.runs && Told(wf, r)
    ensures Told(Cancelled(wf, id, reason, now), r)
  {
    var wf' := Cancelled(wf, id, reason, now);
    hide ClosedBy;
    if r == id && IsRunning(wf, id) {
      var top := wf.runs[id].curSeq + 1;
      forall i: nat ensures ClosedAt(wf', id, i) <==> i == top {
        PutCloses(wf, wf', id, Event(WorkflowCanceled, now, Raw(reason)), i);
      }
      ClosedTold(wf', id, top);
    } else {
      assert Apart(wf, wf', r);
      hide Told;
      ApartTold(wf, wf', r);
    }
  }

  /** A decision's successor run has started and nothing more. */
  lemma {:induction false} SuccessorRuns(wf: Engine, id: nat, events: seq<EventIn>, now: nat, n: nat)
    requires Shape(wf) && id in wf.runs && n <= |events|
    ensures var out, s := EventUpTo(wf, wf, id, wf.runs[id], events, now, n), EventKey(wf.nextRun, 1);
            && (forall r :: r in out.runs && r !in wf.runs ==> r == wf.nextRun && out.runs[r].status == WfRunning)
            && (s in out.history ==> out.history[s].kind == WorkflowStarted)
    decreases n
  {
    if n > 0 { SuccessorRuns(wf, id, events, now, n - 1); }
  }

  lemma DecisionTold(wf: Engine, id: nat, epoch: nat, atSeq: nat, events: seq<EventIn>, now: nat, r: nat)
    requires Shape(wf) && Fenced(wf, id, epoch, atSeq) && (r in wf.runs ==> Told(wf, r))
    requires r in Decided(wf, id, epoch, atSeq, events, now).runs
    ensures Told(Decided(wf, id, epoch, atSeq, events, now), r)
  {
    hide EventUpTo;
    hide Told;
    var wf' := Decided(wf, id, epoch, atSeq, events, now);
    DecidedShape(wf, id, epoch, atSeq, events, now);
    EventUpToMid(wf, id, events, now, |events|);
    SuccessorRuns(wf, id, events, now, |events|);
    if r == id {
      DecidedTold(wf, id, events, now, epoch);
    } else if r in wf.runs {
      assert Apart(wf, wf', r);
      ApartTold(wf, wf', r);
    } else {
      assert forall i: nat :: EventKey(r, i) in wf'.history ==> i == 1;
      OpenTold(wf', r);
    }
  }

  lemma ResolveTold(wf: Engine, id: nat, sched: nat, failed: bool, result: Blob, now: nat, r: nat)
    requires Shape(wf) && r in wf.runs && Told(wf, r)
    ensures Told(Resolve(wf, id, sched, failed, result, now), r)
  {
    hide Advance;
    hide Told;
    if Unresolved(wf, id, sched) {
      var kind := if failed then ActivityFailed else ActivityCompleted;
      var wf1 := Advance(wf, id, kind, Outcome(sched, !failed, result), now);
      AdvanceTold(wf, id, kind, Outcome(sched, !failed, result), now, r);
      AdvanceShape(wf, id, kind, Outcome(sched, !failed, result), now);
      ToldOfRuns(wf1, Resolve(wf, id, sched, failed, result, now), r);
    }
  }

  lemma ToldOfRuns(wf: Engine, wf': Engine, r: nat)
    requires wf'.runs == wf.runs && wf'.history == wf.history && r in wf.runs && Told(wf, r)
    ensures Told(wf', r)
  {
    assert Apart(wf, wf', r);
    hide Told;
    ApartTold(wf, wf', r);
  }

  lemma BeginTold(wf: Engine, wfType: string, tenant: string, input: Blob, parent: nat, now: nat, r: nat)
    requires Shape(wf) && (r in wf.runs ==> Told(wf, r)) && r in Begun(wf, wf, wfType, tenant, input, parent, now).runs
    ensures Told(Begun(wf, wf, wfType, tenant, input, parent, now), r)
  {
    var wf' := Begun(wf, wf, wfType, tenant, input, parent, now);
    hide Told;
    if r in wf.runs {
      assert Apart(wf, wf', r);
      ApartTold(wf, wf', r);
    } else {
      OpenTold(wf', r);
    }
  }

  /** The leader appends no closing event itself. */
  predicate Modest(e: Effect) {
    e.External? ==> !Closes(e.kind)
  }

  lemma EffectTold(wf: Engine, e: Effect, r: nat)
    requires Shape(wf) && Modest(e) && (r in wf.runs ==> Told(wf, r)) && r in After(wf, e).runs
    ensures Told(After(wf, e), r)
  {
    EffectKeepsShape(wf, e);
    hide Told;
    hide Begun;
    hide Decided;
    hide Shape;
    match e
    case Quiet =>
    case Begin(wfType, tenant, input, parent, now) => BeginTold(wf, wfType, tenant, input, parent, now, r);
    case Decide(run, epoch, atSeq, events, now) =>
      if Fenced(wf, run, epoch, atSeq) { DecisionTold(wf, run, epoch, atSeq, events, now, r); }
      else { NotDecided(wf, run, epoch, atSeq, events, now); }
    case External(run, kind, attrs, now) => AdvanceTold(wf, run, kind, attrs, now, r);
    case Ring(t, now) =>
      if t.ref.WfFired? { AdvanceTold(wf, t.ref.run, TimerFired, Fired(t.ref.started), now, r); }
    case Terminal(run, sched, failed, result, now) => ResolveTold(wf, run, sched, failed, result, now, r);
    case Cancel(run, reason, now) => CancelledTold(wf, run, reason, now, r);
  }

  lemma NotDecided(wf: Engine, id: nat, epoch: nat, atSeq: nat, events: seq<EventIn>, now: nat)
    requires !Fenced(wf, id, epoch, atSeq)
    ensures Decided(wf, id, epoch, atSeq, events, now) == wf
  {
  }

  lemma EffectsModest(db: Db, c: Command)
    ensures Modest(EffectOf(db, c))
  {
  }

  /** Over every log, a run is running exactly while its history holds no closing event, and
      otherwise completed, failed, canceled or continued exactly as its last closing event
      says. */
  lemma {:induction false} StatusIsHistory(log: seq<Command>, n: nat, r: nat)
    requires n <= |log| && r in DbAt(log, n).wf.runs
    ensures Told(DbAt(log, n).wf, r)
    decreases n
  {
    hide Step;
    hide After;
    hide EffectOf;
    hide Told;
    if n > 0 {
      var db, c := DbAt(log, n - 1), log[n - 1];
      if r in db.wf.runs { StatusIsHistory(log, n - 1, r); }
      ReachableShape(log, n - 1);
      DbAtNext(log, n - 1);
      StepEffect(db, c);
      EffectsModest(db, c);
      EffectTold(db.wf, EffectOf(db, c), r);
    }
  }

  // ----- The rest of the record -----

  /** The run's record is its history's: it started with its input when its first event says,
      and last moved when its last event says. */
  ghost predicate Recorded(wf: Engine, r: nat)
    requires r in wf.runs
  {
    var first, last := EventKey(r, 1), EventKey(r, wf.runs[r].curSeq);
    && first in wf.history && wf.history[first] == Event(WorkflowStarted, wf.runs[r].started, Raw(wf.runs[r].input))
    && last in wf.history && wf.history[last].time == wf.runs[r].lastEvent
  }

  lemma ApartRecorded(wf: Engine, wf': Engine, r: nat)
    requires Apart(wf, wf', r) && Recorded(wf, r)
    ensures Recorded(wf', r)
  {
  }

  lemma {:induction false} SuccessorRecord(wf: Engine, id: nat, events: seq<EventIn>, now: nat, n: nat, r: nat)
    requires Shape(wf) && id in wf.runs && n <= |events| && r !in wf.runs
    requires r in EventUpTo(wf, wf, id, wf.runs[id], events, now, n).runs
    ensures r == wf.nextRun && Recorded(EventUpTo(wf, wf, id, wf.runs[id], events, now, n), r)
    decreases n
  {
    if n > 0 && r in EventUpTo(wf, wf, id, wf.runs[id], events, now, n - 1).runs {
      SuccessorRecord(wf, id, events, now, n - 1, r);
    }
  }

  lemma DecidedRecorded(wf: Engine, id: nat, epoch: nat, atSeq: nat, events: seq<EventIn>, now: nat, r: nat)
    requires Shape(wf) && Fenced(wf, id, epoch, atSeq) && events != [] && (r in wf.runs ==> Recorded(wf, r))
    requires r in Decided(wf, id, epoch, atSeq, events, now).runs
    ensures Recorded(Decided(wf, id, epoch, atSeq, events, now), r)
  {
    var wf' := Decided(wf, id, epoch, atSeq, events, now);
    DecidedShape(wf, id, epoch, atSeq, events, now);
    DecidedFollows(wf, id, epoch, atSeq, events, now);
    EventUpToMid(wf, id, events, now, |events|);
    if r !in wf.runs { SuccessorRecord(wf, id, events, now, |events|, r); }
    hide EventUpTo;
    if r == id {
      var last := EventKey(id, atSeq + |events|);
      assert last.run == id && last.id == atSeq + |events|;
      assert EventKey(id, 1) in wf.history;
    } else if r in wf.runs {
      assert Apart(wf, wf', r);
      ApartRecorded(wf, wf', r);
    }
  }

  lemma AdvanceRecorded(wf: Engine, id: nat, kind: EventKind, attrs: Attrs, now: nat, r: nat)
    requires Shape(wf) && r in wf.runs && Recorded(wf, r)
    ensures Recorded(Advance(wf, id, kind, attrs, now), r)
  {
    if r != id || !IsRunning(wf, id) { assert Apart(wf, Advance(wf, id, kind, attrs, now), r); }
  }

  lemma EffectRecorded(wf: Engine, e: Effect, r: nat)
    requires Shape(wf) && (e.Decide? ==> e.events != []) && (r in wf.runs ==> Recorded(wf, r)) && r in After(wf, e).runs
    ensures Recorded(After(wf, e), r)
  {
    EffectKeepsShape(wf, e);
    hide Advance;
    hide EventUpTo;
    match e
    case Quiet =>
    case Begin(wfType, tenant, input, parent, now) =>
      if r in wf.runs {
        assert Apart(wf, After(wf, e), r);
        ApartRecorded(wf, After(wf, e), r);
      }
    case Decide(run, epoch, atSeq, events, now) =>
      if Fenced(wf, run, epoch, atSeq) { DecidedRecorded(wf, run, epoch, atSeq, events, now, r); }
    case External(run, kind, attrs, now) =>
      AdvanceShape(wf, run, kind, attrs, now);
      AdvanceKeepsRuns(wf, run, kind, attrs, now);
      AdvanceRecorded(wf, run, kind, attrs, now, r);
    case Ring(t, now) =>
      if t.ref.WfFired? {
        AdvanceKeepsRuns(wf, t.ref.run, TimerFired, Fired(t.ref.started), now);
        AdvanceRecorded(wf, t.ref.run, TimerFired, Fired(t.ref.started), now, r);
      }
    case Terminal(run, sched, failed, result, now) =>
      var kind := if failed then ActivityFailed else ActivityCompleted;
      AdvanceKeepsRuns(wf, run, kind, Outcome(sched, !failed, result), now);
      if Unresolved(wf, run, sched) { AdvanceRecorded(wf, run, kind, Outcome(sched, !failed, result), now, r); }
    case Cancel(run, reason, now) =>
      if r != run || !IsRunning(wf, run) {
        assert Apart(wf, After(wf, e), r);
        ApartRecorded(wf, After(wf, e), r);
      }
  }

  lemma AdvanceKeepsRuns(wf: Engine, id: nat, kind: EventKind, attrs: Attrs, now: nat)
    ensures Advance(wf, id, kind, attrs, now).runs.Keys == wf.runs.Keys
  {
  }

  /** Over every log of framed decisions, each run's first event carries its input and start,
      and its last event the stamp it last moved at. */
  lemma {:induction false} RecordIsHistory(log: seq<Command>, n: nat, r: nat)
    requires n <= |log| && r in DbAt(log, n).wf.runs && forall j :: 0 <= j < |log| ==> Framed(log[j])
    ensures Recorded(DbAt(log, n).wf, r)
    decreases n
  {
    hide Step;
    hide After;
    hide EffectOf;
    hide Recorded;
    if n > 0 {
      var db, c := DbAt(log, n - 1), log[n - 1];
      if r in db.wf.runs { RecordIsHistory(log, n - 1, r); }
      ReachableShape(log, n - 1);
      DbAtNext(log, n - 1);
      StepEffect(db, c);
      FramedEffect(db, c);
      EffectRecorded(db.wf, EffectOf(db, c), r);
    }
  }

  // ----- Versions -----

  /** A run moves to its next version: one generation on, at least as long, at the stamp. */
  predicate Moved(run: Run, run': Run) {
    && run.status == WfRunning && run'.epoch == (run.epoch + 1) % 0x1_0000_0000 && run'.curSeq >= run.curSeq
    && run' == run.(status := run'.status, epoch := run'.epoch, curSeq := run'.curSeq, lastEvent := run'.lastEvent,
                    pending := run'.pending)
  }

  lemma AdvanceMoves(wf: Engine, id: nat, kind: EventKind, attrs: Attrs, now: nat, r: nat)
    requires r in wf.runs
    ensures var wf' := Advance(wf, id, kind, attrs, now);
            r in wf'.runs && (wf'.runs[r] == wf.runs[r] || Moved(wf.runs[r], wf'.runs[r]))
  {
  }

  lemma DecidedMoves(wf: Engine, id: nat, epoch: nat, atSeq: nat, events: seq<EventIn>, now: nat, r: nat)
    requires Shape(wf) && r in wf.runs
    ensures var wf' := Decided(wf, id, epoch, atSeq, events, now);
            r in wf'.runs && (wf'.runs[r] == wf.runs[r] || Moved(wf.runs[r], wf'.runs[r]))
  {
    hide EventUpTo;
    if Fenced(wf, id, epoch, atSeq) { EventUpToMid(wf, id, events, now, |events|); }
  }

  lemma EffectMoves(wf: Engine, e: Effect, r: nat)
    requires Shape(wf) && r in wf.runs
    ensures r in After(wf, e).runs && (After(wf, e).runs[r] == wf.runs[r] || Moved(wf.runs[r], After(wf, e).runs[r]))
  {
    hide Advance;
    hide Decided;
    match e
    case Quiet =>
    case Begin(_, _, _, _, _) =>
    case Decide(run, epoch, atSeq, events, now) => DecidedMoves(wf, run, epoch, atSeq, events, now, r);
    case External(run, kind, attrs, now) => AdvanceMoves(wf, run, kind, attrs, now, r);
    case Ring(t, now) =>
      if t.ref.WfFired? { AdvanceMoves(wf, t.ref.run, TimerFired, Fired(t.ref.started), now, r); }
    case Terminal(run, sched, failed, result, now) =>
      AdvanceMoves(wf, run, if failed then ActivityFailed else ActivityCompleted, Outcome(sched, !failed, result), now,
          r);
    case Cancel(_, _, _) =>
  }

  /** Whatever the command, a run stays as it is or moves to its next version, so a task of an
      earlier version can be told from the current one. */
  lemma VersionMoves(log: seq<Command>, n: nat, r: nat)
    requires n < |log| && r in DbAt(log, n).wf.runs
    ensures var run, wf := DbAt(log, n).wf.runs[r], DbAt(log, n + 1).wf;
            r in wf.runs && (wf.runs[r] == run || Moved(run, wf.runs[r]))
  {
    hide Step;
    hide After;
    hide EffectOf;
    hide Moved;
    ReachableShape(log, n);
    DbAtNext(log, n);
    StepEffect(DbAt(log, n), log[n]);
    EffectMoves(DbAt(log, n).wf, EffectOf(DbAt(log, n), log[n]), r);
  }

  // ----- Continuing as new -----

  lemma {:induction false} Successor(wf: Engine, id: nat, events: seq<EventIn>, now: nat, m: nat, n: nat)
    requires Shape(wf) && id in wf.runs && m < n <= |events| && events[m].kind == WorkflowContinuedAsNew
    requires forall i :: m < i < n ==> events[i].kind != WorkflowContinuedAsNew
    ensures var out, run := EventUpTo(wf, wf, id, wf.runs[id], events, now, n), wf.runs[id];
            && wf.nextRun in out.runs
            && out.runs[wf.nextRun] ==
                 Run(run.wfType, run.tenant, WfRunning, 0, 1,
                     if events[m].attrs.NextInput? then events[m].attrs.input else [], now, now, id, true)
    decreases n
  {
    if m < n - 1 { Successor(wf, id, events, now, m, n - 1); }
  }

  /** A committed decision whose last continuation is its m-th event starts the next run: of
      the same type and tenant, with that event's input, child of the run it continues. */
  lemma ContinuesAsNew(log: seq<Command>, j: nat, m: nat)
    requires j < |log| && Committed(log, j) && m < |log[j].events| && log[j].events[m].kind == WorkflowContinuedAsNew
    requires forall i :: m < i < |log[j].events| ==> log[j].events[i].kind != WorkflowContinuedAsNew
    ensures var c, wf, wf' := log[j], DbAt(log, j).wf, DbAt(log, j + 1).wf;
            && c.run in wf.runs && wf.nextRun !in wf.runs && wf.nextRun in wf'.runs && wf'.nextRun == wf.nextRun + 1
            && wf'.runs[wf.nextRun] ==
                 Run(wf.runs[c.run].wfType, wf.runs[c.run].tenant, WfRunning, 0, 1,
                     if c.events[m].attrs.NextInput? then c.events[m].attrs.input else [], c.now, c.now, c.run, true)
  {
    hide Step;
    CommittedIsFenced(log, j);
    ReachableShape(log, j);
    DbAtNext(log, j);
    StepEffect(DbAt(log, j), log[j]);
    Successor(DbAt(log, j).wf, log[j].run, log[j].events, log[j].now, m, |log[j].events|);
    EventUpToMid(DbAt(log, j).wf, log[j].run, log[j].events, log[j].now, |log[j].events|);
    hide EventUpTo;
    hide Committed;
  }
}
