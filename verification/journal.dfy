/** Every command's effect on the queue is a list of elementary moves: at most one that
    takes messages out, then moves that do not. */
module Journal {
  import opened Bytes
  import opened Store
  import opened Commands
  import opened Handlers
  import M = Moves

  /** Playing the moves in order, each enabled, leads from q to q'. */
  ghost predicate Runs(q: Queue, mvs: seq<M.Move>, q': Queue)
    decreases |mvs|
  {
    if mvs == [] then q' == q
    else M.Enabled(q, mvs[0]) && Runs(M.Play(q, mvs[0]), mvs[1..], q')
  }

  lemma {:induction false} RunsKeepInv(q: Queue, mvs: seq<M.Move>, q': Queue)
    requires M.Inv(q) && Runs(q, mvs, q')
    ensures M.Inv(q')
    decreases |mvs|
  {
    hide M.Inv;
    hide M.Play;
    hide M.Enabled;
    if mvs != [] {
      M.PlayKeepsInv(q, mvs[0]);
      RunsKeepInv(M.Play(q, mvs[0]), mvs[1..], q');
    }
  }

  lemma {:induction false} RunsJoin(q: Queue, a: seq<M.Move>, q1: Queue, b: seq<M.Move>, q2: Queue)
    requires Runs(q, a, q1) && Runs(q1, b, q2)
    ensures Runs(q, a + b, q2)
    decreases |a|
  {
    hide M.Play;
    hide M.Enabled;
    if a == [] {
      assert a + b == b;
    } else {
      RunsJoin(M.Play(q, a[0]), a[1..], q1, b, q2);
      assert (a + b)[1..] == a[1..] + b;
    }
  }

  lemma RunsOne(q: Queue, mv: M.Move)
    requires M.Enabled(q, mv)
    ensures Runs(q, [mv], M.Play(q, mv))
  {
    hide M.Play;
    hide M.Enabled;
    assert [mv][1..] == [];
  }

  predicate Removing(mv: M.Move) {
    mv.Settle? || mv.Bury? || mv.Purge?
  }

  /** No message and no dead letter leaves, and only a message that was not in q0 is overwritten. */
  ghost predicate GentleMove(q0: Queue, mv: M.Move) {
    !Removing(mv) && !mv.Redeem? && (mv.Replace? ==> mv.m.key !in q0.messages)
  }

  ghost predicate Gentle(q0: Queue, mvs: seq<M.Move>) {
    forall i :: 0 <= i < |mvs| ==> GentleMove(q0, mvs[i])
  }

  // ----- Dispatching -----

  function DispatchMeta(gm: GroupMeta, now: nat): GroupMeta {
    gm.(weight := if gm.weight == 0.0 then 1.0 else gm.weight, nextSeq := gm.nextSeq + 1,
        total := gm.total + 1, ready := gm.ready + 1, lastActivity := now)
  }

  /** The group is as committed. */
  ghost predicate Untouched(q0: Queue, q: Queue, g: Group) {
    (g in q.groups <==> g in q0.groups) && (g in q.groups ==> q.groups[g] == q0.groups[g])
  }

  /** The batch has already dispatched one message to the group. */
  ghost predicate Bumped(q0: Queue, q: Queue, g: Group) {
    var gm := LoadMeta(q0, g);
    var k := MsgKey(g, gm.nextSeq);
    && g in q.groups && q.groups[g] == DispatchMeta(gm, q.groups[g].lastActivity)
    && k in q.messages && q.messages[k].state == Ready && k !in q0.messages
  }

  /** Relative to the committed queue, the batch has touched the group at most by dispatching to it. */
  ghost predicate OverlayAt(q0: Queue, q: Queue, g: Group) {
    Untouched(q0, q, g) || Bumped(q0, q, g)
  }

  ghost predicate Overlay(q0: Queue, q: Queue) {
    forall g :: OverlayAt(q0, q, g)
  }

  lemma NotYetHandedOut(q: Queue, g: Group)
    requires M.KeysOk(q)
    ensures MsgKey(g, LoadMeta(q, g).nextSeq) !in q.messages
  {
  }

  /** A dispatch is an enqueue; a second one to the same group in the same batch computes
      the same id and overwrites the first. */
  lemma PublishReadyRuns(db: Db, b: Db, g: Group, payload: Payload, now: nat) returns (mvs: seq<M.Move>)
    requires M.KeysOk(db.q) && OverlayAt(db.q, b.q, g)
    ensures var b' := PublishReady(db, b, g, payload, now);
            && Runs(b.q, mvs, b'.q) && Gentle(db.q, mvs)
            && (forall x :: OverlayAt(db.q, b.q, x) ==> OverlayAt(db.q, b'.q, x))
  {
    var b' := PublishReady(db, b, g, payload, now);
    var gm := LoadMeta(db.q, g);
    var k := MsgKey(g, gm.nextSeq);
    var m := b'.q.messages[k];
    var meta := DispatchMeta(gm, now);
    NotYetHandedOut(db.q, g);
    if Bumped(db.q, b.q, g) {
      mvs := [M.Replace(m), M.Knobs(g, meta)];
      var q1 := PutMsg(b.q, m);
      RunsOne(b.q, M.Replace(m));
      RunsOne(q1, M.Knobs(g, meta));
      RunsJoin(b.q, [M.Replace(m)], q1, [M.Knobs(g, meta)], b'.q);
      assert mvs == [M.Replace(m)] + [M.Knobs(g, meta)];
    } else {
      assert Untouched(db.q, b.q, g);
      mvs := [M.Enqueue(m, meta, None)];
      RunsOne(b.q, mvs[0]);
      assert M.Enqueued(b.q, m, meta, None) == b'.q;
    }
  }

  // ----- Durable execution -----

  lemma LanesDiffer(wfType: string, lane: string)
    requires ACTIVITY_LANE <= lane
    ensures WORKFLOW_LANE + wfType != lane
  {
    assert (WORKFLOW_LANE + wfType)[2] == 'w' && lane[2] == ACTIVITY_LANE[2] == 'a';
  }

  lemma DispatchTaskRuns(db: Db, b: Db, id: nat, run: Run) returns (mvs: seq<M.Move>)
    requires M.KeysOk(db.q) && OverlayAt(db.q, b.q, TaskGroup(run.wfType, id))
    ensures var b' := DispatchTask(db, b, id, run).0;
            && Runs(b.q, mvs, b'.q) && Gentle(db.q, mvs)
            && (forall x :: OverlayAt(db.q, b.q, x) ==> OverlayAt(db.q, b'.q, x))
  {
    if run.status != WfRunning || run.pending {
      mvs := [];
    } else {
      mvs := PublishReadyRuns(db, b, TaskGroup(run.wfType, id), WfTask(id, run.wfType), run.lastEvent);
    }
  }

  lemma CreateRunRuns(db: Db, b: Db, wfType: string, tenant: string, input: Blob, parent: nat, now: nat)
          returns (mvs: seq<M.Move>)
    requires M.KeysOk(db.q) && OverlayAt(db.q, b.q, TaskGroup(wfType, db.wf.nextRun))
    ensures var b' := CreateRun(db, b, wfType, tenant, input, parent, now);
            && Runs(b.q, mvs, b'.q) && Gentle(db.q, mvs)
            && (forall x :: OverlayAt(db.q, b.q, x) ==> OverlayAt(db.q, b'.q, x))
  {
    var id := db.wf.nextRun;
    var run := Run(wfType, tenant, WfRunning, 0, 1, input, now, now, parent, false);
    var b1 := b.(wf := b.wf.(nextRun := id + 1));
    var b2 := PutEvent(b1, id, 1, Event(WorkflowStarted, now, Raw(input)));
    mvs := DispatchTaskRuns(db, b2, id, run);
  }

  lemma AppendExternalRuns(db: Db, b: Db, id: nat, kind: EventKind, attrs: Attrs, now: nat) returns (mvs: seq<M.Move>)
    requires M.KeysOk(db.q)
    requires id in db.wf.runs ==> OverlayAt(db.q, b.q, TaskGroup(db.wf.runs[id].wfType, id))
    ensures Runs(b.q, mvs, AppendExternal(db, b, id, kind, attrs, now).q) && Gentle(db.q, mvs)
  {
    hide DispatchTask;
    hide TaskGroup;
    hide OverlayAt;
    mvs := [];
    if id in db.wf.runs && db.wf.runs[id].status == WfRunning {
      var run := Advanced(db.wf.runs[id], now);
      mvs := DispatchTaskRuns(db, PutEvent(b, id, run.curSeq, Event(kind, now, attrs)), id, run);
    }
  }

  lemma RecordTerminalRuns(db: Db, b: Db, id: nat, sched: nat, failed: bool, result: Blob, now: nat)
          returns (mvs: seq<M.Move>)
    requires M.KeysOk(db.q)
    requires id in db.wf.runs ==> OverlayAt(db.q, b.q, TaskGroup(db.wf.runs[id].wfType, id))
    ensures Runs(b.q, mvs, RecordActivityTerminal(db, b, id, sched, failed, result, now).b.q) && Gentle(db.q, mvs)
  {
    hide AppendExternal;
    var b1 := b.(wf := b.wf.(done := b.wf.done + {EventKey(id, sched)}));
    mvs := AppendExternalRuns(db, b1, id, if failed then ActivityFailed else ActivityCompleted,
                              Outcome(sched, !failed, result), now);
    if RecordActivityTerminal(db, b, id, sched, failed, result, now).b == b {
      mvs := [];
    }
  }

  lemma SameGroupsOverlay(q0: Queue, q: Queue, q': Queue)
    requires Overlay(q0, q) && q'.groups == q.groups && q'.messages == q.messages
    ensures Overlay(q0, q')
  {
    forall g ensures OverlayAt(q0, q', g) { assert OverlayAt(q0, q, g); }
  }

  lemma AppendOneRuns(db: Db, b: Db, id: nat, run: Run, at: nat, e: EventIn, now: nat) returns (mvs: seq<M.Move>)
    requires M.KeysOk(db.q) && Overlay(db.q, b.q)
    ensures var b' := AppendOne(db, b, id, run, at, e, now);
            Runs(b.q, mvs, b'.q) && Gentle(db.q, mvs) && Overlay(db.q, b'.q)
  {
    hide PublishReady;
    hide CreateRun;
    hide OverlayAt;
    var b1 := PutEvent(b, id, at, Event(e.kind, now, e.attrs));
    mvs := [];
    match e.kind
    case ActivityScheduled =>
      if e.attrs.Schedule? && e.attrs.actType != "" {
        assert OverlayAt(db.q, b1.q, ActivityGroup(e.attrs.actType, e.attrs.tenant));
        mvs := PublishReadyRuns(db, b1, ActivityGroup(e.attrs.actType, e.attrs.tenant),
                                ActTask(id, at, e.attrs.actType, e.attrs.input), 0);
      }
    case TimerStarted =>
      if e.attrs.FireAt? && e.attrs.at != 0 {
        var t := Timer(e.attrs.at, WfFired(id, at));
        mvs := [M.Arm(t, 0)];
        RunsOne(b.q, mvs[0]);
        assert M.Play(b.q, mvs[0]) == AppendOne(db, b, id, run, at, e, now).q;
        SameGroupsOverlay(db.q, b.q, M.Play(b.q, mvs[0]));
      }
    case WorkflowContinuedAsNew =>
      assert OverlayAt(db.q, b1.q, TaskGroup(run.wfType, db.wf.nextRun));
      mvs := CreateRunRuns(db, b1, run.wfType, run.tenant, NextInputOf(e.attrs), id, now);
    case _ =>
  }

  lemma GentleJoin(q0: Queue, a: seq<M.Move>, b: seq<M.Move>)
    requires Gentle(q0, a) && Gentle(q0, b)
    ensures Gentle(q0, a + b)
  {
  }

  lemma {:induction false} AppendUpToRuns(db: Db, id: nat, run: Run, events: seq<EventIn>, now: nat, n: nat)
          returns (mvs: seq<M.Move>)
    requires M.KeysOk(db.q) && n <= |events|
    ensures var b' := AppendUpTo(db, db, id, run, events, now, n);
            Runs(db.q, mvs, b'.q) && Gentle(db.q, mvs) && Overlay(db.q, b'.q)
  {
    hide AppendOne;
    hide Overlay;
    if n == 0 {
      mvs := [];
      assert Overlay(db.q, db.q) by { SelfOverlay(db.q); }
    } else {
      var init := AppendUpToRuns(db, id, run, events, now, n - 1);
      var b := AppendUpTo(db, db, id, run, events, now, n - 1);
      var last := AppendOneRuns(db, b, id, run, run.curSeq + n, events[n - 1], now);
      RunsJoin(db.q, init, b.q, last, AppendUpTo(db, db, id, run, events, now, n).q);
      GentleJoin(db.q, init, last);
      mvs := init + last;
    }
  }

  lemma SelfOverlay(q: Queue)
    ensures Overlay(q, q)
  {
  }

  lemma AppendRuns(db: Db, id: nat, epoch: nat, atSeq: nat, events: seq<EventIn>, now: nat) returns (mvs: seq<M.Move>)
    requires M.KeysOk(db.q)
    ensures Runs(db.q, mvs, ApplyAppend(db, db, id, epoch, atSeq, events, now).b.q) && Gentle(db.q, mvs)
  {
    hide AppendUpTo;
    mvs := [];
    if id in db.wf.runs && db.wf.runs[id].status == WfRunning && epoch == db.wf.runs[id].epoch
        && atSeq == db.wf.runs[id].curSeq {
      mvs := AppendUpToRuns(db, id, db.wf.runs[id], events, now, |events|);
    }
  }
}
