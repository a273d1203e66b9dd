/** What a caller of the engine is told is so, and stays so: every accepted report is an event
    of the run's history from then on, and every buried message a dead letter that says why. */
module Answers {
  import opened Bytes
  import opened Store
  import opened Commands
  import opened Handlers
  import opened Durable
  import opened History
  import opened Lifecycle
  import M = Moves
  import S = Safety
  import T = Steps

  predicate Live(wf: Engine, r: nat) {
    r in wf.runs && wf.runs[r].status == WfRunning
  }

  /** From the j-th state on, event e is the run's i-th. */
  ghost predicate Stands(log: seq<Command>, j: nat, r: nat, i: nat, e: Event)
    requires j <= |log|
  {
    forall n: nat :: j <= n <= |log| ==>
      EventKey(r, i) in DbAt(log, n).wf.history && DbAt(log, n).wf.history[EventKey(r, i)] == e
  }

  lemma StaysWritten(log: seq<Command>, j: nat, r: nat, i: nat, e: Event)
    requires j <= |log| && EventKey(r, i) in DbAt(log, j).wf.history && DbAt(log, j).wf.history[EventKey(r, i)] == e
    ensures Stands(log, j, r, i, e)
  {
    forall n: nat | j <= n <= |log|
      ensures EventKey(r, i) in DbAt(log, n).wf.history && DbAt(log, n).wf.history[EventKey(r, i)] == e
    {
      NoRewrite(log, j, n);
    }
  }

  // ----- Starting -----

  /** A start is answered with a run that was not there; from then on its first event holds
      the input it was started with. */
  lemma StartAnswer(log: seq<Command>, j: nat)
    requires j < |log| && log[j].StartRun?
    ensures var c, wf, wf' := log[j], DbAt(log, j).wf, DbAt(log, j + 1).wf;
            var res := Step(DbAt(log, j), c).res;
            && res.Started? && res.run !in wf.runs && res.run in wf'.runs
            && wf'.runs[res.run] == Run(c.wfType, c.tenant, WfRunning, 0, 1, c.input, c.now, c.now, c.parent, true)
            && Stands(log, j + 1, res.run, 1, Event(WorkflowStarted, c.now, Raw(c.input)))
  {
    var db, c := DbAt(log, j), log[j];
    ReachableShape(log, j);
    DbAtNext(log, j);
    StartWrites(db, c);
    hide Step;
    StaysWritten(log, j + 1, db.wf.nextRun, 1, Event(WorkflowStarted, c.now, Raw(c.input)));
    hide Stands;
  }

  lemma StartWrites(db: Db, c: Command)
    requires c.StartRun?
    ensures var r, wf' := db.wf.nextRun, Step(db, c).b.wf;
            && Step(db, c).res == Started(r) && r in wf'.runs && EventKey(r, 1) in wf'.history
            && wf'.runs[r] == Run(c.wfType, c.tenant, WfRunning, 0, 1, c.input, c.now, c.now, c.parent, true)
            && wf'.history[EventKey(r, 1)] == Event(WorkflowStarted, c.now, Raw(c.input))
  {
  }

  // ----- Reports -----

  /** The run still runs, the activity was scheduled by it, and nothing has reported it yet. */
  predicate Owed(wf: Engine, r: nat, sched: nat) {
    && Live(wf, r) && EventKey(r, sched) !in wf.done
    && EventKey(r, sched) in wf.history && wf.history[EventKey(r, sched)].kind == ActivityScheduled
  }

  lemma ExternalWrites(db: Db, b: Db, r: nat, kind: EventKind, attrs: Attrs, now: nat)
    requires Live(db.wf, r)
    ensures var wf', k := AppendExternal(db, b, r, kind, attrs, now).wf, EventKey(r, db.wf.runs[r].curSeq + 1);
            k in wf'.history && wf'.history[k] == Event(kind, now, attrs)
  {
  }

  /** The report of an activity is accepted exactly while it is owed, with the id of the event
      that carries its outcome from then on; a refusal says which of the conditions failed, and
      changes nothing. */
  lemma ActivityAnswer(log: seq<Command>, j: nat)
    requires j < |log| && log[j].CompleteActivity?
    ensures var c, db := log[j], DbAt(log, j);
            var res := Step(db, c).res;
            if Owed(db.wf, c.run, c.sched) then
              && res == Appended(true, "", db.wf.runs[c.run].curSeq + 1)
              && Stands(log, j + 1, c.run, res.newSeq,
                   Event(if c.success then ActivityCompleted else ActivityFailed, c.now,
                         Outcome(c.sched, c.success, c.result)))
            else
              && DbAt(log, j + 1) == db
              && res == Appended(false,
                   if c.run !in db.wf.runs then "missing"
                   else if !Live(db.wf, c.run) then "closed"
                   else if EventKey(c.run, c.sched) in db.wf.done then "duplicate_completion"
                   else "invalid_completion", 0)
  {
    var db, c := DbAt(log, j), log[j];
    DbAtNext(log, j);
    ReportWrites(db, c);
    hide Step;
    if Owed(db.wf, c.run, c.sched) {
      StaysWritten(log, j + 1, c.run, db.wf.runs[c.run].curSeq + 1,
          Event(if c.success then ActivityCompleted else ActivityFailed, c.now, Outcome(c.sched, c.success, c.result)));
    }
    hide Stands;
  }

  lemma ReportWrites(db: Db, c: Command)
    requires c.CompleteActivity?
    ensures var res, b := Step(db, c).res, Step(db, c).b;
            if Owed(db.wf, c.run, c.sched) then
              var k := EventKey(c.run, db.wf.runs[c.run].curSeq + 1);
              && res == Appended(true, "", k.id) && k in b.wf.history
              && b.wf.history[k] == Event(if c.success then ActivityCompleted else ActivityFailed, c.now,
                                          Outcome(c.sched, c.success, c.result))
            else
              && b == db
              && res == Appended(false,
                   if c.run !in db.wf.runs then "missing"
                   else if !Live(db.wf, c.run) then "closed"
                   else if EventKey(c.run, c.sched) in db.wf.done then "duplicate_completion"
                   else "invalid_completion", 0)
  {
    hide AppendExternal;
    if Owed(db.wf, c.run, c.sched) {
      var b1 := db.(wf := db.wf.(done := db.wf.done + {EventKey(c.run, c.sched)}));
      ExternalWrites(db, b1, c.run, if c.success then ActivityCompleted else ActivityFailed,
          Outcome(c.sched, c.success, c.result), c.now);
    }
  }

  /** A signal to a running run is its next event from then on; to any other it is lost. */
  lemma SignalAnswer(log: seq<Command>, j: nat)
    requires j < |log| && log[j].SignalRun?
    ensures var c, db := log[j], DbAt(log, j);
            && Step(db, c).res == Appended(true, "", 0)
            && if Live(db.wf, c.run)
               then Stands(log, j + 1, c.run, db.wf.runs[c.run].curSeq + 1,
                      Event(SignalReceived, c.now, Signal(c.name, c.payload)))
               else DbAt(log, j + 1) == db
  {
    var db, c := DbAt(log, j), log[j];
    DbAtNext(log, j);
    if Live(db.wf, c.run) {
      ExternalWrites(db, db, c.run, SignalReceived, Signal(c.name, c.payload), c.now);
      StaysWritten(log, j + 1, c.run, db.wf.runs[c.run].curSeq + 1,
          Event(SignalReceived, c.now, Signal(c.name, c.payload)));
      hide AppendExternal;
    }
    hide Stands;
  }

  /** A cancellation of a running run is its last event from then on, with its reason. */
  lemma CancelAnswer(log: seq<Command>, j: nat)
    requires j < |log| && log[j].CancelRun?
    ensures var c, db := log[j], DbAt(log, j);
            var res := Step(db, c).res;
            if Live(db.wf, c.run) then
              && res == Appended(true, "", db.wf.runs[c.run].curSeq + 1)
              && Stands(log, j + 1, c.run, res.newSeq, Event(WorkflowCanceled, c.now, Raw(c.reason)))
            else
              DbAt(log, j + 1) == db && res == Appended(false, if c.run in db.wf.runs then "closed" else "missing", 0)
  {
    var db, c := DbAt(log, j), log[j];
    DbAtNext(log, j);
    if Live(db.wf, c.run) {
      StaysWritten(log, j + 1, c.run, db.wf.runs[c.run].curSeq + 1, Event(WorkflowCanceled, c.now, Raw(c.reason)));
    }
    hide Stands;
  }

  /** A workflow timer that fires for a running run is its next event from then on. */
  lemma TimerAnswer(log: seq<Command>, j: nat)
    requires j < |log| && log[j].Fire? && log[j].timer.ref.WfFired? && log[j].timer in DbAt(log, j).q.timers
    ensures var t, at, wf := log[j].timer.ref, log[j].fireAt, DbAt(log, j).wf;
            if Live(wf, t.run)
            then Stands(log, j + 1, t.run, wf.runs[t.run].curSeq + 1, Event(TimerFired, at, Fired(t.started)))
            else DbAt(log, j + 1).wf == wf
  {
    var db, c := DbAt(log, j), log[j];
    var t := c.timer.ref;
    DbAtNext(log, j);
    if Live(db.wf, t.run) {
      ExternalWrites(db, db, t.run, TimerFired, Fired(t.started), c.fireAt);
      StaysWritten(log, j + 1, t.run, db.wf.runs[t.run].curSeq + 1, Event(TimerFired, c.fireAt, Fired(t.started)));
      hide AppendExternal;
    }
    hide Stands;
  }

  // ----- Decisions -----

  /** A decision is accepted exactly at the run's current version; its events are the run's
      next ones from then on, in order, under the leader's stamp. */
  lemma DecisionAnswer(log: seq<Command>, j: nat)
    requires j < |log| && log[j].AppendEvents?
    ensures var c, db := log[j], DbAt(log, j);
            var res := Step(db, c).res;
            if Live(db.wf, c.run) && c.epoch == db.wf.runs[c.run].epoch && c.atSeq == db.wf.runs[c.run].curSeq then
              && res == Appended(true, "", c.atSeq + |c.events|)
              && forall i :: 0 <= i < |c.events| ==>
                   Stands(log, j + 1, c.run, c.atSeq + 1 + i, Event(c.events[i].kind, c.now, c.events[i].attrs))
            else
              && DbAt(log, j + 1) == db
              && res == Appended(false, if c.run !in db.wf.runs then "missing"
                                        else if !Live(db.wf, c.run) then "closed" else "stale", 0)
  {
    var db, c := DbAt(log, j), log[j];
    DbAtNext(log, j);
    DecisionIs(db, c);
    hide Step;
    hide AppendUpTo;
    hide Stands;
    if Fenced(db.wf, c.run, c.epoch, c.atSeq) { DecisionStands(log, j); }
  }

  lemma DecisionStands(log: seq<Command>, j: nat)
    requires j < |log| && log[j].AppendEvents?
    requires Fenced(DbAt(log, j).wf, log[j].run, log[j].epoch, log[j].atSeq)
    ensures var c := log[j];
            forall i :: 0 <= i < |c.events| ==>
              Stands(log, j + 1, c.run, c.atSeq + 1 + i, Event(c.events[i].kind, c.now, c.events[i].attrs))
  {
    hide Step;
    hide Stands;
    hide Fenced;
    hide DbAt;
    var c := log[j];
    CommittedIsFenced(log, j);
    CommitFollows(log, j);
    hide Committed;
    forall i | 0 <= i < |c.events|
      ensures Stands(log, j + 1, c.run, c.atSeq + 1 + i, Event(c.events[i].kind, c.now, c.events[i].attrs))
    {
      var k := EventKey(c.run, c.atSeq + 1 + i);
      assert k.run == c.run && k.id == c.atSeq + 1 + i;
      StaysWritten(log, j + 1, c.run, c.atSeq + 1 + i, Event(c.events[i].kind, c.now, c.events[i].attrs));
    }
  }

  lemma DecisionIs(db: Db, c: Command)
    requires c.AppendEvents?
    ensures var fenced := Live(db.wf, c.run) && c.epoch == db.wf.runs[c.run].epoch
                          && c.atSeq == db.wf.runs[c.run].curSeq;
            && (fenced <==> Fenced(db.wf, c.run, c.epoch, c.atSeq))
            && (fenced ==> Step(db, c).res == Appended(true, "", c.atSeq + |c.events|))
            && (!fenced ==> Step(db, c).b == db)
            && (!fenced ==> Step(db, c).res == Appended(false,
                  if c.run !in db.wf.runs then "missing" else if !Live(db.wf, c.run) then "closed" else "stale", 0))
  {
    hide AppendUpTo;
  }

  // ----- Dead letters -----

  /** A retry that reaches the limit, and a terminal nack, each with the consumer's note. */
  function NackedLetter(q: Queue, l: nat, mode: NackMode, meta: map<string, string>, now: nat)
    : Option<(MsgKey, DeadLetter)>
  {
    if l !in q.leases || q.leases[l].key !in q.messages then None
    else
      var k := q.leases[l].key;
      var m := q.messages[k];
      match mode
      case Retry =>
        if m.attempt + 1 < Limit(m) then None
        else Some((k, DeadLetter(m.(attempt := m.attempt + 1), m.attempt + 1, "max_attempts", meta, now)))
      case DeadLetterNow => Some((k, DeadLetter(m, m.attempt, "terminal_nack", meta, now)))
      case RequeueNoPenalty => None
  }

  /** The letter a command writes, and the message it is about. */
  function LetterFor(db: Db, c: Command): Option<(MsgKey, DeadLetter)> {
    match c
    case Nack(l, mode, _, meta, now) => NackedLetter(db.q, l, mode, meta, now)
    case Complete(hash, false, meta, _, now) =>
      if hash in db.tokens then NackedLetter(db.q, db.tokens[hash], Retry, meta, now) else None
    case Fire(Timer(due, LeaseMaxLife(l)), fireAt) =>
      if c.timer in db.q.timers && l in db.q.leases && db.q.leases[l].key in db.q.messages then
        var m := db.q.messages[db.q.leases[l].key];
        Some((db.q.leases[l].key, DeadLetter(m, m.attempt, "max_lease_lifetime", map[], fireAt)))
      else None
    case Fire(Timer(due, MsgExpiry(k)), fireAt) =>
      if c.timer in db.q.timers && k in db.q.messages && db.q.messages[k].state != Leased then
        Some((k, DeadLetter(db.q.messages[k], db.q.messages[k].attempt, "ttl", map[], fireAt)))
      else None
    case _ => None
  }

  lemma NackedRemoval(q: Queue, l: nat, mode: NackMode, meta: map<string, string>, now: nat)
    requires M.Inv(q)
    ensures T.NackRemoval(q, l, mode, meta, now) ==
              match NackedLetter(q, l, mode, meta, now) case Some((k, d)) => Some(M.Bury(k, d)) case None => None
  {
    hide M.Inv;
    if l in q.leases { T.HeldTarget(q, l); }
  }

  lemma FiredRemoval(q: Queue, ref: Ref, fireAt: nat)
    requires M.Inv(q) && ref.LeaseMaxLife? && ref.lease in q.leases
    ensures q.leases[ref.lease].key in q.messages
    ensures var m := q.messages[q.leases[ref.lease].key];
            T.FireRemoval(q, ref, fireAt) ==
              Some(M.Bury(q.leases[ref.lease].key, DeadLetter(m, m.attempt, "max_lease_lifetime", map[], fireAt)))
  {
    hide M.Inv;
    T.HeldTarget(q, ref.lease);
  }

  lemma RemovalLetter(db: Db, c: Command)
    requires M.Inv(db.q)
    ensures match LetterFor(db, c)
            case Some((k, d)) => T.Removal(db, c) == Some(M.Bury(k, d))
            case None => T.Removal(db, c).Some? ==> !T.Removal(db, c).value.Bury?
  {
    hide M.Inv;
    if c.Nack? {
      NackedRemoval(db.q, c.lease, c.mode, c.meta, c.now);
      hide T.NackRemoval;
      hide NackedLetter;
    } else if c.Complete? {
      if c.hash in db.tokens { NackedRemoval(db.q, db.tokens[c.hash], Retry, c.meta, c.now); }
      hide T.NackRemoval;
      hide NackedLetter;
    } else if c.Fire? && c.timer.ref.LeaseMaxLife? && c.timer.ref.lease in db.q.leases {
      FiredRemoval(db.q, c.timer.ref, c.fireAt);
    }
  }

  /** The dead letters after a command are those before it and the one it writes, which holds
      the message as it was, its attempts, the reason, and the consumer's note. */
  lemma LettersTold(db: Db, c: Command)
    requires M.Inv(db.q) && T.Allowed(c) && !c.Redrive?
    ensures Step(db, c).b.q.dlq ==
              match LetterFor(db, c) case Some((k, d)) => db.q.dlq[DlqKey(k, d.deadAt) := d] case None => db.q.dlq
  {
    hide M.Inv;
    hide T.Allowed;
    hide Step;
    hide T.Removal;
    hide LetterFor;
    RemovalLetter(db, c);
    S.CommandExact(db, c);
  }

  /** The bytes are the string's characters. */
  predicate Spells(b: Blob, s: string) {
    |b| == |s| && forall i :: 0 <= i < |s| && s[i] < '\U{100}' ==> b[i] == s[i] as int
  }

  lemma BridgeWrites(wf: Engine, d: DeadLetter)
    requires Shape(wf) && ACTIVITY_LANE <= d.original.key.group.lane && d.original.payload.ActTask?
    requires Owed(wf, d.original.payload.run, d.original.payload.sched)
    ensures var task, wf' := d.original.payload, After(wf, BridgeOf(d));
            var at := EventKey(task.run, wf.runs[task.run].curSeq + 1);
            && at in wf'.history
            && wf'.history[at] ==
                 Event(ActivityFailed, d.deadAt,
                       Outcome(task.sched, false, Ascii("activity_dead_lettered: " + d.reason)))
  {
    hide Ascii;
  }

  lemma BurialEffect(db: Db, c: Command, k: MsgKey, d: DeadLetter)
    requires T.Removal(db, c) == Some(M.Bury(k, d))
    ensures EffectOf(db, c) == BridgeOf(d)
  {
    hide BridgeOf;
  }

  /** A dead activity task is its run's failed outcome from then on, with the reason of its
      death. */
  lemma BurialAnswer(log: seq<Command>, j: nat, k: MsgKey, d: DeadLetter, result: Blob)
    requires j < |log| && S.AllAllowed(log) && LetterFor(DbAt(log, j), log[j]) == Some((k, d))
    requires ACTIVITY_LANE <= d.original.key.group.lane && d.original.payload.ActTask?
    requires Owed(DbAt(log, j).wf, d.original.payload.run, d.original.payload.sched)
    requires result == Ascii("activity_dead_lettered: " + d.reason)
    ensures Spells(result, "activity_dead_lettered: " + d.reason)
    ensures var task, wf := d.original.payload, DbAt(log, j).wf;
            Stands(log, j + 1, task.run, wf.runs[task.run].curSeq + 1,
              Event(ActivityFailed, d.deadAt, Outcome(task.sched, false, result)))
  {
    AsciiSpells("activity_dead_lettered: " + d.reason);
    hide *;
    BurialStands(log, j, k, d);
  }

  /** A dead letter of any other lane, or of an activity that is not owed, changes no run. */
  lemma BurialQuiet(log: seq<Command>, j: nat, k: MsgKey, d: DeadLetter)
    requires j < |log| && S.AllAllowed(log) && LetterFor(DbAt(log, j), log[j]) == Some((k, d))
    requires !("__act/" <= d.original.key.group.lane) || !d.original.payload.ActTask?
             || !Owed(DbAt(log, j).wf, d.original.payload.run, d.original.payload.sched)
    ensures DbAt(log, j + 1).wf == DbAt(log, j).wf
  {
    hide Step;
    hide M.Inv;
    hide T.Removal;
    hide LetterFor;
    hide Ascii;
    hide EffectOf;
    var db, c := DbAt(log, j), log[j];
    S.ReachableInv(log[..j]);
    DbAtNext(log, j);
    RemovalLetter(db, c);
    StepEffect(db, c);
    EffectedWf(db, Step(db, c).b, EffectOf(db, c));
    BurialEffect(db, c, k, d);
  }

  lemma AsciiSpells(s: string)
    ensures Spells(Ascii(s), s)
  {
  }

  lemma BurialStands(log: seq<Command>, j: nat, k: MsgKey, d: DeadLetter)
    requires j < |log| && S.AllAllowed(log) && LetterFor(DbAt(log, j), log[j]) == Some((k, d))
    requires ACTIVITY_LANE <= d.original.key.group.lane && d.original.payload.ActTask?
    requires Owed(DbAt(log, j).wf, d.original.payload.run, d.original.payload.sched)
    ensures var task, wf := d.original.payload, DbAt(log, j).wf;
            Stands(log, j + 1, task.run, wf.runs[task.run].curSeq + 1,
              Event(ActivityFailed, d.deadAt, Outcome(task.sched, false, Ascii("activity_dead_lettered: " + d.reason))))
  {
    hide Step;
    hide M.Inv;
    hide T.Removal;
    hide LetterFor;
    hide Ascii;
    hide After;
    hide EffectOf;
    var db, c := DbAt(log, j), log[j];
    S.ReachableInv(log[..j]);
    ReachableShape(log, j);
    DbAtNext(log, j);
    RemovalLetter(db, c);
    StepEffect(db, c);
    EffectedWf(db, Step(db, c).b, EffectOf(db, c));
    BurialEffect(db, c, k, d);
    BridgeWrites(db.wf, d);
    hide BridgeOf;
    var task := d.original.payload;
    StaysWritten(log, j + 1, task.run, db.wf.runs[task.run].curSeq + 1,
        Event(ActivityFailed, d.deadAt, Outcome(task.sched, false, Ascii("activity_dead_lettered: " + d.reason))));
    hide Stands;
  }
}
