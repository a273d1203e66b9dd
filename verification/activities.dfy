/** The activity-worker protocol: an activity without an outcome always has its task in the
    queue, even while a worker's report races the dead-letter bridge. */
module Activities {
  import opened Bytes
  import opened Store
  import opened Commands
  import opened Handlers
  import opened Durable
  import opened History
  import C = Custody
  import J = Journal
  import S = Safety
  import T = Steps
  import M = Moves

  // ----- What a decision dispatches -----

  /** A well-formed ACTIVITY_SCHEDULED: the one kind that dispatches a task. */
  predicate Dispatches(kind: EventKind, attrs: Attrs) {
    kind == ActivityScheduled && attrs.Schedule? && attrs.actType != ""
  }

  function TaskFor(run: nat, sched: nat, attrs: Attrs): Payload
    requires attrs.Schedule?
  {
    ActTask(run, sched, attrs.actType, attrs.input)
  }

  function GroupFor(attrs: Attrs): Group
    requires attrs.Schedule?
  {
    ActivityGroup(attrs.actType, attrs.tenant)
  }

  /** The decision's n-th event has its own task in the queue q. */
  predicate HasActivity(q0: Queue, q: Queue, run: nat, sched: nat, attrs: Attrs)
    requires attrs.Schedule?
  {
    var k := C.NextKey(q0, GroupFor(attrs));
    k in q.messages && C.IsTask(q.messages[k], k, TaskFor(run, sched, attrs))
  }

  /** No two activities of one decision go to the same group. */
  predicate Separate(events: seq<EventIn>) {
    forall i, j :: 0 <= i < j < |events| ==>
      Dispatches(events[i].kind, events[i].attrs) && Dispatches(events[j].kind, events[j].attrs) ==>
      GroupFor(events[i].attrs) != GroupFor(events[j].attrs)
  }

  lemma GroupsApart(a: Attrs, b: Attrs)
    requires a.Schedule? && b.Schedule?
    ensures GroupFor(a) == GroupFor(b) ==> a.actType == b.actType && a.tenant == b.tenant
  {
    assert GroupFor(a).lane[|ACTIVITY_LANE|..] == a.actType && GroupFor(b).lane[|ACTIVITY_LANE|..] == b.actType;
  }

  /** Writing one more event disturbs an activity's task only if it dispatches to the same group. */
  lemma OneMoreEvent(db: Db, b: Db, id: nat, run: Run, at: nat, e: EventIn, now: nat, sched: nat, attrs: Attrs)
    requires attrs.Schedule? && HasActivity(db.q, b.q, id, sched, attrs)
    requires Dispatches(e.kind, e.attrs) ==> GroupFor(e.attrs) != GroupFor(attrs)
    ensures HasActivity(db.q, AppendOne(db, b, id, run, at, e, now).q, id, sched, attrs)
  {
    var b1 := PutEvent(b, id, at, Event(e.kind, now, e.attrs));
    if e.kind == WorkflowContinuedAsNew {
      CreateDisturbsNone(db, b1, run.wfType, run.tenant, NextInputOf(e.attrs), id, now,
          C.NextKey(db.q, GroupFor(attrs)));
    }
    hide CreateRun;
  }

  lemma CreateDisturbsNone(db: Db, b: Db, wfType: string, tenant: string, input: Blob, parent: nat, now: nat, k: MsgKey)
    requires ACTIVITY_LANE <= k.group.lane && k in b.q.messages
    ensures var b' := CreateRun(db, b, wfType, tenant, input, parent, now);
            k in b'.q.messages && b'.q.messages[k] == b.q.messages[k]
  {
    J.LanesDiffer(wfType, k.group.lane);
  }

  lemma OneDispatches(db: Db, b: Db, id: nat, run: Run, at: nat, e: EventIn, now: nat)
    requires Dispatches(e.kind, e.attrs)
    ensures HasActivity(db.q, AppendOne(db, b, id, run, at, e, now).q, id, at, e.attrs)
  {
  }

  /** The last activity a decision sends to a group has its task; an earlier one of the same
      group has been overwritten. */
  lemma {:induction false} LastWins(db: Db, id: nat, run: Run, events: seq<EventIn>, now: nat, n: nat, i: nat)
    requires i < n <= |events| && Dispatches(events[i].kind, events[i].attrs)
    requires forall j :: i < j < n && Dispatches(events[j].kind, events[j].attrs) ==>
               GroupFor(events[j].attrs) != GroupFor(events[i].attrs)
    ensures HasActivity(db.q, AppendUpTo(db, db, id, run, events, now, n).q, id, run.curSeq + i + 1, events[i].attrs)
    decreases n
  {
    hide AppendOne;
    hide HasActivity;
    var b, at := AppendUpTo(db, db, id, run, events, now, n - 1), run.curSeq + n;
    if i == n - 1 {
      OneDispatches(db, b, id, run, at, events[i], now);
    } else {
      LastWins(db, id, run, events, now, n - 1, i);
      OneMoreEvent(db, b, id, run, at, events[n - 1], now, run.curSeq + i + 1, events[i].attrs);
    }
  }

  lemma {:induction false} LastOf(events: seq<EventIn>, i: nat, n: nat) returns (last: nat)
    requires i < n <= |events| && Dispatches(events[i].kind, events[i].attrs)
    ensures i <= last < n && Dispatches(events[last].kind, events[last].attrs)
    ensures GroupFor(events[last].attrs) == GroupFor(events[i].attrs)
    ensures forall j :: last < j < n && Dispatches(events[j].kind, events[j].attrs) ==>
              GroupFor(events[j].attrs) != GroupFor(events[i].attrs)
    decreases n
  {
    if Dispatches(events[n - 1].kind, events[n - 1].attrs)
        && GroupFor(events[n - 1].attrs) == GroupFor(events[i].attrs) {
      last := n - 1;
    } else {
      last := LastOf(events, i, n - 1);
    }
  }

  /** Every activity of a decision gets its own task if and only if no two of them go to the
      same group: two of one type and tenant in one decision lose the first. */
  lemma DispatchedIffSeparate(db: Db, id: nat, run: Run, events: seq<EventIn>, now: nat)
    ensures (forall i :: 0 <= i < |events| && Dispatches(events[i].kind, events[i].attrs) ==>
               HasActivity(db.q, AppendUpTo(db, db, id, run, events, now, |events|).q, id, run.curSeq + i + 1,
                   events[i].attrs))
       <==> Separate(events)
  {
    hide AppendUpTo;
    if Separate(events) {
      forall i | 0 <= i < |events| && Dispatches(events[i].kind, events[i].attrs)
        ensures HasActivity(db.q, AppendUpTo(db, db, id, run, events, now, |events|).q, id, run.curSeq + i + 1,
                  events[i].attrs)
      {
        LastWins(db, id, run, events, now, |events|, i);
      }
    } else {
      var i, j :| 0 <= i < j < |events| && Dispatches(events[i].kind, events[i].attrs)
          && Dispatches(events[j].kind, events[j].attrs)
                  && GroupFor(events[i].attrs) == GroupFor(events[j].attrs);
      var last := LastOf(events, j, |events|);
      LastWins(db, id, run, events, now, |events|, last);
      assert !HasActivity(db.q, AppendUpTo(db, db, id, run, events, now, |events|).q, id, run.curSeq + i + 1,
          events[i].attrs);
    }
  }

  // ----- Steps -----

  datatype Session = Session(key: MsgKey, payload: Payload, reported: bool)

  /** The store, the task each scheduled activity was dispatched as, and the workers' leases. */
  datatype World = World(db: Db, task: map<EventKey, MsgKey>, sessions: map<nat, Session>)

  predicate Scheduled(wf: Engine, k: EventKey) {
    k in wf.history && Dispatches(wf.history[k].kind, wf.history[k].attrs)
  }

  /** How any command moves the store and the record of dispatched activities. */
  ghost function Commit(w: World, c: Command): World {
    var db' := Step(w.db, c).b;
    World(db',
          map k | k in db'.wf.history && Scheduled(db'.wf, k) && (k !in w.db.wf.history || k in w.task) ::
            if k !in w.db.wf.history then C.NextKey(w.db.q, GroupFor(db'.wf.history[k].attrs)) else w.task[k],
          w.sessions)
  }

  predicate IsTaskKey(k: MsgKey) {
    ACTIVITY_LANE <= k.group.lane
  }

  predicate Tidy(c: Command) {
    c.AppendEvents? ==> Separate(c.events)
  }

  /** The activity was dispatched, its run is running and it has no outcome. */
  predicate Open(wf: Engine, k: EventKey) {
    Unresolved(wf, k.run, k.id) && Scheduled(wf, k)
  }

  predicate Wants(w: World, k: EventKey, task: MsgKey) {
    Open(w.db.wf, k) && k in w.task && w.task[k] == task
  }

  predicate Buries(db: Db, c: Command) {
    T.Removal(db, c).Some? && T.Removal(db, c).value.Bury?
  }

  /** A command of the environment takes the task of an open activity out only as a dead
      letter. `LostIff` is why no more can be allowed. */
  ghost predicate Env(w: World, w': World, c: Command) {
    && T.Allowed(c) && Tidy(c) && w' == Commit(w, c)
    && forall k, t :: S.Takes(w.db, c, t) && Wants(w, k, t) ==> Buries(w.db, c)
  }

  ghost predicate Poll(w: World, w': World, c: Command) {
    && c.LeaseNext? && Step(w.db, c).res.LeaseGranted?
    && var r := Step(w.db, c).res;
       w' == Commit(w, c).(sessions := w.sessions[r.lease := Session(r.msg.key, r.msg.payload, false)])
  }

  function Marked(w: World, l: nat): World
    requires l in w.sessions
  {
    w.(sessions := w.sessions[l := w.sessions[l].(reported := true)])
  }

  /** A task that is not an activity of any run is not worth reporting. */
  ghost predicate Drop(w: World, w': World, l: nat) {
    && l in w.sessions && (!w.sessions[l].payload.ActTask? || w.sessions[l].payload.run == 0) && w' == Marked(w, l)
  }

  /** The worker reports the outcome of what it leased; a lost answer may be reported again. */
  ghost predicate Report(w: World, w': World, l: nat, success: bool, result: Blob, now: nat, lost: bool) {
    && l in w.sessions && w.sessions[l].payload.ActTask?
    && var c := CompleteActivity(w.sessions[l].payload.run, w.sessions[l].payload.sched, success, result, now);
       w' == if lost then Commit(w, c) else Marked(Commit(w, c), l)
  }

  /** Only then does it ack the lease. */
  ghost predicate Settle(w: World, w': World, l: nat, lost: bool) {
    && l in w.sessions && w.sessions[l].reported
    && var w1 := Commit(w, Ack(l));
       w' == if lost then w1 else w1.(sessions := w1.sessions - {l})
  }

  ghost predicate Crash(w: World, w': World, l: nat) {
    w' == w.(sessions := w.sessions - {l})
  }

  ghost predicate Next(w: World, w': World) {
    || (exists c :: Env(w, w', c))
    || (exists c :: Poll(w, w', c))
    || (exists l :: Drop(w, w', l))
    || (exists l, success, result, now, lost :: Report(w, w', l, success, result, now, lost))
    || (exists l, lost :: Settle(w, w', l, lost))
    || (exists l :: Crash(w, w', l))
  }

  const START: World := World(EMPTY_DB, map[], map[])

  ghost predicate Behaviour(ws: seq<World>) {
    ws != [] && ws[0] == START && forall i :: 0 <= i < |ws| - 1 ==> Next(ws[i], ws[i + 1])
  }

  // ----- The invariant -----

  /** An open activity's task is live. */
  ghost predicate NotLost(w: World, k: EventKey) {
    Open(w.db.wf, k) ==>
      && k in w.task && IsTaskKey(w.task[k])
      && w.task[k] in w.db.q.messages
      && w.db.q.messages[w.task[k]].payload == TaskFor(k.run, k.id, w.db.wf.history[k].attrs)
  }

  ghost predicate Core(w: World) {
    M.Inv(w.db.q) && Shape(w.db.wf) && forall k :: NotLost(w, k)
  }

  ghost predicate Honest(w: World, s: Session) {
    && (forall k :: Wants(w, k, s.key) ==> s.payload == TaskFor(k.run, k.id, w.db.wf.history[k].attrs))
    && (s.reported ==> forall k :: !Wants(w, k, s.key))
  }

  ghost predicate SessionOk(w: World, l: nat)
    requires l in w.sessions
  {
    && l < w.db.q.nextLease && M.Known(w.db.q, w.sessions[l].key)
    && (l in w.db.q.leases ==> w.db.q.leases[l].key == w.sessions[l].key)
    && Honest(w, w.sessions[l])
  }

  ghost predicate Ok(w: World) {
    Core(w) && forall l :: l in w.sessions ==> SessionOk(w, l)
  }

  // ----- Any command -----

  lemma {:induction false} SuccessorStarts(wf: Engine, id: nat, run: Run, events: seq<EventIn>, now: nat, n: nat)
    requires n <= |events| && id != wf.nextRun && EventKey(wf.nextRun, 1) !in wf.history
    ensures var k, out := EventKey(wf.nextRun, 1), EventUpTo(wf, wf, id, run, events, now, n);
            k in out.history ==> out.history[k].kind == WorkflowStarted
    decreases n
  {
    if n > 0 { SuccessorStarts(wf, id, run, events, now, n - 1); }
  }

  /** Activities are scheduled by decisions only, as the decision's own events. */
  lemma ScheduledByDecision(wf: Engine, e: Effect, k: EventKey)
    requires Shape(wf) && k in After(wf, e).history && k !in wf.history
    requires After(wf, e).history[k].kind == ActivityScheduled
    requires e.External? ==> e.kind != ActivityScheduled
    ensures e.Decide? && Fenced(wf, e.run, e.epoch, e.atSeq) && k.run == e.run && e.atSeq < k.id <= e.atSeq + |e.events|
    ensures After(wf, e).history[k] ==
              Event(e.events[k.id - e.atSeq - 1].kind, e.now, e.events[k.id - e.atSeq - 1].attrs)
  {
    if e.Decide? && Fenced(wf, e.run, e.epoch, e.atSeq) {
      EventUpToMid(wf, e.run, e.events, e.now, |e.events|);
      SuccessorStarts(wf, e.run, wf.runs[e.run], e.events, e.now, |e.events|);
      DecidedFollows(wf, e.run, e.epoch, e.atSeq, e.events, e.now);
      hide EventUpTo;
    }
  }

  lemma OpenBefore(wf: Engine, wf': Engine, k: EventKey)
    requires Shape(wf) && Extends(wf, wf') && Open(wf', k) && k in wf.history
    ensures Open(wf, k) && wf'.history[k] == wf.history[k]
  {
  }

  /** An open activity was open before, or has just been scheduled. */
  lemma StillOpen(w: World, c: Command, k: EventKey)
    requires Shape(w.db.wf) && Open(Step(w.db, c).b.wf, k) && k in w.db.wf.history
    ensures Open(w.db.wf, k) && Step(w.db, c).b.wf.history[k] == w.db.wf.history[k]
    ensures k in w.task ==> k in Commit(w, c).task && Commit(w, c).task[k] == w.task[k]
  {
    hide Step;
    hide After;
    hide EffectOf;
    hide Shape;
    hide Extends;
    StepEffect(w.db, c);
    EffectKeepsShape(w.db.wf, EffectOf(w.db, c));
    OpenBefore(w.db.wf, Step(w.db, c).b.wf, k);
  }

  lemma FreshIsDecided(w: World, c: Command, k: EventKey)
    requires Shape(w.db.wf) && Open(Step(w.db, c).b.wf, k) && k !in w.db.wf.history
    ensures c.AppendEvents? && Fenced(w.db.wf, c.run, c.epoch, c.atSeq) && k.run == c.run
    ensures c.atSeq < k.id <= c.atSeq + |c.events|
    ensures var e := c.events[k.id - c.atSeq - 1];
            Step(w.db, c).b.wf.history[k] == Event(e.kind, c.now, e.attrs) && Dispatches(e.kind, e.attrs)
  {
    StepEffect(w.db, c);
    var e := EffectOf(w.db, c);
    DecisionOf(w.db, c);
    ScheduledByDecision(w.db.wf, e, k);
    hide Step;
    hide After;
    hide EffectOf;
    hide Shape;
  }

  lemma FreshActivity(w: World, c: Command, k: EventKey)
    requires Shape(w.db.wf) && Tidy(c) && Open(Step(w.db, c).b.wf, k) && k !in w.db.wf.history
    ensures NotLost(Commit(w, c), k)
  {
    FreshIsDecided(w, c, k);
    var i := k.id - c.atSeq - 1;
    LastWins(w.db, c.run, w.db.wf.runs[c.run], c.events, c.now, |c.events|, i);
    DecisionQueue(w.db, c);
    TaskOfFresh(w, c, k);
    hide Step;
    hide Commit;
    hide AppendUpTo;
    hide Shape;
    hide Open;
  }

  lemma TaskOfFresh(w: World, c: Command, k: EventKey)
    requires k !in w.db.wf.history && Scheduled(Step(w.db, c).b.wf, k)
    ensures Commit(w, c).db == Step(w.db, c).b && k in Commit(w, c).task
    ensures var g := GroupFor(Step(w.db, c).b.wf.history[k].attrs);
            Commit(w, c).task[k] == C.NextKey(w.db.q, g) && IsTaskKey(Commit(w, c).task[k])
  {
    hide Step;
    assert GroupFor(Step(w.db, c).b.wf.history[k].attrs).lane ==
        ACTIVITY_LANE + Step(w.db, c).b.wf.history[k].attrs.actType;
  }

  lemma DecisionOf(db: Db, c: Command)
    ensures EffectOf(db, c).Decide? ==>
              c.AppendEvents? && EffectOf(db, c) == Decide(c.run, c.epoch, c.atSeq, c.events, c.now)
    ensures EffectOf(db, c).External? ==> EffectOf(db, c).kind == SignalReceived
  {
  }

  lemma DecisionQueue(db: Db, c: Command)
    requires c.AppendEvents? && Fenced(db.wf, c.run, c.epoch, c.atSeq)
    ensures Step(db, c).b.q == AppendUpTo(db, db, c.run, db.wf.runs[c.run], c.events, c.now, |c.events|).q
  {
    hide AppendUpTo;
  }

  lemma ResolvedIsNotOpen(wf: Engine, k: EventKey, failed: bool, result: Blob, now: nat)
    ensures !Open(Resolve(wf, k.run, k.id, failed, result, now), k)
  {
  }

  lemma BridgeResolves(wf: Engine, k: EventKey, letter: DeadLetter)
    requires IsTaskKey(letter.original.key) && letter.original.payload.ActTask? && k.run != 0
    requires letter.original.payload.run == k.run && letter.original.payload.sched == k.id
    ensures !Open(After(wf, BridgeOf(letter)), k)
  {
    hide Resolve;
    hide Open;
    ResolvedIsNotOpen(wf, k, true, Ascii("activity_dead_lettered: " + letter.reason), letter.deadAt);
  }

  /** Burying an open activity's task resolves the activity in the same batch. */
  lemma BuryingResolves(w: World, c: Command, k: EventKey)
    requires Core(w) && Open(w.db.wf, k) && k in w.task && S.Takes(w.db, c, w.task[k])
    requires Buries(w.db, c)
    ensures !Open(Step(w.db, c).b.wf, k)
  {
    hide Step;
    hide EffectOf;
    hide T.Removal;
    hide M.Inv;
    hide Shape;
    hide After;
    hide BridgeOf;
    hide Effected;
    assert NotLost(w, k);
    C.BuriedLetter(w.db, c);
    ShapeIds(w.db.wf, k);
    EffectOfBurial(w.db, c);
    StepEffect(w.db, c);
    EffectedWf(w.db, Step(w.db, c).b, EffectOf(w.db, c));
    BridgeResolves(w.db.wf, k, T.Removal(w.db, c).value.letter);
  }

  lemma ShapeIds(wf: Engine, k: EventKey)
    requires Shape(wf) && k in wf.history
    ensures k.run != 0
  {
  }

  lemma EffectOfBurial(db: Db, c: Command)
    requires T.Removal(db, c).Some? && T.Removal(db, c).value.Bury?
    ensures EffectOf(db, c) == BridgeOf(T.Removal(db, c).value.letter)
  {
  }

  lemma CommitDb(w: World, c: Command)
    ensures Commit(w, c).db == Step(w.db, c).b && Commit(w, c).sessions == w.sessions
  {
  }

  lemma CommitKeepsNotLost(w: World, c: Command, k: EventKey)
    requires Core(w) && T.Allowed(c) && Tidy(c)
    requires forall t :: S.Takes(w.db, c, t) && Wants(w, k, t) ==> Buries(w.db, c)
    ensures NotLost(Commit(w, c), k)
  {
    CommitDb(w, c);
    if Open(Step(w.db, c).b.wf, k) {
      if k !in w.db.wf.history {
        FreshActivity(w, c, k);
      } else {
        StillOpen(w, c, k);
        assert NotLost(w, k);
        if S.Takes(w.db, c, w.task[k]) {
          BuryingResolves(w, c, k);
        } else {
          C.Survives(w.db, c, w.task[k]);
        }
      }
    }
    hide Step;
    hide Commit;
    hide M.Inv;
    hide Shape;
    hide S.Takes;
    hide Open;
    hide T.Removal;
  }

  /** A command that takes a message out without burying it does nothing to any run. */
  lemma TakingIsQuiet(db: Db, c: Command, t: MsgKey)
    requires S.Takes(db, c, t) && !Buries(db, c)
    ensures EffectOf(db, c) == Quiet && !c.Redrive?
  {
    hide T.NackRemoval;
    hide T.FireRemoval;
    hide T.AckRemoval;
    hide IsAlarm;
    if c.Fire? && IsAlarm(c.timer) { AlarmsTakeNothing(db, c); }
  }

  lemma QuietKeepsOpen(w: World, c: Command, k: EventKey)
    requires EffectOf(w.db, c) == Quiet && Open(w.db.wf, k) && k in w.task
    ensures Open(Commit(w, c).db.wf, k) && k in Commit(w, c).task && Commit(w, c).task[k] == w.task[k]
  {
    hide Step;
    hide EffectOf;
    StepEffect(w.db, c);
    EffectedWf(w.db, Step(w.db, c).b, EffectOf(w.db, c));
  }

  /** A commit leaves an open activity without its task exactly if it takes out the task it
      wants, and not as a dead letter. */
  lemma LostIff(w: World, c: Command, k: EventKey)
    requires Core(w) && T.Allowed(c) && Tidy(c)
    ensures !NotLost(Commit(w, c), k) <==> exists t :: Wants(w, k, t) && S.Takes(w.db, c, t) && !Buries(w.db, c)
  {
    hide M.Inv;
    hide Shape;
    hide Commit;
    hide T.Allowed;
    hide Buries;
    hide Tidy;
    if t :| Wants(w, k, t) && S.Takes(w.db, c, t) && !Buries(w.db, c) {
      assert NotLost(w, k);
      TakingIsQuiet(w.db, c, t);
      QuietKeepsOpen(w, c, k);
      hide Open;
      S.CommandExact(w.db, c);
      CommitDb(w, c);
    } else {
      CommitKeepsNotLost(w, c, k);
    }
  }

  lemma CommitKeepsCore(w: World, c: Command)
    requires Core(w) && T.Allowed(c) && Tidy(c)
    requires forall k, t :: S.Takes(w.db, c, t) && Wants(w, k, t) ==> Buries(w.db, c)
    ensures Core(Commit(w, c))
  {
    forall k ensures NotLost(Commit(w, c), k) { CommitKeepsNotLost(w, c, k); }
    T.StepKeepsInv(w.db, c);
    StepEffect(w.db, c);
    EffectKeepsShape(w.db.wf, EffectOf(w.db, c));
    CommitDb(w, c);
    hide *;
    EffectedWf(w.db, Step(w.db, c).b, EffectOf(w.db, c));
    CoreIs(Commit(w, c));
  }

  lemma CoreIs(w: World)
    ensures M.Inv(w.db.q) && Shape(w.db.wf) && (forall k :: NotLost(w, k)) ==> Core(w)
  {
  }

  /** An old task is wanted only by the activity that wanted it before. */
  lemma OldTask(w: World, c: Command, k: EventKey, t: MsgKey)
    requires Core(w) && M.Known(w.db.q, t) && Wants(Commit(w, c), k, t)
    ensures Wants(w, k, t) && Commit(w, c).db.wf.history[k] == w.db.wf.history[k]
  {
    CommitDb(w, c);
    if k !in w.db.wf.history {
      TaskOfFresh(w, c, k);
      C.NextIsFresh(w.db.q, GroupFor(Step(w.db, c).b.wf.history[k].attrs));
    } else {
      StillOpen(w, c, k);
      assert NotLost(w, k);
    }
    hide M.Inv;
    hide M.Known;
    hide Shape;
    hide Step;
    hide Commit;
  }

  lemma CommitKeepsHonest(w: World, c: Command, s: Session)
    requires Core(w) && M.Known(w.db.q, s.key) && Honest(w, s)
    ensures Honest(Commit(w, c), s)
  {
    var w' := Commit(w, c);
    forall k | Wants(w', k, s.key) ensures Wants(w, k, s.key) && w'.db.wf.history[k] == w.db.wf.history[k] {
      OldTask(w, c, k, s.key);
    }
    hide Commit;
    hide Core;
    hide M.Known;
  }

  lemma CommitKeepsSession(w: World, c: Command, l: nat)
    requires Core(w) && T.Allowed(c) && l in w.sessions && SessionOk(w, l)
    ensures l in Commit(w, c).sessions && SessionOk(Commit(w, c), l)
  {
    C.StepFramesLeases(w.db, c);
    C.StaysKnown(w.db, c, w.sessions[l].key);
    CommitKeepsHonest(w, c, w.sessions[l]);
    CommitDb(w, c);
    hide Commit;
    hide Step;
    hide Core;
    hide Honest;
    hide M.Known;
  }

  lemma CommitKeepsOk(w: World, c: Command)
    requires Ok(w) && T.Allowed(c) && Tidy(c)
    requires forall k, t :: S.Takes(w.db, c, t) && Wants(w, k, t) ==> Buries(w.db, c)
    ensures Ok(Commit(w, c)) && Commit(w, c).sessions == w.sessions
  {
    CommitKeepsCore(w, c);
    CommitDb(w, c);
    forall l | l in w.sessions ensures SessionOk(Commit(w, c), l) { CommitKeepsSession(w, c, l); }
    hide Core;
    hide SessionOk;
    hide Commit;
  }

  // ----- Each step -----

  lemma EnvKeeps(w: World, w': World, c: Command)
    requires Ok(w) && Env(w, w', c)
    ensures Ok(w')
  {
    hide Ok;
    hide S.Takes;
    hide Wants;
    hide Buries;
    CommitKeepsOk(w, c);
  }

  lemma SameCore(w: World, w': World)
    requires Core(w) && w'.db == w.db && w'.task == w.task
    ensures Core(w')
  {
    hide M.Inv;
    hide Shape;
    forall k ensures NotLost(w', k) { assert NotLost(w, k); }
  }

  lemma SameWants(w: World, w': World)
    requires w'.db == w.db && w'.task == w.task
    ensures forall k, t :: Wants(w', k, t) <==> Wants(w, k, t)
    ensures forall s :: Honest(w', s) <==> Honest(w, s)
  {
    forall k, t ensures Wants(w', k, t) <==> Wants(w, k, t) {}
  }

  /** A session may be marked reported once no open activity wants its task. */
  lemma MarkKeeps(w: World, l: nat)
    requires Ok(w) && l in w.sessions && forall k :: !Wants(w, k, w.sessions[l].key)
    ensures Ok(Marked(w, l))
  {
    var w' := Marked(w, l);
    SameCore(w, w');
    SameWants(w, w');
    forall x | x in w'.sessions ensures SessionOk(w', x) { assert SessionOk(w, x); }
    hide Core;
  }

  lemma DropKeeps(w: World, w': World, l: nat)
    requires Ok(w) && Drop(w, w', l)
    ensures Ok(w')
  {
    assert SessionOk(w, l);
    forall k ensures !Wants(w, k, w.sessions[l].key) {
      if Wants(w, k, w.sessions[l].key) { ShapeIds(w.db.wf, k); }
    }
    MarkKeeps(w, l);
    hide M.Inv;
    hide Shape;
  }

  lemma ReportTakesNothing(db: Db, c: Command)
    requires c.CompleteActivity? || c.LeaseNext?
    ensures T.Allowed(c) && Tidy(c) && forall t :: !S.Takes(db, c, t)
  {
  }

  /** Reporting the activity a task stands for leaves no open activity that wants it. */
  lemma ReportedIsUnwanted(w: World, s: Session, c: Command)
    requires Core(w) && M.Known(w.db.q, s.key) && Honest(w, s) && s.payload.ActTask?
    requires c.CompleteActivity? && c.run == s.payload.run && c.sched == s.payload.sched
    ensures forall k :: !Wants(Commit(w, c), k, s.key)
  {
    forall k ensures !Wants(Commit(w, c), k, s.key) {
      if Wants(Commit(w, c), k, s.key) {
        OldTask(w, c, k, s.key);
        StepEffect(w.db, c);
        CommitDb(w, c);
        ResolvedIsNotOpen(w.db.wf, k, !c.success, c.result, c.now);
      }
    }
    hide Core;
    hide Step;
    hide Resolve;
    hide Commit;
    hide M.Known;
  }

  lemma ReportKeeps(w: World, w': World, l: nat, success: bool, result: Blob, now: nat, lost: bool)
    requires Ok(w) && Report(w, w', l, success, result, now, lost)
    ensures Ok(w')
  {
    var s := w.sessions[l];
    var c := CompleteActivity(s.payload.run, s.payload.sched, success, result, now);
    assert SessionOk(w, l);
    ReportTakesNothing(w.db, c);
    CommitKeepsOk(w, c);
    ReportedIsUnwanted(w, s, c);
    hide Ok;
    hide Commit;
    hide M.Known;
    hide Wants;
    if !lost { MarkKeeps(Commit(w, c), l); }
  }

  lemma EndKeeps(w: World, l: nat)
    requires Ok(w)
    ensures Ok(w.(sessions := w.sessions - {l}))
  {
    var w' := w.(sessions := w.sessions - {l});
    SameCore(w, w');
    SameWants(w, w');
    forall x | x in w'.sessions ensures SessionOk(w', x) { assert SessionOk(w, x); }
    hide Core;
  }

  lemma SettleKeeps(w: World, w': World, l: nat, lost: bool)
    requires Ok(w) && Settle(w, w', l, lost)
    ensures Ok(w')
  {
    hide Core;
    hide M.Known;
    assert SessionOk(w, l);
    forall k, t | S.Takes(w.db, Ack(l), t) ensures !Wants(w, k, t) { C.AckTakes(w.db, l, t); }
    C.AckAllowed(l);
    CommitKeepsOk(w, Ack(l));
    hide Ok;
    hide Commit;
    if !lost { EndKeeps(Commit(w, Ack(l)), l); }
  }

  lemma PolledHonest(w: World, c: Command, t: MsgKey, payload: Payload)
    requires Core(w) && t in w.db.q.messages && M.Known(w.db.q, t) && payload == w.db.q.messages[t].payload
    ensures Honest(Commit(w, c), Session(t, payload, false))
  {
    var w' := Commit(w, c);
    forall k | Wants(w', k, t) ensures payload == TaskFor(k.run, k.id, w'.db.wf.history[k].attrs) {
      OldTask(w, c, k, t);
      assert NotLost(w, k);
    }
    hide Commit;
    hide M.Inv;
    hide M.Known;
    hide Shape;
  }

  lemma PollKeeps(w: World, w': World, c: Command)
    requires Ok(w) && Poll(w, w', c)
    ensures Ok(w')
  {
    ReportTakesNothing(w.db, c);
    CommitKeepsOk(w, c);
    assert M.Inv(w.db.q);
    C.LeaseGrants(w.db, c);
    CommitDb(w, c);
    var r, w1 := Step(w.db, c).res, Commit(w, c);
    T.LiveIsKnown(w.db.q, r.msg.key);
    C.StaysKnown(w.db, c, r.msg.key);
    PolledHonest(w, c, r.msg.key, r.msg.payload);
    var s := Session(r.msg.key, r.msg.payload, false);
    hide M.Inv;
    hide Step;
    hide Commit;
    hide M.Known;
    hide Core;
    hide Honest;
    JoinKeeps(w1, r.lease, s);
  }

  /** A new session joins. */
  lemma JoinKeeps(w: World, l: nat, s: Session)
    requires Ok(w) && l < w.db.q.nextLease && M.Known(w.db.q, s.key) && Honest(w, s)
    requires l in w.db.q.leases ==> w.db.q.leases[l].key == s.key
    ensures Ok(w.(sessions := w.sessions[l := s]))
  {
    var w' := w.(sessions := w.sessions[l := s]);
    SameCore(w, w');
    SameWants(w, w');
    hide M.Known;
    hide Core;
    hide Honest;
    forall x | x in w'.sessions ensures SessionOk(w', x) {
      if x != l { assert SessionOk(w, x); }
    }
  }

  lemma NextKeeps(w: World, w': World)
    requires Ok(w) && Next(w, w')
    ensures Ok(w')
  {
    hide Ok;
    hide Env;
    hide Poll;
    hide Drop;
    hide Report;
    hide Settle;
    if c :| Env(w, w', c) {
      EnvKeeps(w, w', c);
    } else if c :| Poll(w, w', c) {
      PollKeeps(w, w', c);
    } else if l :| Drop(w, w', l) {
      DropKeeps(w, w', l);
    } else if l, success, result, now, lost :| Report(w, w', l, success, result, now, lost) {
      ReportKeeps(w, w', l, success, result, now, lost);
    } else if l, lost :| Settle(w, w', l, lost) {
      SettleKeeps(w, w', l, lost);
    } else {
      var l :| Crash(w, w', l);
      EndKeeps(w, l);
    }
  }

  lemma StartOk()
    ensures Ok(START)
  {
  }

  /** No activity is lost: in every state of every interleaving, an activity of a running run
      that has no outcome yet still has its task in the queue. */
  lemma {:induction false} NoActivityLost(ws: seq<World>, i: nat, k: EventKey)
    requires Behaviour(ws) && i < |ws|
    ensures Ok(ws[i]) && NotLost(ws[i], k)
    decreases i
  {
    hide Next;
    hide M.Inv;
    hide Shape;
    if i == 0 {
      StartOk();
    } else {
      NoActivityLost(ws, i - 1, k);
      assert Next(ws[i - 1], ws[i - 1 + 1]);
      NextKeeps(ws[i - 1], ws[i]);
    }
  }
}
