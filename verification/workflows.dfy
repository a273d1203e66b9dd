/** The workflow-worker protocol: leases, reads, gated decisions, acks and requeues of any
    number of workers, interleaved with every other command. No run wedges. */
module Workflows {
  import opened Bytes
  import opened Store
  import opened Commands
  import opened Handlers
  import opened Durable
  import opened History
  import opened Dispatch
  import C = Custody
  import S = Safety
  import T = Steps
  import M = Moves

  /** Where a worker stands with the task it leased. */
  datatype Phase =
    | Polled
    | Read(run: nat, epoch: nat, top: nat)
    | Gated(run: nat, epoch: nat, top: nat, events: seq<EventIn>)
    | Acking
    | Requeueing

  datatype Session = Session(key: MsgKey, payload: Payload, phase: Phase)

  /** The store, the task message each run was last given, and the sessions by lease id. */
  datatype World = World(db: Db, task: map<nat, MsgKey>, sessions: map<nat, Session>)

  // ----- Steps -----

  /** How any command moves the store and the record of who was tasked. */
  ghost function Commit(w: World, c: Command): World {
    var e, db' := EffectOf(w.db, c), Step(w.db, c).b;
    World(db',
          map r | r in db'.wf.runs && (Tasks(w.db.wf, e, r) || r in w.task) ::
            if Tasks(w.db.wf, e, r) then TaskKey(w.db.q, db'.wf.runs[r].wfType, r) else w.task[r],
          w.sessions)
  }

  /** The run waits for a decision on this task. */
  predicate Wants(w: World, r: nat, k: MsgKey) {
    IsRunning(w.db.wf, r) && w.db.wf.runs[r].pending && r in w.task && w.task[r] == k
  }

  /** A command of the environment: anything that does not take out a task a run still wants.
      `WedgeIff` is why no more can be allowed, and `OtherLanesSafe` what surely is. */
  ghost predicate Env(w: World, w': World, c: Command) {
    T.Allowed(c) && (forall k, r :: S.Takes(w.db, c, k) ==> !Wants(w, r, k)) && w' == Commit(w, c)
  }

  /** A worker leases a task. */
  ghost predicate Poll(w: World, w': World, c: Command) {
    && c.LeaseNext? && Step(w.db, c).res.LeaseGranted?
    && var r := Step(w.db, c).res;
       w' == Commit(w, c).(sessions := w.sessions[r.lease := Session(r.msg.key, r.msg.payload, Polled)])
  }

  function At(w: World, l: nat, p: Phase): World
    requires l in w.sessions
  {
    w.(sessions := w.sessions[l := w.sessions[l].(phase := p)])
  }

  /** It then reads its run's version; a malformed, missing or closed one is dropped. */
  ghost predicate Look(w: World, w': World, l: nat) {
    && l in w.sessions && w.sessions[l].phase == Polled
    && var p := w.sessions[l].payload;
       w' == At(w, l, if p.WfTask? && IsRunning(w.db.wf, p.run)
                      then Read(p.run, w.db.wf.runs[p.run].epoch, w.db.wf.runs[p.run].curSeq) else Acking)
  }

  /** The gate checks a decision against the store: stale or closed is dropped, a refusal is
      requeued, anything else is passed on with some events. */
  ghost predicate Gate(w: World, w': World, l: nat, refused: bool, events: seq<EventIn>) {
    && l in w.sessions && w.sessions[l].phase.Read?
    && var p := w.sessions[l].phase;
       w' == At(w, l, if p.run !in w.db.wf.runs then Requeueing
                      else if !Fenced(w.db.wf, p.run, p.epoch, p.top) then Acking
                      else if refused then Requeueing
                      else Gated(p.run, p.epoch, p.top, events))
  }

  /** A gated decision is proposed, arbitrarily later. If the answer is lost, the worker may
      submit again. */
  ghost predicate Propose(w: World, w': World, l: nat, now: nat, lost: bool) {
    && l in w.sessions && w.sessions[l].phase.Gated?
    && var p := w.sessions[l].phase;
       var c := AppendEvents(p.run, p.epoch, p.top, p.events, now);
       w' == At(Commit(w, c), l, if lost then Read(p.run, p.epoch, p.top)
                                 else if Step(w.db, c).res == Appended(false, "missing", 0) then Requeueing else Acking)
  }

  /** The task is acked; the session ends, or acks again if the answer was lost. */
  ghost predicate Settle(w: World, w': World, l: nat, lost: bool) {
    && l in w.sessions && w.sessions[l].phase == Acking
    && var w1 := Commit(w, Ack(l));
       w' == if lost then w1 else w1.(sessions := w1.sessions - {l})
  }

  ghost predicate Requeue(w: World, w': World, l: nat, delay: nat, now: nat) {
    && l in w.sessions && w.sessions[l].phase == Requeueing
    && var w1 := Commit(w, Nack(l, RequeueNoPenalty, delay, map[], now));
       w' == w1.(sessions := w1.sessions - {l})
  }

  /** A worker dies, or its call fails: nothing more is heard from it. */
  ghost predicate Crash(w: World, w': World, l: nat) {
    w' == w.(sessions := w.sessions - {l})
  }

  ghost predicate Next(w: World, w': World) {
    || (exists c :: Env(w, w', c))
    || (exists c :: Poll(w, w', c))
    || (exists l :: Look(w, w', l))
    || (exists l, refused, events :: Gate(w, w', l, refused, events))
    || (exists l, now, lost :: Propose(w, w', l, now, lost))
    || (exists l, lost :: Settle(w, w', l, lost))
    || (exists l, delay, now :: Requeue(w, w', l, delay, now))
    || (exists l :: Crash(w, w', l))
  }

  const START: World := World(EMPTY_DB, map[], map[])

  ghost predicate Behaviour(ws: seq<World>) {
    ws != [] && ws[0] == START && forall i :: 0 <= i < |ws| - 1 ==> Next(ws[i], ws[i + 1])
  }

  // ----- The invariant -----

  /** A run that waits for a decision has the task it was given on entering its current
      version, and that task is live. */
  ghost predicate NotWedged(w: World, r: nat) {
    IsRunning(w.db.wf, r) && w.db.wf.runs[r].pending ==>
      && r in w.task && w.task[r].group == TaskGroup(w.db.wf.runs[r].wfType, r)
      && w.task[r] in w.db.q.messages && w.db.q.messages[w.task[r]].payload == WfTask(r, w.db.wf.runs[r].wfType)
  }

  ghost predicate Core(w: World) {
    M.Inv(w.db.q) && Shape(w.db.wf) && forall r :: NotWedged(w, r)
  }

  /** What a session may conclude about the runs that want its task. */
  ghost predicate Honest(w: World, s: Session) {
    match s.phase
    case Polled => forall r :: Wants(w, r, s.key) ==> s.payload == WfTask(r, w.db.wf.runs[r].wfType)
    case Read(run, epoch, top) => forall r :: Wants(w, r, s.key) ==> r == run && Fenced(w.db.wf, r, epoch, top)
    case Gated(run, epoch, top, _) => forall r :: Wants(w, r, s.key) ==> r == run && Fenced(w.db.wf, r, epoch, top)
    case Acking => forall r :: !Wants(w, r, s.key)
    case Requeueing => true
  }

  ghost predicate SessionOk(w: World, l: nat)
    requires l in w.sessions
  {
    && l < w.db.q.nextLease && M.Known(w.db.q, w.sessions[l].key)
    && (l in w.db.q.leases ==> w.db.q.leases[l].key == w.sessions[l].key)
    && Honest(w, w.sessions[l])
  }

  ghost predicate Ok(w: World) {
    Core(w) && forall l :: l in w.sessions ==> SessionOk(w, l)
  }

  // ----- Any command -----

  /** A run not tasked anew that still waits is exactly as it was. */
  lemma StillWaiting(w: World, c: Command, r: nat)
    requires Shape(w.db.wf)
    ensures var w' := Commit(w, c);
            IsRunning(w'.db.wf, r) && w'.db.wf.runs[r].pending && !Tasks(w.db.wf, EffectOf(w.db, c), r) ==>
              r in w.db.wf.runs && w'.db.wf.runs[r] == w.db.wf.runs[r]
  {
    StepEffect(w.db, c);
    hide After;
    hide EffectOf;
    hide Step;
  }

  /** What a commit does to a run's task record. */
  lemma CommitTasks(w: World, c: Command, r: nat)
    ensures var w' := Commit(w, c);
            && w'.db.wf == After(w.db.wf, EffectOf(w.db, c))
            && (Tasks(w.db.wf, EffectOf(w.db, c), r) ==>
                  IsRunning(w'.db.wf, r) && r in w'.task && w'.task[r] == TaskKey(w.db.q, w'.db.wf.runs[r].wfType, r))
            && (!Tasks(w.db.wf, EffectOf(w.db, c), r) && r in w'.db.wf.runs && r in w.task ==>
                 r in w'.task && w'.task[r] == w.task[r])
  {
    StepEffect(w.db, c);
    hide After;
    hide EffectOf;
    hide Step;
  }

  lemma CommitKeepsNotWedged(w: World, c: Command, r: nat)
    requires Core(w) && T.Allowed(c)
    requires forall k :: S.Takes(w.db, c, k) ==> !Wants(w, r, k)
    ensures NotWedged(Commit(w, c), r)
  {
    hide M.Inv;
    hide After;
    hide EffectOf;
    hide Step;
    hide Shape;
    hide S.Takes;
    hide T.Allowed;
    hide Tasks;
    var w', e := Commit(w, c), EffectOf(w.db, c);
    assert NotWedged(w, r);
    CommitTasks(w, c, r);
    if Tasks(w.db.wf, e, r) {
      TaskedHasMessage(w.db, c, r);
    } else {
      StillWaiting(w, c, r);
      if IsRunning(w.db.wf, r) && w.db.wf.runs[r].pending {
        assert Wants(w, r, w.task[r]);
        C.Survives(w.db, c, w.task[r]);
      }
    }
  }

  /** A command that takes a workflow task out of the queue does nothing to any run. */
  lemma TakingTaskIsQuiet(db: Db, c: Command, k: MsgKey)
    requires M.Inv(db.q) && S.Takes(db, c, k) && k in db.q.messages && db.q.messages[k].payload.WfTask?
    ensures EffectOf(db, c) == Quiet && !c.Redrive?
  {
    hide M.Inv;
    hide T.NackRemoval;
    hide T.FireRemoval;
    hide T.AckRemoval;
    hide IsAlarm;
    hide Ascii;
    C.BuriedLetter(db, c);
    if c.Fire? && IsAlarm(c.timer) { AlarmsTakeNothing(db, c); }
  }

  lemma QuietLeaves(w: World, c: Command, r: nat)
    requires EffectOf(w.db, c) == Quiet
    ensures var w' := Commit(w, c);
            && w'.db.wf.runs == w.db.wf.runs && (forall r :: !Tasks(w.db.wf, EffectOf(w.db, c), r))
            && (r in w.db.wf.runs && r in w.task ==> r in w'.task && w'.task[r] == w.task[r])
  {
    StepEffect(w.db, c);
    hide Step;
    hide EffectOf;
  }

  /** A commit wedges a run exactly if it takes out the task the run still wants. */
  lemma WedgeIff(w: World, c: Command, r: nat)
    requires Core(w) && T.Allowed(c)
    ensures !NotWedged(Commit(w, c), r) <==> exists k :: Wants(w, r, k) && S.Takes(w.db, c, k)
  {
    hide M.Inv;
    hide Shape;
    hide Commit;
    hide T.Allowed;
    if k :| Wants(w, r, k) && S.Takes(w.db, c, k) {
      assert NotWedged(w, r);
      TakingTaskIsQuiet(w.db, c, k);
      QuietLeaves(w, c, r);
      S.CommandExact(w.db, c);
      CommitDb(w, c);
    } else {
      CommitKeepsNotWedged(w, c, r);
    }
  }

  lemma CommitKeepsCore(w: World, c: Command)
    requires Core(w) && T.Allowed(c)
    requires forall k, r :: S.Takes(w.db, c, k) ==> !Wants(w, r, k)
    ensures Core(Commit(w, c))
  {
    forall r ensures NotWedged(Commit(w, c), r) { CommitKeepsNotWedged(w, c, r); }
    T.StepKeepsInv(w.db, c);
    StepEffect(w.db, c);
    EffectKeepsShape(w.db.wf, EffectOf(w.db, c));
    hide *;
    assert Commit(w, c).db == Step(w.db, c).b by { CommitDb(w, c); }
    assert Core(Commit(w, c)) by { CoreIs(Commit(w, c)); EffectedWf(w.db, Step(w.db, c).b, EffectOf(w.db, c)); }
  }

  lemma CommitDb(w: World, c: Command)
    ensures Commit(w, c).db == Step(w.db, c).b && Commit(w, c).sessions == w.sessions
  {
  }

  lemma CoreIs(w: World)
    ensures M.Inv(w.db.q) && Shape(w.db.wf) && (forall r :: NotWedged(w, r)) ==> Core(w)
  {
  }

  /** An old task is wanted only by whoever wanted it before, at the same version. */
  lemma OldTask(w: World, c: Command, r: nat, k: MsgKey)
    requires Core(w) && M.Known(w.db.q, k) && Wants(Commit(w, c), r, k)
    ensures Wants(w, r, k) && Commit(w, c).db.wf.runs[r] == w.db.wf.runs[r]
  {
    StillWaiting(w, c, r);
    var e := EffectOf(w.db, c);
    if Tasks(w.db.wf, e, r) {
      C.NextIsFresh(w.db.q, TaskGroup(Step(w.db, c).b.wf.runs[r].wfType, r));
    }
    hide M.Inv;
    hide M.Known;
    hide Tasks;
    hide Shape;
    hide Step;
    hide EffectOf;
  }

  /** Whoever wants the task in w' wanted it in w, with the same run record. */
  ghost predicate Inherits(w: World, w': World, k: MsgKey) {
    forall r :: Wants(w', r, k) ==> Wants(w, r, k) && w'.db.wf.runs[r] == w.db.wf.runs[r]
  }

  lemma InheritedHonest(w: World, w': World, s: Session)
    requires Inherits(w, w', s.key) && Honest(w, s)
    ensures Honest(w', s)
  {
  }

  lemma CommitKeepsHonest(w: World, c: Command, s: Session)
    requires Core(w) && M.Known(w.db.q, s.key) && Honest(w, s)
    ensures Honest(Commit(w, c), s)
  {
    var w' := Commit(w, c);
    forall r | Wants(w', r, s.key) ensures Wants(w, r, s.key) && w'.db.wf.runs[r] == w.db.wf.runs[r] {
      OldTask(w, c, r, s.key);
    }
    assert Inherits(w, w', s.key);
    hide *;
    InheritedHonest(w, w', s);
  }

  lemma CommitKeepsSession(w: World, c: Command, l: nat)
    requires Core(w) && T.Allowed(c) && l in w.sessions && SessionOk(w, l)
    ensures l in Commit(w, c).sessions && SessionOk(Commit(w, c), l)
  {
    C.StepFramesLeases(w.db, c);
    C.StaysKnown(w.db, c, w.sessions[l].key);
    CommitKeepsHonest(w, c, w.sessions[l]);
    CommitDb(w, c);
    hide Commit;
    hide Step;
    hide Core;
    hide Honest;
    hide M.Known;
  }

  lemma CommitKeepsOk(w: World, c: Command)
    requires Ok(w) && T.Allowed(c)
    requires forall k, r :: S.Takes(w.db, c, k) ==> !Wants(w, r, k)
    ensures Ok(Commit(w, c)) && Commit(w, c).sessions == w.sessions
  {
    CommitKeepsCore(w, c);
    CommitDb(w, c);
    forall l | l in w.sessions ensures SessionOk(Commit(w, c), l) { CommitKeepsSession(w, c, l); }
    hide Core;
    hide SessionOk;
    hide Commit;
  }

  // ----- Each step -----

  /** Whatever it takes out of other lanes, a command takes no task a run wants. */
  lemma OtherLanesSafe(w: World, c: Command)
    requires Core(w) && forall k :: S.Takes(w.db, c, k) ==> !IsTaskLane(k.group)
    ensures forall k, r :: S.Takes(w.db, c, k) ==> !Wants(w, r, k)
  {
    hide M.Inv;
    hide Shape;
    hide S.Takes;
    forall k, r | S.Takes(w.db, c, k) ensures !Wants(w, r, k) {
      assert NotWedged(w, r);
    }
  }

  lemma EnvKeeps(w: World, w': World, c: Command)
    requires Ok(w) && Env(w, w', c)
    ensures Ok(w')
  {
    hide Ok;
    hide S.Takes;
    hide Wants;
    CommitKeepsOk(w, c);
  }

  /** Changing one session's phase leaves everyone else as they were. */
  lemma PhaseKeeps(w: World, l: nat, p: Phase)
    requires Ok(w) && l in w.sessions && Honest(At(w, l, p), w.sessions[l].(phase := p))
    ensures Ok(At(w, l, p))
  {
    var w' := At(w, l, p);
    assert Core(w') by { SameCore(w, w'); }
    forall x | x in w'.sessions ensures SessionOk(w', x) {
      SameWants(w, w');
      assert SessionOk(w, x);
    }
    hide M.Inv;
    hide Shape;
  }

  lemma SameCore(w: World, w': World)
    requires Core(w) && w'.db == w.db && w'.task == w.task
    ensures Core(w')
  {
    hide M.Inv;
    hide Shape;
    forall r ensures NotWedged(w', r) { assert NotWedged(w, r); }
  }

  lemma SameWants(w: World, w': World)
    requires w'.db == w.db && w'.task == w.task
    ensures forall r, k :: Wants(w', r, k) <==> Wants(w, r, k)
    ensures forall s :: Honest(w', s) <==> Honest(w, s)
  {
    forall r, k ensures Wants(w', r, k) <==> Wants(w, r, k) {}
  }

  lemma LookKeeps(w: World, w': World, l: nat)
    requires Ok(w) && Look(w, w', l)
    ensures Ok(w')
  {
    hide Core;
    hide M.Known;
    assert SessionOk(w, l);
    var p := w'.sessions[l].phase;
    SameWants(w, At(w, l, p));
    PhaseKeeps(w, l, p);
  }

  lemma GateKeeps(w: World, w': World, l: nat, refused: bool, events: seq<EventIn>)
    requires Ok(w) && Gate(w, w', l, refused, events)
    ensures Ok(w')
  {
    hide Core;
    hide M.Known;
    assert SessionOk(w, l);
    var p := w'.sessions[l].phase;
    SameWants(w, At(w, l, p));
    PhaseKeeps(w, l, p);
  }

  lemma TakesNothing(db: Db, c: Command)
    requires c.LeaseNext? || c.AppendEvents? || (c.Nack? && c.mode == RequeueNoPenalty)
    ensures forall k :: !S.Takes(db, c, k)
    ensures T.Allowed(c)
  {
  }

  lemma PollKeeps(w: World, w': World, c: Command)
    requires Ok(w) && Poll(w, w', c)
    ensures Ok(w')
  {
    TakesNothing(w.db, c);
    CommitKeepsOk(w, c);
    assert M.Inv(w.db.q);
    C.LeaseGrants(w.db, c);
    CommitDb(w, c);
    var r, w1 := Step(w.db, c).res, Commit(w, c);
    T.LiveIsKnown(w.db.q, r.msg.key);
    C.StaysKnown(w.db, c, r.msg.key);
    PolledHonest(w, c, r.msg.key, r.msg.payload);
    var s := Session(r.msg.key, r.msg.payload, Polled);
    hide M.Inv;
    hide Step;
    hide Commit;
    hide M.Known;
    hide Core;
    hide Honest;
    JoinKeeps(w1, r.lease, s);
  }

  /** A new session joins. */
  lemma JoinKeeps(w: World, l: nat, s: Session)
    requires Ok(w) && l < w.db.q.nextLease && M.Known(w.db.q, s.key) && Honest(w, s)
    requires l in w.db.q.leases ==> w.db.q.leases[l].key == s.key
    ensures Ok(w.(sessions := w.sessions[l := s]))
  {
    var w' := w.(sessions := w.sessions[l := s]);
    SameCore(w, w');
    SameWants(w, w');
    hide M.Known;
    hide Core;
    hide Honest;
    forall x | x in w'.sessions ensures SessionOk(w', x) {
      if x != l { assert SessionOk(w, x); }
    }
  }

  lemma PolledHonest(w: World, c: Command, k: MsgKey, payload: Payload)
    requires Core(w) && k in w.db.q.messages && M.Known(w.db.q, k) && payload == w.db.q.messages[k].payload
    ensures Honest(Commit(w, c), Session(k, payload, Polled))
  {
    hide Commit;
    hide M.Inv;
    hide M.Known;
    hide Shape;
    var w' := Commit(w, c);
    forall r | Wants(w', r, k) ensures payload == WfTask(r, w'.db.wf.runs[r].wfType) {
      OldTask(w, c, r, k);
      assert NotWedged(w, r);
    }
  }

  lemma ProposeKeeps(w: World, w': World, l: nat, now: nat, lost: bool)
    requires Ok(w) && Propose(w, w', l, now, lost)
    ensures Ok(w')
  {
    var s := w.sessions[l];
    var c := AppendEvents(s.phase.run, s.phase.epoch, s.phase.top, s.phase.events, now);
    TakesNothing(w.db, c);
    CommitKeepsOk(w, c);
    assert SessionOk(w, l);
    NotWantedAfter(w, c, s.key);
    var w1, p := Commit(w, c), w'.sessions[l].phase;
    hide *;
    CommitDb(w, c);
    SameWants(w1, At(w1, l, p));
    UnwantedHonest(At(w1, l, p), s.(phase := p));
    PhaseKeeps(w1, l, p);
    ProposeIs(w, w', l, now, lost);
  }

  lemma ProposeIs(w: World, w': World, l: nat, now: nat, lost: bool)
    requires Propose(w, w', l, now, lost)
    ensures l in w'.sessions
    ensures var s := w.sessions[l];
            var w1 := Commit(w, AppendEvents(s.phase.run, s.phase.epoch, s.phase.top, s.phase.events, now));
            l in w1.sessions && w' == At(w1, l, w'.sessions[l].phase)
  {
    hide Step;
    hide EffectOf;
  }

  lemma UnwantedHonest(w: World, s: Session)
    requires forall r :: !Wants(w, r, s.key)
    ensures Honest(w, s)
  {
  }

  /** The version a decision was made at is gone once it is proposed. */
  lemma NotWantedAfter(w: World, c: Command, k: MsgKey)
    requires Core(w) && M.Known(w.db.q, k) && c.AppendEvents?
    requires forall r :: Wants(w, r, k) ==> r == c.run && Fenced(w.db.wf, r, c.epoch, c.atSeq)
    ensures forall r :: !Wants(Commit(w, c), r, k)
  {
    forall r ensures !Wants(Commit(w, c), r, k) {
      if Wants(Commit(w, c), r, k) {
        OldTask(w, c, r, k);
        StepEffect(w.db, c);
        CommitDb(w, c);
        DecisionAnswersTask(w.db.wf, c);
      }
    }
    hide *;
  }

  lemma DecisionAnswersTask(wf: Engine, c: Command)
    requires c.AppendEvents? && Fenced(wf, c.run, c.epoch, c.atSeq)
    ensures c.run in Decided(wf, c.run, c.epoch, c.atSeq, c.events, c.now).runs
    ensures !Decided(wf, c.run, c.epoch, c.atSeq, c.events, c.now).runs[c.run].pending
  {
  }

  lemma EndKeeps(w: World, l: nat)
    requires Ok(w)
    ensures Ok(w.(sessions := w.sessions - {l}))
  {
    var w' := w.(sessions := w.sessions - {l});
    SameCore(w, w');
    SameWants(w, w');
    forall x | x in w'.sessions ensures SessionOk(w', x) { assert SessionOk(w, x); }
    hide Core;
  }

  lemma SettleKeeps(w: World, w': World, l: nat, lost: bool)
    requires Ok(w) && Settle(w, w', l, lost)
    ensures Ok(w')
  {
    hide Core;
    hide M.Known;
    assert SessionOk(w, l);
    forall k, r | S.Takes(w.db, Ack(l), k) ensures !Wants(w, r, k) { C.AckTakes(w.db, l, k); }
    C.AckAllowed(l);
    CommitKeepsOk(w, Ack(l));
    hide Ok;
    hide Commit;
    if !lost { EndKeeps(Commit(w, Ack(l)), l); }
  }

  lemma RequeueKeeps(w: World, w': World, l: nat, delay: nat, now: nat)
    requires Ok(w) && Requeue(w, w', l, delay, now)
    ensures Ok(w')
  {
    var c := Nack(l, RequeueNoPenalty, delay, map[], now);
    TakesNothing(w.db, c);
    hide Ok;
    hide S.Takes;
    CommitKeepsOk(w, c);
    EndKeeps(Commit(w, c), l);
  }

  lemma NextKeeps(w: World, w': World)
    requires Ok(w) && Next(w, w')
    ensures Ok(w')
  {
    hide Ok;
    hide Env;
    hide Poll;
    hide Look;
    hide Gate;
    hide Propose;
    hide Settle;
    hide Requeue;
    if c :| Env(w, w', c) {
      EnvKeeps(w, w', c);
    } else if c :| Poll(w, w', c) {
      PollKeeps(w, w', c);
    } else if l :| Look(w, w', l) {
      LookKeeps(w, w', l);
    } else if l, refused, events :| Gate(w, w', l, refused, events) {
      GateKeeps(w, w', l, refused, events);
    } else if l, now, lost :| Propose(w, w', l, now, lost) {
      ProposeKeeps(w, w', l, now, lost);
    } else if l, lost :| Settle(w, w', l, lost) {
      SettleKeeps(w, w', l, lost);
    } else if l, delay, now :| Requeue(w, w', l, delay, now) {
      RequeueKeeps(w, w', l, delay, now);
    } else {
      var l :| Crash(w, w', l);
      EndKeeps(w, l);
    }
  }

  lemma StartOk()
    ensures Ok(START)
  {
  }

  /** No run wedges: in every state of every interleaving, a running run that waits for a
      decision still has the task message it was given on entering its current version. */
  lemma {:induction false} NoRunWedges(ws: seq<World>, i: nat, r: nat)
    requires Behaviour(ws) && i < |ws|
    ensures Ok(ws[i]) && NotWedged(ws[i], r)
    decreases i
  {
    hide Next;
    hide M.Inv;
    hide Shape;
    if i == 0 {
      StartOk();
    } else {
      NoRunWedges(ws, i - 1, r);
      assert Next(ws[i - 1], ws[i - 1 + 1]);
      NextKeeps(ws[i - 1], ws[i]);
    }
  }
}
