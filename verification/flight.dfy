/** How many messages a group holds, and how many of them are leased, after any command: the
    exact conditions under which a run has two workflow tasks. */
module Flight {
  import opened Bytes
  import opened Store
  import opened Commands
  import opened Handlers
  import opened Durable
  import opened History
  import B = Batch
  import C = Custody
  import D = Dispatch
  import R = Drain
  import S = Safety
  import T = Steps
  import M = Moves
  import Backoff

  // ----- The messages of a group -----

  function NextSeq(q: Queue, g: Group): nat {
    LoadMeta(q, g).nextSeq
  }

  /** The group's messages that a command does not take out. */
  ghost function Kept(db: Db, c: Command, g: Group): set<MsgKey> {
    set k | k in S.Live(db.q.messages, g) && !S.Takes(db, c, k)
  }

  /** Ids of a group from one sequence number to another. */
  function Span(g: Group, lo: nat, hi: nat): set<MsgKey> {
    set i | lo <= i < hi :: MsgKey(g, i)
  }

  lemma {:induction false} SpanCount(g: Group, lo: nat, hi: nat)
    requires lo <= hi
    ensures |Span(g, lo, hi)| == hi - lo
    decreases hi
  {
    if lo < hi {
      SpanCount(g, lo, hi - 1);
      assert Span(g, lo, hi) == Span(g, lo, hi - 1) + {MsgKey(g, hi - 1)};
    }
  }

  lemma StepTurnover(db: Db, c: Command)
    requires M.Inv(db.q) && T.Allowed(c)
    ensures S.KeepsKnown(db.q, Step(db, c).b.q) && S.OnlyFresh(db.q, Step(db, c).b.q)
    ensures forall k :: k in db.q.messages ==> (k in Step(db, c).b.q.messages <==> !S.Takes(db, c, k))
    ensures forall k :: k in Step(db, c).b.q.messages ==> M.Known(Step(db, c).b.q, k)
  {
    T.StepKeepsInv(db, c);
    forall k | k in Step(db, c).b.q.messages ensures M.Known(Step(db, c).b.q, k) { T.LiveIsKnown(Step(db, c).b.q, k); }
    if c.Redrive? {
      RedriveTurnover(db, c);
    } else {
      S.CommandExact(db, c);
    }
    hide M.Inv;
    hide Step;
    hide T.Removal;
    hide M.Known;
    hide S.SameContent;
  }

  lemma RedriveTurnover(db: Db, c: Command)
    requires M.Inv(db.q) && c.Redrive?
    ensures S.KeepsKnown(db.q, Step(db, c).b.q) && S.OnlyFresh(db.q, Step(db, c).b.q)
    ensures forall k :: k in db.q.messages ==> k in Step(db, c).b.q.messages && !S.Takes(db, c, k)
    ensures forall g :: NextSeq(Step(db, c).b.q, g) ==
              NextSeq(db.q, g) + S.One(g == c.group && S.IsDead(db.q, MsgKey(g, c.id)))
  {
    C.RedriveStep(db, c);
    S.RedriveExact(db, c.group, c.id, c.now);
    T.InvKeys(db.q);
    TakesNothing(db, c);
    hide *;
    var b, n := Step(db, c).b, NextSeq(db.q, c.group);
    SameTurnover(db.q);
    NextSeqIs(db.q, c.group);
    if S.IsDead(db.q, MsgKey(c.group, c.id)) {
      var d: DlqKey :| d.key == MsgKey(c.group, c.id) && S.Redrove(db, b, d, n, c.now);
      RedroveTurnover(db, b, d, n, c.now);
      RedroveSeq(db, b, d, n, c.now);
      OneIs();
    } else {
      OneIs();
    }
  }

  lemma OneIs()
    ensures S.One(true) == 1 && S.One(false) == 0
  {
  }

  lemma NextSeqIs(q: Queue, g: Group)
    ensures NextSeq(q, g) == LoadMeta(q, g).nextSeq
  {
  }

  lemma TakesNothing(db: Db, c: Command)
    requires c.Redrive?
    ensures forall k :: !S.Takes(db, c, k)
  {
  }

  lemma SameTurnover(q: Queue)
    ensures S.KeepsKnown(q, q) && S.OnlyFresh(q, q)
  {
    hide M.Known;
  }

  lemma RedroveTurnover(db: Db, b: Db, d: DlqKey, n: nat, now: nat)
    requires M.KeysOk(db.q) && S.Redrove(db, b, d, n, now) && n == NextSeq(db.q, d.key.group)
    ensures S.KeepsKnown(db.q, b.q) && S.OnlyFresh(db.q, b.q) && forall k :: k in db.q.messages ==> k in b.q.messages
  {
    hide S.Redrove;
    hide M.KeysOk;
    hide M.Known;
    forall k
      ensures M.Known(b.q, k) <==> M.Known(db.q, k) || k == MsgKey(d.key.group, n)
      ensures k in b.q.messages <==> k in db.q.messages || k == MsgKey(d.key.group, n)
      ensures !M.Known(db.q, MsgKey(d.key.group, n))
    {
      S.RedroveKnown(db, b, d, n, now, k);
    }
  }

  lemma RedroveSeq(db: Db, b: Db, d: DlqKey, n: nat, now: nat)
    requires S.Redrove(db, b, d, n, now) && n == NextSeq(db.q, d.key.group)
    ensures forall g :: NextSeq(b.q, g) == NextSeq(db.q, g) + S.One(g == d.key.group)
  {
  }

  /** Known ids are those below the next one. */
  ghost predicate Dense(q: Queue) {
    forall k :: M.Known(q, k) <==> 1 <= k.id < NextSeq(q, k.group)
  }

  lemma KeysAreDense(q: Queue)
    requires M.KeysOk(q)
    ensures Dense(q) && (forall g :: NextSeq(q, g) >= 1) && forall k :: k in q.messages ==> M.Known(q, k)
  {
  }

  lemma Arrivals(q: Queue, q': Queue, g: Group, kept: set<MsgKey>)
    requires Dense(q) && Dense(q') && S.KeepsKnown(q, q') && S.OnlyFresh(q, q')
    requires NextSeq(q, g) >= 1 && NextSeq(q', g) >= 1
    requires forall k :: k in q.messages ==> M.Known(q, k)
    requires forall k :: k in q'.messages ==> M.Known(q', k)
    requires forall k :: k in kept <==> k in q.messages && k in q'.messages && k.group == g
    ensures NextSeq(q, g) <= NextSeq(q', g)
    ensures S.Live(q'.messages, g) == kept + Span(g, NextSeq(q, g), NextSeq(q', g))
    ensures |S.Live(q'.messages, g)| == |kept| + NextSeq(q', g) - NextSeq(q, g)
  {
    hide M.Known;
    hide NextSeq;
    var lo, hi := NextSeq(q, g), NextSeq(q', g);
    if lo >= 2 {
      assert M.Known(q, MsgKey(g, lo - 1));
    }
    SpanCount(g, lo, hi);
    assert S.Live(q'.messages, g) == kept + Span(g, lo, hi);
    assert kept !! Span(g, lo, hi);
  }

  /** After any command a group holds what the command left of it and the ids it handed out. */
  lemma LiveAfter(db: Db, c: Command, g: Group)
    requires M.Inv(db.q) && T.Allowed(c)
    ensures var q' := Step(db, c).b.q;
            && NextSeq(db.q, g) <= NextSeq(q', g)
            && S.Live(q'.messages, g) == Kept(db, c, g) + Span(g, NextSeq(db.q, g), NextSeq(q', g))
            && |S.Live(q'.messages, g)| == |Kept(db, c, g)| + NextSeq(q', g) - NextSeq(db.q, g)
  {
    StepTurnover(db, c);
    T.StepKeepsInv(db, c);
    hide M.Inv;
    hide M.KeysOk;
    hide M.Known;
    hide Dense;
    hide NextSeq;
    hide Step;
    hide S.Takes;
    var q' := Step(db, c).b.q;
    T.InvKeys(db.q);
    T.InvKeys(q');
    KeysAreDense(db.q);
    KeysAreDense(q');
    Arrivals(db.q, q', g, Kept(db, c, g));
  }

  // ----- What each command hands out -----

  /** In group g the batch has handed out one id more than the committed store, or none. */
  ghost predicate Hands(db: Db, b: Db, g: Group, p: bool) {
    NextSeq(b.q, g) == NextSeq(db.q, g) + S.One(p)
  }

  lemma TaskHands(db: Db, b: Db, id: nat, run: Run, g: Group)
    ensures NextSeq(DispatchTask(db, b, id, run).0.q, g) ==
              if run.status == WfRunning && !run.pending && g == TaskGroup(run.wfType, id) then NextSeq(db.q, g) + 1
                  else NextSeq(b.q, g)
  {
    hide TaskGroup;
  }

  lemma CreateHands(db: Db, b: Db, wfType: string, tenant: string, input: Blob, parent: nat, now: nat, g: Group)
    ensures NextSeq(CreateRun(db, b, wfType, tenant, input, parent, now).q, g) ==
              if g == TaskGroup(wfType, db.wf.nextRun) then NextSeq(db.q, g) + 1 else NextSeq(b.q, g)
  {
    hide DispatchTask;
    hide NextSeq;
    var id := db.wf.nextRun;
    var run := Run(wfType, tenant, WfRunning, 0, 1, input, now, now, parent, false);
    var b2 := PutEvent(b.(wf := b.wf.(nextRun := id + 1)), id, 1, Event(WorkflowStarted, now, Raw(input)));
    TaskHands(db, b2, id, run, g);
    assert b2.q == b.q;
  }

  lemma AdvanceHands(db: Db, b: Db, id: nat, kind: EventKind, attrs: Attrs, now: nat, g: Group)
    requires b.q.groups == db.q.groups
    ensures Hands(db, AppendExternal(db, b, id, kind, attrs, now), g,
              IsRunning(db.wf, id) && g == TaskGroup(db.wf.runs[id].wfType, id))
  {
    hide DispatchTask;
    if IsRunning(db.wf, id) {
      var run := Advanced(db.wf.runs[id], now);
      var b1 := PutEvent(b, id, run.curSeq, Event(kind, now, attrs));
      TaskHands(db, b1, id, run, g);
    }
    hide TaskGroup;
  }

  lemma ResolveHands(db: Db, b: Db, id: nat, sched: nat, failed: bool, result: Blob, now: nat, g: Group)
    requires b.q.groups == db.q.groups
    ensures Hands(db, RecordActivityTerminal(db, b, id, sched, failed, result, now).b, g,
                  Unresolved(db.wf, id, sched) && g == TaskGroup(db.wf.runs[id].wfType, id))
  {
    hide AppendExternal;
    hide TaskGroup;
    AdvanceHands(db, b.(wf := b.wf.(done := b.wf.done + {EventKey(id, sched)})), id,
                 if failed then ActivityFailed else ActivityCompleted, Outcome(sched, !failed, result), now, g);
  }

  /** The buried letter reports to a run whose task group is g. */
  predicate ReportsTo(wf: Engine, letter: DeadLetter, g: Group) {
    D.Reports(wf, letter) && g == TaskGroup(wf.runs[letter.original.payload.run].wfType, letter.original.payload.run)
  }

  lemma PutHands(db: Db, b: Db, g: Group, gm: GroupMeta, x: Group)
    requires g in db.q.groups ==> gm.nextSeq == db.q.groups[g].nextSeq
    ensures NextSeq(PutIfKnown(db, b, g, gm).q, x) == if x == g && g in db.q.groups then NextSeq(db.q, x)
              else NextSeq(b.q, x)
  {
  }

  lemma DeadMsgHands(db: Db, b: Db, m: Message, reason: string, meta: map<string, string>, ts: nat, g: Group)
    requires b.q.groups == db.q.groups
    ensures Hands(db, DeadLetterMsg(db, b, m, reason, meta, ts), g, ReportsTo(db.wf, T.Letter(m, reason, meta, ts), g))
  {
    hide RecordActivityTerminal;
    hide TaskGroup;
    hide Unresolved;
    var b1 := b.(q := DropMsg(PutDead(b.q, DlqKey(m.key, ts), DeadLetter(m, m.attempt, reason, meta, ts)), m.key));
    if ACTIVITY_LANE <= m.key.group.lane && m.payload.ActTask? && m.payload.run != 0 {
      ResolveHands(db, b1, m.payload.run, m.payload.sched, true, Ascii("activity_dead_lettered: " + reason), ts, g);
    }
  }

  lemma ReportsElsewhere(wf: Engine, letter: DeadLetter)
    ensures !ReportsTo(wf, letter, letter.original.key.group)
  {
    if D.Reports(wf, letter) {
      var p := letter.original.payload;
      T.TaskGroupIsNot(wf.runs[p.run].wfType, p.run, letter.original.key.group);
    }
    hide TaskGroup;
  }

  lemma DeathHands(db: Db, b: Db, m: Message, gm: GroupMeta, reason: string, meta: map<string, string>, ts: nat,
          g: Group)
    requires b.q.groups == db.q.groups
    requires m.key.group in db.q.groups ==> gm.nextSeq == db.q.groups[m.key.group].nextSeq
    ensures Hands(db, NackDead(db, b, m, gm, reason, meta, ts).b, g, ReportsTo(db.wf, T.Letter(m, reason, meta, ts), g))
  {
    DeadMsgHands(db, b, m, reason, meta, ts, g);
    hide DeadLetterMsg;
    hide ReportsTo;
    hide NextSeq;
    hide PutIfKnown;
    ReportsElsewhere(db.wf, T.Letter(m, reason, meta, ts));
    PutHands(db, DeadLetterMsg(db, b, m, reason, meta, ts), m.key.group, gm.(total := Decr(gm.total)), g);
  }

  ghost predicate RemovalReports(wf: Engine, removal: Option<M.Move>, g: Group) {
    match removal
    case Some(Bury(_, letter)) => ReportsTo(wf, letter, g)
    case _ => false
  }

  lemma RequeueHands(db: Db, b: Db, m: Message, gm: GroupMeta, readyAt: nat, now: nat, g: Group)
    requires b.q.groups == db.q.groups
    requires m.key.group in db.q.groups ==> gm.nextSeq == db.q.groups[m.key.group].nextSeq
    ensures NextSeq(NackReady(db, b, m, gm, readyAt, now).b.q, g) == NextSeq(db.q, g)
  {
  }

  lemma NackHands(db: Db, b: Db, l: nat, mode: NackMode, delay: nat, meta: map<string, string>, now: nat, g: Group)
    requires M.Inv(db.q) && b.q.groups == db.q.groups
    ensures Hands(db, ApplyNack(db, b, l, mode, delay, meta, now).b, g,
              RemovalReports(db.wf, T.NackRemoval(db.q, l, mode, meta, now), g))
  {
    hide M.Inv;
    hide NackDead;
    hide NackReady;
    hide ReportsTo;
    hide Backoff.BackoffMs;
    if l in db.q.leases {
      T.HeldTarget(db.q, l);
      var row := db.q.leases[l];
      T.EndLeaseQueue(b, l, row);
      hide EndLease;
      var m, gm0 := db.q.messages[row.key], MetaOrZero(db.q, row.key.group);
      var gm, b1 := gm0.(inflight := Decr(gm0.inflight)), EndLease(b, l, row);
      match T.NackLetter(m, mode, meta, now)
      case Some(letter) => DeathHands(db, b1, letter.original, gm, letter.reason, meta, now, g);
      case None =>
        var m1 := if mode.Retry? then m.(attempt := m.attempt + 1) else m;
        var wait := if mode.Retry? && delay == 0 then Backoff.BackoffMs(m.key.id, m1.attempt) else delay;
        RequeueHands(db, b1, m1, gm, Add64(now, wait), now, g);
    }
  }

  lemma CompleteHands(db: Db, c: Command, g: Group)
    requires M.Inv(db.q) && c.Complete?
    ensures Hands(db, Step(db, c).b, g, RemovalReports(db.wf, T.Removal(db, c), g))
  {
    hide M.Inv;
    hide ApplyAck;
    hide ApplyNack;
    hide T.NackRemoval;
    hide ReportsTo;
    if c.hash in db.tokens {
      var b1 := db.(tokens := db.tokens - {c.hash});
      AckHands(db, b1, db.tokens[c.hash], g);
      NackHands(db, b1, db.tokens[c.hash], Retry, c.delay, c.meta, c.now, g);
    }
  }

  lemma AckHands(db: Db, b: Db, l: nat, g: Group)
    requires b.q.groups == db.q.groups
    ensures NextSeq(ApplyAck(db, b, l).b.q, g) == NextSeq(db.q, g)
  {
  }

  // ----- Timers -----

  lemma MaxLifeHands(db: Db, l: nat, fireAt: nat, g: Group)
    requires M.Inv(db.q)
    ensures Hands(db, FireMaxLife(db, db, l, fireAt), g,
              RemovalReports(db.wf, T.FireRemoval(db.q, LeaseMaxLife(l), fireAt), g))
  {
    hide M.Inv;
    hide NackDead;
    hide ReportsTo;
    if Holds(db.q, l) {
      T.HeldTarget(db.q, l);
      var row := db.q.leases[l];
      T.EndLeaseQueue(db, l, row);
      hide EndLease;
      var m, gm0 := db.q.messages[row.key], MetaOrZero(db.q, row.key.group);
      DeathHands(db, EndLease(db, l, row), m, gm0.(inflight := Decr(gm0.inflight)), "max_lease_lifetime", map[],
          fireAt, g);
    }
  }

  lemma ExpiryHands(db: Db, key: MsgKey, fireAt: nat, g: Group)
    requires M.Inv(db.q)
    ensures Hands(db, FireExpiry(db, db, key, fireAt), g,
              RemovalReports(db.wf, T.FireRemoval(db.q, MsgExpiry(key), fireAt), g))
  {
    hide M.Inv;
    hide NackDead;
    hide ReportsTo;
    if key in db.q.messages && db.q.messages[key].state != Leased {
      T.LiveIsKnown(db.q, key);
      var m, gm0 := db.q.messages[key], MetaOrZero(db.q, key.group);
      var gm := if m.state == Ready then gm0.(ready := Decr(gm0.ready)) else gm0.(delayed := Decr(gm0.delayed));
      DeathHands(db, db, m, gm, "ttl", map[], fireAt, g);
    }
  }

  lemma DeadlineHands(db: Db, l: nat, epoch: nat, fireAt: nat, g: Group)
    requires Holds(db.q, l) ==> db.q.messages[db.q.leases[l].key].key == db.q.leases[l].key
    ensures NextSeq(FireDeadline(db, db, l, epoch, fireAt).q, g) == NextSeq(db.q, g)
  {
    hide NackReady;
    if Holds(db.q, l) {
      var row := db.q.leases[l];
      var gm0 := MetaOrZero(db.q, row.key.group);
      var b1 := DropToken(db.(q := DropLease(db.q, l)), row);
      assert b1.q.groups == db.q.groups;
      RequeueHands(db, b1, db.q.messages[row.key], gm0.(inflight := Decr(gm0.inflight)), fireAt, fireAt, g);
    }
  }

  lemma OtherRowHands(db: Db, t: Timer, fireAt: nat, g: Group)
    requires M.Inv(db.q) && t in db.q.timers && (t.ref.ReadyAt? || t.ref.LeaseDeadline? || t.ref.DedupExpiry?)
    ensures NextSeq(T.Fired1(db, t, fireAt).q, g) == NextSeq(db.q, g)
  {
    hide M.Inv;
    if t.ref.LeaseDeadline? {
      T.DeadlineRow(db.q, t);
      DeadlineHands(db, t.ref.lease, db.q.timers[t], fireAt, g);
    }
    hide FireDeadline;
  }

  lemma FireHands(db: Db, c: Command, g: Group)
    requires M.Inv(db.q) && c.Fire? && c.timer in db.q.timers
    ensures Hands(db, Step(db, c).b, g,
                  if IsAlarm(c.timer) then IsRunning(db.wf, c.timer.ref.run)
                      && g == TaskGroup(db.wf.runs[c.timer.ref.run].wfType, c.timer.ref.run)
                  else RemovalReports(db.wf, T.FireRemoval(db.q, c.timer.ref, c.fireAt), g))
  {
    hide M.Inv;
    hide ReportsTo;
    hide TaskGroup;
    hide FireMaxLife;
    hide FireExpiry;
    hide AppendExternal;
    FireWf(db, c.timer, c.fireAt);
    hide ApplyFire;
    var t := c.timer;
    if IsAlarm(t) {
      AdvanceHands(db, db, t.ref.run, TimerFired, Fired(t.ref.started), c.fireAt, g);
    } else if t.ref.LeaseMaxLife? {
      MaxLifeHands(db, t.ref.lease, c.fireAt, g);
    } else if t.ref.MsgExpiry? {
      ExpiryHands(db, t.ref.key, c.fireAt, g);
    } else {
      OtherRowHands(db, t, c.fireAt, g);
      hide T.Fired1;
    }
  }

  // ----- Decisions and publishes -----

  predicate Continues(events: seq<EventIn>, n: nat)
    requires n <= |events|
  {
    exists i :: 0 <= i < n && events[i].kind == WorkflowContinuedAsNew
  }

  lemma ActivityHands(db: Db, b: Db, run: nat, sched: nat, attrs: Attrs, g: Group)
    requires D.IsTaskLane(g)
    ensures NextSeq(DispatchActivity(db, b, run, sched, attrs).q, g) == NextSeq(b.q, g)
  {
    if attrs.Schedule? {
      assert g.lane[2] == 'w' && ActivityGroup(attrs.actType, attrs.tenant).lane[2] == 'a';
    }
  }

  lemma EventHands(db: Db, b: Db, id: nat, run: Run, at: nat, e: EventIn, now: nat, g: Group)
    requires D.IsTaskLane(g)
    ensures NextSeq(AppendOne(db, b, id, run, at, e, now).q, g) ==
              if e.kind == WorkflowContinuedAsNew && g == TaskGroup(run.wfType, db.wf.nextRun)
                  then NextSeq(db.q, g) + 1 else NextSeq(b.q, g)
  {
    hide CreateRun;
    hide DispatchActivity;
    hide TaskGroup;
    var b1 := PutEvent(b, id, at, Event(e.kind, now, e.attrs));
    ActivityHands(db, b1, id, at, e.attrs, g);
    CreateHands(db, b1, run.wfType, run.tenant, NextInputOf(e.attrs), id, now, g);
  }

  lemma {:induction false} DecisionHands(db: Db, id: nat, run: Run, events: seq<EventIn>, now: nat, n: nat, g: Group)
    requires n <= |events| && D.IsTaskLane(g)
    ensures Hands(db, AppendUpTo(db, db, id, run, events, now, n), g,
              Continues(events, n) && g == TaskGroup(run.wfType, db.wf.nextRun))
    decreases n
  {
    hide AppendOne;
    hide NextSeq;
    hide TaskGroup;
    if n > 0 {
      DecisionHands(db, id, run, events, now, n - 1, g);
      EventHands(db, AppendUpTo(db, db, id, run, events, now, n - 1), id, run, run.curSeq + n, events[n - 1], now, g);
      assert Continues(events, n) <==> Continues(events, n - 1) || events[n - 1].kind == WorkflowContinuedAsNew;
    }
  }

  lemma AcceptHands(d: Db, c: PublishCmd, g: Group)
    ensures NextSeq(B.Accept(d, c).q, g) == NextSeq(d.q, g) + S.One(g == c.group)
  {
    hide NewMessage;
    hide Knobs;
    S.NextSeqAfter(c, LoadMeta(d.q, c.group));
    hide MetaAfterPublish;
  }

  /** How many of the batch's first n items are published into the group. */
  function Published(db: Db, items: seq<PublishCmd>, g: Group, n: nat): nat
    requires n <= |items|
  {
    if n == 0 then 0
    else
      var skipped := B.Skipped(db, BatchUpTo(db, db, items, n - 1), items[n - 1]);
      Published(db, items, g, n - 1) + S.One(!skipped && items[n - 1].group == g)
  }

  lemma {:induction false} BatchHands(db: Db, items: seq<PublishCmd>, n: nat, g: Group)
    requires B.Apart(B.GroupsOf(items)) && n <= |items|
    ensures var s := BatchUpTo(db, db, items, n);
            && B.CacheOk(s, B.GroupsOf(items)) && s.b.q.groups == db.q.groups
            && NextSeq(B.View(s).q, g) == NextSeq(db.q, g) + Published(db, items, g, n)
    decreases n
  {
    hide BatchItem;
    hide B.Accept;
    hide B.Apart;
    hide B.Skipped;
    hide NextSeq;
    if n == 0 {
      assert B.View(BatchUpTo(db, db, items, 0)) == db;
    } else {
      BatchHands(db, items, n - 1, g);
      var s := BatchUpTo(db, db, items, n - 1);
      B.ItemView(db, s, items[n - 1], B.GroupsOf(items));
      AcceptHands(B.View(s), items[n - 1], g);
    }
  }

  // ----- A run's task group -----

  /** The effect gives run r a task of this workflow type. */
  ghost predicate TasksAs(wf: Engine, e: Effect, wfType: string, r: nat) {
    D.Tasks(wf, e, r) && After(wf, e).runs[r].wfType == wfType
  }

  /** Which effects do, from what is stored before the command. */
  predicate WillTask(wf: Engine, e: Effect, wfType: string, r: nat) {
    match e
    case Begin(t, _, _, _, _) => r == wf.nextRun && t == wfType
    case Decide(run, epoch, atSeq, events, _) =>
      Fenced(wf, run, epoch, atSeq) && Continues(events, |events|) && r == wf.nextRun && wf.runs[run].wfType == wfType
    case External(run, _, _, _) => r == run && IsRunning(wf, r) && wf.runs[r].wfType == wfType
    case Ring(t, _) => t.ref.WfFired? && r == t.ref.run && IsRunning(wf, r) && wf.runs[r].wfType == wfType
    case Terminal(run, sched, _, _, _) => r == run && Unresolved(wf, r, sched) && wf.runs[r].wfType == wfType
    case _ => false
  }

  lemma {:induction false} SuccessorBorn(wf: Engine, id: nat, run: Run, events: seq<EventIn>, now: nat, n: nat)
    requires n <= |events| && Continues(events, n)
    ensures var out := EventUpTo(wf, wf, id, run, events, now, n);
            wf.nextRun in out.runs && IsRunning(out, wf.nextRun) && out.runs[wf.nextRun].pending
                && out.runs[wf.nextRun].wfType == run.wfType
    decreases n
  {
    if events[n - 1].kind != WorkflowContinuedAsNew {
      SuccessorBorn(wf, id, run, events, now, n - 1);
    }
  }

  lemma DecideTasksIff(wf: Engine, e: Effect, wfType: string, r: nat)
    requires Shape(wf) && e.Decide?
    ensures TasksAs(wf, e, wfType, r) <==> WillTask(wf, e, wfType, r)
  {
    hide EventUpTo;
    if Fenced(wf, e.run, e.epoch, e.atSeq) {
      D.SuccessorOnlyByContinue(wf, e.run, wf.runs[e.run], e.events, e.now, |e.events|);
      if Continues(e.events, |e.events|) {
        SuccessorBorn(wf, e.run, wf.runs[e.run], e.events, e.now, |e.events|);
      }
    }
  }

  lemma TasksIff(wf: Engine, e: Effect, wfType: string, r: nat)
    requires Shape(wf)
    ensures TasksAs(wf, e, wfType, r) <==> WillTask(wf, e, wfType, r)
  {
    if e.Decide? {
      DecideTasksIff(wf, e, wfType, r);
    } else if D.Tasks(wf, e, r) {
      D.TasksItsRun(wf, e, r);
    }
    hide EventUpTo;
  }

  /** How many messages a command puts into a run's task group. */
  ghost function Adds(db: Db, c: Command, wfType: string, r: nat): nat {
    var g := TaskGroup(wfType, r);
    match c
    case Publish(p) => S.One(g == p.group && !(p.dedupKey != "" && CheckDedup(db.dedup, p).Some?))
    case PublishBatch(items) => Published(db, items, g, |items|)
    case Redrive(h, id, _) => S.One(g == h && S.IsDead(db.q, MsgKey(h, id)))
    case _ => S.One(TasksAs(db.wf, EffectOf(db, c), wfType, r))
  }

  lemma TaskLane(wfType: string, r: nat)
    ensures D.IsTaskLane(TaskGroup(wfType, r))
  {
  }

  lemma DecisionSeq(db: Db, c: Command, wfType: string, r: nat)
    requires c.AppendEvents?
    ensures Hands(db, Step(db, c).b, TaskGroup(wfType, r), WillTask(db.wf, EffectOf(db, c), wfType, r))
  {
    TaskLane(wfType, r);
    SameTaskGroup(wfType, r);
    hide TaskGroup;
    hide AppendUpTo;
    if Fenced(db.wf, c.run, c.epoch, c.atSeq) {
      DecisionHands(db, c.run, db.wf.runs[c.run], c.events, c.now, |c.events|, TaskGroup(wfType, r));
    }
  }

  lemma EngineSeq(db: Db, c: Command, wfType: string, r: nat)
    requires c.StartRun? || c.AppendEvents? || c.CompleteActivity? || c.SignalRun? || c.CancelRun?
    ensures Hands(db, Step(db, c).b, TaskGroup(wfType, r), WillTask(db.wf, EffectOf(db, c), wfType, r))
  {
    var g := TaskGroup(wfType, r);
    TaskLane(wfType, r);
    SameTaskGroup(wfType, r);
    hide TaskGroup;
    hide CreateRun;
    hide AppendUpTo;
    hide AppendExternal;
    hide RecordActivityTerminal;
    if c.StartRun? {
      CreateHands(db, db, c.wfType, c.tenant, c.input, c.parent, c.now, g);
    } else if c.AppendEvents? {
      DecisionSeq(db, c, wfType, r);
      hide Hands;
    } else if c.CompleteActivity? {
      ResolveHands(db, db, c.run, c.sched, !c.success, c.result, c.now, g);
    } else if c.SignalRun? {
      AdvanceHands(db, db, c.run, SignalReceived, Signal(c.name, c.payload), c.now, g);
    }
  }

  lemma SameTaskGroup(wfType: string, r: nat)
    ensures forall t, x :: TaskGroup(t, x) == TaskGroup(wfType, r) <==> t == wfType && x == r
  {
    forall t, x ensures TaskGroup(t, x) == TaskGroup(wfType, r) <==> t == wfType && x == r {
      if TaskGroup(t, x) == TaskGroup(wfType, r) { D.TaskGroupsDiffer(t, x, wfType, r); }
    }
  }

  lemma BridgeTasks(wf: Engine, letter: DeadLetter, wfType: string, r: nat)
    ensures ReportsTo(wf, letter, TaskGroup(wfType, r)) <==> WillTask(wf, BridgeOf(letter), wfType, r)
  {
    SameTaskGroup(wfType, r);
    hide TaskGroup;
  }

  lemma RemovalTasks(wf: Engine, removal: Option<M.Move>, wfType: string, r: nat)
    ensures RemovalReports(wf, removal, TaskGroup(wfType, r)) <==> WillTask(wf, RemovalEffect(removal), wfType, r)
  {
    match removal
    case Some(Bury(_, letter)) => BridgeTasks(wf, letter, wfType, r);
    case _ =>
  }

  lemma RemovalSeq(db: Db, c: Command, wfType: string, r: nat)
    requires M.Inv(db.q) && (c.Nack? || c.Complete? || c.Fire?)
    ensures Hands(db, Step(db, c).b, TaskGroup(wfType, r), WillTask(db.wf, EffectOf(db, c), wfType, r))
  {
    var g := TaskGroup(wfType, r);
    RemovalTasks(db.wf, T.Removal(db, c), wfType, r);
    SameTaskGroup(wfType, r);
    hide TaskGroup;
    hide M.Inv;
    hide RemovalReports;
    if c.Nack? {
      NackHands(db, db, c.lease, c.mode, c.delay, c.meta, c.now, g);
      hide ApplyNack;
      hide T.NackRemoval;
      hide BridgeOf;
    } else if c.Complete? {
      CompleteHands(db, c, g);
      hide Step;
      hide T.Removal;
      hide BridgeOf;
    } else {
      if c.timer in db.q.timers { FireHands(db, c, g); }
      hide ApplyFire;
      hide T.FireRemoval;
      hide BridgeOf;
    }
  }

  lemma ControlSeq(db: Db, c: Command, g: Group)
    requires c.ExtendLease? || c.GroupConfig? || c.Lifecycle? || c.IssueToken? || c.Singleton?
    ensures NextSeq(Step(db, c).b.q, g) == NextSeq(db.q, g)
  {
    hide ApplySingleton;
    hide ApplyExtend;
    hide ApplyLifecycle;
    hide ApplyIssueToken;
    if c.Singleton? { SingletonEffect(db, c); }
    if c.ExtendLease? { ExtendSeq(db, c.lease, c.deadline); }
    if c.Lifecycle? { LifecycleSeq(db, c.group, c.op, g); }
    if c.IssueToken? { TokenSeq(db, c.lease, c.hash); }
  }

  lemma LifecycleSeq(db: Db, to: Group, op: GroupOp, g: Group)
    ensures NextSeq(ApplyLifecycle(db, db, to, op).b.q, g) == NextSeq(db.q, g)
  {
    hide Droppable;
  }

  lemma TokenSeq(db: Db, l: nat, hash: Blob)
    ensures ApplyIssueToken(db, db, l, hash).b.q.groups == db.q.groups
  {
  }

  lemma ExtendSeq(db: Db, l: nat, deadline: nat)
    ensures ApplyExtend(db, db, l, deadline).b.q.groups == db.q.groups
  {
  }

  lemma QuietSeq(db: Db, c: Command, g: Group)
    requires M.Inv(db.q)
    requires c.LeaseNext? || c.Ack? || c.ExtendLease? || c.GroupConfig? || c.Lifecycle? || c.IssueToken? || c.Singleton?
    ensures NextSeq(Step(db, c).b.q, g) == NextSeq(db.q, g)
  {
    hide M.Inv;
    if c.LeaseNext? {
      LeaseSeq(db, c, g);
      hide ApplyLease;
    } else if c.Ack? {
      AckHands(db, db, c.lease, g);
      hide ApplyAck;
    } else {
      ControlSeq(db, c, g);
      hide Step;
    }
  }

  lemma LeaseSeq(db: Db, c: Command, g: Group)
    requires M.Inv(db.q) && c.LeaseNext?
    ensures NextSeq(ApplyLease(db, db, c).b.q, g) == NextSeq(db.q, g)
  {
    if HeadReady(db.q, c.group).Some? { T.GrantIsLease(db, c, HeadReady(db.q, c.group).value); }
    hide M.Inv;
    hide HeadReady;
  }

  lemma PublishSeq(db: Db, c: Command, g: Group)
    requires c.Publish?
    ensures NextSeq(Step(db, c).b.q, g) ==
              NextSeq(db.q, g) + S.One(g == c.p.group && !(c.p.dedupKey != "" && CheckDedup(db.dedup, c.p).Some?))
  {
    AcceptHands(db, c.p, g);
    hide Publishing;
    hide RecordDedup;
  }

  /** What a command hands out in a run's task group, from what is stored before it. */
  lemma SeqAfter(db: Db, c: Command, wfType: string, r: nat)
    requires M.Inv(db.q) && Shape(db.wf) && T.Allowed(c)
    ensures NextSeq(Step(db, c).b.q, TaskGroup(wfType, r)) ==
              NextSeq(db.q, TaskGroup(wfType, r)) + Adds(db, c, wfType, r)
  {
    var g := TaskGroup(wfType, r);
    TasksIff(db.wf, EffectOf(db, c), wfType, r);
    hide M.Inv;
    hide Shape;
    hide TaskGroup;
    hide TasksAs;
    hide NextSeq;
    if c.Publish? {
      PublishSeq(db, c, g);
      hide Step;
    } else if c.PublishBatch? {
      BatchHands(db, c.items, |c.items|, g);
      hide BatchUpTo;
    } else if c.Redrive? {
      RedriveTurnover(db, c);
      hide Step;
      hide S.IsDead;
    } else if c.StartRun? || c.AppendEvents? || c.CompleteActivity? || c.SignalRun? || c.CancelRun? {
      EngineSeq(db, c, wfType, r);
      hide Step;
      hide EffectOf;
    } else if c.Nack? || c.Complete? || c.Fire? {
      RemovalSeq(db, c, wfType, r);
      hide Step;
      hide EffectOf;
    } else {
      QuietSeq(db, c, g);
      hide Step;
    }
  }

  /** Exactly how many messages a run's task group holds after any command: those it held and
      the command did not take out, and those the command adds. */
  lemma TasksAfter(db: Db, c: Command, wfType: string, r: nat)
    requires M.Inv(db.q) && Shape(db.wf) && T.Allowed(c)
    ensures |S.Live(Step(db, c).b.q.messages, TaskGroup(wfType, r))| ==
              |Kept(db, c, TaskGroup(wfType, r))| + Adds(db, c, wfType, r)
  {
    hide *;
    LiveAfter(db, c, TaskGroup(wfType, r));
    SeqAfter(db, c, wfType, r);
  }

  /** A command leaves two tasks in a run's group if and only if those it leaves there and
      those it adds are two. One that neither publishes nor redrives adds at most one, and
      adds it exactly if it tasks the run. */
  lemma TwoTasksIff(db: Db, c: Command, wfType: string, r: nat)
    requires M.Inv(db.q) && Shape(db.wf) && T.Allowed(c)
    ensures var g := TaskGroup(wfType, r);
            |S.Live(Step(db, c).b.q.messages, g)| >= 2 <==> |Kept(db, c, g)| + Adds(db, c, wfType, r) >= 2
    ensures !c.Publish? && !c.PublishBatch? && !c.Redrive? ==>
              Adds(db, c, wfType, r) == S.One(WillTask(db.wf, EffectOf(db, c), wfType, r))
  {
    TasksAfter(db, c, wfType, r);
    TasksIff(db.wf, EffectOf(db, c), wfType, r);
    hide M.Inv;
    hide Shape;
    hide Step;
    hide Kept;
    hide S.Live;
    hide TasksAs;
    hide WillTask;
    hide EffectOf;
  }

  // ----- Leases -----

  lemma ExternalLeases(db: Db, b: Db, id: nat, kind: EventKind, attrs: Attrs, now: nat)
    ensures AppendExternal(db, b, id, kind, attrs, now).q.leases == b.q.leases
  {
  }

  lemma DeathLeases(db: Db, b: Db, m: Message, gm: GroupMeta, reason: string, meta: map<string, string>, ts: nat)
    ensures NackDead(db, b, m, gm, reason, meta, ts).b.q.leases == b.q.leases
  {
    hide AppendExternal;
    var b1 := b.(q := DropMsg(PutDead(b.q, DlqKey(m.key, ts), DeadLetter(m, m.attempt, reason, meta, ts)), m.key));
    if m.payload.ActTask? {
      var b2 := b1.(wf := b1.wf.(done := b1.wf.done + {EventKey(m.payload.run, m.payload.sched)}));
      ExternalLeases(db, b2, m.payload.run, ActivityFailed,
          Outcome(m.payload.sched, false, Ascii("activity_dead_lettered: " + reason)), ts);
    }
  }

  lemma RequeueLeases(db: Db, b: Db, m: Message, gm: GroupMeta, readyAt: nat, now: nat)
    ensures NackReady(db, b, m, gm, readyAt, now).b.q.leases == b.q.leases
  {
  }

  lemma AckLeases(db: Db, b: Db, l: nat)
    requires b.q.leases == db.q.leases
    ensures ApplyAck(db, b, l).b.q.leases == db.q.leases - {l}
  {
    if l !in db.q.leases { assert db.q.leases - {l} == db.q.leases; }
  }

  lemma NackLeases(db: Db, b: Db, l: nat, mode: NackMode, delay: nat, meta: map<string, string>, now: nat)
    requires b.q.leases == db.q.leases
    ensures ApplyNack(db, b, l, mode, delay, meta, now).b.q.leases == db.q.leases - {l}
  {
    hide NackDead;
    hide NackReady;
    hide Backoff.BackoffMs;
    if l in db.q.leases {
      var row := db.q.leases[l];
      T.EndLeaseQueue(b, l, row);
      hide EndLease;
      if Holds(db.q, l) {
        var m, gm0 := db.q.messages[row.key], MetaOrZero(db.q, row.key.group);
        var gm, b1 := gm0.(inflight := Decr(gm0.inflight)), EndLease(b, l, row);
        match T.NackLetter(m, mode, meta, now)
        case Some(letter) => DeathLeases(db, b1, letter.original, gm, letter.reason, meta, now);
        case None =>
          var m1 := if mode.Retry? then m.(attempt := m.attempt + 1) else m;
          var wait := if mode.Retry? && delay == 0 then Backoff.BackoffMs(m.key.id, m1.attempt) else delay;
          RequeueLeases(db, b1, m1, gm, Add64(now, wait), now);
      }
    } else {
      assert db.q.leases - {l} == db.q.leases;
    }
  }

  /** The lease a command ends, if it ends one. */
  function Ended(db: Db, c: Command): Option<nat> {
    match c
    case Ack(l) => Some(l)
    case Nack(l, _, _, _, _) => Some(l)
    case Complete(hash, _, _, _, _) => if hash in db.tokens then Some(db.tokens[hash]) else None
    case Fire(t, _) =>
      if t in db.q.timers && (t.ref.LeaseDeadline? || (t.ref.LeaseMaxLife? && Holds(db.q, t.ref.lease)))
          then Some(t.ref.lease) else None
    case _ => None
  }

  lemma FireLeases(db: Db, c: Command)
    requires M.Inv(db.q) && c.Fire?
    ensures Step(db, c).b.q.leases == if Ended(db, c).Some? then db.q.leases - {Ended(db, c).value} else db.q.leases
  {
    var t := c.timer;
    if t in db.q.timers {
      FireWf(db, t, c.fireAt);
      if t.ref.LeaseDeadline? {
        T.DeadlineRow(db.q, t);
        hide M.Inv;
        DeadlineLeases(db, t.ref.lease, db.q.timers[t], c.fireAt);
      } else if t.ref.LeaseMaxLife? {
        hide M.Inv;
        MaxLifeLeases(db, t.ref.lease, c.fireAt);
      } else if t.ref.MsgExpiry? {
        hide M.Inv;
        ExpiryLeases(db, t.ref.key, c.fireAt);
      } else if t.ref.WfFired? {
        hide M.Inv;
        ExternalLeases(db, db, t.ref.run, TimerFired, Fired(t.ref.started), c.fireAt);
      }
    }
    hide M.Inv;
    hide ApplyFire;
    hide FireDeadline;
    hide FireMaxLife;
    hide FireExpiry;
    hide AppendExternal;
  }

  lemma DeadlineLeases(db: Db, l: nat, epoch: nat, fireAt: nat)
    requires Holds(db.q, l) && db.q.messages[db.q.leases[l].key].epoch == epoch
    ensures FireDeadline(db, db, l, epoch, fireAt).q.leases == db.q.leases - {l}
  {
  }

  lemma MaxLifeLeases(db: Db, l: nat, fireAt: nat)
    ensures FireMaxLife(db, db, l, fireAt).q.leases == if Holds(db.q, l) then db.q.leases - {l} else db.q.leases
  {
    hide NackDead;
    if Holds(db.q, l) {
      var row := db.q.leases[l];
      T.EndLeaseQueue(db, l, row);
      hide EndLease;
      var gm0 := MetaOrZero(db.q, row.key.group);
      DeathLeases(db, EndLease(db, l, row), db.q.messages[row.key], gm0.(inflight := Decr(gm0.inflight)),
          "max_lease_lifetime", map[], fireAt);
    }
  }

  lemma ExpiryLeases(db: Db, key: MsgKey, fireAt: nat)
    ensures FireExpiry(db, db, key, fireAt).q.leases == db.q.leases
  {
    hide NackDead;
    if key in db.q.messages && db.q.messages[key].state != Leased {
      var m, gm0 := db.q.messages[key], MetaOrZero(db.q, key.group);
      DeathLeases(db, db, m, if m.state == Ready then gm0.(ready := Decr(gm0.ready))
          else gm0.(delayed := Decr(gm0.delayed)), "ttl", map[], fireAt);
    }
  }

  lemma CreateLeases(db: Db, b: Db, wfType: string, tenant: string, input: Blob, parent: nat, now: nat)
    ensures CreateRun(db, b, wfType, tenant, input, parent, now).q.leases == b.q.leases
  {
    hide TaskGroup;
  }

  lemma EventLeases(db: Db, b: Db, id: nat, run: Run, at: nat, e: EventIn, now: nat)
    ensures AppendOne(db, b, id, run, at, e, now).q.leases == b.q.leases
  {
    var b1 := PutEvent(b, id, at, Event(e.kind, now, e.attrs));
    CreateLeases(db, b1, run.wfType, run.tenant, NextInputOf(e.attrs), id, now);
    hide CreateRun;
  }

  lemma {:induction false} DecisionLeases(db: Db, id: nat, run: Run, events: seq<EventIn>, now: nat, n: nat)
    requires n <= |events|
    ensures AppendUpTo(db, db, id, run, events, now, n).q.leases == db.q.leases
    decreases n
  {
    hide AppendOne;
    if n > 0 {
      DecisionLeases(db, id, run, events, now, n - 1);
      EventLeases(db, AppendUpTo(db, db, id, run, events, now, n - 1), id, run, run.curSeq + n, events[n - 1], now);
    }
  }

  lemma AddLeases(s: BatchState, c: PublishCmd, g: Group, gm: GroupMeta)
    ensures BatchAdd(s, c, g, gm).b.q.leases == s.b.q.leases
  {
    hide MetaAfterPublish;
    hide PublishOne;
    hide RecordDedup;
    hide Joined;
    PublishOneLeases(s.b.q, c, gm);
    RecordLeases(s.b.(q := PublishOne(s.b.q, c, gm)), c, gm.nextSeq);
  }

  lemma PublishOneLeases(q: Queue, c: PublishCmd, gm: GroupMeta)
    ensures PublishOne(q, c, gm).leases == q.leases
  {
    hide NewMessage;
  }

  lemma RecordLeases(b: Db, c: PublishCmd, id: nat)
    ensures RecordDedup(b, c, id).q.leases == b.q.leases
  {
  }

  lemma {:induction false} BatchLeases(db: Db, items: seq<PublishCmd>, n: nat)
    requires n <= |items|
    ensures BatchUpTo(db, db, items, n).b.q.leases == db.q.leases
    decreases n
  {
    hide BatchAdd;
    hide CheckDedup;
    if n > 0 {
      BatchLeases(db, items, n - 1);
      var s, c := BatchUpTo(db, db, items, n - 1), items[n - 1];
      var gk := Joined(c.group.lane, c.group.name);
      var (g, gm) := if gk in s.cache then s.cache[gk] else (c.group, LoadMeta(db.q, c.group));
      AddLeases(s, c, g, gm);
    }
  }

  lemma {:induction false} PersistedLeases(q: Queue, cache: map<string, (Group, GroupMeta)>, order: seq<string>)
    ensures Persisted(q, cache, order).leases == q.leases
    decreases |order|
  {
    if order != [] { PersistedLeases(q, cache, order[..|order| - 1]); }
  }

  lemma PublishLeases(db: Db, c: Command)
    requires c.Publish? || c.PublishBatch? || c.Redrive?
    ensures Step(db, c).b.q.leases == db.q.leases
  {
    hide NewMessage;
    hide MetaAfterPublish;
    hide CheckDedup;
    hide DeadStamps;
    hide BatchUpTo;
    hide Persisted;
    hide RecordDedup;
    if c.PublishBatch? {
      BatchLeases(db, c.items, |c.items|);
      var s := BatchUpTo(db, db, c.items, |c.items|);
      PersistedLeases(s.b.q, s.cache, s.order);
    } else if c.Publish? {
      var gm := LoadMeta(db.q, c.p.group);
      RecordLeases(Publishing(db, c.p, gm), c.p, gm.nextSeq);
    }
  }

  lemma StartLeases(db: Db, c: Command)
    requires c.StartRun?
    ensures Step(db, c).b.q.leases == db.q.leases
  {
    hide TaskGroup;
  }

  lemma EngineLeases(db: Db, c: Command)
    requires c.StartRun? || c.AppendEvents? || c.CompleteActivity? || c.SignalRun? || c.CancelRun?
    ensures Step(db, c).b.q.leases == db.q.leases
  {
    hide TaskGroup;
    if c.StartRun? {
      StartLeases(db, c);
      hide *;
    } else if c.AppendEvents? {
      hide AppendUpTo;
      if c.run in db.wf.runs { DecisionLeases(db, c.run, db.wf.runs[c.run], c.events, c.now, |c.events|); }
    } else if c.CompleteActivity? {
      hide AppendExternal;
      var b1 := db.(wf := db.wf.(done := db.wf.done + {EventKey(c.run, c.sched)}));
      ExternalLeases(db, b1, c.run, if !c.success then ActivityFailed else ActivityCompleted,
          Outcome(c.sched, c.success, c.result), c.now);
    } else if c.SignalRun? {
      hide AppendExternal;
      ExternalLeases(db, db, c.run, SignalReceived, Signal(c.name, c.payload), c.now);
    } else {
      hide AppendExternal;
    }
  }

  lemma EndingLeases(db: Db, c: Command)
    requires M.Inv(db.q) && (c.Ack? || c.Nack? || c.Complete? || c.Fire?)
    ensures Step(db, c).b.q.leases == if Ended(db, c).Some? then db.q.leases - {Ended(db, c).value} else db.q.leases
  {
    hide M.Inv;
    hide ApplyAck;
    hide ApplyNack;
    if c.Ack? {
      AckLeases(db, db, c.lease);
    } else if c.Nack? {
      NackLeases(db, db, c.lease, c.mode, c.delay, c.meta, c.now);
    } else if c.Complete? {
      if c.hash in db.tokens {
        var b1 := db.(tokens := db.tokens - {c.hash});
        AckLeases(db, b1, db.tokens[c.hash]);
        NackLeases(db, b1, db.tokens[c.hash], Retry, c.delay, c.meta, c.now);
      }
    } else {
      FireLeases(db, c);
      hide Step;
    }
  }

  // ----- In flight -----

  /** The group's messages that a consumer holds. */
  function InFlight(q: Queue, g: Group): set<MsgKey> {
    M.InState(q.messages, g, Leased)
  }

  ghost predicate Grants(db: Db, c: Command) {
    c.LeaseNext? && HeadReady(db.q, c.group).Some?
  }

  /** The message whose lease a command ends. */
  function EndedKeys(db: Db, c: Command): set<MsgKey> {
    if Ended(db, c).Some? && Ended(db, c).value in db.q.leases then {db.q.leases[Ended(db, c).value].key} else {}
  }

  lemma LeasesAfter(db: Db, c: Command)
    requires M.Inv(db.q) && T.Allowed(c)
    ensures Step(db, c).b.q.leases.Keys ==
              db.q.leases.Keys - (if Ended(db, c).Some? then {Ended(db, c).value} else {})
              + (if Grants(db, c) then {db.q.nextLease} else {})
  {
    hide M.Inv;
    hide HeadReady;
    hide Step;
    if c.Ack? || c.Nack? || c.Complete? || c.Fire? {
      EndingLeases(db, c);
    } else if c.Publish? || c.PublishBatch? || c.Redrive? {
      PublishLeases(db, c);
    } else if c.StartRun? || c.AppendEvents? || c.CompleteActivity? || c.SignalRun? || c.CancelRun? {
      EngineLeases(db, c);
    } else if c.LeaseNext? {
      GrantLeases(db, c);
    } else {
      KeepingLeases(db, c);
    }
  }

  lemma GrantLeases(db: Db, c: Command)
    requires c.LeaseNext?
    ensures Step(db, c).b.q.leases.Keys == db.q.leases.Keys + if Grants(db, c) then {db.q.nextLease} else {}
  {
    hide HeadReady;
  }

  lemma KeepingLeases(db: Db, c: Command)
    requires c.ExtendLease? || c.GroupConfig? || c.Lifecycle? || c.IssueToken? || c.Singleton?
    ensures Step(db, c).b.q.leases.Keys == db.q.leases.Keys
  {
    hide ApplySingleton;
    hide ApplyExtend;
    hide ApplyLifecycle;
    if c.Singleton? { SingletonEffect(db, c); }
    if c.ExtendLease? { ExtendLeases(db, c.lease, c.deadline); }
    if c.Lifecycle? { LifecycleLeases(db, c.group, c.op); }
  }

  lemma LifecycleLeases(db: Db, to: Group, op: GroupOp)
    ensures ApplyLifecycle(db, db, to, op).b.q.leases == db.q.leases
  {
    hide Droppable;
  }

  lemma ExtendLeases(db: Db, l: nat, deadline: nat)
    ensures ApplyExtend(db, db, l, deadline).b.q.leases.Keys == db.q.leases.Keys
  {
  }

  /** A leased message is one some lease row names. */
  ghost predicate Held(q: Queue, k: MsgKey, l: nat) {
    l in q.leases && q.leases[l].key == k
  }

  lemma LeasedIsHeld(q: Queue, g: Group, k: MsgKey)
    requires M.Inv(q)
    ensures k in InFlight(q, g) <==> k.group == g && exists l :: Held(q, k, l)
    ensures forall l, x :: Held(q, k, l) && Held(q, k, x) ==> l == x
  {
    if exists l :: Held(q, k, l) {
      var l :| Held(q, k, l);
      T.HeldTarget(q, l);
    }
    if k in q.messages && q.messages[k].state == Leased {
      T.LeasedHasLease(q, k);
      assert Held(q, k, q.messages[k].curLease);
    }
    forall l, x | Held(q, k, l) && Held(q, k, x) ensures l == x {
      T.HeldTarget(q, l);
      T.HeldTarget(q, x);
    }
    hide M.Inv;
  }

  /** The message a command grants. */
  ghost function Granted(db: Db, c: Command): Option<MsgKey> {
    if Grants(db, c) then Some(MsgKey(c.group, HeadReady(db.q, c.group).value)) else None
  }

  /** One lease may have ended and a new one may name a message; the others are as they were. */
  lemma HeldThrough(q: Queue, q': Queue, ended: Option<nat>, granted: Option<MsgKey>, k: MsgKey, l: nat)
    requires C.LeaseFrame(q, q') && forall x :: x in q.leases ==> x < q.nextLease
    requires q'.leases.Keys ==
               q.leases.Keys - (if ended.Some? then {ended.value} else {})
               + (if granted.Some? then {q.nextLease} else {})
    requires granted.Some? ==> q'.leases[q.nextLease].key == granted.value
    ensures Held(q', k, l) <==> (Held(q, k, l) && ended != Some(l)) || (granted == Some(k) && l == q.nextLease)
  {
    assert l in q'.leases <==> l in q'.leases.Keys;
    assert l in q.leases <==> l in q.leases.Keys;
  }

  /** The lease rows after a command name what they named. */
  lemma HeldAfter(db: Db, c: Command, k: MsgKey, l: nat)
    requires M.Inv(db.q) && T.Allowed(c)
    ensures Held(Step(db, c).b.q, k, l) <==>
              (Held(db.q, k, l) && Ended(db, c) != Some(l)) || (Granted(db, c) == Some(k) && l == db.q.nextLease)
  {
    hide M.Inv;
    hide Step;
    hide HeadReady;
    hide Ended;
    hide Held;
    hide C.LeaseFrame;
    LeasesAfter(db, c);
    C.StepFramesLeases(db, c);
    NoFutureLease(db.q);
    if Grants(db, c) { GrantedIs(db, c); }
    hide Grants;
    GrantedIff(db, c);
    HeldThrough(db.q, Step(db, c).b.q, Ended(db, c), Granted(db, c), k, l);
  }

  lemma GrantedIff(db: Db, c: Command)
    ensures Granted(db, c).Some? <==> Grants(db, c)
    ensures Grants(db, c) ==> Granted(db, c) == Some(MsgKey(c.group, HeadReady(db.q, c.group).value))
  {
    hide HeadReady;
  }

  lemma NoFutureLease(q: Queue)
    requires M.Inv(q)
    ensures forall l :: l in q.leases ==> l < q.nextLease
  {
  }

  lemma GrantedIs(db: Db, c: Command)
    requires M.Inv(db.q) && Grants(db, c)
    ensures var q', k := Step(db, c).b.q, MsgKey(c.group, HeadReady(db.q, c.group).value);
            db.q.nextLease in q'.leases && q'.leases[db.q.nextLease].key == k && k in db.q.messages
                && db.q.messages[k].state == Ready
  {
    T.GrantIsLease(db, c, HeadReady(db.q, c.group).value);
    hide M.Inv;
    hide HeadReady;
  }

  /** Exactly which messages of a group are in flight after any command: those that were, but
      for the one whose lease the command ends, and the one it grants. */
  lemma InFlightAfter(db: Db, c: Command, g: Group)
    requires M.Inv(db.q) && T.Allowed(c)
    ensures forall k :: k in InFlight(Step(db, c).b.q, g) <==>
              k.group == g && ((k in InFlight(db.q, g) && k !in EndedKeys(db, c)) || Granted(db, c) == Some(k))
  {
    T.StepKeepsInv(db, c);
    forall k
      ensures k in InFlight(Step(db, c).b.q, g) <==>
                k.group == g && ((k in InFlight(db.q, g) && k !in EndedKeys(db, c)) || Granted(db, c) == Some(k))
    {
      StaysInFlight(db, c, g, k);
    }
    hide *;
  }

  lemma StaysInFlight(db: Db, c: Command, g: Group, k: MsgKey)
    requires M.Inv(db.q) && T.Allowed(c) && M.Inv(Step(db, c).b.q)
    ensures k in InFlight(Step(db, c).b.q, g) <==>
              k.group == g && ((k in InFlight(db.q, g) && k !in EndedKeys(db, c)) || Granted(db, c) == Some(k))
  {
    hide M.Inv;
    hide Step;
    hide InFlight;
    hide Ended;
    hide Granted;
    var q' := Step(db, c).b.q;
    LeasedIsHeld(db.q, g, k);
    LeasedIsHeld(q', g, k);
    forall l
      ensures Held(q', k, l) <==>
                (Held(db.q, k, l) && Ended(db, c) != Some(l)) || (Granted(db, c) == Some(k) && l == db.q.nextLease)
    {
      HeldAfter(db, c, k, l);
    }
    if Granted(db, c) == Some(k) {
      assert Held(q', k, db.q.nextLease);
    }
    if l: nat :| Held(db.q, k, l) {
      assert k in EndedKeys(db, c) <==> Ended(db, c) == Some(l) by { EndedHolds(db, c, k, l); }
    }
  }

  lemma EndedHolds(db: Db, c: Command, k: MsgKey, l: nat)
    requires M.Inv(db.q) && Held(db.q, k, l)
    ensures k in EndedKeys(db, c) <==> Ended(db, c) == Some(l)
  {
    hide M.Inv;
    hide Ended;
    hide InFlight;
    LeasedIsHeld(db.q, k.group, k);
    if k in EndedKeys(db, c) {
      assert Held(db.q, k, Ended(db, c).value);
    }
  }

  /** Losing members and gaining at most one, a set of at most one member reaches two only by gaining. */
  lemma ReachesTwo(before: set<MsgKey>, after: set<MsgKey>, gain: Option<MsgKey>, lost: set<MsgKey>)
    requires |before| <= 1 && (gain.Some? ==> gain.value !in before && lost == {})
    requires forall k :: k in after <==> (k in before && k !in lost) || gain == Some(k)
    ensures |after| >= 2 <==> gain.Some? && |before| == 1
  {
    if gain.Some? {
      assert after == before + {gain.value};
    } else {
      assert after <= before;
      R.SubsetCount(after, before);
    }
  }

  /** A group with at most one message in flight has two after a command if and only if the
      command leases from it while one is in flight and another is ready. */
  lemma SecondInFlightIff(db: Db, c: Command, g: Group)
    requires M.Inv(db.q) && T.Allowed(c) && |InFlight(db.q, g)| <= 1
    ensures |InFlight(Step(db, c).b.q, g)| >= 2 <==>
              c.LeaseNext? && c.group == g && |InFlight(db.q, g)| == 1 && HeadReady(db.q, g).Some?
  {
    hide M.Inv;
    hide Step;
    hide EndedKeys;
    hide HeadReady;
    InFlightAfter(db, c, g);
    GrantedIff(db, c);
    var gain := if Granted(db, c).Some? && Granted(db, c).value.group == g then Granted(db, c) else None;
    if gain.Some? {
      GrantedIs(db, c);
      LeaseEndsNothing(db, c);
    }
    hide Granted;
    InFlightIn(db.q, g);
    ReachesTwo(InFlight(db.q, g), InFlight(Step(db, c).b.q, g), gain, EndedKeys(db, c));
  }

  lemma InFlightIn(q: Queue, g: Group)
    ensures forall k :: k in InFlight(q, g) ==> k.group == g
  {
  }

  lemma LeaseEndsNothing(db: Db, c: Command)
    requires c.LeaseNext?
    ensures EndedKeys(db, c) == {}
  {
  }

  // ----- A log that reaches two -----

  lemma StartDispatches(db: Db, c: Command)
    requires c.StartRun?
    ensures var b, r := Step(db, c).b, db.wf.nextRun;
            && IsRunning(b.wf, r) && b.wf.runs[r].wfType == c.wfType && b.wf.nextRun == r + 1
            && HeadReady(b.q, TaskGroup(c.wfType, r)).Some?
  {
    var b, g := Step(db, c).b, TaskGroup(c.wfType, db.wf.nextRun);
    var t := D.TaskKey(db.q, c.wfType, db.wf.nextRun);
    assert t in b.q.messages && b.q.messages[t].state == Ready by { hide TaskGroup; }
    D.ReadyHasHead(b.q, t);
    hide HeadReady;
    hide TaskGroup;
  }

  lemma AfterMore(log: seq<Command>, c: Command)
    ensures S.After(EMPTY_DB, log + [c]) == Step(S.After(EMPTY_DB, log), c).b
  {
    hide Step;
    assert (log + [c])[..|log|] == log;
  }

  lemma NothingEnds(db: Db, c: Command)
    requires c.StartRun? || c.LeaseNext? || c.SignalRun?
    ensures EndedKeys(db, c) == {} && T.Allowed(c)
  {
  }

  /** Leasing from a group with nothing in flight and something ready puts one in flight. */
  lemma FirstInFlight(db: Db, c: Command)
    requires M.Inv(db.q) && c.LeaseNext? && InFlight(db.q, c.group) == {} && HeadReady(db.q, c.group).Some?
    ensures |InFlight(Step(db, c).b.q, c.group)| == 1
  {
    hide M.Inv;
    hide Step;
    hide HeadReady;
    NothingEnds(db, c);
    InFlightAfter(db, c, c.group);
    GrantedIff(db, c);
    hide Granted;
    assert InFlight(Step(db, c).b.q, c.group) == {MsgKey(c.group, HeadReady(db.q, c.group).value)};
  }

  lemma SameInFlight(db: Db, c: Command, g: Group)
    requires M.Inv(db.q) && (c.StartRun? || c.SignalRun?)
    ensures InFlight(Step(db, c).b.q, g) == InFlight(db.q, g)
  {
    hide M.Inv;
    hide Step;
    hide EndedKeys;
    NothingEnds(db, c);
    InFlightAfter(db, c, g);
    InFlightIn(db.q, g);
    hide InFlight;
    assert forall k :: k in InFlight(Step(db, c).b.q, g) <==> k in InFlight(db.q, g);
  }

  lemma LeaseKeepsRun(db: Db, c: Command)
    requires c.LeaseNext?
    ensures Step(db, c).b.wf == db.wf
  {
    LeaseEffect(db, c);
    hide ApplyLease;
  }

  /** While a run's task is in flight, an external event makes a second one ready. */
  lemma SignalAddsTask(db: Db, c: Command)
    requires M.Inv(db.q) && c.SignalRun? && IsRunning(db.wf, c.run)
    ensures var g := TaskGroup(db.wf.runs[c.run].wfType, c.run);
            HeadReady(Step(db, c).b.q, g).Some? && |InFlight(Step(db, c).b.q, g)| == |InFlight(db.q, g)|
  {
    hide M.Inv;
    hide TaskGroup;
    hide HeadReady;
    hide Step;
    SameInFlight(db, c, TaskGroup(db.wf.runs[c.run].wfType, c.run));
    SignalTo(db, c);
    D.ReadyHasHead(Step(db, c).b.q, D.TaskKey(db.q, db.wf.runs[c.run].wfType, c.run));
  }

  lemma SignalTo(db: Db, c: Command)
    requires c.SignalRun? && IsRunning(db.wf, c.run)
    ensures var q', t := Step(db, c).b.q, D.TaskKey(db.q, db.wf.runs[c.run].wfType, c.run);
            t in q'.messages && q'.messages[t].state == Ready
  {
    hide TaskGroup;
    D.SignalDispatches(db, c.run, c.name, c.payload, c.now);
    hide Step;
  }

  /** A log after which one run has two workflow tasks in flight: start it, lease its task,
      signal it, lease again. */
  lemma TwoTasksInFlight(start: Command, lease: Command, signal: Command)
    requires start.StartRun? && lease.LeaseNext? && lease.group == TaskGroup(start.wfType, 1) && signal.SignalRun?
    requires signal.run == 1
    ensures IsRunning(S.After(EMPTY_DB, [start, lease, signal]).wf, 1)
    ensures |InFlight(S.After(EMPTY_DB, [start, lease, signal]).q, lease.group)| == 1
    ensures HeadReady(S.After(EMPTY_DB, [start, lease, signal]).q, lease.group).Some?
    ensures |InFlight(S.After(EMPTY_DB, [start, lease, signal, lease]).q, lease.group)| >= 2
  {
    var g := lease.group;
    assert [] + [start] == [start] && [start] + [lease] == [start, lease];
    assert [start, lease] + [signal] == [start, lease, signal]
        && [start, lease, signal] + [lease] == [start, lease, signal, lease];
    AfterMore([], start);
    AfterMore([start], lease);
    AfterMore([start, lease], signal);
    AfterMore([start, lease, signal], lease);
    S.EmptyInv();
    EmptyIsIdle(g);
    var db1, db2, db3 :=
        Step(EMPTY_DB, start).b, S.After(EMPTY_DB, [start, lease]), S.After(EMPTY_DB, [start, lease, signal]);
    NothingEnds(EMPTY_DB, start);
    NothingEnds(db1, lease);
    NothingEnds(db2, signal);
    hide *;
    T.StepKeepsInv(EMPTY_DB, start);
    SameInFlight(EMPTY_DB, start, g);
    StartDispatches(EMPTY_DB, start);
    T.StepKeepsInv(db1, lease);
    FirstInFlight(db1, lease);
    LeaseKeepsRun(db1, lease);
    T.StepKeepsInv(db2, signal);
    SignalAddsTask(db2, signal);
    RunStays(db2, signal);
    SecondInFlightIff(db3, lease, g);
  }

  lemma EmptyIsIdle(g: Group)
    ensures S.After(EMPTY_DB, []) == EMPTY_DB && EMPTY_DB.wf.nextRun == 1 && InFlight(EMPTY_DB.q, g) == {}
  {
  }

  lemma RunStays(db: Db, c: Command)
    requires c.SignalRun? && IsRunning(db.wf, c.run)
    ensures IsRunning(Step(db, c).b.wf, c.run) && Step(db, c).b.wf.runs[c.run].wfType == db.wf.runs[c.run].wfType
  {
    StepEffect(db, c);
    hide Step;
  }
}
