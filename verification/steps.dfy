/** Each command of the log as a list of queue moves: the message it takes out, if any, and
    then moves that take none out. */
module Steps {
  import opened Bytes
  import opened Store
  import opened Commands
  import opened Handlers
  import opened Backoff
  import opened Journal
  import B = Batch
  import M = Moves

  function Letter(m: Message, reason: string, meta: map<string, string>, ts: nat): DeadLetter {
    DeadLetter(m, m.attempt, reason, meta, ts)
  }

  /** The dead letter a nack of a held lease writes, if it is terminal. */
  function NackLetter(m: Message, mode: NackMode, meta: map<string, string>, now: nat): Option<DeadLetter> {
    match mode
    case Retry =>
      if m.attempt + 1 >= MaxAttempts(m)
      then Some(Letter(m.(attempt := m.attempt + 1), "max_attempts", meta, now)) else None
    case DeadLetterNow => Some(Letter(m, "terminal_nack", meta, now))
    case RequeueNoPenalty => None
  }

  function NackRemoval(q: Queue, l: nat, mode: NackMode, meta: map<string, string>, now: nat): Option<M.Move> {
    if !Holds(q, l) then None
    else match NackLetter(q.messages[q.leases[l].key], mode, meta, now)
         case Some(letter) => Some(M.Bury(q.leases[l].key, letter))
         case None => None
  }

  function AckRemoval(q: Queue, l: nat): Option<M.Move> {
    if l in q.leases then Some(M.Settle(l)) else None
  }

  function FireRemoval(q: Queue, ref: Ref, fireAt: nat): Option<M.Move> {
    match ref
    case LeaseMaxLife(l) =>
      if Holds(q, l)
      then Some(M.Bury(q.leases[l].key, Letter(q.messages[q.leases[l].key], "max_lease_lifetime", map[], fireAt)))
      else None
    case MsgExpiry(key) =>
      if key in q.messages && q.messages[key].state != Leased
      then Some(M.Bury(key, Letter(q.messages[key], "ttl", map[], fireAt))) else None
    case _ => None
  }

  /** The move by which a command takes messages out of the queue. */
  function Removal(db: Db, c: Command): Option<M.Move> {
    match c
    case Ack(l) => AckRemoval(db.q, l)
    case Nack(l, mode, _, meta, now) => NackRemoval(db.q, l, mode, meta, now)
    case Complete(hash, success, meta, _, now) =>
      if hash !in db.tokens then None
      else if success then AckRemoval(db.q, db.tokens[hash])
      else NackRemoval(db.q, db.tokens[hash], Retry, meta, now)
    case Fire(t, fireAt) => if t in db.q.timers then FireRemoval(db.q, t.ref, fireAt) else None
    case Lifecycle(g, op) => if g in db.q.groups && (op.CancelGroup? || op.PurgeGroup?) then Some(M.Purge(g)) else None
    case _ => None
  }

  /** A group's names must not collide inside a batch, and the log holds known commands. */
  ghost predicate Allowed(c: Command) {
    !c.Unknown? && (c.PublishBatch? ==> B.Apart(B.GroupsOf(c.items)))
  }

  /** The moves start with the removal, if there is one, and take nothing else out. */
  ghost predicate Shaped(q: Queue, removal: Option<M.Move>, mvs: seq<M.Move>) {
    if removal.Some? then mvs != [] && mvs[0] == removal.value && Gentle(q, mvs[1..]) else Gentle(q, mvs)
  }

  // ----- Publishing -----

  lemma AcceptRuns(d: Db, c: PublishCmd, q0: Queue) returns (mvs: seq<M.Move>)
    ensures Runs(d.q, mvs, B.Accept(d, c).q) && Gentle(q0, mvs)
  {
    hide MetaAfterPublish;
    var gm := LoadMeta(d.q, c.group);
    var m, meta := NewMessage(c, gm.nextSeq), MetaAfterPublish(c, gm);
    var e := M.Enqueue(m, meta, if c.ttlExpiry > c.now then Some(c.ttlExpiry) else None);
    var q1 := Publishing(d, c, gm).q;
    EnqueueIsPublish(d, c);
    RunsOne(d.q, e);
    mvs := [e];
    if c.dedupKey != "" && c.dedupExpiry > c.now {
      var arm := M.Arm(Timer(c.dedupExpiry, DedupExpiry(c.group.lane, c.dedupKey)), 0);
      RunsOne(q1, arm);
      RunsJoin(d.q, [e], q1, [arm], B.Accept(d, c).q);
      mvs := [e] + [arm];
    }
  }

  lemma EnqueueIsPublish(d: Db, c: PublishCmd)
    ensures var gm := LoadMeta(d.q, c.group);
            var m, meta := NewMessage(c, gm.nextSeq), MetaAfterPublish(c, gm);
            M.CanEnqueue(d.q, m, meta)
            && M.Enqueued(d.q, m, meta, if c.ttlExpiry > c.now then Some(c.ttlExpiry) else None) ==
                 Publishing(d, c, gm).q
  {
  }

  lemma PublishRuns(db: Db, c: PublishCmd) returns (mvs: seq<M.Move>)
    ensures Runs(db.q, mvs, ApplyPublish(db, db, c).b.q) && Gentle(db.q, mvs)
  {
    hide Publishing;
    hide RecordDedup;
    mvs := [];
    if !(c.dedupKey != "" && CheckDedup(db.dedup, c).Some?) {
      mvs := AcceptRuns(db, c, db.q);
    }
  }

  lemma {:induction false} BatchRuns(db: Db, items: seq<PublishCmd>, n: nat) returns (mvs: seq<M.Move>)
    requires n <= |items| && B.OwnNames(db, items, n)
    ensures var s := BatchUpTo(db, db, items, n);
            && B.CacheOk(s, B.GroupsOf(items)) && s.b.q.groups == db.q.groups
            && Runs(db.q, mvs, B.View(s).q) && Gentle(db.q, mvs)
    decreases n
  {
    hide BatchItem;
    hide B.Accept;
    hide B.Foreign;
    hide B.OwnsCache;
    mvs := [];
    if n > 0 {
      var init := BatchRuns(db, items, n - 1);
      var s := BatchUpTo(db, db, items, n - 1);
      assert !B.Skipped(db, s, items[n - 1]) ==> B.OwnsCache(s, items[n - 1]) by {
        B.ForeignIff(db, items, n - 1);
        B.UpToNext(db, items, n - 1);
      }
      B.ItemWrites(db, s, items[n - 1], B.GroupsOf(items));
      if B.Skipped(db, s, items[n - 1]) {
        mvs := init;
      } else {
        var last := AcceptRuns(B.View(s), items[n - 1], db.q);
        RunsJoin(db.q, init, B.View(s).q, last, B.View(BatchUpTo(db, db, items, n)).q);
        GentleJoin(db.q, init, last);
        mvs := init + last;
      }
    }
  }

  lemma RedriveRuns(db: Db, g: Group, id: nat, now: nat) returns (mvs: seq<M.Move>)
    ensures Runs(db.q, mvs, ApplyRedrive(db, db, g, id, now).b.q)
  {
    hide MetaAfterPublish;
    hide PublishOne;
    hide NewMessage;
    mvs := [];
    match Least(DeadStamps(db.q, MsgKey(g, id)))
    case None =>
    case Some(ts) =>
      var d := DlqKey(MsgKey(g, id), ts);
      var c := RedriveCmd(g, db.q.dlq[d].original, now);
      var gm := LoadMeta(db.q, g);
      EnqueueIsPublish(db, c);
      var e := M.Enqueue(NewMessage(c, gm.nextSeq), MetaAfterPublish(c, gm), None);
      RunsOne(db.q, e);
      var q1 := Publishing(db, c, gm).q;
      assert q1.dlq == db.q.dlq by { assert M.Enqueued(db.q, e.m, e.meta, None).dlq == db.q.dlq; }
      RunsOne(q1, M.Redeem(d));
      RunsJoin(db.q, [e], q1, [M.Redeem(d)], ApplyRedrive(db, db, g, id, now).b.q);
      mvs := [e] + [M.Redeem(d)];
  }

  // ----- Leases -----

  lemma InvKeys(q: Queue)
    requires M.Inv(q)
    ensures M.KeysOk(q)
  {
  }

  lemma LiveIsKnown(q: Queue, k: MsgKey)
    requires M.Inv(q)
    ensures M.KeysOk(q) && (k in q.messages ==> M.Known(q, k) && q.messages[k].key == k)
  {
  }

  lemma LeaseRuns(db: Db, c: Command) returns (mvs: seq<M.Move>)
    requires M.Inv(db.q) && c.LeaseNext?
    ensures Runs(db.q, mvs, ApplyLease(db, db, c).b.q) && Gentle(db.q, mvs)
  {
    hide M.Inv;
    hide HeadReady;
    hide ApplyLease;
    mvs := [];
    match HeadReady(db.q, c.group)
    case None => LeaseNone(db, c);
    case Some(id) =>
      var grant := M.Grant(MsgKey(c.group, id), c.consumer, c.deadline,
          if c.maxLife > 0 then Some(c.maxLife) else None);
      GrantIsLease(db, c, id);
      RunsOne(db.q, grant);
      mvs := [grant];
  }

  lemma LeaseNone(db: Db, c: Command)
    requires c.LeaseNext? && HeadReady(db.q, c.group).None?
    ensures ApplyLease(db, db, c).b == db
  {
  }

  lemma GrantIsLease(db: Db, c: Command, id: nat)
    requires M.Inv(db.q) && c.LeaseNext? && HeadReady(db.q, c.group) == Some(id)
    ensures var key := MsgKey(c.group, id);
            && key in db.q.messages && db.q.messages[key].state == Ready && key.group in db.q.groups
            && M.Granted(db.q, key, c.consumer, c.deadline, if c.maxLife > 0 then Some(c.maxLife) else None) ==
                 ApplyLease(db, db, c).b.q
  {
    hide M.Inv;
    assert id in ReadyIds(db.q, c.group);
    LiveIsKnown(db.q, MsgKey(c.group, id));
  }

  lemma HeldTarget(q: Queue, l: nat)
    requires M.Inv(q) && l in q.leases
    ensures Holds(q, l) && M.HasTarget(q, l) && q.messages[q.leases[l].key].key == q.leases[l].key
    ensures q.messages[q.leases[l].key].epoch == q.leases[l].epoch
  {
  }

  /** Ending a lease removes its row and its deadline, nothing else of the queue. */
  lemma EndLeaseQueue(b: Db, l: nat, row: Lease)
    ensures EndLease(b, l, row).q
         == b.q.(leases := b.q.leases - {l}, timers := b.q.timers - {Timer(row.deadline, LeaseDeadline(l))})
  {
  }

  lemma AckRuns(db: Db, b: Db, l: nat) returns (mvs: seq<M.Move>)
    requires M.Inv(db.q) && b.q == db.q
    ensures Runs(db.q, mvs, ApplyAck(db, b, l).b.q) && Shaped(db.q, AckRemoval(db.q, l), mvs)
  {
    hide M.Inv;
    hide EndLease;
    mvs := [];
    if l in db.q.leases {
      HeldTarget(db.q, l);
      EndLeaseQueue(b.(q := DropMsg(b.q, db.q.leases[l].key)), l, db.q.leases[l]);
      mvs := [M.Settle(l)];
      RunsOne(db.q, mvs[0]);
      assert M.Settled(db.q, l) == ApplyAck(db, b, l).b.q;
    }
  }

  lemma ExtendRuns(db: Db, l: nat, deadline: nat) returns (mvs: seq<M.Move>)
    requires M.Inv(db.q)
    ensures Runs(db.q, mvs, ApplyExtend(db, db, l, deadline).b.q) && Gentle(db.q, mvs)
  {
    hide M.Inv;
    mvs := [];
    if Holds(db.q, l) {
      HeldTarget(db.q, l);
      mvs := [M.Extend(l, deadline)];
      RunsOne(db.q, mvs[0]);
      assert M.Extended(db.q, l, deadline) == ApplyExtend(db, db, l, deadline).b.q;
    }
  }

  // ----- Dead letters -----

  /** Reporting a dead activity writes to its run's own group, never to the activity's. */
  lemma BridgeCommutes(db: Db, b: Db, g: Group, gm: GroupMeta, id: nat, sched: nat, result: Blob, now: nat)
    requires ACTIVITY_LANE <= g.lane
    ensures RecordActivityTerminal(db, b.(q := PutMeta(b.q, g, gm)), id, sched, true, result, now).b.q
         == PutMeta(RecordActivityTerminal(db, b, id, sched, true, result, now).b.q, g, gm)
  {
    hide TaskGroup;
    if id in db.wf.runs {
      TaskGroupIsNot(db.wf.runs[id].wfType, id, g);
      var b1 := b.(wf := b.wf.(done := b.wf.done + {EventKey(id, sched)}));
      AppendCommutes(db, b1, g, gm, id, ActivityFailed, Outcome(sched, false, result), now);
    }
  }

  lemma TaskGroupIsNot(wfType: string, run: nat, g: Group)
    requires ACTIVITY_LANE <= g.lane
    ensures TaskGroup(wfType, run) != g
  {
    LanesDiffer(wfType, g.lane);
  }

  lemma AppendCommutes(db: Db, b: Db, g: Group, gm: GroupMeta, id: nat, kind: EventKind, attrs: Attrs, now: nat)
    requires id in db.wf.runs && TaskGroup(db.wf.runs[id].wfType, id) != g
    ensures AppendExternal(db, b.(q := PutMeta(b.q, g, gm)), id, kind, attrs, now).q
         == PutMeta(AppendExternal(db, b, id, kind, attrs, now).q, g, gm)
  {
    hide TaskGroup;
    var tg, lm := TaskGroup(db.wf.runs[id].wfType, id), LoadMeta(db.q, TaskGroup(db.wf.runs[id].wfType, id));
    forall meta: GroupMeta ensures PutMeta(PutMeta(b.q, g, gm), tg, meta) == PutMeta(PutMeta(b.q, tg, meta), g, gm) {
      assert b.q.groups[g := gm][tg := meta] == b.q.groups[tg := meta][g := gm];
    }
  }

  /** A dead letter is a burial, and what follows in the same batch takes nothing out. */
  lemma DeadRuns(db: Db, b: Db, m: Message, gm: GroupMeta, reason: string, meta: map<string, string>, ts: nat)
      returns (mvs: seq<M.Move>)
    requires M.Inv(db.q) && m.key in db.q.messages && m.key.group in db.q.groups
    requires gm.(total := Decr(gm.total)) == M.Gone(db.q.groups[m.key.group], db.q.messages[m.key].state)
    requires var om := db.q.messages[m.key];
             b.q == if om.state == Leased && om.curLease in db.q.leases
                    then db.q.(leases := db.q.leases - {om.curLease}, timers := M.Undue(db.q, om.curLease)) else db.q
    ensures Runs(db.q, mvs, NackDead(db, b, m, gm, reason, meta, ts).b.q)
    ensures Shaped(db.q, Some(M.Bury(m.key, Letter(m, reason, meta, ts))), mvs)
  {
    hide M.Inv;
    hide RecordActivityTerminal;
    var bury := M.Bury(m.key, Letter(m, reason, meta, ts));
    LeasedHasLease(db.q, m.key);
    var q1 := M.Buried(db.q, m.key, bury.letter);
    RunsOne(db.q, bury);
    var b1 := b.(q := DropMsg(PutDead(b.q, DlqKey(m.key, ts), bury.letter), m.key));
    var gm1 := gm.(total := Decr(gm.total));
    var b2 := b1.(q := PutMeta(b1.q, m.key.group, gm1));
    assert b2.q == q1;
    mvs := [bury];
    if ACTIVITY_LANE <= m.key.group.lane && m.payload.ActTask? && m.payload.run != 0 {
      var p, result := m.payload, Ascii("activity_dead_lettered: " + reason);
      BridgeCommutes(db, b1, m.key.group, gm1, p.run, p.sched, result, ts);
      if p.run in db.wf.runs {
        var tg := TaskGroup(db.wf.runs[p.run].wfType, p.run);
        TaskGroupIsNot(db.wf.runs[p.run].wfType, p.run, m.key.group);
        assert Untouched(db.q, q1, tg);
      }
      LiveIsKnown(db.q, m.key);
      var rest := RecordTerminalRuns(db, b2, p.run, p.sched, true, result, ts);
      RunsJoin(db.q, [bury], q1, rest, NackDead(db, b, m, gm, reason, meta, ts).b.q);
      mvs := [bury] + rest;
      assert mvs[1..] == rest;
    }
  }

  lemma LeasedHasLease(q: Queue, k: MsgKey)
    requires M.Inv(q)
    ensures k in q.messages && q.messages[k].state == Leased ==>
              q.messages[k].curLease in q.leases && q.leases[q.messages[k].curLease].key == k
  {
  }

  lemma NackReadyIsRequeue(db: Db, b: Db, l: nat, m: Message, readyAt: nat, now: nat)
    requires M.HasTarget(db.q, l) && m.key == db.q.leases[l].key
    requires m == db.q.messages[m.key].(attempt := m.attempt)
    requires b.q == db.q.(leases := db.q.leases - {l}, timers := M.Undue(db.q, l))
    ensures var gm := db.q.groups[m.key.group];
            NackReady(db, b, m, gm.(inflight := Decr(gm.inflight)), readyAt, now).b.q
            == M.Requeued(db.q, l, m.attempt, if readyAt > now then Some(readyAt) else None)
  {
  }

  lemma NackRuns(db: Db, b: Db, l: nat, mode: NackMode, delay: nat, meta: map<string, string>, now: nat)
          returns (mvs: seq<M.Move>)
    requires M.Inv(db.q) && b.q == db.q
    ensures Runs(db.q, mvs, ApplyNack(db, b, l, mode, delay, meta, now).b.q)
    ensures Shaped(db.q, NackRemoval(db.q, l, mode, meta, now), mvs)
  {
    hide M.Inv;
    hide EndLease;
    hide NackReady;
    hide NackDead;
    hide BackoffMs;
    mvs := [];
    if l in db.q.leases {
      HeldTarget(db.q, l);
      EndLeaseQueue(b, l, db.q.leases[l]);
      var row := db.q.leases[l];
      var b1 := EndLease(b, l, row);
      var m, gm0 := db.q.messages[row.key], db.q.groups[row.key.group];
      var gm := gm0.(inflight := Decr(gm0.inflight));
      match NackLetter(m, mode, meta, now)
      case Some(letter) =>
        mvs := DeadRuns(db, b1, letter.original, gm, letter.reason, meta, now);
      case None =>
        var m1 := if mode.Retry? then m.(attempt := m.attempt + 1) else m;
        var wait := if mode.Retry? && delay == 0 then BackoffMs(m.key.id, m1.attempt) else delay;
        var readyAt := Add64(now, wait);
        NackReadyIsRequeue(db, b1, l, m1, readyAt, now);
        mvs := [M.Requeue(l, m1.attempt, if readyAt > now then Some(readyAt) else None)];
        RunsOne(db.q, mvs[0]);
    }
  }

  lemma NoMoves(q: Queue)
    ensures Runs(q, [], q) && Shaped(q, None, [])
  {
  }

  lemma CompleteRuns(db: Db, hash: Blob, success: bool, meta: map<string, string>, delay: nat, now: nat)
          returns (mvs: seq<M.Move>)
    requires M.Inv(db.q)
    ensures Runs(db.q, mvs, ApplyComplete(db, db, hash, success, meta, delay, now).b.q)
    ensures Shaped(db.q, Removal(db, Complete(hash, success, meta, delay, now)), mvs)
  {
    hide M.Inv;
    hide ApplyAck;
    hide ApplyNack;
    hide AckRemoval;
    hide NackRemoval;
    hide Shaped;
    hide Runs;
    mvs := [];
    NoMoves(db.q);
    if hash in db.tokens {
      var b1 := db.(tokens := db.tokens - {hash});
      if success {
        mvs := AckRuns(db, b1, db.tokens[hash]);
      } else {
        mvs := NackRuns(db, b1, db.tokens[hash], Retry, delay, meta, now);
      }
    }
  }

  // ----- Timers -----

  /** What a fire does before it removes its row. */
  function Fired1(db: Db, t: Timer, fireAt: nat): Db
    requires t in db.q.timers
  {
    match t.ref
    case ReadyAt(key) => FireReadyAt(db, db, key, db.q.timers[t])
    case LeaseDeadline(l) => FireDeadline(db, db, l, db.q.timers[t], fireAt)
    case LeaseMaxLife(l) => FireMaxLife(db, db, l, fireAt)
    case WfFired(run, started) => AppendExternal(db, db, run, TimerFired, Fired(started), fireAt)
    case MsgExpiry(key) => FireExpiry(db, db, key, fireAt)
    case DedupExpiry(lane, key) => FireDedup(db, db, lane, key, fireAt)
  }

  lemma FireIs(db: Db, t: Timer, fireAt: nat)
    requires t in db.q.timers
    ensures ApplyFire(db, db, t, fireAt).b.q == DelTimer(Fired1(db, t, fireAt).q, t.due, t.ref)
  {
    hide FireReadyAt;
    hide FireDeadline;
    hide FireMaxLife;
    hide AppendExternal;
    hide FireExpiry;
  }

  lemma ReadyAtRuns(db: Db, t: Timer, fireAt: nat) returns (mvs: seq<M.Move>)
    requires M.Inv(db.q) && t in db.q.timers && t.ref.ReadyAt?
    ensures Runs(db.q, mvs, ApplyFire(db, db, t, fireAt).b.q) && Gentle(db.q, mvs)
  {
    hide M.Inv;
    hide Fired1;
    FireIs(db, t, fireAt);
    hide ApplyFire;
    if t.ref.key in db.q.messages {
      ReadyAtRow(db.q, t);
      RipenIsFire(db, t, fireAt);
      mvs := [M.Ripen(t.ref.key, t.due)];
    } else {
      assert Fired1(db, t, fireAt) == db by { FireNothing(db, t, fireAt); }
      mvs := [M.Disarm(t)];
      DisarmIs(db.q, t);
    }
    RunsOne(db.q, mvs[0]);
  }

  lemma FireNothing(db: Db, t: Timer, fireAt: nat)
    requires t in db.q.timers && t.ref.ReadyAt? && t.ref.key !in db.q.messages
    ensures Fired1(db, t, fireAt) == db
  {
  }

  lemma RipenIsFire(db: Db, t: Timer, fireAt: nat)
    requires t in db.q.timers && t.ref.ReadyAt? && t.ref.key in db.q.messages && t.ref.key.group in db.q.groups
    requires db.q.messages[t.ref.key].state == Delayed && db.q.messages[t.ref.key].epoch == db.q.timers[t]
    ensures M.Enabled(db.q, M.Ripen(t.ref.key, t.due))
    ensures M.Ripened(db.q, t.ref.key, t.due) == DelTimer(Fired1(db, t, fireAt).q, t.due, t.ref)
  {
    ReadyAtIs(db, t.ref.key, db.q.timers[t]);
    hide FireReadyAt;
  }

  lemma ReadyAtIs(db: Db, key: MsgKey, epoch: nat)
    requires key in db.q.messages && db.q.messages[key].state == Delayed && db.q.messages[key].epoch == epoch
    requires key.group in db.q.groups
    ensures var m, gm := db.q.messages[key], db.q.groups[key.group];
            FireReadyAt(db, db, key, epoch).q ==
              Queue(db.q.messages[key := m.(state := Ready, epoch := Bump32(m.epoch))],
                    db.q.groups[key.group := M.Entered(M.Left(gm, Delayed), Ready)], db.q.leases, db.q.timers,
                        db.q.dlq, db.q.nextLease)
  {
  }

  lemma ReadyAtRow(q: Queue, t: Timer)
    requires M.Inv(q) && t in q.timers && t.ref.ReadyAt? && t.ref.key in q.messages
    ensures var m := q.messages[t.ref.key];
            m.state == Delayed && m.epoch == q.timers[t] && m.key == t.ref.key && t.ref.key.group in q.groups
  {
  }

  lemma DeadlineRow(q: Queue, t: Timer)
    requires M.Inv(q) && t in q.timers && t.ref.LeaseDeadline?
    ensures var l := t.ref.lease;
            Holds(q, l) && M.HasTarget(q, l) && t.due == q.leases[l].deadline
            && q.messages[q.leases[l].key].epoch == q.timers[t] && q.messages[q.leases[l].key].key == q.leases[l].key
  {
  }

  lemma DeadlineRuns(db: Db, t: Timer, fireAt: nat) returns (mvs: seq<M.Move>)
    requires M.Inv(db.q) && t in db.q.timers && t.ref.LeaseDeadline?
    ensures Runs(db.q, mvs, ApplyFire(db, db, t, fireAt).b.q) && Gentle(db.q, mvs)
  {
    hide M.Inv;
    hide ApplyFire;
    hide Fired1;
    hide M.Requeued;
    hide Runs;
    FireIs(db, t, fireAt);
    DeadlineRow(db.q, t);
    RequeueIsFire(db, t, fireAt);
    var mv := M.Requeue(t.ref.lease, db.q.messages[db.q.leases[t.ref.lease].key].attempt, None);
    RunsOne(db.q, mv);
    mvs := [mv];
  }

  lemma RequeueIsFire(db: Db, t: Timer, fireAt: nat)
    requires t in db.q.timers && t.ref.LeaseDeadline? && Holds(db.q, t.ref.lease) && M.HasTarget(db.q, t.ref.lease)
    requires t.due == db.q.leases[t.ref.lease].deadline
    requires var k := db.q.leases[t.ref.lease].key;
             db.q.messages[k].epoch == db.q.timers[t] && db.q.messages[k].key == k
    ensures M.Requeued(db.q, t.ref.lease, db.q.messages[db.q.leases[t.ref.lease].key].attempt, None)
            == DelTimer(Fired1(db, t, fireAt).q, t.due, t.ref)
  {
    hide FireReadyAt;
    hide FireMaxLife;
    hide FireExpiry;
    hide FireDedup;
    hide AppendExternal;
  }

  /** The row of a timer that is neither a deadline nor a live message's ready-at goes last. */
  lemma ThenDisarm(q: Queue, mvs: seq<M.Move>, q1: Queue, t: Timer, removal: Option<M.Move>) returns (all: seq<M.Move>)
    requires Runs(q, mvs, q1) && Shaped(q, removal, mvs)
    requires !t.ref.LeaseDeadline? && (t.ref.ReadyAt? ==> t.ref.key !in q1.messages)
    ensures Runs(q, all, DelTimer(q1, t.due, t.ref)) && Shaped(q, removal, all)
  {
    hide M.Play;
    hide Runs;
    var d := M.Disarm(t);
    RunsOne(q1, d);
    assert M.Play(q1, d) == DelTimer(q1, t.due, t.ref) by { DisarmIs(q1, t); }
    RunsJoin(q, mvs, q1, [d], DelTimer(q1, t.due, t.ref));
    all := mvs + [d];
    if removal.Some? {
      assert all[1..] == mvs[1..] + [d];
      GentleJoin(q, mvs[1..], [d]);
    } else {
      GentleJoin(q, mvs, [d]);
    }
  }

  lemma DisarmIs(q: Queue, t: Timer)
    requires M.Enabled(q, M.Disarm(t))
    ensures M.Play(q, M.Disarm(t)) == DelTimer(q, t.due, t.ref)
  {
  }

  lemma MaxLifeRuns(db: Db, t: Timer, fireAt: nat) returns (mvs: seq<M.Move>)
    requires M.Inv(db.q) && t in db.q.timers && t.ref.LeaseMaxLife?
    ensures Runs(db.q, mvs, Fired1(db, t, fireAt).q) && Shaped(db.q, FireRemoval(db.q, t.ref, fireAt), mvs)
  {
    hide M.Inv;
    hide EndLease;
    hide NackDead;
    mvs := [];
    var l := t.ref.lease;
    if Holds(db.q, l) {
      HeldTarget(db.q, l);
      var row := db.q.leases[l];
      EndLeaseQueue(db, l, row);
      var gm := db.q.groups[row.key.group];
      mvs := DeadRuns(db, EndLease(db, l, row), db.q.messages[row.key], gm.(inflight := Decr(gm.inflight)),
          "max_lease_lifetime", map[], fireAt);
    }
  }

  lemma ExpiryRuns(db: Db, t: Timer, fireAt: nat) returns (mvs: seq<M.Move>)
    requires M.Inv(db.q) && t in db.q.timers && t.ref.MsgExpiry?
    ensures Runs(db.q, mvs, Fired1(db, t, fireAt).q) && Shaped(db.q, FireRemoval(db.q, t.ref, fireAt), mvs)
  {
    hide M.Inv;
    hide NackDead;
    mvs := [];
    var key := t.ref.key;
    if key in db.q.messages && db.q.messages[key].state != Leased {
      LiveIsKnown(db.q, key);
      var m, gm := db.q.messages[key], db.q.groups[key.group];
      mvs := DeadRuns(db, db, m, if m.state == Ready then gm.(ready := Decr(gm.ready))
          else gm.(delayed := Decr(gm.delayed)), "ttl", map[], fireAt);
    }
  }

  lemma FireRuns(db: Db, t: Timer, fireAt: nat) returns (mvs: seq<M.Move>)
    requires M.Inv(db.q)
    ensures Runs(db.q, mvs, ApplyFire(db, db, t, fireAt).b.q) && Shaped(db.q, Removal(db, Fire(t, fireAt)), mvs)
  {
    hide M.Inv;
    hide FireMaxLife;
    hide FireExpiry;
    hide AppendExternal;
    if t !in db.q.timers {
      mvs := [];
    } else if t.ref.ReadyAt? {
      mvs := ReadyAtRuns(db, t, fireAt);
    } else if t.ref.LeaseDeadline? {
      mvs := DeadlineRuns(db, t, fireAt);
    } else {
      FireIs(db, t, fireAt);
      var first: seq<M.Move> := [];
      if t.ref.LeaseMaxLife? {
        first := MaxLifeRuns(db, t, fireAt);
      } else if t.ref.MsgExpiry? {
        first := ExpiryRuns(db, t, fireAt);
      } else if t.ref.WfFired? {
        InvKeys(db.q);
        first := AppendExternalRuns(db, db, t.ref.run, TimerFired, Fired(t.ref.started), fireAt);
      }
      mvs := ThenDisarm(db.q, first, Fired1(db, t, fireAt).q, t, Removal(db, Fire(t, fireAt)));
    }
  }

  // ----- Control -----

  lemma ConfigRuns(db: Db, g: Group, weight: Option<real>, batchSize: Option<nat>) returns (mvs: seq<M.Move>)
    ensures Runs(db.q, mvs, ApplyGroupConfig(db, db, g, weight, batchSize).b.q) && Gentle(db.q, mvs)
  {
    mvs := [M.Knobs(g, ApplyGroupConfig(db, db, g, weight, batchSize).b.q.groups[g])];
    RunsOne(db.q, mvs[0]);
  }

  lemma DropCount(q: Queue, g: Group)
    ensures |Droppable(q, g)| == M.Count(q.messages, g, Ready) + M.Count(q.messages, g, Delayed)
    ensures q.messages - Droppable(q, g) == M.Unpurged(q.messages, g)
  {
    assert Droppable(q, g) == M.InState(q.messages, g, Ready) + M.InState(q.messages, g, Delayed);
    assert M.InState(q.messages, g, Ready) !! M.InState(q.messages, g, Delayed);
  }

  /** The purge's running total is the number of messages it leaves. */
  lemma PurgeIsDrop(db: Db, g: Group)
    requires M.Inv(db.q) && g in db.q.groups
    ensures DropLeasable(db, db, g, db.q.groups[g]).b.q == M.Purged(db.q, g)
  {
    GroupExact(db.q, g);
    DropCount(db.q, g);
    hide M.Inv;
    hide Droppable;
    hide M.Unpurged;
    hide M.Count;
  }

  lemma GroupExact(q: Queue, g: Group)
    requires M.Inv(q) && g in q.groups
    ensures M.MetaExact(q.messages, g, q.groups[g])
  {
  }

  lemma LifecycleRuns(db: Db, g: Group, op: GroupOp) returns (mvs: seq<M.Move>)
    requires M.Inv(db.q)
    ensures Runs(db.q, mvs, ApplyLifecycle(db, db, g, op).b.q) && Shaped(db.q, Removal(db, Lifecycle(g, op)), mvs)
  {
    hide M.Inv;
    hide DropLeasable;
    hide M.Purged;
    mvs := [];
    if g in db.q.groups {
      if op.CancelGroup? || op.PurgeGroup? {
        PurgeIsDrop(db, g);
        mvs := [M.Purge(g)];
      } else {
        mvs := [M.Knobs(g, db.q.groups[g].(paused := op.Pause?))];
      }
      RunsOne(db.q, mvs[0]);
    }
  }

  lemma TokenRuns(db: Db, l: nat, hash: Blob) returns (mvs: seq<M.Move>)
    requires M.Inv(db.q)
    ensures Runs(db.q, mvs, ApplyIssueToken(db, db, l, hash).b.q) && Gentle(db.q, mvs)
  {
    hide M.Inv;
    mvs := [];
    if l in db.q.leases {
      HeldTarget(db.q, l);
      mvs := [M.Tag(l, hash)];
      RunsOne(db.q, mvs[0]);
    }
  }

  lemma NoGentle(q: Queue)
    ensures Gentle(q, [])
  {
  }

  lemma EngineRuns(db: Db, c: Command) returns (mvs: seq<M.Move>)
    requires M.Inv(db.q)
    requires c.StartRun? || c.AppendEvents? || c.CompleteActivity? || c.SignalRun? || c.CancelRun?
    ensures Runs(db.q, mvs, Step(db, c).b.q) && Gentle(db.q, mvs)
  {
    InvKeys(db.q);
    hide M.Inv;
    hide AppendUpTo;
    hide Runs;
    hide TaskGroup;
    NoMoves(db.q);
    NoGentle(db.q);
    hide CreateRun;
    hide AppendExternal;
    hide ApplyAppend;
    hide RecordActivityTerminal;
    hide Gentle;
    hide Untouched;
    hide Bumped;
    match c
    case StartRun(wfType, tenant, input, parent, now) =>
        mvs := CreateRunRuns(db, db, wfType, tenant, input, parent, now);
    case AppendEvents(run, epoch, atSeq, events, now) => mvs := AppendRuns(db, run, epoch, atSeq, events, now);
    case CompleteActivity(run, sched, success, result, now) =>
        mvs := RecordTerminalRuns(db, db, run, sched, !success, result, now);
    case SignalRun(run, name, payload, now) =>
        mvs := AppendExternalRuns(db, db, run, SignalReceived, Signal(name, payload), now);
    case CancelRun(_, _, _) => mvs := [];
  }

  // ----- Every command -----

  lemma QuietRuns(db: Db, c: Command) returns (mvs: seq<M.Move>)
    requires M.Inv(db.q) && Allowed(c)
    requires c.Publish? || c.PublishBatch? || c.LeaseNext? || c.ExtendLease? || c.GroupConfig? || c.IssueToken? ||
               c.Singleton?
    ensures Runs(db.q, mvs, Step(db, c).b.q) && Gentle(db.q, mvs)
  {
    hide M.Inv;
    hide ApplyPublish;
    hide ApplyLease;
    hide ApplyExtend;
    hide ApplyGroupConfig;
    hide ApplyIssueToken;
    hide ApplyRedrive;
    match c
    case Publish(p) => mvs := PublishRuns(db, p);
    case PublishBatch(items) =>
      B.ApartOwns(db, items);
      mvs := BatchRuns(db, items, |items|);
    case LeaseNext(_, _, _, _) => mvs := LeaseRuns(db, c);
    case ExtendLease(l, deadline) => mvs := ExtendRuns(db, l, deadline);
    case GroupConfig(g, weight, batchSize) => mvs := ConfigRuns(db, g, weight, batchSize);
    case IssueToken(l, hash) => mvs := TokenRuns(db, l, hash);
    case Singleton(_, _, _, _, _, _) => mvs := [];
  }

  lemma StepRuns(db: Db, c: Command) returns (mvs: seq<M.Move>)
    requires M.Inv(db.q) && Allowed(c) && !c.Redrive?
    ensures Runs(db.q, mvs, Step(db, c).b.q) && Shaped(db.q, Removal(db, c), mvs)
  {
    hide M.Inv;
    hide ApplyAck;
    hide ApplyNack;
    hide ApplyFire;
    hide ApplyLifecycle;
    hide ApplyComplete;
    hide ApplyPublish;
    hide ApplyPublishBatch;
    hide ApplyLease;
    hide ApplyExtend;
    hide ApplyGroupConfig;
    hide ApplyIssueToken;
    hide ApplyRedrive;
    hide ApplySingleton;
    hide ApplyStartRun;
    hide ApplyAppend;
    hide ApplySignal;
    hide ApplyCancel;
    hide RecordActivityTerminal;
    hide FireRemoval;
    hide NackRemoval;
    match c
    case Ack(l) => mvs := AckRuns(db, db, l);
    case Nack(l, mode, delay, meta, now) => mvs := NackRuns(db, db, l, mode, delay, meta, now);
    case Complete(hash, success, meta, delay, now) => mvs := CompleteRuns(db, hash, success, meta, delay, now);
    case Fire(t, fireAt) => mvs := FireRuns(db, t, fireAt);
    case Lifecycle(g, op) => mvs := LifecycleRuns(db, g, op);
    case StartRun(_, _, _, _, _) => mvs := EngineRuns(db, c);
    case AppendEvents(_, _, _, _, _) => mvs := EngineRuns(db, c);
    case CompleteActivity(_, _, _, _, _) => mvs := EngineRuns(db, c);
    case SignalRun(_, _, _, _) => mvs := EngineRuns(db, c);
    case CancelRun(_, _, _) => mvs := EngineRuns(db, c);
    case _ => mvs := QuietRuns(db, c);
  }

  /** One command keeps the queue's invariant. */
  lemma StepKeepsInv(db: Db, c: Command)
    requires M.Inv(db.q) && Allowed(c)
    ensures M.Inv(Step(db, c).b.q)
  {
    hide M.Inv;
    hide ApplyRedrive;
    if c.Redrive? {
      var mvs := RedriveRuns(db, c.group, c.id, c.now);
      RunsKeepInv(db.q, mvs, Step(db, c).b.q);
    } else {
      var mvs := StepRuns(db, c);
      RunsKeepInv(db.q, mvs, Step(db, c).b.q);
    }
  }
}
