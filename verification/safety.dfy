/** What every run of the log keeps: the queue's invariant, exact counters, and the ledger of
    every id a group has handed out. */
module Safety {
  import opened Bytes
  import opened Store
  import opened Commands
  import opened Handlers
  import opened Journal
  import opened Steps
  import M = Moves

  // ----- Whole runs -----

  /** The store after applying the log, one batch per command. */
  ghost function After(db: Db, log: seq<Command>): Db
    decreases |log|
  {
    if log == [] then db else Step(After(db, log[..|log| - 1]), log[|log| - 1]).b
  }

  ghost predicate AllAllowed(log: seq<Command>) {
    forall i :: 0 <= i < |log| ==> Allowed(log[i])
  }

  lemma {:induction false} ReachableInv(log: seq<Command>)
    requires AllAllowed(log)
    ensures M.Inv(After(EMPTY_DB, log).q)
    decreases |log|
  {
    hide M.Inv;
    hide Step;
    hide Allowed;
    if log == [] {
      EmptyInv();
    } else {
      ReachableInv(log[..|log| - 1]);
      StepKeepsInv(After(EMPTY_DB, log[..|log| - 1]), log[|log| - 1]);
    }
  }

  lemma EmptyInv()
    ensures M.Inv(EMPTY_DB.q)
  {
  }

  // ----- Leases, delays and their timers -----

  function LeasedKeys(q: Queue): set<MsgKey> {
    set k | k in q.messages && q.messages[k].state == Leased
  }

  function DeadlineRows(q: Queue): set<Timer> {
    set t | t in q.timers && t.ref.LeaseDeadline?
  }

  /** The message, lease row and deadline row of one lease, agreeing on key, due time and epoch. */
  ghost predicate OneLease(q: Queue, k: MsgKey, l: nat, t: Timer) {
    && k in q.messages && q.messages[k].state == Leased && q.messages[k].curLease == l
    && l in q.leases && q.leases[l].key == k
    && t in q.timers && t == Timer(q.leases[l].deadline, LeaseDeadline(l))
    && q.messages[k].epoch == q.leases[l].epoch == q.timers[t]
  }

  /** Leased messages, lease rows and deadline rows: each belongs to exactly one triple. */
  lemma LeaseBijection(q: Queue)
    requires M.Inv(q)
    ensures forall k :: k in LeasedKeys(q) ==> exists l, t :: OneLease(q, k, l, t)
    ensures forall l :: l in q.leases ==> exists k, t :: OneLease(q, k, l, t)
    ensures forall t :: t in DeadlineRows(q) ==> exists k, l :: OneLease(q, k, l, t)
    ensures forall k, l, t, k', l', t' :: OneLease(q, k, l, t) && OneLease(q, k', l', t') ==>
              (k == k' <==> l == l') && (l == l' <==> t == t')
  {
    forall k | k in LeasedKeys(q) ensures exists l, t :: OneLease(q, k, l, t) {
      var l := q.messages[k].curLease;
      assert OneLease(q, k, l, Timer(q.leases[l].deadline, LeaseDeadline(l)));
    }
    forall l | l in q.leases ensures exists k, t :: OneLease(q, k, l, t) {
      assert OneLease(q, q.leases[l].key, l, Timer(q.leases[l].deadline, LeaseDeadline(l)));
    }
    forall t | t in DeadlineRows(q) ensures exists k, l :: OneLease(q, k, l, t) {
      assert OneLease(q, q.leases[t.ref.lease].key, t.ref.lease, t);
    }
  }

  /** A delayed message has exactly one ready-at row, carrying its epoch; any other live
      message has none. */
  lemma DelayedHasOneTimer(q: Queue, k: MsgKey)
    requires M.Inv(q) && k in q.messages
    ensures q.messages[k].state == Delayed ==>
              exists due :: Timer(due, ReadyAt(k)) in q.timers
                  && q.timers[Timer(due, ReadyAt(k))] == q.messages[k].epoch
                            && forall d :: Timer(d, ReadyAt(k)) in q.timers ==> d == due
    ensures q.messages[k].state != Delayed ==> forall d :: Timer(d, ReadyAt(k)) !in q.timers
  {
    hide M.LeasesOk;
    hide M.CountsOk;
    hide M.DlqOk;
    if q.messages[k].state == Delayed {
      assert M.HasReadyAt(q, k);
      var due :| Timer(due, ReadyAt(k)) in q.timers;
      forall d | Timer(d, ReadyAt(k)) in q.timers ensures d == due {
        assert Timer(d, ReadyAt(k)).ref == Timer(due, ReadyAt(k)).ref;
      }
      assert Timer(due, ReadyAt(k)).ref.ReadyAt?;
    } else {
      forall d ensures Timer(d, ReadyAt(k)) !in q.timers {
        assert Timer(d, ReadyAt(k)).ref.ReadyAt?;
      }
    }
  }

  // ----- Counters -----

  /** The group's messages, in any state. */
  function Live(ms: map<MsgKey, Message>, g: Group): set<MsgKey> {
    set k | k in ms && k.group == g
  }

  function CounterOf(gm: GroupMeta, s: MsgState): nat {
    match s case Ready => gm.ready case Delayed => gm.delayed case Leased => gm.inflight
  }

  /** A live message is counted, so no decrement on its behalf ever saturates. */
  lemma DecrementsNeverSaturate(q: Queue, k: MsgKey)
    requires M.Inv(q) && k in q.messages
    ensures k.group in q.groups && CounterOf(q.groups[k.group], q.messages[k].state) >= 1
    ensures q.groups[k.group].total >= 1
  {
    LiveIsKnown(q, k);
    GroupExact(q, k.group);
    hide M.Inv;
    assert k in M.InState(q.messages, k.group, q.messages[k].state);
  }

  /** The scheduler's filter passes a group exactly when a lease would find a message. */
  lemma ReadyCountFindsHead(q: Queue, g: Group)
    requires M.Inv(q)
    ensures HeadReady(q, g).Some? <==> LoadMeta(q, g).ready > 0
    ensures HeadReady(q, g).Some? ==>
              var k := MsgKey(g, HeadReady(q, g).value);
              && k in q.messages && q.messages[k].state == Ready
              && forall x :: x in q.messages && x.group == g && q.messages[x].state == Ready ==> k.id <= x.id
  {
    var ready := M.InState(q.messages, g, Ready);
    if g in q.groups {
      GroupExact(q, g);
    } else {
      InvKeys(q);
      M.NoMessages(q, g);
    }
    hide M.Inv;
    if ready == {} {
      if x :| x in ReadyIds(q, g) {
        assert MsgKey(g, x) in ready;
      }
    } else {
      var k :| k in ready;
      assert k.id in ReadyIds(q, g);
      forall x | x in q.messages && x.group == g && q.messages[x].state == Ready ensures x.id in ReadyIds(q, g) {}
    }
  }

  // ----- What leaves, and what stays as it was -----

  /** Everything about a message but its delivery state. */
  predicate SameContent(m: Message, n: Message) {
    && m.key == n.key && m.payload == n.payload && m.headers == n.headers && m.maxAttempts == n.maxAttempts
    && m.enqueued == n.enqueued && m.issueToken == n.issueToken && m.externalToken == n.externalToken
    && m.notBefore == n.notBefore && m.ttl == n.ttl
  }

  ghost predicate KeepsKnown(q: Queue, q': Queue) {
    forall k :: M.Known(q, k) ==> M.Known(q', k)
  }

  /** Ids handed out between q and q' are exactly the messages that appeared. */
  ghost predicate OnlyFresh(q: Queue, q': Queue) {
    && (forall k :: k in q'.messages && k !in q.messages ==> !M.Known(q, k))
    && (forall k :: M.Known(q', k) && !M.Known(q, k) ==> k in q'.messages)
  }

  ghost predicate KeepsMessages(q0: Queue, q: Queue, q': Queue) {
    && (forall k :: k in q.messages ==> k in q'.messages)
    && (forall k :: k in q.messages && k in q0.messages ==> SameContent(q'.messages[k], q.messages[k]))
  }

  /** No message left; those of q0 keep their content; new ids are new messages. */
  ghost predicate Grew(q0: Queue, q: Queue, q': Queue) {
    KeepsKnown(q, q') && OnlyFresh(q, q') && KeepsMessages(q0, q, q') && q'.dlq == q.dlq
  }

  /** No id is handed out. */
  ghost predicate SameIds(q: Queue, q': Queue) {
    && (forall g :: g in q.groups ==> g in q'.groups && q'.groups[g].nextSeq == q.groups[g].nextSeq)
    && (forall g :: g in q'.groups && g !in q.groups ==> q'.groups[g].nextSeq <= 1)
  }

  lemma ChangeGrows(q0: Queue, q: Queue, q': Queue, k: MsgKey)
    requires SameIds(q, q') && k in q.messages && k in q'.messages && q'.messages == q.messages[k := q'.messages[k]]
    requires k in q0.messages ==> SameContent(q'.messages[k], q.messages[k])
    requires q'.dlq == q.dlq
    ensures Grew(q0, q, q')
  {
  }

  lemma SameMessagesGrow(q0: Queue, q: Queue, q': Queue)
    requires SameIds(q, q') && q'.messages == q.messages && q'.dlq == q.dlq
    ensures Grew(q0, q, q')
  {
  }

  lemma EnqueueGrows(q0: Queue, q: Queue, m: Message, meta: GroupMeta, expiry: Option<nat>)
    requires M.KeysOk(q) && M.CanEnqueue(q, m, meta)
    ensures Grew(q0, q, M.Enqueued(q, m, meta, expiry))
  {
    var q' := M.Enqueued(q, m, meta, expiry);
    assert q'.messages == q.messages[m.key := m] && q'.dlq == q.dlq && q'.groups == q.groups[m.key.group := meta];
    assert meta.nextSeq == LoadMeta(q, m.key.group).nextSeq + 1;
  }

  lemma MoveGrows(q0: Queue, q: Queue, mv: M.Move)
    requires M.KeysOk(q) && M.Enabled(q, mv) && GentleMove(q0, mv)
    ensures Grew(q0, q, M.Play(q, mv))
  {
    hide Grew;
    var q' := M.Play(q, mv);
    if mv.Enqueue? {
      EnqueueGrows(q0, q, mv.m, mv.meta, mv.expiry);
    } else if mv.Replace? {
      ChangeGrows(q0, q, q', mv.m.key);
    } else if mv.Grant? || mv.Ripen? {
      ChangeGrows(q0, q, q', mv.key);
    } else if mv.Requeue? || mv.Extend? {
      ChangeGrows(q0, q, q', q.leases[mv.lease].key);
    } else {
      SameMessagesGrow(q0, q, q');
    }
  }

  lemma GrewThen(q0: Queue, q: Queue, q1: Queue, q2: Queue)
    requires Grew(q0, q, q1) && Grew(q0, q1, q2)
    ensures Grew(q0, q, q2)
  {
    hide M.Known;
  }

  lemma {:induction false} GentleGrows(q0: Queue, q: Queue, mvs: seq<M.Move>, q': Queue)
    requires M.Inv(q) && Gentle(q0, mvs) && Runs(q, mvs, q')
    ensures Grew(q0, q, q')
    decreases |mvs|
  {
    hide M.Inv;
    hide M.Play;
    hide M.Enabled;
    hide GentleMove;
    if mvs == [] {
      assert Grew(q0, q, q);
    } else {
      InvKeys(q);
      assert GentleMove(q0, mvs[0]);
      MoveGrows(q0, q, mvs[0]);
      M.PlayKeepsInv(q, mvs[0]);
      assert forall i :: 0 <= i < |mvs| - 1 ==> mvs[1..][i] == mvs[i + 1];
      GentleGrows(q0, M.Play(q, mvs[0]), mvs[1..], q');
      GrewThen(q0, q, M.Play(q, mvs[0]), q');
    }
  }

  /** The messages a removing move takes out. */
  ghost predicate Removes(q: Queue, mv: M.Move, k: MsgKey) {
    match mv
    case Settle(l) => l in q.leases && q.leases[l].key == k
    case Bury(key, _) => key == k
    case Purge(g) => k.group == g && k in q.messages && q.messages[k].state != Leased
    case _ => false
  }

  ghost predicate Takes(db: Db, c: Command, k: MsgKey) {
    Removal(db, c).Some? && Removes(db.q, Removal(db, c).value, k)
  }

  function DlqWith(dlq: map<DlqKey, DeadLetter>, mv: M.Move): map<DlqKey, DeadLetter> {
    if mv.Bury? then dlq[DlqKey(mv.key, mv.letter.deadAt) := mv.letter] else dlq
  }

  lemma RemovalPlay(q: Queue, mv: M.Move)
    requires M.Enabled(q, mv) && Removing(mv)
    ensures var q1 := M.Play(q, mv);
            && SameIds(q, q1) && q1.dlq == DlqWith(q.dlq, mv)
            && (forall k :: k in q1.messages <==> k in q.messages && !Removes(q, mv, k))
            && (forall k :: k in q1.messages ==> q1.messages[k] == q.messages[k])
  {
    if mv.Purge? {
      assert M.Play(q, mv).messages == M.Unpurged(q.messages, mv.group);
    }
  }

  /** What a command changes: exactly the messages it takes out are gone, the others keep
      their content, the new ones carry ids never handed out before, and a taken message is in
      the dead letters exactly if it was buried. */
  ghost predicate Exact(q: Queue, q': Queue, removal: Option<M.Move>) {
    && KeepsKnown(q, q') && OnlyFresh(q, q')
    && (forall k :: k in q.messages ==> (k in q'.messages <==> !(removal.Some? && Removes(q, removal.value, k))))
    && (forall k :: k in q.messages && k in q'.messages ==> SameContent(q'.messages[k], q.messages[k]))
    && q'.dlq == if removal.Some? then DlqWith(q.dlq, removal.value) else q.dlq
  }

  lemma ExactAfterRemoval(q: Queue, mv: M.Move, q1: Queue, q': Queue)
    requires M.KeysOk(q) && M.Enabled(q, mv) && Removing(mv) && q1 == M.Play(q, mv) && Grew(q, q1, q')
    ensures Exact(q, q', Some(mv))
  {
    hide M.Play;
    hide Removes;
    hide M.Enabled;
    hide DlqWith;
    RemovalPlay(q, mv);
    assert forall k :: M.Known(q, k) <==> M.Known(q1, k);
  }

  lemma RemovalRemoves(db: Db, c: Command)
    ensures Removal(db, c).Some? ==> Removing(Removal(db, c).value)
  {
  }

  lemma CommandExact(db: Db, c: Command)
    requires M.Inv(db.q) && Allowed(c) && !c.Redrive?
    ensures Exact(db.q, Step(db, c).b.q, Removal(db, c))
  {
    hide M.Inv;
    hide Step;
    hide Removal;
    hide M.Play;
    hide M.Enabled;
    var mvs := StepRuns(db, c);
    var q' := Step(db, c).b.q;
    InvKeys(db.q);
    if Removal(db, c).Some? {
      RemovalRemoves(db, c);
      M.PlayKeepsInv(db.q, mvs[0]);
      GentleGrows(db.q, M.Play(db.q, mvs[0]), mvs[1..], q');
      ExactAfterRemoval(db.q, mvs[0], M.Play(db.q, mvs[0]), q');
    } else {
      GentleGrows(db.q, db.q, mvs, q');
    }
  }

  // ----- Redrive -----

  ghost predicate IsDead(q: Queue, k: MsgKey) {
    exists d :: d in q.dlq && d.key == k
  }

  /** What a redriven message keeps of the dead one. */
  predicate Reissued(m: Message, dead: Message, id: nat, now: nat) {
    && m.key == MsgKey(dead.key.group, id) && m.payload == dead.payload && m.headers == dead.headers
    && m.maxAttempts == dead.maxAttempts
    && m.issueToken == dead.issueToken && m.externalToken == dead.externalToken
    && m.state == Ready && m.attempt == 0 && m.enqueued == now && m.epoch == 0 && m.curLease == 0
    && m.notBefore == 0 && m.ttl == 0
  }

  lemma DeadStampIs(q: Queue, k: MsgKey)
    requires M.DlqOk(q)
    ensures !IsDead(q, k) ==> DeadStamps(q, k) == {}
    ensures IsDead(q, k) ==> exists d :: d in q.dlq && d.key == k && DeadStamps(q, k) == {d.deadTs}
  {
    if IsDead(q, k) {
      var d :| d in q.dlq && d.key == k;
      assert DeadStamps(q, k) == {d.deadTs};
    }
  }

  /** Dead letter d became message n of its group, and nothing else changed. */
  ghost predicate Redrove(db: Db, b: Db, d: DlqKey, n: nat, now: nat) {
    var k := MsgKey(d.key.group, n);
    && d in db.q.dlq && b.q.dlq == db.q.dlq - {d}
    && !M.Known(db.q, k) && k in b.q.messages && Reissued(b.q.messages[k], db.q.dlq[d].original, n, now)
    && b.q.messages == db.q.messages[k := b.q.messages[k]]
    && k.group in b.q.groups && b.q.groups == db.q.groups[k.group := b.q.groups[k.group]]
    && b.q.groups[k.group].nextSeq == n + 1
  }

  /** A redrive moves one dead letter to one fresh message of its group, or does nothing. */
  lemma RedriveExact(db: Db, g: Group, id: nat, now: nat)
    requires M.Inv(db.q)
    ensures var r := ApplyRedrive(db, db, g, id, now);
            if !IsDead(db.q, MsgKey(g, id)) then r == Applied(db, Redriven(false, 0))
            else exists d: DlqKey :: d.key == MsgKey(g, id) && r.res == Redriven(true, LoadMeta(db.q, g).nextSeq)
                             && Redrove(db, r.b, d, LoadMeta(db.q, g).nextSeq, now)
  {
    hide Redrove;
    InvDlq(db.q);
    hide M.Inv;
    DeadStampIs(db.q, MsgKey(g, id));
    if IsDead(db.q, MsgKey(g, id)) {
      var d :| d in db.q.dlq && d.key == MsgKey(g, id) && DeadStamps(db.q, MsgKey(g, id)) == {d.deadTs};
      RedriveOf(db, g, id, now, d);
    }
  }

  lemma RedriveOf(db: Db, g: Group, id: nat, now: nat, d: DlqKey)
    requires M.DlqOk(db.q) && d in db.q.dlq && d.key == MsgKey(g, id) && DeadStamps(db.q, MsgKey(g, id)) == {d.deadTs}
    ensures var r := ApplyRedrive(db, db, g, id, now);
            r.res == Redriven(true, LoadMeta(db.q, g).nextSeq) && Redrove(db, r.b, d, LoadMeta(db.q, g).nextSeq, now)
  {
    hide MetaAfterPublish;
    assert Least({d.deadTs}) == Some(d.deadTs);
    assert d == DlqKey(MsgKey(g, id), d.deadTs);
    assert db.q.dlq[d].original.key == d.key;
    hide M.DlqOk;
    hide DeadStamps;
    NextSeqAfter(RedriveCmd(g, db.q.dlq[d].original, now), LoadMeta(db.q, g));
  }

  lemma NextSeqAfter(c: PublishCmd, gm: GroupMeta)
    ensures MetaAfterPublish(c, gm).nextSeq == gm.nextSeq + 1
  {
  }

  lemma InvDlq(q: Queue)
    requires M.Inv(q)
    ensures M.DlqOk(q)
  {
  }

  lemma RedriveKeepsInv(db: Db, g: Group, id: nat, now: nat)
    requires M.Inv(db.q)
    ensures M.Inv(ApplyRedrive(db, db, g, id, now).b.q)
  {
    hide M.Inv;
    hide ApplyRedrive;
    StepKeepsInv(db, Redrive(g, id, now));
  }

  /** Redriving the same id again does nothing. */
  lemma RedriveOnce(db: Db, g: Group, id: nat, now: nat, later: nat)
    requires M.Inv(db.q)
    ensures var b := ApplyRedrive(db, db, g, id, now).b;
            ApplyRedrive(b, b, g, id, later) == Applied(b, Redriven(false, 0))
  {
    var b := ApplyRedrive(db, db, g, id, now).b;
    RedriveKeepsInv(db, g, id, now);
    RedriveExact(db, g, id, now);
    RedriveExact(b, g, id, later);
    InvDlq(db.q);
    hide *;
    if IsDead(db.q, MsgKey(g, id)) {
      var d: DlqKey :| d.key == MsgKey(g, id) && Redrove(db, b, d, LoadMeta(db.q, g).nextSeq, now);
      RedroveDead(db, b, d, LoadMeta(db.q, g).nextSeq, now, MsgKey(g, id));
    }
  }

  // ----- Conservation -----

  /** Where every id that is neither live nor dead went. */
  datatype Ledger = Ledger(acked: set<MsgKey>, dropped: set<MsgKey>, redriven: set<MsgKey>)

  function TrackMove(q: Queue, l: Ledger, removal: Option<M.Move>): Ledger {
    match removal
    case Some(Settle(lease)) => if lease in q.leases then l.(acked := l.acked + {q.leases[lease].key}) else l
    case Some(Purge(g)) => l.(dropped := l.dropped + Droppable(q, g))
    case _ => l
  }

  ghost function Track(db: Db, l: Ledger, c: Command): Ledger {
    if c.Redrive? then
      if Step(db, c).res == Redriven(true, LoadMeta(db.q, c.group).nextSeq)
          then l.(redriven := l.redriven + {MsgKey(c.group, c.id)}) else l
    else TrackMove(db.q, l, Removal(db, c))
  }

  ghost function LedgerAfter(db: Db, log: seq<Command>): Ledger
    decreases |log|
  {
    if log == [] then Ledger({}, {}, {})
    else Track(After(db, log[..|log| - 1]), LedgerAfter(db, log[..|log| - 1]), log[|log| - 1])
  }

  function One(p: bool): nat { if p then 1 else 0 }

  ghost function Places(q: Queue, l: Ledger, k: MsgKey): nat {
    One(k in q.messages) + One(IsDead(q, k)) + One(k in l.acked) + One(k in l.dropped) + One(k in l.redriven)
  }

  /** Every id handed out is in exactly one place, and no other id is anywhere. */
  ghost predicate Balanced(q: Queue, l: Ledger) {
    forall k :: Places(q, l, k) == One(M.Known(q, k))
  }

  lemma BuryDead(q: Queue, q': Queue, mv: M.Move, k: MsgKey)
    requires q'.dlq == DlqWith(q.dlq, mv)
    ensures IsDead(q', k) <==> IsDead(q, k) || (mv.Bury? && mv.key == k)
  {
    if mv.Bury? {
      var d := DlqKey(mv.key, mv.letter.deadAt);
      assert d in q'.dlq;
      if IsDead(q, k) {
        var e :| e in q.dlq && e.key == k;
        assert e in q'.dlq;
      }
    }
  }

  lemma RedriveBalances(db: Db, l: Ledger, c: Command)
    requires M.Inv(db.q) && c.Redrive? && Balanced(db.q, l)
    ensures Balanced(Step(db, c).b.q, Track(db, l, c))
  {
    RedriveExact(db, c.group, c.id, c.now);
    InvDlq(db.q);
    InvKeys(db.q);
    var b, n, dead := ApplyRedrive(db, db, c.group, c.id, c.now).b, LoadMeta(db.q, c.group).nextSeq,
        MsgKey(c.group, c.id);
    hide M.Inv;
    hide M.KeysOk;
    hide M.DlqOk;
    hide ApplyRedrive;
    hide Redrove;
    hide Balanced;
    hide IsDead;
    if IsDead(db.q, dead) {
      var d: DlqKey :| d.key == dead && Redrove(db, b, d, n, c.now);
      RedroveBalances(db, b, l, d, n, c.now);
    }
  }

  lemma RedroveBalances(db: Db, b: Db, l: Ledger, d: DlqKey, n: nat, now: nat)
    requires M.KeysOk(db.q) && M.DlqOk(db.q) && Redrove(db, b, d, n, now) && n == LoadMeta(db.q, d.key.group).nextSeq
    requires Balanced(db.q, l) && IsDead(db.q, d.key)
    ensures Balanced(b.q, l.(redriven := l.redriven + {d.key}))
  {
    hide M.KeysOk;
    hide M.DlqOk;
    hide Redrove;
    hide IsDead;
    hide M.Known;
    forall k ensures Places(b.q, l.(redriven := l.redriven + {d.key}), k) == One(M.Known(b.q, k)) {
      assert Places(db.q, l, k) == One(M.Known(db.q, k));
      RedroveDead(db, b, d, n, now, k);
      RedroveKnown(db, b, d, n, now, k);
    }
  }

  lemma RedroveDead(db: Db, b: Db, d: DlqKey, n: nat, now: nat, k: MsgKey)
    requires M.DlqOk(db.q) && Redrove(db, b, d, n, now)
    ensures IsDead(b.q, k) <==> IsDead(db.q, k) && k != d.key
  {
    if IsDead(db.q, k) && k != d.key {
      var e :| e in db.q.dlq && e.key == k;
      assert e in b.q.dlq;
    }
  }

  lemma RedroveKnown(db: Db, b: Db, d: DlqKey, n: nat, now: nat, k: MsgKey)
    requires M.KeysOk(db.q) && Redrove(db, b, d, n, now) && n == LoadMeta(db.q, d.key.group).nextSeq
    ensures M.Known(b.q, k) <==> M.Known(db.q, k) || k == MsgKey(d.key.group, n)
    ensures k in b.q.messages <==> k in db.q.messages || k == MsgKey(d.key.group, n)
    ensures !M.Known(db.q, MsgKey(d.key.group, n))
  {
  }

  lemma CommandBalances(db: Db, l: Ledger, c: Command)
    requires M.Inv(db.q) && Allowed(c) && !c.Redrive? && Balanced(db.q, l)
    ensures Balanced(Step(db, c).b.q, Track(db, l, c))
  {
    var removal, q' := Removal(db, c), Step(db, c).b.q;
    CommandExact(db, c);
    RemovalRemoves(db, c);
    RemovalAims(db, c);
    StepKeepsInv(db, c);
    hide M.Inv;
    hide Step;
    hide Removal;
    hide Exact;
    hide Places;
    hide TrackMove;
    forall k ensures Places(q', Track(db, l, c), k) == One(M.Known(q', k)) {
      LiveIsKnown(q', k);
      PlacesAfter(db.q, q', l, removal, k);
    }
  }

  lemma PlacesAfter(q: Queue, q': Queue, l: Ledger, removal: Option<M.Move>, k: MsgKey)
    requires Exact(q, q', removal) && Aims(q, removal)
    requires removal.Some? ==> Removing(removal.value)
    requires k in q'.messages ==> M.Known(q', k)
    requires Places(q, l, k) == One(M.Known(q, k))
    ensures Places(q', TrackMove(q, l, removal), k) == One(M.Known(q', k))
  {
    hide M.Known;
    hide IsDead;
    hide SameContent;
    if removal.Some? {
      BuryDead(q, q', removal.value, k);
    } else {
      SameDead(q, q', k);
    }
  }

  lemma SameDead(q: Queue, q': Queue, k: MsgKey)
    requires q'.dlq == q.dlq
    ensures IsDead(q', k) <==> IsDead(q, k)
  {
  }

  ghost predicate Aims(q: Queue, removal: Option<M.Move>) {
    match removal
    case Some(Settle(lease)) => lease in q.leases && q.leases[lease].key in q.messages
    case Some(Bury(key, _)) => key in q.messages
    case _ => true
  }

  /** A removal aims at a live message. */
  lemma RemovalAims(db: Db, c: Command)
    requires M.Inv(db.q)
    ensures Aims(db.q, Removal(db, c))
  {
  }

  lemma {:induction false} RunsBalance(log: seq<Command>)
    requires AllAllowed(log)
    ensures Balanced(After(EMPTY_DB, log).q, LedgerAfter(EMPTY_DB, log))
    decreases |log|
  {
    hide M.Inv;
    hide Step;
    hide Allowed;
    hide Track;
    if log == [] {
    } else {
      var init, c := log[..|log| - 1], log[|log| - 1];
      RunsBalance(init);
      ReachableInv(init);
      if c.Redrive? {
        RedriveBalances(After(EMPTY_DB, init), LedgerAfter(EMPTY_DB, init), c);
      } else {
        CommandBalances(After(EMPTY_DB, init), LedgerAfter(EMPTY_DB, init), c);
      }
    }
  }

  function Of(s: set<MsgKey>, g: Group): set<MsgKey> {
    set k | k in s && k.group == g
  }

  function DeadKeys(q: Queue): set<MsgKey> {
    set d | d in q.dlq :: d.key
  }

  function Ids(g: Group, n: nat): set<MsgKey> {
    set i | 1 <= i < n :: MsgKey(g, i)
  }

  lemma {:induction false} IdCount(g: Group, n: nat)
    requires n >= 1
    ensures |Ids(g, n)| == n - 1
  {
    if n > 1 {
      IdCount(g, n - 1);
      assert Ids(g, n) == Ids(g, n - 1) + {MsgKey(g, n - 1)};
    }
  }

  /** The five places account for every id: nothing is lost and nothing is counted twice. */
  lemma LedgerAddsUp(q: Queue, l: Ledger, g: Group)
    requires Balanced(q, l) && g in q.groups && q.groups[g].nextSeq >= 1
    ensures q.groups[g].nextSeq - 1 ==
              |Of(q.messages.Keys, g)| + |Of(DeadKeys(q), g)| + |Of(l.acked, g)|
              + |Of(l.dropped, g)| + |Of(l.redriven, g)|
  {
    IdCount(g, q.groups[g].nextSeq);
    forall k { PlaceIn(q, l, g, k); }
    AddUp(Of(q.messages.Keys, g), Of(DeadKeys(q), g), Of(l.acked, g), Of(l.dropped, g), Of(l.redriven, g),
        Ids(g, q.groups[g].nextSeq));
  }

  lemma PlaceIn(q: Queue, l: Ledger, g: Group, k: MsgKey)
    requires Balanced(q, l) && g in q.groups
    ensures One(k in Of(q.messages.Keys, g)) + One(k in Of(DeadKeys(q), g))
            + One(k in Of(l.acked, g)) + One(k in Of(l.dropped, g))
            + One(k in Of(l.redriven, g)) == One(k in Ids(g, q.groups[g].nextSeq))
  {
    assert Places(q, l, k) == One(M.Known(q, k));
    assert IsDead(q, k) <==> k in DeadKeys(q);
  }

  lemma AddUp(a: set<MsgKey>, b: set<MsgKey>, c: set<MsgKey>, d: set<MsgKey>, e: set<MsgKey>, all: set<MsgKey>)
    requires forall k :: One(k in a) + One(k in b) + One(k in c) + One(k in d) + One(k in e) == One(k in all)
    ensures |a| + |b| + |c| + |d| + |e| == |all|
  {
    assert a !! b && (a + b) !! c && (a + b + c) !! d && (a + b + c + d) !! e;
    assert a + b + c + d + e == all;
  }
}
