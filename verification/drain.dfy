/** The timer drain: every fire consumes its row and arms no other, so bounded sweeps run dry,
    and a dry index means nothing overdue is leased or delayed. */
module Drain {
  import opened Bytes
  import opened Store
  import opened Commands
  import opened Handlers
  import S = Safety
  import T = Steps
  import M = Moves
  import Keys
  import SR = StoreRows

  /** The most rows one sweep fires. */
  const MAX_FIRE_BATCH: nat := 256

  function Due(q: Queue, now: nat): set<Timer> {
    set t | t in q.timers && t.due <= now
  }

  /** Rows may go; none appears and none changes. */
  ghost predicate Shrinks(q: Queue, q': Queue) {
    forall t :: t in q'.timers ==> t in q.timers && q'.timers[t] == q.timers[t]
  }

  // ----- One fire -----

  lemma ExternalArmsNothing(db: Db, b: Db, id: nat, kind: EventKind, attrs: Attrs, now: nat)
    ensures AppendExternal(db, b, id, kind, attrs, now).q.timers == b.q.timers
  {
  }

  lemma TerminalArmsNothing(db: Db, b: Db, id: nat, sched: nat, failed: bool, result: Blob, now: nat)
    ensures RecordActivityTerminal(db, b, id, sched, failed, result, now).b.q.timers == b.q.timers
  {
    hide AppendExternal;
    var b1 := b.(wf := b.wf.(done := b.wf.done + {EventKey(id, sched)}));
    ExternalArmsNothing(db, b1, id, if failed then ActivityFailed else ActivityCompleted,
        Outcome(sched, !failed, result), now);
  }

  lemma DeathArmsNothing(db: Db, b: Db, m: Message, gm: GroupMeta, reason: string, meta: map<string, string>, ts: nat)
    ensures NackDead(db, b, m, gm, reason, meta, ts).b.q.timers == b.q.timers
  {
    hide RecordActivityTerminal;
    var b1 := b.(q := DropMsg(PutDead(b.q, DlqKey(m.key, ts), DeadLetter(m, m.attempt, reason, meta, ts)), m.key));
    if m.payload.ActTask? {
      TerminalArmsNothing(db, b1, m.payload.run, m.payload.sched, true, Ascii("activity_dead_lettered: " + reason), ts);
    }
  }

  lemma DeadlineArmsNothing(db: Db, l: nat, epoch: nat, fireAt: nat)
    ensures Shrinks(db.q, FireDeadline(db, db, l, epoch, fireAt).q)
  {
  }

  lemma FireBodyArmsNothing(db: Db, t: Timer, fireAt: nat)
    requires t in db.q.timers
    ensures Shrinks(db.q, T.Fired1(db, t, fireAt).q)
  {
    hide NackDead;
    hide NackReady;
    hide RecordActivityTerminal;
    hide AppendExternal;
    hide EndLease;
    if t.ref.LeaseDeadline? {
      DeadlineArmsNothing(db, t.ref.lease, db.q.timers[t], fireAt);
    }
    hide FireDeadline;
    if t.ref.WfFired? {
      ExternalArmsNothing(db, db, t.ref.run, TimerFired, Fired(t.ref.started), fireAt);
    } else if t.ref.LeaseMaxLife? && Holds(db.q, t.ref.lease) {
      var row := db.q.leases[t.ref.lease];
      var gm := MetaOrZero(db.q, row.key.group);
      T.EndLeaseQueue(db, t.ref.lease, row);
      DeathArmsNothing(db, EndLease(db, t.ref.lease, row), db.q.messages[row.key], gm.(inflight := Decr(gm.inflight)),
          "max_lease_lifetime", map[], fireAt);
    } else if t.ref.MsgExpiry? && t.ref.key in db.q.messages {
      var m, gm := db.q.messages[t.ref.key], MetaOrZero(db.q, t.ref.key.group);
      DeathArmsNothing(db, db, m, if m.state == Ready then gm.(ready := Decr(gm.ready))
          else gm.(delayed := Decr(gm.delayed)), "ttl", map[], fireAt);
    }
  }

  /** A fire consumes its row and arms nothing; a row that is gone makes it a no-op. */
  lemma FireConsumes(db: Db, t: Timer, fireAt: nat)
    ensures var b := Step(db, Fire(t, fireAt)).b;
            Shrinks(db.q, b.q) && t !in b.q.timers && (t !in db.q.timers ==> b == db)
  {
    hide T.Fired1;
    hide FireReadyAt;
    hide FireDeadline;
    hide FireMaxLife;
    hide FireExpiry;
    hide FireDedup;
    hide AppendExternal;
    if t in db.q.timers {
      FireBodyArmsNothing(db, t, fireAt);
      T.FireIs(db, t, fireAt);
    }
  }

  // ----- Sweeps -----

  /** Fire each row of a batch, each in its own log entry and with its own stamp. */
  ghost function Sweep(db: Db, batch: seq<Timer>, stamps: seq<nat>): Db
    requires |batch| == |stamps|
    decreases |batch|
  {
    if batch == [] then db
    else
      var n := |batch| - 1;
      Step(Sweep(db, batch[..n], stamps[..n]), Fire(batch[n], stamps[n])).b
  }

  lemma {:induction false} SweepConsumes(db: Db, batch: seq<Timer>, stamps: seq<nat>)
    requires |batch| == |stamps|
    ensures Shrinks(db.q, Sweep(db, batch, stamps).q)
    ensures forall t :: t in batch ==> t !in Sweep(db, batch, stamps).q.timers
    decreases |batch|
  {
    hide Step;
    if batch != [] {
      var n := |batch| - 1;
      SweepConsumes(db, batch[..n], stamps[..n]);
      FireConsumes(Sweep(db, batch[..n], stamps[..n]), batch[n], stamps[n]);
      assert forall t :: t in batch ==> t in batch[..n] || t == batch[n];
    }
  }

  lemma {:induction false} SweepKeepsInv(db: Db, batch: seq<Timer>, stamps: seq<nat>)
    requires |batch| == |stamps| && M.Inv(db.q)
    ensures M.Inv(Sweep(db, batch, stamps).q)
    decreases |batch|
  {
    hide Step;
    hide M.Inv;
    if batch != [] {
      var n := |batch| - 1;
      SweepKeepsInv(db, batch[..n], stamps[..n]);
      T.StepKeepsInv(Sweep(db, batch[..n], stamps[..n]), Fire(batch[n], stamps[n]));
    }
  }

  /** The row's place in the time index: the byte order of its key. */
  function IndexKey(names: SR.Names, t: Timer): Blob {
    if SR.Fits(names, SR.AtTimer(t)) then Keys.Encode(SR.KeyOf(names, SR.AtTimer(t))) else []
  }

  predicate KeyedBefore(names: SR.Names, t: Timer, u: Timer) {
    Less(IndexKey(names, t), IndexKey(names, u))
  }

  /** Every timer has a key of its own. */
  ghost predicate Indexed(names: SR.Names, q: Queue) {
    SR.TellsApart(names) && forall t :: t in q.timers ==> SR.Fits(names, SR.AtTimer(t))
  }

  /** A sweep's batch: due rows in key order, as many as fit, none left out before one taken. */
  ghost predicate IsBatch(names: SR.Names, q: Queue, now: nat, batch: seq<Timer>) {
    && (forall i :: 0 <= i < |batch| ==> batch[i] in Due(q, now))
    && (forall i, j :: 0 <= i < j < |batch| ==> KeyedBefore(names, batch[i], batch[j]))
    && (|batch| == MAX_FIRE_BATCH || forall t :: t in Due(q, now) ==> t in batch)
    && (forall t, i :: t in Due(q, now) && t !in batch && 0 <= i < |batch| ==> KeyedBefore(names, batch[i], t))
  }

  /** Different timers have different keys, and an earlier due time an earlier key. */
  lemma KeyOrder(names: SR.Names, q: Queue, t: Timer, u: Timer)
    requires Indexed(names, q) && t in q.timers && u in q.timers
    ensures t == u || KeyedBefore(names, t, u) || KeyedBefore(names, u, t)
    ensures t.due < u.due ==> KeyedBefore(names, t, u)
    ensures KeyedBefore(names, t, u) ==> t != u && t.due <= u.due
  {
    hide Keys.Encode;
    hide Less;
    hide SR.Fits;
    LessTotal(IndexKey(names, t), IndexKey(names, u));
    if IndexKey(names, t) == IndexKey(names, u) { SR.PlacesApart(names, SR.AtTimer(t), SR.AtTimer(u)); }
    if t.due < u.due { DueFirst(names, t, u); }
    if u.due < t.due { DueFirst(names, u, t); }
  }

  lemma DueFirst(names: SR.Names, t: Timer, u: Timer)
    requires SR.Fits(names, SR.AtTimer(t)) && SR.Fits(names, SR.AtTimer(u)) && t.due < u.due
    ensures KeyedBefore(names, t, u)
  {
    Keys.TimerOrder(t.due, SR.RefOf(names, t.ref), u.due, SR.RefOf(names, u.ref));
    hide Keys.Encode;
  }

  /** Key order is order of due time, so no row is left out due before one taken. */
  lemma BatchInDueOrder(names: SR.Names, q: Queue, now: nat, batch: seq<Timer>)
    requires Indexed(names, q) && IsBatch(names, q, now, batch)
    ensures forall i, j :: 0 <= i < j < |batch| ==> batch[i] != batch[j] && batch[i].due <= batch[j].due
    ensures forall t, i :: t in Due(q, now) && t !in batch && 0 <= i < |batch| ==> batch[i].due <= t.due
  {
    hide KeyedBefore;
    hide Indexed;
    forall t, u | t in Due(q, now) && u in Due(q, now) && KeyedBefore(names, t, u) ensures t != u && t.due <= u.due {
      KeyOrder(names, q, t, u);
    }
  }

  lemma {:induction false} DistinctCount(s: seq<Timer>)
    requires forall i, j :: 0 <= i < j < |s| ==> s[i] != s[j]
    ensures |set t | t in s| == |s|
    decreases |s|
  {
    if s != [] {
      var n := |s| - 1;
      DistinctCount(s[..n]);
      assert (set t | t in s) == (set t | t in s[..n]) + {s[n]};
      assert s[n] !in s[..n];
    }
  }

  /** A sweep leaves exactly as many fewer due rows as it fired, or none. */
  lemma SweepProgress(names: SR.Names, db: Db, now: nat, batch: seq<Timer>, stamps: seq<nat>)
    requires IsBatch(names, db.q, now, batch) && |stamps| == |batch|
    ensures |Due(Sweep(db, batch, stamps).q, now)| <= |Due(db.q, now)| - |batch|
    ensures |batch| < MAX_FIRE_BATCH ==> Due(Sweep(db, batch, stamps).q, now) == {}
  {
    hide Sweep;
    var q' := Sweep(db, batch, stamps).q;
    SweepConsumes(db, batch, stamps);
    forall i, j | 0 <= i < j < |batch| ensures batch[i] != batch[j] {
      assert KeyedBefore(names, batch[i], batch[j]);
      LessTotal(IndexKey(names, batch[i]), IndexKey(names, batch[j]));
    }
    DistinctCount(batch);
    var fired := set t | t in batch;
    assert fired <= Due(db.q, now);
    SubsetCount(Due(q', now), Due(db.q, now) - fired);
  }

  lemma {:induction false} SubsetCount<T>(a: set<T>, b: set<T>)
    requires a <= b
    ensures |a| <= |b|
    decreases |a|
  {
    if x :| x in a { SubsetCount(a - {x}, b - {x}); }
  }

  // ----- A dry index -----

  /** With no due row left, every lease still runs and every delay is still pending. */
  lemma DryMeansNothingOverdue(q: Queue, now: nat)
    requires M.Inv(q) && Due(q, now) == {}
    ensures forall k :: k in q.messages && q.messages[k].state == Leased ==>
              q.messages[k].curLease in q.leases && q.leases[q.messages[k].curLease].deadline > now
    ensures forall k :: k in q.messages && q.messages[k].state == Delayed ==>
              exists due :: due > now && Timer(due, ReadyAt(k)) in q.timers
  {
    forall k | k in q.messages && q.messages[k].state == Leased
      ensures q.messages[k].curLease in q.leases && q.leases[q.messages[k].curLease].deadline > now
    {
      S.LeaseBijection(q);
      assert k in S.LeasedKeys(q);
      var l, t :| S.OneLease(q, k, l, t);
      assert t !in Due(q, now);
    }
    forall k | k in q.messages && q.messages[k].state == Delayed
      ensures exists due :: due > now && Timer(due, ReadyAt(k)) in q.timers
    {
      S.DelayedHasOneTimer(q, k);
      var due :| Timer(due, ReadyAt(k)) in q.timers;
      assert Timer(due, ReadyAt(k)) !in Due(q, now);
    }
  }

  /** Once every due time has passed, a drained store holds ready messages only. */
  lemma DrainedIsAllReady(q: Queue, now: nat)
    requires M.Inv(q) && Due(q, now) == {} && forall t :: t in q.timers ==> t.due <= now
    ensures forall k :: k in q.messages ==> q.messages[k].state == Ready
    ensures q.leases == map[]
  {
    assert forall t :: t in q.timers ==> t in Due(q, now);
    NoRowsNoHolders(q);
  }

  lemma NoRowsNoHolders(q: Queue)
    requires M.Inv(q) && forall t :: t !in q.timers
    ensures forall k :: k in q.messages ==> q.messages[k].state == Ready
    ensures q.leases == map[]
  {
    assert forall l :: l !in q.leases;
    assert forall k :: k in q.messages && q.messages[k].state == Delayed ==> M.HasReadyAt(q, k);
  }
}
