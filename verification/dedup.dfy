/** Producer idempotency over whole runs: sweeping closed windows is unobservable, and a
    window admits one message. */
module Dedup {
  import opened Bytes
  import opened Store
  import opened Commands
  import opened Handlers
  import B = Batch
  import F = Frames
  import S = Safety

  type Table = map<DedupKey, DedupRow>

  // ----- Stamps -----

  /** The leader stamps publishes and fires in nondecreasing order. */
  predicate StampedFrom(c: Command, t: nat) {
    match c
    case Publish(p) => t <= p.now
    case PublishBatch(items) =>
        forall i :: 0 <= i < |items| ==> t <= items[i].now && (i > 0 ==> items[i - 1].now <= items[i].now)
    case Fire(_, fireAt) => t <= fireAt
    case _ => true
  }

  function LastStamp(c: Command, t: nat): nat {
    match c
    case Publish(p) => p.now
    case PublishBatch(items) => if items == [] then t else items[|items| - 1].now
    case Fire(_, fireAt) => fireAt
    case _ => t
  }

  function Clock(log: seq<Command>): nat
    decreases |log|
  {
    if log == [] then 0 else LastStamp(log[|log| - 1], Clock(log[..|log| - 1]))
  }

  ghost predicate Timely(log: seq<Command>)
    decreases |log|
  {
    log == [] || (Timely(log[..|log| - 1]) && StampedFrom(log[|log| - 1], Clock(log[..|log| - 1])))
  }

  lemma StampGrows(c: Command, t: nat)
    requires StampedFrom(c, t)
    ensures t <= LastStamp(c, t)
    ensures c.PublishBatch? ==> forall i :: 0 <= i < |c.items| ==> c.items[i].now <= LastStamp(c, t)
  {
    if c.PublishBatch? { SortedStamps(c.items); }
  }

  lemma {:induction false} SortedStamps(items: seq<PublishCmd>)
    requires forall i :: 0 < i < |items| ==> items[i - 1].now <= items[i].now
    ensures forall i :: 0 <= i < |items| ==> items[i].now <= items[|items| - 1].now
    decreases |items|
  {
    if items != [] { SortedStamps(items[..|items| - 1]); }
  }

  // ----- Sweeping is unobservable -----

  /** The row of a key whose window is open at t. */
  function Open(d: Table, k: DedupKey, t: nat): Option<DedupRow> {
    if k in d && d[k].expiry > t then Some(d[k]) else None
  }

  ghost predicate Agree(d: Table, u: Table, t: nat) {
    forall k :: Open(d, k, t) == Open(u, k, t)
  }

  /** The table of a store that never sweeps but is otherwise the same. */
  ghost function Unswept(db: Db, u: Table, c: Command): Table {
    if c.Fire? then u else Step(db.(dedup := u), c).b.dedup
  }

  ghost function UnsweptAfter(log: seq<Command>): Table
    decreases |log|
  {
    if log == [] then map[]
    else Unswept(S.After(EMPTY_DB, log[..|log| - 1]), UnsweptAfter(log[..|log| - 1]), log[|log| - 1])
  }

  lemma SameCheck(d: Table, u: Table, t: nat, c: PublishCmd)
    requires Agree(d, u, t) && t <= c.now
    ensures CheckDedup(d, c) == CheckDedup(u, c)
  {
    assert Open(d, B.DedupOf(c), t) == Open(u, B.DedupOf(c), t);
  }

  lemma SameWrite(d: Table, u: Table, t: nat, k: DedupKey, row: DedupRow)
    requires Agree(d, u, t)
    ensures Agree(d[k := row], u[k := row], t)
  {
    var d', u' := d[k := row], u[k := row];
    forall x ensures Open(d', x, t) == Open(u', x, t) {
      assert Open(d, x, t) == Open(u, x, t);
    }
  }

  lemma AgreeLater(d: Table, u: Table, t: nat, t': nat)
    requires Agree(d, u, t) && t <= t'
    ensures Agree(d, u, t')
  {
    forall x ensures Open(d, x, t') == Open(u, x, t') {
      assert Open(d, x, t) == Open(u, x, t);
    }
  }

  /** The two stores differ in their dedup tables only, and those agree on open windows. */
  ghost predicate Alike(b: Db, b': Db, t: nat) {
    b' == b.(dedup := b'.dedup) && Agree(b.dedup, b'.dedup, t)
  }

  lemma RecordAlike(b: Db, b': Db, c: PublishCmd, id: nat, t: nat)
    requires Alike(b, b', t)
    ensures Alike(RecordDedup(b, c, id), RecordDedup(b', c, id), t)
  {
    hide Agree;
    SameWrite(b.dedup, b'.dedup, t, DedupKey(c.group.lane, c.dedupKey), DedupRow(id, c.dedupExpiry));
  }

  lemma PublishAlike(db: Db, u: Table, p: PublishCmd, t: nat)
    requires Agree(db.dedup, u, t) && t <= p.now
    ensures var du := db.(dedup := u);
            && ApplyPublish(du, du, p).res == ApplyPublish(db, db, p).res
            && Alike(ApplyPublish(db, db, p).b, ApplyPublish(du, du, p).b, t)
  {
    hide Agree;
    hide RecordDedup;
    hide MetaAfterPublish;
    hide PublishOne;
    hide CheckDedup;
    SameCheck(db.dedup, u, t, p);
    var du := db.(dedup := u);
    var gm := LoadMeta(db.q, p.group);
    RecordAlike(Publishing(db, p, gm), Publishing(du, p, gm), p, gm.nextSeq, t);
  }

  lemma AddAlike(s: BatchState, s': BatchState, c: PublishCmd, g: Group, gm: GroupMeta, t: nat)
    requires Alike(s.b, s'.b, t) && s' == s.(b := s'.b)
    ensures var r, r' := BatchAdd(s, c, g, gm), BatchAdd(s', c, g, gm);
            Alike(r.b, r'.b, t) && r' == r.(b := r'.b)
  {
    hide RecordDedup;
    hide MetaAfterPublish;
    hide PublishOne;
    hide Agree;
    RecordAlike(s.b.(q := PublishOne(s.b.q, c, gm)), s'.b.(q := PublishOne(s.b.q, c, gm)), c, gm.nextSeq, t);
  }

  lemma {:induction false} BatchAlike(db: Db, u: Table, items: seq<PublishCmd>, n: nat, t: nat)
    requires Agree(db.dedup, u, t) && n <= |items| && forall i :: 0 <= i < |items| ==> t <= items[i].now
    ensures var du := db.(dedup := u);
            var s, s' := BatchUpTo(db, db, items, n), BatchUpTo(du, du, items, n);
            Alike(s.b, s'.b, t) && s' == s.(b := s'.b)
  {
    hide Agree;
    hide BatchAdd;
    hide CheckDedup;
    if n > 0 {
      BatchAlike(db, u, items, n - 1, t);
      var du, c := db.(dedup := u), items[n - 1];
      var s, s' := BatchUpTo(db, db, items, n - 1), BatchUpTo(du, du, items, n - 1);
      SameCheck(db.dedup, u, t, c);
      var gk := Joined(c.group.lane, c.group.name);
      var (g, gm) := if gk in s.cache then s.cache[gk] else (c.group, LoadMeta(db.q, c.group));
      AddAlike(s, s', c, g, gm, t);
    }
  }

  lemma WholeBatchAlike(db: Db, u: Table, items: seq<PublishCmd>, t: nat)
    requires Agree(db.dedup, u, t) && forall i :: 0 <= i < |items| ==> t <= items[i].now
    ensures var du := db.(dedup := u);
            && ApplyPublishBatch(du, du, items).res == ApplyPublishBatch(db, db, items).res
            && Alike(ApplyPublishBatch(db, db, items).b, ApplyPublishBatch(du, du, items).b, t)
  {
    hide Agree;
    hide Persisted;
    BatchAlike(db, u, items, |items|, t);
  }

  /** A sweep takes out a closed window only; a renewed key survives its older timer. */
  lemma SweepTakesClosed(d: Table, db: Db, lane: string, key: string, fireAt: nat)
    requires d == FireDedup(db, db, lane, key, fireAt).dedup
    ensures Agree(db.dedup, d, fireAt)
  {
  }

  /** A sweep that fires takes out its window's row if and only if that window is closed by
      then, and no other row. */
  lemma SweepIff(db: Db, t: Timer, fireAt: nat)
    requires t in db.q.timers && t.ref.DedupExpiry?
    ensures var d, w := Step(db, Fire(t, fireAt)).b.dedup, DedupKey(t.ref.lane, t.ref.dedup);
            && (forall k :: k in d <==> k in db.dedup && (k == w ==> db.dedup[k].expiry > fireAt))
            && forall k :: k in d ==> d[k] == db.dedup[k]
  {
  }

  lemma AgreeThrough(d: Table, d': Table, u: Table, t: nat)
    requires Agree(d, d', t) && Agree(d, u, t)
    ensures Agree(d', u, t)
  {
    forall k ensures Open(d', k, t) == Open(u, k, t) {
      assert Open(d, k, t) == Open(d', k, t) && Open(d, k, t) == Open(u, k, t);
    }
  }

  lemma PublishesAgree(db: Db, u: Table, c: Command, t: nat)
    requires Agree(db.dedup, u, t) && StampedFrom(c, t) && (c.Publish? || c.PublishBatch?)
    ensures Step(db.(dedup := u), c).res == Step(db, c).res
    ensures Alike(Step(db, c).b, Step(db.(dedup := u), c).b, t)
  {
    hide Agree;
    hide Alike;
    hide ApplyPublish;
    hide ApplyPublishBatch;
    if c.Publish? {
      PublishAlike(db, u, c.p, t);
    } else {
      WholeBatchAlike(db, u, c.items, t);
    }
  }

  lemma StepAgrees(db: Db, u: Table, c: Command, t: nat)
    requires Agree(db.dedup, u, t) && StampedFrom(c, t)
    ensures Agree(Step(db, c).b.dedup, Unswept(db, u, c), LastStamp(c, t))
    ensures c.Publish? || c.PublishBatch? ==> Step(db.(dedup := u), c).res == Step(db, c).res
  {
    hide Agree;
    StampGrows(c, t);
    F.StepKeepsRest(db, c);
    F.StepKeepsRest(db.(dedup := u), c);
    if c.Publish? || c.PublishBatch? {
      PublishesAgree(db, u, c, t);
      hide Step;
      AgreeLater(Step(db, c).b.dedup, Unswept(db, u, c), t, LastStamp(c, t));
    } else if c.Fire? {
      F.FireKeepsRest(db, c.timer, c.fireAt);
      AgreeLater(db.dedup, u, t, c.fireAt);
      hide ApplyFire;
      hide FireDedup;
      if c.timer in db.q.timers && c.timer.ref.DedupExpiry? {
        SweepTakesClosed(Step(db, c).b.dedup, db, c.timer.ref.lane, c.timer.ref.dedup, c.fireAt);
        AgreeThrough(db.dedup, Step(db, c).b.dedup, u, c.fireAt);
      }
    } else {
      hide Step;
      AgreeLater(db.dedup, u, t, LastStamp(c, t));
    }
  }

  /** Over a run with nondecreasing stamps, a publish is answered as if no expired row had
      ever been swept. */
  lemma {:induction false} SweepingUnobservable(log: seq<Command>, c: Command)
    requires Timely(log) && StampedFrom(c, Clock(log))
    ensures Agree(S.After(EMPTY_DB, log).dedup, UnsweptAfter(log), Clock(log))
    ensures c.Publish? || c.PublishBatch? ==>
              Step(S.After(EMPTY_DB, log).(dedup := UnsweptAfter(log)), c).res == Step(S.After(EMPTY_DB, log), c).res
    decreases |log|
  {
    hide Step;
    hide StampedFrom;
    hide LastStamp;
    if log == [] {
      assert Agree(EMPTY_DB.dedup, map[], 0);
    } else {
      var init, last := log[..|log| - 1], log[|log| - 1];
      SweepingUnobservable(init, last);
      StepAgrees(S.After(EMPTY_DB, init), UnsweptAfter(init), last, Clock(init));
    }
    StepAgrees(S.After(EMPTY_DB, log), UnsweptAfter(log), c, Clock(log));
  }

  // ----- One message per window -----

  /** The publishes a command carries. */
  function ItemsOf(c: Command): seq<PublishCmd> {
    match c
    case Publish(p) => [p]
    case PublishBatch(items) => items
    case _ => []
  }

  /** The command enqueues its n-th publish rather than answering with an earlier id. */
  ghost predicate Accepts(db: Db, c: Command, n: nat)
    requires n < |ItemsOf(c)|
  {
    if c.Publish? then c.p.dedupKey == "" || CheckDedup(db.dedup, c.p).None?
    else !B.Skipped(db, BatchUpTo(db, db, c.items, n), c.items[n])
  }

  /** By stamp t the window [.., e) of key k has passed, or the store still holds its row. */
  predicate Held(d: Table, k: DedupKey, e: nat, t: nat) {
    e <= t || (k in d && d[k].expiry >= e)
  }

  ghost predicate WindowOf(x: PublishCmd, k: DedupKey, e: nat) {
    x.dedupKey != "" && B.DedupOf(x) == k && x.dedupExpiry == e && e > x.now
  }

  lemma AcceptedMeansOver(db: Db, c: Command, n: nat, k: DedupKey, e: nat, t: nat)
    requires n < |ItemsOf(c)| && Accepts(db, c, n) && StampedFrom(c, t) && Held(db.dedup, k, e, t)
    requires ItemsOf(c)[n].dedupKey != "" && B.DedupOf(ItemsOf(c)[n]) == k
    ensures e <= ItemsOf(c)[n].now
  {
    hide BatchUpTo;
  }

  lemma AddHeld(s: BatchState, c: PublishCmd, g: Group, gm: GroupMeta, k: DedupKey, e: nat, t: nat)
    requires Held(s.b.dedup, k, e, t)
    requires c.dedupKey != "" && B.DedupOf(c) == k ==> e <= t
    ensures Held(BatchAdd(s, c, g, gm).b.dedup, k, e, t)
  {
    hide PublishOne;
    hide MetaAfterPublish;
  }

  lemma {:induction false} BatchHeld(db: Db, items: seq<PublishCmd>, n: nat, k: DedupKey, e: nat, t: nat, t': nat)
    requires n <= |items| && StampedFrom(PublishBatch(items), t) && Held(db.dedup, k, e, t) && t <= t'
    requires forall i :: 0 <= i < |items| ==> items[i].now <= t'
    ensures Held(BatchUpTo(db, db, items, n).b.dedup, k, e, t')
    decreases n
  {
    hide BatchAdd;
    if n > 0 {
      BatchHeld(db, items, n - 1, k, e, t, t');
      var s, c := BatchUpTo(db, db, items, n - 1), items[n - 1];
      var gk := Joined(c.group.lane, c.group.name);
      var (g, gm) := if gk in s.cache then s.cache[gk] else (c.group, LoadMeta(db.q, c.group));
      if !B.Skipped(db, s, c) {
        AddHeld(s, c, g, gm, k, e, t');
      }
    }
  }

  lemma PublishHeld(db: Db, p: PublishCmd, k: DedupKey, e: nat, t: nat)
    requires t <= p.now && Held(db.dedup, k, e, t)
    ensures Held(ApplyPublish(db, db, p).b.dedup, k, e, p.now)
  {
    hide PublishOne;
    hide MetaAfterPublish;
  }

  /** A row outlives its window whatever the command does. */
  lemma StepHeld(db: Db, c: Command, k: DedupKey, e: nat, t: nat)
    requires StampedFrom(c, t) && Held(db.dedup, k, e, t)
    ensures Held(Step(db, c).b.dedup, k, e, LastStamp(c, t))
  {
    StampGrows(c, t);
    F.StepKeepsRest(db, c);
    if c.Publish? {
      PublishHeld(db, c.p, k, e, t);
    } else if c.PublishBatch? {
      hide BatchUpTo;
      BatchHeld(db, c.items, |c.items|, k, e, t, LastStamp(c, t));
    } else if c.Fire? {
      F.FireKeepsRest(db, c.timer, c.fireAt);
      hide ApplyFire;
    } else {
      hide Step;
    }
  }

  lemma AddRecords(s: BatchState, c: PublishCmd, g: Group, gm: GroupMeta, k: DedupKey, e: nat)
    requires WindowOf(c, k, e)
    ensures Held(BatchAdd(s, c, g, gm).b.dedup, k, e, 0)
  {
    hide PublishOne;
    hide MetaAfterPublish;
  }

  lemma {:induction false} BatchRecords(db: Db, items: seq<PublishCmd>, i: nat, n: nat, k: DedupKey, e: nat)
    requires i < n <= |items| && !B.Skipped(db, BatchUpTo(db, db, items, i), items[i]) && WindowOf(items[i], k, e)
    requires forall j :: i < j < n && items[j].dedupKey != "" && B.DedupOf(items[j]) == k ==>
               B.Skipped(db, BatchUpTo(db, db, items, j), items[j])
    ensures Held(BatchUpTo(db, db, items, n).b.dedup, k, e, 0)
    decreases n
  {
    hide BatchAdd;
    hide CheckDedup;
    hide Held;
    var s, c := BatchUpTo(db, db, items, n - 1), items[n - 1];
    var gk := Joined(c.group.lane, c.group.name);
    var (g, gm) := if gk in s.cache then s.cache[gk] else (c.group, LoadMeta(db.q, c.group));
    if n - 1 == i {
      AddRecords(s, c, g, gm, k, e);
    } else {
      BatchRecords(db, items, i, n - 1, k, e);
      if !B.Skipped(db, s, c) { AddHeld(s, c, g, gm, k, e, 0); }
    }
  }

  /** Within a batch, a key accepted once is skipped ever after. */
  lemma {:induction false} BatchSeen(db: Db, items: seq<PublishCmd>, i: nat, n: nat)
    requires i < n <= |items| && !B.Skipped(db, BatchUpTo(db, db, items, i), items[i]) && items[i].dedupKey != ""
    ensures Joined(items[i].group.lane, items[i].dedupKey) in BatchUpTo(db, db, items, n).seen
    decreases n
  {
    hide RecordDedup;
    hide PublishOne;
    hide MetaAfterPublish;
    hide CheckDedup;
    if n - 1 > i { BatchSeen(db, items, i, n - 1); }
  }

  lemma AcceptRecords(db: Db, c: Command, n: nat, k: DedupKey, e: nat)
    requires n < |ItemsOf(c)| && Accepts(db, c, n) && WindowOf(ItemsOf(c)[n], k, e)
    ensures Held(Step(db, c).b.dedup, k, e, 0)
  {
    hide PublishOne;
    hide MetaAfterPublish;
    if c.PublishBatch? {
      forall j | n < j < |c.items| && c.items[j].dedupKey != "" && B.DedupOf(c.items[j]) == k
        ensures B.Skipped(db, BatchUpTo(db, db, c.items, j), c.items[j])
      {
        BatchSeen(db, c.items, n, j);
      }
      BatchRecords(db, c.items, n, |c.items|, k, e);
    }
  }

  lemma {:induction false} HeldSince(log: seq<Command>, i: nat, n: nat, k: DedupKey, e: nat)
    requires Timely(log) && i < |log| && n < |ItemsOf(log[i])|
    requires Accepts(S.After(EMPTY_DB, log[..i]), log[i], n) && WindowOf(ItemsOf(log[i])[n], k, e)
    ensures Held(S.After(EMPTY_DB, log).dedup, k, e, Clock(log))
    decreases |log|
  {
    hide Step;
    hide Accepts;
    hide StampedFrom;
    hide LastStamp;
    var init, last := log[..|log| - 1], log[|log| - 1];
    if i == |log| - 1 {
      AcceptRecords(S.After(EMPTY_DB, init), last, n, k, e);
    } else {
      assert init[..i] == log[..i];
      HeldSince(init, i, n, k, e);
      StepHeld(S.After(EMPTY_DB, init), last, k, e, Clock(init));
    }
  }

  lemma TimelyAt(log: seq<Command>, j: nat)
    requires Timely(log) && j < |log|
    ensures Timely(log[..j]) && StampedFrom(log[j], Clock(log[..j]))
  {
    hide StampedFrom;
    TimelyPrefix(log, j);
    TimelyPrefix(log, j + 1);
    assert log[..j + 1][..j] == log[..j];
  }

  /** Two items of one command with the same key are not both accepted. */
  lemma OnePerBatch(db: Db, c: Command, n: nat, m: nat)
    requires n < m < |ItemsOf(c)| && Accepts(db, c, n) && ItemsOf(c)[n].dedupKey != "" && ItemsOf(c)[m].dedupKey != ""
    requires B.DedupOf(ItemsOf(c)[m]) == B.DedupOf(ItemsOf(c)[n])
    ensures !Accepts(db, c, m)
  {
    BatchSeen(db, c.items, n, m);
    hide BatchUpTo;
    hide CheckDedup;
  }

  /** Once a publish is accepted, no later publish of the same key is accepted before the
      window it opened has closed: at most one message per (lane, key) per window. */
  lemma OnePerWindow(log: seq<Command>, i: nat, n: nat, j: nat, m: nat, k: DedupKey, e: nat)
    requires Timely(log) && i < |log| && j < |log| && n < |ItemsOf(log[i])| && m < |ItemsOf(log[j])|
    requires i < j || (i == j && n < m)
    requires Accepts(S.After(EMPTY_DB, log[..i]), log[i], n) && WindowOf(ItemsOf(log[i])[n], k, e)
    requires ItemsOf(log[j])[m].dedupKey != "" && B.DedupOf(ItemsOf(log[j])[m]) == k
    requires Accepts(S.After(EMPTY_DB, log[..j]), log[j], m)
    ensures i < j && e <= ItemsOf(log[j])[m].now
  {
    hide Step;
    hide Accepts;
    hide Timely;
    hide StampedFrom;
    hide S.After;
    if i == j {
      OnePerBatch(S.After(EMPTY_DB, log[..i]), log[i], n, m);
    } else {
      TimelyAt(log, j);
      assert log[..j][..i] == log[..i];
      HeldSince(log[..j], i, n, k, e);
      AcceptedMeansOver(S.After(EMPTY_DB, log[..j]), log[j], m, k, e, Clock(log[..j]));
    }
  }

  lemma {:induction false} TimelyPrefix(log: seq<Command>, n: nat)
    requires Timely(log) && n <= |log|
    ensures Timely(log[..n])
    decreases |log|
  {
    if n == |log| {
      assert log[..n] == log;
    } else {
      TimelyPrefix(log[..|log| - 1], n);
      assert log[..|log| - 1][..n] == log[..n];
    }
  }
}
