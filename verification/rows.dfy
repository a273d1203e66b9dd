/** The typed store as rows of bytes: what a snapshot of the bytes carries over to another
    node is the store that replay speaks of. */
module StoreRows {
  import opened Bytes
  import opened Store
  import Keys
  import R = Replay
  import P = Snapshot

  // ----- Rows and where they lie -----

  datatype Place =
    | AtApplied | AtNextLease | AtNextRun
    | AtMessage(msg: MsgKey) | AtGroup(group: Group) | AtLease(lease: nat) | AtTimer(timer: Timer)
    | AtDead(dead: DlqKey)
    | AtToken(hash: Blob) | AtDedup(dedup: DedupKey) | AtSingleton(name: string)
    | AtRun(run: nat) | AtEvent(event: EventKey) | AtDone(done: EventKey)

  datatype Row =
    | CounterRow(value: nat) | MessageRow(msg: Message) | GroupRow(meta: GroupMeta) | LeaseRow(lease: Lease)
    | TimerRow(epoch: nat) | DeadRow(letter: DeadLetter) | TokenRow(lid: nat) | WindowRow(window: DedupRow)
    | SingletonRow(rec: SingletonRec) | RunRow(run: Run) | EventRow(event: Event) | DoneRow

  function Look<K, V>(m: map<K, V>, k: K): Option<V> {
    if k in m then Some(m[k]) else None
  }

  function As<V>(v: Option<V>, row: V -> Row): Option<Row> {
    if v.Some? then Some(row(v.value)) else None
  }

  /** The node's row at a place; the two counters are written from their second value on. */
  function RowAt(n: R.Node, p: Place): Option<Row> {
    match p
    case AtApplied => As(n.row, v => CounterRow(v))
    case AtNextLease => if n.db.q.nextLease == 1 then None else Some(CounterRow(n.db.q.nextLease))
    case AtNextRun => if n.db.wf.nextRun == 1 then None else Some(CounterRow(n.db.wf.nextRun))
    case AtMessage(k) => As(Look(n.db.q.messages, k), v => MessageRow(v))
    case AtGroup(g) => As(Look(n.db.q.groups, g), v => GroupRow(v))
    case AtLease(l) => As(Look(n.db.q.leases, l), v => LeaseRow(v))
    case AtTimer(t) => As(Look(n.db.q.timers, t), v => TimerRow(v))
    case AtDead(d) => As(Look(n.db.q.dlq, d), v => DeadRow(v))
    case AtToken(h) => As(Look(n.db.tokens, h), v => TokenRow(v))
    case AtDedup(k) => As(Look(n.db.dedup, k), v => WindowRow(v))
    case AtSingleton(s) => As(Look(n.db.singletons, s), v => SingletonRow(v))
    case AtRun(r) => As(Look(n.db.wf.runs, r), v => RunRow(v))
    case AtEvent(e) => As(Look(n.db.wf.history, e), v => EventRow(v))
    case AtDone(e) => if e in n.db.wf.done then Some(DoneRow) else None
  }

  // ----- Their keys -----

  type Names = string -> Keys.Name

  ghost predicate TellsApart(names: Names) {
    forall s, t :: names(s) == names(t) ==> s == t
  }

  predicate Word(v: nat) {
    v < Pow256(8)
  }

  predicate ShortName(names: Names, s: string) {
    |names(s)| < Keys.LP_LIMIT
  }

  predicate MsgFits(names: Names, k: MsgKey) {
    ShortName(names, k.group.lane) && ShortName(names, k.group.name) && Word(k.id)
  }

  predicate RefFits(names: Names, r: Ref) {
    match r
    case ReadyAt(k) => MsgFits(names, k)
    case LeaseDeadline(l) => Word(l)
    case DedupExpiry(lane, _) => ShortName(names, lane)
    case LeaseMaxLife(l) => Word(l)
    case WfFired(run, started) => Word(run) && Word(started)
    case MsgExpiry(k) => MsgFits(names, k)
  }

  /** The place's names and numbers fit the key format. */
  predicate Fits(names: Names, p: Place) {
    match p
    case AtMessage(k) => MsgFits(names, k)
    case AtGroup(g) => ShortName(names, g.lane) && ShortName(names, g.name)
    case AtLease(l) => Word(l)
    case AtTimer(t) => Word(t.due) && RefFits(names, t.ref)
    case AtDead(d) => MsgFits(names, d.key) && Word(d.deadTs)
    case AtDedup(k) => ShortName(names, k.lane)
    case AtRun(r) => Word(r)
    case AtEvent(e) => Word(e.run) && Word(e.id)
    case AtDone(e) => Word(e.run) && Word(e.id)
    case _ => true
  }

  function RefOf(names: Names, r: Ref): Keys.Ref
    requires RefFits(names, r)
  {
    match r
    case ReadyAt(k) => Keys.ReadyAt(names(k.group.lane), names(k.group.name), k.id)
    case LeaseDeadline(l) => Keys.LeaseDeadline(l)
    case DedupExpiry(lane, key) => Keys.DedupExpiry(names(lane), names(key))
    case LeaseMaxLife(l) => Keys.LeaseMaxLife(l)
    case WfFired(run, started) => Keys.WfFired(run, started)
    case MsgExpiry(k) => Keys.MsgExpiry(names(k.group.lane), names(k.group.name), k.id)
  }

  const APPLIED_NAME: Keys.Name := P.APPLIED_INDEX[1..]
  const LEASE_NAME: Keys.Name := [0x6E, 0x65, 0x78, 0x74, 0x5F, 0x6C, 0x65, 0x61, 0x73, 0x65, 0x5F, 0x69, 0x64]
  const RUN_NAME: Keys.Name := [0x6E, 0x65, 0x78, 0x74, 0x5F, 0x72, 0x75, 0x6E, 0x5F, 0x69, 0x64]

  function KeyOf(names: Names, p: Place): Keys.Key
    requires Fits(names, p)
  {
    match p
    case AtApplied => Keys.Meta(APPLIED_NAME)
    case AtNextLease => Keys.Meta(LEASE_NAME)
    case AtNextRun => Keys.Meta(RUN_NAME)
    case AtMessage(k) => Keys.Message(names(k.group.lane), names(k.group.name), k.id)
    case AtGroup(g) => Keys.GroupMeta(names(g.lane), names(g.name))
    case AtLease(l) => Keys.Lease(l)
    case AtTimer(t) => Keys.TimeIndex(t.due, RefOf(names, t.ref))
    case AtDead(d) => Keys.DLQ(names(d.key.group.lane), names(d.key.group.name), d.deadTs, d.key.id)
    case AtToken(h) => Keys.Token(h)
    case AtDedup(k) => Keys.Dedup(names(k.lane), names(k.key))
    case AtSingleton(s) => Keys.Singleton(names(s))
    case AtRun(r) => Keys.WfRun(r)
    case AtEvent(e) => Keys.WfHistory(e.run, e.id)
    case AtDone(e) => Keys.WfActivityDone(e.run, e.id)
  }

  lemma NamesDiffer()
    ensures APPLIED_NAME != LEASE_NAME && LEASE_NAME != RUN_NAME && APPLIED_NAME != RUN_NAME
  {
    assert |APPLIED_NAME| == 13 && |LEASE_NAME| == 13 && |RUN_NAME| == 11;
    assert APPLIED_NAME[0] == 0x61 && LEASE_NAME[0] == 0x6E;
  }

  lemma RefApart(names: Names, r: Ref, s: Ref)
    requires TellsApart(names) && RefFits(names, r) && RefFits(names, s) && RefOf(names, r) == RefOf(names, s)
    ensures r == s
  {
  }

  lemma KeysApart(names: Names, p: Place, p': Place)
    requires TellsApart(names) && Fits(names, p) && Fits(names, p') && KeyOf(names, p) == KeyOf(names, p')
    ensures p == p'
  {
    NamesDiffer();
    hide RefOf;
    hide Pow256;
    if p.AtTimer? && p'.AtTimer? { RefApart(names, p.timer.ref, p'.timer.ref); }
  }

  lemma KeyFits(names: Names, p: Place)
    requires Fits(names, p)
    ensures Keys.Fits(KeyOf(names, p))
  {
  }

  /** Different places have different keys, as bytes. */
  lemma PlacesApart(names: Names, p: Place, p': Place)
    requires TellsApart(names) && Fits(names, p) && Fits(names, p')
    requires Keys.Encode(KeyOf(names, p)) == Keys.Encode(KeyOf(names, p'))
    ensures p == p'
  {
    hide *;
    KeyFits(names, p);
    KeyFits(names, p');
    Keys.EncodeInjective(KeyOf(names, p), KeyOf(names, p'));
    KeysApart(names, p, p');
  }

  // ----- The node as bytes -----

  /** How a row's value is written, and which values the format can carry. */
  datatype Codec = Codec(enc: Row -> Blob, carries: Row -> bool)

  predicate SameTable(r: Row, s: Row) {
    match r
    case CounterRow(_) => s.CounterRow?
    case MessageRow(_) => s.MessageRow?
    case GroupRow(_) => s.GroupRow?
    case LeaseRow(_) => s.LeaseRow?
    case TimerRow(_) => s.TimerRow?
    case DeadRow(_) => s.DeadRow?
    case TokenRow(_) => s.TokenRow?
    case WindowRow(_) => s.WindowRow?
    case SingletonRow(_) => s.SingletonRow?
    case RunRow(_) => s.RunRow?
    case EventRow(_) => s.EventRow?
    case DoneRow => s.DoneRow?
  }

  /** Carried rows of one table read back as they were written; counters are eight bytes. */
  ghost predicate ReadsBack(c: Codec) {
    && (forall r, s :: SameTable(r, s) && !r.CounterRow? && c.carries(r) && c.carries(s) && c.enc(r) == c.enc(s) ==>
         r == s)
    && (forall v: nat :: Word(v) ==> c.enc(CounterRow(v)) == BE(8, v))
  }

  predicate RowFits(c: Codec, r: Row) {
    c.carries(r) && (r.CounterRow? ==> Word(r.value))
  }

  /** Every row of the node has a key and a value of the format. */
  ghost predicate InRange(names: Names, c: Codec, n: R.Node) {
    forall p :: RowAt(n, p).Some? ==> Fits(names, p) && RowFits(c, RowAt(n, p).value)
  }

  predicate HoldsAt(names: Names, c: Codec, m: P.Kv, n: R.Node, p: Place)
    requires Fits(names, p)
  {
    var k := Keys.Encode(KeyOf(names, p));
    if RowAt(n, p).Some? then k in m && m[k] == c.enc(RowAt(n, p).value) else k !in m
  }

  /** The bytes hold the node's rows, and nothing else where the node has its rows. */
  ghost predicate Holds(names: Names, c: Codec, m: P.Kv, n: R.Node) {
    forall p :: Fits(names, p) ==> HoldsAt(names, c, m, n, p)
  }

  lemma SamePlaceSameTable(n: R.Node, n': R.Node, p: Place)
    requires RowAt(n, p).Some? && RowAt(n', p).Some?
    ensures SameTable(RowAt(n, p).value, RowAt(n', p).value)
  {
  }

  lemma CounterBack(v: nat, w: nat)
    requires Word(v) && Word(w) && BE(8, v) == BE(8, w)
    ensures v == w
  {
    BERoundTrip(8, v);
    BERoundTrip(8, w);
  }

  lemma RowBack(c: Codec, r: Row, s: Row)
    requires ReadsBack(c) && SameTable(r, s) && c.enc(r) == c.enc(s) && RowFits(c, r) && RowFits(c, s)
    ensures r == s
  {
    if r.CounterRow? { CounterBack(r.value, s.value); }
  }

  /** Nodes with the same rows are the same. */
  lemma RowsDecide(n: R.Node, n': R.Node)
    requires forall p :: RowAt(n, p) == RowAt(n', p)
    ensures n.db == n'.db && n.row == n'.row
  {
    forall p ensures RowAt(n, p) == RowAt(n', p) {}
    assert RowAt(n, AtApplied) == RowAt(n', AtApplied) && RowAt(n, AtNextLease) == RowAt(n', AtNextLease)
        && RowAt(n, AtNextRun) == RowAt(n', AtNextRun);
    SameQueueRows(n, n');
    SameOtherRows(n, n');
  }

  lemma SameQueueRows(n: R.Node, n': R.Node)
    requires forall p :: RowAt(n, p) == RowAt(n', p)
    ensures n.db.q.messages == n'.db.q.messages && n.db.q.groups == n'.db.q.groups && n.db.q.leases == n'.db.q.leases
    ensures n.db.q.timers == n'.db.q.timers && n.db.q.dlq == n'.db.q.dlq
  {
    forall k ensures Look(n.db.q.messages, k) == Look(n'.db.q.messages, k) {
      assert RowAt(n, AtMessage(k)) == RowAt(n', AtMessage(k));
    }
    forall k ensures Look(n.db.q.groups, k) == Look(n'.db.q.groups, k) {
      assert RowAt(n, AtGroup(k)) == RowAt(n', AtGroup(k));
    }
    forall k ensures Look(n.db.q.leases, k) == Look(n'.db.q.leases, k) {
      assert RowAt(n, AtLease(k)) == RowAt(n', AtLease(k));
    }
    forall k ensures Look(n.db.q.timers, k) == Look(n'.db.q.timers, k) {
      assert RowAt(n, AtTimer(k)) == RowAt(n', AtTimer(k));
    }
    forall k ensures Look(n.db.q.dlq, k) == Look(n'.db.q.dlq, k) { assert RowAt(n, AtDead(k)) == RowAt(n', AtDead(k)); }
    SameLook(n.db.q.messages, n'.db.q.messages);
    SameLook(n.db.q.groups, n'.db.q.groups);
    SameLook(n.db.q.leases, n'.db.q.leases);
    SameLook(n.db.q.timers, n'.db.q.timers);
    SameLook(n.db.q.dlq, n'.db.q.dlq);
  }

  lemma SameOtherRows(n: R.Node, n': R.Node)
    requires forall p :: RowAt(n, p) == RowAt(n', p)
    ensures n.db.tokens == n'.db.tokens && n.db.dedup == n'.db.dedup && n.db.singletons == n'.db.singletons
    ensures n.db.wf.runs == n'.db.wf.runs && n.db.wf.history == n'.db.wf.history && n.db.wf.done == n'.db.wf.done
  {
    forall k ensures Look(n.db.tokens, k) == Look(n'.db.tokens, k) {
      assert RowAt(n, AtToken(k)) == RowAt(n', AtToken(k));
    }
    forall k ensures Look(n.db.dedup, k) == Look(n'.db.dedup, k) {
      assert RowAt(n, AtDedup(k)) == RowAt(n', AtDedup(k));
    }
    forall k ensures Look(n.db.singletons, k) == Look(n'.db.singletons, k) {
      assert RowAt(n, AtSingleton(k)) == RowAt(n', AtSingleton(k));
    }
    forall k ensures Look(n.db.wf.runs, k) == Look(n'.db.wf.runs, k) {
      assert RowAt(n, AtRun(k)) == RowAt(n', AtRun(k));
    }
    forall k ensures Look(n.db.wf.history, k) == Look(n'.db.wf.history, k) {
      assert RowAt(n, AtEvent(k)) == RowAt(n', AtEvent(k));
    }
    forall k ensures k in n.db.wf.done <==> k in n'.db.wf.done { assert RowAt(n, AtDone(k)) == RowAt(n', AtDone(k)); }
    SameLook(n.db.tokens, n'.db.tokens);
    SameLook(n.db.dedup, n'.db.dedup);
    SameLook(n.db.singletons, n'.db.singletons);
    SameLook(n.db.wf.runs, n'.db.wf.runs);
    SameLook(n.db.wf.history, n'.db.wf.history);
  }

  lemma SameLook<K, V>(m: map<K, V>, m': map<K, V>)
    requires forall k :: Look(m, k) == Look(m', k)
    ensures m == m'
  {
    forall k ensures k in m <==> k in m' { assert Look(m, k) == Look(m', k); }
    forall k | k in m ensures m[k] == m'[k] { assert Look(m, k) == Look(m', k); }
  }

  /** The bytes tell which store they hold. */
  lemma HeldOnce(names: Names, c: Codec, m: P.Kv, n: R.Node, n': R.Node)
    requires ReadsBack(c) && InRange(names, c, n) && InRange(names, c, n') && Holds(names, c, m, n)
    requires Holds(names, c, m, n')
    ensures n.db == n'.db && n.row == n'.row
  {
    forall p ensures RowAt(n, p) == RowAt(n', p) {
      SameRow(names, c, m, n, n', p);
    }
    hide RowAt;
    RowsDecide(n, n');
  }

  lemma SameRow(names: Names, c: Codec, m: P.Kv, n: R.Node, n': R.Node, p: Place)
    requires ReadsBack(c) && InRange(names, c, n) && InRange(names, c, n') && Holds(names, c, m, n)
    requires Holds(names, c, m, n')
    ensures RowAt(n, p) == RowAt(n', p)
  {
    hide ReadsBack;
    hide Fits;
    hide Keys.Encode;
    if Fits(names, p) {
      assert HoldsAt(names, c, m, n, p) && HoldsAt(names, c, m, n', p);
      if RowAt(n, p).Some? && RowAt(n', p).Some? {
        SamePlaceSameTable(n, n', p);
        RowBack(c, RowAt(n, p).value, RowAt(n', p).value);
      }
    }
    hide RowAt;
  }

  lemma RestoredKeepsRows(n: R.Node, d: R.Node, p: Place)
    ensures RowAt(R.Restored(n, d), p) == RowAt(n, p)
  {
  }

  lemma RestoredInRange(names: Names, c: Codec, n: R.Node, d: R.Node)
    requires InRange(names, c, n)
    ensures InRange(names, c, R.Restored(n, d)) && R.Restored(n, d).db == n.db && R.Restored(n, d).row == n.row
  {
    forall p ensures RowAt(R.Restored(n, d), p) == RowAt(n, p) { RestoredKeepsRows(n, d, p); }
    hide RowAt;
    hide Fits;
  }

  lemma KeyInApp(names: Names, p: Place)
    requires Fits(names, p)
    ensures P.InApp(Keys.Encode(KeyOf(names, p)))
  {
    hide *;
    Keys.AppKeyspace(KeyOf(names, p), 0, []);
    P.InAppExactly(Keys.Encode(KeyOf(names, p)));
  }

  lemma RestoredRows(names: Names, c: Codec, src: P.Kv, scan: P.Rows, dst: P.Kv, n: R.Node, d: R.Node)
    requires Holds(names, c, src, n) && P.IsScan(scan, src, Keys.APP_LO, Some(Keys.APP_HI))
    ensures Holds(names, c, P.Written(P.Outside(dst), scan), R.Restored(n, d))
  {
    var m := P.Written(P.Outside(dst), scan);
    forall p | Fits(names, p) ensures HoldsAt(names, c, m, R.Restored(n, d), p) {
      assert HoldsAt(names, c, src, n, p);
      RestoredKeepsRows(n, d, p);
      KeyInApp(names, p);
      P.RestoredRow(src, scan, dst, Keys.Encode(KeyOf(names, p)));
      hide RowAt;
      hide P.Written;
      hide P.InApp;
    }
    hide HoldsAt;
    hide Fits;
  }

  lemma AppliedKey(names: Names)
    ensures Keys.Encode(KeyOf(names, AtApplied)) == P.APPLIED_INDEX
  {
  }

  lemma CounterRead(v: nat)
    requires Word(v)
    ensures P.BeU64(BE(8, v)) == v
  {
    BERoundTrip(8, v);
    assert BE(8, v)[..8] == BE(8, v);
  }

  lemma AppliedRow(names: Names, c: Codec, src: P.Kv, n: R.Node, d: R.Node)
    requires ReadsBack(c) && InRange(names, c, n) && Holds(names, c, src, n)
    ensures P.AppliedAfter(src, d.applied) == R.Restored(n, d).applied
  {
    AppliedKey(names);
    assert Fits(names, AtApplied) && HoldsAt(names, c, src, n, AtApplied);
    assert RowAt(n, AtApplied) == As(n.row, v => CounterRow(v));
    if n.row.Some? {
      assert RowFits(c, RowAt(n, AtApplied).value);
      CounterRead(n.row.value);
    }
    hide P.BeU64;
    hide BE;
  }

  /** A snapshot of a node's bytes, restored over any other bytes, holds the same node: its
      store and applied-index row, and with them the index in memory. */
  lemma RestoreIsTyped(names: Names, c: Codec, src: P.Kv, scan: P.Rows, dst: P.Kv, n: R.Node, d: R.Node)
    requires TellsApart(names) && ReadsBack(c) && InRange(names, c, n) && Holds(names, c, src, n)
    requires P.IsScan(scan, src, Keys.APP_LO, Some(Keys.APP_HI)) && P.Framed(scan)
    ensures P.Parse(P.Stream(scan)) == (scan, true)
    ensures var m := P.Written(P.Outside(dst), scan);
            && Holds(names, c, m, R.Restored(n, d)) && P.AppliedAfter(m, d.applied) == R.Restored(n, d).applied
            && (forall n' :: InRange(names, c, n') && Holds(names, c, m, n') ==> n'.db == n.db && n'.row == n.row)
  {
    var m := P.Written(P.Outside(dst), scan);
    P.PersistRestore(src, scan, dst);
    P.RestoredIndex(src, scan, dst, d.applied);
    RestoredRows(names, c, src, scan, dst, n, d);
    AppliedRow(names, c, src, n, d);
    hide *;
    RestoredInRange(names, c, n, d);
    forall n' | InRange(names, c, n') && Holds(names, c, m, n') ensures n'.db == n.db && n'.row == n.row {
      HeldOnce(names, c, m, R.Restored(n, d), n');
    }
  }
}
