/** The elementary moves of the queue, and the invariant each of them keeps. */
module Moves {
  import opened Bytes
  import opened Store

  datatype Move =
    | Enqueue(m: Message, meta: GroupMeta, expiry: Option<nat>)
    | Replace(m: Message)
    | Grant(key: MsgKey, consumer: string, deadline: nat, maxLife: Option<nat>)
    | Requeue(lease: nat, attempt: nat, at: Option<nat>)
    | Extend(lease: nat, deadline: nat)
    | Ripen(key: MsgKey, due: nat)
    | Settle(lease: nat)
    | Bury(key: MsgKey, letter: DeadLetter)
    | Redeem(dead: DlqKey)
    | Purge(group: Group)
    | Knobs(group: Group, meta: GroupMeta)
    | Tag(lease: nat, token: Blob)
    | Arm(timer: Timer, epoch: nat)
    | Disarm(timer: Timer)

  // ----- The invariant -----

  /** Messages of group g in state s. */
  function InState(ms: map<MsgKey, Message>, g: Group, s: MsgState): set<MsgKey> {
    set k | k in ms && k.group == g && ms[k].state == s
  }

  function Count(ms: map<MsgKey, Message>, g: Group, s: MsgState): nat {
    |InState(ms, g, s)|
  }

  ghost predicate Known(q: Queue, k: MsgKey) {
    k.group in q.groups && 1 <= k.id < q.groups[k.group].nextSeq
  }

  /** Every message sits under its own key, with an id its group has handed out. */
  ghost predicate KeysOk(q: Queue) {
    && (forall k :: k in q.messages ==> q.messages[k].key == k && Known(q, k))
    && (forall g :: g in q.groups ==> q.groups[g].nextSeq >= 1)
  }

  /** Leased messages, lease rows and deadline timers correspond one to one, with equal
      epochs, and lease ids are never reused. */
  ghost predicate LeasesOk(q: Queue) {
    && (forall k :: k in q.messages && q.messages[k].state == Leased ==>
          var l := q.messages[k].curLease; l in q.leases && q.leases[l].key == k)
    && (forall l :: l in q.leases ==>
          && l < q.nextLease
          && q.leases[l].key in q.messages
          && q.messages[q.leases[l].key].state == Leased
          && q.messages[q.leases[l].key].curLease == l
          && q.messages[q.leases[l].key].epoch == q.leases[l].epoch)
    && (forall l :: l in q.leases ==>
          var t := Timer(q.leases[l].deadline, LeaseDeadline(l)); t in q.timers && q.timers[t] == q.leases[l].epoch)
    && (forall t :: t in q.timers && t.ref.LeaseDeadline? ==>
          t.ref.lease in q.leases && t.due == q.leases[t.ref.lease].deadline)
    && (forall t :: t in q.timers && t.ref.LeaseMaxLife? ==> t.ref.lease < q.nextLease)
  }

  ghost predicate HasReadyAt(q: Queue, k: MsgKey) {
    exists due :: Timer(due, ReadyAt(k)) in q.timers
  }

  /** A delayed message has exactly one ready-at row, carrying its epoch; no other live
      message has any. */
  ghost predicate DelaysOk(q: Queue) {
    && (forall k :: k in q.messages && q.messages[k].state == Delayed ==> HasReadyAt(q, k))
    && (forall t :: t in q.timers && t.ref.ReadyAt? && t.ref.key in q.messages ==>
          q.messages[t.ref.key].state == Delayed && q.timers[t] == q.messages[t.ref.key].epoch)
    && (forall t, u :: t in q.timers && u in q.timers && t.ref.ReadyAt? && u.ref == t.ref ==>
         t.ref.key in q.messages ==> t == u)
  }

  /** No timer points at an id that has not been handed out. */
  ghost predicate RefsOk(q: Queue) {
    forall t :: t in q.timers && (t.ref.ReadyAt? || t.ref.MsgExpiry?) ==> Known(q, t.ref.key)
  }

  /** Dead letters are not live, and each id is dead at most once. */
  ghost predicate DlqOk(q: Queue) {
    && (forall d :: d in q.dlq ==> q.dlq[d].original.key == d.key && Known(q, d.key) && d.key !in q.messages)
    && (forall d, e :: d in q.dlq && e in q.dlq && d.key == e.key ==> d == e)
  }

  /** The hand-maintained counters are exact. */
  ghost predicate MetaExact(ms: map<MsgKey, Message>, g: Group, gm: GroupMeta) {
    && gm.ready == Count(ms, g, Ready)
    && gm.delayed == Count(ms, g, Delayed)
    && gm.inflight == Count(ms, g, Leased)
    && gm.total == gm.ready + gm.delayed + gm.inflight
  }

  ghost predicate CountsOk(q: Queue) {
    forall g :: g in q.groups ==> MetaExact(q.messages, g, q.groups[g])
  }

  ghost predicate Inv(q: Queue) {
    KeysOk(q) && LeasesOk(q) && DelaysOk(q) && RefsOk(q) && DlqOk(q) && CountsOk(q)
  }

  // ----- What a move does -----

  type Timers = map<Timer, nat>

  function Armed(ts: Timers, due: Option<nat>, ref: Ref, epoch: nat): Timers {
    if due.Some? then ts[Timer(due.value, ref) := epoch] else ts
  }

  /** The message after its lease ends: ready now, or delayed until `at`. */
  function Released(m: Message, attempt: nat, at: Option<nat>): Message {
    m.(attempt := attempt, curLease := 0, epoch := Bump32(m.epoch), state := if at.Some? then Delayed else Ready)
  }

  function Left(gm: GroupMeta, s: MsgState): (r: GroupMeta)
    ensures r.nextSeq == gm.nextSeq
  {
    match s
    case Ready => gm.(ready := Decr(gm.ready))
    case Delayed => gm.(delayed := Decr(gm.delayed))
    case Leased => gm.(inflight := Decr(gm.inflight))
  }

  function Entered(gm: GroupMeta, s: MsgState): (r: GroupMeta)
    ensures r.nextSeq == gm.nextSeq
  {
    match s
    case Ready => gm.(ready := gm.ready + 1)
    case Delayed => gm.(delayed := gm.delayed + 1)
    case Leased => gm.(inflight := gm.inflight + 1)
  }

  /** The timers without the lease's deadline row. */
  function Undue(q: Queue, l: nat): Timers
    requires l in q.leases
  {
    q.timers - {Timer(q.leases[l].deadline, LeaseDeadline(l))}
  }

  ghost predicate CanEnqueue(q: Queue, m: Message, meta: GroupMeta) {
    var gm := LoadMeta(q, m.key.group);
    && m.key.id == gm.nextSeq && m.state != Leased
    && meta == Entered(gm, m.state).(weight := meta.weight, batchSize := meta.batchSize,
         lastActivity := meta.lastActivity,
                                     total := gm.total + 1, nextSeq := gm.nextSeq + 1)
  }

  function Enqueued(q: Queue, m: Message, meta: GroupMeta, expiry: Option<nat>): Queue {
    var readyAt := if m.state == Delayed then Some(m.notBefore) else None;
    Queue(q.messages[m.key := m], q.groups[m.key.group := meta], q.leases,
          Armed(Armed(q.timers, readyAt, ReadyAt(m.key), m.epoch), expiry, MsgExpiry(m.key), 0), q.dlq, q.nextLease)
  }

  function Granted(q: Queue, key: MsgKey, consumer: string, deadline: nat, maxLife: Option<nat>): Queue
    requires key in q.messages && key.group in q.groups
  {
    var l, m := q.nextLease, q.messages[key];
    var epoch := Bump32(m.epoch);
    Queue(q.messages[key := m.(state := Leased, curLease := l, epoch := epoch)],
          q.groups[key.group := Entered(Left(q.groups[key.group], Ready), Leased)],
          q.leases[l := Lease(key, consumer, deadline, m.attempt, epoch, 0, [], deadline)],
          Armed(Armed(q.timers, Some(deadline), LeaseDeadline(l), epoch), maxLife, LeaseMaxLife(l), 0),
          q.dlq, l + 1)
  }

  /** The lease's message is live and its group known. */
  predicate HasTarget(q: Queue, l: nat) {
    l in q.leases && q.leases[l].key in q.messages && q.leases[l].key.group in q.groups
  }

  function Requeued(q: Queue, l: nat, attempt: nat, at: Option<nat>): Queue
    requires HasTarget(q, l)
  {
    var key := q.leases[l].key;
    var m := Released(q.messages[key], attempt, at);
    Queue(q.messages[key := m], q.groups[key.group := Entered(Left(q.groups[key.group], Leased), m.state)],
          q.leases - {l}, Armed(Undue(q, l), at, ReadyAt(key), m.epoch), q.dlq, q.nextLease)
  }

  function Extended(q: Queue, l: nat, deadline: nat): Queue
    requires HasTarget(q, l)
  {
    var row := q.leases[l];
    var m := q.messages[row.key];
    var epoch := Bump32(m.epoch);
    Queue(q.messages[row.key := m.(epoch := epoch)], q.groups,
          q.leases[l := row.(deadline := deadline, extendCount := row.extendCount + 1, epoch := epoch)],
          Armed(Undue(q, l), Some(deadline), LeaseDeadline(l), epoch), q.dlq, q.nextLease)
  }

  function Ripened(q: Queue, key: MsgKey, due: nat): Queue
    requires key in q.messages && key.group in q.groups
  {
    var m := q.messages[key];
    Queue(q.messages[key := m.(state := Ready, epoch := Bump32(m.epoch))],
          q.groups[key.group := Entered(Left(q.groups[key.group], Delayed), Ready)],
          q.leases, q.timers - {Timer(due, ReadyAt(key))}, q.dlq, q.nextLease)
  }

  function Gone(gm: GroupMeta, s: MsgState): (r: GroupMeta)
    ensures r.nextSeq == gm.nextSeq
  {
    Left(gm, s).(total := Decr(gm.total))
  }

  function Settled(q: Queue, l: nat): Queue
    requires HasTarget(q, l)
  {
    var key := q.leases[l].key;
    Queue(q.messages - {key}, q.groups[key.group := Gone(q.groups[key.group], Leased)],
          q.leases - {l}, Undue(q, l), q.dlq, q.nextLease)
  }

  /** A dead letter replaces the message, whatever its state. */
  function Buried(q: Queue, key: MsgKey, letter: DeadLetter): Queue
    requires key in q.messages && key.group in q.groups
    requires q.messages[key].state == Leased ==> q.messages[key].curLease in q.leases
  {
    var m := q.messages[key];
    var leased := m.state == Leased;
    Queue(q.messages - {key}, q.groups[key.group := Gone(q.groups[key.group], m.state)],
          if leased then q.leases - {m.curLease} else q.leases,
          if leased then Undue(q, m.curLease) else q.timers,
          q.dlq[DlqKey(key, letter.deadAt) := letter], q.nextLease)
  }

  function Purged(q: Queue, group: Group): Queue
    requires group in q.groups
  {
    var gm := q.groups[group];
    Queue(Unpurged(q.messages, group), q.groups[group := gm.(ready := 0, delayed := 0, total := gm.inflight)],
          q.leases, q.timers, q.dlq, q.nextLease)
  }

  ghost predicate Enabled(q: Queue, mv: Move) {
    match mv
    case Enqueue(m, meta, _) => CanEnqueue(q, m, meta)
    case Replace(m) => m.key in q.messages && q.messages[m.key].state == Ready && m.state == Ready
    case Grant(key, _, _, _) => key in q.messages && q.messages[key].state == Ready && key.group in q.groups
    case Requeue(l, _, _) => HasTarget(q, l)
    case Extend(l, _) => HasTarget(q, l)
    case Ripen(key, due) =>
      key in q.messages && q.messages[key].state == Delayed && key.group in q.groups
          && Timer(due, ReadyAt(key)) in q.timers
    case Settle(l) => HasTarget(q, l)
    case Bury(key, letter) =>
      && key in q.messages && key.group in q.groups && letter.original.key == key
      && (q.messages[key].state == Leased ==> q.messages[key].curLease in q.leases)
    case Redeem(dead) => dead in q.dlq
    case Purge(group) => group in q.groups
    case Knobs(group, meta) =>
      var gm := LoadMeta(q, group);
      meta == gm.(weight := meta.weight, batchSize := meta.batchSize, paused := meta.paused,
          lastActivity := meta.lastActivity)
    case Tag(l, _) => HasTarget(q, l)
    case Arm(t, _) => t.ref.DedupExpiry? || t.ref.WfFired?
    case Disarm(t) => !t.ref.LeaseDeadline? && (t.ref.ReadyAt? ==> t.ref.key !in q.messages)
  }

  ghost function Play(q: Queue, mv: Move): Queue
    requires Enabled(q, mv)
  {
    match mv
    case Enqueue(m, meta, expiry) => Enqueued(q, m, meta, expiry)
    case Replace(m) => PutMsg(q, m)
    case Grant(key, consumer, deadline, maxLife) => Granted(q, key, consumer, deadline, maxLife)
    case Requeue(l, attempt, at) => Requeued(q, l, attempt, at)
    case Extend(l, deadline) => Extended(q, l, deadline)
    case Ripen(key, due) => Ripened(q, key, due)
    case Settle(l) => Settled(q, l)
    case Bury(key, letter) => Buried(q, key, letter)
    case Redeem(dead) => q.(dlq := q.dlq - {dead})
    case Purge(group) => Purged(q, group)
    case Knobs(group, meta) => PutMeta(q, group, meta)
    case Tag(l, token) => PutLease(q, l, q.leases[l].(token := token))
    case Arm(t, epoch) => q.(timers := q.timers[t := epoch])
    case Disarm(t) => q.(timers := q.timers - {t})
  }

  /** What a purge of the group leaves: its leased messages and everyone else's. */
  function Unpurged(ms: map<MsgKey, Message>, g: Group): map<MsgKey, Message> {
    map k | k in ms && (k.group != g || ms[k].state == Leased) :: ms[k]
  }

  // ----- Counting -----

  lemma CountDrop(ms: map<MsgKey, Message>, k: MsgKey, g: Group, s: MsgState)
    ensures Count(ms, g, s) == Count(ms - {k}, g, s) + (if k in ms && k.group == g && ms[k].state == s then 1 else 0)
  {
    if k in ms && k.group == g && ms[k].state == s {
      assert InState(ms, g, s) == InState(ms - {k}, g, s) + {k};
    } else {
      assert InState(ms, g, s) == InState(ms - {k}, g, s);
    }
  }

  lemma CountPut(ms: map<MsgKey, Message>, k: MsgKey, m: Message, g: Group, s: MsgState)
    ensures Count(ms[k := m], g, s) == Count(ms - {k}, g, s) + (if k.group == g && m.state == s then 1 else 0)
  {
    var ms' := ms[k := m];
    assert ms' - {k} == ms - {k};
    CountDrop(ms', k, g, s);
  }

  /** One message changes, appears or disappears: only its group's counters move, by one. */
  lemma MetaAfterDrop(ms: map<MsgKey, Message>, k: MsgKey, g: Group, gm: GroupMeta)
    requires MetaExact(ms, g, gm) && k in ms
    ensures g != k.group ==> MetaExact(ms - {k}, g, gm)
    ensures g == k.group ==> MetaExact(ms - {k}, g, Gone(gm, ms[k].state))
  {
    CountDrop(ms, k, g, Ready);
    CountDrop(ms, k, g, Delayed);
    CountDrop(ms, k, g, Leased);
  }

  lemma MetaAfterInsert(ms: map<MsgKey, Message>, k: MsgKey, m: Message, g: Group, gm: GroupMeta)
    requires MetaExact(ms, g, gm) && k !in ms
    ensures g != k.group ==> MetaExact(ms[k := m], g, gm)
    ensures g == k.group ==> MetaExact(ms[k := m], g, Entered(gm, m.state).(total := gm.total + 1))
  {
    assert ms - {k} == ms;
    CountPut(ms, k, m, g, Ready);
    CountPut(ms, k, m, g, Delayed);
    CountPut(ms, k, m, g, Leased);
  }

  lemma MetaAfterChange(ms: map<MsgKey, Message>, k: MsgKey, m: Message, g: Group, gm: GroupMeta)
    requires MetaExact(ms, g, gm) && k in ms
    ensures g != k.group ==> MetaExact(ms[k := m], g, gm)
    ensures g == k.group ==> MetaExact(ms[k := m], g, Entered(Left(gm, ms[k].state), m.state))
  {
    MetaAfterDrop(ms, k, g, gm);
    var ms0 := ms - {k};
    assert ms0[k := m] == ms[k := m];
    if g == k.group {
      CountDrop(ms, k, g, ms[k].state);
      MetaAfterInsert(ms0, k, m, g, Gone(gm, ms[k].state));
    } else {
      MetaAfterInsert(ms0, k, m, g, gm);
    }
  }

  lemma MetaAfterPurge(ms: map<MsgKey, Message>, p: Group, g: Group, gm: GroupMeta)
    requires MetaExact(ms, g, gm)
    ensures g != p ==> MetaExact(Unpurged(ms, p), g, gm)
    ensures g == p ==> MetaExact(Unpurged(ms, p), g, gm.(ready := 0, delayed := 0, total := gm.inflight))
  {
    var ms' := Unpurged(ms, p);
    if g == p {
      assert InState(ms', g, Ready) == {} && InState(ms', g, Delayed) == {};
      assert InState(ms', g, Leased) == InState(ms, g, Leased);
    } else {
      assert InState(ms', g, Ready) == InState(ms, g, Ready);
      assert InState(ms', g, Delayed) == InState(ms, g, Delayed);
      assert InState(ms', g, Leased) == InState(ms, g, Leased);
    }
  }

  lemma NoMessages(q: Queue, g: Group)
    requires KeysOk(q) && g !in q.groups
    ensures MetaExact(q.messages, g, FRESH_META)
  {
    assert InState(q.messages, g, Ready) == {} && InState(q.messages, g, Delayed) == {}
        && InState(q.messages, g, Leased) == {};
  }

  // ----- Local changes: one message and one lease at a time -----

  ghost predicate SameMessagesBut(q: Queue, q': Queue, k: MsgKey) {
    forall x :: x != k ==>
        (x in q.messages <==> x in q'.messages) && (x in q.messages ==> q'.messages[x] == q.messages[x])
  }

  ghost predicate SameLeasesBut(q: Queue, q': Queue, l: nat) {
    forall x :: x != l ==> (x in q.leases <==> x in q'.leases) && (x in q.leases ==> q'.leases[x] == q.leases[x])
  }

  predicate Owned(r: Ref, k: MsgKey, l: nat) {
    r == ReadyAt(k) || r == MsgExpiry(k) || r == LeaseDeadline(l) || r == LeaseMaxLife(l)
  }

  ghost predicate SameTimersBut(q: Queue, q': Queue, k: MsgKey, l: nat) {
    forall t: Timer :: !Owned(t.ref, k, l) ==>
        (t in q.timers <==> t in q'.timers) && (t in q.timers ==> q'.timers[t] == q.timers[t])
  }

  /** Ids handed out stay handed out. */
  ghost predicate KnownGrows(q: Queue, q': Queue) {
    && (forall g :: g in q.groups ==> g in q'.groups && q.groups[g].nextSeq <= q'.groups[g].nextSeq)
    && (forall g :: g in q'.groups ==> q'.groups[g].nextSeq >= 1)
  }

  /** Only message k, lease l and the timers pointing at them may differ. */
  ghost predicate LocalChange(q: Queue, q': Queue, k: MsgKey, l: nat) {
    && SameMessagesBut(q, q', k) && SameLeasesBut(q, q', l) && SameTimersBut(q, q', k, l)
    && q.nextLease <= q'.nextLease && KnownGrows(q, q') && Known(q', k)
    && (k in q.messages && q.messages[k].state == Leased ==> q.messages[k].curLease == l)
    && (l in q.leases ==> q.leases[l].key == k)
  }

  ghost predicate LocalLease(q: Queue, k: MsgKey, l: nat) {
    && (k in q.messages && q.messages[k].state == Leased ==> q.messages[k].curLease == l && l in q.leases)
    && (l in q.leases ==>
          && l < q.nextLease && q.leases[l].key == k && k in q.messages && q.messages[k].state == Leased
          && q.messages[k].curLease == l
          && q.messages[k].epoch == q.leases[l].epoch
          && Timer(q.leases[l].deadline, LeaseDeadline(l)) in q.timers
          && q.timers[Timer(q.leases[l].deadline, LeaseDeadline(l))] == q.leases[l].epoch)
    && (forall due :: Timer(due, LeaseDeadline(l)) in q.timers ==> l in q.leases && due == q.leases[l].deadline)
    && (forall due :: Timer(due, LeaseMaxLife(l)) in q.timers ==> l < q.nextLease)
  }

  lemma LocalKeepsLeaseRows(q: Queue, q': Queue, k: MsgKey, l: nat)
    requires LeasesOk(q) && LocalChange(q, q', k, l) && LocalLease(q', k, l)
    ensures forall x :: x in q'.messages && q'.messages[x].state == Leased ==>
              q'.messages[x].curLease in q'.leases && q'.leases[q'.messages[x].curLease].key == x
    ensures forall x :: x in q'.leases ==>
              && x < q'.nextLease && q'.leases[x].key in q'.messages
              && q'.messages[q'.leases[x].key].state == Leased && q'.messages[q'.leases[x].key].curLease == x
              && q'.messages[q'.leases[x].key].epoch == q'.leases[x].epoch
  {
    hide KnownGrows;
    hide SameTimersBut;
    forall x | x in q'.messages && q'.messages[x].state == Leased
      ensures var y := q'.messages[x].curLease; y in q'.leases && q'.leases[y].key == x
    {
      if x != k {
        assert x in q.messages;
      }
    }
  }

  lemma LocalKeepsLeaseTimers(q: Queue, q': Queue, k: MsgKey, l: nat)
    requires LeasesOk(q) && LocalChange(q, q', k, l) && LocalLease(q', k, l)
    ensures forall x :: x in q'.leases ==>
              var t := Timer(q'.leases[x].deadline, LeaseDeadline(x));
                t in q'.timers && q'.timers[t] == q'.leases[x].epoch
    ensures forall t :: t in q'.timers && t.ref.LeaseDeadline? ==>
              t.ref.lease in q'.leases && t.due == q'.leases[t.ref.lease].deadline
    ensures forall t :: t in q'.timers && t.ref.LeaseMaxLife? ==> t.ref.lease < q'.nextLease
  {
    hide KnownGrows;
    hide SameMessagesBut;
    forall t | t in q'.timers && (t.ref.LeaseMaxLife? || t.ref.LeaseDeadline?)
      ensures t.ref.LeaseMaxLife? ==> t.ref.lease < q'.nextLease
      ensures t.ref.LeaseDeadline? ==> t.ref.lease in q'.leases && t.due == q'.leases[t.ref.lease].deadline
    {
      assert t == Timer(t.due, t.ref);
      if t.ref.lease != l {
        assert t in q.timers;
      }
    }
  }

  lemma LocalKeepsLeases(q: Queue, q': Queue, k: MsgKey, l: nat)
    requires LeasesOk(q) && LocalChange(q, q', k, l) && LocalLease(q', k, l)
    ensures LeasesOk(q')
  {
    LocalKeepsLeaseRows(q, q', k, l);
    LocalKeepsLeaseTimers(q, q', k, l);
    hide LocalChange;
    hide LocalLease;
  }

  /** The ready-at rows of message k. */
  ghost predicate LocalDelay(q: Queue, k: MsgKey) {
    k in q.messages ==>
      && (q.messages[k].state == Delayed ==> HasReadyAt(q, k))
      && (forall due :: Timer(due, ReadyAt(k)) in q.timers ==>
            q.messages[k].state == Delayed && q.timers[Timer(due, ReadyAt(k))] == q.messages[k].epoch)
      && (forall d, e :: Timer(d, ReadyAt(k)) in q.timers && Timer(e, ReadyAt(k)) in q.timers ==> d == e)
  }

  lemma LocalKeepsDelays(q: Queue, q': Queue, k: MsgKey, l: nat)
    requires DelaysOk(q) && LocalChange(q, q', k, l) && LocalDelay(q', k)
    ensures DelaysOk(q')
  {
    hide KnownGrows;
    hide SameLeasesBut;
    forall x | x in q'.messages && q'.messages[x].state == Delayed
      ensures HasReadyAt(q', x)
    {
      if x != k {
        assert HasReadyAt(q, x);
        var due :| Timer(due, ReadyAt(x)) in q.timers;
        assert Timer(due, ReadyAt(x)) in q'.timers;
      }
    }
    forall t | t in q'.timers && t.ref.ReadyAt? && t.ref.key in q'.messages
      ensures q'.messages[t.ref.key].state == Delayed && q'.timers[t] == q'.messages[t.ref.key].epoch
      ensures forall u :: u in q'.timers && u.ref == t.ref ==> t == u
    {
      assert t == Timer(t.due, t.ref);
      if t.ref.key != k {
        assert t in q.timers;
      } else {
        forall u | u in q'.timers && u.ref == t.ref ensures t == u { assert u == Timer(u.due, u.ref); }
      }
    }
  }

  lemma LocalKeepsRefs(q: Queue, q': Queue, k: MsgKey, l: nat)
    requires KeysOk(q) && RefsOk(q) && LocalChange(q, q', k, l)
    requires k in q'.messages ==> q'.messages[k].key == k
    ensures KeysOk(q') && RefsOk(q')
  {
    hide SameLeasesBut;
    forall t | t in q'.timers && (t.ref.ReadyAt? || t.ref.MsgExpiry?)
      ensures Known(q', t.ref.key)
    {
      if t.ref.key != k {
        assert t in q.timers && Known(q, t.ref.key);
      }
    }
  }

  lemma SameDlqKeeps(q: Queue, q': Queue, k: MsgKey, l: nat)
    requires DlqOk(q) && LocalChange(q, q', k, l) && q'.dlq == q.dlq
    requires k in q'.messages ==> forall d :: d in q.dlq ==> d.key != k
    ensures DlqOk(q')
  {
    hide SameLeasesBut;
    hide SameTimersBut;
    forall d | d in q'.dlq ensures Known(q', d.key) && d.key !in q'.messages {
      assert Known(q, d.key);
    }
  }

  // ----- Every move keeps every part -----

  /** Every part of the invariant but the counters. */
  ghost predicate RowsOk(q: Queue) {
    KeysOk(q) && LeasesOk(q) && DelaysOk(q) && RefsOk(q) && DlqOk(q)
  }

  /** A local change that leaves the dead letters alone. */
  lemma LocalKeepsRows(q: Queue, q': Queue, k: MsgKey, l: nat)
    requires RowsOk(q) && LocalChange(q, q', k, l) && q'.dlq == q.dlq
    requires LocalLease(q', k, l) && LocalDelay(q', k)
    requires k in q'.messages ==> q'.messages[k].key == k && forall d :: d in q.dlq ==> d.key != k
    ensures RowsOk(q')
  {
    hide LocalChange;
    hide LocalLease;
    hide LocalDelay;
    hide LeasesOk;
    hide DelaysOk;
    hide DlqOk;
    hide RefsOk;
    LocalKeepsLeases(q, q', k, l);
    LocalKeepsDelays(q, q', k, l);
    LocalKeepsRefs(q, q', k, l);
    SameDlqKeeps(q, q', k, l);
  }

  // One lemma for each move and each part: a move's rows, its lease, its delay, then all of
  // them. Merged over the fourteen moves, each part is too large an obligation for the solver.

  lemma EnqueueSame(q: Queue, m: Message, meta: GroupMeta, expiry: Option<nat>)
    requires RowsOk(q) && CanEnqueue(q, m, meta)
    ensures SameMessagesBut(q, Enqueued(q, m, meta, expiry), m.key)
    ensures SameLeasesBut(q, Enqueued(q, m, meta, expiry), q.nextLease)
    ensures SameTimersBut(q, Enqueued(q, m, meta, expiry), m.key, q.nextLease)
  {
    hide KeysOk;
    hide LeasesOk;
    hide DelaysOk;
    hide RefsOk;
    hide DlqOk;
  }

  lemma EnqueueLocal(q: Queue, m: Message, meta: GroupMeta, expiry: Option<nat>)
    requires RowsOk(q) && CanEnqueue(q, m, meta)
    ensures LocalChange(q, Enqueued(q, m, meta, expiry), m.key, q.nextLease)
  {
    EnqueueSame(q, m, meta, expiry);
    hide SameMessagesBut;
    hide SameLeasesBut;
    hide SameTimersBut;
    hide DelaysOk;
    hide RefsOk;
    hide DlqOk;
  }

  lemma EnqueueLease(q: Queue, m: Message, meta: GroupMeta, expiry: Option<nat>)
    requires RowsOk(q) && CanEnqueue(q, m, meta)
    ensures LocalLease(Enqueued(q, m, meta, expiry), m.key, q.nextLease)
  {
    hide DelaysOk;
    hide RefsOk;
    hide DlqOk;
  }

  lemma EnqueueDelay(q: Queue, m: Message, meta: GroupMeta, expiry: Option<nat>)
    requires RowsOk(q) && CanEnqueue(q, m, meta)
    ensures LocalDelay(Enqueued(q, m, meta, expiry), m.key)
  {
    hide KeysOk;
    hide LeasesOk;
    hide DlqOk;
    if m.state == Delayed {
      assert Timer(m.notBefore, ReadyAt(m.key)) in Enqueued(q, m, meta, expiry).timers;
    }
    assert !Known(q, m.key);
  }

  lemma EnqueueKeepsRows(q: Queue, m: Message, meta: GroupMeta, expiry: Option<nat>)
    requires RowsOk(q) && CanEnqueue(q, m, meta)
    ensures RowsOk(Enqueued(q, m, meta, expiry))
  {
    EnqueueLocal(q, m, meta, expiry);
    EnqueueLease(q, m, meta, expiry);
    EnqueueDelay(q, m, meta, expiry);
    assert !Known(q, m.key);
    hide LeasesOk;
    hide DelaysOk;
    hide RefsOk;
    hide LocalChange;
    hide LocalLease;
    hide LocalDelay;
    LocalKeepsRows(q, Enqueued(q, m, meta, expiry), m.key, q.nextLease);
  }

  lemma GrantSame(q: Queue, key: MsgKey, consumer: string, deadline: nat, maxLife: Option<nat>)
    requires RowsOk(q) && Enabled(q, Grant(key, consumer, deadline, maxLife))
    ensures SameMessagesBut(q, Granted(q, key, consumer, deadline, maxLife), key)
    ensures SameLeasesBut(q, Granted(q, key, consumer, deadline, maxLife), q.nextLease)
    ensures SameTimersBut(q, Granted(q, key, consumer, deadline, maxLife), key, q.nextLease)
  {
    hide KeysOk;
    hide LeasesOk;
    hide DelaysOk;
    hide RefsOk;
    hide DlqOk;
  }

  lemma GrantLocal(q: Queue, key: MsgKey, consumer: string, deadline: nat, maxLife: Option<nat>)
    requires RowsOk(q) && Enabled(q, Grant(key, consumer, deadline, maxLife))
    ensures LocalChange(q, Granted(q, key, consumer, deadline, maxLife), key, q.nextLease)
  {
    GrantSame(q, key, consumer, deadline, maxLife);
    hide SameMessagesBut;
    hide SameLeasesBut;
    hide SameTimersBut;
    hide DelaysOk;
    hide RefsOk;
    hide DlqOk;
  }

  lemma GrantLease(q: Queue, key: MsgKey, consumer: string, deadline: nat, maxLife: Option<nat>)
    requires RowsOk(q) && Enabled(q, Grant(key, consumer, deadline, maxLife))
    ensures LocalLease(Granted(q, key, consumer, deadline, maxLife), key, q.nextLease)
  {
    hide KeysOk;
    hide DelaysOk;
    hide RefsOk;
    hide DlqOk;
  }

  lemma GrantDelay(q: Queue, key: MsgKey, consumer: string, deadline: nat, maxLife: Option<nat>)
    requires RowsOk(q) && Enabled(q, Grant(key, consumer, deadline, maxLife))
    ensures LocalDelay(Granted(q, key, consumer, deadline, maxLife), key)
  {
    hide KeysOk;
    hide LeasesOk;
    hide RefsOk;
    hide DlqOk;
  }

  lemma GrantKeepsRows(q: Queue, key: MsgKey, consumer: string, deadline: nat, maxLife: Option<nat>)
    requires RowsOk(q) && Enabled(q, Grant(key, consumer, deadline, maxLife))
    ensures RowsOk(Granted(q, key, consumer, deadline, maxLife))
  {
    GrantLocal(q, key, consumer, deadline, maxLife);
    GrantLease(q, key, consumer, deadline, maxLife);
    GrantDelay(q, key, consumer, deadline, maxLife);
    hide LeasesOk;
    hide DelaysOk;
    hide RefsOk;
    hide LocalChange;
    hide LocalLease;
    hide LocalDelay;
    LocalKeepsRows(q, Granted(q, key, consumer, deadline, maxLife), key, q.nextLease);
  }

  lemma RequeueSame(q: Queue, l: nat, attempt: nat, at: Option<nat>)
    requires RowsOk(q) && HasTarget(q, l)
    ensures SameMessagesBut(q, Requeued(q, l, attempt, at), q.leases[l].key)
    ensures SameLeasesBut(q, Requeued(q, l, attempt, at), l)
    ensures SameTimersBut(q, Requeued(q, l, attempt, at), q.leases[l].key, l)
  {
    hide KeysOk;
    hide LeasesOk;
    hide DelaysOk;
    hide RefsOk;
    hide DlqOk;
  }

  lemma RequeueLocal(q: Queue, l: nat, attempt: nat, at: Option<nat>)
    requires RowsOk(q) && HasTarget(q, l)
    ensures LocalChange(q, Requeued(q, l, attempt, at), q.leases[l].key, l)
  {
    RequeueSame(q, l, attempt, at);
    hide SameMessagesBut;
    hide SameLeasesBut;
    hide SameTimersBut;
    hide DelaysOk;
    hide RefsOk;
    hide DlqOk;
  }

  lemma RequeueLease(q: Queue, l: nat, attempt: nat, at: Option<nat>)
    requires RowsOk(q) && HasTarget(q, l)
    ensures LocalLease(Requeued(q, l, attempt, at), q.leases[l].key, l)
  {
    hide KeysOk;
    hide DelaysOk;
    hide RefsOk;
    hide DlqOk;
  }

  lemma RequeueDelay(q: Queue, l: nat, attempt: nat, at: Option<nat>)
    requires RowsOk(q) && HasTarget(q, l)
    ensures LocalDelay(Requeued(q, l, attempt, at), q.leases[l].key)
  {
    hide KeysOk;
    hide RefsOk;
    hide DlqOk;
    if at.Some? {
      assert Timer(at.value, ReadyAt(q.leases[l].key)) in Requeued(q, l, attempt, at).timers;
    }
  }

  lemma RequeueKeepsRows(q: Queue, l: nat, attempt: nat, at: Option<nat>)
    requires RowsOk(q) && HasTarget(q, l)
    ensures RowsOk(Requeued(q, l, attempt, at))
  {
    RequeueLocal(q, l, attempt, at);
    RequeueLease(q, l, attempt, at);
    RequeueDelay(q, l, attempt, at);
    hide LeasesOk;
    hide DelaysOk;
    hide RefsOk;
    hide LocalChange;
    hide LocalLease;
    hide LocalDelay;
    LocalKeepsRows(q, Requeued(q, l, attempt, at), q.leases[l].key, l);
  }

  lemma ExtendSame(q: Queue, l: nat, deadline: nat)
    requires RowsOk(q) && HasTarget(q, l)
    ensures SameMessagesBut(q, Extended(q, l, deadline), q.leases[l].key)
    ensures SameLeasesBut(q, Extended(q, l, deadline), l)
    ensures SameTimersBut(q, Extended(q, l, deadline), q.leases[l].key, l)
  {
    hide KeysOk;
    hide LeasesOk;
    hide DelaysOk;
    hide RefsOk;
    hide DlqOk;
  }

  lemma ExtendLocal(q: Queue, l: nat, deadline: nat)
    requires RowsOk(q) && HasTarget(q, l)
    ensures LocalChange(q, Extended(q, l, deadline), q.leases[l].key, l)
  {
    ExtendSame(q, l, deadline);
    hide SameMessagesBut;
    hide SameLeasesBut;
    hide SameTimersBut;
    hide DelaysOk;
    hide RefsOk;
    hide DlqOk;
  }

  lemma ExtendLease(q: Queue, l: nat, deadline: nat)
    requires RowsOk(q) && HasTarget(q, l)
    ensures LocalLease(Extended(q, l, deadline), q.leases[l].key, l)
  {
    hide KeysOk;
    hide DelaysOk;
    hide RefsOk;
    hide DlqOk;
  }

  lemma ExtendDelay(q: Queue, l: nat, deadline: nat)
    requires RowsOk(q) && HasTarget(q, l)
    ensures LocalDelay(Extended(q, l, deadline), q.leases[l].key)
  {
    hide KeysOk;
    hide RefsOk;
    hide DlqOk;
  }

  lemma ExtendKeepsRows(q: Queue, l: nat, deadline: nat)
    requires RowsOk(q) && HasTarget(q, l)
    ensures RowsOk(Extended(q, l, deadline))
  {
    ExtendLocal(q, l, deadline);
    ExtendLease(q, l, deadline);
    ExtendDelay(q, l, deadline);
    hide LeasesOk;
    hide DelaysOk;
    hide RefsOk;
    hide LocalChange;
    hide LocalLease;
    hide LocalDelay;
    LocalKeepsRows(q, Extended(q, l, deadline), q.leases[l].key, l);
  }

  lemma RipenSame(q: Queue, key: MsgKey, due: nat)
    requires RowsOk(q) && Enabled(q, Ripen(key, due))
    ensures SameMessagesBut(q, Ripened(q, key, due), key) && SameLeasesBut(q, Ripened(q, key, due), q.nextLease)
    ensures SameTimersBut(q, Ripened(q, key, due), key, q.nextLease)
  {
    hide KeysOk;
    hide LeasesOk;
    hide DelaysOk;
    hide RefsOk;
    hide DlqOk;
  }

  lemma RipenLocal(q: Queue, key: MsgKey, due: nat)
    requires RowsOk(q) && Enabled(q, Ripen(key, due))
    ensures LocalChange(q, Ripened(q, key, due), key, q.nextLease)
  {
    RipenSame(q, key, due);
    hide SameMessagesBut;
    hide SameLeasesBut;
    hide SameTimersBut;
    hide DelaysOk;
    hide RefsOk;
    hide DlqOk;
  }

  lemma RipenLease(q: Queue, key: MsgKey, due: nat)
    requires RowsOk(q) && Enabled(q, Ripen(key, due))
    ensures LocalLease(Ripened(q, key, due), key, q.nextLease)
  {
    hide KeysOk;
    hide DelaysOk;
    hide RefsOk;
    hide DlqOk;
  }

  lemma RipenDelay(q: Queue, key: MsgKey, due: nat)
    requires RowsOk(q) && Enabled(q, Ripen(key, due))
    ensures LocalDelay(Ripened(q, key, due), key)
  {
    hide KeysOk;
    hide LeasesOk;
    hide RefsOk;
    hide DlqOk;
  }

  lemma RipenKeepsRows(q: Queue, key: MsgKey, due: nat)
    requires RowsOk(q) && Enabled(q, Ripen(key, due))
    ensures RowsOk(Ripened(q, key, due))
  {
    RipenLocal(q, key, due);
    RipenLease(q, key, due);
    RipenDelay(q, key, due);
    hide LeasesOk;
    hide DelaysOk;
    hide RefsOk;
    hide LocalChange;
    hide LocalLease;
    hide LocalDelay;
    LocalKeepsRows(q, Ripened(q, key, due), key, q.nextLease);
  }

  lemma SettleSame(q: Queue, l: nat)
    requires RowsOk(q) && HasTarget(q, l)
    ensures SameMessagesBut(q, Settled(q, l), q.leases[l].key) && SameLeasesBut(q, Settled(q, l), l)
    ensures SameTimersBut(q, Settled(q, l), q.leases[l].key, l)
  {
    hide KeysOk;
    hide LeasesOk;
    hide DelaysOk;
    hide RefsOk;
    hide DlqOk;
  }

  lemma SettleLocal(q: Queue, l: nat)
    requires RowsOk(q) && HasTarget(q, l)
    ensures LocalChange(q, Settled(q, l), q.leases[l].key, l)
  {
    SettleSame(q, l);
    hide SameMessagesBut;
    hide SameLeasesBut;
    hide SameTimersBut;
    hide DelaysOk;
    hide RefsOk;
    hide DlqOk;
  }

  lemma SettleLease(q: Queue, l: nat)
    requires RowsOk(q) && HasTarget(q, l)
    ensures LocalLease(Settled(q, l), q.leases[l].key, l)
  {
    hide KeysOk;
    hide DelaysOk;
    hide RefsOk;
    hide DlqOk;
  }

  lemma SettleDelay(q: Queue, l: nat)
    requires RowsOk(q) && HasTarget(q, l)
    ensures LocalDelay(Settled(q, l), q.leases[l].key)
  {
    hide KeysOk;
    hide LeasesOk;
    hide RefsOk;
    hide DlqOk;
  }

  lemma SettleKeepsRows(q: Queue, l: nat)
    requires RowsOk(q) && HasTarget(q, l)
    ensures RowsOk(Settled(q, l))
  {
    SettleLocal(q, l);
    SettleLease(q, l);
    SettleDelay(q, l);
    hide LeasesOk;
    hide DelaysOk;
    hide RefsOk;
    hide LocalChange;
    hide LocalLease;
    hide LocalDelay;
    LocalKeepsRows(q, Settled(q, l), q.leases[l].key, l);
  }

  lemma ReplaceSame(q: Queue, m: Message)
    requires RowsOk(q) && Enabled(q, Replace(m))
    ensures SameMessagesBut(q, PutMsg(q, m), m.key) && SameLeasesBut(q, PutMsg(q, m), q.nextLease)
    ensures SameTimersBut(q, PutMsg(q, m), m.key, q.nextLease)
  {
    hide KeysOk;
    hide LeasesOk;
    hide DelaysOk;
    hide RefsOk;
    hide DlqOk;
  }

  lemma ReplaceLocal(q: Queue, m: Message)
    requires RowsOk(q) && Enabled(q, Replace(m))
    ensures LocalChange(q, PutMsg(q, m), m.key, q.nextLease)
  {
    ReplaceSame(q, m);
    hide SameMessagesBut;
    hide SameLeasesBut;
    hide SameTimersBut;
    hide DelaysOk;
    hide RefsOk;
    hide DlqOk;
  }

  lemma ReplaceLease(q: Queue, m: Message)
    requires RowsOk(q) && Enabled(q, Replace(m))
    ensures LocalLease(PutMsg(q, m), m.key, q.nextLease)
  {
    hide KeysOk;
    hide DelaysOk;
    hide RefsOk;
    hide DlqOk;
  }

  lemma ReplaceDelay(q: Queue, m: Message)
    requires RowsOk(q) && Enabled(q, Replace(m))
    ensures LocalDelay(PutMsg(q, m), m.key)
  {
    hide KeysOk;
    hide LeasesOk;
    hide RefsOk;
    hide DlqOk;
  }

  lemma ReplaceKeepsRows(q: Queue, m: Message)
    requires RowsOk(q) && Enabled(q, Replace(m))
    ensures RowsOk(PutMsg(q, m))
  {
    ReplaceLocal(q, m);
    ReplaceLease(q, m);
    ReplaceDelay(q, m);
    hide LeasesOk;
    hide DelaysOk;
    hide RefsOk;
    hide LocalChange;
    hide LocalLease;
    hide LocalDelay;
    LocalKeepsRows(q, PutMsg(q, m), m.key, q.nextLease);
  }

  lemma TagSame(q: Queue, l: nat, token: Blob)
    requires RowsOk(q) && HasTarget(q, l)
    ensures SameMessagesBut(q, PutLease(q, l, q.leases[l].(token := token)), q.leases[l].key)
    ensures SameLeasesBut(q, PutLease(q, l, q.leases[l].(token := token)), l)
    ensures SameTimersBut(q, PutLease(q, l, q.leases[l].(token := token)), q.leases[l].key, l)
  {
    hide KeysOk;
    hide LeasesOk;
    hide DelaysOk;
    hide RefsOk;
    hide DlqOk;
  }

  lemma TagLocal(q: Queue, l: nat, token: Blob)
    requires RowsOk(q) && HasTarget(q, l)
    ensures LocalChange(q, PutLease(q, l, q.leases[l].(token := token)), q.leases[l].key, l)
  {
    TagSame(q, l, token);
    hide SameMessagesBut;
    hide SameLeasesBut;
    hide SameTimersBut;
    hide DelaysOk;
    hide RefsOk;
    hide DlqOk;
  }

  lemma TagLease(q: Queue, l: nat, token: Blob)
    requires RowsOk(q) && HasTarget(q, l)
    ensures LocalLease(PutLease(q, l, q.leases[l].(token := token)), q.leases[l].key, l)
  {
    hide KeysOk;
    hide DelaysOk;
    hide RefsOk;
    hide DlqOk;
  }

  lemma TagDelay(q: Queue, l: nat, token: Blob)
    requires RowsOk(q) && HasTarget(q, l)
    ensures LocalDelay(PutLease(q, l, q.leases[l].(token := token)), q.leases[l].key)
  {
    hide KeysOk;
    hide RefsOk;
    hide DlqOk;
  }

  lemma TagKeepsRows(q: Queue, l: nat, token: Blob)
    requires RowsOk(q) && HasTarget(q, l)
    ensures RowsOk(PutLease(q, l, q.leases[l].(token := token)))
  {
    TagLocal(q, l, token);
    TagLease(q, l, token);
    TagDelay(q, l, token);
    hide LeasesOk;
    hide DelaysOk;
    hide RefsOk;
    hide LocalChange;
    hide LocalLease;
    hide LocalDelay;
    LocalKeepsRows(q, PutLease(q, l, q.leases[l].(token := token)), q.leases[l].key, l);
  }

  /** The lease holding the message, or one that does not exist yet. */
  function Holder(q: Queue, key: MsgKey): nat
    requires key in q.messages
  {
    if q.messages[key].state == Leased then q.messages[key].curLease else q.nextLease
  }

  lemma BurySame(q: Queue, key: MsgKey, letter: DeadLetter)
    requires RowsOk(q) && Enabled(q, Bury(key, letter))
    ensures SameMessagesBut(q, Buried(q, key, letter), key) && SameLeasesBut(q, Buried(q, key, letter), Holder(q, key))
    ensures SameTimersBut(q, Buried(q, key, letter), key, Holder(q, key))
  {
    hide KeysOk;
    hide LeasesOk;
    hide DelaysOk;
    hide RefsOk;
    hide DlqOk;
  }

  lemma BuryLocal(q: Queue, key: MsgKey, letter: DeadLetter)
    requires RowsOk(q) && Enabled(q, Bury(key, letter))
    ensures LocalChange(q, Buried(q, key, letter), key, Holder(q, key))
  {
    BurySame(q, key, letter);
    hide SameMessagesBut;
    hide SameLeasesBut;
    hide SameTimersBut;
    hide DelaysOk;
    hide RefsOk;
    hide DlqOk;
  }

  lemma BuryLease(q: Queue, key: MsgKey, letter: DeadLetter)
    requires RowsOk(q) && Enabled(q, Bury(key, letter))
    ensures LocalLease(Buried(q, key, letter), key, Holder(q, key))
  {
    hide KeysOk;
    hide DelaysOk;
    hide RefsOk;
    hide DlqOk;
  }

  lemma BuryDelay(q: Queue, key: MsgKey, letter: DeadLetter)
    requires RowsOk(q) && Enabled(q, Bury(key, letter))
    ensures LocalDelay(Buried(q, key, letter), key)
  {
    hide KeysOk;
    hide LeasesOk;
    hide RefsOk;
    hide DlqOk;
  }

  lemma KnownAfterBury(q: Queue, key: MsgKey, letter: DeadLetter)
    requires RowsOk(q) && Enabled(q, Bury(key, letter))
    ensures Known(q, key) && forall k :: Known(q, k) ==> Known(Buried(q, key, letter), k)
  {
    hide LeasesOk;
    hide DelaysOk;
    hide RefsOk;
    hide DlqOk;
  }

  lemma BuryKeepsDlq(q: Queue, key: MsgKey, letter: DeadLetter)
    requires RowsOk(q) && Enabled(q, Bury(key, letter))
    ensures DlqOk(Buried(q, key, letter))
  {
    hide LeasesOk;
    hide DelaysOk;
    hide RefsOk;
    hide MetaExact;
    hide CountsOk;
    assert forall d :: d in q.dlq ==> d.key != key;
    KnownAfterBury(q, key, letter);
    hide Known;
    hide KeysOk;
  }

  lemma BuryKeepsRows(q: Queue, key: MsgKey, letter: DeadLetter)
    requires RowsOk(q) && Enabled(q, Bury(key, letter))
    ensures RowsOk(Buried(q, key, letter))
  {
    BuryLocal(q, key, letter);
    BuryLease(q, key, letter);
    BuryDelay(q, key, letter);
    BuryKeepsDlq(q, key, letter);
    hide LeasesOk;
    hide DelaysOk;
    hide RefsOk;
    hide DlqOk;
    hide LocalChange;
    hide LocalLease;
    hide LocalDelay;
    LocalKeepsLeases(q, Buried(q, key, letter), key, Holder(q, key));
    LocalKeepsDelays(q, Buried(q, key, letter), key, Holder(q, key));
    LocalKeepsRefs(q, Buried(q, key, letter), key, Holder(q, key));
  }

  lemma PurgeKeepsLeases(q: Queue, group: Group)
    requires RowsOk(q) && group in q.groups
    ensures LeasesOk(Purged(q, group))
  {
    hide KeysOk;
    hide DelaysOk;
    hide RefsOk;
    hide DlqOk;
  }

  lemma PurgeKeepsDelays(q: Queue, group: Group)
    requires RowsOk(q) && group in q.groups
    ensures DelaysOk(Purged(q, group))
  {
    hide KeysOk;
    hide LeasesOk;
    hide RefsOk;
    hide DlqOk;

  }

  lemma PurgeKeepsRows(q: Queue, group: Group)
    requires RowsOk(q) && group in q.groups
    ensures RowsOk(Purged(q, group))
  {
    PurgeKeepsLeases(q, group);
    PurgeKeepsDelays(q, group);
    hide LeasesOk;
    hide DelaysOk;
  }

  lemma KnobsKeepsLeases(q: Queue, group: Group, meta: GroupMeta)
    requires RowsOk(q) && Enabled(q, Knobs(group, meta))
    ensures LeasesOk(PutMeta(q, group, meta))
  {
    hide KeysOk;
    hide DelaysOk;
    hide RefsOk;
    hide DlqOk;
  }

  lemma KnobsKeepsDelays(q: Queue, group: Group, meta: GroupMeta)
    requires RowsOk(q) && Enabled(q, Knobs(group, meta))
    ensures DelaysOk(PutMeta(q, group, meta))
  {
    hide KeysOk;
    hide LeasesOk;
    hide RefsOk;
    hide DlqOk;

  }

  lemma KnobsKeepsRows(q: Queue, group: Group, meta: GroupMeta)
    requires RowsOk(q) && Enabled(q, Knobs(group, meta))
    ensures RowsOk(PutMeta(q, group, meta))
  {
    KnobsKeepsLeases(q, group, meta);
    KnobsKeepsDelays(q, group, meta);
    hide LeasesOk;
    hide DelaysOk;
  }

  lemma DisarmKeepsLeases(q: Queue, t: Timer)
    requires RowsOk(q) && Enabled(q, Disarm(t))
    ensures LeasesOk(q.(timers := q.timers - {t}))
  {
    hide KeysOk;
    hide DelaysOk;
    hide RefsOk;
    hide DlqOk;
  }

  lemma DisarmKeepsDelays(q: Queue, t: Timer)
    requires RowsOk(q) && Enabled(q, Disarm(t))
    ensures DelaysOk(q.(timers := q.timers - {t}))
  {
    hide KeysOk;
    hide LeasesOk;
    hide RefsOk;
    hide DlqOk;

  }

  lemma DisarmKeepsRows(q: Queue, t: Timer)
    requires RowsOk(q) && Enabled(q, Disarm(t))
    ensures RowsOk(q.(timers := q.timers - {t}))
  {
    DisarmKeepsLeases(q, t);
    DisarmKeepsDelays(q, t);
    hide LeasesOk;
    hide DelaysOk;
  }

  lemma ArmKeepsLeases(q: Queue, t: Timer, epoch: nat)
    requires RowsOk(q) && Enabled(q, Arm(t, epoch))
    ensures LeasesOk(q.(timers := q.timers[t := epoch]))
  {
    hide KeysOk;
    hide DelaysOk;
    hide RefsOk;
    hide DlqOk;
  }

  lemma ArmKeepsDelays(q: Queue, t: Timer, epoch: nat)
    requires RowsOk(q) && Enabled(q, Arm(t, epoch))
    ensures DelaysOk(q.(timers := q.timers[t := epoch]))
  {
    hide KeysOk;
    hide LeasesOk;
    hide RefsOk;
    hide DlqOk;

  }

  lemma ArmKeepsRows(q: Queue, t: Timer, epoch: nat)
    requires RowsOk(q) && Enabled(q, Arm(t, epoch))
    ensures RowsOk(q.(timers := q.timers[t := epoch]))
  {
    ArmKeepsLeases(q, t, epoch);
    ArmKeepsDelays(q, t, epoch);
    hide LeasesOk;
    hide DelaysOk;
  }

  lemma RedeemKeepsLeases(q: Queue, dead: DlqKey)
    requires RowsOk(q) && dead in q.dlq
    ensures LeasesOk(q.(dlq := q.dlq - {dead}))
  {
    hide KeysOk;
    hide DelaysOk;
    hide RefsOk;
    hide DlqOk;
  }

  lemma RedeemKeepsDelays(q: Queue, dead: DlqKey)
    requires RowsOk(q) && dead in q.dlq
    ensures DelaysOk(q.(dlq := q.dlq - {dead}))
  {
    hide KeysOk;
    hide LeasesOk;
    hide RefsOk;
    hide DlqOk;

  }

  lemma RedeemKeepsRows(q: Queue, dead: DlqKey)
    requires RowsOk(q) && dead in q.dlq
    ensures RowsOk(q.(dlq := q.dlq - {dead}))
  {
    RedeemKeepsLeases(q, dead);
    RedeemKeepsDelays(q, dead);
    hide LeasesOk;
    hide DelaysOk;
  }

  // ----- The counters -----

  lemma InsertKeepsCounts(q: Queue, q': Queue, m: Message, meta: GroupMeta)
    requires KeysOk(q) && CountsOk(q) && m.key !in q.messages && CanEnqueue(q, m, meta)
    requires q'.messages == q.messages[m.key := m] && q'.groups == q.groups[m.key.group := meta]
    ensures CountsOk(q')
  {
    var k := m.key;
    if k.group !in q.groups { NoMessages(q, k.group); }
    hide MetaExact;
    forall g | g in q'.groups ensures MetaExact(q'.messages, g, q'.groups[g]) {
      MetaAfterInsert(q.messages, k, m, g, LoadMeta(q, g));
      if g == k.group {
        SameCounts(q'.messages, g, Entered(LoadMeta(q, g), m.state).(total := LoadMeta(q, g).total + 1), meta);
      }
    }
  }

  /** Exactness looks at the counters only. */
  lemma SameCounts(ms: map<MsgKey, Message>, g: Group, gm: GroupMeta, gm': GroupMeta)
    requires MetaExact(ms, g, gm)
    requires gm'.ready == gm.ready && gm'.delayed == gm.delayed && gm'.inflight == gm.inflight && gm'.total == gm.total
    ensures MetaExact(ms, g, gm')
  {
  }

  lemma ChangeKeepsCounts(q: Queue, q': Queue, k: MsgKey, m: Message)
    requires CountsOk(q) && k in q.messages && k.group in q.groups && q'.messages == q.messages[k := m]
    requires q'.groups == q.groups[k.group := Entered(Left(q.groups[k.group], q.messages[k].state), m.state)]
    ensures CountsOk(q')
  {
    hide MetaExact;
    hide Left;
    hide Entered;
    forall g | g in q'.groups ensures MetaExact(q'.messages, g, q'.groups[g]) {
      MetaAfterChange(q.messages, k, m, g, q.groups[g]);
    }
  }

  /** A change of a message that keeps its state moves no counter. */
  lemma SameStateSameCount(ms: map<MsgKey, Message>, k: MsgKey, m: Message, g: Group, s: MsgState)
    requires k in ms && m.state == ms[k].state
    ensures Count(ms[k := m], g, s) == Count(ms, g, s)
  {
    assert InState(ms[k := m], g, s) == InState(ms, g, s);
  }

  lemma SameStateKeepsCounts(q: Queue, q': Queue, k: MsgKey, m: Message)
    requires CountsOk(q) && k in q.messages && m.state == q.messages[k].state
    requires q'.messages == q.messages[k := m] && q'.groups == q.groups
    ensures CountsOk(q')
  {
    forall g, s ensures Count(q'.messages, g, s) == Count(q.messages, g, s) {
      SameStateSameCount(q.messages, k, m, g, s);
    }
    hide Count;
  }

  lemma DropKeepsCounts(q: Queue, q': Queue, k: MsgKey)
    requires CountsOk(q) && k in q.messages && k.group in q.groups && q'.messages == q.messages - {k}
    requires q'.groups == q.groups[k.group := Gone(q.groups[k.group], q.messages[k].state)]
    ensures CountsOk(q')
  {
    hide MetaExact;
    hide Gone;
    forall g | g in q'.groups ensures MetaExact(q'.messages, g, q'.groups[g]) {
      MetaAfterDrop(q.messages, k, g, q.groups[g]);
    }
  }

  lemma PurgeKeepsCounts(q: Queue, group: Group)
    requires CountsOk(q) && group in q.groups
    ensures CountsOk(Purged(q, group))
  {
    hide MetaExact;
    forall g | g in q.groups ensures MetaExact(Purged(q, group).messages, g, Purged(q, group).groups[g]) {
      MetaAfterPurge(q.messages, group, g, q.groups[g]);
    }
  }

  lemma KnobsKeepsCounts(q: Queue, group: Group, meta: GroupMeta)
    requires KeysOk(q) && CountsOk(q) && Enabled(q, Knobs(group, meta))
    ensures CountsOk(PutMeta(q, group, meta))
  {
    if group !in q.groups { NoMessages(q, group); }
    SameCounts(q.messages, group, LoadMeta(q, group), meta);
    hide MetaExact;
  }

  /** Moves after which one message is in another state, or the same one. */
  lemma ChangesKeepCounts(q: Queue, mv: Move)
    requires Inv(q) && Enabled(q, mv) && (mv.Replace? || mv.Grant? || mv.Requeue? || mv.Extend? || mv.Ripen?)
    ensures CountsOk(Play(q, mv))
  {
    hide DelaysOk;
    hide RefsOk;
    hide DlqOk;
    hide CountsOk;
    hide Left;
    hide Entered;
    hide Armed;
    hide Undue;
    var q' := Play(q, mv);
    if mv.Replace? {
      SameStateKeepsCounts(q, q', mv.m.key, mv.m);
    } else if mv.Extend? {
      SameStateKeepsCounts(q, q', q.leases[mv.lease].key, q'.messages[q.leases[mv.lease].key]);
    } else if mv.Requeue? {
      ChangeKeepsCounts(q, q', q.leases[mv.lease].key, q'.messages[q.leases[mv.lease].key]);
    } else {
      ChangeKeepsCounts(q, q', mv.key, q'.messages[mv.key]);
    }
  }

  lemma PlayKeepsCounts(q: Queue, mv: Move)
    requires Inv(q) && Enabled(q, mv)
    ensures CountsOk(Play(q, mv))
  {
    var q' := Play(q, mv);
    if mv.Replace? || mv.Grant? || mv.Requeue? || mv.Extend? || mv.Ripen? {
      ChangesKeepCounts(q, mv);
    } else {
      hide DelaysOk;
      hide RefsOk;
      hide DlqOk;
      hide CountsOk;
      hide Left;
      hide Entered;
      hide Gone;
      hide Armed;
      hide Undue;
      if mv.Enqueue? {
        InsertKeepsCounts(q, q', mv.m, mv.meta);
      } else if mv.Settle? {
        DropKeepsCounts(q, q', q.leases[mv.lease].key);
      } else if mv.Bury? {
        DropKeepsCounts(q, q', mv.key);
      } else if mv.Purge? {
        PurgeKeepsCounts(q, mv.group);
      } else if mv.Knobs? {
        KnobsKeepsCounts(q, mv.group, mv.meta);
      } else {
        SameTables(q, q');
      }
    }
  }

  lemma SameTables(q: Queue, q': Queue)
    requires CountsOk(q) && q'.messages == q.messages && q'.groups == q.groups
    ensures CountsOk(q')
  {
  }

  lemma PlayKeepsRows(q: Queue, mv: Move)
    requires RowsOk(q) && Enabled(q, mv)
    ensures RowsOk(Play(q, mv))
  {
    hide KeysOk;
    hide LeasesOk;
    hide DelaysOk;
    hide RefsOk;
    hide DlqOk;
    match mv
    case Enqueue(m, meta, expiry) => EnqueueKeepsRows(q, m, meta, expiry);
    case Replace(m) => ReplaceKeepsRows(q, m);
    case Grant(key, consumer, deadline, maxLife) => GrantKeepsRows(q, key, consumer, deadline, maxLife);
    case Requeue(l, attempt, at) => RequeueKeepsRows(q, l, attempt, at);
    case Extend(l, deadline) => ExtendKeepsRows(q, l, deadline);
    case Ripen(key, due) => RipenKeepsRows(q, key, due);
    case Settle(l) => SettleKeepsRows(q, l);
    case Bury(key, letter) => BuryKeepsRows(q, key, letter);
    case Redeem(dead) => RedeemKeepsRows(q, dead);
    case Purge(group) => PurgeKeepsRows(q, group);
    case Knobs(group, meta) => KnobsKeepsRows(q, group, meta);
    case Tag(l, token) => TagKeepsRows(q, l, token);
    case Arm(t, epoch) => ArmKeepsRows(q, t, epoch);
    case Disarm(t) => DisarmKeepsRows(q, t);
  }

  /** Every elementary move keeps the whole invariant. */
  lemma PlayKeepsInv(q: Queue, mv: Move)
    requires Inv(q) && Enabled(q, mv)
    ensures Inv(Play(q, mv))
  {
    PlayKeepsRows(q, mv);
    PlayKeepsCounts(q, mv);
    hide Play;
    hide Enabled;
  }
}
