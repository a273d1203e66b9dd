/** The state machine object: handlers that read the committed store, change records step by
    step and write them to the batch, each proved against what its command means. */
module Fsm {
  import opened Bytes
  import opened Store
  import opened Commands
  import opened Backoff
  import H = Handlers
  import R = Replay

  /** What applying one log entry reports. */
  datatype Outcome = Skipped | Undecodable | Halted(code: nat) | Done(res: Result)

  class Machine {
    var db: Db
    var b: Db
    var row: Option<nat>
    var appliedIndex: nat

    constructor (db0: Db, row0: Option<nat>)
      ensures Node() == R.Restarted(R.Node(db0, row0, 0))
    {
      db := db0;
      b := db0;
      row := row0;
      appliedIndex := if row0.Some? then row0.value else 0;
    }

    ghost function Node(): R.Node
      reads this
    {
      R.Node(db, row, appliedIndex)
    }

    // ----- Publishing -----

    /** Writes one message and its timers under the evolving meta. */
    method PublishOne(c: PublishCmd, gm0: GroupMeta) returns (id: nat, gm: GroupMeta)
      modifies this`b
      ensures b == old(b).(q := H.PublishOne(old(b).q, c, gm0))
      ensures id == gm0.nextSeq && gm == H.MetaAfterPublish(c, gm0)
    {
      gm := gm0;
      if c.weight.Some? { gm := gm.(weight := c.weight.value); }
      if c.batchSize.Some? && c.batchSize.value > 0 { gm := gm.(batchSize := c.batchSize.value); }
      if gm.weight == 0.0 { gm := gm.(weight := 1.0); }
      assert gm == H.Knobs(c, gm0);
      id := gm.nextSeq;
      gm := gm.(nextSeq := gm.nextSeq + 1, total := gm.total + 1, lastActivity := c.now);
      var msg := Message(MsgKey(c.group, id), c.payload, c.headers, c.notBefore, 0, 0, c.maxAttempts, c.now, Ready,
                         0, 0, c.issueToken, c.externalToken);
      if c.notBefore > c.now {
        msg := msg.(state := Delayed);
        gm := gm.(delayed := gm.delayed + 1);
        b := b.(q := AddTimer(b.q, c.notBefore, ReadyAt(msg.key), msg.epoch));
      } else {
        gm := gm.(ready := gm.ready + 1);
      }
      assert gm == H.MetaAfterPublish(c, gm0);
      if c.ttlExpiry > c.now {
        msg := msg.(ttl := c.ttlExpiry - c.now);
        b := b.(q := AddTimer(b.q, c.ttlExpiry, MsgExpiry(msg.key), 0));
      }
      assert msg == H.NewMessage(c, gm0.nextSeq);
      hide H.NewMessage;
      hide H.MetaAfterPublish;
      b := b.(q := PutMsg(b.q, msg));
    }

    method RecordDedup(c: PublishCmd, id: nat)
      modifies this`b
      ensures b == H.RecordDedup(old(b), c, id)
    {
      if c.dedupKey != "" && c.dedupExpiry > c.now {
        b := b.(dedup := b.dedup[DedupKey(c.group.lane, c.dedupKey) := DedupRow(id, c.dedupExpiry)]);
        b := b.(q := AddTimer(b.q, c.dedupExpiry, DedupExpiry(c.group.lane, c.dedupKey), 0));
      }
    }

    method ApplyPublish(c: PublishCmd) returns (res: Result)
      modifies this`b
      ensures Applied(b, res) == H.ApplyPublish(db, old(b), c)
    {
      if c.dedupKey != "" {
        var hit := H.CheckDedup(db.dedup, c);
        if hit.Some? { return Published(hit.value, true); }
      }
      var id, gm := PublishOne(c, LoadMeta(db.q, c.group));
      b := b.(q := PutMeta(b.q, c.group, gm));
      RecordDedup(c, id);
      return Published(id, false);
    }

    /** One pass over the items with an evolving meta per group and the batch's own dedup
        keys, then one write per touched group. */
    method ApplyPublishBatch(items: seq<PublishCmd>) returns (res: Result)
      modifies this`b
      ensures Applied(b, res) == H.ApplyPublishBatch(db, old(b), items)
    {
      hide H.PublishOne;
      hide H.MetaAfterPublish;
      hide H.RecordDedup;
      hide H.CheckDedup;
      hide H.Joined;
      hide LoadMeta;
      var cache: map<string, (Group, GroupMeta)> := map[];
      var order: seq<string>, seen: map<string, nat>, out: seq<ItemResult> := [], map[], [];
      var i := 0;
      while i < |items|
        invariant i <= |items|
        invariant H.BatchState(b, cache, order, seen, out) == H.BatchUpTo(db, old(b), items, i)
      {
        var c := items[i];
        i := i + 1;
        var dk, gk := H.Joined(c.group.lane, c.dedupKey), H.Joined(c.group.lane, c.group.name);
        if c.dedupKey != "" {
          var hit := H.CheckDedup(db.dedup, c);
          if hit.Some? {
            out := out + [ItemResult(hit.value, true)];
            continue;
          }
          if dk in seen {
            out := out + [ItemResult(seen[dk], true)];
            continue;
          }
        }
        if gk !in cache {
          cache := cache[gk := (c.group, LoadMeta(db.q, c.group))];
          order := order + [gk];
        }
        var id, gm := PublishOne(c, cache[gk].1);
        cache := cache[gk := (cache[gk].0, gm)];
        RecordDedup(c, id);
        if c.dedupKey != "" { seen := seen[dk := id]; }
        out := out + [ItemResult(id, false)];
      }
      ghost var b0 := b;
      for j := 0 to |order|
        invariant b == b0.(q := H.Persisted(b0.q, cache, order[..j]))
      {
        assert order[..j + 1][..j] == order[..j];
        if order[j] in cache { b := b.(q := PutMeta(b.q, cache[order[j]].0, cache[order[j]].1)); }
      }
      assert order[..|order|] == order;
      return Batched(out);
    }

    // ----- Leasing -----

    /** Walks the group's messages in id order to the first ready one. */
    method HeadReady(g: Group) returns (head: Option<nat>)
      ensures head == H.HeadReady(db.q, g)
    {
      var rest := set k | k in db.q.messages && k.group == g :: k.id;
      while rest != {}
        invariant forall x :: x in rest ==> MsgKey(g, x) in db.q.messages
        invariant H.ReadyIds(db.q, g) <= rest
        decreases |rest|
      {
        LeastExists(rest);
        var id :| id in rest && forall x :: x in rest ==> id <= x;
        if db.q.messages[MsgKey(g, id)].state == Ready {
          LeastIs(H.ReadyIds(db.q, g), id);
          return Some(id);
        }
        rest := rest - {id};
      }
      return None;
    }

    method ApplyLease(c: Command) returns (res: Result)
      requires c.LeaseNext?
      modifies this`b
      ensures Applied(b, res) == H.ApplyLease(db, old(b), c)
    {
      hide H.HeadReady;
      var head := HeadReady(c.group);
      if head.None? { return Nothing; }
      HeadIsLive(db.q, c.group, head.value);
      var key, l := MsgKey(c.group, head.value), db.q.nextLease;
      b := b.(q := b.q.(nextLease := l + 1));
      var msg := db.q.messages[key];
      msg := msg.(state := Leased, curLease := l, epoch := Bump32(msg.epoch));
      var gm := if c.group in db.q.groups then db.q.groups[c.group] else ZERO_META;
      if gm.ready > 0 { gm := gm.(ready := gm.ready - 1); }
      gm := gm.(inflight := gm.inflight + 1);
      b := b.(q := AddTimer(b.q, c.deadline, LeaseDeadline(l), msg.epoch));
      if c.maxLife > 0 { b := b.(q := AddTimer(b.q, c.maxLife, LeaseMaxLife(l), 0)); }
      b := b.(q := b.q.(messages := b.q.messages[key := msg]));
      b := b.(q := PutLease(b.q, l, Lease(key, c.consumer, c.deadline, msg.attempt, msg.epoch, 0, [], c.deadline)));
      b := b.(q := PutMeta(b.q, c.group, gm));
      return LeaseGranted(l, msg, c.deadline);
    }

    /** Removes the lease row, its token row and its deadline timer. */
    method EndLease(l: nat, lease: Lease)
      modifies this`b
      ensures b == H.EndLease(old(b), l, lease)
    {
      b := b.(q := DropLease(b.q, l));
      if lease.token != [] { b := b.(tokens := b.tokens - {lease.token}); }
      b := b.(q := DelTimer(b.q, lease.deadline, LeaseDeadline(l)));
    }

    method ApplyAck(l: nat) returns (res: Result)
      modifies this`b
      ensures Applied(b, res) == H.ApplyAck(db, old(b), l)
    {
      if l !in db.q.leases { return Acked(false); }
      var lease := db.q.leases[l];
      b := b.(q := DropMsg(b.q, lease.key));
      EndLease(l, lease);
      if lease.key.group in db.q.groups {
        var gm := db.q.groups[lease.key.group];
        gm := gm.(inflight := Decr(gm.inflight));
        gm := gm.(total := Decr(gm.total));
        b := b.(q := PutMeta(b.q, lease.key.group, gm));
      }
      return Acked(true);
    }

    method ApplyExtend(l: nat, deadline: nat) returns (res: Result)
      modifies this`b
      ensures Applied(b, res) == H.ApplyExtend(db, old(b), l, deadline)
    {
      if l !in db.q.leases { return LeaseExtended(false); }
      var lease := db.q.leases[l];
      if lease.key !in db.q.messages { return LeaseExtended(false); }
      var msg := db.q.messages[lease.key];
      if msg.state != Leased || msg.curLease != l { return LeaseExtended(false); }
      b := b.(q := DelTimer(b.q, lease.deadline, LeaseDeadline(l)));
      msg := msg.(epoch := Bump32(msg.epoch));
      lease := lease.(deadline := deadline, extendCount := lease.extendCount + 1, epoch := msg.epoch);
      b := b.(q := AddTimer(b.q, deadline, LeaseDeadline(l), msg.epoch));
      b := b.(q := b.q.(messages := b.q.messages[lease.key := msg]));
      b := b.(q := PutLease(b.q, l, lease));
      return LeaseExtended(true);
    }

    // ----- Requeueing and dead letters -----

    method MakeReady(m: Message, gm0: GroupMeta, readyAt: nat, now: nat) returns (gm: GroupMeta)
      modifies this`b
      ensures (b.q, gm) == H.MakeReady(old(b).q, m, gm0, readyAt, now) && b == old(b).(q := b.q)
    {
      gm := gm0;
      var msg := m.(curLease := 0, epoch := Bump32(m.epoch));
      if readyAt > now {
        msg := msg.(state := Delayed);
        gm := gm.(delayed := gm.delayed + 1);
        b := b.(q := AddTimer(b.q, readyAt, ReadyAt(msg.key), msg.epoch));
      } else {
        msg := msg.(state := Ready);
        gm := gm.(ready := gm.ready + 1);
      }
      b := b.(q := PutMsg(b.q, msg));
    }

    method DeadLetter(m: Message, reason: string, meta: map<string, string>, ts: nat)
      modifies this`b
      ensures b == H.DeadLetterMsg(db, old(b), m, reason, meta, ts)
    {
      b := b.(q := PutDead(b.q, DlqKey(m.key, ts), Store.DeadLetter(m, m.attempt, reason, meta, ts)));
      b := b.(q := DropMsg(b.q, m.key));
      if H.ACTIVITY_LANE <= m.key.group.lane && m.payload.ActTask? && m.payload.run != 0 {
        var _ := RecordActivityTerminal(m.payload.run, m.payload.sched, true,
            H.Ascii("activity_dead_lettered: " + reason), ts);
      }
    }

    method PutIfKnown(g: Group, gm: GroupMeta)
      modifies this`b
      ensures b == H.PutIfKnown(db, old(b), g, gm)
    {
      if g in db.q.groups { b := b.(q := PutMeta(b.q, g, gm)); }
    }

    method DeadLetterCounted(m: Message, gm: GroupMeta, reason: string, meta: map<string, string>, ts: nat)
      modifies this`b
      ensures b == H.NackDead(db, old(b), m, gm, reason, meta, ts).b
    {
      DeadLetter(m, reason, meta, ts);
      PutIfKnown(m.key.group, gm.(total := Decr(gm.total)));
    }

    method ApplyNack(l: nat, mode: NackMode, delay: nat, meta: map<string, string>, now: nat) returns (res: Result)
      modifies this`b
      ensures Applied(b, res) == H.ApplyNack(db, old(b), l, mode, delay, meta, now)
    {
      hide H.DeadLetterMsg;
      hide H.EndLease;
      if l !in db.q.leases { return Nacked(false, false); }
      var lease := db.q.leases[l];
      EndLease(l, lease);
      if !H.Holds(db.q, l) { return Nacked(false, false); }
      var msg, gm := db.q.messages[lease.key], H.MetaOrZero(db.q, lease.key.group);
      gm := gm.(inflight := Decr(gm.inflight));
      var readyAt: nat;
      match mode {
        case Retry =>
          msg := msg.(attempt := msg.attempt + 1);
          if msg.attempt >= H.MaxAttempts(msg) {
            DeadLetterCounted(msg, gm, "max_attempts", meta, now);
            return Nacked(true, true);
          }
          var wait := BackoffMs(msg.key.id, msg.attempt);
          if delay > 0 { wait := delay; }
          readyAt := Add64(now, wait);
        case DeadLetterNow =>
          DeadLetterCounted(msg, gm, "terminal_nack", meta, now);
          return Nacked(true, true);
        case RequeueNoPenalty =>
          readyAt := Add64(now, delay);
      }
      gm := MakeReady(msg, gm, readyAt, now);
      PutIfKnown(msg.key.group, gm);
      return Nacked(true, false);
    }

    // ----- Timers -----

    method FireReadyAt(key: MsgKey, epoch: nat)
      modifies this`b
      ensures b == H.FireReadyAt(db, old(b), key, epoch)
    {
      if key in db.q.messages {
        var msg := db.q.messages[key];
        if msg.state == Delayed && msg.epoch == epoch {
          msg := msg.(state := Ready, epoch := Bump32(msg.epoch));
          if key.group in db.q.groups {
            var gm := db.q.groups[key.group];
            gm := gm.(ready := gm.ready + 1);
            gm := gm.(delayed := Decr(gm.delayed));
            b := b.(q := PutMeta(b.q, key.group, gm));
          }
          b := b.(q := b.q.(messages := b.q.messages[key := msg]));
        }
      }
    }

    method FireDeadline(l: nat, epoch: nat, fireAt: nat)
      modifies this`b
      ensures b == H.FireDeadline(db, old(b), l, epoch, fireAt)
    {
      if H.Holds(db.q, l) && db.q.messages[db.q.leases[l].key].epoch == epoch {
        var lease := db.q.leases[l];
        b := b.(q := DropLease(b.q, l));
        if lease.token != [] { b := b.(tokens := b.tokens - {lease.token}); }
        var msg, gm := db.q.messages[lease.key], H.MetaOrZero(db.q, lease.key.group);
        gm := MakeReady(msg, gm.(inflight := Decr(gm.inflight)), fireAt, fireAt);
        PutIfKnown(msg.key.group, gm);
      }
    }

    method FireMaxLife(l: nat, fireAt: nat)
      modifies this`b
      ensures b == H.FireMaxLife(db, old(b), l, fireAt)
    {
      hide H.DeadLetterMsg;
      if H.Holds(db.q, l) {
        var lease := db.q.leases[l];
        EndLease(l, lease);
        var gm := H.MetaOrZero(db.q, lease.key.group);
        DeadLetterCounted(db.q.messages[lease.key], gm.(inflight := Decr(gm.inflight)), "max_lease_lifetime", map[],
            fireAt);
      }
    }

    method FireExpiry(key: MsgKey, fireAt: nat)
      modifies this`b
      ensures b == H.FireExpiry(db, old(b), key, fireAt)
    {
      hide H.DeadLetterMsg;
      if key in db.q.messages && db.q.messages[key].state != Leased {
        var msg, gm := db.q.messages[key], H.MetaOrZero(db.q, key.group);
        if msg.state == Ready {
          gm := gm.(ready := Decr(gm.ready));
        } else {
          gm := gm.(delayed := Decr(gm.delayed));
        }
        DeadLetterCounted(msg, gm, "ttl", map[], fireAt);
      }
    }

    method ApplyFire(t: Timer, fireAt: nat) returns (res: Result)
      modifies this`b
      ensures Applied(b, res) == H.ApplyFire(db, old(b), t, fireAt)
    {
      hide H.FireReadyAt;
      hide H.FireDeadline;
      hide H.FireMaxLife;
      hide H.FireExpiry;
      hide H.AppendExternal;
      if t !in db.q.timers { return NoResult; }
      var epoch := db.q.timers[t];
      match t.ref {
        case ReadyAt(key) => FireReadyAt(key, epoch);
        case LeaseDeadline(l) => FireDeadline(l, epoch, fireAt);
        case LeaseMaxLife(l) => FireMaxLife(l, fireAt);
        case WfFired(run, started) => AppendExternalEvent(run, TimerFired, Fired(started), fireAt);
        case MsgExpiry(key) => FireExpiry(key, fireAt);
        case DedupExpiry(lane, key) =>
          var k := DedupKey(lane, key);
          if k in db.dedup && db.dedup[k].expiry <= fireAt { b := b.(dedup := b.dedup - {k}); }
      }
      b := b.(q := DelTimer(b.q, t.due, t.ref));
      return NoResult;
    }

    // ----- Control -----

    method ApplyGroupConfig(g: Group, weight: Option<real>, batchSize: Option<nat>) returns (res: Result)
      modifies this`b
      ensures Applied(b, res) == H.ApplyGroupConfig(db, old(b), g, weight, batchSize)
    {
      var gm := LoadMeta(db.q, g);
      if weight.Some? { gm := gm.(weight := weight.value); }
      if batchSize.Some? && batchSize.value > 0 { gm := gm.(batchSize := batchSize.value); }
      if gm.weight == 0.0 { gm := gm.(weight := 1.0); }
      b := b.(q := PutMeta(b.q, g, gm));
      return GroupDone(0);
    }

    /** Deletes every ready and delayed message of the group, counting them. */
    method ScanLeasable(g: Group) returns (dropped: nat)
      modifies this`b
      ensures b == Without(old(b), H.Droppable(db.q, g)) && dropped == |H.Droppable(db.q, g)|
    {
      hide Scanned;
      hide Without;
      hide H.Droppable;
      dropped := 0;
      var rest := set k | k in db.q.messages && k.group == g;
      ghost var gone: set<MsgKey>, b0 := {}, b;
      ScanStart(db.q, g, rest, b);
      while rest != {}
        invariant Scanned(db.q, g, rest, gone)
        invariant dropped == |gone| && b == Without(b0, gone)
        decreases |rest|
      {
        var k :| k in rest;
        ScanNext(db.q, g, rest, gone, k);
        rest := rest - {k};
        if db.q.messages[k].state != Leased {
          DropNext(b0, gone, k);
          b := b.(q := b.q.(messages := b.q.messages - {k}));
          dropped := dropped + 1;
          gone := gone + {k};
        }
      }
      ScanEnd(db.q, g, gone);
    }

    method DropLeasable(g: Group, gm0: GroupMeta) returns (dropped: nat)
      modifies this`b
      ensures Applied(b, GroupDone(dropped)) == H.DropLeasable(db, old(b), g, gm0)
    {
      hide H.Droppable;
      dropped := ScanLeasable(g);
      var gm := gm0.(ready := 0, delayed := 0);
      gm := gm.(total := if gm.total >= dropped then gm.total - dropped else gm.inflight);
      b := b.(q := PutMeta(b.q, g, gm));
    }

    method ApplyLifecycle(g: Group, op: GroupOp) returns (res: Result)
      modifies this`b
      ensures Applied(b, res) == H.ApplyLifecycle(db, old(b), g, op)
    {
      hide H.DropLeasable;
      if g !in db.q.groups { return GroupDone(0); }
      var gm := db.q.groups[g];
      if op.Pause? || op.Resume? {
        gm := gm.(paused := op.Pause?);
        b := b.(q := PutMeta(b.q, g, gm));
        return GroupDone(0);
      }
      var dropped := DropLeasable(g, gm);
      return GroupDone(dropped);
    }

    method ApplyIssueToken(l: nat, hash: Blob) returns (res: Result)
      modifies this`b
      ensures Applied(b, res) == H.ApplyIssueToken(db, old(b), l, hash)
    {
      if l !in db.q.leases { return Acked(false); }
      var lease := db.q.leases[l].(token := hash);
      b := b.(q := PutLease(b.q, l, lease));
      b := b.(tokens := b.tokens[hash := l]);
      return Acked(true);
    }

    method ApplyComplete(hash: Blob, success: bool, meta: map<string, string>, delay: nat, now: nat)
            returns (res: Result)
      modifies this`b
      ensures Applied(b, res) == H.ApplyComplete(db, old(b), hash, success, meta, delay, now)
    {
      hide H.ApplyAck;
      hide H.ApplyNack;
      if hash !in db.tokens { return TokenCompleted(false, false, true); }
      var l := db.tokens[hash];
      b := b.(tokens := b.tokens - {hash});
      if success {
        var r := ApplyAck(l);
        return TokenCompleted(r.Acked? && r.ok, false, false);
      }
      var r := ApplyNack(l, Retry, delay, meta, now);
      return TokenCompleted(r.Nacked? && r.ok, r.Nacked? && r.deadLettered, false);
    }

    method ApplySingleton(op: SingletonOp, name: string, holder: string, ttl: nat, fence: nat, now: nat)
            returns (res: Result)
      modifies this`b
      ensures Applied(b, res) == H.ApplySingleton(db, old(b), op, name, holder, ttl, fence, now)
    {
      var found := name in db.singletons;
      var rec := if found then db.singletons[name] else SingletonRec("", 0, 0);
      match op {
        case Acquire =>
          var held := found && rec.holder != "" && rec.deadline > now && rec.holder != holder;
          if held { return SingletonIs(false, rec.fence, rec.holder); }
          rec := SingletonRec(holder, Add64(now, ttl), rec.fence + 1);
          b := b.(singletons := b.singletons[name := rec]);
          return SingletonIs(true, rec.fence, holder);
        case Renew =>
          if !found || rec.holder != holder || rec.fence != fence { return SingletonIs(false, rec.fence, rec.holder); }
          rec := rec.(deadline := Add64(now, ttl));
          b := b.(singletons := b.singletons[name := rec]);
          return SingletonIs(true, rec.fence, holder);
        case Release =>
          if found && rec.holder == holder && rec.fence == fence {
            rec := rec.(holder := "");
            rec := rec.(deadline := 0);
            b := b.(singletons := b.singletons[name := rec]);
            return SingletonIs(true, 0, "");
          }
          return SingletonIs(false, 0, "");
      }
    }

    /** Walks the id's dead letters in order of death to the first that is its own. */
    method ApplyRedrive(g: Group, id: nat, now: nat) returns (res: Result)
      modifies this`b
      ensures Applied(b, res) == H.ApplyRedrive(db, old(b), g, id, now)
    {
      hide H.PublishOne;
      hide H.MetaAfterPublish;
      var key := MsgKey(g, id);
      var rest := set d | d in db.q.dlq && d.key == key :: d.deadTs;
      var found: Option<nat> := None;
      while rest != {}
        invariant found.None? && b == old(b)
        invariant forall x :: x in rest ==> DlqKey(key, x) in db.q.dlq
        invariant H.DeadStamps(db.q, key) <= rest
        decreases |rest|
      {
        LeastExists(rest);
        var ts :| ts in rest && forall x :: x in rest ==> ts <= x;
        if db.q.dlq[DlqKey(key, ts)].original.key.id == id {
          LeastIs(H.DeadStamps(db.q, key), ts);
          found := Some(ts);
          break;
        }
        rest := rest - {ts};
      }
      if found.None? { return Redriven(false, 0); }
      StampIsDead(db.q, key, found.value);
      var d := DlqKey(key, found.value);
      var newId, gm := PublishOne(H.RedriveCmd(g, db.q.dlq[d].original, now), LoadMeta(db.q, g));
      b := b.(q := PutMeta(b.q, g, gm));
      b := b.(q := b.q.(dlq := b.q.dlq - {d}));
      return Redriven(true, newId);
    }

    // ----- Durable execution -----

    method PublishReady(g: Group, payload: Payload, now: nat)
      modifies this`b
      ensures b == H.PublishReady(db, old(b), g, payload, now)
    {
      var gm := LoadMeta(db.q, g);
      if gm.weight == 0.0 { gm := gm.(weight := 1.0); }
      var id := gm.nextSeq;
      gm := gm.(nextSeq := gm.nextSeq + 1, total := gm.total + 1, ready := gm.ready + 1, lastActivity := now);
      var msg := Message(MsgKey(g, id), payload, map[], 0, 0, 0, 0, now, Ready, 0, 0, false, None);
      b := b.(q := PutMsg(b.q, msg));
      b := b.(q := PutMeta(b.q, g, gm));
    }

    method DispatchWorkflowTask(id: nat, run0: Run) returns (run: Run)
      modifies this`b
      ensures (b, run) == H.DispatchTask(db, old(b), id, run0)
    {
      hide H.PublishReady;
      run := run0;
      if run.status != WfRunning || run.pending { return; }
      PublishReady(H.TaskGroup(run.wfType, id), WfTask(id, run.wfType), run.lastEvent);
      run := run.(pending := true);
    }

    method CreateRun(wfType: string, tenant: string, input: Blob, parent: nat, now: nat) returns (id: nat)
      modifies this`b
      ensures b == H.CreateRun(db, old(b), wfType, tenant, input, parent, now) && id == db.wf.nextRun
    {
      hide H.DispatchTask;
      id := db.wf.nextRun;
      b := b.(wf := b.wf.(nextRun := id + 1));
      var run := Run(wfType, tenant, WfRunning, 0, 0, input, now, now, parent, false);
      b := H.PutEvent(b, id, 1, Event(WorkflowStarted, now, Raw(input)));
      run := run.(curSeq := 1);
      run := DispatchWorkflowTask(id, run);
      b := H.PutRun(b, id, run);
    }

    method AppendExternalEvent(id: nat, kind: EventKind, attrs: Attrs, now: nat)
      modifies this`b
      ensures b == H.AppendExternal(db, old(b), id, kind, attrs, now)
    {
      hide H.DispatchTask;
      hide H.PutEvent;
      hide H.PutRun;
      if id !in db.wf.runs || db.wf.runs[id].status != WfRunning { return; }
      var run := db.wf.runs[id];
      var at := run.curSeq + 1;
      b := H.PutEvent(b, id, at, Event(kind, now, attrs));
      run := run.(curSeq := at);
      run := run.(epoch := Bump32(run.epoch), lastEvent := now);
      run := run.(pending := false);
      assert run == H.Advanced(db.wf.runs[id], now) && at == run.curSeq;
      hide H.Advanced;
      run := DispatchWorkflowTask(id, run);
      b := H.PutRun(b, id, run);
    }

    method RecordActivityTerminal(id: nat, sched: nat, failed: bool, result: Blob, now: nat) returns (res: Result)
      modifies this`b
      ensures Applied(b, res) == H.RecordActivityTerminal(db, old(b), id, sched, failed, result, now)
    {
      hide H.AppendExternal;
      if id !in db.wf.runs { return Appended(false, "missing", 0); }
      var run := db.wf.runs[id];
      if run.status != WfRunning { return Appended(false, "closed", 0); }
      var k := EventKey(id, sched);
      if k in db.wf.done { return Appended(false, "duplicate_completion", 0); }
      if k !in db.wf.history || db.wf.history[k].kind != ActivityScheduled {
        return Appended(false, "invalid_completion", 0);
      }
      b := b.(wf := b.wf.(done := b.wf.done + {k}));
      AppendExternalEvent(id, if failed then ActivityFailed else ActivityCompleted, Outcome(sched, !failed, result),
          now);
      return Appended(true, "", run.curSeq + 1);
    }

    /** One event of a decision and its side effect. */
    method AppendOne(id: nat, run: Run, at: nat, e: EventIn, now: nat)
      modifies this`b
      ensures b == H.AppendOne(db, old(b), id, run, at, e, now)
    {
      hide H.PublishReady;
      hide H.CreateRun;
      b := H.PutEvent(b, id, at, Event(e.kind, now, e.attrs));
      if e.kind == ActivityScheduled {
        if e.attrs.Schedule? && e.attrs.actType != "" {
          PublishReady(H.ActivityGroup(e.attrs.actType, e.attrs.tenant),
              ActTask(id, at, e.attrs.actType, e.attrs.input), 0);
        }
      } else if e.kind == TimerStarted {
        if e.attrs.FireAt? && e.attrs.at != 0 { b := b.(q := AddTimer(b.q, e.attrs.at, WfFired(id, at), 0)); }
      } else if e.kind == WorkflowContinuedAsNew {
        var _ := CreateRun(run.wfType, run.tenant, H.NextInputOf(e.attrs), id, now);
      }
    }

    /** The fence, then the decision's events in order, then the run's new record. */
    method ApplyAppend(id: nat, epoch: nat, atSeq: nat, events: seq<EventIn>, now: nat) returns (res: Result)
      modifies this`b
      ensures Applied(b, res) == H.ApplyAppend(db, old(b), id, epoch, atSeq, events, now)
    {
      hide H.AppendOne;
      if id !in db.wf.runs { return Appended(false, "missing", 0); }
      var run := db.wf.runs[id];
      ghost var run0 := run;
      if run.status != WfRunning { return Appended(false, "closed", 0); }
      if epoch != run.epoch || atSeq != run.curSeq { return Appended(false, "stale", 0); }
      var next := run.curSeq;
      for i := 0 to |events|
        invariant next == run0.curSeq + i
        invariant run == run0.(status := H.StatusUpTo(events, run0.status, i))
        invariant b == H.AppendUpTo(db, old(b), id, run0, events, now, i)
      {
        next := next + 1;
        AppendOneSameRun(db, b, id, run0, run, next, events[i], now);
        AppendOne(id, run, next, events[i], now);
        run := run.(status := H.StatusAfter(events[i].kind, run.status));
      }
      run := run.(curSeq := next);
      run := run.(epoch := Bump32(run.epoch), lastEvent := now, pending := false);
      b := H.PutRun(b, id, run);
      return Appended(true, "", next);
    }

    method ApplyCancel(id: nat, reason: Blob, now: nat) returns (res: Result)
      modifies this`b
      ensures Applied(b, res) == H.ApplyCancel(db, old(b), id, reason, now)
    {
      if id !in db.wf.runs { return Appended(false, "missing", 0); }
      var run := db.wf.runs[id];
      if run.status != WfRunning { return Appended(false, "closed", 0); }
      var at := run.curSeq + 1;
      b := H.PutEvent(b, id, at, Event(WorkflowCanceled, now, Raw(reason)));
      run := run.(curSeq := at, epoch := Bump32(run.epoch));
      run := run.(status := WfCanceled, lastEvent := now, pending := false);
      b := H.PutRun(b, id, run);
      return Appended(true, "", at);
    }

    // ----- One command, one entry -----

    /** The switch over command types; `b` starts as an empty batch over the committed store. */
    method Dispatch(c: Command) returns (res: Result)
      requires b == db
      modifies this`b
      ensures Applied(b, res) == H.Step(db, c)
    {
      hide H.ApplyPublish;
      hide H.ApplyPublishBatch;
      hide H.ApplyLease;
      hide H.ApplyAck;
      hide H.ApplyNack;
      hide H.ApplyExtend;
      hide H.ApplyFire;
      hide H.ApplyGroupConfig;
      hide H.ApplyLifecycle;
      hide H.ApplyIssueToken;
      hide H.ApplyComplete;
      hide H.ApplySingleton;
      hide H.ApplyRedrive;
      hide H.CreateRun;
      hide H.ApplyAppend;
      hide H.RecordActivityTerminal;
      hide H.AppendExternal;
      hide H.ApplyCancel;
      match c {
        case Publish(p) => res := ApplyPublish(p);
        case PublishBatch(items) => res := ApplyPublishBatch(items);
        case LeaseNext(_, _, _, _) => res := ApplyLease(c);
        case Ack(l) => res := ApplyAck(l);
        case Nack(l, mode, delay, meta, now) => res := ApplyNack(l, mode, delay, meta, now);
        case ExtendLease(l, deadline) => res := ApplyExtend(l, deadline);
        case Fire(t, fireAt) => res := ApplyFire(t, fireAt);
        case GroupConfig(g, weight, batchSize) => res := ApplyGroupConfig(g, weight, batchSize);
        case Lifecycle(g, op) => res := ApplyLifecycle(g, op);
        case IssueToken(l, hash) => res := ApplyIssueToken(l, hash);
        case Complete(hash, success, meta, delay, now) => res := ApplyComplete(hash, success, meta, delay, now);
        case Singleton(op, name, holder, ttl, fence, now) => res := ApplySingleton(op, name, holder, ttl, fence, now);
        case Redrive(g, id, now) => res := ApplyRedrive(g, id, now);
        case StartRun(wfType, tenant, input, parent, now) =>
          var id := CreateRun(wfType, tenant, input, parent, now);
          res := Started(id);
        case AppendEvents(run, epoch, atSeq, events, now) => res := ApplyAppend(run, epoch, atSeq, events, now);
        case CompleteActivity(run, sched, success, result, now) =>
            res := RecordActivityTerminal(run, sched, !success, result, now);
        case SignalRun(run, name, payload, now) =>
          AppendExternalEvent(run, SignalReceived, Signal(name, payload), now);
          res := Appended(true, "", 0);
        case CancelRun(run, reason, now) => res := ApplyCancel(run, reason, now);
        case Unknown(_) => res := NoResult;
      }
    }

    /** Applies one entry at most once: data and applied index commit together, an entry that
        is not new or does not decode changes nothing, and an unknown command stops the node
        where it is. */
    method Apply(e: R.Entry) returns (out: Outcome)
      modifies this
      ensures e.data.Some? && e.data.value.Unknown? ==> Node() == old(Node())
      ensures !(e.data.Some? && e.data.value.Unknown?) ==> Node() == R.Apply(R.NEVER, old(Node()), e)
      ensures out.Skipped? <==> !e.isCommand || e.index <= old(appliedIndex)
      ensures out.Undecodable? <==> e.isCommand && e.index > old(appliedIndex) && e.data.None?
      ensures out.Halted? <==> e.isCommand && e.index > old(appliedIndex) && e.data.Some? && e.data.value.Unknown?
      ensures out.Done? ==> out.res == H.Step(old(db), e.data.value).res
    {
      hide H.Step;
      if !e.isCommand { return Skipped; }
      if e.index <= appliedIndex { return Skipped; }
      if e.data.None? { return Undecodable; }
      if e.data.value.Unknown? { return Halted(e.data.value.code); }
      b := db;
      var res := Dispatch(e.data.value);
      row := Some(e.index);
      db := b;
      appliedIndex := e.index;
      return Done(res);
    }
  }

  // ----- Scans -----

  lemma LeastExists(s: set<nat>)
    requires s != {}
    ensures exists x :: x in s && forall y :: y in s ==> x <= y
  {
    var x := H.Least(s).value;
    assert x in s && forall y :: y in s ==> x <= y;
  }

  lemma LeastIs(s: set<nat>, x: nat)
    requires x in s && forall y :: y in s ==> x <= y
    ensures H.Least(s) == Some(x)
  {
  }

  /** `rest` is still to be visited; `gone` are the droppable messages visited so far. */
  ghost predicate Scanned(q: Queue, g: Group, rest: set<MsgKey>, gone: set<MsgKey>) {
    && (forall k :: k in rest ==> k in q.messages && k.group == g)
    && rest !! gone && gone <= H.Droppable(q, g) <= gone + rest
  }

  ghost function Without(b: Db, gone: set<MsgKey>): Db {
    b.(q := b.q.(messages := b.q.messages - gone))
  }

  lemma ScanStart(q: Queue, g: Group, rest: set<MsgKey>, b: Db)
    requires forall k :: k in rest <==> k in q.messages && k.group == g
    ensures Scanned(q, g, rest, {}) && b == Without(b, {})
  {
    assert b.q.messages - {} == b.q.messages;
  }

  lemma ScanEnd(q: Queue, g: Group, gone: set<MsgKey>)
    requires Scanned(q, g, {}, gone)
    ensures gone == H.Droppable(q, g)
  {
  }

  lemma ScanNext(q: Queue, g: Group, rest: set<MsgKey>, gone: set<MsgKey>, k: MsgKey)
    requires Scanned(q, g, rest, gone) && k in rest
    ensures k in q.messages && k !in gone
    ensures Scanned(q, g, rest - {k}, if q.messages[k].state != Leased then gone + {k} else gone)
  {
  }

  lemma DropNext(b: Db, gone: set<MsgKey>, k: MsgKey)
    ensures var b1 := Without(b, gone);
            Without(b, gone + {k}) == b1.(q := b1.q.(messages := b1.q.messages - {k}))
  {
    assert b.q.messages - (gone + {k}) == b.q.messages - gone - {k};
  }

  lemma HeadIsLive(q: Queue, g: Group, id: nat)
    requires H.HeadReady(q, g) == Some(id)
    ensures MsgKey(g, id) in q.messages
  {
    assert id in H.ReadyIds(q, g);
  }

  lemma StampIsDead(q: Queue, key: MsgKey, ts: nat)
    requires H.Least(H.DeadStamps(q, key)) == Some(ts)
    ensures DlqKey(key, ts) in q.dlq
  {
    assert ts in H.DeadStamps(q, key);
  }

  /** A decision's side effects do not depend on the status its earlier events set. */
  lemma AppendOneSameRun(db: Db, b: Db, id: nat, run: Run, run': Run, at: nat, e: EventIn, now: nat)
    requires run'.wfType == run.wfType && run'.tenant == run.tenant
    ensures H.AppendOne(db, b, id, run', at, e, now) == H.AppendOne(db, b, id, run, at, e, now)
  {
    hide H.CreateRun;
    hide H.PublishReady;
  }
}
