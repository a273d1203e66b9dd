/** Reaping a drained group forgets which ids it handed out. */
module Reaping {
  import opened Bytes
  import opened Store
  import opened Commands
  import opened Handlers
  import S = Safety
  import M = Moves

  /** A group's meta goes only if nothing is counted in it. */
  function Reap(db: Db, g: Group): Applied {
    if g !in db.q.groups || db.q.groups[g].total != 0 then Applied(db, GroupDone(0))
    else Applied(db.(q := db.q.(groups := db.q.groups - {g})), GroupDone(1))
  }

  /** Something outside the group's messages still names one of its ids. */
  ghost predicate Outstanding(q: Queue, g: Group) {
    || (exists t :: t in q.timers && (t.ref.ReadyAt? || t.ref.MsgExpiry?) && t.ref.key.group == g)
    || (exists d :: d in q.dlq && d.key.group == g)
  }

  /** A group whose total is zero has no message in any state. */
  lemma DrainedIsEmpty(q: Queue, g: Group)
    requires M.Inv(q) && g in q.groups && q.groups[g].total == 0
    ensures forall k :: k in q.messages ==> k.group != g
  {
    forall k | k in q.messages ensures k.group != g {
      S.DecrementsNeverSaturate(q, k);
    }
  }

  /** A successful reap keeps the invariant exactly when no timer and no dead letter of the
      group is left behind. */
  lemma ReapKeepsInvIff(db: Db, g: Group)
    requires M.Inv(db.q) && g in db.q.groups && db.q.groups[g].total == 0
    ensures M.Inv(Reap(db, g).b.q) <==> !Outstanding(db.q, g)
  {
    DrainedIsEmpty(db.q, g);
    ReapKeepsTables(db, g);
    ReapKeepsNames(db, g);
    hide M.KeysOk;
    hide M.LeasesOk;
    hide M.DelaysOk;
    hide M.RefsOk;
    hide M.DlqOk;
    hide M.CountsOk;
  }

  lemma ReapKeepsTables(db: Db, g: Group)
    requires M.Inv(db.q) && g in db.q.groups && forall k :: k in db.q.messages ==> k.group != g
    ensures var q' := db.q.(groups := db.q.groups - {g});
            M.KeysOk(q') && M.LeasesOk(q') && M.DelaysOk(q') && M.CountsOk(q')
  {
    var q' := db.q.(groups := db.q.groups - {g});
    assert M.KeysOk(q') by { KeysAfter(db.q, q', g); }
    assert M.LeasesOk(q') && M.DelaysOk(q') && M.CountsOk(q') by { OthersAfter(db.q, q', g); }
    hide *;
  }

  lemma KeysAfter(q: Queue, q': Queue, g: Group)
    requires M.KeysOk(q) && q' == q.(groups := q.groups - {g}) && forall k :: k in q.messages ==> k.group != g
    ensures M.KeysOk(q')
  {
    forall k | k in q'.messages ensures M.Known(q', k) { assert M.Known(q, k); }
  }

  lemma OthersAfter(q: Queue, q': Queue, g: Group)
    requires M.Inv(q) && q' == q.(groups := q.groups - {g})
    ensures M.LeasesOk(q') && M.DelaysOk(q') && M.CountsOk(q')
  {
    InvParts(q);
    hide M.Inv;
    LeasesAfter(q, q');
    DelaysAfter(q, q');
    CountsAfter(q, q', g);
  }

  lemma InvParts(q: Queue)
    requires M.Inv(q)
    ensures M.LeasesOk(q) && M.DelaysOk(q) && M.CountsOk(q) && M.RefsOk(q) && M.DlqOk(q)
  {
  }

  lemma LeasesAfter(q: Queue, q': Queue)
    requires M.LeasesOk(q) && q' == q.(groups := q'.groups)
    ensures M.LeasesOk(q')
  {
  }

  lemma DelaysAfter(q: Queue, q': Queue)
    requires M.DelaysOk(q) && q' == q.(groups := q'.groups)
    ensures M.DelaysOk(q')
  {
    forall k | k in q'.messages && q'.messages[k].state == Delayed ensures M.HasReadyAt(q', k) {
      assert M.HasReadyAt(q, k);
    }
  }

  lemma CountsAfter(q: Queue, q': Queue, g: Group)
    requires M.CountsOk(q) && q' == q.(groups := q.groups - {g})
    ensures M.CountsOk(q')
  {
    hide M.MetaExact;
  }

  lemma KnownAfter(q: Queue, q': Queue, g: Group, k: MsgKey)
    requires q' == q.(groups := q.groups - {g})
    ensures M.Known(q', k) <==> M.Known(q, k) && k.group != g
  {
  }

  lemma ReapKeepsNames(db: Db, g: Group)
    requires M.Inv(db.q) && g in db.q.groups
    ensures var q' := db.q.(groups := db.q.groups - {g});
            M.RefsOk(q') && M.DlqOk(q') <==> !Outstanding(db.q, g)
  {
    var q, q' := db.q, db.q.(groups := db.q.groups - {g});
    InvParts(q);
    hide M.Inv;
    hide M.LeasesOk;
    hide M.DelaysOk;
    hide M.CountsOk;
    forall k ensures M.Known(q', k) <==> M.Known(q, k) && k.group != g { KnownAfter(q, q', g, k); }
    hide M.Known;
  }

  /** An expiry row that outlives a reap: the next publish reuses id one, and the old row
      dead-letters the new message, which has no lifetime of its own. */
  lemma OldRowTakesNewMessage(db: Db, c: PublishCmd, due: nat, fireAt: nat)
    requires M.Inv(db.q) && c.group in db.q.groups && db.q.groups[c.group].total == 0
    requires Timer(due, MsgExpiry(MsgKey(c.group, 1))) in db.q.timers
    requires c.notBefore == 0 && c.ttlExpiry == 0 && c.dedupKey == ""
    ensures var db1 := Reap(db, c.group).b;
            var db2 := ApplyPublish(db1, db1, c).b;
            && MsgKey(c.group, 1) in db2.q.messages && db2.q.messages[MsgKey(c.group, 1)].payload == c.payload
            && S.Takes(db2, Fire(Timer(due, MsgExpiry(MsgKey(c.group, 1))), fireAt), MsgKey(c.group, 1))
  {
    hide M.Inv;
  }

  // ----- An expiry row that outlives its message -----

  /** The first publish of all, at once ready and with a lifetime. */
  predicate FirstExpiring(c: PublishCmd) {
    c.notBefore <= c.now < c.ttlExpiry && c.dedupKey == ""
  }

  function ExpiryRow(c: PublishCmd): Timer {
    Timer(c.ttlExpiry, MsgExpiry(MsgKey(c.group, 1)))
  }

  lemma FirstPublish(c: PublishCmd)
    requires FirstExpiring(c)
    ensures var q := Step(EMPTY_DB, Publish(c)).b.q;
            && q.messages == map[MsgKey(c.group, 1) := NewMessage(c, 1)] && ExpiryRow(c) in q.timers
            && c.group in q.groups && q.groups[c.group].ready == 1 && q.groups[c.group].total == 1
            && q.leases == map[] && q.nextLease == 1
  {
  }

  lemma FirstLease(db: Db, c: PublishCmd, lease: Command)
    requires lease.LeaseNext? && lease.group == c.group && FirstExpiring(c)
    requires db.q.messages == map[MsgKey(c.group, 1) := NewMessage(c, 1)] && ExpiryRow(c) in db.q.timers
    requires c.group in db.q.groups && db.q.groups[c.group].total == 1 && db.q.nextLease == 1
    ensures var q := Step(db, lease).b.q;
            && 1 in q.leases && q.leases[1].key == MsgKey(c.group, 1) && ExpiryRow(c) in q.timers
            && c.group in q.groups && q.groups[c.group].total == 1
  {
    assert MsgKey(c.group, 1) in db.q.messages && db.q.messages[MsgKey(c.group, 1)].state == Ready;
    assert 1 in ReadyIds(db.q, c.group);
    assert forall i :: i in ReadyIds(db.q, c.group) ==> i == 1;
  }

  lemma AckLeavesExpiry(db: Db, c: PublishCmd)
    requires 1 in db.q.leases && db.q.leases[1].key == MsgKey(c.group, 1) && ExpiryRow(c) in db.q.timers
    requires c.group in db.q.groups && db.q.groups[c.group].total == 1
    ensures var q := Step(db, Ack(1)).b.q;
            c.group in q.groups && q.groups[c.group].total == 0 && ExpiryRow(c) in q.timers
  {
  }

  lemma LogOfThree(a: Command, b: Command, c: Command)
    ensures S.After(EMPTY_DB, [a, b, c]) == Step(Step(Step(EMPTY_DB, a).b, b).b, c).b
  {
    hide Step;
    assert [a, b, c][..2] == [a, b] && [a, b][..1] == [a] && [a][..0] == [];
    assert S.After(EMPTY_DB, []) == EMPTY_DB;
    assert S.After(EMPTY_DB, [a]) == Step(EMPTY_DB, a).b;
    assert S.After(EMPTY_DB, [a, b]) == Step(Step(EMPTY_DB, a).b, b).b;
  }

  lemma AcksOutstanding(c: PublishCmd, lease: Command)
    requires FirstExpiring(c) && lease.LeaseNext? && lease.group == c.group
    ensures var q := S.After(EMPTY_DB, [Publish(c), lease, Ack(1)]).q;
            c.group in q.groups && q.groups[c.group].total == 0 && ExpiryRow(c) in q.timers
  {
    hide *;
    LogOfThree(Publish(c), lease, Ack(1));
    FirstPublish(c);
    FirstLease(Step(EMPTY_DB, Publish(c)).b, c, lease);
    AckLeavesExpiry(Step(Step(EMPTY_DB, Publish(c)).b, lease).b, c);
  }

  /** Publish with a lifetime, lease, acknowledge: the acknowledgement drains the group and
      leaves its expiry row armed. A reap then breaks the invariant, and the row takes the
      group's next message, which has no lifetime. */
  lemma AckedMessageOutstanding(c: PublishCmd, lease: Command, next: PublishCmd, fireAt: nat)
    requires FirstExpiring(c) && lease.LeaseNext? && lease.group == c.group == next.group
    requires next.notBefore == 0 && next.ttlExpiry == 0 && next.dedupKey == ""
    ensures var db := S.After(EMPTY_DB, [Publish(c), lease, Ack(1)]);
            var db1 := Reap(db, c.group).b;
            var db2 := ApplyPublish(db1, db1, next).b;
            && M.Inv(db.q) && c.group in db.q.groups && db.q.groups[c.group].total == 0
            && Outstanding(db.q, c.group) && !M.Inv(db1.q)
            && S.Takes(db2, Fire(ExpiryRow(c), fireAt), MsgKey(c.group, 1))
  {
    var log := [Publish(c), lease, Ack(1)];
    var db := S.After(EMPTY_DB, log);
    AcksOutstanding(c, lease);
    assert S.AllAllowed(log);
    hide *;
    S.ReachableInv(log);
    ReapKeepsInvIff(db, c.group);
    RowIsOutstanding(db.q, c);
    OldRowTakesNewMessage(db, next, c.ttlExpiry, fireAt);
  }

  lemma RowIsOutstanding(q: Queue, c: PublishCmd)
    requires ExpiryRow(c) in q.timers
    ensures Outstanding(q, c.group)
    ensures ExpiryRow(c) == Timer(c.ttlExpiry, MsgExpiry(MsgKey(c.group, 1)))
  {
  }
}
