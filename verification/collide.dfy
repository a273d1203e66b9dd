/** Batches in which the names of different groups join alike. */
module Collide {
  import opened Bytes
  import opened Store
  import opened Commands
  import opened Handlers
  import opened Journal
  import B = Batch
  import M = Moves
  import S = Safety
  import T = Steps

  lemma LiveInStates(ms: map<MsgKey, Message>, g: Group)
    ensures |S.Live(ms, g)| == M.Count(ms, g, Ready) + M.Count(ms, g, Delayed) + M.Count(ms, g, Leased)
  {
    var ready, delayed, leased := M.InState(ms, g, Ready), M.InState(ms, g, Delayed), M.InState(ms, g, Leased);
    assert S.Live(ms, g) == ready + delayed + leased;
  }

  lemma TotalIsLive(q: Queue, g: Group)
    requires M.Inv(q)
    ensures LoadMeta(q, g).total == |S.Live(q.messages, g)|
  {
    assert M.KeysOk(q) && M.CountsOk(q);
    hide M.Inv;
    if g in q.groups {
      LiveInStates(q.messages, g);
      hide M.Count;
      hide S.Live;
    } else {
      hide M.CountsOk;
      forall k | k in q.messages ensures k.group != g { assert M.Known(q, k); }
      assert S.Live(q.messages, g) == {};
    }
  }

  /** How far the cached total of a name exceeds its owner's messages. */
  ghost function Slack(s: BatchState, k: string): int
    requires k in s.cache
  {
    s.cache[k].1.total - |S.Live(s.b.q.messages, s.cache[k].0)|
  }

  /** No cached total falls short, and groups whose names are not cached have gained nothing. */
  ghost predicate Covered(db: Db, s: BatchState) {
    && (forall k :: k in s.cache ==> Slack(s, k) >= 0)
    && (forall g :: B.JoinedGroup(g) !in s.cache ==> S.Live(s.b.q.messages, g) == S.Live(db.q.messages, g))
  }

  lemma AddMessages(s: BatchState, c: PublishCmd, g: Group, gm: GroupMeta)
    ensures var s' := BatchAdd(s, c, g, gm);
            && s'.b.q.messages == s.b.q.messages[MsgKey(c.group, gm.nextSeq) := NewMessage(c, gm.nextSeq)]
            && s'.cache == s.cache[B.JoinedGroup(c.group) := (g, MetaAfterPublish(c, gm))]
            && MetaAfterPublish(c, gm).total == gm.total + 1
  {
    hide NewMessage;
    hide Joined;
    hide Knobs;
    PublishedMessages(s.b.q, c, gm);
    hide PublishOne;
  }

  lemma PublishedMessages(q: Queue, c: PublishCmd, gm: GroupMeta)
    ensures PublishOne(q, c, gm).messages == q.messages[MsgKey(c.group, gm.nextSeq) := NewMessage(c, gm.nextSeq)]
  {
  }

  lemma LiveAfterPut(ms: map<MsgKey, Message>, k: MsgKey, m: Message, g: Group)
    ensures g != k.group ==> S.Live(ms[k := m], g) == S.Live(ms, g)
    ensures |S.Live(ms[k := m], g)| <= |S.Live(ms, g)| + 1
  {
    if g == k.group { assert S.Live(ms[k := m], g) == S.Live(ms, g) + {k}; }
  }

  /** An accepted item adds one to its name's total, and a message to its own group. */
  lemma AddSlack(db: Db, s: BatchState, c: PublishCmd, g: Group, gm: GroupMeta, groups: set<Group>)
    requires B.CacheOk(s, groups) && Covered(db, s) && B.JoinedGroup(g) == B.JoinedGroup(c.group)
    requires var gk := B.JoinedGroup(c.group);
             if gk in s.cache then (g, gm) == s.cache[gk] else g == c.group && gm.total == |S.Live(db.q.messages, g)|
    ensures var s' := BatchAdd(s, c, g, gm);
            && Covered(db, s')
            && (forall k :: k in s.cache ==> k in s'.cache && Slack(s', k) >= Slack(s, k))
            && (!B.OwnsCache(s, c) ==> Slack(s', B.JoinedGroup(c.group)) >= Slack(s, B.JoinedGroup(c.group)) + 1)
  {
    var s', gk, at := BatchAdd(s, c, g, gm), B.JoinedGroup(c.group), MsgKey(c.group, gm.nextSeq);
    AddMessages(s, c, g, gm);
    hide BatchAdd;
    hide MetaAfterPublish;
    hide NewMessage;
    hide S.Live;
    hide B.JoinedGroup;
    forall x ensures x != c.group ==> S.Live(s'.b.q.messages, x) == S.Live(s.b.q.messages, x) {
      LiveAfterPut(s.b.q.messages, at, NewMessage(c, gm.nextSeq), x);
    }
    LiveAfterPut(s.b.q.messages, at, NewMessage(c, gm.nextSeq), c.group);
    forall k | k in s'.cache ensures Slack(s', k) >= 0 && (k in s.cache ==> Slack(s', k) >= Slack(s, k)) {
      if k != gk {
        assert s'.cache[k] == s.cache[k] && B.JoinedGroup(s.cache[k].0) == k;
      }
    }
  }

  lemma ItemSlack(db: Db, s: BatchState, c: PublishCmd, groups: set<Group>)
    requires B.CacheOk(s, groups) && Covered(db, s) && M.Inv(db.q)
    ensures var s' := BatchItem(db, s, c);
            && Covered(db, s')
            && (forall k :: k in s.cache ==> k in s'.cache && Slack(s', k) >= Slack(s, k))
            && (!B.Skipped(db, s, c) && !B.OwnsCache(s, c) ==>
                 Slack(s', B.JoinedGroup(c.group)) >= Slack(s, B.JoinedGroup(c.group)) + 1)
  {
    hide M.Inv;
    hide CheckDedup;
    hide BatchAdd;
    if !B.Skipped(db, s, c) {
      var gk := B.JoinedGroup(c.group);
      TotalIsLive(db.q, c.group);
      var (g, gm) := if gk in s.cache then s.cache[gk] else (c.group, LoadMeta(db.q, c.group));
      AddSlack(db, s, c, g, gm, groups);
    }
  }

  lemma {:induction false} SlackStays(db: Db, items: seq<PublishCmd>, m: nat, n: nat)
    requires m <= n <= |items| && M.Inv(db.q)
    ensures var a, z := BatchUpTo(db, db, items, m), BatchUpTo(db, db, items, n);
            Covered(db, z) && forall k :: k in a.cache ==> k in z.cache && Slack(z, k) >= Slack(a, k)
    decreases n
  {
    hide M.Inv;
    hide Slack;
    if n > 0 {
      var i := n - 1;
      SlackStays(db, items, if m < n then m else i, i);
      B.OwnerStays(db, items, i, i);
      B.UpToNext(db, items, i);
      hide *;
      ItemSlack(db, BatchUpTo(db, db, items, i), items[i], B.GroupsOf(items));
    }
  }

  /** An item numbered in another group's sequence leaves that group's total one too high. */
  lemma ForeignBreaksInv(db: Db, items: seq<PublishCmd>, i: nat)
    requires M.Inv(db.q) && i < |items| && B.Foreign(db, items, i)
    ensures !M.Inv(ApplyPublishBatch(db, db, items).b.q)
  {
    var s, s', z := BatchUpTo(db, db, items, i), BatchUpTo(db, db, items, i + 1), BatchUpTo(db, db, items, |items|);
    var k := B.JoinedGroup(items[i].group);
    hide *;
    B.ForeignIff(db, items, i);
    B.UpToNext(db, items, i);
    B.OwnerStays(db, items, i, i);
    SlackStays(db, items, i, i);
    CoveredAt(db, s, k);
    ItemSlack(db, s, items[i], B.GroupsOf(items));
    SlackStays(db, items, i + 1, |items|);
    B.OwnerStays(db, items, i + 1, |items|);
    TooHigh(z, k, B.GroupsOf(items));
    B.Finish(db, items);
  }

  lemma CoveredAt(db: Db, s: BatchState, k: string)
    requires Covered(db, s) && k in s.cache
    ensures Slack(s, k) >= 0
  {
  }

  lemma TooHigh(z: BatchState, k: string, groups: set<Group>)
    requires B.CacheOk(z, groups) && k in z.cache && Slack(z, k) > 0
    ensures !M.Inv(B.View(z).q)
  {
    var g := z.cache[k].0;
    B.ViewGroups(z, groups);
    assert B.Caches(z, g);
    assert LoadMeta(B.View(z).q, g).total == z.cache[k].1.total && B.View(z).q.messages == z.b.q.messages;
    hide *;
    if M.Inv(B.View(z).q) { TotalIsLive(B.View(z).q, g); }
    assert Slack(z, k) == z.cache[k].1.total - |S.Live(z.b.q.messages, g)| by { SlackIs(z, k); }
  }

  lemma SlackIs(z: BatchState, k: string)
    requires k in z.cache
    ensures Slack(z, k) == z.cache[k].1.total - |S.Live(z.b.q.messages, z.cache[k].0)|
  {
  }

  /** A batch keeps the queue's invariant exactly when the groups of its accepted items join
      apart. */
  lemma BatchKeepsInvIff(db: Db, items: seq<PublishCmd>)
    requires M.Inv(db.q)
    ensures M.Inv(ApplyPublishBatch(db, db, items).b.q) <==> B.Apart(B.AcceptedGroups(db, items))
  {
    B.OwnNamesIff(db, items);
    if i :| 0 <= i < |items| && B.Foreign(db, items, i) {
      ForeignBreaksInv(db, items, i);
    } else {
      hide *;
      assert B.OwnNames(db, items, |items|);
      var mvs := T.BatchRuns(db, items, |items|);
      B.Finish(db, items);
      RunsKeepInv(db.q, mvs, ApplyPublishBatch(db, db, items).b.q);
    }
  }

  /** A known command keeps the queue's invariant exactly when it is no batch, or one whose
      accepted groups join apart. */
  lemma StepKeepsInvIff(db: Db, c: Command)
    requires M.Inv(db.q) && !c.Unknown?
    ensures M.Inv(Step(db, c).b.q) <==> (c.PublishBatch? ==> B.Apart(B.AcceptedGroups(db, c.items)))
  {
    hide M.Inv;
    hide ApplyPublishBatch;
    hide B.Apart;
    hide B.AcceptedGroups;
    if c.PublishBatch? {
      BatchKeepsInvIff(db, c.items);
    } else {
      T.StepKeepsInv(db, c);
    }
  }
}
