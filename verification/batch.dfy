/** Publishing a batch in one log entry, against publishing its items one by one. */
module Batch {
  import opened Bytes
  import opened Store
  import opened Commands
  import opened Handlers

  // ----- One by one -----

  /** Publish and record the item's window, without asking for duplicates. */
  function Accept(d: Db, c: PublishCmd): Db {
    var gm := LoadMeta(d.q, c.group);
    RecordDedup(Publishing(d, c, gm), c, gm.nextSeq)
  }

  datatype Answered = Answered(d: Db, items: seq<ItemResult>)

  /** Each item its own log entry. */
  function OneByOne(db: Db, items: seq<PublishCmd>, n: nat): Answered
    requires n <= |items|
  {
    if n == 0 then Answered(db, [])
    else
      var s := OneByOne(db, items, n - 1);
      var r := ApplyPublish(s.d, s.d, items[n - 1]);
      Answered(r.b, s.items + if r.res.Published? then [ItemResult(r.res.id, r.res.duplicate)] else [])
  }

  // ----- The evolving metas -----

  function JoinedGroup(g: Group): string {
    Joined(g.lane, g.name)
  }

  /** Different groups join to different names. */
  ghost predicate Apart(groups: set<Group>) {
    forall g, h :: g in groups && h in groups && JoinedGroup(g) == JoinedGroup(h) ==> g == h
  }

  function GroupsOf(items: seq<PublishCmd>): set<Group> {
    set i | 0 <= i < |items| :: items[i].group
  }

  /** Each cached meta sits under its group's joined name, and only groups of the batch are cached. */
  ghost predicate CacheOk(s: BatchState, groups: set<Group>) {
    && (forall k :: k in s.cache ==> k in s.order && k == JoinedGroup(s.cache[k].0) && s.cache[k].0 in groups)
    && (forall k :: k in s.order ==> k in s.cache)
  }

  predicate Caches(s: BatchState, g: Group) {
    JoinedGroup(g) in s.cache && s.cache[JoinedGroup(g)].0 == g
  }

  /** What would be in the store if the batch stopped here. */
  function View(s: BatchState): Db {
    s.b.(q := Persisted(s.b.q, s.cache, s.order))
  }

  /** Writing the cached metas changes exactly the groups that are cached. */
  lemma {:induction false} PersistedGroups(q: Queue, cache: map<string, (Group, GroupMeta)>, order: seq<string>)
    requires forall k :: k in cache ==> k == JoinedGroup(cache[k].0)
    ensures var r := Persisted(q, cache, order);
            && r == q.(groups := r.groups)
            && forall g :: if JoinedGroup(g) in order && JoinedGroup(g) in cache && cache[JoinedGroup(g)].0 == g
                           then g in r.groups && r.groups[g] == cache[JoinedGroup(g)].1
                           else (g in r.groups <==> g in q.groups) && (g in q.groups ==> r.groups[g] == q.groups[g])
    decreases |order|
  {
    if order != [] {
      var init := order[..|order| - 1];
      PersistedGroups(q, cache, init);
      assert order == init + [order[|order| - 1]];
    }
  }

  /** gs is the table of metas with the cached ones written over it. */
  ghost predicate Shows(s: BatchState, gs: map<Group, GroupMeta>) {
    forall g :: if Caches(s, g) then g in gs && gs[g] == s.cache[JoinedGroup(g)].1
                else (g in gs <==> g in s.b.q.groups) && (g in s.b.q.groups ==> gs[g] == s.b.q.groups[g])
  }

  lemma ViewGroups(s: BatchState, groups: set<Group>)
    requires CacheOk(s, groups)
    ensures View(s) == s.b.(q := s.b.q.(groups := View(s).q.groups)) && Shows(s, View(s).q.groups)
  {
    PersistedGroups(s.b.q, s.cache, s.order);
  }

  /** An item is skipped if the committed store or the batch itself already has its key. */
  predicate Skipped(db: Db, s: BatchState, c: PublishCmd) {
    c.dedupKey != "" && (CheckDedup(db.dedup, c).Some? || Joined(c.group.lane, c.dedupKey) in s.seen)
  }

  lemma AddKeepsCache(s: BatchState, c: PublishCmd, g: Group, gm: GroupMeta, groups: set<Group>)
    requires CacheOk(s, groups) && g in groups && JoinedGroup(g) == JoinedGroup(c.group)
    ensures var s' := BatchAdd(s, c, g, gm);
            CacheOk(s', groups) && s'.b.q.groups == s.b.q.groups && s'.cache.Keys == s.cache.Keys + {JoinedGroup(g)}
  {
    hide MetaAfterPublish;
    hide NewMessage;
  }

  lemma TimerIgnoresGroups(q: Queue, due: nat, ref: Ref, epoch: nat, groups0: map<Group, GroupMeta>)
    ensures AddTimer(q.(groups := groups0), due, ref, epoch) == AddTimer(q, due, ref, epoch).(groups := groups0)
  {
  }

  lemma MsgIgnoresGroups(q: Queue, m: Message, groups0: map<Group, GroupMeta>)
    ensures PutMsg(q.(groups := groups0), m) == PutMsg(q, m).(groups := groups0)
  {
  }

  lemma PublishOneIgnoresGroups(q: Queue, c: PublishCmd, gm: GroupMeta, groups0: map<Group, GroupMeta>)
    ensures PublishOne(q.(groups := groups0), c, gm) == PublishOne(q, c, gm).(groups := groups0)
  {
    hide NewMessage;
    hide AddTimer;
    hide PutMsg;
    var m := NewMessage(c, gm.nextSeq);
    var q1 := if c.notBefore > c.now then AddTimer(q, c.notBefore, ReadyAt(m.key), m.epoch) else q;
    var q2 := if c.ttlExpiry > c.now then AddTimer(q1, c.ttlExpiry, MsgExpiry(m.key), 0) else q1;
    TimerIgnoresGroups(q, c.notBefore, ReadyAt(m.key), m.epoch, groups0);
    TimerIgnoresGroups(q1, c.ttlExpiry, MsgExpiry(m.key), 0, groups0);
    MsgIgnoresGroups(q2, m, groups0);
  }

  lemma RecordIgnoresGroups(b: Db, c: PublishCmd, id: nat, groups0: map<Group, GroupMeta>)
    ensures RecordDedup(b.(q := b.q.(groups := groups0)), c, id)
         == RecordDedup(b, c, id).(q := RecordDedup(b, c, id).q.(groups := groups0))
  {
  }

  /** The rows other than metas that an accepted item writes. */
  lemma AddRows(s: BatchState, c: PublishCmd, gm: GroupMeta, groups0: map<Group, GroupMeta>)
    ensures var d := s.b.(q := s.b.q.(groups := groups0));
            var b := BatchAdd(s, c, c.group, gm).b;
            RecordDedup(Publishing(d, c, gm), c, gm.nextSeq) ==
                b.(q := b.q.(groups := groups0[c.group := MetaAfterPublish(c, gm)]))
  {
    hide MetaAfterPublish;
    hide PublishOne;
    hide RecordDedup;
    var d := s.b.(q := s.b.q.(groups := groups0));
    var groups1 := groups0[c.group := MetaAfterPublish(c, gm)];
    PublishOneIgnoresGroups(s.b.q, c, gm, groups0);
    var b1 := s.b.(q := PublishOne(s.b.q, c, gm));
    assert Publishing(d, c, gm) == b1.(q := b1.q.(groups := groups1));
    RecordIgnoresGroups(b1, c, gm.nextSeq, groups1);
  }

  lemma ShowsMore(s: BatchState, s': BatchState, gs: map<Group, GroupMeta>, gs': map<Group, GroupMeta>, g0: Group,
          meta: GroupMeta)
    requires Shows(s, gs) && Shows(s', gs') && s'.b.q.groups == s.b.q.groups
    requires s'.cache == s.cache[JoinedGroup(g0) := (g0, meta)]
    requires JoinedGroup(g0) in s.cache ==> s.cache[JoinedGroup(g0)].0 == g0
    ensures gs' == gs[g0 := meta]
  {
    assert Caches(s', g0);
    forall g | g != g0 ensures Caches(s', g) <==> Caches(s, g) {}
    hide JoinedGroup;
  }

  lemma AddViewGroups(s: BatchState, c: PublishCmd, gm: GroupMeta, groups: set<Group>)
    requires CacheOk(s, groups) && c.group in groups
    requires JoinedGroup(c.group) in s.cache ==> s.cache[JoinedGroup(c.group)].0 == c.group
    ensures View(BatchAdd(s, c, c.group, gm)).q.groups == View(s).q.groups[c.group := MetaAfterPublish(c, gm)]
  {
    hide MetaAfterPublish;
    hide View;
    hide PublishOne;
    hide RecordDedup;
    hide Shows;
    hide CacheOk;
    var s' := BatchAdd(s, c, c.group, gm);
    AddKeepsCache(s, c, c.group, gm, groups);
    ViewGroups(s, groups);
    ViewGroups(s', groups);
    ShowsMore(s, s', View(s).q.groups, View(s').q.groups, c.group, MetaAfterPublish(c, gm));
  }

  /** The item's joined name, if cached, is its own group's. */
  predicate OwnsCache(s: BatchState, c: PublishCmd) {
    JoinedGroup(c.group) in s.cache ==> s.cache[JoinedGroup(c.group)].0 == c.group
  }

  /** What an item does to the batch's view, if its joined name is not another group's. */
  lemma ItemWrites(db: Db, s: BatchState, c: PublishCmd, groups: set<Group>)
    requires CacheOk(s, groups) && s.b.q.groups == db.q.groups
    requires !Skipped(db, s, c) ==> c.group in groups && OwnsCache(s, c)
    ensures var s' := BatchItem(db, s, c);
            && CacheOk(s', groups) && s'.b.q.groups == db.q.groups
            && (Skipped(db, s, c) ==> View(s') == View(s) && s'.seen == s.seen && s'.cache == s.cache)
            && (!Skipped(db, s, c) ==>
                  && View(s') == Accept(View(s), c)
                  && s'.items == s.items + [ItemResult(LoadMeta(View(s).q, c.group).nextSeq, false)]
                  && s'.cache.Keys == s.cache.Keys + {JoinedGroup(c.group)}
                  && s'.seen == if c.dedupKey != ""
                       then s.seen[Joined(c.group.lane, c.dedupKey) := LoadMeta(View(s).q, c.group).nextSeq]
                       else s.seen)
  {
    hide Persisted;
    hide RecordDedup;
    hide MetaAfterPublish;
    hide PublishOne;
    if !Skipped(db, s, c) {
      var gk := JoinedGroup(c.group);
      var gm := if gk in s.cache then s.cache[gk].1 else LoadMeta(db.q, c.group);
      assert BatchItem(db, s, c) == BatchAdd(s, c, c.group, gm);
      ViewGroups(s, groups);
      AddKeepsCache(s, c, c.group, gm, groups);
      AddViewGroups(s, c, gm, groups);
      AddRows(s, c, gm, View(s).q.groups);
      ViewGroups(BatchAdd(s, c, c.group, gm), groups);
      assert LoadMeta(View(s).q, c.group) == gm by { assert Caches(s, c.group) <==> gk in s.cache; }
    }
  }

  /** An item that is not skipped does to the batch's view what a publish does to a store. */
  lemma ItemView(db: Db, s: BatchState, c: PublishCmd, groups: set<Group>)
    requires CacheOk(s, groups) && Apart(groups) && c.group in groups && s.b.q.groups == db.q.groups
    ensures var s' := BatchItem(db, s, c);
            && CacheOk(s', groups) && s'.b.q.groups == db.q.groups
            && (Skipped(db, s, c) ==> View(s') == View(s) && s'.seen == s.seen)
            && (!Skipped(db, s, c) ==>
                  && View(s') == Accept(View(s), c)
                  && s'.items == s.items + [ItemResult(LoadMeta(View(s).q, c.group).nextSeq, false)]
                  && s'.seen == if c.dedupKey != ""
                       then s.seen[Joined(c.group.lane, c.dedupKey) := LoadMeta(View(s).q, c.group).nextSeq]
                       else s.seen)
  {
    ItemWrites(db, s, c, groups);
    hide View;
    hide BatchItem;
  }

  // ----- The refinement -----

  function DedupOf(c: PublishCmd): DedupKey {
    DedupKey(c.group.lane, c.dedupKey)
  }

  predicate SameKey(c: PublishCmd, d: PublishCmd) {
    c.dedupKey != "" && DedupOf(c) == DedupOf(d)
  }

  /** Items that share a dedup key are stamped in order, and while the earlier one's window is
      open. The leader's stamps meet this: it stamps a batch's items one after the other, and
      gives every key a window of five minutes, far longer than a batch takes to stamp. */
  ghost predicate InTime(items: seq<PublishCmd>) {
    forall i, j :: 0 <= i < j < |items| && SameKey(items[i], items[j]) ==>
        items[i].now <= items[j].now < items[i].dedupExpiry
  }

  predicate Keyed(c: PublishCmd) {
    c.dedupKey != ""
  }

  /** The j-th item is the first of its key that the committed store does not already answer. */
  ghost predicate Reaches(db: Db, items: seq<PublishCmd>, j: nat)
    requires j < |items|
  {
    Keyed(items[j]) ==>
      && CheckDedup(db.dedup, items[j]).None?
      && forall i :: 0 <= i < j && SameKey(items[i], items[j]) ==> CheckDedup(db.dedup, items[i]).Some?
  }

  function JoinedKey(c: PublishCmd): string {
    Joined(c.group.lane, c.dedupKey)
  }

  /** Different groups, or different dedup keys, that join to the same name. */
  predicate Clash(c: PublishCmd, d: PublishCmd) {
    || (c.group != d.group && JoinedGroup(c.group) == JoinedGroup(d.group))
    || (Keyed(c) && Keyed(d) && DedupOf(c) != DedupOf(d) && JoinedKey(c) == JoinedKey(d))
  }

  /** No two of the first n items that reach publication clash. */
  ghost predicate Distinct(db: Db, items: seq<PublishCmd>, n: nat)
    requires n <= |items|
  {
    forall i, j :: 0 <= i < n && 0 <= j < n && Reaches(db, items, i) && Reaches(db, items, j) ==>
        !Clash(items[i], items[j])
  }

  /** An item recorded the row, when the committed window was closed. */
  ghost predicate RecordedBy(db: Db, d: Db, c: PublishCmd, key: DedupKey, id: nat) {
    && Keyed(c) && DedupOf(c) == key && key in d.dedup && d.dedup[key] == DedupRow(id, c.dedupExpiry)
    && (key in db.dedup ==> db.dedup[key].expiry <= c.now)
  }

  predicate SameRow(d: Db, d': Db, key: DedupKey) {
    (key in d'.dedup <==> key in d.dedup) && (key in d.dedup ==> d'.dedup[key] == d.dedup[key])
  }

  /** The view's row for the j-th item's key: recorded by the item that reached publication
      with it, and seen under its joined name, or as committed. */
  ghost predicate RowAt(db: Db, s: BatchState, items: seq<PublishCmd>, n: nat, j: nat)
    requires n <= |items| && j < |items|
  {
    var c := items[j];
    Keyed(c) ==>
      && (forall i :: 0 <= i < n && Reaches(db, items, i) && SameKey(items[i], c) ==>
            JoinedKey(c) in s.seen && RecordedBy(db, View(s), items[i], DedupOf(c), s.seen[JoinedKey(c)]))
      && ((forall i :: 0 <= i < n && SameKey(items[i], c) ==> !Reaches(db, items, i)) ==>
           SameRow(db, View(s), DedupOf(c)))
  }

  /** The names seen are those of the items that reached publication. */
  ghost predicate SeenIs(db: Db, s: BatchState, items: seq<PublishCmd>, n: nat)
    requires n <= |items|
  {
    && (forall i :: 0 <= i < n && Keyed(items[i]) && Reaches(db, items, i) ==> JoinedKey(items[i]) in s.seen)
    && (forall k :: k in s.seen ==>
         exists i :: 0 <= i < n && Keyed(items[i]) && Reaches(db, items, i) && JoinedKey(items[i]) == k)
  }

  /** The cached names are those of the items that reached publication, and belong to them. */
  ghost predicate CacheIs(db: Db, s: BatchState, items: seq<PublishCmd>, n: nat)
    requires n <= |items|
  {
    && (forall i :: 0 <= i < n && Reaches(db, items, i) ==> JoinedGroup(items[i].group) in s.cache)
    && (forall k :: k in s.cache ==> exists i :: 0 <= i < n && Reaches(db, items, i) && items[i].group == s.cache[k].0)
  }

  ghost predicate Follows(db: Db, s: BatchState, items: seq<PublishCmd>, n: nat)
    requires n <= |items|
  {
    && CacheOk(s, GroupsOf(items)) && s.b.q.groups == db.q.groups
    && CacheIs(db, s, items, n) && SeenIs(db, s, items, n) && forall j :: n <= j < |items| ==> RowAt(db, s, items, n, j)
  }

  /** A key some earlier item could publish under was published by the first of them. */
  lemma {:induction false} FirstReaches(db: Db, items: seq<PublishCmd>, i: nat, j: nat) returns (f: nat)
    requires i < j < |items| && SameKey(items[i], items[j]) && CheckDedup(db.dedup, items[i]).None?
    ensures f <= i && SameKey(items[f], items[j]) && Reaches(db, items, f)
    decreases i
  {
    hide CheckDedup;
    if Reaches(db, items, i) {
      f := i;
    } else {
      var e :| 0 <= e < i && SameKey(items[e], items[i]) && CheckDedup(db.dedup, items[e]).None?;
      f := FirstReaches(db, items, e, j);
    }
  }

  /** Two items that reach publication have different keys. */
  lemma DifferentKeys(db: Db, items: seq<PublishCmd>, i: nat, j: nat)
    requires i < j < |items| && Reaches(db, items, i) && Reaches(db, items, j)
    ensures !SameKey(items[i], items[j])
  {
    hide CheckDedup;
  }

  /** A joined key already seen, at an item that would be published one by one, is another
      key's. */
  lemma SeenClashes(db: Db, s: BatchState, items: seq<PublishCmd>, n: nat)
    requires n < |items| && SeenIs(db, s, items, n) && Reaches(db, items, n) && Keyed(items[n])
    requires JoinedKey(items[n]) in s.seen
    ensures !Distinct(db, items, n + 1)
  {
    hide Reaches;
    var i :| 0 <= i < n && Keyed(items[i]) && Reaches(db, items, i) && JoinedKey(items[i]) == JoinedKey(items[n]);
    DifferentKeys(db, items, i, n);
    assert Clash(items[i], items[n]);
  }

  lemma RepeatIsSeen(db: Db, s: BatchState, items: seq<PublishCmd>, n: nat)
    requires n < |items| && SeenIs(db, s, items, n) && !Reaches(db, items, n) && CheckDedup(db.dedup, items[n]).None?
    ensures Keyed(items[n]) && JoinedKey(items[n]) in s.seen
  {
    hide CheckDedup;
    var i :| 0 <= i < n && SameKey(items[i], items[n]) && CheckDedup(db.dedup, items[i]).None?;
    var f := FirstReaches(db, items, i, n);
    assert JoinedKey(items[f]) == JoinedKey(items[n]);
  }

  lemma AnsweredDoesNotReach(db: Db, items: seq<PublishCmd>, n: nat)
    requires n < |items| && Keyed(items[n]) && CheckDedup(db.dedup, items[n]).Some?
    ensures !Reaches(db, items, n)
  {
  }

  lemma UnkeyedReaches(db: Db, items: seq<PublishCmd>, n: nat)
    requires n < |items| && !Keyed(items[n])
    ensures Reaches(db, items, n)
  {
  }

  /** The batch skips exactly the items that do not reach publication. */
  lemma SkippedIff(db: Db, s: BatchState, items: seq<PublishCmd>, n: nat)
    requires n < |items| && Distinct(db, items, n + 1) && SeenIs(db, s, items, n)
    ensures Skipped(db, s, items[n]) <==> !Reaches(db, items, n)
  {
    hide CheckDedup;
    hide Distinct;
    hide SeenIs;
    hide Reaches;
    var c := items[n];
    if !Keyed(c) {
      UnkeyedReaches(db, items, n);
    } else if CheckDedup(db.dedup, c).Some? {
      AnsweredDoesNotReach(db, items, n);
    } else if !Reaches(db, items, n) {
      RepeatIsSeen(db, s, items, n);
    } else if JoinedKey(c) in s.seen {
      SeenClashes(db, s, items, n);
    }
  }

  /** What the batch answers for its next item is what a publish to its view would answer. */
  lemma SameAnswer(db: Db, s: BatchState, items: seq<PublishCmd>, n: nat)
    requires n < |items| && InTime(items) && Distinct(db, items, n + 1) && SeenIs(db, s, items, n)
    requires RowAt(db, s, items, n, n)
    ensures var c := items[n];
            Keyed(c) ==>
              CheckDedup(View(s).dedup, c) == if CheckDedup(db.dedup, c).Some? then CheckDedup(db.dedup, c)
                                              else if JoinedKey(c) in s.seen then Some(s.seen[JoinedKey(c)]) else None
  {
    hide View;
    var c := items[n];
    if Keyed(c) {
      SkippedIff(db, s, items, n);
      if i :| 0 <= i < n && Reaches(db, items, i) && SameKey(items[i], c) {
        assert items[i].now <= c.now < items[i].dedupExpiry;
      } else if Skipped(db, s, c) && CheckDedup(db.dedup, c).None? {
        var i :| 0 <= i < n && SameKey(items[i], c) && CheckDedup(db.dedup, items[i]).None?;
        var f := FirstReaches(db, items, i, n);
      }
    }
  }

  lemma AcceptDedup(d: Db, c: PublishCmd)
    ensures Accept(d, c).dedup == if Keyed(c) && c.dedupExpiry > c.now
                                  then d.dedup[DedupOf(c) := DedupRow(LoadMeta(d.q, c.group).nextSeq, c.dedupExpiry)]
                                  else d.dedup
  {
    hide PublishOne;
    hide MetaAfterPublish;
  }

  /** An item that reaches publication writes under its own group's meta. */
  lemma OwnCache(db: Db, s: BatchState, items: seq<PublishCmd>, n: nat)
    requires n < |items| && Distinct(db, items, n + 1) && CacheIs(db, s, items, n) && CacheOk(s, GroupsOf(items))
    requires Reaches(db, items, n)
    ensures items[n].group in GroupsOf(items)
    ensures OwnsCache(s, items[n])
  {
    hide Reaches;
    var gk := JoinedGroup(items[n].group);
    if gk in s.cache {
      var i :| 0 <= i < n && Reaches(db, items, i) && items[i].group == s.cache[gk].0;
      assert !Clash(items[i], items[n]);
    }
  }

  /** What an accepted item does to the dedup rows and the names seen. */
  ghost predicate Records(d: Db, d': Db, s: BatchState, s': BatchState, c: PublishCmd, id: nat) {
    && d'.dedup == (if Keyed(c) && c.dedupExpiry > c.now
                    then d.dedup[DedupOf(c) := DedupRow(id, c.dedupExpiry)] else d.dedup)
    && s'.seen == if Keyed(c) then s.seen[JoinedKey(c) := id] else s.seen
  }

  lemma AddKeepsOwnRow(db: Db, s: BatchState, s': BatchState, items: seq<PublishCmd>, n: nat, j: nat, id: nat)
    requires n < j < |items| && InTime(items) && Reaches(db, items, n) && SameKey(items[n], items[j])
    requires RowAt(db, s, items, n, j)
    requires Records(View(s), View(s'), s, s', items[n], id)
    ensures RowAt(db, s', items, n + 1, j)
  {
    hide View;
    var c, d := items[n], items[j];
    assert c.now <= d.now < c.dedupExpiry && JoinedKey(c) == JoinedKey(d);
    assert RecordedBy(db, View(s'), c, DedupOf(d), s'.seen[JoinedKey(d)]) by {
      hide RowAt;
    }
    forall i | 0 <= i < n && Reaches(db, items, i) ensures !SameKey(items[i], d) {
      DifferentKeys(db, items, i, n);
    }
    hide Reaches;
  }

  lemma AddKeepsOtherRow(db: Db, s: BatchState, s': BatchState, items: seq<PublishCmd>, n: nat, j: nat, id: nat)
    requires n < j < |items| && Distinct(db, items, n + 1) && Reaches(db, items, n) && !SameKey(items[n], items[j])
    requires RowAt(db, s, items, n, j)
    requires Records(View(s), View(s'), s, s', items[n], id)
    ensures RowAt(db, s', items, n + 1, j)
  {
    hide View;
    hide Reaches;
    var c, d := items[n], items[j];
    if Keyed(d) {
      forall i | 0 <= i < n && Reaches(db, items, i) && SameKey(items[i], d)
        ensures JoinedKey(d) in s'.seen && RecordedBy(db, View(s'), items[i], DedupOf(d), s'.seen[JoinedKey(d)])
      {
        assert JoinedKey(items[i]) == JoinedKey(d);
        assert !Clash(items[i], items[n]);
      }
    }
  }

  lemma SkipKeepsRow(db: Db, s: BatchState, s': BatchState, items: seq<PublishCmd>, n: nat, j: nat)
    requires n < j < |items| && RowAt(db, s, items, n, j) && !Reaches(db, items, n)
    requires View(s') == View(s) && s'.seen == s.seen
    ensures RowAt(db, s', items, n + 1, j)
  {
    hide View;
    hide Reaches;
  }

  lemma ItemCacheIs(db: Db, s: BatchState, s': BatchState, items: seq<PublishCmd>, n: nat)
    requires n < |items| && CacheIs(db, s, items, n) && CacheOk(s', GroupsOf(items)) && CacheOk(s, GroupsOf(items))
    requires s' == BatchItem(db, s, items[n]) && (Skipped(db, s, items[n]) <==> !Reaches(db, items, n))
    requires !Skipped(db, s, items[n]) ==> OwnsCache(s, items[n])
    ensures CacheIs(db, s', items, n + 1)
  {
    hide Reaches;
    hide Skipped;
    ItemOwners(db, s, items[n]);
    ItemCaches(db, s, items[n], GroupsOf(items)) by { assert items[n].group in GroupsOf(items); }
    hide BatchItem;
    hide CacheOk;
    hide JoinedGroup;
    forall k | k in s'.cache
      ensures exists i :: 0 <= i < n + 1 && Reaches(db, items, i) && items[i].group == s'.cache[k].0
    {
      if k in s.cache && s'.cache[k].0 == s.cache[k].0 {
        var i :| 0 <= i < n && Reaches(db, items, i) && items[i].group == s.cache[k].0;
      } else {
        assert items[n].group == s'.cache[k].0;
      }
    }
  }

  lemma ItemSeenIs(db: Db, s: BatchState, s': BatchState, items: seq<PublishCmd>, n: nat)
    requires n < |items| && SeenIs(db, s, items, n)
    requires if Reaches(db, items, n) && Keyed(items[n]) then s'.seen.Keys == s.seen.Keys + {JoinedKey(items[n])}
               else s'.seen == s.seen
    ensures SeenIs(db, s', items, n + 1)
  {
    hide Reaches;
    forall k | k in s'.seen
      ensures exists i :: 0 <= i < n + 1 && Keyed(items[i]) && Reaches(db, items, i) && JoinedKey(items[i]) == k
    {
      assert k in s'.seen.Keys;
      if k in s.seen {
        var i :| 0 <= i < n && Keyed(items[i]) && Reaches(db, items, i) && JoinedKey(items[i]) == k;
      }
    }
    forall i | 0 <= i < n + 1 && Keyed(items[i]) && Reaches(db, items, i) ensures JoinedKey(items[i]) in s'.seen {
      assert JoinedKey(items[i]) in s'.seen.Keys;
    }
  }

  lemma ItemRows(db: Db, s: BatchState, s': BatchState, items: seq<PublishCmd>, n: nat, id: nat)
    requires n < |items| && InTime(items) && Distinct(db, items, n + 1)
    requires forall j :: n <= j < |items| ==> RowAt(db, s, items, n, j)
    requires if Reaches(db, items, n) then Records(View(s), View(s'), s, s', items[n], id)
               else View(s') == View(s) && s'.seen == s.seen
    ensures var m := n + 1; forall j :: m <= j < |items| ==> RowAt(db, s', items, m, j)
  {
    hide *;
    var m := n + 1;
    forall j | m <= j < |items| ensures RowAt(db, s', items, m, j) {
      assert RowAt(db, s, items, n, j);
      if !Reaches(db, items, n) {
        SkipKeepsRow(db, s, s', items, n, j);
      } else if SameKey(items[n], items[j]) {
        AddKeepsOwnRow(db, s, s', items, n, j, id);
      } else {
        AddKeepsOtherRow(db, s, s', items, n, j, id);
      }
    }
  }

  lemma ItemFollows(db: Db, s: BatchState, items: seq<PublishCmd>, n: nat)
    requires n < |items| && InTime(items) && Distinct(db, items, n + 1) && Follows(db, s, items, n)
    ensures Follows(db, BatchItem(db, s, items[n]), items, n + 1)
    ensures if Reaches(db, items, n) then !Skipped(db, s, items[n]) && OwnsCache(s, items[n])
              else Skipped(db, s, items[n])
  {
    hide View;
    hide BatchItem;
    hide Accept;
    hide CacheOk;
    hide RowAt;
    hide SeenIs;
    hide CacheIs;
    hide Distinct;
    hide InTime;
    hide Skipped;
    hide Reaches;
    var s' := BatchItem(db, s, items[n]);
    SkippedIff(db, s, items, n);
    if Reaches(db, items, n) { OwnCache(db, s, items, n); }
    ItemWrites(db, s, items[n], GroupsOf(items));
    AcceptDedup(View(s), items[n]);
    ItemCacheIs(db, s, s', items, n);
    ItemSeenIs(db, s, s', items, n);
    ItemRows(db, s, s', items, n, LoadMeta(View(s).q, items[n].group).nextSeq);
  }

  /** One item of the batch does what one publish does, and answers the same. */
  lemma ItemRefines(db: Db, s: BatchState, items: seq<PublishCmd>, n: nat)
    requires n < |items| && InTime(items) && Distinct(db, items, n + 1) && Follows(db, s, items, n)
    ensures var r := ApplyPublish(View(s), View(s), items[n]);
            && View(BatchItem(db, s, items[n])) == r.b
            && r.res.Published? && BatchItem(db, s, items[n]).items == s.items + [ItemResult(r.res.id, r.res.duplicate)]
  {
    hide View;
    hide CacheOk;
    hide CacheIs;
    hide SeenIs;
    hide RowAt;
    hide InTime;
    hide Distinct;
    hide Reaches;
    hide Publishing;
    hide RecordDedup;
    hide CheckDedup;
    hide BatchAdd;
    ItemFollows(db, s, items, n);
    SameAnswer(db, s, items, n) by { assert RowAt(db, s, items, n, n); }
    ItemWrites(db, s, items[n], GroupsOf(items));
  }

  lemma StartFollows(db: Db, items: seq<PublishCmd>)
    ensures Follows(db, BatchUpTo(db, db, items, 0), items, 0) && View(BatchUpTo(db, db, items, 0)) == db
  {
  }

  lemma DistinctBefore(db: Db, items: seq<PublishCmd>, n: nat)
    requires n < |items| && Distinct(db, items, n + 1)
    ensures Distinct(db, items, n)
  {
    hide Reaches;
    hide Clash;
  }

  /** As long as no names clash, the batch's view is the store of its items one by one. */
  lemma {:induction false} UpToRefines(db: Db, items: seq<PublishCmd>, n: nat)
    requires n <= |items| && InTime(items) && Distinct(db, items, n)
    ensures var s := BatchUpTo(db, db, items, n);
            Follows(db, s, items, n) && Answered(View(s), s.items) == OneByOne(db, items, n)
    decreases n
  {
    hide BatchItem;
    hide ApplyPublish;
    hide InTime;
    hide Distinct;
    hide View;
    hide Follows;
    if n == 0 {
      StartFollows(db, items);
    } else {
      DistinctBefore(db, items, n - 1);
      UpToRefines(db, items, n - 1);
      var s := BatchUpTo(db, db, items, n - 1);
      ItemFollows(db, s, items, n - 1);
      ItemRefines(db, s, items, n - 1);
    }
  }

  // ----- Where the two part -----

  /** A publish answers, and adds one to its group's sequence unless it is a duplicate. */
  lemma PublishAnswers(d: Db, c: PublishCmd, g: Group)
    ensures var r, repeated := ApplyPublish(d, d, c), Keyed(c) && CheckDedup(d.dedup, c).Some?;
            && r.res.Published? && r.res.duplicate == repeated
            && LoadMeta(r.b.q, g).nextSeq == LoadMeta(d.q, g).nextSeq + if repeated || g != c.group then 0 else 1
  {
    hide NewMessage;
    hide CheckDedup;
  }

  /** Answers are only added, and sequences only grow. */
  lemma {:induction false} OneByOneGrows(db: Db, items: seq<PublishCmd>, m: nat, n: nat, g: Group)
    requires m <= n <= |items|
    ensures var a, z := OneByOne(db, items, m), OneByOne(db, items, n);
            a.items <= z.items && |z.items| == n && LoadMeta(a.d.q, g).nextSeq <= LoadMeta(z.d.q, g).nextSeq
    decreases n
  {
    hide ApplyPublish;
    hide LoadMeta;
    if n > 0 {
      OneByOneGrows(db, items, if m < n then m else n - 1, n - 1, g);
      PublishAnswers(OneByOne(db, items, n - 1).d, items[n - 1], g);
    }
  }

  lemma ItemCaches(db: Db, s: BatchState, c: PublishCmd, groups: set<Group>)
    requires CacheOk(s, groups) && c.group in groups
    ensures var s' := BatchItem(db, s, c);
            && CacheOk(s', groups) && s'.b.q.groups == s.b.q.groups && |s'.items| == |s.items| + 1
            && s.items <= s'.items
            && (forall k :: k in s.cache ==> k in s'.cache && s'.cache[k].0 == s.cache[k].0)
  {
    hide CheckDedup;
    hide PublishOne;
    hide RecordDedup;
    hide MetaAfterPublish;
    var gk := JoinedGroup(c.group);
    if !Skipped(db, s, c) {
      var (g, gm) := if gk in s.cache then s.cache[gk] else (c.group, LoadMeta(db.q, c.group));
      AddKeepsCache(s, c, g, gm, groups);
    }
  }

  /** A joined name stays with the group that cached it first. */
  lemma {:induction false} OwnerStays(db: Db, items: seq<PublishCmd>, m: nat, n: nat)
    requires m <= n <= |items|
    ensures var a, z := BatchUpTo(db, db, items, m), BatchUpTo(db, db, items, n);
            && CacheOk(z, GroupsOf(items)) && z.b.q.groups == db.q.groups && |z.items| == n && a.items <= z.items
            && (forall k :: k in a.cache ==> k in z.cache && z.cache[k].0 == a.cache[k].0)
    decreases n
  {
    hide BatchItem;
    hide CacheOk;
    if n == 0 {
      assert CacheOk(BatchUpTo(db, db, items, 0), GroupsOf(items)) by { StartFollows(db, items); }
    } else {
      OwnerStays(db, items, if m < n then m else n - 1, n - 1);
      ItemCaches(db, BatchUpTo(db, db, items, n - 1), items[n - 1], GroupsOf(items));
    }
  }

  /** A message of a group whose joined name is another's leaves its own group's meta alone. */
  lemma LostToOwner(db: Db, items: seq<PublishCmd>, n: nat, x: Group)
    requires n <= |items|
    requires var s := BatchUpTo(db, db, items, n); JoinedGroup(x) in s.cache && s.cache[JoinedGroup(x)].0 != x
    ensures LoadMeta(View(BatchUpTo(db, db, items, |items|)).q, x) == LoadMeta(db.q, x)
  {
    hide View;
    var z := BatchUpTo(db, db, items, |items|);
    OwnerStays(db, items, n, |items|);
    ViewGroups(z, GroupsOf(items));
    assert !Caches(z, x);
  }

  lemma Finish(db: Db, items: seq<PublishCmd>)
    ensures var z := BatchUpTo(db, db, items, |items|);
            ApplyPublishBatch(db, db, items) == Applied(View(z), Batched(z.items))
  {
    hide Persisted;
    hide BatchUpTo;
  }

  lemma OwnerOf(db: Db, s: BatchState, items: seq<PublishCmd>, n: nat, k: string) returns (o: nat)
    requires n <= |items| && CacheIs(db, s, items, n) && k in s.cache
    ensures o < n && Reaches(db, items, o) && items[o].group == s.cache[k].0
  {
    hide Reaches;
    var i :| 0 <= i < n && Reaches(db, items, i) && items[i].group == s.cache[k].0;
    o := i;
  }

  lemma IsCached(db: Db, s: BatchState, items: seq<PublishCmd>, n: nat, i: nat)
    requires i < n <= |items| && CacheIs(db, s, items, n) && Reaches(db, items, i)
    ensures JoinedGroup(items[i].group) in s.cache
  {
    hide Reaches;
  }

  lemma SameGroup(db: Db, items: seq<PublishCmd>, n: nat, o: nat, i: nat)
    requires n <= |items| && o < n && i < n && Distinct(db, items, n) && Reaches(db, items, o) && Reaches(db, items, i)
    ensures JoinedGroup(items[o].group) == JoinedGroup(items[i].group) ==> items[o].group == items[i].group
  {
    hide Reaches;
    assert !Clash(items[o], items[i]);
  }

  lemma ForeignOwner(db: Db, s: BatchState, items: seq<PublishCmd>, i: nat, n: nat)
    requires i < n < |items| && Distinct(db, items, n) && Reaches(db, items, i) && CacheIs(db, s, items, n)
    requires items[i].group != items[n].group && JoinedGroup(items[i].group) == JoinedGroup(items[n].group)
    ensures JoinedGroup(items[n].group) in s.cache && s.cache[JoinedGroup(items[n].group)].0 != items[n].group
  {
    hide *;
    IsCached(db, s, items, n, i);
    var o := OwnerOf(db, s, items, n, JoinedGroup(items[n].group));
    SameGroup(db, items, n, o, i);
  }

  /** One by one, an item that reaches publication is published. */
  lemma PublishesInto(db: Db, s: BatchState, items: seq<PublishCmd>, n: nat)
    requires n < |items| && Reaches(db, items, n) && RowAt(db, s, items, n, n) && OneByOne(db, items, n).d == View(s)
    ensures var a, z := OneByOne(db, items, n), OneByOne(db, items, n + 1);
            && LoadMeta(z.d.q, items[n].group).nextSeq == LoadMeta(a.d.q, items[n].group).nextSeq + 1
            && |z.items| == |a.items| + 1 && !z.items[|a.items|].duplicate
  {
    hide View;
    hide ApplyPublish;
    hide LoadMeta;
    forall i | 0 <= i < n && Reaches(db, items, i) ensures !SameKey(items[i], items[n]) {
      DifferentKeys(db, items, i, n);
    }
    assert Keyed(items[n]) ==> SameRow(db, View(s), DedupOf(items[n]));
    PublishAnswers(View(s), items[n], items[n].group);
  }

  /** The two stand equal before the item, and its key's row is the committed one. */
  lemma BeforeClash(db: Db, items: seq<PublishCmd>, n: nat)
    requires n < |items| && InTime(items) && Distinct(db, items, n)
    ensures var s := BatchUpTo(db, db, items, n);
            && OneByOne(db, items, n) == Answered(View(s), s.items) && RowAt(db, s, items, n, n)
            && CacheIs(db, s, items, n) && SeenIs(db, s, items, n)
  {
    hide View;
    hide BatchUpTo;
    hide OneByOne;
    hide CacheIs;
    hide SeenIs;
    hide RowAt;
    UpToRefines(db, items, n);
    var s := BatchUpTo(db, db, items, n);
    assert RowAt(db, s, items, n, n);
  }

  /** Where two different groups first join alike, the batch numbers the later one's message
      in the earlier one's sequence. */
  lemma GroupClashParts(db: Db, items: seq<PublishCmd>, i: nat, n: nat)
    requires i < n < |items| && InTime(items) && Distinct(db, items, n) && Reaches(db, items, i)
    requires Reaches(db, items, n)
    requires items[i].group != items[n].group && JoinedGroup(items[i].group) == JoinedGroup(items[n].group)
    ensures ApplyPublishBatch(db, db, items).b != OneByOne(db, items, |items|).d
  {
    hide *;
    var s, x := BatchUpTo(db, db, items, n), items[n].group;
    BeforeClash(db, items, n);
    ForeignOwner(db, s, items, i, n);
    LostToOwner(db, items, n, x);
    PublishesInto(db, s, items, n);
    OneByOneGrows(db, items, n + 1, |items|, x);
    OneByOneGrows(db, items, 0, n, x);
    OneByOneStart(db, items);
    Finish(db, items);
  }

  lemma OneByOneStart(db: Db, items: seq<PublishCmd>)
    ensures OneByOne(db, items, 0) == Answered(db, [])
  {
  }

  lemma SeenIsSkipped(db: Db, items: seq<PublishCmd>, n: nat)
    requires n < |items| && Reaches(db, items, n) && Keyed(items[n])
    requires JoinedKey(items[n]) in BatchUpTo(db, db, items, n).seen
    requires |BatchUpTo(db, db, items, n).items| == n
    ensures |BatchUpTo(db, db, items, n + 1).items| == n + 1 && BatchUpTo(db, db, items, n + 1).items[n].duplicate
  {
    hide CheckDedup;
    hide BatchAdd;
  }

  /** Where two different keys first join alike, the batch answers the later one as a
      duplicate and drops its message. */
  lemma KeyClashParts(db: Db, items: seq<PublishCmd>, n: nat)
    requires n < |items| && InTime(items) && Distinct(db, items, n) && Reaches(db, items, n)
    requires Keyed(items[n]) && JoinedKey(items[n]) in BatchUpTo(db, db, items, n).seen
    ensures ApplyPublishBatch(db, db, items).res.Batched?
    ensures n < |ApplyPublishBatch(db, db, items).res.items| && n < |OneByOne(db, items, |items|).items|
    ensures ApplyPublishBatch(db, db, items).res.items[n].duplicate && !OneByOne(db, items, |items|).items[n].duplicate
  {
    hide *;
    var s := BatchUpTo(db, db, items, n);
    BeforeClash(db, items, n);
    PublishesInto(db, s, items, n);
    OneByOneGrows(db, items, n + 1, |items|, items[n].group);
    OneByOneGrows(db, items, n, n, items[n].group);
    OwnerStays(db, items, n, n);
    SeenIsSkipped(db, items, n);
    OwnerStays(db, items, n + 1, |items|);
    Finish(db, items);
  }

  lemma {:induction false} FirstClash(db: Db, items: seq<PublishCmd>, n: nat) returns (m: nat)
    requires n <= |items| && !Distinct(db, items, n)
    ensures m < n && Distinct(db, items, m) && !Distinct(db, items, m + 1)
    decreases n
  {
    hide Reaches;
    if Distinct(db, items, n - 1) {
      m := n - 1;
    } else {
      m := FirstClash(db, items, n - 1);
    }
  }

  /** The first item to clash is one that would be published, and clashes with an earlier one. */
  lemma ClashesBefore(db: Db, items: seq<PublishCmd>, n: nat) returns (i: nat)
    requires n < |items| && Distinct(db, items, n) && !Distinct(db, items, n + 1)
    ensures i < n && Reaches(db, items, i) && Reaches(db, items, n) && Clash(items[i], items[n])
  {
    hide Reaches;
    var a, b :| 0 <= a < n + 1 && 0 <= b < n + 1 && Reaches(db, items, a) && Reaches(db, items, b)
        && Clash(items[a], items[b]);
    i := if a < n then a else b;
  }

  lemma Parts(db: Db, items: seq<PublishCmd>, n: nat)
    requires n < |items| && InTime(items) && Distinct(db, items, n) && !Distinct(db, items, n + 1)
    ensures var all := OneByOne(db, items, |items|);
            ApplyPublishBatch(db, db, items) != Applied(all.d, Batched(all.items))
  {
    hide InTime;
    hide Distinct;
    hide Reaches;
    hide ApplyPublishBatch;
    hide OneByOne;
    var i := ClashesBefore(db, items, n);
    if items[i].group != items[n].group && JoinedGroup(items[i].group) == JoinedGroup(items[n].group) {
      GroupClashParts(db, items, i, n);
    } else {
      assert JoinedKey(items[n]) in BatchUpTo(db, db, items, n).seen by { UpToRefines(db, items, n); }
      KeyClashParts(db, items, n);
    }
  }

  /** Under the leader's stamps a batch gives the ids, the duplicate flags and the final store
      of its items published one by one exactly when no two items that reach publication are
      of different groups, or different dedup keys, that join to the same name. */
  lemma BatchIsOneByOneIff(db: Db, items: seq<PublishCmd>)
    requires InTime(items)
    ensures var all := OneByOne(db, items, |items|);
            ApplyPublishBatch(db, db, items) == Applied(all.d, Batched(all.items)) <==> Distinct(db, items, |items|)
  {
    hide *;
    if Distinct(db, items, |items|) {
      UpToRefines(db, items, |items|);
      Finish(db, items);
    } else {
      var n := FirstClash(db, items, |items|);
      Parts(db, items, n);
    }
  }

  // ----- Writing under one's own name -----

  /** The batch does not answer the item as a duplicate. */
  predicate Accepted(db: Db, items: seq<PublishCmd>, i: nat)
    requires i < |items|
  {
    !Skipped(db, BatchUpTo(db, db, items, i), items[i])
  }

  /** The item is accepted, and numbered in the sequence of another group. */
  predicate Foreign(db: Db, items: seq<PublishCmd>, i: nat)
    requires i < |items|
  {
    Accepted(db, items, i) && !OwnsCache(BatchUpTo(db, db, items, i), items[i])
  }

  ghost predicate OwnNames(db: Db, items: seq<PublishCmd>, n: nat)
    requires n <= |items|
  {
    forall i :: 0 <= i < n ==> !Foreign(db, items, i)
  }

  lemma ApartOwns(db: Db, items: seq<PublishCmd>)
    requires Apart(GroupsOf(items))
    ensures OwnNames(db, items, |items|)
  {
    hide BatchUpTo;
    hide Accepted;
    forall i | 0 <= i < |items| ensures !Foreign(db, items, i) {
      OwnerStays(db, items, i, i);
      assert items[i].group in GroupsOf(items);
    }
  }

  function AcceptedGroups(db: Db, items: seq<PublishCmd>): set<Group> {
    set i | 0 <= i < |items| && Accepted(db, items, i) :: items[i].group
  }

  ghost predicate AcceptedBefore(db: Db, items: seq<PublishCmd>, n: nat, g: Group)
    requires n <= |items|
  {
    exists i :: 0 <= i < n && Accepted(db, items, i) && items[i].group == g
  }

  lemma UpToNext(db: Db, items: seq<PublishCmd>, n: nat)
    requires n < |items|
    ensures BatchUpTo(db, db, items, n + 1) == BatchItem(db, BatchUpTo(db, db, items, n), items[n])
    ensures Accepted(db, items, n) <==> !Skipped(db, BatchUpTo(db, db, items, n), items[n])
  {
    hide BatchItem;
  }

  /** Only the item's own group can become an owner, and only if the item is accepted. */
  lemma ItemOwners(db: Db, s: BatchState, c: PublishCmd)
    ensures var s' := BatchItem(db, s, c);
            && (forall k :: k in s'.cache ==>
                 (k in s.cache && s'.cache[k].0 == s.cache[k].0) || (!Skipped(db, s, c) && s'.cache[k].0 == c.group))
            && (!Skipped(db, s, c) ==> JoinedGroup(c.group) in s'.cache)
            && (!Skipped(db, s, c) && OwnsCache(s, c) ==> s'.cache[JoinedGroup(c.group)].0 == c.group)
  {
    hide CheckDedup;
    hide PublishOne;
    hide RecordDedup;
    hide MetaAfterPublish;
  }

  lemma AcceptedNext(db: Db, items: seq<PublishCmd>, n: nat, g: Group)
    requires n < |items| && (AcceptedBefore(db, items, n, g) || (Accepted(db, items, n) && items[n].group == g))
    ensures AcceptedBefore(db, items, n + 1, g)
  {
    hide Accepted;
    if AcceptedBefore(db, items, n, g) {
      var i :| 0 <= i < n && Accepted(db, items, i) && items[i].group == g;
    }
  }

  /** The owners of the cached names are groups of accepted items. */
  lemma {:induction false} OwnersAccepted(db: Db, items: seq<PublishCmd>, n: nat)
    requires n <= |items|
    ensures var s := BatchUpTo(db, db, items, n);
            forall k :: k in s.cache ==> AcceptedBefore(db, items, n, s.cache[k].0)
    decreases n
  {
    if n == 0 {
      assert BatchUpTo(db, db, items, 0).cache == map[];
    } else {
      hide *;
      var m := n - 1;
      OwnersAccepted(db, items, m);
      var s, s' := BatchUpTo(db, db, items, m), BatchUpTo(db, db, items, n);
      UpToNext(db, items, m);
      ItemOwners(db, s, items[m]);
      forall k | k in s'.cache ensures AcceptedBefore(db, items, n, s'.cache[k].0) {
        AcceptedNext(db, items, m, s'.cache[k].0);
      }
    }
  }

  lemma ForeignIff(db: Db, items: seq<PublishCmd>, i: nat)
    requires i < |items|
    ensures var s, k := BatchUpTo(db, db, items, i), JoinedGroup(items[i].group);
            && (Foreign(db, items, i) <==> Accepted(db, items, i) && k in s.cache && s.cache[k].0 != items[i].group)
            && (OwnsCache(s, items[i]) <==> (k in s.cache ==> s.cache[k].0 == items[i].group))
  {
    hide BatchUpTo;
    hide Accepted;
    hide JoinedGroup;
  }

  /** Once accepted under its own name, an item keeps every other group out of that name. */
  lemma LaterIsForeign(db: Db, items: seq<PublishCmd>, i: nat, j: nat)
    requires i < j < |items| && Accepted(db, items, i) && Accepted(db, items, j)
    requires items[i].group != items[j].group && JoinedGroup(items[i].group) == JoinedGroup(items[j].group)
    ensures Foreign(db, items, i) || Foreign(db, items, j)
  {
    hide *;
    UpToNext(db, items, i);
    ItemOwners(db, BatchUpTo(db, db, items, i), items[i]);
    OwnerStays(db, items, i + 1, j);
    ForeignIff(db, items, i);
    ForeignIff(db, items, j);
  }

  /** Every accepted item writes under its own name exactly when the accepted groups join
      apart. */
  lemma OwnNamesIff(db: Db, items: seq<PublishCmd>)
    ensures OwnNames(db, items, |items|) <==> Apart(AcceptedGroups(db, items))
  {
    hide Accepted;
    hide Foreign;
    hide JoinedGroup;
    if OwnNames(db, items, |items|) {
      forall g, h | g in AcceptedGroups(db, items) && h in AcceptedGroups(db, items) && JoinedGroup(g) == JoinedGroup(h)
        ensures g == h
      {
        var i :| 0 <= i < |items| && Accepted(db, items, i) && items[i].group == g;
        var j :| 0 <= j < |items| && Accepted(db, items, j) && items[j].group == h;
        if g != h && i < j { LaterIsForeign(db, items, i, j); }
        if g != h && j < i { LaterIsForeign(db, items, j, i); }
      }
    } else {
      var i :| 0 <= i < |items| && Foreign(db, items, i);
      var s, k := BatchUpTo(db, db, items, i), JoinedGroup(items[i].group);
      hide BatchUpTo;
      ForeignIff(db, items, i);
      OwnersAccepted(db, items, i);
      OwnerStays(db, items, i, i);
      var j :| 0 <= j < i && Accepted(db, items, j) && items[j].group == s.cache[k].0;
      assert items[j].group in AcceptedGroups(db, items) && items[i].group in AcceptedGroups(db, items);
    }
  }

  /** Different names join differently, and items that share a dedup key are stamped in
      order and while the earlier one's window is open. */
  ghost predicate Orderly(items: seq<PublishCmd>) {
    && Apart(GroupsOf(items))
    && (forall i, j :: 0 <= i < |items| && 0 <= j < |items| && Keyed(items[i]) && Keyed(items[j]) ==>
          JoinedKey(items[i]) == JoinedKey(items[j]) ==> DedupOf(items[i]) == DedupOf(items[j]))
    && InTime(items)
  }

  lemma OrderlyIsDistinct(db: Db, items: seq<PublishCmd>)
    requires Orderly(items)
    ensures Distinct(db, items, |items|)
  {
    hide Reaches;
    hide InTime;
    forall i, j | 0 <= i < |items| && 0 <= j < |items| ensures !Clash(items[i], items[j]) {
      assert items[i].group in GroupsOf(items) && items[j].group in GroupsOf(items);
    }
  }

  /** Over a store in any state, if all names of the batch join apart. */
  lemma BatchIsOneByOne(db: Db, items: seq<PublishCmd>)
    requires Orderly(items)
    ensures var all := OneByOne(db, items, |items|);
            ApplyPublishBatch(db, db, items) == Applied(all.d, Batched(all.items))
  {
    OrderlyIsDistinct(db, items);
    BatchIsOneByOneIff(db, items);
  }

  // ----- Joined names -----

  lemma {:induction false} JoinedApart(a: string, b: string, c: string, d: string)
    requires '\0' !in a && '\0' !in c && Joined(a, b) == Joined(c, d)
    ensures a == c && b == d
  {
    var s := Joined(a, b);
    assert s[|a|] == '\0' && s[|c|] == '\0';
    assert forall i :: 0 <= i < |a| ==> s[i] == a[i];
    assert forall i :: 0 <= i < |c| ==> s[i] == c[i];
    assert s[..|a|] == a && s[..|c|] == c && s[|a| + 1..] == b && s[|c| + 1..] == d;
  }

  /** Lanes without NUL keep every name of the batch apart. */
  lemma PlainLanesOrderly(items: seq<PublishCmd>)
    requires forall i :: 0 <= i < |items| ==> '\0' !in items[i].group.lane
    requires InTime(items)
    ensures Orderly(items)
  {
    hide InTime;
    hide Joined;
    forall g, h | g in GroupsOf(items) && h in GroupsOf(items) && JoinedGroup(g) == JoinedGroup(h) ensures g == h {
      JoinedApart(g.lane, g.name, h.lane, h.name);
    }
    forall i, j | 0 <= i < |items| && 0 <= j < |items| && JoinedKey(items[i]) == JoinedKey(items[j])
      ensures DedupOf(items[i]) == DedupOf(items[j])
    {
      JoinedApart(items[i].group.lane, items[i].dedupKey, items[j].group.lane, items[j].dedupKey);
    }
  }

  predicate Keyless(items: seq<PublishCmd>) {
    forall i :: 0 <= i < |items| ==> !Keyed(items[i])
  }

  lemma KeylessDistinctIff(db: Db, items: seq<PublishCmd>)
    requires Keyless(items)
    ensures InTime(items) && (Apart(GroupsOf(items)) <==> Distinct(db, items, |items|))
  {
    hide JoinedGroup;
    hide JoinedKey;
    if Distinct(db, items, |items|) {
      forall g, h | g in GroupsOf(items) && h in GroupsOf(items) && JoinedGroup(g) == JoinedGroup(h) ensures g == h {
        var i :| 0 <= i < |items| && items[i].group == g;
        var j :| 0 <= j < |items| && items[j].group == h;
        assert Reaches(db, items, i) && Reaches(db, items, j);
        assert !Clash(items[i], items[j]);
      }
    } else {
      var i, j :| 0 <= i < |items| && 0 <= j < |items| && Clash(items[i], items[j]);
      assert items[i].group in GroupsOf(items) && items[j].group in GroupsOf(items);
    }
  }

  /** A batch without dedup keys leaves the store of its items one by one exactly when no two
      of its groups join to the same name. */
  lemma KeylessBatchIsOneByOneIffApart(db: Db, items: seq<PublishCmd>)
    requires Keyless(items)
    ensures ApplyPublishBatch(db, db, items).b == OneByOne(db, items, |items|).d <==> Apart(GroupsOf(items))
  {
    hide *;
    KeylessDistinctIff(db, items);
    if Apart(GroupsOf(items)) {
      BatchIsOneByOneIff(db, items);
    } else {
      var n := FirstClash(db, items, |items|);
      var i := ClashesBefore(db, items, n);
      KeylessClash(items, i, n);
      GroupClashParts(db, items, i, n);
    }
  }

  lemma KeylessClash(items: seq<PublishCmd>, i: nat, n: nat)
    requires i < |items| && n < |items| && Keyless(items) && Clash(items[i], items[n])
    ensures items[i].group != items[n].group && JoinedGroup(items[i].group) == JoinedGroup(items[n].group)
  {
  }

  // ----- A message lost to a joined key -----

  /** A publish with an open window, bound for the group at once. */
  function KeyedPublish(group: Group, key: string, payload: Payload): PublishCmd {
    PublishCmd(group, payload, map[], None, None, 0, 0, 0, 0, false, None, key, 1)
  }

  /** Two lanes' keys that join alike. */
  function KeyPair(payload: Payload): seq<PublishCmd> {
    [KeyedPublish(Group("a", "x"), "b\0c", payload), KeyedPublish(Group("a\0b", "y"), "c", payload)]
  }

  lemma KeyPairBatch(payload: Payload)
    ensures var items := KeyPair(payload);
            var r := ApplyPublishBatch(EMPTY_DB, EMPTY_DB, items);
            r.res == Batched([ItemResult(1, false), ItemResult(1, true)])
                && r.b.q.messages.Keys == {MsgKey(items[0].group, 1)}
  {
    var items := KeyPair(payload);
    assert JoinedKey(items[0]) == "a\0b\0c" == JoinedKey(items[1]);
    var s, z := BatchUpTo(EMPTY_DB, EMPTY_DB, items, 1), BatchUpTo(EMPTY_DB, EMPTY_DB, items, 2);
    assert s == BatchItem(EMPTY_DB, BatchUpTo(EMPTY_DB, EMPTY_DB, items, 0), items[0]);
    assert z.b == s.b && z.cache == s.cache && z.order == s.order;
    assert s.b.q.messages.Keys == {MsgKey(items[0].group, 1)};
    PersistedGroups(z.b.q, z.cache, z.order);
    assert z.items == [ItemResult(1, false), ItemResult(1, true)];
  }

  lemma KeyPairOneByOne(payload: Payload)
    ensures var items := KeyPair(payload);
            var all := OneByOne(EMPTY_DB, items, 2);
            all.items == [ItemResult(1, false), ItemResult(1, false)] && MsgKey(items[1].group, 1) in all.d.q.messages
  {
    assert OneByOne(EMPTY_DB, KeyPair(payload), 1).items == [ItemResult(1, false)];
  }

  lemma KeyPairApart(payload: Payload)
    ensures Apart(GroupsOf(KeyPair(payload))) && InTime(KeyPair(payload))
  {
    var items := KeyPair(payload);
    assert items[0].group == Group("a", "x") && items[1].group == Group("a\0b", "y");
    assert JoinedGroup(items[0].group)[2] == 'x' && JoinedGroup(items[1].group)[2] == 'b';
  }

  /** Though the batch's groups join apart, its second item is answered as the first's
      duplicate and never stored, while one by one it is published. */
  lemma JoinedKeyDropsMessage(payload: Payload)
    ensures var items := KeyPair(payload);
            var r, all := ApplyPublishBatch(EMPTY_DB, EMPTY_DB, items), OneByOne(EMPTY_DB, items, 2);
            && Apart(GroupsOf(items)) && InTime(items)
            && r.res == Batched([ItemResult(1, false), ItemResult(1, true)])
            && all.items == [ItemResult(1, false), ItemResult(1, false)]
            && MsgKey(items[1].group, 1) !in r.b.q.messages && MsgKey(items[1].group, 1) in all.d.q.messages
  {
    hide *;
    KeyPairApart(payload);
    KeyPairBatch(payload);
    KeyPairOneByOne(payload);
    KeyPairKeys(payload);
  }

  lemma KeyPairKeys(payload: Payload)
    ensures |KeyPair(payload)| == 2 && KeyPair(payload)[0].group != KeyPair(payload)[1].group
  {
    assert KeyPair(payload)[0].group.name[0] == 'x' && KeyPair(payload)[1].group.name[0] == 'y';
  }
}
