/** The leader's loops over the state machine: firing due timers in bounded sweeps, and
    leasing the next fair message. */
module Leader {
  import opened Bytes
  import opened Store
  import opened Commands
  import opened Drain
  import opened Scheduler
  import H = Handlers
  import F = Fsm
  import M = Moves
  import R = Replay
  import S = Safety
  import SR = StoreRows
  import T = Steps

  /** What the scheduler may see of a group: one with ready messages, not paused, allowed and
      not denied. An empty list allows every group. */
  predicate Eligible(q: Queue, lane: string, allow: seq<string>, deny: seq<string>, name: string) {
    var g := Group(lane, name);
    g in q.groups && q.groups[g].ready != 0 && !q.groups[g].paused && (allow == [] || name in allow) && name !in deny
  }

  function StatOf(q: Queue, g: Group): GroupStat
    requires g in q.groups
  {
    GroupStat(g.name, q.groups[g].ready, q.groups[g].inflight, q.groups[g].weight)
  }

  predicate Lists(active: seq<GroupStat>, name: string) {
    exists i :: 0 <= i < |active| && active[i].id == name
  }

  /** The clock's first n readings. */
  function Stamps(clock: nat -> nat, n: nat): seq<nat> {
    seq(n, i requires 0 <= i < n => clock(i))
  }

  /** The candidates: every eligible group once. */
  ghost predicate AreCandidates(q: Queue, lane: string, allow: seq<string>, deny: seq<string>, active: seq<GroupStat>) {
    && (forall i :: 0 <= i < |active| ==>
         Eligible(q, lane, allow, deny, active[i].id) && active[i] == StatOf(q, Group(lane, active[i].id)))
    && (forall name :: Eligible(q, lane, allow, deny, name) ==> Lists(active, name))
    && (forall i, j :: 0 <= i < j < |active| ==> active[i].id != active[j].id)
  }

  class Node {
    const fsm: F.Machine
    const sched: LaneState
    /** How the store's keys write names. */
    const names: SR.Names

    constructor (fsm: F.Machine, sched: LaneState, names: SR.Names)
      ensures this.fsm == fsm && this.sched == sched && this.names == names
    {
      this.fsm := fsm;
      this.sched := sched;
      this.names := names;
    }

    /** Commits one command as the next log entry. */
    method Propose(c: Command) returns (res: Result)
      requires !c.Unknown?
      modifies fsm
      ensures fsm.db == H.Step(old(fsm.db), c).b && res == H.Step(old(fsm.db), c).res
    {
      hide H.Step;
      var out := fsm.Apply(R.Entry(fsm.appliedIndex + 1, true, Some(c)));
      res := out.res;
    }

    // ----- Timers -----

    /** The due rows in key order, which is order of due time, at most one batch of them. */
    method CollectDue(now: nat) returns (batch: seq<Timer>)
      requires Indexed(names, fsm.db.q)
      ensures IsBatch(names, fsm.db.q, now, batch)
      ensures forall i, j :: 0 <= i < j < |batch| ==> batch[i].due <= batch[j].due
    {
      hide Indexed;
      hide KeyedBefore;
      batch := [];
      var rest := Due(fsm.db.q, now);
      while rest != {} && |batch| < MAX_FIRE_BATCH
        invariant forall t :: t in Due(fsm.db.q, now) <==> t in rest || t in batch
        invariant forall t, i :: t in rest && 0 <= i < |batch| ==> KeyedBefore(names, batch[i], t)
        invariant forall i, j :: 0 <= i < j < |batch| ==> KeyedBefore(names, batch[i], batch[j])
        invariant |batch| <= MAX_FIRE_BATCH
        decreases |rest|
      {
        FirstDue(names, fsm.db.q, rest);
        var t :| t in rest && IsFirst(names, rest, t);
        batch := batch + [t];
        rest := rest - {t};
      }
      BatchInDueOrder(names, fsm.db.q, now, batch);
    }

    /** Fires one batch, each row in its own entry and with its own stamp. */
    method SweepTimers(now: nat, clock: nat -> nat) returns (batch: seq<Timer>)
      requires Indexed(names, fsm.db.q)
      modifies fsm
      ensures IsBatch(names, old(fsm.db.q), now, batch)
      ensures fsm.db == Sweep(old(fsm.db), batch, Stamps(clock, |batch|))
      ensures |Due(fsm.db.q, now)| <= |Due(old(fsm.db.q), now)| - |batch|
      ensures |batch| < MAX_FIRE_BATCH ==> Due(fsm.db.q, now) == {}
    {
      hide H.Step;
      hide Indexed;
      ghost var db0 := fsm.db;
      batch := CollectDue(now);
      for i := 0 to |batch|
        invariant fsm.db == Sweep(db0, batch[..i], Stamps(clock, i))
      {
        assert batch[..i + 1][..i] == batch[..i] && Stamps(clock, i + 1)[..i] == Stamps(clock, i);
        var _ := Propose(Fire(batch[i], clock(i)));
      }
      assert batch[..|batch|] == batch;
      SweepProgress(names, db0, now, batch, Stamps(clock, |batch|));
    }

    /** Sweeping again and again, with nothing else going on, runs the due rows dry; then no
        lease is overdue and no delay has passed. */
    method DrainDue(now: nat, clock: nat -> nat)
      requires M.Inv(fsm.db.q) && Indexed(names, fsm.db.q)
      modifies fsm
      ensures M.Inv(fsm.db.q) && Due(fsm.db.q, now) == {}
      ensures forall l :: l in fsm.db.q.leases ==> fsm.db.q.leases[l].deadline > now
      ensures (forall t :: t in old(fsm.db.q.timers) ==> t.due <= now) ==> forall k :: k in fsm.db.q.messages ==>
                fsm.db.q.messages[k].state == Ready
    {
      hide M.Inv;
      hide Sweep;
      hide IsBatch;
      hide Indexed;
      ghost var q0 := fsm.db.q;
      while Due(fsm.db.q, now) != {}
        invariant M.Inv(fsm.db.q) && Shrinks(q0, fsm.db.q) && Indexed(names, fsm.db.q)
        decreases |Due(fsm.db.q, now)|
      {
        ghost var db := fsm.db;
        var batch := SweepTimers(now, clock);
        SomethingFired(names, db.q, now, batch);
        SweepKeepsInv(db, batch, Stamps(clock, |batch|));
        SweepConsumes(db, batch, Stamps(clock, |batch|));
        ShrinksThen(q0, db.q, fsm.db.q);
        StaysIndexed(names, db.q, fsm.db.q);
      }
      Drained(q0, fsm.db.q, now);
    }

    // ----- Leasing -----

    method Candidates(lane: string, allow: seq<string>, deny: seq<string>) returns (active: seq<GroupStat>)
      ensures AreCandidates(fsm.db.q, lane, allow, deny, active)
    {
      active := [];
      var q := fsm.db.q;
      var rest := set g | g in q.groups && g.lane == lane;
      while rest != {}
        invariant forall g :: g in rest ==> g in q.groups && g.lane == lane
        invariant forall i :: 0 <= i < |active| ==>
                    Eligible(q, lane, allow, deny, active[i].id) && active[i] == StatOf(q, Group(lane, active[i].id))
                        && Group(lane, active[i].id) !in rest
        invariant forall name :: Eligible(q, lane, allow, deny, name) ==>
                    Group(lane, name) in rest || Lists(active, name)
        invariant forall i, j :: 0 <= i < j < |active| ==> active[i].id != active[j].id
        decreases |rest|
      {
        var g :| g in rest;
        rest := rest - {g};
        ghost var before := active;
        if q.groups[g].ready == 0 || q.groups[g].paused { continue; }
        if allow != [] && g.name !in allow { continue; }
        if g.name in deny { continue; }
        active := active + [StatOf(q, g)];
        StillListed(before, StatOf(q, g));
      }
    }

    /** Leases the next fair message of the lane. A group the filter let through always has a
        message to lease, so a lease is granted exactly when some group is eligible, and it is
        the chosen group's oldest ready message. */
    method LeaseOneFiltered(lane: string, consumer: string, allow: seq<string>, deny: seq<string>, now: nat,
            deadline: nat, maxLife: nat)
        returns (res: Option<Result>)
      requires M.Inv(fsm.db.q)
      modifies fsm, sched
      ensures M.Inv(fsm.db.q)
      ensures res.Some? <==> exists name :: Eligible(old(fsm.db.q), lane, allow, deny, name)
      ensures res.None? ==> fsm.db == old(fsm.db)
      ensures res.Some? ==>
                && res.value.LeaseGranted?
                && var k := res.value.msg.key;
                   && k.group.lane == lane && Eligible(old(fsm.db.q), lane, allow, deny, k.group.name)
                   && H.HeadReady(old(fsm.db.q), k.group) == Some(k.id)
                   && fsm.db == H.Step(old(fsm.db), LeaseNext(k.group, consumer, deadline, maxLife)).b
      ensures Chosen(old(fsm.db.q), old(sched.Value()), lane, allow, deny, now, res, sched.Value())
    {
      hide H.Step;
      hide M.Inv;
      hide PickNext;
      hide H.HeadReady;
      var active := Candidates(lane, allow, deny);
      if |active| == 0 { return None; }
      ghost var l := sched.Value();
      var gid, _ := sched.PickGroup(active, now);
      PickIsCandidate(fsm.db.q, lane, allow, deny, active, l, now);
      if gid.None? { return None; }
      var c := LeaseNext(Group(lane, gid.value), consumer, deadline, maxLife);
      GrantsHead(fsm.db, c);
      T.StepKeepsInv(fsm.db, c);
      var r := Propose(c);
      return Some(r);
    }
  }

  /** The scheduler's tick over the candidates chose the group: its winner is the one leased
      from, and the lane's clocks are as the tick left them. Without candidates it does not tick. */
  ghost predicate Chosen(q: Queue, l: Lane, lane: string, allow: seq<string>, deny: seq<string>, now: int,
          res: Option<Result>, l': Lane) {
    exists active :: AreCandidates(q, lane, allow, deny, active) &&
      if active == [] then res.None? && l' == l
      else res.Some? && res.value.LeaseGranted? && l' == PickNext(l, active, now).lane
           && PickNext(l, active, now).gid == Some(res.value.msg.key.group.name)
  }

  /** The scheduler is shown the truth: a candidate's backlog is its ready messages, its load
      those in flight, its weight the stored one. */
  lemma CandidatesAreCounted(q: Queue, lane: string, allow: seq<string>, deny: seq<string>, active: seq<GroupStat>,
          i: nat)
    requires M.Inv(q) && AreCandidates(q, lane, allow, deny, active) && i < |active|
    ensures var g := Group(lane, active[i].id);
            && g in q.groups && active[i].weight == q.groups[g].weight && active[i].backlog > 0
            && active[i].backlog == |set k | k in q.messages && k.group == g && q.messages[k].state == Ready|
            && active[i].inFlight == |set k | k in q.messages && k.group == g && q.messages[k].state == Leased|
  {
    var g := Group(lane, active[i].id);
    assert M.InState(q.messages, g, Ready) == set k | k in q.messages && k.group == g && q.messages[k].state == Ready;
    assert M.InState(q.messages, g, Leased) == set k | k in q.messages && k.group == g && q.messages[k].state == Leased;
  }

  /** A paused group is no candidate, whatever is ready in it; resuming makes it one again as
      soon as something is. */
  lemma PauseGates(db: Db, lane: string, name: string, allow: seq<string>, deny: seq<string>)
    requires Group(lane, name) in db.q.groups
    ensures var g := Group(lane, name);
            && !Eligible(H.Step(db, Lifecycle(g, Pause)).b.q, lane, allow, deny, name)
            && (Eligible(H.Step(db, Lifecycle(g, Resume)).b.q, lane, allow, deny, name) <==>
                  db.q.groups[g].ready > 0 && (allow == [] || name in allow) && name !in deny)
  {
  }

  predicate IsFirst(names: SR.Names, s: set<Timer>, t: Timer) {
    t in s && forall u :: u in s ==> u == t || KeyedBefore(names, t, u)
  }

  lemma BeforeThen(names: SR.Names, t: Timer, u: Timer, v: Timer)
    requires KeyedBefore(names, t, u) && KeyedBefore(names, u, v)
    ensures KeyedBefore(names, t, v)
  {
    LessTransitive(IndexKey(names, t), IndexKey(names, u), IndexKey(names, v));
  }

  lemma FirstOfMore(names: SR.Names, s: set<Timer>, x: Timer, y: Timer)
    requires x in s && IsFirst(names, s - {x}, y) && (KeyedBefore(names, x, y) || KeyedBefore(names, y, x))
    ensures IsFirst(names, s, if KeyedBefore(names, x, y) then x else y)
  {
    hide KeyedBefore;
    forall u | u in s - {x} && KeyedBefore(names, x, y) && u != y ensures KeyedBefore(names, x, u) {
      BeforeThen(names, x, y, u);
    }
  }

  /** Some timer's key comes first. */
  lemma {:induction false} FirstDue(names: SR.Names, q: Queue, s: set<Timer>)
    requires Indexed(names, q) && s != {} && forall t :: t in s ==> t in q.timers
    ensures exists t :: IsFirst(names, s, t)
    decreases s
  {
    hide Indexed;
    hide KeyedBefore;
    var x :| x in s;
    if s - {x} == {} {
      assert s == {x};
      assert IsFirst(names, s, x);
    } else {
      FirstDue(names, q, s - {x});
      var y :| IsFirst(names, s - {x}, y);
      assert y in s - {x};
      hide IsFirst;
      KeyOrder(names, q, x, y);
      FirstOfMore(names, s, x, y);
    }
  }

  lemma StaysIndexed(names: SR.Names, q: Queue, q': Queue)
    requires Indexed(names, q) && Shrinks(q, q')
    ensures Indexed(names, q')
  {
    hide SR.Fits;
  }

  lemma LeasesRunOn(q: Queue, now: nat)
    requires M.Inv(q) && Due(q, now) == {}
    ensures forall l :: l in q.leases ==> q.leases[l].deadline > now
  {
    S.LeaseBijection(q);
    forall l | l in q.leases ensures q.leases[l].deadline > now {
      var k, t :| S.OneLease(q, k, l, t);
      assert t !in Due(q, now);
    }
    hide M.Inv;
  }

  lemma SomethingFired(names: SR.Names, q: Queue, now: nat, batch: seq<Timer>)
    requires IsBatch(names, q, now, batch) && Due(q, now) != {}
    ensures |batch| > 0
  {
  }

  lemma ShrinksThen(a: Queue, b: Queue, c: Queue)
    requires Shrinks(a, b) && Shrinks(b, c)
    ensures Shrinks(a, c)
  {
  }

  lemma Drained(q0: Queue, q: Queue, now: nat)
    requires M.Inv(q) && Shrinks(q0, q) && Due(q, now) == {}
    ensures forall l :: l in q.leases ==> q.leases[l].deadline > now
    ensures (forall t :: t in q0.timers ==> t.due <= now) ==> forall k :: k in q.messages ==>
              q.messages[k].state == Ready
  {
    LeasesRunOn(q, now);
    if forall t :: t in q0.timers ==> t.due <= now { DrainedIsAllReady(q, now); }
    hide M.Inv;
  }

  lemma StillListed(active: seq<GroupStat>, g: GroupStat)
    ensures forall name :: Lists(active, name) ==> Lists(active + [g], name)
    ensures Lists(active + [g], g.id)
  {
    var more := active + [g];
    assert more[|active|].id == g.id;
    forall name | Lists(active, name) ensures Lists(more, name) {
      var i :| 0 <= i < |active| && active[i].id == name;
      assert more[i].id == name;
    }
  }

  /** Every candidate has backlog, so a tick over candidates picks one of them. */
  lemma PickIsCandidate(q: Queue, lane: string, allow: seq<string>, deny: seq<string>, active: seq<GroupStat>, l: Lane,
          now: nat)
    requires AreCandidates(q, lane, allow, deny, active) && active != []
    ensures var p := PickNext(l, active, now); p.gid.Some? && Eligible(q, lane, allow, deny, p.gid.value)
  {
    BestIsHighest(active, Ranking(l, TickView(l, active, now)), |active|);
    assert active[0].backlog > 0;
    hide Ranking;
    hide Faulted;
    hide RecordFault;
    hide Charge;
    hide MinClock;
    hide MaxClock;
  }

  lemma LeaseOfHead(db: Db, c: Command)
    requires c.LeaseNext? && H.HeadReady(db.q, c.group).Some?
    requires var k := MsgKey(c.group, H.HeadReady(db.q, c.group).value); k in db.q.messages && db.q.messages[k].key == k
    ensures var r := H.Step(db, c).res;
            r.LeaseGranted? && r.msg.key == MsgKey(c.group, H.HeadReady(db.q, c.group).value)
  {
    hide H.HeadReady;
  }

  lemma GrantsHead(db: Db, c: Command)
    requires M.Inv(db.q) && c.LeaseNext? && c.group in db.q.groups && db.q.groups[c.group].ready != 0
    ensures H.HeadReady(db.q, c.group).Some? && T.Allowed(c)
    ensures var r := H.Step(db, c).res;
            r.LeaseGranted? && r.msg.key == MsgKey(c.group, H.HeadReady(db.q, c.group).value)
  {
    S.ReadyCountFindsHead(db.q, c.group);
    var k := MsgKey(c.group, H.HeadReady(db.q, c.group).value);
    T.LiveIsKnown(db.q, k);
    hide M.Inv;
    hide M.Known;
    hide M.KeysOk;
    hide H.HeadReady;
    LeaseOfHead(db, c);
  }
}
