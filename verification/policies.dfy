/** What one tick of a lane does, said from what its policy was shown and what it answered. */
module Policies {
  import opened Bytes
  import opened Scheduler

  // ----- What the policy is shown -----

  /** c is the least clock among the tick's groups that have one, or zero if none has. */
  ghost predicate IsLeastKnown(vt: map<string, real>, active: seq<GroupStat>, c: real) {
    && (forall i :: 0 <= i < |active| && active[i].id in vt ==> c <= vt[active[i].id])
    && ((exists i :: 0 <= i < |active| && active[i].id in vt && vt[active[i].id] == c)
        || (c == 0.0 && forall i :: 0 <= i < |active| ==> active[i].id !in vt))
  }

  /** The group's clock on this tick: its own, or the least one known if it has just joined. */
  ghost predicate ClockIs(vt: map<string, real>, active: seq<GroupStat>, id: string, c: real) {
    if id in vt then c == vt[id] else IsLeastKnown(vt, active, c)
  }

  /** The view, field by field: each group as it stands, its clock, and how far its clock lags
      the greatest. */
  ghost predicate Shown(l: Lane, active: seq<GroupStat>, now: int, view: LaneView) {
    && view.nowMs == now && view.turn == l.turn && |view.groups| == |active|
    && (forall i :: 0 <= i < |active| ==>
          && view.groups[i].id == active[i].id && view.groups[i].weight == active[i].weight
          && view.groups[i].backlog == active[i].backlog && view.groups[i].inFlight == active[i].inFlight
          && ClockIs(l.vt, active, active[i].id, view.groups[i].virtualTime))
    && (forall i, j :: 0 <= i < |active| && 0 <= j < |active| ==>
          view.groups[i].virtualTime + view.groups[i].deficit >= view.groups[j].virtualTime)
    && (exists j :: 0 <= j < |active| && forall i :: 0 <= i < |active| ==>
          view.groups[i].virtualTime + view.groups[i].deficit == view.groups[j].virtualTime)
  }

  // ----- What it answers -----

  /** The policy's answer can be used: a finite score for each group. */
  predicate Usable(answer: Scores, n: nat) {
    answer.Some? && |answer.value| == n && forall i :: 0 <= i < n ==> answer.value[i].Some?
  }

  /** Group k has backlog, and no group with backlog scores higher, or as high under a lower id. */
  ghost predicate Wins(active: seq<GroupStat>, scores: seq<real>, k: nat)
    requires |scores| == |active|
  {
    && k < |active| && active[k].backlog > 0
    && forall i :: 0 <= i < |active| && active[i].backlog > 0 ==>
         scores[i] < scores[k] || (scores[i] == scores[k] && !Before(active[i].id, active[k].id))
  }

  function Values(answer: Scores): seq<real>
    requires answer.Some? && forall i :: 0 <= i < |answer.value| ==> answer.value[i].Some?
  {
    seq(|answer.value|, i requires 0 <= i < |answer.value| => answer.value[i].value)
  }

  /** Group k has backlog and the least clock, and the lowest id of those. */
  ghost predicate Lags(active: seq<GroupStat>, view: LaneView, k: nat)
    requires |view.groups| == |active|
  {
    && k < |active| && active[k].backlog > 0
    && forall i :: 0 <= i < |active| && active[i].backlog > 0 ==>
         view.groups[k].virtualTime < view.groups[i].virtualTime
         || (view.groups[k].virtualTime == view.groups[i].virtualTime && !Before(active[i].id, active[k].id))
  }

  /** Group k has backlog and the most weight, where a unit of weight makes up for a million
      turns of its clock. */
  ghost predicate Outweighs(active: seq<GroupStat>, view: LaneView, k: nat)
    requires |view.groups| == |active|
  {
    && k < |active| && active[k].backlog > 0
    && forall i :: 0 <= i < |active| && active[i].backlog > 0 ==>
         var lead := (active[k].weight - active[i].weight) * 1000000.0
                     - (view.groups[k].virtualTime - view.groups[i].virtualTime);
         lead > 0.0 || (lead == 0.0 && !Before(active[i].id, active[k].id))
  }

  lemma LeastKnownIs(vt: map<string, real>, active: seq<GroupStat>)
    ensures IsLeastKnown(vt, active, MinClock(vt, active))
  {
    LeastIs(vt, active);
  }

  lemma {:induction false} LeastIs(vt: map<string, real>, active: seq<GroupStat>)
    ensures var m := MinKnown(vt, active);
            && (m.None? <==> forall i :: 0 <= i < |active| ==> active[i].id !in vt)
            && (m.Some? ==>
                  && (exists i :: 0 <= i < |active| && active[i].id in vt && vt[active[i].id] == m.value)
                  && (forall i :: 0 <= i < |active| && active[i].id in vt ==> m.value <= vt[active[i].id]))
  {
    if active != [] {
      var n := |active| - 1;
      LeastIs(vt, active[..n]);
      if MinKnown(vt, active[..n]).Some? {
        var i :| 0 <= i < n && active[..n][i].id in vt && vt[active[..n][i].id] == MinKnown(vt, active[..n]).value;
        assert active[i].id in vt;
      }
      assert forall i :: 0 <= i < n ==> active[..n][i] == active[i];
    }
  }

  lemma {:induction false} GreatestIs(vt: map<string, real>, active: seq<GroupStat>, m: real)
    requires forall i :: 0 <= i < |active| ==> active[i].id in vt && m <= vt[active[i].id]
    ensures forall i :: 0 <= i < |active| ==> vt[active[i].id] <= MaxClock(vt, active, m)
    ensures active != [] ==> exists i :: 0 <= i < |active| && vt[active[i].id] == MaxClock(vt, active, m)
    ensures active == [] ==> MaxClock(vt, active, m) == m
  {
    if active != [] {
      var n := |active| - 1;
      var init := active[..n];
      forall i | 0 <= i < n ensures init[i] == active[i] {}
      GreatestIs(vt, init, m);
      if n > 0 {
        var i :| 0 <= i < n && vt[init[i].id] == MaxClock(vt, init, m);
        assert vt[active[i].id] == MaxClock(vt, init, m);
      }
      assert vt[active[n].id] >= m;
    }
  }

  lemma FieldsShown(l: Lane, active: seq<GroupStat>, now: int)
    ensures var view, vt := TickView(l, active, now), Joined(l.vt, active, MinClock(l.vt, active));
            && view.nowMs == now && view.turn == l.turn && |view.groups| == |active|
            && forall i :: 0 <= i < |active| ==>
                 && active[i].id in vt
                 && view.groups[i] == GroupView(active[i].id, active[i].weight, active[i].backlog, active[i].inFlight,
                      vt[active[i].id], MaxClock(vt, active, MinClock(l.vt, active)) - vt[active[i].id])
  {
  }

  /** What a tick shows its policy. */
  lemma ViewIsShown(l: Lane, active: seq<GroupStat>, now: int)
    requires active != []
    ensures Shown(l, active, now, TickView(l, active, now))
  {
    var m := MinClock(l.vt, active);
    var vt, view := Joined(l.vt, active, m), TickView(l, active, now);
    FieldsShown(l, active, now);
    LeastKnownIs(l.vt, active);
    forall i | 0 <= i < |active|
      ensures active[i].id in vt && m <= vt[active[i].id] && ClockIs(l.vt, active, active[i].id, vt[active[i].id])
    {
      ClockAfterJoin(l.vt, active, m, i);
    }
    GreatestIs(vt, active, m);
    hide *;
    ShownBy(l, active, now, view, vt, MaxClock(vt, active, m));
  }

  lemma ClockAfterJoin(vt: map<string, real>, active: seq<GroupStat>, m: real, i: nat)
    requires IsLeastKnown(vt, active, m) && i < |active|
    ensures var c := Joined(vt, active, m);
            active[i].id in c && m <= c[active[i].id] && ClockIs(vt, active, active[i].id, c[active[i].id])
  {
  }

  lemma ShownBy(l: Lane, active: seq<GroupStat>, now: int, view: LaneView, vt: map<string, real>, x: real)
    requires view.nowMs == now && view.turn == l.turn && |view.groups| == |active|
    requires forall i :: 0 <= i < |active| ==>
               && active[i].id in vt && vt[active[i].id] <= x && ClockIs(l.vt, active, active[i].id, vt[active[i].id])
               && view.groups[i] == GroupView(active[i].id, active[i].weight, active[i].backlog, active[i].inFlight,
                    vt[active[i].id], x - vt[active[i].id])
    requires exists j :: 0 <= j < |active| && vt[active[j].id] == x
    ensures Shown(l, active, now, view)
  {
    hide ClockIs;
    var j :| 0 <= j < |active| && vt[active[j].id] == x;
    assert view.groups[j].virtualTime == x;
    assert forall i :: 0 <= i < |active| ==> view.groups[i].virtualTime + view.groups[i].deficit == x;
  }

  // ----- The choice -----

  lemma BestWins(active: seq<GroupStat>, scores: seq<real>)
    requires |scores| == |active|
    ensures var b := Best(active, scores, |active|);
            if b < 0 then forall i :: 0 <= i < |active| ==> active[i].backlog <= 0 else Wins(active, scores, b)
  {
    BestIsHighest(active, scores, |active|);
  }

  /** The tick served group k. */
  predicate Serves(p: Pick, active: seq<GroupStat>, k: nat) {
    k < |active| && p.gid == Some(active[k].id)
  }

  /** Some group is served exactly when some group has backlog. */
  predicate AnyBacklog(active: seq<GroupStat>) {
    exists i :: 0 <= i < |active| && active[i].backlog > 0
  }

  lemma PickIs(l: Lane, active: seq<GroupStat>, now: int)
    requires active != []
    ensures var p, view := PickNext(l, active, now), TickView(l, active, now);
            var b := Best(active, Ranking(l, view), |active|);
            && p.fallback == Faulted(l, view) && (b < 0 ==> p.gid == None) && (b >= 0 ==> Serves(p, active, b))
  {
    hide Ranking;
    hide Faulted;
    hide RecordFault;
    hide Charge;
    hide MinClock;
    hide MaxClock;
    hide Joined;
  }

  /** An installed policy outside quarantine that answers with a finite score for each group is
      obeyed: it is shown the lane as it stands, and the group served has backlog and its
      greatest score, the lowest id among equals. An answer that cannot be used is a fault,
      and the group served has the least clock. */
  lemma PolicyDecides(l: Lane, active: seq<GroupStat>, now: int, view: LaneView)
    requires active != [] && view == TickView(l, active, now)
    requires l.pol.Some? && l.pol.value.Scored? && !l.quarantined
    ensures Shown(l, active, now, view)
    ensures var p, answer := PickNext(l, active, now), l.pol.value.score(view);
            && (p.fallback <==> !Usable(answer, |active|)) && (p.gid.Some? <==> AnyBacklog(active))
            && (p.gid.Some? && Usable(answer, |active|) ==>
                  exists k :: Serves(p, active, k) && Wins(active, Values(answer), k))
            && (p.gid.Some? && !Usable(answer, |active|) ==> exists k :: Serves(p, active, k) && Lags(active, view, k))
  {
    ViewIsShown(l, active, now);
    PickIs(l, active, now);
    var answer := l.pol.value.score(view);
    if Usable(answer, |active|) {
      assert Ranking(l, view) == Values(answer);
      BestWins(active, Values(answer));
    } else {
      BestWins(active, WFQScores(view.groups));
      LeastWins(active, view);
    }
    hide TickView;
    hide PickNext;
  }

  lemma LeastWins(active: seq<GroupStat>, view: LaneView)
    requires |view.groups| == |active|
    ensures forall k: nat :: Wins(active, WFQScores(view.groups), k) ==> Lags(active, view, k)
  {
  }

  lemma HeaviestWins(active: seq<GroupStat>, view: LaneView, scores: seq<real>)
    requires |view.groups| == |active| == |scores|
    requires forall i :: 0 <= i < |active| ==>
               && view.groups[i].weight == active[i].weight
               && scores[i] == view.groups[i].weight * 1000000.0 - view.groups[i].virtualTime
    ensures forall k: nat :: Wins(active, scores, k) ==> Outweighs(active, view, k)
  {
  }

  /** Strict priority outside quarantine serves the weightiest group with backlog. */
  lemma StrictDecides(l: Lane, active: seq<GroupStat>, now: int, view: LaneView)
    requires active != [] && view == TickView(l, active, now) && l.pol == Some(Strict) && !l.quarantined
    ensures Shown(l, active, now, view)
    ensures var p := PickNext(l, active, now);
            && !p.fallback && (p.gid.Some? <==> AnyBacklog(active))
            && (p.gid.Some? ==> exists k :: Serves(p, active, k) && Outweighs(active, view, k))
  {
    ViewIsShown(l, active, now);
    PickIs(l, active, now);
    BestWins(active, Ranking(l, view));
    HeaviestWins(active, view, Ranking(l, view));
    hide TickView;
    hide PickNext;
  }

  /** Without a policy, in quarantine, and under weighted fair and completion-aware queueing, the
      group served has backlog and the least clock, and nothing faults. */
  lemma ClockDecides(l: Lane, active: seq<GroupStat>, now: int, view: LaneView)
    requires active != [] && view == TickView(l, active, now)
    requires l.pol.None? || l.quarantined || l.pol.value.Wfq? || l.pol.value.CompletionAware?
    ensures Shown(l, active, now, view)
    ensures var p := PickNext(l, active, now);
            && !p.fallback && (p.gid.Some? <==> AnyBacklog(active))
            && (p.gid.Some? ==> exists k :: Serves(p, active, k) && Lags(active, view, k))
  {
    ViewIsShown(l, active, now);
    PickIs(l, active, now);
    assert Ranking(l, view) == WFQScores(view.groups);
    BestWins(active, WFQScores(view.groups));
    LeastWins(active, view);
    hide TickView;
    hide PickNext;
  }

  // ----- The charge -----

  /** A weight as it divides a turn: one if it is not positive. */
  function Share(w: real): (r: real)
    ensures r > 0.0
  {
    if w <= 0.0 then 1.0 else w
  }

  /** The served group's clock moves on by its share of a turn, or under an obeyed
      completion-aware policy by that of one more than its messages in flight if it has any;
      no other clock moves but a newcomer's, and the turn is counted. */
  lemma ServedIsCharged(l: Lane, active: seq<GroupStat>, now: int, k: nat)
    requires Serves(PickNext(l, active, now), active, k)
    requires forall i, j :: 0 <= i < j < |active| ==> active[i].id != active[j].id
    ensures var p, id := PickNext(l, active, now), active[k].id;
            var load := if l.pol == Some(CompletionAware) && !l.quarantined && active[k].inFlight > 0
                        then 1.0 + active[k].inFlight as real else 1.0;
            && p.lane.turn == l.turn + 1 && id in p.lane.vt
            && (forall c :: ClockIs(l.vt, active, id, c) ==> p.lane.vt[id] == c + load / Share(active[k].weight))
            && (forall g :: g in l.vt && g != id ==> g in p.lane.vt && p.lane.vt[g] == l.vt[g])
            && (forall g :: g in p.lane.vt && g !in l.vt ==> exists i :: 0 <= i < |active| && active[i].id == g)
            && p.lane.pol == l.pol
  {
    var m := MinClock(l.vt, active);
    LeastKnownIs(l.vt, active);
    var charge := TickMoves(l, active, now, k);
    var vt := Joined(l.vt, active, m);
    hide PickNext;
    hide MinClock;
    forall c | ClockIs(l.vt, active, active[k].id, c) ensures vt[active[k].id] == c {
      OneClock(l.vt, active, m, active[k].id, c);
    }
    hide IsLeastKnown;
  }

  lemma OneClock(vt: map<string, real>, active: seq<GroupStat>, m: real, id: string, c: real)
    requires IsLeastKnown(vt, active, m) && ClockIs(vt, active, id, c)
    requires exists i :: 0 <= i < |active| && active[i].id == id
    ensures id in Joined(vt, active, m) && Joined(vt, active, m)[id] == c
  {
  }

  /** Serving group k moves its clock by its charge, and leaves the others where they joined. */
  lemma TickMoves(l: Lane, active: seq<GroupStat>, now: int, k: nat) returns (charge: real)
    requires Serves(PickNext(l, active, now), active, k)
    requires forall i, j :: 0 <= i < j < |active| ==> active[i].id != active[j].id
    ensures var load := if l.pol == Some(CompletionAware) && !l.quarantined && active[k].inFlight > 0
                        then 1.0 + active[k].inFlight as real else 1.0;
            charge == load / Share(active[k].weight)
    ensures var p, vt := PickNext(l, active, now), Joined(l.vt, active, MinClock(l.vt, active));
            && active[k].id in vt && p.lane.vt == vt[active[k].id := vt[active[k].id] + charge]
            && p.lane.turn == l.turn + 1 && p.lane.pol == l.pol
  {
    hide *;
    FieldsShown(l, active, now);
    InRange(PickNext(l, active, now), active, k);
    PickLane(l, active, now, k);
    var view, vt := TickView(l, active, now), Joined(l.vt, active, MinClock(l.vt, active));
    var fallback := Faulted(l, view);
    NoFaultByCharge(l, view);
    charge := Charge((if fallback then RecordFault(l, now) else l).(vt := vt), fallback, view.groups[k]);
    ChargeIs(l, active[k], view.groups[k], fallback, now, vt);
  }

  lemma InRange(p: Pick, active: seq<GroupStat>, k: nat)
    requires Serves(p, active, k)
    ensures k < |active|
  {
  }

  lemma NoFaultByCharge(l: Lane, view: LaneView)
    ensures Faulted(l, view) ==> l.pol != Some(CompletionAware)
  {
  }

  lemma PickLane(l: Lane, active: seq<GroupStat>, now: int, k: nat)
    requires Serves(PickNext(l, active, now), active, k)
    requires forall i, j :: 0 <= i < j < |active| ==> active[i].id != active[j].id
    ensures var p, view := PickNext(l, active, now), TickView(l, active, now);
            var vt := Joined(l.vt, active, MinClock(l.vt, active));
            var fallback := Faulted(l, view);
            var l1 := (if fallback then RecordFault(l, now) else l).(vt := vt);
            && active[k].id in vt && |view.groups| == |active|
            && p.lane.vt == vt[active[k].id := vt[active[k].id] + Charge(l1, fallback, view.groups[k])]
            && p.lane.turn == l.turn + 1 && p.lane.pol == l.pol
  {
    hide Ranking;
    hide Faulted;
    hide RecordFault;
    hide Charge;
    hide MinClock;
    hide MaxClock;
    hide Best;
    hide Joined;
    var view := TickView(l, active, now);
    var b := Best(active, Ranking(l, view), |active|);
    FaultKeeps(l, now);
    assert b >= 0 && active[b].id == active[k].id;
    assert b == k;
  }

  lemma FaultKeeps(l: Lane, now: int)
    ensures RecordFault(l, now).pol == l.pol && RecordFault(l, now).turn == l.turn && RecordFault(l, now).vt == l.vt
  {
  }

  lemma ChargeIs(l: Lane, g: GroupStat, v: GroupView, fallback: bool, now: int, vt: map<string, real>)
    requires v.weight == g.weight && v.inFlight == g.inFlight && (fallback ==> l.pol != Some(CompletionAware))
    ensures var load := if l.pol == Some(CompletionAware) && !l.quarantined && g.inFlight > 0
                        then 1.0 + g.inFlight as real else 1.0;
            Charge((if fallback then RecordFault(l, now) else l).(vt := vt), fallback, v) == load / Share(g.weight)
  {
  }

  // ----- Ties -----

  /** Ids are compared as byte strings: a proper prefix comes first, and otherwise the first
      byte in which they differ decides. */
  lemma {:induction false} BeforeIsByteOrder(a: string, b: string)
    ensures Before(a, b) <==> exists k: nat :: Departs(a, b, k)
  {
    if a != "" && b != "" && a[0] == b[0] {
      BeforeIsByteOrder(a[1..], b[1..]);
      if k: nat :| Departs(a, b, k) {
        assert k > 0;
        assert a[1..][..k - 1] == a[..k][1..] && b[1..][..k - 1] == b[..k][1..];
        assert Departs(a[1..], b[1..], k - 1);
      }
      if k: nat :| Departs(a[1..], b[1..], k) {
        assert a[..k + 1] == [a[0]] + a[1..][..k] && b[..k + 1] == [b[0]] + b[1..][..k];
        assert Departs(a, b, k + 1);
      }
    } else if b != "" && (a == "" || a[0] < b[0]) {
      assert Departs(a, b, 0);
    }
  }

  /** The first k bytes agree, and there a ends first or has the smaller byte. */
  predicate Departs(a: string, b: string, k: nat) {
    && k <= |a| && k < |b| && a[..k] == b[..k] && (k == |a| || a[k] < b[k])
  }

  // ----- Quarantine over a run of ticks -----

  datatype Tick = Tick(active: seq<GroupStat>, now: int)

  function After(l: Lane, ticks: seq<Tick>): Lane {
    if ticks == [] then l
    else
      var n := |ticks| - 1;
      PickNext(After(l, ticks[..n]), ticks[n].active, ticks[n].now).lane
  }

  /** When the ticks fell back because the policy's answer could not be used. */
  function FaultTimes(l: Lane, ticks: seq<Tick>): seq<int> {
    if ticks == [] then []
    else
      var n := |ticks| - 1;
      var init := FaultTimes(l, ticks[..n]);
      if PickNext(After(l, ticks[..n]), ticks[n].active, ticks[n].now).fallback then init + [ticks[n].now] else init
  }

  /** The index of the fault that opened the window the n-th fault falls in: a fault more than
      ten seconds after the opener opens the next window. */
  function Opener(stamps: seq<int>, n: nat): (k: nat)
    requires 0 < n <= |stamps|
    ensures k < n
  {
    if n == 1 then 0
    else
      var k := Opener(stamps, n - 1);
      if stamps[n - 1] - stamps[k] > 10_000 then n - 1 else k
  }

  /** Some window holds five faults. */
  ghost predicate FiveInAWindow(stamps: seq<int>, n: nat)
    requires n <= |stamps|
  {
    exists m :: 0 < m <= n && m - Opener(stamps, m) >= 5
  }

  /** The lane's fault record. */
  function FaultRecord(l: Lane): (int, int, bool) {
    (l.faults, l.windowStart, l.quarantined)
  }

  lemma TickRecords(l: Lane, active: seq<GroupStat>, now: int)
    ensures var p := PickNext(l, active, now);
            FaultRecord(p.lane) == FaultRecord(if p.fallback then RecordFault(l, now) else l)
  {
    hide Ranking;
    hide Faulted;
    hide RecordFault;
    hide Charge;
    hide MinClock;
    hide MaxClock;
    hide Joined;
    hide Best;
    RecordIgnoresClocks(l, now);
  }

  lemma RecordIgnoresClocks(l: Lane, now: int)
    ensures forall vt, turn ::
              FaultRecord(RecordFault(l, now).(vt := vt, turn := turn)) == FaultRecord(RecordFault(l, now))
  {
  }

  lemma RecordOf(l: Lane, k: Lane, now: int)
    requires FaultRecord(l) == FaultRecord(k)
    ensures FaultRecord(RecordFault(l, now)) == FaultRecord(RecordFault(k, now))
  {
  }

  lemma {:induction false} RunRecords(l: Lane, ticks: seq<Tick>)
    ensures FaultRecord(After(l, ticks)) == FaultRecord(AfterFaults(l, FaultTimes(l, ticks)))
  {
    if ticks != [] {
      var n := |ticks| - 1;
      RunRecords(l, ticks[..n]);
      var init, f := After(l, ticks[..n]), FaultTimes(l, ticks[..n]);
      TickRecords(init, ticks[n].active, ticks[n].now);
      RecordOf(init, AfterFaults(l, f), ticks[n].now);
      assert (f + [ticks[n].now])[..|f|] == f;
      hide PickNext;
      hide RecordFault;
    }
  }

  lemma {:induction false} FaultsCounted(l: Lane, stamps: seq<int>, n: nat)
    requires 0 < n <= |stamps| && !l.quarantined && l.windowStart == 0
    requires forall i :: 0 <= i < |stamps| ==> stamps[i] != 0
    ensures var r := AfterFaults(l, stamps[..n]);
            && r.windowStart == stamps[Opener(stamps, n)] && r.faults == n - Opener(stamps, n)
            && (r.quarantined <==> FiveInAWindow(stamps, n))
  {
    assert stamps[..n][..n - 1] == stamps[..n - 1];
    if n == 1 {
      assert stamps[..0] == [] && Opener(stamps, 1) == 0;
      assert AfterFaults(l, stamps[..1]) == RecordFault(l, stamps[0]);
    } else {
      FaultsCounted(l, stamps, n - 1);
      assert AfterFaults(l, stamps[..n]) == RecordFault(AfterFaults(l, stamps[..n - 1]), stamps[n - 1]);
      if n - Opener(stamps, n) >= 5 { assert FiveInAWindow(stamps, n); }
      if FiveInAWindow(stamps, n - 1) {
        var m :| 0 < m <= n - 1 && m - Opener(stamps, m) >= 5;
        assert FiveInAWindow(stamps, n);
      }
    }
  }

  lemma {:induction false} FaultTimesNonzero(l: Lane, ticks: seq<Tick>)
    requires forall i :: 0 <= i < |ticks| ==> ticks[i].now != 0
    ensures forall i :: 0 <= i < |FaultTimes(l, ticks)| ==> FaultTimes(l, ticks)[i] != 0
  {
    if ticks != [] {
      FaultTimesNonzero(l, ticks[..|ticks| - 1]);
      hide PickNext;
    }
  }

  /** A run of ticks quarantines a lane exactly when five of its faults fall in one window. */
  lemma QuarantinedIff(l: Lane, ticks: seq<Tick>)
    requires !l.quarantined && l.windowStart == 0 && forall i :: 0 <= i < |ticks| ==> ticks[i].now != 0
    ensures var f := FaultTimes(l, ticks); After(l, ticks).quarantined <==> FiveInAWindow(f, |f|)
  {
    var f := FaultTimes(l, ticks);
    RunRecords(l, ticks);
    FaultTimesNonzero(l, ticks);
    hide FaultTimes;
    if f != [] {
      FaultsCounted(l, f, |f|);
      assert f[..|f|] == f;
    }
  }

  /** The opener of a window stays it for every fault up to the n-th. */
  lemma {:induction false} OpenerStays(stamps: seq<int>, m: nat, n: nat)
    requires 0 < n <= |stamps| && Opener(stamps, n) < m <= n
    ensures Opener(stamps, m) == Opener(stamps, n)
    decreases n
  {
    if m < n { OpenerStays(stamps, m, n - 1); }
  }

  /** No lane is quarantined whose policy did not fail five times within ten seconds. */
  lemma QuarantineNeedsFive(l: Lane, ticks: seq<Tick>)
    requires !l.quarantined && l.windowStart == 0 && forall i :: 0 <= i < |ticks| ==> ticks[i].now != 0
    requires After(l, ticks).quarantined
    ensures var f := FaultTimes(l, ticks); exists i :: 0 <= i < |f| - 4 && f[i + 4] - f[i] <= 10_000
  {
    var f := FaultTimes(l, ticks);
    QuarantinedIff(l, ticks);
    hide FaultTimes;
    hide After;
    var m :| 0 < m <= |f| && m - Opener(f, m) >= 5;
    var i := Opener(f, m);
    OpenerStays(f, i + 4, m);
    OpenerStays(f, i + 5, m);
    assert f[i + 4] - f[i] <= 10_000;
  }
}
