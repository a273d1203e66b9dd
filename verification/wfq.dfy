/** Weighted fairness over whole runs of the scheduler: how far apart two groups' service
    can drift, and how long a candidate can wait. */
module Wfq {
  import opened Bytes
  import opened Scheduler

  /** The lane is ranked and charged by plain weighted fair queueing. */
  predicate Plain(l: Lane) {
    l.pol.None? || l.quarantined || l.pol.value.Wfq?
  }

  /** The lane ranks by virtual time, though it may charge more than one turn. */
  predicate RanksByClock(l: Lane) {
    Plain(l) || l.pol.value.CompletionAware?
  }

  datatype Tick = Tick(active: seq<GroupStat>, now: int)

  /** id is a candidate of this tick at this weight: every row of it has backlog. */
  predicate Candidate(active: seq<GroupStat>, id: string, w: real) {
    && (exists i :: 0 <= i < |active| && active[i].id == id)
    && (forall i :: 0 <= i < |active| && active[i].id == id ==> active[i].backlog > 0 && active[i].weight == w)
  }

  /** a's clock is ahead of b's by at most one of a's charges. */
  predicate Spread(vt: map<string, real>, a: string, ca: real, b: string) {
    a in vt && b in vt && vt[a] - vt[b] <= ca
  }

  /** The most a lane charges for serving g this tick. */
  function MaxCharge(l: Lane, g: GroupStat): real {
    if !Plain(l) && g.inFlight >= 0 then (1.0 + g.inFlight as real) / Turn(g.weight) else 1.0 / Turn(g.weight)
  }

  /** The clocks once this tick's newcomers have joined. */
  function Clocks(l: Lane, active: seq<GroupStat>): map<string, real> {
    Joined(l.vt, active, MinClock(l.vt, active))
  }

  // ----- One tick -----

  lemma RanksWfq(l: Lane, view: LaneView)
    requires RanksByClock(l)
    ensures !Faulted(l, view) && Ranking(l, view) == WFQScores(view.groups)
  {
  }

  lemma ChargeRange(n: int, w: real)
    requires w > 0.0
    ensures n >= 0 ==> (1.0 + n as real) / w >= 1.0 / w
    ensures n < 0 ==> (1.0 + n as real) / w <= 1.0 / w
  {
    var x := n as real;
    assert (1.0 + x) / w == 1.0 / w + x / w;
  }

  /** A tick that ranks by clock serves a group with the least clock and moves only it,
      by at least one turn and at most its charge; a plain tick moves it by exactly one. */
  lemma ClockTick(l: Lane, active: seq<GroupStat>, now: int) returns (k: nat)
    requires RanksByClock(l) && exists i :: 0 <= i < |active| && active[i].backlog > 0
    ensures k < |active| && active[k].backlog > 0
    ensures forall i :: 0 <= i < |active| && active[i].backlog > 0 ==>
              Clocks(l, active)[active[k].id] <= Clocks(l, active)[active[i].id]
    ensures var vt, p := Clocks(l, active), PickNext(l, active, now);
            var inc := p.lane.vt[active[k].id] - vt[active[k].id];
            && p.gid == Some(active[k].id) && RanksByClock(p.lane) && Plain(p.lane) == Plain(l)
            && active[k].id in p.lane.vt && p.lane.vt == vt[active[k].id := p.lane.vt[active[k].id]]
            && 1.0 / Turn(active[k].weight) <= inc <= MaxCharge(l, active[k])
  {
    hide Ranking;
    hide Faulted;
    hide RecordFault;
    hide Best;
    hide MinClock;
    hide MaxClock;
    hide Joined;
    var view := TickView(l, active, now);
    RanksWfq(l, view);
    BestIsHighest(active, WFQScores(view.groups), |active|);
    k := Best(active, WFQScores(view.groups), |active|);
    var g := active[k];
    ChargeRange(g.inFlight, Turn(g.weight));
    forall i | 0 <= i < |active| && active[i].backlog > 0
      ensures Clocks(l, active)[active[k].id] <= Clocks(l, active)[active[i].id]
    {
      assert WFQScores(view.groups)[i] <= WFQScores(view.groups)[k];
    }
  }

  /** While two groups stay candidates, neither clock runs ahead of the other by more
      than its own charge. */
  lemma PairTick(l: Lane, t: Tick, a: string, wa: real, ca: real, b: string, wb: real)
    requires RanksByClock(l) && Candidate(t.active, a, wa) && Candidate(t.active, b, wb)
    requires Spread(Clocks(l, t.active), a, ca, b)
    requires forall i :: 0 <= i < |t.active| && t.active[i].id == a ==> MaxCharge(l, t.active[i]) <= ca
    ensures Spread(PickNext(l, t.active, t.now).lane.vt, a, ca, b)
  {
    hide PickNext;
    hide MinClock;
    var i :| 0 <= i < |t.active| && t.active[i].id == a;
    var j :| 0 <= j < |t.active| && t.active[j].id == b;
    hide MaxCharge;
    hide Joined;
    var k := ClockTick(l, t.active, t.now);
    TurnPositive(t.active[k].weight);
    assert t.active[i].backlog > 0 && t.active[j].backlog > 0;
  }

  lemma TurnPositive(w: real)
    ensures 1.0 / Turn(w) > 0.0
  {
  }

  /** First-time groups join at the least clock, which keeps every pair of candidates spread. */
  lemma JoinKeepsSpread(l: Lane, active: seq<GroupStat>, a: string, ca: real, b: string)
    requires ca >= 0.0
    requires exists i :: 0 <= i < |active| && active[i].id == a
    requires exists i :: 0 <= i < |active| && active[i].id == b
    requires a in l.vt ==> forall i :: 0 <= i < |active| && active[i].id in l.vt ==> Spread(l.vt, a, ca, active[i].id)
    ensures Spread(Clocks(l, active), a, ca, b)
  {
    MinIsLeast(l.vt, active);
    if a in l.vt && b !in l.vt {
      var i :| 0 <= i < |active| && active[i].id == a;
      var k :| 0 <= k < |active| && active[k].id in l.vt && l.vt[active[k].id] == MinClock(l.vt, active);
      assert Spread(l.vt, a, ca, active[k].id);
    }
  }

  lemma {:induction false} MinIsLeast(vt: map<string, real>, active: seq<GroupStat>)
    ensures forall i :: 0 <= i < |active| && active[i].id in vt ==>
              MinKnown(vt, active).Some? && MinKnown(vt, active).value <= vt[active[i].id]
    ensures MinKnown(vt, active).Some? ==>
              exists k :: 0 <= k < |active| && active[k].id in vt && vt[active[k].id] == MinKnown(vt, active).value
  {
    if active != [] {
      var init := active[..|active| - 1];
      MinIsLeast(vt, init);
      if MinKnown(vt, init).Some? {
        var k :| 0 <= k < |init| && init[k].id in vt && vt[init[k].id] == MinKnown(vt, init).value;
        assert active[k] == init[k];
      }
    }
  }

  // ----- Fairness over a run -----

  function Final(l: Lane, ticks: seq<Tick>): Lane
    decreases |ticks|
  {
    if ticks == [] then l else Final(PickNext(l, ticks[0].active, ticks[0].now).lane, ticks[1..])
  }

  /** How often the run serves id. */
  function Served(l: Lane, ticks: seq<Tick>, id: string): nat
    decreases |ticks|
  {
    if ticks == [] then 0
    else
      var p := PickNext(l, ticks[0].active, ticks[0].now);
      (if p.gid == Some(id) then 1 else 0) + Served(p.lane, ticks[1..], id)
  }

  ghost predicate StayCandidate(ticks: seq<Tick>, id: string, w: real) {
    forall i :: 0 <= i < |ticks| ==> Candidate(ticks[i].active, id, w)
  }

  /** A candidate's clock counts its service. */
  lemma {:induction false} ClockCountsService(l: Lane, ticks: seq<Tick>, a: string, w: real)
    requires Plain(l) && StayCandidate(ticks, a, w) && a in l.vt
    ensures a in Final(l, ticks).vt
    ensures Final(l, ticks).vt[a] == l.vt[a] + Served(l, ticks, a) as real / Turn(w)
    decreases |ticks|
  {
    hide PickNext;
    hide MinClock;
    if ticks != [] {
      var t := ticks[0];
      assert Candidate(t.active, a, w);
      var k := ClockTick(l, t.active, t.now);
      var p := PickNext(l, t.active, t.now);
      ClockCountsService(p.lane, ticks[1..], a, w);
      assert p.lane.vt[a] - l.vt[a] == (if p.gid == Some(a) then 1.0 / Turn(w) else 0.0);
      OneMore(Served(p.lane, ticks[1..], a) as real, Turn(w));
    }
  }

  lemma OneMore(n: real, u: real)
    requires u > 0.0
    ensures (1.0 + n) / u == 1.0 / u + n / u
  {
  }

  lemma {:induction false} SpreadHolds(l: Lane, ticks: seq<Tick>, a: string, wa: real, b: string, wb: real)
    requires Plain(l) && StayCandidate(ticks, a, wa) && StayCandidate(ticks, b, wb)
    requires Spread(l.vt, a, 1.0 / Turn(wa), b)
    ensures Spread(Final(l, ticks).vt, a, 1.0 / Turn(wa), b)
    decreases |ticks|
  {
    hide PickNext;
    hide MinClock;
    if ticks != [] {
      var t := ticks[0];
      assert Candidate(t.active, a, wa) && Candidate(t.active, b, wb);
      var k := ClockTick(l, t.active, t.now);
      PairTick(l, t, a, wa, 1.0 / Turn(wa), b, wb);
      SpreadHolds(PickNext(l, t.active, t.now).lane, ticks[1..], a, wa, b, wb);
    }
  }

  /** Weighted fairness: over any run in which two groups stay candidates with fixed
      weights, from clocks one turn apart at most, their weighted service differs by at
      most one turn of each. */
  lemma WeightedFairness(l: Lane, ticks: seq<Tick>, a: string, wa: real, b: string, wb: real)
    requires Plain(l) && StayCandidate(ticks, a, wa) && StayCandidate(ticks, b, wb)
    requires Spread(l.vt, a, 1.0 / Turn(wa), b) && Spread(l.vt, b, 1.0 / Turn(wb), a)
    ensures var x := Served(l, ticks, a) as real / Turn(wa) - Served(l, ticks, b) as real / Turn(wb);
            -(1.0 / Turn(wa) + 1.0 / Turn(wb)) <= x <= 1.0 / Turn(wa) + 1.0 / Turn(wb)
  {
    hide PickNext;
    hide Final;
    hide Served;
    ClockCountsService(l, ticks, a, wa);
    ClockCountsService(l, ticks, b, wb);
    SpreadHolds(l, ticks, a, wa, b, wb);
    SpreadHolds(l, ticks, b, wb, a, wa);
    var sa, sb := Served(l, ticks, a) as real, Served(l, ticks, b) as real;
    DriftBound(l.vt[a], l.vt[b], sa / Turn(wa), sb / Turn(wb), 1.0 / Turn(wa), 1.0 / Turn(wb));
  }

  lemma DriftBound(x: real, y: real, da: real, db: real, ca: real, cb: real)
    requires x - y <= ca && y - x <= cb && (x + da) - (y + db) <= ca && (y + db) - (x + da) <= cb
    ensures -(ca + cb) <= da - db <= ca + cb
  {
  }

  lemma TimesInverse(n: real, w: real)
    requires w > 0.0
    ensures n * (1.0 / w) == n / w
  {
  }

  /** The completion-aware policy keeps the same guarantee with its larger charges: the
      clocks of two candidates with at most m messages in flight stay within (1 + m) turns. */
  lemma {:induction false} CompletionAwareSpread(l: Lane, ticks: seq<Tick>, a: string, wa: real, m: nat, b: string,
          wb: real)
    requires RanksByClock(l) && StayCandidate(ticks, a, wa) && StayCandidate(ticks, b, wb)
    requires forall i, j :: 0 <= i < |ticks| && 0 <= j < |ticks[i].active| && ticks[i].active[j].id == a ==>
               ticks[i].active[j].inFlight <= m
    requires Spread(l.vt, a, (1.0 + m as real) / Turn(wa), b)
    ensures Spread(Final(l, ticks).vt, a, (1.0 + m as real) / Turn(wa), b)
    decreases |ticks|
  {
    hide PickNext;
    hide MinClock;
    if ticks != [] {
      var t := ticks[0];
      assert Candidate(t.active, a, wa) && Candidate(t.active, b, wb);
      forall j | 0 <= j < |t.active| && t.active[j].id == a
        ensures MaxCharge(l, t.active[j]) <= (1.0 + m as real) / Turn(wa)
      {
        ChargeRange(m, Turn(wa));
        MoreInFlight(t.active[j].inFlight as real, m as real, Turn(wa));
      }
      var k := ClockTick(l, t.active, t.now);
      PairTick(l, t, a, wa, (1.0 + m as real) / Turn(wa), b, wb);
      CompletionAwareSpread(PickNext(l, t.active, t.now).lane, ticks[1..], a, wa, m, b, wb);
    }
  }

  lemma MoreInFlight(x: real, y: real, w: real)
    requires w > 0.0 && x <= y
    ensures (1.0 + x) / w <= (1.0 + y) / w
  {
  }

  // ----- Bounded wait -----

  /** The same groups at the same weights, all with backlog. */
  predicate SameCandidates(x: seq<GroupStat>, y: seq<GroupStat>) {
    |x| == |y| && forall i :: 0 <= i < |x| ==> x[i].id == y[i].id && x[i].weight == y[i].weight && y[i].backlog > 0
  }

  predicate Distinct(active: seq<GroupStat>) {
    forall i, j :: 0 <= i < j < |active| ==> active[i].id != active[j].id
  }

  /** How many times a group at clock x can still be served before the one at clock y. */
  function Room(x: real, y: real, w: real): (r: nat)
  {
    if x > y then 0
    else Product(y - x, Turn(w)); ((y - x) * Turn(w)).Floor + 1
  }

  lemma Product(x: real, w: real)
    requires x >= 0.0 && w > 0.0
    ensures x * w >= 0.0
  {
  }

  function Rooms(vt: map<string, real>, active: seq<GroupStat>, j: string): nat
    requires j in vt && forall i :: 0 <= i < |active| ==> active[i].id in vt
  {
    if active == [] then 0
    else
      var g := active[|active| - 1];
      Rooms(vt, active[..|active| - 1], j) + (if g.id == j then 0 else Room(vt[g.id], vt[j], g.weight))
  }

  /** Serving a group at or below clock y uses up exactly one unit of its room. */
  lemma RoomUsed(x: real, y: real, w: real)
    requires x <= y
    ensures Room(x + 1.0 / Turn(w), y, w) == Room(x, y, w) - 1
  {
    var u := Turn(w);
    assert (1.0 / u) * u == 1.0;
    assert (y - (x + 1.0 / u)) * u == (y - x) * u - 1.0;
    if x + 1.0 / u > y {
      Below(y - x, u);
    } else {
      Product(y - (x + 1.0 / u), u);
    }
  }

  lemma Below(d: real, u: real)
    requires u > 0.0 && 0.0 <= d < 1.0 / u
    ensures d * u >= 0.0
    ensures d * u < 1.0
  {
    var e := 1.0 / u;
    Gap(d, e, u);
    var q := e * u;
    assert q == 1.0;
    var p := d * u;
    assert p < q;
  }

  lemma Gap(d: real, e: real, u: real)
    requires u > 0.0 && d < e
    ensures d * u < e * u
  {
    assert (e - d) * u > 0.0;
  }

  lemma {:induction false} RoomsUnchanged(vt: map<string, real>, vt': map<string, real>, active: seq<GroupStat>,
          j: string)
    requires j in vt && j in vt' && forall i :: 0 <= i < |active| ==> active[i].id in vt && active[i].id in vt'
    requires vt[j] == vt'[j] && forall i :: 0 <= i < |active| ==> vt[active[i].id] == vt'[active[i].id]
    ensures Rooms(vt, active, j) == Rooms(vt', active, j)
  {
    if active != [] {
      RoomsUnchanged(vt, vt', active[..|active| - 1], j);
    }
  }

  lemma {:induction false} RoomsUsed(vt: map<string, real>, active: seq<GroupStat>, j: string, k: nat)
    requires Distinct(active) && j in vt && k < |active| && active[k].id != j
    requires forall i :: 0 <= i < |active| ==> active[i].id in vt
    requires vt[active[k].id] <= vt[j]
    ensures var id := active[k].id;
            Rooms(vt[id := vt[id] + 1.0 / Turn(active[k].weight)], active, j) == Rooms(vt, active, j) - 1
  {
    var id, n := active[k].id, |active| - 1;
    var vt' := vt[id := vt[id] + 1.0 / Turn(active[k].weight)];
    if k == n {
      RoomsUnchanged(vt, vt', active[..n], j);
      RoomUsed(vt[id], vt[j], active[k].weight);
    } else {
      RoomsUsed(vt, active[..n], j, k);
      assert active[n].id != id;
    }
  }

  /** While the others have Rooms in total n, j waits at most n more ticks. */
  lemma {:induction false} WaitsForRooms(l: Lane, cands: seq<GroupStat>, ticks: seq<Tick>, j: string)
    requires Plain(l) && Distinct(cands) && exists i :: 0 <= i < |cands| && cands[i].id == j
    requires forall i :: 0 <= i < |ticks| ==> SameCandidates(cands, ticks[i].active)
    requires forall i :: 0 <= i < |cands| ==> cands[i].id in l.vt
    requires |ticks| > Rooms(l.vt, cands, j)
    ensures Served(l, ticks, j) > 0
    decreases |ticks|
  {
    hide PickNext;
    hide MinClock;
    hide Room;
    var t := ticks[0];
    assert SameCandidates(cands, t.active);
    var m :| 0 <= m < |cands| && cands[m].id == j;
    assert t.active[m].backlog > 0;
    var k := ClockTick(l, t.active, t.now);
    var p := PickNext(l, t.active, t.now);
    assert cands[k].id == t.active[k].id && cands[k].weight == t.active[k].weight;
    assert Clocks(l, t.active) == l.vt;
    if p.gid != Some(j) {
      RoomsUsed(l.vt, cands, j, k);
      WaitsForRooms(p.lane, cands, ticks[1..], j);
    }
  }

  /** One more than the sum over the other candidates of 1 + floor(w_i / w_j). */
  function WaitBound(cands: seq<GroupStat>, j: string, wj: real): nat {
    if cands == [] then 1
    else
      var g := cands[|cands| - 1];
      WaitBound(cands[..|cands| - 1], j, wj)
      + (if g.id == j then 0 else Quotient(Turn(g.weight), Turn(wj)); 1 + (Turn(g.weight) / Turn(wj)).Floor)
  }

  lemma Quotient(x: real, y: real)
    requires x > 0.0 && y > 0.0
    ensures x / y >= 0.0
  {
  }

  lemma RoomBound(x: real, y: real, w: real, wj: real)
    requires y - x <= 1.0 / Turn(wj)
    ensures Turn(w) / Turn(wj) >= 0.0 && Room(x, y, w) <= 1 + (Turn(w) / Turn(wj)).Floor
  {
    hide Turn;
    var u, v := Turn(w), Turn(wj);
    Quotient(u, v);
    if x <= y {
      Scaled(y - x, 1.0 / v, u);
      TimesInverse(u, v);
      FloorMonotone((y - x) * u, u / v);
    }
  }

  lemma FloorMonotone(x: real, y: real)
    requires x <= y
    ensures x.Floor <= y.Floor
  {
  }

  lemma Scaled(d: real, e: real, u: real)
    requires u > 0.0 && d <= e
    ensures d * u <= u * e
  {
  }

  lemma {:induction false} RoomsBound(vt: map<string, real>, cands: seq<GroupStat>, j: string, wj: real)
    requires j in vt && forall i :: 0 <= i < |cands| ==> cands[i].id in vt
    requires forall i :: 0 <= i < |cands| ==> Spread(vt, j, 1.0 / Turn(wj), cands[i].id)
    ensures Rooms(vt, cands, j) < WaitBound(cands, j, wj)
  {
    if cands != [] {
      var g := cands[|cands| - 1];
      RoomsBound(vt, cands[..|cands| - 1], j, wj);
      assert Spread(vt, j, 1.0 / Turn(wj), g.id);
      RoomBound(vt[g.id], vt[j], g.weight, wj);
    }
  }

  /** Bounded wait: over a fixed candidate set, from clocks spread with respect to j, j is
      served within WaitBound ticks. */
  lemma BoundedWait(l: Lane, cands: seq<GroupStat>, ticks: seq<Tick>, j: string, wj: real)
    requires Plain(l) && Distinct(cands) && Candidate(cands, j, wj)
    requires forall i :: 0 <= i < |ticks| ==> SameCandidates(cands, ticks[i].active)
    requires forall i :: 0 <= i < |cands| ==> Spread(l.vt, j, 1.0 / Turn(wj), cands[i].id)
    requires |ticks| >= WaitBound(cands, j, wj)
    ensures Served(l, ticks, j) > 0
  {
    var m :| 0 <= m < |cands| && cands[m].id == j;
    assert Spread(l.vt, j, 1.0 / Turn(wj), cands[m].id);
    forall i | 0 <= i < |cands| ensures cands[i].id in l.vt {
      assert Spread(l.vt, j, 1.0 / Turn(wj), cands[i].id);
    }
    RoomsBound(l.vt, cands, j, wj);
    WaitsForRooms(l, cands, ticks, j);
  }
}
