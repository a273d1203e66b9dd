/** The leader-local record of recently served groups: a fixed ring of events with an
    incrementally maintained count per (lane, group). */
module Ring {
  const RING_CAP: nat := 512
  const MAX_RIBBON: nat := 200

  datatype Event = Event(lane: string, group: string, servedAt: int)

  type Counts = map<string, map<string, nat>>

  // ----- What the counts mean -----

  /** Events of the window in (lane, group). */
  function CountOf(w: seq<Event>, lane: string, group: string): nat {
    if w == [] then 0
    else CountOf(w[..|w| - 1], lane, group) + (if w[|w| - 1].lane == lane && w[|w| - 1].group == group then 1 else 0)
  }

  /** The groups served in a lane, oldest first. */
  function LaneGroups(w: seq<Event>, lane: string): seq<string> {
    if w == [] then []
    else LaneGroups(w[..|w| - 1], lane) + (if w[|w| - 1].lane == lane then [w[|w| - 1].group] else [])
  }

  function Served(c: Counts, lane: string, group: string): nat {
    if lane in c && group in c[lane] then c[lane][group] else 0
  }

  /** c counts the window exactly and holds no zero entry and no empty lane. */
  ghost predicate Indexes(c: Counts, w: seq<Event>) {
    && (forall lane, group :: Served(c, lane, group) == CountOf(w, lane, group))
    && (forall lane :: lane in c ==> c[lane] != map[])
    && (forall lane, group :: lane in c && group in c[lane] ==> c[lane][group] > 0)
  }

  /** Count one more served event. */
  function Added(c: Counts, e: Event): Counts {
    var gm := if e.lane in c then c[e.lane] else map[];
    c[e.lane := gm[e.group := Served(c, e.lane, e.group) + 1]]
  }

  /** Drop one event from the counts, leaving no zero entry behind. */
  function Evicted(c: Counts, e: Event): Counts {
    if e.lane !in c then c
    else
      var gm := c[e.lane];
      var n := Served(c, e.lane, e.group);
      var gm' := if n <= 1 then gm - {e.group} else gm[e.group := n - 1];
      if gm' == map[] then c - {e.lane} else c[e.lane := gm']
  }

  lemma AddedIndexes(c: Counts, w: seq<Event>, e: Event)
    requires Indexes(c, w)
    ensures Indexes(Added(c, e), w + [e])
  {
    assert (w + [e])[..|w|] == w;
    forall lane, group
      ensures Served(Added(c, e), lane, group) == CountOf(w + [e], lane, group)
    {
      assert Served(c, lane, group) == CountOf(w, lane, group);
    }
    var c' := Added(c, e);
    assert e.group in c'[e.lane];
  }

  lemma {:induction false} CountOfCons(w: seq<Event>, lane: string, group: string)
    requires w != []
    ensures CountOf(w, lane, group) ==
              CountOf(w[1..], lane, group) + (if w[0].lane == lane && w[0].group == group then 1 else 0)
  {
    if |w| > 1 {
      CountOfCons(w[..|w| - 1], lane, group);
      assert w[1..][..|w| - 2] == w[..|w| - 1][1..];
    } else {
      assert w[..0] == [] && w[1..] == [];
    }
  }

  lemma EvictedIndexes(c: Counts, w: seq<Event>)
    requires w != [] && Indexes(c, w)
    ensures Indexes(Evicted(c, w[0]), w[1..])
  {
    var e, c' := w[0], Evicted(c, w[0]);
    CountOfCons(w, e.lane, e.group);
    assert Served(c, e.lane, e.group) > 0;
    forall lane, group
      ensures Served(c', lane, group) == CountOf(w[1..], lane, group)
    {
      CountOfCons(w, lane, group);
      assert Served(c, lane, group) == CountOf(w, lane, group);
      if lane == e.lane && e.lane !in c' {
        var n := Served(c, e.lane, e.group);
        var gm' := if n <= 1 then c[e.lane] - {e.group} else c[e.lane][e.group := n - 1];
        assert group !in gm';
      }
    }
  }

  /** Two positions less than a lap apart use different slots. */
  lemma SlotsDiffer(i: nat, j: nat)
    requires i < j < i + RING_CAP
    ensures i % RING_CAP != j % RING_CAP
  {
    assert i == RING_CAP * (i / RING_CAP) + i % RING_CAP && j == RING_CAP * (j / RING_CAP) + j % RING_CAP;
  }

  lemma SlotIs(x: nat, laps: nat, slot: nat)
    requires x == RING_CAP * laps + slot && slot < RING_CAP
    ensures x % RING_CAP == slot
  {
  }

  lemma NextSlot(n: nat)
    ensures (n % RING_CAP + 1) % RING_CAP == (n + 1) % RING_CAP
    ensures n >= RING_CAP ==> (n - RING_CAP) % RING_CAP == n % RING_CAP
  {
    var laps, slot := n / RING_CAP, n % RING_CAP;
    if slot + 1 == RING_CAP {
      SlotIs(n + 1, laps + 1, 0);
    } else {
      SlotIs(n + 1, laps, slot + 1);
    }
    if n >= RING_CAP { SlotIs(n - RING_CAP, laps - 1, slot); }
  }

  /** The i-th oldest slot, computed from the write position. */
  lemma OldSlot(n: nat, count: nat, i: nat)
    requires count <= n && count <= RING_CAP
    ensures ((n % RING_CAP + RING_CAP - count) % RING_CAP + i) % RING_CAP == (n - count + i) % RING_CAP
  {
  }

  /** Lane events with their group among gs. */
  function CountIn(w: seq<Event>, lane: string, gs: set<string>): nat {
    if w == [] then 0
    else CountIn(w[..|w| - 1], lane, gs) + (if w[|w| - 1].lane == lane && w[|w| - 1].group in gs then 1 else 0)
  }

  lemma {:induction false} CountInGrows(w: seq<Event>, lane: string, gs: set<string>, g: string)
    requires g !in gs
    ensures CountIn(w, lane, gs + {g}) == CountIn(w, lane, gs) + CountOf(w, lane, g)
  {
    if w != [] {
      CountInGrows(w[..|w| - 1], lane, gs, g);
    }
  }

  lemma {:induction false} CountInNone(w: seq<Event>, lane: string)
    ensures CountIn(w, lane, {}) == 0
  {
    if w != [] {
      CountInNone(w[..|w| - 1], lane);
    }
  }

  /** Once every served group is counted, the counts add up to the lane's events. */
  lemma {:induction false} CountInAll(w: seq<Event>, lane: string, gs: set<string>)
    requires forall g :: CountOf(w, lane, g) > 0 ==> g in gs
    ensures CountIn(w, lane, gs) == |LaneGroups(w, lane)|
  {
    if w != [] {
      var init, e := w[..|w| - 1], w[|w| - 1];
      forall g | CountOf(init, lane, g) > 0 ensures g in gs {
        assert CountOf(w, lane, g) > 0;
      }
      CountInAll(init, lane, gs);
      if e.lane == lane {
        assert CountOf(w, lane, e.group) > 0;
      }
    }
  }

  datatype LaneSnapshot = LaneSnapshot(lane: string, ribbon: seq<string>, served: map<string, nat>, total: nat)

  function Tail(s: seq<string>, n: nat): seq<string> {
    if |s| > n then s[|s| - n..] else s
  }

  class Projection {
    var ring: array<Event>
    var head: nat
    var count: nat
    var total: nat
    var served: Counts
    ghost var log: seq<Event>  // every event ever recorded

    /** The last min(total, RING_CAP) events. */
    ghost function Window(): seq<Event>
      reads this
      requires count <= |log|
    {
      log[|log| - count..]
    }

    ghost predicate Valid()
      reads this, ring
    {
      && ring.Length == RING_CAP
      && total == |log|
      && count == (if |log| < RING_CAP then |log| else RING_CAP)
      && head == |log| % RING_CAP
      && (forall j :: |log| - count <= j < |log| ==> ring[j % RING_CAP] == log[j])
      && Indexes(served, Window())
    }

    constructor ()
      ensures Valid() && log == []
    {
      ring := new Event[RING_CAP](_ => Event("", "", 0));
      head, count, total, served := 0, 0, 0, map[];
      log := [];
    }

    /** Take the event about to be overwritten out of the counts. */
    method Evict(e: Event)
      modifies this`served
      ensures served == Evicted(old(served), e)
    {
      if e.lane in served {
        var gm := served[e.lane];
        if e.group in gm && gm[e.group] > 1 {
          gm := gm[e.group := gm[e.group] - 1];
        } else {
          gm := gm - {e.group};
        }
        if gm == map[] {
          served := served - {e.lane};
        } else {
          served := served[e.lane := gm];
        }
      }
    }

    method Bump(e: Event)
      modifies this`served
      ensures served == Added(old(served), e)
    {
      var gm := if e.lane in served then served[e.lane] else map[];
      gm := gm[e.group := (if e.group in gm then gm[e.group] else 0) + 1];
      served := served[e.lane := gm];
    }

    method Record(lane: string, group: string, now: int)
      requires Valid()
      modifies this, ring
      ensures Valid() && ring == old(ring)
      ensures log == old(log) + [Event(lane, group, now)]
    {
      ghost var w := Window();
      if count == RING_CAP {
        NextSlot(|log|);
        var oldest := ring[head];
        assert oldest == w[0];
        Evict(oldest);
        EvictedIndexes(old(served), w);
        w := w[1..];
      } else {
        count := count + 1;
      }
      var e := Event(lane, group, now);
      WriteSlot(e);
      AddedIndexes(served, w, e);
      Bump(e);
      assert Window() == w + [e];
    }

    /** The ring write: the new event takes the slot at the write position. */
    method WriteSlot(e: Event)
      requires ring.Length == RING_CAP && total == |log| && head == |log| % RING_CAP
      requires count == (if |log| + 1 < RING_CAP then |log| + 1 else RING_CAP)
      requires forall j :: |log| + 1 - count <= j < |log| ==> ring[j % RING_CAP] == log[j]
      modifies this`head, this`total, this`log, ring
      ensures log == old(log) + [e] && total == |log| && head == |log| % RING_CAP
      ensures forall j :: |log| - count <= j < |log| ==> ring[j % RING_CAP] == log[j]
    {
      forall j | |log| + 1 - count <= j < |log| ensures j % RING_CAP != head { SlotsDiffer(j, |log|); }
      NextSlot(|log|);
      ring[head] := e;
      head := (head + 1) % RING_CAP;
      total := total + 1;
      log := log + [e];
    }

    /** One lane's rolling counts and their sum. */
    method CountLane(lane: string) returns (counts: map<string, nat>, sum: nat)
      requires count <= |log| && Indexes(served, Window())
      ensures forall g :: (if g in counts then counts[g] else 0) == CountOf(Window(), lane, g)
      ensures forall g :: g in counts ==> counts[g] > 0
      ensures sum == |LaneGroups(Window(), lane)|
    {
      ghost var w := Window();
      counts, sum := map[], 0;
      ghost var gs: set<string> := {};
      CountInNone(w, lane);
      if lane in served {
        var gm := served[lane];
        var left := gm.Keys;
        while left != {}
          invariant left <= gm.Keys && gs == gm.Keys - left
          invariant counts.Keys == gs && forall g :: g in counts ==> counts[g] == gm[g]
          invariant sum == CountIn(w, lane, gs)
          decreases left
        {
          var g :| g in left;
          assert gm[g] == Served(served, lane, g);
          CountInGrows(w, lane, gs, g);
          counts := counts[g := gm[g]];
          sum := sum + gm[g];
          left, gs := left - {g}, gs + {g};
        }
      }
      forall g ensures (if g in counts then counts[g] else 0) == CountOf(w, lane, g) {
        assert Served(served, lane, g) == CountOf(w, lane, g);
      }
      CountInAll(w, lane, gs);
    }

    /** One lane's groups, walking the ring oldest to newest. */
    method LaneRibbon(lane: string) returns (ribbon: seq<string>)
      requires Valid()
      ensures ribbon == LaneGroups(Window(), lane)
    {
      ghost var w := Window();
      ribbon := [];
      var start := (head + RING_CAP - count) % RING_CAP;
      for i := 0 to count
        invariant ribbon == LaneGroups(w[..i], lane)
      {
        OldSlot(|log|, count, i);
        var e := ring[(start + i) % RING_CAP];
        assert e == log[|log| - count + i] == w[i];
        assert w[..i + 1][..i] == w[..i];
        if e.lane == lane {
          ribbon := ribbon + [e.group];
        }
      }
      assert w[..count] == w;
    }

    /** The read path: rolling counts, their sum, and the newest lane events in order. */
    method Snapshot(lane: string) returns (out: LaneSnapshot)
      requires Valid()
      ensures out.lane == lane
      ensures forall g :: (if g in out.served then out.served[g] else 0) == CountOf(Window(), lane, g)
      ensures forall g :: g in out.served ==> out.served[g] > 0
      ensures out.total == |LaneGroups(Window(), lane)|
      ensures out.ribbon == Tail(LaneGroups(Window(), lane), MAX_RIBBON)
    {
      var counts, sum := CountLane(lane);
      var ribbon := LaneRibbon(lane);
      if |ribbon| > MAX_RIBBON {
        ribbon := ribbon[|ribbon| - MAX_RIBBON..];
      }
      out := LaneSnapshot(lane, ribbon, counts, sum);
    }
  }
}
