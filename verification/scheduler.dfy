/** The fairness mechanism of one lane: per-group virtual clocks, a scoring policy with
    fault quarantine, and the choice of the next group to serve. Floating-point numbers
    are reals; a score that is not finite is None. */
module Scheduler {
  import opened Bytes

  const QUARANTINE_THRESHOLD: int := 5
  const QUARANTINE_WINDOW_MS: int := 10_000

  /** An active group of the lane. */
  datatype GroupStat = GroupStat(id: string, backlog: int, inFlight: int, weight: real)

  /** What a policy sees of a group. */
  datatype GroupView = GroupView(id: string, weight: real, backlog: int, inFlight: int, virtualTime: real,
      deficit: real)

  datatype LaneView = LaneView(groups: seq<GroupView>, nowMs: int, turn: int)

  type Scores = Option<seq<Option<real>>>

  /** A compiled policy. Scored stands for the policies whose ranking is not virtual time:
      any function of the view, which may fail or return the wrong number of scores. */
  datatype Compiled = Wfq | Strict | CompletionAware | Scored(score: LaneView -> Scores)

  datatype Lane = Lane(vt: map<string, real>, turn: int, pol: Option<Compiled>,
                       faults: int, windowStart: int, quarantined: bool)

  // ----- Scores -----

  function WFQScores(gv: seq<GroupView>): (r: seq<real>)
    ensures |r| == |gv|
  {
    seq(|gv|, i requires 0 <= i < |gv| => -gv[i].virtualTime)
  }

  function StrictScores(gv: seq<GroupView>): seq<Option<real>> {
    seq(|gv|, i requires 0 <= i < |gv| => Some(gv[i].weight * 1000000.0 - gv[i].virtualTime))
  }

  function Finite(s: seq<Option<real>>): bool {
    forall i :: 0 <= i < |s| ==> s[i].Some?
  }

  function Lift(s: seq<real>): seq<Option<real>> {
    seq(|s|, i requires 0 <= i < |s| => Some(s[i]))
  }

  function Score(pol: Compiled, view: LaneView): Scores {
    match pol
    case Wfq => Some(Lift(WFQScores(view.groups)))
    case CompletionAware => Some(Lift(WFQScores(view.groups)))
    case Strict => Some(StrictScores(view.groups))
    case Scored(score) => score(view)
  }

  /** Weight of a turn; a non-positive weight counts as one. */
  function Turn(w: real): (r: real)
    ensures r > 0.0
  {
    if w <= 0.0 then 1.0 else w
  }

  /** The completion-aware surcharge: (1 + in-flight) / weight. */
  function ServeCost(pol: Compiled, g: GroupView): Option<real> {
    if pol.CompletionAware? then Some((1.0 + g.inFlight as real) / Turn(g.weight)) else None
  }

  // ----- Clocks -----

  /** The least clock among the groups that have one. */
  function MinKnown(vt: map<string, real>, active: seq<GroupStat>): Option<real> {
    if active == [] then None
    else
      var init, id := MinKnown(vt, active[..|active| - 1]), active[|active| - 1].id;
      if id in vt && (init.None? || vt[id] < init.value) then Some(vt[id]) else init
  }

  function MinClock(vt: map<string, real>, active: seq<GroupStat>): real {
    var m := MinKnown(vt, active);
    if m.None? then 0.0 else m.value
  }

  /** First-time groups start at clock m. */
  function Joined(vt: map<string, real>, active: seq<GroupStat>, m: real): (r: map<string, real>)
    ensures forall id :: id in r <==> id in vt || exists i :: 0 <= i < |active| && active[i].id == id
    ensures forall id :: id in vt ==> r[id] == vt[id]
    ensures forall id :: id in r && id !in vt ==> r[id] == m
  {
    if active == [] then vt
    else
      var init, id := Joined(vt, active[..|active| - 1], m), active[|active| - 1].id;
      if id in init then init else init[id := m]
  }

  function MaxClock(vt: map<string, real>, active: seq<GroupStat>, m: real): real
    requires forall i :: 0 <= i < |active| ==> active[i].id in vt
  {
    if active == [] then m
    else
      var init, v := MaxClock(vt, active[..|active| - 1], m), vt[active[|active| - 1].id];
      if v > init then v else init
  }

  function View(vt: map<string, real>, active: seq<GroupStat>, maxVt: real): seq<GroupView>
    requires forall i :: 0 <= i < |active| ==> active[i].id in vt
  {
    seq(|active|, i requires 0 <= i < |active| =>
      var g := active[i];
      GroupView(g.id, g.weight, g.backlog, g.inFlight, vt[g.id], maxVt - vt[g.id]))
  }

  // ----- The choice -----

  /** Byte order on group ids. */
  predicate Before(a: string, b: string) {
    if b == "" then false
    else if a == "" then true
    else a[0] < b[0] || (a[0] == b[0] && Before(a[1..], b[1..]))
  }

  /** g with this score replaces the best so far. */
  predicate Beats(score: real, id: string, bestScore: real, bestId: string) {
    score > bestScore || (score == bestScore && Before(id, bestId))
  }

  /** The winner among the first n groups, or -1 if none has backlog. */
  function Best(active: seq<GroupStat>, scores: seq<real>, n: nat): (b: int)
    requires n <= |active| == |scores|
    ensures -1 <= b < n
    ensures b >= 0 ==> active[b].backlog > 0
  {
    if n == 0 then -1
    else
      var b := Best(active, scores, n - 1);
      if active[n - 1].backlog <= 0 then b
      else if b < 0 || Beats(scores[n - 1], active[n - 1].id, scores[b], active[b].id) then n - 1
      else b
  }

  lemma {:induction false} BeforeTransitive(a: string, b: string, c: string)
    requires Before(a, b) && Before(b, c)
    ensures Before(a, c)
  {
    if a != "" && a[0] == b[0] == c[0] { BeforeTransitive(a[1..], b[1..], c[1..]); }
  }

  /** The winner has backlog, the highest score, and among equals the lowest id; a pick
      happens exactly when some group has backlog. */
  lemma {:induction false} BestIsHighest(active: seq<GroupStat>, scores: seq<real>, n: nat)
    requires n <= |active| == |scores|
    ensures var b := Best(active, scores, n);
            && (b < 0 <==> forall i :: 0 <= i < n ==> active[i].backlog <= 0)
            && (b >= 0 ==> forall i :: 0 <= i < n && active[i].backlog > 0 ==>
                  scores[i] < scores[b] || (scores[i] == scores[b] && !Before(active[i].id, active[b].id)))
  {
    if n > 0 {
      BestIsHighest(active, scores, n - 1);
      var b, x := Best(active, scores, n - 1), n - 1;
      NotBefore(active[x].id);
      if b >= 0 && Beats(scores[x], active[x].id, scores[b], active[b].id) {
        forall i | 0 <= i < x && Before(active[i].id, active[x].id) && Before(active[x].id, active[b].id)
          ensures Before(active[i].id, active[b].id)
        {
          BeforeTransitive(active[i].id, active[x].id, active[b].id);
        }
      }
    }
  }

  lemma {:induction false} NotBefore(a: string)
    ensures !Before(a, a)
  {
    if a != "" { NotBefore(a[1..]); }
  }

  function RecordFault(l: Lane, now: int): Lane {
    var reset := l.windowStart == 0 || now - l.windowStart > QUARANTINE_WINDOW_MS;
    var faults := (if reset then 0 else l.faults) + 1;
    l.(windowStart := if reset then now else l.windowStart,
       faults := faults,
       quarantined := l.quarantined || faults >= QUARANTINE_THRESHOLD)
  }

  /** The lane's own policy ranks this tick. */
  predicate PolicyRules(l: Lane) {
    l.pol.Some? && !l.quarantined
  }

  /** The policy's answer cannot be used. */
  predicate Faulted(l: Lane, view: LaneView) {
    PolicyRules(l) &&
    var sc := Score(l.pol.value, view);
    sc.None? || |sc.value| != |view.groups| || !Finite(sc.value)
  }

  function Ranking(l: Lane, view: LaneView): (r: seq<real>)
    ensures |r| == |view.groups|
  {
    if PolicyRules(l) && !Faulted(l, view) then
      var sc := Score(l.pol.value, view).value;
      seq(|sc|, i requires 0 <= i < |sc| => sc[i].value)
    else WFQScores(view.groups)
  }

  /** What serving a group adds to its clock. A tick that used the fallback, or whose lane
      is quarantined by the end of it, charges plainly. */
  function Charge(l: Lane, fallback: bool, g: GroupView): (r: real)
    ensures r >= 1.0 / Turn(g.weight)
  {
    var inc := 1.0 / Turn(g.weight);
    if !fallback && PolicyRules(l) then
      match ServeCost(l.pol.value, g)
      case Some(c) => if c > inc then c else inc
      case None => inc
    else inc
  }

  datatype Pick = Pick(lane: Lane, gid: Option<string>, fallback: bool)

  function TickView(l: Lane, active: seq<GroupStat>, now: int): LaneView {
    var m := MinClock(l.vt, active);
    var vt := Joined(l.vt, active, m);
    LaneView(View(vt, active, MaxClock(vt, active, m)), now, l.turn)
  }

  /** One tick: newcomers join, the ranking's winner is served and charged. */
  function PickNext(l: Lane, active: seq<GroupStat>, now: int): Pick {
    if active == [] then Pick(l, None, false)
    else
      var view := TickView(l, active, now);
      var vt := Joined(l.vt, active, MinClock(l.vt, active));
      var fallback := Faulted(l, view);
      var l1 := (if fallback then RecordFault(l, now) else l).(vt := vt);
      var best := Best(active, Ranking(l, view), |active|);
      if best < 0 then Pick(l1, None, fallback)
      else
        var id := active[best].id;
        Pick(l1.(vt := vt[id := vt[id] + Charge(l1, fallback, view.groups[best])], turn := l.turn + 1), Some(id),
            fallback)
  }

  class LaneState {
    var vt: map<string, real>
    var turn: int
    var pol: Option<Compiled>
    var faults: int
    var windowStart: int
    var quarantined: bool

    ghost function Value(): Lane
      reads this
    {
      Lane(vt, turn, pol, faults, windowStart, quarantined)
    }

    constructor ()
      ensures Value() == Lane(map[], 0, None, 0, 0, false)
    {
      vt, turn, pol, faults, windowStart, quarantined := map[], 0, None, 0, 0, false;
    }

    /** Installs a policy and lifts any quarantine; the fault window is left as it is. */
    method SetPolicy(c: Compiled)
      modifies this
      ensures Value() == old(Value()).(pol := Some(c), quarantined := false, faults := 0)
    {
      pol := Some(c);
      quarantined := false;
      faults := 0;
    }

    method ClearPolicy()
      modifies this
      ensures Value() == old(Value()).(pol := None, quarantined := false, faults := 0)
    {
      if pol.Some? {
        pol := None;
      }
      quarantined := false;
      faults := 0;
    }

    method Fault(now: int)
      modifies this`faults, this`windowStart, this`quarantined
      ensures Value() == RecordFault(old(Value()), now)
    {
      if windowStart == 0 || now - windowStart > QUARANTINE_WINDOW_MS {
        windowStart := now;
        faults := 0;
      }
      faults := faults + 1;
      if faults >= QUARANTINE_THRESHOLD {
        quarantined := true;
      }
    }

    method LeastClock(active: seq<GroupStat>) returns (m: real)
      ensures m == MinClock(vt, active)
    {
      var least: Option<real> := None;
      for i := 0 to |active|
        invariant least == MinKnown(vt, active[..i])
      {
        assert active[..i + 1][..i] == active[..i];
        var id := active[i].id;
        if id in vt && (least.None? || vt[id] < least.value) {
          least := Some(vt[id]);
        }
      }
      assert active[..|active|] == active;
      m := if least.None? then 0.0 else least.value;
    }

    method Join(active: seq<GroupStat>, m: real)
      modifies this`vt
      ensures vt == Joined(old(vt), active, m)
    {
      for i := 0 to |active|
        invariant vt == Joined(old(vt), active[..i], m)
      {
        assert active[..i + 1][..i] == active[..i];
        if active[i].id !in vt {
          vt := vt[active[i].id := m];
        }
      }
      assert active[..|active|] == active;
    }

    method GreatestClock(active: seq<GroupStat>, m: real) returns (x: real)
      requires forall i :: 0 <= i < |active| ==> active[i].id in vt
      ensures x == MaxClock(vt, active, m)
    {
      x := m;
      for i := 0 to |active|
        invariant x == MaxClock(vt, active[..i], m)
      {
        assert active[..i + 1][..i] == active[..i];
        if vt[active[i].id] > x {
          x := vt[active[i].id];
        }
      }
      assert active[..|active|] == active;
    }

    /** The lane policy's ranking, or virtual time where it cannot be used. */
    method Rank(view: LaneView) returns (scores: seq<real>, fallback: bool)
      modifies this`faults, this`windowStart, this`quarantined
      ensures scores == Ranking(old(Value()), view) && fallback == Faulted(old(Value()), view)
      ensures Value() == if fallback then RecordFault(old(Value()), view.nowMs) else old(Value())
    {
      if pol.Some? && !quarantined {
        var sc := Score(pol.value, view);
        if sc.None? || |sc.value| != |view.groups| || !Finite(sc.value) {
          Fault(view.nowMs);
          return WFQScores(view.groups), true;
        }
        var s := sc.value;
        return seq(|s|, i requires 0 <= i < |s| => s[i].value), false;
      }
      return WFQScores(view.groups), false;
    }

    static method Choose(active: seq<GroupStat>, scores: seq<real>) returns (best: int)
      requires |active| == |scores|
      ensures best == Best(active, scores, |active|)
    {
      best := -1;
      for i := 0 to |active|
        invariant best == Best(active, scores, i)
      {
        if active[i].backlog > 0 &&
           (best < 0 || Beats(scores[i], active[i].id, scores[best], active[best].id)) {
          best := i;
        }
      }
    }

    method Serve(g: GroupView, fallback: bool)
      requires g.id in vt
      modifies this`vt, this`turn
      ensures vt == old(vt)[g.id := old(vt)[g.id] + Charge(old(Value()), fallback, g)]
      ensures turn == old(turn) + 1
    {
      var inc := 1.0 / Turn(g.weight);
      if !fallback && !quarantined && pol.Some? {
        var c := ServeCost(pol.value, g);
        if c.Some? && c.value > inc {
          inc := c.value;
        }
      }
      vt := vt[g.id := vt[g.id] + inc];
      turn := turn + 1;
    }

    method PickGroup(active: seq<GroupStat>, now: int) returns (gid: Option<string>, fallback: bool)
      modifies this
      ensures var p := PickNext(old(Value()), active, now);
              Value() == p.lane && gid == p.gid && fallback == p.fallback
    {
      hide Ranking;
      hide Faulted;
      hide RecordFault;
      hide Best;
      hide Charge;
      hide MinClock;
      hide MaxClock;
      hide Joined;
      if |active| == 0 {
        return None, false;
      }
      var m := LeastClock(active);
      Join(active, m);
      var x := GreatestClock(active, m);
      var view := LaneView(View(vt, active, x), now, turn);
      RankingIgnoresClocks(old(Value()), Value(), view, now);
      var scores: seq<real>;
      scores, fallback := Rank(view);
      var best := Choose(active, scores);
      if best < 0 {
        return None, fallback;
      }
      Serve(view.groups[best], fallback);
      gid := Some(active[best].id);
    }
  }

  lemma RankingIgnoresClocks(l: Lane, k: Lane, view: LaneView, now: int)
    requires k == l.(vt := k.vt)
    ensures Ranking(k, view) == Ranking(l, view) && Faulted(k, view) == Faulted(l, view)
    ensures RecordFault(k, now) == RecordFault(l, now).(vt := k.vt)
  {
  }

  // ----- Quarantine -----

  /** The fifth fault inside one window quarantines the lane, and from then on a tick is a
      plain weighted-fair tick: no fault is recorded and the scores are virtual time. */
  lemma QuarantinedTick(l: Lane, active: seq<GroupStat>, now: int)
    requires l.quarantined
    ensures var p := PickNext(l, active, now);
            && !p.fallback && p.lane.quarantined && p.lane.faults == l.faults
            && p == PickNext(l.(pol := None), active, now).(lane := p.lane)
            && p.lane.vt == PickNext(l.(pol := None), active, now).lane.vt
  {
  }

  /** The first faults of a window: after n consecutive faults at stamps within the window
      of the first, the lane is quarantined exactly when n reaches the threshold. */
  lemma {:induction false} FaultsInWindow(l: Lane, stamps: seq<int>) returns (r: Lane)
    requires !l.quarantined && l.windowStart == 0 && stamps != [] && stamps[0] != 0
    requires forall i :: 0 <= i < |stamps| ==> stamps[i] - stamps[0] <= QUARANTINE_WINDOW_MS
    ensures r == AfterFaults(l, stamps)
    ensures r.faults == |stamps| && r.windowStart == stamps[0]
    ensures r.quarantined <==> |stamps| >= QUARANTINE_THRESHOLD
    decreases |stamps|
  {
    if |stamps| == 1 {
      r := RecordFault(l, stamps[0]);
      assert stamps[..0] == [];
    } else {
      var init := FaultsInWindow(l, stamps[..|stamps| - 1]);
      r := RecordFault(init, stamps[|stamps| - 1]);
    }
  }

  function AfterFaults(l: Lane, stamps: seq<int>): Lane {
    if stamps == [] then l else RecordFault(AfterFaults(l, stamps[..|stamps| - 1]), stamps[|stamps| - 1])
  }
}
