/** The leader's validation gate for workflow decisions. */
module Gate {
  import opened Bytes
  import opened Store
  import opened Commands
  import opened Handlers
  import opened Durable
  import opened History
  import A = Activities
  import C = Closing
  import O = Outcomes

  // ----- Translating a worker's commands -----

  /** A worker's decision; `kind` is whatever string the worker sent. */
  datatype Decision = Decision(kind: string, actType: string, input: Blob, result: Blob, delay: nat)

  const SCHEDULE_ACTIVITY := "schedule_activity"
  const START_TIMER := "start_timer"
  const CONTINUE_AS_NEW := "continue_as_new"
  const COMPLETE_WORKFLOW := "complete_workflow"
  const FAIL_WORKFLOW := "fail_workflow"

  predicate KnownKind(kind: string) {
    kind == SCHEDULE_ACTIVITY || kind == START_TIMER || kind == CONTINUE_AS_NEW || kind == COMPLETE_WORKFLOW ||
        kind == FAIL_WORKFLOW
  }

  function EventFor(c: Decision, tenant: string, now: nat): EventIn
    requires KnownKind(c.kind)
  {
    if c.kind == SCHEDULE_ACTIVITY then EventIn(ActivityScheduled, Schedule(c.actType, tenant, c.input))
    else if c.kind == START_TIMER then EventIn(TimerStarted, FireAt(Add64(now, c.delay)))
    else if c.kind == CONTINUE_AS_NEW then EventIn(WorkflowContinuedAsNew, NextInput(c.input))
    else if c.kind == COMPLETE_WORKFLOW then EventIn(WorkflowCompleted, Raw(c.result))
    else EventIn(WorkflowFailed, Raw(c.result))
  }

  const FRAME: EventIn := EventIn(WorkflowTaskCompleted, Raw([]))

  predicate AllKnown(cmds: seq<Decision>) {
    forall i :: 0 <= i < |cmds| ==> KnownKind(cmds[i].kind)
  }

  /** The frame, then one event per command, in order. */
  predicate Translates(cmds: seq<Decision>, tenant: string, now: nat, events: seq<EventIn>) {
    && AllKnown(cmds) && |events| == |cmds| + 1 && events[0] == FRAME
    && forall i :: 0 <= i < |cmds| ==> events[i + 1] == EventFor(cmds[i], tenant, now)
  }

  /** Stops at the first unknown kind; otherwise appends one event per command. */
  method TranslateCommands(cmds: seq<Decision>, tenant: string, now: nat) returns (events: Option<seq<EventIn>>)
    ensures events.Some? <==> AllKnown(cmds)
    ensures events.Some? ==> Translates(cmds, tenant, now, events.value)
  {
    var out := [FRAME];
    for i := 0 to |cmds|
      invariant |out| == i + 1 && out[0] == FRAME
      invariant forall j :: 0 <= j < i ==> KnownKind(cmds[j].kind) && out[j + 1] == EventFor(cmds[j], tenant, now)
    {
      if !KnownKind(cmds[i].kind) { return None; }
      out := out + [EventFor(cmds[i], tenant, now)];
    }
    return Some(out);
  }

  /** Translated decisions carry a frame and no leader-only event, and no two of their
      activities share a group exactly when their (nonempty) activity types are distinct. */
  lemma TranslatedIsTame(cmds: seq<Decision>, tenant: string, now: nat, events: seq<EventIn>, run: nat, epoch: nat,
          top: nat)
    requires Translates(cmds, tenant, now, events)
    ensures var c := AppendEvents(run, epoch, top, events, now); Framed(c) && O.FromGate(c)
    ensures A.Separate(events) <==> DistinctTypes(cmds)
  {
    forall i | 0 <= i < |events| ensures !O.LeaderOnly(events[i].kind) {
      if i > 0 { assert events[i - 1 + 1] == EventFor(cmds[i - 1], tenant, now); }
    }
    SeparateIffDistinct(cmds, tenant, now, events);
  }

  /** Each command becomes the event of its own name, carrying what the worker sent: its kind
      decides the event's kind and the event's kind decides it. */
  lemma TranslatedByName(cmds: seq<Decision>, tenant: string, now: nat, events: seq<EventIn>, i: nat)
    requires Translates(cmds, tenant, now, events) && i < |cmds|
    ensures events[0] == EventIn(WorkflowTaskCompleted, Raw([])) && |events| == |cmds| + 1
    ensures var c, e := cmds[i], events[i + 1];
            && (c.kind == "schedule_activity" <==> e.kind == ActivityScheduled)
            && (c.kind == "schedule_activity" ==> e.attrs == Schedule(c.actType, tenant, c.input))
            && (c.kind == "start_timer" <==> e.kind == TimerStarted)
            && (c.kind == "start_timer" ==> e.attrs == FireAt((now + c.delay) % 0x1_0000_0000_0000_0000))
            && (c.kind == "continue_as_new" <==> e.kind == WorkflowContinuedAsNew)
            && (c.kind == "continue_as_new" ==> e.attrs == NextInput(c.input))
            && (c.kind == "complete_workflow" <==> e.kind == WorkflowCompleted)
            && (c.kind == "complete_workflow" ==> e.attrs == Raw(c.result))
            && (c.kind == "fail_workflow" <==> e.kind == WorkflowFailed)
            && (c.kind == "fail_workflow" ==> e.attrs == Raw(c.result))
  {
    assert events[i + 1] == EventFor(cmds[i], tenant, now);
    var k := cmds[i].kind;
    assert k == "schedule_activity" || k == "start_timer" || k == "continue_as_new" || k == "complete_workflow"
        || k == "fail_workflow";
    assert "schedule_activity"[2] == 'h' && "start_timer"[2] == 'a' && "continue_as_new"[2] == 'n';
    assert "complete_workflow"[2] == 'm' && "fail_workflow"[2] == 'i';
  }

  predicate Schedules(c: Decision) {
    c.kind == SCHEDULE_ACTIVITY && c.actType != ""
  }

  predicate DistinctTypes(cmds: seq<Decision>) {
    forall i, j :: 0 <= i < j < |cmds| && Schedules(cmds[i]) && Schedules(cmds[j]) ==>
        cmds[i].actType != cmds[j].actType
  }

  lemma EventDispatches(c: Decision, tenant: string, now: nat)
    requires KnownKind(c.kind)
    ensures A.Dispatches(EventFor(c, tenant, now).kind, EventFor(c, tenant, now).attrs) <==> Schedules(c)
    ensures Schedules(c) ==> A.GroupFor(EventFor(c, tenant, now).attrs) == ActivityGroup(c.actType, tenant)
  {
  }

  lemma SeparateIffDistinct(cmds: seq<Decision>, tenant: string, now: nat, events: seq<EventIn>)
    requires Translates(cmds, tenant, now, events)
    ensures A.Separate(events) <==> DistinctTypes(cmds)
  {
    forall i | 0 <= i < |cmds| { EventDispatches(cmds[i], tenant, now); }
    if DistinctTypes(cmds) {
      forall i, j | 0 <= i < j < |events| && A.Dispatches(events[i].kind, events[i].attrs)
          && A.Dispatches(events[j].kind, events[j].attrs)
        ensures A.GroupFor(events[i].attrs) != A.GroupFor(events[j].attrs)
      {
        assert i > 0;
        assert events[i - 1 + 1] == EventFor(cmds[i - 1], tenant, now)
            && events[j - 1 + 1] == EventFor(cmds[j - 1], tenant, now);
        assert Schedules(cmds[i - 1]) && Schedules(cmds[j - 1]);
        A.GroupsApart(events[i].attrs, events[j].attrs);
      }
    } else {
      var i, j :| 0 <= i < j < |cmds| && Schedules(cmds[i]) && Schedules(cmds[j]) && cmds[i].actType == cmds[j].actType;
      assert A.GroupFor(events[i + 1].attrs) == A.GroupFor(events[j + 1].attrs);
    }
  }

  // ----- The checksum -----

  /** An event as it is hashed: id, type code and attribute bytes. */
  datatype Wire = Wire(id: nat, code: nat, attrs: Blob)

  type Encoder = Attrs -> Blob
  type Digest = Blob -> Blob

  function KindCode(k: EventKind): nat {
    match k
    case Unspecified => 0
    case WorkflowStarted => 1
    case WorkflowTaskScheduled => 2
    case WorkflowTaskCompleted => 3
    case ActivityScheduled => 4
    case ActivityCompleted => 5
    case ActivityFailed => 6
    case TimerStarted => 7
    case TimerFired => 8
    case SignalReceived => 9
    case MarkerRecorded => 10
    case WorkflowCompleted => 11
    case WorkflowFailed => 12
    case WorkflowCanceled => 13
    case WorkflowContinuedAsNew => 14
  }

  lemma Widths()
    ensures Pow256(8) == U64 && Pow256(4) == U32
  {
    assert Pow256(4) == 256 * (256 * (256 * (256 * Pow256(0))));
    assert Pow256(8) == 256 * (256 * (256 * (256 * Pow256(4))));
  }

  function Fixed(n: nat, v: nat): (s: Blob)
    ensures |s| == n
  {
    BE(n, v % Pow256(n))
  }

  function WireBytes(events: seq<Wire>): Blob
    decreases |events|
  {
    if events == [] then []
    else
      var e := events[|events| - 1];
      WireBytes(events[..|events| - 1]) + Fixed(8, e.id) + Fixed(4, e.code) + e.attrs
  }

  /** Feeds each event's id, type and attributes to the hash, with no separators. */
  method PrefixChecksumOf(events: seq<Wire>, hash: Digest) returns (sum: Blob)
    ensures sum == hash(WireBytes(events))
  {
    var fed: Blob := [];
    for i := 0 to |events|
      invariant fed == WireBytes(events[..i])
    {
      assert events[..i + 1][..i] == events[..i];
      fed := fed + Fixed(8, events[i].id);
      fed := fed + Fixed(4, events[i].code);
      fed := fed + events[i].attrs;
    }
    assert events[..|events|] == events;
    return hash(fed);
  }

  function WireOf(wf: Engine, enc: Encoder, k: EventKey): Wire
    requires k in wf.history
  {
    Wire(k.id, KindCode(wf.history[k].kind), enc(wf.history[k].attrs))
  }

  /** What is hashed of an event determines it, apart from its stamp, when the encoding of
      attributes does. */
  lemma WireDetermines(e: Event, e': Event, enc: Encoder)
    requires forall x, y :: enc(x) == enc(y) ==> x == y
    ensures KindCode(e.kind) == KindCode(e'.kind) && enc(e.attrs) == enc(e'.attrs) <==>
              e.kind == e'.kind && e.attrs == e'.attrs
  {
  }

  /** The run's events from the first, up to the given id or the first gap. */
  function Upto(wf: Engine, enc: Encoder, run: nat, n: nat): seq<Wire> {
    if n == 0 then []
    else
      var init := Upto(wf, enc, run, n - 1);
      if |init| == n - 1 && EventKey(run, n) in wf.history then init + [WireOf(wf, enc, EventKey(run, n))] else init
  }

  method HistoryChecksum(wf: Engine, enc: Encoder, hash: Digest, run: nat, upto: nat) returns (sum: Blob)
    ensures sum == hash(WireBytes(Upto(wf, enc, run, upto)))
  {
    var events: seq<Wire> := [];
    var id := 1;
    while id <= upto
      invariant 1 <= id <= upto + 1 && |events| == id - 1 && events == Upto(wf, enc, run, id - 1)
    {
      if EventKey(run, id) !in wf.history { break; }
      events := events + [WireOf(wf, enc, EventKey(run, id))];
      id := id + 1;
    }
    UptoStops(wf, enc, run, |events|, upto);
    sum := PrefixChecksumOf(events, hash);
  }

  /** Nothing is read past a gap. */
  lemma {:induction false} UptoStops(wf: Engine, enc: Encoder, run: nat, n: nat, upto: nat)
    requires n <= upto && |Upto(wf, enc, run, n)| == n && (n < upto ==> EventKey(run, n + 1) !in wf.history)
    ensures Upto(wf, enc, run, upto) == Upto(wf, enc, run, n)
    decreases upto
  {
    if n < upto { UptoStops(wf, enc, run, n, upto - 1); }
  }

  /** In a well-formed history there is no gap: the checksum covers every event up to the id. */
  lemma {:induction false} UptoIsWhole(wf: Engine, enc: Encoder, run: nat, n: nat)
    requires Shape(wf) && run in wf.runs && n <= wf.runs[run].curSeq
    ensures |Upto(wf, enc, run, n)| == n
    ensures forall i :: 1 <= i <= n ==>
              EventKey(run, i) in wf.history && Upto(wf, enc, run, n)[i - 1] == WireOf(wf, enc, EventKey(run, i))
  {
    if n > 0 { UptoIsWhole(wf, enc, run, n - 1); }
  }

  // ----- What the hashed bytes determine -----

  /** Event by event, the attribute bytes have the same length. */
  predicate SameLengths(a: seq<Wire>, b: seq<Wire>) {
    |a| == |b| && forall i :: 0 <= i < |a| ==> |a[i].attrs| == |b[i].attrs|
  }

  predicate InRange(a: seq<Wire>) {
    forall i :: 0 <= i < |a| ==> a[i].id < U64 && a[i].code < U32
  }

  lemma SmallMod(v: nat, p: nat)
    requires v < p
    ensures v % p == v
  {
  }

  lemma FixedInjective(n: nat, v: nat, w: nat)
    requires v < Pow256(n) && w < Pow256(n) && Fixed(n, v) == Fixed(n, w)
    ensures v == w
  {
    hide Pow256;
    hide BE;
    SmallMod(v, Pow256(n));
    SmallMod(w, Pow256(n));
    BERoundTrip(n, v);
    BERoundTrip(n, w);
  }

  /** Histories whose attributes agree in length hash the same bytes only if they are equal. */
  lemma {:induction false} SameBytesSameHistory(a: seq<Wire>, b: seq<Wire>)
    requires InRange(a) && InRange(b) && SameLengths(a, b)
    ensures WireBytes(a) == WireBytes(b) <==> a == b
    decreases |a|
  {
    if a != [] && WireBytes(a) == WireBytes(b) {
      var n := |a| - 1;
      var x, y, p, q := a[n], b[n], WireBytes(a[..n]), WireBytes(b[..n]);
      var m := |x.attrs|;
      SplitTail(p, Fixed(8, x.id), Fixed(4, x.code), x.attrs, q, Fixed(8, y.id), Fixed(4, y.code), y.attrs);
      Widths();
      FixedInjective(8, x.id, y.id);
      FixedInjective(4, x.code, y.code);
      SameBytesSameHistory(a[..n], b[..n]);
      assert a == a[..n] + [x] && b == b[..n] + [y];
    }
  }

  lemma SplitTail(p: Blob, x1: Blob, x2: Blob, x3: Blob, q: Blob, y1: Blob, y2: Blob, y3: Blob)
    requires p + x1 + x2 + x3 == q + y1 + y2 + y3
    requires |x1| == |y1| && |x2| == |y2| && |x3| == |y3|
    ensures p == q && x1 == y1 && x2 == y2 && x3 == y3
  {
    var s := p + x1 + x2 + x3;
    assert |p| == |q|;
    assert p == s[..|p|] && q == s[..|p|];
    assert x1 == s[|p|..|p| + |x1|] && y1 == s[|p|..|p| + |x1|];
    assert x2 == s[|p| + |x1|..|p| + |x1| + |x2|] && y2 == s[|p| + |x1|..|p| + |x1| + |x2|];
    assert x3 == s[|p| + |x1| + |x2|..] && y3 == s[|p| + |x1| + |x2|..];
  }

  lemma WireMore(a: seq<Wire>, e: Wire)
    ensures WireBytes(a + [e]) == WireBytes(a) + Fixed(8, e.id) + Fixed(4, e.code) + e.attrs
  {
    hide Fixed;
    assert (a + [e])[..|a|] == a;
  }

  lemma Regroup(x: Blob, y: Blob, u: Blob, v: Blob, w: Blob)
    ensures [] + x + y + (u + v + w) == [] + x + y + [] + u + v + w
  {
  }

  /** Attributes are not length-prefixed: one event can hash like two. */
  lemma OneEventHashesLikeTwo(code: nat, code2: nat, attrs: Blob)
    ensures var two := [Wire(1, code, []), Wire(2, code2, attrs)];
            var one := [Wire(1, code, Fixed(8, 2) + Fixed(4, code2) + attrs)];
            one != two && WireBytes(one) == WireBytes(two)
  {
    hide Fixed;
    hide WireBytes;
    var first, second, both :=
        Wire(1, code, []), Wire(2, code2, attrs), Wire(1, code, Fixed(8, 2) + Fixed(4, code2) + attrs);
    WireMore([], both);
    WireMore([], first);
    WireMore([first], second);
    assert [] + [both] == [both] && [] + [first] == [first] && [first] + [second] == [first, second];
    NoBytes();
    Regroup(Fixed(8, 1), Fixed(4, code), Fixed(8, 2), Fixed(4, code2), attrs);
  }

  lemma NoBytes()
    ensures WireBytes([]) == []
  {
  }

  // ----- The gate -----

  datatype Verdict =
    | NotFound
    | Refused(reason: string)
    | BadCommand
    | Submit(events: seq<EventIn>)

  /** A decision passes if it was made at the run's current version, from its committed
      history, in known commands. */
  ghost predicate Passes(wf: Engine, enc: Encoder, hash: Digest, run: nat, epoch: nat, top: nat, sum: Option<Blob>,
          cmds: seq<Decision>) {
    Fenced(wf, run, epoch, top) && sum == Some(hash(WireBytes(Upto(wf, enc, run, top)))) && AllKnown(cmds)
  }

  /** The checks in order; a refusal submits nothing. */
  method Validate(wf: Engine, enc: Encoder, hash: Digest, run: nat, epoch: nat, top: nat, sum: Option<Blob>,
                  cmds: seq<Decision>, now: nat) returns (v: Verdict)
    ensures v.Submit? <==> Passes(wf, enc, hash, run, epoch, top, sum, cmds)
    ensures v.Submit? ==> Translates(cmds, wf.runs[run].tenant, now, v.events)
    ensures v.NotFound? <==> run !in wf.runs
    ensures v == Refused("closed") <==> run in wf.runs && wf.runs[run].status != WfRunning
    ensures v == Refused("stale") <==> IsRunning(wf, run) && !Fenced(wf, run, epoch, top)
    ensures v == Refused("checksum_required") <==> Fenced(wf, run, epoch, top) && sum.None?
    ensures v == Refused("non_determinism") <==>
              Fenced(wf, run, epoch, top) && sum.Some? && sum.value != hash(WireBytes(Upto(wf, enc, run, top)))
  {
    if run !in wf.runs { return NotFound; }
    var r := wf.runs[run];
    if r.status != WfRunning { return Refused("closed"); }
    if epoch != r.epoch || top != r.curSeq { return Refused("stale"); }
    if sum.None? { return Refused("checksum_required"); }
    var want := HistoryChecksum(wf, enc, hash, run, top);
    if sum.value != want { return Refused("non_determinism"); }
    var events := TranslateCommands(cmds, r.tenant, now);
    if events.None? { return BadCommand; }
    return Submit(events.value);
  }

  /** What passes the gate and later commits was decided from exactly the history it extends:
      the bytes whose checksum was compared are those of the run's whole history at commit. */
  lemma CommittedFromTheGatedHistory(log: seq<Command>, i: nat, j: nat, enc: Encoder)
    requires i <= j < |log| && Committed(log, j)
    requires Fenced(DbAt(log, i).wf, log[j].run, log[j].epoch, log[j].atSeq)
    ensures var c := log[j];
            && Upto(DbAt(log, j).wf, enc, c.run, DbAt(log, j).wf.runs[c.run].curSeq) ==
                 Upto(DbAt(log, i).wf, enc, c.run, c.atSeq)
            && Upto(DbAt(log, j + 1).wf, enc, c.run, c.atSeq) == Upto(DbAt(log, i).wf, enc, c.run, c.atSeq)
  {
    CommitFollows(log, j);
    ReachableShape(log, i);
    NoRewrite(log, i, j);
    NoRewrite(log, i, j + 1);
    hide Follows;
    hide Committed;
    UptoPersists(DbAt(log, i).wf, DbAt(log, j).wf, enc, log[j].run, log[j].atSeq);
    UptoPersists(DbAt(log, i).wf, DbAt(log, j + 1).wf, enc, log[j].run, log[j].atSeq);
  }

  lemma {:induction false} UptoPersists(wf: Engine, wf': Engine, enc: Encoder, run: nat, n: nat)
    requires Shape(wf) && Extends(wf, wf') && run in wf.runs && n <= wf.runs[run].curSeq
    ensures Upto(wf', enc, run, n) == Upto(wf, enc, run, n)
  {
    if n > 0 { UptoPersists(wf, wf', enc, run, n - 1); UptoIsWhole(wf, enc, run, n - 1); }
  }

  // ----- What a passed decision does to its run -----

  predicate Ends(kind: string) {
    kind == "complete_workflow" || kind == "fail_workflow" || kind == "continue_as_new"
  }

  lemma EndsIffCloses(cmds: seq<Decision>, tenant: string, now: nat, events: seq<EventIn>, i: nat)
    requires Translates(cmds, tenant, now, events) && i < |cmds|
    ensures Ends(cmds[i].kind) <==> C.Closes(events[i + 1].kind)
  {
    hide Translates;
    TranslatedByName(cmds, tenant, now, events, i);
    var k := cmds[i].kind;
    TranslatedKnown(cmds, tenant, now, events, i);
  }

  lemma TranslatedKnown(cmds: seq<Decision>, tenant: string, now: nat, events: seq<EventIn>, i: nat)
    requires Translates(cmds, tenant, now, events) && i < |cmds|
    ensures KnownKind(cmds[i].kind)
  {
  }

  /** The run's history goes on with the frame and the commands, and its status is the one the
      m-th command gives it; with m zero it is still running. */
  ghost predicate EndsAs(wf: Engine, run: nat, top: nat, cmds: seq<Decision>, m: nat, now: nat)
    requires m <= |cmds|
  {
    var last := EventKey(run, top + m + 1);
    && run in wf.runs && wf.runs[run].curSeq == top + 1 + |cmds|
    && (m == 0 ==> wf.runs[run].status == WfRunning)
    && (m > 0 && cmds[m - 1].kind == "complete_workflow" ==>
          && wf.runs[run].status == WfCompleted
          && last in wf.history && wf.history[last] == Event(WorkflowCompleted, now, Raw(cmds[m - 1].result)))
    && (m > 0 && cmds[m - 1].kind == "fail_workflow" ==>
          && wf.runs[run].status == WfFailed
          && last in wf.history && wf.history[last] == Event(WorkflowFailed, now, Raw(cmds[m - 1].result)))
    && (m > 0 && cmds[m - 1].kind == "continue_as_new" ==>
          && wf.runs[run].status == WfContinued
          && last in wf.history && wf.history[last] == Event(WorkflowContinuedAsNew, now, NextInput(cmds[m - 1].input)))
  }

  /** When a translated decision commits, the last of its commands that ends the run decides
      how it ends: completed, failed or continued. Without one the run goes on. */
  lemma DecisionEndsRun(log: seq<Command>, j: nat, cmds: seq<Decision>, tenant: string, now: nat, m: nat)
    requires j < |log| && Committed(log, j) && Translates(cmds, tenant, now, log[j].events)
    requires m <= |cmds| && (m > 0 ==> Ends(cmds[m - 1].kind)) && forall i :: m <= i < |cmds| ==> !Ends(cmds[i].kind)
    ensures EndsAs(DbAt(log, j + 1).wf, log[j].run, log[j].atSeq, cmds, m, log[j].now)
  {
    hide *;
    IsDecision(log, j);
    var c, wf := log[j], DbAt(log, j + 1).wf;
    CommitFollows(log, j);
    TranslatedFrame(cmds, tenant, now, c.events);
    var k := if m == 0 then 0 else m + 1;
    forall i | k <= i < |c.events| ensures !C.Closes(c.events[i].kind) {
      LateCommand(cmds, tenant, now, c.events, i);
    }
    if m > 0 { EndsIffCloses(cmds, tenant, now, c.events, m - 1); }
    CommittedStatus(log, j, k);
    EndsAsTold(wf, c.run, c.atSeq, cmds, tenant, now, c.events, c.now, m);
  }

  lemma IsDecision(log: seq<Command>, j: nat)
    requires j < |log| && Committed(log, j)
    ensures log[j].AppendEvents?
  {
    hide Step;
  }

  lemma EndsAsTold(wf: Engine, run: nat, top: nat, cmds: seq<Decision>, tenant: string, at: nat, events: seq<EventIn>,
          now: nat, m: nat)
    requires Follows(wf, run, top, events, now) && Translates(cmds, tenant, at, events) && m <= |cmds|
    requires m == 0 ==> wf.runs[run].status == WfRunning
    requires m > 0 ==> C.Agrees(wf.runs[run].status, events[m].kind)
    ensures EndsAs(wf, run, top, cmds, m, now)
  {
    TranslatedFrame(cmds, tenant, at, events);
    if m > 0 {
      TranslatedByName(cmds, tenant, at, events, m - 1);
      hide Translates;
      AgreesIs(wf.runs[run].status, events[m].kind);
      WroteAt(wf, run, top, events, now, m);
    }
    hide C.Agrees;
    hide Translates;
  }

  lemma LateCommand(cmds: seq<Decision>, tenant: string, now: nat, events: seq<EventIn>, i: nat)
    requires Translates(cmds, tenant, now, events) && i < |events|
    requires i > 0 ==> !Ends(cmds[i - 1].kind)
    ensures !C.Closes(events[i].kind)
  {
    TranslatedFrame(cmds, tenant, now, events);
    if i > 0 { EndsIffCloses(cmds, tenant, now, events, i - 1); }
    hide *;
  }

  lemma AgreesIs(s: Status, kind: EventKind)
    requires C.Agrees(s, kind)
    ensures kind == WorkflowCompleted ==> s == WfCompleted
    ensures kind == WorkflowFailed ==> s == WfFailed
    ensures kind == WorkflowContinuedAsNew ==> s == WfContinued
  {
  }

  lemma WroteAt(wf: Engine, run: nat, top: nat, events: seq<EventIn>, now: nat, m: nat)
    requires Follows(wf, run, top, events, now) && m < |events|
    ensures var k := EventKey(run, top + m + 1);
            k in wf.history && wf.history[k] == Event(events[m].kind, now, events[m].attrs)
  {
    var k := EventKey(run, top + m + 1);
    assert k.run == run && k.id == top + m + 1;
  }

  lemma TranslatedFrame(cmds: seq<Decision>, tenant: string, now: nat, events: seq<EventIn>)
    requires Translates(cmds, tenant, now, events)
    ensures |events| == |cmds| + 1 && !C.Closes(events[0].kind)
  {
  }

  /** The status a committed decision leaves, by its last closing event. */
  lemma CommittedStatus(log: seq<Command>, j: nat, m: nat)
    requires j < |log| && Committed(log, j) && m <= |log[j].events|
    requires m > 0 ==> C.Closes(log[j].events[m - 1].kind)
    requires forall i :: m <= i < |log[j].events| ==> !C.Closes(log[j].events[i].kind)
    ensures var c, wf := log[j], DbAt(log, j + 1).wf;
            && c.run in wf.runs
            && (m == 0 ==> wf.runs[c.run].status == WfRunning)
            && (m > 0 ==> C.Agrees(wf.runs[c.run].status, c.events[m - 1].kind))
  {
    hide Step;
    var c, db := log[j], DbAt(log, j);
    CommittedIsFenced(log, j);
    DbAtNext(log, j);
    StepEffect(db, c);
    C.DecidedRecord(db.wf, c.run, c.events, c.now, c.epoch);
    var k := C.StatusOfLast(c.events, |c.events|);
    hide C.Closes;
    hide C.Agrees;
    hide Decided;
    hide StatusUpTo;
    assert k == m;
  }
}
