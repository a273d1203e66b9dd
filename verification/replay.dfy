/** Replaying the raft log: after a restart, or a restored snapshot, any overlapping suffix of
    the log leads to the state of having applied the log once. */
module Replay {
  import opened Bytes
  import opened Store
  import opened Commands
  import opened Handlers
  import S = Safety

  /** A raft entry: its data is a decoded command, or bytes that do not decode. */
  datatype Entry = Entry(index: nat, isCommand: bool, data: Option<Command>)

  /** The committed store, its applied-index row, and the index held in memory. */
  datatype Node = Node(db: Db, row: Option<nat>, applied: nat)

  /** A deterministic error a handler may return; nothing is committed then. */
  type Fails = (Db, Command) -> bool

  const NEVER: Fails := (d, c) => false

  const FRESH: Node := Node(EMPTY_DB, None, 0)

  /** The entry commits: it is a command, new to the node, decodable, and does not fail. */
  predicate Commits(fails: Fails, n: Node, e: Entry) {
    e.isCommand && e.index > n.applied && e.data.Some? && !fails(n.db, e.data.value)
  }

  ghost function Apply(fails: Fails, n: Node, e: Entry): Node {
    if Commits(fails, n, e) then Node(Step(n.db, e.data.value).b, Some(e.index), e.index) else n
  }

  ghost function ApplyAll(fails: Fails, n: Node, log: seq<Entry>): Node
    decreases |log|
  {
    if log == [] then n else Apply(fails, ApplyAll(fails, n, log[..|log| - 1]), log[|log| - 1])
  }

  /** Raft hands entries over in index order, from index one; every command is known. */
  ghost predicate IsLog(log: seq<Entry>) {
    && (forall i :: 0 <= i < |log| ==> log[i].index >= 1 && (log[i].data.Some? ==> !log[i].data.value.Unknown?))
    && (forall i, j :: 0 <= i < j < |log| ==> log[i].index < log[j].index)
  }

  /** A process restart: memory is rebuilt from the store. */
  function Restarted(n: Node): Node {
    n.(applied := if n.row.Some? then n.row.value else 0)
  }

  /** Installing a snapshot of `src` on `dst`: the store becomes src's, and memory follows the
      applied-index row, or stays as it was if the snapshot has no such row. */
  function Restored(src: Node, dst: Node): Node {
    Node(src.db, src.row, if src.row.Some? then src.row.value else dst.applied)
  }

  lemma {:induction false} ApplyAllJoin(fails: Fails, n: Node, a: seq<Entry>, b: seq<Entry>)
    ensures ApplyAll(fails, n, a + b) == ApplyAll(fails, ApplyAll(fails, n, a), b)
    decreases |b|
  {
    hide Apply;
    if b == [] {
      assert a + b == a;
    } else {
      ApplyAllJoin(fails, n, a, b[..|b| - 1]);
      assert (a + b)[..|a + b| - 1] == a + b[..|b| - 1];
    }
  }

  /** Memory and the stored row agree, and lie at or before the last entry. */
  lemma {:induction false} RowIsApplied(fails: Fails, log: seq<Entry>)
    requires IsLog(log)
    ensures var n := ApplyAll(fails, FRESH, log);
            Restarted(n) == n && (n.applied > 0 ==> log != [] && n.applied <= log[|log| - 1].index)
    decreases |log|
  {
    hide Step;
    if log != [] { RowIsApplied(fails, log[..|log| - 1]); }
  }

  /** The commands of a log that decode and do not fail when their turn comes. */
  ghost function Taken(fails: Fails, log: seq<Entry>): seq<Command>
    decreases |log|
  {
    if log == [] then []
    else
      var init, e := log[..|log| - 1], log[|log| - 1];
      if e.isCommand && e.data.Some? && !fails(S.After(EMPTY_DB, Taken(fails, init)), e.data.value)
      then Taken(fails, init) + [e.data.value] else Taken(fails, init)
  }

  /** A node that is handed a log holds the store those commands lead to, each applied once
      and in order. */
  lemma {:induction false} NodeIsItsCommands(fails: Fails, log: seq<Entry>)
    requires IsLog(log)
    ensures ApplyAll(fails, FRESH, log).db == S.After(EMPTY_DB, Taken(fails, log))
    decreases |log|
  {
    hide Step;
    if log != [] {
      var init, e := log[..|log| - 1], log[|log| - 1];
      NodeIsItsCommands(fails, init);
      RowIsApplied(fails, init);
      if e.data.Some? { assert (Taken(fails, init) + [e.data.value])[..|Taken(fails, init)|] == Taken(fails, init); }
    }
  }

  /** Every entry already handed over would now change nothing: it committed, or it is older
      than one that did, or it failed against the very store that is still there. */
  lemma {:induction false} HandedOverIsInert(fails: Fails, log: seq<Entry>, i: nat)
    requires IsLog(log) && i < |log|
    ensures Apply(fails, ApplyAll(fails, FRESH, log), log[i]) == ApplyAll(fails, FRESH, log)
    decreases |log|
  {
    hide Step;
    var init, e := log[..|log| - 1], log[|log| - 1];
    if i < |log| - 1 { HandedOverIsInert(fails, init, i); }
  }

  lemma {:induction false} InertReplay(fails: Fails, n: Node, log: seq<Entry>)
    requires forall i :: 0 <= i < |log| ==> Apply(fails, n, log[i]) == n
    ensures ApplyAll(fails, n, log) == n
    decreases |log|
  {
    hide Apply;
    if log != [] { InertReplay(fails, n, log[..|log| - 1]); }
  }

  /** Stop anywhere, restart, and replay the log from any point at or before the stop. */
  lemma RestartAndReplay(fails: Fails, log: seq<Entry>, stop: nat, from: nat)
    requires IsLog(log) && from <= stop <= |log|
    ensures ApplyAll(fails, Restarted(ApplyAll(fails, FRESH, log[..stop])), log[from..]) == ApplyAll(fails, FRESH, log)
  {
    PrefixIsLog(log, stop);
    RowIsApplied(fails, log[..stop]);
    hide ApplyAll;
    hide IsLog;
    ReplayOver(fails, log, stop, from);
  }

  lemma OverlapIsInert(fails: Fails, log: seq<Entry>, from: nat)
    requires IsLog(log) && from <= |log|
    ensures ApplyAll(fails, ApplyAll(fails, FRESH, log), log[from..]) == ApplyAll(fails, FRESH, log)
  {
    hide Apply;
    hide ApplyAll;
    var n, tail := ApplyAll(fails, FRESH, log), log[from..];
    forall i | 0 <= i < |tail| ensures Apply(fails, n, tail[i]) == n {
      HandedOverIsInert(fails, log, from + i);
    }
    InertReplay(fails, n, tail);
  }

  lemma PrefixIsLog(log: seq<Entry>, n: nat)
    requires IsLog(log) && n <= |log|
    ensures IsLog(log[..n])
  {
  }

  lemma ReplayOver(fails: Fails, log: seq<Entry>, stop: nat, from: nat)
    requires IsLog(log) && from <= stop <= |log|
    ensures ApplyAll(fails, ApplyAll(fails, FRESH, log[..stop]), log[from..]) == ApplyAll(fails, FRESH, log)
  {
    PrefixIsLog(log, stop);
    hide *;
    var n := ApplyAll(fails, FRESH, log[..stop]);
    OverlapIsInert(fails, log[..stop], from);
    SplitLog(log, stop, from);
    ApplyAllJoin(fails, n, log[..stop][from..], log[stop..]);
    ApplyAllJoin(fails, FRESH, log[..stop], log[stop..]);
  }

  lemma SplitLog(log: seq<Entry>, stop: nat, from: nat)
    requires from <= stop <= |log|
    ensures log[..stop][from..] + log[stop..] == log[from..] && log[..stop] + log[stop..] == log
  {
  }

  /** Install a snapshot taken at `stop` on any node, and replay from any point at or before
      it. A snapshot with no applied-index row (nothing had committed) needs a receiver that
      has not applied past the start of the log. */
  lemma SnapshotAndReplay(fails: Fails, log: seq<Entry>, stop: nat, from: nat, dst: Node)
    requires IsLog(log) && from <= stop <= |log|
    requires ApplyAll(fails, FRESH, log[..stop]).row.Some? || dst.applied == 0
    ensures ApplyAll(fails, Restored(ApplyAll(fails, FRESH, log[..stop]), dst), log[from..]) ==
              ApplyAll(fails, FRESH, log)
  {
    PrefixIsLog(log, stop);
    RowIsApplied(fails, log[..stop]);
    hide ApplyAll;
    hide IsLog;
    ReplayOver(fails, log, stop, from);
  }

  // ----- The rowless snapshot -----

  ghost predicate SameStore(a: Node, b: Node) {
    a.db == b.db && a.row == b.row
  }

  function Probe(index: nat): seq<Entry> {
    [Entry(index, true, Some(Ack(0)))]
  }

  lemma ProbeApplied(fails: Fails, n: Node, index: nat)
    ensures ApplyAll(fails, n, Probe(index)) == Apply(fails, n, Probe(index)[0])
  {
    hide Apply;
    assert Probe(index)[..0] == [];
    assert ApplyAll(fails, n, []) == n;
  }

  /** A rowless snapshot is safe for every log exactly when the receiver has applied nothing:
      otherwise it skips the first entries of the log it replays. */
  lemma RowlessSnapshotIff(dst: Node)
    ensures (forall log :: IsLog(log) ==>
               SameStore(ApplyAll(NEVER, Restored(FRESH, dst), log), ApplyAll(NEVER, FRESH, log)))
       <==> dst.applied == 0
  {
    hide Step;
    if dst.applied > 0 {
      var log := Probe(dst.applied);
      ProbeApplied(NEVER, FRESH, dst.applied);
      ProbeApplied(NEVER, Restored(FRESH, dst), dst.applied);
      assert IsLog(log);
      assert !SameStore(ApplyAll(NEVER, Restored(FRESH, dst), log), ApplyAll(NEVER, FRESH, log));
    }
  }
}
