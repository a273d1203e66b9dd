/** Exactly which histories the determinism checksum's bytes determine. */
module Checksum {
  import opened Bytes
  import opened Store
  import opened Commands
  import opened Durable
  import opened History
  import opened Gate
  import H = Handlers
  import S = Safety

  /** A gap-free history: ids from one, in the widths the hash writes them. */
  predicate GapFree(a: seq<Wire>) {
    InRange(a) && forall i :: 0 <= i < |a| ==> a[i].id == i + 1
  }

  /** No other gap-free history feeds the hash the same bytes. */
  ghost predicate Determined(a: seq<Wire>) {
    forall b :: GapFree(b) && WireBytes(b) == WireBytes(a) ==> b == a
  }

  /** Where the bytes hold the header of an event with this id: its id and four more. */
  predicate HeaderAt(s: Blob, id: nat, t: nat) {
    t + 12 <= |s| && s[t..t + 8] == Fixed(8, id)
  }

  lemma WireMoreBytes(a: seq<Wire>)
    requires a != []
    ensures var n, e := |a| - 1, a[|a| - 1];
            WireBytes(a) == WireBytes(a[..n]) + Fixed(8, e.id) + Fixed(4, e.code) + e.attrs
  {
  }

  // ----- Folding and unfolding -----

  /** The event that hashes like two. */
  function Folded(x: Wire, y: Wire): Wire {
    Wire(x.id, x.code, x.attrs + Fixed(8, y.id) + Fixed(4, y.code) + y.attrs)
  }

  lemma FoldSameBytes(a: seq<Wire>, x: Wire, y: Wire)
    ensures WireBytes(a + [x] + [y]) == WireBytes(a + [Folded(x, y)])
  {
    hide WireBytes;
    hide Fixed;
    WireMore(a + [x], y);
    WireMore(a, x);
    WireMore(a, Folded(x, y));
    Reassoc(WireBytes(a), Fixed(8, x.id), Fixed(4, x.code), x.attrs, Fixed(8, y.id), Fixed(4, y.code), y.attrs);
  }

  lemma Reassoc(p: Blob, a: Blob, b: Blob, c: Blob, d: Blob, e: Blob, f: Blob)
    ensures p + a + b + c + d + e + f == p + a + b + (c + d + e + f)
  {
  }

  /** Two or more events always share their bytes with a shorter history. */
  lemma LongIsNotDetermined(a: seq<Wire>)
    requires GapFree(a) && |a| >= 2
    ensures !Determined(a)
  {
    var n := |a|;
    var init, x, y := a[..n - 2], a[n - 2], a[n - 1];
    var b := init + [Folded(x, y)];
    assert a == init + [x] + [y];
    FoldSameBytes(init, x, y);
    hide WireBytes;
    hide Folded;
    assert GapFree(b) by { FoldGapFree(a); }
    assert |b| != |a|;
  }

  lemma FoldGapFree(a: seq<Wire>)
    requires GapFree(a) && |a| >= 2
    ensures GapFree(a[..|a| - 2] + [Folded(a[|a| - 2], a[|a| - 1])])
  {
  }

  lemma CodeRange(z: Blob)
    requires |z| == 4
    ensures FromBE(z) < U32 && Fixed(4, FromBE(z)) == z
  {
    FromBERoundTrip(z);
    Widths();
    hide Pow256;
    SmallMod(FromBE(z), Pow256(4));
  }

  /** The two events a header inside attribute bytes splits them into. */
  function Split(s: Blob, id: nat, code: nat, next: nat, t: nat): (Wire, Wire)
    requires HeaderAt(s, next, t)
  {
    (Wire(id, code, s[..t]), Wire(next, FromBE(s[t + 8..t + 12]), s[t + 12..]))
  }

  lemma SplitFolds(s: Blob, id: nat, code: nat, next: nat, t: nat)
    requires HeaderAt(s, next, t)
    ensures var (x, y) := Split(s, id, code, next, t);
            Folded(x, y) == Wire(id, code, s) && y.code < U32
  {
    hide Fixed;
    CodeRange(s[t + 8..t + 12]);
    assert s == s[..t] + s[t..t + 8] + s[t + 8..t + 12] + s[t + 12..];
  }

  // ----- Where each event starts -----

  /** The offset of the k-th event in the hashed bytes. */
  function Start(a: seq<Wire>, k: nat): nat
    requires k <= |a|
  {
    |WireBytes(a[..k])|
  }

  lemma {:induction false} PrefixBytes(a: seq<Wire>, k: nat)
    requires k <= |a|
    ensures Start(a, k) <= |WireBytes(a)| && WireBytes(a)[..Start(a, k)] == WireBytes(a[..k])
    decreases |a|
  {
    hide WireBytes;
    hide Fixed;
    if k == |a| {
      assert a[..k] == a;
    } else {
      var n := |a| - 1;
      PrefixBytes(a[..n], k);
      assert a[..n][..k] == a[..k];
      WireMoreBytes(a);
    }
  }

  lemma StartNext(a: seq<Wire>, k: nat)
    requires k < |a|
    ensures var e := a[k];
            WireBytes(a[..k + 1]) == WireBytes(a[..k]) + Fixed(8, e.id) + Fixed(4, e.code) + e.attrs
  {
    WireMoreBytes(a[..k + 1]);
    assert a[..k + 1][..k] == a[..k];
  }

  /** Each event's bytes: its id, its code, its attributes, and then the next event. */
  lemma EventBytes(a: seq<Wire>, k: nat)
    requires k < |a|
    ensures Start(a, k + 1) == Start(a, k) + 12 + |a[k].attrs| <= |WireBytes(a)|
    ensures var s, p := WireBytes(a), Start(a, k);
            && s[p..p + 8] == Fixed(8, a[k].id) && s[p + 8..p + 12] == Fixed(4, a[k].code)
            && s[p + 12..p + 12 + |a[k].attrs|] == a[k].attrs
  {
    hide WireBytes;
    hide Fixed;
    PrefixBytes(a, k + 1);
    StartNext(a, k);
    Slices(WireBytes(a), WireBytes(a[..k]), Fixed(8, a[k].id), Fixed(4, a[k].code), a[k].attrs);
  }

  lemma SubSlice(w: Blob, s: Blob, o: nat, t: nat, n: nat)
    requires o + |s| <= |w| && w[o..o + |s|] == s && t + n <= |s|
    ensures s[t..t + n] == w[o + t..o + t + n]
  {
    var x, y := s[t..t + n], w[o + t..o + t + n];
    forall i | 0 <= i < n ensures x[i] == y[i] {
      assert s[t + i] == w[o..o + |s|][t + i];
    }
  }

  lemma Slices(s: Blob, p: Blob, x: Blob, y: Blob, z: Blob)
    requires |p + x + y + z| <= |s| && s[..|p + x + y + z|] == p + x + y + z
    ensures s[|p|..|p| + |x|] == x && s[|p| + |x|..|p| + |x| + |y|] == y
    ensures s[|p| + |x| + |y|..|p| + |x| + |y| + |z|] == z
  {
    var u := p + x + y + z;
    assert u[|p|..|p| + |x|] == x && u[|p| + |x|..|p| + |x| + |y|] == y && u[|p| + |x| + |y|..] == z;
    assert forall i :: 0 <= i < |u| ==> s[i] == u[i];
  }

  lemma StartEnds(a: seq<Wire>)
    ensures Start(a, 0) == 0 && Start(a, |a|) == |WireBytes(a)|
  {
    assert a[..0] == [] && a[..|a|] == a;
    NoBytes();
  }

  /** A one-event history is determined unless its attributes hold a second event's header. */
  lemma OneEventIff(a: seq<Wire>)
    requires GapFree(a) && |a| == 1
    ensures Determined(a) <==> forall t :: !HeaderAt(a[0].attrs, 2, t)
  {
    if t: nat :| HeaderAt(a[0].attrs, 2, t) {
      OtherHistory(a, t);
    }
    if b :| GapFree(b) && WireBytes(b) == WireBytes(a) && b != a {
      OtherParse(a, b);
    }
    hide WireBytes;
    hide HeaderAt;
  }

  lemma OtherHistory(a: seq<Wire>, t: nat)
    requires GapFree(a) && |a| == 1 && HeaderAt(a[0].attrs, 2, t)
    ensures !Determined(a)
  {
    hide WireBytes;
    var (x, y) := Split(a[0].attrs, 1, a[0].code, 2, t);
    SplitFolds(a[0].attrs, 1, a[0].code, 2, t);
    FoldSameBytes([], x, y);
    assert [] + [x] + [y] == [x, y] && [] + [Folded(x, y)] == a;
    assert GapFree([x, y]);
    assert [x, y] != a;
  }

  lemma OtherParse(a: seq<Wire>, b: seq<Wire>)
    requires GapFree(a) && |a| == 1 && GapFree(b) && WireBytes(b) == WireBytes(a) && b != a
    ensures |b| >= 2 && HeaderAt(a[0].attrs, 2, |b[0].attrs|)
  {
    StartEnds(a);
    StartEnds(b);
    EventBytes(a, 0);
    if b != [] { EventBytes(b, 0); }
    if |b| == 1 { SameBytesSameHistory(a, b); }
    if |b| >= 2 { HeaderInside(a, b); }
    hide WireBytes;
    hide Fixed;
    hide HeaderAt;
  }

  lemma HeaderInside(a: seq<Wire>, b: seq<Wire>)
    requires GapFree(b) && |a| == 1 && |b| >= 2 && WireBytes(b) == WireBytes(a)
    ensures HeaderAt(a[0].attrs, 2, |b[0].attrs|)
  {
    hide WireBytes;
    hide Fixed;
    StartEnds(a);
    StartEnds(b);
    EventBytes(a, 0);
    EventBytes(b, 0);
    EventBytes(b, 1);
    hide Start;
    SubSlice(WireBytes(a), a[0].attrs, 12, |b[0].attrs|, 8);
  }

  /** Exactly which gap-free histories the hashed bytes determine: the empty one, and a single
      event whose attributes nowhere hold the id two followed by at least four bytes. */
  lemma DeterminedIff(a: seq<Wire>)
    requires GapFree(a)
    ensures Determined(a) <==> a == [] || (|a| == 1 && forall t :: !HeaderAt(a[0].attrs, 2, t))
  {
    if a == [] {
      forall b | GapFree(b) && WireBytes(b) == WireBytes(a) ensures b == a {
        NoBytes();
        if b != [] { WireMoreBytes(b); }
      }
    } else if |a| == 1 {
      OneEventIff(a);
    } else {
      LongIsNotDetermined(a);
    }
  }

  // ----- At one length -----

  /** No other gap-free history of the same length feeds the hash the same bytes. */
  ghost predicate DeterminedAtLength(a: seq<Wire>) {
    forall b :: GapFree(b) && |b| == |a| && WireBytes(b) == WireBytes(a) ==> b == a
  }

  /** The bytes of two neighbours' attributes with the second's header between them. */
  function Joint(x: Wire, y: Wire): Blob {
    x.attrs + Fixed(8, y.id) + Fixed(4, y.code) + y.attrs
  }

  /** The second neighbour's header also stands somewhere else in those bytes. */
  predicate AnotherCut(x: Wire, y: Wire, t: nat) {
    t != |x.attrs| && HeaderAt(Joint(x, y), y.id, t)
  }

  ghost predicate Ambiguous(x: Wire, y: Wire) {
    exists t: nat :: AnotherCut(x, y, t)
  }

  /** Moving the cut between two neighbours gives another history with the same bytes. */
  lemma RecutSameBytes(p: seq<Wire>, x: Wire, y: Wire, q: seq<Wire>, t: nat) returns (b: seq<Wire>)
    requires GapFree(p + [x] + [y] + q) && AnotherCut(x, y, t)
    ensures GapFree(b) && |b| == |p + [x] + [y] + q| && b != p + [x] + [y] + q
    ensures WireBytes(b) == WireBytes(p + [x] + [y] + q)
  {
    var (x', y') := Split(Joint(x, y), x.id, x.code, y.id, t);
    SplitFolds(Joint(x, y), x.id, x.code, y.id, t);
    b := p + [x'] + [y'] + q;
    FoldSameBytes(p, x, y);
    FoldSameBytes(p, x', y');
    assert Folded(x, y) == Folded(x', y');
    SameTail(p + [x] + [y], p + [x'] + [y'], q);
    RecutGapFree(p, x, y, q, x', y');
    hide WireBytes;
    hide Fixed;
    assert (p + [x] + [y] + q)[|p|] == x && b[|p|] == x' && |x'.attrs| == t;
  }

  lemma RecutGapFree(p: seq<Wire>, x: Wire, y: Wire, q: seq<Wire>, x': Wire, y': Wire)
    requires GapFree(p + [x] + [y] + q) && x'.id == x.id && x'.code == x.code && y'.id == y.id && y'.code < U32
    ensures GapFree(p + [x'] + [y'] + q)
  {
    var a, b := p + [x] + [y] + q, p + [x'] + [y'] + q;
    assert a[|p|] == x && a[|p| + 1] == y;
    forall i | 0 <= i < |b| ensures b[i].id == i + 1 && b[i].id < U64 && b[i].code < U32 {
      assert a[i].id == i + 1 && a[i].id < U64 && a[i].code < U32;
    }
  }

  lemma {:induction false} SameTail(a: seq<Wire>, b: seq<Wire>, q: seq<Wire>)
    requires WireBytes(a) == WireBytes(b)
    ensures WireBytes(a + q) == WireBytes(b + q)
    decreases |q|
  {
    hide WireBytes;
    hide Fixed;
    if q == [] {
      assert a + q == a && b + q == b;
    } else {
      var n := |q| - 1;
      SameTail(a, b, q[..n]);
      WireMore(a + q[..n], q[n]);
      WireMore(b + q[..n], q[n]);
      assert a + q[..n] + [q[n]] == a + q && b + q[..n] + [q[n]] == b + q;
    }
  }

  lemma AmbiguousIsNotDetermined(a: seq<Wire>, k: nat)
    requires GapFree(a) && 1 <= k < |a| && Ambiguous(a[k - 1], a[k])
    ensures !DeterminedAtLength(a)
  {
    var t: nat :| AnotherCut(a[k - 1], a[k], t);
    var p, q := a[..k - 1], a[k + 1..];
    assert a == p + [a[k - 1]] + [a[k]] + q;
    var b := RecutSameBytes(p, a[k - 1], a[k], q, t);
    hide WireBytes;
    hide AnotherCut;
  }

  /** Where two histories with the same bytes disagree on a start, between starts they need
      not disagree on, the bytes around it hold the header twice. */
  lemma OtherStart(a: seq<Wire>, b: seq<Wire>, k: nat)
    requires GapFree(a) && GapFree(b) && |a| == |b| && WireBytes(a) == WireBytes(b) && 1 <= k < |a|
    requires Start(b, k) != Start(a, k) && Start(a, k - 1) + 12 <= Start(b, k) && Start(b, k) + 12 <= Start(a, k + 1)
    ensures AnotherCut(a[k - 1], a[k], Start(b, k) - Start(a, k - 1) - 12)
  {
    hide WireBytes;
    hide Fixed;
    hide Start;
    hide Joint;
    EventBytes(a, k - 1);
    EventBytes(b, k);
    JointBytes(a, k);
    assert a[k].id == b[k].id == k + 1;
    hide GapFree;
    HeaderSeen(WireBytes(a), Joint(a[k - 1], a[k]), Start(a, k - 1) + 12, Start(b, k), k + 1);
  }

  lemma HeaderSeen(w: Blob, s: Blob, o: nat, p: nat, id: nat)
    requires o <= p && p + 12 <= o + |s| <= |w| && w[o..o + |s|] == s && w[p..p + 8] == Fixed(8, id)
    ensures HeaderAt(s, id, p - o)
  {
    hide Fixed;
    SubSlice(w, s, o, p - o, 8);
  }

  lemma JointBytes(a: seq<Wire>, k: nat)
    requires 1 <= k < |a|
    ensures var s, p := Joint(a[k - 1], a[k]), Start(a, k - 1) + 12;
            p + |s| == Start(a, k + 1) <= |WireBytes(a)| && WireBytes(a)[p..p + |s|] == s
  {
    hide WireBytes;
    hide Fixed;
    hide Start;
    EventBytes(a, k - 1);
    EventBytes(a, k);
    var w, x, y, p := WireBytes(a), a[k - 1], a[k], Start(a, k - 1) + 12;
    var o := Start(a, k);
    assert w[p..o] == x.attrs && w[o..o + 8] == Fixed(8, y.id) && w[o + 8..o + 12] == Fixed(4, y.code);
    assert w[o + 12..Start(a, k + 1)] == y.attrs;
    assert w[p..Start(a, k + 1)] == w[p..o] + w[o..o + 8] + w[o + 8..o + 12] + w[o + 12..Start(a, k + 1)];
  }

  lemma {:induction false} SameStartsSameLengths(a: seq<Wire>, b: seq<Wire>)
    requires |a| == |b| && forall k :: 0 <= k <= |a| ==> Start(a, k) == Start(b, k)
    ensures SameLengths(a, b)
  {
    hide WireBytes;
    forall i | 0 <= i < |a| ensures |a[i].attrs| == |b[i].attrs| {
      EventBytes(a, i);
      EventBytes(b, i);
      hide Start;
      assert Start(a, i) == Start(b, i) && Start(a, i + 1) == Start(b, i + 1);
    }
  }

  /** If some event starts earlier in b, the first that does has its header early. */
  lemma {:induction false} EarlierStart(a: seq<Wire>, b: seq<Wire>, k: nat) returns (j: nat)
    requires |a| == |b| && k <= |a| && Start(b, k) < Start(a, k) && Start(a, 0) == Start(b, 0)
    ensures 1 <= j <= k && Start(b, j) < Start(a, j) && Start(a, j - 1) <= Start(b, j - 1)
  {
    hide Start;
    if Start(b, k - 1) >= Start(a, k - 1) {
      j := k;
    } else {
      j := EarlierStart(a, b, k - 1);
    }
  }

  /** If some event starts later in b, the last that does has its header late. */
  lemma {:induction false} LaterStart(a: seq<Wire>, b: seq<Wire>, k: nat) returns (j: nat)
    requires |a| == |b| && k <= |a| && Start(b, k) > Start(a, k) && Start(a, |a|) == Start(b, |a|)
    ensures k <= j < |a| && Start(b, j) > Start(a, j) && Start(b, j + 1) <= Start(a, j + 1)
    decreases |a| - k
  {
    hide Start;
    if Start(b, k + 1) <= Start(a, k + 1) {
      j := k;
    } else {
      j := LaterStart(a, b, k + 1);
    }
  }

  lemma StartGap(a: seq<Wire>, k: nat)
    requires k < |a|
    ensures Start(a, k) + 12 <= Start(a, k + 1)
  {
    EventBytes(a, k);
    hide WireBytes;
    hide Start;
  }

  lemma OtherCut(a: seq<Wire>, b: seq<Wire>, k: nat)
    requires GapFree(a) && GapFree(b) && |a| == |b| && WireBytes(a) == WireBytes(b) && 1 <= k < |a|
    requires Start(b, k) != Start(a, k) && Start(a, k - 1) + 12 <= Start(b, k) && Start(b, k) + 12 <= Start(a, k + 1)
    ensures Ambiguous(a[k - 1], a[k])
  {
    OtherStart(a, b, k);
    hide AnotherCut;
    hide WireBytes;
    hide Start;
  }

  lemma AmbiguousAtEarlier(a: seq<Wire>, b: seq<Wire>, k: nat)
    requires GapFree(a) && GapFree(b) && |a| == |b| && WireBytes(a) == WireBytes(b)
    requires k <= |a| && Start(b, k) < Start(a, k)
    ensures exists j :: 1 <= j < |a| && Ambiguous(a[j - 1], a[j])
  {
    hide *;
    StartEnds(a);
    StartEnds(b);
    var j := EarlierStart(a, b, k);
    StartGap(b, j - 1);
    StartGap(a, j);
    OtherCut(a, b, j);
  }

  lemma AmbiguousAtLater(a: seq<Wire>, b: seq<Wire>, k: nat)
    requires GapFree(a) && GapFree(b) && |a| == |b| && WireBytes(a) == WireBytes(b)
    requires k <= |a| && Start(a, k) < Start(b, k)
    ensures exists j :: 1 <= j < |a| && Ambiguous(a[j - 1], a[j])
  {
    hide *;
    StartEnds(a);
    StartEnds(b);
    var j := LaterStart(a, b, k);
    StartGap(a, j - 1);
    StartGap(b, j);
    OtherCut(a, b, j);
  }

  lemma OtherIsAmbiguous(a: seq<Wire>, b: seq<Wire>)
    requires GapFree(a) && GapFree(b) && |a| == |b| && WireBytes(a) == WireBytes(b) && a != b
    ensures exists k :: 1 <= k < |a| && Ambiguous(a[k - 1], a[k])
  {
    hide WireBytes;
    hide Ambiguous;
    if k :| 0 <= k <= |a| && Start(a, k) != Start(b, k) {
      hide Start;
      if Start(b, k) < Start(a, k) {
        AmbiguousAtEarlier(a, b, k);
      } else {
        AmbiguousAtLater(a, b, k);
      }
    } else {
      SameStartsSameLengths(a, b);
      SameBytesSameHistory(a, b);
    }
  }

  /** Exactly which histories the hashed bytes determine among those of their length: the ones
      in which no two neighbours' attributes, read on through the header between them, hold
      that header a second time. */
  lemma DeterminedAtLengthIff(a: seq<Wire>)
    requires GapFree(a)
    ensures DeterminedAtLength(a) <==> forall k :: 1 <= k < |a| ==> !Ambiguous(a[k - 1], a[k])
  {
    hide WireBytes;
    hide Ambiguous;
    if k :| 1 <= k < |a| && Ambiguous(a[k - 1], a[k]) {
      AmbiguousIsNotDetermined(a, k);
    }
    if b :| GapFree(b) && |b| == |a| && WireBytes(b) == WireBytes(a) && b != a {
      OtherIsAmbiguous(a, b);
    }
  }

  // ----- What the gate can tell -----

  lemma HistoryIsGapFree(wf: Engine, enc: Encoder, run: nat)
    requires Shape(wf) && run in wf.runs && wf.runs[run].curSeq < U64
    ensures GapFree(Upto(wf, enc, run, wf.runs[run].curSeq))
    ensures |Upto(wf, enc, run, wf.runs[run].curSeq)| == wf.runs[run].curSeq
  {
    var n := wf.runs[run].curSeq;
    var a := Upto(wf, enc, run, n);
    UptoIsWhole(wf, enc, run, n);
    forall i | 0 <= i < |a| ensures a[i].id == i + 1 && a[i].code < U32 {
      assert a[i + 1 - 1] == WireOf(wf, enc, EventKey(run, i + 1));
    }
    hide Shape;
  }

  ghost predicate Injective(hash: Digest) {
    forall x, y :: hash(x) == hash(y) ==> x == y
  }

  /** With a collision-free hash, the gate accepts no replay of the current length but the
      committed history if and only if no two neighbours of that history are ambiguous. */
  lemma GateIsExactIff(wf: Engine, enc: Encoder, hash: Digest, run: nat)
    requires Shape(wf) && run in wf.runs && wf.runs[run].curSeq < U64 && Injective(hash)
    ensures var a := Upto(wf, enc, run, wf.runs[run].curSeq);
            (forall b :: GapFree(b) && |b| == |a| && hash(WireBytes(b)) == hash(WireBytes(a)) ==> b == a)
            <==> forall k :: 1 <= k < |a| ==> !Ambiguous(a[k - 1], a[k])
  {
    var a := Upto(wf, enc, run, wf.runs[run].curSeq);
    HistoryIsGapFree(wf, enc, run);
    DeterminedAtLengthIff(a);
    hide Upto;
    hide WireBytes;
    hide Ambiguous;
    hide GapFree;
    assert forall b :: hash(WireBytes(b)) == hash(WireBytes(a)) <==> WireBytes(b) == WireBytes(a);
  }

  // ----- Histories a caller can bring about -----

  /** Raw bytes are hashed as they are. */
  ghost predicate KeepsRaw(enc: Encoder) {
    forall x :: enc(Raw(x)) == x
  }

  lemma StartedHistory(c: Command, enc: Encoder)
    requires c.StartRun? && KeepsRaw(enc)
    ensures var wf := S.After(EMPTY_DB, [c]).wf;
            Upto(wf, enc, 1, 1) == [Wire(1, 1, c.input)] && 1 in wf.runs && wf.runs[1].curSeq == 1 && IsRunning(wf, 1)
  {
    assert [c][..0] == [] && S.After(EMPTY_DB, []) == EMPTY_DB;
    StepEffect(EMPTY_DB, c);
    hide H.Step;
    assert Upto(S.After(EMPTY_DB, [c]).wf, enc, 1, 0) == [];
  }

  /** Starting a run whose input holds the id two and four more bytes gives a history whose
      bytes are also those of a longer one; any other input gives one they determine. */
  lemma StartedIsDeterminedIff(c: Command, enc: Encoder)
    requires c.StartRun? && KeepsRaw(enc)
    ensures Determined(Upto(S.After(EMPTY_DB, [c]).wf, enc, 1, 1)) <==> forall t :: !HeaderAt(c.input, 2, t)
  {
    StartedHistory(c, enc);
    var h := [Wire(1, 1, c.input)];
    DeterminedIff(h);
    hide Upto;
    hide Determined;
    assert h[0].attrs == c.input && |h| == 1 && h != [];
  }

  lemma SignalledHistory(start: Command, signal: Command, enc: Encoder)
    requires start.StartRun? && signal.SignalRun? && signal.run == 1 && KeepsRaw(enc)
    ensures var wf := S.After(EMPTY_DB, [start, signal]).wf;
            && 1 in wf.runs && wf.runs[1].curSeq == 2
            && Upto(wf, enc, 1, 2) == [Wire(1, 1, start.input), Wire(2, 9, enc(Signal(signal.name, signal.payload)))]
  {
    var db, wf := S.After(EMPTY_DB, [start]), S.After(EMPTY_DB, [start, signal]).wf;
    StartedHistory(start, enc);
    assert [start, signal][..1] == [start];
    StepEffect(db, signal);
    hide H.Step;
    UptoIs(wf, enc, start, signal, db.wf);
  }

  lemma UptoIs(wf: Engine, enc: Encoder, start: Command, signal: Command, wf0: Engine)
    requires start.StartRun? && signal.SignalRun? && signal.run == 1
    requires IsRunning(wf0, 1) && wf0.runs[1].curSeq == 1 && Upto(wf0, enc, 1, 1) == [Wire(1, 1, start.input)]
    requires wf == Advance(wf0, 1, SignalReceived, Signal(signal.name, signal.payload), signal.now)
    ensures Upto(wf, enc, 1, 2) == [Wire(1, 1, start.input), Wire(2, 9, enc(Signal(signal.name, signal.payload)))]
  {
    assert Upto(wf0, enc, 1, 0) == [] && Upto(wf, enc, 1, 0) == [];
    assert Upto(wf, enc, 1, 1) == [Wire(1, 1, start.input)];
  }

  /** A log after which the gate cannot tell the committed history from another of the same
      length: a run started with the bytes of the id two, then signalled. */
  lemma AmbiguousHistoryIsReachable(start: Command, signal: Command, enc: Encoder)
    requires start.StartRun? && start.input == Fixed(8, 2) && signal.SignalRun? && signal.run == 1 && KeepsRaw(enc)
    ensures !DeterminedAtLength(Upto(S.After(EMPTY_DB, [start, signal]).wf, enc, 1, 2))
  {
    SignalledHistory(start, signal, enc);
    hide Upto;
    hide Fixed;
    var x, y := Wire(1, 1, Fixed(8, 2)), Wire(2, 9, enc(Signal(signal.name, signal.payload)));
    assert Joint(x, y)[..8] == Fixed(8, 2);
    assert AnotherCut(x, y, 0);
    assert Ambiguous([x, y][0], [x, y][1]);
    AmbiguousIsNotDetermined([x, y], 1);
  }
}
