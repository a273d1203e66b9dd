/** The order-preserving key codec: length-prefixed names, key builders, reference
    parsers and prefix scans over the byte-ordered store. */
module Keys {
  import opened Bytes

  type Name = Blob
  type u64 = v: nat | v < Pow256(8) witness 0

  // ----- Length-prefixed names -----

  /** The number of names a two-byte length can tell apart. */
  const LP_LIMIT: nat := Pow256(2)

  /** u16be(len) ++ bytes; the length is truncated to 16 bits. */
  function LP(s: Name): Blob {
    BE(2, |s| % LP_LIMIT) + s
  }

  method EncodeLP(s: Name) returns (b: array<byte>)
    ensures fresh(b) && b[..] == LP(s)
  {
    b := new byte[2 + |s|](_ => 0);
    var n := BE(2, |s| % LP_LIMIT);
    b[0], b[1] := n[0], n[1];
    for i := 0 to |s|
      invariant b[0] == n[0] && b[1] == n[1]
      invariant forall k :: 0 <= k < i ==> b[2 + k] == s[k]
    {
      b[2 + i] := s[i];
    }
  }

  function TakeLP(b: Blob): Option<(Name, Blob)> {
    if |b| < 2 then None
    else
      var n := FromBE(b[..2]);
      if |b| < 2 + n then None else Some((b[2..2 + n], b[2 + n..]))
  }

  /** A name survives its length prefix exactly when its length fits 16 bits. */
  lemma TakeLPExact(s: Name, rest: Blob)
    ensures TakeLP(LP(s) + rest) == Some((s, rest)) <==> |s| < LP_LIMIT
  {
    var n := |s| % LP_LIMIT;
    var b := LP(s) + rest;
    assert b[..2] == BE(2, n);
    BERoundTrip(2, n);
    assert b[2..] == s + rest;
    if |s| < LP_LIMIT {
      assert b[2..2 + n] == s && b[2 + n..] == rest;
    } else {
      assert |b[2..2 + n]| == n < |s|;
    }
  }

  lemma LPInjective(s: Name, x: Blob, t: Name, y: Blob)
    requires |s| < LP_LIMIT && |t| < LP_LIMIT
    requires LP(s) + x == LP(t) + y
    ensures s == t && x == y
  {
    TakeLPExact(s, x);
    TakeLPExact(t, y);
  }

  lemma U64Injective(v: u64, x: Blob, w: u64, y: Blob)
    requires BE(8, v) + x == BE(8, w) + y
    ensures v == w && x == y
  {
    BERoundTrip(8, v);
    BERoundTrip(8, w);
    assert (BE(8, v) + x)[..8] == BE(8, v) && (BE(8, w) + y)[..8] == BE(8, w);
    assert (BE(8, v) + x)[8..] == x && (BE(8, w) + y)[8..] == y;
  }

  // ----- Keys -----

  /** What a time-index row points at; the constructor stands for the kind byte. */
  datatype Ref =
    | ReadyAt(lane: Name, group: Name, id: u64)
    | LeaseDeadline(lease: u64)
    | CronDue(cron: Name)
    | DedupExpiry(lane: Name, key: Name)
    | LeaseMaxLife(lease: u64)
    | WfFired(run: u64, started: u64)
    | MsgExpiry(lane: Name, group: Name, id: u64)

  function Kind(r: Ref): byte {
    match r
    case ReadyAt(_, _, _) => 1
    case LeaseDeadline(_) => 2
    case CronDue(_) => 3
    case DedupExpiry(_, _) => 4
    case LeaseMaxLife(_) => 5
    case WfFired(_, _) => 6
    case MsgExpiry(_, _, _) => 7
  }

  function RefBytes(r: Ref): Blob {
    match r
    case ReadyAt(lane, group, id) => LP(lane) + (LP(group) + BE(8, id))
    case LeaseDeadline(lease) => BE(8, lease)
    case CronDue(cron) => cron
    case DedupExpiry(lane, key) => LP(lane) + key
    case LeaseMaxLife(lease) => BE(8, lease)
    case WfFired(run, started) => BE(8, run) + BE(8, started)
    case MsgExpiry(lane, group, id) => LP(lane) + (LP(group) + BE(8, id))
  }

  /** Every row of the application keyspace, one constructor a table. */
  datatype Key =
    | Meta(name: Name)
    | Message(lane: Name, group: Name, id: u64)
    | GroupMeta(lane: Name, group: Name)
    | Lease(lease: u64)
    | TimeIndex(due: u64, ref: Ref)
    | DLQ(lane: Name, group: Name, deadTs: u64, id: u64)
    | Policy(lane: Name)
    | Cron(name: Name)
    | Singleton(name: Name)
    | Token(hash: Blob)
    | LaneConfig(lane: Name)
    | Dedup(lane: Name, key: Name)
    | WfRun(run: u64)
    | WfHistory(run: u64, event: u64)
    | WfActivityDone(run: u64, sched: u64)
    | AuthPrincipal(name: Name)

  function Tag(k: Key): byte {
    match k
    case Meta(_) => 0x00
    case Message(_, _, _) => 0x01
    case GroupMeta(_, _) => 0x02
    case Lease(_) => 0x03
    case TimeIndex(_, _) => 0x04
    case DLQ(_, _, _, _) => 0x05
    case Policy(_) => 0x06
    case Cron(_) => 0x07
    case Singleton(_) => 0x08
    case Token(_) => 0x09
    case LaneConfig(_) => 0x0A
    case Dedup(_, _) => 0x0B
    case WfRun(_) => 0x0C
    case WfHistory(_, _) => 0x0D
    case WfActivityDone(_, _) => 0x0E
    case AuthPrincipal(_) => 0x0F
  }

  function Body(k: Key): Blob {
    match k
    case Meta(name) => name
    case Message(lane, group, id) => LP(lane) + (LP(group) + BE(8, id))
    case GroupMeta(lane, group) => LP(lane) + (LP(group) + [])
    case Lease(lease) => BE(8, lease)
    case TimeIndex(due, ref) => BE(8, due) + ([Kind(ref)] + RefBytes(ref))
    case DLQ(lane, group, ts, id) => LP(lane) + (LP(group) + (BE(8, ts) + BE(8, id)))
    case Policy(lane) => LP(lane) + []
    case Cron(name) => name
    case Singleton(name) => name
    case Token(hash) => hash
    case LaneConfig(lane) => lane
    case Dedup(lane, key) => LP(lane) + key
    case WfRun(run) => BE(8, run)
    case WfHistory(run, event) => BE(8, run) + BE(8, event)
    case WfActivityDone(run, sched) => BE(8, run) + BE(8, sched)
    case AuthPrincipal(name) => LP(name) + []
  }

  function Encode(k: Key): Blob {
    [Tag(k)] + Body(k)
  }

  /** Every length-prefixed name in the key fits its 16-bit length. */
  predicate RefFits(r: Ref) {
    match r
    case ReadyAt(lane, group, _) => |lane| < LP_LIMIT && |group| < LP_LIMIT
    case MsgExpiry(lane, group, _) => |lane| < LP_LIMIT && |group| < LP_LIMIT
    case DedupExpiry(lane, _) => |lane| < LP_LIMIT
    case _ => true
  }

  predicate Fits(k: Key) {
    match k
    case Message(lane, group, _) => |lane| < LP_LIMIT && |group| < LP_LIMIT
    case GroupMeta(lane, group) => |lane| < LP_LIMIT && |group| < LP_LIMIT
    case TimeIndex(_, ref) => RefFits(ref)
    case DLQ(lane, group, _, _) => |lane| < LP_LIMIT && |group| < LP_LIMIT
    case Policy(lane) => |lane| < LP_LIMIT
    case Dedup(lane, _) => |lane| < LP_LIMIT
    case AuthPrincipal(name) => |name| < LP_LIMIT
    case _ => true
  }

  lemma NamePairInjective(a: Name, b: Name, x: Blob, c: Name, d: Name, y: Blob)
    requires |a| < LP_LIMIT && |b| < LP_LIMIT && |c| < LP_LIMIT && |d| < LP_LIMIT
    requires LP(a) + (LP(b) + x) == LP(c) + (LP(d) + y)
    ensures a == c && b == d && x == y
  {
    LPInjective(a, LP(b) + x, c, LP(d) + y);
    LPInjective(b, x, d, y);
  }

  lemma U64PairInjective(a: u64, b: u64, c: u64, d: u64)
    requires BE(8, a) + BE(8, b) == BE(8, c) + BE(8, d)
    ensures a == c && b == d
  {
    U64Injective(a, BE(8, b), c, BE(8, d));
    assert BE(8, b) + [] == BE(8, d) + [];
    U64Injective(b, [], d, []);
  }

  lemma U64Alone(a: u64, b: u64)
    requires BE(8, a) == BE(8, b)
    ensures a == b
  {
    BERoundTrip(8, a);
    BERoundTrip(8, b);
  }

  lemma RefInjective(r: Ref, s: Ref)
    requires RefFits(r) && RefFits(s) && Kind(r) == Kind(s) && RefBytes(r) == RefBytes(s)
    ensures r == s
  {
    match r {
      case ReadyAt(lane, group, id) =>
        NamePairInjective(lane, group, BE(8, id), s.lane, s.group, BE(8, s.id));
        U64Alone(id, s.id);
      case MsgExpiry(lane, group, id) =>
        NamePairInjective(lane, group, BE(8, id), s.lane, s.group, BE(8, s.id));
        U64Alone(id, s.id);
      case LeaseDeadline(lease) => U64Alone(lease, s.lease);
      case LeaseMaxLife(lease) => U64Alone(lease, s.lease);
      case DedupExpiry(lane, key) => LPInjective(lane, key, s.lane, s.key);
      case WfFired(run, started) => U64PairInjective(run, started, s.run, s.started);
      case CronDue(_) =>
    }
  }

  lemma BodyInjective(k: Key, l: Key)
    requires Fits(k) && Fits(l) && Tag(k) == Tag(l) && Body(k) == Body(l)
    ensures k == l
  {
    match k {
      case Message(lane, group, id) =>
        NamePairInjective(lane, group, BE(8, id), l.lane, l.group, BE(8, l.id));
        U64Alone(id, l.id);
      case GroupMeta(lane, group) => NamePairInjective(lane, group, [], l.lane, l.group, []);
      case Lease(lease) => U64Alone(lease, l.lease);
      case TimeIndex(due, ref) =>
        U64Injective(due, [Kind(ref)] + RefBytes(ref), l.due, [Kind(l.ref)] + RefBytes(l.ref));
        assert ([Kind(ref)] + RefBytes(ref))[0] == Kind(ref) && ([Kind(l.ref)] + RefBytes(l.ref))[0] == Kind(l.ref);
        assert ([Kind(ref)] + RefBytes(ref))[1..] == RefBytes(ref)
            && ([Kind(l.ref)] + RefBytes(l.ref))[1..] == RefBytes(l.ref);
        RefInjective(ref, l.ref);
      case DLQ(lane, group, ts, id) =>
        NamePairInjective(lane, group, BE(8, ts) + BE(8, id), l.lane, l.group, BE(8, l.deadTs) + BE(8, l.id));
        U64PairInjective(ts, id, l.deadTs, l.id);
      case Policy(lane) => LPInjective(lane, [], l.lane, []);
      case Dedup(lane, key) => LPInjective(lane, key, l.lane, l.key);
      case WfRun(run) => U64Alone(run, l.run);
      case WfHistory(run, event) => U64PairInjective(run, event, l.run, l.event);
      case WfActivityDone(run, sched) => U64PairInjective(run, sched, l.run, l.sched);
      case AuthPrincipal(name) => LPInjective(name, [], l.name, []);
      case _ =>
    }
  }

  /** No two rows share a key: the byte store is faithfully a set of typed tables. */
  lemma EncodeInjective(k: Key, l: Key)
    requires Fits(k) && Fits(l)
    ensures Encode(k) == Encode(l) <==> k == l
  {
    if Encode(k) == Encode(l) {
      assert Encode(k)[0] == Tag(k) && Encode(l)[0] == Tag(l);
      assert Encode(k)[1..] == Body(k) && Encode(l)[1..] == Body(l);
      BodyInjective(k, l);
    }
  }

  // ----- Reference parsers -----

  function ParseReadyAtRef(ref: Blob): Option<(Name, Name, u64)> {
    match TakeLP(ref)
    case None => None
    case Some((lane, rest)) =>
      match TakeLP(rest)
      case None => None
      case Some((group, tail)) =>
        if |tail| < 8 then None else FromBEBound(tail[..8]); Some((lane, group, FromBE(tail[..8])))
  }

  function ParseLeaseDeadlineRef(ref: Blob): Option<u64> {
    if |ref| < 8 then None else FromBEBound(ref[..8]); Some(FromBE(ref[..8]))
  }

  function ParseDedupRef(ref: Blob): Option<(Name, Name)> {
    TakeLP(ref)
  }

  function ParseWFTimerRef(ref: Blob): Option<(u64, u64)> {
    if |ref| < 16 then None
    else
      FromBEBound(ref[..8]); FromBEBound(ref[8..16]);
      Some((FromBE(ref[..8]), FromBE(ref[8..16])))
  }

  /** (due, kind, ref) back from a time-index key. */
  function ParseTimeIndexKey(k: Blob): Option<(u64, byte, Blob)> {
    if |k| < 10 || k[0] != 4 then None
    else FromBEBound(k[1..9]); Some((FromBE(k[1..9]), k[9], k[10..]))
  }

  /** Every reference parser inverts its builder. */
  lemma ParseInvertsRef(r: Ref)
    requires RefFits(r)
    ensures match r
            case ReadyAt(lane, group, id) => ParseReadyAtRef(RefBytes(r)) == Some((lane, group, id))
            case MsgExpiry(lane, group, id) => ParseReadyAtRef(RefBytes(r)) == Some((lane, group, id))
            case LeaseDeadline(lease) => ParseLeaseDeadlineRef(RefBytes(r)) == Some(lease)
            case LeaseMaxLife(lease) => ParseLeaseDeadlineRef(RefBytes(r)) == Some(lease)
            case DedupExpiry(lane, key) => ParseDedupRef(RefBytes(r)) == Some((lane, key))
            case WfFired(run, started) => ParseWFTimerRef(RefBytes(r)) == Some((run, started))
            case CronDue(cron) => RefBytes(r) == cron
  {
    match r {
      case ReadyAt(lane, group, id) => ParseInvertsMessageRef(lane, group, id);
      case MsgExpiry(lane, group, id) => ParseInvertsMessageRef(lane, group, id);
      case LeaseDeadline(lease) => BERoundTrip(8, lease); assert BE(8, lease)[..8] == BE(8, lease);
      case LeaseMaxLife(lease) => BERoundTrip(8, lease); assert BE(8, lease)[..8] == BE(8, lease);
      case DedupExpiry(lane, key) => TakeLPExact(lane, key);
      case WfFired(run, started) =>
        BERoundTrip(8, run);
        BERoundTrip(8, started);
        assert RefBytes(r)[..8] == BE(8, run) && RefBytes(r)[8..16] == BE(8, started);
      case CronDue(_) =>
    }
  }

  lemma ParseInvertsMessageRef(lane: Name, group: Name, id: u64)
    requires |lane| < LP_LIMIT && |group| < LP_LIMIT
    ensures ParseReadyAtRef(LP(lane) + (LP(group) + BE(8, id))) == Some((lane, group, id))
  {
    TakeLPExact(lane, LP(group) + BE(8, id));
    TakeLPExact(group, BE(8, id));
    BERoundTrip(8, id);
    assert BE(8, id)[..8] == BE(8, id);
  }

  lemma ParseInvertsTimeIndex(due: u64, r: Ref)
    ensures ParseTimeIndexKey(Encode(TimeIndex(due, r))) == Some((due, Kind(r), RefBytes(r)))
  {
    var k := Encode(TimeIndex(due, r));
    BERoundTrip(8, due);
    assert k[1..9] == BE(8, due) && k[9] == Kind(r) && k[10..] == RefBytes(r);
  }

  // ----- Scans -----

  /** k lies in the half-open scan range [lo, hi); no upper bound when hi is None. */
  predicate InScan(k: Blob, lo: Blob, hi: Option<Blob>) {
    AtMost(lo, k) && (hi.Some? ==> Less(k, hi.value))
  }

  /** The exclusive upper bound of a prefix scan: the prefix with its last non-0xFF
      byte incremented and everything after it cut off. */
  function PrefixEnd(p: Blob): Option<Blob> {
    if p == [] then None
    else if p[|p| - 1] < 255 then Some(p[..|p| - 1] + [p[|p| - 1] + 1])
    else PrefixEnd(p[..|p| - 1])
  }

  method ComputePrefixEnd(p: Blob) returns (r: Option<Blob>)
    ensures r == PrefixEnd(p)
  {
    var end := new byte[|p|](i requires 0 <= i < |p| => p[i]);
    var i := |p|;
    assert p[..i] == p;
    while i > 0
      invariant 0 <= i <= |p|
      invariant end[..i] == p[..i]
      invariant PrefixEnd(p) == PrefixEnd(p[..i])
    {
      i := i - 1;
      ghost var q := p[..i + 1];
      assert q[..|q| - 1] == p[..i] && q[|q| - 1] == p[i] == end[..i + 1][i];
      var e: int := end[i];
      end[i] := (e + 1) % 256;
      assert end[..i] == p[..i];
      if end[i] != 0 {
        assert end[..i + 1] == p[..i] + [p[i] + 1];
        return Some(end[..i + 1]);
      }
    }
    return None;
  }

  /** A prefix scan visits exactly the keys with that prefix. */
  lemma {:induction false} PrefixScan(p: Blob, k: Blob)
    ensures InScan(k, p, PrefixEnd(p)) <==> p <= k
  {
    if p == [] {
      assert AtMost(p, k);
    } else {
      var init, last := p[..|p| - 1], p[|p| - 1];
      assert p == init + [last];
      PrefixScan(init, k);
      if init <= k {
        var rest := k[|init|..];
        assert k == init + rest;
        LessAfterPrefix(init, [last], rest);
        PrefixAtMost(init, k);
        if last < 255 {
          LessAfterPrefix(init, rest, [last + 1]);
        }
      } else {
        BeyondPrefix(init, last, k);
      }
    }
  }

  /** Outside a prefix's keys, extending the prefix moves neither end of its scan. */
  lemma BeyondPrefix(init: Blob, last: byte, k: Blob)
    requires !(init <= k)
    requires !InScan(k, init, PrefixEnd(init))
    ensures !InScan(k, init + [last], PrefixEnd(init + [last]))
  {
    var p := init + [last];
    assert p[..|p| - 1] == init && p[|p| - 1] == last;
    if AtMost(p, k) && InScan(k, p, PrefixEnd(p)) {
      PrefixAtMost(init, p);
      if Less(init, p) && Less(p, k) {
        LessTransitive(init, p, k);
      }
      assert AtMost(init, k);
      if last < 255 {
        assert Less(k, init + [last + 1]);
        NotBetween(init, k, [last + 1]);
      }
    }
  }

  /** A key at or above a prefix and below an extension of it has that prefix. */
  lemma {:induction false} NotBetween(init: Blob, k: Blob, x: Blob)
    requires AtMost(init, k) && Less(k, init + x)
    ensures init <= k
  {
    if init != [] {
      assert (init + x)[1..] == init[1..] + x && (init + x)[0] == init[0];
      if k == init {
      } else {
        assert Less(init, k);
        NotBetween(init[1..], k[1..], x);
        assert init == [init[0]] + init[1..] && k == [k[0]] + k[1..];
      }
    }
  }

  function MessagePrefix(lane: Name, group: Name): Blob {
    [0x01] + (LP(lane) + LP(group))
  }

  lemma TaggedPrefix(tag: byte, q: Blob, k: Key)
    ensures [tag] + q <= Encode(k) <==> Tag(k) == tag && q <= Body(k)
  {
    var p, e := [tag] + q, Encode(k);
    assert p[0] == tag && p[1..] == q && e[0] == Tag(k) && e[1..] == Body(k);
    if p <= e {
      assert q == p[1..] == e[1..|p|] == Body(k)[..|q|];
    }
    if Tag(k) == tag && q <= Body(k) {
      assert e[..|p|] == [tag] + Body(k)[..|q|] == p;
    }
  }

  lemma NamesPrefix(a: Name, b: Name, c: Name, d: Name, x: Blob)
    requires |a| < LP_LIMIT && |b| < LP_LIMIT && |c| < LP_LIMIT && |d| < LP_LIMIT
    ensures LP(a) + LP(b) <= LP(c) + (LP(d) + x) <==> a == c && b == d
  {
    var p, k := LP(a) + LP(b), LP(c) + (LP(d) + x);
    if p <= k {
      var rest := k[|p|..];
      assert k == LP(a) + (LP(b) + rest);
      NamePairInjective(a, b, rest, c, d, x);
    }
    if a == c && b == d {
      assert k == p + x;
    }
  }

  /** A group's message scan visits that group's messages and nothing else. */
  lemma MessageScan(lane: Name, group: Name, k: Key)
    requires |lane| < LP_LIMIT && |group| < LP_LIMIT && Fits(k)
    ensures InScan(Encode(k), MessagePrefix(lane, group), PrefixEnd(MessagePrefix(lane, group)))
            <==> k.Message? && k.lane == lane && k.group == group
  {
    PrefixScan(MessagePrefix(lane, group), Encode(k));
    TaggedPrefix(0x01, LP(lane) + LP(group), k);
    if k.Message? {
      NamesPrefix(lane, group, k.lane, k.group, BE(8, k.id));
    }
  }

  lemma MessageIs(lane: Name, group: Name, id: u64)
    ensures Encode(Message(lane, group, id)) == MessagePrefix(lane, group) + BE(8, id)
  {
    hide BE;
    hide LP;
  }

  /** ... in ascending id order. */
  lemma MessageOrder(lane: Name, group: Name, a: u64, b: u64)
    ensures Less(Encode(Message(lane, group, a)), Encode(Message(lane, group, b))) <==> a < b
  {
    hide Less;
    hide BE;
    hide LP;
    MessageIs(lane, group, a);
    MessageIs(lane, group, b);
    LessAfterPrefix(MessagePrefix(lane, group), BE(8, a), BE(8, b));
    U64Order(a, b);
  }

  lemma U64Order(a: u64, b: u64)
    ensures Less(BE(8, a), BE(8, b)) <==> a < b
  {
    LessTotal(BE(8, a), BE(8, b));
    if a < b {
      BEOrder(8, a, b);
    } else if b < a {
      BEOrder(8, b, a);
    }
  }

  function DLQGroupPrefix(lane: Name, group: Name): Blob {
    [0x05] + (LP(lane) + LP(group))
  }

  lemma DLQScan(lane: Name, group: Name, k: Key)
    requires |lane| < LP_LIMIT && |group| < LP_LIMIT && Fits(k)
    ensures InScan(Encode(k), DLQGroupPrefix(lane, group), PrefixEnd(DLQGroupPrefix(lane, group)))
            <==> k.DLQ? && k.lane == lane && k.group == group
  {
    PrefixScan(DLQGroupPrefix(lane, group), Encode(k));
    TaggedPrefix(0x05, LP(lane) + LP(group), k);
    if k.DLQ? {
      NamesPrefix(lane, group, k.lane, k.group, BE(8, k.deadTs) + BE(8, k.id));
    }
  }

  function WFHistoryPrefix(run: u64): Blob {
    [0x0D] + BE(8, run)
  }

  /** A run's history scan visits that run's events and nothing else. */
  lemma HistoryScan(run: u64, k: Key)
    requires Fits(k)
    ensures InScan(Encode(k), WFHistoryPrefix(run), PrefixEnd(WFHistoryPrefix(run)))
            <==> k.WfHistory? && k.run == run
  {
    PrefixScan(WFHistoryPrefix(run), Encode(k));
    TaggedPrefix(0x0D, BE(8, run), k);
    if k.WfHistory? && BE(8, run) <= Body(k) {
      assert Body(k) == BE(8, run) + Body(k)[8..];
      U64Injective(k.run, BE(8, k.event), run, Body(k)[8..]);
    }
  }

  /** The bounds of a sweep of everything due at or before ts; ts + 1 wraps at 64 bits. */
  const TIME_INDEX_PREFIX: Blob := [0x04]

  function TimeIndexUpTo(ts: u64): Blob {
    [0x04] + BE(8, (ts + 1) % Pow256(8))
  }

  lemma TimerBelow(due: u64, r: Ref, t: u64)
    ensures Less(Encode(TimeIndex(due, r)), [0x04] + BE(8, t)) <==> due < t
    ensures InScan(Encode(TimeIndex(due, r)), TIME_INDEX_PREFIX, None)
  {
    var tail := [Kind(r)] + RefBytes(r);
    var k := Encode(TimeIndex(due, r));
    assert k == [0x04] + (BE(8, due) + tail);
    PrefixAtMost([0x04], k);
    LessAfterPrefix([0x04], BE(8, due) + tail, BE(8, t));
    U64Order(due, t);
    U64Order(t, due);
    if due < t {
      LessExtends(BE(8, due), BE(8, t), tail, []);
      assert BE(8, t) + [] == BE(8, t);
    } else if t < due {
      LessExtends(BE(8, t), BE(8, due), [], tail);
      assert BE(8, t) + [] == BE(8, t);
      LessTotal(BE(8, t), BE(8, due) + tail);
    } else {
      LessAfterPrefix(BE(8, t), tail, []);
      assert BE(8, t) + [] == BE(8, t);
    }
  }

  /** Rows of the other tables are outside every time-index range. */
  lemma OtherTable(k: Key, t: u64)
    requires !k.TimeIndex?
    ensures !InScan(Encode(k), TIME_INDEX_PREFIX, Some([0x04] + BE(8, t)))
  {
    var tag, hi := Tag(k), [0x04] + BE(8, t);
    assert Encode(k)[0] == tag && hi[0] == 0x04 && TIME_INDEX_PREFIX[0] == 0x04;
    assert tag != 0x04;
    assert Encode(k) != TIME_INDEX_PREFIX;
  }

  /** A sweep up to ts visits exactly the timers due by ts, unless ts is the largest
      stamp: there the bound wraps and the sweep visits nothing. */
  lemma TimerScan(ts: u64, k: Key)
    ensures ts + 1 < Pow256(8) ==>
              (InScan(Encode(k), TIME_INDEX_PREFIX, Some(TimeIndexUpTo(ts))) <==> k.TimeIndex? && k.due <= ts)
    ensures ts + 1 == Pow256(8) && k.TimeIndex? ==>
              !InScan(Encode(k), TIME_INDEX_PREFIX, Some(TimeIndexUpTo(ts)))
  {
    hide Encode;
    hide Less;
    hide AtMost;
    hide BE;
    var t := (ts + 1) % Pow256(8);
    if k.TimeIndex? {
      TimerBelow(k.due, k.ref, t);
    } else {
      OtherTable(k, t);
    }
  }

  /** The timer sweep is exact at ts if and only if ts + 1 does not wrap. */
  lemma TimerScanExactIff(ts: u64)
    ensures (forall k: Key :: InScan(Encode(k), TIME_INDEX_PREFIX, Some(TimeIndexUpTo(ts))) <==>
              k.TimeIndex? && k.due <= ts)
            <==> ts + 1 < Pow256(8)
  {
    forall k: Key
      ensures ts + 1 < Pow256(8) ==>
                (InScan(Encode(k), TIME_INDEX_PREFIX, Some(TimeIndexUpTo(ts))) <==> k.TimeIndex? && k.due <= ts)
    {
      TimerScan(ts, k);
    }
    TimerScan(ts, TimeIndex(0, LeaseDeadline(0)));
  }

  /** Timers are swept in due order. */
  lemma TimerOrder(d: u64, r: Ref, e: u64, s: Ref)
    requires d < e
    ensures Less(Encode(TimeIndex(d, r)), Encode(TimeIndex(e, s)))
  {
    var x, y := [Kind(r)] + RefBytes(r), [Kind(s)] + RefBytes(s);
    BEOrder(8, d, e);
    LessExtends(BE(8, d), BE(8, e), x, y);
    LessAfterPrefix([0x04], BE(8, d) + x, BE(8, e) + y);
    assert Encode(TimeIndex(d, r)) == [0x04] + (BE(8, d) + x);
    assert Encode(TimeIndex(e, s)) == [0x04] + (BE(8, e) + y);
  }

  // ----- Application keyspace -----

  const APP_LO: Blob := [0x00]
  const APP_HI: Blob := [0x10]

  function RaftLogKey(index: u64): Blob { [0xFE] + BE(8, index) }
  function RaftKVKey(key: Blob): Blob { [0xFF] + key }

  /** The snapshot range holds every application row and no raft row. */
  lemma AppKeyspace(k: Key, index: u64, key: Blob)
    ensures InScan(Encode(k), APP_LO, Some(APP_HI))
    ensures !InScan(RaftLogKey(index), APP_LO, Some(APP_HI))
    ensures !InScan(RaftKVKey(key), APP_LO, Some(APP_HI))
  {
    assert Encode(k)[0] == Tag(k) < 0x10;
    if Tag(k) == 0 {
      assert Encode(k) == APP_LO + Body(k);
      PrefixAtMost(APP_LO, Encode(k));
    } else {
      assert APP_LO[0] < Encode(k)[0];
    }
    assert RaftLogKey(index)[0] == 0xFE && RaftKVKey(key)[0] == 0xFF && APP_HI[0] == 0x10;
  }
}
