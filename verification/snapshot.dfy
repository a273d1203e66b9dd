/** Snapshots of the application keyspace: chunk framing, Persist and Restore over the
    byte-ordered store. */
module Snapshot {
  import opened Bytes
  import Keys

  type Rows = seq<(Blob, Blob)>
  type Kv = map<Blob, Blob>

  /** An iterator over [lo, hi) of m yields exactly m's rows in the range, ascending. */
  ghost predicate IsScan(rows: Rows, m: Kv, lo: Blob, hi: Option<Blob>) {
    && (forall i, j :: 0 <= i < j < |rows| ==> Less(rows[i].0, rows[j].0))
    && (forall i :: 0 <= i < |rows| ==> rows[i].0 in m && m[rows[i].0] == rows[i].1 && Keys.InScan(rows[i].0, lo, hi))
    && (forall k :: k in m && Keys.InScan(k, lo, hi) ==> exists i :: 0 <= i < |rows| && rows[i].0 == k)
  }

  predicate InApp(k: Blob) {
    k != [] && k[0] < 0x10
  }

  lemma InAppExactly(k: Blob)
    ensures InApp(k) <==> Keys.InScan(k, Keys.APP_LO, Some(Keys.APP_HI))
  {
    var lo, hi := Keys.APP_LO, Keys.APP_HI;
    assert lo[0] == 0 && lo[1..] == [] && hi[0] == 0x10 && hi[1..] == [];
    if k == [] {
      assert !AtMost(lo, k);
    } else {
      assert Less(k, hi) <==> k[0] < 0x10;
      if k[0] == 0 {
        assert k == [0] + k[1..];
        assert AtMost(lo, k);
      } else {
        assert Less(lo, k);
      }
    }
  }

  // ----- Framing -----

  /** Every length fits the 4-byte header. */
  ghost predicate Framed(rows: Rows) {
    forall i :: 0 <= i < |rows| ==> |rows[i].0| < Pow256(4) && |rows[i].1| < Pow256(4)
  }

  function Chunk(b: Blob): Blob {
    BE(4, |b| % Pow256(4)) + b
  }

  function Stream(rows: Rows): Blob {
    if rows == [] then [] else Chunk(rows[0].0) + Chunk(rows[0].1) + Stream(rows[1..])
  }

  datatype Read = Eof | Broken | Got(data: Blob, rest: Blob)

  /** One length-prefixed chunk. A stream that ends before the header, or between the
      header and a nonempty body, reads as a clean end; inside either it is broken. */
  function ReadChunk(s: Blob): Read {
    if s == [] then Eof
    else if |s| < 4 then Broken
    else
      var n := FromBE(s[..4]);
      if |s| - 4 >= n then Got(s[4..4 + n], s[4 + n..])
      else if |s| == 4 then Eof
      else Broken
  }

  /** The rows read up to the first end or error, and whether it was an end. */
  function Parse(s: Blob): (Rows, bool)
    decreases |s|
  {
    match ReadChunk(s)
    case Eof => ([], true)
    case Broken => ([], false)
    case Got(k, rest) =>
      match ReadChunk(rest)
      case Got(v, tail) => var (rows, ok) := Parse(tail); ([(k, v)] + rows, ok)
      case _ => ([], false)
  }

  lemma ReadBack(b: Blob, rest: Blob)
    requires |b| < Pow256(4)
    ensures ReadChunk(Chunk(b) + rest) == Got(b, rest)
  {
    var s := Chunk(b) + rest;
    BERoundTrip(4, |b|);
    assert s[..4] == BE(4, |b|);
    assert s[4..4 + |b|] == b && s[4 + |b|..] == rest;
  }

  lemma ChunkBack(s: Blob, n: nat)
    requires |s| >= 4 && n == FromBE(s[..4]) && |s| - 4 >= n
    ensures s == Chunk(s[4..4 + n]) + s[4 + n..] && n < Pow256(4)
  {
    var b := s[4..4 + n];
    FromBERoundTrip(s[..4]);
    assert Chunk(b) == s[..4] + b;
  }

  lemma ReadIsChunk(s: Blob)
    ensures match ReadChunk(s)
            case Got(b, rest) => s == Chunk(b) + rest && |b| < Pow256(4)
            case Eof => EndMark(s)
            case Broken => true
  {
    if ReadChunk(s).Got? {
      ChunkBack(s, FromBE(s[..4]));
    } else if |s| == 4 {
      assert s[..4] == s;
    }
  }

  /** What may follow the last whole row of a stream that is accepted. */
  predicate EndMark(h: Blob) {
    h == [] || (|h| == 4 && FromBE(h) > 0)
  }

  lemma ParseRow(k: Blob, v: Blob, tail: Blob)
    requires |k| < Pow256(4) && |v| < Pow256(4)
    ensures var (rows, ok) := Parse(tail); Parse(Chunk(k) + (Chunk(v) + tail)) == ([(k, v)] + rows, ok)
  {
    ReadBack(k, Chunk(v) + tail);
    ReadBack(v, tail);
    hide ReadChunk;
    hide Chunk;
    hide Pow256;
  }

  lemma ParseEnd(h: Blob)
    requires EndMark(h)
    ensures Parse(h) == ([], true)
  {
    if h != [] { assert h[..4] == h; }
  }

  lemma {:induction false} ParseStream(rows: Rows, h: Blob)
    requires Framed(rows) && EndMark(h)
    ensures Parse(Stream(rows) + h) == (rows, true)
    decreases |rows|
  {
    hide Parse;
    hide Chunk;
    hide Pow256;
    hide EndMark;
    if rows == [] {
      assert Stream(rows) + h == h;
      ParseEnd(h);
    } else {
      var k, v, tail := rows[0].0, rows[0].1, Stream(rows[1..]) + h;
      assert Stream(rows) + h == Chunk(k) + (Chunk(v) + tail);
      ParseRow(k, v, tail);
      ParseStream(rows[1..], h);
      assert rows == [(k, v)] + rows[1..];
    }
  }

  /** Exactly which streams Restore accepts: whole rows, optionally followed by the
      four-byte header of a nonempty key. A snapshot cut right there loses its
      remaining rows silently; one cut anywhere else inside a row is rejected. */
  lemma {:induction false} AcceptsExactly(s: Blob)
    ensures Parse(s).1 <==> exists rows, h :: Framed(rows) && EndMark(h) && s == Stream(rows) + h
    decreases |s|
  {
    if exists rows, h :: Framed(rows) && EndMark(h) && s == Stream(rows) + h {
      var rows, h :| Framed(rows) && EndMark(h) && s == Stream(rows) + h;
      ParseStream(rows, h);
    }
    if Parse(s).1 {
      AcceptedShape(s);
    }
  }

  lemma StreamCons(k: Blob, v: Blob, rows: Rows, h: Blob)
    ensures Stream([(k, v)] + rows) + h == Chunk(k) + (Chunk(v) + (Stream(rows) + h))
  {
    var all := [(k, v)] + rows;
    assert all[0] == (k, v) && all[1..] == rows;
    var x, y, z := Chunk(k), Chunk(v), Stream(rows);
    assert Stream(all) == x + y + z;
    assert x + y + z + h == x + (y + (z + h));
  }

  lemma {:induction false} AcceptedShape(s: Blob)
    requires Parse(s).1
    ensures exists h :: EndMark(h) && s == Stream(Parse(s).0) + h
    ensures Framed(Parse(s).0)
    decreases |s|
  {
    ReadIsChunk(s);
    match ReadChunk(s)
    case Eof => assert s == Stream([]) + s;
    case Got(k, rest) =>
      ReadIsChunk(rest);
      var v, tail := ReadChunk(rest).data, ReadChunk(rest).rest;
      AcceptedShape(tail);
      var h :| EndMark(h) && tail == Stream(Parse(tail).0) + h;
      StreamCons(k, v, Parse(tail).0, h);
      assert Parse(s).0 == [(k, v)] + Parse(tail).0;
  }

  // ----- The replica's disk -----

  /** Rows of m outside the application range. */
  function Outside(m: Kv): Kv {
    map k | k in m && !InApp(k) :: m[k]
  }

  function Inside(m: Kv): Kv {
    map k | k in m && InApp(k) :: m[k]
  }

  /** m with the rows written over it in order. */
  function Written(m: Kv, rows: Rows): Kv {
    if rows == [] then m else Written(m, rows[..|rows| - 1])[rows[|rows| - 1].0 := rows[|rows| - 1].1]
  }

  const APPLIED_INDEX: Blob := [0x00, 0x61, 0x70, 0x70, 0x6C, 0x69, 0x65, 0x64, 0x5F, 0x69, 0x6E, 0x64, 0x65, 0x78]

  function BeU64(b: Blob): nat {
    if |b| < 8 then 0 else FromBE(b[..8])
  }

  /** The applied index a restore leaves: the snapshot's row if it has one, otherwise
      whatever the node had in memory. */
  function AppliedAfter(m: Kv, before: nat): nat {
    if APPLIED_INDEX in m then BeU64(m[APPLIED_INDEX]) else before
  }

  lemma BatchStep(rows: Kv, batch: Kv, base: Kv, total: Rows, done: nat)
    requires done < |total| && rows + batch == Written(base, total[..done])
    ensures rows + batch[total[done].0 := total[done].1] == Written(base, total[..done + 1])
  {
    assert total[..done + 1][..done] == total[..done];
    assert rows + batch[total[done].0 := total[done].1] == (rows + batch)[total[done].0 := total[done].1];
  }

  lemma ParseStep(r: Blob, total: Rows, done: nat)
    requires ReadChunk(r).Got? && ReadChunk(ReadChunk(r).rest).Got?
    requires done <= |total| && total == total[..done] + Parse(r).0
    ensures var k, v := ReadChunk(r), ReadChunk(ReadChunk(r).rest);
            && done < |total| && total[done] == (k.data, v.data)
            && total == total[..done + 1] + Parse(v.rest).0
            && Parse(v.rest).1 == Parse(r).1
            && |v.rest| < |r|
  {
    ChunkShortens(r);
    ChunkShortens(ReadChunk(r).rest);
    hide ReadChunk;
  }

  lemma ChunkShortens(s: Blob)
    ensures ReadChunk(s).Got? ==> |ReadChunk(s).rest| < |s|
  {
  }

  /** The four megabytes after which Restore commits its batch and opens another. */
  const FLUSH_BYTES: nat := 4 * 1024 * 1024

  class Disk {
    var rows: Kv
    var applied: nat

    /** Streams the rows an iterator over the application range yields. */
    method Persist(scan: Rows) returns (sink: Blob)
      ensures sink == Stream(scan)
    {
      sink := [];
      for i := 0 to |scan|
        invariant sink + Stream(scan[i..]) == Stream(scan)
      {
        assert scan[i..][0] == scan[i] && scan[i..][1..] == scan[i + 1..];
        assert sink + Stream(scan[i..]) == sink + Chunk(scan[i].0) + Chunk(scan[i].1) + Stream(scan[i + 1..]);
        sink := sink + Chunk(scan[i].0);
        sink := sink + Chunk(scan[i].1);
      }
      assert scan[|scan|..] == [];
    }

    /** Clears the application range, then replays the stream in flushed batches. */
    method Restore(stream: Blob) returns (ok: bool)
      modifies this
      ensures ok == Parse(stream).1
      ensures ok ==> rows == Written(Outside(old(rows)), Parse(stream).0)
      ensures ok ==> applied == AppliedAfter(rows, old(applied))
      ensures !ok ==> applied == old(applied) &&
                      exists n :: 0 <= n <= |Parse(stream).0|
                          && rows == Written(Outside(old(rows)), Parse(stream).0[..n])
    {
      ghost var base, total := Outside(rows), Parse(stream).0;
      rows := Outside(rows);
      var batch: Kv, size: nat := map[], 0;
      var r := stream;
      ghost var flushed, done := 0, 0;
      assert rows + batch == rows;
      while true
        invariant 0 <= flushed <= done <= |total|
        invariant rows == Written(base, total[..flushed])
        invariant rows + batch == Written(base, total[..done])
        invariant total == total[..done] + Parse(r).0 && Parse(stream).1 == Parse(r).1
        invariant applied == old(applied)
        decreases |r|
      {
        var key := ReadChunk(r);
        if key.Eof? { break; }
        if key.Broken? { return false; }
        var val := ReadChunk(key.rest);
        if !val.Got? { return false; }
        ParseStep(r, total, done);
        BatchStep(rows, batch, base, total, done);
        batch := batch[key.data := val.data];
        size := size + |key.data| + |val.data|;
        done := done + 1;
        if size > FLUSH_BYTES {
          rows := rows + batch;
          batch, size, flushed := map[], 0, done;
          assert rows + batch == rows;
        }
        r := val.rest;
      }
      assert total[..done] == total;
      rows := rows + batch;
      if APPLIED_INDEX in rows {
        applied := BeU64(rows[APPLIED_INDEX]);
      }
      return true;
    }
  }

  // ----- Round trip -----

  lemma {:induction false} WrittenExactly(m: Kv, rows: Rows)
    requires forall i, j :: 0 <= i < j < |rows| ==> rows[i].0 != rows[j].0
    ensures forall i :: 0 <= i < |rows| ==> rows[i].0 in Written(m, rows) && Written(m, rows)[rows[i].0] == rows[i].1
    ensures forall k :: k in Written(m, rows) ==> k in m || exists i :: 0 <= i < |rows| && rows[i].0 == k
    ensures forall k :: k in m && (forall i :: 0 <= i < |rows| ==> rows[i].0 != k) ==>
                          k in Written(m, rows) && Written(m, rows)[k] == m[k]
  {
    if rows != [] {
      var init := rows[..|rows| - 1];
      WrittenExactly(m, init);
      forall k | k in Written(m, rows)
        ensures k in m || exists i :: 0 <= i < |rows| && rows[i].0 == k
      {
        if k == rows[|rows| - 1].0 {
        } else if k !in m {
          var i :| 0 <= i < |init| && init[i].0 == k;
          assert rows[i].0 == k;
        }
      }
      forall k | k in m && (forall i :: 0 <= i < |rows| ==> rows[i].0 != k)
        ensures k in Written(m, rows) && Written(m, rows)[k] == m[k]
      {
        forall i | 0 <= i < |init| ensures init[i].0 != k { assert rows[i].0 != k; }
      }
    }
  }

  lemma RestoredRow(src: Kv, scan: Rows, dst: Kv, k: Blob)
    requires IsScan(scan, src, Keys.APP_LO, Some(Keys.APP_HI))
    ensures var r := Written(Outside(dst), scan);
            if InApp(k) then (k in r <==> k in src) && (k in r ==> r[k] == src[k])
            else (k in r <==> k in dst) && (k in r ==> r[k] == dst[k])
  {
    forall i, j | 0 <= i < j < |scan| ensures scan[i].0 != scan[j].0 { LessTotal(scan[i].0, scan[j].0); }
    WrittenExactly(Outside(dst), scan);
    InAppExactly(k);
    if i :| 0 <= i < |scan| && scan[i].0 == k {
      assert InApp(k);
    }
  }

  /** Persisting one store and restoring the stream into another reproduces the first
      store's application rows and keeps the second's raft rows. */
  lemma PersistRestore(src: Kv, scan: Rows, dst: Kv)
    requires IsScan(scan, src, Keys.APP_LO, Some(Keys.APP_HI)) && Framed(scan)
    ensures Parse(Stream(scan)) == (scan, true)
    ensures Inside(Written(Outside(dst), scan)) == Inside(src)
    ensures Outside(Written(Outside(dst), scan)) == Outside(dst)
  {
    assert Stream(scan) + [] == Stream(scan);
    ParseStream(scan, []);
    RestoredStore(src, scan, dst);
  }

  lemma RestoredStore(src: Kv, scan: Rows, dst: Kv)
    requires IsScan(scan, src, Keys.APP_LO, Some(Keys.APP_HI))
    ensures Inside(Written(Outside(dst), scan)) == Inside(src)
    ensures Outside(Written(Outside(dst), scan)) == Outside(dst)
  {
    var r := Written(Outside(dst), scan);
    forall k
      ensures InApp(k) ==> (k in r <==> k in src) && (k in r ==> r[k] == src[k])
      ensures !InApp(k) ==> (k in r <==> k in dst) && (k in r ==> r[k] == dst[k])
    {
      RestoredRow(src, scan, dst, k);
    }
    assert Inside(r) == Inside(src);
  }

  /** The restored node also adopts the source's applied index if the source has one;
      from a source without one it keeps its own. */
  lemma RestoredIndex(src: Kv, scan: Rows, dst: Kv, before: nat)
    requires IsScan(scan, src, Keys.APP_LO, Some(Keys.APP_HI)) && Framed(scan)
    ensures AppliedAfter(Written(Outside(dst), scan), before) == AppliedAfter(src, before)
  {
    PersistRestore(src, scan, dst);
    assert InApp(APPLIED_INDEX);
    var r := Written(Outside(dst), scan);
    assert APPLIED_INDEX in r <==> APPLIED_INDEX in Inside(r);
    assert APPLIED_INDEX in src <==> APPLIED_INDEX in Inside(src);
  }
}
