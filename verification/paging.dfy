/** Paginated listings over a key-ordered table: opaque page tokens, one page at a time. */
module Paging {
  import opened Bytes

  const DEFAULT_PAGE: nat := 100
  const MAX_PAGE: nat := 1000

  function ClampPage(n: nat): (r: nat)
    ensures if 1 <= n <= 1000 then r == n else r == 100
  {
    if n == 0 || n > MAX_PAGE then DEFAULT_PAGE else n
  }

  // ----- Hex tokens -----

  const HEX: string := "0123456789abcdef"

  function HexEncode(b: Blob): string {
    if b == [] then "" else [HEX[b[0] / 16], HEX[b[0] % 16]] + HexEncode(b[1..])
  }

  function Digit(c: char): Option<nat> {
    if '0' <= c <= '9' then Some(c as int - '0' as int)
    else if 'a' <= c <= 'f' then Some(c as int - 'a' as int + 10)
    else if 'A' <= c <= 'F' then Some(c as int - 'A' as int + 10)
    else None
  }

  lemma DigitRange(c: char)
    ensures Digit(c).Some? ==> Digit(c).value < 16
  {
  }

  function HexDecode(s: string): Option<Blob> {
    if s == "" then Some([])
    else if |s| == 1 then None
    else
      DigitRange(s[0]); DigitRange(s[1]);
      match (Digit(s[0]), Digit(s[1]), HexDecode(s[2..]))
      case (Some(hi), Some(lo), Some(rest)) => Some([16 * hi + lo] + rest)
      case _ => None
  }

  lemma DigitOfHex(n: nat)
    requires n < 16
    ensures Digit(HEX[n]) == Some(n)
  {
    if n < 8 {
      assert HEX[0] == '0' && HEX[1] == '1' && HEX[2] == '2' && HEX[3] == '3';
      assert HEX[4] == '4' && HEX[5] == '5' && HEX[6] == '6' && HEX[7] == '7';
    } else {
      assert HEX[8] == '8' && HEX[9] == '9' && HEX[10] == 'a' && HEX[11] == 'b';
      assert HEX[12] == 'c' && HEX[13] == 'd' && HEX[14] == 'e' && HEX[15] == 'f';
    }
  }

  lemma {:induction false} HexRoundTrip(b: Blob)
    ensures HexDecode(HexEncode(b)) == Some(b)
  {
    if b != [] {
      DigitOfHex(b[0] / 16);
      DigitOfHex(b[0] % 16);
      HexRoundTrip(b[1..]);
      var s := HexEncode(b);
      assert s[2..] == HexEncode(b[1..]);
      assert b == [b[0]] + b[1..];
    }
  }

  /** A token decodes exactly when it is pairs of hexadecimal digits, in either case. */
  lemma {:induction false} HexDecodesIff(s: string)
    ensures HexDecode(s).Some? <==> |s| % 2 == 0 && forall i :: 0 <= i < |s| ==> IsHex(s[i])
    decreases |s|
  {
    hide Digit;
    hide IsHex;
    if |s| >= 2 {
      HexDecodesIff(s[2..]);
      HexDigit(s[0]);
      HexDigit(s[1]);
      PairFirst(s);
    }
  }

  lemma PairFirst(s: string)
    requires |s| >= 2
    ensures (forall i :: 0 <= i < |s| ==> IsHex(s[i])) <==>
              IsHex(s[0]) && IsHex(s[1]) && forall i :: 0 <= i < |s| - 2 ==> IsHex(s[2..][i])
  {
    hide IsHex;
    if IsHex(s[0]) && IsHex(s[1]) && forall i :: 0 <= i < |s| - 2 ==> IsHex(s[2..][i]) {
      forall i | 2 <= i < |s| ensures IsHex(s[i]) { assert s[i] == s[2..][i - 2]; }
    }
  }

  predicate IsHex(c: char) {
    c in "0123456789abcdefABCDEF"
  }

  lemma HexDigit(c: char)
    ensures Digit(c).Some? <==> IsHex(c)
  {
    var hex := "0123456789abcdefABCDEF";
    assert forall i :: 0 <= i < 22 ==> Digit(hex[i]).Some?;
  }

  /** Where the next page starts: the table's start, or just after the token's key. */
  function PageStart(lo: Blob, token: string): Blob {
    if token == "" then lo
    else match HexDecode(token)
         case None => lo
         case Some(raw) => if raw == [] then lo else raw + [0]
  }

  /** Appending a zero byte gives the smallest key strictly after. */
  lemma {:induction false} JustAfter(raw: Blob, k: Blob)
    ensures AtMost(raw + [0], k) <==> Less(raw, k)
  {
    if raw == [] {
      var z: Blob := [0];
      assert raw + [0] == z && z[1..] == [];
      if k != [] && k[0] == 0 {
        assert k == [0] + k[1..];
        assert AtMost(z, k);
      }
    } else if k != [] {
      assert (raw + [0])[1..] == raw[1..] + [0];
      JustAfter(raw[1..], k[1..]);
      assert k == [k[0]] + k[1..] && raw + [0] == [raw[0]] + (raw[1..] + [0]);
    }
  }

  lemma AfterToken(lo: Blob, key: Blob)
    requires key != []
    ensures PageStart(lo, HexEncode(key)) == key + [0]
  {
    HexRoundTrip(key);
  }

  // ----- Tables -----

  /** A table row as stored: its key, and its value unless it fails to decode. */
  datatype Row<V> = Row(key: Blob, value: Option<V>)

  ghost predicate Sorted<V>(rows: seq<Row<V>>) {
    && (forall i, j :: 0 <= i < j < |rows| ==> Less(rows[i].key, rows[j].key))
    && (forall i :: 0 <= i < |rows| ==> rows[i].key != [])
  }

  ghost predicate Above<V>(rows: seq<Row<V>>, lo: Blob) {
    forall i :: 0 <= i < |rows| ==> AtMost(lo, rows[i].key)
  }

  predicate Kept<V>(r: Row<V>, keep: V -> bool) {
    r.value.Some? && keep(r.value.value)
  }

  /** The full scan: every decodable row the listing keeps, in key order. */
  function Matching<V>(rows: seq<Row<V>>, keep: V -> bool): seq<V> {
    if rows == [] then []
    else (if Kept(rows[0], keep) then [rows[0].value.value] else []) + Matching(rows[1..], keep)
  }

  /** The rows an iterator with this lower bound yields. */
  function Seek<V>(rows: seq<Row<V>>, start: Blob): (r: seq<Row<V>>)
    ensures |r| <= |rows| && r == rows[|rows| - |r|..]
    ensures r != [] ==> AtMost(start, r[0].key)
  {
    if rows == [] || AtMost(start, rows[0].key) then rows else Seek(rows[1..], start)
  }

  /** A page of at most `limit` more rows, and the last key if rows remain after it. */
  function PageOf<V>(rest: seq<Row<V>>, keep: V -> bool, limit: nat): (seq<V>, Option<Blob>)
    requires limit > 0
  {
    if rest == [] then ([], None)
    else if !Kept(rest[0], keep) then PageOf(rest[1..], keep, limit)
    else if limit == 1 then ([rest[0].value.value], if |rest| > 1 then Some(rest[0].key) else None)
    else var (out, next) := PageOf(rest[1..], keep, limit - 1); ([rest[0].value.value] + out, next)
  }

  /** One row of the scan moves the page on, with the rows of `out` already on it. */
  lemma PageStep<V>(rest: seq<Row<V>>, i: nat, keep: V -> bool, left: nat, out: seq<V>)
    requires i < |rest| && left > 0
    ensures var page := PageOf(rest[i..], keep, left);
            if !Kept(rest[i], keep) then page == PageOf(rest[i + 1..], keep, left)
            else
              var more := out + [rest[i].value.value];
              if left == 1 then out + page.0 == more && page.1 == if i + 1 < |rest| then Some(rest[i].key) else None
              else
                var next := PageOf(rest[i + 1..], keep, left - 1);
                out + page.0 == more + next.0 && page.1 == next.1
  {
    assert rest[i..][1..] == rest[i + 1..] && rest[i..][0] == rest[i];
  }

  method ListPage<V>(rows: seq<Row<V>>, lo: Blob, keep: V -> bool, pageSize: nat, token: string)
    returns (out: seq<V>, next: string)
    requires Sorted(rows)
    ensures var (page, last) := PageOf(Seek(rows, PageStart(lo, token)), keep, ClampPage(pageSize));
            out == page && next == (if last.Some? then HexEncode(last.value) else "")
  {
    hide HexEncode;
    hide PageStart;
    hide Seek;
    hide ClampPage;
    hide Sorted;
    var rest := Seek(rows, PageStart(lo, token));
    var limit := ClampPage(pageSize);
    out := [];
    ghost var whole := PageOf(rest, keep, limit);
    assert rest[0..] == rest;
    EmptyPage(keep, rest[|rest|..]);
    hide PageOf;
    for i := 0 to |rest|
      invariant |out| < limit
      invariant whole.0 == out + PageOf(rest[i..], keep, limit - |out|).0
      invariant whole.1 == PageOf(rest[i..], keep, limit - |out|).1
    {
      PageStep(rest, i, keep, limit - |out|, out);
      if !Kept(rest[i], keep) {
        continue;
      }
      out := out + [rest[i].value.value];
      if |out| >= limit {
        return out, if i + 1 < |rest| then HexEncode(rest[i].key) else "";
      }
    }
    return out, "";
  }

  lemma EmptyPage<V>(keep: V -> bool, rest: seq<Row<V>>)
    requires rest == []
    ensures forall left: nat :: left > 0 ==> PageOf(rest, keep, left) == ([], None)
  {
  }

  // ----- Following the tokens -----

  lemma {:induction false} SeekDrops<V>(rows: seq<Row<V>>, j: nat, start: Blob)
    requires Sorted(rows) && j <= |rows|
    requires forall i :: 0 <= i < j ==> !AtMost(start, rows[i].key)
    requires j < |rows| ==> AtMost(start, rows[j].key)
    ensures Seek(rows, start) == rows[j..]
  {
    if j > 0 {
      assert forall i :: 0 <= i < |rows| - 1 ==> rows[1..][i] == rows[i + 1];
      SeekDrops(rows[1..], j - 1, start);
    }
  }

  /** The token's page resumes right after the token's row. */
  lemma ResumeAfter<V>(rows: seq<Row<V>>, lo: Blob, j: nat)
    requires Sorted(rows) && j < |rows|
    ensures Seek(rows, PageStart(lo, HexEncode(rows[j].key))) == rows[j + 1..]
  {
    hide HexEncode;
    hide PageStart;
    var key := rows[j].key;
    AfterToken(lo, key);
    forall i | 0 <= i <= j ensures !AtMost(key + [0], rows[i].key) {
      JustAfter(key, rows[i].key);
      LessTotal(key, rows[i].key);
    }
    if j + 1 < |rows| {
      JustAfter(key, rows[j + 1].key);
    }
    SeekDrops(rows, j + 1, key + [0]);
  }

  /** One page is the next rows of the full scan; its token is the key of a row with
      rows after it, and what remains to list is what remains to scan. */
  lemma {:induction false} PageAdvances<V>(rows: seq<Row<V>>, i: nat, keep: V -> bool, limit: nat) returns (j: nat)
    requires i <= |rows| && limit > 0
    ensures var (out, next) := PageOf(rows[i..], keep, limit);
            && |out| <= limit
            && (next.None? ==> out == Matching(rows[i..], keep))
            && (next.Some? ==> i <= j < |rows| - 1 && next.value == rows[j].key && |out| == limit
                               && Matching(rows[i..], keep) == out + Matching(rows[j + 1..], keep))
    decreases |rows| - i
  {
    j := i;
    if i < |rows| {
      assert rows[i..][1..] == rows[i + 1..] && rows[i..][0] == rows[i];
      if !Kept(rows[i], keep) {
        j := PageAdvances(rows, i + 1, keep, limit);
      } else if limit == 1 {
        if i + 1 == |rows| { assert rows[i + 1..] == []; }
      } else {
        j := PageAdvances(rows, i + 1, keep, limit - 1);
      }
    }
  }

  /** Every page from this token on, concatenated, when at most `fuel` pages are asked for. */
  function Pages<V>(rows: seq<Row<V>>, lo: Blob, keep: V -> bool, size: nat, token: string, fuel: nat): seq<V>
    decreases fuel
  {
    if fuel == 0 then []
    else
      var (out, next) := PageOf(Seek(rows, PageStart(lo, token)), keep, ClampPage(size));
      if next.None? then out else out + Pages(rows, lo, keep, size, HexEncode(next.value), fuel - 1)
  }

  lemma {:induction false} PagesFrom<V>(rows: seq<Row<V>>, lo: Blob, keep: V -> bool, size: nat, token: string, i: nat,
          fuel: nat)
    requires Sorted(rows) && i <= |rows| && Seek(rows, PageStart(lo, token)) == rows[i..]
    requires fuel > |rows| - i
    ensures Pages(rows, lo, keep, size, token, fuel) == Matching(rows[i..], keep)
    decreases |rows| - i
  {
    hide HexEncode;
    hide PageStart;
    hide Seek;
    hide PageOf;
    hide Matching;
    hide Less;
    hide Sorted;
    var j := PageAdvances(rows, i, keep, ClampPage(size));
    if PageOf(rows[i..], keep, ClampPage(size)).1.Some? {
      ResumeAfter(rows, lo, j);
      PagesFrom(rows, lo, keep, size, HexEncode(rows[j].key), j + 1, fuel - 1);
    }
  }

  /** Following page tokens from the empty token ends after at most one page a row and
      lists every matching row exactly once, in key order. */
  lemma PaginationIsFullScan<V>(rows: seq<Row<V>>, lo: Blob, keep: V -> bool, size: nat, fuel: nat)
    requires Sorted(rows) && Above(rows, lo) && fuel > |rows|
    ensures Pages(rows, lo, keep, size, "", fuel) == Matching(rows, keep)
  {
    hide Less;
    hide Seek;
    hide Pages;
    hide PageOf;
    SeekDrops(rows, 0, lo);
    assert rows[0..] == rows;
    PagesFrom(rows, lo, keep, size, "", 0, fuel);
  }

  /** A token that does not decode lists from the start. */
  lemma BadTokenStartsOver<V>(rows: seq<Row<V>>, lo: Blob, keep: V -> bool, size: nat, token: string, fuel: nat)
    requires Sorted(rows) && Above(rows, lo) && fuel > |rows| && HexDecode(token).None?
    ensures Pages(rows, lo, keep, size, token, fuel) == Matching(rows, keep)
  {
    PaginationIsFullScan(rows, lo, keep, size, fuel);
    assert PageStart(lo, token) == PageStart(lo, "");
    hide Sorted;
    hide Above;
    hide Seek;
    hide PageOf;
    hide HexDecode;
    hide Matching;
  }

  // ----- The two listings -----

  datatype GroupStats = GroupStats(lane: string, group: string, weight: real, paused: bool,
                                   ready: nat, delayed: nat, inflight: nat, total: nat)
  datatype LeaseInfo = LeaseInfo(lane: string, group: string, msg: nat, lease: nat, consumer: string, deadline: nat)

  /** The lane-prefixed listing keeps every decodable row of its range; the lease listing
      scans the global table and keeps the rows of one lane. */
  lemma ListingsAreFullScans(groups: seq<Row<GroupStats>>, groupsLo: Blob, leases: seq<Row<LeaseInfo>>, leasesLo: Blob,
                             lane: string, size: nat)
    requires Sorted(groups) && Above(groups, groupsLo) && Sorted(leases) && Above(leases, leasesLo)
    ensures Pages(groups, groupsLo, _ => true, size, "", |groups| + 1) == Matching(groups, _ => true)
    ensures Pages(leases, leasesLo, (l: LeaseInfo) => l.lane == lane, size, "", |leases| + 1)
            == Matching(leases, (l: LeaseInfo) => l.lane == lane)
  {
    PaginationIsFullScan(groups, groupsLo, _ => true, size, |groups| + 1);
    PaginationIsFullScan(leases, leasesLo, (l: LeaseInfo) => l.lane == lane, size, |leases| + 1);
  }
}
