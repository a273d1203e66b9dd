/** Byte strings, their lexicographic order (the order of the key-value store) and
    fixed-width big-endian numbers. */
module Bytes {
  type byte = x: int | 0 <= x < 256
  type Blob = seq<byte>

  datatype Option<+T> = None | Some(value: T)

  /** Strict lexicographic order on byte strings. */
  predicate Less(a: Blob, b: Blob) {
    if b == [] then false
    else if a == [] then true
    else a[0] < b[0] || (a[0] == b[0] && Less(a[1..], b[1..]))
  }

  predicate AtMost(a: Blob, b: Blob) {
    a == b || Less(a, b)
  }

  lemma {:induction false} LessTotal(a: Blob, b: Blob)
    ensures Less(a, b) || a == b || Less(b, a)
    ensures !(Less(a, b) && Less(b, a)) && !Less(a, a)
  {
    if a != [] && b != [] {
      LessTotal(a[1..], b[1..]);
      LessTotal(a[1..], a[1..]);
      assert a == [a[0]] + a[1..] && b == [b[0]] + b[1..];
    } else if a != [] {
      LessTotal(a[1..], a[1..]);
    }
  }

  lemma {:induction false} LessTransitive(a: Blob, b: Blob, c: Blob)
    requires Less(a, b) && Less(b, c)
    ensures Less(a, c)
  {
    if a != [] && a[0] == b[0] == c[0] {
      LessTransitive(a[1..], b[1..], c[1..]);
    }
  }

  lemma {:induction false} LessAfterPrefix(p: Blob, a: Blob, b: Blob)
    ensures Less(p + a, p + b) <==> Less(a, b)
  {
    if p == [] {
      assert p + a == a && p + b == b;
    } else {
      LessAfterPrefix(p[1..], a, b);
      assert (p + a)[1..] == p[1..] + a && (p + b)[1..] == p[1..] + b;
    }
  }

  /** Two strings that first differ at one byte are ordered by that byte. */
  lemma {:induction false} LessAtDifference(p: Blob, x: byte, a: Blob, y: byte, b: Blob)
    requires x != y
    ensures Less(p + [x] + a, p + [y] + b) <==> x < y
  {
    LessAfterPrefix(p, [x] + a, [y] + b);
    assert p + [x] + a == p + ([x] + a) && p + [y] + b == p + ([y] + b);
  }

  lemma {:induction false} PrefixAtMost(p: Blob, k: Blob)
    requires p <= k
    ensures AtMost(p, k)
  {
    var rest := k[|p|..];
    assert k == p + rest && p == p + [];
    LessAfterPrefix(p, [], rest);
    if rest == [] {
      assert k == p;
    }
  }

  // ----- Big-endian numbers -----

  function Pow256(n: nat): (p: nat)
    ensures p > 0
  {
    if n == 0 then 1 else 256 * Pow256(n - 1)
  }

  /** `v` written in exactly `n` bytes, most significant first. */
  function BE(n: nat, v: nat): (s: Blob)
    requires v < Pow256(n)
    ensures |s| == n
  {
    if n == 0 then [] else BE(n - 1, v / 256) + [v % 256]
  }

  function FromBE(s: Blob): nat {
    if s == [] then 0 else 256 * FromBE(s[..|s| - 1]) + s[|s| - 1]
  }

  lemma {:induction false} BERoundTrip(n: nat, v: nat)
    requires v < Pow256(n)
    ensures FromBE(BE(n, v)) == v
  {
    if n > 0 {
      BERoundTrip(n - 1, v / 256);
      assert BE(n, v)[..n - 1] == BE(n - 1, v / 256);
    }
  }

  lemma {:induction false} FromBEBound(s: Blob)
    ensures FromBE(s) < Pow256(|s|)
  {
    if s != [] {
      FromBEBound(s[..|s| - 1]);
    }
  }

  lemma {:induction false} FromBERoundTrip(s: Blob)
    ensures FromBE(s) < Pow256(|s|) && BE(|s|, FromBE(s)) == s
  {
    FromBEBound(s);
    if s != [] {
      var init, last := s[..|s| - 1], s[|s| - 1];
      FromBERoundTrip(init);
      assert FromBE(s) / 256 == FromBE(init) && FromBE(s) % 256 == last;
      assert s == init + [last];
    }
  }

  lemma {:induction false} LessExtends(a: Blob, b: Blob, x: Blob, y: Blob)
    requires |a| == |b| && Less(a, b)
    ensures Less(a + x, b + y)
  {
    if a[0] == b[0] {
      LessExtends(a[1..], b[1..], x, y);
      assert (a + x)[1..] == a[1..] + x && (b + y)[1..] == b[1..] + y;
    }
  }

  /** Fixed-width big-endian order is numeric order. */
  lemma {:induction false} BEOrder(n: nat, v: nat, w: nat)
    requires v < w < Pow256(n)
    ensures Less(BE(n, v), BE(n, w))
  {
    if n > 0 {
      if v / 256 < w / 256 {
        BEOrder(n - 1, v / 256, w / 256);
        LessExtends(BE(n - 1, v / 256), BE(n - 1, w / 256), [v % 256], [w % 256]);
      } else {
        LessAtDifference(BE(n - 1, v / 256), v % 256, [], w % 256, []);
        assert BE(n, v) == BE(n - 1, v / 256) + [v % 256] + [];
        assert BE(n, w) == BE(n - 1, w / 256) + [w % 256] + [];
      }
    }
  }
}
