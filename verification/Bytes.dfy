/** Bytes on the wire: little-endian numbers and concatenation. */
module Bytes {
  newtype Byte = x: int | 0 <= x < 256

  function Le16(lo: Byte, hi: Byte): (n: nat)
    ensures n < 65536
  {
    lo as int + 256 * hi as int
  }

  function Put16(n: nat): (b: seq<Byte>)
    requires n < 65536
    ensures |b| == 2 && Le16(b[0], b[1]) == n
  {
    [(n % 256) as Byte, (n / 256) as Byte]
  }

  function Pow256(k: nat): nat { if k == 0 then 1 else 256 * Pow256(k - 1) }

  /** The low `k` bytes of a number, lowest first. */
  function Le(n: nat, k: nat): (b: seq<Byte>)
    ensures |b| == k
  {
    if k == 0 then [] else [(n % 256) as Byte] + Le(n / 256, k - 1)
  }

  function FromLe(b: seq<Byte>): nat {
    if b == [] then 0 else b[0] as nat + 256 * FromLe(b[1..])
  }

  lemma {:induction false} FromLeOfLe(n: nat, k: nat)
    requires n < Pow256(k)
    ensures FromLe(Le(n, k)) == n
  {
    if k > 0 {
      assert Le(n, k)[1..] == Le(n / 256, k - 1);
      FromLeOfLe(n / 256, k - 1);
    }
  }

  lemma {:induction false} LeOfFromLe(b: seq<Byte>)
    ensures Le(FromLe(b), |b|) == b
  {
    if b != [] {
      LeOfFromLe(b[1..]);
      assert FromLe(b) / 256 == FromLe(b[1..]) && FromLe(b) % 256 == b[0] as nat;
      assert [b[0]] + b[1..] == b;
    }
  }

  lemma {:induction false} FromLeBound(b: seq<Byte>)
    ensures FromLe(b) < Pow256(|b|)
  {
    if b != [] { FromLeBound(b[1..]); }
  }

  function Flat(ms: seq<seq<Byte>>): seq<Byte> {
    if ms == [] then [] else ms[0] + Flat(ms[1..])
  }

  lemma {:induction false} FlatConcat(a: seq<seq<Byte>>, b: seq<seq<Byte>>)
    ensures Flat(a + b) == Flat(a) + Flat(b)
  {
    if a == [] {
      assert a + b == b;
    } else {
      assert (a + b)[1..] == a[1..] + b;
      FlatConcat(a[1..], b);
    }
  }

  lemma FlatMore(ms: seq<seq<Byte>>, m: seq<Byte>)
    ensures Flat(ms + [m]) == Flat(ms) + m
  {
    FlatConcat(ms, [m]);
    assert Flat([m]) == m + Flat([]) == m;
  }

  predicate Prefix<T(==)>(a: seq<T>, b: seq<T>) { |a| <= |b| && b[..|a|] == a }

  lemma PrefixTrans<T>(a: seq<T>, b: seq<T>, c: seq<T>)
    requires Prefix(a, b) && Prefix(b, c)
    ensures Prefix(a, c)
  {
    assert c[..|a|] == c[..|b|][..|a|];
  }
}
