/** The dirty bitmap: 64 sessions to a word, marked from any thread and taken word by word. */
module DirtyBits {
  /** A session number, split into its word and its position in the word. */
  datatype Bit = Bit(word: nat, pos: bv64)

  function Mask(b: bv64): bv64
    requires b < 64
  {
    1 << (b as bv7)
  }

  predicate Has(v: bv64, b: bv64) { b < 64 && v & Mask(b) != 0 }

  /** No bit below `b` is set. */
  predicate NoneBelow(v: bv64, b: bv64) { b < 64 && v & (Mask(b) - 1) == 0 }

  lemma AddBit(v: bv64, b: bv64, c: bv64)
    requires b < 64 && c < 64
    ensures (v | Mask(b)) & Mask(c) == (if c == b then Mask(c) else v & Mask(c))
    ensures Mask(c) != 0
  { }

  /** `v & (v - 1)` clears exactly the lowest set bit. */
  lemma DropLowest(v: bv64, b: bv64, c: bv64)
    requires b < 64 && c < 64 && v & Mask(b) != 0 && v & (Mask(b) - 1) == 0
    ensures (v & (v - 1)) & Mask(c) == (if c == b then 0 else v & Mask(c))
    ensures c < b ==> v & Mask(c) == 0
  { }

  lemma Popped(v: bv64, b: bv64, c: bv64)
    requires Has(v, b) && NoneBelow(v, b)
    ensures b < 64 && (c != b ==> (Has(v & (v - 1), c) <==> Has(v, c)))
    ensures Has(v & (v - 1), c) ==> b < c
  {
    hide Mask;
    if c < 64 { DropLowest(v, b, c); }
  }

  lemma LosesBit(v: bv64)
    requires v != 0
    ensures v & (v - 1) < v
  { }

  lemma NoneBelowNext(v: bv64, b: bv64)
    requires NoneBelow(v, b) && !Has(v, b)
    ensures b < 63 ==> NoneBelow(v, b + 1)
    ensures b == 63 ==> v == 0
  { }

  lemma NoBitBelowZero(v: bv64)
    ensures NoneBelow(v, 0)
  { }

  lemma ZeroHasNone(c: bv64)
    ensures !Has(0, c)
  { }

  /** The session's bit is set. */
  predicate Marked(words: seq<bv64>, i: Bit) {
    i.word < |words| && Has(words[i.word], i.pos)
  }

  /** Ascending session numbers. */
  predicate Before(i: Bit, j: Bit) { i.word < j.word || (i.word == j.word && i.pos < j.pos) }

  ghost predicate Ascending(s: seq<Bit>) { forall j, k :: 0 <= j < k < |s| ==> Before(s[j], s[k]) }

  /** Position of the lowest set bit. */
  method LowestBit(v: bv64) returns (b: bv64)
    requires v != 0
    ensures Has(v, b) && NoneBelow(v, b)
  {
    hide NoneBelow;
    b := 0;
    NoBitBelowZero(v);
    while !Has(v, b)
      invariant b < 64 && NoneBelow(v, b)
      decreases 64 - b
    {
      hide Has;
      NoneBelowNext(v, b);
      b := b + 1;
    }
  }

  /** The lowest set bit and the word without it. */
  method PopLowest(v: bv64) returns (b: bv64, rest: bv64)
    requires v != 0
    ensures b < 64 && rest < v
    ensures Has(v, b) && !Has(rest, b)
    ensures forall c :: c != b ==> (Has(rest, c) <==> Has(v, c))
    ensures forall c :: Has(rest, c) ==> b < c
  {
    hide Has, NoneBelow, Mask;
    b := LowestBit(v);
    rest := v & (v - 1);
    forall c: bv64
      ensures c != b ==> (Has(rest, c) <==> Has(v, c))
      ensures Has(rest, c) ==> b < c
      ensures Has(v, b) ==> b < 64
    {
      Popped(v, b, c);
    }
    LosesBit(v);
  }

  class DirtyMap {
    const words: array<bv64>

    constructor (sessions: nat)
      ensures fresh(words) && words.Length == (sessions + 63) / 64
      ensures forall i :: !Marked(words[..], i)
    {
      words := new bv64[(sessions + 63) / 64](_ => 0);
      new;
      forall i ensures !Marked(words[..], i) { ZeroHasNone(i.pos); }
    }

    method Mark(i: Bit)
      requires i.word < words.Length && i.pos < 64
      modifies words
      ensures forall j :: Marked(words[..], j) <==> j == i || Marked(old(words[..]), j)
    {
      words[i.word] := words[i.word] | Mask(i.pos);
      forall j: Bit | j.pos < 64 ensures Has(old(words[i.word]) | Mask(i.pos), j.pos)
                                    <==> j.pos == i.pos || Has(old(words[i.word]), j.pos)
      {
        AddBit(old(words[i.word]), i.pos, j.pos);
      }
      hide Mask;
    }

    /** Takes every word and visits each set bit once, in ascending order; nothing stays marked. */
    method Drain() returns (visited: seq<Bit>)
      modifies words
      ensures Ascending(visited)
      ensures forall i :: i in visited <==> Marked(old(words[..]), i)
      ensures forall i :: !Marked(words[..], i)
    {
      hide Mask, Has;
      visited := [];
      ghost var start := words[..];
      for w := 0 to words.Length
        invariant Ascending(visited)
        invariant forall i :: i in visited <==> i.word < w && Marked(start, i)
        invariant forall k :: 0 <= k < w ==> words[k] == 0
        invariant forall k :: w <= k < words.Length ==> words[k] == start[k]
      {
        var v := words[w];
        words[w] := 0;
        ghost var earlier := visited;
        forall c ensures !Has(0, c) { ZeroHasNone(c); }
        while v != 0
          invariant Ascending(visited)
          invariant forall i :: i in visited <==>
            (i.word < w && Marked(start, i)) || (i.word == w && Has(start[w], i.pos) && !Has(v, i.pos))
          invariant forall c :: Has(v, c) ==> Has(start[w], c)
          invariant forall i, c :: i in visited && Has(v, c) ==> Before(i, Bit(w, c))
          modifies {}
          decreases v
        {
          var b, rest := PopLowest(v);
          visited := visited + [Bit(w, b)];
          v := rest;
        }
      }
      forall i ensures !Marked(words[..], i) { ZeroHasNone(i.pos); }
    }
  }
}
