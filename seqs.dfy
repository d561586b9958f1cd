/** Facts about sequences that several proofs share. */
module Seqs {

  /** Concatenation regrouped: `p + (q + r)` is `(p + q) + r`. */
  lemma Regroup<X>(x: seq<X>, y: seq<X>, z: seq<X>, p: seq<X>, q: seq<X>, r: seq<X>)
    requires x == p + y && y == q + r && z == p + q
    ensures x == z + r
  {
  }

  /** The other way round: `(p + q) + r` is `p + (q + r)`. */
  lemma RegroupRight<X>(x: seq<X>, y: seq<X>, z: seq<X>, p: seq<X>, q: seq<X>, r: seq<X>)
    requires x == z + r && z == p + q && y == q + r
    ensures x == p + y
  {
  }
}
