/**
 * Byte strings and the plain write-at-offset update. Emulated physical
 * memory and VMO contents are both overwritten this way.
 */
module ByteSeq {

  /** `n` zero bytes: a freshly sized memory file or a new paged VMO. */
  function Zeros(n: nat): seq<bv8>
  {
    seq(n, _ => 0)
  }

  /** `m` with the bytes `[p, p + |b|)` replaced by `b`. */
  function Overwrite(m: seq<bv8>, p: nat, b: seq<bv8>): (r: seq<bv8>)
    requires p + |b| <= |m|
    ensures |r| == |m|
    ensures r[p..p + |b|] == b
    ensures forall i :: p <= i < p + |b| ==> r[i] == b[i - p]
    ensures forall i :: 0 <= i < |m| && !(p <= i < p + |b|) ==> r[i] == m[i]
  {
    m[..p] + b + m[p + |b|..]
  }

  /** Any sequence that agrees with `b` on `[p, p + |b|)` and with `m` elsewhere is `Overwrite(m, p, b)`. */
  lemma OverwriteUnique(m: seq<bv8>, p: nat, b: seq<bv8>, r: seq<bv8>)
    requires p + |b| <= |m| && |r| == |m|
    requires forall i :: p <= i < p + |b| ==> r[i] == b[i - p]
    requires forall i :: 0 <= i < |m| && !(p <= i < p + |b|) ==> r[i] == m[i]
    ensures r == Overwrite(m, p, b)
  {
    var w := Overwrite(m, p, b);
    assert forall i :: 0 <= i < |m| ==> r[i] == w[i];
  }
}
