/** Averages in which every new value leaves a share of the old average, written
    out as weighted sums. */
module Averages {

  /** What is left of a value once the shares from number `i` on are taken. */
  ghost function Left(hs: seq<real>, i: nat): real
    requires i <= |hs|
  {
    if i == |hs| then 1.0 else hs[|hs| - 1] * Left(hs[..|hs| - 1], i)
  }

  /** The weight of value number `i`: its own part, as far as it is left. */
  ghost function ValueWeight(hs: seq<real>, i: nat): real
    requires i < |hs|
  {
    (1.0 - hs[i]) * Left(hs, i + 1)
  }

  ghost function Term(hs: seq<real>, zs: seq<real>, i: nat): real
    requires i < |hs| == |zs|
  {
    ValueWeight(hs, i) * zs[i]
  }

  ghost function WeightedValues(hs: seq<real>, zs: seq<real>, k: nat): real
    requires k <= |hs| == |zs|
  {
    if k == 0 then 0.0 else WeightedValues(hs, zs, k - 1) + Term(hs, zs, k - 1)
  }

  /** The start, as far as it is left, plus the weighted values. */
  ghost function Blend(hs: seq<real>, x: real, zs: seq<real>): real
    requires |hs| == |zs|
  {
    Left(hs, 0) * x + WeightedValues(hs, zs, |hs|)
  }

  lemma LeftSnoc(hs: seq<real>, h: real, i: nat)
    requires i <= |hs|
    ensures Left(hs + [h], i) == h * Left(hs, i)
  {
    assert (hs + [h])[..|hs|] == hs;
  }

  lemma Scaled(h: real, a: real, b: real, z: real)
    ensures (a * (h * b)) * z == h * ((a * b) * z)
  {
  }

  lemma Distributes(h: real, a: real, b: real)
    ensures h * (a + b) == h * a + h * b
  {
  }

  lemma TermSnoc(hs: seq<real>, h: real, zs: seq<real>, z: real, i: nat)
    requires i < |hs| == |zs|
    ensures Term(hs + [h], zs + [z], i) == h * Term(hs, zs, i)
  {
    LeftSnoc(hs, h, i + 1);
    Scaled(h, 1.0 - hs[i], Left(hs, i + 1), zs[i]);
  }

  /** One more value shrinks every earlier weight by the same share. */
  lemma {:induction false} ValuesSnoc(hs: seq<real>, h: real, zs: seq<real>, z: real, k: nat)
    requires k <= |hs| == |zs|
    ensures WeightedValues(hs + [h], zs + [z], k) == h * WeightedValues(hs, zs, k)
  {
    if k > 0 {
      ValuesSnoc(hs, h, zs, z, k - 1);
      TermSnoc(hs, h, zs, z, k - 1);
      Distributes(h, WeightedValues(hs, zs, k - 1), Term(hs, zs, k - 1));
    }
  }

  lemma LastWeight(hs: seq<real>, h: real)
    ensures ValueWeight(hs + [h], |hs|) == 1.0 - h
  {
  }

  lemma BlendForm(h: real, k: real, x: real, w: real, z: real)
    ensures h * (k * x + w) + (1.0 - h) * z == (h * k) * x + (h * w + (1.0 - h) * z)
  {
  }

  /** A new value enters the average with what the old one does not keep. */
  lemma BlendSnoc(hs: seq<real>, h: real, x: real, zs: seq<real>, z: real)
    requires |hs| == |zs|
    ensures Blend(hs + [h], x, zs + [z]) == h * Blend(hs, x, zs) + (1.0 - h) * z
  {
    LeftSnoc(hs, h, 0);
    ValuesSnoc(hs, h, zs, z, |hs|);
    LastWeight(hs, h);
    BlendForm(h, Left(hs, 0), x, WeightedValues(hs, zs, |hs|), z);
  }

  /** Equal values average to themselves: the weights add up to one. */
  lemma {:induction false} WeightsSumToOne(hs: seq<real>, zs: seq<real>, x: real)
    requires |hs| == |zs| && forall i | 0 <= i < |zs| :: zs[i] == x
    ensures Blend(hs, x, zs) == x
  {
    if hs != [] {
      var n := |hs| - 1;
      WeightsSumToOne(hs[..n], zs[..n], x);
      assert hs[..n] + [hs[n]] == hs && zs[..n] + [zs[n]] == zs;
      BlendSnoc(hs[..n], hs[n], x, zs[..n], zs[n]);
    }
  }
}
