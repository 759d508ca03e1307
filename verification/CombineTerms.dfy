/** Combining the rate ceilings of one subscriber into an estimate and the term
    that binds it (src/bwe/subscriber.rs). The only place where NaN matters. */
module CombineTerms {
  import opened Basics

  /** A double, as far as ordering and NaN go. */
  datatype Float = NaN | Num(value: real)

  datatype BindingTerm = ByDelay | ByLoss | ByNative | ByGoogCc | ByHint

  datatype Ceiling = Ceiling(value: Float, term: BindingTerm)

  predicate Less(a: Float, b: Float) {
    a.Num? && b.Num? && a.value < b.value
  }

  /** `f64::min`: a NaN operand is discarded. */
  function FloatMin(a: Float, b: Float): Float {
    if a.NaN? then b
    else if b.NaN? then a
    else Num(RealMin(a.value, b.value))
  }

  /** `best.max(0.0)`: never NaN, never negative. */
  function AtLeastZero(a: Float): (r: real)
    ensures r >= 0.0
  {
    if a.NaN? then 0.0 else RealMax(a.value, 0.0)
  }

  function Optional(v: Option<Float>, term: BindingTerm): seq<Ceiling> {
    if v.None? then [] else [Ceiling(v.value, term)]
  }

  /** The terms that are present, in the order they are applied. */
  function Present(delay: Float, loss: Float, native: Option<Float>, googcc: Option<Float>,
                   hint: Option<Float>): (cs: seq<Ceiling>)
    ensures cs != []
  {
    [Ceiling(delay, ByDelay), Ceiling(loss, ByLoss)]
    + Optional(native, ByNative) + Optional(googcc, ByGoogCc) + Optional(hint, ByHint)
  }

  /** The hand-written chain that the argmin version replaced. */
  function MinChain(delay: Float, loss: Float, native: Option<Float>, googcc: Option<Float>,
                    hint: Option<Float>): real
  {
    var a := FloatMin(delay, loss);
    var b := if native.None? then a else FloatMin(a, native.value);
    var c := if googcc.None? then b else FloatMin(b, googcc.value);
    var d := if hint.None? then c else FloatMin(c, hint.value);
    AtLeastZero(d)
  }

  /** One step of the argmin: strictly smaller, or anything instead of NaN. */
  function Tighter(best: Ceiling, cand: Ceiling): Ceiling {
    if best.value.NaN? || Less(cand.value, best.value) then cand else best
  }

  function Binding(cs: seq<Ceiling>): Ceiling
    requires cs != []
  {
    if |cs| == 1 then cs[0]
    else Tighter(Binding(cs[..|cs| - 1]), cs[|cs| - 1])
  }

  function Estimate(cs: seq<Ceiling>): (bps: real)
    requires cs != []
    ensures bps >= 0.0
  {
    AtLeastZero(Binding(cs).value)
  }

  ghost predicate SomeNumber(cs: seq<Ceiling>) {
    exists i :: 0 <= i < |cs| && cs[i].value.Num?
  }

  /** `cs[k]` is a minimum, and the earliest one. */
  ghost predicate Wins(cs: seq<Ceiling>, k: nat) {
    && k < |cs| && cs[k].value.Num?
    && (forall j | 0 <= j < |cs| :: !Less(cs[j].value, cs[k].value))
    && (forall j | 0 <= j < k && cs[j].value.Num? :: Less(cs[k].value, cs[j].value))
  }

  lemma {:induction false} BindingNumber(cs: seq<Ceiling>)
    requires cs != []
    ensures Binding(cs).value.Num? <==> SomeNumber(cs)
  {
    if |cs| > 1 {
      var f := cs[..|cs| - 1];
      BindingNumber(f);
      if SomeNumber(f) {
        var i :| 0 <= i < |f| && f[i].value.Num?;
        assert cs[i].value.Num?;
      }
    }
  }

  /** When any present term is a number, the reported term is the earliest one
      attaining the minimum of the numbers. */
  lemma {:induction false} BindingIsEarliestMinimum(cs: seq<Ceiling>) returns (k: nat)
    requires cs != [] && SomeNumber(cs)
    ensures Wins(cs, k) && Binding(cs) == cs[k]
  {
    var n := |cs| - 1;
    var f := cs[..n];
    if n == 0 {
      k := 0;
    } else {
      BindingNumber(f);
      if !SomeNumber(f) {
        forall j | 0 <= j < n ensures cs[j].value.NaN? {
          assert f[j] == cs[j];
        }
        k := n;
      } else {
        var m := BindingIsEarliestMinimum(f);
        assert forall j | 0 <= j < n :: cs[j] == f[j];
        k := if Less(cs[n].value, cs[m].value) then n else m;
      }
    }
  }

  /** When no present term is a number, the estimate is zero and the last present
      term is blamed. */
  lemma {:induction false} AllNaNBlamesLast(cs: seq<Ceiling>)
    requires cs != [] && !SomeNumber(cs)
    ensures Estimate(cs) == 0.0 && Binding(cs) == cs[|cs| - 1]
  {
    BindingNumber(cs);
    if |cs| > 1 {
      var f := cs[..|cs| - 1];
      forall i | 0 <= i < |f| ensures f[i].value.NaN? {
        assert f[i] == cs[i];
        assert cs[i].value.NaN?;
      }
      AllNaNBlamesLast(f);
    }
  }

  lemma BindingSnoc(cs: seq<Ceiling>, v: Option<Float>, term: BindingTerm)
    requires cs != []
    ensures Binding(cs + Optional(v, term)).value ==
            if v.None? then Binding(cs).value else FloatMin(Binding(cs).value, v.value)
  {
    var ext := cs + Optional(v, term);
    if v.Some? {
      assert ext[..|ext| - 1] == cs;
    } else {
      assert ext == cs;
    }
  }

  /** The argmin version computes the original chain for all inputs, NaN and
      absent terms included. */
  lemma EstimateIsMinChain(delay: Float, loss: Float, native: Option<Float>, googcc: Option<Float>,
                           hint: Option<Float>)
    ensures Estimate(Present(delay, loss, native, googcc, hint))
            == MinChain(delay, loss, native, googcc, hint)
  {
    var two := [Ceiling(delay, ByDelay), Ceiling(loss, ByLoss)];
    assert two[..1] == [Ceiling(delay, ByDelay)];
    assert Binding(two).value == FloatMin(delay, loss);
    BindingSnoc(two, native, ByNative);
    var three := two + Optional(native, ByNative);
    BindingSnoc(three, googcc, ByGoogCc);
    BindingSnoc(three + Optional(googcc, ByGoogCc), hint, ByHint);
  }

  // ------------------------------------------------- adding one more ceiling

  function Inserted(cs: seq<Ceiling>, i: nat, c: Ceiling): (r: seq<Ceiling>)
    requires i <= |cs|
    ensures |r| == |cs| + 1 && r[i] == c
    ensures forall j | 0 <= j < i :: r[j] == cs[j]
    ensures forall j | i <= j < |cs| :: r[j + 1] == cs[j]
  {
    cs[..i] + [c] + cs[i..]
  }

  lemma WinnerBounds(cs: seq<Ceiling>, j: nat)
    requires j < |cs| && cs[j].value.Num?
    ensures Estimate(cs) <= AtLeastZero(cs[j].value)
  {
    assert SomeNumber(cs);
    var k := BindingIsEarliestMinimum(cs);
    assert !Less(cs[j].value, cs[k].value);
  }

  /** An additional ceiling lowers the estimate or leaves it, unless it is the
      first number among NaNs: then it lifts the estimate from zero. */
  lemma AddingCeilingNeverRaisesIff(cs: seq<Ceiling>, i: nat, c: Ceiling)
    requires cs != [] && i <= |cs|
    ensures Estimate(Inserted(cs, i, c)) <= Estimate(cs) <==>
            SomeNumber(cs) || c.value.NaN? || c.value.value <= 0.0
  {
    var r := Inserted(cs, i, c);
    if SomeNumber(cs) {
      var k := BindingIsEarliestMinimum(cs);
      var k' := if k < i then k else k + 1;
      assert r[k'] == cs[k];
      WinnerBounds(r, k');
    } else {
      AllNaNBlamesLast(cs);
      assert forall j | 0 <= j < |cs| :: cs[j].value.NaN?;
      assert forall j | 0 <= j < |r| && j != i :: r[j].value.NaN? by {
        assert forall j | i < j < |r| :: r[j] == cs[j - 1];
      }
      if c.value.NaN? {
        AllNaNBlamesLast(r);
      } else {
        assert r[i].value.Num?;
        var k := BindingIsEarliestMinimum(r);
        assert k == i;
      }
    }
  }

  /** With both rate estimators numbers, as they always are in a subscriber, no
      further ceiling raises the estimate. */
  lemma CeilingsOnlyLower(d: real, l: real, native: Option<Float>, googcc: Option<Float>,
                          hint: Option<Float>)
    ensures var all := Estimate(Present(Num(d), Num(l), native, googcc, hint));
            && all <= Estimate(Present(Num(d), Num(l), None, googcc, hint))
            && all <= Estimate(Present(Num(d), Num(l), native, None, hint))
            && all <= Estimate(Present(Num(d), Num(l), native, googcc, None))
  {
    EstimateIsMinChain(Num(d), Num(l), native, googcc, hint);
    EstimateIsMinChain(Num(d), Num(l), None, googcc, hint);
    EstimateIsMinChain(Num(d), Num(l), native, None, hint);
    EstimateIsMinChain(Num(d), Num(l), native, googcc, None);
    var base := FloatMin(Num(d), Num(l));
    ChainDrops(base.value, native, googcc, hint);
  }

  function ChainFrom(base: real, native: Option<Float>, googcc: Option<Float>, hint: Option<Float>): real {
    var b := Capped(base, native);
    var c := Capped(b, googcc);
    Capped(c, hint)
  }

  function Capped(x: real, v: Option<Float>): (r: real)
    ensures r <= x
  {
    if v.None? || v.value.NaN? then x else RealMin(x, v.value.value)
  }

  lemma ChainDrops(base: real, native: Option<Float>, googcc: Option<Float>, hint: Option<Float>)
    ensures var all := ChainFrom(base, native, googcc, hint);
            && all <= ChainFrom(base, None, googcc, hint)
            && all <= ChainFrom(base, native, None, hint)
            && all <= ChainFrom(base, native, googcc, None)
  {
  }

  /** The failing family is not empty: two NaN estimators and one ceiling. */
  lemma CeilingCanRaiseFromNaN()
    ensures Estimate(Present(NaN, NaN, None, None, None)) == 0.0
    ensures Estimate(Present(NaN, NaN, Some(Num(40_000.0)), None, None)) == 40_000.0
  {
    EstimateIsMinChain(NaN, NaN, None, None, None);
    EstimateIsMinChain(NaN, NaN, Some(Num(40_000.0)), None, None);
  }

  /** The source's loop-free chain over local `best` and `term`. */
  method Combine(delay: Float, loss: Float, native: Option<Float>, googcc: Option<Float>,
                 hint: Option<Float>)
    returns (bps: real, term: BindingTerm)
    ensures bps == MinChain(delay, loss, native, googcc, hint)
    ensures term == Binding(Present(delay, loss, native, googcc, hint)).term
    ensures bps == Estimate(Present(delay, loss, native, googcc, hint))
  {
    EstimateIsMinChain(delay, loss, native, googcc, hint);
    var best := delay;
    term := ByDelay;
    ghost var seen := [Ceiling(delay, ByDelay)];
    best, term, seen := MinUpdate(best, term, loss, ByLoss, seen);
    if native.Some? {
      best, term, seen := MinUpdate(best, term, native.value, ByNative, seen);
    }
    if googcc.Some? {
      best, term, seen := MinUpdate(best, term, googcc.value, ByGoogCc, seen);
    }
    if hint.Some? {
      best, term, seen := MinUpdate(best, term, hint.value, ByHint, seen);
    }
    assert seen == Present(delay, loss, native, googcc, hint);
    bps := AtLeastZero(best);
  }

  method MinUpdate(best: Float, term: BindingTerm, cand: Float, candTerm: BindingTerm,
                   ghost seen: seq<Ceiling>)
    returns (best': Float, term': BindingTerm, ghost seen': seq<Ceiling>)
    requires seen != [] && Binding(seen) == Ceiling(best, term)
    ensures seen' == seen + [Ceiling(cand, candTerm)]
    ensures Binding(seen') == Ceiling(best', term')
  {
    best', term' := best, term;
    if best.NaN? || Less(cand, best) {
      best', term' := cand, candTerm;
    }
    seen' := seen + [Ceiling(cand, candTerm)];
    assert seen'[..|seen|] == seen;
  }
}
