/** One output sample of the mix: saturation, accumulation in priority order, and their accuracy. */
module Mixing {
  import opened Pcm

  /** AudioMixer::applySaturation. An overflow is folded back by half its excess. */
  function ApplySaturation(sample: real): real {
    if sample > 32767.0 then
      var folded := 32767.0 - (sample - 32767.0) * 0.5;
      if folded > 32767.0 then 32767.0 else folded
    else if sample < -32768.0 then
      var folded := -32768.0 + (-32768.0 - sample) * 0.5;
      if folded < -32768.0 then -32768.0 else folded
    else
      sample
  }

  predicate UnitVolume(volume: real) {
    0.0 <= volume <= 1.0
  }

  /** In-range values pass; a clipped value keeps its sign and stays loud and in range. */
  lemma SaturationKeepsCastsDefined(acc: int16, sample: int16, volume: real)
    requires UnitVolume(volume)
    ensures var x := acc as real + Scaled(sample, volume);
            var y := ApplySaturation(x);
            && -32768.0 <= y <= 32767.0
            && (-32768.0 <= x <= 32767.0 ==> y == x)
            && (x > 32767.0 ==> 16383.0 <= y <= 32767.0)
            && (x < -32768.0 ==> -32768.0 <= y <= -16383.0)
  {
    ScaledSampleBound(sample, volume);
  }

  function Scaled(sample: int16, volume: real): real {
    sample as real * volume
  }

  lemma ScaledSampleBound(sample: int16, volume: real)
    requires UnitVolume(volume)
    ensures Abs(Scaled(sample, volume)) <= Abs(sample as real) <= 32768.0
  {
    ScaleBound(sample as real, volume);
  }

  lemma ScaleBound(a: real, b: real)
    requires 0.0 <= b <= 1.0
    ensures Abs(a * b) <= Abs(a)
  {
    if a >= 0.0 {
      Shrinks(a, b);
    } else {
      var m := -a;
      Shrinks(m, b);
      assert m * b == -(a * b);
    }
  }

  lemma Shrinks(a: real, b: real)
    requires a >= 0.0 && 0.0 <= b <= 1.0
    ensures 0.0 <= a * b <= a
  {
    RealMulMono(a, b, 1.0);
    assert a * 1.0 == a;
  }

  lemma RealMulMono(a: real, b: real, c: real)
    requires a >= 0.0 && 0.0 <= b <= c
    ensures 0.0 <= a * b <= a * c
  {
  }

  /** The curve is not monotone: of two overflows, the louder input gives the quieter output. */
  lemma SaturationFoldsBack(x: real, y: real)
    requires 32767.0 < x < y
    ensures ApplySaturation(x) > ApplySaturation(y)
    ensures ApplySaturation(-x - 1.0) < ApplySaturation(-y - 1.0)
  {
  }

  /** Add a scaled sample, saturate, and cast back to 16 bits. */
  function Accumulate(acc: int16, term: real): int16
    requires -32768.0 <= term <= 32768.0
  {
    var x := ApplySaturation(acc as real + term);
    TruncInRange(x);
    Trunc(x)
  }

  function MixStep(acc: int16, sample: int16, volume: real): int16
    requires UnitVolume(volume)
  {
    ScaledSampleBound(sample, volume);
    Accumulate(acc, Scaled(sample, volume))
  }

  lemma MixStepIs(acc: int16, sample: int16, volume: real)
    requires UnitVolume(volume)
    ensures MixStep(acc, sample, volume) == Trunc(ApplySaturation(acc as real + Scaled(sample, volume)))
  {
    hide ApplySaturation, Trunc, Scaled;
  }

  lemma TruncInRange(x: real)
    requires -32768.0 <= x <= 32767.0
    ensures -32768 <= Trunc(x) < 32768
  {
  }

  /** What one unmuted channel adds to one output sample. */
  datatype Contribution = Contribution(sample: int16, volume: real)

  predicate AllUnit(cs: seq<Contribution>) {
    forall i :: 0 <= i < |cs| ==> UnitVolume(cs[i].volume)
  }

  function MixColumn(cs: seq<Contribution>): int16
    requires AllUnit(cs)
  {
    if |cs| == 0 then 0
    else
      var last := cs[|cs| - 1];
      MixStep(MixColumn(cs[..|cs| - 1]), last.sample, last.volume)
  }

  function Term(c: Contribution): real {
    Scaled(c.sample, c.volume)
  }

  function ExactSum(cs: seq<Contribution>): real {
    if |cs| == 0 then 0.0 else ExactSum(cs[..|cs| - 1]) + Term(cs[|cs| - 1])
  }

  function Loudness(cs: seq<Contribution>): real {
    if |cs| == 0 then 0.0 else Loudness(cs[..|cs| - 1]) + Abs(Term(cs[|cs| - 1]))
  }

  /** No step of the accumulation reaches the saturating branches. */
  predicate NoClipping(cs: seq<Contribution>)
    requires AllUnit(cs)
  {
    |cs| == 0 ||
    var before := MixColumn(cs[..|cs| - 1]) as real + Term(cs[|cs| - 1]);
    NoClipping(cs[..|cs| - 1]) && -32768.0 <= before <= 32767.0
  }

  lemma QuietStep(acc: int16, term: real, bound: real)
    requires Abs(acc as real) <= bound && bound + Abs(term) <= 32767.0
    ensures var x := acc as real + term;
            var y := Accumulate(acc, term);
            && -32768.0 <= x <= 32767.0 && Abs(y as real) <= bound + Abs(term)
            && Abs(y as real - x) < 1.0
  {
    hide Trunc;
    var x := acc as real + term;
    QuietSum(acc as real, term, bound);
    assert ApplySaturation(x) == x;
    TruncBounds(x);
  }

  lemma QuietSum(acc: real, term: real, bound: real)
    requires Abs(acc) <= bound && bound + Abs(term) <= 32767.0
    ensures -32768.0 <= acc + term <= 32767.0 && Abs(acc + term) <= bound + Abs(term)
  {
  }

  lemma StepIsAccumulate(acc: int16, c: Contribution)
    requires UnitVolume(c.volume)
    ensures -32768.0 <= Term(c) <= 32768.0
    ensures MixStep(acc, c.sample, c.volume) == Accumulate(acc, Term(c))
  {
    hide Scaled, Accumulate;
    ScaledSampleBound(c.sample, c.volume);
  }

  /** A quiet mix never clips and is off by less than one per contributing channel. */
  lemma {:induction false} QuietMixIsAccurate(cs: seq<Contribution>)
    requires AllUnit(cs) && Loudness(cs) <= 32767.0
    ensures NoClipping(cs)
    ensures Abs(MixColumn(cs) as real) <= Loudness(cs)
    ensures |cs| == 0 ==> MixColumn(cs) as real == ExactSum(cs)
    ensures |cs| > 0 ==> Abs(MixColumn(cs) as real - ExactSum(cs)) < |cs| as real
  {
    if |cs| > 0 {
      hide Accumulate, Term;
      var init, last := cs[..|cs| - 1], cs[|cs| - 1];
      QuietMixIsAccurate(init);
      StepIsAccumulate(MixColumn(init), last);
      QuietStep(MixColumn(init), Term(last), Loudness(init));
    }
  }

  function SampleSum(cs: seq<Contribution>): int {
    if |cs| == 0 then 0 else SampleSum(cs[..|cs| - 1]) + cs[|cs| - 1].sample
  }

  predicate FullVolume(cs: seq<Contribution>) {
    forall i :: 0 <= i < |cs| ==> cs[i].volume == 1.0
  }

  lemma FullVolumeStep(acc: int16, sample: int16)
    requires -32768 <= acc as int + sample as int <= 32767
    ensures MixStep(acc, sample, 1.0) as int == acc as int + sample as int
  {
    hide Trunc;
    var x := acc as real + Scaled(sample, 1.0);
    assert x == (acc as int + sample as int) as real && ApplySaturation(x) == x;
    TruncOfInt(acc as int + sample as int);
  }

  /** At full volume a quiet mix is the exact sum. */
  lemma {:induction false} FullVolumeMixIsExact(cs: seq<Contribution>)
    requires AllUnit(cs) && FullVolume(cs) && Loudness(cs) <= 32767.0
    ensures MixColumn(cs) == SampleSum(cs)
  {
    if |cs| > 0 {
      hide MixStep, NoClipping;
      var init, last := cs[..|cs| - 1], cs[|cs| - 1];
      FullVolumeMixIsExact(init);
      QuietMixIsAccurate(init);
      assert Term(last) == last.sample as real;
      FullVolumeStep(MixColumn(init), last.sample);
    }
  }

  /** A channel at volume zero leaves the accumulator alone, exactly like a muted one. */
  lemma SilentStep(acc: int16, sample: int16)
    ensures MixStep(acc, sample, 0.0) == acc
  {
    assert Scaled(sample, 0.0) == 0.0;
    TruncOfInt(acc);
  }

  lemma {:induction false} SilentContributionIsNeutral(a: seq<Contribution>, sample: int16, b: seq<Contribution>)
    requires AllUnit(a) && AllUnit(b)
    ensures AllUnit(a + [Contribution(sample, 0.0)] + b) && AllUnit(a + b)
    ensures MixColumn(a + [Contribution(sample, 0.0)] + b) == MixColumn(a + b)
  {
    var silent := Contribution(sample, 0.0);
    if |b| == 0 {
      assert a + [silent] + b == a + [silent] && a + b == a;
      assert (a + [silent])[..|a|] == a;
      SilentStep(MixColumn(a), sample);
    } else {
      var init := b[..|b| - 1];
      SilentContributionIsNeutral(a, sample, init);
      var whole, without := a + [silent] + b, a + b;
      assert whole[..|whole| - 1] == a + [silent] + init;
      assert without[..|without| - 1] == a + init;
    }
  }

  // ----- order -----

  function Without<T>(s: seq<T>, i: nat): seq<T>
    requires i < |s|
  {
    s[..i] + s[i + 1..]
  }

  lemma {:induction false} SumWithout(cs: seq<Contribution>, i: nat)
    requires i < |cs|
    ensures ExactSum(cs) == ExactSum(Without(cs, i)) + Term(cs[i])
    ensures Loudness(cs) == Loudness(Without(cs, i)) + Abs(Term(cs[i]))
  {
    hide Term, Abs;
    var n := |cs| - 1;
    if i == n {
      assert Without(cs, i) == cs[..n];
    } else {
      SumWithout(cs[..n], i);
      var rest := Without(cs, i);
      assert rest[..|rest| - 1] == Without(cs[..n], i);
    }
  }

  /** The exact sum and the loudness do not depend on the order. */
  lemma {:induction false} SumOfPermutation(a: seq<Contribution>, b: seq<Contribution>)
    requires multiset(a) == multiset(b)
    ensures |a| == |b| && ExactSum(a) == ExactSum(b) && Loudness(a) == Loudness(b)
  {
    if |a| == 0 {
      EmptyMultiset(b);
    } else {
      hide Term, Abs;
      var n := |a| - 1;
      var i := FindLast(a, b);
      SumOfPermutation(a[..n], Without(b, i));
      SumWithout(b, i);
    }
  }

  lemma FindLast<T>(a: seq<T>, b: seq<T>) returns (i: nat)
    requires |a| > 0 && multiset(a) == multiset(b)
    ensures i < |b| && b[i] == a[|a| - 1] && multiset(a[..|a| - 1]) == multiset(Without(b, i))
  {
    var n := |a| - 1;
    WithoutLosesOne(a, n);
    assert Without(a, n) == a[..n];
    assert a[n] in multiset(b);
    i :| 0 <= i < |b| && b[i] == a[n];
    WithoutLosesOne(b, i);
  }

  lemma WithoutLosesOne<T>(s: seq<T>, i: nat)
    requires i < |s|
    ensures multiset(Without(s, i)) == multiset(s) - multiset{s[i]}
  {
    assert s == s[..i] + ([s[i]] + s[i + 1..]);
  }

  lemma EmptyMultiset(b: seq<Contribution>)
    requires multiset(b) == multiset{}
    ensures b == []
  {
    assert |multiset(b)| == |b|;
  }

  lemma UnitPermutes(a: seq<Contribution>, b: seq<Contribution>)
    requires multiset(a) == multiset(b) && AllUnit(a)
    ensures AllUnit(b)
  {
    forall i | 0 <= i < |b| ensures UnitVolume(b[i].volume) {
      assert b[i] in multiset(a);
    }
  }

  /** Whatever order the priorities produce, a quiet mix stays within the same bound of the
      same exact sum, so two orders differ by less than twice the number of channels. */
  lemma QuietOrdersAgreeClosely(a: seq<Contribution>, b: seq<Contribution>)
    requires multiset(a) == multiset(b) && AllUnit(a) && Loudness(a) <= 32767.0
    ensures AllUnit(b) && |b| == |a|
    ensures |a| == 0 ==> MixColumn(b) == MixColumn(a)
    ensures |a| > 0 ==> Abs(MixColumn(b) as real - ExactSum(a)) < |a| as real
    ensures |a| > 0 ==> Abs(MixColumn(a) as real - MixColumn(b) as real) < 2.0 * |a| as real
  {
    hide MixColumn, ExactSum, Loudness, NoClipping;
    UnitPermutes(a, b);
    SumOfPermutation(a, b);
    assert a == [] ==> b == [];
    QuietMixIsAccurate(a);
    QuietMixIsAccurate(b);
  }

  lemma {:induction false} FullVolumeSum(cs: seq<Contribution>)
    requires FullVolume(cs)
    ensures ExactSum(cs) == SampleSum(cs) as real
  {
    if |cs| > 0 {
      FullVolumeSum(cs[..|cs| - 1]);
    }
  }

  lemma FullVolumePermutes(a: seq<Contribution>, b: seq<Contribution>)
    requires multiset(a) == multiset(b) && FullVolume(a)
    ensures FullVolume(b)
  {
    forall i | 0 <= i < |b| ensures b[i].volume == 1.0 {
      assert b[i] in multiset(a);
    }
  }

  /** At full volume the order is irrelevant: every order of a quiet mix gives the same sample. */
  lemma FullVolumeMixIgnoresOrder(a: seq<Contribution>, b: seq<Contribution>)
    requires multiset(a) == multiset(b) && AllUnit(a) && FullVolume(a) && Loudness(a) <= 32767.0
    ensures AllUnit(b) && MixColumn(a) == MixColumn(b)
  {
    hide MixColumn, ExactSum, SampleSum, Loudness;
    UnitPermutes(a, b);
    FullVolumePermutes(a, b);
    SumOfPermutation(a, b);
    FullVolumeSum(a);
    FullVolumeSum(b);
    FullVolumeMixIsExact(a);
    FullVolumeMixIsExact(b);
  }

  /** Below full volume it is not, however quiet the mix: every step cuts off its own fraction. */
  lemma QuietMixDependsOnOrder()
    ensures var up, down := Contribution(3, 0.5), Contribution(-7, 0.1);
            && AllUnit([up, down]) && AllUnit([down, up])
            && MixColumn([up, down]) == 0 && MixColumn([down, up]) == 1
  {
    var up, down := Contribution(3, 0.5), Contribution(-7, 0.1);
    assert [up, down][..1] == [up] && [up][..0] == [] && [down, up][..1] == [down] && [down][..0] == [];
    assert MixColumn([up]) == 1;
    assert MixColumn([down]) == 0;
  }

  /** A loud mix depends on it even at full volume. */
  lemma LoudMixDependsOnOrder()
    ensures var loud, cut := Contribution(32767, 1.0), Contribution(-32767, 1.0);
            && AllUnit([loud, loud, cut]) && AllUnit([loud, cut, loud])
            && MixColumn([loud, loud, cut]) == -16384 && MixColumn([loud, cut, loud]) == 32767
  {
    var loud, cut := Contribution(32767, 1.0), Contribution(-32767, 1.0);
    assert [loud, loud, cut][..2] == [loud, loud] && [loud, loud][..1] == [loud] && [loud][..0] == [];
    assert [loud, cut, loud][..2] == [loud, cut] && [loud, cut][..1] == [loud];
    assert MixColumn([loud]) == 32767;
    assert MixColumn([loud, loud]) == 16383;
    assert MixColumn([loud, cut]) == 0;
  }
}
