/** What one mixing pass does to the channel queues, as a relation between states. */
module MixerState {
  import opened Bytes
  import opened Pcm
  import opened FormatConversion
  import opened Mixing

  datatype ChannelId = Media | System | Speech | Telephony

  /** QMap iterates its keys in this order. */
  const ALL_CHANNELS: seq<ChannelId> := [Media, System, Speech, Telephony]

  datatype ChannelConfig =
    ChannelConfig(volume: real, muted: bool, priority: int, format: AudioFormat)

  datatype Channel = Channel(config: ChannelConfig, buffer: seq<byte>, active: bool)

  type Channels = map<ChannelId, Channel>

  predicate Participates(c: Channel) {
    c.active && |c.buffer| > 0
  }

  predicate UnitVolumes(channels: Channels) {
    forall id :: id in channels ==> UnitVolume(channels[id].config.volume)
  }

  function FrameBytes(format: AudioFormat): int {
    2 * format.channels
  }

  /** n is the length of the shortest non-empty active queue. */
  ghost predicate IsShortest(channels: Channels, n: nat) {
    && (exists id :: id in channels && Participates(channels[id]) && |channels[id].buffer| == n)
    && forall id :: id in channels && Participates(channels[id]) ==> n <= |channels[id].buffer|
  }

  ghost predicate NobodyParticipates(channels: Channels) {
    forall id :: id in channels ==> !Participates(channels[id])
  }

  /** The participants, highest priority first; ties in any order, as std::sort leaves them. */
  ghost predicate IsMixingOrder(channels: Channels, order: seq<ChannelId>) {
    && (forall id :: id in order <==> id in channels && Participates(channels[id]))
    && (forall i, j :: 0 <= i < j < |order| ==> order[i] != order[j])
    && (forall i, j :: 0 <= i < j < |order| ==>
          channels[order[i]].config.priority >= channels[order[j]].config.priority)
  }

  /** Every listed channel holds a sample i. */
  predicate Covers(channels: Channels, order: seq<ChannelId>, i: nat) {
    forall id :: id in order ==> id in channels && i < |channels[id].buffer| / 2
  }

  function EffectiveVolume(config: ChannelConfig, master: real): real {
    config.volume * master
  }

  lemma UnitProduct(a: real, b: real)
    requires UnitVolume(a) && UnitVolume(b)
    ensures UnitVolume(a * b)
  {
    var c := 1.0 - b;
    NonNegativeProduct(a, b);
    NonNegativeProduct(a, c);
    assert a * b + a * c == a;
  }

  lemma NonNegativeProduct(a: real, b: real)
    requires a >= 0.0 && b >= 0.0
    ensures a * b >= 0.0
  {
  }

  lemma EffectiveVolumeIsUnit(config: ChannelConfig, master: real)
    requires UnitVolume(config.volume) && UnitVolume(master)
    ensures UnitVolume(EffectiveVolume(config, master))
  {
    UnitProduct(config.volume, master);
  }

  /** What a channel adds to sample i: nothing when muted. */
  function Share(c: Channel, master: real, i: nat): seq<Contribution>
    requires i < |c.buffer| / 2
  {
    if c.config.muted then [] else [Contribution(Samples(c.buffer)[i], EffectiveVolume(c.config, master))]
  }

  /** The contributions to sample i, in mixing order. */
  function Column(channels: Channels, master: real, order: seq<ChannelId>, i: nat): seq<Contribution>
    requires Covers(channels, order, i)
  {
    if |order| == 0 then []
    else
      Column(channels, master, order[..|order| - 1], i) + Share(channels[order[|order| - 1]], master, i)
  }

  lemma ShareIsUnit(c: Channel, master: real, i: nat)
    requires i < |c.buffer| / 2 && UnitVolume(c.config.volume) && UnitVolume(master)
    ensures AllUnit(Share(c, master, i))
  {
    hide Samples, EffectiveVolume;
    EffectiveVolumeIsUnit(c.config, master);
  }

  lemma UnitConcat(a: seq<Contribution>, b: seq<Contribution>)
    requires AllUnit(a) && AllUnit(b)
    ensures AllUnit(a + b)
  {
  }

  lemma {:induction false} ColumnIsUnit(channels: Channels, master: real, order: seq<ChannelId>, i: nat)
    requires Covers(channels, order, i) && UnitVolumes(channels) && UnitVolume(master)
    ensures AllUnit(Column(channels, master, order, i))
  {
    if |order| > 0 {
      hide Share;
      var init, last := order[..|order| - 1], channels[order[|order| - 1]];
      ColumnIsUnit(channels, master, init, i);
      ShareIsUnit(last, master, i);
      UnitConcat(Column(channels, master, init, i), Share(last, master, i));
    }
  }

  /** The queues after length bytes of every participant have been mixed. */
  function Drained(channels: Channels, length: nat): Channels
    requires forall id :: id in channels && Participates(channels[id]) ==> length <= |channels[id].buffer|
  {
    map id | id in channels ::
      var c := channels[id];
      if Participates(c) then c.(buffer := c.buffer[length..], active := |c.buffer| > length) else c
  }

  ghost predicate MixedBlock(channels: Channels, master: real, order: seq<ChannelId>, out: seq<byte>)
    requires UnitVolumes(channels) && UnitVolume(master)
    requires forall id :: id in order ==> id in channels && |out| <= |channels[id].buffer|
  {
    forall i :: 0 <= i < |out| / 2 ==>
      AllUnit(Column(channels, master, order, i)) && Samples(out)[i] == MixColumn(Column(channels, master, order, i))
  }

  /** One pass that emits: how much, what, and what is left. */
  ghost predicate Emission(channels: Channels, format: AudioFormat, master: real, order: seq<ChannelId>,
                           shortest: nat, after: Channels, out: seq<byte>)
    requires Usable(format)
  {
    && UnitVolumes(channels) && UnitVolume(master)
    && IsShortest(channels, shortest) && IsMixingOrder(channels, order)
    && |out| == shortest / FrameBytes(format) * FrameBytes(format) && 0 < |out| <= shortest
    && after == Drained(channels, |out|)
    && MixedBlock(channels, master, order, out)
  }

  /** One pass that emits nothing: no queue to mix, or not yet a whole frame. */
  ghost predicate NoEmission(channels: Channels, format: AudioFormat)
    requires Usable(format)
  {
    NobodyParticipates(channels) ||
    exists n: nat :: IsShortest(channels, n) && n < FrameBytes(format)
  }

  /** One pass of mixBuffers, whether or not it emits. */
  ghost predicate Pass(channels: Channels, format: AudioFormat, master: real, mixed: bool, order: seq<ChannelId>,
                       shortest: nat, after: Channels, out: seq<byte>)
    requires Usable(format)
  {
    if mixed then Emission(channels, format, master, order, shortest, after, out)
    else NoEmission(channels, format) && after == channels
  }

  // ----- consequences -----

  /** The first channel mixed is one of highest priority, the last one of lowest. */
  lemma HighestPriorityFirst(channels: Channels, order: seq<ChannelId>, id: ChannelId)
    requires IsMixingOrder(channels, order) && id in channels && Participates(channels[id])
    ensures |order| > 0
    ensures channels[order[0]].config.priority >= channels[id].config.priority
                                               >= channels[order[|order| - 1]].config.priority
  {
    assert id in order;
    var k :| 0 <= k < |order| && order[k] == id;
    assert order[0] in order && order[|order| - 1] in order;
  }

  /** The second size filter of mixBuffers selects exactly the channels counted in the minimum. */
  lemma SecondFilterKeepsParticipants(channels: Channels, shortest: nat, length: nat)
    requires IsShortest(channels, shortest) && 0 < length <= shortest
    ensures forall id :: id in channels ==>
              (channels[id].active && |channels[id].buffer| >= length <==> Participates(channels[id]))
  {
  }

  /** Every channel that held data, muted or not, gives up exactly the emitted length. */
  lemma EmissionDrainsEqually(channels: Channels, format: AudioFormat, master: real, order: seq<ChannelId>,
                              shortest: nat, after: Channels, out: seq<byte>, id: ChannelId)
    requires Usable(format) && Emission(channels, format, master, order, shortest, after, out)
    requires id in channels
    ensures id in after && after[id].config == channels[id].config
    ensures channels[id].buffer ==
            (if Participates(channels[id]) then channels[id].buffer[..|out|] else []) + after[id].buffer
  {
    var b := channels[id].buffer;
    if Participates(channels[id]) {
      assert b == b[..|out|] + b[|out|..];
    }
  }

  /** Every queue is a whole number of frames, and inactive queues are empty. */
  predicate WholeFrames(channels: Channels, format: AudioFormat)
    requires Usable(format)
  {
    forall id :: id in channels ==>
      |channels[id].buffer| % FrameBytes(format) == 0 && (channels[id].active || channels[id].buffer == [])
  }

  lemma WholeDivision(n: nat, d: int)
    requires d > 0 && n % d == 0
    ensures n / d * d == n
  {
  }

  lemma WholeDifference(a: nat, b: nat, d: int)
    requires d > 0 && a % d == 0 && b % d == 0 && b <= a
    ensures (a - b) % d == 0
  {
    var p, q := a / d, b / d;
    WholeDivision(a, d);
    WholeDivision(b, d);
    assert a - b == (p - q) * d;
    if p < q { LessMul(p + 1, q, d); }
    QuotientIs(a - b, d, p - q);
  }

  /** With whole frames a pass cannot stall: it emits the shortest queue entirely and
      leaves that channel drained and inactive. */
  lemma WholeFrameProgress(channels: Channels, format: AudioFormat, master: real, order: seq<ChannelId>,
                           shortest: nat, after: Channels, out: seq<byte>)
    requires Usable(format) && Emission(channels, format, master, order, shortest, after, out)
    requires WholeFrames(channels, format)
    ensures |out| == shortest && WholeFrames(after, format) && after.Keys == channels.Keys
    ensures forall id :: id in channels && |channels[id].buffer| == shortest ==>
              after[id].buffer == [] && !after[id].active
  {
    hide IsMixingOrder, MixedBlock;
    WholeDivision(shortest, FrameBytes(format));
    forall id | id in after
      ensures |after[id].buffer| % FrameBytes(format) == 0 && (after[id].active || after[id].buffer == [])
    {
      if Participates(channels[id]) {
        WholeDifference(|channels[id].buffer|, shortest, FrameBytes(format));
      }
    }
  }

  lemma WholeFramesNeverStall(channels: Channels, format: AudioFormat)
    requires Usable(format) && WholeFrames(channels, format) && NoEmission(channels, format)
    ensures forall id :: id in channels ==> channels[id].buffer == []
  {
    if !NobodyParticipates(channels) {
      var n: nat :| IsShortest(channels, n) && n < FrameBytes(format);
      var q :| q in channels && Participates(channels[q]) && |channels[q].buffer| == n;
      SmallRemainder(n, FrameBytes(format));
      assert false;
    }
  }

  lemma SmallRemainder(n: nat, d: int)
    requires n < d && n % d == 0
    ensures n == 0
  {
  }

  // ----- accuracy of a block -----

  lemma {:induction false} ColumnPermutes(channels: Channels, master: real, a: seq<ChannelId>, b: seq<ChannelId>,
                                          i: nat)
    requires multiset(a) == multiset(b)
    requires Covers(channels, a, i)
    ensures Covers(channels, b, i)
    ensures multiset(Column(channels, master, a, i)) == multiset(Column(channels, master, b, i))
  {
    hide Share;
    forall id | id in b ensures id in channels && i < |channels[id].buffer| / 2 {
      assert id in multiset(a);
    }
    if |a| == 0 {
      assert |multiset(b)| == |b|;
    } else {
      var k := FindLast(a, b);
      ColumnPermutes(channels, master, a[..|a| - 1], Without(b, k), i);
      ColumnWithout(channels, master, b, k, i);
    }
  }

  lemma CoversWithout(channels: Channels, order: seq<ChannelId>, k: nat, i: nat)
    requires k < |order| && Covers(channels, order, i)
    ensures Covers(channels, Without(order, k), i) && Covers(channels, order[..|order| - 1], i)
    ensures order[k] in channels && i < |channels[order[k]].buffer| / 2
  {
    assert order[k] in order;
    forall id | id in Without(order, k) ensures id in order {
      var j :| 0 <= j < |Without(order, k)| && Without(order, k)[j] == id;
      assert id == if j < k then order[j] else order[j + 1];
    }
    forall id | id in order[..|order| - 1] ensures id in order {
      var j :| 0 <= j < |order| - 1 && order[j] == id;
    }
  }

  lemma {:induction false} ColumnWithout(channels: Channels, master: real, order: seq<ChannelId>, k: nat, i: nat)
    requires k < |order| && Covers(channels, order, i)
    ensures Covers(channels, Without(order, k), i)
    ensures order[k] in channels && i < |channels[order[k]].buffer| / 2
    ensures multiset(Column(channels, master, order, i)) ==
            multiset(Column(channels, master, Without(order, k), i)) + multiset(Share(channels[order[k]], master, i))
  {
    hide Share, Column, Covers;
    var init, id := order[..|order| - 1], order[|order| - 1];
    assert order == init + [id];
    CoversWithout(channels, order, k, i);
    ColumnAppend(channels, master, init, id, i);
    if k == |order| - 1 {
      assert Without(order, k) == init;
    } else {
      ColumnWithout(channels, master, init, k, i);
      assert Without(order, k) == Without(init, k) + [id];
      ColumnAppend(channels, master, Without(init, k), id, i);
      MoveLast(Column(channels, master, Without(init, k), i), Share(channels[order[k]], master, i),
               Share(channels[id], master, i), Column(channels, master, init, i));
    }
  }

  /** Muting a channel mixes exactly like turning its volume to zero. */
  lemma {:induction false} MutingIsZeroVolume(channels: Channels, id: ChannelId, master: real, order: seq<ChannelId>,
                                              i: nat)
    requires id in channels && UnitVolumes(channels) && UnitVolume(master) && Covers(channels, order, i)
    ensures var c := channels[id];
            var muted := channels[id := c.(config := c.config.(muted := true))];
            var silent := channels[id := c.(config := c.config.(muted := false, volume := 0.0))];
            && Covers(muted, order, i) && Covers(silent, order, i)
            && AllUnit(Column(muted, master, order, i)) && AllUnit(Column(silent, master, order, i))
            && MixColumn(Column(muted, master, order, i)) == MixColumn(Column(silent, master, order, i))
  {
    var c := channels[id];
    var muted := channels[id := c.(config := c.config.(muted := true))];
    var silent := channels[id := c.(config := c.config.(muted := false, volume := 0.0))];
    ColumnIsUnit(muted, master, order, i);
    ColumnIsUnit(silent, master, order, i);
    if |order| > 0 {
      hide Samples, MixStep, Column, AllUnit, EffectiveVolume;
      var init, last := order[..|order| - 1], order[|order| - 1];
      assert order == init + [last];
      CoversWithout(channels, order, |init|, i);
      MutingIsZeroVolume(channels, id, master, init, i);
      ColumnAppend(muted, master, init, last, i);
      ColumnAppend(silent, master, init, last, i);
      var a, b := Column(muted, master, init, i), Column(silent, master, init, i);
      if last == id {
        ZeroVolume(silent[id].config, master);
        var share := Contribution(Samples(c.buffer)[i], 0.0);
        SilentStep(MixColumn(b), share.sample);
        LastStep(b, share);
        assert a + [] == a;
      } else if !channels[last].config.muted {
        var share := Contribution(Samples(channels[last].buffer)[i], EffectiveVolume(channels[last].config, master));
        EffectiveVolumeIsUnit(channels[last].config, master);
        LastStep(a, share);
        LastStep(b, share);
      } else {
        assert a + [] == a && b + [] == b;
      }
    }
  }

  lemma ZeroVolume(config: ChannelConfig, master: real)
    requires config.volume == 0.0
    ensures EffectiveVolume(config, master) == 0.0
  {
  }

  lemma LastStep(cs: seq<Contribution>, c: Contribution)
    requires AllUnit(cs) && UnitVolume(c.volume)
    ensures AllUnit(cs + [c]) && MixColumn(cs + [c]) == MixStep(MixColumn(cs), c.sample, c.volume)
  {
    hide MixStep;
    assert (cs + [c])[..|cs|] == cs;
  }

  lemma MoveLast(a: seq<Contribution>, x: seq<Contribution>, y: seq<Contribution>, ax: seq<Contribution>)
    requires multiset(ax) == multiset(a) + multiset(x)
    ensures multiset(ax + y) == multiset(a + y) + multiset(x)
  {
  }

  lemma ColumnAppend(channels: Channels, master: real, order: seq<ChannelId>, id: ChannelId, i: nat)
    requires Covers(channels, order + [id], i)
    ensures Covers(channels, order, i) && id in channels && i < |channels[id].buffer| / 2
    ensures Column(channels, master, order + [id], i) ==
            Column(channels, master, order, i) + Share(channels[id], master, i)
  {
    hide Share;
    assert (order + [id])[|order|] == id;
    forall q | q in order ensures q in order + [id] {
      var j :| 0 <= j < |order| && order[j] == q;
      assert (order + [id])[j] == q;
    }
    assert (order + [id])[..|order|] == order;
  }

  lemma SameMembers(a: seq<ChannelId>, b: seq<ChannelId>)
    requires forall id :: id in a <==> id in b
    requires forall i, j :: 0 <= i < j < |a| ==> a[i] != a[j]
    requires forall i, j :: 0 <= i < j < |b| ==> b[i] != b[j]
    ensures multiset(a) == multiset(b)
  {
    forall id ensures multiset(a)[id] == multiset(b)[id] {
      OnceEach(a, id);
      OnceEach(b, id);
    }
  }

  lemma {:induction false} OnceEach(a: seq<ChannelId>, id: ChannelId)
    requires forall i, j :: 0 <= i < j < |a| ==> a[i] != a[j]
    ensures multiset(a)[id] == if id in a then 1 else 0
  {
    if |a| > 0 {
      var n := |a| - 1;
      OnceEach(a[..n], id);
      assert a == a[..n] + [a[n]];
    }
  }

  lemma NoContributions()
    ensures MixColumn([]) == 0
  {
  }

  /** Two runs of the same pass may break priority ties differently. Where the weighted input
      is quiet, neither clips and both stay within one unit per channel of the same sum; at full
      volume they agree. */
  lemma QuietBlockIsAccurate(channels: Channels, format: AudioFormat, master: real,
                             order: seq<ChannelId>, other: seq<ChannelId>,
                             shortest: nat, after: Channels, out: seq<byte>, out': seq<byte>, i: nat)
    requires Usable(format)
    requires Emission(channels, format, master, order, shortest, after, out)
    requires Emission(channels, format, master, other, shortest, after, out')
    requires i < |out| / 2
    requires forall id :: id in order ==> i < |channels[id].buffer| / 2
    requires Loudness(Column(channels, master, order, i)) <= 32767.0
    ensures var cs := Column(channels, master, order, i);
            var k := |cs| as real;
            && |out'| == |out| && AllUnit(cs) && NoClipping(cs)
            && (cs == [] ==> Samples(out)[i] == Samples(out')[i] == 0)
            && (cs != [] ==> Abs(Samples(out)[i] as real - ExactSum(cs)) < k)
            && (cs != [] ==> Abs(Samples(out')[i] as real - ExactSum(cs)) < k)
            && (FullVolume(cs) ==> Samples(out)[i] == Samples(out')[i])
  {
    hide Samples, Column, Drained, IsShortest, MixColumn, ExactSum, Loudness, NoClipping, AllUnit;
    NoContributions();
    SameMembers(order, other);
    ColumnPermutes(channels, master, order, other, i);
    var cs := Column(channels, master, order, i);
    QuietMixIsAccurate(cs);
    QuietOrdersAgreeClosely(cs, Column(channels, master, other, i));
    if FullVolume(cs) {
      FullVolumeMixIgnoresOrder(cs, Column(channels, master, other, i));
    }
  }
}
