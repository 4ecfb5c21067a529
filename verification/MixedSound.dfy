/** What an emitted block sounds like, in terms of the channels and the master volume alone. */
module MixedSound {
  import opened Bytes
  import opened Pcm
  import opened FormatConversion
  import opened Mixing
  import opened MixerState

  /** Channel id is heard in sample i: it is active, not muted, and holds the sample. */
  predicate Heard(channels: Channels, id: ChannelId, i: nat) {
    && id in channels && channels[id].active && !channels[id].config.muted
    && i < |channels[id].buffer| / 2
  }

  /** The exact contribution of channel id to sample i. */
  function Voice(channels: Channels, master: real, id: ChannelId, i: nat): real {
    if Heard(channels, id, i)
    then Samples(channels[id].buffer)[i] as real * channels[id].config.volume * master
    else 0.0
  }

  /** The exact sum of the four channels. */
  function ExactMix(channels: Channels, master: real, i: nat): real {
    Voice(channels, master, Media, i) + Voice(channels, master, System, i)
    + Voice(channels, master, Speech, i) + Voice(channels, master, Telephony, i)
  }

  function LoudMix(channels: Channels, master: real, i: nat): real {
    Abs(Voice(channels, master, Media, i)) + Abs(Voice(channels, master, System, i))
    + Abs(Voice(channels, master, Speech, i)) + Abs(Voice(channels, master, Telephony, i))
  }

  function One(b: bool): nat {
    if b then 1 else 0
  }

  /** How many channels are heard in sample i. */
  function HeardCount(channels: Channels, i: nat): nat {
    One(Heard(channels, Media, i)) + One(Heard(channels, System, i))
    + One(Heard(channels, Speech, i)) + One(Heard(channels, Telephony, i))
  }

  /** What sample i of a block has to be: nothing when no channel is heard or the master volume is
      zero, the truncated product when one is, and within one unit per channel of the exact sum
      when that cannot clip. */
  predicate SampleSounds(channels: Channels, master: real, i: nat, v: int16) {
    var n := HeardCount(channels, i);
    && (n == 0 || master == 0.0 ==> v == 0)
    && (n == 1 ==> v == Trunc(ExactMix(channels, master, i)))
    && (n > 0 && LoudMix(channels, master, i) <= 32767.0 ==> Abs(v as real - ExactMix(channels, master, i)) < n as real)
  }

  predicate BlockSounds(channels: Channels, master: real, out: seq<byte>) {
    forall i :: 0 <= i < |out| / 2 ==> SampleSounds(channels, master, i, Samples(out)[i])
  }

  // ----- the contributions of an order, channel by channel -----

  /** The channels as they are heard when only those of the order are mixed. */
  function Only(channels: Channels, order: seq<ChannelId>): Channels {
    map id | id in channels && id in order :: channels[id]
  }

  lemma ProductRegroups(a: real, b: real, c: real)
    ensures a * (b * c) == a * b * c
  {
  }

  lemma SumOfAppended(cs: seq<Contribution>, c: Contribution)
    ensures ExactSum(cs + [c]) == ExactSum(cs) + Term(c) && Loudness(cs + [c]) == Loudness(cs) + Abs(Term(c))
  {
    hide Term, Abs;
    assert (cs + [c])[..|cs|] == cs;
  }

  /** Sums over a column are sums over the channels of its order. */
  predicate Agrees(channels: Channels, master: real, i: nat, cs: seq<Contribution>) {
    && ExactSum(cs) == ExactMix(channels, master, i)
    && Loudness(cs) == LoudMix(channels, master, i)
    && |cs| == HeardCount(channels, i)
  }

  /** One channel more is heard, the others as before. */
  lemma SumsChange(before: Channels, after: Channels, master: real, id: ChannelId, i: nat)
    requires forall q :: q != id ==> Voice(after, master, q, i) == Voice(before, master, q, i)
    requires forall q :: q != id ==> Heard(after, q, i) == Heard(before, q, i)
    requires !Heard(before, id, i) && Voice(before, master, id, i) == 0.0
    ensures ExactMix(after, master, i) == ExactMix(before, master, i) + Voice(after, master, id, i)
    ensures LoudMix(after, master, i) == LoudMix(before, master, i) + Abs(Voice(after, master, id, i))
    ensures HeardCount(after, i) == HeardCount(before, i) + One(Heard(after, id, i))
  {
    assert Abs(0.0) == 0.0;
    hide Voice, Heard, Abs;
    match id {
      case Media =>
      case System =>
      case Speech =>
      case Telephony =>
    }
  }

  lemma VoiceIsTerm(channels: Channels, master: real, id: ChannelId, i: nat)
    requires Heard(channels, id, i)
    ensures var share := Share(channels[id], master, i);
            |share| == 1 && Term(share[0]) == Voice(channels, master, id, i)
  {
    hide Samples;
    var c := channels[id];
    ProductRegroups(Samples(c.buffer)[i] as real, c.config.volume, master);
  }

  lemma SameVoices(before: Channels, after: Channels, master: real, id: ChannelId, i: nat)
    requires id !in before && id in after && after == before[id := after[id]]
    ensures forall q :: q != id ==> Voice(after, master, q, i) == Voice(before, master, q, i)
    ensures forall q :: q != id ==> Heard(after, q, i) == Heard(before, q, i)
    ensures !Heard(before, id, i) && Voice(before, master, id, i) == 0.0
  {
    hide Samples;
    forall q | q != id ensures q in after <==> q in before {}
  }

  /** Adding a channel to those heard adds its share. */
  lemma OneMoreChannel(before: Channels, after: Channels, master: real, id: ChannelId, i: nat, cs: seq<Contribution>)
    requires id !in before && id in after && after == before[id := after[id]]
    requires after[id].active && i < |after[id].buffer| / 2
    requires Agrees(before, master, i, cs)
    ensures Agrees(after, master, i, cs + Share(after[id], master, i))
  {
    SameVoices(before, after, master, id, i);
    hide Voice, Term, ExactSum, Loudness, Abs, ExactMix, LoudMix, HeardCount;
    SumsChange(before, after, master, id, i);
    var share := Share(after[id], master, i);
    if Heard(after, id, i) {
      VoiceIsTerm(after, master, id, i);
      SumOfAppended(cs, share[0]);
      assert share == [share[0]];
    } else {
      SilentVoice(after, master, id, i);
      assert share == [] && cs + share == cs;
    }
  }

  lemma SilentVoice(channels: Channels, master: real, id: ChannelId, i: nat)
    requires !Heard(channels, id, i)
    ensures Voice(channels, master, id, i) == 0.0 && Abs(0.0) == 0.0
  {
  }

  lemma InitOf(channels: Channels, order: seq<ChannelId>, i: nat)
    requires |order| > 0 && Covers(channels, order, i)
    requires forall id :: id in order ==> channels[id].active
    requires forall a, b :: 0 <= a < b < |order| ==> order[a] != order[b]
    ensures var init, id := order[..|order| - 1], order[|order| - 1];
            && Covers(channels, init, i) && id in channels && id !in init
            && channels[id].active && i < |channels[id].buffer| / 2
            && (forall q :: q in init ==> channels[q].active)
            && Only(channels, order) == Only(channels, init)[id := channels[id]]
  {
    var init, id := order[..|order| - 1], order[|order| - 1];
    CoversWithout(channels, order, |init|, i);
    forall q ensures q in order <==> q in init || q == id {
      assert order == init + [id];
    }
  }

  lemma {:induction false} ColumnAgrees(channels: Channels, master: real, order: seq<ChannelId>, i: nat)
    requires Covers(channels, order, i)
    requires forall id :: id in order ==> channels[id].active
    requires forall a, b :: 0 <= a < b < |order| ==> order[a] != order[b]
    ensures Agrees(Only(channels, order), master, i, Column(channels, master, order, i))
  {
    if |order| == 0 {
      assert Only(channels, order) == map[];
    } else {
      var init, id := order[..|order| - 1], order[|order| - 1];
      InitOf(channels, order, i);
      hide Agrees, Share, Covers;
      ColumnAgrees(channels, master, init, i);
      OneMoreChannel(Only(channels, init), Only(channels, order), master, id, i, Column(channels, master, init, i));
    }
  }

  /** The participants are all that is heard. */
  lemma OnlyParticipants(channels: Channels, master: real, order: seq<ChannelId>, i: nat)
    requires forall id :: id in order <==> id in channels && Participates(channels[id])
    ensures ExactMix(Only(channels, order), master, i) == ExactMix(channels, master, i)
    ensures LoudMix(Only(channels, order), master, i) == LoudMix(channels, master, i)
    ensures HeardCount(Only(channels, order), i) == HeardCount(channels, i)
  {
    hide Samples;
    forall id ensures Heard(Only(channels, order), id, i) == Heard(channels, id, i)
                   && Voice(Only(channels, order), master, id, i) == Voice(channels, master, id, i) {}
    hide Voice, Heard, Abs;
  }

  // ----- the theorem -----

  lemma SoloMix(c: Contribution)
    requires UnitVolume(c.volume)
    ensures AllUnit([c]) && MixColumn([c]) == Trunc(ExactSum([c]))
  {
    ScaledSampleBound(c.sample, c.volume);
    assert [c][..0] == [];
    assert MixColumn([]) == 0 && ExactSum([]) == 0.0;
    assert Term(c) <= 32767.0 by {
      ScaleBound(c.sample as real, c.volume);
      if c.sample as real < 0.0 { NegativeScaled(c.sample as real, c.volume); }
    }
  }

  lemma NegativeScaled(a: real, b: real)
    requires a <= 0.0 && b >= 0.0
    ensures a * b <= 0.0
  {
  }

  predicate AllSilent(cs: seq<Contribution>) {
    forall k :: 0 <= k < |cs| ==> cs[k].volume == 0.0
  }

  lemma {:induction false} SilentColumn(cs: seq<Contribution>)
    requires AllUnit(cs) && AllSilent(cs)
    ensures MixColumn(cs) == 0
  {
    hide MixStep;
    if |cs| > 0 {
      SilentColumn(cs[..|cs| - 1]);
      SilentStep(0, cs[|cs| - 1].sample);
    }
  }

  lemma TimesZero(config: ChannelConfig, master: real)
    requires master == 0.0
    ensures EffectiveVolume(config, master) == 0.0
  {
  }

  lemma SilentConcat(a: seq<Contribution>, b: seq<Contribution>)
    requires AllSilent(a) && AllSilent(b)
    ensures AllSilent(a + b)
  {
  }

  lemma {:induction false} MasterScalesAll(channels: Channels, master: real, order: seq<ChannelId>, i: nat)
    requires Covers(channels, order, i) && master == 0.0
    ensures AllSilent(Column(channels, master, order, i))
  {
    if |order| > 0 {
      var init, last := order[..|order| - 1], order[|order| - 1];
      CoversWithout(channels, order, |init|, i);
      MasterScalesAll(channels, master, init, i);
      TimesZero(channels[last].config, master);
      assert AllSilent(Share(channels[last], master, i)) by {
        hide Samples, EffectiveVolume;
      }
      SilentConcat(Column(channels, master, init, i), Share(channels[last], master, i));
      hide AllSilent, Share;
    }
  }

  lemma MixColumnSounds(channels: Channels, master: real, i: nat, cs: seq<Contribution>)
    requires AllUnit(cs) && Agrees(channels, master, i, cs)
    requires master == 0.0 ==> AllSilent(cs)
    ensures SampleSounds(channels, master, i, MixColumn(cs))
  {
    if master == 0.0 {
      SilentColumn(cs);
    }
    if |cs| == 1 {
      SoloMix(cs[0]);
      assert cs == [cs[0]];
    }
    hide MixColumn, ExactSum, Loudness, NoClipping, ExactMix, LoudMix, HeardCount, Trunc, Abs;
    if Loudness(cs) <= 32767.0 {
      QuietMixIsAccurate(cs);
    }
    if |cs| == 0 {
      assert cs == [];
      NoContributions();
    }
  }

  lemma SampleOfBlockSounds(channels: Channels, master: real, order: seq<ChannelId>, i: nat)
    requires UnitVolumes(channels) && UnitVolume(master) && IsMixingOrder(channels, order)
    requires Covers(channels, order, i)
    ensures AllUnit(Column(channels, master, order, i))
    ensures SampleSounds(channels, master, i, MixColumn(Column(channels, master, order, i)))
  {
    hide MixColumn, Column, Only, ExactMix, LoudMix, HeardCount, ExactSum, Loudness, Trunc, Abs;
    ColumnIsUnit(channels, master, order, i);
    ColumnAgrees(channels, master, order, i);
    OnlyParticipants(channels, master, order, i);
    if master == 0.0 {
      MasterScalesAll(channels, master, order, i);
    }
    MixColumnSounds(channels, master, i, Column(channels, master, order, i));
  }

  /** Every sample of an emitted block, whatever order the sort left. */
  lemma EmittedBlockSounds(channels: Channels, format: AudioFormat, master: real, order: seq<ChannelId>,
                           shortest: nat, after: Channels, out: seq<byte>)
    requires Usable(format) && Emission(channels, format, master, order, shortest, after, out)
    ensures BlockSounds(channels, master, out)
  {
    hide Samples, MixColumn, Column, SampleSounds, Drained;
    forall i | 0 <= i < |out| / 2 ensures SampleSounds(channels, master, i, Samples(out)[i]) {
      assert Covers(channels, order, i);
      SampleOfBlockSounds(channels, master, order, i);
    }
  }
}
