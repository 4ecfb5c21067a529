/** The software audio mixer: channel queues fed in any order, mixed over their common prefix. */
module AudioMixer {
  import opened Bytes
  import opened Pcm
  import opened FormatConversion
  import opened Mixing
  import opened MixerState
  import opened MixedSound

  class Mixer {
    var masterFormat: AudioFormat
    var masterVolume: real
    var initialized: bool
    var channels: Channels
    var mixBuffer: seq<byte>
    /** The audioMixed signals emitted so far. */
    var emitted: seq<seq<byte>>
    /** Per channel since its addition: the converted input, and the part already mixed. */
    ghost var fed: map<ChannelId, seq<byte>>
    ghost var drained: map<ChannelId, seq<byte>>

    ghost predicate Valid()
      reads this
    {
      && (initialized ==> Usable(masterFormat))
      && UnitVolume(masterVolume) && UnitVolumes(channels)
      && Conserved(channels, fed, drained)
    }

    constructor ()
      ensures Valid() && !initialized && channels == map[] && emitted == []
    {
      masterFormat := AudioFormat(48000, 2);
      masterVolume := 0.75;
      initialized := false;
      channels, fed, drained := map[], map[], map[];
      mixBuffer, emitted := [], [];
    }

    method Initialize(format: AudioFormat) returns (ok: bool)
      requires Valid() && Usable(format)
      modifies this`masterFormat, this`initialized
      ensures Valid() && initialized && ok == !old(initialized)
      ensures masterFormat == if ok then format else old(masterFormat)
    {
      if initialized {
        return false;
      }
      masterFormat := format;
      initialized := true;
      ok := true;
    }

    method Deinitialize()
      requires Valid()
      modifies this
      ensures Valid() && !initialized && emitted == old(emitted)
      ensures masterFormat == old(masterFormat) && masterVolume == old(masterVolume)
      ensures channels == if old(initialized) then map[] else old(channels)
      ensures !old(initialized) ==> fed == old(fed) && drained == old(drained)
    {
      if !initialized {
        return;
      }
      channels, fed, drained := map[], map[], map[];
      mixBuffer := [];
      initialized := false;
    }

    /** The volume is stored as it is, so the mixer stays in order exactly if it lies in 0..1. */
    method AddChannel(id: ChannelId, config: ChannelConfig) returns (ok: bool)
      requires Valid()
      modifies this`channels, this`fed, this`drained
      ensures ok == (id !in old(channels))
      ensures Valid() <==> (ok ==> UnitVolume(config.volume))
      ensures channels == if ok then old(channels)[id := Channel(config, [], false)] else old(channels)
      ensures fed == if ok then old(fed)[id := []] else old(fed)
    {
      if id in channels {
        return false;
      }
      channels := channels[id := Channel(config, [], false)];
      fed, drained := fed[id := []], drained[id := []];
      ok := true;
      assert channels[id].config.volume == config.volume;
      if UnitVolume(config.volume) {
        assert UnitVolumes(channels);
      }
    }

    method RemoveChannel(id: ChannelId) returns (ok: bool)
      requires Valid()
      modifies this`channels, this`fed, this`drained
      ensures Valid() && ok == (id in old(channels)) && channels == old(channels) - {id}
      ensures fed == old(fed) - {id}
    {
      fed, drained := fed - {id}, drained - {id};
      if id !in channels {
        assert channels == channels - {id};
        return false;
      }
      channels := channels - {id};
      ok := true;
    }

    method SetChannelVolume(id: ChannelId, volume: real)
      requires Valid()
      modifies this`channels
      ensures Valid() && (id !in old(channels) ==> channels == old(channels))
      ensures id in old(channels) ==> var c := old(channels)[id];
              channels == old(channels)[id := c.(config := c.config.(volume := Bound(volume)))]
    {
      if id !in channels {
        return;
      }
      var c := channels[id];
      channels := channels[id := c.(config := c.config.(volume := Bound(volume)))];
    }

    method GetChannelVolume(id: ChannelId) returns (volume: real)
      requires Valid()
      ensures volume == if id in channels then channels[id].config.volume else 0.0
    {
      if id !in channels {
        return 0.0;
      }
      volume := channels[id].config.volume;
    }

    method SetChannelMuted(id: ChannelId, muted: bool)
      requires Valid()
      modifies this`channels
      ensures Valid() && (id !in old(channels) ==> channels == old(channels))
      ensures id in old(channels) ==> var c := old(channels)[id];
              channels == old(channels)[id := c.(config := c.config.(muted := muted))]
    {
      if id !in channels {
        return;
      }
      var c := channels[id];
      channels := channels[id := c.(config := c.config.(muted := muted))];
    }

    method IsChannelMuted(id: ChannelId) returns (muted: bool)
      requires Valid()
      ensures muted == (id !in channels || channels[id].config.muted)
    {
      if id !in channels {
        return true;
      }
      muted := channels[id].config.muted;
    }

    method SetMasterVolume(volume: real)
      requires Valid()
      modifies this`masterVolume
      ensures Valid() && masterVolume == Bound(volume)
    {
      masterVolume := Bound(volume);
    }

    /** order and shortest witness the pass that emitted, when one did. */
    method MixAudioData(id: ChannelId, audioData: seq<byte>)
      returns (ok: bool, mixed: bool, block: seq<byte>, ghost order: seq<ChannelId>, ghost shortest: nat)
      requires Valid()
      requires id in channels && initialized ==>
                 var format := channels[id].config.format;
                 Usable(format) && FitsInt(|audioData|, format.channels, masterFormat.sampleRate)
      modifies this`channels, this`fed, this`drained, this`mixBuffer, this`emitted
      ensures Valid() && ok == (initialized && id in old(channels))
      ensures !ok ==> channels == old(channels) && fed == old(fed) && !mixed
      ensures ok ==> fed == old(fed)[id := old(fed)[id] +
                Converted(audioData, old(channels)[id].config.format, masterFormat)]
      ensures emitted == old(emitted) + if mixed then [block] else []
      ensures ok ==> Pass(Queued(old(channels), id, audioData, masterFormat), masterFormat, masterVolume,
                          mixed, order, shortest, channels, block)
      ensures ok && mixed ==> BlockSounds(Queued(old(channels), id, audioData, masterFormat), masterVolume, block)
      ensures ok && WholeFrames(old(channels), masterFormat)
              && WholeInput(old(channels)[id].config.format, masterFormat, audioData) ==>
        WholePass(mixed, |block|, shortest, channels, masterFormat)
    {
      order, shortest, mixed, block := [], 0, false, [];
      if !initialized || id !in channels {
        ok := false;
        return;
      }
      hide Converted, Queued, Pass, BlockSounds, Conserved, UnitVolumes, UnitVolume, FitsInt, WholeFrames, WholeInput,
        WholePass;
      Receive(id, audioData);
      mixed, block, order, shortest := MixBuffers();
      ok := true;
      if WholeFrames(old(channels), masterFormat)
         && WholeInput(old(channels)[id].config.format, masterFormat, audioData) {
        WholeFramePass(old(channels), id, audioData, masterFormat, masterVolume, mixed, order, shortest,
                       channels, block);
      }
    }

    /** The input of a channel, converted and appended to its queue. */
    method Receive(id: ChannelId, audioData: seq<byte>)
      requires Valid() && initialized && id in channels
      requires var format := channels[id].config.format;
               Usable(format) && FitsInt(|audioData|, format.channels, masterFormat.sampleRate)
      modifies this`channels, this`fed
      ensures Valid() && channels == Queued(old(channels), id, audioData, masterFormat)
      ensures fed == old(fed)[id := old(fed)[id] +
                Converted(audioData, old(channels)[id].config.format, masterFormat)]
    {
      hide Converted, Conserved, UnitVolumes, UnitVolume, FitsInt;
      var convertedData := ConvertInput(channels[id].config.format, audioData);
      Enqueue(id, convertedData);
    }

    method ConvertInput(format: AudioFormat, audioData: seq<byte>) returns (convertedData: seq<byte>)
      requires Usable(format) && Usable(masterFormat) && FitsInt(|audioData|, format.channels, masterFormat.sampleRate)
      ensures convertedData == Converted(audioData, format, masterFormat)
    {
      convertedData := audioData;
      if format != masterFormat {
        convertedData := ConvertFormat(audioData, format, masterFormat);
      } else {
        SameFormat(audioData, masterFormat);
      }
    }

    method Enqueue(id: ChannelId, data: seq<byte>)
      requires Valid() && id in channels
      modifies this`channels, this`fed
      ensures Valid() && fed == old(fed)[id := old(fed)[id] + data]
      ensures var c := old(channels)[id];
              channels == old(channels)[id := c.(buffer := c.buffer + data, active := true)]
    {
      var channel := channels[id];
      channels := channels[id := channel.(buffer := channel.buffer + data, active := true)];
      fed := fed[id := fed[id] + data];
      assert drained[id] + (channel.buffer + data) == (drained[id] + channel.buffer) + data;
    }

    method MixBuffers() returns (mixed: bool, block: seq<byte>, ghost order: seq<ChannelId>, ghost shortest: nat)
      requires Valid() && Usable(masterFormat)
      modifies this`channels, this`drained, this`mixBuffer, this`emitted
      ensures Valid()
      ensures emitted == old(emitted) + if mixed then [block] else []
      ensures Pass(old(channels), masterFormat, masterVolume, mixed, order, shortest, channels, block)
      ensures mixed ==> BlockSounds(old(channels), masterVolume, block)
    {
      hide BlockSounds;
      hide Drained, Taken, Conserved, UnitVolumes, MixedBlock, IsShortest, NobodyParticipates;
      order, shortest, mixed, block := [], 0, false, [];
      var minBufferSize, activeChannelCount := FindShortest(channels);
      if activeChannelCount == 0 || minBufferSize == 0 {
        return;
      }
      shortest := minBufferSize;
      var sampleCount := minBufferSize / (2 * masterFormat.channels);
      if sampleCount == 0 {
        DivisionByMore(minBufferSize, 2 * masterFormat.channels);
        return;
      }
      FrameMultiple(minBufferSize, masterFormat.channels);
      var mixBufferSize := sampleCount * (2 * masterFormat.channels);
      SecondFilterKeepsParticipants(channels, minBufferSize, mixBufferSize);
      ParticipantsHold(channels, minBufferSize, mixBufferSize);
      var sortedChannels := SelectChannels(channels, mixBufferSize);
      sortedChannels := SortByPriority(channels, sortedChannels);
      order := sortedChannels;
      assert IsMixingOrder(channels, order);
      mixBuffer := MixSamples(channels, masterVolume, sortedChannels, sampleCount * masterFormat.channels);
      ghost var before := channels;
      channels := RemoveMixed(channels, mixBufferSize);
      assert channels == Drained(before, mixBufferSize) by {
        DrainedByFilter(before, minBufferSize, mixBufferSize);
      }
      ConservedAfterDrain(before, fed, drained, mixBufferSize);
      drained := Taken(before, drained, mixBufferSize);
      block := mixBuffer;
      emitted := emitted + [mixBuffer];
      mixed := true;
      EmittedBlockSounds(before, masterFormat, masterVolume, order, shortest, channels, block);
    }
  }

  /** qBound(0, volume, 1). */
  function Bound(volume: real): (v: real)
    ensures UnitVolume(v) && (UnitVolume(volume) ==> v == volume)
    ensures !UnitVolume(volume) ==> v == if volume < 0.0 then 0.0 else 1.0
  {
    if volume < 0.0 then 0.0 else if volume > 1.0 then 1.0 else volume
  }

  /** Mixed bytes followed by the queue are the converted input: nothing lost, nothing reordered. */
  ghost predicate Conserved(channels: Channels, fed: map<ChannelId, seq<byte>>, drained: map<ChannelId, seq<byte>>) {
    && fed.Keys == drained.Keys == channels.Keys
    && forall id :: id in channels ==> drained[id] + channels[id].buffer == fed[id]
  }

  ghost function Taken(channels: Channels, drained: map<ChannelId, seq<byte>>, length: nat): map<ChannelId, seq<byte>>
    requires drained.Keys == channels.Keys
    requires forall id :: id in channels && Participates(channels[id]) ==> length <= |channels[id].buffer|
  {
    map id | id in drained ::
      drained[id] + if Participates(channels[id]) then channels[id].buffer[..length] else []
  }

  lemma ConservedAfterDrain(channels: Channels, fed: map<ChannelId, seq<byte>>,
                            drained: map<ChannelId, seq<byte>>, length: nat)
    requires Conserved(channels, fed, drained)
    requires forall id :: id in channels && Participates(channels[id]) ==> length <= |channels[id].buffer|
    ensures drained.Keys == channels.Keys
    ensures Conserved(Drained(channels, length), fed, Taken(channels, drained, length))
    ensures UnitVolumes(channels) ==> UnitVolumes(Drained(channels, length))
  {
    var after, taken := Drained(channels, length), Taken(channels, drained, length);
    forall id | id in after ensures taken[id] + after[id].buffer == fed[id] {
      var b := channels[id].buffer;
      if Participates(channels[id]) {
        assert b == b[..length] + b[length..];
        assert drained[id] + b[..length] + b[length..] == drained[id] + b;
      } else {
        assert drained[id] + [] == drained[id];
      }
    }
  }

  /** The queues once the converted data of one channel has been appended. */
  function Queued(channels: Channels, id: ChannelId, audioData: seq<byte>, format: AudioFormat): Channels
    requires id in channels && Usable(format) && Usable(channels[id].config.format)
  {
    var c := channels[id];
    channels[id := c.(buffer := c.buffer + Converted(audioData, c.config.format, format), active := true)]
  }

  /** A whole number of frames, in a conversion between mono and stereo. */
  predicate WholeInput(from: AudioFormat, to: AudioFormat, audioData: seq<byte>) {
    Usable(from) && from.channels <= 2 && to.channels <= 2 && |audioData| % FrameBytes(from) == 0
  }

  /** Whole-frame queues stay whole, and the shortest was mixed entirely or everything is empty. */
  ghost predicate WholePass(mixed: bool, size: nat, shortest: nat, after: Channels, format: AudioFormat)
    requires Usable(format)
  {
    && WholeFrames(after, format)
    && if mixed then size == shortest else forall q :: q in after ==> after[q].buffer == []
  }

  /** Whole input frames keep every queue a whole number of frames. */
  lemma QueuedKeepsWholeFrames(channels: Channels, id: ChannelId, audioData: seq<byte>, format: AudioFormat)
    requires id in channels && Usable(format) && WholeFrames(channels, format)
    requires WholeInput(channels[id].config.format, format, audioData)
    ensures WholeFrames(Queued(channels, id, audioData, format), format)
  {
    hide Converted;
    var c := channels[id];
    var data := Converted(audioData, c.config.format, format);
    ConversionKeepsWholeFrames(audioData, c.config.format, format);
    WholeSum(|c.buffer|, |data|, FrameBytes(format));
    assert |c.buffer + data| == |c.buffer| + |data|;
  }

  lemma WholeSum(a: nat, b: nat, d: int)
    requires d > 0 && a % d == 0 && b % d == 0
    ensures (a + b) % d == 0
  {
    WholeDivision(a, d);
    WholeDivision(b, d);
    assert a + b == (a / d + b / d) * d;
    QuotientIs(a + b, d, a / d + b / d);
  }

  /** A run of whole-frame inputs never stalls: after every call the queues are whole frames
      again, and either everything was already empty or the shortest queue went out entirely. */
  lemma WholeFramePass(channels: Channels, id: ChannelId, audioData: seq<byte>, format: AudioFormat, master: real,
                       mixed: bool, order: seq<ChannelId>, shortest: nat, after: Channels, out: seq<byte>)
    requires id in channels && Usable(format) && WholeFrames(channels, format)
    requires WholeInput(channels[id].config.format, format, audioData)
    requires Pass(Queued(channels, id, audioData, format), format, master, mixed, order, shortest, after, out)
    ensures WholePass(mixed, |out|, shortest, after, format)
    ensures mixed ==> forall q :: q in after && |Queued(channels, id, audioData, format)[q].buffer| == shortest ==>
                        after[q].buffer == [] && !after[q].active
  {
    hide Queued, Emission, NoEmission, Converted;
    QueuedKeepsWholeFrames(channels, id, audioData, format);
    var queued := Queued(channels, id, audioData, format);
    if mixed {
      WholeFrameProgress(queued, format, master, order, shortest, after, out);
    } else {
      WholeFramesNeverStall(queued, format);
    }
  }

  lemma SameFormat(input: seq<byte>, format: AudioFormat)
    requires Usable(format)
    ensures Converted(input, format, format) == input
  {
  }

  lemma DivisionByMore(n: nat, d: int)
    requires d > 0 && n / d == 0
    ensures n < d
  {
  }

  lemma FrameMultiple(n: nat, channels: int)
    requires channels > 0 && n / (2 * channels) > 0
    ensures var size := n / (2 * channels) * (2 * channels);
            0 < size <= n && size == 2 * (n / (2 * channels) * channels)
  {
  }

  /** The first loop of mixBuffers. */
  method FindShortest(channels: Channels) returns (minBufferSize: nat, activeChannelCount: nat)
    ensures activeChannelCount == 0 <==> NobodyParticipates(channels)
    ensures activeChannelCount > 0 ==> IsShortest(channels, minBufferSize) && minBufferSize > 0
  {
    minBufferSize, activeChannelCount := 0x7FFF_FFFF, 0;
    ghost var largest := 0;
    var found := false;
    for k := 0 to |ALL_CHANNELS|
      invariant found <==> activeChannelCount > 0
      invariant !found ==>
                  forall j :: 0 <= j < k && ALL_CHANNELS[j] in channels ==> !Participates(channels[ALL_CHANNELS[j]])
      invariant found ==>
                  exists id :: id in channels && Participates(channels[id]) && |channels[id].buffer| == minBufferSize
      invariant found ==>
                  forall j :: 0 <= j < k && ALL_CHANNELS[j] in channels && Participates(channels[ALL_CHANNELS[j]]) ==>
                  minBufferSize <= |channels[ALL_CHANNELS[j]].buffer|
    {
      var id := ALL_CHANNELS[k];
      if id in channels && channels[id].active && |channels[id].buffer| > 0 {
        var size := |channels[id].buffer|;
        minBufferSize := if found && minBufferSize <= size then minBufferSize else size;
        activeChannelCount := activeChannelCount + 1;
        found := true;
      }
    }
    forall id | id in channels && Participates(channels[id]) ensures found && minBufferSize <= |channels[id].buffer| {
      assert ALL_CHANNELS[Position(id)] == id;
    }
  }

  function Position(id: ChannelId): (p: nat)
    ensures p < |ALL_CHANNELS| && ALL_CHANNELS[p] == id
  {
    match id
    case Media => 0
    case System => 1
    case Speech => 2
    case Telephony => 3
  }

  predicate Distinct(ids: seq<ChannelId>) {
    forall i, j :: 0 <= i < j < |ids| ==> ids[i] != ids[j]
  }

  /** The channels that pass the second size filter, in key order. */
  method SelectChannels(channels: Channels, size: nat) returns (ids: seq<ChannelId>)
    ensures Distinct(ids)
    ensures forall id :: id in ids <==> id in channels && channels[id].active && |channels[id].buffer| >= size
  {
    ids := [];
    for k := 0 to |ALL_CHANNELS|
      invariant Distinct(ids)
      invariant forall id :: id in ids <==>
                  Position(id) < k && id in channels && channels[id].active && |channels[id].buffer| >= size
    {
      var id := ALL_CHANNELS[k];
      assert forall q :: Position(q) == k <==> q == id;
      if id in channels && channels[id].active && |channels[id].buffer| >= size {
        ids := ids + [id];
      }
    }
  }

  predicate Descending(channels: Channels, ids: seq<ChannelId>) {
    && (forall id :: id in ids ==> id in channels)
    && forall i, j :: 0 <= i < j < |ids| ==>
         channels[ids[i]].config.priority >= channels[ids[j]].config.priority
  }

  /** std::sort by descending priority; callers rely on no particular order of ties. */
  method SortByPriority(channels: Channels, ids: seq<ChannelId>) returns (sorted: seq<ChannelId>)
    requires Distinct(ids) && forall id :: id in ids ==> id in channels
    ensures Distinct(sorted) && Descending(channels, sorted)
    ensures forall id :: id in sorted <==> id in ids
  {
    sorted := [];
    for k := 0 to |ids|
      invariant Distinct(sorted) && Descending(channels, sorted)
      invariant forall id :: id in sorted <==> id in ids[..k]
    {
      assert ids[..k + 1] == ids[..k] + [ids[k]];
      sorted := InsertByPriority(channels, sorted, ids[k]);
    }
    assert ids[..|ids|] == ids;
  }

  method InsertByPriority(channels: Channels, sorted: seq<ChannelId>, id: ChannelId) returns (result: seq<ChannelId>)
    requires Distinct(sorted) && Descending(channels, sorted) && id in channels && id !in sorted
    ensures Distinct(result) && Descending(channels, result)
    ensures forall q :: q in result <==> q in sorted || q == id
  {
    var j := |sorted|;
    while j > 0 && channels[sorted[j - 1]].config.priority < channels[id].config.priority
      invariant 0 <= j <= |sorted|
      invariant forall m :: j <= m < |sorted| ==> channels[sorted[m]].config.priority < channels[id].config.priority
    {
      j := j - 1;
    }
    result := sorted[..j] + [id] + sorted[j..];
    InsertedAt(channels, sorted, j, id);
  }

  lemma InsertedAt(channels: Channels, sorted: seq<ChannelId>, j: nat, id: ChannelId)
    requires Distinct(sorted) && Descending(channels, sorted) && id in channels && id !in sorted && j <= |sorted|
    requires forall m :: j <= m < |sorted| ==> channels[sorted[m]].config.priority < channels[id].config.priority
    requires j > 0 ==> channels[sorted[j - 1]].config.priority >= channels[id].config.priority
    ensures var result := sorted[..j] + [id] + sorted[j..];
            && Distinct(result) && Descending(channels, result)
            && forall q :: q in result <==> q in sorted || q == id
  {
    hide Descending, Distinct;
    assert sorted == sorted[..j] + sorted[j..];
    InsertedDistinct(sorted, j, id);
    InsertedDescending(channels, sorted, j, id);
  }

  lemma InsertedDistinct(sorted: seq<ChannelId>, j: nat, id: ChannelId)
    requires Distinct(sorted) && id !in sorted && j <= |sorted|
    ensures Distinct(sorted[..j] + [id] + sorted[j..])
  {
    var result := sorted[..j] + [id] + sorted[j..];
    forall a, b | 0 <= a < b < |result| ensures result[a] != result[b] {
      assert a != j ==> result[a] == sorted[if a < j then a else a - 1];
      assert b != j ==> result[b] == sorted[if b < j then b else b - 1];
    }
  }

  lemma InsertedDescending(channels: Channels, sorted: seq<ChannelId>, j: nat, id: ChannelId)
    requires Descending(channels, sorted) && id in channels && j <= |sorted|
    requires forall m :: j <= m < |sorted| ==> channels[sorted[m]].config.priority < channels[id].config.priority
    requires j > 0 ==> channels[sorted[j - 1]].config.priority >= channels[id].config.priority
    ensures Descending(channels, sorted[..j] + [id] + sorted[j..])
  {
    var result := sorted[..j] + [id] + sorted[j..];
    forall a, b | 0 <= a < b < |result|
      ensures channels[result[a]].config.priority >= channels[result[b]].config.priority
    {
      assert a != j ==> result[a] == sorted[if a < j then a else a - 1];
      assert b != j ==> result[b] == sorted[if b < j then b else b - 1];
      if b == j && a < j - 1 {
        assert channels[sorted[a]].config.priority >= channels[sorted[j - 1]].config.priority;
      }
    }
  }

  /** The sample loops of mixBuffers: each unmuted channel in turn is added to the block in place. */
  method MixSamples(channels: Channels, master: real, order: seq<ChannelId>, count: nat) returns (out: seq<byte>)
    requires UnitVolumes(channels) && UnitVolume(master)
    requires forall id :: id in order ==> id in channels && 2 * count <= |channels[id].buffer|
    ensures |out| == 2 * count && MixedBlock(channels, master, order, out)
  {
    hide ToBytes, Samples, MixStep, Column, UnitVolume;
    var mix := new int16[count](_ => 0);
    assert order[..0] == [];
    NothingMixed(channels, master);
    for k := 0 to |order|
      invariant forall i :: 0 <= i < count ==> ColumnReached(channels, master, order[..k], i, mix[i])
    {
      var id := order[k];
      assert order[..k + 1] == order[..k] + [id];
      ExtendColumns(channels, master, order[..k], id, mix[..]);
      if !channels[id].config.muted {
        MixChannel(channels[id], master, mix);
      }
    }
    assert order[..|order|] == order;
    out := ToBytes(mix[..]);
    SamplesOfBytes(mix[..]);
    forall i | 0 <= i < |out| / 2
      ensures AllUnit(Column(channels, master, order, i))
      ensures Samples(out)[i] == MixColumn(Column(channels, master, order, i))
    {
      assert Samples(out)[i] == mix[i];
    }
  }

  lemma NothingMixed(channels: Channels, master: real)
    ensures forall i: nat :: ColumnReached(channels, master, [], i, 0)
  {
  }

  /** v is sample i of the mix of the channels in order. */
  ghost predicate ColumnReached(channels: Channels, master: real, order: seq<ChannelId>, i: nat, v: int16) {
    && Covers(channels, order, i) && AllUnit(Column(channels, master, order, i))
    && v == MixColumn(Column(channels, master, order, i))
  }

  /** One unmuted channel added to the block, sample by sample. */
  method MixChannel(c: Channel, master: real, mix: array<int16>)
    requires UnitVolume(c.config.volume) && UnitVolume(master) && 2 * mix.Length <= |c.buffer|
    modifies mix
    ensures UnitVolume(EffectiveVolume(c.config, master))
    ensures forall i :: 0 <= i < mix.Length ==>
              mix[i] == MixStep(old(mix[i]), Samples(c.buffer)[i], EffectiveVolume(c.config, master))
    ensures forall i :: 0 <= i < mix.Length ==>
              mix[i] == Trunc(ApplySaturation(old(mix[i]) as real + Scaled(Samples(c.buffer)[i],
                                                                           c.config.volume * master)))
  {
    hide Samples, ApplySaturation, Trunc, Scaled;
    EffectiveVolumeIsUnit(c.config, master);
    var channelPtr := Samples(c.buffer);
    var channelVolume := c.config.volume * master;
    ghost var before := mix[..];
    for i := 0 to mix.Length
      invariant forall j :: 0 <= j < i ==> mix[j] == MixStep(old(mix[j]), channelPtr[j], channelVolume)
      invariant forall j :: i <= j < mix.Length ==> mix[j] == old(mix[j])
    {
      SaturationKeepsCastsDefined(mix[i], channelPtr[i], channelVolume);
      var sample := mix[i] as real + Scaled(channelPtr[i], channelVolume);
      sample := ApplySaturation(sample);
      TruncInRange(sample);
      mix[i] := Trunc(sample);
    }
    forall i | 0 <= i < mix.Length
      ensures mix[i] == Trunc(ApplySaturation(before[i] as real + Scaled(channelPtr[i], c.config.volume * master)))
    {
      MixStepIs(before[i], channelPtr[i], channelVolume);
    }
  }

  /** What the next channel turns every accumulated sample into. */
  lemma ExtendColumns(channels: Channels, master: real, order: seq<ChannelId>, id: ChannelId, mix: seq<int16>)
    requires UnitVolumes(channels) && UnitVolume(master)
    requires id in channels && 2 * |mix| <= |channels[id].buffer|
    requires forall i :: 0 <= i < |mix| ==> ColumnReached(channels, master, order, i, mix[i])
    ensures forall i :: 0 <= i < |mix| ==>
              var c := channels[id];
              && UnitVolume(EffectiveVolume(c.config, master))
              && ColumnReached(channels, master, order + [id], i,
                   if c.config.muted then mix[i]
                   else MixStep(mix[i], Samples(c.buffer)[i], EffectiveVolume(c.config, master)))
  {
    EffectiveVolumeIsUnit(channels[id].config, master);
    forall i | 0 <= i < |mix|
      ensures ColumnReached(channels, master, order + [id], i,
                if channels[id].config.muted then mix[i]
                else MixStep(mix[i], Samples(channels[id].buffer)[i], EffectiveVolume(channels[id].config, master)))
    {
      ExtendColumn(channels, master, order, id, i, mix[i]);
    }
  }

  lemma ExtendColumn(channels: Channels, master: real, order: seq<ChannelId>, id: ChannelId, i: nat, v: int16)
    requires UnitVolumes(channels) && UnitVolume(master)
    requires id in channels && i < |channels[id].buffer| / 2 && ColumnReached(channels, master, order, i, v)
    ensures var c := channels[id];
            && UnitVolume(EffectiveVolume(c.config, master))
            && ColumnReached(channels, master, order + [id], i,
                 if c.config.muted then v
                 else MixStep(v, Samples(c.buffer)[i], EffectiveVolume(c.config, master)))
  {
    hide Samples, EffectiveVolume, MixStep, Column;
    EffectiveVolumeIsUnit(channels[id].config, master);
    CoversAppend(channels, order, id, i);
    ColumnAppend(channels, master, order, id, i);
    ColumnIsUnit(channels, master, order + [id], i);
    var cs, share := Column(channels, master, order, i), Share(channels[id], master, i);
    if channels[id].config.muted {
      assert cs + share == cs;
    } else {
      assert (cs + share)[..|cs|] == cs;
    }
  }

  lemma CoversAppend(channels: Channels, order: seq<ChannelId>, id: ChannelId, i: nat)
    requires Covers(channels, order, i) && id in channels && i < |channels[id].buffer| / 2
    ensures Covers(channels, order + [id], i)
  {
  }

  /** The last loop of mixBuffers: cut the mixed prefix off every channel that passes the size filter. */
  method RemoveMixed(channels: Channels, size: nat) returns (result: Channels)
    requires size > 0
    ensures result == map id | id in channels :: Cut(channels[id], size)
  {
    result := channels;
    for k := 0 to |ALL_CHANNELS|
      invariant result.Keys == channels.Keys
      invariant forall id :: id in channels ==>
                  result[id] == if Position(id) < k then Cut(channels[id], size) else channels[id]
    {
      var id := ALL_CHANNELS[k];
      assert forall q :: Position(q) == k <==> q == id;
      if id in result && result[id].active && |result[id].buffer| >= size {
        var it := result[id];
        it := it.(buffer := it.buffer[size..]);
        if |it.buffer| == 0 {
          it := it.(active := false);
        }
        result := result[id := it];
      }
    }
  }

  function Cut(c: Channel, size: nat): Channel {
    if c.active && |c.buffer| >= size then c.(buffer := c.buffer[size..], active := |c.buffer| > size) else c
  }

  lemma ParticipantsHold(channels: Channels, shortest: nat, size: nat)
    requires IsShortest(channels, shortest) && size <= shortest
    ensures forall id :: id in channels && Participates(channels[id]) ==> size <= |channels[id].buffer|
  {
  }

  lemma DrainedByFilter(channels: Channels, shortest: nat, size: nat)
    requires IsShortest(channels, shortest) && 0 < size <= shortest
    ensures Drained(channels, size) == map id | id in channels :: Cut(channels[id], size)
  {
    SecondFilterKeepsParticipants(channels, shortest, size);
  }
}
