/**
 The delimiter framer that CANDevice (carriage return) and GPSDevice (CR LF) share:
 append the received bytes, cut off every complete frame, keep the unterminated tail,
 and throw the tail away when it grows past 4096 bytes.
 */
module Framing {
  import opened Bytes

  const MAX_TAIL := 4096

  predicate At(buffer: seq<byte>, delim: seq<byte>, i: int) {
    0 <= i && i + |delim| <= |buffer| && forall k :: 0 <= k < |delim| ==> buffer[i + k] == delim[k]
  }

  /** QByteArray::indexOf: the first occurrence at or after start, or -1. */
  function IndexOf(buffer: seq<byte>, delim: seq<byte>, start: nat): (r: int)
    requires start <= |buffer| && |delim| > 0
    ensures r == -1 || (start <= r && r + |delim| <= |buffer| && At(buffer, delim, r))
    ensures forall j :: start <= j < (if r == -1 then |buffer| else r) ==> !At(buffer, delim, j)
    decreases |buffer| - start
  {
    if At(buffer, delim, start) then start
    else if start == |buffer| then -1
    else IndexOf(buffer, delim, start + 1)
  }

  /** The complete frames of a buffer, delimiters removed. */
  function Frames(buffer: seq<byte>, delim: seq<byte>): seq<seq<byte>>
    requires |delim| > 0
    decreases |buffer|
  {
    var i := IndexOf(buffer, delim, 0);
    if i == -1 then [] else [buffer[..i]] + Frames(buffer[i + |delim|..], delim)
  }

  /** The unterminated tail of a buffer. */
  function Tail(buffer: seq<byte>, delim: seq<byte>): (t: seq<byte>)
    requires |delim| > 0
    ensures |t| <= |buffer|
    ensures forall j :: !At(t, delim, j)
    decreases |buffer|
  {
    var i := IndexOf(buffer, delim, 0);
    if i == -1 then buffer else Tail(buffer[i + |delim|..], delim)
  }

  datatype Framer = Framer(buffer: seq<byte>, frames: seq<seq<byte>>)

  const EMPTY_FRAMER := Framer([], [])

  /** One arrival of data, including the overflow rule. */
  function Feed(f: Framer, delim: seq<byte>, data: seq<byte>): Framer
    requires |delim| > 0
  {
    if data == [] then f else
      var tail := Tail(f.buffer + data, delim);
      Framer(if |tail| > MAX_TAIL then [] else tail, f.frames + Frames(f.buffer + data, delim))
  }

  function FeedAll(delim: seq<byte>, chunks: seq<seq<byte>>): Framer
    requires |delim| > 0
  {
    if |chunks| == 0 then EMPTY_FRAMER
    else Feed(FeedAll(delim, chunks[..|chunks| - 1]), delim, chunks[|chunks| - 1])
  }

  /** What one uninterrupted scan of the whole stream yields. */
  function WholeScan(delim: seq<byte>, stream: seq<byte>): Framer
    requires |delim| > 0
  {
    Framer(Tail(stream, delim), Frames(stream, delim))
  }

  lemma AtSuffix(buffer: seq<byte>, delim: seq<byte>, start: nat, j: int)
    requires start <= j && start <= |buffer|
    ensures At(buffer, delim, j) == At(buffer[start..], delim, j - start)
  {
    if At(buffer[start..], delim, j - start) {
      forall k | 0 <= k < |delim| ensures buffer[j + k] == delim[k] {
        assert buffer[start..][j - start + k] == delim[k];
      }
    }
  }

  /** Scanning on from an offset is scanning the suffix. */
  lemma IndexOfSuffix(buffer: seq<byte>, delim: seq<byte>, start: nat)
    requires start <= |buffer| && |delim| > 0
    ensures var r := IndexOf(buffer, delim, start);
            IndexOf(buffer[start..], delim, 0) == if r == -1 then -1 else r - start
  {
    var suffix := buffer[start..];
    var r, q := IndexOf(buffer, delim, start), IndexOf(suffix, delim, 0);
    if r != -1 {
      AtSuffix(buffer, delim, start, r);
      assert q != -1 && q <= r - start;
    }
    if q != -1 {
      AtSuffix(buffer, delim, start, q + start);
    }
  }

  /** One turn of the scanning loop: the frame up to the next delimiter, then the rest. */
  lemma ScanStep(buffer: seq<byte>, delim: seq<byte>, start: nat)
    requires start <= |buffer| && |delim| > 0
    ensures var end := IndexOf(buffer, delim, start);
            if end == -1 then
              Frames(buffer[start..], delim) == [] && Tail(buffer[start..], delim) == buffer[start..]
            else
              && Frames(buffer[start..], delim) == [buffer[start..end]] + Frames(buffer[end + |delim|..], delim)
              && Tail(buffer[start..], delim) == Tail(buffer[end + |delim|..], delim)
  {
    hide IndexOf;
    IndexOfSuffix(buffer, delim, start);
    var end := IndexOf(buffer, delim, start);
    if end != -1 {
      assert buffer[start..][..end - start] == buffer[start..end];
      assert buffer[start..][end - start + |delim|..] == buffer[end + |delim|..];
    }
  }

  lemma AtPrefix(a: seq<byte>, b: seq<byte>, delim: seq<byte>, i: nat)
    requires i + |delim| <= |a|
    ensures At(a + b, delim, i) <==> At(a, delim, i)
  {
    assert (a + b)[i..i + |delim|] == a[i..i + |delim|];
  }

  /** Later bytes do not move the first delimiter of a buffer that already has one. */
  lemma FirstDelimiterStays(a: seq<byte>, b: seq<byte>, delim: seq<byte>)
    requires |delim| > 0 && IndexOf(a, delim, 0) != -1
    ensures IndexOf(a + b, delim, 0) == IndexOf(a, delim, 0)
  {
    hide IndexOf;
    var i := IndexOf(a, delim, 0);
    AtPrefix(a, b, delim, i);
    forall j | 0 <= j < i ensures !At(a + b, delim, j) {
      AtPrefix(a, b, delim, j);
    }
  }

  /** Splitting the input anywhere, a delimiter included, changes nothing. */
  lemma {:induction false} SplitScan(a: seq<byte>, b: seq<byte>, delim: seq<byte>)
    requires |delim| > 0
    ensures Frames(a + b, delim) == Frames(a, delim) + Frames(Tail(a, delim) + b, delim)
    ensures Tail(a + b, delim) == Tail(Tail(a, delim) + b, delim)
    decreases |a|
  {
    hide IndexOf;
    var i := IndexOf(a, delim, 0);
    if i != -1 {
      var n := i + |delim|;
      FirstDelimiterStays(a, b, delim);
      assert (a + b)[..i] == a[..i];
      assert (a + b)[n..] == a[n..] + b;
      SplitScan(a[n..], b, delim);
    }
  }

  predicate NoLongTail(delim: seq<byte>, chunks: seq<seq<byte>>)
    requires |delim| > 0
  {
    forall k :: 0 <= k <= |chunks| ==> |Tail(Flatten(chunks[..k]), delim)| <= MAX_TAIL
  }

  /** The frames, each followed by its delimiter. */
  function Joined(frames: seq<seq<byte>>, delim: seq<byte>): seq<byte> {
    if |frames| == 0 then [] else Joined(frames[..|frames| - 1], delim) + frames[|frames| - 1] + delim
  }

  lemma {:induction false} JoinedConcat(a: seq<seq<byte>>, b: seq<seq<byte>>, delim: seq<byte>)
    ensures Joined(a + b, delim) == Joined(a, delim) + Joined(b, delim)
  {
    if |b| == 0 {
      assert a + b == a;
    } else {
      var n := |b| - 1;
      assert (a + b)[..|a + b| - 1] == a + b[..n];
      JoinedConcat(a, b[..n], delim);
    }
  }

  lemma JoinedOne(frame: seq<byte>, delim: seq<byte>)
    ensures Joined([frame], delim) == frame + delim
  {
    assert [frame][..0] == [] && Joined([], delim) == [];
  }

  lemma CutAt(buffer: seq<byte>, delim: seq<byte>, i: nat)
    requires At(buffer, delim, i)
    ensures buffer == (buffer[..i] + delim) + buffer[i + |delim|..]
  {
    assert buffer[i..i + |delim|] == delim;
  }

  /** A scan loses no byte: the frames with their delimiters, followed by the tail, are the buffer. */
  lemma {:induction false} ScanRejoins(buffer: seq<byte>, delim: seq<byte>)
    requires |delim| > 0
    ensures Joined(Frames(buffer, delim), delim) + Tail(buffer, delim) == buffer
    decreases |buffer|
  {
    hide Joined, At, IndexOf;
    var i := IndexOf(buffer, delim, 0);
    if i == -1 {
      JoinedNone(delim);
    } else {
      var rest := buffer[i + |delim|..];
      ScanRejoins(rest, delim);
      hide Frames, Tail;
      ScanStep(buffer, delim, 0);
      assert buffer[0..] == buffer && buffer[0..i] == buffer[..i];
      JoinedConcat([buffer[..i]], Frames(rest, delim), delim);
      JoinedOne(buffer[..i], delim);
      CutAt(buffer, delim, i);
      Associate(buffer[..i] + delim, Joined(Frames(rest, delim), delim), Tail(rest, delim));
    }
  }

  lemma Associate(a: seq<byte>, b: seq<byte>, c: seq<byte>)
    ensures (a + b) + c == a + (b + c)
  {
  }

  lemma JoinedNone(delim: seq<byte>)
    ensures Joined([], delim) == []
  {
  }

  function Kept(f: Framer, delim: seq<byte>): nat {
    |Joined(f.frames, delim)| + |f.buffer|
  }

  /** One arrival keeps every byte, or drops an overlong tail. */
  lemma FeedWeight(f: Framer, delim: seq<byte>, data: seq<byte>)
    requires |delim| > 0
    ensures var tail := Tail(f.buffer + data, delim);
            Kept(Feed(f, delim, data), delim) ==
              Kept(f, delim) + |data| - if data != [] && |tail| > MAX_TAIL then |tail| else 0
  {
    hide IndexOf, Frames, Tail, Joined;
    JoinedConcat(f.frames, Frames(f.buffer + data, delim), delim);
    ScanRejoins(f.buffer + data, delim);
  }

  /** Chunked feeding never gains bytes, and keeps them all only while no tail overflows. */
  lemma {:induction false} FeedAllWeight(delim: seq<byte>, chunks: seq<seq<byte>>)
    requires |delim| > 0
    ensures Kept(FeedAll(delim, chunks), delim) <= |Flatten(chunks)|
    ensures Kept(FeedAll(delim, chunks), delim) == |Flatten(chunks)| ==> NoLongTail(delim, chunks)
  {
    if |chunks| == 0 {
      assert chunks[..0] == chunks;
    } else {
      hide IndexOf, Frames, Tail, Joined;
      var n := |chunks| - 1;
      var before, data := chunks[..n], chunks[n];
      FeedAllWeight(delim, before);
      FeedWeight(FeedAll(delim, before), delim, data);
      if Kept(FeedAll(delim, chunks), delim) == |Flatten(chunks)| {
        FeedAllScansWhole(delim, before);
        NoLongTailStep(delim, chunks);
      }
    }
  }

  lemma NoLongTailStep(delim: seq<byte>, chunks: seq<seq<byte>>)
    requires |delim| > 0 && |chunks| > 0
    requires var before := chunks[..|chunks| - 1];
             && NoLongTail(delim, before)
             && (chunks[|chunks| - 1] != [] ==>
                   |Tail(Tail(Flatten(before), delim) + chunks[|chunks| - 1], delim)| <= MAX_TAIL)
    ensures NoLongTail(delim, chunks)
  {
    hide IndexOf, Frames, Tail;
    var n := |chunks| - 1;
    var before, data := chunks[..n], chunks[n];
    SplitScan(Flatten(before), data, delim);
    assert before[..n] == before && chunks[..n + 1] == chunks;
    assert data == [] ==> Flatten(chunks) == Flatten(before);
    forall k | 0 <= k <= |chunks| ensures |Tail(Flatten(chunks[..k]), delim)| <= MAX_TAIL {
      if k <= n {
        assert chunks[..k] == before[..k];
      }
    }
  }

  lemma {:induction false} FeedAllScansWhole(delim: seq<byte>, chunks: seq<seq<byte>>)
    requires |delim| > 0 && NoLongTail(delim, chunks)
    ensures FeedAll(delim, chunks) == WholeScan(delim, Flatten(chunks))
  {
    if |chunks| > 0 {
      var n := |chunks| - 1;
      var before := chunks[..n];
      forall k | 0 <= k <= n ensures |Tail(Flatten(before[..k]), delim)| <= MAX_TAIL {
        assert before[..k] == chunks[..k];
      }
      FeedAllScansWhole(delim, before);
      SplitScan(Flatten(before), chunks[n], delim);
      assert chunks[..|chunks|] == chunks;
      if chunks[n] == [] {
        assert Flatten(chunks) == Flatten(before);
      }
    }
  }

  /** Feeding chunk by chunk equals scanning the whole stream exactly when no chunk leaves
      an unterminated tail of more than 4096 bytes. */
  lemma ChunkedFeedIsWholeScanIff(delim: seq<byte>, chunks: seq<seq<byte>>)
    requires |delim| > 0
    ensures FeedAll(delim, chunks) == WholeScan(delim, Flatten(chunks)) <==> NoLongTail(delim, chunks)
  {
    if NoLongTail(delim, chunks) {
      FeedAllScansWhole(delim, chunks);
    }
    if FeedAll(delim, chunks) == WholeScan(delim, Flatten(chunks)) {
      FeedAllWeight(delim, chunks);
      ScanRejoins(Flatten(chunks), delim);
    }
  }

  /** Two chunkings of one stream give the same frames and the same buffer. */
  lemma ChunkingIndependence(delim: seq<byte>, chunks: seq<seq<byte>>, others: seq<seq<byte>>)
    requires |delim| > 0 && Flatten(chunks) == Flatten(others)
    requires NoLongTail(delim, chunks) && NoLongTail(delim, others)
    ensures FeedAll(delim, chunks) == FeedAll(delim, others)
  {
    FeedAllScansWhole(delim, chunks);
    FeedAllScansWhole(delim, others);
  }

  /** After every arrival the buffer is bounded and holds no complete frame. */
  lemma {:induction false} BufferStaysClean(delim: seq<byte>, chunks: seq<seq<byte>>)
    requires |delim| > 0
    ensures var buffer := FeedAll(delim, chunks).buffer;
            |buffer| <= MAX_TAIL && forall j :: !At(buffer, delim, j)
  {
    if |chunks| > 0 {
      BufferStaysClean(delim, chunks[..|chunks| - 1]);
    }
  }

  /** Why the bound matters: an overlong tail is lost when a chunk ends inside it. */
  lemma LongTailIsLost(delim: seq<byte>, tail: seq<byte>)
    requires |delim| > 0 && |tail| > MAX_TAIL
    requires IndexOf(tail, delim, 0) == -1 && IndexOf(tail + delim, delim, 0) == |tail|
    ensures FeedAll(delim, [tail + delim]).frames == [tail]
    ensures FeedAll(delim, [tail, delim]).frames == [[]]
  {
    hide IndexOf;
    SingleFrame(tail, delim);
    assert [] + delim == delim;
    assert IndexOf([] + delim, delim, 0) == 0 by { assert At(delim, delim, 0); }
    SingleFrame([], delim);
    assert [tail + delim][..0] == [] && [tail, delim][..1] == [tail] && [tail][..0] == [];
    assert [] + (tail + delim) == tail + delim && [] + tail == tail;
    assert FeedAll(delim, [tail + delim]) == Feed(EMPTY_FRAMER, delim, tail + delim);
    assert FeedAll(delim, [tail]) == Feed(EMPTY_FRAMER, delim, tail) == EMPTY_FRAMER;
    assert FeedAll(delim, [tail, delim]) == Feed(EMPTY_FRAMER, delim, delim);
  }

  function Repeat(b: byte, n: nat): (line: seq<byte>)
    ensures |line| == n && forall i :: 0 <= i < n ==> line[i] == b
  {
    seq(n, _ => b)
  }

  /** For example any line of more than 4096 times the same byte that is not in the delimiter. */
  lemma LongLineIsLost(delim: seq<byte>, b: byte, n: nat)
    requires |delim| > 0 && b !in delim && n > MAX_TAIL
    ensures var line := Repeat(b, n);
            && FeedAll(delim, [line + delim]).frames == [line]
            && FeedAll(delim, [line, delim]).frames == [[]]
  {
    hide FeedAll, IndexOf;
    var line := Repeat(b, n);
    forall j | 0 <= j < n ensures !At(line, delim, j) && !At(line + delim, delim, j) {
      assert delim[0] in delim && (line + delim)[j + 0] == b;
    }
    assert At(line + delim, delim, n);
    LongTailIsLost(delim, line);
  }

  lemma SingleFrame(body: seq<byte>, delim: seq<byte>)
    requires |delim| > 0 && IndexOf(body + delim, delim, 0) == |body|
    ensures Frames(body + delim, delim) == [body] && Tail(body + delim, delim) == []
  {
    hide IndexOf;
    assert (body + delim)[..|body|] == body;
    assert (body + delim)[|body| + |delim|..] == [];
  }
}
