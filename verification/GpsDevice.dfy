/** GPSDevice: NMEA sentences end in CR LF; a GGA sentence refreshes the location. */
module GpsDevice {
  import opened Bytes
  import opened Framing

  const CRLF: seq<byte> := [13, 10]
  const GPGGA: seq<byte> := [36, 71, 80, 71, 71, 65]
  const GNGGA: seq<byte> := [36, 71, 78, 71, 71, 65]

  datatype Location = Location(satellites: nat, fixType: string)

  const NO_FIX := Location(0, "none")
  const FIX := Location(8, "3D")

  /** QChar::isSpace on the Latin-1 range. */
  predicate IsSpace(b: byte) {
    9 <= b <= 13 || b == 32 || b == 0x85 || b == 0xA0
  }

  function TrimFront(line: seq<byte>): seq<byte> {
    if |line| > 0 && IsSpace(line[0]) then TrimFront(line[1..]) else line
  }

  function TrimBack(line: seq<byte>): seq<byte> {
    if |line| > 0 && IsSpace(line[|line| - 1]) then TrimBack(line[..|line| - 1]) else line
  }

  function Trimmed(line: seq<byte>): seq<byte> {
    TrimBack(TrimFront(line))
  }

  /** The bytes of an ASCII text. */
  function Ascii(text: string): seq<byte>
    requires forall i :: 0 <= i < |text| ==> text[i] as int < 128
  {
    seq(|text|, i requires 0 <= i < |text| => text[i] as int)
  }

  lemma {:induction false} FrontIsSpace(line: seq<byte>)
    ensures var n := |line| - |TrimFront(line)|;
            && 0 <= n <= |line| && TrimFront(line) == line[n..] && forall i :: 0 <= i < n ==> IsSpace(line[i])
    ensures |TrimFront(line)| > 0 ==> !IsSpace(TrimFront(line)[0])
  {
    if |line| > 0 && IsSpace(line[0]) {
      FrontIsSpace(line[1..]);
      var n := |line[1..]| - |TrimFront(line[1..])|;
      forall i | 0 <= i < n + 1 ensures IsSpace(line[i]) {
        assert i > 0 ==> line[i] == line[1..][i - 1];
      }
    }
  }

  lemma {:induction false} BackIsSpace(line: seq<byte>)
    ensures var n := |TrimBack(line)|;
            && n <= |line| && TrimBack(line) == line[..n] && forall i :: n <= i < |line| ==> IsSpace(line[i])
    ensures |TrimBack(line)| > 0 ==> !IsSpace(TrimBack(line)[|TrimBack(line)| - 1])
  {
    if |line| > 0 && IsSpace(line[|line| - 1]) {
      BackIsSpace(line[..|line| - 1]);
    }
  }

  /** The part of a line that is left: a stretch of it between spaces, with none at its own ends. */
  lemma TrimmedIs(line: seq<byte>)
    ensures exists a, b :: 0 <= a <= b <= |line| && Trimmed(line) == line[a..b] && OnlySpaces(line, a, b)
    ensures var t := Trimmed(line); |t| > 0 ==> !IsSpace(t[0]) && !IsSpace(t[|t| - 1])
  {
    var front := TrimFront(line);
    FrontIsSpace(line);
    BackIsSpace(front);
    var a := |line| - |front|;
    var b := a + |TrimBack(front)|;
    forall i | b <= i < |line| ensures IsSpace(line[i]) {
      assert line[i] == front[i - a];
    }
    assert Trimmed(line) == line[a..b] && OnlySpaces(line, a, b);
  }

  predicate OnlySpaces(line: seq<byte>, a: int, b: int)
    requires 0 <= a <= b <= |line|
  {
    (forall i :: 0 <= i < a ==> IsSpace(line[i])) && (forall i :: b <= i < |line| ==> IsSpace(line[i]))
  }

  predicate IsGga(sentence: seq<byte>) {
    GPGGA <= Trimmed(sentence) || GNGGA <= Trimmed(sentence)
  }

  /** Blanks: tab, line feed, vertical tab, form feed, carriage return, space, next line, no-break space. */
  lemma BlanksAre(b: byte)
    ensures IsSpace(b) <==> b in {9, 10, 11, 12, 13, 32, 133, 160}
  {
  }

  /** A GGA sentence is one that begins, after blanks, with the talker and type of a GPS or combined fix. */
  lemma GgaIs(sentence: seq<byte>)
    ensures IsGga(sentence) <==> Ascii("$GPGGA") <= Trimmed(sentence) || Ascii("$GNGGA") <= Trimmed(sentence)
  {
    assert Ascii("$GPGGA") == GPGGA;
    assert Ascii("$GNGGA") == GNGGA;
  }

  function GgaCount(sentences: seq<seq<byte>>): nat {
    if |sentences| == 0 then 0
    else GgaCount(sentences[..|sentences| - 1]) + if IsGga(sentences[|sentences| - 1]) then 1 else 0
  }

  lemma GgaCountAppend(sentences: seq<seq<byte>>, sentence: seq<byte>)
    ensures GgaCount(sentences + [sentence]) == GgaCount(sentences) + if IsGga(sentence) then 1 else 0
  {
    hide IsGga;
    assert (sentences + [sentence])[..|sentences|] == sentences;
  }

  class GPSDevice {
    const hasTransport: bool
    var buffer: seq<byte>
    var currentLocation: Location
    /** The number of locationUpdated signals emitted so far. */
    var updates: nat
    ghost var sentences: seq<seq<byte>>

    ghost predicate Valid()
      reads this
    {
      && updates == GgaCount(sentences)
      && currentLocation == if updates > 0 then FIX else NO_FIX
    }

    ghost function View(): Framer
      reads this
    {
      Framer(buffer, sentences)
    }

    constructor (hasTransport: bool)
      ensures Valid() && View() == EMPTY_FRAMER && this.hasTransport == hasTransport
    {
      this.hasTransport := hasTransport;
      buffer, sentences, updates, currentLocation := [], [], 0, NO_FIX;
    }

    method OnTransportDataReceived(data: seq<byte>)
      requires Valid()
      modifies this
      ensures Valid()
      ensures View() == if hasTransport then Feed(old(View()), CRLF, data) else old(View())
    {
      if !hasTransport || data == [] {
        return;
      }
      buffer := buffer + data;
      ParseNMEA();
    }

    method ParseNMEA()
      requires Valid()
      modifies this
      ensures Valid()
      ensures sentences == old(sentences) + Frames(old(buffer), CRLF)
      ensures buffer == var tail := Tail(old(buffer), CRLF); if |tail| > MAX_TAIL then [] else tail
    {
      hide IndexOf, Frames, Tail, IsGga, GgaCount;
      var start := 0;
      var end := IndexOf(buffer, CRLF, start);
      assert buffer[0..] == buffer;
      ghost var taken: seq<seq<byte>> := [];
      while end != -1
        invariant 0 <= start <= |buffer| && end == IndexOf(buffer, CRLF, start)
        invariant buffer == old(buffer) && sentences == old(sentences) + taken
        invariant taken + Frames(buffer[start..], CRLF) == Frames(buffer, CRLF)
        invariant Tail(buffer[start..], CRLF) == Tail(buffer, CRLF)
        invariant Valid()
        decreases |buffer| - start
      {
        ScanStep(buffer, CRLF, start);
        var sentence := buffer[start..end];
        if IsGga(sentence) {
          currentLocation := FIX;
          updates := updates + 1;
        }
        GgaCountAppend(sentences, sentence);
        assert taken + ([sentence] + Frames(buffer[end + 2..], CRLF))
            == (taken + [sentence]) + Frames(buffer[end + 2..], CRLF);
        sentences := sentences + [sentence];
        taken := taken + [sentence];
        start := end + 2;
        end := IndexOf(buffer, CRLF, start);
      }
      ScanStep(buffer, CRLF, start);
      if start > 0 {
        buffer := buffer[start..];
      }
      if |buffer| > 4096 {
        buffer := [];
      }
    }
  }

  /** The number of location updates depends on the received bytes alone, not on how the
      transport cut them, even in the middle of a CR LF. */
  lemma UpdatesDependOnStream(chunks: seq<seq<byte>>)
    requires NoLongTail(CRLF, chunks)
    ensures GgaCount(FeedAll(CRLF, chunks).frames) == GgaCount(Frames(Flatten(chunks), CRLF))
  {
    FeedAllScansWhole(CRLF, chunks);
  }
}
