/** CANDevice: the receive buffer, its scanning loop, and the sender. */
module CanDevice {
  import opened Bytes
  import opened Framing
  import opened Slcan

  lemma EmittedIs(frame: seq<byte>)
    ensures Emitted(frame) == if Decode(frame).Some? then [Decode(frame).value] else []
  {
    hide Decode;
  }

  lemma MoveOne(taken: seq<seq<byte>>, frame: seq<byte>, rest: seq<seq<byte>>)
    ensures taken + ([frame] + rest) == (taken + [frame]) + rest
  {
  }

  class CANDevice {
    const hasTransport: bool
    var online: bool
    var buffer: seq<byte>
    /** The messageReceived signals emitted so far. */
    var received: seq<CanMessage>
    /** The bytes handed to the transport so far. */
    var written: seq<byte>
    ghost var frames: seq<seq<byte>>

    ghost predicate Valid()
      reads this
    {
      received == DecodeAll(frames)
    }

    ghost function View(): Framer
      reads this
    {
      Framer(buffer, frames)
    }

    constructor (hasTransport: bool)
      ensures Valid() && View() == EMPTY_FRAMER && !online && written == [] && this.hasTransport == hasTransport
    {
      this.hasTransport := hasTransport;
      online := false;
      buffer, received, written, frames := [], [], [], [];
    }

    /** accepted is the byte count the transport reports back. */
    method SendMessage(message: CanMessage, accepted: int) returns (sent: bool)
      requires Valid()
      modifies this`written
      ensures Valid()
      ensures sent == (online && hasTransport && accepted == |Encode(message)|)
      ensures written == old(written) + if online && hasTransport then Encode(message) else []
    {
      if !online || !hasTransport {
        return false;
      }
      var encoded := Encode(message);
      written := written + encoded;
      sent := accepted == |encoded|;
    }

    method OnTransportDataReceived(data: seq<byte>)
      requires Valid()
      modifies this`buffer, this`received, this`frames
      ensures Valid()
      ensures View() == if hasTransport then Feed(old(View()), DELIMITER, data) else old(View())
      ensures received == old(received) +
              if hasTransport && data != [] then DecodeAll(Frames(old(buffer) + data, DELIMITER)) else []
    {
      if !hasTransport || data == [] {
        return;
      }
      buffer := buffer + data;
      ParseCANData();
      DecodeAllConcat(old(frames), Frames(old(buffer) + data, DELIMITER));
    }

    method ParseCANData()
      requires Valid()
      modifies this`buffer, this`received, this`frames
      ensures Valid()
      ensures frames == old(frames) + Frames(old(buffer), DELIMITER)
      ensures buffer == var tail := Tail(old(buffer), DELIMITER); if |tail| > MAX_TAIL then [] else tail
    {
      hide IndexOf, At, Frames, Tail, Decode, DecodeAll, Emitted;
      var start := 0;
      var end := IndexOf(buffer, DELIMITER, start);
      assert buffer[0..] == buffer;
      ghost var taken: seq<seq<byte>> := [];
      while end != -1
        invariant 0 <= start <= |buffer| && end == IndexOf(buffer, DELIMITER, start)
        invariant buffer == old(buffer) && frames == old(frames) + taken
        invariant taken + Frames(buffer[start..], DELIMITER) == Frames(buffer, DELIMITER)
        invariant Tail(buffer[start..], DELIMITER) == Tail(buffer, DELIMITER)
        invariant Valid()
        decreases |buffer| - start
      {
        ScanStep(buffer, DELIMITER, start);
        var frame := buffer[start..end];
        MoveOne(taken, frame, Frames(buffer[end + 1..], DELIMITER));
        var message := Decode(frame);
        EmittedIs(frame);
        if message.Some? {
          received := received + [message.value];
        }
        DecodeAllAppend(frames, frame);
        frames := frames + [frame];
        taken := taken + [frame];
        start := end + 1;
        end := IndexOf(buffer, DELIMITER, start);
      }
      ScanStep(buffer, DELIMITER, start);
      assert taken + [] == taken;
      if start > 0 {
        buffer := buffer[start..];
      }
      if |buffer| > 4096 {
        buffer := [];
      }
    }
  }
}
