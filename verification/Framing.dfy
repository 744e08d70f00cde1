/**
  * Length-prefixed messages over a byte stream that arrives in arbitrary pieces: four little-endian length
  * bytes, then exactly that many payload bytes.
  */
module Framing {

  type Byte = b: int | 0 <= b < 256

  const LIMIT := 0x1_0000_0000

  datatype Result<+T> = Ok(value: T) | ConnectionError | LengthError

  // ----- Length prefix -----

  /** The four bytes of `n`, least significant first. */
  function PackLength(n: nat): (p: seq<Byte>)
    requires n < LIMIT
    ensures |p| == 4
  {
    [n % 256, n / 256 % 256, n / 256 / 256 % 256, n / 256 / 256 / 256]
  }

  function UnpackLength(p: seq<Byte>): (n: nat)
    requires |p| == 4
  {
    var a: int, b: int, c: int, d: int := p[0], p[1], p[2], p[3];
    a + 256 * (b + 256 * (c + 256 * d))
  }

  lemma UnpackPacked(n: nat)
    requires n < LIMIT
    ensures UnpackLength(PackLength(n)) == n
  {
  }

  lemma PackUnpacked(p: seq<Byte>)
    requires |p| == 4
    ensures UnpackLength(p) < LIMIT && PackLength(UnpackLength(p)) == p
  {
  }

  // ----- Frames -----

  function Frame(payload: seq<Byte>): seq<Byte>
    requires |payload| < LIMIT
  {
    PackLength(|payload|) + payload
  }

  datatype Read = Read(payload: seq<Byte>, rest: seq<Byte>)

  /** Read the first frame of a stream. */
  function ReadFrame(stream: seq<Byte>): Result<Read> {
    if |stream| < 4 then ConnectionError
    else
      var n := UnpackLength(stream[..4]);
      if |stream| < 4 + n then ConnectionError else Ok(Read(stream[4..4 + n], stream[4 + n..]))
  }

  ghost predicate Sendable(payloads: seq<seq<Byte>>) {
    forall i :: 0 <= i < |payloads| ==> |payloads[i]| < LIMIT
  }

  function Frames(payloads: seq<seq<Byte>>): seq<Byte>
    requires Sendable(payloads)
  {
    if payloads == [] then [] else Frame(payloads[0]) + Frames(payloads[1..])
  }

  /** Read `k` frames in turn. */
  function ReadFrames(stream: seq<Byte>, k: nat): Result<(seq<seq<Byte>>, seq<Byte>)> {
    if k == 0 then Ok(([], stream))
    else
      match ReadFrame(stream)
      case Ok(r) =>
        (match ReadFrames(r.rest, k - 1)
         case Ok((payloads, rest)) => Ok(([r.payload] + payloads, rest))
         case _ => ConnectionError)
      case _ => ConnectionError
  }

  lemma ReadOneFrame(payload: seq<Byte>, rest: seq<Byte>)
    requires |payload| < LIMIT
    ensures ReadFrame(Frame(payload) + rest) == Ok(Read(payload, rest))
  {
  }

  /** A stream of frames reads back as the payloads that were sent, and nothing after them is touched. */
  lemma {:induction false} FramesReadBack(payloads: seq<seq<Byte>>, rest: seq<Byte>)
    requires Sendable(payloads)
    ensures ReadFrames(Frames(payloads) + rest, |payloads|) == Ok((payloads, rest))
  {
    if payloads == [] {
      assert [] + rest == rest;
    } else {
      var tail := Frames(payloads[1..]) + rest;
      assert Frames(payloads) + rest == Frame(payloads[0]) + tail;
      ReadOneFrame(payloads[0], tail);
      FramesReadBack(payloads[1..], rest);
      hide ReadFrame, Frame, Frames;
      assert payloads == [payloads[0]] + payloads[1..];
    }
  }

  lemma OnlyOneFrame(stream: seq<Byte>)
    requires ReadFrame(stream).Ok?
    ensures var r := ReadFrame(stream).value; |r.payload| < LIMIT && stream == Frame(r.payload) + r.rest
  {
    PackUnpacked(stream[..4]);
    hide PackLength, UnpackLength;
  }

  /** Conversely, a stream that reads as `payloads` consists of exactly their frames. */
  lemma {:induction false} ReadsOnlyFrames(stream: seq<Byte>, payloads: seq<seq<Byte>>, rest: seq<Byte>)
    requires ReadFrames(stream, |payloads|) == Ok((payloads, rest))
    ensures Sendable(payloads) && stream == Frames(payloads) + rest
  {
    if payloads != [] {
      hide ReadFrame, Frame;
      var r := ReadFrame(stream).value;
      var tail := ReadFrames(r.rest, |payloads| - 1).value.0;
      assert payloads == [r.payload] + tail && tail == payloads[1..];
      ReadsOnlyFrames(r.rest, tail, rest);
      OnlyOneFrame(stream);
      assert Frame(r.payload) + (Frames(tail) + rest) == (Frame(r.payload) + Frames(tail)) + rest;
    }
  }

  // ----- The client's end of the socket -----

  class Connection {
    /** Bytes the peer will have sent before closing. */
    var incoming: seq<Byte>
    var outgoing: seq<Byte>
    /** How the k-th receive splits the stream: any function. */
    const split: nat -> nat
    var receives: nat

    constructor (incoming: seq<Byte>, split: nat -> nat)
      ensures this.incoming == incoming && outgoing == [] && this.split == split && receives == 0
    {
      this.incoming, outgoing, this.split, receives := incoming, [], split, 0;
    }

    /** Receive some bytes, at least one and at most `max`; none when the peer has closed. */
    method Recv(max: nat) returns (chunk: seq<Byte>)
      requires max > 0
      modifies this`incoming, this`receives
      ensures |chunk| <= max && old(incoming) == chunk + incoming
      ensures chunk == [] <==> old(incoming) == []
    {
      var available := if |incoming| < max then |incoming| else max;
      var size := if available == 0 then 0 else 1 + split(receives) % available;
      chunk := incoming[..size];
      incoming := incoming[size..];
      receives := receives + 1;
    }

    method RecvExact(n: nat) returns (r: Result<seq<Byte>>)
      modifies this`incoming, this`receives
      ensures |old(incoming)| >= n ==> r == Ok(old(incoming)[..n]) && incoming == old(incoming)[n..]
      ensures |old(incoming)| < n ==> r == ConnectionError && incoming == []
    {
      var buf: seq<Byte> := [];
      while |buf| < n
        invariant |buf| <= n && old(incoming) == buf + incoming
        decreases n - |buf|
      {
        var chunk := Recv(n - |buf|);
        if chunk == [] {
          return ConnectionError;
        }
        buf := buf + chunk;
      }
      r := Ok(buf);
    }

    /** Receive one message. */
    method RecvFrame() returns (r: Result<seq<Byte>>)
      modifies this`incoming, this`receives
      ensures match ReadFrame(old(incoming))
              case Ok(f) => r == Ok(f.payload) && incoming == f.rest
              case _ => r == ConnectionError
    {
      ghost var stream := incoming;
      var header := RecvExact(4);
      if header.Ok? {
        var n := UnpackLength(header.value);
        assert |incoming| >= n ==> stream[4..4 + n] == incoming[..n] && stream[4 + n..] == incoming[n..];
        r := RecvExact(n);
      } else {
        r := header;
      }
    }

    /** Send one message and receive one; a payload too long for the prefix is refused before anything is sent. */
    method SendAndRecv(payload: seq<Byte>) returns (r: Result<seq<Byte>>)
      modifies this
      ensures |payload| >= LIMIT ==> r == LengthError && outgoing == old(outgoing) && incoming == old(incoming)
      ensures |payload| < LIMIT ==>
                && outgoing == old(outgoing) + Frame(payload)
                && match ReadFrame(old(incoming))
                   case Ok(f) => r == Ok(f.payload) && incoming == f.rest
                   case _ => r == ConnectionError
    {
      if |payload| >= LIMIT {
        return LengthError;
      }
      outgoing := outgoing + (PackLength(|payload|) + payload);
      r := RecvFrame();
    }

    /** Receive `k` messages in turn. */
    method RecvFrames(k: nat) returns (r: Result<seq<seq<Byte>>>)
      modifies this`incoming, this`receives
      ensures match ReadFrames(old(incoming), k)
              case Ok((payloads, rest)) => r == Ok(payloads) && incoming == rest
              case _ => r == ConnectionError
    {
      if k == 0 {
        return Ok([]);
      }
      var first := RecvFrame();
      if !first.Ok? {
        return ConnectionError;
      }
      var others := RecvFrames(k - 1);
      match others {
        case Ok(payloads) => r := Ok([first.value] + payloads);
        case _ => r := ConnectionError;
      }
    }
  }
}
