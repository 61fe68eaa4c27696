/**
 Messages on the wire: an 8-byte header and the data, padded to a multiple of the 16-byte cipher block, and the
 loop that reads them back.  Sizes are 32-bit unsigned, and the reader's subtraction wraps.
 */
module Framing {
  import opened Common

  const TWO_32: nat := 0x1_0000_0000
  const HEADER: nat := 8
  const BUFFER_SIZE: nat := 16
  const LEFTOVER: nat := BUFFER_SIZE - HEADER
  const MAX_MESSAGE_SIZE: nat := 1024 * 1024 * 2

  /** msg_type and data; the header's size field is the length of the data. */
  datatype Message = Message(kind: nat, data: seq<Byte>)

  ghost predicate Sendable(m: Message)
  {
    m.kind < TWO_32 && |m.data| < TWO_32
  }

  /** A 32-bit number in memory order, low byte first. */
  function Word(n: nat): (r: seq<Byte>)
    requires n < TWO_32
    ensures |r| == 4
  {
    [n % 256, n / 256 % 256, n / 0x1_0000 % 256, n / 0x100_0000]
  }

  function WordAt(s: seq<Byte>): (n: nat)
    requires |s| == 4
    ensures n < TWO_32
  {
    var a: int, b: int, c: int, d: int := s[0], s[1], s[2], s[3];
    a + 256 * b + 0x1_0000 * c + 0x100_0000 * d
  }

  lemma {:induction false} WordRoundTrip(n: nat)
    requires n < TWO_32
    ensures WordAt(Word(n)) == n
  {
    var a, b, c := n / 256, n / 0x1_0000, n / 0x100_0000;
    assert a / 256 == b && b / 256 == c;
  }

  function Zeros(n: nat): (r: seq<Byte>)
    ensures |r| == n
  {
    seq(n, i => 0)
  }

  function Padded(n: nat): (r: nat)
    ensures n <= r
  {
    16 * ((n + 15) / 16)
  }

  /** The bytes sent for a message. */
  function Frame(m: Message): (r: seq<Byte>)
    requires Sendable(m)
    ensures |r| == Padded(HEADER + |m.data|)
  {
    Word(|m.data|) + Word(m.kind) + m.data + Zeros(Padded(HEADER + |m.data|) - HEADER - |m.data|)
  }

  function Frames(messages: seq<Message>): (r: seq<Byte>)
    requires forall m :: m in messages ==> Sendable(m)
  {
    if messages == [] then [] else Frame(messages[0]) + Frames(messages[1..])
  }

  /** What is left to read after the first 16 bytes, in 32-bit unsigned arithmetic. */
  function Remaining(size: nat): (r: nat)
  {
    16 * (((size - LEFTOVER) % TWO_32 + 15) % TWO_32 / 16)
  }

  /**
   For every size the reader allows, those below the leftover
   included, it reads on for exactly the rest of the frame.
   */
  lemma {:induction false} ReaderAgrees(size: nat)
    requires size <= MAX_MESSAGE_SIZE
    ensures BUFFER_SIZE + Remaining(size) == Padded(HEADER + size) && LEFTOVER + Remaining(size) >= size
  {
    if size < LEFTOVER {
      assert (size - LEFTOVER) % TWO_32 == size - LEFTOVER + TWO_32;
      assert (size - LEFTOVER + TWO_32 + 15) % TWO_32 == size + 7;
    } else {
      assert (size - LEFTOVER) % TWO_32 == size - LEFTOVER;
      assert (size - LEFTOVER + 15) % TWO_32 == size + 7;
      assert 16 + 16 * ((size + 7) / 16) == 16 * ((size + 7 + 16) / 16);
    }
  }

  /** Why reading stopped: the stream ended, or a header announced too much. */
  datatype End = Eof | TooLarge

  datatype Reading = Reading(messages: seq<Message>, received: nat, end: End)

  /** One turn of the loop: a message and the bytes it took, or the reason to stop and the bytes read until then. */
  datatype Turn = Got(message: Message, length: nat) | Stop(received: nat, end: End)

  function ReadOne(wire: seq<Byte>): (r: Turn)
    ensures if r.Got? then 0 < r.length <= |wire| else r.received <= |wire|
  {
    if |wire| < BUFFER_SIZE then Stop(0, Eof)
    else
      var size := WordAt(wire[..4]);
      if size > MAX_MESSAGE_SIZE then Stop(BUFFER_SIZE, TooLarge)
      else if |wire| < BUFFER_SIZE + Remaining(size) then Stop(BUFFER_SIZE, Eof)
      else
        ReaderAgrees(size);
        Got(Message(WordAt(wire[4..8]), wire[8..8 + size]), BUFFER_SIZE + Remaining(size))
  }

  function Parse(wire: seq<Byte>): (r: Reading)
    decreases |wire|
  {
    match ReadOne(wire)
    case Stop(received, end) => Reading([], received, end)
    case Got(m, n) =>
      var rest := Parse(wire[n..]);
      Reading([m] + rest.messages, n + rest.received, rest.end)
  }

  lemma {:induction false} ParseFrame(m: Message, rest: seq<Byte>)
    requires Sendable(m) && |m.data| <= MAX_MESSAGE_SIZE
    ensures var r := Parse(rest);
            Parse(Frame(m) + rest) == Reading([m] + r.messages, |Frame(m)| + r.received, r.end)
  {
    var f := Frame(m);
    var wire := f + rest;
    WordRoundTrip(|m.data|);
    WordRoundTrip(m.kind);
    ReaderAgrees(|m.data|);
    assert wire[..4] == Word(|m.data|);
    assert wire[4..8] == Word(m.kind);
    assert wire[8..8 + |m.data|] == m.data;
    assert wire[|f|..] == rest;
  }

  /** Any sequence of allowed messages is read back as it was sent, and every byte sent is counted as received. */
  lemma {:induction false} RoundTrip(messages: seq<Message>)
    requires forall m :: m in messages ==> Sendable(m) && |m.data| <= MAX_MESSAGE_SIZE
    ensures Parse(Frames(messages)) == Reading(messages, |Frames(messages)|, Eof)
  {
    if messages != [] {
      RoundTrip(messages[1..]);
      ParseFrame(messages[0], Frames(messages[1..]));
      assert messages == [messages[0]] + messages[1..];
    }
  }

  lemma {:induction false} TooLargeAtOnce(large: Message, rest: seq<Byte>)
    requires Sendable(large) && |large.data| > MAX_MESSAGE_SIZE
    ensures Parse(Frame(large) + rest) == Reading([], BUFFER_SIZE, TooLarge)
  {
    WordRoundTrip(|large.data|);
    assert (Frame(large) + rest)[..4] == Word(|large.data|);
  }

  /** A message above the maximum ends the reading there, whatever follows. */
  lemma {:induction false} TooLargeStops(messages: seq<Message>, large: Message, rest: seq<Message>)
    requires forall m :: m in messages ==> Sendable(m) && |m.data| <= MAX_MESSAGE_SIZE
    requires Sendable(large) && |large.data| > MAX_MESSAGE_SIZE && forall m :: m in rest ==> Sendable(m)
    ensures Parse(Frames(messages + [large] + rest)) == Reading(messages, |Frames(messages)| + BUFFER_SIZE, TooLarge)
  {
    hide Parse;
    var all := messages + [large] + rest;
    if messages == [] {
      assert all[1..] == rest && all[0] == large;
      TooLargeAtOnce(large, Frames(rest));
    } else {
      TooLargeStops(messages[1..], large, rest);
      assert all[1..] == messages[1..] + [large] + rest && all[0] == messages[0];
      ParseFrame(messages[0], Frames(all[1..]));
      assert messages == [messages[0]] + messages[1..];
    }
  }

  class Sender {
    var wire: seq<Byte>      // everything written to the socket
    var bytesSent: nat

    constructor ()
      ensures wire == [] && bytesSent == 0
    {
      wire, bytesSent := [], 0;
    }

    method SendMessage(m: Message)
      requires Sendable(m)
      modifies this
      ensures wire == old(wire) + Frame(m) && bytesSent == old(bytesSent) + |Frame(m)|
    {
      var size := HEADER + |m.data|;
      var padded := Padded(size);
      var buffer := new Byte[padded];
      var header := Word(|m.data|) + Word(m.kind);
      forall i | 0 <= i < HEADER {
        buffer[i] := header[i];
      }
      forall i | 0 <= i < |m.data| {
        buffer[HEADER + i] := m.data[i];
      }
      forall i | size <= i < padded {
        buffer[i] := 0;
      }
      assert buffer[..] == Frame(m);
      wire := wire + buffer[..];
      bytesSent := bytesSent + padded;
    }

    /** What has been sent so far is what a reader gets. */
    method SendAll(messages: seq<Message>)
      requires wire == [] && bytesSent == 0 && forall m :: m in messages ==> Sendable(m) && |m.data| <= MAX_MESSAGE_SIZE
      modifies this
      ensures bytesSent == |wire| && Parse(wire) == Reading(messages, bytesSent, Eof)
    {
      for i := 0 to |messages|
        invariant wire == Frames(messages[..i]) && bytesSent == |wire|
      {
        FramesAppend(messages[..i], messages[i]);
        assert messages[..i] + [messages[i]] == messages[..i + 1];
        SendMessage(messages[i]);
      }
      assert messages[..|messages|] == messages;
      RoundTrip(messages);
    }
  }

  lemma {:induction false} FramesAppend(messages: seq<Message>, m: Message)
    requires Sendable(m) && forall x :: x in messages ==> Sendable(x)
    ensures Frames(messages + [m]) == Frames(messages) + Frame(m)
  {
    var all := messages + [m];
    if messages != [] {
      assert all[1..] == messages[1..] + [m];
      FramesAppend(messages[1..], m);
    }
  }

  /** The read loop, with the messages it hands on and the bytes it counts. */
  method ReadLoop(wire: seq<Byte>) returns (messages: seq<Message>, received: nat, end: End)
    ensures Reading(messages, received, end) == Parse(wire)
  {
    hide ReadOne;
    messages, received := [], 0;
    assert wire[0..] == wire;
    while true
      invariant received <= |wire|
      invariant var r := Parse(wire[received..]);
                Parse(wire) == Reading(messages + r.messages, received + r.received, r.end)
      decreases |wire| - received
    {
      var turn := ReadMessage(wire, received);
      match turn {
        case Stop(n, why) =>
          return messages, received + n, why;
        case Got(m, n) =>
          assert wire[received..][n..] == wire[received + n..];
          messages, received := messages + [m], received + n;
      }
    }
  }

  /**
   Fills the buffer, resizes the message to what is announced and its
   padding, reads that, and cuts the padding off.
   */
  method ReadMessage(wire: seq<Byte>, pos: nat) returns (r: Turn)
    requires pos <= |wire|
    ensures r == ReadOne(wire[pos..])
  {
    ghost var left := wire[pos..];
    if |wire| - pos < BUFFER_SIZE {
      return Stop(0, Eof);
    }
    var buffer := wire[pos..pos + BUFFER_SIZE];
    var size, kind := WordAt(buffer[..4]), WordAt(buffer[4..8]);
    assert buffer == left[..BUFFER_SIZE];
    assert buffer[..4] == left[..4];
    assert buffer[4..8] == left[4..8];
    if size > MAX_MESSAGE_SIZE {
      return Stop(BUFFER_SIZE, TooLarge);
    }
    var more := Remaining(size);
    if |wire| - pos - BUFFER_SIZE < more {
      return Stop(BUFFER_SIZE, Eof);
    }
    ReaderAgrees(size);
    var data := buffer[HEADER..] + wire[pos + BUFFER_SIZE..pos + BUFFER_SIZE + more];
    assert wire[pos + BUFFER_SIZE..pos + BUFFER_SIZE + more] == left[BUFFER_SIZE..BUFFER_SIZE + more];
    assert data == left[HEADER..BUFFER_SIZE + more];
    assert data[..size] == left[8..8 + size];
    r := Got(Message(kind, data[..size]), BUFFER_SIZE + more);
  }
}
