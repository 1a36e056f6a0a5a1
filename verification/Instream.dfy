/** The INSTREAM exchange with the virus scanner: the content goes out in frames, each behind its length in
    four big-endian bytes, and a zero length ends the stream; the answer is read until the peer closes. */
module Instream {
  import opened Common
  import opened Entities
  import Worker

  const CHUNK_SIZE: nat := 4096

  /** `b"zINSTREAM\0"`. */
  const COMMAND: seq<Byte> := [122, 73, 78, 83, 84, 82, 69, 65, 77, 0]

  /** `n.to_bytes(4, byteorder="big")`. */
  function BigEndian(n: nat): (b: seq<Byte>)
    requires n < 0x1_0000_0000
    ensures |b| == 4
  {
    [(n / 0x100_0000) as Byte, (n / 0x1_0000 % 0x100) as Byte, (n / 0x100 % 0x100) as Byte, (n % 0x100) as Byte]
  }

  function FromBigEndian(b: seq<Byte>): nat
    requires |b| == 4
  {
    b[0] as nat * 0x100_0000 + b[1] as nat * 0x1_0000 + b[2] as nat * 0x100 + b[3] as nat
  }

  lemma BigEndianRoundTrip(n: nat)
    requires n < 0x1_0000_0000
    ensures FromBigEndian(BigEndian(n)) == n
  {
    var q := n / 0x100;
    assert n == q * 0x100 + n % 0x100;
    assert q == q / 0x100 * 0x100 + q % 0x100;
    assert n / 0x1_0000 == q / 0x100 && n / 0x100_0000 == q / 0x100 / 0x100;
  }

  function Frame(chunk: seq<Byte>): seq<Byte>
    requires |chunk| <= CHUNK_SIZE
  {
    BigEndian(|chunk|) + chunk
  }

  function ChunkLength(content: seq<Byte>): nat { if |content| < CHUNK_SIZE then |content| else CHUNK_SIZE }

  /** Everything after the command. */
  function Encode(content: seq<Byte>): seq<Byte> {
    if content == [] then BigEndian(0)
    else Frame(content[..ChunkLength(content)]) + Encode(content[ChunkLength(content)..])
  }

  /** The scanner's side: the content of a stream and what follows it; `None` while the stream is incomplete. */
  function Decode(wire: seq<Byte>): Option<(seq<Byte>, seq<Byte>)> {
    if |wire| < 4 then None
    else
      var n := FromBigEndian(wire[..4]);
      if n == 0 then Some(([], wire[4..]))
      else if |wire| < 4 + n then None
      else
        var rest := Decode(wire[4 + n..]);
        if rest.None? then None else Some((wire[4..4 + n] + rest.value.0, rest.value.1))
  }

  /** The lengths of the frames that a stream announces before its end. */
  function FrameLengths(wire: seq<Byte>): seq<nat> {
    if |wire| < 4 then []
    else
      var n := FromBigEndian(wire[..4]);
      if n == 0 || |wire| < 4 + n then [] else [n] + FrameLengths(wire[4 + n..])
  }

  lemma Slices(head: seq<Byte>, chunk: seq<Byte>, rest: seq<Byte>)
    requires |head| == 4
    ensures var wire := head + chunk + rest;
      wire[..4] == head && wire[4..4 + |chunk|] == chunk && wire[4 + |chunk|..] == rest
  {
  }

  /** The first frame of a stream with anything behind it. */
  lemma Unframe(content: seq<Byte>, tail: seq<Byte>)
    requires content != []
    ensures var n := ChunkLength(content); var wire := Encode(content) + tail;
      && |wire| >= 4 + n && FromBigEndian(wire[..4]) == n > 0
      && wire[4..4 + n] == content[..n] && wire[4 + n..] == Encode(content[n..]) + tail
  {
    var n := ChunkLength(content);
    BigEndianRoundTrip(n);
    assert Encode(content) + tail == BigEndian(n) + content[..n] + (Encode(content[n..]) + tail);
    Slices(BigEndian(n), content[..n], Encode(content[n..]) + tail);
  }

  lemma Terminator(tail: seq<Byte>)
    ensures var wire := BigEndian(0) + tail; FromBigEndian(wire[..4]) == 0 && wire[4..] == tail
  {
    BigEndianRoundTrip(0);
    assert (BigEndian(0) + tail)[..4] == BigEndian(0);
  }

  /** Round trip: decoding the sent frames gives back exactly the content, and leaves over exactly what
      follows the stream, for every content and every continuation. */
  lemma {:induction false} RoundTrip(content: seq<Byte>, tail: seq<Byte>)
    ensures Decode(Encode(content) + tail) == Some((content, tail))
    decreases |content|
  {
    if content == [] {
      Terminator(tail);
    } else {
      var n := ChunkLength(content);
      Unframe(content, tail);
      RoundTrip(content[n..], tail);
      assert content == content[..n] + content[n..];
    }
  }

  /** A stream cut short anywhere is incomplete: it is never taken for another content. */
  lemma {:induction false} TruncationIsDetected(content: seq<Byte>, k: nat)
    requires k < |Encode(content)|
    ensures Decode(Encode(content)[..k]) == None
    decreases |content|
  {
    if content != [] {
      var n := ChunkLength(content);
      Unframe(content, []);
      assert Encode(content) + [] == Encode(content);
      if k >= 4 + n {
        TruncationIsDetected(content[n..], k - 4 - n);
        assert Encode(content)[..k][4 + n..] == Encode(content[n..])[..k - 4 - n];
        assert Encode(content)[..k][..4] == Encode(content)[..4];
      } else if k >= 4 {
        assert Encode(content)[..k][..4] == Encode(content)[..4];
      }
    }
  }

  function CeilingDivide(n: nat, d: nat): nat
    requires d > 0
  {
    (n + d - 1) / d
  }

  lemma CeilingStep(n: nat)
    requires n > 0
    ensures CeilingDivide(n, CHUNK_SIZE) ==
      1 + CeilingDivide(n - if n < CHUNK_SIZE then n else CHUNK_SIZE, CHUNK_SIZE)
  {
  }

  /** What goes over the wire: frames of at most 4096 bytes behind their length in four bytes, the most significant
      first, and four zeros at the end. */
  lemma WireFormat(content: seq<Byte>)
    ensures content == [] ==> Encode(content) == [0, 0, 0, 0]
    ensures content != [] ==>
      var n := if |content| < 4096 then |content| else 4096;
      var length := BigEndian(n);
      && Encode(content) == length + content[..n] + Encode(content[n..])
      && length[0] == 0 && length[1] == 0 && length[2] as nat == n / 256 && length[3] as nat == n % 256
  {
    if content != [] { ShortLength(ChunkLength(content)); }
  }

  lemma ShortLength(n: nat)
    requires n <= 4096
    ensures var b := BigEndian(n); b[0] == 0 && b[1] == 0 && b[2] as nat == n / 256 && b[3] as nat == n % 256
  {
    assert n / 0x100_0000 == 0;
    assert n / 0x1_0000 == 0;
    assert n / 0x100 <= 16;
  }

  /** Every frame carries 1 to 4096 bytes, so the zero length is unambiguous; there are ceil(n / 4096) of
      them, and the wire carries four more bytes for each and for the terminator. */
  lemma {:induction false} Framing(content: seq<Byte>, tail: seq<Byte>)
    ensures var lengths := FrameLengths(Encode(content) + tail);
      && (forall i :: 0 <= i < |lengths| ==> 1 <= lengths[i] <= 4096)
      && (forall i :: 0 <= i < |lengths| - 1 ==> lengths[i] == 4096)
      && |lengths| == (|content| + 4095) / 4096
    ensures |COMMAND + Encode(content)| == 10 + |content| + 4 * ((|content| + 4095) / 4096 + 1)
    decreases |content|
  {
    if content == [] {
      Terminator(tail);
    } else {
      var n := ChunkLength(content);
      Unframe(content, tail);
      Framing(content[n..], tail);
      CeilingStep(|content|);
      assert FrameLengths(Encode(content) + tail) == [n] + FrameLengths(Encode(content[n..]) + tail);
    }
  }

  /** What the peer sent until it closed: the packets up to the first empty one. */
  function Joined(packets: seq<seq<Byte>>): seq<Byte> {
    if packets == [] || packets[0] == [] then [] else packets[0] + Joined(packets[1..])
  }

  class Socket {
    var sent: seq<Byte>
    var incoming: seq<seq<Byte>>

    constructor (incoming: seq<seq<Byte>>)
      ensures sent == [] && this.incoming == incoming
    {
      sent := [];
      this.incoming := incoming;
    }

    method SendAll(data: seq<Byte>)
      modifies this`sent
      ensures sent == old(sent) + data
    {
      sent := sent + data;
    }

    /** The next packet; empty once the peer has closed. */
    method Receive() returns (data: seq<Byte>)
      modifies this`incoming
      ensures old(incoming) == [] ==> data == [] && incoming == []
      ensures old(incoming) != [] ==> data == old(incoming)[0] && incoming == old(incoming)[1..]
    {
      if incoming == [] { return []; }
      data := incoming[0];
      incoming := incoming[1..];
    }
  }

  lemma EncodeStep(content: seq<Byte>, offset: nat, end: nat, sent: seq<Byte>)
    requires offset < |content| && end == if offset + CHUNK_SIZE < |content| then offset + CHUNK_SIZE else |content|
    ensures sent + (BigEndian(end - offset) + content[offset..end]) + Encode(content[end..]) == sent + Encode(content[offset..])
  {
    var rest := content[offset..];
    assert rest[..ChunkLength(rest)] == content[offset..end] && rest[ChunkLength(rest)..] == content[end..];
    assert Encode(rest) == Frame(content[offset..end]) + Encode(content[end..]);
  }

  /** The loop over offsets, and the terminator. */
  method SendFrames(socket: Socket, content: seq<Byte>)
    modifies socket`sent
    ensures socket.sent == old(socket.sent) + Encode(content)
  {
    ghost var before := socket.sent;
    var offset := 0;
    while offset < |content|
      invariant 0 <= offset <= |content|
      invariant socket.sent + Encode(content[offset..]) == before + Encode(content)
    {
      var end := if offset + CHUNK_SIZE < |content| then offset + CHUNK_SIZE else |content|;
      var chunk := content[offset..end];
      EncodeStep(content, offset, end, socket.sent);
      socket.SendAll(BigEndian(|chunk|) + chunk);
      offset := end;
    }
    socket.SendAll(BigEndian(0));
  }

  method ReceiveAll(socket: Socket) returns (response: seq<Byte>)
    modifies socket`incoming
    ensures response == Joined(old(socket.incoming))
  {
    ghost var packets := socket.incoming;
    response := [];
    while true
      invariant response + Joined(socket.incoming) == Joined(packets)
      decreases |socket.incoming|
    {
      var data := socket.Receive();
      if data == [] { break; }
      response := response + data;
    }
  }

  /** Python's `s.strip("\0")`. */
  function StripNul(s: string): string {
    if s != "" && s[0] == 0 as char then StripNul(s[1..])
    else if s != "" && s[|s| - 1] == 0 as char then StripNul(s[..|s| - 1])
    else s
  }

  predicate Nuls(s: string) { forall i :: 0 <= i < |s| ==> s[i] == 0 as char }

  /** `text` is what is left of `reply` without the zeros around it, such as the one that ends the answer to a
      z-command. */
  predicate Encloses(reply: string, lead: string, text: string, trail: string) {
    && reply == lead + text + trail && Nuls(lead) && Nuls(trail)
    && (text != "" ==> text[0] != 0 as char && text[|text| - 1] != 0 as char)
  }

  lemma {:induction false} EnclosedText(reply: string, lead: string, text: string, trail: string)
    requires Encloses(reply, lead, text, trail)
    ensures StripNul(reply) == text
    decreases |reply|
  {
    if lead != "" {
      assert reply[1..] == lead[1..] + text + trail;
      EnclosedText(reply[1..], lead[1..], text, trail);
    } else if text == "" && trail != "" {
      assert reply[1..] == lead + text + trail[1..];
      EnclosedText(reply[1..], lead, text, trail[1..]);
    } else if trail != "" {
      assert reply[..|reply| - 1] == lead + text + trail[..|trail| - 1];
      EnclosedText(reply[..|reply| - 1], lead, text, trail[..|trail| - 1]);
    } else {
      assert reply == text;
    }
  }

  /** `scan`: what goes out decodes to the content; the line that comes back does not depend on how the answer
      was cut. `decode` is the decoding of bytes to text, which replaces what it cannot decode. */
  method Scan(socket: Socket, content: seq<Byte>, decode: seq<Byte> -> string) returns (line: string)
    modifies socket
    ensures socket.sent == old(socket.sent) + [0x7a, 0x49, 0x4e, 0x53, 0x54, 0x52, 0x45, 0x41, 0x4d, 0x00] + Encode(content)
    ensures Decode(socket.sent[|old(socket.sent)| + 10..]) == Some((content, []))
    ensures line == Worker.Strip(StripNul(decode(Joined(old(socket.incoming)))))
    ensures forall lead, text, trail ::
      Encloses(decode(Joined(old(socket.incoming))), lead, text, trail) ==> line == Worker.Strip(text)
  {
    socket.SendAll(COMMAND);
    ghost var before := socket.sent;
    SendFrames(socket, content);
    RoundTrip(content, []);
    assert socket.sent[|before|..] == Encode(content) + [];
    var response := ReceiveAll(socket);
    line := Worker.Strip(StripNul(decode(response)));
    forall lead, text, trail | Encloses(decode(response), lead, text, trail) ensures line == Worker.Strip(text) {
      EnclosedText(decode(response), lead, text, trail);
    }
  }
}
