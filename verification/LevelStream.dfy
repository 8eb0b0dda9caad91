/** The chunking of a compressed level into Level Data Chunk packets of protocol version 7. */
module LevelStreams {
  import opened Blocks

  const PACKET_TYPE_LEVEL_DATA_CHUNK: byte := 3
  const CHUNK_SIZE := 1024
  const HEADER_SIZE := 3
  const PACKET_SIZE := 1028

  function Zeros(n: nat): (z: seq<byte>)
    ensures |z| == n && forall k :: 0 <= k < n ==> z[k] == 0
  {
    seq(n, _ => 0)
  }

  // ------------------------------------------------------------------
  // The receiving side.

  function ChunkLength(packet: seq<byte>): nat
    requires |packet| == PACKET_SIZE
  {
    packet[1] as int * 256 + packet[2] as int
  }

  /** A well-formed chunk: type byte, big-endian payload length, 1024 payload bytes that are
      zero beyond the length, and the percentage. */
  predicate ValidChunk(packet: seq<byte>, length: nat, percent: byte) {
    && |packet| == PACKET_SIZE && length <= CHUNK_SIZE
    && packet[0] == PACKET_TYPE_LEVEL_DATA_CHUNK
    && ChunkLength(packet) == length
    && (forall k :: HEADER_SIZE + length <= k < HEADER_SIZE + CHUNK_SIZE ==> packet[k] == 0)
    && packet[PACKET_SIZE - 1] == percent
  }

  /** The bytes that a client keeps of a packet. */
  function Payload(packet: seq<byte>): seq<byte> {
    if |packet| == PACKET_SIZE && ChunkLength(packet) <= CHUNK_SIZE
    then packet[HEADER_SIZE..HEADER_SIZE + ChunkLength(packet)]
    else []
  }

  /** The data that a client has after receiving the packets. */
  function Received(packets: seq<seq<byte>>): seq<byte> {
    if packets == [] then [] else
      Received(packets[..|packets| - 1]) + Payload(packets[|packets| - 1])
  }

  ghost predicate FullChunks(packets: seq<seq<byte>>) {
    forall k :: 0 <= k < |packets| ==>
      |packets[k]| == PACKET_SIZE && ValidChunk(packets[k], CHUNK_SIZE, packets[k][PACKET_SIZE - 1])
  }

  lemma FinishedChunk(packet: seq<byte>, index: nat, percent: byte, finished: seq<byte>)
    requires index <= CHUNK_SIZE && |packet| == HEADER_SIZE + index
    requires packet[0] == PACKET_TYPE_LEVEL_DATA_CHUNK
    requires finished == (packet + Zeros(CHUNK_SIZE - index) + [percent])[1 := index / 256][2 := index % 256]
    ensures ValidChunk(finished, index, percent)
    ensures Payload(finished) == packet[HEADER_SIZE..]
  {
    assert finished[HEADER_SIZE..HEADER_SIZE + index] == packet[HEADER_SIZE..];
  }

  lemma ReceivedLast(packets: seq<seq<byte>>, packet: seq<byte>)
    ensures Received(packets + [packet]) == Received(packets) + Payload(packet)
  {
    assert (packets + [packet])[..|packets|] == packets;
  }

  lemma OneMoreFull(packets: seq<seq<byte>>, packet: seq<byte>, percent: byte)
    requires ValidChunk(packet, CHUNK_SIZE, percent)
    ensures FullChunks(packets) ==> FullChunks(packets + [packet])
  {
  }

  /** A series of packets as a closed stream leaves it: only the last may be short, none is empty. */
  ghost predicate ClosedStream(packets: seq<seq<byte>>) {
    |packets| > 0 ==>
      FullChunks(packets[..|packets| - 1]) && 0 < |Payload(packets[|packets| - 1])|
  }

  // ------------------------------------------------------------------
  // The sending side.

  class LevelStream {
    var packet: seq<byte>
    var index: nat
    var percent: byte
    /** Everything handed to the player's connection so far. */
    var sent: seq<seq<byte>>

    ghost predicate Valid()
      reads this
    {
      && index < CHUNK_SIZE
      && |packet| == HEADER_SIZE + index
      && packet[..HEADER_SIZE] == [PACKET_TYPE_LEVEL_DATA_CHUNK, 0, 0]
    }

    /** Sent payload plus what is still buffered. */
    ghost function Contents(): seq<byte>
      requires |packet| >= HEADER_SIZE
      reads this
    {
      Received(sent) + packet[HEADER_SIZE..]
    }

    constructor ()
      ensures Valid() && index == 0 && sent == [] && Contents() == []
    {
      packet := [PACKET_TYPE_LEVEL_DATA_CHUNK, 0, 0];
      index := 0;
      percent := 0;
      sent := [];
    }

    method Reset()
      modifies this`packet, this`index
      ensures Valid() && index == 0
    {
      packet := [];
      packet := packet + [PACKET_TYPE_LEVEL_DATA_CHUNK, 0, 0];
      index := 0;
    }

    method Send()
      requires index <= CHUNK_SIZE && |packet| == HEADER_SIZE + index
      requires packet[..HEADER_SIZE] == [PACKET_TYPE_LEVEL_DATA_CHUNK, 0, 0]
      modifies this`packet, this`index, this`sent
      ensures Valid() && index == 0
      ensures Contents() == old(Contents())
      ensures |sent| == |old(sent)| + 1 && sent[..|old(sent)|] == old(sent)
      ensures ValidChunk(sent[|sent| - 1], old(index), percent)
      ensures Payload(sent[|sent| - 1]) == old(packet[HEADER_SIZE..])
      ensures var p := sent[|sent| - 1];
              && |p| == 1028 && p[0] == 3 && p[1] == old(index) / 256 && p[2] == old(index) % 256
              && p[3..3 + old(index)] == old(packet[3..]) && p[1027] == percent
              && forall k :: 3 + old(index) <= k < 1027 ==> p[k] == 0
      ensures FullChunks(old(sent)) && old(index) == CHUNK_SIZE ==> FullChunks(sent)
    {
      hide ValidChunk, Payload, Received, FullChunks;
      ghost var was := packet;
      if index < CHUNK_SIZE {
        packet := packet + Zeros(CHUNK_SIZE - index);
      }
      assert packet == was + Zeros(CHUNK_SIZE - index);
      packet := packet + [percent];
      packet := packet[1 := index / 256][2 := index % 256];
      FinishedChunk(was, index, percent, packet);
      ReceivedLast(sent, packet);
      if index == CHUNK_SIZE {
        OneMoreFull(sent, packet, percent);
      }
      sent := sent + [packet];
      Reset();
      assert packet[HEADER_SIZE..] == [];
    }

    /** Buffers bytes that fit into the current chunk. */
    method Append(p: seq<byte>)
      requires Valid() && index + |p| <= CHUNK_SIZE
      modifies this`packet, this`index
      ensures index == old(index) + |p| && |packet| == HEADER_SIZE + index
      ensures packet[..HEADER_SIZE] == [PACKET_TYPE_LEVEL_DATA_CHUNK, 0, 0]
      ensures Contents() == old(Contents()) + p
    {
      ghost var before := packet;
      packet := packet + p;
      assert packet[HEADER_SIZE..] == before[HEADER_SIZE..] + p;
      index := index + |p|;
    }

    method Write(p: seq<byte>) returns (n: nat)
      requires Valid() && FullChunks(sent)
      modifies this`packet, this`index, this`sent
      ensures Valid() && FullChunks(sent)
      ensures n == |p|
      ensures Contents() == old(Contents()) + p
      ensures |sent| * 1024 + index == |old(sent)| * 1024 + old(index) + |p| && index < 1024
      ensures old(sent) <= sent
    {
      hide FullChunks, Received;
      var offset := 0;
      var count := |p|;
      assert p[..0] == [];
      while count > 0
        invariant Valid() && FullChunks(sent) && old(sent) <= sent
        invariant 0 <= offset && 0 <= count && offset + count == |p|
        invariant Contents() == old(Contents()) + p[..offset]
        invariant |sent| * CHUNK_SIZE + index == |old(sent)| * CHUNK_SIZE + old(index) + offset
      {
        var size := if CHUNK_SIZE - index < count then CHUNK_SIZE - index else count;
        Append(p[offset..offset + size]);
        assert p[..offset] + p[offset..offset + size] == p[..offset + size];
        offset := offset + size;
        count := count - size;
        if index == CHUNK_SIZE {
          Send();
        }
      }
      assert p[..|p|] == p;
      n := |p|;
    }

    /** Sends what is left. Only this last packet may be short. */
    method Close()
      requires Valid() && FullChunks(sent)
      modifies this`packet, this`index, this`sent
      ensures Valid() && index == 0
      ensures Received(sent) == Contents() == old(Contents())
      ensures old(index) == 0 ==> sent == old(sent)
      ensures old(index) > 0 ==> |sent| == |old(sent)| + 1
      ensures ClosedStream(sent)
      ensures forall k :: 0 <= k < |sent| ==>
                |sent[k]| == PACKET_SIZE && ValidChunk(sent[k], ChunkLength(sent[k]), sent[k][PACKET_SIZE - 1])
    {
      ghost var before := sent;
      if index > 0 {
        Send();
        assert sent[..|before|] == before;
      } else if |sent| > 0 {
        assert |sent[|sent| - 1]| == PACKET_SIZE && ValidChunk(sent[|sent| - 1], CHUNK_SIZE,
          sent[|sent| - 1][PACKET_SIZE - 1]);
      }
    }
  }

  // ------------------------------------------------------------------
  // What the client sees.

  /** Cutting a stream into full chunks and one rest. */
  function Chunks(data: seq<byte>): seq<seq<byte>> {
    if |data| == 0 then []
    else if |data| <= CHUNK_SIZE then [data]
    else [data[..CHUNK_SIZE]] + Chunks(data[CHUNK_SIZE..])
  }

  /** A chunk has 1024 bytes, the last one what is left; none is empty. */
  lemma {:induction false} ChunkSizes(data: seq<byte>, k: nat)
    requires k < |Chunks(data)|
    ensures 1024 * k < |data|
    ensures Chunks(data)[k] == data[1024 * k..if 1024 * k + 1024 < |data| then 1024 * k + 1024 else |data|]
    ensures k == |Chunks(data)| - 1 <==> |data| <= 1024 * k + 1024
  {
    FirstChunk(data);
    hide Chunks;
    if |data| > 1024 && k > 0 {
      var rest := data[1024..];
      ChunkSizes(rest, k - 1);
      var i, n := 1024 * (k - 1), if 1024 * k < |rest| then 1024 * k else |rest|;
      assert rest[i..n] == data[1024 + i..1024 + n];
    }
  }

  lemma FirstChunk(data: seq<byte>)
    ensures |data| == 0 ==> Chunks(data) == []
    ensures 0 < |data| <= 1024 ==> Chunks(data) == [data]
    ensures |data| > 1024 ==> |Chunks(data)| == 1 + |Chunks(data[1024..])| >= 2
    ensures |data| > 1024 ==> Chunks(data)[0] == data[..1024]
    ensures |data| > 1024 ==> forall k :: 0 < k < |Chunks(data)| ==> Chunks(data)[k] == Chunks(data[1024..])[k - 1]
  {
  }

  function Payloads(packets: seq<seq<byte>>): seq<seq<byte>> {
    if packets == [] then [] else [Payload(packets[0])] + Payloads(packets[1..])
  }

  lemma {:induction false} ReceivedFirst(packets: seq<seq<byte>>)
    requires packets != []
    ensures Received(packets) == Payload(packets[0]) + Received(packets[1..])
  {
    if |packets| > 1 {
      var init := packets[..|packets| - 1];
      ReceivedFirst(init);
      assert init[1..] == packets[1..][..|packets| - 2];
    }
  }

  lemma RestClosed(packets: seq<seq<byte>>)
    requires |packets| > 1 && ClosedStream(packets)
    ensures ClosedStream(packets[1..]) && |Payload(packets[0])| == CHUNK_SIZE
  {
    hide ValidChunk, Payload;
    var rest := packets[1..];
    forall k | 0 <= k < |rest| - 1
      ensures |rest[k]| == PACKET_SIZE && ValidChunk(rest[k], CHUNK_SIZE, rest[k][PACKET_SIZE - 1])
    {
      assert rest[k] == packets[..|packets| - 1][k + 1];
    }
    assert packets[..|packets| - 1][0] == packets[0];
    FullPayload(packets[0]);
  }

  lemma FullPayload(packet: seq<byte>)
    requires |packet| == PACKET_SIZE && ValidChunk(packet, CHUNK_SIZE, packet[PACKET_SIZE - 1])
    ensures |Payload(packet)| == CHUNK_SIZE
  {
  }

  /** The packets of a closed stream are determined by the data alone, however it was written. */
  lemma {:induction false} PacketsDetermined(packets: seq<seq<byte>>)
    requires ClosedStream(packets)
    ensures Payloads(packets) == Chunks(Received(packets))
  {
    hide Payload, Received, ClosedStream;
    if |packets| == 1 {
      ReceivedFirst(packets);
      NothingReceived();
      OnePacket(packets);
      assert packets[1..] == [];
      assert Received(packets) == Payload(packets[0]);
    } else if |packets| > 1 {
      var rest := packets[1..];
      ReceivedFirst(packets);
      RestClosed(packets);
      PacketsDetermined(rest);
      NonEmpty(rest);
      var data := Received(packets);
      assert data[..CHUNK_SIZE] == Payload(packets[0]) && data[CHUNK_SIZE..] == Received(rest);
    } else {
      NothingReceived();
    }
  }

  lemma NothingReceived()
    ensures Received([]) == []
  {
  }

  lemma OnePacket(packets: seq<seq<byte>>)
    requires |packets| == 1 && ClosedStream(packets)
    ensures 0 < |Payload(packets[0])| <= CHUNK_SIZE
  {
    PayloadBound(packets[0]);
  }

  lemma PayloadBound(packet: seq<byte>)
    ensures |Payload(packet)| <= CHUNK_SIZE
  {
  }

  lemma NonEmpty(packets: seq<seq<byte>>)
    requires packets != [] && ClosedStream(packets)
    ensures Received(packets) != []
  {
  }
}
