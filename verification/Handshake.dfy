/** The SYN / SYN_ACK exchange that fixes the sizes of a replication, and the addresses both sides compute
    from them afterwards. */
module Handshake {
  import opened Geometry

  datatype Opcode = SYN | SYN_ACK | ACK | DATA | Other

  /** A `replication_header` on the wire. */
  datatype Message = Message(opcode: Opcode, bitmapSize: nat, grainSize: nat, chunkSize: nat,
                             currPos: nat, chunkPos: nat)

  const U32: nat := 0x1_0000_0000
  const U64: nat := 0x1_0000_0000_0000_0000
  const I64: nat := 0x8000_0000_0000_0000

  /** `start_lba`, in 64-bit arithmetic; both sides use this expression with their own sizes. */
  function StartLba(grainSize: nat, chunkSize: nat, pos: nat, k: nat): nat {
    (pos * grainSize % U64 + k * chunkSize % U64) % U64
  }

  /** `(off64_t)(start_lba * CHUNK_SIZE)` */
  function SeekOffset(lba: nat): int {
    var x := lba * SECTOR_BYTES % U64;
    if x < I64 then x else x - U64
  }

  /** One partner's header object, on either side. */
  class Header {
    var opcode: Opcode
    var bitmapSize: nat
    var grainSize: nat
    var chunkSize: nat
    var currPos: nat
    var chunkPos: nat

    constructor ()
      ensures opcode == Other && bitmapSize == grainSize == chunkSize == currPos == chunkPos == 0
    {
      opcode := Other;
      bitmapSize, grainSize, chunkSize, currPos, chunkPos := 0, 0, 0, 0, 0;
    }

    /** What a send of the whole object puts on the wire. */
    function Wire(): Message
      reads this
    {
      Message(opcode, bitmapSize, grainSize, chunkSize, currPos, chunkPos)
    }

    predicate HasSizes(bitmap: nat, grain: nat, chunk: nat)
      reads this
    {
      bitmapSize == bitmap && grainSize == grain && chunkSize == chunk
    }

    /** A receive into the whole object. */
    method Receive(m: Message)
      modifies this
      ensures Wire() == m
    {
      opcode, bitmapSize, grainSize, chunkSize := m.opcode, m.bitmapSize, m.grainSize, m.chunkSize;
      currPos, chunkPos := m.currPos, m.chunkPos;
    }

    /** `replic_hdr_server_setup` */
    method Setup(bitmap: nat, grain: nat, chunk: nat)
      modifies this`bitmapSize, this`grainSize, this`chunkSize
      ensures HasSizes(bitmap, grain, chunk)
    {
      bitmapSize, grainSize, chunkSize := bitmap, grain, chunk;
    }

    /** `replic_hdr_server_nego`: the received header gets the server's sizes; the minimum the two sides
        were meant to agree on is compiled out. */
    method ServerNego(rcvd: Header)
      modifies rcvd`bitmapSize, rcvd`grainSize, rcvd`chunkSize
      ensures rcvd.HasSizes(bitmapSize, grainSize, chunkSize)
      ensures HasSizes(old(bitmapSize), old(grainSize), old(chunkSize))
    {
      rcvd.bitmapSize := bitmapSize;
      rcvd.grainSize := grainSize;
      rcvd.chunkSize := chunkSize;
    }

    /** `replic_hdr_client_nego`: `rcvd` may be this very object, which the reply was received into. */
    method ClientNego(rcvd: Header)
      modifies this`bitmapSize, this`grainSize, this`chunkSize
      ensures HasSizes(old(rcvd.bitmapSize), old(rcvd.grainSize), old(rcvd.chunkSize))
    {
      bitmapSize := rcvd.bitmapSize;
      grainSize := rcvd.grainSize;
      chunkSize := rcvd.chunkSize;
    }

    /** `syn_received`, from the SYN on the wire to the reply. */
    method SynReceived(syn: Message) returns (reply: Message)
      ensures reply == syn.(opcode := SYN_ACK, bitmapSize := bitmapSize, grainSize := grainSize, chunkSize := chunkSize)
    {
      var rcvd := new Header();
      rcvd.Receive(syn);
      ServerNego(rcvd);
      rcvd.opcode := SYN_ACK;
      reply := rcvd.Wire();
    }

    /** `recv_hdr`: the reply lands in this object, and a SYN_ACK is negotiated. */
    method RecvHdr(reply: Message)
      modifies this
      ensures Wire() == reply
    {
      Receive(reply);
      if opcode == SYN_ACK {
        ClientNego(this);
      }
    }

    /** `start_protocol_negotiation` with the server at the other end.  The sizes proposed are passed as
        32-bit integers; whatever they are, both sides end with the server's. */
    method StartProtocolNegotiation(bitmap: nat, grain: nat, chunk: nat, server: Header)
      requires server != this
      modifies this
      ensures HasSizes(server.bitmapSize, server.grainSize, server.chunkSize) && opcode == ACK
    {
      opcode := SYN;
      bitmapSize, grainSize, chunkSize := bitmap % U32, grain % U32, chunk % U32;
      var reply := server.SynReceived(Wire());
      RecvHdr(reply);
      opcode := ACK;
    }

    /** The client's half of one DATA request: the header it sends, and the offset it will write at. */
    method RequestChunk(bit: nat, k: nat) returns (request: Message, offset: int)
      modifies this`opcode, this`currPos, this`chunkPos
      ensures request == Wire() && request.currPos == bit && request.chunkPos == k && request.opcode == DATA
      ensures offset == SeekOffset(StartLba(grainSize, chunkSize, bit, k))
    {
      currPos := bit;
      chunkPos := k;
      opcode := DATA;
      request := Wire();
      var startLba := StartLba(grainSize, chunkSize, bit, k);
      offset := SeekOffset(startLba);
    }

    /** `get_data` with `chunk_read_server`: the offset the server reads at. */
    method ServeChunk(request: Message) returns (offset: int)
      ensures offset == SeekOffset(StartLba(grainSize, chunkSize, request.currPos, request.chunkPos))
    {
      var startLba := StartLba(grainSize, chunkSize, request.currPos, request.chunkPos);
      offset := SeekOffset(startLba);
    }
  }

  lemma ProductFits(bit: nat, k: nat, geo: Geometry)
    requires geo.Valid() && geo.Lba(bit, k) < geo.cap && geo.cap * SECTOR_BYTES <= I64
    ensures 0 <= bit * geo.grain < U64 && 0 <= k * BUFFER < U64
    ensures 0 <= geo.Lba(bit, k) * SECTOR_BYTES < I64
  {
  }

  /** On a device of at most 2^63 bytes the 64-bit arithmetic is exact: the offset is that of the first
      sector of the chunk. */
  lemma {:induction false} OffsetIsExact(geo: Geometry, bit: nat, k: nat)
    requires geo.Valid() && geo.cap * SECTOR_BYTES <= I64 && geo.Lba(bit, k) < geo.cap
    ensures SeekOffset(StartLba(geo.grain, BUFFER, bit, k)) == geo.Lba(bit, k) * SECTOR_BYTES
    ensures geo.Lba(bit, k) * SECTOR_BYTES == bit * geo.grain * SECTOR_BYTES + k * BUF_SIZE_IN_BYTES
  {
    BytesOf(bit * geo.grain, k);
    ProductFits(bit, k, geo);
    Small(bit * geo.grain, U64);
    Small(k * BUFFER, U64);
    Small(geo.Lba(bit, k), U64);
    Small(geo.Lba(bit, k) * SECTOR_BYTES, U64);
  }

  /** A buffer's worth of sectors. */
  lemma BytesOf(first: nat, k: nat)
    ensures (first + k * BUFFER) * SECTOR_BYTES == first * SECTOR_BYTES + k * BUF_SIZE_IN_BYTES
  {
  }

  lemma Small(x: nat, m: nat)
    requires x < m
    ensures x % m == x
  {
  }

  /** The server is set up with the geometry's sizes; handshake, then one request: the client proposes anything at
      all, and writes each chunk where the server read it, which is where the geometry of the server's sizes puts
      it. */
  method NegotiateAndCopy(client: Header, server: Header, geo: Geometry, bitmap: nat, grain: nat, chunk: nat,
                          bit: nat, k: nat)
    returns (read: int, written: int)
    requires client != server && geo.Valid()
    modifies client, server
    ensures client.HasSizes(geo.bits / 8, geo.grain, BUFFER)
    ensures read == written
    ensures geo.Lba(bit, k) < geo.cap && geo.cap * SECTOR_BYTES <= I64 ==> written == geo.Lba(bit, k) * SECTOR_BYTES
  {
    server.Setup(geo.bits / 8, geo.grain, BUFFER);
    client.StartProtocolNegotiation(bitmap, grain, chunk, server);
    var request: Message;
    request, written := client.RequestChunk(bit, k);
    read := server.ServeChunk(request);
    if geo.Lba(bit, k) < geo.cap && geo.cap * SECTOR_BYTES <= I64 {
      OffsetIsExact(geo, bit, k);
    }
  }
}
