/**
  The byte codec of the optimized communicator: eight bytes of Lamport time in
  the machine's (little-endian) order, one byte of message type, the message.
*/
module WireFormat {
  import opened Packets

  const TIME_MODULUS: nat := 0x1_0000_0000_0000_0000
  const TIME_BYTES: nat := 8
  const HEADER_BYTES: nat := 9

  function TypeByte(t: MessageType): (b: Byte)
    ensures b < 7 && TypeOf(b) == t
  {
    match t
    case MutexRequest => 0
    case MutexAgreement => 1
    case CondWait => 2
    case CondWaitEnd => 3
    case CondWaitEndConfirm => 4
    case CondNotify => 5
    case Sync => 6
  }

  function TypeOf(b: Byte): MessageType
    requires b < 7
  {
    if b == 0 then MutexRequest
    else if b == 1 then MutexAgreement
    else if b == 2 then CondWait
    else if b == 3 then CondWaitEnd
    else if b == 4 then CondWaitEndConfirm
    else if b == 5 then CondNotify
    else MessageType.Sync
  }

  function Pow256(n: nat): (p: nat)
    ensures p > 0
  {
    if n == 0 then 1 else 256 * Pow256(n - 1)
  }

  /** The n low-order bytes of a number, lowest first. */
  function LittleEndian(t: nat, n: nat): (bytes: Bytes)
    ensures |bytes| == n
  {
    if n == 0 then [] else [t % 256] + LittleEndian(t / 256, n - 1)
  }

  function Number(bytes: Bytes): nat {
    if bytes == [] then 0 else bytes[0] + 256 * Number(bytes[1..])
  }

  /** Reading back the n low-order bytes truncates a number to them. */
  lemma {:induction false} NumberOfLittleEndian(t: nat, n: nat)
    ensures Number(LittleEndian(t, n)) == t % Pow256(n)
  {
    if n > 0 {
      NumberOfLittleEndian(t / 256, n - 1);
      assert LittleEndian(t, n)[1..] == LittleEndian(t / 256, n - 1);
      TruncateStep(t, Pow256(n - 1));
    }
  }

  lemma TruncateStep(t: nat, m: nat)
    requires m > 0
    ensures t % 256 + 256 * ((t / 256) % m) == t % (256 * m)
  {
    var q, r := (t / 256) / m, (t / 256) % m;
    assert t / 256 == q * m + r;
    assert t == 256 * (t / 256) + t % 256;
    assert t == q * (256 * m) + (256 * r + t % 256);
    assert 256 * r + t % 256 < 256 * m;
    Remainder(t, q, 256 * m, 256 * r + t % 256);
  }

  lemma AtLeastOnce(a: nat, d: nat)
    requires a >= 1
    ensures a * d >= d
  {
  }

  lemma Quotients(q: nat, p: nat, d: nat)
    ensures q * d - p * d == (q - p) * d
  {
  }

  /** Quotient and remainder are unique. */
  lemma Unique(q: nat, r: nat, p: nat, u: nat, d: nat)
    requires q * d + r == p * d + u && r < d && u < d
    ensures r == u
  {
    if q > p {
      Quotients(q, p, d);
      AtLeastOnce(q - p, d);
    } else if p > q {
      Quotients(p, q, d);
      AtLeastOnce(p - q, d);
    }
  }

  lemma Remainder(t: nat, q: nat, d: nat, r: nat)
    requires d > 0 && t == q * d + r && r < d
    ensures t % d == r
  {
    Unique(q, r, t / d, t % d, d);
  }

  lemma {:induction false} LittleEndianOfNumber(bytes: Bytes)
    ensures LittleEndian(Number(bytes), |bytes|) == bytes
  {
    if bytes != [] {
      LittleEndianOfNumber(bytes[1..]);
      assert Number(bytes) % 256 == bytes[0] && Number(bytes) / 256 == Number(bytes[1..]);
    }
  }

  function Encode(t: LamportTime, messageType: MessageType, message: Bytes): Bytes {
    LittleEndian(t, TIME_BYTES) + [TypeByte(messageType)] + message
  }

  /** None when the bytes are too short, or the type byte names no message type. */
  function GetPacket(encoded: Bytes, source: ProcessId): Option<Packet> {
    if |encoded| < HEADER_BYTES || encoded[TIME_BYTES] >= 7 then None
    else Some(Packet(Number(encoded[..TIME_BYTES]), source, TypeOf(encoded[TIME_BYTES]), encoded[HEADER_BYTES..]))
  }

  /** What stands where: the time lowest byte first, the type's position in the enumeration, the message. */
  ghost predicate Layout(encoded: Bytes, t: LamportTime, messageType: MessageType, message: Bytes) {
    && |encoded| == 9 + |message|
    && encoded[0] == t % 256
    && encoded[1] == t / 0x100 % 256
    && encoded[2] == t / 0x1_0000 % 256
    && encoded[3] == t / 0x100_0000 % 256
    && encoded[4] == t / 0x1_0000_0000 % 256
    && encoded[5] == t / 0x100_0000_0000 % 256
    && encoded[6] == t / 0x1_0000_0000_0000 % 256
    && encoded[7] == t / 0x100_0000_0000_0000 % 256
    && encoded[8] < 7
    && messageType == [MutexRequest, MutexAgreement, CondWait, CondWaitEnd, CondWaitEndConfirm, CondNotify,
                       MessageType.Sync][encoded[8]]
    && encoded[9..] == message
  }

  lemma Quotient(t: nat, q: nat, r: nat, d: nat)
    requires d > 0 && t == q * d + r && r < d
    ensures t / d == q
  {
    Unique(q, r, t / d, t % d, d);
    Cancel(q, t / d, d);
  }

  lemma Cancel(a: nat, b: nat, d: nat)
    requires d > 0 && a * d == b * d
    ensures a == b
  {
    if a > b {
      Quotients(a, b, d);
      AtLeastOnce(a - b, d);
    } else if b > a {
      Quotients(b, a, d);
      AtLeastOnce(b - a, d);
    }
  }

  /** Byte k of a number is what is left of it after k divisions by 256. */
  lemma {:induction false} LittleEndianAt(t: nat, n: nat, k: nat)
    requires k < n
    ensures LittleEndian(t, n)[k] == t / Pow256(k) % 256
  {
    if k > 0 {
      LittleEndianAt(t / 256, n - 1, k - 1);
      DivideTwice(t, Pow256(k - 1));
    }
  }

  lemma DivideTwice(t: nat, m: nat)
    requires m > 0
    ensures t / 256 / m == t / (256 * m)
  {
    var q, r := t / 256 / m, t / 256 % m;
    assert t / 256 == q * m + r;
    assert t == q * (256 * m) + (256 * r + t % 256);
    assert 256 * r + t % 256 < 256 * m;
    Quotient(t, q, 256 * r + t % 256, 256 * m);
  }

  lemma Powers()
    ensures Pow256(0) == 1 && Pow256(1) == 0x100 && Pow256(2) == 0x1_0000 && Pow256(3) == 0x100_0000
    ensures Pow256(4) == 0x1_0000_0000 && Pow256(5) == 0x100_0000_0000 && Pow256(6) == 0x1_0000_0000_0000
    ensures Pow256(7) == 0x100_0000_0000_0000 && Pow256(8) == TIME_MODULUS
  {
    assert Pow256(2) == 0x1_0000;
    assert Pow256(4) == 0x1_0000_0000;
    assert Pow256(6) == 0x1_0000_0000_0000;
  }

  /** The bytes on the wire. */
  lemma EncodedBytes(t: LamportTime, messageType: MessageType, message: Bytes)
    ensures Layout(Encode(t, messageType, message), t, messageType, message)
  {
    var encoded := Encode(t, messageType, message);
    forall k: nat | k < TIME_BYTES ensures encoded[k] == t / Pow256(k) % 256 {
      LittleEndianAt(t, TIME_BYTES, k);
    }
    Powers();
    assert encoded[0] == t / Pow256(0) % 256 && encoded[1] == t / Pow256(1) % 256;
    assert encoded[2] == t / Pow256(2) % 256 && encoded[3] == t / Pow256(3) % 256;
    assert encoded[4] == t / Pow256(4) % 256 && encoded[5] == t / Pow256(5) % 256;
    assert encoded[6] == t / Pow256(6) % 256 && encoded[7] == t / Pow256(7) % 256;
    assert encoded[8] == TypeByte(messageType) && encoded[9..] == message;
  }

  lemma EncodedTime(t: LamportTime, messageType: MessageType, message: Bytes)
    ensures Number(Encode(t, messageType, message)[..TIME_BYTES]) == t % TIME_MODULUS
  {
    assert Encode(t, messageType, message)[..TIME_BYTES] == LittleEndian(t, TIME_BYTES);
    NumberOfLittleEndian(t, TIME_BYTES);
    Powers();
  }

  lemma EncodedParts(t: LamportTime, source: ProcessId, messageType: MessageType, message: Bytes)
    ensures GetPacket(Encode(t, messageType, message), source)
            == Some(Packet(t % TIME_MODULUS, source, messageType, message))
  {
    var encoded := Encode(t, messageType, message);
    EncodedTime(t, messageType, message);
    assert encoded[TIME_BYTES] == TypeByte(messageType) && encoded[HEADER_BYTES..] == message;
  }

  /** Decoding an encoded packet gives it back, with its time truncated to 64 bits;
      so it gives the packet back unchanged exactly for times below 2^64. */
  lemma GetEncoded(t: LamportTime, source: ProcessId, messageType: MessageType, message: Bytes)
    ensures GetPacket(Encode(t, messageType, message), source)
            == Some(Packet(t % TIME_MODULUS, source, messageType, message))
    ensures GetPacket(Encode(t, messageType, message), source) == Some(Packet(t, source, messageType, message)) <==>
              t < TIME_MODULUS
  {
    EncodedParts(t, source, messageType, message);
  }

  /** Nine bytes are enough, if the ninth names a type. */
  lemma GottenExactly(encoded: Bytes, source: ProcessId)
    ensures GetPacket(encoded, source).Some? <==> |encoded| >= 9 && encoded[8] <= 6
  {
  }

  /** Every byte string that can be decoded is the encoding of what it decodes to. */
  lemma EncodeGotten(encoded: Bytes, source: ProcessId)
    requires GetPacket(encoded, source).Some?
    ensures var p := GetPacket(encoded, source).value;
            && Encode(p.lamportTime, p.messageType, p.message) == encoded
            && Layout(encoded, p.lamportTime, p.messageType, p.message) && p.source == source
  {
    LittleEndianOfNumber(encoded[..TIME_BYTES]);
    assert encoded == encoded[..TIME_BYTES] + [encoded[TIME_BYTES]] + encoded[HEADER_BYTES..];
    var p := GetPacket(encoded, source).value;
    EncodedBytes(p.lamportTime, p.messageType, p.message);
  }

  /** Storing a number in the machine's byte order. */
  method StoreTime(buffer: array<Byte>, t: LamportTime)
    requires buffer.Length >= HEADER_BYTES
    modifies buffer
    ensures buffer[..TIME_BYTES] == LittleEndian(t, TIME_BYTES)
  {
    var rest := t;
    for k := 0 to TIME_BYTES
      invariant buffer[..k] + LittleEndian(rest, TIME_BYTES - k) == LittleEndian(t, TIME_BYTES)
    {
      ghost var written, left := buffer[..k], LittleEndian(rest, TIME_BYTES - k);
      buffer[k] := rest % 256;
      rest := rest / 256;
      assert left == [buffer[k]] + LittleEndian(rest, TIME_BYTES - k - 1);
      assert buffer[..k + 1] == written + [buffer[k]];
    }
  }

  /** The encoder resizes a buffer and writes the three parts into it. */
  method EncodeInto(t: LamportTime, messageType: MessageType, message: Bytes) returns (buffer: array<Byte>)
    ensures fresh(buffer) && buffer[..] == Encode(t, messageType, message)
    ensures Layout(buffer[..], t, messageType, message)
  {
    buffer := new Byte[HEADER_BYTES + |message|](_ => 0);
    StoreTime(buffer, t);
    buffer[TIME_BYTES] := TypeByte(messageType);
    ghost var header := buffer[..HEADER_BYTES];
    assert header == LittleEndian(t, TIME_BYTES) + [TypeByte(messageType)];
    for k := 0 to |message|
      invariant buffer[..HEADER_BYTES + k] == header + message[..k]
    {
      buffer[HEADER_BYTES + k] := message[k];
    }
    assert buffer[..] == buffer[..HEADER_BYTES + |message|];
    EncodedBytes(t, messageType, message);
  }
}
