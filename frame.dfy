/**
  The SDIO transmit frame of the MediaTek Bluetooth driver: a 5-byte header
  (16-bit little-endian total length, two reserved zero bytes, the HCI packet
  type) followed by the packet payload, built in a shared scratch buffer and
  handed to the bus transport.
 */
module Frame {

  newtype byte = b: int | 0 <= b < 0x100

  /** Size of the frame header; the payload is copied at this offset. */
  const HEADER_LEN: nat := 5

  /** Linux errno value returned (negated) for a rejected packet. */
  const EINVAL: int := 22

  datatype Option<T> = None | Some(value: T)

  /** An outbound socket buffer: its data pointer (None when null) and its packet type. */
  datatype Skb = Skb(data: Option<seq<byte>>, pktType: byte)

  /** The packet checks of the encoder: a non-null buffer with non-null data,
      a non-empty payload, and a frame no larger than the upload size. */
  predicate Accepts(skb: Option<Skb>, upldSize: nat): (ok: bool)
    ensures skb.None? ==> !ok
    ensures ok ==> HEADER_LEN < upldSize
  {
    skb.Some? && skb.value.data.Some? &&
    |skb.value.data.value| != 0 &&
    |skb.value.data.value| + HEADER_LEN <= upldSize
  }

  /** Low byte of the length field: total & 0xff. */
  function LengthLow(total: nat): byte
  {
    (total % 0x100) as byte
  }

  /** High byte of the length field: (total & 0xff00) >> 8. */
  function LengthHigh(total: nat): byte
  {
    ((total / 0x100) % 0x100) as byte
  }

  function Header(total: nat, pktType: byte): seq<byte>
  {
    [LengthLow(total), LengthHigh(total), 0, 0, pktType]
  }

  /** The bytes handed to the transport for a payload of the given type. */
  function Encode(payload: seq<byte>, pktType: byte): (f: seq<byte>)
    ensures |f| == |payload| + HEADER_LEN && f[HEADER_LEN..] == payload
  {
    Header(|payload| + HEADER_LEN, pktType) + payload
  }

  function Zeros(n: nat): (z: seq<byte>)
    ensures |z| == n && forall i :: 0 <= i < n ==> z[i] == 0
  {
    seq(n, _ => 0)
  }

  /** The whole scratch buffer after encoding: the frame, then the zeros left by the clear. */
  function Image(payload: seq<byte>, pktType: byte, size: nat): seq<byte>
    requires |payload| + HEADER_LEN <= size
  {
    Encode(payload, pktType) + Zeros(size - |payload| - HEADER_LEN)
  }

  /** The 16-bit value carried by the length field. */
  function DecodedLength(f: seq<byte>): nat
    requires |f| >= 2
  {
    f[0] as nat + 0x100 * f[1] as nat
  }

  /** Reads a frame back: its type and the payload that its length field delimits.
      Bytes past the length are ignored, as the padding of the scratch buffer is. */
  function Decode(f: seq<byte>): Option<(byte, seq<byte>)>
  {
    if |f| < HEADER_LEN || f[2] != 0 || f[3] != 0 then None
    else
      var total := DecodedLength(f);
      if total < HEADER_LEN || total > |f| then None
      else Some((f[4], f[HEADER_LEN..total]))
  }

  /** The length field is the total length modulo 2^16: the encoder keeps two bytes only. */
  lemma LengthFieldWraps(payload: seq<byte>, pktType: byte)
    ensures DecodedLength(Encode(payload, pktType)) == (|payload| + HEADER_LEN) % 0x10000
  {
    var total := |payload| + HEADER_LEN;
    var f := Encode(payload, pktType);
    assert f[0] as nat == total % 0x100 && f[1] as nat == (total / 0x100) % 0x100;
    assert total % 0x10000 == total % 0x100 + 0x100 * ((total / 0x100) % 0x100);
  }

  /** Layout of an encoded frame, byte by byte. */
  lemma EncodeLayout(payload: seq<byte>, pktType: byte)
    ensures var f := Encode(payload, pktType);
      |f| == |payload| + HEADER_LEN &&
      f[0] as nat == (|payload| + HEADER_LEN) % 0x100 &&
      f[1] as nat == ((|payload| + HEADER_LEN) / 0x100) % 0x100 &&
      f[2] == 0 && f[3] == 0 && f[4] == pktType &&
      f[HEADER_LEN..] == payload
  {
  }

  /** Decoding an encoded frame, with or without the buffer's zero padding after it,
      gives back the type and the payload, as long as the length fits in 16 bits. */
  lemma DecodeEncode(payload: seq<byte>, pktType: byte, pad: nat)
    requires |payload| + HEADER_LEN < 0x10000
    ensures Decode(Encode(payload, pktType) + Zeros(pad)) == Some((pktType, payload))
  {
    var f := Encode(payload, pktType) + Zeros(pad);
    var total := |payload| + HEADER_LEN;
    LengthFieldWraps(payload, pktType);
    assert DecodedLength(f) == DecodedLength(Encode(payload, pktType));
    assert total % 0x10000 == total;
    assert f[HEADER_LEN..total] == payload;
  }

  /** Conversely, a buffer that decodes starts with exactly the encoding of what it decodes to. */
  lemma EncodeDecode(f: seq<byte>, pktType: byte, payload: seq<byte>)
    requires Decode(f) == Some((pktType, payload))
    ensures |payload| + HEADER_LEN <= |f|
    ensures f[..|payload| + HEADER_LEN] == Encode(payload, pktType)
  {
    var total := DecodedLength(f);
    assert total == |payload| + HEADER_LEN;
    assert f[0] as nat == total % 0x100 by {
      assert total % 0x100 == f[0] as nat;
    }
    assert f[1] as nat == (total / 0x100) % 0x100 by {
      assert total / 0x100 == f[1] as nat;
    }
  }

  /**
    The encoder: checks the packet, clears the scratch buffer, writes the header
    and copies the payload after it, then gives the frame to the transport when
    one is registered. `hostToCard` is the transport callback: None when it is
    not set, Some(r) when it is set and returns r.
    `handed` is what the transport received.
   */
  method TxPkt(txbuf: array<byte>, skb: Option<Skb>, upldSize: nat, hostToCard: Option<int>)
    returns (ret: int, handed: Option<seq<byte>>)
    requires upldSize <= txbuf.Length
    modifies txbuf
    ensures !Accepts(skb, upldSize) ==>
      ret == -EINVAL && handed == None && txbuf[..] == old(txbuf[..])
    ensures Accepts(skb, upldSize) ==>
      var payload := skb.value.data.value;
      txbuf[..] == Image(payload, skb.value.pktType, txbuf.Length) &&
      handed == (if hostToCard.Some? then Some(Encode(payload, skb.value.pktType)) else None) &&
      ret == (if hostToCard.Some? then hostToCard.value else 0)
  {
    if skb.None? {
      return -EINVAL, None;
    }
    if skb.value.data.None? {
      return -EINVAL, None;
    }
    var data := skb.value.data.value;
    var len := |data|;
    if len == 0 || len + HEADER_LEN > upldSize {
      return -EINVAL, None;
    }
    var total := len + HEADER_LEN;

    // memset(txbuf, 0, MTK_TXDATA_SIZE)
    var i := 0;
    while i < txbuf.Length
      invariant 0 <= i <= txbuf.Length
      invariant forall k :: 0 <= k < i ==> txbuf[k] == 0
    {
      txbuf[i] := 0;
      i := i + 1;
    }

    txbuf[0] := LengthLow(total);
    txbuf[1] := LengthHigh(total);
    txbuf[2] := 0;
    txbuf[3] := 0;
    txbuf[4] := skb.value.pktType;

    // memcpy(&txbuf[5], data, len)
    var j := 0;
    while j < len
      invariant 0 <= j <= len
      invariant txbuf[..HEADER_LEN] == Header(total, skb.value.pktType)
      invariant forall k :: 0 <= k < j ==> txbuf[HEADER_LEN + k] == data[k]
      invariant forall k :: HEADER_LEN + j <= k < txbuf.Length ==> txbuf[k] == 0
    {
      txbuf[HEADER_LEN + j] := data[j];
      j := j + 1;
    }

    ghost var image := Image(data, skb.value.pktType, txbuf.Length);
    assert txbuf[..] == image by {
      forall k | 0 <= k < txbuf.Length
        ensures txbuf[k] == image[k]
      {
        if k < HEADER_LEN {
          assert txbuf[..HEADER_LEN][k] == txbuf[k];
        }
      }
    }
    ret := 0;
    handed := None;
    if hostToCard.Some? {
      handed := Some(txbuf[..total]);
      assert txbuf[..total] == image[..total];
      ret := hostToCard.value;
    }
  }
}
