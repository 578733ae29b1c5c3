/** Message identifiers of the USB binary protocol spoken to the rear panel
    (`BinaryMessageId`, an `int` enum marked `@unique`). */
module BinaryConstants {
  import opened Common

  datatype BinaryMessageId =
    | Echo
    | Ack
    | AckFailed
    | DeviceInfoRequest
    | DeviceInfoResponse
    | EnterBootloaderRequest
    | EnterBootloaderResponse

  /** Every identifier, in declaration order. */
  const AllIds: seq<BinaryMessageId> := [
    Echo, Ack, AckFailed, DeviceInfoRequest, DeviceInfoResponse,
    EnterBootloaderRequest, EnterBootloaderResponse
  ]

  /** The integer value of an identifier on the wire. */
  function Encode(id: BinaryMessageId): (n: int)
    ensures 0 <= n <= 6
    ensures n == 0 <==> id == Echo
  {
    match id
    case Echo => 0x00
    case Ack => 0x01
    case AckFailed => 0x02
    case DeviceInfoRequest => 0x03
    case DeviceInfoResponse => 0x04
    case EnterBootloaderRequest => 0x05
    case EnterBootloaderResponse => 0x06
  }

  /** `BinaryMessageId(n)`: the identifier with value `n`, or none (Python
      raises `ValueError`). */
  function Decode(n: int): (r: Option<BinaryMessageId>)
    ensures r.Some? <==> 0 <= n <= 6
    ensures r.Some? ==> Encode(r.value) == n
  {
    if n == 0x00 then Some(Echo)
    else if n == 0x01 then Some(Ack)
    else if n == 0x02 then Some(AckFailed)
    else if n == 0x03 then Some(DeviceInfoRequest)
    else if n == 0x04 then Some(DeviceInfoResponse)
    else if n == 0x05 then Some(EnterBootloaderRequest)
    else if n == 0x06 then Some(EnterBootloaderResponse)
    else None
  }

  /** Decoding the encoding of an identifier gives the identifier back. */
  lemma DecodeEncode(id: BinaryMessageId)
    ensures Decode(Encode(id)) == Some(id)
  {
  }

  /** `@unique`: no two identifiers share a value. */
  lemma EncodeInjective(a: BinaryMessageId, b: BinaryMessageId)
    ensures Encode(a) == Encode(b) ==> a == b
  {
    DecodeEncode(a);
    DecodeEncode(b);
  }

  /** The values are exactly 0..6: the i-th declared identifier has value i,
      so they are contiguous and all distinct. */
  lemma ValuesAreContiguous()
    ensures |AllIds| == 7
    ensures forall i :: 0 <= i < |AllIds| ==> Encode(AllIds[i]) == i
    ensures forall id: BinaryMessageId :: id in AllIds
    ensures forall i, j :: 0 <= i < j < |AllIds| ==> AllIds[i] != AllIds[j]
  {
    forall id: BinaryMessageId ensures id in AllIds {
      assert AllIds[Encode(id)] == id;
    }
  }

  /** Is the identifier a response to some request? */
  predicate IsResponse(id: BinaryMessageId)
  {
    id == DeviceInfoResponse || id == EnterBootloaderResponse
  }

  /** The response paired with a request identifier, if it has one. */
  function ResponseTo(request: BinaryMessageId): (r: Option<BinaryMessageId>)
    ensures r.Some? ==> IsResponse(r.value) && Encode(r.value) == Encode(request) + 1
    ensures r.Some? <==> request in {DeviceInfoRequest, EnterBootloaderRequest}
  {
    match request
    case DeviceInfoRequest => Some(DeviceInfoResponse)
    case EnterBootloaderRequest => Some(EnterBootloaderResponse)
    case _ => None
  }

  /** Each response's value is its request's value plus one, and the
      numbering of these pairs is exactly what `Decode` inverts. */
  lemma ResponseFollowsRequest(request: BinaryMessageId)
    requires request == DeviceInfoRequest || request == EnterBootloaderRequest
    ensures Decode(Encode(request) + 1).Some?
    ensures Decode(Encode(request) + 1) == ResponseTo(request)
  {
  }
}
