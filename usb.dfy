/**
  The part of the libusb interface the TranceVibe driver relies on, as plain
  values. The USB stack itself is not modelled: what it reports (the device
  list, each device's descriptor, the outcome of opening a device, the reply
  to a control transfer) is given to the driver's operations as parameters.
*/
module Usb {
  import opened Wrappers

  /** `u8` */
  type Byte = x: int | 0 <= x < 0x100
  /** `u16` */
  type Word = x: int | 0 <= x < 0x1_0000

  /** The error kinds of the libusb crate's `Error`. */
  datatype UsbError =
    | Io | InvalidParam | Access | NoDevice | NotFound | Busy | Timeout
    | Overflow | Pipe | Interrupted | NoMem | NotSupported | Other

  /** The two fields of a device descriptor that the driver reads. */
  datatype Descriptor = Descriptor(vendorId: Word, productId: Word)

  /** An opaque token standing for an open `libusb::DeviceHandle`. */
  datatype Handle = Handle(id: nat)

  /**
    One entry of the list `Context::devices()` returns: the outcome of
    reading its descriptor, where it is attached, and the outcome that
    `Device::open()` would have on it.
  */
  datatype DeviceRecord = DeviceRecord(
    descriptor: Result<Descriptor, UsbError>,
    busNumber: Byte,
    address: Byte,
    openOutcome: Result<Handle, UsbError>)

  /** The outcome of `Context::devices()`. */
  type Listing = Result<seq<DeviceRecord>, UsbError>

  // The three parts of a control request's bmRequestType byte
  // (Table 9-2, section 9.3 of the USB 2.0 specification).
  datatype Direction = Out | In
  datatype RequestKind = Standard | Class | Vendor | Reserved
  datatype Recipient = ToDevice | ToInterface | ToEndpoint | ToOther

  function KindCode(kind: RequestKind): (c: nat)
    ensures c < 4
  {
    match kind
    case Standard => 0
    case Class => 1
    case Vendor => 2
    case Reserved => 3
  }

  function RecipientCode(recipient: Recipient): (c: nat)
    ensures c < 4
  {
    match recipient
    case ToDevice => 0
    case ToInterface => 1
    case ToEndpoint => 2
    case ToOther => 3
  }

  /**
    `libusb::request_type(direction, kind, recipient)`: bit 7 is the
    direction, bits 6..5 the kind, bits 4..0 the recipient.
  */
  function RequestType(direction: Direction, kind: RequestKind, recipient: Recipient): (b: Byte)
    ensures b < 0x80 <==> direction == Out
    ensures DecodeRequestType(b) == Some((direction, kind, recipient))
  {
    (if direction == In then 0x80 else 0) + KindCode(kind) * 0x20 + RecipientCode(recipient)
  }

  /** Reads a bmRequestType byte back; recipient codes 4..31 are reserved. */
  function DecodeRequestType(b: Byte): Option<(Direction, RequestKind, Recipient)>
  {
    var direction := if b < 0x80 then Out else In;
    var kind := match (b / 0x20) % 4
      case 0 => Standard
      case 1 => Class
      case 2 => Vendor
      case _ => Reserved;
    var code := b % 0x20;
    if code == 0 then Some((direction, kind, ToDevice))
    else if code == 1 then Some((direction, kind, ToInterface))
    else if code == 2 then Some((direction, kind, ToEndpoint))
    else if code == 3 then Some((direction, kind, ToOther))
    else None
  }

  /** The arguments of `DeviceHandle::write_control`. */
  datatype ControlRequest = ControlRequest(
    requestType: Byte,
    request: Byte,
    value: Word,
    index: Word,
    data: seq<Byte>,
    timeoutMs: nat)

  /** One control write on an open handle. */
  datatype Transfer = Transfer(handle: Handle, request: ControlRequest)
}
