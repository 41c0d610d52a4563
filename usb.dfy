/** Values the USB host stack reports about a device: the descriptors the matcher
    reads and the endpoints the session binds. Every pyusb call is replaced by the
    value it would return (or the exception it would raise). */
module Usb {

  newtype byte = x: int | 0 <= x < 256

  /** A report or a trace chunk as it crosses the bus. */
  type Bytes = seq<byte>

  datatype Option<+T> = None | Some(value: T)

  datatype Result<+T, +E> = Success(value: T) | Failure(error: E)

  datatype Outcome<+E> = Pass | Fail(error: E)

  /** The exceptions the matcher catches while it reads descriptors. */
  datatype AccessError =
    | OSError(errno: int)
    | USBError
    | IndexError
    | NotImplementedError

  /** Reading a string descriptor: the string (None when the descriptor index
      is 0), or the exception the read raised. */
  datatype StringLookup =
    | StringValue(text: Option<string>)
    | StringFailed(error: AccessError)

  datatype Endpoint = Endpoint(bEndpointAddress: byte, wMaxPacketSize: nat)

  /** One interface of the active configuration; `name` is what reading its
      iInterface string gives. */
  datatype InterfaceDescriptor = InterfaceDescriptor(
    bInterfaceNumber: nat,
    bInterfaceClass: byte,
    bInterfaceSubClass: byte,
    name: StringLookup,
    endpoints: seq<Endpoint>)

  /** get_active_configuration: the interfaces in descriptor order, or the
      exception it raised. */
  datatype ConfigLookup =
    | ActiveConfiguration(interfaces: seq<InterfaceDescriptor>)
    | ConfigFailed(error: AccessError)

  datatype Device = Device(
    idVendor: nat,
    idProduct: nat,
    bDeviceClass: byte,
    product: Option<string>,
    manufacturer: Option<string>,
    serialNumber: Option<string>,
    config: ConfigLookup)
}
