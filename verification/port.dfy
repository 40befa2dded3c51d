/** The `SerialPort` record shared by both generations of the library
    (serial.go and port.go declare the same fields) and the small
    conversions Go performs when it stores option values into it. */
module SerialPort {
  import opened Words

  /** The `*os.File` the port holds: none until an open sequence succeeds. */
  datatype File = NoFile | OpenFile(fd: nat)

  /** What became of a device handle acquired during an open sequence. */
  datatype FileState =
    | NotOpened        // the device was never opened
    | Held(fd: nat)    // stored in the port: the open succeeded
    | Closed(fd: nat)  // closed on a failure path
    | Leaked(fd: nat)  // opened, then neither stored nor closed

  /** The configuration and handle of one port. `readTimeout` is a Go
      `time.Duration`, i.e. nanoseconds; the byte fields are the Windows
      DCB values and the two words are the POSIX `c_iflag`/`c_cflag` bits
      accumulated by the options. The flush closure is not modelled. */
  datatype Port = Port(
    f: File,
    dev: string,
    readTimeout: int,
    baudRate: Word,
    dataBits: Byte,
    stopBits: Byte,
    parity: Byte,
    inputOptions: Word,
    controlOptions: Word)

  /** `&SerialPort{dev: device}`: every other field is Go's zero value. */
  function NewPort(device: string): (p: Port)
    ensures p.dev == device && p.f == NoFile
    ensures p.readTimeout == 0
    ensures p.dataBits == 0 && p.stopBits == 0 && p.parity == 0
    ensures p.inputOptions == {} && p.controlOptions == {} && p.baudRate == {}
  {
    Port(NoFile, device, 0, {}, 0, 0, 0, {}, {})
  }

  /** Go's `byte(d)` for an `int`: the low eight bits of the two's-complement
      value, which is the Euclidean remainder modulo 256. */
  function ByteOfInt(d: int): (b: Byte)
    ensures 0 <= d < 256 ==> b == d
  {
    d % 256
  }

  /** Go's `byte(x)` for an unsigned word: its low eight bits. */
  function LowByte(x: Word): Byte {
    ValueOf(x, 8)
  }
}
