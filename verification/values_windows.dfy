/** The Windows values (values_windows.go): parity and stop-bit
    enumerations as bytes, every bitmask constant zero, a nil baud table,
    and the `DCB` record `SetCommState` takes. */
module WindowsValues {
  import opened Words
  import opened Results
  import opened SerialPort
  import opened Options
  import opened SerialOptions

  const ParityNone: Byte := 0
  const ParityOdd: Byte := 1
  const ParityEven: Byte := 2
  const ParityMark: Byte := 3
  const ParitySpace: Byte := 4
  const StopBitOne: Byte := 0
  const StopBitOneHalf: Byte := 1
  const StopBitTwo: Byte := 2

  /** serial.go's constants on Windows: the enumerations as the words
      `uint64(p)` makes of them, every mask and flag 0, and a nil table. */
  function WindowsPlatform(): (p: Platform)
    ensures p.validBaudRates == map[]
    ensures LowByte(p.parityNone) == ParityNone && LowByte(p.parityOdd) == ParityOdd
    ensures LowByte(p.parityEven) == ParityEven && LowByte(p.parityMark) == ParityMark
    ensures LowByte(p.paritySpace) == ParitySpace
    ensures LowByte(p.stopBitOne) == StopBitOne && LowByte(p.stopBitTwo) == StopBitTwo
    ensures p.maskBaudRate == p.maskDataBits == p.parityEnable == {}
    ensures p.dataBits5 == p.dataBits6 == p.dataBits7 == p.dataBits8 == {}
    ensures p.softwareCtrlFlag == p.hardwareCtrlFlag == {}
  {
    Platform(
      validBaudRates := map[],
      maskBaudRate := {}, maskDataBits := {},
      dataBits5 := {}, dataBits6 := {}, dataBits7 := {}, dataBits8 := {},
      parityNone := {}, parityOdd := {0}, parityEven := {1},
      parityMark := {0, 1}, paritySpace := {2},
      parityEnable := {},
      stopBitOne := {}, stopBitTwo := {1},
      softwareCtrlFlag := {}, hardwareCtrlFlag := {})
  }

  /** The bytes of the small words that carry the enumerations. */
  lemma EnumerationBytes()
    ensures LowByte({}) == 0 && LowByte({0}) == 1 && LowByte({1}) == 2
    ensures LowByte({0, 1}) == 3 && LowByte({2}) == 4
  {
  }

  /** The word of `StopBitOneHalf`. */
  function StopBitOneHalfWord(): (w: Word)
    ensures LowByte(w) == StopBitOneHalf
  {
    {0}
  }

  /** With a nil table every baud option fails, the default 9600 included,
      and leaves the port as it was. */
  lemma BaudAlwaysRejected(rate: int, c: Port)
    ensures WithBaudRate(WindowsPlatform(), rate, c) == Step(c, Fail(InvalidBaudRate(rate)))
  {
  }

  /** The zero masks make the data-bits and flow-control updates of the
      control and input words the identity. The parity and stop-bit
      options are different: their clear masks are the enumeration values
      themselves, so they do write into the control word. */
  lemma ZeroMasks(d: int, e: bool, c: Port)
    ensures WithDataBits(WindowsPlatform(), d, c).port.controlOptions == c.controlOptions
    ensures WithSoftwareFlowControl(WindowsPlatform(), e, c).port == c
    ensures WithHardwareFlowControl(WindowsPlatform(), e, c).port == c
    ensures 0 in WithParity(WindowsPlatform(), {0}, c).port.controlOptions
    ensures 1 in WithStopBits(WindowsPlatform(), {1}, c).port.controlOptions
  {
  }

  /** serial.go's `WithStopBits` knows only One and Two, so the one and a
      half stop bits Windows offers are rejected. */
  lemma OneHalfRejected(c: Port)
    ensures WithStopBits(WindowsPlatform(), StopBitOneHalfWord(), c).status.Fail?
  {
  }

  /** `_dcbSize`: the size of `_dcb` as Go lays it out, 28 bytes, which is
      the size of the Win32 `DCB` structure. */
  const DcbSize: nat := 28

  /** The DCB `SetCommState` receives: the length, the flags word
      `{0x11, 0, 0, 0}` (binary mode, DTR enabled) and the four settings;
      every other field is zero. */
  datatype Dcb = Dcb(
    dcbLength: nat, baudRate: nat, flags: seq<Byte>,
    byteSize: Byte, parity: Byte, stopBits: Byte)
}
