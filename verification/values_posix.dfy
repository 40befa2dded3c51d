/** The constants every POSIX build shares (values_posix.go), and the
    serial.go platform they make once a system adds its baud table, its
    baud mask and its Mark/Space values. */
module PosixValues {
  import opened Words
  import opened Results
  import opened SerialPort
  import opened Options
  import opened SerialOptions
  import opened PosixConsts

  /** One stop bit is the absence of CSTOPB. */
  function StopBitOne(k: Consts): Word { {} }

  function StopBitTwo(k: Consts): Word { k.CSTOPB }

  function ParityNone(k: Consts): Word { {} }

  function ParityOdd(k: Consts): Word { k.PARODD }

  /** Enabling parity without PARODD selects even parity. */
  function ParityEven(k: Consts): Word { k.PARENB }

  function ParityEnable(k: Consts): Word { k.PARENB }

  /** The flags the device file is opened with. */
  function SerialFileFlag(k: Consts): Word { k.O_RDWR + k.O_NOCTTY + k.O_NONBLOCK }

  /** Software flow control lives in the input word. */
  function SoftwareCtrlFlag(k: Consts): Word { k.IXON + k.IXOFF + k.IXANY }

  /** Hardware flow control lives in the control word. */
  function HardwareCtrlFlag(k: Consts): Word { k.CRTSCTS }

  /** serial.go's constants on a POSIX system. */
  function SerialPlatform(k: Consts, rates: map<int, Word>, maskBaudRate: Word,
                          parityMark: Word, paritySpace: Word): (p: Platform)
    ensures p.validBaudRates == rates && p.maskBaudRate == maskBaudRate
    ensures ParityGroup(p) == k.PARODD + parityMark + k.PARENB
    ensures SizesInCsize(k) ==> DataBitsInMask(p)
    ensures Includes(k.PARODD + parityMark + k.PARENB, paritySpace) ==> ParityValuesInGroup(p)
  {
    Platform(
      validBaudRates := rates,
      maskBaudRate := maskBaudRate,
      maskDataBits := k.CSIZE,
      dataBits5 := k.CS5, dataBits6 := k.CS6, dataBits7 := k.CS7, dataBits8 := k.CS8,
      parityNone := ParityNone(k), parityOdd := ParityOdd(k), parityEven := ParityEven(k),
      parityMark := parityMark, paritySpace := paritySpace,
      parityEnable := ParityEnable(k),
      stopBitOne := StopBitOne(k), stopBitTwo := StopBitTwo(k),
      softwareCtrlFlag := SoftwareCtrlFlag(k),
      hardwareCtrlFlag := HardwareCtrlFlag(k))
  }

  /** One stop bit leaves CSTOPB clear and two stop bits set it; both are
      accepted and record their own value in the stop-bits byte. */
  lemma StopBitsOnPosix(k: Consts, rates: map<int, Word>, mask: Word, mark: Word, space: Word, c: Port)
    requires k.CSTOPB != {}
    ensures var p := SerialPlatform(k, rates, mask, mark, space);
            var one := WithStopBits(p, StopBitOne(k), c);
            var two := WithStopBits(p, StopBitTwo(k), c);
            && one.status == Pass && Disjoint(one.port.controlOptions, k.CSTOPB) && one.port.stopBits == 0
            && two.status == Pass && Includes(two.port.controlOptions, k.CSTOPB)
  {
    assert ValueOf({}, 8) == 0;
  }

  /** With Mark and Space both zero, as on every POSIX system but Linux,
      the parity options with None tested first encode the three modes as
      POSIX defines them (as written, None turns parity on there; see
      `BsdValues.NoneEnablesParity`):
      None clears PARENB and PARODD, Odd sets both, Even sets PARENB alone;
      nothing outside the two bits changes. */
  lemma ParityNoneFirstOnPosix(k: Consts, rates: map<int, Word>, mask: Word, c: Port)
    requires ControlFlagsApart(k)
    ensures var p := SerialPlatform(k, rates, mask, {}, {});
            var none := WithParityNoneFirst(p, ParityNone(k), c).port.controlOptions;
            var odd := WithParityNoneFirst(p, ParityOdd(k), c).port.controlOptions;
            var even := WithParityNoneFirst(p, ParityEven(k), c).port.controlOptions;
            && Disjoint(none, k.PARENB + k.PARODD)
            && Includes(odd, k.PARENB + k.PARODD)
            && Includes(even, k.PARENB) && Disjoint(even, k.PARODD)
            && SameOutside(none, c.controlOptions, k.PARENB + k.PARODD)
            && SameOutside(odd, c.controlOptions, k.PARENB + k.PARODD)
            && SameOutside(even, c.controlOptions, k.PARENB + k.PARODD)
  {
    var p := SerialPlatform(k, rates, mask, {}, {});
    assert p.parityEven != p.parityNone && p.parityOdd != p.parityNone;
    var even := WithParityNoneFirst(p, ParityEven(k), c).port.controlOptions;
    assert even == Put(c.controlOptions, ParityGroup(p), k.PARENB + k.PARENB);
  }
}
