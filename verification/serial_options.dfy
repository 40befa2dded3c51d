/** The option encoders of serial.go: each option validates one setting and
    updates what it owns — a bit group of `controlOptions`/`inputOptions`
    (POSIX) or a byte field (Windows) — by clearing the group first and then
    setting the new bits. The platform constants are a parameter. */
module SerialOptions {
  import opened Results
  import opened Words
  import opened SerialPort
  import opened Options

  /** The per-platform constants serial.go reads, as the words serial.go
      turns them into with `uint64(...)`. */
  datatype Platform = Platform(
    validBaudRates: map<int, Word>,
    maskBaudRate: Word,
    maskDataBits: Word,
    dataBits5: Word,
    dataBits6: Word,
    dataBits7: Word,
    dataBits8: Word,
    parityNone: Word,
    parityOdd: Word,
    parityEven: Word,
    parityMark: Word,
    paritySpace: Word,
    parityEnable: Word,
    stopBitOne: Word,
    stopBitTwo: Word,
    softwareCtrlFlag: Word,
    hardwareCtrlFlag: Word)

  /** The options serial.go offers, one constructor per `WithX` function. */
  datatype Option =
    | ReadTimeout(timeout: int)
    | BaudRate(rate: int)
    | DataBits(bits: int)
    | Parity(parity: Word)
    | StopBits(stopBits: Word)
    | SoftwareFlowControl(enable: bool)
    | HardwareFlowControl(enable: bool)

  /** `WithReadTimeout`: only a positive duration replaces the stored one,
      and the option never fails. */
  function WithReadTimeout(timeout: int, c: Port): (r: Step)
    ensures r.status == Pass
    ensures timeout > 0 ==> r.port.readTimeout == timeout
    ensures timeout <= 0 ==> r.port == c
    ensures r.port.(readTimeout := c.readTimeout) == c
  {
    if timeout > 0 then Step(c.(readTimeout := timeout), Pass) else Step(c, Pass)
  }

  /** `WithBaudRate`: a rate outside the table is rejected before anything
      changes; a known rate stores its speed constant and writes it into the
      control word after clearing the baud mask. */
  function WithBaudRate(plat: Platform, rate: int, c: Port): (r: Step)
    ensures r.status.Fail? <==> rate !in plat.validBaudRates
    ensures r.status.Fail? ==> r.status.error == InvalidBaudRate(rate) && r.port == c
    ensures r.status.Pass? ==>
              var v := plat.validBaudRates[rate];
              && r.port.baudRate == v
              && Includes(r.port.controlOptions, v)
              && SameOutside(r.port.controlOptions, c.controlOptions, plat.maskBaudRate + v)
              && (Includes(plat.maskBaudRate, v) ==> GroupIs(r.port.controlOptions, plat.maskBaudRate, v))
              && r.port.(baudRate := c.baudRate, controlOptions := c.controlOptions) == c
  {
    if rate !in plat.validBaudRates then Step(c, Fail(InvalidBaudRate(rate)))
    else
      var v := plat.validBaudRates[rate];
      Step(c.(baudRate := v, controlOptions := Put(c.controlOptions, plat.maskBaudRate, v)), Pass)
  }

  /** The `CSx` flag serial.go uses for a data-bits count. */
  function DataBitsFlag(plat: Platform, d: int): Word
    requires 5 <= d <= 8
  {
    if d == 5 then plat.dataBits5
    else if d == 6 then plat.dataBits6
    else if d == 7 then plat.dataBits7
    else plat.dataBits8
  }

  /** Each `CSx` flag lies inside the data-bits mask (CSIZE): an assumption
      about the platform constants. */
  predicate DataBitsInMask(plat: Platform) {
    && Includes(plat.maskDataBits, plat.dataBits5)
    && Includes(plat.maskDataBits, plat.dataBits6)
    && Includes(plat.maskDataBits, plat.dataBits7)
    && Includes(plat.maskDataBits, plat.dataBits8)
  }

  /** `WithDataBits`: stores `byte(d)` and clears the data-bits group BEFORE
      checking `d`, so an invalid count returns its error with those two
      changes already made. */
  function WithDataBits(plat: Platform, d: int, c: Port): (r: Step)
    ensures r.port.dataBits == ByteOfInt(d)
    ensures r.status.Pass? <==> 5 <= d <= 8
    ensures r.status.Fail? ==>
              && r.status.error == InvalidDataBits(d)
              && r.port.controlOptions == Clear(c.controlOptions, plat.maskDataBits)
    ensures r.status.Pass? ==>
              && Includes(r.port.controlOptions, DataBitsFlag(plat, d))
              && SameOutside(r.port.controlOptions, c.controlOptions, plat.maskDataBits + DataBitsFlag(plat, d))
              && (DataBitsInMask(plat) ==> GroupIs(r.port.controlOptions, plat.maskDataBits, DataBitsFlag(plat, d)))
    ensures r.port.(dataBits := c.dataBits, controlOptions := c.controlOptions) == c
  {
    var cleared := c.(dataBits := ByteOfInt(d), controlOptions := Clear(c.controlOptions, plat.maskDataBits));
    if 5 <= d <= 8 then
      Step(cleared.(controlOptions := Put(c.controlOptions, plat.maskDataBits, DataBitsFlag(plat, d))), Pass)
    else
      Step(cleared, Fail(InvalidDataBits(d)))
  }

  /** The bits `WithParity` clears before it sets anything. */
  function ParityGroup(plat: Platform): Word {
    plat.parityOdd + plat.parityMark + plat.parityEnable
  }

  /** `p` is one of the five parity constants of the platform. */
  predicate KnownParity(plat: Platform, p: Word) {
    || p == plat.parityNone || p == plat.parityOdd || p == plat.parityEven
    || p == plat.parityMark || p == plat.paritySpace
  }

  /** `WithParity` as written: stores `byte(p)`, clears the parity group,
      then tests Mark and Space BEFORE None, so on a platform where Mark or
      Space equals None a request for no parity turns parity on. */
  function WithParity(plat: Platform, p: Word, c: Port): (r: Step)
    ensures r.port.parity == LowByte(p)
    ensures r.status.Pass? <==> KnownParity(plat, p)
    ensures r.status.Fail? ==>
              && r.status.error == InvalidParity(p)
              && r.port.controlOptions == Clear(c.controlOptions, ParityGroup(plat))
    ensures || p == plat.parityMark || p == plat.paritySpace
            || (p != plat.parityNone && (p == plat.parityOdd || p == plat.parityEven)) ==>
              r.port.controlOptions == Put(c.controlOptions, ParityGroup(plat), p + plat.parityEnable)
    ensures p == plat.parityNone && p != plat.parityMark && p != plat.paritySpace ==>
              r.port.controlOptions == Clear(c.controlOptions, ParityGroup(plat))
    ensures r.port.(parity := c.parity, controlOptions := c.controlOptions) == c
  {
    var cleared := c.(parity := LowByte(p), controlOptions := Clear(c.controlOptions, ParityGroup(plat)));
    var enabled := cleared.(controlOptions := Put(c.controlOptions, ParityGroup(plat), p + plat.parityEnable));
    if p == plat.parityMark then Step(enabled, Pass)
    else if p == plat.paritySpace then Step(enabled, Pass)
    else if p == plat.parityNone then Step(cleared, Pass)
    else if p == plat.parityOdd || p == plat.parityEven then Step(enabled, Pass)
    else Step(cleared, Fail(InvalidParity(p)))
  }

  /** `WithParity` with None tested first, the evident intent: asking for
      no parity never leaves the parity-enable bit set. */
  function WithParityNoneFirst(plat: Platform, p: Word, c: Port): (r: Step)
    ensures r.port.parity == LowByte(p)
    ensures r.status.Pass? <==> KnownParity(plat, p)
    ensures r.status.Fail? ==> r.status.error == InvalidParity(p)
    ensures p == plat.parityNone ==>
              && r.port.controlOptions == Clear(c.controlOptions, ParityGroup(plat))
              && Disjoint(r.port.controlOptions, plat.parityEnable)
    ensures p != plat.parityNone && KnownParity(plat, p) ==>
              && Includes(r.port.controlOptions, plat.parityEnable + p)
              && SameOutside(r.port.controlOptions, c.controlOptions, ParityGroup(plat) + p)
    ensures r.port.(parity := c.parity, controlOptions := c.controlOptions) == c
  {
    var cleared := c.(parity := LowByte(p), controlOptions := Clear(c.controlOptions, ParityGroup(plat)));
    var enabled := cleared.(controlOptions := Put(c.controlOptions, ParityGroup(plat), p + plat.parityEnable));
    if p == plat.parityNone then Step(cleared, Pass)
    else if KnownParity(plat, p) then Step(enabled, Pass)
    else Step(cleared, Fail(InvalidParity(p)))
  }

  /** `WithStopBits`: stores `byte(s)`, clears the two-stop-bits flag, and
      sets it again only for `StopBitTwo`. */
  function WithStopBits(plat: Platform, s: Word, c: Port): (r: Step)
    ensures r.port.stopBits == LowByte(s)
    ensures r.status.Pass? <==> s == plat.stopBitOne || s == plat.stopBitTwo
    ensures r.status.Fail? ==> r.status.error == InvalidStopBits(s)
    ensures SameOutside(r.port.controlOptions, c.controlOptions, plat.stopBitTwo)
    ensures s == plat.stopBitTwo && s != plat.stopBitOne ==> Includes(r.port.controlOptions, plat.stopBitTwo)
    ensures s != plat.stopBitTwo || s == plat.stopBitOne ==> Disjoint(r.port.controlOptions, plat.stopBitTwo)
    ensures r.port.(stopBits := c.stopBits, controlOptions := c.controlOptions) == c
  {
    var two := s == plat.stopBitTwo && s != plat.stopBitOne;
    var written := c.(stopBits := LowByte(s), controlOptions := Switch(c.controlOptions, plat.stopBitTwo, two));
    if s == plat.stopBitOne || s == plat.stopBitTwo then Step(written, Pass)
    else Step(written, Fail(InvalidStopBits(s)))
  }

  /** `WithSoftwareFlowControl`: the XON/XOFF flags of the input word end up
      all set or all clear, and no other bit or field changes. */
  function WithSoftwareFlowControl(plat: Platform, enable: bool, c: Port): (r: Step)
    ensures r.status == Pass
    ensures enable ==> Includes(r.port.inputOptions, plat.softwareCtrlFlag)
    ensures !enable ==> Disjoint(r.port.inputOptions, plat.softwareCtrlFlag)
    ensures SameOutside(r.port.inputOptions, c.inputOptions, plat.softwareCtrlFlag)
    ensures r.port.(inputOptions := c.inputOptions) == c
  {
    Step(c.(inputOptions := Switch(c.inputOptions, plat.softwareCtrlFlag, enable)), Pass)
  }

  /** `WithHardwareFlowControl`: the RTS/CTS flag of the control word ends
      up set or clear, and no other bit or field changes. */
  function WithHardwareFlowControl(plat: Platform, enable: bool, c: Port): (r: Step)
    ensures r.status == Pass
    ensures enable ==> Includes(r.port.controlOptions, plat.hardwareCtrlFlag)
    ensures !enable ==> Disjoint(r.port.controlOptions, plat.hardwareCtrlFlag)
    ensures SameOutside(r.port.controlOptions, c.controlOptions, plat.hardwareCtrlFlag)
    ensures r.port.(controlOptions := c.controlOptions) == c
  {
    Step(c.(controlOptions := Switch(c.controlOptions, plat.hardwareCtrlFlag, enable)), Pass)
  }

  /** Running one option, as serial.go does: parity goes through
      `WithParity` as written. */
  function Apply(plat: Platform, o: Option, c: Port): Step {
    match o
    case ReadTimeout(t) => WithReadTimeout(t, c)
    case BaudRate(rate) => WithBaudRate(plat, rate, c)
    case DataBits(d) => WithDataBits(plat, d, c)
    case Parity(p) => WithParity(plat, p, c)
    case StopBits(s) => WithStopBits(plat, s, c)
    case SoftwareFlowControl(e) => WithSoftwareFlowControl(plat, e, c)
    case HardwareFlowControl(e) => WithHardwareFlowControl(plat, e, c)
  }

  /** Running one option with None tested first in the parity encoder. */
  function ApplyNoneFirst(plat: Platform, o: Option, c: Port): Step {
    if o.Parity? then WithParityNoneFirst(plat, o.parity, c) else Apply(plat, o, c)
  }

  function Applier(plat: Platform): (Option, Port) -> Step {
    (o, c) => Apply(plat, o, c)
  }

  function ApplierNoneFirst(plat: Platform): (Option, Port) -> Step {
    (o, c) => ApplyNoneFirst(plat, o, c)
  }

  /** The defaults `Open` applies first: 9600 baud, 8 data bits, no parity,
      one stop bit. */
  function Defaults(plat: Platform): seq<Option> {
    [BaudRate(9600), DataBits(8), Parity(plat.parityNone), StopBits(plat.stopBitOne)]
  }

  // ---------------------------------------------------------------------
  // Last write wins: each option clears what it owns before writing.

  /** A second data-bits option overrides the first completely. */
  lemma DataBitsLastWins(plat: Platform, d1: int, d2: int, c: Port)
    requires DataBitsInMask(plat)
    ensures WithDataBits(plat, d2, WithDataBits(plat, d1, c).port) == WithDataBits(plat, d2, c)
  {
    var mid := WithDataBits(plat, d1, c).port;
    assert Clear(mid.controlOptions, plat.maskDataBits) == Clear(c.controlOptions, plat.maskDataBits);
  }

  /** Even and Space lie inside the group `WithParity` clears: an
      assumption about the platform constants (Odd, Mark and the enable
      bit are in it by construction). */
  predicate ParityValuesInGroup(plat: Platform) {
    Includes(ParityGroup(plat), plat.parityEven) && Includes(ParityGroup(plat), plat.paritySpace)
  }

  /** A second parity option overrides the first completely. */
  lemma ParityLastWins(plat: Platform, p: Word, q: Word, c: Port)
    requires ParityValuesInGroup(plat)
    ensures WithParityNoneFirst(plat, q, WithParityNoneFirst(plat, p, c).port) == WithParityNoneFirst(plat, q, c)
    ensures WithParity(plat, q, WithParity(plat, p, c).port) == WithParity(plat, q, c)
  {
    var g := ParityGroup(plat);
    var mid := WithParityNoneFirst(plat, p, c).port;
    assert Clear(mid.controlOptions, g) == Clear(c.controlOptions, g);
    var mid' := WithParity(plat, p, c).port;
    assert Clear(mid'.controlOptions, g) == Clear(c.controlOptions, g);
  }

  /** A second stop-bits option overrides the first completely. */
  lemma StopBitsLastWins(plat: Platform, s1: Word, s2: Word, c: Port)
    ensures WithStopBits(plat, s2, WithStopBits(plat, s1, c).port) == WithStopBits(plat, s2, c)
  {
    var two1 := s1 == plat.stopBitTwo && s1 != plat.stopBitOne;
    var two2 := s2 == plat.stopBitTwo && s2 != plat.stopBitOne;
    SwitchAfterSwitch(c.controlOptions, plat.stopBitTwo, two1, two2);
  }

  /** Flow-control options: the last one wins, so applying one twice is
      applying it once. */
  lemma FlowControlLastWins(plat: Platform, a: bool, b: bool, c: Port)
    ensures WithSoftwareFlowControl(plat, b, WithSoftwareFlowControl(plat, a, c).port)
            == WithSoftwareFlowControl(plat, b, c)
    ensures WithHardwareFlowControl(plat, b, WithHardwareFlowControl(plat, a, c).port)
            == WithHardwareFlowControl(plat, b, c)
  {
    SwitchAfterSwitch(c.inputOptions, plat.softwareCtrlFlag, a, b);
    SwitchAfterSwitch(c.controlOptions, plat.hardwareCtrlFlag, a, b);
  }

  /** Where Mark and Space differ from None the two parity encoders agree,
      so the None-first order changes nothing on such a platform. */
  lemma ParityEncodersAgree(plat: Platform, p: Word, c: Port)
    requires plat.parityMark != plat.parityNone && plat.paritySpace != plat.parityNone
    ensures WithParity(plat, p, c) == WithParityNoneFirst(plat, p, c)
  {
  }
}
