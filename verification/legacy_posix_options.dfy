/** The older POSIX encoders (options_posix.go). Unlike serial.go they OR
    their value into the control word without clearing the field first,
    their parity and stop-bit constants are 64-bit patterns built with `^`,
    and they validate before changing anything. */
module LegacyPosixOptions {
  import opened Words
  import opened Results
  import opened SerialPort
  import opened Options
  import opened PosixConsts
  import opened LegacyOptions

  function ParityNone(k: Consts): Word { {} }

  function ParityOdd(k: Consts): Word { k.PARODD + k.PARENB }

  /** `^PARODD | PARENB` of an `int64`: every bit but PARODD. */
  function ParityEven(k: Consts): Word { Not64(k.PARODD) + k.PARENB }

  function ParityMark(k: Consts): Word { k.PARMRK + k.PARENB }

  function ParitySpace(k: Consts): Word { Not64(k.PARMRK) + k.PARENB }

  /** `^CSTOPB` of an `int64`: every bit but CSTOPB. */
  function StopBitOne(k: Consts): Word { Not64(k.CSTOPB) }

  function StopBitTwo(k: Consts): Word { k.CSTOPB }

  predicate KnownParity(k: Consts, p: Word) {
    || p == ParityNone(k) || p == ParityOdd(k) || p == ParityEven(k)
    || p == ParityMark(k) || p == ParitySpace(k)
  }

  /** The `CSx` value for a data-bits count. */
  function SizeFlag(k: Consts, d: int): Word
    requires 5 <= d <= 8
  {
    if d == 5 then k.CS5 else if d == 6 then k.CS6 else if d == 7 then k.CS7 else k.CS8
  }

  /** `WithDataBits`: ORs the size flag into the control word, leaving any
      size bits already there; other counts fail with no change. */
  function WithDataBits(k: Consts, d: int, c: Port): (r: Step)
    ensures r.status.Pass? <==> 5 <= d <= 8
    ensures r.status.Fail? ==> r == Step(c, Fail(InvalidDataBits(d)))
    ensures r.status.Pass? ==>
              && Includes(r.port.controlOptions, c.controlOptions + SizeFlag(k, d))
              && SameOutside(r.port.controlOptions, c.controlOptions, SizeFlag(k, d))
    ensures r.port.(controlOptions := c.controlOptions) == c
  {
    if 5 <= d <= 8 then Step(c.(controlOptions := c.controlOptions + SizeFlag(k, d)), Pass)
    else Step(c, Fail(InvalidDataBits(d)))
  }

  /** `WithParity`: for one of the five constants, clears PARODD and PARENB
      and ORs the constant in; anything else fails with no change. */
  function WithParity(k: Consts, p: Word, c: Port): (r: Step)
    ensures r.status.Pass? <==> KnownParity(k, p)
    ensures r.status.Fail? ==> r == Step(c, Fail(InvalidParity(p)))
    ensures r.status.Pass? ==>
              && Includes(r.port.controlOptions, p)
              && SameOutside(r.port.controlOptions, c.controlOptions, k.PARODD + k.PARENB + p)
              && (forall b :: b in k.PARODD + k.PARENB && b !in p ==> b !in r.port.controlOptions)
    ensures r.port.(controlOptions := c.controlOptions) == c
  {
    if KnownParity(k, p) then Step(c.(controlOptions := Put(c.controlOptions, k.PARODD + k.PARENB, p)), Pass)
    else Step(c, Fail(InvalidParity(p)))
  }

  /** `WithStopBits`: ORs One or Two into the control word; anything else
      fails with no change. */
  function WithStopBits(k: Consts, s: Word, c: Port): (r: Step)
    ensures r.status.Pass? <==> s == StopBitOne(k) || s == StopBitTwo(k)
    ensures r.status.Fail? ==> r == Step(c, Fail(InvalidStopBits(s)))
    ensures r.status.Pass? ==>
              && Includes(r.port.controlOptions, c.controlOptions + s)
              && SameOutside(r.port.controlOptions, c.controlOptions, s)
    ensures r.port.(controlOptions := c.controlOptions) == c
  {
    if s == StopBitOne(k) || s == StopBitTwo(k) then Step(c.(controlOptions := c.controlOptions + s), Pass)
    else Step(c, Fail(InvalidStopBits(s)))
  }

  /** Software flow control sets or clears IXON, IXOFF and IXANY together in
      the input word and touches nothing else. */
  function WithSoftwareFlowControl(k: Consts, enable: bool, c: Port): (r: Step)
    ensures r.status == Pass
    ensures enable ==> Includes(r.port.inputOptions, k.IXON + k.IXOFF + k.IXANY)
    ensures !enable ==> Disjoint(r.port.inputOptions, k.IXON + k.IXOFF + k.IXANY)
    ensures SameOutside(r.port.inputOptions, c.inputOptions, k.IXON + k.IXOFF + k.IXANY)
    ensures r.port.(inputOptions := c.inputOptions) == c
  {
    Step(c.(inputOptions := Switch(c.inputOptions, k.IXON + k.IXOFF + k.IXANY, enable)), Pass)
  }

  /** Hardware flow control sets or clears CRTSCTS in the control word and
      touches nothing else. */
  function WithHardwareFlowControl(k: Consts, enable: bool, c: Port): (r: Step)
    ensures r.status == Pass
    ensures enable ==> Includes(r.port.controlOptions, k.CRTSCTS)
    ensures !enable ==> Disjoint(r.port.controlOptions, k.CRTSCTS)
    ensures SameOutside(r.port.controlOptions, c.controlOptions, k.CRTSCTS)
    ensures r.port.(controlOptions := c.controlOptions) == c
  {
    Step(c.(controlOptions := Switch(c.controlOptions, k.CRTSCTS, enable)), Pass)
  }

  function Apply(rates: map<int, Word>, k: Consts, o: Option, c: Port): Step {
    match o
    case BaudRate(rate) => LegacyOptions.WithBaudRate(rates, rate, c)
    case ReadTimeout(t) => LegacyOptions.WithReadTimeout(t, c)
    case DataBits(d) => WithDataBits(k, d, c)
    case Parity(p) => WithParity(k, p, c)
    case StopBits(s) => WithStopBits(k, s, c)
    case SoftwareFlowControl(e) => WithSoftwareFlowControl(k, e, c)
    case HardwareFlowControl(e) => WithHardwareFlowControl(k, e, c)
  }

  function Applier(rates: map<int, Word>, k: Consts): (Option, Port) -> Step {
    (o, c) => Apply(rates, k, o, c)
  }

  /** Without a clear, two data-bits options accumulate: the control word
      keeps the flags of both. */
  lemma DataBitsAccumulate(k: Consts, d1: int, d2: int, c: Port)
    requires 5 <= d1 <= 8 && 5 <= d2 <= 8
    ensures var r := WithDataBits(k, d2, WithDataBits(k, d1, c).port);
            r.status == Pass && Includes(r.port.controlOptions, SizeFlag(k, d1) + SizeFlag(k, d2))
  {
  }

  /** Where CS6 and CS7 together make CS8, as on Linux (0x10, 0x20 and
      0x30), asking for 6 and then 7 data bits leaves 8 in the size field. */
  lemma SixThenSevenGivesEight(k: Consts, c: Port)
    requires k.CS6 + k.CS7 == k.CS8 && SizesInCsize(k)
    requires Disjoint(c.controlOptions, k.CSIZE)
    ensures var r := WithDataBits(k, 7, WithDataBits(k, 6, c).port);
            GroupIs(r.port.controlOptions, k.CSIZE, k.CS8)
  {
    var r := WithDataBits(k, 7, WithDataBits(k, 6, c).port);
    assert r.port.controlOptions == c.controlOptions + k.CS8;
    assert (c.controlOptions + k.CS8) * k.CSIZE == c.controlOptions * k.CSIZE + k.CS8 * k.CSIZE;
  }

  /** `StopBitOne` is `^CSTOPB`, so asking for one stop bit sets every bit
      of the 64-bit control word except CSTOPB: the size field, parity and
      everything else. */
  lemma StopBitOneSetsAllButCstopb(k: Consts, c: Port)
    ensures var r := WithStopBits(k, StopBitOne(k), c);
            r.status == Pass && Includes(r.port.controlOptions, Full64() - k.CSTOPB)
  {
  }

  /** Likewise `ParityEven` sets every bit except PARODD. */
  lemma ParityEvenSetsAllButParodd(k: Consts, c: Port)
    requires Disjoint(k.PARODD, k.PARENB)
    ensures var r := WithParity(k, ParityEven(k), c);
            && r.status == Pass
            && Includes(r.port.controlOptions, Full64() - k.PARODD)
            && Disjoint(r.port.controlOptions, k.PARODD)
  {
  }

  /** The flow-control options: the last one wins. */
  lemma FlowControlLastWins(k: Consts, a: bool, b: bool, c: Port)
    ensures WithSoftwareFlowControl(k, b, WithSoftwareFlowControl(k, a, c).port) == WithSoftwareFlowControl(k, b, c)
    ensures WithHardwareFlowControl(k, b, WithHardwareFlowControl(k, a, c).port) == WithHardwareFlowControl(k, b, c)
  {
    SwitchAfterSwitch(c.inputOptions, k.IXON + k.IXOFF + k.IXANY, a, b);
    SwitchAfterSwitch(c.controlOptions, k.CRTSCTS, a, b);
  }
}
