/** The BSD values (values_bsd.go): no baud mask, Mark and Space parity
    both zero, and the baud table of open_posix.go. */
module BsdValues {
  import opened Words
  import opened Results
  import opened SerialPort
  import opened Options
  import opened SerialOptions
  import opened PosixConsts
  import opened BaudTable
  import PosixValues
  import opened SerialOpen

  /** The rates of open_posix.go's table, in the order listed. */
  function Rates(): seq<int> {
    [0, 50, 75, 110, 134, 150, 200, 300, 600, 1200, 1800, 2400, 4800,
     9600, 19200, 38400, 57600, 115200, 230400]
  }

  lemma RatesIncreasing()
    ensures Increasing(Rates())
  {
  }

  function BaudRates(speeds: seq<Word>): map<int, Word>
    requires |speeds| == |Rates()|
  {
    Table(Rates(), speeds)
  }

  /** serial.go's constants on BSD: the baud mask is 0, and so are Mark and
      Space. */
  function BsdPlatform(k: Consts, speeds: seq<Word>): Platform
    requires |speeds| == |Rates()|
  {
    PosixValues.SerialPlatform(k, BaudRates(speeds), {}, {}, {})
  }

  /** The table has exactly the 19 listed rates, 0 maps to `B0` and 9600 is
      present. */
  lemma BsdTable(speeds: seq<Word>)
    requires |speeds| == |Rates()|
    ensures forall r :: r in BaudRates(speeds) <==> r in Rates()
    ensures |BaudRates(speeds)| == 19
    ensures BaudRates(speeds)[0] == speeds[0]
    ensures 9600 in BaudRates(speeds) && BaudRates(speeds)[9600] == speeds[13]
  {
    var rates := Rates();
    RatesIncreasing();
    IncreasingIsDistinct(rates);
    TableSize(rates, speeds);
    TableLookup(rates, speeds, 0);
    TableLookup(rates, speeds, 13);
  }

  /** With a zero baud mask the clear in serial.go's `WithBaudRate` removes
      nothing, so two baud options leave the bits of both speeds set. */
  lemma BaudRatesAccumulate(k: Consts, speeds: seq<Word>, r1: int, r2: int, c: Port)
    requires |speeds| == |Rates()|
    requires r1 in BaudRates(speeds) && r2 in BaudRates(speeds)
    ensures var p := BsdPlatform(k, speeds);
            var after := WithBaudRate(p, r2, WithBaudRate(p, r1, c).port);
            && after.status == Pass
            && Includes(after.port.controlOptions, BaudRates(speeds)[r1] + BaudRates(speeds)[r2])
            && after.port.baudRate == BaudRates(speeds)[r2]
  {
  }

  /** Mark and Space equal None on BSD, so serial.go's `WithParity`, which
      tests Mark first, turns parity ON when asked for none. */
  lemma NoneEnablesParity(k: Consts, speeds: seq<Word>, c: Port)
    requires |speeds| == |Rates()|
    ensures var r := WithParity(BsdPlatform(k, speeds), PosixValues.ParityNone(k), c);
            r.status == Pass && Includes(r.port.controlOptions, k.PARENB)
  {
  }

  /** Testing None first, asking for no parity leaves PARENB clear. */
  lemma NoneFirstDisablesParity(k: Consts, speeds: seq<Word>, c: Port)
    requires |speeds| == |Rates()|
    ensures var r := WithParityNoneFirst(BsdPlatform(k, speeds), PosixValues.ParityNone(k), c);
            r.status == Pass && Disjoint(r.port.controlOptions, k.PARENB + k.PARODD)
  {
  }

  /** serial.go's `Open` as written, with no caller options: the defaults
      pass, and the port handed to the platform open has PARENB set in its
      control word although the parity byte says None. */
  lemma OpenEnablesParity(k: Consts, speeds: seq<Word>, device: string, open: Port -> Result<Port>)
    requires |speeds| == |Rates()| && device != ""
    requires Disjoint(k.PARENB, k.CSTOPB)
    ensures var plat := BsdPlatform(k, speeds);
            var d := RunOptions(Applier(plat), Defaults(plat), NewPort(device));
            && d.status == Pass
            && Open(plat, device, [], open) == OpenReport(open(d.port), 4, true)
            && Includes(d.port.controlOptions, k.PARENB)
            && d.port.parity == 0
  {
    var plat := BsdPlatform(k, speeds);
    BsdTable(speeds);
    DefaultsOutcome(plat, false, device);
  }

  /** The same `Open` with None tested first hands the platform open a
      control word with PARENB and PARODD both clear. */
  lemma OpenNoneFirstClearsParity(k: Consts, speeds: seq<Word>, device: string, open: Port -> Result<Port>)
    requires |speeds| == |Rates()| && device != ""
    ensures var plat := BsdPlatform(k, speeds);
            var d := RunOptions(ApplierNoneFirst(plat), Defaults(plat), NewPort(device));
            && d.status == Pass
            && OpenNoneFirst(plat, device, [], open) == OpenReport(open(d.port), 4, true)
            && Disjoint(d.port.controlOptions, k.PARENB + k.PARODD)
            && d.port.parity == 0
  {
    var plat := BsdPlatform(k, speeds);
    BsdTable(speeds);
    DefaultsOutcome(plat, true, device);
  }
}
