/** The Darwin values (values_darwin_amd64.go): a 19-entry baud table, the
    baud mask computed at start-up as the OR of every table value, and Mark
    and Space parity both zero. */
module DarwinValues {
  import opened Words
  import opened Results
  import opened SerialPort
  import opened Options
  import opened SerialOptions
  import opened PosixConsts
  import opened BaudTable
  import PosixValues

  /** The rates of the table, in the order listed; 0 asks for the rate to
      be detected. */
  function Rates(): seq<int> {
    [0, 50, 75, 110, 134, 150, 200, 300, 600, 1200, 1800, 2400, 4800,
     9600, 19200, 38400, 57600, 115200, 230400]
  }

  /** `validBaudRates`, given the `Bxxx` constants in the order of `Rates`. */
  function BaudRates(speeds: seq<Word>): map<int, Word>
    requires |speeds| == |Rates()|
  {
    Table(Rates(), speeds)
  }

  /** `maskBaudRate` as the start-up loop leaves it. */
  function MaskBaudRate(speeds: seq<Word>): Word {
    OrAll(speeds)
  }

  /** serial.go's constants on Darwin: Mark and Space are both 0. */
  function DarwinPlatform(k: Consts, speeds: seq<Word>): Platform
    requires |speeds| == |Rates()|
  {
    PosixValues.SerialPlatform(k, BaudRates(speeds), MaskBaudRate(speeds), {}, {})
  }

  lemma RatesIncreasing()
    ensures Increasing(Rates())
  {
  }

  /** The table has exactly the 19 listed rates, 0 maps to `B0`, the
      default 9600 is present, and the baud mask is made of the table's
      values and nothing else. */
  lemma DarwinTable(speeds: seq<Word>)
    requires |speeds| == |Rates()|
    ensures forall r :: r in BaudRates(speeds) <==> r in Rates()
    ensures |BaudRates(speeds)| == 19
    ensures BaudRates(speeds)[0] == speeds[0]
    ensures 9600 in BaudRates(speeds) && BaudRates(speeds)[9600] == speeds[13]
    ensures CoversValues(MaskBaudRate(speeds), BaudRates(speeds))
    ensures WithinValues(MaskBaudRate(speeds), BaudRates(speeds))
  {
    var rates := Rates();
    RatesIncreasing();
    IncreasingIsDistinct(rates);
    OrAllIsTableMask(rates, speeds);
    TableSize(rates, speeds);
    TableLookup(rates, speeds, 0);
    TableLookup(rates, speeds, 13);
  }

  /** The start-up loop, visiting the table in whatever order the map
      iteration yields, computes the mask `DarwinPlatform` uses. */
  method InitMaskBaudRate(speeds: seq<Word>, order: seq<int>) returns (mask: Word)
    requires |speeds| == |Rates()|
    requires forall r :: r in BaudRates(speeds) <==> r in order
    ensures mask == MaskBaudRate(speeds)
  {
    mask := MaskOf(BaudRates(speeds), order);
    IncreasingIsDistinct(Rates());
    OrAllIsTableMask(Rates(), speeds);
    MaskUnique(BaudRates(speeds), mask, OrAll(speeds));
  }

  /** Every table value lies inside the mask, so after serial.go's
      clear-then-set the baud group of the control word holds exactly the
      chosen speed. */
  lemma BaudGroupExact(k: Consts, speeds: seq<Word>, rate: int, c: Port)
    requires |speeds| == |Rates()|
    requires rate in BaudRates(speeds)
    ensures var r := WithBaudRate(DarwinPlatform(k, speeds), rate, c);
            && r.status == Pass
            && GroupIs(r.port.controlOptions, MaskBaudRate(speeds), BaudRates(speeds)[rate])
            && SameOutside(r.port.controlOptions, c.controlOptions, MaskBaudRate(speeds))
  {
    var rates := Rates();
    var t := BaudRates(speeds);
    var p := DarwinPlatform(k, speeds);
    RatesIncreasing();
    IncreasingIsDistinct(rates);
    OrAllIsTableMask(rates, speeds);
    assert Includes(MaskBaudRate(speeds), t[rate]);
    assert p.validBaudRates == t && p.maskBaudRate == MaskBaudRate(speeds);
  }

  /** Mark and Space equal None on Darwin, so serial.go's `WithParity`,
      which tests Mark first, turns parity ON when asked for none. */
  lemma NoneEnablesParity(k: Consts, speeds: seq<Word>, c: Port)
    requires |speeds| == |Rates()|
    ensures var r := WithParity(DarwinPlatform(k, speeds), PosixValues.ParityNone(k), c);
            r.status == Pass && Includes(r.port.controlOptions, k.PARENB)
  {
  }

  /** A flag group inside the baud mask is overwritten by every baud
      option: afterwards it holds the chosen speed's bits there and nothing
      else. Darwin's speeds are the rates themselves, so the mask reaches
      bit 17 and covers CSIZE, CSTOPB, PARENB and PARODD: a baud option
      given after the defaults replaces their settings. */
  lemma BaudOverwritesMaskedGroup(k: Consts, speeds: seq<Word>, rate: int, g: Word, c: Port)
    requires |speeds| == |Rates()|
    requires rate in BaudRates(speeds)
    requires Includes(MaskBaudRate(speeds), g)
    ensures var r := WithBaudRate(DarwinPlatform(k, speeds), rate, c);
            r.status == Pass && GroupIs(r.port.controlOptions, g, BaudRates(speeds)[rate] * g)
  {
    BaudGroupExact(k, speeds, rate, c);
  }
}
