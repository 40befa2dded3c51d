/** The FreeBSD values (values_freebsd.go): a 21-entry baud table up to
    921600, no baud mask, and Mark and Space parity both zero. */
module FreeBsdValues {
  import opened Words
  import opened Results
  import opened SerialPort
  import opened Options
  import opened SerialOptions
  import opened PosixConsts
  import opened BaudTable
  import PosixValues

  function Rates(): seq<int> {
    [0, 50, 75, 110, 134, 150, 200, 300, 600, 1200, 1800, 2400, 4800,
     9600, 19200, 38400, 57600, 115200, 230400, 460800, 921600]
  }

  lemma RatesIncreasing()
    ensures Increasing(Rates())
  {
  }

  function BaudRates(speeds: seq<Word>): map<int, Word>
    requires |speeds| == |Rates()|
  {
    Table(Rates(), speeds)
  }

  function FreeBsdPlatform(k: Consts, speeds: seq<Word>): Platform
    requires |speeds| == |Rates()|
  {
    PosixValues.SerialPlatform(k, BaudRates(speeds), {}, {}, {})
  }

  /** The table has exactly the 21 listed rates and 0 maps to `B0`. */
  lemma FreeBsdTable(speeds: seq<Word>)
    requires |speeds| == |Rates()|
    ensures forall r :: r in BaudRates(speeds) <==> r in Rates()
    ensures |BaudRates(speeds)| == 21
    ensures BaudRates(speeds)[0] == speeds[0]
  {
    var rates := Rates();
    RatesIncreasing();
    IncreasingIsDistinct(rates);
    TableSize(rates, speeds);
    TableLookup(rates, speeds, 0);
  }

  /** A rate above 921600, such as 1000000, is rejected without any
      change to the port. */
  lemma MillionRejected(k: Consts, speeds: seq<Word>, c: Port)
    requires |speeds| == |Rates()|
    ensures WithBaudRate(FreeBsdPlatform(k, speeds), 1000000, c) == Step(c, Fail(InvalidBaudRate(1000000)))
  {
    var rates := Rates();
    RatesIncreasing();
    IncreasingAtMostLast(rates);
    assert rates[20] == 921600;
    FreeBsdTable(speeds);
  }
}
