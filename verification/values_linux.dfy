/** The Linux values (values_linux.go): a 31-entry baud table up to
    4000000, and parity and stop-bit constants of the 32-bit `Parity` and
    `StopBit` types, some of them bitwise complements. */
module LinuxValues {
  import opened Words
  import opened PosixConsts
  import opened BaudTable

  function Rates(): seq<int> {
    [0, 50, 75, 110, 134, 150, 200, 300, 600, 1200, 1800, 2400, 4800,
     9600, 19200, 38400, 57600, 115200, 230400, 460800, 500000, 576000,
     921600, 1000000, 1152000, 1500000, 2000000, 2500000, 3000000,
     3500000, 4000000]
  }

  lemma RatesIncreasing()
    ensures Increasing(Rates())
  {
  }

  function BaudRates(speeds: seq<Word>): map<int, Word>
    requires |speeds| == |Rates()|
  {
    Table(Rates(), speeds)
  }

  function ParityNone(k: Consts): Word { {} }

  function ParityOdd(k: Consts): Word { k.PARODD }

  /** `^Parity(PARODD)`: every bit of the 32-bit word but PARODD. */
  function ParityEven(k: Consts): Word { Not32(k.PARODD) }

  function ParityMark(k: Consts): Word { k.PARMRK }

  function ParitySpace(k: Consts): Word { Not32(k.PARMRK) }

  /** `^StopBit(CSTOPB)`: every bit of the 32-bit word but CSTOPB. */
  function StopBitOne(k: Consts): Word { Not32(k.CSTOPB) }

  function StopBitTwo(k: Consts): Word { k.CSTOPB }

  /** The table has exactly the 31 listed rates, 0 maps to `B0` and the
      default 9600 is present. */
  lemma LinuxTable(speeds: seq<Word>)
    requires |speeds| == |Rates()|
    ensures forall r :: r in BaudRates(speeds) <==> r in Rates()
    ensures |BaudRates(speeds)| == 31
    ensures BaudRates(speeds)[0] == speeds[0]
    ensures 9600 in BaudRates(speeds) && BaudRates(speeds)[9600] == speeds[13]
  {
    var rates := Rates();
    RatesIncreasing();
    IncreasingIsDistinct(rates);
    TableSize(rates, speeds);
    TableLookup(rates, speeds, 0);
    TableLookup(rates, speeds, 13);
  }

  /** The complemented constants: Even and Odd split the 32-bit word
      between them, and so do Space and Mark and the two stop-bit values;
      Even, Space and one stop bit are therefore far from single flags. */
  lemma ComplementsSplitWord(k: Consts)
    requires FitsIn(k.PARODD, 32) && FitsIn(k.PARMRK, 32) && FitsIn(k.CSTOPB, 32)
    ensures Disjoint(ParityEven(k), ParityOdd(k)) && ParityEven(k) + ParityOdd(k) == Full32()
    ensures Disjoint(ParitySpace(k), ParityMark(k)) && ParitySpace(k) + ParityMark(k) == Full32()
    ensures Disjoint(StopBitOne(k), StopBitTwo(k)) && StopBitOne(k) + StopBitTwo(k) == Full32()
  {
    Not32Splits(k.PARODD);
    Not32Splits(k.PARMRK);
    Not32Splits(k.CSTOPB);
  }
}
