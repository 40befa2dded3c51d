/** The older Windows encoders (options_windows.go): each option checks its
    value against the enumeration and assigns one byte field of the port;
    the flow-control options do nothing. */
module LegacyWindowsOptions {
  import opened Words
  import opened Results
  import opened SerialPort
  import opened Options
  import opened LegacyOptions
  import WindowsValues

  /** The five parity values as the words the options carry. */
  predicate KnownParity(p: Word) {
    p == {} || p == {0} || p == {1} || p == {0, 1} || p == {2}
  }

  /** The three stop-bit values: One, OneHalf and Two. */
  predicate KnownStopBits(s: Word) {
    s == {} || s == {0} || s == {1}
  }

  /** `WithDataBits`: 5 to 8 are stored; anything else fails with no
      change. */
  function WithDataBits(d: int, c: Port): (r: Step)
    ensures r.status.Pass? <==> 5 <= d <= 8
    ensures r.status.Fail? ==> r == Step(c, Fail(InvalidDataBits(d)))
    ensures r.status.Pass? ==> r.port.dataBits == d
    ensures r.port.(dataBits := c.dataBits) == c
  {
    if 5 <= d <= 8 then Step(c.(dataBits := d), Pass)
    else Step(c, Fail(InvalidDataBits(d)))
  }

  /** `WithParity`: the five parity values are stored as their byte;
      anything else fails with no change. */
  function WithParity(p: Word, c: Port): (r: Step)
    ensures r.status.Pass? <==> KnownParity(p)
    ensures r.status.Fail? ==> r == Step(c, Fail(InvalidParity(p)))
    ensures r.status.Pass? ==> r.port.parity == LowByte(p) <= WindowsValues.ParitySpace
    ensures p == {} ==> r.port.parity == WindowsValues.ParityNone
    ensures p == {0} ==> r.port.parity == WindowsValues.ParityOdd
    ensures p == {1} ==> r.port.parity == WindowsValues.ParityEven
    ensures p == {0, 1} ==> r.port.parity == WindowsValues.ParityMark
    ensures p == {2} ==> r.port.parity == WindowsValues.ParitySpace
    ensures r.port.(parity := c.parity) == c
  {
    WindowsValues.EnumerationBytes();
    if KnownParity(p) then Step(c.(parity := LowByte(p)), Pass)
    else Step(c, Fail(InvalidParity(p)))
  }

  /** `WithStopBits`: One, OneHalf and Two are stored as their byte;
      anything else fails with no change. */
  function WithStopBits(s: Word, c: Port): (r: Step)
    ensures r.status.Pass? <==> KnownStopBits(s)
    ensures r.status.Fail? ==> r == Step(c, Fail(InvalidStopBits(s)))
    ensures r.status.Pass? ==> r.port.stopBits == LowByte(s) <= WindowsValues.StopBitTwo
    ensures s == {} ==> r.port.stopBits == WindowsValues.StopBitOne
    ensures s == {0} ==> r.port.stopBits == WindowsValues.StopBitOneHalf
    ensures s == {1} ==> r.port.stopBits == WindowsValues.StopBitTwo
    ensures r.port.(stopBits := c.stopBits) == c
  {
    WindowsValues.EnumerationBytes();
    if KnownStopBits(s) then Step(c.(stopBits := LowByte(s)), Pass)
    else Step(c, Fail(InvalidStopBits(s)))
  }

  function Apply(rates: map<int, Word>, o: Option, c: Port): (r: Step)
    ensures o.SoftwareFlowControl? || o.HardwareFlowControl? ==> r == Step(c, Pass)
  {
    match o
    case BaudRate(rate) => LegacyOptions.WithBaudRate(rates, rate, c)
    case ReadTimeout(t) => LegacyOptions.WithReadTimeout(t, c)
    case DataBits(d) => WithDataBits(d, c)
    case Parity(p) => WithParity(p, c)
    case StopBits(s) => WithStopBits(s, c)
    case SoftwareFlowControl(_) => Step(c, Pass)
    case HardwareFlowControl(_) => Step(c, Pass)
  }

  function Applier(rates: map<int, Word>): (Option, Port) -> Step {
    (o, c) => Apply(rates, o, c)
  }

  /** The data-bits count the last data-bits option of `opts` sets, or
      `dflt` if there is none. */
  function LastDataBits(opts: seq<Option>, dflt: Byte): Byte {
    if |opts| == 0 then dflt
    else
      var last := opts[|opts| - 1];
      if last.DataBits? && 5 <= last.bits <= 8 then last.bits
      else LastDataBits(opts[..|opts| - 1], dflt)
  }

  /** In a run that succeeds, the data-bits byte is the one the LAST
      data-bits option asked for: each option writes only its own field. */
  lemma {:induction false} RunLastDataBitsWins(rates: map<int, Word>, opts: seq<Option>, c: Port)
    requires RunOptions(Applier(rates), opts, c).status.Pass?
    ensures RunOptions(Applier(rates), opts, c).port.dataBits == LastDataBits(opts, c.dataBits)
    decreases |opts|
  {
    if |opts| > 0 {
      var n := |opts| - 1;
      RunConcat(Applier(rates), opts[..n], [opts[n]], c);
      assert opts[..n] + [opts[n]] == opts;
      var front := RunOptions(Applier(rates), opts[..n], c);
      RunLastDataBitsWins(rates, opts[..n], c);
      var s := Apply(rates, opts[n], front.port);
      assert [opts[n]][1..] == [];
      assert RunOptions(Applier(rates), [opts[n]], front.port) == Run(s.port, s.status, 1);
    }
  }
}
