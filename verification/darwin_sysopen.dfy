/** The Darwin settings writer of open_darwin.go: it reads the current
    termios (only to check the descriptor), builds a new one from the
    option words and writes it with TIOCSETA. The ioctl results are
    parameters. */
module DarwinSysOpen {
  import opened Words
  import opened Results
  import opened SerialPort
  import opened Options
  import opened PosixConsts
  import SerialOptions
  import PosixValues
  import PosixSysOpen

  /** `sysReadBaudRate`: the same answer as the generic POSIX one. */
  function ReadBaudRate(get: Result<Termios>): (w: Word)
    ensures w == PosixSysOpen.ReadBaudRate(get)
  {
    if get.Err? then {} else get.value.cflag * BaudBits()
  }

  /** The termios `sysOpen` writes: the control word with CREAD and CLOCAL
      added, the input word as it is, the speed in both directions, VMIN 1
      only when there is no timeout, and VTIME the timeout. */
  function BuildTermios(k: Consts, c: Port, timeout: Byte): (t: Termios)
    ensures Includes(t.cflag, k.CREAD + k.CLOCAL + c.controlOptions)
    ensures SameOutside(t.cflag, c.controlOptions, k.CREAD + k.CLOCAL)
    ensures t.iflag == c.inputOptions && t.ispeed == c.baudRate && t.ospeed == c.baudRate
    ensures t.vmin == (if timeout == 0 then 1 else 0) && t.vtime == timeout
  {
    Termios(
      iflag := c.inputOptions, oflag := {}, lflag := {},
      cflag := k.CREAD + k.CLOCAL + c.controlOptions,
      vmin := if timeout == 0 then 1 else 0, vtime := timeout,
      ispeed := c.baudRate, ospeed := c.baudRate)
  }

  /** `sysOpen`: a failed TIOCGETA is returned with no write attempted;
      otherwise the result of the TIOCSETA write is returned. */
  function SysOpen(k: Consts, c: Port, timeout: Byte, get: Result<Termios>, setResult: Outcome): (r: SysRun)
    ensures |r.calls| > 0 && r.calls[0] == GetTermios(TIOCGETA)
    ensures get.Err? ==> r == SysRun([GetTermios(TIOCGETA)], Fail(get.error))
    ensures get.Ok? ==> r == SysRun([GetTermios(TIOCGETA), SetTermios(TIOCSETA, BuildTermios(k, c, timeout))], setResult)
  {
    if get.Err? then SysRun([GetTermios(TIOCGETA)], Fail(get.error))
    else SysRun([GetTermios(TIOCGETA), SetTermios(TIOCSETA, BuildTermios(k, c, timeout))], setResult)
  }

  /** The read policy: with no timeout a read blocks until one byte
      arrives; with a timeout it waits up to that many tenths of a second
      for one byte. */
  lemma ReadPolicy(k: Consts, c: Port, timeout: Byte)
    ensures ReadModeOf(BuildTermios(k, c, timeout)) == if timeout == 0 then Blocking else Timed
  {
  }

  /** What serial.go's encoders put in the words reaches the terminal: after
      a data-bits option, the CSIZE field of the written control word holds
      exactly the chosen size, provided CREAD and CLOCAL lie outside CSIZE. */
  lemma DataBitsReachTerminal(k: Consts, rates: map<int, Word>, mask: Word, d: int, c: Port, timeout: Byte)
    requires SizesInCsize(k) && Disjoint(k.CREAD + k.CLOCAL, k.CSIZE)
    requires 5 <= d <= 8
    ensures var plat := PosixValues.SerialPlatform(k, rates, mask, {}, {});
            var port := SerialOptions.WithDataBits(plat, d, c).port;
            GroupIs(BuildTermios(k, port, timeout).cflag, k.CSIZE, SerialOptions.DataBitsFlag(plat, d))
  {
    var plat := PosixValues.SerialPlatform(k, rates, mask, {}, {});
    var port := SerialOptions.WithDataBits(plat, d, c).port;
    var cf := BuildTermios(k, port, timeout).cflag;
    assert cf * k.CSIZE == (k.CREAD + k.CLOCAL) * k.CSIZE + port.controlOptions * k.CSIZE;
  }

  /** Built from the control word, the speed survives the write: reading
      the written settings back gives the port's speed, provided the word's
      speed field holds exactly that speed and CREAD and CLOCAL lie
      outside the field. */
  lemma SpeedRoundTrip(k: Consts, c: Port, timeout: Byte)
    requires Disjoint(k.CREAD + k.CLOCAL, BaudBits())
    requires GroupIs(c.controlOptions, BaudBits(), c.baudRate)
    ensures ReadBaudRate(Ok(BuildTermios(k, c, timeout))) == c.baudRate
  {
    var cf := BuildTermios(k, c, timeout).cflag;
    assert cf * BaudBits() == (k.CREAD + k.CLOCAL) * BaudBits() + c.controlOptions * BaudBits();
  }
}
