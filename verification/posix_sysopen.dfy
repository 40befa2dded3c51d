/** The POSIX settings writer of open_posix.go: it builds the termios from
    the port's speed and its Windows-style byte fields, writes it with
    TIOCSETA and then makes the descriptor blocking. The ioctl and
    `SetNonblock` results are parameters. */
module PosixSysOpen {
  import opened Words
  import opened Results
  import opened SerialPort
  import opened PosixConsts

  /** `sysReadBaudRate`: 0 when the settings cannot be read, otherwise the
      bits of the control word under 0x100f. */
  function ReadBaudRate(get: Result<Termios>): (w: Word)
    ensures Includes(BaudBits(), w)
    ensures get.Err? ==> w == B0()
    ensures get.Ok? ==> GroupIs(get.value.cflag, BaudBits(), w)
  {
    if get.Err? then {} else get.value.cflag * BaudBits()
  }

  /** The termios `sysOpen` writes. Reads never wait for a byte count
      (VMIN 0); VTIME is the timeout argument. */
  function BuildTermios(k: Consts, c: Port, timeout: Byte): (t: Termios)
    ensures Includes(t.cflag, k.CREAD + k.CLOCAL + c.baudRate)
    ensures t.iflag == k.IGNBRK && t.ispeed == c.baudRate && t.ospeed == c.baudRate
    ensures t.vmin == 0 && t.vtime == timeout
  {
    Termios(
      iflag := k.IGNBRK, oflag := {}, lflag := {},
      cflag := k.CREAD + k.CLOCAL + c.baudRate + WordOf(c.dataBits) + WordOf(c.stopBits) + WordOf(c.parity),
      vmin := 0, vtime := timeout, ispeed := c.baudRate, ospeed := c.baudRate)
  }

  /** `sysOpen`: a failed TIOCSETA is returned before `SetNonblock` is
      tried; otherwise the result of `SetNonblock(false)` is returned. */
  function SysOpen(k: Consts, c: Port, timeout: Byte, setResult: Outcome, nonblockResult: Outcome): (r: SysRun)
    ensures 1 <= |r.calls| <= 2
    ensures r.calls[0] == SetTermios(TIOCSETA, BuildTermios(k, c, timeout))
    ensures |r.calls| == 2 <==> setResult.Pass?
    ensures r.status.Pass? <==> setResult.Pass? && nonblockResult.Pass?
    ensures |r.calls| == 2 ==> r.calls[1] == SetNonblock(false) && r.status == nonblockResult
  {
    var tty := BuildTermios(k, c, timeout);
    if setResult.Fail? then SysRun([SetTermios(TIOCSETA, tty)], setResult)
    else SysRun([SetTermios(TIOCSETA, tty), SetNonblock(false)], nonblockResult)
  }

  /** The read policy this writer sets: with no timeout reads poll and
      return at once, otherwise they wait up to the timeout for one byte. */
  lemma ReadPolicy(k: Consts, c: Port, timeout: Byte)
    ensures ReadModeOf(BuildTermios(k, c, timeout)) == if timeout == 0 then Polling else Timed
  {
  }

  /** This writer never reads the two option words: whatever the encoders
      put in `controlOptions` and `inputOptions` does not reach the
      terminal. */
  lemma OptionWordsIgnored(k: Consts, c: Port, ctrl: Word, input: Word, timeout: Byte)
    ensures BuildTermios(k, c.(controlOptions := ctrl, inputOptions := input), timeout)
            == BuildTermios(k, c, timeout)
  {
  }

  /** The byte fields are ORed into the control word as numbers, so a data
      count of 8 lands on bit 3, inside the field 0x100f the read-back
      keeps: bit 3 is read back whatever the speed, and a speed without bit
      3 does not come back as itself. */
  lemma SpeedReadBackCorrupted(k: Consts, c: Port, timeout: Byte)
    requires c.dataBits == 8
    ensures 3 in ReadBaudRate(Ok(BuildTermios(k, c, timeout)))
    ensures 3 !in c.baudRate ==> ReadBaudRate(Ok(BuildTermios(k, c, timeout))) != c.baudRate
  {
    assert WordOf(8) == {3};
  }

  /** Eight data bits are asked for with the number 8, not with CS8: when
      CSIZE lies apart from CREAD, CLOCAL, the speed and bit 3, and the
      stop-bits and parity bytes are 0 (One and None on the BSDs), the
      CSIZE field of the written control word is empty, so the terminal is
      set to the size whose flag is 0 rather than to CS8. */
  lemma DataBitsMissCsize(k: Consts, c: Port, timeout: Byte)
    requires c.dataBits == 8 && c.stopBits == 0 && c.parity == 0
    requires Disjoint(k.CSIZE, k.CREAD + k.CLOCAL + c.baudRate + {3})
    ensures GroupIs(BuildTermios(k, c, timeout).cflag, k.CSIZE, {})
    ensures k.CS8 != {} ==> !GroupIs(BuildTermios(k, c, timeout).cflag, k.CSIZE, k.CS8)
  {
    assert WordOf(8) == {3};
    assert WordOf(0) == {};
  }

  /** A speed that lies wholly outside 0x100f, as the BSD speeds do (they
      are the rates themselves, B9600 being 0x2580), is never read back. */
  lemma SpeedOutsideFieldLost(k: Consts, c: Port, timeout: Byte)
    requires c.baudRate != {} && Disjoint(c.baudRate, BaudBits())
    ensures ReadBaudRate(Ok(BuildTermios(k, c, timeout))) != c.baudRate
  {
    var w := ReadBaudRate(Ok(BuildTermios(k, c, timeout)));
    var b :| b in c.baudRate;
    assert (b in c.baudRate * BaudBits()) == (b in BaudBits());
    assert b !in w;
  }
}
