/** The POSIX `open` of conn_posix.go: open the device file, resolve an
    auto-detect baud rate by reading the terminal's current speed, write the
    settings, and keep the file only on success. Every system call's result
    is a parameter. */
module PosixConn {
  import opened Words
  import opened Results
  import opened SerialPort
  import opened PosixConsts
  import PosixValues
  import PosixSysOpen

  /** The answers the system gives one open attempt: `os.OpenFile`, the
      TIOCGETA read behind `sysReadBaudRate`, and the settings writer. */
  datatype Answers = Answers(openFile: Result<nat>, readBack: Result<Termios>, sysOpen: Outcome)

  /** The `os.OpenFile` call: device name, flags and permission bits. */
  datatype OpenRequest = OpenRequest(name: string, flags: Word, perm: nat)

  /** The port after the attempt, the error returned, what became of the
      file, the open request, and whether the read-back and the settings
      writer ran. */
  datatype ConnRun = ConnRun(
    port: Port, status: Outcome, file: FileState, request: OpenRequest,
    readBack: bool, sysOpenCalled: bool)

  /** The permission bits the device is opened with, 0666. */
  const Perm: nat := 438

  /** The speed the port ends up with: its own, or the one read back when it
      asked for detection. */
  function ResolvedBaud(c: Port, a: Answers): Word {
    if c.baudRate == B0() then PosixSysOpen.ReadBaudRate(a.readBack) else c.baudRate
  }

  /** The open sequence as written. When detection fails the error is
      returned without closing the file, which is then lost. */
  function Open(k: Consts, c: Port, a: Answers): (r: ConnRun)
    ensures r.request == OpenRequest(c.dev, PosixValues.SerialFileFlag(k), Perm)
    ensures a.openFile.Err? ==> r.status == Fail(a.openFile.error) && r.file == NotOpened && r.port == c
    ensures r.status.Pass? <==> r.file.Held?
    ensures r.file.Held? ==> r.port.f == OpenFile(r.file.fd) && r.port.baudRate != B0()
    ensures !r.file.Held? ==> r.port.f == c.f
    ensures r.readBack <==> a.openFile.Ok? && c.baudRate == B0()
    ensures r.sysOpenCalled <==> a.openFile.Ok? && ResolvedBaud(c, a) != B0()
    ensures r.file.Leaked? <==> a.openFile.Ok? && ResolvedBaud(c, a) == B0()
    ensures r.port.(baudRate := c.baudRate, f := c.f) == c
  {
    var req := OpenRequest(c.dev, PosixValues.SerialFileFlag(k), Perm);
    if a.openFile.Err? then ConnRun(c, Fail(a.openFile.error), NotOpened, req, false, false)
    else
      var fd := a.openFile.value;
      var readBack := c.baudRate == B0();
      var c1 := c.(baudRate := ResolvedBaud(c, a));
      if c1.baudRate == B0() then
        ConnRun(c1, Fail(CannotDetermineBaudRate), Leaked(fd), req, readBack, false)
      else if a.sysOpen.Fail? then
        ConnRun(c1, a.sysOpen, Closed(fd), req, readBack, true)
      else
        ConnRun(c1.(f := OpenFile(fd)), Pass, Held(fd), req, readBack, true)
  }

  /** The sequence with the file closed on the detection failure too: no
      path loses the handle. */
  function OpenReleasing(k: Consts, c: Port, a: Answers): (r: ConnRun)
    ensures !r.file.Leaked?
    ensures r.status.Pass? <==> r.file.Held?
    ensures a.openFile.Ok? && r.status.Fail? ==> r.file == Closed(a.openFile.value)
    ensures r.file.Held? ==> r.port.f == OpenFile(r.file.fd) && r.port.baudRate != B0()
    ensures !r.file.Held? ==> r.port.f == c.f
  {
    var r := Open(k, c, a);
    if r.file.Leaked? then r.(file := Closed(r.file.fd)) else r
  }

  /** The two sequences differ only on the detection failure. */
  lemma ReleasingDiffersOnlyOnLeak(k: Consts, c: Port, a: Answers)
    ensures !Open(k, c, a).file.Leaked? ==> OpenReleasing(k, c, a) == Open(k, c, a)
    ensures Open(k, c, a).file.Leaked? ==>
              OpenReleasing(k, c, a) == Open(k, c, a).(file := Closed(Open(k, c, a).file.fd))
  {
  }

  /** An auto-detect port on a terminal whose settings cannot be read: the
      file opens, the read-back yields B0, and the handle is lost. */
  lemma AutoDetectFailureLeaks(k: Consts, c: Port, fd: nat, e: Error, w: Outcome)
    requires c.baudRate == B0()
    ensures var r := Open(k, c, Answers(Ok(fd), Err(e), w));
            r.status == Fail(CannotDetermineBaudRate) && r.file == Leaked(fd) && r.port.f == c.f
  {
  }
}
