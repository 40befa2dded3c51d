/** The Windows `open` of open_windows.go: open the device file, run the
    communication set-up calls of `comSyscallList` in order (all but
    PurgeComm), stop at the first failure, and keep the file only if every
    call succeeded. The set-up calls' results are parameters; what the
    model fixes is which calls are made, in what order, with what
    arguments. */
module WindowsOpen {
  import opened Words
  import opened Results
  import opened SerialPort
  import opened WindowsValues

  /** The kernel32 procedures the library looks up. */
  datatype ComCall = SetCommState | SetupComm | SetCommTimeouts | SetCommMask | PurgeComm

  /** `comSyscallList`, in its order. */
  function ComSyscallList(): seq<ComCall> {
    [SetCommState, SetupComm, SetCommTimeouts, SetCommMask, PurgeComm]
  }

  /** The list `open` walks. */
  const SetupCalls: seq<ComCall> := ComSyscallList()

  const MaxUint32: nat := 0xFFFF_FFFF

  /** The width of a Windows `DWORD`. */
  const DwordBits: nat := 32

  /** What `Fd()` returns for a nil `*os.File`: `^uintptr(0)`, which is
      `INVALID_HANDLE_VALUE`. */
  const InvalidHandle: nat := 0xFFFF_FFFF_FFFF_FFFF

  /** The handle `s.f.Fd()` yields for the port's file. */
  function HandleOf(f: File): nat {
    if f.OpenFile? then f.fd else InvalidHandle
  }

  // ---------------------------------------------------------------------
  // The read timeout.

  /** Go's integer division, which truncates toward zero: the remainder
      `a - q * b` takes the sign of `a` and is smaller than `b` in size,
      which determines `q`. */
  function GoDiv(a: int, b: int): (q: int)
    requires b > 0
    ensures a >= 0 ==> 0 <= a - q * b < b
    ensures a < 0 ==> -b < a - q * b <= 0
  {
    if a >= 0 then a / b else -((-a) / b)
  }

  /** Go's conversion of an integer to `uint32`: the low 32 bits of its
      two's-complement value. */
  function Uint32Of(x: int): (r: nat)
    ensures r <= MaxUint32
    ensures (x - r) % (MaxUint32 + 1) == 0
    ensures 0 <= x <= MaxUint32 ==> r == x
  {
    x % (MaxUint32 + 1)
  }

  /** `ReadTotalTimeoutConstant` as written: MaxUint32 - 1 with no timeout,
      otherwise the timeout in whole milliseconds converted to `uint32`,
      which wraps rather than saturates. */
  function ReadConstantAsWritten(readTimeout: int): (r: nat)
    ensures r <= MaxUint32
    ensures readTimeout == 0 ==> r == MaxUint32 - 1
    ensures readTimeout != 0 ==> (GoDiv(readTimeout, 1000000) - r) % (MaxUint32 + 1) == 0
    ensures readTimeout > 0 ==> r == (readTimeout / 1000000) % (MaxUint32 + 1)
    ensures 0 <= readTimeout / 1000000 <= MaxUint32 && readTimeout != 0 ==> r == readTimeout / 1000000
  {
    if readTimeout == 0 then MaxUint32 - 1 else Uint32Of(GoDiv(readTimeout, 1000000))
  }

  /** The constant with the milliseconds clamped into the range the
      `COMMTIMEOUTS` read policy needs, strictly between 0 and MAXDWORD;
      no timeout (a duration that is not positive) keeps MaxUint32 - 1. */
  function ReadConstantClamped(readTimeout: int): (r: nat)
    ensures 0 < r < MaxUint32
    ensures readTimeout <= 0 ==> r == MaxUint32 - 1
    ensures readTimeout > 0 && 1 <= readTimeout / 1000000 < MaxUint32 ==> r == readTimeout / 1000000
  {
    if readTimeout <= 0 then MaxUint32 - 1
    else
      var ms := readTimeout / 1000000;
      if ms < 1 then 1 else if ms > MaxUint32 - 1 then MaxUint32 - 1 else ms
  }

  /** A timeout of one nanosecond, which `WithReadTimeout` stores, becomes
      a constant of 0; a timeout of 2^32 milliseconds wraps to 0 as well,
      below the constant of a timeout one millisecond shorter. */
  lemma ReadConstantWraps()
    ensures ReadConstantAsWritten(1) == 0
    ensures ReadConstantAsWritten(4294967296000000) == 0
    ensures ReadConstantAsWritten(4294967295000000) == MaxUint32
  {
  }

  /** The constant as written repeats every 2^32 milliseconds: a timeout
      2^32 ms longer gives the same constant, so a longer timeout can give
      a shorter wait. */
  lemma ReadConstantPeriodic(t: int)
    requires t > 0
    ensures ReadConstantAsWritten(t + 4294967296000000) == ReadConstantAsWritten(t)
  {
    var ms := t / 1000000;
    DivModUnique(t + 4294967296000000, 1000000, ms + 4294967296, t % 1000000);
    DivModUnique(ms + 4294967296, MaxUint32 + 1, ms / (MaxUint32 + 1) + 1, ms % (MaxUint32 + 1));
  }

  /** The clamped constant grows with the timeout, and agrees with the
      written one wherever that does not wrap or reach 0. */
  lemma ReadConstantClampedMonotone(a: int, b: int)
    requires 0 < a <= b
    ensures ReadConstantClamped(a) <= ReadConstantClamped(b)
    ensures 1 <= a / 1000000 < MaxUint32 ==> ReadConstantClamped(a) == ReadConstantAsWritten(a)
  {
    assert a / 1000000 <= b / 1000000;
  }

  /** The `COMMTIMEOUTS` record `SetCommTimeouts` receives. */
  datatype CommTimeouts = CommTimeouts(
    readInterval: nat, readTotalMultiplier: nat, readTotalConstant: nat,
    writeTotalMultiplier: nat, writeTotalConstant: nat)

  /** The timeouts: MAXDWORD interval and multiplier, so a read returns as
      soon as a byte is there or the constant expires; no write timeout. */
  function TimeoutsOf(c: Port): (t: CommTimeouts)
    ensures t.readInterval == MaxUint32 && t.readTotalMultiplier == MaxUint32
    ensures t.readTotalConstant == ReadConstantAsWritten(c.readTimeout)
    ensures t.writeTotalMultiplier == 0 && t.writeTotalConstant == 0
  {
    CommTimeouts(MaxUint32, MaxUint32, ReadConstantAsWritten(c.readTimeout), 0, 0)
  }

  /** The DCB `SetCommState` receives: its own size, binary mode with DTR
      enabled (flags 0x11), the speed as a `uint32` and the three byte
      settings of the port. */
  function DcbOf(c: Port): (d: Dcb)
    ensures d.dcbLength == DcbSize && d.flags == [0x11, 0, 0, 0]
    ensures d.baudRate == ValueOf(c.baudRate, DwordBits)
    ensures d.byteSize == c.dataBits && d.parity == c.parity && d.stopBits == c.stopBits
  {
    Dcb(DcbSize, ValueOf(c.baudRate, DwordBits), [0x11, 0, 0, 0], c.dataBits, c.parity, c.stopBits)
  }

  /** A speed stored as the word of the number `n` reaches the DCB as `n`
      modulo 2^32, so a rate that fits in a DWORD, such as the 9600 of
      open.go's defaults, is passed unchanged. */
  lemma DcbBaudIsRate(c: Port, n: nat)
    requires c.baudRate == WordOf(n)
    ensures DcbOf(c).baudRate == n % Pow2(DwordBits)
    ensures n < Pow2(DwordBits) ==> DcbOf(c).baudRate == n
  {
    ValueOfWordOf(n, DwordBits);
  }

  // ---------------------------------------------------------------------
  // The set-up calls.

  /** The arguments each wrapper passes after the handle. */
  datatype Args =
    | StateArgs(dcb: Dcb)
    | SetupArgs(inQueue: nat, outQueue: nat)
    | TimeoutArgs(timeouts: CommTimeouts)
    | MaskArgs(mask: nat)
    | PurgeArgs(flags: nat)

  function ArgsOf(call: ComCall, c: Port): Args {
    match call
    case SetCommState => StateArgs(DcbOf(c))
    case SetupComm => SetupArgs(64, 64)
    case SetCommTimeouts => TimeoutArgs(TimeoutsOf(c))
    case SetCommMask => MaskArgs(0x0001)           // EV_RXCHAR
    case PurgeComm => PurgeArgs(0x000F)            // abort and clear both queues
  }

  /** Each wrapper's answer: a zero return from the procedure is a failure
      carrying the last error. */
  function Wrap(ret: nat, lastError: Error): (o: Outcome)
    ensures o.Fail? <==> ret == 0
    ensures o.Fail? ==> o.error == lastError
  {
    if ret == 0 then Fail(lastError) else Pass
  }

  /** One call made: which procedure, on which handle, with what. */
  datatype Invocation = Invocation(call: ComCall, handle: nat, args: Args)

  datatype SetupRun = SetupRun(invoked: seq<Invocation>, status: Outcome)

  /** The names of `names` the loop calls: all but PurgeComm, in order. */
  function Called(names: seq<ComCall>): (r: seq<ComCall>)
    ensures |r| <= |names|
    ensures forall i :: 0 <= i < |r| ==> r[i] != PurgeComm
  {
    if |names| == 0 then []
    else if names[0] == PurgeComm then Called(names[1..])
    else [names[0]] + Called(names[1..])
  }

  /** The loop of `open`: each name but PurgeComm is called in turn with
      `handle`, until one fails. The answers are a parameter. */
  function RunSetup(names: seq<ComCall>, c: Port, handle: nat, answer: ComCall -> Outcome): (r: SetupRun)
    ensures |r.invoked| <= |Called(names)|
    ensures r.status.Pass? ==> |r.invoked| == |Called(names)|
    ensures r.status.Fail? ==> |r.invoked| > 0 && answer(r.invoked[|r.invoked| - 1].call) == r.status
    decreases |names|
  {
    if |names| == 0 then SetupRun([], Pass)
    else if names[0] == PurgeComm then
      assert Called(names) == Called(names[1..]);
      RunSetup(names[1..], c, handle, answer)
    else
      assert Called(names) == [names[0]] + Called(names[1..]);
      var inv := Invocation(names[0], handle, ArgsOf(names[0], c));
      var o := answer(names[0]);
      if o.Fail? then SetupRun([inv], o)
      else
        var rest := RunSetup(names[1..], c, handle, answer);
        SetupRun([inv] + rest.invoked, rest.status)
  }

  /** Call number `i` of the loop is the `i`-th name it calls, on `handle`,
      with that wrapper's arguments; every call before the last one
      succeeded. */
  lemma {:induction false} RunSetupInvoked(names: seq<ComCall>, c: Port, handle: nat,
                                           answer: ComCall -> Outcome, i: nat)
    requires i < |RunSetup(names, c, handle, answer).invoked|
    ensures var r := RunSetup(names, c, handle, answer);
            && r.invoked[i] == Invocation(Called(names)[i], handle, ArgsOf(Called(names)[i], c))
            && (i < |r.invoked| - 1 ==> answer(r.invoked[i].call).Pass?)
    decreases |names|
  {
    if names[0] == PurgeComm {
      assert Called(names) == Called(names[1..]);
      RunSetupInvoked(names[1..], c, handle, answer, i);
    } else {
      assert Called(names) == [names[0]] + Called(names[1..]);
      var inv := Invocation(names[0], handle, ArgsOf(names[0], c));
      var r := RunSetup(names, c, handle, answer);
      if answer(names[0]).Fail? {
        assert r.invoked == [inv];
      } else {
        var rest := RunSetup(names[1..], c, handle, answer);
        assert r.invoked == [inv] + rest.invoked;
        if i > 0 {
          RunSetupInvoked(names[1..], c, handle, answer, i - 1);
          assert r.invoked[i] == rest.invoked[i - 1];
        }
      }
    }
  }

  /** Every call of the loop goes to `handle`. */
  lemma RunSetupHandles(names: seq<ComCall>, c: Port, handle: nat, answer: ComCall -> Outcome)
    ensures var r := RunSetup(names, c, handle, answer);
            forall i :: 0 <= i < |r.invoked| ==> r.invoked[i].handle == handle
  {
    var r := RunSetup(names, c, handle, answer);
    forall i | 0 <= i < |r.invoked|
      ensures r.invoked[i].handle == handle
    {
      RunSetupInvoked(names, c, handle, answer, i);
    }
  }

  /** The loop calls SetCommState, SetupComm, SetCommTimeouts and
      SetCommMask, in that order, and never PurgeComm. */
  lemma SetupOrder()
    ensures Called(ComSyscallList()) == [SetCommState, SetupComm, SetCommTimeouts, SetCommMask]
  {
    var l := ComSyscallList();
    assert l[1..][1..][1..][1..][1..] == [];
  }

  /** What became of one `open`. */
  datatype WinRun = WinRun(port: Port, status: Outcome, file: FileState, invoked: seq<Invocation>)

  /** `open` as written. The wrappers take the handle from `s.f`, which the
      deferred function assigns only after the loop, so the calls get the
      handle of the file the port held BEFORE this open. */
  function Open(c: Port, openFile: Result<nat>, answer: ComCall -> Outcome): (r: WinRun)
    ensures openFile.Err? ==> r == WinRun(c, Fail(openFile.error), NotOpened, [])
    ensures r.status.Pass? <==> r.file.Held?
    ensures openFile.Ok? ==> r.status == RunSetup(SetupCalls, c, HandleOf(c.f), answer).status
    ensures openFile.Ok? ==> r.file == (if r.status.Pass? then Held(openFile.value) else Closed(openFile.value))
    ensures r.port == (if r.file.Held? then c.(f := OpenFile(r.file.fd)) else c)
  {
    if openFile.Err? then WinRun(c, Fail(openFile.error), NotOpened, [])
    else
      var fd := openFile.value;
      var s := RunSetup(SetupCalls, c, HandleOf(c.f), answer);
      if s.status.Fail? then WinRun(c, s.status, Closed(fd), s.invoked)
      else WinRun(c.(f := OpenFile(fd)), Pass, Held(fd), s.invoked)
  }

  /** `open` with the calls made on the file just opened. */
  function OpenOnNewFile(c: Port, openFile: Result<nat>, answer: ComCall -> Outcome): (r: WinRun)
    ensures openFile.Err? ==> r == WinRun(c, Fail(openFile.error), NotOpened, [])
    ensures r.status.Pass? <==> r.file.Held?
    ensures openFile.Ok? ==> r.status == RunSetup(SetupCalls, c, openFile.value, answer).status
    ensures openFile.Ok? ==> r.file == (if r.status.Pass? then Held(openFile.value) else Closed(openFile.value))
    ensures r.port == (if r.file.Held? then c.(f := OpenFile(r.file.fd)) else c)
  {
    if openFile.Err? then WinRun(c, Fail(openFile.error), NotOpened, [])
    else
      var fd := openFile.value;
      var s := RunSetup(SetupCalls, c, fd, answer);
      if s.status.Fail? then WinRun(c, s.status, Closed(fd), s.invoked)
      else WinRun(c.(f := OpenFile(fd)), Pass, Held(fd), s.invoked)
  }

  /** As written, every set-up call goes to the handle the port held before
      this open, not to the file it opened. */
  lemma OpenInvokes(c: Port, openFile: Result<nat>, answer: ComCall -> Outcome)
    ensures Open(c, openFile, answer).invoked
            == if openFile.Ok? then RunSetup(SetupCalls, c, HandleOf(c.f), answer).invoked else []
  {
  }

  lemma OpenUsesPreviousHandle(c: Port, openFile: Result<nat>, answer: ComCall -> Outcome)
    ensures var r := Open(c, openFile, answer);
            forall i :: 0 <= i < |r.invoked| ==> r.invoked[i].handle == HandleOf(c.f)
  {
    OpenInvokes(c, openFile, answer);
    RunSetupHandles(SetupCalls, c, HandleOf(c.f), answer);
  }

  lemma OpenOnNewFileInvokes(c: Port, fd: nat, answer: ComCall -> Outcome)
    ensures OpenOnNewFile(c, Ok(fd), answer).invoked == RunSetup(SetupCalls, c, fd, answer).invoked
  {
  }

  /** With the fix, every set-up call goes to the file just opened. */
  lemma OpenOnNewFileUsesNewHandle(c: Port, fd: nat, answer: ComCall -> Outcome)
    ensures var r := OpenOnNewFile(c, Ok(fd), answer);
            forall i :: 0 <= i < |r.invoked| ==> r.invoked[i].handle == fd
  {
    OpenOnNewFileInvokes(c, fd, answer);
    RunSetupHandles(SetupCalls, c, fd, answer);
  }

  /** Opening a fresh port, as serial.go's `Open` always does, the first
      set-up call (SetCommState with the DCB) goes to INVALID_HANDLE_VALUE,
      whatever handle the file got. */
  lemma FirstCallGetsInvalidHandle(c: Port, fd: nat, answer: ComCall -> Outcome)
    requires c.f == NoFile && fd != InvalidHandle
    ensures var r := Open(c, Ok(fd), answer);
            && |r.invoked| > 0
            && r.invoked[0] == Invocation(SetCommState, InvalidHandle, StateArgs(DcbOf(c)))
  {
    SetupOrder();
    OpenInvokes(c, Ok(fd), answer);
    RunSetupInvoked(SetupCalls, c, InvalidHandle, answer, 0);
  }

  /** When every call succeeds the loop makes all four calls, in order. */
  lemma SetupAllPass(c: Port, handle: nat, answer: ComCall -> Outcome)
    requires forall n :: answer(n).Pass?
    ensures var s := RunSetup(SetupCalls, c, handle, answer);
            && s.status == Pass && |s.invoked| == 4
            && Called(SetupCalls) == [SetCommState, SetupComm, SetCommTimeouts, SetCommMask]
            && forall i :: 0 <= i < 4 ==> s.invoked[i] == Invocation(Called(SetupCalls)[i], handle, ArgsOf(Called(SetupCalls)[i], c))
  {
    SetupOrder();
    var s := RunSetup(SetupCalls, c, handle, answer);
    assert s.status.Pass?;
    forall i | 0 <= i < 4
      ensures s.invoked[i] == Invocation(Called(SetupCalls)[i], handle, ArgsOf(Called(SetupCalls)[i], c))
    {
      RunSetupInvoked(SetupCalls, c, handle, answer, i);
    }
  }

  /** On the new file, a run whose calls all succeed makes the four set-up
      calls on that file, in order, and keeps it. */
  lemma NewFileSetupComplete(c: Port, fd: nat, answer: ComCall -> Outcome)
    requires forall n :: answer(n).Pass?
    ensures var r := OpenOnNewFile(c, Ok(fd), answer);
            && r.status == Pass && r.file == Held(fd)
            && |r.invoked| == 4
            && r.invoked[0] == Invocation(SetCommState, fd, StateArgs(DcbOf(c)))
            && r.invoked[1] == Invocation(SetupComm, fd, SetupArgs(64, 64))
            && r.invoked[2] == Invocation(SetCommTimeouts, fd, TimeoutArgs(TimeoutsOf(c)))
            && r.invoked[3] == Invocation(SetCommMask, fd, MaskArgs(1))
  {
    var names := Called(SetupCalls);
    var s := RunSetup(SetupCalls, c, fd, answer);
    SetupAllPass(c, fd, answer);
    OpenOnNewFileInvokes(c, fd, answer);
    assert s.invoked[0] == Invocation(names[0], fd, ArgsOf(names[0], c));
    assert s.invoked[1] == Invocation(names[1], fd, ArgsOf(names[1], c));
    assert s.invoked[2] == Invocation(names[2], fd, ArgsOf(names[2], c));
    assert s.invoked[3] == Invocation(names[3], fd, ArgsOf(names[3], c));
  }

  /** The answers of the wrappers, from what each procedure returns and the
      last error. */
  function Wrapped(ret: ComCall -> nat, lastError: Error): ComCall -> Outcome {
    n => Wrap(ret(n), lastError)
  }

  /** When SetCommState returns 0, `open` stops after that first call with
      the last error and closes the file it opened. */
  lemma StateFailureStops(c: Port, fd: nat, ret: ComCall -> nat, lastError: Error)
    requires ret(SetCommState) == 0
    ensures var r := Open(c, Ok(fd), Wrapped(ret, lastError));
            && r.status == Fail(lastError) && r.file == Closed(fd) && r.port == c
            && |r.invoked| == 1 && r.invoked[0].call == SetCommState
  {
    var answer := Wrapped(ret, lastError);
    SetupOrder();
    OpenInvokes(c, Ok(fd), answer);
    var s := RunSetup(SetupCalls, c, HandleOf(c.f), answer);
    RunSetupInvoked(SetupCalls, c, HandleOf(c.f), answer, 0);
    assert s.invoked[0].call == SetCommState;
    assert answer(SetCommState) == Fail(lastError);
  }

  // ---------------------------------------------------------------------
  // Registration of the raw procedures (`init`).

  /** The names `init` registers a raw procedure for, given which lookups
      succeed: as written, only those whose lookup FAILED. */
  function RegisteredAsWritten(found: ComCall -> bool): (s: set<ComCall>)
    ensures forall n :: n in s <==> n in ComSyscallList() && !found(n)
  {
    set n | n in ComSyscallList() && !found(n)
  }

  /** The names registered when a successful lookup is what registers. */
  function Registered(found: ComCall -> bool): (s: set<ComCall>)
    ensures forall n :: n in s <==> n in ComSyscallList() && found(n)
  {
    set n | n in ComSyscallList() && found(n)
  }

  /** With every procedure present in kernel32, as written nothing is
      registered, so the first wrapper `open` runs calls a missing entry;
      registering on success covers every name. */
  lemma RegistrationInverted(found: ComCall -> bool)
    requires forall n :: found(n)
    ensures RegisteredAsWritten(found) == {}
    ensures SetCommState !in RegisteredAsWritten(found)
    ensures Registered(found) == {SetCommState, SetupComm, SetCommTimeouts, SetCommMask, PurgeComm}
  {
    var l := ComSyscallList();
    assert l[0] == SetCommState && l[1] == SetupComm && l[2] == SetCommTimeouts;
    assert l[3] == SetCommMask && l[4] == PurgeComm;
  }
}
