/** The POSIX terminal-interface constants the library reads from the
    operating system (golang.org/x/sys/unix), and the termios record. Their
    numeric values differ between systems, so they are parameters; the
    facts the proofs rely on are named predicates. */
module PosixConsts {
  import opened Words
  import opened Results

  /** The `c_cflag`, `c_iflag` and `open(2)` flag constants, as words. */
  datatype Consts = Consts(
    CSIZE: Word, CS5: Word, CS6: Word, CS7: Word, CS8: Word,
    CSTOPB: Word, CREAD: Word, CLOCAL: Word,
    PARENB: Word, PARODD: Word, PARMRK: Word, CRTSCTS: Word,
    IGNBRK: Word, IXON: Word, IXOFF: Word, IXANY: Word,
    O_RDWR: Word, O_NOCTTY: Word, O_NONBLOCK: Word)

  /** Every character-size value lies inside the CSIZE field, as section 11
      of the POSIX.1 Base Definitions (General Terminal Interface) lays out
      `c_cflag`. */
  predicate SizesInCsize(k: Consts) {
    && Includes(k.CSIZE, k.CS5) && Includes(k.CSIZE, k.CS6)
    && Includes(k.CSIZE, k.CS7) && Includes(k.CSIZE, k.CS8)
  }

  /** The single-bit control flags are non-empty, lie in the low 32 bits
      and do not overlap. */
  predicate ControlFlagsApart(k: Consts) {
    && k.CSTOPB != {} && k.PARENB != {} && k.PARODD != {}
    && FitsIn(k.CSTOPB, 32) && FitsIn(k.PARENB, 32) && FitsIn(k.PARODD, 32)
    && Disjoint(k.CSTOPB, k.PARENB) && Disjoint(k.CSTOPB, k.PARODD)
    && Disjoint(k.PARENB, k.PARODD)
    && Disjoint(k.CSIZE, k.CSTOPB + k.PARENB + k.PARODD)
  }

  /** The part of `struct termios` the library writes. */
  datatype Termios = Termios(
    iflag: Word, oflag: Word, cflag: Word, lflag: Word,
    vmin: Byte, vtime: Byte, ispeed: Word, ospeed: Word)

  /** The ioctl requests used on terminals: read the settings, write them
      now, and write them after draining output and discarding input. */
  datatype Request = TIOCGETA | TIOCSETA | TIOCSETAF

  /** A call the library makes on an open terminal. */
  datatype Call =
    | GetTermios(req: Request)
    | SetTermios(req: Request, tty: Termios)
    | SetNonblock(nonblocking: bool)

  /** The calls a sequence made, in order, and the error it returned. */
  datatype SysRun = SysRun(calls: seq<Call>, status: Outcome)

  /** The four ways a non-canonical read can wait, by MIN and TIME, as
      section 11.1.7 of the POSIX.1 Base Definitions (Non-Canonical Mode
      Input Processing) lists them. */
  datatype ReadMode =
    | Polling    // MIN = 0, TIME = 0: return at once with what is there
    | Blocking   // MIN > 0, TIME = 0: wait for MIN bytes, however long
    | Timed      // MIN = 0, TIME > 0: wait for one byte or TIME tenths of a second
    | InterByte  // MIN > 0, TIME > 0: TIME bounds the gap between bytes

  function ReadModeOf(t: Termios): (m: ReadMode)
    ensures m == Polling <==> t.vmin == 0 && t.vtime == 0
    ensures m == Blocking <==> t.vmin > 0 && t.vtime == 0
    ensures m == Timed <==> t.vmin == 0 && t.vtime > 0
  {
    if t.vmin == 0 then (if t.vtime == 0 then Polling else Timed)
    else (if t.vtime == 0 then Blocking else InterByte)
  }

  /** `unix.B0`, the hang-up speed, is 0 on every system; the tables use it
      to mean "detect the rate". */
  function B0(): Word { {} }

  /** The mask `sysReadBaudRate` applies to the control word: 0x100f,
      bits 0 to 3 and bit 12. */
  function BaudBits(): Word {
    {0, 1, 2, 3, 12}
  }
}
