/** The flush function of the BSD and FreeBSD builds (`mkFlushFunc` in
    values_bsd.go and values_freebsd.go): read the current termios and write
    the very same one back with TIOCSETAF, which discards pending input and
    drains output without changing any setting. */
module TermiosFlush {
  import opened Words
  import opened Results
  import opened PosixConsts

  /** The terminal as the flush sees it: its settings and the bytes
      waiting in each direction. */
  datatype Terminal = Terminal(settings: Termios, input: seq<Byte>, output: seq<Byte>)

  /** The effect of one call, as `tcsetattr` describes it: TIOCSETA replaces
      the settings at once; TIOCSETAF replaces them once the output has
      been sent, and throws the pending input away. Reads change nothing. */
  function Perform(t: Terminal, call: Call): (r: Terminal)
    ensures call.GetTermios? || call.SetNonblock? ==> r == t
    ensures call.SetTermios? && call.req == TIOCSETAF ==> r == Terminal(call.tty, [], [])
  {
    match call
    case GetTermios(_) => t
    case SetNonblock(_) => t
    case SetTermios(req, tty) =>
      if req == TIOCSETAF then Terminal(tty, [], [])
      else if req == TIOCSETA then t.(settings := tty)
      else t
  }

  function PerformAll(t: Terminal, calls: seq<Call>): Terminal
    decreases |calls|
  {
    if |calls| == 0 then t else PerformAll(Perform(t, calls[0]), calls[1..])
  }

  /** The flush closure. The read and write results are parameters. */
  function Flush(get: Result<Termios>, setResult: Outcome): (r: SysRun)
    ensures |r.calls| > 0 && r.calls[0] == GetTermios(TIOCGETA)
    ensures get.Err? ==> r == SysRun([GetTermios(TIOCGETA)], Fail(get.error))
    ensures get.Ok? ==> |r.calls| == 2 && r.calls[1].SetTermios? && r.status == setResult
  {
    if get.Err? then SysRun([GetTermios(TIOCGETA)], Fail(get.error))
    else SysRun([GetTermios(TIOCGETA), SetTermios(TIOCSETAF, get.value)], setResult)
  }

  /** When the read returns the terminal's own settings and the write
      succeeds, a flush leaves every setting as it was and both queues
      empty. */
  lemma FlushKeepsSettings(t: Terminal)
    ensures var r := Flush(Ok(t.settings), Pass);
            r.status == Pass && PerformAll(t, r.calls) == Terminal(t.settings, [], [])
  {
    var r := Flush(Ok(t.settings), Pass);
    var t1 := Perform(t, r.calls[0]);
    assert t1 == t;
    var t2 := Perform(t1, r.calls[1]);
    assert t2 == Terminal(t.settings, [], []);
    assert r.calls[1..][1..] == [];
    assert PerformAll(t2, r.calls[1..][1..]) == t2;
  }

  /** A failed read stops the flush: the terminal is untouched. */
  lemma FlushErrorTouchesNothing(t: Terminal, e: Error, setResult: Outcome)
    ensures var r := Flush(Err(e), setResult);
            r.status == Fail(e) && PerformAll(t, r.calls) == t
  {
    var r := Flush(Err(e), setResult);
    assert r.calls[1..] == [];
  }
}
