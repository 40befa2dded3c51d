/** Running a list of options over a port, as both `Open` functions do:
    in order, stopping at the first option that returns an error. */
module Options {
  import opened Results
  import opened SerialPort

  /** The port after one option ran, and the error it returned. The port is
      kept even on failure, because some options mutate before validating. */
  datatype Step = Step(port: Port, status: Outcome)

  /** The port after a run, its status, and how many options ran
      (the failing one included). */
  datatype Run = Run(port: Port, status: Outcome, ran: nat)

  /** `for _, o := range opts { if err := o(port); err != nil { return err } }` */
  function RunOptions<O>(apply: (O, Port) -> Step, opts: seq<O>, c: Port): (r: Run)
    ensures r.ran <= |opts|
    ensures r.status.Pass? ==> r.ran == |opts|
    ensures r.status.Fail? ==> 0 < r.ran
    decreases |opts|
  {
    if |opts| == 0 then Run(c, Pass, 0)
    else
      var s := apply(opts[0], c);
      if s.status.Fail? then Run(s.port, s.status, 1)
      else
        var rest := RunOptions(apply, opts[1..], s.port);
        Run(rest.port, rest.status, rest.ran + 1)
  }

  /** A failed run stopped at option number `ran`: every earlier option
      succeeded, and that option, applied to the port they produced, gave the
      run's port and error. */
  lemma {:induction false} RunFailsAtLast<O>(apply: (O, Port) -> Step, opts: seq<O>, c: Port)
    requires RunOptions(apply, opts, c).status.Fail?
    ensures var r := RunOptions(apply, opts, c);
            var before := RunOptions(apply, opts[..r.ran - 1], c);
            && before.status.Pass?
            && apply(opts[r.ran - 1], before.port) == Step(r.port, r.status)
  {
    var r := RunOptions(apply, opts, c);
    var s := apply(opts[0], c);
    if s.status.Fail? {
      assert opts[..r.ran - 1] == [];
    } else {
      var tail := opts[1..];
      RunFailsAtLast(apply, tail, s.port);
      var rt := RunOptions(apply, tail, s.port);
      assert opts[..r.ran - 1] == [opts[0]] + tail[..rt.ran - 1];
      assert opts[..r.ran - 1][1..] == tail[..rt.ran - 1];
    }
  }

  /** Running `a + b` is running `a`, then, only if `a` succeeded, running
      `b` on the port `a` produced. In particular nothing after the first
      failing option runs. */
  lemma {:induction false} RunConcat<O>(apply: (O, Port) -> Step, a: seq<O>, b: seq<O>, c: Port)
    ensures var ra := RunOptions(apply, a, c);
            var rb := RunOptions(apply, b, ra.port);
            RunOptions(apply, a + b, c) ==
              if ra.status.Fail? then ra else Run(rb.port, rb.status, |a| + rb.ran)
  {
    if |a| == 0 {
      assert a + b == b;
    } else {
      var s := apply(a[0], c);
      assert (a + b)[0] == a[0];
      assert (a + b)[1..] == a[1..] + b;
      if s.status.Pass? {
        RunConcat(apply, a[1..], b, s.port);
      }
    }
  }
}
