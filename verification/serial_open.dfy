/** serial.go's `Open`: reject an empty device name, apply the 9600-8N1
    defaults, then the caller's options, each list in order and stopping at
    the first error, and only then open the platform port. The platform
    open is a parameter. */
module SerialOpen {
  import opened Words
  import opened Results
  import opened SerialPort
  import opened Options
  import opened SerialOptions
  import WindowsValues

  /** What `Open` returned, how many options ran (defaults included) and
      whether the platform open was reached. */
  datatype OpenReport = OpenReport(result: Result<Port>, optionsRan: nat, openCalled: bool)

  /** `Open` with the options run by `ap`. */
  function OpenWith(ap: (Option, Port) -> Step, plat: Platform, device: string, options: seq<Option>,
                    open: Port -> Result<Port>): (r: OpenReport)
    ensures device == "" ==> r == OpenReport(Err(DeviceNameEmpty), 0, false)
    ensures !r.openCalled ==> r.result.Err?
    ensures r.openCalled ==> r.optionsRan == |Defaults(plat)| + |options|
    ensures r.optionsRan <= |Defaults(plat)| + |options|
  {
    if device == "" then OpenReport(Err(DeviceNameEmpty), 0, false)
    else
      var d := RunOptions(ap, Defaults(plat), NewPort(device));
      if d.status.Fail? then OpenReport(Err(d.status.error), d.ran, false)
      else
        var u := RunOptions(ap, options, d.port);
        if u.status.Fail? then OpenReport(Err(u.status.error), |Defaults(plat)| + u.ran, false)
        else OpenReport(open(u.port), |Defaults(plat)| + |options|, true)
  }

  /** `Open` as written. */
  function Open(plat: Platform, device: string, options: seq<Option>,
                open: Port -> Result<Port>): (r: OpenReport)
    ensures device == "" ==> r == OpenReport(Err(DeviceNameEmpty), 0, false)
    ensures !r.openCalled ==> r.result.Err?
    ensures r.openCalled ==> r.optionsRan == |Defaults(plat)| + |options|
    ensures r.optionsRan <= |Defaults(plat)| + |options|
  {
    OpenWith(Applier(plat), plat, device, options, open)
  }

  /** `Open` with the parity encoder that tests None first. */
  function OpenNoneFirst(plat: Platform, device: string, options: seq<Option>,
                         open: Port -> Result<Port>): OpenReport {
    OpenWith(ApplierNoneFirst(plat), plat, device, options, open)
  }

  /** `Open` on a non-empty name is one run of the defaults followed by the
      caller's options: the platform open is reached exactly when that run
      succeeds, and receives the port it produced; otherwise the first
      error is returned. */
  lemma OpenRunsDefaultsThenOptions(plat: Platform, device: string, options: seq<Option>,
                                    open: Port -> Result<Port>)
    requires device != ""
    ensures var run := RunOptions(Applier(plat), Defaults(plat) + options, NewPort(device));
            var r := Open(plat, device, options, open);
            && (r.openCalled <==> run.status.Pass?)
            && (run.status.Pass? ==> r.result == open(run.port))
            && (run.status.Fail? ==> r.result == Err(run.status.error) && r.optionsRan == run.ran)
  {
    RunConcat(Applier(plat), Defaults(plat), options, NewPort(device));
  }

  /** The defaults succeed exactly when 9600 is in the table; otherwise the
      baud default is the one that fails. On success the port holds the
      9600 speed, eight data bits, the None parity byte and one stop bit.
      Whether parity is off in the control word depends on the encoder: as
      written, a platform whose Mark or Space equals None gets the enable
      bit; tested None first, the whole parity group is clear. */
  lemma DefaultsOutcome(plat: Platform, noneFirst: bool, device: string)
    ensures var ap := if noneFirst then ApplierNoneFirst(plat) else Applier(plat);
            var d := RunOptions(ap, Defaults(plat), NewPort(device));
            var noneIsMarkOrSpace := plat.parityNone == plat.parityMark || plat.parityNone == plat.paritySpace;
            && (d.status.Pass? <==> 9600 in plat.validBaudRates)
            && (d.status.Fail? ==> d.status == Fail(InvalidBaudRate(9600)) && d.ran == 1)
            && (d.status.Pass? ==>
                  && d.port.baudRate == plat.validBaudRates[9600]
                  && d.port.dataBits == 8
                  && d.port.parity == LowByte(plat.parityNone)
                  && d.port.stopBits == LowByte(plat.stopBitOne)
                  && d.port.dev == device && d.port.f == NoFile
                  && (noneFirst || !noneIsMarkOrSpace ==> Disjoint(d.port.controlOptions, ParityGroup(plat)))
                  && (!noneFirst && noneIsMarkOrSpace && Disjoint(plat.parityEnable, plat.stopBitTwo) ==>
                        Includes(d.port.controlOptions, plat.parityEnable)))
  {
    var ap := if noneFirst then ApplierNoneFirst(plat) else Applier(plat);
    var ds := Defaults(plat);
    var p0 := NewPort(device);
    var s1 := ap(ds[0], p0);
    assert s1 == WithBaudRate(plat, 9600, p0);
    if s1.status.Pass? {
      var s2 := ap(ds[1], s1.port);
      var s3 := ap(ds[2], s2.port);
      var s4 := ap(ds[3], s3.port);
      assert s2 == WithDataBits(plat, 8, s1.port);
      assert s3 == if noneFirst then WithParityNoneFirst(plat, plat.parityNone, s2.port)
                   else WithParity(plat, plat.parityNone, s2.port);
      assert s4 == WithStopBits(plat, plat.stopBitOne, s3.port);
      DefaultParityKept(plat, noneFirst, s2.port);
      assert s2.status == Pass && s3.status == Pass && s4.status == Pass;
      RunOfFourPassing(ap, ds, p0);
    }
  }

  /** Four options that each pass run to the port the last one left. */
  lemma RunOfFourPassing(ap: (Option, Port) -> Step, ds: seq<Option>, p0: Port)
    requires |ds| == 4
    ensures var s1 := ap(ds[0], p0);
            var s2 := ap(ds[1], s1.port);
            var s3 := ap(ds[2], s2.port);
            var s4 := ap(ds[3], s3.port);
            s1.status.Pass? && s2.status.Pass? && s3.status.Pass? && s4.status.Pass? ==>
              RunOptions(ap, ds, p0) == Run(s4.port, Pass, 4)
  {
    var s1 := ap(ds[0], p0);
    var s2 := ap(ds[1], s1.port);
    var s3 := ap(ds[2], s2.port);
    var s4 := ap(ds[3], s3.port);
    if s1.status.Pass? && s2.status.Pass? && s3.status.Pass? && s4.status.Pass? {
      assert ds[3..][1..] == [] && ds[3..][0] == ds[3];
      assert RunOptions(ap, ds[3..], s3.port) == Run(s4.port, Pass, 1);
      assert ds[2..][1..] == ds[3..] && ds[2..][0] == ds[2];
      assert RunOptions(ap, ds[2..], s2.port) == Run(s4.port, Pass, 2);
      assert ds[1..][1..] == ds[2..] && ds[1..][0] == ds[1];
      assert RunOptions(ap, ds[1..], s1.port) == Run(s4.port, Pass, 3);
    }
  }

  /** The None parity default followed by the One stop-bits default: the
      parity facts of `DefaultsOutcome` for any starting port. */
  lemma DefaultParityKept(plat: Platform, noneFirst: bool, c: Port)
    ensures var s3 := if noneFirst then WithParityNoneFirst(plat, plat.parityNone, c)
                      else WithParity(plat, plat.parityNone, c);
            var w := WithStopBits(plat, plat.stopBitOne, s3.port).port.controlOptions;
            var noneIsMarkOrSpace := plat.parityNone == plat.parityMark || plat.parityNone == plat.paritySpace;
            && (noneFirst || !noneIsMarkOrSpace ==> Disjoint(w, ParityGroup(plat)))
            && (!noneFirst && noneIsMarkOrSpace && Disjoint(plat.parityEnable, plat.stopBitTwo) ==>
                  Includes(w, plat.parityEnable))
  {
    var s3 := if noneFirst then WithParityNoneFirst(plat, plat.parityNone, c)
              else WithParity(plat, plat.parityNone, c);
    var w := WithStopBits(plat, plat.stopBitOne, s3.port).port.controlOptions;
    assert w - plat.stopBitTwo == s3.port.controlOptions - plat.stopBitTwo;
    assert w * plat.stopBitTwo == {};
    if !noneFirst && (plat.parityNone == plat.parityMark || plat.parityNone == plat.paritySpace) {
      var v := plat.parityNone + plat.parityEnable;
      assert s3.port.controlOptions == Put(c.controlOptions, ParityGroup(plat), v);
      assert Includes(s3.port.controlOptions, v);
      if Disjoint(plat.parityEnable, plat.stopBitTwo) {
        forall b | b in plat.parityEnable
          ensures b in w
        {
          assert b in v && (b in plat.parityEnable * plat.stopBitTwo <==> b in plat.stopBitTwo);
          assert b in s3.port.controlOptions - plat.stopBitTwo;
        }
      }
    }
  }

  /** With a nil baud table every `Open` on Windows fails on the 9600
      default, before any caller option or the platform open. */
  lemma OpenFailsOnWindows(device: string, options: seq<Option>, open: Port -> Result<Port>)
    requires device != ""
    ensures Open(WindowsValues.WindowsPlatform(), device, options, open)
            == OpenReport(Err(InvalidBaudRate(9600)), 1, false)
  {
    DefaultsOutcome(WindowsValues.WindowsPlatform(), false, device);
  }
}
