/** The option constructors of the older generation (options.go): the baud
    option only looks the rate up and stores the speed, without touching
    the control word; the read-timeout option is the one serial.go kept. */
module LegacyOptions {
  import opened Words
  import opened Results
  import opened SerialPort
  import opened Options
  import SerialOptions

  /** The options of the older generation. */
  datatype Option =
    | BaudRate(rate: int)
    | ReadTimeout(timeout: int)
    | DataBits(bits: int)
    | Parity(parity: Word)
    | StopBits(stopBits: Word)
    | SoftwareFlowControl(enable: bool)
    | HardwareFlowControl(enable: bool)

  /** `WithBaudRate`: a known rate stores its speed constant and changes
      nothing else; an unknown one changes nothing at all. */
  function WithBaudRate(rates: map<int, Word>, rate: int, c: Port): (r: Step)
    ensures r.status.Pass? <==> rate in rates
    ensures r.status.Fail? ==> r == Step(c, Fail(InvalidBaudRate(rate)))
    ensures r.status.Pass? ==> r.port.baudRate == rates[rate]
    ensures r.port.(baudRate := c.baudRate) == c
  {
    if rate in rates then Step(c.(baudRate := rates[rate]), Pass)
    else Step(c, Fail(InvalidBaudRate(rate)))
  }

  /** `WithReadTimeout` is the same function in both generations: only a
      positive duration replaces the stored one, and it never fails. */
  function WithReadTimeout(timeout: int, c: Port): (r: Step)
    ensures r.status == Pass
    ensures timeout > 0 ==> r.port.readTimeout == timeout
    ensures timeout <= 0 ==> r.port == c
    ensures r.port.(readTimeout := c.readTimeout) == c
  {
    SerialOptions.WithReadTimeout(timeout, c)
  }

  /** Applying either option twice with the same argument is applying it
      once. */
  lemma OptionsIdempotent(rates: map<int, Word>, rate: int, timeout: int, c: Port)
    ensures WithBaudRate(rates, rate, WithBaudRate(rates, rate, c).port) == WithBaudRate(rates, rate, c)
    ensures WithReadTimeout(timeout, WithReadTimeout(timeout, c).port) == WithReadTimeout(timeout, c)
  {
  }
}
