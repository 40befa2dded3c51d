# libserial in Dafny

A model of the core of libserial, a Go serial-port library, with proofs about it. The modelled parts are:

- **The option encoders.** Each `WithX` option validates one setting. It then writes that setting into the port record: a speed, a data-bits count, a parity, a stop-bit count or a flow-control switch.
- **The per-platform value tables.** These are the baud tables and the parity, stop-bit and flag constants for Linux, Darwin, BSD, FreeBSD and Windows.
- **The assembly of the terminal settings.** On POSIX systems this is the `termios` record. On Windows it is the `DCB` record and the `COMMTIMEOUTS` read policy.
- **The open sequences.** Each one opens the device file, makes the system calls in order, stops at the first error and keeps the file only on success.

The library exists in two generations:

- The newer one is `serial.go`. It has one `Open` that applies the 9600-8N1 defaults and then the caller's options, and its encoders clear a bit group before setting it. It is modelled in `SerialOptions` and `SerialOpen`.
- The older one is `open.go` and `options*.go`. It writes the defaults straight into the record, and its POSIX encoders OR bits in without clearing. It is modelled in the `Legacy*` modules.

Both are run over a list of options by the same fold, `Options.RunOptions`. The fold stops at the first option that fails and keeps the port that option left, because some encoders change the port before they validate.

Machine words are modelled as sets of bit positions (`Words.Word`):

- `&^`, `|` and `&` become set difference, union and intersection.
- Go's `^x` on a 64-bit or 32-bit operand is the complement within that width (`Not64`, `Not32`).
- `byte(...)` and `uint32(...)` keep the low bits (`LowByte`, `ValueOf`).
- Constants whose numeric value depends on the operating system are parameters: the termios flags in `PosixConsts.Consts` and the `B…` speed constants. The proofs state what they assume about them as named predicates.

Every system call's answer is a parameter:

- `os.OpenFile`;
- the `TIOCGETA`/`TIOCSETA`/`TIOCSETAF` ioctls and `SetNonblock`;
- the kernel32 procedures.

The model fixes which calls are made, in what order, with what arguments, and what becomes of the port and the file in each case.

Where the documentation and the code differ, the model follows the code:

- FreeBSD's table has 21 rates, up to 921600.
- On Windows, serial.go's parity and stop-bit options do write bits into the control word. Their clear masks are the enumeration values themselves, not zero (`WindowsValues.ZeroMasks`).
- Windows has a nil baud table, so serial.go's `Open` fails on its 9600 default on every call (`SerialOpen.OpenFailsOnWindows`).

## Model

| member | source | states |
|---|---|---|
| Words.Clear | serial.go:150 | clearing a group leaves none of its bits set and changes no bit outside it |
| Words.Put | serial.go:133-137 | clear-then-set leaves the new value set and changes nothing outside the group and the value; when the value lies in the group, the group holds exactly that value |
| Words.Switch | serial.go:230-235 | the flag group ends up all set when enabled and all clear when disabled, and no other bit changes |
| Words.PutAfterPut | serial.go:135-137 | a second clear-then-set of the same group erases every trace of the first |
| Words.SwitchAfterSwitch | serial.go:230-235 | switching a group twice is the same as switching it once, to the last value |
| Words.OrAllCovers | values_darwin_amd64.go:42-46 | the OR of a list of words contains every word in the list |
| Words.OrAllMinimal | values_darwin_amd64.go:42-46 | the OR sets no bit that none of the words sets |
| Words.Not32Splits | values_linux.go:30-39 | a 32-bit `^x` and `x` are disjoint and together fill the 32-bit word |
| Words.ValueOf | open_windows.go:149 | a conversion to a `width`-bit integer is below 2^width |
| Words.ValueOfWordOf | open_windows.go:149 | reading `width` bits of the word of `n` gives `n` modulo 2^width, and `n` itself when it fits |
| BaudTable.Table | values_linux.go:46-78 | a baud table's keys are exactly the listed rates |
| BaudTable.TableLookup | values_linux.go:46-78 | each listed rate maps to the speed constant written beside it |
| BaudTable.TableSize | values_linux.go:46-78 | a table with distinct rates has one entry per listed rate |
| BaudTable.TableValues | values_darwin_amd64.go:48-68 | every value in the table is one of the listed speed constants |
| BaudTable.MaskOf | values_darwin_amd64.go:42-46 | the `init` loop, visiting the keys in any order, yields a mask that covers every table value and sets no other bit |
| BaudTable.OrAllIsTableMask | values_darwin_amd64.go:42-46 | the OR of the listed speeds both covers the table's values and stays within them |
| BaudTable.MaskUnique | values_darwin_amd64.go:42-46 | only one word both covers and stays within the values, so the mask does not depend on the map's visiting order |
| SerialPort.NewPort | serial.go:79 | a new port has the device name, no file, a zero read timeout, zero data-bits, stop-bits and parity bytes, and empty option words and speed |
| SerialPort.ByteOfInt | serial.go:147 | `byte(d)` keeps any `d` in 0..255 |
| Options.RunOptions | serial.go:89-100 | a run stops at the first error: a successful run applied every option, and a failed run stopped after at least one |
| Options.RunFailsAtLast | serial.go:96-100 | in a failed run every option before the failing one succeeded, and the failing one produced the run's port and error |
| Options.RunConcat | serial.go:89-100 | running two lists one after the other is the same as running their concatenation; the second list runs only if the first succeeded |
| SerialOptions.WithReadTimeout | serial.go:115-122 | only a positive duration replaces the stored one; the option never fails and nothing else changes |
| SerialOptions.WithBaudRate | serial.go:126-140 | an unknown rate fails and leaves the port unchanged; a known rate stores its speed and writes it into the control word; when the speed lies inside the baud mask, that group holds exactly the speed |
| SerialOptions.WithDataBits | serial.go:145-166 | `dataBits` and the cleared size field are written even when the count is invalid; only counts 5 to 8 pass, and then the size field holds exactly their `CSx` flag |
| SerialOptions.WithParity | serial.go:171-200 | as written, Mark and Space are tested before None, so a parity equal to Mark or Space gets the enable bit even if it also equals None; an unknown parity fails after the group is cleared |
| SerialOptions.WithParityNoneFirst | serial.go:171-200 | None leaves the parity group and the enable bit clear; any other known parity sets itself and the enable bit; unknown parities fail |
| SerialOptions.WithStopBits | serial.go:205-223 | `StopBitTwo` sets the flag, anything else leaves it clear, nothing outside the flag changes, and only One and Two pass |
| SerialOptions.WithSoftwareFlowControl | serial.go:226-239 | the XON/XOFF input flags are all set or all clear, and nothing else changes |
| SerialOptions.WithHardwareFlowControl | serial.go:242-254 | the RTS/CTS control flag is set or clear, and nothing else changes |
| SerialOptions.DataBitsLastWins | serial.go:145-166 | a second data-bits option gives the same port and status as applying it alone |
| SerialOptions.ParityLastWins | serial.go:171-200 | a second parity option, in either encoder, gives the same result as applying it alone |
| SerialOptions.StopBitsLastWins | serial.go:205-223 | a second stop-bits option gives the same result as applying it alone |
| SerialOptions.FlowControlLastWins | serial.go:226-254 | for each flow-control option, the last one applied wins |
| SerialOptions.ParityEncodersAgree | serial.go:179-196 | where Mark and Space differ from None, testing None first changes nothing |
| SerialOpen.Open | serial.go:74-108 | with the options run as serial.go writes them (parity through `WithParity`), an empty name fails before anything runs, and the platform open is reached only after every option has run |
| SerialOpen.OpenRunsDefaultsThenOptions | serial.go:74-108 | `Open` is one run of the defaults followed by the caller's options: the platform open gets that run's port exactly when the run succeeds, and otherwise the run's first error is returned |
| SerialOpen.DefaultsOutcome | serial.go:81-93 | the defaults pass exactly when 9600 is in the table (otherwise the baud default fails first); on success the port holds 9600, 8 data bits, the None parity byte and one stop bit; as written, a platform whose Mark or Space equals None gets the parity-enable bit in its control word, while with None tested first the parity group is clear |
| SerialOpen.OpenFailsOnWindows | serial.go:82-93 | with Windows' nil table, every `Open` fails with the 9600 error after one option, and the port is never opened |
| PosixValues.SerialPlatform | values_posix.go:23-47 | the shared POSIX constants put the `CSx` values inside CSIZE, and put Odd, Mark and Enable inside the cleared parity group |
| PosixValues.StopBitsOnPosix | values_posix.go:23-26 | one stop bit leaves CSTOPB clear and records byte 0; two stop bits set CSTOPB |
| PosixValues.ParityNoneFirstOnPosix | values_posix.go:28-33 | with None tested first (the corrected encoder; as written None turns parity on here), None clears PARENB and PARODD, Odd sets both, Even sets PARENB alone, and no other bit changes |
| BsdValues.BsdTable | open_posix.go:68-88 | the table has exactly the 19 listed rates, 0 maps to `B0` and 9600 is present |
| BsdValues.BaudRatesAccumulate | values_bsd.go:26 | with a zero mask two baud options leave both speeds' bits set |
| BsdValues.NoneEnablesParity | values_bsd.go:27-28 | as written, asking for no parity sets PARENB |
| BsdValues.NoneFirstDisablesParity | values_bsd.go:27-28 | testing None first, no parity leaves PARENB and PARODD clear |
| BsdValues.OpenEnablesParity | serial.go:79-93 | on BSD, `Open` as written with no options hands the platform open a port whose control word has PARENB set while its parity byte says None |
| BsdValues.OpenNoneFirstClearsParity | serial.go:79-93 | with None tested first, the same `Open` hands the platform open a control word with PARENB and PARODD clear |
| DarwinValues.DarwinTable | values_darwin_amd64.go:38-68 | the table has exactly the 19 listed rates, 0 maps to `B0` and 9600 is present; the baud mask covers every value in the table and sets no other bit |
| DarwinValues.InitMaskBaudRate | values_darwin_amd64.go:42-46 | `init` computes the OR of all the speeds, whatever order the map is visited in |
| DarwinValues.BaudGroupExact | values_darwin_amd64.go:38-46 | after a baud option the mask group of the control word holds exactly the chosen speed, and every bit outside the mask is kept; bits inside it are overwritten |
| DarwinValues.NoneEnablesParity | values_darwin_amd64.go:34-35 | as written, asking for no parity sets PARENB |
| DarwinValues.BaudOverwritesMaskedGroup | values_darwin_amd64.go:38-46 | any flag group inside the baud mask holds, after a baud option, only the chosen speed's bits, so earlier data-bits, stop-bits or parity settings there are lost |
| FreeBsdValues.FreeBsdTable | values_freebsd.go:34-56 | the table has exactly the 21 listed rates and 0 maps to `B0` |
| FreeBsdValues.MillionRejected | values_freebsd.go:34-56 | 1000000 is not in the table, so it is rejected and the port is unchanged |
| LinuxValues.LinuxTable | values_linux.go:46-78 | the table has exactly the 31 listed rates, 0 maps to `B0` and 9600 is present |
| LinuxValues.ComplementsSplitWord | values_linux.go:27-40 | Even and Odd, Space and Mark, and One and Two each split the 32-bit word, so Even, Space and One are far from single flags |
| WindowsValues.WindowsPlatform | values_windows.go:26-45 | the enumerations carry bytes 0 to 4 and 0 to 2, and every mask, `CSx` value and flag is zero |
| WindowsValues.StopBitOneHalfWord | values_windows.go:33 | the word carrying `StopBitOneHalf` has byte 1 |
| WindowsValues.BaudAlwaysRejected | values_windows.go:57 | with a nil table every baud option fails and leaves the port unchanged |
| WindowsValues.ZeroMasks | values_windows.go:36-44 | data-bits and flow-control options leave the option words untouched, but parity and stop bits write bits into the control word |
| WindowsValues.OneHalfRejected | values_windows.go:33 | serial.go's stop-bits option rejects one and a half stop bits |
| PosixConsts.ReadModeOf | open_posix.go:52-53 | the read policy is determined by VMIN and VTIME in each of the four POSIX cases, both directions |
| PosixSysOpen.ReadBaudRate | open_posix.go:29-37 | a failed read gives `B0`; otherwise the result is exactly the 0x100f field of the control word |
| PosixSysOpen.BuildTermios | open_posix.go:41-53 | the control word has CREAD, CLOCAL and the speed; the input word is IGNBRK; both speeds are the port's; VMIN 0, and VTIME is the timeout |
| PosixSysOpen.SysOpen | open_posix.go:40-66 | the write comes first; `SetNonblock(false)` is tried only after a successful write, and success needs both |
| PosixSysOpen.ReadPolicy | open_posix.go:52-53 | with no timeout reads poll, otherwise they wait for one byte or the timeout |
| PosixSysOpen.OptionWordsIgnored | open_posix.go:41-49 | the written termios does not depend on the option words |
| PosixSysOpen.SpeedReadBackCorrupted | open_posix.go:36-43 | with 8 data bits, bit 3 of the written control word is set and read back whatever the speed, so a speed without bit 3 does not come back as itself |
| PosixSysOpen.DataBitsMissCsize | open_posix.go:42-43 | with 8 data bits, One and None (bytes 0), the CSIZE field of the written control word is empty rather than CS8, when CSIZE lies apart from CREAD, CLOCAL, the speed and bit 3 |
| PosixSysOpen.SpeedOutsideFieldLost | open_posix.go:36 | a non-empty speed lying wholly outside 0x100f is never read back |
| DarwinSysOpen.ReadBaudRate | open_darwin.go:27-33 | gives the same speed as the generic POSIX read-back |
| DarwinSysOpen.BuildTermios | open_darwin.go:42-54 | the control word is the option word plus CREAD and CLOCAL; the input word is the option word; VMIN is 1 exactly when there is no timeout |
| DarwinSysOpen.SysOpen | open_darwin.go:36-64 | the read comes first; a failed read stops with no write, and otherwise the write's result is returned |
| DarwinSysOpen.ReadPolicy | open_darwin.go:49-54 | with no timeout a read blocks for one byte, otherwise it waits for one byte or the timeout |
| DarwinSysOpen.DataBitsReachTerminal | open_darwin.go:43 | after a data-bits option, the CSIZE field of the written control word holds exactly the chosen size |
| DarwinSysOpen.SpeedRoundTrip | open_darwin.go:32-47 | reading the written settings back gives the port's speed, for a speed inside the 0x100f field that the control word holds exactly |
| TermiosFlush.Perform | values_bsd.go:39 | TIOCSETAF installs the settings and empties both queues; reads change nothing |
| TermiosFlush.Flush | values_bsd.go:31-41 | the read comes first; a failed read returns its error with no write, and otherwise the result of one write |
| TermiosFlush.FlushKeepsSettings | values_freebsd.go:22-32 | a successful flush leaves every setting as it was and both queues empty |
| TermiosFlush.FlushErrorTouchesNothing | values_bsd.go:33-36 | a failed read leaves the terminal untouched |
| PosixConn.Open | conn_posix.go:28-53 | the file is opened with O_RDWR, O_NOCTTY and O_NONBLOCK and mode 0666; `B0` triggers a read-back; the settings writer runs exactly when a speed is known; the file is kept exactly on success and is lost exactly when detection fails |
| PosixConn.OpenReleasing | conn_posix.go:40-49 | with the file closed on every failure, no path loses the handle |
| PosixConn.ReleasingDiffersOnlyOnLeak | conn_posix.go:40-49 | the two sequences agree except on the detection failure, where the fixed one closes the file |
| PosixConn.AutoDetectFailureLeaks | conn_posix.go:40-43 | an auto-detect port whose settings cannot be read fails and loses the open handle |
| WindowsOpen.GoDiv | open_windows.go:134 | Go's division truncates toward zero: the remainder has the sign of the dividend and is smaller than the divisor in size |
| WindowsOpen.Uint32Of | open_windows.go:134 | `uint32(...)` is at most MaxUint32, differs from its argument by a multiple of 2^32 (it wraps), and keeps every value that fits |
| WindowsOpen.ReadConstantAsWritten | open_windows.go:130-135 | no timeout gives MaxUint32 - 1; otherwise the truncated millisecond count modulo 2^32, so a count that fits is kept as it is |
| WindowsOpen.ReadConstantPeriodic | open_windows.go:130-135 | a timeout 2^32 ms longer gives the same constant: the conversion wraps for every positive timeout |
| WindowsOpen.ReadConstantClamped | open_windows.go:130-135 | the constant lies strictly between 0 and MaxUint32; no timeout gives MaxUint32 - 1; an in-range millisecond count is kept |
| WindowsOpen.ReadConstantWraps | open_windows.go:130-135 | 1 ns gives 0; 2^32 ms wraps to 0, below the constant for one millisecond less |
| WindowsOpen.ReadConstantClampedMonotone | open_windows.go:130-135 | the clamped constant grows with the timeout and agrees with the code wherever the code does not wrap |
| WindowsOpen.TimeoutsOf | open_windows.go:120-136 | the interval and multiplier are MaxUint32, there is no write timeout, and the constant is as above |
| WindowsOpen.DcbOf | open_windows.go:145-153 | the DCB carries its own size, flags 0x11, the speed as a `uint32` and the port's three byte settings |
| WindowsOpen.DcbBaudIsRate | open_windows.go:149 | a speed stored as the word of `n` reaches the DCB as `n` modulo 2^32, so a rate that fits, such as 9600, is passed unchanged |
| WindowsOpen.Wrap | open_windows.go:96-100 | a zero return from a procedure is a failure carrying the last error |
| WindowsOpen.StateFailureStops | open_windows.go:59-63 | when SetCommState returns 0, `open` stops after that one call with the last error and closes the file |
| WindowsOpen.Called | open_windows.go:59-65 | the loop calls only names other than PurgeComm |
| WindowsOpen.SetupOrder | open_windows.go:38-43 | the loop calls SetCommState, SetupComm, SetCommTimeouts and SetCommMask, in that order |
| WindowsOpen.RunSetup | open_windows.go:59-65 | the loop stops at the first failing call, and that call's error is the loop's; a successful loop made every call |
| WindowsOpen.RunSetupInvoked | open_windows.go:59-65 | call number i is the i-th name with its own arguments, and every call before the last succeeded |
| WindowsOpen.RunSetupHandles | open_windows.go:59-65 | every call goes to the handle given |
| WindowsOpen.SetupAllPass | open_windows.go:59-65 | when every call succeeds, the loop makes all four calls in order |
| WindowsOpen.Open | open_windows.go:45-68 | a failed open returns its error and makes no calls; otherwise the status is that of the set-up loop, and the file is kept and stored exactly when every call succeeds, and is closed otherwise |
| WindowsOpen.OpenUsesPreviousHandle | open_windows.go:51-61 | as written, every set-up call goes to the handle the port held before this open |
| WindowsOpen.FirstCallGetsInvalidHandle | open_windows.go:51-61 | on a fresh port, SetCommState with the DCB goes to INVALID_HANDLE_VALUE |
| WindowsOpen.OpenOnNewFile | open_windows.go:45-68 | the same outcome as `Open`, with the status that of the set-up loop on the new file |
| WindowsOpen.OpenOnNewFileUsesNewHandle | open_windows.go:51-61 | with the fix, every set-up call goes to the file just opened |
| WindowsOpen.NewFileSetupComplete | open_windows.go:45-68 | when every call succeeds, the four calls with their arguments are made on the new file, and the file is kept |
| WindowsOpen.RegisteredAsWritten | open_windows.go:79-90 | as written, the names registered are exactly those whose lookup failed |
| WindowsOpen.Registered | open_windows.go:79-90 | registering on success gives exactly the names that were found |
| WindowsOpen.RegistrationInverted | open_windows.go:79-90 | when every procedure exists, the code registers nothing, while the fixed version registers all five |
| LegacyOptions.WithBaudRate | options.go:29-39 | a known rate stores its speed and changes nothing else; an unknown one fails and changes nothing |
| LegacyOptions.WithReadTimeout | options.go:42-49 | only a positive duration replaces the stored one; the option never fails and nothing else changes |
| LegacyOptions.OptionsIdempotent | options.go:29-49 | applying either option twice is the same as applying it once |
| LegacyPosixOptions.WithDataBits | options_posix.go:35-51 | counts 5 to 8 OR their `CSx` flag in without clearing; anything else fails with no change |
| LegacyPosixOptions.WithParity | options_posix.go:66-77 | a known parity clears PARODD and PARENB and sets itself; anything else fails with no change |
| LegacyPosixOptions.WithStopBits | options_posix.go:89-99 | One and Two are ORed in; anything else fails with no change |
| LegacyPosixOptions.WithSoftwareFlowControl | options_posix.go:102-111 | IXON, IXOFF and IXANY are set or cleared together, and nothing else changes |
| LegacyPosixOptions.WithHardwareFlowControl | options_posix.go:114-123 | CRTSCTS is set or cleared, and nothing else changes |
| LegacyPosixOptions.DataBitsAccumulate | options_posix.go:35-51 | two data-bits options leave both flags set |
| LegacyPosixOptions.SixThenSevenGivesEight | options_posix.go:35-51 | where CS6 and CS7 make CS8 together, 6 then 7 data bits leave CS8 in the size field |
| LegacyPosixOptions.StopBitOneSetsAllButCstopb | options_posix.go:79-99 | one stop bit sets every bit of the 64-bit word except CSTOPB |
| LegacyPosixOptions.ParityEvenSetsAllButParodd | options_posix.go:53-77 | even parity sets every bit except PARODD, which it leaves clear |
| LegacyPosixOptions.FlowControlLastWins | options_posix.go:102-123 | for each flow-control option, the last one applied wins |
| LegacyWindowsOptions.WithDataBits | options_windows.go:26-36 | counts 5 to 8 are stored; anything else fails with no change |
| LegacyWindowsOptions.WithParity | options_windows.go:41-51 | each of the five parities is stored as its own byte, None to Space as 0 to 4; anything else fails with no change |
| LegacyWindowsOptions.WithStopBits | options_windows.go:56-66 | One, OneHalf and Two are stored as their own bytes 0, 1 and 2; anything else fails with no change |
| LegacyWindowsOptions.Apply | options_windows.go:68-82 | the flow-control options do nothing and always pass |
| LegacyWindowsOptions.RunLastDataBitsWins | options_windows.go:26-36 | after a successful run, the data-bits byte is what the last data-bits option asked for |
| LegacyOpen.Lookup | open.go:27 | a missing key of a nil map reads as 0 |
| LegacyOpen.InitialPort | open.go:22-28 | the starting port has the word of the literal 9600 as its speed, a zero read timeout, 8 data bits, the literal 1 as its stop bits, the None parity byte, and the table's 9600 speed, None and One ORed into the control word |
| LegacyOpen.InitialPortFixed | open.go:22-28 | the same port, with its stop bits taken from `StopBitOne` |
| LegacyOpen.Open | open.go:20-41 | the platform open is reached exactly when the run of the options from the starting port succeeds, receives that run's port, and its result is returned; otherwise the failing option's error is returned |
| LegacyOpen.OpenStopsAtFirstError | open.go:30-34 | a failing `Open` returns the error of the option that failed, after every earlier one succeeded |
| LegacyOpen.WindowsDefaultIsOneAndAHalf | open.go:26 | on Windows, a port opened with no options asks for one and a half stop bits |
| LegacyOpen.FixedDefaultsAreFixedPoint | open.go:22-28 | with the fix, the Windows starting port already holds what the default stop-bits, parity and data-bits options write |

## Left out

- port.go: reading, writing, closing and flushing are delegations to the operating system's file and are I/O.
- The test files, `cmd/libserial/main.go` and `examples/`: they are not part of the library.
- The system calls themselves are parameters of the model. These are `os.OpenFile`, the ioctls, `SetNonblock`, `LoadLibrary`, `GetProcAddress` and `syscall.Syscall`. So are the numeric values of the `B…` speeds and of the termios flags.
- The panic in Windows' `init` when kernel32 cannot be loaded: the model starts after a successful load.
- The variadic raw-syscall wrapper's padding of its arguments to three (open_windows.go:83-88): each call is modelled by its name and arguments.
- Go's map iteration order: `BaudTable.MaskOf` takes the visiting order as a parameter.
- `_dcbSize` is stated as the constant 28. Go's layout computation behind `unsafe.Sizeof` is not modelled. Nor are the DCB fields the library leaves zero.
- conn_posix.go calls `sysOpen(f)` with one argument, but both definitions take a second one, the timeout. The model therefore takes the timeout as a parameter of `SysOpen`, and `PosixConn.Open` treats the settings writer's result as a parameter.
- `termiosFlush` and `termiosFlushType` (values_darwin_amd64.go:32-33) are not used by any of the modelled code.
- Concurrency: the library has none. No Go `error` text is modelled; each error is a constructor of `Results.Error`.
- The build-tagged files define the same names and would conflict in one build. For example, open_posix.go and values_linux.go both define `validBaudRates`. Each file is therefore modelled in its own module, and no build combination is chosen.
- PosixSysOpen.BuildTermios: the contract does not state the bits the data-bits, stop-bits and parity bytes add to the control word. Their effect is stated by `PosixSysOpen.SpeedReadBackCorrupted`.
- SerialOpen.Open: the contract states the empty-name error and the counts only. The relation to one run of all the options is `SerialOpen.OpenRunsDefaultsThenOptions`.
- DarwinSysOpen.SpeedRoundTrip: holds only for a speed inside the 0x100f field. Darwin's `B…` constants are the rates themselves (B9600 is 0x2580), so no nonzero Darwin speed meets the premise; for such speeds `PosixSysOpen.SpeedOutsideFieldLost` states the loss.
- The numeric values of Darwin's speeds are not modelled, so the fact that its baud mask is 0x3ffff and covers CSIZE, CSTOPB, PARENB and PARODD is not proved; `DarwinValues.BaudOverwritesMaskedGroup` states what follows for any group the mask covers.
- WindowsOpen.Open: the handle each call receives is stated by `WindowsOpen.OpenUsesPreviousHandle`, not by the function's own contract.

## Findings

| source | as written | input that shows it | evidently intended | confidence | as-written member | corrected member |
|---|---|---|---|---|---|---|
| serial.go:179-190 | `WithParity` tests Mark and Space before None | BSD, FreeBSD or Darwin, where `ParityMark == ParitySpace == ParityNone == 0`: the default `WithParity(ParityNone)` sets PARENB, and `Open` hands the port to the platform open that way | None leaves parity off | high; not executed | BsdValues.OpenEnablesParity | BsdValues.OpenNoneFirstClearsParity |
| conn_posix.go:40-43 | on a failed baud detection, returns without closing `f` | `baudRate == B0` and the TIOCGETA read failing | close the file, as the `sysOpen` failure does at line 47 | high; not executed | PosixConn.AutoDetectFailureLeaks | PosixConn.OpenReleasing |
| open_windows.go:130-135 | `uint32(ns / 1e6)` wraps and can give 0 | a timeout of 1 ns gives 0; a timeout of 2^32 ms gives 0 | a constant strictly between 0 and MAXDWORD, the range in which the `COMMTIMEOUTS` policy waits for the first byte or the constant | medium; not executed | WindowsOpen.ReadConstantWraps | WindowsOpen.ReadConstantClampedMonotone |
| open.go:26 | the default stop bits are the literal 1 | Windows, where 1 is `StopBitOneHalf`: `Open()` with no options asks for one and a half stop bits | `byte(StopBitOne)` | medium; not executed | LegacyOpen.WindowsDefaultIsOneAndAHalf | LegacyOpen.FixedDefaultsAreFixedPoint |
| open_windows.go:81-89 | a wrapper is registered only when `GetProcAddress` FAILS | kernel32 exporting all five procedures: nothing is registered, so `open` calls a nil function | register when `err == nil` | high; not executed | WindowsOpen.RegistrationInverted | WindowsOpen.Registered |
| open_windows.go:51-61 | `s.f` is assigned by the deferred function, after the set-up calls that read `s.f.Fd()` | a fresh port (`s.f == nil`): SetCommState goes to INVALID_HANDLE_VALUE | make the calls on the file just opened | high; not executed | WindowsOpen.FirstCallGetsInvalidHandle | WindowsOpen.NewFileSetupComplete |
| options_posix.go:82 | `StopBitOne` is `^CSTOPB` (and `ParityEven` is `^PARODD \| PARENB`), ORed into the control word | `WithStopBits(StopBitOne)` on any port sets CSIZE, PARENB and every other bit except CSTOPB | `StopBitOne == 0`, as values_posix.go:24 defines it | high; not executed | LegacyPosixOptions.StopBitOneSetsAllButCstopb | PosixValues.StopBitsOnPosix |
| open_posix.go:42-43 | the data-bits, stop-bits and parity bytes are ORed into `c_cflag` as numbers | BSD (the file builds on every system but Linux and Windows), 8 data bits, One and None: the number 8 sets bit 3 instead of CS8, so the CSIZE field is left empty | build `c_cflag` from the encoded option word, as open_darwin.go:43 does, so the CSIZE field holds the chosen size | medium; not executed | PosixSysOpen.DataBitsMissCsize | DarwinSysOpen.DataBitsReachTerminal |
