# A remotely controlled UPS, verified

This Dafny project models the simulator firmware of a USB HID UPS, the Python
twin of that firmware, the Python driver that talks to either, and the HID list
and descriptor code below them, and proves that they fit together.

* The **control machine** of the sketch (`Control.dfy` as functions,
  `Firmware.dfy` and `Sketch.dfy` as classes that update their fields and buffers
  in place and are proved to compute those functions) runs in an arbitrary
  environment: bytes from two channels, connects and takeovers, time that passes
  before every reading of `millis()`, endpoint refusals, and SET_REPORT
  interrupts. `System.dfy` makes it a transition system.
* Over all its runs: disarmed means safe (`Safety.dfy`), the lease is exact on a
  wrapping clock (`Lease.dfy`), reports and their snapshot agree with what the
  host received (`ReportLog.dfy`), what makes the device send is decided by the line or
  event (`ForcedReports.dfy`), an iteration of `loop` is described from outside
  (`LoopFacts.dfy`), framing is a line splitter (`Framing.dfy`), an
  overlong line runs its tail (`LongLines.dfy`), commands are never spliced from two
  sources (`Provenance.dfy`), only certain lines and an expired lease switch arming
  (`Switching.dfy`), and requests that arrive inside an action change none of this
  (`TornReads.dfy`). `Valid()` of the controller and the sketch states these
  invariants, and the program keeps them from power-up through every call of `Loop`
  (`Sketch.PowerUpAndLoop`).
* The **twin** (`TwinModel.dfy`, `Twin.dfy`, `TwinFacts.dfy`, `TwinLease.dfy`, and
  `PythonText.dfy` for Python's characters) is a second machine with its own
  tokeniser, number parser and status cache. `Refinement.dfy` and
  `RefinedRuns.dfy` prove that it answers every run of plain lines as the sketch does.
* The **driver** (`Driver.dfy`, `DriverFaults.dfy`, `Replies.dfy`, `StatusReading.dfy`,
  `Transport.dfy`, `TransportFacts.dfy`, `Session.dfy`) is composed with the sketch in
  `EndToEnd.dfy`, `Script.dfy` and `Wiring.dfy`: whatever a setter writes,
  `status()` reads back, and whatever the device refuses raises, from a transport that
  was never opened to the last call of a session (`Wiring.ConnectAndTalk`,
  `Wiring.ArmSetAndRead`).
* The **HID layer** (`Registry.dfy`, `HidSetup.dfy`, `HidList.dfy`,
  `SetupWindow.dfy`, `PowerDevice.dfy`, `Descriptor.dfy`, `PowerDescriptor.dfy`,
  `ItemFields.dfy`, `ReportFields.dfy`, `FeatureFields.dfy`, `ReportLength.dfy`) is a
  pointer list proved to be a map, a feature table given id by id and proved to leave
  seven variables writable, and the shipped descriptor proved to compose, to declare
  the registered features and the reports that are sent, bit by bit, and to be
  advertised with its true length.

`Ascii.dfy`, `Decimal.dfy`, `Words.dfy` and `CommandWords.dfy` hold characters,
numerals, machine words and the spelling of the commands. The standard meant by
section numbers is the USB HID Device Class Definition 1.11 (sections 6.2.1, 6.2.2.2,
6.2.2.4 to 6.2.2.8 and 7.2.2).

## How the model is laid out

A `State` keeps the unbounded time behind the 32-bit clock, and the times of the
last lease refresh and the last lease check, next to the sketch's own variables.
An `Env` says how far the clock moves before each reading of `millis()` inside one
action and what the endpoint answers. Host requests are actions of their own
between the bytes and the phases of a loop; `TornReads.dfy` proves that requests
inside an action, between its reads of host variables, lead to no other states. For
the comparison with the twin, and only there, the clock stands still inside a loop,
the host is silent, and bytes are printable ASCII, tab, CR and LF. Host requests that
arrive while `setupHid` is still running are the subject of `SetupWindow.dfy`; all
other results start after `setup`.

## Where the documentation and the code differ

* The protocol document says that every command received while armed refreshes
  the lease. A line of n characters does exactly when its last n mod 96 characters
  hold a word (`LongLines.LineRefreshesExactly`): 96 letters do not, and are
  answered `ERR line` (`LongLines.OverlongLineDoesNot`); with `PING` behind them
  they do (`LongLines.OverlongTailDoes`), because the tail of an overlong line is
  executed as a command of its own.
* The driver's README says that the exception of a test body is preserved when the
  cleanup of `armed_session` fails. It is preserved exactly when the cleanup fails
  with a driver error and warnings are not turned into errors
  (`Session.BodyExceptionSurvivesExactly`); a KeyboardInterrupt or an OSError in the
  cleanup, or `-W error`, replaces it (`Session.BodyExceptionLost`).
* That README presents `armed_session` as restoring safety on exit. When the reply to
  `arm` is lost the device is armed but the context is never entered, and no cleanup
  is sent (`Session.SessionEndsSafeExactly`); the lease covers this case unless it is 0
  (`Session.AbandonedSessionExpires`).
* Read-only features are locked only after all have been registered. A SET_REPORT
  between the two is accepted (`SetupWindow.WindowExactly`), and the device starts
  safe exactly if the last value accepted for each variable, if any, is its safe one
  (`SetupWindow.StartsSafeExactly`). A cleared battery voltage
  (`SetupWindow.VoltageInTheWindow`) can be repaired by RESET. But `setSafeState`
  never writes the average run time and the full charge, from which run time and
  status are derived: if one of them was changed, neither RESET nor ARM OFF nor an
  expiring lease ever gives the safe state again (`SetupWindow.ResetRepairsExactly`,
  `SetupWindow.CalibrationInTheWindow`).
* `GetFeature` compares its position with a 16-bit count, so it finds everything
  exactly with fewer than 65536 registrations (`HidList.GetIsFindExactly`), and with
  all ids registered nothing (`HidList.FullListIsLost`). The board has no memory for
  so many.
* The twin raises where the sketch replies with an error: IndexError on lines of
  white space that only Python counts as such, a vertical tab or a no-break space
  (`TwinFacts.IndexErrorExactly`, `TwinFacts.NoBreakSpaceRaises`), and ValueError on
  numeral tokens with superscript digits or more than 4300 digits
  (`TwinFacts.ValueErrorExactly`, `TwinFacts.SuperscriptRaises`,
  `TwinFacts.LongNumeralRaises`). It also accepts what the sketch refuses: numbers in
  the digits of another script (`TwinFacts.ParsersAgree`, `TwinFacts.ArabicThree`) and
  words spelled with characters whose upper case is ASCII
  (`TwinFacts.LigatureDisarms`).
* After a refused report a new battery level is offered again by the next loop, a new
  load or voltage only when five seconds have passed (`ReportLog.RefusedVoltageWaits`,
  `ReportLog.RefusedBatteryRetries`).

## Model

| member | source | states |
|---|---|---|
| `Framing.FramingRule` | examples/UPS_Simulator_Ethernet/UPS_Simulator_Ethernet.ino:491-508 | the byte automaton of `pollStream` equals a declarative splitter: drop CR, cut at LF, and each finished segment of n characters gives n / 96 overruns and then its last n mod 96 characters as a line |
| `Framing.LongLine` | examples/UPS_Simulator_Ethernet/UPS_Simulator_Ethernet.ino:491-508 | on an empty buffer a line of n characters other than CR and LF, ended by LF or CR LF, gives n / 96 times `ERR line` and then hands its last n mod 96 characters to `handleCommand` |
| `Framing.FeedAllChunks` | examples/UPS_Simulator_Ethernet/UPS_Simulator_Ethernet.ino:491-508 | how a byte stream is spread over calls of `pollStream` makes no difference |
| `Framing.FeedAllIsFrames` | examples/UPS_Simulator_Ethernet/UPS_Simulator_Ethernet.ino:491-508 | reading delivery by delivery gives the frames and the pending buffer of the whole stream |
| `LongLines.LineRunsItsTail` | examples/UPS_Simulator_Ethernet/UPS_Simulator_Ethernet.ino:491-508 | at the line feed of any source in any reachable state, however its line was spread over loops, requests and the other channel: a line of n characters is one command, its last n mod 96 characters |
| `LongLines.LineRefreshesExactly` | examples/UPS_Simulator_Ethernet/UPS_Simulator_Ethernet.ino:341-349 | there, on an armed device: the line takes effect exactly when its last n mod 96 characters hold a word; then the lease counts from the line feed or the device is disarmed, otherwise nothing at all has changed |
| `LongLines.OverlongLineDoesNot` | examples/UPS_Simulator_Ethernet/UPS_Simulator_Ethernet.ino:496-503 | a command of 96 letters, received while armed, leaves the whole control state as it was |
| `LongLines.OverlongTailDoes` | examples/UPS_Simulator_Ethernet/UPS_Simulator_Ethernet.ino:496-503 | with `PING` behind the 96 letters the same line refreshes the lease |
| `LongLines.ArmedAndTyping` | examples/UPS_Simulator_Ethernet/UPS_Simulator_Ethernet.ino:491-508 | such states are reachable: from power-up an armed device with any text typed on its UART |
| `Decimal.ParseSigned` | examples/UPS_Simulator_Ethernet/UPS_Simulator_Ethernet.ino:177-200 | the early-exit loop accepts exactly an optional minus and digits with magnitude at most 99999 and in range, returns that value, and keeps its accumulator at or below 999,999 |
| `Decimal.PrintAccepted` | examples/UPS_Simulator_Ethernet/UPS_Simulator_Ethernet.ino:177-200 | every in-range integer is accepted in printed form, as itself and nothing else |
| `Decimal.PrintIsNumeral` | python-driver/src/ups_simulator/firmware_sim.py:103-122 | printed integers are numerals of the same value |
| `Firmware.StrTok` | examples/UPS_Simulator_Ethernet/UPS_Simulator_Ethernet.ino:341-347 | `strtok_r` on the in-place buffer returns the first remaining token and leaves the others readable |
| `Firmware.TakeTokens` | examples/UPS_Simulator_Ethernet/UPS_Simulator_Ethernet.ino:341-347 | the three tokens handed on are the first three words of the C string in the buffer |
| `Firmware.Controller.UsbSend` | examples/UPS_Simulator_Ethernet/UPS_Simulator_Ethernet.ino:244-247 | a report is accepted only with enough endpoint space and two successful sends; what is left behind otherwise |
| `Firmware.Controller.SendInOrder` | examples/UPS_Simulator_Ethernet/UPS_Simulator_Ethernet.ino:258-271 | reports go out in order up to the first refusal |
| `Firmware.Controller.SendUsbReports` | examples/UPS_Simulator_Ethernet/UPS_Simulator_Ethernet.ino:249-278 | sends when forced, changed or five seconds late, and moves the snapshot only after a complete batch |
| `Firmware.Controller.PrintStatus` | examples/UPS_Simulator_Ethernet/UPS_Simulator_Ethernet.ino:280-313 | prints exactly the 22 fields, after bringing the model up to date |
| `Firmware.Controller.HandleCommand` | examples/UPS_Simulator_Ethernet/UPS_Simulator_Ethernet.ino:341-489 | a whole command on the in-place buffer computes exactly `Control.Execute` (what that answers, switches and sends is stated by `EndToEnd.SetterTaken`, `Switching.LineSwitches` and `ForcedReports.LineForcesExactly`); it keeps the class invariant (safe unless armed, snapshot matches the last full batch), arms a disarmed device only with the reply `OK armed`, and changes no measurement while it is disarmed |
| `Firmware.Controller.CheckLease` | examples/UPS_Simulator_Ethernet/UPS_Simulator_Ethernet.ino:582-589 | keeps the class invariant and leaves a disarmed device safe; under the clock invariant and the gap bound the device stays armed exactly until its lease has expired in unbounded time |
| `Firmware.Controller.HostRequest` | examples/UPS_Simulator_Ethernet/UPS_Simulator_Ethernet.ino:521-568 | a SET_REPORT interrupt moves nothing but the seven host variables and keeps the class invariant |
| `Firmware.Controller.Publish` | examples/UPS_Simulator_Ethernet/UPS_Simulator_Ethernet.ino:613-614 | keeps the class invariant; a triple the host does not have afterwards means that this call logged an attempt that failed |
| `Firmware.Controller.Setup` | examples/UPS_Simulator_Ethernet/UPS_Simulator_Ethernet.ino:570-580 | establishes the class invariant, the safe state and the clock invariant |
| `Sketch.Sketch.constructor` | examples/UPS_Simulator_Ethernet/UPS_Simulator_Ethernet.ino:570-580 | power-up: all invariants hold, the buffers are empty, the device is safe, and every part is a new object |
| `Sketch.Sketch.HandleByte` | examples/UPS_Simulator_Ethernet/UPS_Simulator_Ethernet.ino:491-508 | one byte, with the index always inside the 96-byte buffer including the terminator |
| `Sketch.Sketch.PollStream` | examples/UPS_Simulator_Ethernet/UPS_Simulator_Ethernet.ino:491-508 | a delivery with host interrupts between its bytes equals the run of those actions |
| `Sketch.Sketch.ManageConnection` | examples/UPS_Simulator_Ethernet/UPS_Simulator_Ethernet.ino:597-606 | takeover clears the line buffer and greets the new client; a dead client is dropped (who is connected afterwards: `LoopFacts.LoopExactly`) |
| `Sketch.Sketch.Loop` | examples/UPS_Simulator_Ethernet/UPS_Simulator_Ethernet.ino:582-614 | one iteration of `loop` equals the run of its atomic actions, which `LoopFacts.LoopExactly` describes from outside; from any state an earlier one leaves it keeps safety, snapshot, separation of sources and, while punctual, the clock invariant; a disarmed device is safe and an unreported triple comes with a failed attempt |
| `Sketch.PowerUpAndLoop` | examples/UPS_Simulator_Ethernet/UPS_Simulator_Ethernet.ino:570-614 | the whole program: power-up and any number of iterations leave the state of that run, with every invariant |
| `System.LoopPhases` | examples/UPS_Simulator_Ethernet/UPS_Simulator_Ethernet.ino:582-614 | an iteration is its lease check, connection, TCP, UART and publishing phases one after the other |
| `LoopFacts.LoopExactly` | examples/UPS_Simulator_Ethernet/UPS_Simulator_Ethernet.ino:597-614 | an iteration seen from outside, for any surroundings: a waiting connection takes over whoever is connected, with an empty line buffer, and hears the identity and then OK ARMED or OK DISARMED as the lease check left it, before anything else; without one the client stays exactly if it is still up; the bytes read are those of the client that is then there and up, then those of the UART, each going into its own line buffer; the check is the first event and the publishing the last; nobody else hears anything |
| `LoopFacts.OldClientIsGone` | examples/UPS_Simulator_Ethernet/UPS_Simulator_Ethernet.ino:597-603 | after a takeover no byte is credited to an earlier client and nothing is printed to it |
| `System.CoreIsReplay` | examples/UPS_Simulator_Ethernet/UPS_Simulator_Ethernet.ino:582-614 | the control state of any run is the replay of its event log alone: streams, buffers and connections matter only through the commands they complete |
| `Provenance.NoSplicing` | examples/UPS_Simulator_Ethernet/UPS_Simulator_Ethernet.ino:597-611 | for every interleaving of connects, takeovers, disconnects, TCP and UART bytes and host requests, the commands credited to a source are exactly the lines of that source's own bytes, and the control state is those commands replayed in log order |
| `Provenance.RepliesStayHome` | examples/UPS_Simulator_Ethernet/UPS_Simulator_Ethernet.ino:608-611 | a byte of one source never prints anything to another |
| `Safety.StartsSafe` | examples/UPS_Simulator_Ethernet/UPS_Simulator_Ethernet.ino:128-150 | over every run after `setup`, whenever the device is disarmed every variable the host cannot write holds its safe default and the status shows online, full, not charging, not discharging, no expiry, no shutdown |
| `Safety.DisarmedIsSafe` | examples/UPS_Simulator_Ethernet/UPS_Simulator_Ethernet.ino:582-614 | the same as an invariant of every run from any state that satisfies it |
| `Safety.SafeStateIsSafe` | examples/UPS_Simulator_Ethernet/UPS_Simulator_Ethernet.ino:128-150 | `setSafeState` and the update behind it reach the safe state and status from every state, armed or not, in which the average run time is 7200 and the full charge 100 |
| `Safety.ExecuteKeepsSafe` | examples/UPS_Simulator_Ethernet/UPS_Simulator_Ethernet.ino:341-489 | no command line in any state breaks the invariant |
| `Safety.OnlyArmOnArms` | examples/UPS_Simulator_Ethernet/UPS_Simulator_Ethernet.ino:376-391 | no line but a successful `ARM ON` arms a disarmed device, and that changes nothing else the line could set |
| `Safety.DisarmedGate` | examples/UPS_Simulator_Ethernet/UPS_Simulator_Ethernet.ino:416-452 | no line changes a measurement of a disarmed device; it stays safe or has just been armed |
| `SetupWindow.StartsSafeExactly` | examples/UPS_Simulator_Ethernet/UPS_Simulator_Ethernet.ino:531-568 | for any host requests between the calls of `setupHid`: the device starts safe exactly if for each variable the last accepted request, if any, carried its safe bytes |
| `SetupWindow.QuietIsSetup` | examples/UPS_Simulator_Ethernet/UPS_Simulator_Ethernet.ino:570-580 | without requests that start-up is `setup` |
| `SetupWindow.WindowExactly` | examples/UPS_Simulator_Ethernet/UPS_Simulator_Ethernet.ino:531-568 | while the list is being built a request is accepted exactly if it is a well-formed Feature report for an id registered by then, with that length, and not locked yet |
| `SetupWindow.ResetRepairsExactly` | examples/UPS_Simulator_Ethernet/UPS_Simulator_Ethernet.ino:128-150 | in every state of every later run: RESET gives the safe state exactly if the average run time and the full charge were left alone during the start-up; if not, no state of any later run is safe |
| `SetupWindow.VoltageInTheWindow` | examples/UPS_Simulator_Ethernet/UPS_Simulator_Ethernet.ino:556-567 | one request between the last registration and the first lock, whatever came before it, and the device starts disarmed and not safe, with a voltage of zero |
| `SetupWindow.CalibrationInTheWindow` | examples/UPS_Simulator_Ethernet/UPS_Simulator_Ethernet.ino:556-567 | the same request for the average run time, and no later state is safe, not even behind a RESET |
| `Safety.StartsWithHost` | examples/UPS_Simulator_Ethernet/UPS_Simulator_Ethernet.ino:49-57 | the delays and limits `setup` starts with |
| `Safety.SafeStatusForAnyReads` | examples/UPS_Simulator_Ethernet/UPS_Simulator_Ethernet.ino:208-242 | the safe status does not depend on what the host writes, even between the separate reads; only the low-battery bit does, exactly when the limit is at least 100 |
| `Safety.HostWriteKeepsOthers` | examples/UPS_Simulator_Ethernet/UPS_Simulator_Ethernet.ino:521-568 | a host request changes none of the control state except the host variables |
| `TornReads.CommitIsInterleaved` | examples/UPS_Simulator_Ethernet/UPS_Simulator_Ethernet.ino:208-242 | requests between the separate reads of `updateModel` and behind them: the state is that of requests before and behind the whole action |
| `TornReads.RestoreIsInterleaved` | examples/UPS_Simulator_Ethernet/UPS_Simulator_Ethernet.ino:128-150 | the same behind `setSafeState`, whose own write of the shutdown delay may be overtaken by a request before it is read |
| `TornReads.SettingsSet` | examples/UPS_Simulator_Ethernet/UPS_Simulator_Ethernet.ino:531-568 | seven requests give the seven host variables any values and change nothing else |
| `TornReads.DelayIsLittleEndian` | src/HID/HID.cpp:226-239 | a delay is received low byte first, as a two's complement word |
| `TornReads.TornRunsAreRuns` | examples/UPS_Simulator_Ethernet/UPS_Simulator_Ethernet.ino:582-614 | every run with requests inside its actions ends as a run does whose requests all arrive between actions |
| `TornReads.TornStartsSafe` | examples/UPS_Simulator_Ethernet/UPS_Simulator_Ethernet.ino:582-614 | so over every such run a disarmed device is safe |
| `TornReads.TornReply` | examples/UPS_Simulator_Ethernet/UPS_Simulator_Ethernet.ino:280-313 | `printStatus` reads the three delays on its own: only their fields can differ |
| `Lease.CheckIsExact` | examples/UPS_Simulator_Ethernet/UPS_Simulator_Ethernet.ino:583-589 | with at most 2^32 - 3,600,000 ms between checks, the 32-bit difference is the true elapsed time, and a non-zero lease fires at a check exactly when it has expired by then |
| `Lease.GapBoundIsTight` | examples/UPS_Simulator_Ethernet/UPS_Simulator_Ethernet.ino:583-589 | one millisecond more and an expired lease can be missed: a concrete state where it is |
| `Lease.RunKeepsLease` | examples/UPS_Simulator_Ethernet/UPS_Simulator_Ethernet.ino:582-614 | the clock and lease invariant holds over every run whose gaps respect the bound |
| `Lease.StartsWithLease` | examples/UPS_Simulator_Ethernet/UPS_Simulator_Ethernet.ino:570-580 | that invariant holds when `loop` is first entered |
| `Lease.OneLoopGap` | examples/UPS_Simulator_Ethernet/UPS_Simulator_Ethernet.ino:582-614 | only the gap before the check at its top decides whether an iteration of `loop` respects the bound |
| `Lease.OnlyCommandsRefresh` | examples/UPS_Simulator_Ethernet/UPS_Simulator_Ethernet.ino:341-349 | apart from lease checks, only a complete non-blank line changes the lease or its time |
| `Lease.CommandRefreshes` | examples/UPS_Simulator_Ethernet/UPS_Simulator_Ethernet.ino:341-349 | every complete non-blank line refreshes the lease of an armed device, or rearms or disarms it |
| `Lease.SilenceDisarms` | examples/UPS_Simulator_Ethernet/UPS_Simulator_Ethernet.ino:583-589 | while no command completes, the device is armed exactly until the first check at or after expiry |
| `Lease.VanishedControllerDisarms` | examples/UPS_Simulator_Ethernet/UPS_Simulator_Ethernet.ino:583-589 | a device whose controller vanished is in the safe state once lease plus one loop gap have passed |
| `Lease.ZeroLeaseNeverFires` | examples/UPS_Simulator_Ethernet/UPS_Simulator_Ethernet.ino:376-391 | lease 0 never fires, however long the gaps |
| `Switching.LineSwitches` | examples/UPS_Simulator_Ethernet/UPS_Simulator_Ethernet.ino:376-404 | a line arms exactly if its words are ARM, a word for on, and no lease or one in 0..3600; it disarms exactly if they are RESET, or ARM and a word for off |
| `Switching.SwitchesExactly` | examples/UPS_Simulator_Ethernet/UPS_Simulator_Ethernet.ino:582-614 | of all events only such lines, and a lease check that finds the lease expired, switch arming |
| `Switching.ExpiresInTime` | examples/UPS_Simulator_Ethernet/UPS_Simulator_Ethernet.ino:583-589 | that check, in unbounded time: at the lease after the last refresh or later |
| `Switching.LeftArmedExactly` | examples/UPS_Simulator_Ethernet/UPS_Simulator_Ethernet.ino:582-614 | after any history the device is armed exactly if the last event that switched arming was an arming line |
| `ReportLog.AttemptIsPrefix` | examples/UPS_Simulator_Ethernet/UPS_Simulator_Ethernet.ino:244-271 | every attempt queues a prefix of the reports, the whole batch exactly when every report is accepted |
| `ReportLog.BatchLayout` | examples/UPS_Simulator_Ethernet/UPS_Simulator_Ethernet.ino:258-271 | a full batch is seven reports, byte by byte: ids 7, 0x0C, 0x0D, 0x0B, 0x22, 0x23, 0x24 in this order, each with its variable, two-byte values low byte first |
| `ReportLog.StatusRoundTrip` | examples/UPS_Simulator_Ethernet/UPS_Simulator_Ethernet.ino:208-242 | the two status bytes determine every status bit |
| `ReportLog.ReportsMirrorFeatures` | examples/UPS_Simulator_Ethernet/UPS_Simulator_Ethernet.ino:258-271 | every input report has the size of the feature registered under its id, that feature is locked, and the report carries exactly that feature's storage |
| `ReportLog.SnapshotIsLastDelivered` | examples/UPS_Simulator_Ethernet/UPS_Simulator_Ethernet.ino:249-278 | in every run and for any pattern of refusals the remembered triple is the one in the last fully queued batch, or the initial zeros |
| `ReportLog.HostIsCurrentOrRetried` | examples/UPS_Simulator_Ethernet/UPS_Simulator_Ethernet.ino:613-614 | over two consecutive iterations of `loop` from every reachable state, with any commands, requests and refusals: a triple unlike the snapshot after the first means its attempt failed; the second logs another attempt or ends with the triple at the snapshot; once the endpoint accepts a batch the host has the triple |
| `ReportLog.NothingToRetry` | examples/UPS_Simulator_Ethernet/UPS_Simulator_Ethernet.ino:249-278 | the case without a second attempt is real: the host lowers the run-time limit and the refused status word is back at the delivered one |
| `ReportLog.RefusedVoltageWaits` | examples/UPS_Simulator_Ethernet/UPS_Simulator_Ethernet.ino:255-261 | load and voltages are outside the change test: if the report that a setter forces is refused, the next publishing tries again exactly when five seconds have passed since the last full batch |
| `ReportLog.RefusedBatteryRetries` | examples/UPS_Simulator_Ethernet/UPS_Simulator_Ethernet.ino:255-261 | a refused new battery level is tried again by the next publishing |
| `ForcedReports.SendAttempts` | examples/UPS_Simulator_Ethernet/UPS_Simulator_Ethernet.ino:249-278 | a batch is attempted exactly if forced, or if status, battery or run time differ from the snapshot, or 5000 ms have passed since the last full batch |
| `ForcedReports.LineForcesExactly` | examples/UPS_Simulator_Ethernet/UPS_Simulator_Ethernet.ino:341-489 | every line in every state: REPORT, RESET, ARM with a word for off, and a setter answered `OK` attempt exactly one batch, of the values the command leaves behind; its bytes are the reports up to the first one the endpoint refuses and what that one leaves in the endpoint, complete exactly if none is refused; every other line sends nothing and keeps the snapshot |
| `ForcedReports.EventForcesExactly` | examples/UPS_Simulator_Ethernet/UPS_Simulator_Ethernet.ino:582-614 | the same for every event of a run: a lease check attempts one batch exactly if it finds the lease expired, the end of a loop exactly if something differs or 5000 ms have passed, nothing else any |
| `ForcedReports.SetupForces` | examples/UPS_Simulator_Ethernet/UPS_Simulator_Ethernet.ino:570-580 | `setup` attempts the first batch |
| `FirmwareTwin.FirmwareSimulator.Advance` | python-driver/src/ups_simulator/firmware_sim.py:157-161 | keeps the cached status sound; an armed simulator with a lease stays armed exactly while the wrapping difference is below it, a disarmed one only moves its clock, a negative argument raises and changes nothing |
| `FirmwareTwin.FirmwareSimulator.Command` | python-driver/src/ups_simulator/firmware_sim.py:206-316 | a whole call keeps the cached status sound and computes exactly `TwinModel.Command`, exceptions included; a query, an ERR reply or an exception changes at most the time of the last command |
| `TwinFacts.ParsersAgree` | python-driver/src/ups_simulator/firmware_sim.py:103-122 | for every token: the whole-number parser raises exactly if the token passes `isdigit` and `int` refuses it, and agrees with the firmware's early-exit parser exactly if it does not raise and the token is not a number in range that is spelled with digits of another script |
| `TwinFacts.ArabicThree` | python-driver/src/ups_simulator/firmware_sim.py:103-122 | one such number: U+0663 is 3 to the twin and nothing to the sketch |
| `TwinFacts.LigatureDisarms` | python-driver/src/ups_simulator/firmware_sim.py:84-101 | `ARM o` with the ligature of two f is ARM OFF to the twin |
| `TwinFacts.AlwaysSound` | python-driver/src/ups_simulator/firmware_sim.py:49-161 | after construction and any history of commands and clock advances the cached status equals recomputation, an automatic runtime is 7200 * battery // 100, and every value is in the range of its wire type |
| `TwinFacts.QueriesAndErrorsChangeNothing` | python-driver/src/ups_simulator/firmware_sim.py:206-316 | queries, REPORT and every ERR reply change nothing but the time of the last command |
| `TwinFacts.IndexErrorExactly` | python-driver/src/ups_simulator/firmware_sim.py:206-211 | `command` raises IndexError exactly on lines that hold something besides spaces, tabs and carriage returns, but nothing besides Python's white space, over all of Unicode |
| `TwinFacts.ReturnsIgnored` | python-driver/src/ups_simulator/firmware_sim.py:206-211 | a carriage return anywhere in a line makes no difference |
| `TwinFacts.ValueErrorExactly` | python-driver/src/ups_simulator/firmware_sim.py:103-122 | for every line: `command` raises ValueError exactly when the token it hands to the number parser, which depends on the command word and on being armed, passes `isdigit` and is refused by `int`; only the time of the last command has changed |
| `TwinFacts.NoBreakSpaceRaises` | python-driver/src/ups_simulator/firmware_sim.py:210-211 | IndexError on a single U+00A0 and on a single U+0085 |
| `TwinFacts.SuperscriptRaises` | python-driver/src/ups_simulator/firmware_sim.py:103-122 | ValueError on `ARM ON` with a superscript two |
| `TwinFacts.LongNumeralRaises` | python-driver/src/ups_simulator/firmware_sim.py:103-122 | ValueError on `ARM ON` with 4301 digits |
| `PythonText.UpperIsAsciiUpper` | python-driver/src/ups_simulator/firmware_sim.py:84-101 | `str.upper` decides comparisons with the command words as ASCII folding does on every text without the ten characters whose upper case is ASCII |
| `TwinLease.AdvancesExactly` | python-driver/src/ups_simulator/firmware_sim.py:150-161 | over any sequence of `advance` calls an armed simulator stays armed exactly if the wrapped time since its last command is below the lease after each of them |
| `TwinLease.LeaseIsExact` | python-driver/src/ups_simulator/firmware_sim.py:150-161 | with no call longer than 2^32 ms less the lease that is unbounded time: armed exactly as long as less than the lease has passed |
| `TwinLease.LongAdvanceIsMissed` | python-driver/src/ups_simulator/firmware_sim.py:150-161 | one call of 2^32 ms passes any lease unseen |
| `Refinement.TokensAgree` | python-driver/src/ups_simulator/firmware_sim.py:206-213 | both tokenisers cut every printable line into the same words |
| `Refinement.DeriveAgrees` | python-driver/src/ups_simulator/firmware_sim.py:124-148 | both derivations of the status give the same bits |
| `Refinement.StatusLinesAgree` | python-driver/src/ups_simulator/firmware_sim.py:166-201 | the line printed piece by piece and the line joined from a dictionary are equal |
| `Refinement.CommandCommutes` | python-driver/src/ups_simulator/firmware_sim.py:206-316 | on every printable line of up to 4300 characters and every pair of corresponding states, firmware and twin give the same reply and corresponding states, and the twin does not raise |
| `Refinement.CheckCommutes` | python-driver/src/ups_simulator/firmware_sim.py:150-161 | the lease check at the top of `loop` corresponds to `advance` |
| `Refinement.PublishCommutes` | examples/UPS_Simulator_Ethernet/UPS_Simulator_Ethernet.ino:613-614 | at the end of a loop the published status equals the twin's cached one |
| `RefinedRuns.RunsAgree` | examples/UPS_Simulator_Ethernet/UPS_Simulator_Ethernet.ino:582-614 | for every interleaving of loops, connections and plain bytes and every endpoint behaviour, the sketch and a twin behind the same framing print the same lines and stay in corresponding states |
| `RefinedRuns.FirmwareRefinesTwin` | examples/UPS_Simulator_Ethernet/UPS_Simulator_Ethernet.ino:570-614 | the same from power-up against a new twin, with equal published and cached status after every loop |
| `RefinedRuns.VerticalTabDiffers` | python-driver/src/ups_simulator/firmware_sim.py:210-211 | outside the plain characters they differ: a line with only a vertical tab is refused by the sketch and raises in the twin |
| `Driver.ParseKv` | python-driver/src/ups_simulator/driver.py:261-268 | the dictionary built in a loop is the one in which the last token naming a key wins |
| `Driver.LastWins` | python-driver/src/ups_simulator/driver.py:261-268 | the last token naming a key decides its value |
| `Driver.CutPair` | python-driver/src/ups_simulator/driver.py:265-267 | a token printed as key=value is cut back into key and value |
| `Driver.PyIntOfPrint` | python-driver/src/ups_simulator/driver.py:287-292 | `int` undoes `str` for integers of any sign and size |
| `Driver.ArmLine` | python-driver/src/ups_simulator/driver.py:376-385 | `arm` raises exactly for a lease outside 0..3600 |
| `DriverFaults.SetterRaisesExactly` | python-driver/src/ups_simulator/driver.py:396-478 | each setter sends a line exactly for the arguments of a written-out range, or for a mode that means on, off or automatic, and raises ValueError otherwise |
| `DriverFaults.LimitsAgree` | python-driver/src/ups_simulator/driver.py:399-451 | driver and sketch draw the same lines: a number is sent exactly if the sketch takes its printed form |
| `DriverFaults.CutExactly` | python-driver/src/ups_simulator/driver.py:265-267 | a token gives a pair exactly if it has an equals sign, and is cut at the first one |
| `DriverFaults.IntExactly` | python-driver/src/ups_simulator/driver.py:287-292 | `int` takes exactly the texts that are, between white space, an optional sign and digits with single underscores between them |
| `DriverFaults.UnderscoreGone` | python-driver/src/ups_simulator/driver.py:287-292 | underscores do not change the number |
| `DriverFaults.StatusRaisesFirst` | python-driver/src/ups_simulator/driver.py:340-365 | `status()` raises exactly the first fault among the 22 fields in order (a missing key, a flag other than 0 and 1, a number that `int` refuses), and returns exactly if there is none |
| `Replies.StripExactly` | python-driver/src/ups_simulator/driver.py:249-258 | `strip` leaves exactly what stands between the white space at both ends |
| `Replies.ReturnsExactly` | python-driver/src/ups_simulator/driver.py:249-258 | a call returns a payload exactly on `OK`, with nothing, or on `OK ` and that payload, white space around it aside |
| `Replies.RaisesExactly` | python-driver/src/ups_simulator/driver.py:249-258 | it raises CommandError exactly on what starts with ERR, and ProtocolError with the stripped reply on everything else |
| `Replies.RaisesWith` | python-driver/src/ups_simulator/driver.py:251-253 | the CommandError carries the text behind ERR and its spaces and colons, or the whole reply if that is empty |
| `Replies.RefusalSplits` | python-driver/src/ups_simulator/driver.py:251-253 | every reply that raises CommandError is of that form |
| `Replies.DisarmedRaises` | python-driver/src/ups_simulator/driver.py:396-478 | on a disarmed device every setter raises CommandError with the text `disarmed`, and the device stays as it is |
| `Replies.CallReturnsExactly` | python-driver/src/ups_simulator/driver.py:249-258 | for any line in any state: the call returns exactly if the device answered `OK` or `OK ...`, and otherwise raises CommandError with the text behind `ERR ` |
| `StatusReading.Lookup` | python-driver/src/ups_simulator/firmware_sim.py:166-201 | every key of the status reply is read back with the value printed for it |
| `StatusReading.StatusRoundTrip` | python-driver/src/ups_simulator/driver.py:340-365 | parsing the printed status reply gives back all 22 fields exactly when the text fields hold no white space |
| `EndToEnd.ModeIsMeant` | python-driver/src/ups_simulator/driver.py:453-466 | what a mode argument sends: True and False are ON and OFF, a text is AUTO, ON or OFF by its stripped and upper-cased form, and everything else raises |
| `EndToEnd.ModeLines` | python-driver/src/ups_simulator/driver.py:453-466 | so the two mode setters send that word, and raise ValueError exactly for arguments that mean none of the three |
| `EndToEnd.SetterTaken` | examples/UPS_Simulator_Ethernet/UPS_Simulator_Ethernet.ino:416-489 | in any armed state every setter line with any accepted argument gets `OK` and is the assignment of the value the argument means, followed by the update and the batch that `ForcedReports.LineForcesExactly` describes |
| `EndToEnd.AssignedReads` | examples/UPS_Simulator_Ethernet/UPS_Simulator_Ethernet.ino:208-242 | reading after an assignment is the client's prediction from the reading before it and the argument alone: the named field takes the value the argument means, the other stored fields stay, the derived ones are recomputed |
| `EndToEnd.SetterReadsBack` | python-driver/src/ups_simulator/driver.py:396-478 | the call gets exactly `OK`, the device stays armed, and the next `status()` returns that prediction |
| `EndToEnd.ReadingIsDerived` | examples/UPS_Simulator_Ethernet/UPS_Simulator_Ethernet.ino:208-242 | a reading holds the stored fields of the state, and run time, charging, low battery and imminent shutdown as derived from these and the limits |
| `EndToEnd.StatusReads` | python-driver/src/ups_simulator/driver.py:340-365 | `status()` returns the reading of the device, exactly as long as the address holds no white space |
| `EndToEnd.ArmTaken` | python-driver/src/ups_simulator/driver.py:376-385 | any lease the driver sends is granted as asked |
| `EndToEnd.ResetTaken` | python-driver/src/ups_simulator/driver.py:390-391 | `reset()` gives the safe state in any state |
| `EndToEnd.DisarmTaken` | python-driver/src/ups_simulator/driver.py:387-388 | `disarm()` gives the safe state in any state |
| `Script.WireIsLines` | examples/UPS_Simulator_Ethernet/UPS_Simulator_Ethernet.ino:491-508 | the concatenated command lines of a script are cut back into exactly those commands |
| `Script.EveryCallAnswered` | examples/UPS_Simulator_Ethernet/UPS_Simulator_Ethernet.ino:597-611 | any conversation of PING, IDENT?, `arm`, `disarm`, `reset`, setters and `status()`, its bytes in any portions over any number of loops, under any UART bytes and host requests, as long as no check finds the lease expired and no UART line disarms: one reply per call, in order and of its kind, and nothing else to this client |
| `Script.ScriptReadsBack` | python-driver/src/ups_simulator/driver.py:340-478 | and for a client that is alone every `status()` in the conversation, and one at its end, equals the client's prediction from the reading before it |
| `Transport.SocketLineTransport.ReadLine` | python-driver/src/ups_simulator/driver.py:65-86 | one line, whatever the chunks, or the error and the state it leaves |
| `Transport.SocketLineTransport.SyncStream` | python-driver/src/ups_simulator/driver.py:88-107 | PING, then up to eight lines, greeting kept |
| `Transport.SocketLineTransport.ConnectSocket` | python-driver/src/ups_simulator/driver.py:43-55 | connect once, synchronise, close and report on failure |
| `Transport.SocketLineTransport.CloseSocket` | python-driver/src/ups_simulator/driver.py:57-63 | closing forgets the socket and the unread bytes |
| `Transport.SocketLineTransport.RunCommand` | python-driver/src/ups_simulator/driver.py:109-119 | connect if needed, send one line, read one line; the errors in their order |
| `TransportFacts.ReadIsStream` | python-driver/src/ups_simulator/driver.py:65-86 | reading depends on the byte stream alone: it consumes through the first line feed and loses, repeats or reorders nothing |
| `TransportFacts.AwaitIsStream` | python-driver/src/ups_simulator/driver.py:88-107 | synchronisation does not depend on the chunking, in success and in failure |
| `TransportFacts.SyncAligns` | python-driver/src/ups_simulator/driver.py:88-107 | for any greeting of at most seven lines other than `OK PONG`, in any chunks, it consumes exactly through the PONG line and keeps the greeting |
| `TransportFacts.EightLinesAreTooMany` | python-driver/src/ups_simulator/driver.py:88-107 | a greeting of eight lines is a protocol error |
| `TransportFacts.DecodeExactly` | python-driver/src/ups_simulator/driver.py:65-86 | a received line without the carriage returns at its end is the reply, if it is ASCII, and a protocol error otherwise |
| `TransportFacts.CommandRefusesExactly` | python-driver/src/ups_simulator/driver.py:109-119 | what `command` raises before it reads anything: ValueError for a text with a line end, a transport error for one that is not ASCII or when sending fails, and what has happened by then |
| `TransportFacts.CommandReadsExactly` | python-driver/src/ups_simulator/driver.py:109-119 | otherwise the line has been sent and the answer is the next line of the stream, which is consumed, or a transport error if there is none |
| `TransportFacts.ConnectExactly` | python-driver/src/ups_simulator/driver.py:43-55 | an open connection is kept; a refused attempt leaves nothing open, and an accepted one exactly if the synchronisation succeeds |
| `TransportFacts.RepliesAlign` | python-driver/src/ups_simulator/driver.py:109-119 | if the peer prints one line per command, the k-th call returns the k-th line and the rest of the stream is untouched, for any sends that succeed that often |
| `TransportFacts.AlignedUntilFailure` | python-driver/src/ups_simulator/driver.py:109-119 | with any failing sends and a stream that ends anywhere: the calls before the first failure return their own replies and the next one is a transport error |
| `Wiring.HeardInOrder` | examples/UPS_Simulator_Ethernet/UPS_Simulator_Ethernet.ino:597-611 | a client that the sketch accepts and that sends PING and any calls hears the greeting, the pong and one reply per call, under any other traffic that does not disarm |
| `Wiring.ConnectAligns` | python-driver/src/ups_simulator/driver.py:88-107 | connecting to it: the driver records exactly the two greeting lines, and what is left on the stream is exactly the replies to what follows PING |
| `Wiring.ScriptAnswers` | python-driver/src/ups_simulator/driver.py:109-119 | on any open link, whatever was sent before: every call returns its own reply, the bytes sent grow by the calls' lines, and the rest of the stream is untouched |
| `Wiring.ConnectAndTalk` | python-driver/src/ups_simulator/driver.py:43-119 | one run of the sketch and one never-opened transport, joined by their bytes in any chunks: `connect` succeeds with the greeting, every call returns its own reply, nothing is left on the stream, and the driver has sent what the sketch has read |
| `Wiring.ConversationsHappen` | python-driver/src/ups_simulator/driver.py:43-119 | for every state and all calls there are a run of the sketch and a transport that meet the premises of that composition |
| `Wiring.ArmSetAndRead` | python-driver/src/ups_simulator/driver.py:376-478 | connect, identify, arm, any setters, `status()`: the simulator's identity, `OK armed`, one `OK` per setter, and a status equal to what the arguments predict from the state before |
| `Session.SessionRestores` | python-driver/src/ups_simulator/driver.py:480-507 | for every body and ending, once the body is entered a cleanup command that reaches the device leaves it safe |
| `Session.BodyExceptionSurvivesExactly` | python-driver/src/ups_simulator/driver.py:480-507 | the body's exception reaches the caller exactly when the cleanup is delivered, or fails with a driver error while warnings are not errors; a warning is issued exactly in the second case |
| `Session.BodyExceptionLost` | python-driver/src/ups_simulator/driver.py:489-503 | two sessions in which it does not: a KeyboardInterrupt during the cleanup, and a failed cleanup while warnings are errors |
| `Session.SessionReports` | python-driver/src/ups_simulator/driver.py:480-507 | after a body that ends normally the caller sees the error of the cleanup and no warning, and before the body the error of the arming |
| `Session.SessionEndsSafeExactly` | python-driver/src/ups_simulator/driver.py:480-507 | exactly which sessions on a disarmed device end with a safe one, by the fates of the two calls and, if the cleanup is lost, by whether an arming line follows the body's last disarming line or expired check; when only the reply to `arm` is lost no cleanup is tried |
| `Session.AbandonedSessionExpires` | examples/UPS_Simulator_Ethernet/UPS_Simulator_Ethernet.ino:583-589 | after an arming that went through, without further commands the device is safe once the granted lease and one loop gap have passed |
| `Registry.ListIsMap` | src/HID/HID.cpp:128-182 | over any sequence of registrations and locks, ids never repeat and looking one up gives its first registration with its last lock flag |
| `Registry.LockUnknown` | src/HID/HID.cpp:150-161 | locking an id nobody registered changes nothing |
| `Registry.HostWritesConfined` | src/HID/HID.cpp:226-239 | however many requests the host sends, unreachable storage is untouched and reachable storage keeps the registered length |
| `HidSetup.TableExactly` | examples/UPS_Simulator_Ethernet/UPS_Simulator_Ethernet.ino:531-568 | for every 16-bit id, what looking it up after `setupHid` finds: a written-out table gives the 31 registered ids their variable, length and lock, and no other id is found |
| `HidSetup.WritableExactly` | examples/UPS_Simulator_Ethernet/UPS_Simulator_Ethernet.ino:521-568 | the features that a host can write are the seven entries of it that are not read-only |
| `HidSetup.AcceptedExactly` | examples/UPS_Simulator_Ethernet/UPS_Simulator_Ethernet.ino:521-568 | after `setupHid` a SET_REPORT is accepted exactly when it is a well-formed Feature report for one of the seven writable ids |
| `HidSetup.OnlySevenChange` | examples/UPS_Simulator_Ethernet/UPS_Simulator_Ethernet.ino:521-568 | no sequence of requests changes any other variable, and the seven keep their lengths |
| `HidList.HID.SetFeature` | src/HID/HID.cpp:128-148 | the pointer list stays acyclic and gains the feature only if its id is new; the answer is the known position or the count |
| `HidList.HID.LockFeature` | src/HID/HID.cpp:150-161 | exactly the lock flag of that id changes |
| `HidList.HID.GetFeature` | src/HID/HID.cpp:172-182 | the walk bounded by `reportCount` finds what the list holds under the id within that bound |
| `HidList.HID.SetReportRequest` | src/HID/HID.cpp:226-239 | memory changes exactly as the registry says |
| `HidList.HID.AppendDescriptor` | src/HID/HID.cpp:114-126 | a node that is not on the list becomes the last one, and the descriptor bytes and their 16-bit size grow by it; a node that is on the list already closes a circle |
| `HidList.HID.SendDescriptor` | src/HID/HID.cpp:83-94 | any failing send gives -1; otherwise all nodes have been sent, and the answer is their size as the board's 16-bit `int`, which is the advertised size below 32768 and reads as a failure at 65535 |
| `HidList.GetIsFindExactly` | src/HID/HID.cpp:172-182 | `GetFeature` finds every registered id exactly as long as there are fewer than 65536 registrations |
| `HidList.FullListIsLost` | src/HID/HID.cpp:172-182 | with all 65536 ids registered it finds none of them, on a board with the memory for them |
| `HidList.HID.CircleNeverEnds` | src/HID/HID.cpp:114-126 | from a circle no walk over the descriptor list comes to an end |
| `PowerDevice.Begin` | src/HIDPowerDevice.cpp:236-245 | registers and locks the three string indices |
| `PowerDevice.SetStringFeature` | src/HIDPowerDevice.cpp:271-278 | registers the index byte, locks it and registers the text under 0xFF00 plus the index, unless the first answer is zero |
| `PowerDevice.SetupHid` | examples/UPS_Simulator_Ethernet/UPS_Simulator_Ethernet.ino:531-568 | on a fresh object the linked list becomes the feature table, whose contents `HidSetup.TableExactly` gives id by id |
| `PowerDevice.ServeHost` | src/HID/HID.cpp:226-239 | any number of requests after start-up: only the storage of the seven writable features can change |
| `PowerDevice.BuildDescriptor` | src/HIDPowerDevice.cpp:226-234 | base, optional extension and end, in this order |
| `PowerDevice.ConstructPowerDevice` | src/HIDPowerDevice.cpp:226-234 | with the library's own texts: the bytes sent are one application collection, the advertised size is their number, 501 with the extension and 400 without, and the self-test's reader recovers it behind any other descriptor blocks |
| `Descriptor.ComposesExactly` | src/HIDPowerDevice.cpp:26-234 | a fragment of whole short items between base and end gives a fully parsing descriptor with one application collection exactly when its own collections are balanced |
| `Descriptor.PartsMove` | src/HIDPowerDevice.cpp:26-234 | a text laid out in runs of plain items and nested collections parses, and changes depth and opens applications as its layout says |
| `PowerDescriptor.BaseIsBase` | src/HIDPowerDevice.cpp:26-216 | the shipped base, for any string indices, parses in 399 bytes, opens one application collection and closes all but that |
| `PowerDescriptor.FragmentIsBalanced` | src/HIDPowerDeviceNUT.cpp:9-69 | the shipped NUT fragment is 101 bytes of whole short items with balanced collections |
| `PowerDescriptor.Shipped` | src/HIDPowerDevice.cpp:226-234 | shipped base, fragment and end are one application collection of 501 bytes, and shipped base and end one of 400 |
| `ReportFields.DescriptorDeclares` | src/HIDPowerDevice.cpp:26-234 | read by the item rules of the HID standard, the descriptor bytes declare exactly the listed fields, with kind, report id, usage page, usage, collection and bits |
| `FeatureFields.FeaturesAreRegistered` | examples/UPS_Simulator_Ethernet/UPS_Simulator_Ethernet.ino:531-568 | for every report id these give as many feature bits as the variable registered under it has, and none to an id that is not registered |
| `FeatureFields.ReportsAreInputs` | examples/UPS_Simulator_Ethernet/UPS_Simulator_Ethernet.ino:258-271 | every report sent is declared as an input of its length |
| `FeatureFields.FieldsAreNamed` | src/HIDPowerDevice.cpp:26-216 | every field but those of the status carries the usage of the variable registered under its id, in the right collection |
| `FeatureFields.StatusBitsAreDeclared` | examples/UPS_Simulator_Ethernet/UPS_Simulator_Ethernet.ino:208-242 | each bit of the status word is the flag that the descriptor declares at that position |
| `ReportLength.HidReportLength` | python-driver/src/ups_simulator/selftest.py:112-132 | the nested loops terminate, stay in bounds and find the first report entry of the first HID block |
| `ReportLength.ReadsWhatIsEmitted` | src/HID/HID.cpp:36-46 | what the device emits are nine given bytes, and behind any number of other blocks the reader recovers the size from them |
| `ReportLength.StopsAtMalformed` | python-driver/src/ups_simulator/selftest.py:112-132 | where a block is malformed the reader gives up |
| `ReportLength.EntryExactly` | python-driver/src/ups_simulator/selftest.py:112-132 | the first report entry of a block decides; entries of other types before it are passed over |
| `ReportLength.LengthRoundTripExactly` | python-driver/src/ups_simulator/selftest.py:112-132 | it learns the number of bytes the device sends exactly when they are fewer than 65536 |

## Left out

- Sockets, DHCP, the W5500, the LED heartbeat, the boot banner on UART and USB endpoint hardware: they appear only as arriving bytes, connections, time and endpoint answers.
- SerialLineTransport: the same protocol as TCP with framing done by pyserial.
- The volt properties and setters, the cli, discovery, sysfs and pyusb probing, the twin's interactive `main`, and the printing of the self-test: user interface and library plumbing.
- `examples/UPS/UPS.ino`: a sensor-driven precursor of the sketch.
- NETWORK? and `network_status`: addresses are opaque strings, printed but not parsed.
- HidSetup.AcceptedExactly: bytes a host announces but does not send read as zero, where the device would keep what its stack held.
- HidList.HID.SetReportRequest: features of 65535 bytes are excluded, because `length + 1` wraps on the board; the sketch registers at most 16 bytes.
- HidList.HID.SendDescriptor: for nodes below 32768 bytes, whose length the board's `int` can hold; their sum may be larger.
- HidList.HID.AppendDescriptor: behind a node with a chain of its own the list is not described any further.
- HidList.HID.SetFeature: the returned word is the unsigned 16-bit one, before its conversion to the board's signed `int`.
- PowerDevice.SetupHid: the constants that `setupHid` passes are listed in the tables of `HidSetup.dfy` and executed from there; `setSerial` and `setOutput` touch no modelled state.
- The getReport branch, string descriptors, SET_IDLE and SET_PROTOCOL of the HID object: they change nothing modelled here.
- Firmware.Controller.HandleCommand: the sketch's globals are grouped into records, and each reply is the text of one printed line without its CR LF.
- Driver.PyIntOfPrint: Python's limit of 4300 digits is modelled for the twin's parser, not for the driver, which reads only what a device printed.
- PythonText.UpperIsAsciiUpper: characters are those of Unicode 14; a character whose upper case is not ASCII stands for itself, which no comparison with a command word can tell.
- Driver.ParseKv: text is ASCII, as the transport guarantees.
- StatusReading.StatusRoundTrip: `SimulatorStatus` is modelled with its 22 fields in five groups.
- TransportFacts.AlignedUntilFailure: after a timeout the socket stays open and a late reply shifts all later ones; blank commands, which get no reply, are outside the premise.
- Refinement.CommandCommutes: lines of printable ASCII and tabs of at most 4300 characters, where the sketch's buffer holds 95; NUL and other bytes split differently in C and in Python.
- RefinedRuns.FirmwareRefinesTwin: without host requests, which the twin does not have.
- Replies.CallReturnsExactly: `raw_command` refuses `HELP` and `?` on its own, before anything is sent; no modelled call sends them.
- Script.ScriptReadsBack: one client alone, since other controllers may of course change what is read; that its calls are answered needs no such premise (`Script.EveryCallAnswered`).
- Session.SessionRestores: the two calls of a session are two outcomes of the channel each, not the socket transport itself; its errors are those of `Transport.SocketLineTransport.RunCommand`.
- ReportFields.DescriptorDeclares: logical ranges, units and the flags of the items are part of the bytes but not of the fields read from them.
- PowerDescriptor.BaseIsBase: the string indices of the Arduino core are parameters; the core is not part of this model.
