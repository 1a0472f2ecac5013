# PAS CO2 sensor demo: acquisition loop and terminal console

This project models two cooperating tasks of Infineon's PAS CO2 sensor demo
for ModusToolbox.

- **The acquisition task** (`source/pasco2_task.c`):
  - the two shared flags `log_internal` and `display_ppm` and their setters;
  - the `conditional_log` gate;
  - one pass of the sampling loop: the choice of the pressure handed to the CO2
    read (the DPS3xx reading, or the 1015 hPa fallback truncated to `uint16_t`),
    the classification of the read result (value, not ready, I2C communication
    error, unexpected), the decoding of the sensor status byte into three
    independent faults, and the warning LED driven by their OR.
- **The console task** (`source/pasco2_terminal_ui_task.c`):
  - `terminal_ui_readline`, which fills the caller's array in place and echoes
    every byte;
  - the handling of one keystroke: `?` prints the menu; `p` reads a line, parses
    it with `strtol`, truncates it to `uint16_t`, range-checks it against
    [5, 4095] and makes the three configuration calls; `i` accepts only `y` or
    `n`; any other key prints a hint. The ppm display is switched off before
    the dispatch and back on after it, except after a rejected `i` answer,
    whose `continue` leaves it off.

Files:

- `board.dfy` (module `Board`):
  - `uint16`;
  - the classes of printed messages (`Out`);
  - the console `Uart`, whose receive side is an infinite stream `rx` with a
    position `rxPos` and whose transmit side is the transcript `tx`.
- `pasco2_task.dfy` (module `Pasco2Task`):
  - the pure decoders;
  - the class `SensorTask`, holding the flags and the warning LED, with the
    setters and the loop pass as methods.
- `terminal_ui.dfy` (module `TerminalUi`):
  - the line editor, over an `array<char>`, and the specification functions
    that describe what it reads and keeps;
  - the `strtol` model;
  - the validation of the `p` and `i` commands;
  - the flag history over a run of keystrokes;
  - the class `TerminalUiTask`, whose `HandleKey` is one pass of the console
    loop.

Each method is proved against specification functions:

- `ReadChars`: the bytes the editor takes;
- `StripSpace`: what it keeps;
- `CStr`: the C string left in the buffer;
- `PeriodCommand` and `DiagAnswer`: the validation outcome;
- `KeyFlags`: the flags after a key;
- `KeyTranscript`, `ReadReport` and `StatusReport`: what is printed.

Lemmas relate those functions to what the source promises.

## Model

| member | source | states |
|---|---|---|
| Board.Uart.Getc | source/pasco2_terminal_ui_task.c:115 | A blocking read returns the next byte of the receive stream and advances the position by one. |
| Board.Uart.Putc | source/pasco2_terminal_ui_task.c:121 | Echoing a byte appends exactly that byte to the transcript. |
| Board.Uart.Print | source/pasco2_task.c:288 | A `printf` appends exactly its one message to the transcript. |
| Pasco2Task.TruncateToUint16 | source/pasco2_task.c:273 | The `(uint16_t)` cast of a pressure in range is its truncation: the result is the integer part. |
| Pasco2Task.PressureArgument | source/pasco2_task.c:254-273 | Without a DPS3xx, the pressure passed to the CO2 read is 1015 on every cycle. With one, it is the DPS3xx reading, and there is no pressure when that read failed. |
| Pasco2Task.DecodeStatus | source/pasco2_task.c:313-331 | The three faults are bits 3 (ICCER), 4 (ORVS) and 5 (ORTMP) of the status byte, each tested on its own. |
| Pasco2Task.EncodeFaults | source/pasco2_task.c:313-332 | The status byte built from a fault set has no bits outside the three fault masks. |
| Pasco2Task.DecodeEncode | source/pasco2_task.c:313-332 | Decoding the byte encoded from any fault set gives that fault set back. |
| Pasco2Task.EncodeDecode | source/pasco2_task.c:313-332 | Decoding keeps exactly the ICCER, ORVS and ORTMP bits. Any two bytes that agree on those three bits decode alike. |
| Pasco2Task.DecodeIsPerBit | source/pasco2_task.c:313-332 | Each fault is tested independently: the faults of `s \| t` are the pointwise OR of the faults of `s` and of `t`. |
| Pasco2Task.AnyFault | source/pasco2_task.c:312-335 | `error_status`: the OR of the three faults, which drives the warning LED. Tied to the status byte by `WarningIffFaultBit` and to the fault count by `FaultCount`. |
| Pasco2Task.WarningIffFaultBit | source/pasco2_task.c:312-335 | The warning LED state is on exactly when at least one of the three mask bits is set in the status byte. |
| Pasco2Task.ClassifyRead | source/pasco2_task.c:275-306 | Success is classified as a value. A failure is not-ready exactly for the NRDY code, a communication error exactly for ERR_COMM, and unexpected for every other code. |
| Pasco2Task.ConditionalLogOutput | source/pasco2_task.c:70-74 | The message is emitted exactly when `log_internal && display_ppm`. Otherwise nothing is emitted. |
| Pasco2Task.ReadReport | source/pasco2_task.c:275-306 | A successful read prints its ppm line exactly when `display_ppm` is set. A failed read prints at most one line, and only when both flags are set. That line is the not-ready log for NRDY, the I2C error log for ERR_COMM and the unexpected-error log otherwise, so no failure prints a ppm line. |
| Pasco2Task.StatusReport | source/pasco2_task.c:313-332 | With both flags set, one line is printed per fault present: as many lines as faults, and each fault's line is among them exactly when that fault is present. Otherwise nothing is printed. |
| Pasco2Task.FaultCount | source/pasco2_task.c:312-332 | Counts the faults present: at most three, and zero exactly when `error_status` stays false. |
| Pasco2Task.StatusReportOrdered | source/pasco2_task.c:313-331 | The status lines are only fault lines, each at most once, in the order the bits are tested: communication, over-voltage, temperature. |
| Pasco2Task.CycleReport | source/pasco2_task.c:275-336 | A completed cycle prints at most four lines. Unless both flags are set it prints at most one, and that one is the ppm line of a successful read. |
| Pasco2Task.SilentWhenDisplayOff | source/pasco2_task.c:70-74 | With `display_ppm` off, a completed cycle prints nothing, whatever the read and status results. A failed DPS3xx read still prints its error at line 262 before halting; see `SensorTask.Cycle`. |
| Pasco2Task.SensorTask.constructor | source/pasco2_task.c:81-82 | The flags start as `log_internal = false` and `display_ppm = true`. The warning LED starts off, and `use_dps` is whether the DPS3xx initialised (see lines 189, 198-202). |
| Pasco2Task.SensorTask.EnableInternalLogging | source/pasco2_task.c:99-110 | Sets `log_internal` to the argument and prints the matching confirmation. `display_ppm` and the LED are unchanged. |
| Pasco2Task.SensorTask.DisplayPpm | source/pasco2_task.c:124-127 | Sets `display_ppm` and changes nothing else. |
| Pasco2Task.SensorTask.ConditionalLog | source/pasco2_task.c:70-74 | Appends the message to the console exactly as the gate decides. |
| Pasco2Task.SensorTask.ReportRead | source/pasco2_task.c:275-306 | Prints what `ReadReport` specifies for the classified read result. No failed read halts the loop. |
| Pasco2Task.SensorTask.CheckStatus | source/pasco2_task.c:312-335 | Tests the three bits one after another. It logs each fault present, in order, and then sets the warning LED to the OR of the faults. |
| Pasco2Task.SensorTask.Report | source/pasco2_task.c:275-336 | Prints the read report followed by the status report. The LED is written only when the status read succeeded. |
| Pasco2Task.SensorTask.Cycle | source/pasco2_task.c:252-336 | A cycle halts exactly when the DPS3xx is in use and its read failed, after printing the pressure error. Otherwise it reads CO2 at the chosen pressure and prints the cycle report. The LED is the OR of the faults when the status read succeeded, and is unchanged when it failed. |
| TerminalUi.ReadChars | source/pasco2_terminal_ui_task.c:113-115 | The editor takes at most its budget of bytes. When it takes fewer, it has just taken a carriage return. |
| TerminalUi.ReadCharsFromStream | source/pasco2_terminal_ui_task.c:113-115 | The bytes taken are the stream from the current position, in order, with no carriage return before the last one. |
| TerminalUi.ReadCharsUnique | source/pasco2_terminal_ui_task.c:113-115 | These properties determine the bytes taken: any sequence with them is `ReadChars`. |
| TerminalUi.ReadCharsExtend | source/pasco2_terminal_ui_task.c:113-115 | Before a carriage return, one more unit of budget takes exactly the next byte of the stream. |
| TerminalUi.ReadCharsDone | source/pasco2_terminal_ui_task.c:113 | Once a carriage return was taken or the budget is used up, nothing more is taken. |
| TerminalUi.IsSpace | source/pasco2_terminal_ui_task.c:127 | `isspace` in the C locale: space, tab, newline, vertical tab, form feed and carriage return. |
| TerminalUi.StripSpace | source/pasco2_terminal_ui_task.c:127-131 | The kept bytes are never more numerous than the received ones. |
| TerminalUi.StripSpaceNoBlank | source/pasco2_terminal_ui_task.c:127-131 | No `isspace` byte, including the terminating carriage return, is stored in the line. |
| TerminalUi.StripSpaceKeepsOthers | source/pasco2_terminal_ui_task.c:127-131 | Every non-blank byte is kept as many times as it was received. |
| TerminalUi.StripSpaceAppend | source/pasco2_terminal_ui_task.c:127-131 | Stripping works piece by piece, so the kept bytes stay in the order received. |
| TerminalUi.StripSpaceNoSpace | source/pasco2_terminal_ui_task.c:127-131 | A line without blanks is kept unchanged. |
| TerminalUi.Echoes | source/pasco2_terminal_ui_task.c:121 | The transcript of the echoed bytes has one entry per received byte. |
| TerminalUi.EchoesEach | source/pasco2_terminal_ui_task.c:121 | The echo is the received bytes one for one, in order. |
| TerminalUi.Readline | source/pasco2_terminal_ui_task.c:102-141 | With `maxlength <= 0`, nothing is read, echoed or written. Otherwise it takes `ReadChars` with budget `maxlength - 1` and echoes every byte, then a newline. It leaves the kept bytes followed by a NUL in the array, with `\|kept\| < maxlength`, so every write, NUL included, is below `maxlength`. The rest of the array is untouched. |
| TerminalUi.ReceiveLine | source/pasco2_terminal_ui_task.c:110-132 | The receive loop stops after a carriage return or after `maxlength - 1` bytes. `i` counts the kept bytes, `line[..i]` holds them, and nothing at or past `i` is written. |
| TerminalUi.TakeByte | source/pasco2_terminal_ui_task.c:115-131 | One pass of the loop takes and echoes the next byte and stores it at `line[i]` unless it is whitespace. |
| TerminalUi.CStr | source/pasco2_terminal_ui_task.c:225 | The C string is the longest NUL-free prefix of the buffer, and is followed by a NUL when shorter than the buffer. |
| TerminalUi.CStrTerminated | source/pasco2_terminal_ui_task.c:140 | The NUL that readline writes after the kept bytes ends the C string there, whatever the buffer held beyond it. |
| TerminalUi.DigitsValue | source/pasco2_terminal_ui_task.c:186 | The number `strtol` builds from a run of decimal digits, most significant digit first. `ParseLong`, `ParseLeadingNumber` and `DecimalValue` state their values through it. |
| TerminalUi.LeadingDigits | source/pasco2_terminal_ui_task.c:186 | `strtol` consumes the longest run of decimal digits. |
| TerminalUi.SkipSpace | source/pasco2_terminal_ui_task.c:186 | `strtol`'s skip of leading `isspace` bytes. Its properties are `SkipSpaceSuffix` and `SkipSpaceBlanks`. |
| TerminalUi.SkipSpaceSuffix | source/pasco2_terminal_ui_task.c:186 | `strtol` first skips leading whitespace: what remains is a suffix of the line and starts with a non-blank byte. |
| TerminalUi.SkipSpaceBlanks | source/pasco2_terminal_ui_task.c:186 | Skipping whitespace stops exactly at the first non-blank byte. |
| TerminalUi.SaturateLong | source/pasco2_terminal_ui_task.c:186 | `strtol`'s clamp on overflow: the result is always within the range of a 32-bit `long`, and a value already in that range is kept. |
| TerminalUi.ParseLong | source/pasco2_terminal_ui_task.c:186-187 | The parsed value lies in the range of a 32-bit `long`. When nothing was consumed (`value == end`), the value is 0. |
| TerminalUi.NoDigitNoNumber | source/pasco2_terminal_ui_task.c:186-187 | A line without any digit consumes nothing. |
| TerminalUi.LeadingDigitsOf | source/pasco2_terminal_ui_task.c:186 | The digit run ends at the first byte that is not a digit. |
| TerminalUi.ParseLeadingNumber | source/pasco2_terminal_ui_task.c:186-187 | A line made of blanks, an optional sign, digits and then anything not starting with a digit is consumed, and its value is the digits' number with the sign applied, saturated to `long`. What follows the digits does not matter. |
| TerminalUi.ParseAfterBlanks | source/pasco2_terminal_ui_task.c:186-187 | The same once the blanks are skipped: the sign and the digits alone decide the value. |
| TerminalUi.SignThenDigits | source/pasco2_terminal_ui_task.c:186 | After the optional sign, `strtol` reads exactly the digits that follow, and the value is negative exactly when the sign is `-`. |
| TerminalUi.NoLeadingNumber | source/pasco2_terminal_ui_task.c:186-187 | When the first byte after the blanks and an optional sign is not a digit, nothing is consumed (`value == end`) and the value is 0. |
| TerminalUi.Decimal | source/pasco2_terminal_ui_task.c:211 | The `%d` spelling of a non-negative number: a non-empty run of decimal digits. |
| TerminalUi.DecimalValue | source/pasco2_terminal_ui_task.c:211 | The digits printed for `n` denote `n`. |
| TerminalUi.ParseDecimalSaturates | source/pasco2_terminal_ui_task.c:186 | `strtol` consumes every decimal, and its value is the number saturated to the range of `long`. |
| TerminalUi.ParseNegativeDecimalSaturates | source/pasco2_terminal_ui_task.c:186 | The same for a minus sign followed by a decimal: the value is the negated number saturated to `long`. |
| TerminalUi.ParseDecimal | source/pasco2_terminal_ui_task.c:186 | `strtol` reads back every non-negative decimal within `long` range. |
| TerminalUi.ParseNegativeDecimal | source/pasco2_terminal_ui_task.c:186 | `strtol` reads back every negative decimal within `long` range. |
| TerminalUi.ToUint16 | source/pasco2_terminal_ui_task.c:186 | The cast to `uint16_t` reduces modulo 2^16 and keeps values that already fit. |
| TerminalUi.PeriodCommand | source/pasco2_terminal_ui_task.c:186-216 | There is no outcome exactly when nothing was consumed. Otherwise the period is the truncated value. It is applied exactly when in [5, 4095], and succeeds exactly when all three statuses are 0. |
| TerminalUi.ConfigCalls | source/pasco2_terminal_ui_task.c:195-207 | Configuration calls are made exactly when the period is accepted. They are then exactly three, in order: idle mode, the rate set to that period, continuous mode. |
| TerminalUi.PeriodMessages | source/pasco2_terminal_ui_task.c:189-216 | What the `p` branch prints after the echo: nothing without a number (line 187), the range error (line 191), the new period (line 211) or the configuration error (line 215). |
| TerminalUi.PeriodInRange | source/pasco2_terminal_ui_task.c:186-216 | A typed period in [5, 4095] is applied as typed. |
| TerminalUi.PeriodOutOfRange | source/pasco2_terminal_ui_task.c:189-192 | A typed period below 5, or from 4096 to 65535, gets the range error and no configuration call. |
| TerminalUi.PeriodTruncatedBeforeRangeCheck | source/pasco2_terminal_ui_task.c:186-189 | A period typed from 65536 up to LONG_MAX (2^31 - 1) is range-checked, and applied, modulo 2^16. Larger values saturate first; see `PeriodSaturatesHigh`. |
| TerminalUi.PeriodSaturatesHigh | source/pasco2_terminal_ui_task.c:186-189 | A period typed above LONG_MAX is saturated by `strtol` to LONG_MAX, whose cast is 65535. It always gets the range error and no configuration call. |
| TerminalUi.PeriodSaturatesExample | source/pasco2_terminal_ui_task.c:186-189 | Typing 4294967301, which is 5 modulo 2^16, gives the range error and not period 5. |
| TerminalUi.PeriodWrapsExample | source/pasco2_terminal_ui_task.c:186-189 | Typing 65541 sets the period to 5 instead of giving a range error. |
| TerminalUi.PeriodNegativeWraps | source/pasco2_terminal_ui_task.c:186-189 | A negative typed period down to LONG_MIN (-2^31) is also reduced modulo 2^16 before the range check. It is applied when that remainder is in [5, 4095] and gets the range error otherwise. Smaller values saturate first; see `PeriodSaturatesLow`. |
| TerminalUi.PeriodSaturatesLow | source/pasco2_terminal_ui_task.c:186-189 | A period typed below LONG_MIN is saturated by `strtol` to LONG_MIN, whose cast is 0. It always gets the range error and no configuration call. |
| TerminalUi.NegativePeriodWrapsExample | source/pasco2_terminal_ui_task.c:186-189 | Typing -65531 sets the period to 5. |
| TerminalUi.DiagAnswer | source/pasco2_terminal_ui_task.c:225-230 | The y/n test on the typed line: no answer unless it is one character long and that character is `y` or `n`, and then `value[0] == 'y'`. Its meaning is stated by `DiagAnswerMeaning`. |
| TerminalUi.DiagAnswerMeaning | source/pasco2_terminal_ui_task.c:225-230 | Only the one-character lines `y` and `n` are answers, meaning on and off. Every other line is rejected. |
| TerminalUi.DiagMessages | source/pasco2_terminal_ui_task.c:227 | What the `i` branch prints after the echo: the input error for a rejected line, and otherwise the confirmation that `enable_internal_logging` prints (source/pasco2_task.c:103 and 107). |
| TerminalUi.KeyFlags | source/pasco2_terminal_ui_task.c:170-238 | After a key, `display_ppm` is on unless the key was `i` with a bad answer. `log_internal` changes only on an accepted `i` answer, to whether it was `y`. |
| TerminalUi.BadAnswerSilencesLoop | source/pasco2_terminal_ui_task.c:225-228 | A bad `y`/`n` answer leaves `log_internal` as it was and `display_ppm` off, so the next completed acquisition cycle prints nothing at all. |
| TerminalUi.RunCommands | source/pasco2_terminal_ui_task.c:165-239 | No keystroke leaves the flags as they were. Keystrokes without an `i` never change `log_internal`. |
| TerminalUi.RunCommandsSnoc | source/pasco2_terminal_ui_task.c:165-239 | Running one more keystroke applies `KeyFlags` to the flags reached so far. |
| TerminalUi.FlagsAfterCommands | source/pasco2_terminal_ui_task.c:165-239 | After any run of keystrokes, `log_internal` is whatever the last accepted `y`/`n` answer chose, and the initial value if there was none. `display_ppm` is on exactly when the last key was not an `i` with a bad answer. |
| TerminalUi.RepeatedNoIsIdempotent | source/pasco2_terminal_ui_task.c:222-231 | Answering `n` twice leaves the same flags as answering it once: logging off and display on, whatever the flags were before. |
| TerminalUi.AnswerNoOutput | source/pasco2_terminal_ui_task.c:222-231 | Each `n` answer prints the prompt, the echo, a newline and the logging-disabled confirmation. It makes no configuration call and leaves logging off and the display on, so a repeated `n` repeats the same output. |
| TerminalUi.KeptLine | source/pasco2_terminal_ui_task.c:183-186 | The line a branch reads from `value` after readline took the bytes `got`: the kept bytes as a C string (`strtol` at line 186, `strlen` and `value[0]` at lines 225-230). `Ask` returns it. |
| TerminalUi.TypedLine | source/pasco2_terminal_ui_task.c:183-186 | The same line stated from the receive stream: `KeptLine` of the bytes readline takes from the current position with the 255-byte budget. |
| TerminalUi.TypedLineExact | source/pasco2_terminal_ui_task.c:102-141 | A short typed line without blanks or NULs, ended by return, reaches the console as exactly that line. |
| TerminalUi.PeriodSixtyScenario | source/pasco2_terminal_ui_task.c:180-216 | Typing `60` and return after `p`, with all calls succeeding, sets the period to 60. |
| TerminalUi.KeyCalls | source/pasco2_terminal_ui_task.c:172-236 | Only the `p` key can make configuration calls. |
| TerminalUi.LineBytes | source/pasco2_terminal_ui_task.c:183 | Only the `p` and `i` branches read a line, taking up to 255 bytes for the 256-byte `value` buffer. |
| TerminalUi.PeriodTranscript | source/pasco2_terminal_ui_task.c:180-220 | The `p` branch prints the prompt, the echo of the typed bytes, a newline and the outcome message of `PeriodCommand`. |
| TerminalUi.PeriodTranscriptShape | source/pasco2_terminal_ui_task.c:180-220 | The `p` output is the prompt, the echo and a newline, then at most one message. That message is there exactly when a number was typed. |
| TerminalUi.DiagTranscript | source/pasco2_terminal_ui_task.c:222-231 | The `i` branch prints the prompt, the echo of the typed bytes, a newline and either the confirmation or the input error. |
| TerminalUi.DiagTranscriptShape | source/pasco2_terminal_ui_task.c:222-231 | The `i` output is the prompt, the echo, a newline and exactly one message, which is the input error exactly when the answer is rejected. |
| TerminalUi.KeyTranscript | source/pasco2_terminal_ui_task.c:172-236 | What the console prints for each key: the menu, the `p` or `i` dialog, or the hint. |
| TerminalUi.KeyTranscriptShape | source/pasco2_terminal_ui_task.c:172-236 | Every key prints something. Keys other than `p` and `i` print exactly one message; `p` and `i` echo the typed line after their prompt. |
| TerminalUi.TerminalUiTask.constructor | source/pasco2_terminal_ui_task.c:161-162 | The task prints the menu once at start and owns a 256-byte `value` buffer. |
| TerminalUi.TerminalUiTask.HandleKey | source/pasco2_terminal_ui_task.c:168-239 | The key is the next byte received. Only `p` and `i` read a line. Afterwards the flags are `KeyFlags`, the configuration calls are `KeyCalls`, the console output is `KeyTranscript`, and the warning LED is untouched. |
| TerminalUi.TerminalUiTask.HandleKeyValue | source/pasco2_terminal_ui_task.c:170-238 | The display is switched off first, the key is dispatched, and the display is switched back on unless the `continue` after a bad answer skips line 238. |
| TerminalUi.TerminalUiTask.Dispatch | source/pasco2_terminal_ui_task.c:172-236 | The four branches of the switch, with `accepted` false exactly on the `continue` path. |
| TerminalUi.TerminalUiTask.Ask | source/pasco2_terminal_ui_task.c:182-183 | A prompt, then readline on the 256-byte buffer. The line the branch sees is `KeptLine` of the bytes taken: the C string of the kept bytes. |
| TerminalUi.TerminalUiTask.PeriodDialog | source/pasco2_terminal_ui_task.c:180-220 | The `p` branch: prompt, echoed line, outcome message, and the configuration calls of `PeriodCommand` on the typed line. |
| TerminalUi.TerminalUiTask.ApplyPeriod | source/pasco2_terminal_ui_task.c:185-218 | No message without a number, a range error for a truncated period outside [5, 4095], and otherwise the reconfiguration. |
| TerminalUi.TerminalUiTask.Reconfigure | source/pasco2_terminal_ui_task.c:195-216 | Makes the three calls in order (idle, rate, continuous) whatever each returns. Reports success exactly when the OR of the three statuses is 0. |
| TerminalUi.TerminalUiTask.DiagDialog | source/pasco2_terminal_ui_task.c:222-231 | The `i` branch: prompt, echoed line, then either the logging confirmation with `log_internal` set, or the input error with `log_internal` unchanged. |
| TerminalUi.TerminalUiTask.ApplyAnswer | source/pasco2_terminal_ui_task.c:225-230 | Accepts exactly `y` and `n` and switches logging to `value[0] == 'y'`. Anything else prints the input error and changes nothing. |

## Left out

- Hardware and RTOS plumbing is not modelled: the I2C, GPIO and timer initialisation, the interrupt configuration and the creation of the console thread (`source/pasco2_task.c:142-250`). What remains is the `use_dps` decision, given to the `SensorTask` constructor, and the initial LED state. `source/main.c` is not part of this model.
- Pasco2Task.SensorTask.Cycle: the DPS3xx pressure arrives as a `uint16` already converted, or as None when the read failed. The float read and its conversion to `uint16_t` are not modelled. Only the 1015.0 fallback goes through the modelled truncation.
- Pasco2Task.SensorTask.Cycle: `CY_ASSERT(0)` after a failed DPS3xx read is modelled as the `Halted` outcome. The failure paths of `cy_rtos_get_time` (line 282) and of `cy_rtos_delay_milliseconds` (line 338), both `CY_ASSERT(0)`, are assumed not to occur.
- The sensor driver is not part of this model. The CO2 read, the status read and the three configuration calls are inputs: the function `co2Read`, the optional status byte, and the statuses `s1`, `s2`, `s3`.
- The driver constants (ICCER 0x08, ORVS 0x10, ORTMP 0x20, READ_NRDY 7, ERR_COMM 1, measurement-rate limits 5 and 4095) are taken from the driver headers, which are not part of this model. `DecodeStatus` and its row state the faults as bits 3, 4 and 5, the header's positions. The period lemmas (`PeriodInRange`, `PeriodOutOfRange`, `PeriodTruncatedBeforeRangeCheck`, the saturation and wrap-around lemmas and their examples) use the limits 5 and 4095, which the range message at `source/pasco2_terminal_ui_task.c:191` also states. The other decoding and classification lemmas need only distinct single-bit masks and two different codes.
- The configuration structure's `boc_cfg` field, which is the same automatic value in both calls, is not modelled. A configuration call carries only its operating mode.
- Exact `printf` text and formatting are not modelled. Messages are identified by class (`Board.Out`), and the ppm and period messages carry their values.
- Timing (`vTaskDelay`, the 1 s loop delay) and concurrency between the two tasks are left out. This includes unsynchronised access to the flags and the console's bus reconfiguration while the loop runs. Each task is modelled as a sequential step over the shared flag state.
- TerminalUi.TerminalUiTask.HandleKey: the `cyhal_uart_getc` poll at line 168 is modelled only once a key has arrived. A poll that fails repeats the loop without any effect.
- TerminalUi.Readline: failures of `cyhal_uart_getc` and `cyhal_uart_putc` inside readline (`CY_ASSERT(0)`) are assumed not to occur.
- TerminalUi.ParseLong: models `strtol` in base 10 with a 32-bit `long`: leading whitespace, an optional sign, a digit run, and saturation on overflow. `errno` is not modelled, and `isspace` is the C locale's.
- Bytes are modelled as `char`. The receive stream is `nat -> char`, so it could carry values above 255, which the source's `uint8_t rx_value` never holds. `IsSpace`, `IsDigit` and the `y`/`n` tests agree with C on 0 to 255, so no property about real input is lost.
