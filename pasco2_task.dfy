/** The acquisition side of the demo (source/pasco2_task.c): the two flags the
    console task flips, the conditional-log gate, the decoding of the sensor
    status byte, and one pass of the sampling loop. */
module Pasco2Task {
  import opened Board

  /** Pressure (hPa) used when no DPS3xx pressure sensor answered at start-up. */
  const DEFAULT_PRESSURE_VALUE: real := 1015.0

  /** Fault bits of the PAS CO2 status register (SENS_STS): communication
      error, over-voltage, over-temperature. */
  const ICCER_MSK: bv8 := 0x08
  const ORVS_MSK: bv8 := 0x10
  const ORTMP_MSK: bv8 := 0x20
  const FAULT_MSK: bv8 := ICCER_MSK | ORVS_MSK | ORTMP_MSK

  /** The two result codes of the driver's read that the loop tells apart. */
  const XENSIV_PASCO2_ERR_COMM: uint16 := 1
  const XENSIV_PASCO2_READ_NRDY: uint16 := 7

  /** C's conversion of a float to uint16_t, for the values where it is
      defined (non-negative and below 2^16): truncation toward zero. */
  function TruncateToUint16(p: real): (r: uint16)
    requires 0.0 <= p < 65536.0
    ensures r as real <= p < r as real + 1.0
  {
    p.Floor
  }

  /** The pressure handed to the CO2 read: the DPS3xx reading (None when that
      read failed) or the fallback constant. */
  function PressureArgument(useDps: bool, dpsRead: Option<uint16>): (p: Option<uint16>)
    ensures !useDps ==> p == Some(1015)
    ensures useDps ==> p == dpsRead
  {
    if useDps then dpsRead else Some(TruncateToUint16(DEFAULT_PRESSURE_VALUE))
  }

  // ---------------------------------------------------------------------------
  // Status decoding and the warning LED
  // ---------------------------------------------------------------------------

  datatype FaultSet = FaultSet(commError: bool, overVoltage: bool, overTemperature: bool)

  /** The three independent bit tests of the loop: communication error is
      bit 3 of SENS_STS, over-voltage bit 4, over-temperature bit 5. */
  function DecodeStatus(status: bv8): (f: FaultSet)
    ensures f.commError <==> (status >> 3) & 1 == 1
    ensures f.overVoltage <==> (status >> 4) & 1 == 1
    ensures f.overTemperature <==> (status >> 5) & 1 == 1
  {
    FaultSet(status & ICCER_MSK != 0, status & ORVS_MSK != 0, status & ORTMP_MSK != 0)
  }

  /** The warning LED is on when any fault is present. */
  predicate AnyFault(f: FaultSet) {
    f.commError || f.overVoltage || f.overTemperature
  }

  /** The status byte that carries exactly the faults of `f`. */
  function EncodeFaults(f: FaultSet): (s: bv8)
    ensures s & FAULT_MSK == s
  {
    (if f.commError then ICCER_MSK else 0)
    | (if f.overVoltage then ORVS_MSK else 0)
    | (if f.overTemperature then ORTMP_MSK else 0)
  }

  lemma DecodeEncode(f: FaultSet)
    ensures DecodeStatus(EncodeFaults(f)) == f
  {
  }

  /** Decoding keeps the three fault bits and forgets every other bit. */
  lemma EncodeDecode(s: bv8)
    ensures EncodeFaults(DecodeStatus(s)) == s & FAULT_MSK
    ensures DecodeStatus(s) == DecodeStatus(s & FAULT_MSK)
  {
  }

  /** Each fault is a test of its own bit: the faults of a combined status
      are the pointwise OR of the faults of its parts. */
  lemma DecodeIsPerBit(s: bv8, t: bv8)
    ensures DecodeStatus(s | t).commError == (DecodeStatus(s).commError || DecodeStatus(t).commError)
    ensures DecodeStatus(s | t).overVoltage == (DecodeStatus(s).overVoltage || DecodeStatus(t).overVoltage)
    ensures DecodeStatus(s | t).overTemperature == (DecodeStatus(s).overTemperature || DecodeStatus(t).overTemperature)
  {
  }

  lemma WarningIffFaultBit(s: bv8)
    ensures AnyFault(DecodeStatus(s)) <==> s & FAULT_MSK != 0
  {
  }

  // ---------------------------------------------------------------------------
  // Read results and what one cycle prints
  // ---------------------------------------------------------------------------

  /** What the compensated CO2 read returns: a value, or a failed result
      whose code part is `code`. */
  datatype ReadResult = ReadOk(ppm: uint16) | ReadFailed(code: uint16)

  datatype ReadClass = Ready(ppm: uint16) | NotReady | CommError | Unexpected

  function ClassifyRead(r: ReadResult): (c: ReadClass)
    ensures c.Ready? <==> r.ReadOk?
    ensures c.Ready? ==> c.ppm == r.ppm
    ensures r.ReadFailed? ==> (c.NotReady? <==> r.code == XENSIV_PASCO2_READ_NRDY)
    ensures r.ReadFailed? ==> (c.CommError? <==> r.code == XENSIV_PASCO2_ERR_COMM)
    ensures r.ReadFailed? ==>
      (c.Unexpected? <==> r.code != XENSIV_PASCO2_READ_NRDY && r.code != XENSIV_PASCO2_ERR_COMM)
  {
    match r
    case ReadOk(ppm) => Ready(ppm)
    case ReadFailed(code) =>
      if code == XENSIV_PASCO2_READ_NRDY then NotReady
      else if code == XENSIV_PASCO2_ERR_COMM then CommError
      else Unexpected
  }

  /** The conditional_log macro: the message goes out only when diagnostic
      logging and ppm display are both on. */
  function ConditionalLogOutput(logInternal: bool, displayPpm: bool, m: Out): (r: seq<Out>)
    ensures r == [] || r == [m]
    ensures r == [m] <==> logInternal && displayPpm
  {
    if logInternal && displayPpm then [m] else []
  }

  /** What the read part of a cycle prints. */
  function ReadReport(c: ReadClass, logInternal: bool, displayPpm: bool): (r: seq<Out>)
    ensures |r| <= 1
    ensures c.Ready? ==> (r == [PpmLevel(c.ppm)] <==> displayPpm) && (r == [] <==> !displayPpm)
    ensures !c.Ready? ==> (r != [] <==> logInternal && displayPpm)
    ensures c.NotReady? ==> r == [] || r == [NotReadyLog]
    ensures c.CommError? ==> r == [] || r == [CommErrorLog]
    ensures c.Unexpected? ==> r == [] || r == [UnexpectedLog]
  {
    match c
    case Ready(ppm) => if displayPpm then [PpmLevel(ppm)] else []
    case NotReady => ConditionalLogOutput(logInternal, displayPpm, NotReadyLog)
    case CommError => ConditionalLogOutput(logInternal, displayPpm, CommErrorLog)
    case Unexpected => ConditionalLogOutput(logInternal, displayPpm, UnexpectedLog)
  }

  /** How many of the three faults are present. */
  function FaultCount(f: FaultSet): (n: nat)
    ensures n <= 3
    ensures n == 0 <==> !AnyFault(f)
  {
    (if f.commError then 1 else 0) + (if f.overVoltage then 1 else 0) + (if f.overTemperature then 1 else 0)
  }

  /** What the status part of a cycle prints for the faults `f`. With both
      flags on, one line per fault present: as many lines as faults, and the
      line of each fault present among them. */
  function StatusReport(f: FaultSet, logInternal: bool, displayPpm: bool): (r: seq<Out>)
    ensures |r| == if logInternal && displayPpm then FaultCount(f) else 0
    ensures logInternal && displayPpm ==>
      && (SensorCommErrorLog in r <==> f.commError)
      && (OverVoltageLog in r <==> f.overVoltage)
      && (OverTemperatureLog in r <==> f.overTemperature)
  {
    (if f.commError then ConditionalLogOutput(logInternal, displayPpm, SensorCommErrorLog) else [])
    + (if f.overVoltage then ConditionalLogOutput(logInternal, displayPpm, OverVoltageLog) else [])
    + (if f.overTemperature then ConditionalLogOutput(logInternal, displayPpm, OverTemperatureLog) else [])
  }

  /** The status lines come in the order the bits are tested, and are
      nothing but fault lines. */
  lemma StatusReportOrdered(f: FaultSet, logInternal: bool, displayPpm: bool)
    ensures var r := StatusReport(f, logInternal, displayPpm);
      forall i, j :: 0 <= i < j < |r| ==> TestOrder(r[i]) < TestOrder(r[j]) <= 2
  {
  }

  /** The position of a fault's line among the three bit tests. */
  function TestOrder(m: Out): int {
    match m
    case SensorCommErrorLog => 0
    case OverVoltageLog => 1
    case OverTemperatureLog => 2
    case _ => 3
  }

  /** Everything a completed cycle prints: the read report, then, when the
      status byte could be read, the status report. */
  function CycleReport(c: ReadClass, status: Option<bv8>, logInternal: bool, displayPpm: bool): (r: seq<Out>)
    ensures |r| <= 4
    ensures !(logInternal && displayPpm) ==> |r| <= 1
    ensures !(logInternal && displayPpm) && r != [] ==> c.Ready? && r == [PpmLevel(c.ppm)]
  {
    ReadReport(c, logInternal, displayPpm)
    + (if status.Some? then StatusReport(DecodeStatus(status.value), logInternal, displayPpm) else [])
  }

  /** With ppm display off a completed cycle prints nothing at all, whatever
      the read and status results are. (A failed DPS3xx read still prints its
      error before the cycle halts.) */
  lemma SilentWhenDisplayOff(c: ReadClass, status: Option<bv8>, logInternal: bool)
    ensures CycleReport(c, status, logInternal, false) == []
  {
  }

  /** Sequence concatenation regroups. Dafny knows this; it is stated as a
      lemma only so that the methods which need it stay cheap to verify. */
  lemma Associative(a: seq<Out>, b: seq<Out>, c: seq<Out>)
    ensures a + b + c == a + (b + c)
  {
  }

  datatype CycleOutcome = Halted | Completed(pressure: uint16)

  /** The sensor's answer to a CO2 read compensated at `pressure`. This only
      applies `co2Read`; naming the application keeps the verifier from
      reasoning about the heap around it. */
  function CompensatedRead(co2Read: uint16 -> ReadResult, pressure: uint16): ReadResult {
    co2Read(pressure)
  }

  // ---------------------------------------------------------------------------
  // The task's state
  // ---------------------------------------------------------------------------

  /** The module-level state of pasco2_task.c and the board outputs the loop
      drives. `useDps` is decided once, by whether the DPS3xx answered. */
  class SensorTask {
    const uart: Uart
    const useDps: bool
    var logInternal: bool
    var displayPpm: bool
    var warningLed: bool

    /** The flags start as `log_internal = false`, `display_ppm = true`; the
        warning LED pin is initialised off. */
    constructor (uart: Uart, dpsInitOk: bool)
      ensures this.uart == uart && useDps == dpsInitOk
      ensures !logInternal && displayPpm && !warningLed
    {
      this.uart := uart;
      useDps := dpsInitOk;
      logInternal := false;
      displayPpm := true;
      warningLed := false;
    }

    /** pasco2_enable_internal_logging: announce, then set `log_internal`. */
    method EnableInternalLogging(enable: bool)
      modifies this`logInternal, uart`tx
      ensures logInternal == enable
      ensures displayPpm == old(displayPpm) && warningLed == old(warningLed)
      ensures uart.tx == old(uart.tx) + [if enable then LoggingEnabled else LoggingDisabled]
      ensures uart.rxPos == old(uart.rxPos)
    {
      if enable {
        uart.Print(LoggingEnabled);
      } else {
        uart.Print(LoggingDisabled);
      }
      logInternal := enable;
    }

    /** pasco2_display_ppm: set `display_ppm` and nothing else. */
    method DisplayPpm(enable: bool)
      modifies this`displayPpm
      ensures displayPpm == enable
      ensures logInternal == old(logInternal) && warningLed == old(warningLed)
    {
      displayPpm := enable;
    }

    /** The conditional_log macro in the task's current state. */
    method ConditionalLog(m: Out)
      modifies uart`tx
      ensures uart.tx == old(uart.tx) + ConditionalLogOutput(logInternal, displayPpm, m)
    {
      if logInternal && displayPpm {
        uart.Print(m);
      }
    }

    /** The read half of a loop pass: print the value, or sort the failure
        into not-ready, communication error or unexpected and log it. */
    method ReportRead(result: ReadResult)
      modifies uart`tx
      ensures uart.tx == old(uart.tx) + ReadReport(ClassifyRead(result), logInternal, displayPpm)
    {
      if result.ReadOk? {
        if displayPpm {
          uart.Print(PpmLevel(result.ppm));
        }
      } else if result.code == XENSIV_PASCO2_READ_NRDY {
        ConditionalLog(NotReadyLog);
      } else if result.code == XENSIV_PASCO2_ERR_COMM {
        ConditionalLog(CommErrorLog);
      } else {
        ConditionalLog(UnexpectedLog);
      }
    }

    /** The status half of a loop pass, once the status byte was read: test
        the three fault bits one by one, log each, and drive the warning LED
        from whether any was set. */
    method CheckStatus(sensorStatus: bv8)
      modifies this`warningLed, uart`tx
      ensures warningLed == AnyFault(DecodeStatus(sensorStatus))
      ensures uart.tx == old(uart.tx) + StatusReport(DecodeStatus(sensorStatus), logInternal, displayPpm)
    {
      var errorStatus := false;
      if sensorStatus & ICCER_MSK != 0 {
        ConditionalLog(SensorCommErrorLog);
        errorStatus := true;
      }
      if sensorStatus & ORVS_MSK != 0 {
        ConditionalLog(OverVoltageLog);
        errorStatus := true;
      }
      if sensorStatus & ORTMP_MSK != 0 {
        ConditionalLog(OverTemperatureLog);
        errorStatus := true;
      }
      warningLed := errorStatus;
    }

    /** One pass of the `for (;;)` loop. `dpsRead` is what the DPS3xx read
        gives (None: it failed), `co2Read` is the sensor's answer to a
        compensated read at a given pressure, and `status` is the status
        byte (None: the status read failed). */
    method Cycle(dpsRead: Option<uint16>, co2Read: uint16 -> ReadResult, status: Option<bv8>)
      returns (outcome: CycleOutcome)
      modifies this`warningLed, uart`tx
      ensures outcome.Halted? <==> PressureArgument(useDps, dpsRead).None?
      ensures outcome.Halted? ==>
        uart.tx == old(uart.tx) + [PressureReadError] && warningLed == old(warningLed)
      ensures outcome.Completed? ==>
        && outcome.pressure == PressureArgument(useDps, dpsRead).value
        && uart.tx == old(uart.tx)
                      + CycleReport(ClassifyRead(CompensatedRead(co2Read, outcome.pressure)), status, logInternal, displayPpm)
        && warningLed == (if status.Some? then AnyFault(DecodeStatus(status.value)) else old(warningLed))
    {
      var pressure: uint16;
      if useDps {
        if dpsRead.None? {
          uart.Print(PressureReadError);
          return Halted;
        }
        pressure := dpsRead.value;
      } else {
        pressure := TruncateToUint16(DEFAULT_PRESSURE_VALUE);
      }

      var result := CompensatedRead(co2Read, pressure);
      Report(result, status);
      outcome := Completed(pressure);
    }

    /** The part of the loop after the CO2 read: report the read, then, when
        the status register could be read, report its faults and set the LED. */
    method Report(result: ReadResult, status: Option<bv8>)
      modifies this`warningLed, uart`tx
      ensures uart.tx == old(uart.tx) + CycleReport(ClassifyRead(result), status, logInternal, displayPpm)
      ensures warningLed == (if status.Some? then AnyFault(DecodeStatus(status.value)) else old(warningLed))
    {
      ghost var tx0 := uart.tx;
      ReportRead(result);
      ghost var readPart := ReadReport(ClassifyRead(result), logInternal, displayPpm);
      ghost var statusPart: seq<Out> := [];
      if status.Some? {
        CheckStatus(status.value);
        statusPart := StatusReport(DecodeStatus(status.value), logInternal, displayPpm);
      }
      Associative(tx0, readPart, statusPart);
    }
  }
}
