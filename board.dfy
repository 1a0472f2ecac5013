/** What the acquisition task and the console task share on the board: the
    fixed-width integers of the C code and the serial console (the retarget-io
    UART) that both of them print to. */
module Board {

  /** C's uint16_t. */
  type uint16 = x: int | 0 <= x < 0x1_0000

  datatype Option<+T> = None | Some(value: T)

  /** One item written to the serial console: a byte echoed by the line
      editor, or one printed message, identified by its class rather than
      by its text. */
  datatype Out =
    | Echo(c: char)
    // printed by source/pasco2_task.c
    | LoggingEnabled | LoggingDisabled
    | PressureReadError
    | PpmLevel(ppm: uint16)
    | NotReadyLog | CommErrorLog | UnexpectedLog
    | SensorCommErrorLog | OverVoltageLog | OverTemperatureLog
    // printed by source/pasco2_terminal_ui_task.c
    | Menu | Hint
    | PeriodPrompt | PeriodRangeError | PeriodSet(period: uint16) | PeriodError
    | DiagPrompt | InputError

  /** The byte at position `i` of the receive stream. This only applies
      `rx`; naming the application keeps the verifier from reasoning about
      the heap around it. */
  function At(rx: nat -> char, i: nat): char {
    rx(i)
  }

  /** The console UART. `rx` is everything the user will ever type, in
      order; `rxPos` counts the bytes received so far; `tx` is everything
      written so far. */
  class Uart {
    const rx: nat -> char
    var rxPos: nat
    var tx: seq<Out>

    constructor (rx: nat -> char)
      ensures this.rx == rx && rxPos == 0 && tx == []
    {
      this.rx := rx;
      rxPos := 0;
      tx := [];
    }

    /** cyhal_uart_getc with no timeout: the next byte typed. */
    method Getc() returns (c: char)
      modifies this`rxPos
      ensures c == At(rx, old(rxPos)) && rxPos == old(rxPos) + 1
    {
      c := rx(rxPos);
      rxPos := rxPos + 1;
    }

    /** cyhal_uart_putc: echo one byte. */
    method Putc(c: char)
      modifies this`tx
      ensures tx == old(tx) + [Echo(c)]
    {
      tx := tx + [Echo(c)];
    }

    /** printf of one message. */
    method Print(m: Out)
      modifies this`tx
      ensures tx == old(tx) + [m]
    {
      tx := tx + [m];
    }
  }
}
