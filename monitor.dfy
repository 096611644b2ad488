/**
 * The monitoring loop of `ingest/main.cpp`: every iteration resets the
 * three status flags, classifies temperature, vibration and distance
 * against fixed thresholds, cuts the relay on a shutdown condition, numbers
 * the reading, writes three long-format records to the serial port, reports
 * the state and lights exactly one LED.
 *
 * The sensor drivers, the clock and the serial port are replaced by inputs
 * (a `Reading` and the millisecond counter) and by a log of the lines written.
 */
module Monitor {
  import opened Text
  import opened LongFormat

  const TempWarning: real := 60.0
  const TempCritical: real := 80.0
  const TempShutdown: real := 90.0
  const VibWarning: real := 1.0
  const VibCritical: real := 2.0
  const DistMin: real := 5.0
  const DistMax: real := 250.0
  const DistWarningLow: real := 10.0
  const DistWarningHigh: real := 200.0

  /** The value DallasTemperature returns for a sensor that does not answer. */
  const DeviceDisconnectedC: real := -127.0

  /** Frequency of the buzzer tone in the critical state. */
  const BuzzerHz: nat := 1000

  /** The three values one iteration reads from its sensors. */
  datatype Reading = Reading(temperature: real, vibration: real, distance: real)

  /** systemNormal, systemWarning, systemCritical. */
  datatype Flags = Flags(normal: bool, warning: bool, critical: bool)

  datatype Status = Normal | Alerta | Critico

  /** Levels of the three LEDs, and the buzzer tone (0 when silent). */
  datatype Indicators = Indicators(green: bool, yellow: bool, red: bool, buzzerHz: nat)

  /** The lines the program writes to the serial port, apart from its start-up messages. */
  datatype SerialLine =
    | CsvHeader
    | DataRow(idLocal: int, timeMs: int, sensorId: int, value: real)
    | TemperatureFailure
    | Emergency
    | StatusLine(status: Status)

  predicate TemperatureRead(r: Reading) {
    r.temperature != DeviceDisconnectedC
  }

  /**
   * The temperature block of loop() raises critical above the critical level
   * (or at the shutdown level), else warning above the warning level, and
   * nothing when the sensor is disconnected.
   */
  predicate TemperatureCritical(t: real) {
    t != DeviceDisconnectedC && (t > TempCritical || t >= TempShutdown)
  }

  predicate TemperatureWarning(t: real) {
    t != DeviceDisconnectedC && !(t > TempCritical || t >= TempShutdown) && t > TempWarning
  }

  /** The vibration block: critical above its critical level, else warning above its warning level. */
  predicate VibrationCritical(v: real) {
    v > VibCritical
  }

  predicate VibrationWarning(v: real) {
    !(v > VibCritical) && v > VibWarning
  }

  /** The distance block: critical outside [DistMin, DistMax], else warning outside [DistWarningLow, DistWarningHigh]. */
  predicate DistanceCritical(d: real) {
    d < DistMin || d > DistMax
  }

  predicate DistanceWarning(d: real) {
    !(d < DistMin || d > DistMax) && (d < DistWarningLow || d > DistWarningHigh)
  }

  /**
   * The flags one iteration ends with: reset to normal, then each of the
   * three blocks may raise critical or warning; none clears a flag. As bands
   * of each reading: critical when any reading is past its critical level,
   * warning when any reading is in its warning band. Both can hold at once
   * (one reading critical, another in warning); a disconnected temperature
   * sensor raises neither.
   */
  function Classify(r: Reading): (f: Flags)
    // systemNormal is set at every reset and never cleared
    ensures f.normal
    ensures f.critical <==>
      || (TemperatureRead(r) && r.temperature > TempCritical)
      || r.vibration > VibCritical
      || r.distance < DistMin || r.distance > DistMax
    ensures f.warning <==>
      || (TemperatureRead(r) && TempWarning < r.temperature <= TempCritical)
      || VibWarning < r.vibration <= VibCritical
      || DistMin <= r.distance < DistWarningLow
      || DistWarningHigh < r.distance <= DistMax
  {
    Flags(
      true,
      TemperatureWarning(r.temperature) || VibrationWarning(r.vibration) || DistanceWarning(r.distance),
      TemperatureCritical(r.temperature) || VibrationCritical(r.vibration) || DistanceCritical(r.distance))
  }

  /** The conditions under which an iteration drives the relay LOW. */
  predicate TripsRelay(r: Reading) {
    TemperatureShutdown(r.temperature) || VibrationCritical(r.vibration)
  }

  /** A connected sensor at or above the shutdown level. */
  predicate TemperatureShutdown(t: real) {
    t != DeviceDisconnectedC && t >= TempShutdown
  }

  /** A shutdown condition is always also critical. */
  lemma ShutdownIsCritical(r: Reading)
    requires TripsRelay(r)
    ensures Classify(r).critical
  {
  }

  /** The reported state: critical before warning before normal. */
  function StatusOf(f: Flags): Status {
    if f.critical then Critico else if f.warning then Alerta else Normal
  }

  /** The reported state depends on the current reading alone, band by band. */
  lemma StatusOfReading(r: Reading)
    ensures StatusOf(Classify(r)) == Normal <==>
      && (!TemperatureRead(r) || r.temperature <= TempWarning)
      && r.vibration <= VibWarning
      && DistWarningLow <= r.distance <= DistWarningHigh
    ensures StatusOf(Classify(r)) == Critico <==>
      || (TemperatureRead(r) && r.temperature > TempCritical)
      || r.vibration > VibCritical
      || r.distance < DistMin || r.distance > DistMax
  {
  }

  /**
   * updateStatusIndicators: the LEDs and buzzer for a set of flags. Exactly
   * one LED is lit, the one the reported state calls for; the buzzer sounds
   * only when critical.
   */
  function IndicatorsFor(f: Flags): (ind: Indicators)
    ensures (ind.green && !ind.yellow && !ind.red) || (!ind.green && ind.yellow && !ind.red) || (!ind.green && !ind.yellow && ind.red)
    ensures ind.red <==> StatusOf(f) == Critico
    ensures ind.yellow <==> StatusOf(f) == Alerta
    ensures ind.green <==> StatusOf(f) == Normal
    ensures ind.buzzerHz != 0 <==> StatusOf(f) == Critico
  {
    if f.critical then Indicators(false, false, true, BuzzerHz)
    else if f.warning then Indicators(false, true, false, 0)
    else Indicators(true, false, false, 0)
  }

  /** What one iteration writes, in the order loop() writes it. */
  function LoopLines(idLocal: int, nowMs: int, r: Reading): seq<SerialLine> {
    TemperatureMessage(r.temperature)
    + [DataRow(idLocal, nowMs, 1, r.temperature), DataRow(idLocal, nowMs, 2, r.vibration), DataRow(idLocal, nowMs, 3, r.distance)]
    + [StatusLine(StatusOf(Classify(r)))]
  }

  /**
   * One iteration writes four or five lines: a failure or emergency message
   * exactly when the sensor is disconnected or the shutdown level is reached,
   * the three records of the reading under one id and timestamp with sensor
   * ids 1, 2, 3, and the reported state last.
   */
  lemma LoopLinesLayout(idLocal: int, nowMs: int, r: Reading)
    ensures var lines := LoopLines(idLocal, nowMs, r);
      && 4 <= |lines| <= 5
      && ((|lines| == 5) <==> !TemperatureRead(r) || r.temperature >= TempShutdown)
      && (|lines| == 5 ==> lines[0] == (if TemperatureRead(r) then Emergency else TemperatureFailure))
      && var d := |lines| - 4;
      && lines[d] == DataRow(idLocal, nowMs, 1, r.temperature)
      && lines[d + 1] == DataRow(idLocal, nowMs, 2, r.vibration)
      && lines[d + 2] == DataRow(idLocal, nowMs, 3, r.distance)
      && lines[|lines| - 1] == StatusLine(StatusOf(Classify(r)))
  {
  }

  /**
   * The message the temperature block prints: at most one line, the failure
   * message for a disconnected sensor, the emergency message at or above the
   * shutdown level, and nothing otherwise.
   */
  function TemperatureMessage(temperature: real): (m: seq<SerialLine>)
    ensures |m| <= 1
    ensures |m| == 1 <==> temperature == DeviceDisconnectedC || temperature >= TempShutdown
    ensures |m| == 1 ==> m[0] == (if temperature == DeviceDisconnectedC then TemperatureFailure else Emergency)
  {
    if temperature == DeviceDisconnectedC then [TemperatureFailure]
    else if temperature >= TempShutdown then [Emergency]
    else []
  }

  /** Everything the model tracks of the program's globals and pins. */
  datatype MonitorState = MonitorState(
    flags: Flags,
    reading: Reading,
    relayHigh: bool,
    indicators: Indicators,
    leituraIdLocal: int,
    serial: seq<SerialLine>)

  /** The state right after setup(). */
  const AfterSetup: MonitorState :=
    MonitorState(Flags(true, false, false), Reading(0.0, 0.0, 0.0), true, Indicators(false, false, false, 0), 0, [CsvHeader])

  /**
   * One call of loop() on a reading, taken at millisecond count nowMs. The
   * counter advances by one, the serial log only grows, by four or five
   * lines, the relay can go LOW but never back HIGH, and the flags and LEDs
   * depend on this reading alone.
   */
  function LoopSpec(s: MonitorState, r: Reading, nowMs: int): (t: MonitorState)
    ensures t.leituraIdLocal == s.leituraIdLocal + 1
    ensures |s.serial| + 4 <= |t.serial| <= |s.serial| + 5 && t.serial[..|s.serial|] == s.serial
    ensures t.relayHigh ==> s.relayHigh
    ensures TripsRelay(r) ==> !t.relayHigh
    ensures t.flags == Classify(r) && t.indicators == IndicatorsFor(Classify(r))
  {
    var f := Classify(r);
    var id := s.leituraIdLocal + 1;
    MonitorState(f, r, s.relayHigh && !TripsRelay(r), IndicatorsFor(f), id, s.serial + LoopLines(id, nowMs, r))
  }

  datatype Sample = Sample(reading: Reading, nowMs: int)

  /**
   * The state after loop() has run once per sample, in order. The serial log
   * is append-only: what was written before is never rewritten.
   */
  function Replay(s: MonitorState, samples: seq<Sample>): (t: MonitorState)
    ensures |s.serial| <= |t.serial| && t.serial[..|s.serial|] == s.serial
    decreases |samples|
  {
    if |samples| == 0 then s
    else
      var last := samples[|samples| - 1];
      LoopSpec(Replay(s, samples[..|samples| - 1]), last.reading, last.nowMs)
  }

  /**
   * The relay latches: after any number of iterations it is still HIGH
   * exactly when it was HIGH before and no iteration met a shutdown condition.
   */
  lemma {:induction false} RelayLatches(s: MonitorState, samples: seq<Sample>)
    ensures Replay(s, samples).relayHigh <==>
      s.relayHigh && forall k :: 0 <= k < |samples| ==> !TripsRelay(samples[k].reading)
    decreases |samples|
  {
    if |samples| > 0 {
      var init := samples[..|samples| - 1];
      RelayLatches(s, init);
      assert forall k :: 0 <= k < |init| ==> init[k] == samples[k];
    }
  }

  /**
   * After n iterations the counter has grown by n, the flags and LEDs reflect
   * the last reading alone, and the serial log has grown by at least four
   * lines per iteration.
   */
  lemma {:induction false} ReplayCounts(s: MonitorState, samples: seq<Sample>)
    ensures Replay(s, samples).leituraIdLocal == s.leituraIdLocal + |samples|
    ensures 4 * |samples| <= |Replay(s, samples).serial| - |s.serial| <= 5 * |samples|
    ensures |samples| > 0 ==>
      var last := samples[|samples| - 1].reading;
      Replay(s, samples).flags == Classify(last) && Replay(s, samples).indicators == IndicatorsFor(Classify(last))
    decreases |samples|
  {
    if |samples| > 0 {
      ReplayCounts(s, samples[..|samples| - 1]);
    }
  }

  /**
   * The hundredths Serial.print(x, 2) shows: the magnitude plus half a
   * hundredth, truncated, with the sign of x.
   */
  function PrintedHundredths(x: real): (k: int)
    ensures -0.5 <= x * 100.0 - k as real <= 0.5
  {
    var magnitude := if x < 0.0 then -x else x;
    Signed(x < 0.0, (magnitude * 100.0 + 0.5).Floor)
  }

  /**
   * Text of Serial.print(x, 2): sign, whole part, '.', two digits. It reads
   * back as the hundredths it shows, and holds no delimiter.
   */
  function ValueText(x: real): (t: string)
    ensures ParseDecimal(t) == Some(PrintedHundredths(x))
    ensures Delimiter !in t
  {
    var magnitude := if x < 0.0 then -x else x;
    var h := (magnitude * 100.0 + 0.5).Floor;
    var frac := h % 100;
    HundredthsText(x < 0.0, h);
    DecimalTextExcludes(x < 0.0, h / 100, [DigitChar(frac / 10), DigitChar(frac % 10)], Delimiter);
    DecimalText(x < 0.0, h / 100, [DigitChar(frac / 10), DigitChar(frac % 10)])
  }

  /**
   * The text of a serial line. A line logDataToSerial writes reads back as
   * id_local;data_hora_ms;id_sensor;valor, the value as the hundredths
   * printed; no other line the program writes reads as a record.
   */
  function Render(line: SerialLine): (text: string)
    ensures line.DataRow? ==>
      ParseRecordLine(text) == Some(Row(line.idLocal, line.timeMs, line.sensorId, PrintedHundredths(line.value)))
    ensures !line.DataRow? ==> ParseRecordLine(text) == None
  {
    match line
    case CsvHeader =>
      HeaderIsNoRecord();
      HeaderLine()
    case DataRow(idLocal, timeMs, sensorId, value) =>
      ParseRecordLineOf(idLocal, timeMs, sensorId, ValueText(value), PrintedHundredths(value));
      RecordLine(idLocal, timeMs, sensorId, ValueText(value))
    case TemperatureFailure =>
      var m := "Falha ao ler o sensor de temperatura!";
      MessageIsNoRecord(m);
      m
    case Emergency =>
      // The message of main.cpp:116, in three pieces: the verifier does not
      // index into one literal of this length.
      var m := "EMERGÊNCIA: " + "Equipamento desligado " + "por superaquecimento!";
      MessageIsNoRecord(m);
      m
    case StatusLine(status) =>
      var m := "ESTADO: " + (match status case Critico => "CRÍTICO" case Alerta => "ALERTA" case Normal => "NORMAL");
      MessageIsNoRecord(m);
      m
  }

  /** A line without the delimiter is a single field, so it never reads as a record. */
  lemma MessageIsNoRecord(text: string)
    requires Delimiter !in text
    ensures ParseRecordLine(text) == None
  {
    SplitWithoutSep(text, Delimiter);
  }

  /**
   * The postcondition of Station.Loop, stated field by field, is one step of
   * LoopSpec on the whole state: the replay lemmas apply to every call.
   */
  twostate lemma LoopIsLoopSpec(st: Station, reading: Reading, nowMs: int)
    requires Flags(st.systemNormal, st.systemWarning, st.systemCritical) == Classify(reading)
    requires Reading(st.temperature, st.vibration, st.distance) == reading
    requires st.relayHigh == (old(st.relayHigh) && !TripsRelay(reading))
    requires Indicators(st.ledGreen, st.ledYellow, st.ledRed, st.buzzerHz) == IndicatorsFor(Classify(reading))
    requires st.leituraIdLocal == old(st.leituraIdLocal) + 1
    requires st.serial == old(st.serial) + LoopLines(st.leituraIdLocal, nowMs, reading)
    ensures st.State() == LoopSpec(old(st.State()), reading, nowMs)
  {
  }

  /** The board's globals and output pins. */
  class Station {
    var systemNormal: bool
    var systemWarning: bool
    var systemCritical: bool
    var temperature: real
    var vibration: real
    var distance: real
    var relayHigh: bool
    var ledGreen: bool
    var ledYellow: bool
    var ledRed: bool
    var buzzerHz: nat
    var leituraIdLocal: int
    var serial: seq<SerialLine>

    function State(): MonitorState
      reads this
    {
      MonitorState(
        Flags(systemNormal, systemWarning, systemCritical),
        Reading(temperature, vibration, distance),
        relayHigh,
        Indicators(ledGreen, ledYellow, ledRed, buzzerHz),
        leituraIdLocal,
        serial)
    }

    /** setup(): LEDs and buzzer LOW, relay HIGH, then the CSV header. */
    constructor Setup()
      ensures State() == AfterSetup
    {
      systemNormal, systemWarning, systemCritical := true, false, false;
      temperature, vibration, distance := 0.0, 0.0, 0.0;
      leituraIdLocal := 0;
      ledGreen, ledYellow, ledRed := false, false, false;
      buzzerHz := 0;
      relayHigh := true;
      serial := [CsvHeader];
    }

    /**
     * loop(), on the values the three sensors return and the current
     * millis(). The new state is, field by field, LoopSpec(old(State()),
     * reading, nowMs).
     */
    method Loop(reading: Reading, nowMs: int)
      modifies this
      ensures Flags(systemNormal, systemWarning, systemCritical) == Classify(reading)
      ensures Reading(temperature, vibration, distance) == reading
      ensures relayHigh == (old(relayHigh) && !TripsRelay(reading))
      ensures Indicators(ledGreen, ledYellow, ledRed, buzzerHz) == IndicatorsFor(Classify(reading))
      ensures leituraIdLocal == old(leituraIdLocal) + 1
      ensures serial == old(serial) + LoopLines(leituraIdLocal, nowMs, reading)
    {
      systemNormal := true;
      systemWarning := false;
      systemCritical := false;

      MonitorTemperature(reading.temperature);
      MonitorVibration(reading.vibration);
      MonitorDistance(reading.distance);
      assert Flags(systemNormal, systemWarning, systemCritical) == Classify(reading);

      EmitRecords(nowMs);
      assert serial == old(serial) + LoopLines(leituraIdLocal, nowMs, reading);
      UpdateStatusIndicators();
    }

    /** Step 1 of loop(): read the temperature, raise a flag, cut the relay at the shutdown level. */
    method MonitorTemperature(reading: real)
      modifies this`temperature, this`systemWarning, this`systemCritical, this`relayHigh, this`serial
      ensures temperature == reading
      ensures systemCritical == (old(systemCritical) || TemperatureCritical(reading))
      ensures systemWarning == (old(systemWarning) || TemperatureWarning(reading))
      ensures relayHigh == (old(relayHigh) && !TemperatureShutdown(reading))
      ensures serial == old(serial) + TemperatureMessage(reading)
    {
      temperature := reading;
      if temperature == DeviceDisconnectedC {
        serial := serial + [TemperatureFailure];
      } else {
        if temperature > TempCritical || temperature >= TempShutdown {
          systemCritical := true;
          if temperature >= TempShutdown {
            relayHigh := false;
            serial := serial + [Emergency];
          }
        } else if temperature > TempWarning {
          systemWarning := true;
        }
      }
    }

    /** Step 2 of loop(): the acceleration magnitude, with the relay cut above the critical level. */
    method MonitorVibration(reading: real)
      modifies this`vibration, this`systemWarning, this`systemCritical, this`relayHigh
      ensures vibration == reading
      ensures systemCritical == (old(systemCritical) || VibrationCritical(reading))
      ensures systemWarning == (old(systemWarning) || VibrationWarning(reading))
      ensures relayHigh == (old(relayHigh) && !VibrationCritical(reading))
    {
      vibration := reading;
      if vibration > VibCritical {
        systemCritical := true;
        relayHigh := false;
      } else if vibration > VibWarning {
        systemWarning := true;
      }
    }

    /** Step 3 of loop(): the distance, which raises flags but never touches the relay. */
    method MonitorDistance(reading: real)
      modifies this`distance, this`systemWarning, this`systemCritical
      ensures distance == reading
      ensures systemCritical == (old(systemCritical) || DistanceCritical(reading))
      ensures systemWarning == (old(systemWarning) || DistanceWarning(reading))
    {
      distance := reading;
      if distance < DistMin || distance > DistMax {
        systemCritical := true;
      } else if distance < DistWarningLow || distance > DistWarningHigh {
        systemWarning := true;
      }
    }

    /** The stream section of loop(): the next id, three records stamped nowMs, then the state line. */
    method EmitRecords(nowMs: int)
      modifies this`leituraIdLocal, this`serial
      ensures leituraIdLocal == old(leituraIdLocal) + 1
      ensures serial == old(serial)
        + [DataRow(leituraIdLocal, nowMs, 1, temperature), DataRow(leituraIdLocal, nowMs, 2, vibration), DataRow(leituraIdLocal, nowMs, 3, distance)]
        + [StatusLine(StatusOf(Flags(systemNormal, systemWarning, systemCritical)))]
    {
      leituraIdLocal := leituraIdLocal + 1;
      var dataHoraMs := nowMs;
      LogDataToSerial(leituraIdLocal, dataHoraMs, 1, temperature);
      LogDataToSerial(leituraIdLocal, dataHoraMs, 2, vibration);
      LogDataToSerial(leituraIdLocal, dataHoraMs, 3, distance);
      var status := if systemCritical then Critico else if systemWarning then Alerta else Normal;
      serial := serial + [StatusLine(status)];
    }

    /** Clears every LED and the buzzer, then lights the one the flags call for. */
    method UpdateStatusIndicators()
      modifies this`ledGreen, this`ledYellow, this`ledRed, this`buzzerHz
      ensures Indicators(ledGreen, ledYellow, ledRed, buzzerHz) == IndicatorsFor(Flags(systemNormal, systemWarning, systemCritical))
    {
      ledGreen, ledYellow, ledRed := false, false, false;
      buzzerHz := 0;
      if systemCritical {
        ledRed := true;
        buzzerHz := BuzzerHz;
      } else if systemWarning {
        ledYellow := true;
      } else {
        ledGreen := true;
      }
    }

    /** Appends one record line: id_local;data_hora_ms;id_sensor;valor. */
    method LogDataToSerial(idLocal: int, timeMs: int, sensorId: int, valor: real)
      modifies this`serial
      ensures serial == old(serial) + [DataRow(idLocal, timeMs, sensorId, valor)]
    {
      serial := serial + [DataRow(idLocal, timeMs, sensorId, valor)];
    }
  }
}
