# Ingest layer of the industrial sensor monitor, in Dafny

This project models the two programs of the ingest layer that produce the
long-format sensor stream `id_local;data_hora_ms;id_sensor;valor`:

- `ingest/simulacao_sensores.py`, the synthetic stream generator. It has
  a registry of three sensors (temperature, vibration, distance/level) and
  one running trend per sensor held in module globals. At every time point
  `gerar_leitura_variavel` takes a clamped random-walk step. Fault offsets
  are then added to the temperature (+3.0 for 50 < i < 70 or 150 < i < 170)
  and the vibration (+0.5 for 90 < i < 110). One record per sensor is
  written with the value rounded to two decimals. `main` writes a header and
  then time points 1..NUM_LEITURAS, stamped `tempo_base + i * INTERVALO_MS`.
- `ingest/main.cpp`, the ESP32 firmware. Each `loop()` does the following:
  - resets the three status flags;
  - classifies temperature, vibration and distance against fixed thresholds;
  - drives the relay LOW on a shutdown condition;
  - numbers the reading with `leitura_id_local`;
  - writes three records, then the state line, to the serial port;
  - lights exactly one LED through `updateStatusIndicators`.

Modules:

| file | module | what it holds |
|---|---|---|
| `walk.dfy` | `RandomWalk` | the clamped walk step and walks of many steps |
| `rounding.dfy` | `Rounding` | `round(x, 2)` as a count of hundredths, ties to even |
| `simulation.dfy` | `Simulation` | the sensor registry, the `Simulator` class with the three trend globals, `simular_ponto_no_tempo`, and the run as a function of the draws |
| `text.dfy` | `Text` | decimal text of integers and two-decimal values, `str.split`/join on a delimiter, with readers that invert each writer |
| `long_format.dfy` | `LongFormat` | the header and record lines shared by both programs |
| `simulation_file.dfy` | `SimulationFile` | `main`: the loop that writes the file, and what the file reads back as |
| `monitor.dfy` | `Monitor` | the firmware's flags, relay latch, counter, serial output and LEDs, as the `Station` class and a replay function |

Modelling choices:

- **Numbers.** Values are exact reals. `round(x, 2)` is the nearest hundredth
  of the exact value, with a tie going to the even neighbour
  (`Rounding.Hundredths`). `Serial.print(x, 2)` is the magnitude plus 0.005,
  truncated to hundredths, with the sign in front
  (`Monitor.PrintedHundredths`).
- **Inputs.** Each time point's three `random.uniform` draws are an input
  (`Draw`), each required to lie within its sensor's largest step. The clock
  readings `tempo_base` and `millis()` are parameters. The three sensor values
  of a `loop()` iteration are a `Reading` parameter.
- **Output.** Written output is a sequence of lines. For the firmware it is a
  sequence of `SerialLine` values, which `Render` turns into text.

How the generator behaves around its fault windows:

- **No re-clamp after a fault offset.** The offset is added to the trend
  after the walk step has clamped it (`ingest/simulacao_sensores.py:60`,
  `:70`). Nothing clamps it before the record is emitted; the next time
  point's walk clamps it back into range. Emitted temperatures and vibrations can
  therefore exceed the sensor's maximum, by up to the offset
  (`Simulation.TemperatureCanPassMaximum`, `Simulation.VibrationCanPassMaximum`,
  `Simulation.RunRecordsInBounds`).
- **The stored trend is not rounded.** The trend global keeps the unrounded
  value, and only the record's value is rounded (`:55-56`, `:61`;
  `Simulation.TrendKeepsUnroundedValue`, `Simulation.RunStep`).
- **The windows do not force the critical level.** The program's comments
  say the temperature offset forces a critical peak (`:58` "Força um pico
  crítico", `:60` "para forçar o CRÍTICO"). It does not. Whatever the draws,
  the temperature record of time point 69, the last step of the first window,
  is at least 62.6, which is above the alert level of 60
  (`Simulation.FirstWindowReachesAlert`). Draws that always step down keep
  every temperature value of that window at or below 62.6, below the
  critical level of 80 (`Simulation.FirstWindowCanStayBelowCritical`). So 62.6
  is the tight bound.
- **No warming trend.** The comment at `:53` says the temperature rises
  0.5% per reading. The step is drawn symmetrically (`:31`), so outside
  the windows the trend has no drift: with downward draws it falls 0.8 per
  time point down to the floor (`Simulation.DescentBeforeWindow`).
- **The distance sensor gets no offset.** Only the temperature and vibration
  branches add an offset. The distance trend stays in [5.0, 250.0]
  (`Simulation.DistanceTrendInRange`).

## Model

| member | source | states |
|---|---|---|
| RandomWalk.GerarLeituraVariavel | ingest/simulacao_sensores.py:29-40 | the result lies in [min, max] whenever min <= max; an empty range yields max because the upper test comes second; a step that stays in range is taken exactly; the two sequential tests equal min(max(x, lo), hi); from an in-range value the clamp only pulls toward the current value, so the move is at most maxDelta |
| RandomWalk.WalkStaysInRange | ingest/simulacao_sensores.py:35-38 | any number of walk steps from an in-range value stays in range |
| RandomWalk.SticksAtCeiling | ingest/simulacao_sensores.py:37-38 | a value pegged at the maximum stays there while the draws push upward |
| Rounding.Hundredths | ingest/simulacao_sensores.py:56 | round(x, 2) picks the count of hundredths within half a hundredth of x, a tie going to the even count |
| Rounding.Round2 | ingest/simulacao_sensores.py:56 | the rounded value is within 0.005 of x |
| Rounding.HundredthsMonotone | ingest/simulacao_sensores.py:56 | rounding preserves order |
| Rounding.Round2Idempotent | ingest/simulacao_sensores.py:56 | rounding a rounded value changes nothing |
| Rounding.Round2Between | ingest/simulacao_sensores.py:56 | a value between two whole hundredths rounds to a value between them |
| Simulation.NextTemp | ingest/simulacao_sensores.py:52-61 | outside the windows the temperature trend stays in [20, 100]; inside them it lies in [23, 103] and is not clamped again; from an in-range trend it moves by the offset plus at most 0.8; inside a window it rises by at least 2.2, up to 103 |
| Simulation.NextVib | ingest/simulacao_sensores.py:63-71 | the same for vibration: [0.1, 3.0] outside the window, [0.6, 3.5] inside it, a move of the offset plus at most 0.1 |
| Simulation.NextDist | ingest/simulacao_sensores.py:73-76 | the distance trend always lies in [5, 250] and moves by at most 5 from an in-range trend |
| Simulation.Advance | ingest/simulacao_sensores.py:52-76 | one time point's update of the three trend globals: NextTemp, NextVib and NextDist, whose contracts carry the ranges and step sizes; its sequencing over a run is stated by Simulation.TrendsStep and Simulation.RunStep |
| Simulation.PointRecords | ingest/simulacao_sensores.py:46-86 | one time point emits exactly len(SENSORES) = 3 records, in registry order 1, 2, 3, all with id_local = leitura_id and data_hora_ms = tempo_ms, each carrying its sensor's rounded trend |
| Simulation.Simulator.constructor | ingest/simulacao_sensores.py:22-24 | the trend globals start at 30.0, 0.5 and 150.0 |
| Simulation.Simulator.SimularPontoNoTempo | ingest/simulacao_sensores.py:42-86 | the loop over SENSORES advances the three trend globals by one walk step plus the window offsets and returns that time point's records |
| Simulation.TrendsAfter | ingest/simulacao_sensores.py:107-111 | the trend globals after time points 1..n, each advancing those the previous one left; Simulation.TrendsStep states that step |
| Simulation.RunRecords | ingest/simulacao_sensores.py:107-116 | the records main writes for time points 1..n, in order: NUM_LEITURAS × len(SENSORES) = 3n of them |
| Simulation.TrendsStep | ingest/simulacao_sensores.py:107-111 | the trends after time point i are those after i-1 advanced once, with the draws of time point i |
| Simulation.RunRecordsExtend | ingest/simulacao_sensores.py:107-113 | running one more time point advances the trends once and appends that time point's records |
| Simulation.RunPoint | ingest/simulacao_sensores.py:107-113 | records 3g..3g+2 of a run are exactly the three records of time point g+1, stamped tempo_base + (g+1) × INTERVALO_MS and computed from the trends after g+1 steps |
| Simulation.RunRecordsAt | ingest/simulacao_sensores.py:107-113 | record 3g+k of a run is sensor k+1's record of time point g+1, computed from the trends after g+1 steps |
| Simulation.RunRecordFields | ingest/simulacao_sensores.py:107-113 | record j has id_local j/3 + 1, timestamp tempo_base + (j/3 + 1) × INTERVALO_MS and sensor j%3 + 1 |
| Simulation.TimestampOf | ingest/simulacao_sensores.py:108 | the stamp of time point i, tempo_base + i × INTERVALO_MS; how it orders the records is stated by Simulation.RunTimestamps |
| Simulation.RunTimestamps | ingest/simulacao_sensores.py:107-108 | timestamps never decrease, are shared within a time point, and grow by exactly INTERVALO_MS (with id_local by 1) from one time point to the next |
| Simulation.RunRecordsInBounds | ingest/simulacao_sensores.py:52-76 | every emitted value lies in its sensor's range outside the fault windows: temperature in [20, 100], vibration in [0.1, 3.0], and distance always in [5, 250]. Inside its window the temperature lies in [23, 103] and the vibration in [0.6, 3.5], the range lifted by the offset |
| Simulation.RunStep | ingest/simulacao_sensores.py:52-76 | each time point walks each trend from where the previous one left it, adds the offset to the stored trend inside its window so that it persists, and emits the rounded trend while the trend stays unrounded |
| Simulation.DistanceTrendInRange | ingest/simulacao_sensores.py:73-76 | the distance trend never leaves [5.0, 250.0] |
| Simulation.TemperatureWindowClimb | ingest/simulacao_sensores.py:59-60 | across consecutive window time points the temperature trend climbs at least 2.2 per time point, up to 103 |
| Simulation.FirstWindowTrendFloor | ingest/simulacao_sensores.py:59-60 | whatever the draws, the temperature trend after time point 69 is at least 62.6 |
| Simulation.FirstWindowReachesAlert | ingest/simulacao_sensores.py:58-61 | whatever the draws, the temperature record of time point 69 (record 3 × 68) holds at least 62.6, above the alert level of 60; with FirstWindowCanStayBelowCritical this bound is tight |
| Simulation.DescentBeforeWindow | ingest/simulacao_sensores.py:54-55 | before the first window, downward draws lower the temperature by 0.8 per time point, down to the floor |
| Simulation.SlowClimbInWindow | ingest/simulacao_sensores.py:55-60 | inside the first window, downward draws let the temperature climb only 2.2 per time point after the first window step |
| Simulation.FirstWindowCanStayBelowCritical | ingest/simulacao_sensores.py:58-61 | the first window does not force the critical level: with downward draws every temperature value it emits is at most 62.6 |
| Simulation.TemperatureCanPassMaximum | ingest/simulacao_sensores.py:59-61 | at time point 151, the first of the second window, a trend the walk holds at 100 emits 103.0, above the maximum of 100 |
| Simulation.VibrationCanPassMaximum | ingest/simulacao_sensores.py:69-71 | an emitted vibration can be 3.5, above the maximum of 3.0 |
| Simulation.TrendKeepsUnroundedValue | ingest/simulacao_sensores.py:55-56 | the stored trend keeps digits (30.004) that the record rounds away (30.0) |
| Text.SplitJoin | ingest/simulacao_sensores.py:100 | fields joined by the delimiter split back into the same fields when none contains it |
| Text.ParseIntToString | ingest/main.cpp:223-227 | an integer printed in decimal reads back as itself |
| Text.HundredthsText | ingest/main.cpp:229 | a count of hundredths printed with two fraction digits reads back as itself |
| Text.TenthsText | ingest/simulacao_sensores.py:113 | a count of hundredths that is a whole number of tenths, printed with one fraction digit as Python does, reads back as itself |
| LongFormat.HeaderLine | ingest/simulacao_sensores.py:97-103 | the header writeheader writes: the column names joined by the delimiter; its text and columns are stated by LongFormat.HeaderLineText and LongFormat.HeaderLineColumns |
| LongFormat.HeaderLineText | ingest/simulacao_sensores.py:97-103 | the header line is id_local;data_hora_ms;id_sensor;valor |
| LongFormat.HeaderLineColumns | ingest/simulacao_sensores.py:97-103 | the header splits back into the four column names in order |
| LongFormat.HeaderIsNoRecord | ingest/simulacao_sensores.py:97-103 | the header line does not read back as a record |
| LongFormat.RecordLine | ingest/simulacao_sensores.py:100 | the four fields of a record joined by the delimiter, in column order; stated by LongFormat.RecordLineFields and LongFormat.ParseRecordLineOf |
| LongFormat.RecordLineFields | ingest/simulacao_sensores.py:100 | a record line has exactly the four fields it was made from, in column order |
| LongFormat.ParseRecordLineOf | ingest/simulacao_sensores.py:100 | reading a record line back yields the numbers it was written from |
| SimulationFile.ValorText | ingest/simulacao_sensores.py:113 | the text csv writes for the float round(x, 2): its shortest decimal form, one fraction digit when the second is zero; what it reads back as is stated by SimulationFile.ParseValorText |
| SimulationFile.ParseValorText | ingest/simulacao_sensores.py:113 | the text written for a value reads back as the hundredths round(x, 2) chose and holds no delimiter |
| SimulationFile.RecordText | ingest/simulacao_sensores.py:113 | the line DictWriter writes for one record; what it reads back as is stated by SimulationFile.RecordTextReadsBack |
| SimulationFile.RecordTextReadsBack | ingest/simulacao_sensores.py:113 | a written record line reads back as its id_local, data_hora_ms, id_sensor and the hundredths round(x, 2) chose |
| SimulationFile.WriteRows | ingest/simulacao_sensores.py:113 | writerows writes one line per record |
| SimulationFile.WriteRowsAppend | ingest/simulacao_sensores.py:113 | writing two batches of records writes the lines of the first, then those of the second |
| SimulationFile.WriteRowsAt | ingest/simulacao_sensores.py:113 | line j is the text of record j |
| SimulationFile.WriteRowsAfterHeader | ingest/simulacao_sensores.py:110-113 | the lines of a batch of records follow the header and the lines already written |
| SimulationFile.LinesExtend | ingest/simulacao_sensores.py:107-113 | the lines of time point i follow those of time points 1..i-1 |
| SimulationFile.GenerateFile | ingest/simulacao_sensores.py:97-113 | main's loop leaves the trends advanced by every time point and writes the header followed by the lines of every record of the run, in order |
| SimulationFile.FileLineReadsBack | ingest/simulacao_sensores.py:103-113 | in a file of a header and records, line j + 1 reads back as record j |
| SimulationFile.GeneratedFileContents | ingest/simulacao_sensores.py:97-116 | the file has 1 + 3n lines, and line j + 1 reads back as time point j/3 + 1, stamped tempo_base + (j/3 + 1) × INTERVALO_MS, sensor j%3 + 1 and the rounded value |
| SimulationFile.EmptyRunIsHeaderOnly | ingest/simulacao_sensores.py:103-107 | with NUM_LEITURAS = 0 the file is the header alone |
| Monitor.Classify | ingest/main.cpp:99-147 | after an iteration systemNormal holds; critical holds exactly when a connected temperature is above 80, the vibration above 2.0, or the distance outside [5, 250]; warning holds exactly when a connected temperature is in (60, 80], the vibration in (1.0, 2.0], or the distance in [5, 10) or (200, 250]; a disconnected sensor raises no flag |
| Monitor.TripsRelay | ingest/main.cpp:112-134 | the conditions under which an iteration drives the relay LOW: a connected temperature at or above 90, or a vibration above 2.0; Monitor.RelayLatches and Monitor.ShutdownIsCritical state what follows from them |
| Monitor.ShutdownIsCritical | ingest/main.cpp:112-134 | every condition that drives the relay LOW also sets critical |
| Monitor.StatusOf | ingest/main.cpp:165-168 | the state line's choice: CRÍTICO when critical, else ALERTA when warning, else NORMAL; stated in terms of the reading by Monitor.StatusOfReading and tied to the LEDs by Monitor.IndicatorsFor |
| Monitor.StatusOfReading | ingest/main.cpp:99-168 | the state line depends only on the current reading: NORMAL exactly when no reading is in a warning or critical band, CRÍTICO exactly when one is critical |
| Monitor.IndicatorsFor | ingest/main.cpp:197-216 | exactly one LED is HIGH, red for CRÍTICO, yellow for ALERTA, green for NORMAL, and the buzzer sounds exactly when critical |
| Monitor.TemperatureMessage | ingest/main.cpp:108-117 | the temperature block prints at most one message: the failure message exactly for a disconnected sensor, the emergency message exactly at or above the shutdown level, otherwise nothing |
| Monitor.LoopLines | ingest/main.cpp:108-168 | the lines one iteration writes, in order; their layout is stated by Monitor.LoopLinesLayout, and Monitor.Station.Loop and Monitor.LoopSpec append them |
| Monitor.LoopLinesLayout | ingest/main.cpp:108-168 | an iteration writes four or five lines: a failure or emergency message exactly when the sensor is disconnected or at the shutdown level, then three records with one id and one timestamp for sensors 1, 2, 3, then the state line |
| Monitor.LoopSpec | ingest/main.cpp:98-174 | one iteration raises the counter by one, only appends four or five lines to the serial log, can drive the relay LOW but never HIGH (and does so on every shutdown condition), and sets the flags and LEDs from this reading alone |
| Monitor.Replay | ingest/main.cpp:98-174 | over any number of iterations the serial log is append-only: earlier lines are never rewritten |
| Monitor.RelayLatches | ingest/main.cpp:112-137 | after any number of iterations the relay is HIGH exactly when it was HIGH before and no iteration met a shutdown condition: once LOW it stays LOW |
| Monitor.ReplayCounts | ingest/main.cpp:98-171 | n iterations raise leitura_id_local by exactly n and write between 4n and 5n lines, and the flags and LEDs reflect the last reading alone |
| Monitor.PrintedHundredths | ingest/main.cpp:229 | the value printed with two decimals is within half a hundredth of the value |
| Monitor.ValueText | ingest/main.cpp:229 | the text of Serial.print(x, 2) reads back as the hundredths it shows and holds no delimiter |
| Monitor.Render | ingest/main.cpp:221-229 | a line logDataToSerial writes reads back as id_local;data_hora_ms;id_sensor;valor with the printed hundredths; the other lines the program prints (the header at line 95, the messages at lines 109 and 116, the state line at lines 165-168) never read back as a record |
| Monitor.MessageIsNoRecord | ingest/main.cpp:109 | a line without the delimiter never reads back as a record |
| Monitor.Station.Setup | ingest/main.cpp:76-95 | after setup the relay is HIGH, the LEDs and buzzer are off, the counter is 0 and the CSV header has been written |
| Monitor.Station.Loop | ingest/main.cpp:98-174 | one iteration sets the flags to the classification of the reading, keeps the relay HIGH only if it was HIGH and nothing tripped it, sets the LEDs for the flags, increments the counter by one and appends that iteration's lines |
| Monitor.LoopIsLoopSpec | ingest/main.cpp:98-174 | the field-by-field effect of one iteration is exactly one LoopSpec step on the whole state, so the replay lemmas describe successive calls |
| Monitor.Station.MonitorTemperature | ingest/main.cpp:104-121 | the temperature block adds its critical or warning flag, cuts the relay at the shutdown level and writes the failure or emergency message |
| Monitor.Station.MonitorVibration | ingest/main.cpp:123-137 | the vibration block adds its flag and cuts the relay above the critical level |
| Monitor.Station.MonitorDistance | ingest/main.cpp:139-147 | the distance block adds its flag and never touches the relay |
| Monitor.Station.EmitRecords | ingest/main.cpp:149-168 | the counter grows by one, the three records carry it and one timestamp with sensor ids 1, 2, 3, then the state line follows |
| Monitor.Station.UpdateStatusIndicators | ingest/main.cpp:197-216 | the LEDs and buzzer become those IndicatorsFor gives for the flags |
| Monitor.Station.LogDataToSerial | ingest/main.cpp:221-229 | one record line is appended to the serial output |

## Left out

- The random number generator: the draws are inputs that are only required to lie within each sensor's largest step.
- `time.time()`, `millis()` and `delay(1000)`: the base timestamp and each iteration's millisecond count are parameters.
- Opening the file, csv quoting and line endings, and the three console messages of `main`: the file is its sequence of lines, and no field ever needs quoting.
- Binary floating point in both programs: values are exact reals. `Rounding.Hundredths` can therefore differ from Python for values whose binary form sits just off a tie (Python's `round(2.675, 2)` is 2.67).
- Python's text for floats of 1e16 and above (exponent form) and for negative zero. No emitted value is negative or that large.
- The Arduino printing of `ovf`, `nan` and `inf`, and float32 precision of the sensor values.
- The sensor drivers (`sensors.getTempCByIndex`, `mpu.getAcceleration` and the `sqrt` of the acceleration, `measureDistance`): the three values are inputs. DEVICE_DISCONNECTED_C is -127, the value the DallasTemperature library defines; that library is not part of this model.
- The WiFi connection and the start-up and MPU error messages of `setup()`: the serial output is modelled from the CSV header on.
- The 32-bit range of `long`: `leitura_id_local` and the timestamps are unbounded integers, so overflow and the wrap of `millis()` are not modelled.
- Arduino calling `loop()` forever: successive iterations are modelled by the function `Monitor.Replay` over a sequence of samples; `Monitor.LoopIsLoopSpec` ties each `Station.Loop` call to one step of it.
- `systemNormal` is carried as a field. It is always true after the reset and never read.
- `dashboard/dashboard_app.py` is not part of this model.
